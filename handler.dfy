/** `handler` of index.mjs: load the NFT, optimize its asset (and its audio), upload
    the web derivative, merge the results into the document, release the temporary
    files and save. */
module Handler {
  import opened Js
  import opened Hex
  import opened Mime
  import opened Naming
  import opened Protocol
  import opened Dispatch
  import opened Stages
  import opened Optimizer
  import opened Record
  import opened TempFs

  /** The body passed to the callback: the text "Success", or the caught error. */
  datatype Body = Message(text: string) | Thrown

  datatype Response = Response(statusCode: int, body: Body)

  const Success: Response := Response(200, Message("Success"))
  const Failure: Response := Response(500, Thrown)

  /** What `NFT.findById(event.id).exec()` gives: it throws, finds nothing, or loads a
      document. */
  datatype Lookup = LookupFails | NotFound | Found(originalAsset: JsStr, originalAudio: JsStr, fields: Fields)

  /** Everything the collaborators report for one invocation: the network, the codecs
      on the asset, the random draws, and whether `nft.save()` succeeds. */
  datatype World = World(net: Net, codecs: Codecs, draws: Draws, audioDraw: Random24, saves: bool)

  /** The response given to the callback (None: it is never called), the temporary
      files afterwards, and the fields saved to the database (None: nothing saved). */
  datatype Outcome = Outcome(response: Option<Response>, live: set<string>, saved: Option<Fields>)

  /** The storage key of the web derivative. */
  function WebKey(cfg: Config, id: string, w: WebOutput): string {
    StorageKey(cfg.webFolder, id, Text(w.mimeType.ext))
  }

  /** The web derivative the handler uploads and unlinks, if any. */
  function WebRelease(r: OptimizerResult): Option<WebOutput> {
    if r.web.Some? && Truthy(Some(r.web.value.path)) then r.web else None
  }

  function AssetUrl(lookup: Lookup): string
    requires lookup.Found? && Truthy(lookup.originalAsset)
  {
    ProtocolParser(lookup.originalAsset.value)
  }

  function AudioUrl(lookup: Lookup): string
    requires lookup.Found? && Truthy(lookup.originalAudio)
  {
    ProtocolParser(lookup.originalAudio.value)
  }

  /** The audio optimizer's result; it runs only when the document has an audio URL. */
  function AudioOf(lookup: Lookup, cfg: Config, id: string, world: World): Option<AudioResult>
    requires lookup.Found?
  {
    if Truthy(lookup.originalAudio) then AudioOptimized(cfg, world.net, AudioUrl(lookup), id, world.audioDraw) else None
  }

  /** The whole invocation. A lookup failure, a failed web upload, an unlink of a missing
      file, the audio-key read and a failed save all answer 500; a document without an
      asset, or a result the web optimizer could not produce, leaves the callback
      uncalled; everything else answers 200 after saving the merge. */
  function Handled(live: set<string>, lookup: Lookup, cfg: Config, id: string, world: World): (o: Outcome)
    ensures lookup.LookupFails? ==> o == Outcome(Some(Failure), live, None)
    ensures (lookup.NotFound? || (lookup.Found? && !Truthy(lookup.originalAsset))) ==> o == Outcome(None, live, None)
    ensures o.response.Some? ==> o.response.value == Success || o.response.value == Failure
    ensures o.saved.Some? <==> o.response == Some(Success)
    ensures o.response == Some(Success) ==>
      && lookup.Found? && Truthy(lookup.originalAsset)
      && WebOptimized(cfg, world.net, AssetUrl(lookup), id, world.draws, world.codecs).Some?
      && world.saves
    ensures o.response == Some(Success) ==>
      var r := WebOptimized(cfg, world.net, AssetUrl(lookup), id, world.draws, world.codecs).value;
      var audio := AudioOf(lookup, cfg, id, world);
      && !AudioKeyThrows(r, audio)
      && o.saved == Some(Merged(lookup.fields, r, audio, cfg, id))
      && (WebRelease(r).Some? ==> world.net.put(WebKey(cfg, id, WebRelease(r).value)))
    ensures (lookup.Found? && Truthy(lookup.originalAsset) &&
             WebOptimized(cfg, world.net, AssetUrl(lookup), id, world.draws, world.codecs).None?) ==> o.response.None?
  {
    match lookup
    case LookupFails => Outcome(Some(Failure), live, None)
    case NotFound => Outcome(None, live, None)
    case Found(asset, audioRef, f) =>
      if !Truthy(asset) then Outcome(None, live, None)
      else
        var url := AssetUrl(lookup);
        var result := WebOptimized(cfg, world.net, url, id, world.draws, world.codecs);
        var audio := AudioOf(lookup, cfg, id, world);
        var l2 := TailLive(live, lookup, cfg, id, world);
        if result.None? then Outcome(None, l2, None)
        else Finished(l2, f, result.value, audio, cfg, id, world)
  }

  /** The temporary files once both optimizers have run: those the web optimizer left,
      then the audio download when the document has an audio URL. */
  function TailLive(live: set<string>, lookup: Lookup, cfg: Config, id: string, world: World): set<string>
    requires lookup.Found? && Truthy(lookup.originalAsset)
  {
    var l1 := WebLive(live, cfg, world.net, AssetUrl(lookup), id, world.draws, world.codecs);
    if Truthy(lookup.originalAudio) then AudioLive(l1, cfg, world.net, AudioUrl(lookup), world.audioDraw) else l1
  }

  /** The temporary files after the derivative's unlink. */
  function AfterWebUnlink(live: set<string>, r: OptimizerResult): set<string> {
    if WebRelease(r).Some? then live - {WebRelease(r).value.path} else live
  }

  /** From `if (result)` on: upload and unlink the web derivative, merge, save. */
  function Finished(live: set<string>, f: Fields, r: OptimizerResult, audio: Option<AudioResult>, cfg: Config, id: string, world: World): (o: Outcome)
    ensures o.response.Some? && (o.response.value == Success || o.response.value == Failure)
    ensures o.saved.Some? <==> o.response == Some(Success)
    ensures o.response == Some(Success) ==>
      && world.saves
      && !AudioKeyThrows(r, audio)
      && o.saved == Some(Merged(f, r, audio, cfg, id))
      && (WebRelease(r).Some? ==> world.net.put(WebKey(cfg, id, WebRelease(r).value)))
    ensures o.response == Some(Success) <==>
      && (WebRelease(r).Some? ==> world.net.put(WebKey(cfg, id, WebRelease(r).value)) && WebRelease(r).value.path in live)
      && !ApplyOutcome(AfterWebUnlink(live, r), r, audio).0
      && world.saves
    ensures o.response == Some(Success) ==> o.live == ApplyOutcome(AfterWebUnlink(live, r), r, audio).1
    ensures o.live <= live
  {
    var web := WebRelease(r);
    if web.Some? && !world.net.put(WebKey(cfg, id, web.value)) then Outcome(Some(Failure), live, None)
    else if web.Some? && web.value.path !in live then Outcome(Some(Failure), live, None)
    else
      var l3 := if web.Some? then live - {web.value.path} else live;
      var applied := ApplyOutcome(l3, r, audio);
      if applied.0 || !world.saves then Outcome(Some(Failure), applied.1, None)
      else Outcome(Some(Success), applied.1, Some(Merged(f, r, audio, cfg, id)))
  }

  method Finish(fs: TempFiles, nft: Nft, r: OptimizerResult, audio: Option<AudioResult>, cfg: Config, id: string, world: World)
    returns (response: Option<Response>, saved: Option<Fields>)
    modifies fs, nft
    ensures Outcome(response, fs.live, saved) == Finished(old(fs.live), old(nft.Derived()), r, audio, cfg, id, world)
  {
    if r.web.Some? && Truthy(Some(r.web.value.path)) {
      if !world.net.put(StorageKey(cfg.webFolder, id, Text(r.web.value.mimeType.ext))) {
        return Some(Failure), None;
      }
      var unlinked := fs.Unlink(r.web.value.path);
      if !unlinked {
        assert fs.live == old(fs.live);
        return Some(Failure), None;
      }
    }
    var thrown := nft.Apply(fs, r, audio, cfg, id);
    if thrown || !world.saves {
      return Some(Failure), None;
    }
    response, saved := Some(Success), Some(nft.Derived());
  }

  method Handler(fs: TempFiles, lookup: Lookup, cfg: Config, id: string, world: World)
    returns (response: Option<Response>, saved: Option<Fields>)
    modifies fs
    ensures Outcome(response, fs.live, saved) == Handled(old(fs.live), lookup, cfg, id, world)
  {
    if lookup.LookupFails? {
      return Some(Failure), None;
    }
    if lookup.NotFound? {
      return None, None;
    }
    var nft := new Nft(lookup.originalAsset, lookup.originalAudio, lookup.fields);
    if !Truthy(nft.originalAsset) {
      return None, None;
    }
    var result := WebOptimizer(fs, cfg, world.net, ProtocolParser(nft.originalAsset.value), id, world.draws, world.codecs);
    var audio: Option<AudioResult> := None;
    if Truthy(nft.originalAudio) {
      audio := AudioOptimizer(fs, cfg, world.net, ProtocolParser(nft.originalAudio.value), id, world.audioDraw);
    }
    if result.None? {
      return None, None;
    }
    response, saved := Finish(fs, nft, result.value, audio, cfg, id, world);
  }

  // ------------------------------------------------------------------ properties

  /** Every storage upload succeeds. */
  ghost predicate UploadsSucceed(net: Net) {
    forall k :: net.put(k)
  }

  /** A document whose asset cannot be typed is still answered with 200, and it is
      saved unchanged; no temporary file is touched. */
  lemma UndetectedAssetStillSucceeds(live: set<string>, lookup: Lookup, cfg: Config, id: string, world: World)
    requires lookup.Found? && Truthy(lookup.originalAsset) && !Truthy(lookup.originalAudio)
    requires Detect(world.net, AssetUrl(lookup)).Rejected? && world.saves
    ensures Handled(live, lookup, cfg, id, world) == Outcome(Some(Success), live, Some(lookup.fields))
  {
    BlankMergeIsIdentity(lookup.fields, cfg, id);
    assert ApplyOutcome(live, Blank, None) == (false, live);
  }

  /** The raw and web keys written into the saved document are keys that were uploaded. */
  lemma StoredKeysWereUploaded(live: set<string>, lookup: Lookup, cfg: Config, id: string, world: World)
    requires Handled(live, lookup, cfg, id, world).response == Some(Success)
    ensures var s := Handled(live, lookup, cfg, id, world).saved.value;
      && (s.asset != lookup.fields.asset ==> s.asset.Some? && world.net.put(s.asset.value))
      && (s.webAsset != lookup.fields.webAsset ==> s.webAsset.Some? && world.net.put(s.webAsset.value))
  {
    var url := AssetUrl(lookup);
    var r := WebOptimized(cfg, world.net, url, id, world.draws, world.codecs).value;
    var s := Handled(live, lookup, cfg, id, world).saved.value;
    if s.asset != lookup.fields.asset {
      assert Detect(world.net, url).Detected?;
    }
  }

  /** Once the web optimizer produced a result, the handler answers 200 exactly when the
      derivative's upload succeeds, every unlink (the derivative, the download, the
      audio download) finds its file, the audio key can be read and the save succeeds;
      otherwise it answers 500. On 200 exactly those files are gone. */
  lemma HandledAnswers(live: set<string>, lookup: Lookup, cfg: Config, id: string, world: World)
    requires lookup.Found? && Truthy(lookup.originalAsset)
    requires WebOptimized(cfg, world.net, AssetUrl(lookup), id, world.draws, world.codecs).Some?
    ensures var r := WebOptimized(cfg, world.net, AssetUrl(lookup), id, world.draws, world.codecs).value;
      var audio, l := AudioOf(lookup, cfg, id, world), TailLive(live, lookup, cfg, id, world);
      var o := Handled(live, lookup, cfg, id, world);
      && o.response.Some?
      && (o.response == Some(Success) <==>
           && (WebRelease(r).Some? ==> world.net.put(WebKey(cfg, id, WebRelease(r).value)) && WebRelease(r).value.path in l)
           && !ApplyOutcome(AfterWebUnlink(l, r), r, audio).0
           && world.saves)
      && (o.response == Some(Success) ==> o.live == ApplyOutcome(AfterWebUnlink(l, r), r, audio).1)
  {
  }

  /** Without audio, a document whose asset the web optimizer handled goes on to the
      tail with the files the optimizer left. */
  lemma HandledWithoutAudio(live: set<string>, lookup: Lookup, cfg: Config, id: string, world: World)
    requires lookup.Found? && Truthy(lookup.originalAsset) && !Truthy(lookup.originalAudio)
    requires WebOptimized(cfg, world.net, AssetUrl(lookup), id, world.draws, world.codecs).Some?
    ensures Handled(live, lookup, cfg, id, world)
         == Finished(WebLive(live, cfg, world.net, AssetUrl(lookup), id, world.draws, world.codecs), lookup.fields,
                     WebOptimized(cfg, world.net, AssetUrl(lookup), id, world.draws, world.codecs).value, None, cfg, id, world)
  {
  }

  /** When the web upload and the save succeed and both files exist, the tail answers
      200 and unlinks the derivative and the download. */
  lemma FinishedReleasesBoth(live: set<string>, f: Fields, r: OptimizerResult, cfg: Config, id: string, world: World)
    requires WebRelease(r).Some? && UploadsSucceed(world.net) && world.saves
    requires r.mimeType.Some? && Truthy(r.path)
    requires WebRelease(r).value.path in live && r.path.value in live && r.path.value != WebRelease(r).value.path
    ensures Finished(live, f, r, None, cfg, id, world).response == Some(Success)
    ensures Finished(live, f, r, None, cfg, id, world).live == live - {WebRelease(r).value.path, r.path.value}
  {
    var l3 := live - {WebRelease(r).value.path};
    assert ApplyOutcome(l3, r, None) == (false, l3 - {r.path.value});
    assert l3 - {r.path.value} == live - {WebRelease(r).value.path, r.path.value};
  }

  /** Without audio, when the web upload and the save succeed and the derivative and
      the download both exist, the handler answers 200 and unlinks exactly those two. */
  lemma CleanRequest(live: set<string>, lookup: Lookup, cfg: Config, id: string, world: World)
    requires lookup.Found? && Truthy(lookup.originalAsset) && !Truthy(lookup.originalAudio)
    requires UploadsSucceed(world.net) && world.saves
    requires WebOptimized(cfg, world.net, AssetUrl(lookup), id, world.draws, world.codecs).Some?
    requires var r := WebOptimized(cfg, world.net, AssetUrl(lookup), id, world.draws, world.codecs).value;
      var l := WebLive(live, cfg, world.net, AssetUrl(lookup), id, world.draws, world.codecs);
      && WebRelease(r).Some? && r.mimeType.Some? && Truthy(r.path)
      && WebRelease(r).value.path in l && r.path.value in l && r.path.value != WebRelease(r).value.path
    ensures var r := WebOptimized(cfg, world.net, AssetUrl(lookup), id, world.draws, world.codecs).value;
      var l := WebLive(live, cfg, world.net, AssetUrl(lookup), id, world.draws, world.codecs);
      && Handled(live, lookup, cfg, id, world).response == Some(Success)
      && Handled(live, lookup, cfg, id, world).live == l - {WebRelease(r).value.path, r.path.value}
  {
    var r := WebOptimized(cfg, world.net, AssetUrl(lookup), id, world.draws, world.codecs).value;
    var l := WebLive(live, cfg, world.net, AssetUrl(lookup), id, world.draws, world.codecs);
    HandledWithoutAudio(live, lookup, cfg, id, world);
    FinishedReleasesBoth(l, lookup.fields, r, cfg, id, world);
  }

  /** A clean image request (every collaborator succeeds, fresh and distinct names)
      answers 200 and leaves no temporary file behind: the download and the resized
      image are both unlinked. */
  lemma CleanImageRequestLeavesNoFiles(live: set<string>, lookup: Lookup, cfg: Config, id: string, world: World, m: MimeType)
    requires lookup.Found? && Truthy(lookup.originalAsset) && !Truthy(lookup.originalAudio)
    requires Detect(world.net, AssetUrl(lookup)) == Detected(m)
    requires DispatchMjs(m) == ImageBranch && m.ext.Some?
    requires world.net.get(AssetUrl(lookup)) && UploadsSucceed(world.net) && world.saves
    requires world.codecs.rawDims.Some? && world.codecs.image.ok
    requires world.draws.raw != world.draws.stage
    requires TempName(cfg.fsPath, world.draws.raw, m.ext.value) !in live
    requires TempName(cfg.fsPath, world.draws.stage, m.ext.value) !in live
    ensures Handled(live, lookup, cfg, id, world).response == Some(Success)
    ensures Handled(live, lookup, cfg, id, world).live == live
  {
    var e, url := m.ext.value, AssetUrl(lookup);
    var raw, img := TempName(cfg.fsPath, world.draws.raw, e), TempName(cfg.fsPath, world.draws.stage, e);
    TempNameInjective(cfg.fsPath, world.draws.raw, e, world.draws.stage, e);
    ImageBranchSucceeds(live, cfg, world.net, url, id, world.draws, world.codecs, m);
    CleanRequest(live, lookup, cfg, id, world);
    assert live + {raw, img} - {img, raw} == live;
  }

  /** A clean gif request answers 200 but leaves the intermediate .gif of the resize
      behind: the download and the webp are unlinked, the intermediate never is. */
  lemma CleanGifRequestLeavesIntermediate(live: set<string>, lookup: Lookup, cfg: Config, id: string, world: World, m: MimeType)
    requires lookup.Found? && Truthy(lookup.originalAsset) && !Truthy(lookup.originalAudio)
    requires Detect(world.net, AssetUrl(lookup)) == Detected(m) && DispatchMjs(m) == GifBranch
    requires world.net.get(AssetUrl(lookup)) && UploadsSucceed(world.net) && world.saves
    requires world.codecs.rawDims.Some? && world.codecs.gif.ok && world.codecs.gif.dest != ""
    requires world.draws.raw != world.draws.stage
    requires TempName(cfg.fsPath, world.draws.raw, "gif") !in live && GifTemp(cfg.fsPath, world.draws.stage) !in live
    requires world.codecs.gif.dest !in live + {TempName(cfg.fsPath, world.draws.raw, "gif"), GifTemp(cfg.fsPath, world.draws.stage)}
    ensures Handled(live, lookup, cfg, id, world).response == Some(Success)
    ensures Handled(live, lookup, cfg, id, world).live == live + {GifTemp(cfg.fsPath, world.draws.stage)}
  {
    var url := AssetUrl(lookup);
    var raw, gif, dest := TempName(cfg.fsPath, world.draws.raw, "gif"), GifTemp(cfg.fsPath, world.draws.stage), world.codecs.gif.dest;
    TempNameInjective(cfg.fsPath, world.draws.raw, "gif", world.draws.stage, "gif");
    GifBranchSucceeds(live, cfg, world.net, url, id, world.draws, world.codecs, m);
    var r := WebOptimized(cfg, world.net, url, id, world.draws, world.codecs).value;
    var l := WebLive(live, cfg, world.net, url, id, world.draws, world.codecs);
    GifReleases(l, r, raw, gif, dest);
    CleanRequest(live, lookup, cfg, id, world);
    assert l - {dest, raw} == live + {gif};
  }

  lemma GifReleases(l: set<string>, r: OptimizerResult, raw: string, gif: string, dest: string)
    requires r.path == Some(raw) && r.web.Some? && r.web.value.path == dest && r.mimeType.Some?
    requires dest != "" && raw != "" && raw != dest && raw in l && dest in l
    ensures WebRelease(r).Some? && Truthy(r.path)
    ensures WebRelease(r).value.path in l && r.path.value in l && r.path.value != WebRelease(r).value.path
  {
  }

  /** A clean video request answers 200 and leaves no temporary file behind: the frame
      is unlinked by the stage, the thumbnail and the download by the handler. */
  lemma CleanVideoRequestLeavesNoFiles(live: set<string>, lookup: Lookup, cfg: Config, id: string, world: World, m: MimeType)
    requires lookup.Found? && Truthy(lookup.originalAsset) && !Truthy(lookup.originalAudio)
    requires Detect(world.net, AssetUrl(lookup)) == Detected(m) && DispatchMjs(m) == VideoBranch && m.ext.Some?
    requires world.net.get(AssetUrl(lookup)) && UploadsSucceed(world.net) && world.saves
    requires world.codecs.video.extracted && world.codecs.video.frameDims.Some? && world.codecs.video.thumbnail.ok
    requires world.draws.raw != world.draws.stage && world.draws.raw != world.draws.thumb && world.draws.stage != world.draws.thumb
    requires TempName(cfg.fsPath, world.draws.raw, m.ext.value) !in live
    requires FrameTemp(cfg.fsPath, world.draws.stage) !in live && FrameTemp(cfg.fsPath, world.draws.thumb) !in live
    ensures Handled(live, lookup, cfg, id, world).response == Some(Success)
    ensures Handled(live, lookup, cfg, id, world).live == live
  {
    var e, url := m.ext.value, AssetUrl(lookup);
    var raw, thumb := TempName(cfg.fsPath, world.draws.raw, e), FrameTemp(cfg.fsPath, world.draws.thumb);
    TempNameInjective(cfg.fsPath, world.draws.raw, e, world.draws.stage, "jpg");
    TempNameInjective(cfg.fsPath, world.draws.raw, e, world.draws.thumb, "jpg");
    VideoBranchSucceeds(live, cfg, world.net, url, id, world.draws, world.codecs, m);
    CleanRequest(live, lookup, cfg, id, world);
    assert live + {raw, thumb} - {thumb, raw} == live;
  }
}
