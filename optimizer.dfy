/** `webOptimizer` and `audioOptimizer` of index.mjs: detect the asset's type, download
    it to a temporary file, upload the original, and run the stage its type selects. */
module Optimizer {
  import opened Js
  import opened Hex
  import opened Mime
  import opened Naming
  import opened Dispatch
  import opened Stages
  import opened TempFs

  /** The deployment's environment: the temp-file prefix and the three storage folders. */
  datatype Config = Config(fsPath: string, rawFolder: string, webFolder: string, audioFolder: string)

  /** The remote collaborators, as functions of what they are given: the HEAD request
      and the sniffer (by URL), the GET download (by URL, true: it succeeded) and the
      storage upload (by key, true: it succeeded). */
  datatype Net = Net(
    head: string -> HeadOutcome,
    sniff: string -> SniffOutcome,
    get: string -> bool,
    put: string -> bool)

  /** The codecs' outcomes on this asset: `imageSize` of the download (None: it threw)
      and each stage's codec. */
  datatype Codecs = Codecs(rawDims: Option<Dims>, image: ImageCodec, gif: GifCodec, webp: WebpCodec, video: VideoCodec)

  /** The random draws of one request: the download, the stage's file, the thumbnail. */
  datatype Draws = Draws(raw: Random24, stage: Random24, thumb: Random24)

  /** The object `webOptimizer` resolves with. `duration` is never set by it. */
  datatype OptimizerResult = OptimizerResult(dims: Dims, duration: JsNum, web: Option<WebOutput>, path: JsStr, mimeType: Option<MimeType>)

  /** The object `audioOptimizer` resolves with. */
  datatype AudioResult = AudioResult(path: JsStr, mimeType: Option<MimeType>)

  /** What an optimizer resolves with when detection failed: every part undefined. */
  const Blank: OptimizerResult := OptimizerResult(NoDims, None, None, None, None)

  function Detect(net: Net, url: string): Detection {
    FileTypeMjs(net.head(url), net.sniff(url))
  }

  /** The download's temporary file, named with the detected ext. */
  function RawTemp(cfg: Config, draws: Draws, m: MimeType): string {
    TempName(cfg.fsPath, draws.raw, Text(m.ext))
  }

  /** The storage key of the original: "<raw folder>/<id>.<ext>". */
  function RawKey(cfg: Config, id: string, m: MimeType): string {
    StorageKey(cfg.rawFolder, id, Text(m.ext))
  }

  /** The storage key of an audio original. */
  function AudioKey(cfg: Config, id: string, m: MimeType): string {
    StorageKey(cfg.audioFolder, id, Text(m.ext))
  }

  /** The branches that measure the download first (and fail when it cannot be measured). */
  predicate NeedsDims(b: Branch) {
    b == GifBranch || b == WebpBranch || b == ImageBranch
  }

  /** The conditions under which `webOptimizer` ends in its catch and the handler gets
      undefined: the download or the upload fails, the download cannot be measured in
      a branch that measures it, or `ext.toUpperCase()` throws on an undefined ext. */
  predicate Aborts(net: Net, url: string, cfg: Config, id: string, m: MimeType, codecs: Codecs) {
    || !net.get(url)
    || !net.put(RawKey(cfg, id, m))
    || (NeedsDims(DispatchMjs(m)) && codecs.rawDims.None?)
    || m.ext.None?
  }

  /** The descriptor of the web derivative each branch produces. */
  function WebDescriptorFor(b: Branch, ext: string): MimeType {
    match b
    case VideoBranch => ImageDescriptor("jpg")
    case GifBranch => WebpDescriptor
    case WebpBranch => WebpDescriptor
    case _ => ImageDescriptor(ext)
  }

  /** `{...dimensions, web}` of the selected branch, or undefined pieces when the stage
      failed (its rejection is caught) or no branch applies. */
  function BranchOutcome(cfg: Config, m: MimeType, draws: Draws, codecs: Codecs): (o: (Dims, Option<WebOutput>))
    requires NeedsDims(DispatchMjs(m)) ==> codecs.rawDims.Some?
    ensures DispatchMjs(m) == NoBranch ==> o == (NoDims, None)
    ensures NeedsDims(DispatchMjs(m)) ==> o.0 == codecs.rawDims.value
    ensures o.1.Some? && m.ext.Some? ==> o.1.value.mimeType == WebDescriptorFor(DispatchMjs(m), m.ext.value)
  {
    match DispatchMjs(m)
    case VideoBranch =>
      (match VideoStage(cfg.fsPath, draws.stage, draws.thumb, codecs.video)
       case None => (NoDims, None)
       case Some(v) => (v.dims, Some(v.web)))
    case GifBranch => (codecs.rawDims.value, GifStage(codecs.gif))
    case WebpBranch => (codecs.rawDims.value, WebpStage(codecs.webp))
    case ImageBranch => (codecs.rawDims.value, ImageStage(cfg.fsPath, m.ext, draws.stage, codecs.image))
    case NoBranch => (NoDims, None)
  }

  /** What `webOptimizer(url, event)` resolves with (None: undefined). */
  function WebOptimized(cfg: Config, net: Net, url: string, id: string, draws: Draws, codecs: Codecs): (r: Option<OptimizerResult>)
    ensures Detect(net, url).Rejected? ==> r == Some(Blank)
    ensures Detect(net, url).Detected? ==> (r.None? <==> Aborts(net, url, cfg, id, Detect(net, url).m, codecs))
    ensures r.Some? ==> r.value.duration.None?
    ensures r.Some? && Detect(net, url).Detected? ==>
      var m := Detect(net, url).m;
      && r.value.mimeType == Some(m)
      && m.ext.Some?
      && r.value.path == Some(TempName(cfg.fsPath, draws.raw, m.ext.value))
      && net.put(StorageKey(cfg.rawFolder, id, m.ext.value))
    ensures r.Some? && r.value.web.Some? ==>
      r.value.mimeType.Some? && r.value.mimeType.value.ext.Some? &&
      DispatchMjs(r.value.mimeType.value) != NoBranch &&
      r.value.web.value.mimeType == WebDescriptorFor(DispatchMjs(r.value.mimeType.value), r.value.mimeType.value.ext.value)
  {
    match Detect(net, url)
    case Rejected(_) => Some(Blank)
    case Detected(m) =>
      if Aborts(net, url, cfg, id, m, codecs) then None
      else
        var o := BranchOutcome(cfg, m, draws, codecs);
        Some(OptimizerResult(o.0, None, o.1, Some(RawTemp(cfg, draws, m)), Some(m)))
  }

  /** The files the selected stage creates and releases. */
  function StageLive(live: set<string>, cfg: Config, m: MimeType, draws: Draws, codecs: Codecs): set<string> {
    match DispatchMjs(m)
    case VideoBranch => VideoLive(live, cfg.fsPath, draws.stage, draws.thumb, codecs.video)
    case GifBranch => if codecs.rawDims.None? then live else GifLive(live, cfg.fsPath, draws.stage, codecs.gif)
    case WebpBranch => if codecs.rawDims.None? then live else WebpLive(live, codecs.webp)
    case ImageBranch => if codecs.rawDims.None? then live else ImageLive(live, cfg.fsPath, m.ext, draws.stage, codecs.image)
    case NoBranch => live
  }

  /** The temporary files after `webOptimizer`; it never unlinks anything itself. */
  function WebLive(live: set<string>, cfg: Config, net: Net, url: string, id: string, draws: Draws, codecs: Codecs): (l: set<string>)
    ensures live <= l || (Detect(net, url).Detected? && DispatchMjs(Detect(net, url).m) == VideoBranch)
  {
    match Detect(net, url)
    case Rejected(_) => live
    case Detected(m) =>
      if !net.get(url) then live
      else
        var l1 := live + {RawTemp(cfg, draws, m)};
        StageLiveGrows(l1, cfg, m, draws, codecs);
        if !net.put(RawKey(cfg, id, m)) then l1 else StageLive(l1, cfg, m, draws, codecs)
  }

  /** Only the video stage releases a file it did not create. */
  lemma StageLiveGrows(live: set<string>, cfg: Config, m: MimeType, draws: Draws, codecs: Codecs)
    ensures DispatchMjs(m) != VideoBranch ==> live <= StageLive(live, cfg, m, draws, codecs)
  {
  }

  method WebOptimizer(fs: TempFiles, cfg: Config, net: Net, url: string, id: string, draws: Draws, codecs: Codecs)
    returns (r: Option<OptimizerResult>)
    modifies fs
    ensures r == WebOptimized(cfg, net, url, id, draws, codecs)
    ensures fs.live == WebLive(old(fs.live), cfg, net, url, id, draws, codecs)
  {
    var detection := FileTypeMjs(net.head(url), net.sniff(url));
    if detection.Rejected? {
      return Some(Blank);
    }
    var mimeType := detection.m;
    var tempFile := TempName(cfg.fsPath, draws.raw, Text(mimeType.ext));
    if !net.get(url) {
      return None;
    }
    fs.Create(tempFile);
    if !net.put(StorageKey(cfg.rawFolder, id, Text(mimeType.ext))) {
      return None;
    }
    var dims := NoDims;
    var web: Option<WebOutput> := None;
    match DispatchMjs(mimeType) {
      case VideoBranch =>
        var res := ProcessVideo(fs, cfg.fsPath, draws.stage, draws.thumb, codecs.video);
        if res.Some? {
          dims, web := res.value.dims, Some(res.value.web);
        }
      case GifBranch =>
        if codecs.rawDims.None? {
          return None;
        }
        dims := codecs.rawDims.value;
        web := ProcessGif(fs, cfg.fsPath, draws.stage, codecs.gif);
      case WebpBranch =>
        if codecs.rawDims.None? {
          return None;
        }
        dims := codecs.rawDims.value;
        web := ProcessWebp(fs, codecs.webp);
      case ImageBranch =>
        if codecs.rawDims.None? {
          return None;
        }
        dims := codecs.rawDims.value;
        web := ProcessImage(fs, cfg.fsPath, mimeType.ext, draws.stage, codecs.image);
      case NoBranch =>
    }
    if mimeType.ext.None? {
      return None;
    }
    r := Some(OptimizerResult(dims, None, web, Some(tempFile), Some(mimeType)));
  }

  /** What `audioOptimizer(url, event)` resolves with (None: undefined). Only an
      "audio" descriptor is downloaded and uploaded; any other detected type comes back
      with its descriptor and no path. */
  function AudioOptimized(cfg: Config, net: Net, url: string, id: string, draw: Random24): (r: Option<AudioResult>)
    ensures Detect(net, url).Rejected? ==> r == Some(AudioResult(None, None))
    ensures Detect(net, url).Detected? && !IsAudio(Detect(net, url).m) ==>
      r == Some(AudioResult(None, Some(Detect(net, url).m)))
    ensures Detect(net, url).Detected? && IsAudio(Detect(net, url).m) ==>
      var m := Detect(net, url).m;
      (r.None? <==> !net.get(url) || !net.put(AudioKey(cfg, id, m)) || m.ext.None?)
    ensures r.Some? && r.value.path.Some? ==>
      && Detect(net, url).Detected?
      && IsAudio(Detect(net, url).m)
      && Detect(net, url).m.ext.Some?
      && r.value.mimeType == Some(Detect(net, url).m)
      && r.value.path.value == TempName(cfg.fsPath, draw, Detect(net, url).m.ext.value)
      && net.put(StorageKey(cfg.audioFolder, id, Detect(net, url).m.ext.value))
  {
    match Detect(net, url)
    case Rejected(_) => Some(AudioResult(None, None))
    case Detected(m) =>
      if !IsAudio(m) then Some(AudioResult(None, Some(m)))
      else if !net.get(url) || !net.put(AudioKey(cfg, id, m)) || m.ext.None? then None
      else Some(AudioResult(Some(TempName(cfg.fsPath, draw, Text(m.ext))), Some(m)))
  }

  /** The temporary files after `audioOptimizer`: the download, once it happened. */
  function AudioLive(live: set<string>, cfg: Config, net: Net, url: string, draw: Random24): set<string> {
    match Detect(net, url)
    case Rejected(_) => live
    case Detected(m) =>
      if IsAudio(m) && net.get(url) then live + {TempName(cfg.fsPath, draw, Text(m.ext))} else live
  }

  method AudioOptimizer(fs: TempFiles, cfg: Config, net: Net, url: string, id: string, draw: Random24)
    returns (r: Option<AudioResult>)
    modifies fs
    ensures r == AudioOptimized(cfg, net, url, id, draw)
    ensures fs.live == AudioLive(old(fs.live), cfg, net, url, draw)
  {
    var detection := FileTypeMjs(net.head(url), net.sniff(url));
    var tempFile: JsStr := None;
    if detection.Detected? && IsAudio(detection.m) {
      var mimeType := detection.m;
      var name := TempName(cfg.fsPath, draw, Text(mimeType.ext));
      if !net.get(url) {
        return None;
      }
      fs.Create(name);
      tempFile := Some(name);
      if !net.put(StorageKey(cfg.audioFolder, id, Text(mimeType.ext))) {
        return None;
      }
      if mimeType.ext.None? {
        return None;
      }
    }
    r := Some(AudioResult(tempFile, if detection.Detected? then Some(detection.m) else None));
  }

  // ------------------------------------------------------------------ properties

  /** A web result with a path always names the file whose original was uploaded under
      the raw key: the path and the key carry the same ext. */
  lemma UploadedUnderPathExt(cfg: Config, net: Net, url: string, id: string, draws: Draws, codecs: Codecs)
    requires WebOptimized(cfg, net, url, id, draws, codecs).Some?
    requires WebOptimized(cfg, net, url, id, draws, codecs).value.path.Some?
    ensures var r := WebOptimized(cfg, net, url, id, draws, codecs).value;
      && r.mimeType.Some? && r.mimeType.value.ext.Some?
      && ParseTempName(cfg.fsPath, r.mimeType.value.ext.value, r.path.value) == Some(draws.raw)
      && net.put(StorageKey(cfg.rawFolder, id, r.mimeType.value.ext.value))
  {
    var r := WebOptimized(cfg, net, url, id, draws, codecs).value;
    ParseTempNameRoundTrip(cfg.fsPath, draws.raw, r.mimeType.value.ext.value);
  }

  /** When the upload of the original fails, the download is left on disk and the handler
      gets undefined. */
  lemma RawLeaksWhenUploadFails(live: set<string>, cfg: Config, net: Net, url: string, id: string, draws: Draws, codecs: Codecs)
    requires Detect(net, url).Detected? && net.get(url) && !net.put(RawKey(cfg, id, Detect(net, url).m))
    ensures WebOptimized(cfg, net, url, id, draws, codecs).None?
    ensures RawTemp(cfg, draws, Detect(net, url).m) in WebLive(live, cfg, net, url, id, draws, codecs)
  {
  }

  /** Every web derivative is an image: a webp for gif and webp sources, a jpg thumbnail
      for video, and the source's own (lower-cased) ext otherwise. */
  lemma WebDerivativeIsImage(cfg: Config, net: Net, url: string, id: string, draws: Draws, codecs: Codecs)
    requires WebOptimized(cfg, net, url, id, draws, codecs).Some?
    requires WebOptimized(cfg, net, url, id, draws, codecs).value.web.Some?
    ensures WebOptimized(cfg, net, url, id, draws, codecs).value.web.value.mimeType.contentType == Some("image")
  {
    var r := WebOptimized(cfg, net, url, id, draws, codecs).value;
    var b := DispatchMjs(r.mimeType.value);
    assert r.web.value.mimeType == WebDescriptorFor(b, r.mimeType.value.ext.value);
  }

  /** A type the pipeline does not process still resolves with its descriptor and the
      download, and no derivative. */
  lemma UnprocessedTypeKeepsDownload(cfg: Config, net: Net, url: string, id: string, draws: Draws, codecs: Codecs)
    requires Detect(net, url).Detected? && DispatchMjs(Detect(net, url).m) == NoBranch
    requires !Aborts(net, url, cfg, id, Detect(net, url).m, codecs)
    ensures WebOptimized(cfg, net, url, id, draws, codecs)
         == Some(OptimizerResult(NoDims, None, None, Some(RawTemp(cfg, draws, Detect(net, url).m)), Some(Detect(net, url).m)))
  {
  }

  /** A clean image branch: the result names the download and the resized image, and
      both files exist afterwards. */
  lemma ImageBranchSucceeds(live: set<string>, cfg: Config, net: Net, url: string, id: string, draws: Draws, codecs: Codecs, m: MimeType)
    requires Detect(net, url) == Detected(m) && DispatchMjs(m) == ImageBranch && m.ext.Some?
    requires net.get(url) && net.put(RawKey(cfg, id, m)) && codecs.rawDims.Some? && codecs.image.ok
    ensures WebOptimized(cfg, net, url, id, draws, codecs).Some?
    ensures var r := WebOptimized(cfg, net, url, id, draws, codecs).value;
      && r.path == Some(TempName(cfg.fsPath, draws.raw, m.ext.value))
      && r.web.Some? && r.web.value.path == TempName(cfg.fsPath, draws.stage, m.ext.value)
      && r.mimeType == Some(m)
    ensures WebLive(live, cfg, net, url, id, draws, codecs)
         == live + {TempName(cfg.fsPath, draws.raw, m.ext.value), TempName(cfg.fsPath, draws.stage, m.ext.value)}
  {
  }

  /** A clean gif branch: the result names the download and the webp; the download,
      the intermediate gif and the webp exist afterwards. */
  lemma GifBranchSucceeds(live: set<string>, cfg: Config, net: Net, url: string, id: string, draws: Draws, codecs: Codecs, m: MimeType)
    requires Detect(net, url) == Detected(m) && DispatchMjs(m) == GifBranch
    requires net.get(url) && net.put(RawKey(cfg, id, m)) && codecs.rawDims.Some? && codecs.gif.ok
    ensures m.ext == Some("gif")
    ensures WebOptimized(cfg, net, url, id, draws, codecs).Some?
    ensures var r := WebOptimized(cfg, net, url, id, draws, codecs).value;
      && r.path == Some(TempName(cfg.fsPath, draws.raw, "gif"))
      && r.web.Some? && r.web.value.path == codecs.gif.dest
      && r.mimeType == Some(m)
    ensures WebLive(live, cfg, net, url, id, draws, codecs)
         == live + {TempName(cfg.fsPath, draws.raw, "gif"), GifTemp(cfg.fsPath, draws.stage), codecs.gif.dest}
  {
  }

  /** A clean video branch: the result names the download and the thumbnail; the frame
      is gone again when the frame and the thumbnail have distinct draws. */
  lemma VideoBranchSucceeds(live: set<string>, cfg: Config, net: Net, url: string, id: string, draws: Draws, codecs: Codecs, m: MimeType)
    requires Detect(net, url) == Detected(m) && DispatchMjs(m) == VideoBranch && m.ext.Some?
    requires net.get(url) && net.put(RawKey(cfg, id, m))
    requires codecs.video.extracted && codecs.video.frameDims.Some? && codecs.video.thumbnail.ok
    requires draws.stage != draws.thumb
    requires FrameTemp(cfg.fsPath, draws.stage) !in live + {TempName(cfg.fsPath, draws.raw, m.ext.value)}
    ensures WebOptimized(cfg, net, url, id, draws, codecs).Some?
    ensures var r := WebOptimized(cfg, net, url, id, draws, codecs).value;
      && r.path == Some(TempName(cfg.fsPath, draws.raw, m.ext.value))
      && r.web.Some? && r.web.value.path == FrameTemp(cfg.fsPath, draws.thumb)
      && r.mimeType == Some(m)
    ensures WebLive(live, cfg, net, url, id, draws, codecs)
         == live + {TempName(cfg.fsPath, draws.raw, m.ext.value), FrameTemp(cfg.fsPath, draws.thumb)}
  {
    var l1 := live + {TempName(cfg.fsPath, draws.raw, m.ext.value)};
    FrameReleasedAfterThumbnail(l1, cfg.fsPath, draws.stage, draws.thumb, codecs.video);
  }
}
