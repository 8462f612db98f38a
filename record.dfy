/** The NFT document the handler updates (index.mjs): which derived fields the
    optimizers' results overwrite, and the temporary files released on the way. */
module Record {
  import opened Js
  import opened Mime
  import opened Naming
  import opened Stages
  import opened Optimizer
  import opened TempFs

  /** The derived fields of an NFT document. */
  datatype Fields = Fields(
    width: JsNum, height: JsNum, duration: JsNum,
    asset: JsStr, mimeType: JsStr, contentType: JsStr, ext: JsStr,
    webWidth: JsNum, webHeight: JsNum,
    webAsset: JsStr, webMimeType: JsStr, webContentType: JsStr, webExt: JsStr,
    audioAsset: JsStr, audioMimeType: JsStr, audioExt: JsStr)

  /** `if (v) field = v`: a field takes a new value only when that value is truthy. */
  function KeepStr(current: JsStr, v: JsStr): (r: JsStr)
    ensures Truthy(v) ==> r == v
    ensures !Truthy(v) ==> r == current
    ensures Truthy(current) ==> Truthy(r)
  {
    if Truthy(v) then v else current
  }

  function KeepNum(current: JsNum, v: JsNum): (r: JsNum)
    ensures TruthyNum(v) ==> r == v
    ensures !TruthyNum(v) ==> r == current
    ensures TruthyNum(current) ==> TruthyNum(r)
  {
    if TruthyNum(v) then v else current
  }

  /** A field of `after` is the field of `before` or a truthy value. */
  predicate StrStep(before: JsStr, after: JsStr) { after == before || Truthy(after) }
  predicate NumStep(before: JsNum, after: JsNum) { after == before || TruthyNum(after) }

  /** No merge writes a falsy value over a field: every field is kept or overwritten
      with something truthy (so a truthy field stays truthy). */
  predicate OnlyTruthyWrites(before: Fields, after: Fields) {
    && NumStep(before.width, after.width) && NumStep(before.height, after.height)
    && NumStep(before.duration, after.duration)
    && StrStep(before.asset, after.asset) && StrStep(before.mimeType, after.mimeType)
    && StrStep(before.contentType, after.contentType) && StrStep(before.ext, after.ext)
    && NumStep(before.webWidth, after.webWidth) && NumStep(before.webHeight, after.webHeight)
    && StrStep(before.webAsset, after.webAsset) && StrStep(before.webMimeType, after.webMimeType)
    && StrStep(before.webContentType, after.webContentType) && StrStep(before.webExt, after.webExt)
    && StrStep(before.audioAsset, after.audioAsset) && StrStep(before.audioMimeType, after.audioMimeType)
    && StrStep(before.audioExt, after.audioExt)
  }

  /** The handler reaches `result.mimeType.ext` for the audio key only when there is an
      audio path; with no web descriptor that read throws. */
  predicate AudioKeyThrows(result: OptimizerResult, audio: Option<AudioResult>) {
    audio.Some? && Truthy(audio.value.path) && result.mimeType.None?
  }

  /** The value each handler assignment would write, or None where the handler writes
      nothing. Every storage key is non-empty, so `nft.asset = key` and its kin are
      overwrites with a truthy value like the others. The audio key is built from the
      web descriptor's ext, not from the audio descriptor's. */
  function Candidates(result: OptimizerResult, audio: Option<AudioResult>, cfg: Config, id: string): Fields
    requires !AudioKeyThrows(result, audio)
  {
    var m := result.mimeType;
    var w := result.web;
    var a := audio;
    Fields(
      result.dims.width, result.dims.height, result.duration,
      if m.Some? && Truthy(result.path) then Some(StorageKey(cfg.rawFolder, id, Text(m.value.ext))) else None,
      if m.Some? then m.value.mime else None,
      if m.Some? then m.value.contentType else None,
      if m.Some? then m.value.ext else None,
      if w.Some? then w.value.dims.width else None,
      if w.Some? then w.value.dims.height else None,
      if w.Some? && Truthy(Some(w.value.path)) then Some(StorageKey(cfg.webFolder, id, Text(w.value.mimeType.ext))) else None,
      if w.Some? then w.value.mimeType.mime else None,
      if w.Some? then w.value.mimeType.contentType else None,
      if w.Some? then w.value.mimeType.ext else None,
      if a.Some? && Truthy(a.value.path) then Some(StorageKey(cfg.audioFolder, id, Text(m.value.ext))) else None,
      if a.Some? && a.value.mimeType.Some? then a.value.mimeType.value.mime else None,
      if a.Some? && a.value.mimeType.Some? then a.value.mimeType.value.ext else None)
  }

  /** Each field of f overwritten by the candidate when the candidate is truthy. */
  function Overlay(f: Fields, c: Fields): (r: Fields)
    ensures OnlyTruthyWrites(f, r)
  {
    Fields(
      KeepNum(f.width, c.width), KeepNum(f.height, c.height), KeepNum(f.duration, c.duration),
      KeepStr(f.asset, c.asset), KeepStr(f.mimeType, c.mimeType),
      KeepStr(f.contentType, c.contentType), KeepStr(f.ext, c.ext),
      KeepNum(f.webWidth, c.webWidth), KeepNum(f.webHeight, c.webHeight),
      KeepStr(f.webAsset, c.webAsset), KeepStr(f.webMimeType, c.webMimeType),
      KeepStr(f.webContentType, c.webContentType), KeepStr(f.webExt, c.webExt),
      KeepStr(f.audioAsset, c.audioAsset), KeepStr(f.audioMimeType, c.audioMimeType),
      KeepStr(f.audioExt, c.audioExt))
  }

  /** The fields after the merge of the web result and the audio result. */
  function Merged(f: Fields, result: OptimizerResult, audio: Option<AudioResult>, cfg: Config, id: string): (r: Fields)
    requires !AudioKeyThrows(result, audio)
    ensures OnlyTruthyWrites(f, r)
    ensures result.duration.None? ==> r.duration == f.duration
    ensures r.asset != f.asset ==>
      result.mimeType.Some? && Truthy(result.path) &&
      r.asset == Some(StorageKey(cfg.rawFolder, id, Text(result.mimeType.value.ext)))
    ensures r.webAsset != f.webAsset ==>
      result.web.Some? && Truthy(Some(result.web.value.path)) &&
      r.webAsset == Some(StorageKey(cfg.webFolder, id, Text(result.web.value.mimeType.ext)))
    ensures r.audioAsset != f.audioAsset ==>
      audio.Some? && Truthy(audio.value.path) &&
      r.audioAsset == Some(StorageKey(cfg.audioFolder, id, Text(result.mimeType.value.ext)))
    ensures result.web.None? ==>
      r.webWidth == f.webWidth && r.webHeight == f.webHeight && r.webAsset == f.webAsset &&
      r.webMimeType == f.webMimeType && r.webContentType == f.webContentType && r.webExt == f.webExt
    ensures audio.None? ==> r.audioAsset == f.audioAsset && r.audioMimeType == f.audioMimeType && r.audioExt == f.audioExt
  {
    Overlay(f, Candidates(result, audio, cfg, id))
  }

  /** The dimensions and the duration of the result are copied when truthy, and kept
      otherwise. */
  lemma MergedCopiesDims(f: Fields, result: OptimizerResult, audio: Option<AudioResult>, cfg: Config, id: string)
    requires !AudioKeyThrows(result, audio)
    ensures var r := Merged(f, result, audio, cfg, id);
      && (TruthyNum(result.dims.width) ==> r.width == result.dims.width)
      && (!TruthyNum(result.dims.width) ==> r.width == f.width)
      && (TruthyNum(result.dims.height) ==> r.height == result.dims.height)
      && (!TruthyNum(result.dims.height) ==> r.height == f.height)
      && (TruthyNum(result.duration) ==> r.duration == result.duration)
      && (!TruthyNum(result.duration) ==> r.duration == f.duration)
  {
  }

  /** With a descriptor, `asset` becomes the raw storage key exactly when the result has
      a path, and each truthy part of the descriptor is copied; without one these four
      fields are kept. */
  lemma MergedCopiesMime(f: Fields, result: OptimizerResult, audio: Option<AudioResult>, cfg: Config, id: string)
    requires !AudioKeyThrows(result, audio)
    ensures var r := Merged(f, result, audio, cfg, id);
      result.mimeType.None? ==> r.asset == f.asset && r.mimeType == f.mimeType && r.contentType == f.contentType && r.ext == f.ext
    ensures result.mimeType.Some? ==>
      var r, m := Merged(f, result, audio, cfg, id), result.mimeType.value;
      && (Truthy(result.path) ==> r.asset == Some(StorageKey(cfg.rawFolder, id, Text(m.ext))))
      && (!Truthy(result.path) ==> r.asset == f.asset)
      && (Truthy(m.mime) ==> r.mimeType == m.mime) && (!Truthy(m.mime) ==> r.mimeType == f.mimeType)
      && (Truthy(m.contentType) ==> r.contentType == m.contentType) && (!Truthy(m.contentType) ==> r.contentType == f.contentType)
      && (Truthy(m.ext) ==> r.ext == m.ext) && (!Truthy(m.ext) ==> r.ext == f.ext)
  {
  }

  /** With a web derivative, `webAsset` becomes the web storage key when it has a path,
      and its truthy dimensions and descriptor parts are copied. */
  lemma MergedCopiesWeb(f: Fields, result: OptimizerResult, audio: Option<AudioResult>, cfg: Config, id: string)
    requires !AudioKeyThrows(result, audio)
    requires result.web.Some?
    ensures var r, w := Merged(f, result, audio, cfg, id), result.web.value;
      && (TruthyNum(w.dims.width) ==> r.webWidth == w.dims.width) && (!TruthyNum(w.dims.width) ==> r.webWidth == f.webWidth)
      && (TruthyNum(w.dims.height) ==> r.webHeight == w.dims.height) && (!TruthyNum(w.dims.height) ==> r.webHeight == f.webHeight)
      && (w.path != "" ==> r.webAsset == Some(StorageKey(cfg.webFolder, id, Text(w.mimeType.ext))))
      && (w.path == "" ==> r.webAsset == f.webAsset)
      && (Truthy(w.mimeType.mime) ==> r.webMimeType == w.mimeType.mime)
      && (!Truthy(w.mimeType.mime) ==> r.webMimeType == f.webMimeType)
      && (Truthy(w.mimeType.contentType) ==> r.webContentType == w.mimeType.contentType)
      && (!Truthy(w.mimeType.contentType) ==> r.webContentType == f.webContentType)
      && (Truthy(w.mimeType.ext) ==> r.webExt == w.mimeType.ext) && (!Truthy(w.mimeType.ext) ==> r.webExt == f.webExt)
  {
  }

  /** With an audio result, `audioAsset` becomes the audio key (under the web
      descriptor's ext) when the audio has a path, and the truthy parts of the audio
      descriptor are copied. */
  lemma MergedCopiesAudio(f: Fields, result: OptimizerResult, a: AudioResult, cfg: Config, id: string)
    requires !AudioKeyThrows(result, Some(a))
    ensures var r := Merged(f, result, Some(a), cfg, id);
      && (Truthy(a.path) ==> r.audioAsset == Some(StorageKey(cfg.audioFolder, id, Text(result.mimeType.value.ext))))
      && (!Truthy(a.path) ==> r.audioAsset == f.audioAsset)
      && (a.mimeType.None? ==> r.audioMimeType == f.audioMimeType && r.audioExt == f.audioExt)
    ensures a.mimeType.Some? ==>
      var r, m := Merged(f, result, Some(a), cfg, id), a.mimeType.value;
      && (Truthy(m.mime) ==> r.audioMimeType == m.mime) && (!Truthy(m.mime) ==> r.audioMimeType == f.audioMimeType)
      && (Truthy(m.ext) ==> r.audioExt == m.ext) && (!Truthy(m.ext) ==> r.audioExt == f.audioExt)
  {
  }

  /** Merging the same results twice is merging them once. */
  lemma MergedIdempotent(f: Fields, result: OptimizerResult, audio: Option<AudioResult>, cfg: Config, id: string)
    requires !AudioKeyThrows(result, audio)
    ensures Merged(Merged(f, result, audio, cfg, id), result, audio, cfg, id) == Merged(f, result, audio, cfg, id)
  {
    OverlayIdempotent(f, Candidates(result, audio, cfg, id));
  }

  lemma OverlayIdempotent(f: Fields, c: Fields)
    ensures Overlay(Overlay(f, c), c) == Overlay(f, c)
  {
  }

  /** The result of a failed detection changes nothing. */
  lemma BlankMergeIsIdentity(f: Fields, cfg: Config, id: string)
    ensures Merged(f, Blank, None, cfg, id) == f
  {
  }

  /** The audio key carries the web asset's ext: when the two exts differ, `audioAsset`
      names a key the audio upload (under its own ext) never wrote. */
  lemma AudioAssetUsesWebExt(f: Fields, result: OptimizerResult, a: AudioResult, cfg: Config, id: string)
    requires Truthy(a.path) && result.mimeType.Some? && result.mimeType.value.ext.Some?
    requires a.mimeType.Some? && a.mimeType.value.ext.Some?
    requires result.mimeType.value.ext.value != a.mimeType.value.ext.value
    ensures Merged(f, result, Some(a), cfg, id).audioAsset != Some(StorageKey(cfg.audioFolder, id, a.mimeType.value.ext.value))
    ensures Merged(f, result, Some(a), cfg, id).audioAsset == Some(StorageKey(cfg.audioFolder, id, result.mimeType.value.ext.value))
  {
    StorageKeyInjective(cfg.audioFolder, id, result.mimeType.value.ext.value, a.mimeType.value.ext.value);
  }

  // ------------------------------------------------------------------ releases

  /** The raw download the merge unlinks, if any. */
  function RawRelease(result: OptimizerResult): JsStr {
    if result.mimeType.Some? && Truthy(result.path) then result.path else None
  }

  /** The audio download the merge unlinks, if any. */
  function AudioRelease(audio: Option<AudioResult>): JsStr {
    if audio.Some? && Truthy(audio.value.path) then audio.value.path else None
  }

  /** Whether the merge throws (an unlink of a missing file, or the audio-key read) and
      the temporary files afterwards. Unlinks happen in source order: the raw download,
      then the audio download. */
  function ApplyOutcome(live: set<string>, result: OptimizerResult, audio: Option<AudioResult>): (o: (bool, set<string>))
    ensures !o.0 <==>
      (RawRelease(result).Some? ==> RawRelease(result).value in live) &&
      (AudioRelease(audio).Some? ==> AudioRelease(audio).value in live - (if RawRelease(result).Some? then {RawRelease(result).value} else {})) &&
      !AudioKeyThrows(result, audio)
    ensures !o.0 ==> o.1 == live - (if RawRelease(result).Some? then {RawRelease(result).value} else {})
                                 - (if AudioRelease(audio).Some? then {AudioRelease(audio).value} else {})
    ensures o.1 <= live
  {
    var raw := RawRelease(result);
    if raw.Some? && raw.value !in live then (true, live)
    else
      var l1 := if raw.Some? then live - {raw.value} else live;
      var aud := AudioRelease(audio);
      if aud.Some? && aud.value !in l1 then (true, l1)
      else
        var l2 := if aud.Some? then l1 - {aud.value} else l1;
        (AudioKeyThrows(result, audio), l2)
  }

  /** The four groups of assignments of the handler, in source order: the raw
      dimensions, the raw descriptor, the web derivative, the audio. */
  function DimsBlock(f: Fields, result: OptimizerResult): Fields {
    f.(width := KeepNum(f.width, result.dims.width),
       height := KeepNum(f.height, result.dims.height),
       duration := KeepNum(f.duration, result.duration))
  }

  function MimeBlock(f: Fields, result: OptimizerResult, cfg: Config, id: string): Fields {
    if result.mimeType.None? then f
    else
      var m := result.mimeType.value;
      f.(asset := if Truthy(result.path) then Some(StorageKey(cfg.rawFolder, id, Text(m.ext))) else f.asset,
         mimeType := KeepStr(f.mimeType, m.mime),
         contentType := KeepStr(f.contentType, m.contentType),
         ext := KeepStr(f.ext, m.ext))
  }

  function WebBlock(f: Fields, result: OptimizerResult, cfg: Config, id: string): Fields {
    if result.web.None? then f
    else
      var w := result.web.value;
      f.(webWidth := KeepNum(f.webWidth, w.dims.width),
         webHeight := KeepNum(f.webHeight, w.dims.height),
         webAsset := if Truthy(Some(w.path)) then Some(StorageKey(cfg.webFolder, id, Text(w.mimeType.ext))) else f.webAsset,
         webMimeType := KeepStr(f.webMimeType, w.mimeType.mime),
         webContentType := KeepStr(f.webContentType, w.mimeType.contentType),
         webExt := KeepStr(f.webExt, w.mimeType.ext))
  }

  function AudioBlock(f: Fields, result: OptimizerResult, audio: Option<AudioResult>, cfg: Config, id: string): Fields
    requires !AudioKeyThrows(result, audio)
  {
    if audio.None? then f
    else
      var a := audio.value;
      var g := if Truthy(a.path) then f.(audioAsset := Some(StorageKey(cfg.audioFolder, id, Text(result.mimeType.value.ext)))) else f;
      if a.mimeType.None? then g
      else g.(audioMimeType := KeepStr(g.audioMimeType, a.mimeType.value.mime),
              audioExt := KeepStr(g.audioExt, a.mimeType.value.ext))
  }

  /** The assignments group by group give the merge. */
  lemma MergedInBlocks(f: Fields, result: OptimizerResult, audio: Option<AudioResult>, cfg: Config, id: string)
    requires !AudioKeyThrows(result, audio)
    ensures AudioBlock(WebBlock(MimeBlock(DimsBlock(f, result), result, cfg, id), result, cfg, id), result, audio, cfg, id)
         == Merged(f, result, audio, cfg, id)
  {
    var g1 := DimsBlock(f, result);
    var g2 := MimeBlock(g1, result, cfg, id);
    var g3 := WebBlock(g2, result, cfg, id);
    var g4 := AudioBlock(g3, result, audio, cfg, id);
    var c := Candidates(result, audio, cfg, id);
    assert g2.asset == KeepStr(f.asset, c.asset);
    assert g3.webAsset == KeepStr(f.webAsset, c.webAsset);
    assert g4.audioAsset == KeepStr(f.audioAsset, c.audioAsset);
  }

  /** The mongoose document: its source references and its derived fields, assigned in
      place by the handler. */
  class Nft {
    var originalAsset: JsStr
    var originalAudio: JsStr
    var width: JsNum
    var height: JsNum
    var duration: JsNum
    var asset: JsStr
    var mimeType: JsStr
    var contentType: JsStr
    var ext: JsStr
    var webWidth: JsNum
    var webHeight: JsNum
    var webAsset: JsStr
    var webMimeType: JsStr
    var webContentType: JsStr
    var webExt: JsStr
    var audioAsset: JsStr
    var audioMimeType: JsStr
    var audioExt: JsStr

    function Derived(): Fields
      reads this
    {
      Fields(width, height, duration, asset, mimeType, contentType, ext,
             webWidth, webHeight, webAsset, webMimeType, webContentType, webExt,
             audioAsset, audioMimeType, audioExt)
    }

    /** The document `NFT.findById` loads. */
    constructor (originalAsset: JsStr, originalAudio: JsStr, f: Fields)
      ensures this.originalAsset == originalAsset && this.originalAudio == originalAudio
      ensures Derived() == f
    {
      this.originalAsset, this.originalAudio := originalAsset, originalAudio;
      width, height, duration := f.width, f.height, f.duration;
      asset, mimeType, contentType, ext := f.asset, f.mimeType, f.contentType, f.ext;
      webWidth, webHeight, webAsset := f.webWidth, f.webHeight, f.webAsset;
      webMimeType, webContentType, webExt := f.webMimeType, f.webContentType, f.webExt;
      audioAsset, audioMimeType, audioExt := f.audioAsset, f.audioMimeType, f.audioExt;
    }

    method ApplyDims(result: OptimizerResult)
      modifies this
      ensures Derived() == DimsBlock(old(Derived()), result)
      ensures originalAsset == old(originalAsset) && originalAudio == old(originalAudio)
    {
      width := KeepNum(width, result.dims.width);
      height := KeepNum(height, result.dims.height);
      duration := KeepNum(duration, result.duration);
    }

    /** The raw descriptor, with the unlink of the download before `asset` is set. */
    method ApplyMime(fs: TempFiles, result: OptimizerResult, cfg: Config, id: string) returns (thrown: bool)
      modifies this, fs
      ensures thrown <==> RawRelease(result).Some? && RawRelease(result).value !in old(fs.live)
      ensures fs.live == old(fs.live) - (if RawRelease(result).Some? then {RawRelease(result).value} else {})
      ensures !thrown ==> Derived() == MimeBlock(old(Derived()), result, cfg, id)
      ensures originalAsset == old(originalAsset) && originalAudio == old(originalAudio)
    {
      thrown := false;
      if result.mimeType.Some? {
        var m := result.mimeType.value;
        var key := asset;
        if Truthy(result.path) {
          var unlinked := fs.Unlink(result.path.value);
          if !unlinked {
            return true;
          }
          key := Some(StorageKey(cfg.rawFolder, id, Text(m.ext)));
        }
        asset, mimeType, contentType, ext :=
          key, KeepStr(mimeType, m.mime), KeepStr(contentType, m.contentType), KeepStr(ext, m.ext);
      }
    }

    method ApplyWeb(result: OptimizerResult, cfg: Config, id: string)
      modifies this
      ensures Derived() == WebBlock(old(Derived()), result, cfg, id)
      ensures originalAsset == old(originalAsset) && originalAudio == old(originalAudio)
    {
      if result.web.Some? {
        var w := result.web.value;
        var key := if Truthy(Some(w.path)) then Some(StorageKey(cfg.webFolder, id, Text(w.mimeType.ext))) else webAsset;
        webWidth, webHeight, webAsset, webMimeType, webContentType, webExt :=
          KeepNum(webWidth, w.dims.width), KeepNum(webHeight, w.dims.height), key,
          KeepStr(webMimeType, w.mimeType.mime), KeepStr(webContentType, w.mimeType.contentType), KeepStr(webExt, w.mimeType.ext);
      }
    }

    /** The audio fields, with the unlink of the audio download before `audioAsset` is
        set from `result.mimeType.ext`, which throws when there is no web descriptor. */
    method ApplyAudio(fs: TempFiles, result: OptimizerResult, audio: Option<AudioResult>, cfg: Config, id: string)
      returns (thrown: bool)
      modifies this, fs
      ensures thrown <==>
        (AudioRelease(audio).Some? && AudioRelease(audio).value !in old(fs.live)) || AudioKeyThrows(result, audio)
      ensures fs.live == old(fs.live) - (if AudioRelease(audio).Some? then {AudioRelease(audio).value} else {})
      ensures !thrown ==> Derived() == AudioBlock(old(Derived()), result, audio, cfg, id)
      ensures originalAsset == old(originalAsset) && originalAudio == old(originalAudio)
    {
      thrown := false;
      if audio.Some? {
        var a := audio.value;
        if Truthy(a.path) {
          var unlinked := fs.Unlink(a.path.value);
          if !unlinked {
            return true;
          }
          if result.mimeType.None? {
            return true;
          }
          audioAsset := Some(StorageKey(cfg.audioFolder, id, Text(result.mimeType.value.ext)));
        }
        if a.mimeType.Some? {
          audioMimeType := KeepStr(audioMimeType, a.mimeType.value.mime);
          audioExt := KeepStr(audioExt, a.mimeType.value.ext);
        }
      }
    }

    /** The assignments of the handler from `result.width` to `audio.mimeType.ext`, with
        the two unlinks among them. It reports whether it threw; when it did not, the
        derived fields are the merge. */
    method Apply(fs: TempFiles, result: OptimizerResult, audio: Option<AudioResult>, cfg: Config, id: string)
      returns (thrown: bool)
      modifies this, fs
      ensures (thrown, fs.live) == ApplyOutcome(old(fs.live), result, audio)
      ensures !thrown ==> Derived() == Merged(old(Derived()), result, audio, cfg, id)
      ensures originalAsset == old(originalAsset) && originalAudio == old(originalAudio)
    {
      ApplyDims(result);
      thrown := ApplyMime(fs, result, cfg, id);
      if thrown {
        assert fs.live == old(fs.live);
        return;
      }
      ApplyWeb(result, cfg, id);
      ghost var afterRaw := fs.live;
      assert afterRaw == if RawRelease(result).Some? then old(fs.live) - {RawRelease(result).value} else old(fs.live);
      thrown := ApplyAudio(fs, result, audio, cfg, id);
      if thrown {
        if AudioRelease(audio).Some? && AudioRelease(audio).value !in afterRaw {
          assert fs.live == afterRaw;
        }
        return;
      }
      MergedInBlocks(old(Derived()), result, audio, cfg, id);
    }
  }
}
