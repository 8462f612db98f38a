/** The processing stages of index.mjs (`processImage`, `processVideo`, `processGif`,
    `processWebp`): which descriptor each resolves with and which temporary files
    each leaves behind.  The codecs are collaborators whose outcomes are parameters. */
module Stages {
  import opened Js
  import opened Mime
  import opened Naming
  import opened Hex
  import opened Dispatch
  import opened TempFs

  const MaxGridWidth: int := 600

  /** What `imageSize` reports (spread into the stage results). */
  datatype Dims = Dims(width: JsNum, height: JsNum)

  const NoDims: Dims := Dims(None, None)

  /** The value a stage resolves with: its dimensions, the file it wrote, its descriptor. */
  datatype WebOutput = WebOutput(dims: Dims, path: string, mimeType: MimeType)

  /** `processVideo` resolves with the frame's dimensions and the thumbnail. */
  datatype VideoResult = VideoResult(dims: Dims, web: WebOutput)

  /** Jimp's read-resize-write succeeded, and `imageSize` of the file it wrote. */
  datatype ImageCodec = ImageCodec(ok: bool, dims: Dims)

  /** gifResize succeeded, the height computed from the source dimensions, and the
      `destinationPath` imagemin reports for the webp it writes. */
  datatype GifCodec = GifCodec(ok: bool, height: JsNum, dest: string)

  /** imagemin-webp succeeded, the computed height, and imagemin's `destinationPath`. */
  datatype WebpCodec = WebpCodec(ok: bool, height: JsNum, dest: string)

  /** ffmpeg wrote the frame, `imageSize` of the frame (None: it threw), and the
      outcome of resizing the frame into a thumbnail. */
  datatype VideoCodec = VideoCodec(extracted: bool, frameDims: Option<Dims>, thumbnail: ImageCodec)

  /** The fixed descriptor of the gif and webp derivatives. */
  const WebpDescriptor: MimeType := MimeType(Some("image/webp"), Some("image"), Some("webp"))

  /** The descriptor `processImage` gives an image of extension ext. */
  function ImageDescriptor(ext: string): MimeType {
    MimeType(Some("image/" + LowerStr(ext)), Some("image"), Some(LowerStr(ext)))
  }

  // ------------------------------------------------------------------ pure results

  /** `processImage(path, ext)`: writes a temp file named with ext and resolves with
      it and the lower-cased descriptor; rejects when Jimp fails (and, with an
      undefined ext, never resolves, which is modelled as a rejection). */
  function ImageStage(fsPath: string, ext: JsStr, draw: Random24, codec: ImageCodec): (r: Option<WebOutput>)
    ensures r.Some? <==> codec.ok && ext.Some?
    ensures r.Some? ==> r.value.path == TempName(fsPath, draw, ext.value)
    ensures r.Some? ==> r.value.mimeType.contentType == Some("image")
    ensures r.Some? ==> r.value.mimeType.ext == Some(LowerStr(ext.value)) && IsLower(LowerStr(ext.value))
    ensures r.Some? ==> r.value.dims == codec.dims
  {
    LowerStrIsLower(if ext.Some? then ext.value else "");
    if codec.ok && ext.Some? then Some(WebOutput(codec.dims, TempName(fsPath, draw, ext.value), ImageDescriptor(ext.value)))
    else None
  }

  function ImageLive(live: set<string>, fsPath: string, ext: JsStr, draw: Random24, codec: ImageCodec): set<string> {
    if codec.ok then live + {TempName(fsPath, draw, Text(ext))} else live
  }

  /** `processGif`: always reports the webp descriptor at width 600. */
  function GifStage(codec: GifCodec): (r: Option<WebOutput>)
    ensures r.Some? <==> codec.ok
    ensures r.Some? ==> r.value.mimeType == WebpDescriptor && r.value.dims.width == Some(MaxGridWidth)
    ensures r.Some? ==> r.value.path == codec.dest
  {
    if codec.ok then Some(WebOutput(Dims(Some(MaxGridWidth), codec.height), codec.dest, WebpDescriptor)) else None
  }

  /** The intermediate .gif written by `processGif` before conversion. */
  function GifTemp(fsPath: string, draw: Random24): string {
    TempName(fsPath, draw, "gif")
  }

  function GifLive(live: set<string>, fsPath: string, draw: Random24, codec: GifCodec): set<string> {
    live + {GifTemp(fsPath, draw)} + (if codec.ok then {codec.dest} else {})
  }

  /** `processWebp`: always reports the webp descriptor at width 600. */
  function WebpStage(codec: WebpCodec): (r: Option<WebOutput>)
    ensures r.Some? <==> codec.ok
    ensures r.Some? ==> r.value.mimeType == WebpDescriptor && r.value.dims.width == Some(MaxGridWidth)
    ensures r.Some? ==> r.value.path == codec.dest
  {
    if codec.ok then Some(WebOutput(Dims(Some(MaxGridWidth), codec.height), codec.dest, WebpDescriptor)) else None
  }

  function WebpLive(live: set<string>, codec: WebpCodec): set<string> {
    if codec.ok then live + {codec.dest} else live
  }

  /** The frame `processVideo` extracts. */
  function FrameTemp(fsPath: string, draw: Random24): string {
    TempName(fsPath, draw, "jpg")
  }

  /** `processVideo`: resolves with the frame's dimensions and the `processImage`
      thumbnail of the frame (a jpg); rejects when extraction, measuring the frame or
      the thumbnail fails. */
  function VideoStage(fsPath: string, frameDraw: Random24, thumbDraw: Random24, codec: VideoCodec): (r: Option<VideoResult>)
    ensures r.Some? <==> codec.extracted && codec.frameDims.Some? && codec.thumbnail.ok
    ensures r.Some? ==> r.value.dims == codec.frameDims.value
    ensures r.Some? ==> Some(r.value.web) == ImageStage(fsPath, Some("jpg"), thumbDraw, codec.thumbnail)
  {
    if !codec.extracted || codec.frameDims.None? then None
    else
      match ImageStage(fsPath, Some("jpg"), thumbDraw, codec.thumbnail)
      case None => None
      case Some(w) => Some(VideoResult(codec.frameDims.value, w))
  }

  function VideoLive(live: set<string>, fsPath: string, frameDraw: Random24, thumbDraw: Random24, codec: VideoCodec): set<string> {
    var frame := FrameTemp(fsPath, frameDraw);
    if !codec.extracted then live
    else if codec.frameDims.None? || !codec.thumbnail.ok then live + {frame}
    else ImageLive(live + {frame}, fsPath, Some("jpg"), thumbDraw, codec.thumbnail) - {frame}
  }

  // ------------------------------------------------------------------ stages

  method ProcessImage(fs: TempFiles, fsPath: string, ext: JsStr, draw: Random24, codec: ImageCodec)
    returns (r: Option<WebOutput>)
    modifies fs
    ensures r == ImageStage(fsPath, ext, draw, codec)
    ensures fs.live == ImageLive(old(fs.live), fsPath, ext, draw, codec)
  {
    var tempFile := TempName(fsPath, draw, Text(ext));
    if !codec.ok {
      return None;
    }
    fs.Create(tempFile);
    if ext.None? {
      return None;
    }
    r := Some(WebOutput(codec.dims, tempFile, ImageDescriptor(ext.value)));
  }

  method ProcessGif(fs: TempFiles, fsPath: string, draw: Random24, codec: GifCodec)
    returns (r: Option<WebOutput>)
    modifies fs
    ensures r == GifStage(codec)
    ensures fs.live == GifLive(old(fs.live), fsPath, draw, codec)
  {
    var tempFile := GifTemp(fsPath, draw);
    fs.Create(tempFile);
    if !codec.ok {
      return None;
    }
    fs.Create(codec.dest);
    r := Some(WebOutput(Dims(Some(MaxGridWidth), codec.height), codec.dest, WebpDescriptor));
  }

  method ProcessWebp(fs: TempFiles, codec: WebpCodec) returns (r: Option<WebOutput>)
    modifies fs
    ensures r == WebpStage(codec)
    ensures fs.live == WebpLive(old(fs.live), codec)
  {
    if !codec.ok {
      return None;
    }
    fs.Create(codec.dest);
    r := Some(WebOutput(Dims(Some(MaxGridWidth), codec.height), codec.dest, WebpDescriptor));
  }

  method ProcessVideo(fs: TempFiles, fsPath: string, frameDraw: Random24, thumbDraw: Random24, codec: VideoCodec)
    returns (r: Option<VideoResult>)
    modifies fs
    ensures r == VideoStage(fsPath, frameDraw, thumbDraw, codec)
    ensures fs.live == VideoLive(old(fs.live), fsPath, frameDraw, thumbDraw, codec)
  {
    var tempFrame := FrameTemp(fsPath, frameDraw);
    if !codec.extracted {
      return None;
    }
    fs.Create(tempFrame);
    if codec.frameDims.None? {
      return None;
    }
    var smallThumbnail := ProcessImage(fs, fsPath, Some("jpg"), thumbDraw, codec.thumbnail);
    if smallThumbnail.None? {
      return None;
    }
    var unlinked := fs.Unlink(tempFrame);
    assert unlinked;
    r := Some(VideoResult(codec.frameDims.value, smallThumbnail.value));
  }

  // ------------------------------------------------------------------ properties

  /** Once the thumbnail exists the frame is gone: a successful video stage leaves
      exactly the thumbnail behind (for a fresh frame name distinct from the thumbnail's). */
  lemma FrameReleasedAfterThumbnail(live: set<string>, fsPath: string, frameDraw: Random24, thumbDraw: Random24, codec: VideoCodec)
    requires frameDraw != thumbDraw && FrameTemp(fsPath, frameDraw) !in live
    requires VideoStage(fsPath, frameDraw, thumbDraw, codec).Some?
    ensures VideoLive(live, fsPath, frameDraw, thumbDraw, codec)
         == live + {VideoStage(fsPath, frameDraw, thumbDraw, codec).value.web.path}
  {
    TempNameInjective(fsPath, frameDraw, "jpg", thumbDraw, "jpg");
  }

  /** When extraction succeeded but measuring or thumbnailing failed, the frame is
      never unlinked. */
  lemma FrameLeaksOnFailure(live: set<string>, fsPath: string, frameDraw: Random24, thumbDraw: Random24, codec: VideoCodec)
    requires codec.extracted && VideoStage(fsPath, frameDraw, thumbDraw, codec).None?
    ensures VideoLive(live, fsPath, frameDraw, thumbDraw, codec) == live + {FrameTemp(fsPath, frameDraw)}
  {
  }

  /** `processGif` never unlinks its intermediate .gif, whatever the outcome. */
  lemma GifIntermediateRemains(live: set<string>, fsPath: string, draw: Random24, codec: GifCodec)
    ensures GifTemp(fsPath, draw) in GifLive(live, fsPath, draw, codec)
    ensures GifStage(codec).Some? ==> GifTemp(fsPath, draw) != GifStage(codec).value.path ==>
              GifLive(live, fsPath, draw, codec) - {GifStage(codec).value.path} == live + {GifTemp(fsPath, draw)} - {GifStage(codec).value.path}
  {
  }

  /** The webp descriptor is what index.mjs itself detects for any capitalisation of
      "image/webp", and it selects the webp branch. */
  lemma WebpDescriptorRedetects(header: string)
    requires LowerStr(header) == "image/webp"
    ensures NormaliseMjs(header) == WebpDescriptor
    ensures DispatchMjs(NormaliseMjs(header)) == WebpBranch
  {
    WebpLiterals();
    NoFirstCharNoOccurrence("image/webp", "jpeg");
    NormaliseMjsParts(header, "image", "webp");
  }

  /** The literal facts the webp examples rest on. */
  lemma WebpLiterals()
    ensures "image" + "/" + "webp" == "image/webp"
    ensures IsLower("image") && '/' !in "image" && '/' !in "webp"
    ensures 'j' !in "image/webp"
  {
  }

  /** The descriptor of an image derivative is what index.mjs detects when the file is
      served back with its own mime: a fixed point of the normalisation. */
  lemma ImageDescriptorRedetects(ext: string)
    requires '/' !in ext && IndexOf(ImageDescriptor(ext).mime.value, "jpeg").None?
    ensures NormaliseMjs(ImageDescriptor(ext).mime.value) == ImageDescriptor(ext)
  {
    var ct, e := "image", LowerStr(ext);
    LowerStrIsLower(ext);
    LowerStrNoChar(ext, '/');
    assert IsLower(ct) && '/' !in ct;
    assert ImageDescriptor(ext).mime.value == ct + "/" + e;
    NormaliseMjsRoundTrip(ct, e);
  }
}
