/** Which processing branch a descriptor selects, in the three pipeline variants. */
module Dispatch {
  import opened Js
  import opened Mime

  datatype Branch = VideoBranch | GifBranch | WebpBranch | ImageBranch | NoBranch

  /** The if/else chain of `webOptimizer` in index.mjs: video, then gif, then webp
      image, then any other image; anything else has no web derivative. */
  function DispatchMjs(m: MimeType): (b: Branch)
    ensures b == VideoBranch <==> m.contentType == Some("video")
    ensures b == GifBranch <==> m.contentType != Some("video") && m.ext == Some("gif")
    ensures b == WebpBranch <==>
      m.contentType != Some("video") && m.ext != Some("gif") && m.contentType == Some("image") && m.ext == Some("webp")
    ensures b == ImageBranch <==>
      m.contentType != Some("video") && m.ext != Some("gif") && m.contentType == Some("image") && m.ext != Some("webp")
    ensures b == NoBranch <==>
      m.contentType != Some("video") && m.ext != Some("gif") && m.contentType != Some("image")
  {
    if m.contentType == Some("video") then VideoBranch
    else if m.ext == Some("gif") then GifBranch
    else if m.contentType == Some("image") then
      (if m.ext == Some("webp") then WebpBranch else ImageBranch)
    else NoBranch
  }

  /** The if/else chain of `webOptimizer` in index.ts: video, then gif, then image. */
  function DispatchTs(m: MimeType): (b: Branch)
    ensures b != WebpBranch
    ensures b == VideoBranch <==> m.contentType == Some("video")
    ensures b == GifBranch <==> m.contentType != Some("video") && m.ext == Some("gif")
    ensures b == ImageBranch <==>
      m.contentType != Some("video") && m.ext != Some("gif") && m.contentType == Some("image")
    ensures b == NoBranch <==>
      m.contentType != Some("video") && m.ext != Some("gif") && m.contentType != Some("image")
  {
    if m.contentType == Some("video") then VideoBranch
    else if m.ext == Some("gif") then GifBranch
    else if m.contentType == Some("image") then ImageBranch
    else NoBranch
  }

  /** `audioOptimizer` processes a file only when its contentType is "audio". */
  predicate IsAudio(m: MimeType) {
    m.contentType == Some("audio")
  }

  function MergeWebp(b: Branch): Branch {
    if b == WebpBranch then ImageBranch else b
  }

  /** The index.ts chain is the index.mjs chain with its webp branch folded into the
      generic image branch. */
  lemma DispatchVariantsAgree(m: MimeType)
    ensures DispatchTs(m) == MergeWebp(DispatchMjs(m))
  {
  }

  /** A video whose extension is gif still takes the video branch. */
  lemma VideoBeatsGif(m: MimeType)
    requires m.contentType == Some("video") && m.ext == Some("gif")
    ensures DispatchMjs(m) == VideoBranch && DispatchTs(m) == VideoBranch
  {
  }

  /** The gif rule looks only at ext: an "application/gif" descriptor is a gif too. */
  lemma GifByExtensionAlone(m: MimeType)
    requires m.contentType == Some("application") && m.ext == Some("gif")
    ensures DispatchMjs(m) == GifBranch
  {
  }

  /** A file served as `application/octet-stream` never reaches the video, image or
      webp branch, nor the audio optimizer: its contentType is never a media type.
      Only a sniffed gif is processed (by extension). */
  lemma OctetStreamNeverMedia(sniff: SniffOutcome)
    requires FileTypeMjs(Headers(Some(OctetStream)), sniff).Detected?
    ensures DispatchMjs(FileTypeMjs(Headers(Some(OctetStream)), sniff).m) in {GifBranch, NoBranch}
    ensures !IsAudio(FileTypeMjs(Headers(Some(OctetStream)), sniff).m)
    ensures DispatchMjs(FileTypeMjs(Headers(Some(OctetStream)), sniff).m) == GifBranch <==>
              sniff.Sniffed? && sniff.found.Some? && sniff.found.value.ext == "gif"
  {
    assert SniffedContentType[0] == '[';
  }

  /** In index.mjs an upper-case "image/GIF" header reaches the gif branch, because the
      header is lower-cased first; in index.ts it reaches the generic image branch. */
  lemma UpperCaseGifHeader()
    ensures DispatchMjs(NormaliseMjs("image/GIF")) == GifBranch
    ensures DispatchTs(NormaliseTs("image/GIF")) == ImageBranch
  {
    LowerGif();
    AnyCaseGifMjs("image/GIF");
    NormaliseGifTs();
  }

  lemma LowerGif()
    ensures LowerStr("image/GIF") == "image/gif"
  {
    var s, t := "image/GIF", "image/gif";
    forall k | 0 <= k < |s| ensures Lower(s[k]) == t[k] {
      if k >= 6 {
        assert 'A' <= s[k] <= 'Z';
      } else {
        assert s[k] == t[k] && !('A' <= s[k] <= 'Z');
      }
    }
    LowerStrPointwise(s, t);
  }

  /** Every capitalisation of "image/gif" is a gif for index.mjs. */
  lemma AnyCaseGifMjs(header: string)
    requires LowerStr(header) == "image/gif"
    ensures NormaliseMjs(header) == MimeType(Some("image/gif"), Some("image"), Some("gif"))
    ensures DispatchMjs(NormaliseMjs(header)) == GifBranch
  {
    NoJpegInGif();
    GifLiterals();
    NormaliseMjsParts(header, "image", "gif");
  }

  /** The literal facts the gif examples rest on. */
  lemma GifLiterals()
    ensures "image" + "/" + "gif" == "image/gif" && "image" + "/" + "GIF" == "image/GIF"
    ensures IsLower("image") && '/' !in "image" && '/' !in "gif" && '/' !in "GIF"
    ensures 'j' !in "image/gif"
  {
  }

  lemma NoJpegInGif()
    ensures IndexOf("image/gif", "jpeg").None?
  {
    GifLiterals();
    NoFirstCharNoOccurrence("image/gif", "jpeg");
  }

  lemma NormaliseGifTs()
    ensures NormaliseTs("image/GIF") == MimeType(Some("image/GIF"), Some("image"), Some("GIF"))
  {
    GifLiterals();
    NormaliseTsParts("image/GIF", "image", "GIF");
  }

  /** The branch key of `compressor` in index.js: segment 1 of the file name split on
      ".", which is not the last segment when the name has more than one dot. */
  function BranchKey(file: string): (k: JsStr)
    ensures Segments01(file, '.', Split(file, '.')[0], k)
  {
    SplitSegments(file, '.');
    At(Split(file, '.'), 1)
  }

  /** The three-way choice of `compressor`: "gif", then "mp4", else an image. */
  function DispatchJs(file: string): (b: Branch)
    ensures b in {GifBranch, VideoBranch, ImageBranch}
    ensures b == GifBranch <==> BranchKey(file) == Some("gif")
    ensures b == VideoBranch <==> BranchKey(file) == Some("mp4")
  {
    var k := BranchKey(file);
    if k == Some("gif") then GifBranch
    else if k == Some("mp4") then VideoBranch
    else ImageBranch
  }

  /** "a.b.gif" is keyed by "b", so it is resized as an image, not as a gif. */
  lemma ExampleTwoDots()
    ensures BranchKey("a.b.gif") == Some("b")
    ensures DispatchJs("a.b.gif") == ImageBranch
  {
    assert "a.b.gif" == "a" + "." + ("b" + "." + "gif");
    SplitAtFirst("a", '.', "b.gif");
    assert "b.gif" == "b" + "." + "gif";
    SplitAtFirst("b", '.', "gif");
    SplitNoSeparator("gif", '.');
    assert Split("a.b.gif", '.') == ["a", "b", "gif"];
  }

  /** A name without a dot has an undefined key and is treated as an image. */
  lemma NoDotIsImage(file: string)
    requires '.' !in file
    ensures BranchKey(file).None? && DispatchJs(file) == ImageBranch
  {
    SplitNoSeparator(file, '.');
  }
}
