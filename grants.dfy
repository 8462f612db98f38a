/** The index.ts variant of the pipeline: `fileType` with the verbatim header
    (see Mime.FileTypeTs), temporary names under "temp/", the three-way dispatch
    (see Dispatch.DispatchTs), stages that resolve with `{...dimensions, path}`,
    and `runScript`, which feeds every object of a storage listing to
    `webOptimizer`.  Nothing in this variant ever removes a temporary file. */
module Grants {
  import opened Js
  import opened Mime
  import opened Naming
  import opened Hex
  import opened Dispatch
  import opened TempFs
  import opened Stages

  const S3BaseUri: string := "https://cdn.grants.art/"
  const TempDir: string := "temp/"

  /** How a stage's promise settles: with a value, or with the `err` code it rejects with. */
  datatype Settled<T> = Resolved(value: T) | Failed(code: int)

  /** `{...dimensions, path: tempFile}`: what a stage of index.ts resolves with. */
  datatype TsOutput = TsOutput(dims: Dims, path: string)

  /** `{...dimensions, web}`: what `webOptimizer` resolves with when it processed a file. */
  datatype Analysed = Analysed(dims: Dims, web: Option<TsOutput>)

  /** ffmpeg wrote the frame, and the outcome of `processImage` on that frame. */
  datatype TsVideoCodec = TsVideoCodec(extracted: bool, thumbnail: ImageCodec)

  /** The random draws of one `webOptimizer` run: the download's name, the stage's own
      file (image, gif or video frame) and the video thumbnail. */
  datatype TsDraws = TsDraws(raw: Random24, stage: Random24, thumb: Random24)

  /** The HEAD request and the byte sniffer, as functions of the URL. */
  datatype Remote = Remote(head: string -> HeadOutcome, sniff: string -> SniffOutcome)

  /** Everything else one `webOptimizer` run depends on: its draws, what
      `getMediaDimensions` reports for the download (None: it rejects), and the
      codecs' outcomes for each branch. */
  datatype TsJob = TsJob(draws: TsDraws, measured: Option<Dims>, image: ImageCodec, gif: ImageCodec, video: TsVideoCodec)

  // ------------------------------------------------------------------ names

  lemma TempNameEndsWith(prefix: string, draw: Random24, ext: string)
    ensures EndsWith(TempName(prefix, draw, ext), "." + ext)
  {
    var r := TempName(prefix, draw, ext);
    assert r[|r| - |ext| - 1..] == [r[|prefix| + 48]] + r[|prefix| + 49..];
  }

  /** `temporaryStore`: "temp/", 48 hex digits, ".", then the descriptor's ext, which
      reads "undefined" when the header had no second segment. */
  function StoredName(draw: Random24, m: MimeType): (r: string)
    ensures StartsWith(r, TempDir) && |r| == 54 + |Text(m.ext)|
    ensures IsLowerHex(r[5..53]) && r[53] == '.' && r[54..] == Text(m.ext)
    ensures m.ext.None? ==> EndsWith(r, ".undefined")
  {
    TempNameEndsWith(TempDir, draw, Text(m.ext));
    TempName(TempDir, draw, Text(m.ext))
  }

  /** The file `processImage` writes: always a .jpg, whatever the input's type. */
  function ImageName(draw: Random24): (r: string)
    ensures StartsWith(r, TempDir) && EndsWith(r, ".jpg") && |r| == 57
  {
    TempNameEndsWith(TempDir, draw, "jpg");
    assert "." + "jpg" == ".jpg";
    TempName(TempDir, draw, "jpg")
  }

  /** The file `processGif` writes: always a .gif. */
  function GifName(draw: Random24): (r: string)
    ensures StartsWith(r, TempDir) && EndsWith(r, ".gif") && |r| == 57
  {
    TempNameEndsWith(TempDir, draw, "gif");
    assert "." + "gif" == ".gif";
    TempName(TempDir, draw, "gif")
  }

  /** The frame `processVideo` extracts, itself named like an image output. */
  function FrameName(draw: Random24): (r: string)
    ensures StartsWith(r, TempDir) && EndsWith(r, ".jpg")
  {
    ImageName(draw)
  }

  // ------------------------------------------------------------------ stages

  /** `processImage`: rejects with 4 when Jimp fails, else resolves with the measured
      dimensions of the .jpg it wrote. */
  function ImageStageTs(draw: Random24, codec: ImageCodec): (r: Settled<TsOutput>)
    ensures r.Resolved? <==> codec.ok
    ensures r.Failed? ==> r.code == 4
    ensures r.Resolved? ==> r.value.dims == codec.dims && r.value.path == ImageName(draw)
  {
    if codec.ok then Resolved(TsOutput(codec.dims, ImageName(draw))) else Failed(4)
  }

  /** `processGif`: rejects with 3 when gifResize fails, else resolves with the measured
      dimensions of the .gif it wrote. */
  function GifStageTs(draw: Random24, codec: ImageCodec): (r: Settled<TsOutput>)
    ensures r.Resolved? <==> codec.ok
    ensures r.Failed? ==> r.code == 3
    ensures r.Resolved? ==> r.value.dims == codec.dims && r.value.path == GifName(draw)
  {
    if codec.ok then Resolved(TsOutput(codec.dims, GifName(draw))) else Failed(3)
  }

  /** `processVideo`: delegates to `processImage` on the extracted frame and resolves
      with exactly its result; every failure, the thumbnail's included, rejects with 3. */
  function VideoStageTs(thumbDraw: Random24, codec: TsVideoCodec): (r: Settled<TsOutput>)
    ensures r.Resolved? <==> codec.extracted && ImageStageTs(thumbDraw, codec.thumbnail).Resolved?
    ensures r.Resolved? ==> r == ImageStageTs(thumbDraw, codec.thumbnail)
    ensures r.Failed? ==> r.code == 3
  {
    if !codec.extracted then Failed(3)
    else
      match ImageStageTs(thumbDraw, codec.thumbnail)
      case Resolved(v) => Resolved(v)
      case Failed(_) => Failed(3)
  }

  /** `.catch((err) => handleError(err))`: a rejection becomes `undefined`. */
  function Caught<T>(s: Settled<T>): (r: Option<T>)
    ensures r.Some? <==> s.Resolved?
    ensures r.Some? ==> r.value == s.value
  {
    match s
    case Resolved(v) => Some(v)
    case Failed(_) => None
  }

  /** The stage the branch runs (the ts chain never yields WebpBranch). */
  function StageTs(b: Branch, job: TsJob): Settled<TsOutput> {
    if b == VideoBranch then VideoStageTs(job.draws.thumb, job.video)
    else if b == GifBranch then GifStageTs(job.draws.stage, job.gif)
    else ImageStageTs(job.draws.stage, job.image)
  }

  // ------------------------------------------------------------------ webOptimizer

  /** `webOptimizer` of index.ts.  An undetected type (its rejection is caught into an
      undefined mimeType) and a type no branch takes resolve with `undefined`; so does
      a failing `getMediaDimensions`, whose rejection (5) is caught as well.  Otherwise
      the result carries the dimensions and the stage's output, undefined when the stage
      rejected. */
  function WebOptimizedTs(remote: Remote, url: string, job: TsJob): (r: Option<Analysed>)
    ensures var d := FileTypeTs(remote.head(url), remote.sniff(url));
      r.None? <==> d.Rejected? || DispatchTs(d.m) == NoBranch || job.measured.None?
    ensures r.Some? ==> r.value.dims == job.measured.value
    ensures var d := FileTypeTs(remote.head(url), remote.sniff(url));
      r.Some? && r.value.web.Some? ==>
        && StartsWith(r.value.web.value.path, TempDir)
        && (DispatchTs(d.m) == GifBranch <==> EndsWith(r.value.web.value.path, ".gif"))
        && (DispatchTs(d.m) != GifBranch <==> EndsWith(r.value.web.value.path, ".jpg"))
    ensures var d := FileTypeTs(remote.head(url), remote.sniff(url));
      r.Some? && DispatchTs(d.m) == VideoBranch ==>
        r.value.web == (if job.video.extracted then Caught(ImageStageTs(job.draws.thumb, job.video.thumbnail)) else None)
  {
    var d := FileTypeTs(remote.head(url), remote.sniff(url));
    if d.Rejected? then None
    else
      var b := DispatchTs(d.m);
      if b == NoBranch || job.measured.None? then None
      else
        var web := Caught(StageTs(b, job));
        assert web.Some? ==> EndsWith(web.value.path, ".gif") != EndsWith(web.value.path, ".jpg") by {
          if web.Some? {
            var p := web.value.path;
            assert p[|p| - 4..] == ".gif" ==> p[|p| - 3] == 'g';
            assert p[|p| - 4..] == ".jpg" ==> p[|p| - 3] == 'j';
          }
        }
        Some(Analysed(job.measured.value, web))
  }

  /** The files a run of `webOptimizer` leaves in temp/: the download once the type is
      known; then, once the download is measured, the stage's own files, the .gif even
      when gifResize fails, the video frame once ffmpeg wrote it.  None is removed. */
  function WebLiveTs(live: set<string>, remote: Remote, url: string, job: TsJob): set<string> {
    var d := FileTypeTs(remote.head(url), remote.sniff(url));
    if d.Rejected? then live
    else
      var l := live + {StoredName(job.draws.raw, d.m)};
      var b := DispatchTs(d.m);
      if b == NoBranch || job.measured.None? then l
      else l + StageFilesTs(b, job)
  }

  function StageFilesTs(b: Branch, job: TsJob): set<string> {
    if b == VideoBranch then
      (if !job.video.extracted then {}
       else {FrameName(job.draws.stage)} + (if job.video.thumbnail.ok then {ImageName(job.draws.thumb)} else {}))
    else if b == GifBranch then {GifName(job.draws.stage)}
    else (if job.image.ok then {ImageName(job.draws.stage)} else {})
  }

  method ProcessImageTs(fs: TempFiles, draw: Random24, codec: ImageCodec) returns (r: Settled<TsOutput>)
    modifies fs
    ensures r == ImageStageTs(draw, codec)
    ensures fs.live == old(fs.live) + (if codec.ok then {ImageName(draw)} else {})
  {
    var tempFile := ImageName(draw);
    if !codec.ok {
      return Failed(4);
    }
    fs.Create(tempFile);
    r := Resolved(TsOutput(codec.dims, tempFile));
  }

  method ProcessGifTs(fs: TempFiles, draw: Random24, codec: ImageCodec) returns (r: Settled<TsOutput>)
    modifies fs
    ensures r == GifStageTs(draw, codec)
    ensures fs.live == old(fs.live) + {GifName(draw)}
  {
    var tempFile := GifName(draw);
    fs.Create(tempFile);
    if !codec.ok {
      return Failed(3);
    }
    r := Resolved(TsOutput(codec.dims, tempFile));
  }

  method ProcessVideoTs(fs: TempFiles, frameDraw: Random24, thumbDraw: Random24, codec: TsVideoCodec)
    returns (r: Settled<TsOutput>)
    modifies fs
    ensures r == VideoStageTs(thumbDraw, codec)
    ensures fs.live == old(fs.live) +
      (if !codec.extracted then {} else {FrameName(frameDraw)} + (if codec.thumbnail.ok then {ImageName(thumbDraw)} else {}))
  {
    var tempFrame := FrameName(frameDraw);
    if !codec.extracted {
      return Failed(3);
    }
    fs.Create(tempFrame);
    var smallThumbnail := ProcessImageTs(fs, thumbDraw, codec.thumbnail);
    if smallThumbnail.Failed? {
      return Failed(3);
    }
    r := smallThumbnail;
  }

  method WebOptimizerTs(fs: TempFiles, remote: Remote, url: string, job: TsJob) returns (r: Option<Analysed>)
    modifies fs
    ensures r == WebOptimizedTs(remote, url, job)
    ensures fs.live == WebLiveTs(old(fs.live), remote, url, job)
  {
    var mimeType := FileTypeTs(remote.head(url), remote.sniff(url));
    if mimeType.Rejected? {
      return None;
    }
    var tempFile := StoredName(job.draws.raw, mimeType.m);
    fs.Create(tempFile);
    var b := DispatchTs(mimeType.m);
    if b == NoBranch || job.measured.None? {
      return None;
    }
    var web: Settled<TsOutput>;
    if b == VideoBranch {
      web := ProcessVideoTs(fs, job.draws.stage, job.draws.thumb, job.video);
    } else if b == GifBranch {
      web := ProcessGifTs(fs, job.draws.stage, job.gif);
    } else {
      web := ProcessImageTs(fs, job.draws.stage, job.image);
    }
    r := Some(Analysed(job.measured.value, Caught(web)));
  }

  // ------------------------------------------------------------------ properties

  /** index.ts never removes a temporary file, and keeps the download of every file
      whose type it detected (its cleanup is still a TODO in the source). */
  lemma DownloadsAccumulate(live: set<string>, remote: Remote, url: string, job: TsJob)
    ensures live <= WebLiveTs(live, remote, url, job)
    ensures var d := FileTypeTs(remote.head(url), remote.sniff(url));
      d.Detected? ==> StoredName(job.draws.raw, d.m) in WebLiveTs(live, remote, url, job)
  {
  }

  /** Unlike index.mjs, the extracted frame stays behind after the thumbnail is made. */
  lemma FrameStaysTs(live: set<string>, remote: Remote, url: string, job: TsJob)
    requires FileTypeTs(remote.head(url), remote.sniff(url)).Detected?
    requires DispatchTs(FileTypeTs(remote.head(url), remote.sniff(url)).m) == VideoBranch
    requires job.measured.Some? && job.video.extracted
    ensures FrameName(job.draws.stage) in WebLiveTs(live, remote, url, job)
  {
  }

  /** A file served as "image/webp" goes to the generic image branch in index.ts and
      comes out as a .jpg. */
  lemma WebpBecomesJpgTs(remote: Remote, url: string, job: TsJob)
    requires remote.head(url) == Headers(Some("image/webp"))
    requires job.measured.Some? && job.image.ok
    ensures WebOptimizedTs(remote, url, job).Some?
    ensures WebOptimizedTs(remote, url, job).value.web == Some(TsOutput(job.image.dims, ImageName(job.draws.stage)))
  {
    WebpDetectedTs(remote, url);
    ImageBranchTs(remote, url, job, WebpDescriptor);
  }

  /** A header "image/webp" is detected as the webp descriptor, an image for index.ts. */
  lemma WebpDetectedTs(remote: Remote, url: string)
    requires remote.head(url) == Headers(Some("image/webp"))
    ensures FileTypeTs(remote.head(url), remote.sniff(url)) == Detected(WebpDescriptor)
    ensures DispatchTs(WebpDescriptor) == ImageBranch
  {
    WebpHeaderTs();
    WebpNotOctetStream();
  }

  lemma WebpNotOctetStream()
    ensures "image/webp" != OctetStream && "image/webp" != "" && "webp" != "gif" && "image" != "video"
  {
  }

  /** A measured download of a file detected as an image is resized into a .jpg. */
  lemma ImageBranchTs(remote: Remote, url: string, job: TsJob, m: MimeType)
    requires FileTypeTs(remote.head(url), remote.sniff(url)) == Detected(m) && DispatchTs(m) == ImageBranch
    requires job.measured.Some? && job.image.ok
    ensures WebOptimizedTs(remote, url, job) == Some(Analysed(job.measured.value, Some(TsOutput(job.image.dims, ImageName(job.draws.stage)))))
  {
  }

  lemma WebpHeaderTs()
    ensures NormaliseTs("image/webp") == MimeType(Some("image/webp"), Some("image"), Some("webp"))
  {
    WebpLiterals();
    NormaliseTsParts("image/webp", "image", "webp");
  }

  // ------------------------------------------------------------------ runScript

  /** One iteration of `runScript`: the URL handed to `webOptimizer` and its result. */
  datatype Visit = Visit(url: string, result: Option<Analysed>)

  /** `s3BaseURI.concat(key)`. */
  function KeyUrl(key: string): (u: string)
    ensures StartsWith(u, S3BaseUri) && u[|S3BaseUri|..] == key
  {
    S3BaseUri + key
  }

  lemma KeyUrlInjective(a: string, b: string)
    ensures KeyUrl(a) == KeyUrl(b) <==> a == b
  {
  }

  /** The log of `runScript` over the listed keys, iteration i with jobs(i). */
  function Run(remote: Remote, keys: seq<string>, jobs: nat -> TsJob): (r: seq<Visit>)
    ensures |r| == |keys|
  {
    if keys == [] then []
    else
      var n := |keys| - 1;
      Run(remote, keys[..n], jobs) + [Visit(KeyUrl(keys[n]), WebOptimizedTs(remote, KeyUrl(keys[n]), jobs(n)))]
  }

  /** The temporary files after `runScript`: each iteration's files added in turn. */
  function RunLive(live: set<string>, remote: Remote, keys: seq<string>, jobs: nat -> TsJob): set<string> {
    if keys == [] then live
    else
      var n := |keys| - 1;
      WebLiveTs(RunLive(live, remote, keys[..n], jobs), remote, KeyUrl(keys[n]), jobs(n))
  }

  /** Every listed key is visited once, in list order, at its CDN URL. */
  lemma {:induction false} RunVisitsEveryKeyInOrder(remote: Remote, keys: seq<string>, jobs: nat -> TsJob)
    ensures forall i :: 0 <= i < |keys| ==>
      Run(remote, keys, jobs)[i] == Visit(KeyUrl(keys[i]), WebOptimizedTs(remote, KeyUrl(keys[i]), jobs(i)))
  {
    if keys != [] {
      var n := |keys| - 1;
      RunVisitsEveryKeyInOrder(remote, keys[..n], jobs);
      assert forall i :: 0 <= i < n ==> keys[..n][i] == keys[i];
    }
  }

  /** The visited URLs are distinct exactly when the listed keys are. */
  lemma RunUrlsDistinct(remote: Remote, keys: seq<string>, jobs: nat -> TsJob, i: nat, j: nat)
    requires i < |keys| && j < |keys|
    ensures Run(remote, keys, jobs)[i].url == Run(remote, keys, jobs)[j].url <==> keys[i] == keys[j]
  {
    RunVisitsEveryKeyInOrder(remote, keys, jobs);
    KeyUrlInjective(keys[i], keys[j]);
  }

  /** A run keeps every file that existed before it. */
  lemma {:induction false} RunKeepsFiles(live: set<string>, remote: Remote, keys: seq<string>, jobs: nat -> TsJob)
    ensures live <= RunLive(live, remote, keys, jobs)
  {
    if keys != [] {
      var n := |keys| - 1;
      RunKeepsFiles(live, remote, keys[..n], jobs);
      DownloadsAccumulate(RunLive(live, remote, keys[..n], jobs), remote, KeyUrl(keys[n]), jobs(n));
    }
  }

  /** `runScript`: nothing happens when the listing fails; otherwise a `while` loop over
      the listed keys, in order, awaiting `webOptimizer` for each. */
  method RunScript(fs: TempFiles, remote: Remote, listing: Option<seq<string>>, jobs: nat -> TsJob)
    returns (log: seq<Visit>)
    modifies fs
    ensures listing.None? ==> log == [] && fs.live == old(fs.live)
    ensures listing.Some? ==> log == Run(remote, listing.value, jobs)
    ensures listing.Some? ==> fs.live == RunLive(old(fs.live), remote, listing.value, jobs)
  {
    log := [];
    if listing.None? {
      return;
    }
    var contents := listing.value;
    var i := 0;
    while i < |contents|
      invariant 0 <= i <= |contents|
      invariant log == Run(remote, contents[..i], jobs)
      invariant fs.live == RunLive(old(fs.live), remote, contents[..i], jobs)
    {
      var url := KeyUrl(contents[i]);
      var result := WebOptimizerTs(fs, remote, url, jobs(i));
      log := log + [Visit(url, result)];
      assert contents[..i + 1][..i] == contents[..i];
      i := i + 1;
    }
    assert contents[..i] == contents;
  }
}
