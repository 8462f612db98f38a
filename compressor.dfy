/** `compressor` of index.js: a local test script that resizes one file from
    `test-images/` into `test-output/`, choosing the codec by the file name. */
module Compressor {
  import opened Js
  import opened Dispatch

  const MaxWidth: nat := 600
  const InputFolder: string := "test-images"
  const OutputFolder: string := "test-output"

  /** What the script asks the codec library to do. */
  datatype Plan =
    | GifResize(width: nat)                      // gifResize({width: 600, ...})
    | VideoResize(format: string, size: string)  // videoResize({format: "mp4", size})
    | ImageResize(width: nat)                    // img.resize(600, jimp.AUTO)

  datatype CompressJob = CompressJob(input: string, output: string, plan: Plan)

  /** `path.join(__dirname, "./<folder>/" + file)` for a directory without a trailing
      separator and a plain file name. */
  function ScriptPath(dir: string, folder: string, file: string): string {
    dir + "/" + folder + "/" + file
  }

  /** `${width}x${height}`. */
  function SizeString(width: nat, height: nat): (s: string)
    ensures |s| >= 3
  {
    NatToString(width) + "x" + NatToString(height)
  }

  /** Reads a "<digits>x<digits>" size back. */
  function ParseSize(s: string): Option<(nat, nat)> {
    var parts := Split(s, 'x');
    if |parts| == 2 && parts[0] != "" && parts[1] != "" && IsDigits(parts[0]) && IsDigits(parts[1])
    then Some((DigitsValue(parts[0]), DigitsValue(parts[1])))
    else None
  }

  lemma NoXInDigits(n: nat)
    ensures 'x' !in NatToString(n)
  {
    var s := NatToString(n);
    forall i | 0 <= i < |s| ensures s[i] != 'x' {
      assert '0' <= s[i] <= '9';
    }
  }

  /** The size string names exactly the width and height it was made from. */
  lemma SizeStringRoundTrip(width: nat, height: nat)
    ensures ParseSize(SizeString(width, height)) == Some((width, height))
  {
    var w, h := NatToString(width), NatToString(height);
    NoXInDigits(width);
    NoXInDigits(height);
    SplitAtFirst(w, 'x', h);
    SplitNoSeparator(h, 'x');
    assert Split(SizeString(width, height), 'x') == [w, h];
    DigitsValueOfNatToString(width);
    DigitsValueOfNatToString(height);
  }

  /** `compressor(file)`: input and output paths for the same file name, and the plan
      the branch key selects; videoHeight is the height computed from the source's
      dimensions. */
  function Compressor(dir: string, file: string, videoHeight: nat): (j: CompressJob)
    ensures EndsWith(j.input, "/" + file) && EndsWith(j.output, "/" + file)
    ensures j.input[..|j.input| - |file|] == dir + "/" + InputFolder + "/"
    ensures j.output[..|j.output| - |file|] == dir + "/" + OutputFolder + "/"
    ensures j.plan.GifResize? <==> BranchKey(file) == Some("gif")
    ensures j.plan.VideoResize? <==> BranchKey(file) == Some("mp4")
    ensures j.plan.GifResize? || j.plan.ImageResize? ==> j.plan.width == MaxWidth
    ensures j.plan.VideoResize? ==> j.plan.format == "mp4" && ParseSize(j.plan.size) == Some((MaxWidth, videoHeight))
  {
    var input := ScriptPath(dir, InputFolder, file);
    var output := ScriptPath(dir, OutputFolder, file);
    assert input[|input| - |file| - 1..] == "/" + file;
    assert output[|output| - |file| - 1..] == "/" + file;
    SizeStringRoundTrip(MaxWidth, videoHeight);
    var plan := match DispatchJs(file)
      case GifBranch => GifResize(MaxWidth)
      case VideoBranch => VideoResize("mp4", SizeString(MaxWidth, videoHeight))
      case _ => ImageResize(MaxWidth);
    CompressJob(input, output, plan)
  }

  /** The input and output of one job are distinct files, and distinct file names give
      distinct outputs. */
  lemma CompressorPathsDistinct(dir: string, f1: string, f2: string, h1: nat, h2: nat)
    ensures Compressor(dir, f1, h1).input != Compressor(dir, f1, h1).output
    ensures Compressor(dir, f1, h1).output == Compressor(dir, f2, h2).output <==> f1 == f2
  {
    var j := Compressor(dir, f1, h1);
    var n := |dir| + 1;
    assert j.input[n..n + 11] == InputFolder;
    assert j.output[n..n + 11] == OutputFolder;
    assert InputFolder[5] != OutputFolder[5];
    var k := Compressor(dir, f2, h2);
    if j.output == k.output {
      assert j.output[n + 12..] == f1;
      assert k.output[n + 12..] == f2;
    }
  }

  /** A name with a single dot, such as the script's own sample file
      "Rob Hill - Commonalities - 154.jpeg", is keyed by its extension; every
      extension other than "gif" and "mp4" is resized as an image. */
  lemma SingleDotKeyedByExtension(dir: string, stem: string, ext: string, h: nat)
    requires '.' !in stem && '.' !in ext
    ensures BranchKey(stem + "." + ext) == Some(ext)
    ensures ext != "gif" && ext != "mp4" ==> Compressor(dir, stem + "." + ext, h).plan == ImageResize(MaxWidth)
  {
    SplitAtFirst(stem, '.', ext);
    SplitNoSeparator(ext, '.');
  }
}
