/** util/extract-frames.js: empty an output directory of its regular files,
    then extract one frame per requested offset into it, as
    `screenshot_<index>.bmp`, and return the offset of every file written.

    The directory is an object whose contents the program changes in place.
    ffmpeg is an oracle that says whether one extraction succeeds; a
    successful extraction writes (or, with `-y`, overwrites) its file. */
module ExtractFrames {
  import opened Base
  import opened Text

  /** Every name of `keys` exactly once, in some order. */
  predicate IsListing(names: seq<string>, keys: set<string>) {
    && (forall i, j :: 0 <= i < j < |names| ==> names[i] != names[j])
    && (forall n :: n in names ==> n in keys)
    && (forall n :: n in keys ==> n in names)
  }

  /** A listing has one name per key. */
  lemma {:induction false} ListingSize(names: seq<string>, keys: set<string>)
    requires IsListing(names, keys)
    ensures |names| == |keys|
    decreases |names|
  {
    if |names| == 0 {
      assert keys == {};
    } else {
      var n := |names| - 1;
      var last := names[n];
      var prefix := names[..n];
      forall m | m in prefix
        ensures m in keys - {last}
      {
        var i :| 0 <= i < n && prefix[i] == m;
        assert names[i] == m;
      }
      forall m | m in keys - {last}
        ensures m in prefix
      {
        var i :| 0 <= i < |names| && names[i] == m;
        assert i != n;
        assert prefix[i] == m;
      }
      ListingSize(prefix, keys - {last});
    }
  }

  /** An output directory: its regular files, each with the picture it
      holds, and its other entries (sub-directories and the like), which the
      program lists but never touches. */
  class FrameDir {
    const path: string
    var files: map<string, Image>
    var others: set<string>

    /** A fresh, empty directory, as `fs.mkdtemp` creates one. */
    constructor (path: string)
      ensures this.path == path && files == map[] && others == {}
    {
      this.path := path;
      files := map[];
      others := {};
    }

    /** `readdir(..., { withFileTypes: true }).filter(x => x.isFile())`: the
        regular files, each once, in the order the file system lists them. */
    method ListFiles() returns (names: seq<string>)
      ensures IsListing(names, files.Keys)
    {
      names := [];
      var rest := files.Keys;
      while rest != {}
        invariant rest <= files.Keys
        invariant forall i, j :: 0 <= i < j < |names| ==> names[i] != names[j]
        invariant forall n :: n in names ==> n in files.Keys && n !in rest
        invariant forall n :: n in files.Keys ==> n in names || n in rest
        decreases |rest|
      {
        var n :| n in rest;
        names := names + [n];
        rest := rest - {n};
      }
    }

    /** `fs.rm` of one file. */
    method Remove(name: string)
      modifies this
      ensures files == old(files) - {name} && others == old(others)
    {
      files := files - {name};
    }

    /** Lines 6-9 of util/extract-frames.js: list the regular files and
        delete them one by one. */
    method RemoveFiles()
      modifies this
      ensures files == map[] && others == old(others)
    {
      var filesToRemove := ListFiles();
      var i := 0;
      while i < |filesToRemove|
        invariant i <= |filesToRemove|
        invariant others == old(others)
        invariant forall n :: n in files ==> n in filesToRemove[i..]
      {
        Remove(filesToRemove[i]);
        i := i + 1;
      }
    }

    /** A successful extraction writing `image` to `name`. */
    method Write(name: string, image: Image)
      modifies this
      ensures files == old(files)[name := image] && others == old(others)
    {
      files := files[name := image];
    }
  }

  /** The record returned for one extracted frame. */
  datatype ExportedFrame = ExportedFrame(offset: real, filename: string)

  /** One ffmpeg call: the input video, the seek position in seconds and the
      output path. */
  datatype Extraction = Extraction(input: string, seekSeconds: real, outputPath: string)

  datatype ExtractError = FfmpegFailed(call: Extraction)

  /** `screenshot_${index}.bmp`. */
  function ScreenshotName(index: nat): (name: string)
    ensures |name| == |NatToString(index)| + 15
  {
    "screenshot_" + NatToString(index) + ".bmp"
  }

  /** Distinct indices give distinct file names. */
  lemma ScreenshotNameInjective(i: nat, j: nat)
    requires ScreenshotName(i) == ScreenshotName(j)
    ensures i == j
  {
    var a, b := ScreenshotName(i), ScreenshotName(j);
    assert a[11..|a| - 4] == NatToString(i);
    assert b[11..|b| - 4] == NatToString(j);
    NatToStringInjective(i, j);
  }

  /** The ffmpeg call for the frame of index `index`, at `offset`. */
  function ExtractionFor(input: string, dir: string, offset: real, index: nat): Extraction {
    Extraction(input, offset / 1000.0, dir + "/" + ScreenshotName(index))
  }

  /** The ffmpeg calls for `offsets`, in order. */
  function Calls(input: string, dir: string, offsets: seq<real>): (calls: seq<Extraction>)
    ensures |calls| == |offsets|
    decreases |offsets|
  {
    if |offsets| == 0 then []
    else
      var n := |offsets| - 1;
      Calls(input, dir, offsets[..n]) + [ExtractionFor(input, dir, offsets[n], n)]
  }

  lemma {:induction false} CallsAt(input: string, dir: string, offsets: seq<real>, k: nat)
    requires k < |offsets|
    ensures Calls(input, dir, offsets)[k] == ExtractionFor(input, dir, offsets[k], k)
    decreases |offsets|
  {
    var n := |offsets| - 1;
    if k < n {
      CallsAt(input, dir, offsets[..n], k);
    }
  }

  /** The picture written for an offset. */
  function ImageAt(input: string, offset: real, frameSize: Dims): Image {
    Image(Frame(input, offset), None, frameSize)
  }

  /** The files written for `offsets`, by name. */
  function FrameFiles(input: string, offsets: seq<real>, frameSize: Dims): map<string, Image>
    decreases |offsets|
  {
    if |offsets| == 0 then map[]
    else
      var n := |offsets| - 1;
      FrameFiles(input, offsets[..n], frameSize)[ScreenshotName(n) := ImageAt(input, offsets[n], frameSize)]
  }

  /** The files written for `offsets` are exactly one per index... */
  lemma {:induction false} FrameFilesKeys(input: string, offsets: seq<real>, frameSize: Dims, name: string)
    ensures name in FrameFiles(input, offsets, frameSize) <==>
              exists k :: 0 <= k < |offsets| && name == ScreenshotName(k)
    decreases |offsets|
  {
    if |offsets| > 0 {
      FrameFilesKeys(input, offsets[..|offsets| - 1], frameSize, name);
    }
  }

  /** The names of the first `count` screenshots. */
  function ScreenshotNames(count: nat): set<string> {
    set k | 0 <= k < count :: ScreenshotName(k)
  }

  /** The files written for `offsets` are named after the indices of
      `offsets`, whatever the offsets are. */
  lemma FrameFilesNames(input: string, offsets: seq<real>, frameSize: Dims)
    ensures FrameFiles(input, offsets, frameSize).Keys == ScreenshotNames(|offsets|)
  {
    forall name | name in FrameFiles(input, offsets, frameSize)
      ensures name in ScreenshotNames(|offsets|)
    {
      FrameFilesKeys(input, offsets, frameSize, name);
    }
    forall name | name in ScreenshotNames(|offsets|)
      ensures name in FrameFiles(input, offsets, frameSize)
    {
      FrameFilesKeys(input, offsets, frameSize, name);
    }
  }

  /** ... and the file of index `k` holds the frame at `offsets[k]`. */
  lemma {:induction false} FrameFilesAt(input: string, offsets: seq<real>, frameSize: Dims, k: nat)
    requires k < |offsets|
    ensures ScreenshotName(k) in FrameFiles(input, offsets, frameSize)
    ensures FrameFiles(input, offsets, frameSize)[ScreenshotName(k)] == ImageAt(input, offsets[k], frameSize)
    decreases |offsets|
  {
    var n := |offsets| - 1;
    if k < n {
      var prefix := offsets[..n];
      FrameFilesAt(input, prefix, frameSize, k);
      if ScreenshotName(k) == ScreenshotName(n) {
        ScreenshotNameInjective(k, n);
      }
      assert prefix[k] == offsets[k];
    }
  }

  /** The index of the first call of `calls`, from `from` on, that fails. */
  function FirstFailure(calls: seq<Extraction>, from: nat, ffmpeg: Extraction -> bool): (r: Option<nat>)
    requires from <= |calls|
    ensures r.Some? ==> from <= r.value < |calls| && !ffmpeg(calls[r.value])
    ensures r.Some? ==> forall j :: from <= j < r.value ==> ffmpeg(calls[j])
    ensures r.None? <==> forall j :: from <= j < |calls| ==> ffmpeg(calls[j])
    decreases |calls| - from
  {
    if from == |calls| then None
    else if !ffmpeg(calls[from]) then Some(from)
    else FirstFailure(calls, from + 1, ffmpeg)
  }

  /** How many of `calls` succeed before the first that fails. */
  function Written(calls: seq<Extraction>, ffmpeg: Extraction -> bool): (n: nat)
    ensures n <= |calls|
  {
    var failure := FirstFailure(calls, 0, ffmpeg);
    if failure.None? then |calls| else failure.value
  }

  /** The records returned for `offsets`. */
  function Exported(offsets: seq<real>): (frames: seq<ExportedFrame>)
    ensures |frames| == |offsets|
    decreases |offsets|
  {
    if |offsets| == 0 then []
    else
      var n := |offsets| - 1;
      Exported(offsets[..n]) + [ExportedFrame(offsets[n], ScreenshotName(n))]
  }

  lemma {:induction false} ExportedAt(offsets: seq<real>, k: nat)
    requires k < |offsets|
    ensures Exported(offsets)[k] == ExportedFrame(offsets[k], ScreenshotName(k))
    decreases |offsets|
  {
    var n := |offsets| - 1;
    if k < n {
      ExportedAt(offsets[..n], k);
    }
  }

  /** `extractFrames({ input, outputDir, offsets })`: delete every regular
      file of the directory, then extract the frames in order. `frameSize` is
      the size of the video's frames; `ffmpeg` says whether a call succeeds.
      The calls are made in order up to and including the first that fails;
      a failing call throws, after the calls before it have written their
      files. On success there is one record per offset, in order, and the
      directory's files are exactly the ones written. */
  method Extract(input: string, dir: FrameDir, offsets: seq<real>, frameSize: Dims,
                 ffmpeg: Extraction -> bool)
    returns (r: Result<seq<ExportedFrame>, ExtractError>, calls: seq<Extraction>)
    modifies dir
    ensures dir.others == old(dir.others)
    ensures var all := Calls(input, dir.path, offsets);
      && (r.Ok? <==> FirstFailure(all, 0, ffmpeg).None?)
      && (r.Err? ==> r.error == FfmpegFailed(all[Written(all, ffmpeg)]))
      && calls == Calls(input, dir.path, offsets[..if r.Ok? then |all| else Written(all, ffmpeg) + 1])
      && dir.files == FrameFiles(input, offsets[..Written(all, ffmpeg)], frameSize)
    ensures r.Ok? ==> r.value == Exported(offsets)
  {
    dir.RemoveFiles();

    ghost var all := Calls(input, dir.path, offsets);
    var exportedFrames: seq<ExportedFrame> := [];
    calls := [];
    var index := 0;
    while index < |offsets|
      invariant index <= |offsets|
      invariant dir.others == old(dir.others)
      invariant FirstFailure(all, 0, ffmpeg) == FirstFailure(all, index, ffmpeg)
      invariant calls == Calls(input, dir.path, offsets[..index])
      invariant exportedFrames == Exported(offsets[..index])
      invariant dir.files == FrameFiles(input, offsets[..index], frameSize)
    {
      var offsetInMillis := offsets[index];
      var currentFrame := ExportedFrame(offsetInMillis, ScreenshotName(index));
      // seek to `offset / 1000` seconds, write to `outputDir/filename`
      var call := ExtractionFor(input, dir.path, offsetInMillis, index);
      assert offsets[..index + 1][..index] == offsets[..index];
      calls := calls + [call];
      CallsAt(input, dir.path, offsets, index);
      if !ffmpeg(call) {
        assert FirstFailure(all, index, ffmpeg) == Some(index);
        return Err(FfmpegFailed(call)), calls;
      }
      dir.Write(currentFrame.filename, ImageAt(input, offsetInMillis, frameSize));
      exportedFrames := exportedFrames + [currentFrame];
      index := index + 1;
    }
    assert offsets[..index] == offsets;
    r := Ok(exportedFrames);
  }
}
