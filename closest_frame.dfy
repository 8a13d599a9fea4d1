/** util/find-closest-frame.js: compare an input picture with every regular
    file of a directory and keep the best match.

    The comparison scores are oracles: `ssim` stands for ssim.js's `mssim`,
    `pixelmatch` for the number of mismatched pixels. The loop keeps
    `closestMatch`, replacing it only on a strictly better score; the two
    modes differ in how JavaScript compares the stored value, which the
    model spells out with `JsValue`. */
module ClosestFrame {
  import opened Base
  import opened Selection
  import opened ExtractFrames

  const SsimName := "ssim"
  const MismatchedPixelsName := "matching-pixels"

  datatype Algorithm = Ssim | MismatchedPixels | Unknown(name: string)

  /** The algorithm a `selectedAlg` string selects. */
  function AlgorithmOf(selectedAlg: string): Algorithm {
    if selectedAlg == SsimName then Ssim
    else if selectedAlg == MismatchedPixelsName then MismatchedPixels
    else Unknown(selectedAlg)
  }

  /** `{ filename, value }`: the best file so far (None while it is
      `undefined`) and its score. */
  datatype ClosestMatch = ClosestMatch(filename: Option<string>, value: JsValue)

  /** The value `closestMatch` starts with: -1 for SSIM, `Infinity`
      otherwise. */
  function InitialMatch(alg: Algorithm): ClosestMatch {
    ClosestMatch(None, if alg == Ssim then Num(-1.0) else Infinity)
  }

  /** The picture a file is compared as: resized to the input's width and
      height when its size differs. */
  function Compared(input: Image, file: Image): (c: Image)
    ensures c.size == input.size
    ensures c.frame == file.frame && c.crop == file.crop
    ensures file.size == input.size ==> c == file
  {
    if file.size != input.size then Image(file.frame, file.crop, input.size) else file
  }

  /** One turn of the loop for the file `name`, whose scores are
      `similarity` and `mismatched`: the guard, then the switch. */
  function Step(alg: Algorithm, m: ClosestMatch, name: string, similarity: real, mismatched: nat): ClosestMatch {
    if (alg == Ssim && JsGreater(similarity, m.value))
       || (alg == MismatchedPixels && JsLess(mismatched as real, m.value))
    then
      match alg
      case Ssim => if JsGreater(similarity, m.value) then ClosestMatch(Some(name), Num(similarity)) else m
      // `result.mssim` of a number is `undefined`
      case MismatchedPixels => if JsLess(mismatched as real, m.value) then ClosestMatch(Some(name), Undefined) else m
      // the `Invalid algorithm!` branch: the guard above excludes it
      case Unknown(_) => assert false; m
    else m
  }

  /** The compared picture of every listed file, in order. */
  function ComparedFiles(input: Image, names: seq<string>, files: map<string, Image>): seq<Image>
    requires forall n :: n in names ==> n in files
    decreases |names|
  {
    if |names| == 0 then []
    else ComparedFiles(input, names[..|names| - 1], files) + [Compared(input, files[names[|names| - 1]])]
  }

  /** `closestMatch` after the loop has visited `names`, in order. */
  function Closest(alg: Algorithm, input: Image, names: seq<string>, files: map<string, Image>,
                   ssim: (Image, Image) -> real, pixelmatch: (Image, Image) -> nat): ClosestMatch
    requires forall n :: n in names ==> n in files
    decreases |names|
  {
    if |names| == 0 then InitialMatch(alg)
    else
      var name := names[|names| - 1];
      var c := Compared(input, files[name]);
      Step(alg, Closest(alg, input, names[..|names| - 1], files, ssim, pixelmatch), name,
           ssim(input, c), pixelmatch(input, c))
  }

  /** `findClosestFrame(inputFile, frameInputDir, selectedAlg)`, with the
      decoded input picture `input`. `listing` is the order in which the
      directory lists its regular files; `compared` the pictures compared
      with the input, in that order. */
  method FindClosestFrame(input: Image, dir: FrameDir, selectedAlg: string,
                          ssim: (Image, Image) -> real, pixelmatch: (Image, Image) -> nat)
    returns (closestMatch: ClosestMatch, listing: seq<string>, compared: seq<Image>)
    ensures IsListing(listing, dir.files.Keys)
    ensures closestMatch == Closest(AlgorithmOf(selectedAlg), input, listing, dir.files, ssim, pixelmatch)
    ensures compared == ComparedFiles(input, listing, dir.files)
    ensures forall k :: 0 <= k < |compared| ==> compared[k].size == input.size
  {
    var alg := AlgorithmOf(selectedAlg);
    listing := dir.ListFiles();
    closestMatch := InitialMatch(alg);
    compared := [];
    var i := 0;
    while i < |listing|
      invariant i <= |listing|
      invariant closestMatch == Closest(alg, input, listing[..i], dir.files, ssim, pixelmatch)
      invariant compared == ComparedFiles(input, listing[..i], dir.files)
      invariant forall k :: 0 <= k < |compared| ==> compared[k].size == input.size
    {
      var name := listing[i];
      var imageToCompare := dir.files[name];
      if imageToCompare.size != input.size {
        imageToCompare := Image(imageToCompare.frame, imageToCompare.crop, input.size);
      }
      compared := compared + [imageToCompare];
      var similarity := ssim(input, imageToCompare);
      var mismatched := pixelmatch(input, imageToCompare);
      if (alg == Ssim && JsGreater(similarity, closestMatch.value))
         || (alg == MismatchedPixels && JsLess(mismatched as real, closestMatch.value))
      {
        match alg
        case Ssim =>
          if JsGreater(similarity, closestMatch.value) {
            closestMatch := ClosestMatch(Some(name), Num(similarity));
          }
        case MismatchedPixels =>
          if JsLess(mismatched as real, closestMatch.value) {
            closestMatch := ClosestMatch(Some(name), Undefined);
          }
        case Unknown(_) =>
          assert false;
      }
      assert listing[..i + 1][..i] == listing[..i];
      i := i + 1;
    }
    assert listing[..i] == listing;
  }

  // ---------------------------------------------------------------------
  // What the loop computes, mode by mode

  /** The SSIM score of every listed file, in order. */
  function Scores(input: Image, names: seq<string>, files: map<string, Image>, ssim: (Image, Image) -> real): (s: seq<real>)
    requires forall n :: n in names ==> n in files
    ensures |s| == |names|
    decreases |names|
  {
    if |names| == 0 then []
    else Scores(input, names[..|names| - 1], files, ssim) + [ssim(input, Compared(input, files[names[|names| - 1]]))]
  }

  /** In SSIM mode the loop is the first-strict-maximum scan of the scores,
      starting from -1. */
  lemma {:induction false} ClosestIsScanBest(input: Image, names: seq<string>, files: map<string, Image>,
                                             ssim: (Image, Image) -> real, pixelmatch: (Image, Image) -> nat)
    requires forall n :: n in names ==> n in files
    ensures var b := ScanBest(Scores(input, names, files, ssim), -1.0);
      var m := Closest(Ssim, input, names, files, ssim, pixelmatch);
      && m.value == Num(b.value)
      && (b.index.None? ==> m.filename.None?)
      && (b.index.Some? ==> b.index.value < |names| && m.filename == Some(names[b.index.value]))
    decreases |names|
  {
    if |names| > 0 {
      var n := |names| - 1;
      var prefix := names[..n];
      ClosestIsScanBest(input, prefix, files, ssim, pixelmatch);
      var s := Scores(input, names, files, ssim);
      assert s[..n] == Scores(input, prefix, files, ssim);
      assert s[n] == ssim(input, Compared(input, files[names[n]]));
    }
  }

  /** SSIM mode: no file is kept exactly when no score exceeds -1, and the
      value stays -1; otherwise the file kept is the first, in listing
      order, with the greatest score, and the value is that score. */
  lemma SsimClosestIsFirstMax(input: Image, names: seq<string>, files: map<string, Image>,
                              ssim: (Image, Image) -> real, pixelmatch: (Image, Image) -> nat)
    requires forall n :: n in names ==> n in files
    ensures var s := Scores(input, names, files, ssim);
      var m := Closest(Ssim, input, names, files, ssim, pixelmatch);
      && (m.filename.None? <==> forall j :: 0 <= j < |s| ==> s[j] <= -1.0)
      && (m.filename.None? ==> m.value == Num(-1.0))
      && (m.filename.Some? ==> exists k: nat :: && IsFirstMax(s, k) && m.filename == Some(names[k])
                                           && m.value == Num(s[k]) && s[k] > -1.0)
  {
    var s := Scores(input, names, files, ssim);
    ClosestIsScanBest(input, names, files, ssim, pixelmatch);
    ScanBestIsFirstMax(s, -1.0);
  }

  /** Mismatched-pixels mode: the first file beats `Infinity` and stores
      `result.mssim`, which is `undefined`; no later count is below
      `undefined`, so the first file listed is always the one returned. */
  lemma {:induction false} PixelsClosestIsFirstFile(input: Image, names: seq<string>, files: map<string, Image>,
                                                    ssim: (Image, Image) -> real, pixelmatch: (Image, Image) -> nat)
    requires forall n :: n in names ==> n in files
    ensures Closest(MismatchedPixels, input, names, files, ssim, pixelmatch)
         == if |names| == 0 then ClosestMatch(None, Infinity) else ClosestMatch(Some(names[0]), Undefined)
    decreases |names|
  {
    if |names| > 0 {
      var prefix := names[..|names| - 1];
      PixelsClosestIsFirstFile(input, prefix, files, ssim, pixelmatch);
      if |prefix| > 0 {
        assert prefix[0] == names[0];
      }
    }
  }

  /** An unknown algorithm passes neither guard, so the `Invalid algorithm!`
      error is never thrown and the initial `{ undefined, Infinity }` is
      returned. */
  lemma {:induction false} UnknownClosestIsInitial(name: string, input: Image, names: seq<string>, files: map<string, Image>,
                                                   ssim: (Image, Image) -> real, pixelmatch: (Image, Image) -> nat)
    requires forall n :: n in names ==> n in files
    ensures Closest(Unknown(name), input, names, files, ssim, pixelmatch) == ClosestMatch(None, Infinity)
    decreases |names|
  {
    if |names| > 0 {
      UnknownClosestIsInitial(name, input, names[..|names| - 1], files, ssim, pixelmatch);
    }
  }

  /** A file that is returned is one of the listed files. */
  lemma ClosestFilenameListed(alg: Algorithm, input: Image, names: seq<string>, files: map<string, Image>,
                              ssim: (Image, Image) -> real, pixelmatch: (Image, Image) -> nat)
    requires forall n :: n in names ==> n in files
    requires Closest(alg, input, names, files, ssim, pixelmatch).filename.Some?
    ensures Closest(alg, input, names, files, ssim, pixelmatch).filename.value in names
  {
    match alg
    case Ssim => ClosestIsScanBest(input, names, files, ssim, pixelmatch);
    case MismatchedPixels => PixelsClosestIsFirstFile(input, names, files, ssim, pixelmatch);
    case Unknown(name) => UnknownClosestIsInitial(name, input, names, files, ssim, pixelmatch);
  }
}
