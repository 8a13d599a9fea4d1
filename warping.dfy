/** util/warping.js: check an offset by brute force at two points of the
    destination video.

    `findClosestFrame` compares one destination frame with source frames at
    the candidate offsets `offset - radius, offset - radius + stepSize, ...`
    up to `offset + radius`, and keeps the first candidate with the
    strictly greatest similarity. `validateOffset` runs it at 10% and 80% of
    the destination's length and accepts the offset when the two local best
    offsets are at most 250 ms apart.

    The crop value cropdetect reports for a video at a timestamp, the size
    of a cropped frame, the SSIM score and whether a frame can be extracted
    are oracles, gathered in `WarpEnv`. */
module Warping {
  import opened Base
  import opened Selection

  /** The world the search talks to: the crop value read for a video at a
      timestamp in milliseconds (None when the cropdetect run fails or its
      selected line has no `crop=`, and the source throws), the size of a
      frame cropped by a crop value, the SSIM score
      `ssim(frame, destination).mssim`, and whether `extractFrame` gets the
      frame of a video at a timestamp (ffmpeg writes the BMP, so its `exec`
      resolves, and `fs.readFile` reads it back). */
  datatype WarpEnv = WarpEnv(crops: (string, int) -> Option<string>, sizeOf: (string, string) -> Dims,
                             ssim: (Image, Image) -> real, extracts: Frame -> bool)

  datatype WarpError =
    | CropNotDetected(video: string)  // the cropdetect run of this video rejects or matches nothing
    | FrameFailed(frame: Frame)       // `extractFrame` rejects on this frame

  /** `mostSimilarFrame`. */
  datatype MostSimilar = MostSimilar(offset: int, similarity: real)

  // ---------------------------------------------------------------------
  // The candidates

  /** How many times the loop of line 51 runs from `lo` to `hi`. */
  function CandidateCount(lo: int, hi: int, step: int): nat
    requires step > 0
  {
    if hi < lo then 0 else (hi - lo) / step + 1
  }

  /** The values `currentOffset` takes. */
  function Candidates(lo: int, hi: int, step: int): (c: seq<int>)
    requires step > 0
    ensures |c| == CandidateCount(lo, hi, step)
  {
    seq(CandidateCount(lo, hi, step), k => lo + k * step)
  }

  lemma MulMono(a: int, b: int, step: int)
    requires a <= b && step >= 0
    ensures a * step <= b * step
  {
  }

  /** `k` whole steps stay within `d` exactly when `k` is below the count. */
  lemma StepsWithin(d: int, step: int, k: nat)
    requires step > 0
    ensures k * step <= d <==> (d >= 0 && k <= d / step)
  {
    var q, r := d / step, d % step;
    assert d == q * step + r && 0 <= r < step;
    if d >= 0 && k <= q {
      MulMono(k, q, step);
    }
    if k > q {
      MulMono(q + 1, k, step);
    }
  }

  /** Candidate `k` is `lo + k*step`; every candidate is at most `hi`, and
      the value after the last is past `hi`, so the loop stops there. */
  lemma CandidatesBound(lo: int, hi: int, step: int, k: nat)
    requires step > 0
    ensures lo + k * step <= hi <==> k < |Candidates(lo, hi, step)|
    ensures k < |Candidates(lo, hi, step)| ==> Candidates(lo, hi, step)[k] == lo + k * step
  {
    StepsWithin(hi - lo, step, k);
  }

  /** A radius of 500 and a step of 50 give 21 candidates. */
  lemma TestCandidateCount(offset: int)
    ensures |Candidates(offset - 500, offset + 500, 50)| == 21
    ensures Candidates(offset - 500, offset + 500, 50)[0] == offset - 500
    ensures Candidates(offset - 500, offset + 500, 50)[20] == offset + 500
  {
  }

  // ---------------------------------------------------------------------
  // The resize test of lines 60-62

  /** `frame.width !== width || frame.height !== height`. */
  predicate SizeDiffers(width: JsValue, height: JsValue, size: Dims) {
    width != Num(size.width as real) || height != Num(size.height as real)
  }

  /** `width*height >= area` for numbers and `undefined`: `undefined *
      undefined` is NaN, and NaN is not at least anything. */
  predicate AreaAtLeast(width: JsValue, height: JsValue, area: nat) {
    match (width, height)
    case (Num(w), Num(h)) => w * h >= area as real
    case _ => false
  }

  /** `destinationFrame` is the wrapper object of lines 37-41, which has no
      `width` or `height`: the first test holds for every frame and the
      second for none, so every source frame is resized to the destination
      picture and the destination picture is never resized. */
  lemma ResizeTestAlwaysTrue(size: Dims)
    ensures SizeDiffers(Undefined, Undefined, size)
    ensures !AreaAtLeast(Undefined, Undefined, size.width * size.height)
  {
  }

  // ---------------------------------------------------------------------
  // What findClosestFrame computes

  /** The destination picture `extractFrame` decodes. */
  function DestinationImage(env: WarpEnv, destinationVideo: string, destinationTimestamp: int, crop: string): Image {
    Image(Frame(destinationVideo, destinationTimestamp as real), Some(crop), env.sizeOf(destinationVideo, crop))
  }

  /** The source picture for candidate `c`, taken at `destinationTimestamp + c`
      and resized to the destination picture's size. */
  function ComparedSource(env: WarpEnv, destination: Image, sourceVideo: string, destinationTimestamp: int,
                          crop: string, c: int): (image: Image)
    ensures image.frame == Frame(sourceVideo, (destinationTimestamp + c) as real)
    ensures image.size == destination.size && image.crop == Some(crop)
  {
    Image(Frame(sourceVideo, (destinationTimestamp + c) as real), Some(crop), destination.size)
  }

  /** The similarity of candidate `c`. */
  function Similarity(env: WarpEnv, destination: Image, sourceVideo: string, destinationTimestamp: int,
                      crop: string, c: int): real {
    env.ssim(ComparedSource(env, destination, sourceVideo, destinationTimestamp, crop, c), destination)
  }

  /** `mostSimilarFrame` after the loop has visited `cands`. */
  function Search(env: WarpEnv, destination: Image, sourceVideo: string, destinationTimestamp: int,
                  crop: string, cands: seq<int>): MostSimilar
    decreases |cands|
  {
    if |cands| == 0 then MostSimilar(0, -1.0)
    else
      var n := |cands| - 1;
      var m := Search(env, destination, sourceVideo, destinationTimestamp, crop, cands[..n]);
      var similarity := Similarity(env, destination, sourceVideo, destinationTimestamp, crop, cands[n]);
      if similarity > m.similarity then MostSimilar(cands[n], similarity) else m
  }

  /** The search over one more candidate. */
  lemma SearchStep(env: WarpEnv, destination: Image, sourceVideo: string, destinationTimestamp: int,
                   crop: string, cands: seq<int>, k: nat)
    requires k < |cands|
    ensures var m := Search(env, destination, sourceVideo, destinationTimestamp, crop, cands[..k]);
      var similarity := Similarity(env, destination, sourceVideo, destinationTimestamp, crop, cands[k]);
      Search(env, destination, sourceVideo, destinationTimestamp, crop, cands[..k + 1])
        == if similarity > m.similarity then MostSimilar(cands[k], similarity) else m
  {
    assert cands[..k + 1][..k] == cands[..k];
  }

  /** The similarity of every candidate, in order. */
  function Similarities(env: WarpEnv, destination: Image, sourceVideo: string, destinationTimestamp: int,
                        crop: string, cands: seq<int>): (s: seq<real>)
    ensures |s| == |cands|
    decreases |cands|
  {
    if |cands| == 0 then []
    else
      var n := |cands| - 1;
      Similarities(env, destination, sourceVideo, destinationTimestamp, crop, cands[..n])
        + [Similarity(env, destination, sourceVideo, destinationTimestamp, crop, cands[n])]
  }

  /** The loop is the first-strict-maximum scan of the similarities,
      starting from -1, with offset 0 standing for "no candidate yet". */
  lemma {:induction false} SearchIsScanBest(env: WarpEnv, destination: Image, sourceVideo: string,
                                            destinationTimestamp: int, crop: string, cands: seq<int>)
    ensures var b := ScanBest(Similarities(env, destination, sourceVideo, destinationTimestamp, crop, cands), -1.0);
      var m := Search(env, destination, sourceVideo, destinationTimestamp, crop, cands);
      && m.similarity == b.value
      && (b.index.None? ==> m.offset == 0)
      && (b.index.Some? ==> b.index.value < |cands| && m.offset == cands[b.index.value])
    decreases |cands|
  {
    if |cands| > 0 {
      var n := |cands| - 1;
      SearchIsScanBest(env, destination, sourceVideo, destinationTimestamp, crop, cands[..n]);
      var s := Similarities(env, destination, sourceVideo, destinationTimestamp, crop, cands);
      assert s[..n] == Similarities(env, destination, sourceVideo, destinationTimestamp, crop, cands[..n]);
    }
  }

  /** The result is `{ offset: 0, similarity: -1 }` exactly when no candidate
      scores above -1 (0 need not be a candidate); otherwise it is the first
      candidate with the greatest similarity, and that similarity. */
  lemma SearchIsFirstMax(env: WarpEnv, destination: Image, sourceVideo: string,
                         destinationTimestamp: int, crop: string, cands: seq<int>)
    ensures var s := Similarities(env, destination, sourceVideo, destinationTimestamp, crop, cands);
      var m := Search(env, destination, sourceVideo, destinationTimestamp, crop, cands);
      && ((forall j :: 0 <= j < |s| ==> s[j] <= -1.0) ==> m == MostSimilar(0, -1.0))
      && (!(forall j :: 0 <= j < |s| ==> s[j] <= -1.0) ==>
            exists k: nat :: IsFirstMax(s, k) && k < |cands| && m == MostSimilar(cands[k], s[k]))
  {
    var s := Similarities(env, destination, sourceVideo, destinationTimestamp, crop, cands);
    SearchIsScanBest(env, destination, sourceVideo, destinationTimestamp, crop, cands);
    ScanBestIsFirstMax(s, -1.0);
  }

  /** The source frame for candidate `c`. */
  function SourceFrame(sourceVideo: string, destinationTimestamp: int, c: int): Frame {
    Frame(sourceVideo, (destinationTimestamp + c) as real)
  }

  /** The first candidate from `from` on whose source frame cannot be
      extracted, if any. */
  function FirstUnreadable(env: WarpEnv, sourceVideo: string, destinationTimestamp: int, cands: seq<int>,
                           from: nat): (r: Option<nat>)
    requires from <= |cands|
    ensures r.Some? ==> from <= r.value < |cands|
                        && !env.extracts(SourceFrame(sourceVideo, destinationTimestamp, cands[r.value]))
    ensures r.Some? ==> forall j :: from <= j < r.value ==>
                          env.extracts(SourceFrame(sourceVideo, destinationTimestamp, cands[j]))
    ensures r.None? <==> forall j :: from <= j < |cands| ==>
                           env.extracts(SourceFrame(sourceVideo, destinationTimestamp, cands[j]))
    decreases |cands| - from
  {
    if from == |cands| then None
    else if !env.extracts(SourceFrame(sourceVideo, destinationTimestamp, cands[from])) then Some(from)
    else FirstUnreadable(env, sourceVideo, destinationTimestamp, cands, from + 1)
  }

  /** The first candidate whose frame cannot be had is the one found. */
  lemma FirstUnreadableAt(env: WarpEnv, sourceVideo: string, destinationTimestamp: int, cands: seq<int>, k: nat)
    requires k < |cands| && !env.extracts(SourceFrame(sourceVideo, destinationTimestamp, cands[k]))
    requires forall j :: 0 <= j < k ==> env.extracts(SourceFrame(sourceVideo, destinationTimestamp, cands[j]))
    ensures FirstUnreadable(env, sourceVideo, destinationTimestamp, cands, 0) == Some(k)
  {
  }

  /** What the loop of lines 50-88 ends with: the first source frame that
      cannot be extracted rejects, and otherwise the search is done. */
  function SourceScan(env: WarpEnv, destination: Image, sourceVideo: string, destinationTimestamp: int,
                      crop: string, cands: seq<int>): Result<MostSimilar, WarpError>
  {
    match FirstUnreadable(env, sourceVideo, destinationTimestamp, cands, 0)
    case Some(k) => Err(FrameFailed(SourceFrame(sourceVideo, destinationTimestamp, cands[k])))
    case None => Ok(Search(env, destination, sourceVideo, destinationTimestamp, crop, cands))
  }

  /** `findClosestFrame(destinationVideo, sourceVideo, destinationTimestamp,
      offset, radius, stepSize)`: the crop values of both videos are read at
      the destination timestamp, the destination's first; then the
      destination frame is extracted, then the source frames in order. */
  function LocalSearch(env: WarpEnv, destinationVideo: string, sourceVideo: string, destinationTimestamp: int,
                       offset: int, radius: int, stepSize: int): Result<MostSimilar, WarpError>
    requires stepSize > 0
  {
    match env.crops(destinationVideo, destinationTimestamp)
    case None => Err(CropNotDetected(destinationVideo))
    case Some(destinationCrop) =>
      match env.crops(sourceVideo, destinationTimestamp)
      case None => Err(CropNotDetected(sourceVideo))
      case Some(sourceCrop) =>
        var destination := DestinationImage(env, destinationVideo, destinationTimestamp, destinationCrop);
        if !env.extracts(destination.frame) then Err(FrameFailed(destination.frame))
        else SourceScan(env, destination, sourceVideo, destinationTimestamp, sourceCrop,
                        Candidates(offset - radius, offset + radius, stepSize))
  }

  /** A local search fails on a frame exactly when the destination frame or
      one of the candidates' source frames cannot be extracted; it then
      fails on the destination frame if that is the one, and otherwise on
      the first candidate that cannot be had. When it succeeds it is the
      search over every candidate. */
  lemma LocalSearchFrames(env: WarpEnv, destinationVideo: string, sourceVideo: string, destinationTimestamp: int,
                          offset: int, radius: int, stepSize: int)
    requires stepSize > 0
    requires env.crops(destinationVideo, destinationTimestamp).Some?
    requires env.crops(sourceVideo, destinationTimestamp).Some?
    ensures var r := LocalSearch(env, destinationVideo, sourceVideo, destinationTimestamp, offset, radius, stepSize);
      var cands := Candidates(offset - radius, offset + radius, stepSize);
      var destination := Frame(destinationVideo, destinationTimestamp as real);
      && (r.Err? <==> !env.extracts(destination)
                      || exists k :: 0 <= k < |cands| && !env.extracts(SourceFrame(sourceVideo, destinationTimestamp, cands[k])))
      && (r.Err? && env.extracts(destination) ==>
            exists k :: 0 <= k < |cands| && r.error == FrameFailed(SourceFrame(sourceVideo, destinationTimestamp, cands[k]))
                        && !env.extracts(r.error.frame)
                        && forall j :: 0 <= j < k ==> env.extracts(SourceFrame(sourceVideo, destinationTimestamp, cands[j])))
      && (r.Err? && !env.extracts(destination) ==> r.error == FrameFailed(destination))
      && (r.Ok? ==> r.value == Search(env, DestinationImage(env, destinationVideo, destinationTimestamp,
                                                            env.crops(destinationVideo, destinationTimestamp).value),
                                      sourceVideo, destinationTimestamp, env.crops(sourceVideo, destinationTimestamp).value,
                                      cands))
  {
  }

  /** `findClosestFrame` of util/warping.js. It needs a positive `stepSize`:
      with any other the loop of line 51 never ends. */
  method FindClosestFrame(destinationVideo: string, sourceVideo: string, destinationTimestamp: int,
                          offset: int, radius: int, stepSize: int, env: WarpEnv)
    returns (r: Result<MostSimilar, WarpError>)
    requires stepSize > 0
    ensures r == LocalSearch(env, destinationVideo, sourceVideo, destinationTimestamp, offset, radius, stepSize)
  {
    var cropValueDestination := env.crops(destinationVideo, destinationTimestamp);
    if cropValueDestination.None? {
      return Err(CropNotDetected(destinationVideo));
    }
    var cropValueSource := env.crops(sourceVideo, destinationTimestamp);
    if cropValueSource.None? {
      return Err(CropNotDetected(sourceVideo));
    }
    var destinationData := DestinationImage(env, destinationVideo, destinationTimestamp, cropValueDestination.value);
    if !env.extracts(destinationData.frame) {
      return Err(FrameFailed(destinationData.frame));
    }
    r := ScanCandidates(env, destinationData, sourceVideo, destinationTimestamp,
                        cropValueSource.value, offset, radius, stepSize);
  }

  /** The loop of lines 50-88, from the decoded destination picture. */
  method ScanCandidates(env: WarpEnv, destination: Image, sourceVideo: string, destinationTimestamp: int,
                        cropValueSource: string, offset: int, radius: int, stepSize: int)
    returns (r: Result<MostSimilar, WarpError>)
    requires stepSize > 0
    ensures r == SourceScan(env, destination, sourceVideo, destinationTimestamp, cropValueSource,
                            Candidates(offset - radius, offset + radius, stepSize))
  {
    var destinationData := destination;
    // `destinationFrame.width` and `destinationFrame.height`: the wrapper object has neither
    var destinationWidth, destinationHeight := Undefined, Undefined;
    var mostSimilarFrame := MostSimilar(0, -1.0);

    ghost var cands := Candidates(offset - radius, offset + radius, stepSize);
    ghost var k: nat := 0;
    var currentOffset := offset - radius;
    while currentOffset <= offset + radius
      invariant k <= |cands| && currentOffset == offset - radius + k * stepSize
      invariant destinationWidth == Undefined && destinationHeight == Undefined && destinationData == destination
      invariant mostSimilarFrame == Search(env, destination, sourceVideo, destinationTimestamp, cropValueSource, cands[..k])
      invariant forall j :: 0 <= j < k ==> env.extracts(SourceFrame(sourceVideo, destinationTimestamp, cands[j]))
      decreases offset + radius - currentOffset
    {
      CandidatesBound(offset - radius, offset + radius, stepSize, k);
      var sourceFrame := Frame(sourceVideo, (destinationTimestamp + currentOffset) as real);
      if !env.extracts(sourceFrame) {
        // `extractFrame` of line 56 rejects
        FirstUnreadableAt(env, sourceVideo, destinationTimestamp, cands, k);
        return Err(FrameFailed(sourceFrame));
      }
      var frameData := Image(sourceFrame, Some(cropValueSource), env.sizeOf(sourceVideo, cropValueSource));
      if SizeDiffers(destinationWidth, destinationHeight, frameData.size) {
        if AreaAtLeast(destinationWidth, destinationHeight, frameData.size.width * frameData.size.height) {
          destinationData := Image(destinationData.frame, destinationData.crop, frameData.size);
        } else {
          frameData := Image(frameData.frame, frameData.crop, destinationData.size);
        }
      }
      var similarity := env.ssim(frameData, destinationData);
      if similarity > mostSimilarFrame.similarity {
        mostSimilarFrame := MostSimilar(currentOffset, similarity);
      }
      SearchStep(env, destination, sourceVideo, destinationTimestamp, cropValueSource, cands, k);
      k := k + 1;
      currentOffset := currentOffset + stepSize;
    }
    CandidatesBound(offset - radius, offset + radius, stepSize, k);
    assert cands[..k] == cands;
    r := Ok(mostSimilarFrame);
  }

  // ---------------------------------------------------------------------
  // validateOffset

  const TestPositions: seq<real> := [0.1, 0.8]
  const TestRadius := 500
  const TestStepSize := 50

  /** The local best offsets at the given fractions of the destination's
      length `length0`, in order, or the first error. */
  function Probes(env: WarpEnv, destinationVideo: string, sourceVideo: string, length0: real,
                  offsetToTest: int, positions: seq<real>): (r: Result<seq<int>, WarpError>)
    ensures r.Ok? ==> |r.value| == |positions|
    decreases |positions|
  {
    if |positions| == 0 then Ok([])
    else
      var n := |positions| - 1;
      var before := Probes(env, destinationVideo, sourceVideo, length0, offsetToTest, positions[..n]);
      if before.Err? then before
      else
        var best := LocalSearch(env, destinationVideo, sourceVideo, Round(length0 * positions[n]),
                                offsetToTest, TestRadius, TestStepSize);
        if best.Err? then Err(best.error) else Ok(before.value + [best.value.offset])
  }

  function SeqMax(s: seq<int>): int
    requires |s| >= 1
  {
    if |s| == 1 then s[0] else var m := SeqMax(s[..|s| - 1]); if s[|s| - 1] > m then s[|s| - 1] else m
  }

  function SeqMin(s: seq<int>): int
    requires |s| >= 1
  {
    if |s| == 1 then s[0] else var m := SeqMin(s[..|s| - 1]); if s[|s| - 1] < m then s[|s| - 1] else m
  }

  /** `Math.abs(Math.max(...offsets) - Math.min(...offsets)) <= 250`. */
  predicate WithinTolerance(offsets: seq<int>)
    requires |offsets| >= 1
  {
    var delta := SeqMax(offsets) - SeqMin(offsets);
    (if delta < 0 then -delta else delta) <= 250
  }

  /** `validateOffset(destinationVideo, sourceVideo, offsetToTest)`, with
      `lengths[0]` given as `length0`. */
  function Validation(env: WarpEnv, destinationVideo: string, sourceVideo: string, length0: real,
                      offsetToTest: int): Result<bool, WarpError>
  {
    var probes := Probes(env, destinationVideo, sourceVideo, length0, offsetToTest, TestPositions);
    if probes.Err? then Err(probes.error) else Ok(WithinTolerance(probes.value))
  }

  /** `validateOffset`. */
  method ValidateOffset(destinationVideo: string, sourceVideo: string, offsetToTest: int, length0: real, env: WarpEnv)
    returns (r: Result<bool, WarpError>)
    ensures r == Validation(env, destinationVideo, sourceVideo, length0, offsetToTest)
  {
    var mostSimilarFrameOffsets := [];
    var i := 0;
    while i < |TestPositions|
      invariant i <= |TestPositions|
      invariant |mostSimilarFrameOffsets| == i
      invariant Probes(env, destinationVideo, sourceVideo, length0, offsetToTest, TestPositions[..i])
             == Ok(mostSimilarFrameOffsets)
    {
      var position := TestPositions[i];
      var best := FindClosestFrame(destinationVideo, sourceVideo, Round(length0 * position),
                                   offsetToTest, TestRadius, TestStepSize, env);
      assert TestPositions[..i + 1][..i] == TestPositions[..i];
      if best.Err? {
        assert Probes(env, destinationVideo, sourceVideo, length0, offsetToTest, TestPositions[..i + 1]) == Err(best.error);
        RestStaysErr(env, destinationVideo, sourceVideo, length0, offsetToTest, i + 1);
        r := Err(best.error);
        assert Probes(env, destinationVideo, sourceVideo, length0, offsetToTest, TestPositions) == Err(best.error);
        return;
      }
      mostSimilarFrameOffsets := mostSimilarFrameOffsets + [best.value.offset];
      i := i + 1;
    }
    assert TestPositions[..i] == TestPositions;
    var valid := CheckTolerance(mostSimilarFrameOffsets);
    return Ok(valid);
  }

  /** Lines 137-142 of util/warping.js. */
  method CheckTolerance(mostSimilarFrameOffsets: seq<int>) returns (valid: bool)
    requires |mostSimilarFrameOffsets| >= 1
    ensures valid == WithinTolerance(mostSimilarFrameOffsets)
  {
    var offsetDelta := SeqMax(mostSimilarFrameOffsets) - SeqMin(mostSimilarFrameOffsets);
    if offsetDelta < 0 {
      offsetDelta := -offsetDelta;
    }
    if offsetDelta > 250 {
      return false;
    }
    return true;
  }

  /** A probe that throws ends `validateOffset` with its error. */
  lemma RestStaysErr(env: WarpEnv, destinationVideo: string, sourceVideo: string, length0: real,
                     offsetToTest: int, i: nat)
    requires 1 <= i <= |TestPositions|
    requires Probes(env, destinationVideo, sourceVideo, length0, offsetToTest, TestPositions[..i]).Err?
    ensures Probes(env, destinationVideo, sourceVideo, length0, offsetToTest, TestPositions)
         == Probes(env, destinationVideo, sourceVideo, length0, offsetToTest, TestPositions[..i])
  {
    if i == 1 {
      assert TestPositions[..2][..1] == TestPositions[..1];
    }
    assert TestPositions[..2] == TestPositions;
  }

  /** The offset is checked at `round(0.1 * length0)` and then at
      `round(0.8 * length0)`, the first error winning; it is valid exactly
      when the two local best offsets are at most 250 ms apart. */
  lemma ValidationRule(env: WarpEnv, destinationVideo: string, sourceVideo: string, length0: real, offsetToTest: int)
    ensures var b1 := LocalSearch(env, destinationVideo, sourceVideo, Round(length0 * 0.1), offsetToTest, 500, 50);
      var b2 := LocalSearch(env, destinationVideo, sourceVideo, Round(length0 * 0.8), offsetToTest, 500, 50);
      var v := Validation(env, destinationVideo, sourceVideo, length0, offsetToTest);
      && (b1.Err? ==> v == Err(b1.error))
      && (b1.Ok? && b2.Err? ==> v == Err(b2.error))
      && (b1.Ok? && b2.Ok? ==> v == Ok(-250 <= b1.value.offset - b2.value.offset <= 250))
  {
    var ps := TestPositions;
    assert ps[..1][..0] == [] && ps[..1][0] == 0.1;
    assert ps[..|ps| - 1] == ps[..1] && ps[|ps| - 1] == 0.8;
    var b1 := LocalSearch(env, destinationVideo, sourceVideo, Round(length0 * 0.1), offsetToTest, 500, 50);
    var p1 := Probes(env, destinationVideo, sourceVideo, length0, offsetToTest, ps[..1]);
    assert |ps[..1]| == 1;
    assert Probes(env, destinationVideo, sourceVideo, length0, offsetToTest, ps[..1][..0]) == Ok([]);
    assert b1 == LocalSearch(env, destinationVideo, sourceVideo, Round(length0 * ps[..1][0]), offsetToTest, TestRadius, TestStepSize);
    if b1.Ok? {
      assert [] + [b1.value.offset] == [b1.value.offset];
      assert p1 == Ok([b1.value.offset]);
      var b2 := LocalSearch(env, destinationVideo, sourceVideo, Round(length0 * 0.8), offsetToTest, 500, 50);
      if b2.Ok? {
        assert [b1.value.offset] + [b2.value.offset] == [b1.value.offset, b2.value.offset];
        TwoProbeTolerance(b1.value.offset, b2.value.offset);
      }
    }
  }

  /** With two probes the spread is the distance between them. */
  lemma TwoProbeTolerance(a: int, b: int)
    ensures WithinTolerance([a, b]) <==> -250 <= a - b <= 250
  {
    assert [a, b][..1] == [a];
    assert SeqMax([a]) == a && SeqMin([a]) == a;
    assert SeqMax([a, b]) == if b > a then b else a;
    assert SeqMin([a, b]) == if b < a then b else a;
  }
}
