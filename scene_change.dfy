/** The scene-change scanner of util/find-offset-new.js and the offset
    computation built on it.

    The scanner walks forward through one video. It starts with a coarse
    step of 1000 ms; on the first large difference between consecutive
    samples it goes back to the earlier sample and continues with a fine
    step of 25 ms, and never returns to the coarse step. A large difference
    seen while the step is fine is the scene change: the two samples, 25 ms
    apart, bracket the cut. */
module SceneChange {
  import opened Base
  import opened Text

  const StepSizeLarge := 1000
  const StepSizeSmall := 25
  /** The `stepSize` constant that `calculateOffset` backs off by. */
  const StepSize := 25
  /** A difference above this value is a scene change. */
  const SceneThreshold: real := 0.5

  datatype ScanError =
    | CropNotDetected        // the cropdetect run fails, or its selected line has no `crop=W:H:X:Y` and `null[1]` throws
    | NoSceneChange          // the cursor reached the end of the window
    | FrameFailed(offset: int) // ffmpeg writes no frame at this offset, or reading it back fails

  /** The frame before the cut, the frame after it, and the difference
      between them. */
  datatype SceneCut = SceneCut(pre: int, post: int, delta: real)

  // ---------------------------------------------------------------------
  // Reading the crop value out of ffmpeg's cropdetect output

  /** The four decimal fields of a crop value `W:H:X:Y`, as text. */
  datatype Crop = Crop(w: string, h: string, x: string, y: string)

  function CropText(c: Crop): string {
    c.w + ":" + c.h + ":" + c.x + ":" + c.y
  }

  predicate ValidCrop(c: Crop) {
    && |c.w| > 0 && AllDigits(c.w) && |c.h| > 0 && AllDigits(c.h)
    && |c.x| > 0 && AllDigits(c.x) && |c.y| > 0 && AllDigits(c.y)
  }

  /** Every position of `s` in `[i, j)` holds a digit. */
  predicate DigitsIn(s: string, i: int, j: int) {
    forall k :: i <= k < j && 0 <= k < |s| ==> IsDigit(s[k])
  }

  lemma DigitsInSlice(s: string, i: nat, j: nat)
    requires i <= j <= |s|
    ensures DigitsIn(s, i, j) <==> AllDigits(s[i..j])
  {
    if DigitsIn(s, i, j) {
      forall k | 0 <= k < j - i ensures IsDigit(s[i..j][k]) {
        assert s[i..j][k] == s[i + k];
      }
    }
    if AllDigits(s[i..j]) {
      forall k | i <= k < j ensures IsDigit(s[k]) {
        assert s[k] == s[i..j][k - i];
      }
    }
  }

  /** End of the longest run of digits starting at `i` (what a greedy `\d+`
      consumes). */
  function DigitsEnd(s: string, i: nat): (j: nat)
    requires i <= |s|
    ensures i <= j <= |s|
    decreases |s| - i
  {
    if i < |s| && IsDigit(s[i]) then DigitsEnd(s, i + 1) else i
  }

  /** The run found is all digits and maximal. */
  lemma {:induction false} DigitsEndIsRun(s: string, i: nat)
    requires i <= |s|
    ensures DigitsIn(s, i, DigitsEnd(s, i))
    ensures DigitsEnd(s, i) == |s| || !IsDigit(s[DigitsEnd(s, i)])
    decreases |s| - i
  {
    if i < |s| && IsDigit(s[i]) {
      DigitsEndIsRun(s, i + 1);
    }
  }

  lemma {:induction false} DigitsEndAt(s: string, i: nat, j: nat)
    requires i <= j <= |s| && DigitsIn(s, i, j)
    requires j == |s| || !IsDigit(s[j])
    ensures DigitsEnd(s, i) == j
    decreases j - i
  {
    if i < j {
      DigitsEndAt(s, i + 1, j);
    }
  }

  /** A non-empty digit run from `i` followed by a colon: the colon's
      position. */
  function DigitsThenColon(s: string, i: nat): (r: Option<nat>)
    requires i <= |s|
    ensures r.Some? ==> i < r.value < |s| && s[r.value] == ':'
  {
    var e := DigitsEnd(s, i);
    if e > i && e < |s| && s[e] == ':' then Some(e) else None
  }

  /** The text `crop=` at position `i`, compared character by character. */
  predicate CropKeyAt(s: string, i: nat) {
    i + 5 <= |s| && s[i] == 'c' && s[i + 1] == 'r' && s[i + 2] == 'o' && s[i + 3] == 'p' && s[i + 4] == '='
  }

  lemma CropKeyAtText(s: string, i: nat)
    requires i + 5 <= |s|
    ensures CropKeyAt(s, i) <==> s[i..i + 5] == "crop="
  {
    if s[i..i + 5] == "crop=" {
      assert s[i] == s[i..i + 5][0] && s[i + 1] == s[i..i + 5][1] && s[i + 2] == s[i..i + 5][2];
      assert s[i + 3] == s[i..i + 5][3] && s[i + 4] == s[i..i + 5][4];
    }
  }

  /** Where the four digit runs of a match end: the first three at a colon,
      the last one at a non-digit or the end of the line. */
  datatype CropSpan = CropSpan(e1: nat, e2: nat, e3: nat, e4: nat)

  /** `crop=` at `i`, then four non-empty digit runs ending as `sp` says,
      joined by colons, and no digit directly after the last one: what
      `crop=(\d+:\d+:\d+:\d+)` matches at `i`, the greedy runs taken in full. */
  predicate IsCropSpan(s: string, i: nat, sp: CropSpan) {
    && i + 5 < sp.e1 && sp.e1 + 1 < sp.e2 && sp.e2 + 1 < sp.e3 && sp.e3 + 1 < sp.e4 <= |s|
    && CropKeyAt(s, i)
    && DigitsIn(s, i + 5, sp.e1) && s[sp.e1] == ':'
    && DigitsIn(s, sp.e1 + 1, sp.e2) && s[sp.e2] == ':'
    && DigitsIn(s, sp.e2 + 1, sp.e3) && s[sp.e3] == ':'
    && DigitsIn(s, sp.e3 + 1, sp.e4)
    && (sp.e4 == |s| || !IsDigit(s[sp.e4]))
  }

  /** The match of `crop=(\d+:\d+:\d+:\d+)` that starts at position `i`, if
      any. As the separators are not digits, the greedy runs leave no
      choice. */
  function CropAt(s: string, i: nat): (r: Option<CropSpan>)
    requires i <= |s|
    ensures r.Some? ==> i + 5 < r.value.e4 <= |s|
  {
    if !CropKeyAt(s, i) then None
    else
      var o1 := DigitsThenColon(s, i + 5);
      if o1.None? then None
      else
        var o2 := DigitsThenColon(s, o1.value + 1);
        if o2.None? then None
        else
          var o3 := DigitsThenColon(s, o2.value + 1);
          if o3.None? then None
          else
            var e4 := DigitsEnd(s, o3.value + 1);
            if e4 == o3.value + 1 then None
            else Some(CropSpan(o1.value, o2.value, o3.value, e4))
  }

  /** The matcher finds exactly the spans the pattern describes. */
  lemma CropAtExact(s: string, i: nat, sp: CropSpan)
    requires i <= |s|
    ensures CropAt(s, i) == Some(sp) <==> IsCropSpan(s, i, sp)
  {
    if CropAt(s, i) == Some(sp) {
      CropAtSound(s, i);
    }
    if IsCropSpan(s, i, sp) {
      CropAtComplete(s, i, sp);
    }
  }

  lemma CropAtSound(s: string, i: nat)
    requires i <= |s| && CropAt(s, i).Some?
    ensures IsCropSpan(s, i, CropAt(s, i).value)
  {
    var sp := CropAt(s, i).value;
    assert DigitsIn(s, i + 5, sp.e1) by { DigitsEndIsRun(s, i + 5); }
    assert DigitsIn(s, sp.e1 + 1, sp.e2) by { DigitsEndIsRun(s, sp.e1 + 1); }
    assert DigitsIn(s, sp.e2 + 1, sp.e3) by { DigitsEndIsRun(s, sp.e2 + 1); }
    assert DigitsIn(s, sp.e3 + 1, sp.e4) && (sp.e4 == |s| || !IsDigit(s[sp.e4])) by {
      DigitsEndIsRun(s, sp.e3 + 1);
    }
  }

  lemma CropAtComplete(s: string, i: nat, sp: CropSpan)
    requires IsCropSpan(s, i, sp)
    ensures CropAt(s, i) == Some(sp)
  {
    assert DigitsThenColon(s, i + 5) == Some(sp.e1) by { DigitsEndAt(s, i + 5, sp.e1); }
    assert DigitsThenColon(s, sp.e1 + 1) == Some(sp.e2) by { DigitsEndAt(s, sp.e1 + 1, sp.e2); }
    assert DigitsThenColon(s, sp.e2 + 1) == Some(sp.e3) by { DigitsEndAt(s, sp.e2 + 1, sp.e3); }
    assert DigitsEnd(s, sp.e3 + 1) == sp.e4 by { DigitsEndAt(s, sp.e3 + 1, sp.e4); }
  }

  /** The captured text of a match: four non-empty digit strings joined by
      colons. */
  function CropCapture(s: string, i: nat, sp: CropSpan): string
    requires i + 5 <= sp.e4 <= |s|
  {
    s[i + 5..sp.e4]
  }

  /** The capture is a well-formed `W:H:X:Y` value, field by field. */
  lemma CropCaptureFields(s: string, i: nat, sp: CropSpan)
    requires IsCropSpan(s, i, sp)
    ensures var c := Crop(s[i + 5..sp.e1], s[sp.e1 + 1..sp.e2], s[sp.e2 + 1..sp.e3], s[sp.e3 + 1..sp.e4]);
      ValidCrop(c) && CropCapture(s, i, sp) == CropText(c)
  {
    CropCaptureValid(s, i, sp);
    CropFields(s, i + 5, sp.e1, sp.e2, sp.e3, sp.e4);
  }

  /** Each of the four captured fields is a non-empty digit string. */
  lemma CropCaptureValid(s: string, i: nat, sp: CropSpan)
    requires IsCropSpan(s, i, sp)
    ensures ValidCrop(Crop(s[i + 5..sp.e1], s[sp.e1 + 1..sp.e2], s[sp.e2 + 1..sp.e3], s[sp.e3 + 1..sp.e4]))
  {
    DigitsInSlice(s, i + 5, sp.e1);
    DigitsInSlice(s, sp.e1 + 1, sp.e2);
    DigitsInSlice(s, sp.e2 + 1, sp.e3);
    DigitsInSlice(s, sp.e3 + 1, sp.e4);
  }

  /** Four runs separated by colons make up the text of their crop value. */
  lemma CropFields(s: string, a: nat, e1: nat, e2: nat, e3: nat, e4: nat)
    requires a <= e1 < e2 < e3 < e4 <= |s|
    requires s[e1] == ':' && s[e2] == ':' && s[e3] == ':'
    ensures s[a..e4] == CropText(Crop(s[a..e1], s[e1 + 1..e2], s[e2 + 1..e3], s[e3 + 1..e4]))
  {
    assert s[e3..e4] == ":" + s[e3 + 1..e4];
    assert s[e2..e3] == ":" + s[e2 + 1..e3];
    assert s[e1..e2] == ":" + s[e1 + 1..e2];
    assert s[a..e4] == s[a..e1] + s[e1..e2] + s[e2..e3] + s[e3..e4];
  }

  datatype CropMatch = CropMatch(pos: nat, span: CropSpan)

  /** The leftmost match at or after position `i`, with its position. */
  function FirstCropFrom(s: string, i: nat): (r: Option<CropMatch>)
    requires i <= |s|
    ensures r.Some? ==> r.value.pos + 5 < r.value.span.e4 <= |s|
    decreases |s| - i
  {
    match CropAt(s, i)
    case Some(sp) => Some(CropMatch(i, sp))
    case None => if i == |s| then None else FirstCropFrom(s, i + 1)
  }

  /** The search finds the leftmost match, and finds none only when there
      is none at any position. */
  lemma {:induction false} FirstCropFromLeftmost(s: string, i: nat)
    requires i <= |s|
    ensures FirstCropFrom(s, i).Some? ==> LeftmostCrop(s, i, FirstCropFrom(s, i).value)
    ensures FirstCropFrom(s, i).None? ==> forall k :: i <= k <= |s| ==> CropAt(s, k).None?
    decreases |s| - i
  {
    if CropAt(s, i).None? && i < |s| {
      FirstCropFromLeftmost(s, i + 1);
    }
  }

  /** `m` is a match at or after `i` and there is none between. */
  predicate LeftmostCrop(s: string, i: nat, m: CropMatch) {
    && i <= m.pos <= |s| && CropAt(s, m.pos) == Some(m.span)
    && forall k :: i <= k < m.pos ==> CropAt(s, k).None?
  }

  /** `stderr.split('\n').splice(-4, 1)[0]`: the fourth line from the end,
      or the first line when there are fewer than four. */
  function CropLine(stderr: string): string
  {
    var lines := Split(stderr, '\n');
    if |lines| >= 4 then lines[|lines| - 4] else lines[0]
  }

  /** The crop value the scanner passes to every extraction, or None when
      the selected line has no match (the source then throws). */
  function CropValue(stderr: string): Option<string>
  {
    var line := CropLine(stderr);
    match FirstCropFrom(line, 0)
    case Some(m) => Some(CropCapture(line, m.pos, m.span))
    case None => None
  }

  /** The crop value is missing exactly when the selected line has no match
      anywhere; otherwise it is the capture of the leftmost match. */
  lemma CropValueLeftmost(stderr: string)
    ensures var line := CropLine(stderr);
      && (CropValue(stderr).None? <==> forall k :: 0 <= k <= |line| ==> CropAt(line, k).None?)
      && (CropValue(stderr).Some? ==>
            exists m :: LeftmostCrop(line, 0, m) && IsCropSpan(line, m.pos, m.span)
                        && CropValue(stderr) == Some(CropCapture(line, m.pos, m.span)))
  {
    var line := CropLine(stderr);
    FirstCropFromLeftmost(line, 0);
    var r := FirstCropFrom(line, 0);
    if r.Some? {
      CropAtSound(line, r.value.pos);
    }
  }

  // ---------------------------------------------------------------------
  // The two-speed scan, as a specification

  /** `1 - ssim(previous, current).mssim` for two frames of one video. */
  function Delta(ssim: (Frame, Frame) -> real, video: string, t1: int, t2: int): real {
    1.0 - ssim(Frame(video, t1 as real), Frame(video, t2 as real))
  }

  function FineDelta(ssim: (Frame, Frame) -> real, video: string, p: int): real {
    Delta(ssim, video, p, p + StepSizeSmall)
  }

  function CoarseDelta(ssim: (Frame, Frame) -> real, video: string, p: int): real {
    Delta(ssim, video, p, p + StepSizeLarge)
  }

  /** Whether the frame of `video` at `t` ms can be had: ffmpeg writes the
      BMP (its `exec` resolves) and `fs.readFile` reads it back. */
  predicate Extracted(extracts: Frame -> bool, video: string, t: int) {
    extracts(Frame(video, t as real))
  }

  /** The coarse step from `q` extracts its frame and stays below the
      threshold. */
  predicate CoarseQuiet(ssim: (Frame, Frame) -> real, extracts: Frame -> bool, video: string, q: int) {
    Extracted(extracts, video, q + StepSizeLarge) && CoarseDelta(ssim, video, q) <= SceneThreshold
  }

  /** The fine step from `q` extracts its frame and stays below the
      threshold. */
  predicate FineQuiet(ssim: (Frame, Frame) -> real, extracts: Frame -> bool, video: string, q: int) {
    Extracted(extracts, video, q + StepSizeSmall) && FineDelta(ssim, video, q) <= SceneThreshold
  }

  /** The scan from the last frame kept, `previous`, with the coarse step
      while `large` holds and the fine step otherwise. A frame that cannot
      be extracted ends it; a coarse hit backs up to `previous` and
      continues finely from there; a fine hit is the cut. */
  function Scan(ssim: (Frame, Frame) -> real, extracts: Frame -> bool, video: string, large: bool,
                previous: int, end: int): Result<SceneCut, ScanError>
    decreases if large then 1 else 0, end - previous
  {
    var step := if large then StepSizeLarge else StepSizeSmall;
    if previous + step >= end then Err(NoSceneChange)
    else if !Extracted(extracts, video, previous + step) then Err(FrameFailed(previous + step))
    else
      var d := Delta(ssim, video, previous, previous + step);
      if d <= SceneThreshold then Scan(ssim, extracts, video, large, previous + step, end)
      else if large then Scan(ssim, extracts, video, false, previous, end)
      else Ok(SceneCut(previous, previous + step, d))
  }

  /** What `findNextSceneChange(video, start, end)` returns or throws: the
      crop value, the first frame, then the scan. */
  function SceneScan(ssim: (Frame, Frame) -> real, extracts: Frame -> bool, video: string, start: int, end: int,
                     crop: Option<string>): Result<SceneCut, ScanError>
  {
    if crop.None? then Err(CropNotDetected)
    else if !Extracted(extracts, video, start) then Err(FrameFailed(start))
    else Scan(ssim, extracts, video, true, start, end)
  }

  // ---------------------------------------------------------------------
  // The scanner itself

  /** The offsets at which the scan from `previous` extracts a frame, in
      order, including those after a switch to the fine step and the one
      whose extraction fails. */
  function Trace(ssim: (Frame, Frame) -> real, extracts: Frame -> bool, video: string, large: bool,
                 previous: int, end: int): seq<int>
    decreases if large then 1 else 0, end - previous
  {
    var step := if large then StepSizeLarge else StepSizeSmall;
    if previous + step >= end then []
    else if !Extracted(extracts, video, previous + step) then [previous + step]
    else
      var d := Delta(ssim, video, previous, previous + step);
      if d <= SceneThreshold then [previous + step] + Trace(ssim, extracts, video, large, previous + step, end)
      else if large then [previous + step] + Trace(ssim, extracts, video, false, previous, end)
      else [previous + step]
  }

  /** The offsets `findNextSceneChange` extracts a frame at: none without a
      crop value, otherwise the start and, when that frame is had, the
      scan's. */
  function Samples(ssim: (Frame, Frame) -> real, extracts: Frame -> bool, video: string, start: int, end: int,
                   crop: Option<string>): seq<int>
  {
    if crop.None? then []
    else if !Extracted(extracts, video, start) then [start]
    else [start] + Trace(ssim, extracts, video, true, start, end)
  }

  /** `findNextSceneChange`: the check of the crop value, the first frame,
      then the scan. `cropValue` is what the cropdetect run yields, as
      `CropValue` reads it from ffmpeg's output; `samples` lists the offsets
      at which frames are extracted, in order. */
  method FindNextSceneChange(video: string, startOffset: int, endOffset: int, cropValue: Option<string>,
                             ssim: (Frame, Frame) -> real, extracts: Frame -> bool)
    returns (r: Result<SceneCut, ScanError>, samples: seq<int>)
    ensures r == SceneScan(ssim, extracts, video, startOffset, endOffset, cropValue)
    ensures samples == Samples(ssim, extracts, video, startOffset, endOffset, cropValue)
  {
    if cropValue.None? {
      return Err(CropNotDetected), [];
    }
    if !Extracted(extracts, video, startOffset) {
      return Err(FrameFailed(startOffset)), [startOffset];
    }
    r, samples := ScanLoop(video, startOffset, endOffset, ssim, extracts);
  }

  /** The loop of `findNextSceneChange` over a cursor, a step size and the
      previous frame, from the first frame at `startOffset`. */
  method ScanLoop(video: string, startOffset: int, endOffset: int, ssim: (Frame, Frame) -> real, extracts: Frame -> bool)
    returns (r: Result<SceneCut, ScanError>, samples: seq<int>)
    ensures r == Scan(ssim, extracts, video, true, startOffset, endOffset)
    ensures samples == [startOffset] + Trace(ssim, extracts, video, true, startOffset, endOffset)
  {
    var currentStepSize := StepSizeLarge;
    var previousFrame := startOffset;
    samples := [startOffset];
    var currentFrameOffset := startOffset + currentStepSize;
    ghost var spec := Scan(ssim, extracts, video, true, startOffset, endOffset);
    ghost var trace := [startOffset] + Trace(ssim, extracts, video, true, startOffset, endOffset);
    while currentFrameOffset < endOffset
      invariant currentStepSize == StepSizeLarge || currentStepSize == StepSizeSmall
      invariant currentFrameOffset == previousFrame + currentStepSize
      invariant Scan(ssim, extracts, video, currentStepSize == StepSizeLarge, previousFrame, endOffset) == spec
      invariant samples + Trace(ssim, extracts, video, currentStepSize == StepSizeLarge, previousFrame, endOffset) == trace
      decreases (if currentStepSize == StepSizeLarge then 1 else 0), endOffset - currentFrameOffset
    {
      ghost var large := currentStepSize == StepSizeLarge;
      ghost var before := samples;
      samples := samples + [currentFrameOffset];
      if !Extracted(extracts, video, currentFrameOffset) {
        // the `exec` or the `fs.readFile` rejects
        return Err(FrameFailed(currentFrameOffset)), samples;
      }
      var delta := Delta(ssim, video, previousFrame, currentFrameOffset);
      if delta > SceneThreshold {
        if currentStepSize == StepSizeSmall {
          return Ok(SceneCut(previousFrame, currentFrameOffset, delta)), samples;
        } else {
          // back up to the frame before the change and continue finely
          ghost var rest := Trace(ssim, extracts, video, false, previousFrame, endOffset);
          assert before + ([currentFrameOffset] + rest) == samples + rest;
          currentFrameOffset := previousFrame;
          currentStepSize := StepSizeSmall;
        }
      } else {
        ghost var rest := Trace(ssim, extracts, video, large, currentFrameOffset, endOffset);
        assert before + ([currentFrameOffset] + rest) == samples + rest;
        previousFrame := currentFrameOffset;
      }
      currentFrameOffset := currentFrameOffset + currentStepSize;
    }
    assert samples == trace;
    r := Err(NoSceneChange);
  }

  /** One fine step after another from `previous`, all before `end`. */
  ghost predicate FineSteps(t: seq<int>, previous: int, end: int) {
    forall k :: 0 <= k < |t| ==> t[k] == previous + 25 * (k + 1) && t[k] < end
  }

  /** The fine part of the trace. */
  lemma {:induction false} FineTraceShape(ssim: (Frame, Frame) -> real, extracts: Frame -> bool, video: string,
                                          previous: int, end: int)
    ensures FineSteps(Trace(ssim, extracts, video, false, previous, end), previous, end)
    decreases end - previous
  {
    if previous + StepSizeSmall < end && FineQuiet(ssim, extracts, video, previous) {
      FineTraceShape(ssim, extracts, video, previous + StepSizeSmall, end);
      var t := Trace(ssim, extracts, video, false, previous, end);
      var rest := Trace(ssim, extracts, video, false, previous + StepSizeSmall, end);
      assert t == [previous + StepSizeSmall] + rest;
      forall k | 0 <= k < |t| ensures t[k] == previous + 25 * (k + 1) && t[k] < end {
        if k > 0 { assert t[k] == rest[k - 1]; }
      }
    }
  }

  /** The step switches at most once: the trace is `h` coarse steps from
      `previous` and then fine steps from one coarse step before the last
      coarse sample; every sample lies after `previous` and before `end`. */
  lemma {:induction false} CoarseTraceShape(ssim: (Frame, Frame) -> real, extracts: Frame -> bool, video: string,
                                            previous: int, end: int)
    ensures exists h :: TwoSpeed(Trace(ssim, extracts, video, true, previous, end), previous, end, h)
    decreases end - previous
  {
    var t := Trace(ssim, extracts, video, true, previous, end);
    var next := previous + StepSizeLarge;
    if next >= end {
      assert TwoSpeed(t, previous, end, 0);
    } else if !Extracted(extracts, video, next) {
      assert t == [next];
      assert TwoSpeed(t, previous, end, 1);
    } else if CoarseDelta(ssim, video, previous) > SceneThreshold {
      var fine := Trace(ssim, extracts, video, false, previous, end);
      FineTraceShape(ssim, extracts, video, previous, end);
      assert t == [next] + fine;
      forall k | 1 <= k < |t|
        ensures t[k] == previous + 25 * k && t[k] < end
      {
        assert t[k] == fine[k - 1];
      }
      assert TwoSpeed(t, previous, end, 1);
    } else {
      var rest := Trace(ssim, extracts, video, true, next, end);
      CoarseTraceShape(ssim, extracts, video, next, end);
      var h :| TwoSpeed(rest, next, end, h);
      assert t == [next] + rest;
      forall k | 1 <= k < |t|
        ensures t[k] == rest[k - 1]
      {
      }
      assert TwoSpeed(t, previous, end, h + 1);
    }
  }

  /** `t` is `h` coarse samples after `previous`, then fine samples from the
      one before the last coarse sample; every sample is before `end`. */
  ghost predicate TwoSpeed(t: seq<int>, previous: int, end: int, h: int) {
    && 0 <= h <= |t|
    && (|t| > 0 ==> h >= 1)
    && (forall k :: 0 <= k < h ==> t[k] == previous + 1000 * (k + 1))
    && (forall k :: h <= k < |t| ==> t[k] == previous + 1000 * (h - 1) + 25 * (k - h + 1))
    && (forall k :: 0 <= k < |t| ==> t[k] < end)
  }

  /** The frames the scan extracts after the start: coarse steps, then
      (after at most one switch) fine steps; all lie in the window, after
      the start. */
  lemma ScanTraceInWindow(ssim: (Frame, Frame) -> real, extracts: Frame -> bool, video: string, start: int, end: int)
    ensures var t := [start] + Trace(ssim, extracts, video, true, start, end);
      && (|t| > 1 ==> t[1] == start + StepSizeLarge)
      && (forall k :: 1 <= k < |t| ==> start < t[k] < end)
      && exists h :: TwoSpeed(t[1..], start, end, h)
  {
    var t := [start] + Trace(ssim, extracts, video, true, start, end);
    CoarseTraceShape(ssim, extracts, video, start, end);
    assert t[1..] == Trace(ssim, extracts, video, true, start, end);
    var h :| TwoSpeed(t[1..], start, end, h);
    forall k | 1 <= k < |t| ensures start < t[k] < end {
      assert t[k] == t[1..][k - 1];
    }
  }

  // ---------------------------------------------------------------------
  // Where the scan fails on a frame

  /** `r` fails on a frame exactly when one of the samples `t` cannot be
      had; that sample is then the last, and every earlier one was
      extracted. */
  ghost predicate FailsOnLastSample(extracts: Frame -> bool, video: string, r: Result<SceneCut, ScanError>, t: seq<int>) {
    && (r.Err? && r.error.FrameFailed? <==> exists k :: 0 <= k < |t| && !Extracted(extracts, video, t[k]))
    && (r.Err? && r.error.FrameFailed? ==>
          && |t| > 0 && r.error.offset == t[|t| - 1] && !Extracted(extracts, video, t[|t| - 1])
          && forall k :: 0 <= k < |t| - 1 ==> Extracted(extracts, video, t[k]))
  }

  /** The scan fails on a frame exactly when one of the frames it samples
      cannot be had; that frame is then the last one sampled, and every
      earlier one was extracted. */
  lemma {:induction false} ScanFailsAtUnreadable(ssim: (Frame, Frame) -> real, extracts: Frame -> bool, video: string,
                                                 large: bool, previous: int, end: int)
    ensures FailsOnLastSample(extracts, video, Scan(ssim, extracts, video, large, previous, end),
                              Trace(ssim, extracts, video, large, previous, end))
    decreases if large then 1 else 0, end - previous
  {
    var step := if large then StepSizeLarge else StepSizeSmall;
    var next := previous + step;
    var t := Trace(ssim, extracts, video, large, previous, end);
    var r := Scan(ssim, extracts, video, large, previous, end);
    if next >= end {
      assert t == [] && r == Err(NoSceneChange);
    } else if !Extracted(extracts, video, next) {
      assert t == [next] && r == Err(FrameFailed(next));
      assert !Extracted(extracts, video, t[0]);
    } else {
      var d := Delta(ssim, video, previous, next);
      if d <= SceneThreshold || large {
        var large' := large && d <= SceneThreshold;
        var from := if d <= SceneThreshold then next else previous;
        ScanFailsAtUnreadable(ssim, extracts, video, large', from, end);
        var rest := Trace(ssim, extracts, video, large', from, end);
        assert t == [next] + rest && r == Scan(ssim, extracts, video, large', from, end);
        ExtractedAhead(extracts, video, next, rest, r);
      } else {
        assert t == [next] + [] && r.Ok?;
        ExtractedAhead(extracts, video, next, [], r);
      }
    }
  }

  /** An extracted sample in front of the samples keeps which of them
      cannot be had, and which is the last. */
  lemma ExtractedAhead(extracts: Frame -> bool, video: string, x: int, rest: seq<int>, r: Result<SceneCut, ScanError>)
    requires Extracted(extracts, video, x)
    requires FailsOnLastSample(extracts, video, r, rest)
    ensures FailsOnLastSample(extracts, video, r, [x] + rest)
  {
    var t := [x] + rest;
    if exists k :: 0 <= k < |t| && !Extracted(extracts, video, t[k]) {
      var k :| 0 <= k < |t| && !Extracted(extracts, video, t[k]);
      assert t[k] == rest[k - 1];
    }
    if exists k :: 0 <= k < |rest| && !Extracted(extracts, video, rest[k]) {
      var k :| 0 <= k < |rest| && !Extracted(extracts, video, rest[k]);
      assert t[k + 1] == rest[k];
    }
    if r.Err? && r.error.FrameFailed? {
      assert t[|t| - 1] == rest[|rest| - 1];
      forall k | 0 <= k < |t| - 1 ensures Extracted(extracts, video, t[k]) {
        if k > 0 { assert t[k] == rest[k - 1]; }
      }
    }
  }

  /** `findNextSceneChange` rejects on a frame exactly when one of the
      frames it samples cannot be had, and then on the last one it sampled;
      every frame before it was extracted. */
  lemma SceneScanFailed(ssim: (Frame, Frame) -> real, extracts: Frame -> bool, video: string, start: int, end: int,
                        crop: Option<string>)
    ensures FailsOnLastSample(extracts, video, SceneScan(ssim, extracts, video, start, end, crop),
                              Samples(ssim, extracts, video, start, end, crop))
  {
    var t := Samples(ssim, extracts, video, start, end, crop);
    if crop.Some? && Extracted(extracts, video, start) {
      ScanFailsAtUnreadable(ssim, extracts, video, true, start, end);
      ExtractedAhead(extracts, video, start, Trace(ssim, extracts, video, true, start, end),
                     Scan(ssim, extracts, video, true, start, end));
    } else if crop.Some? {
      assert !Extracted(extracts, video, t[0]);
    }
  }

  // ---------------------------------------------------------------------
  // What the scan finds

  /** `p` is the first coarse sample position from `from` whose step to the
      next coarse sample crosses the threshold; every coarse step before it
      extracted its frame and stayed below. */
  ghost predicate FirstCoarseHit(ssim: (Frame, Frame) -> real, extracts: Frame -> bool, video: string,
                                 from: int, end: int, p: int) {
    && from <= p && (p - from) % 1000 == 0 && p + StepSizeLarge < end
    && Extracted(extracts, video, p + StepSizeLarge) && CoarseDelta(ssim, video, p) > SceneThreshold
    && forall q :: from <= q < p && (q - from) % 1000 == 0 ==> CoarseQuiet(ssim, extracts, video, q)
  }

  /** A cut found by the fine scan from `from`: fine-aligned, one fine step
      wide, inside the window, extracted, above the threshold, and the first
      such. */
  ghost predicate FirstFineHit(ssim: (Frame, Frame) -> real, extracts: Frame -> bool, video: string,
                               from: int, end: int, cut: SceneCut) {
    && from <= cut.pre && (cut.pre - from) % 25 == 0
    && cut.post == cut.pre + StepSizeSmall && cut.post < end && Extracted(extracts, video, cut.post)
    && cut.delta == FineDelta(ssim, video, cut.pre) && cut.delta > SceneThreshold
    && forall q :: from <= q < cut.pre && (q - from) % 25 == 0 ==> FineQuiet(ssim, extracts, video, q)
  }

  lemma {:induction false} FineScanOk(ssim: (Frame, Frame) -> real, extracts: Frame -> bool, video: string,
                                      from: int, end: int)
    requires Scan(ssim, extracts, video, false, from, end).Ok?
    ensures FirstFineHit(ssim, extracts, video, from, end, Scan(ssim, extracts, video, false, from, end).value)
    decreases end - from
  {
    if FineDelta(ssim, video, from) <= SceneThreshold {
      var next := from + StepSizeSmall;
      FineScanOk(ssim, extracts, video, next, end);
      var cut := Scan(ssim, extracts, video, false, from, end).value;
      forall q | from <= q < cut.pre && (q - from) % 25 == 0
        ensures FineQuiet(ssim, extracts, video, q)
      {
        if q != from {
          assert next <= q && (q - next) % 25 == 0;
        }
      }
    }
  }

  lemma {:induction false} FineScanErr(ssim: (Frame, Frame) -> real, extracts: Frame -> bool, video: string,
                                       from: int, end: int)
    requires Scan(ssim, extracts, video, false, from, end) == Err(NoSceneChange)
    ensures forall q :: from <= q && q + StepSizeSmall < end && (q - from) % 25 == 0 ==>
      FineQuiet(ssim, extracts, video, q)
    decreases end - from
  {
    if from + StepSizeSmall < end {
      var next := from + StepSizeSmall;
      FineScanErr(ssim, extracts, video, next, end);
      forall q | from <= q && q + StepSizeSmall < end && (q - from) % 25 == 0
        ensures FineQuiet(ssim, extracts, video, q)
      {
        if q != from {
          assert next <= q && (q - next) % 25 == 0;
        }
      }
    }
  }

  /** Every coarse step from `from` inside the window extracts its frame
      and stays below the threshold. */
  ghost predicate NoCoarseHit(ssim: (Frame, Frame) -> real, extracts: Frame -> bool, video: string, from: int, end: int) {
    forall q :: from <= q && q + StepSizeLarge < end && (q - from) % 1000 == 0 ==> CoarseQuiet(ssim, extracts, video, q)
  }

  lemma NoCoarseHitBack(ssim: (Frame, Frame) -> real, extracts: Frame -> bool, video: string, from: int, end: int)
    requires NoCoarseHit(ssim, extracts, video, from + StepSizeLarge, end)
    requires from + StepSizeLarge < end ==> CoarseQuiet(ssim, extracts, video, from)
    ensures NoCoarseHit(ssim, extracts, video, from, end)
  {
    forall q | from <= q && q + StepSizeLarge < end && (q - from) % 1000 == 0
      ensures CoarseQuiet(ssim, extracts, video, q)
    {
      if q != from {
        CoarseAlignedStep(q - from);
      }
    }
  }

  /** A positive multiple of the coarse step is at least one step and one step less is still a multiple. */
  lemma CoarseAlignedStep(d: int)
    requires d > 0 && d % 1000 == 0
    ensures d >= 1000 && (d - 1000) % 1000 == 0
  {
  }

  /** One coarse step more keeps a multiple of the coarse step a multiple. */
  lemma CoarseAlignedBack(d: int)
    requires d % 1000 == 0
    ensures (d + 1000) % 1000 == 0
  {
  }

  lemma FirstCoarseHitBack(ssim: (Frame, Frame) -> real, extracts: Frame -> bool, video: string, from: int, end: int, p: int)
    requires FirstCoarseHit(ssim, extracts, video, from + StepSizeLarge, end, p)
    requires CoarseQuiet(ssim, extracts, video, from)
    ensures FirstCoarseHit(ssim, extracts, video, from, end, p)
  {
    CoarseAlignedBack(p - (from + StepSizeLarge));
    forall q | from <= q < p && (q - from) % 1000 == 0
      ensures CoarseQuiet(ssim, extracts, video, q)
    {
      if q != from {
        CoarseAlignedStep(q - from);
      }
    }
  }

  /** The coarse scan either finds no coarse hit and fails, or hands over
      to the fine scan at its first coarse hit, or fails on a frame. */
  lemma {:induction false} CoarseScanCases(ssim: (Frame, Frame) -> real, extracts: Frame -> bool, video: string,
                                           from: int, end: int)
    ensures var r := Scan(ssim, extracts, video, true, from, end);
      || (r == Err(NoSceneChange) && NoCoarseHit(ssim, extracts, video, from, end))
      || (exists p :: FirstCoarseHit(ssim, extracts, video, from, end, p)
                      && r == Scan(ssim, extracts, video, false, p, end))
      || (r.Err? && r.error.FrameFailed?)
    decreases end - from
  {
    var next := from + StepSizeLarge;
    if next >= end {
      assert NoCoarseHit(ssim, extracts, video, from, end);
    } else if !Extracted(extracts, video, next) {
    } else if CoarseDelta(ssim, video, from) <= SceneThreshold {
      CoarseScanCases(ssim, extracts, video, next, end);
      var r := Scan(ssim, extracts, video, true, next, end);
      if r == Err(NoSceneChange) && NoCoarseHit(ssim, extracts, video, next, end) {
        NoCoarseHitBack(ssim, extracts, video, from, end);
      } else if !(r.Err? && r.error.FrameFailed?) {
        var p :| FirstCoarseHit(ssim, extracts, video, next, end, p)
                 && r == Scan(ssim, extracts, video, false, p, end);
        FirstCoarseHitBack(ssim, extracts, video, from, end, p);
      }
    } else {
      assert FirstCoarseHit(ssim, extracts, video, from, end, from);
    }
  }

  /** A cut returned by the scanner lies in the window, is one fine step
      wide, crosses the threshold and is the first fine hit after the first
      coarse hit, every frame before it having been extracted. */
  lemma SceneScanFound(ssim: (Frame, Frame) -> real, extracts: Frame -> bool, video: string, start: int, end: int,
                       crop: Option<string>)
    requires SceneScan(ssim, extracts, video, start, end, crop).Ok?
    ensures var cut := SceneScan(ssim, extracts, video, start, end, crop).value;
      && start <= cut.pre < cut.post < end
      && cut.post == cut.pre + StepSizeSmall
      && cut.delta > SceneThreshold
      && cut.delta == Delta(ssim, video, cut.pre, cut.post)
      && crop.Some? && Extracted(extracts, video, start)
      && exists p :: FirstCoarseHit(ssim, extracts, video, start, end, p) && FirstFineHit(ssim, extracts, video, p, end, cut)
  {
    CoarseScanCases(ssim, extracts, video, start, end);
    var p :| FirstCoarseHit(ssim, extracts, video, start, end, p)
             && Scan(ssim, extracts, video, true, start, end) == Scan(ssim, extracts, video, false, p, end);
    FineScanOk(ssim, extracts, video, p, end);
  }

  /** The scanner fails with "No scene change found" only when every frame
      it looked at was extracted and no sample pair crosses the threshold:
      either no coarse step does, or after the first coarse hit no fine
      step does. */
  lemma SceneScanNotFound(ssim: (Frame, Frame) -> real, extracts: Frame -> bool, video: string, start: int, end: int,
                          crop: Option<string>)
    requires SceneScan(ssim, extracts, video, start, end, crop) == Err(NoSceneChange)
    ensures crop.Some? && Extracted(extracts, video, start)
    ensures || NoCoarseHit(ssim, extracts, video, start, end)
            || (exists p :: FirstCoarseHit(ssim, extracts, video, start, end, p)
                  && forall q :: p <= q && q + StepSizeSmall < end && (q - p) % 25 == 0 ==>
                       FineQuiet(ssim, extracts, video, q))
  {
    CoarseScanCases(ssim, extracts, video, start, end);
    if !NoCoarseHit(ssim, extracts, video, start, end) {
      var p :| FirstCoarseHit(ssim, extracts, video, start, end, p)
               && Scan(ssim, extracts, video, true, start, end) == Scan(ssim, extracts, video, false, p, end);
      FineScanErr(ssim, extracts, video, p, end);
    }
  }

  // ---------------------------------------------------------------------
  // calculateOffset

  /** The acceptance test for two scene changes: the frames before the cuts
      and the frames after them are similar, and the two cuts are about
      equally abrupt. */
  predicate IsMatchingScene(preSimilarity: real, postSimilarity: real, delta1: real, delta2: real) {
    var gap := if delta1 >= delta2 then delta1 - delta2 else delta2 - delta1;
    || (preSimilarity > 0.6 && postSimilarity > 0.6 && gap < 0.03)
    || (preSimilarity > 0.9 && postSimilarity > 0.9 && gap < 0.1)
  }

  /** Any accepted match has both similarities above 0.6 and deltas less
      than 0.1 apart; the rule does not depend on the order of the videos. */
  lemma MatchingSceneBounds(pre: real, post: real, d1: real, d2: real)
    requires IsMatchingScene(pre, post, d1, d2)
    ensures pre > 0.6 && post > 0.6 && -0.1 < d1 - d2 < 0.1
    ensures IsMatchingScene(pre, post, d2, d1)
  {
  }

  /** What `calculateOffset` returns once both scans are known: the
      difference of the two pre-cut offsets when the cuts match, None (the
      source returns `false`) when they do not. */
  function CompareCuts(ssim: (Frame, Frame) -> real, video1: string, video2: string,
                       cut1: SceneCut, cut2: SceneCut): Option<int>
  {
    var preSimilarity := ssim(Frame(video1, cut1.pre as real), Frame(video2, cut2.pre as real));
    var postSimilarity := ssim(Frame(video1, cut1.post as real), Frame(video2, cut2.post as real));
    if IsMatchingScene(preSimilarity, postSimilarity, cut1.delta, cut2.delta) then Some(cut1.pre - cut2.pre)
    else None
  }

  /** The start of the window in video 1: the middle of its duration. */
  function FirstWindowStart(durationSeconds: real): int {
    Round(durationSeconds * 1000.0 / 2.0)
  }

  /** The start of the window in video 2: three steps before the cut found
      in video 1. */
  function SecondWindowStart(cut1: SceneCut): int {
    cut1.pre - 3 * StepSize
  }

  /** What `calculateOffset(video1, video2)` returns or throws: scan video 1
      from the middle of its duration for a minute, scan video 2 from three
      fine steps before the cut found in video 1 for five seconds, and
      compare the two cuts. */
  function OffsetOutcome(ssim: (Frame, Frame) -> real, extracts: Frame -> bool, video1: string, video2: string,
                         durationSeconds: real, crops: (string, int) -> Option<string>): Result<Option<int>, ScanError>
  {
    var offset1 := FirstWindowStart(durationSeconds);
    var scan1 := SceneScan(ssim, extracts, video1, offset1, offset1 + 60000, crops(video1, offset1));
    if scan1.Err? then Err(scan1.error)
    else
      var offset2 := SecondWindowStart(scan1.value);
      var scan2 := SceneScan(ssim, extracts, video2, offset2, offset2 + 5000, crops(video2, offset2));
      if scan2.Err? then Err(scan2.error)
      else Ok(CompareCuts(ssim, video1, video2, scan1.value, scan2.value))
  }

  /** `calculateOffset(video1, video2)`. */
  method CalculateOffset(video1: string, video2: string, durationSeconds: real,
                         crops: (string, int) -> Option<string>, ssim: (Frame, Frame) -> real,
                         extracts: Frame -> bool)
    returns (r: Result<Option<int>, ScanError>)
    ensures r == OffsetOutcome(ssim, extracts, video1, video2, durationSeconds, crops)
  {
    var video1Duration := durationSeconds * 1000.0;
    var offset1 := Round(video1Duration / 2.0);
    var scan1, samples1 := FindNextSceneChange(video1, offset1, offset1 + 60000, crops(video1, offset1), ssim, extracts);
    if scan1.Err? {
      return Err(scan1.error);
    }
    var cut1 := scan1.value;
    var offset2 := cut1.pre - 3 * StepSize;
    var scan2, samples2 := FindNextSceneChange(video2, offset2, offset2 + 5000, crops(video2, offset2), ssim, extracts);
    if scan2.Err? {
      return Err(scan2.error);
    }
    var cut2 := scan2.value;
    var preSimilarity := ssim(Frame(video1, cut1.pre as real), Frame(video2, cut2.pre as real));
    var postSimilarity := ssim(Frame(video1, cut1.post as real), Frame(video2, cut2.post as real));
    if IsMatchingScene(preSimilarity, postSimilarity, cut1.delta, cut2.delta) {
      return Ok(Some(cut1.pre - cut2.pre));
    }
    return Ok(None);
  }

  /** An offset lies within the second window's reach: video 2's cut
      starts no earlier than three steps before video 1's, and its later
      frame still lies inside the five-second window, so the cut itself
      starts at least one step before that window ends. */
  lemma OffsetOutcomeBounds(ssim: (Frame, Frame) -> real, extracts: Frame -> bool, video1: string, video2: string,
                            durationSeconds: real, crops: (string, int) -> Option<string>)
    requires OffsetOutcome(ssim, extracts, video1, video2, durationSeconds, crops).Ok?
    requires OffsetOutcome(ssim, extracts, video1, video2, durationSeconds, crops).value.Some?
    ensures var d := OffsetOutcome(ssim, extracts, video1, video2, durationSeconds, crops).value.value;
      -5000 + 4 * StepSize < d <= 3 * StepSize
  {
    var offset1 := FirstWindowStart(durationSeconds);
    var crop1 := crops(video1, offset1);
    var scan1 := SceneScan(ssim, extracts, video1, offset1, offset1 + 60000, crop1);
    var offset2 := SecondWindowStart(scan1.value);
    var crop2 := crops(video2, offset2);
    SceneScanFound(ssim, extracts, video2, offset2, offset2 + 5000, crop2);
  }
}
