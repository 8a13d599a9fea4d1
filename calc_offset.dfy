/** util/calc-offset.js: find the offset between two videos by iterative
    narrowing.

    One frame of the wider video (the static frame) is extracted once. Each
    iteration extracts `searchResolution` evenly spaced frames of the other
    video around the current search centre, over a window that shrinks as
    `searchWidth / iteration` seconds, picks the closest match with
    `findClosestFrame`, and moves the centre to that frame's offset. The
    result is the static offset minus the final centre.

    ffprobe, ffmpeg and the similarity scores are oracles, gathered in
    `Env`; the order in which the directory lists its files is whatever the
    file system chooses, and the model keeps it as a ghost record of each
    iteration's listing. */
module CalcOffset {
  import opened Base
  import opened Text
  import opened Selection
  import opened ExtractFrames
  import opened ClosestFrame

  // ---------------------------------------------------------------------
  // offsetGenerator

  /** A running `offsetGenerator(start, step)`; `yielded` counts the values
      it has yielded. */
  class OffsetGenerator {
    const start: real
    const step: real
    var iterationCount: real
    ghost var yielded: nat

    ghost predicate Valid()
      reads this
    {
      iterationCount == start + yielded as real * step
    }

    constructor (start: real, step: real)
      ensures Valid() && this.start == start && this.step == step && yielded == 0
    {
      this.start := start;
      this.step := step;
      iterationCount := start;
      yielded := 0;
    }

    /** `gen.next().value`: the k-th value yielded, counting from 0, is
        `start + k * step`. */
    method Next() returns (prev: real)
      requires Valid()
      modifies this
      ensures Valid() && yielded == old(yielded) + 1
      ensures prev == start + old(yielded) as real * step
    {
      prev := iterationCount;
      iterationCount := iterationCount + step;
      yielded := yielded + 1;
    }
  }

  /** `count` values from `start`, `step` apart. */
  function Evenly(start: real, step: real, count: nat): (s: seq<real>)
    ensures |s| == count
  {
    seq(count, k => start + k as real * step)
  }

  /** `new Array(count).fill(0).map(x => gen.next().value)` with
      `gen = offsetGenerator(start, step)`. */
  method Generate(start: real, step: real, count: nat) returns (offsets: seq<real>)
    ensures offsets == Evenly(start, step, count)
  {
    var gen := new OffsetGenerator(start, step);
    offsets := [];
    while |offsets| < count
      invariant |offsets| <= count
      invariant gen.Valid() && gen.yielded == |offsets| && gen.start == start && gen.step == step
      invariant forall k :: 0 <= k < |offsets| ==> offsets[k] == start + k as real * step
      decreases count - |offsets|
    {
      var value := gen.Next();
      offsets := offsets + [value];
    }
    assert forall k :: 0 <= k < count ==> offsets[k] == Evenly(start, step, count)[k];
  }

  // ---------------------------------------------------------------------
  // The search window

  /** `options.searchWidth / iteration`, in seconds. */
  function SearchWidth(searchWidth: real, iteration: nat): real
    requires iteration >= 1
  {
    searchWidth / iteration as real
  }

  /** The first candidate, `parseInt(searchCenter - searchWidth*1000/2)`. */
  function WindowStart(center: real, width: real): int {
    TruncTowardZero(center - width * 1000.0 / 2.0)
  }

  /** The candidates of an iteration: `resolution` offsets from the window
      start, `width*1000/resolution` apart. */
  function Window(center: real, width: real, resolution: nat): (w: seq<real>)
    ensures |w| == resolution
  {
    if resolution == 0 then [] else Evenly(WindowStart(center, width) as real, width * 1000.0 / resolution as real, resolution)
  }

  lemma MulLeft(k: real, m: real, d: real)
    requires k <= m && 0.0 <= d
    ensures k * d <= m * d
  {
  }

  /** With a non-negative width, candidate `k` of the window is `k` steps
      of `width*1000/resolution` past the truncated `center - width*500`,
      and lies strictly within a millisecond of
      `[center - width*500, center + width*500]`. */
  lemma WindowCandidate(center: real, width: real, resolution: nat, k: nat)
    requires k < resolution && width >= 0.0
    ensures var c := Window(center, width, resolution)[k];
      && c == WindowStart(center, width) as real + k as real * (width * 1000.0 / resolution as real)
      && center - width * 500.0 - 1.0 < c < center + width * 500.0 + 1.0
  {
    var d := width * 1000.0 / resolution as real;
    assert d * resolution as real == width * 1000.0;
    assert 0.0 <= d;
    MulLeft(k as real, (resolution - 1) as real, d);
    assert (resolution - 1) as real * d == width * 1000.0 - d;
  }

  /** With a positive `searchWidth` the window shrinks strictly from one
      iteration to the next. */
  lemma WidthShrinks(searchWidth: real, iteration: nat)
    requires searchWidth > 0.0 && iteration >= 1
    ensures 0.0 < SearchWidth(searchWidth, iteration + 1) < SearchWidth(searchWidth, iteration)
  {
    var i := iteration as real;
    assert searchWidth / (i + 1.0) * (i + 1.0) == searchWidth;
    assert searchWidth / i * i == searchWidth;
  }

  // ---------------------------------------------------------------------
  // Mapping the winning file back to its offset

  /** `exportedFrames.find(frame => frame.filename === filename)?.offset`,
      from index `i` on; None is `undefined`. */
  function FindOffset(frames: seq<ExportedFrame>, filename: Option<string>, i: nat): Option<real>
    requires i <= |frames|
    decreases |frames| - i
  {
    if filename.None? || i == |frames| then None
    else if frames[i].filename == filename.value then Some(frames[i].offset)
    else FindOffset(frames, filename, i + 1)
  }

  /** The record of index `k` is the first whose name is `screenshot_k.bmp`,
      because the names are distinct. */
  lemma {:induction false} FindOffsetFrom(offsets: seq<real>, k: nat, i: nat)
    requires i <= k < |offsets|
    ensures FindOffset(Exported(offsets), Some(ScreenshotName(k)), i) == Some(offsets[k])
    decreases k - i
  {
    ExportedAt(offsets, i);
    if i < k {
      if ScreenshotName(i) == ScreenshotName(k) {
        ScreenshotNameInjective(i, k);
      }
      FindOffsetFrom(offsets, k, i + 1);
    }
  }

  /** Looking up `screenshot_k.bmp` among the records of an extraction gives
      the k-th offset. */
  lemma FindOffsetScreenshot(offsets: seq<real>, k: nat)
    requires k < |offsets|
    ensures FindOffset(Exported(offsets), Some(ScreenshotName(k)), 0) == Some(offsets[k])
  {
    FindOffsetFrom(offsets, k, 0);
  }

  // ---------------------------------------------------------------------
  // The result

  /** `x.toFixed(0)` for a finite `x` of ordinary size: the nearest
      integer, halves away from zero, and a `-` whenever `x` is negative
      (`-0` for `-0.5 < x < 0`). */
  function ToFixed0(x: real): string {
    if x < 0.0 then "-" + NatToString((-x + 0.5).Floor) else NatToString((x + 0.5).Floor)
  }

  /** `Number(s)` for a decimal integer string, None for NaN. */
  function NumberOf(s: string): Option<int> {
    if 2 <= |s| && s[0] == '-' && AllDigits(s[1..]) then Some(-(DigitsValue(s[1..]) as int))
    else if 1 <= |s| && AllDigits(s) then Some(DigitsValue(s))
    else None
  }

  /** Reading the text back gives the nearest integer to `x`, a tie going
      away from zero. */
  lemma ToFixed0Value(x: real)
    ensures NumberOf(ToFixed0(x)).Some?
    ensures var v := NumberOf(ToFixed0(x)).value as real;
      && (x >= 0.0 ==> x - 0.5 < v <= x + 0.5)
      && (x < 0.0 ==> x - 0.5 <= v < x + 0.5)
  {
    if x < 0.0 {
      var n := (-x + 0.5).Floor;
      var s := ToFixed0(x);
      assert s[1..] == NatToString(n);
      NatToStringRoundTrip(n);
    } else {
      NatToStringRoundTrip((x + 0.5).Floor);
    }
  }

  /** `(staticFrameOffset - searchCenter).toFixed(0)`; an undefined centre
      gives `NaN`. */
  function TotalOffset(staticOffset: int, center: Option<real>): string {
    if center.None? then "NaN" else ToFixed0(staticOffset as real - center.value)
  }

  /** `totalOffset > 0`, which compares the string as a number. */
  predicate IsPositive(totalOffset: string) {
    NumberOf(totalOffset).Some? && NumberOf(totalOffset).value > 0
  }

  /** The offset reads as positive exactly when the static offset is at
      least half a millisecond past the centre. */
  lemma PositiveOffset(staticOffset: int, center: Option<real>)
    ensures IsPositive(TotalOffset(staticOffset, center))
        <==> center.Some? && staticOffset as real - center.value >= 0.5
  {
    if center.Some? {
      ToFixed0Value(staticOffset as real - center.value);
    }
  }

  // ---------------------------------------------------------------------
  // Which video is static

  /** The roles `calcOffset` gives the two videos. */
  datatype Roles = Roles(video1IsLarger: bool, staticInput: string, rollingInput: string,
                         staticOffset: int, rollingOffset: int)

  function ChooseRoles(video1: string, video2: string, d1: Dims, d2: Dims, offset1: real, offset2: real): Roles {
    var video1IsLarger := d1.width >= d2.width;
    Roles(video1IsLarger,
          if video1IsLarger then video1 else video2,
          if video1IsLarger then video2 else video1,
          TruncTowardZero(if video1IsLarger then offset1 else offset2),
          TruncTowardZero(if video1IsLarger then offset2 else offset1))
  }

  /** The static video is at least as wide as the rolling one, and each
      video keeps its own offset, whichever role it takes. */
  lemma RolesConsistent(video1: string, video2: string, videoDims: string -> Dims, offset1: real, offset2: real)
    ensures var r := ChooseRoles(video1, video2, videoDims(video1), videoDims(video2), offset1, offset2);
      && videoDims(r.staticInput).width >= videoDims(r.rollingInput).width
      && {(r.staticInput, r.staticOffset), (r.rollingInput, r.rollingOffset)}
         == {(video1, TruncTowardZero(offset1)), (video2, TruncTowardZero(offset2))}
  {
  }

  /** The warning of `getVideoDimensions`: video 1 is wider but less tall. */
  predicate AspectWarning(d1: Dims, d2: Dims) {
    d1.width > d2.width && d1.height < d2.height
  }

  /** The warning only ever fires when video 1 is the static one; the
      opposite mismatch (video 2 wider but less tall) is not warned about. */
  lemma AspectWarningOneSided(d1: Dims, d2: Dims)
    ensures AspectWarning(d1, d2) ==> d1.width >= d2.width && !AspectWarning(d2, d1)
    ensures AspectWarning(d2, d1) ==> !AspectWarning(d1, d2)
  {
  }

  /** `getVideoDimensions(vid1, vid2)`: the frame sizes ffprobe reports for
      the first stream of each video, and whether the aspect-ratio warning
      is printed. */
  method GetVideoDimensions(vid1: string, vid2: string, videoDims: string -> Dims)
    returns (d1: Dims, d2: Dims, warned: bool)
    ensures d1 == videoDims(vid1) && d2 == videoDims(vid2)
    ensures warned <==> d1.width > d2.width && d1.height < d2.height
  {
    d1 := videoDims(vid1);
    d2 := videoDims(vid2);
    warned := d1.width > d2.width && d1.height < d2.height;
  }

  // ---------------------------------------------------------------------
  // One iteration

  datatype Options = Options(algorithm: string, searchWidth: real, searchResolution: int, iterations: int)

  /** The world `calcOffset` talks to: the frame size ffprobe reports for a
      video, which is also the size of the frames ffmpeg extracts from it;
      whether an ffmpeg call succeeds; the two scores; and the paths of the
      static and rolling temporary directories. */
  datatype Env = Env(videoDims: string -> Dims, ffmpeg: Extraction -> bool,
                     ssim: (Image, Image) -> real, pixelmatch: (Image, Image) -> nat,
                     staticDir: string, rollingDir: string)

  datatype CalcError =
    | FramesFailed(call: Extraction)  // an ffmpeg call failed; `exec` rejects
    | InvalidArrayLength              // `new Array(searchResolution)` with a negative length
    | NaNSeek                         // a window around an undefined centre: ffmpeg refuses `-ss NaN`
    | NoIterations                    // `closestMatch` is still `undefined` at line 99
    | UndefinedConfidence             // `closestMatch.value.toFixed(5)` with an `undefined` value

  /** The search centre and `closestMatch`; None stands for `undefined`. */
  datatype SearchState = SearchState(center: Option<real>, closest: Option<ClosestMatch>)

  /** Every recorded listing lists the window's file names. */
  ghost predicate FitListings(resolution: int, listings: seq<seq<string>>) {
    resolution >= 0 ==> forall i :: 0 <= i < |listings| ==> IsListing(listings[i], ScreenshotNames(resolution))
  }

  /** Iteration `iteration` from centre `center`, the rolling directory
      listing its files as `listing`. */
  function IterationStep(opts: Options, env: Env, rolling: string, input: Image,
                         center: Option<real>, iteration: nat, listing: seq<string>): Result<SearchState, CalcError>
    requires iteration >= 1
    requires opts.searchResolution >= 0 ==> IsListing(listing, ScreenshotNames(opts.searchResolution))
  {
    var resolution := opts.searchResolution;
    if resolution < 0 then Err(InvalidArrayLength)
    else if center.None? && resolution > 0 then Err(NaNSeek)
    else
      var offsets := Window(if center.Some? then center.value else 0.0, SearchWidth(opts.searchWidth, iteration), resolution);
      var calls := Calls(rolling, env.rollingDir, offsets);
      var failure := FirstFailure(calls, 0, env.ffmpeg);
      if failure.Some? then Err(FramesFailed(calls[failure.value]))
      else
        var files := FrameFiles(rolling, offsets, env.videoDims(rolling));
        FrameFilesNames(rolling, offsets, env.videoDims(rolling));
        var m := Closest(AlgorithmOf(opts.algorithm), input, listing, files, env.ssim, env.pixelmatch);
        Ok(SearchState(FindOffset(Exported(offsets), m.filename, 0), Some(m)))
  }

  /** The candidates of iteration `iteration` around `center`. */
  function IterationWindow(opts: Options, center: Option<real>, iteration: nat): (w: seq<real>)
    requires iteration >= 1 && opts.searchResolution >= 0
    ensures |w| == opts.searchResolution
  {
    Window(if center.Some? then center.value else 0.0, SearchWidth(opts.searchWidth, iteration), opts.searchResolution)
  }

  /** The SSIM scores of the files of an iteration, in listing order. */
  ghost function IterationScores(opts: Options, env: Env, rolling: string, input: Image,
                                 center: Option<real>, iteration: nat, listing: seq<string>): seq<real>
    requires iteration >= 1 && opts.searchResolution >= 0
    requires IsListing(listing, ScreenshotNames(opts.searchResolution))
  {
    var offsets := IterationWindow(opts, center, iteration);
    FrameFilesNames(rolling, offsets, env.videoDims(rolling));
    Scores(input, listing, FrameFiles(rolling, offsets, env.videoDims(rolling)), env.ssim)
  }

  /** The state a completed iteration produces from the match it kept. */
  lemma IterationStepOk(opts: Options, env: Env, rolling: string, input: Image,
                        center: Option<real>, iteration: nat, listing: seq<string>)
    requires iteration >= 1
    requires opts.searchResolution >= 0 ==> IsListing(listing, ScreenshotNames(opts.searchResolution))
    requires IterationStep(opts, env, rolling, input, center, iteration, listing).Ok?
    ensures opts.searchResolution >= 0
    ensures var offsets := IterationWindow(opts, center, iteration);
      var files := FrameFiles(rolling, offsets, env.videoDims(rolling));
      && files.Keys == ScreenshotNames(opts.searchResolution)
      && var m := Closest(AlgorithmOf(opts.algorithm), input, listing, files, env.ssim, env.pixelmatch);
         IterationStep(opts, env, rolling, input, center, iteration, listing)
         == Ok(SearchState(FindOffset(Exported(offsets), m.filename, 0), Some(m)))
  {
    FrameFilesNames(rolling, IterationWindow(opts, center, iteration), env.videoDims(rolling));
  }

  /** The centre after a match: the offset of the file kept, or `undefined`
      when none was. */
  lemma CenterOfMatch(offsets: seq<real>, listing: seq<string>, filename: Option<string>)
    requires IsListing(listing, ScreenshotNames(|offsets|))
    requires filename.Some? ==> filename.value in listing
    ensures filename.None? ==> FindOffset(Exported(offsets), filename, 0).None?
    ensures filename.Some? ==> exists k :: 0 <= k < |offsets| && filename.value == ScreenshotName(k)
                                         && FindOffset(Exported(offsets), filename, 0) == Some(offsets[k])
  {
    if filename.Some? {
      var k :| 0 <= k < |offsets| && filename.value == ScreenshotName(k);
      FindOffsetScreenshot(offsets, k);
    }
  }

  /** An iteration that completes keeps a match, and moves the centre to the
      offset of the frame it kept, or to `undefined` when it kept none. */
  lemma IterationMovesToWinner(opts: Options, env: Env, rolling: string, input: Image,
                               center: Option<real>, iteration: nat, listing: seq<string>)
    requires iteration >= 1
    requires opts.searchResolution >= 0 ==> IsListing(listing, ScreenshotNames(opts.searchResolution))
    requires IterationStep(opts, env, rolling, input, center, iteration, listing).Ok?
    ensures var st := IterationStep(opts, env, rolling, input, center, iteration, listing).value;
      var w := IterationWindow(opts, center, iteration);
      && st.closest.Some?
      && (st.closest.value.filename.None? ==> st.center.None?)
      && (st.closest.value.filename.Some? ==>
            exists k :: 0 <= k < |w| && st.closest.value.filename == Some(ScreenshotName(k)) && st.center == Some(w[k]))
  {
    IterationStepOk(opts, env, rolling, input, center, iteration, listing);
    var offsets := IterationWindow(opts, center, iteration);
    var files := FrameFiles(rolling, offsets, env.videoDims(rolling));
    var m := Closest(AlgorithmOf(opts.algorithm), input, listing, files, env.ssim, env.pixelmatch);
    if m.filename.Some? {
      ClosestFilenameListed(AlgorithmOf(opts.algorithm), input, listing, files, env.ssim, env.pixelmatch);
    }
    CenterOfMatch(offsets, listing, m.filename);
  }

  /** SSIM mode: an iteration loses its centre exactly when no score exceeds
      -1; otherwise the new centre is the offset of the first file, in
      listing order, with the greatest score. */
  lemma SsimIterationFollowsBest(opts: Options, env: Env, rolling: string, input: Image,
                                 center: Option<real>, iteration: nat, listing: seq<string>)
    requires iteration >= 1 && AlgorithmOf(opts.algorithm) == Ssim
    requires opts.searchResolution >= 0 ==> IsListing(listing, ScreenshotNames(opts.searchResolution))
    requires IterationStep(opts, env, rolling, input, center, iteration, listing).Ok?
    ensures var st := IterationStep(opts, env, rolling, input, center, iteration, listing).value;
      var s := IterationScores(opts, env, rolling, input, center, iteration, listing);
      st.center.None? <==> forall j :: 0 <= j < |s| ==> s[j] <= -1.0
    ensures var st := IterationStep(opts, env, rolling, input, center, iteration, listing).value;
      var w := IterationWindow(opts, center, iteration);
      var s := IterationScores(opts, env, rolling, input, center, iteration, listing);
      st.center.Some? ==> exists j: nat, k: nat :: && IsFirstMax(s, j) && k < |w|
                                               && listing[j] == ScreenshotName(k) && st.center == Some(w[k])
  {
    IterationStepOk(opts, env, rolling, input, center, iteration, listing);
    var offsets := IterationWindow(opts, center, iteration);
    var files := FrameFiles(rolling, offsets, env.videoDims(rolling));
    var m := Closest(Ssim, input, listing, files, env.ssim, env.pixelmatch);
    assert IterationStep(opts, env, rolling, input, center, iteration, listing)
        == Ok(SearchState(FindOffset(Exported(offsets), m.filename, 0), Some(m)));
    assert IterationScores(opts, env, rolling, input, center, iteration, listing) == Scores(input, listing, files, env.ssim);
    SsimCenter(input, listing, offsets, files, env.ssim, env.pixelmatch);
  }

  /** The SSIM half of `SsimIterationFollowsBest`, over the window's files. */
  lemma SsimCenter(input: Image, listing: seq<string>, offsets: seq<real>, files: map<string, Image>,
                   ssim: (Image, Image) -> real, pixelmatch: (Image, Image) -> nat)
    requires IsListing(listing, ScreenshotNames(|offsets|)) && files.Keys == ScreenshotNames(|offsets|)
    ensures var s := Scores(input, listing, files, ssim);
      var c := FindOffset(Exported(offsets), Closest(Ssim, input, listing, files, ssim, pixelmatch).filename, 0);
      && (c.None? <==> forall j :: 0 <= j < |s| ==> s[j] <= -1.0)
      && (c.Some? ==> exists j: nat, k: nat :: && IsFirstMax(s, j) && k < |offsets|
                                             && listing[j] == ScreenshotName(k) && c == Some(offsets[k]))
  {
    var m := Closest(Ssim, input, listing, files, ssim, pixelmatch);
    var s := Scores(input, listing, files, ssim);
    SsimClosestIsFirstMax(input, listing, files, ssim, pixelmatch);
    if m.filename.Some? {
      ClosestFilenameListed(Ssim, input, listing, files, ssim, pixelmatch);
    }
    CenterOfMatch(offsets, listing, m.filename);
    if m.filename.Some? {
      var j: nat :| IsFirstMax(s, j) && m.filename == Some(listing[j]);
      var k :| 0 <= k < |offsets| && m.filename.value == ScreenshotName(k)
               && FindOffset(Exported(offsets), m.filename, 0) == Some(offsets[k]);
      assert listing[j] == ScreenshotName(k);
    }
  }

  /** The window's names in index order, a listing the file system may give. */
  lemma InOrderListing(resolution: nat)
    ensures IsListing(seq(resolution, k requires 0 <= k => ScreenshotName(k)), ScreenshotNames(resolution))
  {
    var s := seq(resolution, k requires 0 <= k => ScreenshotName(k));
    forall n | n in ScreenshotNames(resolution)
      ensures n in s
    {
      var k :| 0 <= k < resolution && n == ScreenshotName(k);
      assert s[k] == n;
    }
    forall i, j | 0 <= i < j < resolution
      ensures s[i] != s[j]
    {
      if s[i] == s[j] {
        ScreenshotNameInjective(i, j);
      }
    }
  }

  /** A listing for an iteration that stopped before listing the directory. */
  function AnyListing(resolution: int): (listing: seq<string>)
    ensures resolution >= 0 ==> IsListing(listing, ScreenshotNames(resolution))
  {
    if resolution < 0 then [] else InOrderListing(resolution); seq(resolution, k requires 0 <= k => ScreenshotName(k))
  }

  /** One turn of the loop of `calcOffset`. */
  method SearchIteration(opts: Options, env: Env, rollingDir: FrameDir, rolling: string, input: Image,
                         center: Option<real>, iteration: nat)
    returns (r: Result<SearchState, CalcError>, ghost listing: seq<string>)
    requires iteration >= 1 && rollingDir.path == env.rollingDir
    modifies rollingDir
    ensures opts.searchResolution >= 0 ==> IsListing(listing, ScreenshotNames(opts.searchResolution))
    ensures r == IterationStep(opts, env, rolling, input, center, iteration, listing)
  {
    var searchWidth := opts.searchWidth / iteration as real;
    var searchResolution := opts.searchResolution;
    listing := AnyListing(searchResolution);
    if searchResolution < 0 {
      return Err(InvalidArrayLength), listing;
    }
    if center.None? && searchResolution > 0 {
      return Err(NaNSeek), listing;
    }
    // with no candidate the centre is never read
    var searchCenter := if center.Some? then center.value else 0.0;
    var offsets := [];
    if searchResolution > 0 {
      offsets := Generate(TruncTowardZero(searchCenter - searchWidth * 1000.0 / 2.0) as real,
                          searchWidth * 1000.0 / searchResolution as real, searchResolution);
    }
    assert offsets == Window(searchCenter, SearchWidth(opts.searchWidth, iteration), searchResolution);
    var exportedFrames, calls := Extract(rolling, rollingDir, offsets, env.videoDims(rolling), env.ffmpeg);
    if exportedFrames.Err? {
      return Err(FramesFailed(exportedFrames.error.call)), listing;
    }
    var closestMatch, files, compared := FindClosestFrame(input, rollingDir, opts.algorithm, env.ssim, env.pixelmatch);
    FrameFilesNames(rolling, offsets, env.videoDims(rolling));
    assert offsets[..|offsets|] == offsets;
    listing := files;
    var closestOffset := FindOffset(exportedFrames.value, closestMatch.filename, 0);
    r := Ok(SearchState(closestOffset, Some(closestMatch)));
  }

  // ---------------------------------------------------------------------
  // The whole search

  /** The state after the iterations whose listings are `listings`. */
  function Run(opts: Options, env: Env, rolling: string, input: Image, rollingOffset: int,
               listings: seq<seq<string>>): Result<SearchState, CalcError>
    requires FitListings(opts.searchResolution, listings)
    decreases |listings|
  {
    if |listings| == 0 then Ok(SearchState(Some(rollingOffset as real), None))
    else
      var n := |listings| - 1;
      var before := Run(opts, env, rolling, input, rollingOffset, listings[..n]);
      if before.Err? then before
      else IterationStep(opts, env, rolling, input, before.value.center, n + 1, listings[n])
  }

  /** Once an iteration has thrown, later listings change nothing. */
  lemma {:induction false} RunErrStays(opts: Options, env: Env, rolling: string, input: Image, rollingOffset: int,
                                       listings: seq<seq<string>>, extra: seq<seq<string>>)
    requires FitListings(opts.searchResolution, listings + extra)
    requires FitListings(opts.searchResolution, listings)
    requires Run(opts, env, rolling, input, rollingOffset, listings).Err?
    ensures Run(opts, env, rolling, input, rollingOffset, listings + extra)
         == Run(opts, env, rolling, input, rollingOffset, listings)
    decreases |extra|
  {
    if |extra| > 0 {
      var n := |extra| - 1;
      assert (listings + extra)[..|listings| + n] == listings + extra[..n];
      RunErrStays(opts, env, rolling, input, rollingOffset, listings, extra[..n]);
    } else {
      assert listings + extra == listings;
    }
  }

  /** The listings of an interrupted search completed to `count`, for the
      iterations that never ran. */
  ghost function ErrPadded(opts: Options, env: Env, rolling: string, input: Image, rollingOffset: int,
                           listings: seq<seq<string>>, count: nat): (padded: seq<seq<string>>)
    requires |listings| <= count && FitListings(opts.searchResolution, listings)
    requires Run(opts, env, rolling, input, rollingOffset, listings).Err?
    ensures |padded| == count && FitListings(opts.searchResolution, padded)
    ensures Run(opts, env, rolling, input, rollingOffset, padded) == Run(opts, env, rolling, input, rollingOffset, listings)
  {
    var extra := seq(count - |listings|, i => AnyListing(opts.searchResolution));
    RunErrStays(opts, env, rolling, input, rollingOffset, listings, extra);
    listings + extra
  }

  /** What `calcOffset` returns (`videoOffset`, the confidence before
      formatting, and whether video 2 is reported ahead). */
  datatype CalcResult = CalcResult(videoOffset: string, confidence: JsValue, ahead: bool)

  /** The picture the search compares with: the static frame, resized to
      video 2's size whichever video is static. */
  function StaticImage(roles: Roles, d2: Dims): Image {
    Image(Frame(roles.staticInput, roles.staticOffset as real), None, d2)
  }

  /** `calcOffset(video1, video2, offset1, offset2, options)`, the rolling
      directory listing its files as `listings` in successive iterations. */
  function Outcome(video1: string, video2: string, offset1: real, offset2: real, opts: Options, env: Env,
                   listings: seq<seq<string>>): Result<CalcResult, CalcError>
    requires FitListings(opts.searchResolution, listings)
  {
    var d1 := env.videoDims(video1);
    var d2 := env.videoDims(video2);
    var roles := ChooseRoles(video1, video2, d1, d2, offset1, offset2);
    var staticCall := ExtractionFor(roles.staticInput, env.staticDir, roles.staticOffset as real, 0);
    if !env.ffmpeg(staticCall) then Err(FramesFailed(staticCall))
    else
      var s := Run(opts, env, roles.rollingInput, StaticImage(roles, d2), roles.rollingOffset, listings);
      if s.Err? then Err(s.error)
      else if s.value.closest.None? then Err(NoIterations)
      else
        var m := s.value.closest.value;
        var totalOffset := TotalOffset(roles.staticOffset, s.value.center);
        if m.value.Undefined? then Err(UndefinedConfidence)
        else Ok(CalcResult(totalOffset, m.value, roles.video1IsLarger && IsPositive(totalOffset)))
  }

  /** The last iteration of a search that completed: its starting centre,
      and the state it produced. */
  lemma {:induction false} RunLast(opts: Options, env: Env, rolling: string, input: Image, rollingOffset: int,
                                   listings: seq<seq<string>>)
    requires FitListings(opts.searchResolution, listings) && |listings| >= 1
    requires Run(opts, env, rolling, input, rollingOffset, listings).Ok?
    ensures var n := |listings| - 1;
      && FitListings(opts.searchResolution, listings[..n])
      && Run(opts, env, rolling, input, rollingOffset, listings[..n]).Ok?
      && Run(opts, env, rolling, input, rollingOffset, listings)
         == IterationStep(opts, env, rolling, input, Run(opts, env, rolling, input, rollingOffset, listings[..n]).value.center,
                          n + 1, listings[n])
  {
  }

  /** Without an iteration no match is kept, and `calcOffset` throws. */
  lemma OutcomeNeedsIteration(video1: string, video2: string, offset1: real, offset2: real, opts: Options, env: Env,
                              listings: seq<seq<string>>)
    requires FitListings(opts.searchResolution, listings)
    requires |listings| == 0
    ensures Outcome(video1, video2, offset1, offset2, opts, env, listings).Err?
  {
  }

  /** Mismatched-pixels mode with at least one candidate per window never
      returns: the match kept is the first file listed, whose value is
      `undefined`, and formatting it throws. */
  lemma PixelsNeverResolve(video1: string, video2: string, offset1: real, offset2: real, opts: Options, env: Env,
                           listings: seq<seq<string>>)
    requires FitListings(opts.searchResolution, listings)
    requires AlgorithmOf(opts.algorithm) == MismatchedPixels && opts.searchResolution >= 1
    ensures Outcome(video1, video2, offset1, offset2, opts, env, listings).Err?
  {
    var d2 := env.videoDims(video2);
    var roles := ChooseRoles(video1, video2, env.videoDims(video1), d2, offset1, offset2);
    var input := StaticImage(roles, d2);
    var rolling := roles.rollingInput;
    if |listings| >= 1 && Run(opts, env, rolling, input, roles.rollingOffset, listings).Ok? {
      var n := |listings| - 1;
      RunLast(opts, env, rolling, input, roles.rollingOffset, listings);
      var center := Run(opts, env, rolling, input, roles.rollingOffset, listings[..n]).value.center;
      var offsets := IterationWindow(opts, center, n + 1);
      var files := FrameFiles(rolling, offsets, env.videoDims(rolling));
      FrameFilesNames(rolling, offsets, env.videoDims(rolling));
      assert ScreenshotName(0) in ScreenshotNames(opts.searchResolution);
      PixelsClosestIsFirstFile(input, listings[n], files, env.ssim, env.pixelmatch);
    }
  }

  /** An unknown algorithm keeps no match in any iteration, so a search
      that returns reports an offset of `NaN` with confidence `Infinity`. */
  lemma UnknownAlgorithmResult(video1: string, video2: string, offset1: real, offset2: real, opts: Options, env: Env,
                               listings: seq<seq<string>>)
    requires FitListings(opts.searchResolution, listings)
    requires AlgorithmOf(opts.algorithm).Unknown?
    requires Outcome(video1, video2, offset1, offset2, opts, env, listings).Ok?
    ensures Outcome(video1, video2, offset1, offset2, opts, env, listings).value == CalcResult("NaN", Infinity, false)
  {
    var d2 := env.videoDims(video2);
    var roles := ChooseRoles(video1, video2, env.videoDims(video1), d2, offset1, offset2);
    var input := StaticImage(roles, d2);
    var rolling := roles.rollingInput;
    var n := |listings| - 1;
    RunLast(opts, env, rolling, input, roles.rollingOffset, listings);
    var center := Run(opts, env, rolling, input, roles.rollingOffset, listings[..n]).value.center;
    var offsets := IterationWindow(opts, center, n + 1);
    var files := FrameFiles(rolling, offsets, env.videoDims(rolling));
    FrameFilesNames(rolling, offsets, env.videoDims(rolling));
    UnknownClosestIsInitial(AlgorithmOf(opts.algorithm).name, input, listings[n], files, env.ssim, env.pixelmatch);
    assert !IsDigit('N');
  }

  /** With no candidate per window no frame is compared: a search that
      returns reports `NaN` with the initial value of `closestMatch`. */
  lemma ZeroResolutionResult(video1: string, video2: string, offset1: real, offset2: real, opts: Options, env: Env,
                             listings: seq<seq<string>>)
    requires FitListings(opts.searchResolution, listings)
    requires opts.searchResolution == 0
    requires Outcome(video1, video2, offset1, offset2, opts, env, listings).Ok?
    ensures Outcome(video1, video2, offset1, offset2, opts, env, listings).value
         == CalcResult("NaN", InitialMatch(AlgorithmOf(opts.algorithm)).value, false)
  {
    var d2 := env.videoDims(video2);
    var roles := ChooseRoles(video1, video2, env.videoDims(video1), d2, offset1, offset2);
    var input := StaticImage(roles, d2);
    var rolling := roles.rollingInput;
    var n := |listings| - 1;
    RunLast(opts, env, rolling, input, roles.rollingOffset, listings);
    ListingSize(listings[n], ScreenshotNames(0));
    assert !IsDigit('N');
  }

  /** Lines 41-59 of util/calc-offset.js: extract the static frame into a
      fresh directory, resize it to video 2's size and read it back. */
  method StaticFrame(roles: Roles, d2: Dims, env: Env) returns (r: Result<Image, CalcError>)
    ensures var call := ExtractionFor(roles.staticInput, env.staticDir, roles.staticOffset as real, 0);
      && (r.Ok? <==> env.ffmpeg(call))
      && (r.Err? ==> r.error == FramesFailed(call))
      && (r.Ok? ==> r.value == StaticImage(roles, d2))
  {
    var staticFrameDir := new FrameDir(env.staticDir);
    var offsets := [roles.staticOffset as real];
    CallsAt(roles.staticInput, env.staticDir, offsets, 0);
    var staticFrames, staticCalls := Extract(roles.staticInput, staticFrameDir, offsets,
                                             env.videoDims(roles.staticInput), env.ffmpeg);
    if staticFrames.Err? {
      return Err(FramesFailed(staticFrames.error.call));
    }
    ExportedAt(offsets, 0);
    var staticFrame := staticFrames.value[0];
    // the static frame is resized to video 2's size, whichever video it comes from
    staticFrameDir.Write(staticFrame.filename, Image(Frame(roles.staticInput, roles.staticOffset as real), None, d2));
    r := Ok(staticFrameDir.files[staticFrame.filename]);
  }

  /** The loop of lines 64-96 of util/calc-offset.js, from the rolling
      video's own offset. `listings` records the order in which the rolling
      directory listed its files in each iteration, completed with index
      order for the iterations a throw cut short: one per iteration. */
  method SearchLoop(opts: Options, env: Env, rolling: string, input: Image, rollingOffset: int)
    returns (s: Result<SearchState, CalcError>, ghost listings: seq<seq<string>>)
    ensures FitListings(opts.searchResolution, listings)
    ensures |listings| == if opts.iterations < 1 then 0 else opts.iterations
    ensures s == Run(opts, env, rolling, input, rollingOffset, listings)
  {
    var count := if opts.iterations < 1 then 0 else opts.iterations;
    var rollingFramesDir := new FrameDir(env.rollingDir);
    var searchCenter: Option<real> := Some(rollingOffset as real);
    var closestMatch: Option<ClosestMatch> := None;
    listings := [];
    var iteration := 1;
    while iteration <= opts.iterations
      invariant 1 <= iteration <= count + 1 && |listings| == iteration - 1
      invariant rollingFramesDir.path == env.rollingDir
      invariant FitListings(opts.searchResolution, listings)
      invariant Run(opts, env, rolling, input, rollingOffset, listings) == Ok(SearchState(searchCenter, closestMatch))
      decreases opts.iterations - iteration
    {
      var step, listing := SearchIteration(opts, env, rollingFramesDir, rolling, input, searchCenter, iteration);
      assert (listings + [listing])[..|listings|] == listings;
      listings := listings + [listing];
      if step.Err? {
        listings := ErrPadded(opts, env, rolling, input, rollingOffset, listings, count);
        return step, listings;
      }
      searchCenter := step.value.center;
      closestMatch := step.value.closest;
      iteration := iteration + 1;
    }
    s := Ok(SearchState(searchCenter, closestMatch));
  }

  /** `calcOffset(video1Path, video2Path, offset1, offset2, options)`. The
      rolling directory lists its files in iteration i as `listings[i]`. */
  method CalcOffsetSearch(video1: string, video2: string, offset1: real, offset2: real, opts: Options, env: Env)
    returns (r: Result<CalcResult, CalcError>, ghost listings: seq<seq<string>>)
    ensures FitListings(opts.searchResolution, listings)
    ensures |listings| == if opts.iterations < 1 then 0 else opts.iterations
    ensures r == Outcome(video1, video2, offset1, offset2, opts, env, listings)
  {
    var count := if opts.iterations < 1 then 0 else opts.iterations;
    listings := seq(count, i => AnyListing(opts.searchResolution));
    var d1, d2, warned := GetVideoDimensions(video1, video2, env.videoDims);
    var roles := ChooseRoles(video1, video2, d1, d2, offset1, offset2);
    var input := StaticFrame(roles, d2, env);
    if input.Err? {
      return Err(input.error), listings;
    }
    var search;
    search, listings := SearchLoop(opts, env, roles.rollingInput, input.value, roles.rollingOffset);
    if search.Err? {
      return Err(search.error), listings;
    }
    var searchCenter, closestMatch := search.value.center, search.value.closest;
    if closestMatch.None? {
      return Err(NoIterations), listings;
    }
    var totalOffset := TotalOffset(roles.staticOffset, searchCenter);
    if closestMatch.value.value.Undefined? {
      return Err(UndefinedConfidence), listings;
    }
    r := Ok(CalcResult(totalOffset, closestMatch.value.value, roles.video1IsLarger && IsPositive(totalOffset)));
  }
}
