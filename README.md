# video-sync, modelled in Dafny

video-sync finds the time offset between two copies of a video and then
muxes tracks of one into the other. This project models the logic of its
`util/` modules in Dafny 4.11 and proves properties of that model:

- **Scene-change scanner** (`scene_change.dfy`, util/find-offset-new.js). It walks
  through a video with a coarse 1000 ms step. On the first large
  difference between samples it backs up once and continues with a 25 ms
  step. It also has the crop-value parse of cropdetect output and
  `calculateOffset`'s matching rule and offset formula.
- **Frame extraction** (`extract_frames.dfy`, util/extract-frames.js). The
  output directory is a class whose file map changes in place. One
  `screenshot_<i>.bmp` is written per offset, and the offset→file-name
  records are returned.
- **Closest-frame fold** (`closest_frame.dfy`, util/find-closest-frame.js,
  with the shared strict-maximum fold in `selection.dfy`). Both the SSIM
  and the mismatched-pixels modes are modelled, including how JavaScript
  compares `undefined` and `Infinity` (`JsValue` in `base.dfy`).
- **Iterative narrowing search** (`calc_offset.dfy`, util/calc-offset.js).
  This covers the offset generator, the choice of static and rolling
  video, the shrinking window and the re-centring on the winning file. It
  also covers the `toFixed(0)` result, the "ahead" rule and the
  aspect-ratio warning.
- **Offset validator** (`warping.dfy`, util/warping.js). It runs a
  brute-force local search at 10% and 80% of the destination and accepts
  the offset when the two local bests are at most 250 ms apart.
- **Track bookkeeping** (`tracks.dfy`, util/tracks.js). This covers:
  - the type filters;
  - the rename, track-order and restore flag strings;
  - an `Edit` model of what the mkvpropedit flags do to track names;
  - the loop that matches every index back to an ffprobe stream and an
    mkvmerge track;
  - the whole `matchTracksAndStreams` call, including its effects and
    error paths.
- **Identify parser and merge rule** (`merge_tracks.dfy`,
  util/merge-tracks.js). The parser follows the `Track ID (\d): ...`
  expression exactly. The model also covers the `data` and `close`
  handlers and the exit-code handling.

`text.dfy` holds the string operations the code relies on: decimal
rendering, `split`, `join` and concatenation.

Foreign tools and I/O are parameters of the model:

| tool or I/O | modelled as |
|---|---|
| ffmpeg frame extraction and reading the BMP back | whether each extraction succeeds: a flag per call, or a predicate on frames |
| the crop value cropdetect reports | a function parameter, None also when the cropdetect run fails |
| ffprobe sizes and durations | function parameters |
| SSIM and pixelmatch scores | uninterpreted functions |
| mkvmerge `-J` and ffprobe output | `MkvInfo`/`Stream` values |
| exit codes | `Option<int>` (None is a kill by signal) |
| directory order | a ghost listing that the proofs quantify over |

Nothing in the model is executed; all claims are proofs.

## Model

| member | source | states |
|---|---|---|
| SceneChange.ScanLoop | util/find-offset-new.js:47-105 | The loop's result, and the list of cursors it samples, are those of the two-speed scan `Scan`/`Trace` started coarse at the start offset. A frame that cannot be extracted ends the scan with that frame's offset. |
| SceneChange.FindNextSceneChange | util/find-offset-new.js:16-110 | Without a crop value the call fails before any frame is sampled. Otherwise it samples the start frame and fails on it when it cannot be extracted. Otherwise it runs the two-speed scan. |
| SceneChange.ScanTraceInWindow | util/find-offset-new.js:18-101 | The first sample after the start is start+1000. Every sampled cursor lies strictly between start and end. The cursors are coarse steps followed by fine steps, with at most one switch. |
| SceneChange.SceneScanFound | util/find-offset-new.js:73-101 | A returned cut has start ≤ pre < post < end and post = pre + 25. Its delta is the one measured between the two frames, and it exceeds 0.5. It is the first fine-step hit after the first coarse-step hit, and every frame sampled before it was extracted. |
| SceneChange.SceneScanNotFound | util/find-offset-new.js:51-105 | "No scene change" happens only when a crop value was found and every sampled frame was extracted. Then either no coarse step hits, or no fine step after the first coarse hit does. |
| SceneChange.ScanFailsAtUnreadable | util/find-offset-new.js:51-62 | The scan fails on a frame exactly when one of the frames it samples cannot be extracted. It then fails on the last one sampled, and every earlier one was extracted. |
| SceneChange.SceneScanFailed | util/find-offset-new.js:28-62 | The same holds for the whole call, start frame included. |
| SceneChange.CropValueLeftmost | util/find-offset-new.js:29 | The crop value is absent exactly when the fourth-from-last stderr line has no `crop=W:H:X:Y` match. Otherwise it is the capture of the leftmost match. |
| SceneChange.CropAtExact | util/find-offset-new.js:29 | The matcher finds a span at a position exactly when the text there is `crop=` followed by four colon-separated digit runs. |
| SceneChange.CropCaptureFields | util/find-offset-new.js:29 | The captured text is `W:H:X:Y` built from four non-empty digit fields. |
| SceneChange.MatchingSceneBounds | util/find-offset-new.js:147-150 | The matching rule demands similarities above 0.6 and a delta gap below 0.1. It is symmetric in the two deltas. |
| SceneChange.CalculateOffset | util/find-offset-new.js:115-157 | The method returns the outcome of scanning video 1 from half its duration for 60 s, then video 2 from pre1−75 for 5 s. The first scan error is the error. The offset is pre1−pre2 when the scenes match, and `false` otherwise. |
| SceneChange.OffsetOutcomeBounds | util/find-offset-new.js:119-152 | A returned offset d satisfies −5000+100 < d ≤ 75: video 2's cut starts no earlier than its window, and its later frame lies inside it. |
| Text.NatToStringRoundTrip | util/extract-frames.js:18 | Reading back the decimal rendering of a number gives the number. |
| Text.IntToStringInjective | util/tracks.js:58-59 | Distinct integers render as distinct strings. |
| Text.SplitJoin | util/merge-tracks.js:16 | Joining the pieces of a split with the separator gives the text back. |
| Text.SplitAround | util/merge-tracks.js:16 | Splitting `a + sep + b` gives the pieces of `a` followed by those of `b`. |
| Selection.ScanBestIsFirstMax | util/find-closest-frame.js:53-68 | The strict-greater fold keeps nothing exactly when no score exceeds the initial value. Otherwise it keeps the first index of the maximum score. |
| Selection.ScanBestMonotone | util/find-closest-frame.js:63-68 | The stored best value never decreases along the scan. |
| ExtractFrames.ListingSize | util/extract-frames.js:6 | A duplicate-free listing of a directory has one name per file. |
| ExtractFrames.FrameDir.ListFiles | util/extract-frames.js:6 | The listing names every regular file of the directory exactly once. |
| ExtractFrames.FrameDir.RemoveFiles | util/extract-frames.js:6-9 | Every regular file is removed. Other entries are untouched. |
| ExtractFrames.ScreenshotNameInjective | util/extract-frames.js:18 | Distinct indices give distinct file names. |
| ExtractFrames.CallsAt | util/extract-frames.js:21-24 | The k-th ffmpeg call seeks to offsets[k]/1000 s and writes `<dir>/screenshot_k.bmp`. |
| ExtractFrames.ExportedAt | util/extract-frames.js:14-25 | Record k holds offsets[k] and `screenshot_k.bmp`. |
| ExtractFrames.FrameFilesNames | util/extract-frames.js:6-25 | After a complete run the directory's files are exactly the returned file names. |
| ExtractFrames.FrameFilesAt | util/extract-frames.js:22-24 | The file `screenshot_k.bmp` holds the frame at offsets[k]. |
| ExtractFrames.FirstFailure | util/extract-frames.js:24 | It returns the first ffmpeg call that fails, if any, and every call before it succeeds. |
| ExtractFrames.Extract | util/extract-frames.js:4-33 | The directory is cleared first. The extractions then run in order up to the first failure, which is the error. The files written are exactly the frames extracted so far, and on success one record per offset is returned, in order. |
| ClosestFrame.Compared | util/find-closest-frame.js:35-42 | Every compared picture has the input's size. A picture of that size is compared unchanged. |
| ClosestFrame.FindClosestFrame | util/find-closest-frame.js:14-91 | The method returns the fold over the directory listing, which names every regular file once, and every comparison is between equal-sized pictures. |
| ClosestFrame.ClosestIsScanBest | util/find-closest-frame.js:53-68 | SSIM mode is the strict-greater fold over the scores, starting at −1. |
| ClosestFrame.SsimClosestIsFirstMax | util/find-closest-frame.js:26-68 | SSIM mode keeps no file exactly when no score exceeds −1. Otherwise it keeps the first listed file with the maximum score, stored with that score. |
| ClosestFrame.PixelsClosestIsFirstFile | util/find-closest-frame.js:55-78 | Pixel mode returns the first listed file with an `undefined` value, or `{undefined, Infinity}` for an empty directory. |
| ClosestFrame.UnknownClosestIsInitial | util/find-closest-frame.js:26-82 | An unknown algorithm always returns `{undefined, Infinity}`, and the throw is unreachable. |
| ClosestFrame.ClosestFilenameListed | util/find-closest-frame.js:31-77 | A returned file name is one of the listed files. |
| CalcOffset.OffsetGenerator.Next | util/calc-offset.js:11-19 | The k-th value yielded is start + k·step. |
| CalcOffset.Generate | util/calc-offset.js:74-75 | The offsets are the first `count` values of the generator. |
| CalcOffset.WindowCandidate | util/calc-offset.js:67-75 | Candidate k is the truncated window start plus k·(width·1000/resolution). It lies within half a window (±1 ms) of the centre. |
| CalcOffset.WidthShrinks | util/calc-offset.js:63-67 | With a positive search width, the window width strictly decreases from one iteration to the next. |
| CalcOffset.FindOffsetScreenshot | util/calc-offset.js:89 | Looking up `screenshot_k.bmp` among the exported records gives offsets[k]. |
| CalcOffset.ToFixed0Value | util/calc-offset.js:98 | The `toFixed(0)` text reads back as the nearest integer, with ties away from zero. |
| CalcOffset.PositiveOffset | util/calc-offset.js:98-102 | The total offset reads as positive exactly when the static offset exceeds the final centre by at least 0.5 ms. |
| CalcOffset.RolesConsistent | util/calc-offset.js:38-44 | The static video is at least as wide as the rolling one, ties going to video 1. Each video keeps its own truncated offset. |
| CalcOffset.AspectWarningOneSided | util/calc-offset.js:122-124 | The warning fires only when video 1 is the static one, and never for both orders. |
| CalcOffset.GetVideoDimensions | util/calc-offset.js:111-137 | The method returns the two sizes, and warns exactly when w1 > w2 and h1 < h2. |
| CalcOffset.IterationStepOk | util/calc-offset.js:63-91 | A successful iteration extracts exactly the window's files, and the new centre is the offset of the winning file. |
| CalcOffset.CenterOfMatch | util/calc-offset.js:89-91 | The new centre is absent when no file won. Otherwise it is the offset of the window candidate whose file won. |
| CalcOffset.IterationMovesToWinner | util/calc-offset.js:85-91 | After an iteration a match is kept, and the centre is the window candidate of the winning file. |
| CalcOffset.SsimIterationFollowsBest | util/calc-offset.js:85-91 | In SSIM mode the centre moves to the candidate of the first listed file with the maximum score, and is lost exactly when no score exceeds −1. |
| CalcOffset.SsimCenter | util/calc-offset.js:85-91 | This is the same rule for one window of exported frames. |
| CalcOffset.AnyListing | util/calc-offset.js:85 | Some order of listing the window's files always exists. |
| CalcOffset.RunErrStays | util/calc-offset.js:63-93 | Once an iteration fails, further iterations change nothing. |
| CalcOffset.SearchIteration | util/calc-offset.js:63-91 | One iteration of the loop, equal to its specification. |
| CalcOffset.SearchLoop | util/calc-offset.js:60-93 | The method runs exactly `iterations` iterations and gives the state of the specification `Run`. |
| CalcOffset.StaticFrame | util/calc-offset.js:46-58 | The static frame is extracted at the static offset and resized to video 2's size, or the extraction error is returned. |
| CalcOffset.CalcOffsetSearch | util/calc-offset.js:23-109 | The whole call equals `Outcome`. |
| CalcOffset.OutcomeNeedsIteration | util/calc-offset.js:63-106 | Without an iteration `closestMatch` is undefined and the call throws. |
| CalcOffset.PixelsNeverResolve | util/calc-offset.js:102-106 | In pixel mode with at least one candidate, the kept value is `undefined` and formatting it throws. |
| CalcOffset.UnknownAlgorithmResult | util/calc-offset.js:89-106 | An unknown algorithm yields offset `NaN` with confidence `Infinity`, reported as not ahead. |
| CalcOffset.ZeroResolutionResult | util/calc-offset.js:61-106 | A resolution of 0 yields offset `NaN` with the initial `closestMatch` value. |
| Warping.CandidatesBound | util/warping.js:51 | lo + k·step is a candidate exactly when it is ≤ hi. It is then the k-th candidate. |
| Warping.TestCandidateCount | util/warping.js:116-121 | Radius 500 with step 50 gives 21 candidates, from offset−500 to offset+500. |
| Warping.ComparedSource | util/warping.js:53-76 | The source frame for candidate c is taken at destinationTimestamp + c with the source crop. It is resized to the destination's size. |
| Warping.ResizeTestAlwaysTrue | util/warping.js:37-62 | The size test on the wrapper object is always true and the area test always false, so the source frame is always the one resized. |
| Warping.SearchIsScanBest | util/warping.js:45-86 | The search is the strict-greater fold over the similarities, starting at −1. |
| Warping.SearchIsFirstMax | util/warping.js:45-86 | The result is the first candidate with the strictly greatest similarity. It is `{0, −1}` when no similarity exceeds −1. |
| Warping.FirstUnreadable | util/warping.js:51-56 | It returns the first candidate whose source frame cannot be extracted, and every candidate before it can be. It returns nothing exactly when every candidate's frame can be. |
| Warping.ScanCandidates | util/warping.js:45-88 | The loop fails on the source frame of the first candidate that cannot be extracted. Otherwise it computes the search over the candidate list. |
| Warping.FindClosestFrame | util/warping.js:10-98 | The method equals the local search: detect both crops, extract the destination frame, then scan the candidates. |
| Warping.LocalSearchFrames | util/warping.js:43-112 | Once both crops are found, the search fails exactly when the destination frame or a candidate's source frame cannot be extracted. It fails on the destination frame first, then on the first such candidate. On success it is the search over every candidate. |
| Warping.CheckTolerance | util/warping.js:137-142 | The result is valid exactly when max − min of the offsets is ≤ 250. |
| Warping.TwoProbeTolerance | util/warping.js:137-142 | Two offsets are within tolerance exactly when they differ by at most 250. |
| Warping.RestStaysErr | util/warping.js:127-133 | A failing probe ends the validation with its error. |
| Warping.ValidationRule | util/warping.js:116-142 | The method probes round(0.1·L), then round(0.8·L), with radius 500 and step 50, and fails with the first error. Otherwise it returns whether the two best offsets are at most 250 apart. |
| Warping.ValidateOffset | util/warping.js:114-144 | The method equals `Validation`. |
| Tracks.GetTrackType | util/tracks.js:257-269 | `audio` gives `audio`, `subtitles` gives `subs`, and every other type gives undefined. |
| Tracks.OfTypeMembers | util/tracks.js:27-29 | A track is in the filtered list exactly when it is in the list and has the type. |
| Tracks.OfTypeAppend | util/tracks.js:27-29 | The filter distributes over concatenation, so it keeps the order. |
| Tracks.TracksToMatchTyped | util/tracks.js:27-48 | The tracks to match are exactly the audio and subtitle tracks. The audio tracks come first. |
| Tracks.ApplyPerType | util/tracks.js:99-154 | Edits of one type set the names at their positions and leave all other names unchanged. |
| Tracks.BuildRenameFlags | util/tracks.js:99-105 | The two rename strings, with the shared `highestGivenId` counter, are the flags of the edits: audio track j+1 is named j, and subtitle track j+1 is named |audio|+j. |
| Tracks.RenameNamesByIndex | util/tracks.js:99-105 | After the in-place rename, track k of the tracks to match is named `String(k)`. |
| Tracks.RenamedNamesDistinct | util/tracks.js:99-105 | Distinct tracks to match get distinct names. |
| Tracks.OldNames | util/tracks.js:32-45 | The remembered names are, per track, its id and its `track_name`. |
| Tracks.RestoreEdits | util/tracks.js:149-154 | Restore edit j targets the same per-type position as the rename. It deletes the name when none was saved, and sets it otherwise. |
| Tracks.RestoreUndoesRename | util/tracks.js:99-154 | Renaming and then restoring leaves every track name as it was. |
| Tracks.RestoringCommand | util/tracks.js:149-163 | The restore command is mkvpropedit on the matched file, with the restore edits of both types, deleting names that were absent. |
| Tracks.TrackNameFlagsWords | util/tracks.js:58 | Split at spaces, the conversion's name flags are `--track-name <id>:<i>` for each index i of the tracks to match. |
| Tracks.TrackOrderPieces | util/tracks.js:59 | The track-order list is empty for no tracks. Otherwise it splits at commas into `0:<id>` for every track, video included, in order. |
| Tracks.FirstTitled | util/tracks.js:172 | The lookup stops at the first stream that either has no tags, where reading the title throws, or has the title. Every earlier stream has tags and another title. It finds nothing exactly when every stream has tags and none has the title. |
| Tracks.FirstNamed | util/tracks.js:180 | It returns the index of the first track with that name, or nothing when no track has it. |
| Tracks.MatchingsFindEveryIndex | util/tracks.js:167-202 | Matching resolves exactly when every index has a titled stream and a named track. The result then has one entry per index, with the ids shifted by the track offset. |
| Tracks.MatchingsRejection | util/tracks.js:169-184 | The loop stops at the first index that is not found, all earlier ones being found. It rejects when no stream, or else no track, has that index. It throws when the stream lookup meets a stream without tags. |
| Tracks.TaglessFirstStream | util/tracks.js:172 | When the first stream has no tags, the loop throws at index 0, whatever the later streams are titled. |
| Tracks.MatchIndices | util/tracks.js:167-202 | The loop computes the matching specification. |
| Tracks.RenamingCommand | util/tracks.js:50-105 | The method builds the conversion command for a non-Matroska file, and the in-place mkvpropedit command otherwise. |
| Tracks.MatchTracksAndStreams | util/tracks.js:5-205 | The call's effects and settlement equal `MatchOutcome`. |
| Tracks.ReadBackAndMatch | util/tracks.js:117-202 | The step after renaming equals `AfterRenaming`. |
| Tracks.InPlaceRestoreOrder | util/tracks.js:21-165 | A failing container check throws before any command runs. Otherwise, in place, the rename comes first and, on success, the restore second. A failed read-back leaves the tracks renamed. |
| Tracks.ConvertedCopyRemoval | util/tracks.js:21-143 | The converted copy is removed exactly when the container check, the conversion, the read-back and the probe all succeed. |
| Tracks.ResolvedMatchings | util/tracks.js:167-202 | A resolved call has one entry per track to match. Entry i pairs the first stream titled i with the first track named i, shifted by the video-track count exactly when the file was converted. |
| Tracks.TaglessStreamNeverSettles | util/tracks.js:117-202 | When every tool succeeds and there is a track to match, a first stream without tags leaves the promise pending, even when a later stream has the wanted title. |
| MergeTracks.MatchAt | util/merge-tracks.js:15 | A record matched at one position has a one-digit id and a non-empty, all-letter type. |
| MergeTracks.LastClose | util/merge-tracks.js:15 | It returns the last `)` of the range, or nothing when the range has none. This is the greedy end of the format. |
| MergeTracks.ParseLineLeftmost | util/merge-tracks.js:15-19 | A line yields a record exactly when the expression matches at some position, and the record is that of the leftmost match. |
| MergeTracks.TrackLineRoundTrip | util/merge-tracks.js:15-24 | A line `Track ID d: type (format)` is read back as `{d, type, format}`, even when the format itself contains `)`. |
| MergeTracks.MultiDigitIdIgnored | util/merge-tracks.js:15 | A line `Track ID nn: type (format)` whose id has two or more digits yields no record, when `Track ID ` does not occur again later in the line. |
| MergeTracks.ParseLinesAppend | util/merge-tracks.js:16-25 | Parsing lines keeps their order. |
| MergeTracks.ChunksAtLineBreak | util/merge-tracks.js:13-16 | Two chunks meeting at a line break give the records of their concatenation. |
| MergeTracks.Identification.OnStdoutData | util/merge-tracks.js:13-30 | Each chunk appends the records of its matching lines, in line order. |
| MergeTracks.Identification.OnClose | util/merge-tracks.js:35-81 | The close handler equals `CloseOutcome`. |
| MergeTracks.IdentifyCodeIgnored | util/merge-tracks.js:37-42 | The identify exit code changes nothing. |
| MergeTracks.MergeRule | util/merge-tracks.js:46-75 | The merge runs exactly when two tracks and two streams are known. `-a` takes the second detected track's id. `--sync` is offset + 1000·start_time of the second stream, and is absent when that start time is NaN. It resolves only on exit code 1; exit 0 counts as a kill. With no track it never settles. |

## Left out

- All I/O is outside the model: process execution, temporary directories, file reads and writes, unlinking, the `tmp` cleanup, spinners and logging. Each tool's answer is a parameter.
- SSIM, pixelmatch, BMP decoding and image resizing are foreign library code. Scores are uninterpreted reals, and only their comparisons are modelled.
- JavaScript number formatting is not modelled: seek positions, `${offset}` in the merge command, `toFixed(5)` of the confidence, and the `performance.now()` file names. Numbers appear as reals in commands (`Extraction.seekSeconds`, `MergeCommand.syncOffset`).
- src/index.js, the command-line front end, is not part of this model.
- util/get-video-info.js is not part of this model. It cannot complete, and its line parser duplicates the one in util/merge-tracks.js.
- The module-level call at util/find-offset-new.js:161-166 runs on fixed files and is not logic.
- SceneChange.FindNextSceneChange and SceneChange.CalculateOffset take the crop value already read. The cropdetect parse of line 29 is modelled separately, by `CropValue` and its lemmas, so that the scan proofs stay small.
- SceneChange.CalculateOffset resizes differently sized frames through the similarity oracle. Resizing itself is not modelled.
- SceneChange.CalculateOffset takes video 1's duration as a parameter. A failing ffprobe at util/find-offset-new.js:117 is not modelled.
- Warping.ValidateOffset takes `lengths[0]` as a parameter. `getVideoInfo`, which util/warping.js:8 imports, is not exported by util/calc-offset.js.
- CalcOffset.ToFixed0 covers numbers below 10^21 in magnitude only. For larger ones JavaScript's `toFixed` gives exponential notation, which is not modelled.
- CalcOffset.CalcOffsetSearch models a window around an undefined centre (`-ss NaN`) as the error `NaNSeek` rather than following ffmpeg further.
- Tracks.MatchTracksAndStreams assumes that the second `mkvmerge -J` in `needsContainerization` (util/tracks.js:210), when it succeeds, reports the same container as the first. When it fails, the exception escapes outside any `try` (`Escaped(ContainerCheckFailed)`), like a stream without tags at line 172 (`Escaped(StreamWithoutTags)`), and the promise stays pending. Node's handling of the unhandled rejection is not modelled.
- Tracks.MatchTracksAndStreams models the commands as values (`Command`, rendered by `CommandLine`), not shell parsing of the quoting. The size of the file in the conversion error message (util/tracks.js:92) is also left out.
- Tracks: `getTrackInfo` (util/tracks.js:216-254) is a reporting helper that `matchTracksAndStreams` does not call, and it is not modelled.
- MergeTracks.Identification.OnStdoutData parses each chunk on its own, as the code does. A line split across two chunks yields the records of its two halves, and no lemma is stated about it.
- MergeTracks.Identification.OnClose treats an exception thrown inside the asynchronous close handler (`Escaped`) as leaving the promise pending. Node's handling of the unhandled rejection is not modelled.
- The JavaScript regular-expression engine is not modelled in general. The parser implements only the one expression of util/merge-tracks.js:15, with `.` excluding the four line terminators.
