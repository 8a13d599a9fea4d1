/** util/merge-tracks.js: list the tracks of the second video with
    `mkvmerge -i`, then merge one of its tracks into the first video with
    the sync offset found.

    The tools are foreign: the identify output arrives as chunks of text,
    ffprobe's answer and the exit codes are parameters. The line parser
    follows the regular expression `Track ID (\d): ([a-zA-Z]+) \((.*)\)`
    exactly: the first position of the line where it matches, one digit
    for the id, a maximal run of letters for the type, and a format that
    runs up to the last `)` before any line terminator, because `.*` is
    greedy and does not cross line terminators. */
module MergeTracks {
  import opened Base
  import opened Text

  /** `{ id, type, format }`, the three groups of a matching line. */
  datatype TrackRecord = TrackRecord(id: string, kind: string, format: string)

  predicate IsLetter(c: char) {
    'a' <= c <= 'z' || 'A' <= c <= 'Z'
  }

  /** The characters `.` does not match. */
  predicate IsLineTerminator(c: char) {
    c == '\n' || c == '\r' || c == '\U{2028}' || c == '\U{2029}'
  }

  const TrackIdPrefix := "Track ID "

  /** `Track ID ` occurs in `line` at position i. */
  predicate PrefixAt(line: string, i: nat) {
    && i + 9 <= |line|
    && line[i] == 'T' && line[i + 1] == 'r' && line[i + 2] == 'a' && line[i + 3] == 'c' && line[i + 4] == 'k'
    && line[i + 5] == ' ' && line[i + 6] == 'I' && line[i + 7] == 'D' && line[i + 8] == ' '
  }

  /** The length of the run of letters starting at i. */
  function LetterRun(line: string, i: nat): (n: nat)
    ensures i + n <= |line| || (i > |line| && n == 0)
    ensures forall k :: i <= k < i + n ==> IsLetter(line[k])
    ensures i + n < |line| ==> !IsLetter(line[i + n])
    decreases |line| - i
  {
    if i < |line| && IsLetter(line[i]) then 1 + LetterRun(line, i + 1) else 0
  }

  /** The first line terminator at or after i, or the end of the line. */
  function LineEnd(line: string, i: nat): (e: nat)
    requires i <= |line|
    ensures i <= e <= |line|
    ensures forall k :: i <= k < e ==> !IsLineTerminator(line[k])
    ensures e < |line| ==> IsLineTerminator(line[e])
    decreases |line| - i
  {
    if i == |line| || IsLineTerminator(line[i]) then i else LineEnd(line, i + 1)
  }

  /** The last `)` in `line[lo..hi]`. */
  function LastClose(line: string, lo: nat, hi: nat): (p: Option<nat>)
    requires hi <= |line|
    ensures p.Some? ==> lo <= p.value < hi && line[p.value] == ')'
    ensures p.Some? ==> forall k :: p.value < k < hi ==> line[k] != ')'
    ensures p.None? ==> forall k :: lo <= k < hi ==> line[k] != ')'
    decreases hi
  {
    if hi <= lo then None
    else if line[hi - 1] == ')' then Some(hi - 1)
    else LastClose(line, lo, hi - 1)
  }

  /** The regular expression matched from position i of the line. */
  function MatchAt(line: string, i: nat): (r: Option<TrackRecord>)
    ensures r.Some? ==> |r.value.id| == 1 && IsDigit(r.value.id[0])
    ensures r.Some? ==> |r.value.kind| >= 1 && forall k :: 0 <= k < |r.value.kind| ==> IsLetter(r.value.kind[k])
  {
    if !PrefixAt(line, i) then None
    else
      var d := i + 9;
      if !(d + 2 < |line| && IsDigit(line[d]) && line[d + 1] == ':' && line[d + 2] == ' ') then None
      else
        var t := d + 3;
        var n := LetterRun(line, t);
        if !(n >= 1 && t + n + 1 < |line| && line[t + n] == ' ' && line[t + n + 1] == '(') then None
        else
          var f := t + n + 2;
          match LastClose(line, f, LineEnd(line, f))
          case None => None
          case Some(p) => Some(TrackRecord(line[d..d + 1], line[t..t + n], line[f..p]))
  }

  /** The first position at or after i where the expression matches. */
  function FirstMatch(line: string, i: nat): (r: Option<nat>)
    ensures r.Some? ==> i <= r.value <= |line| && MatchAt(line, r.value).Some?
    ensures r.Some? ==> forall j :: i <= j < r.value ==> MatchAt(line, j).None?
    ensures r.None? ==> forall j :: i <= j <= |line| ==> MatchAt(line, j).None?
    decreases |line| + 1 - i
  {
    if i > |line| then None
    else if MatchAt(line, i).Some? then Some(i)
    else FirstMatch(line, i + 1)
  }

  /** `extractor.test(line)` and `line.match(extractor)`: the groups of the
      leftmost match, if there is one. */
  function ParseLine(line: string): Option<TrackRecord> {
    match FirstMatch(line, 0)
    case None => None
    case Some(i) => MatchAt(line, i)
  }

  /** A line yields a record exactly when the expression matches somewhere
      in it, and the record is that of the leftmost match. */
  lemma ParseLineLeftmost(line: string)
    ensures ParseLine(line).Some? <==> exists i :: 0 <= i <= |line| && MatchAt(line, i).Some?
    ensures ParseLine(line).Some? ==>
              exists i :: 0 <= i <= |line| && MatchAt(line, i) == ParseLine(line)
                          && forall j :: 0 <= j < i ==> MatchAt(line, j).None?
  {
    var first := FirstMatch(line, 0);
    if first.Some? {
      assert MatchAt(line, first.value) == ParseLine(line);
    }
  }

  /** A line as mkvmerge writes it for a track. */
  function TrackLine(id: char, kind: string, format: string): string {
    TrackIdPrefix + [id] + ": " + kind + " (" + format + ")"
  }

  /** A run of letters of length n ending before a non-letter. */
  lemma {:induction false} LetterRunIs(line: string, i: nat, n: nat)
    requires i + n < |line|
    requires forall k :: i <= k < i + n ==> IsLetter(line[k])
    requires !IsLetter(line[i + n])
    ensures LetterRun(line, i) == n
    decreases n
  {
    if n > 0 {
      LetterRunIs(line, i + 1, n - 1);
    }
  }

  /** A line laid out as mkvmerge lays out a track line, described
      character by character, yields its three groups. */
  lemma WellFormedLine(line: string, n: nat)
    requires |line| >= n + 15 && n >= 1
    requires PrefixAt(line, 0) && IsDigit(line[9]) && line[10] == ':' && line[11] == ' '
    requires forall k :: 12 <= k < 12 + n ==> IsLetter(line[k])
    requires line[12 + n] == ' ' && line[13 + n] == '('
    requires forall k :: 14 + n <= k < |line| ==> !IsLineTerminator(line[k])
    requires line[|line| - 1] == ')'
    ensures ParseLine(line) == Some(TrackRecord(line[9..10], line[12..12 + n], line[14 + n..|line| - 1]))
  {
    LetterRunIs(line, 12, n);
    assert LineEnd(line, 14 + n) == |line|;
    assert LastClose(line, 14 + n, |line|) == Some(|line| - 1);
    var record := TrackRecord(line[9..10], line[12..12 + n], line[14 + n..|line| - 1]);
    assert MatchAt(line, 0) == Some(record);
    assert FirstMatch(line, 0) == Some(0);
  }

  /** A track line is read back as the record it was written from: the
      format may hold any character but a line terminator, `)` included. */
  lemma TrackLineRoundTrip(id: char, kind: string, format: string)
    requires IsDigit(id)
    requires |kind| >= 1 && forall k :: 0 <= k < |kind| ==> IsLetter(kind[k])
    requires forall k :: 0 <= k < |format| ==> !IsLineTerminator(format[k])
    ensures ParseLine(TrackLine(id, kind, format)) == Some(TrackRecord([id], kind, format))
  {
    var line := TrackLine(id, kind, format);
    var n := |kind|;
    assert |line| == n + 15 + |format|;
    assert PrefixAt(line, 0);
    assert line[9] == id && line[10] == ':' && line[11] == ' ';
    assert line[12 + n] == ' ' && line[13 + n] == '(' && line[|line| - 1] == ')';
    forall k | 12 <= k < 12 + n ensures IsLetter(line[k]) {
      assert line[k] == kind[k - 12];
    }
    forall k | 14 + n <= k < |line| ensures !IsLineTerminator(line[k]) {
      if k < |line| - 1 {
        assert line[k] == format[k - 14 - n];
      }
    }
    assert line[9..10] == [id];
    assert line[12..12 + n] == kind;
    assert line[14 + n..|line| - 1] == format;
    WellFormedLine(line, n);
  }

  /** Only a one-digit id is recognised: with an id of two digits or more
      the line yields nothing, unless `Track ID ` occurs again later in
      the line, where the expression can start anew. */
  lemma MultiDigitIdIgnored(id: nat, kind: string, format: string)
    requires id >= 10
    requires forall j: nat :: 1 <= j ==> !PrefixAt(TrackIdPrefix + NatToString(id) + ": " + kind + " (" + format + ")", j)
    ensures ParseLine(TrackIdPrefix + NatToString(id) + ": " + kind + " (" + format + ")") == None
  {
    var digits := NatToString(id);
    var line := TrackIdPrefix + digits + ": " + kind + " (" + format + ")";
    assert |digits| >= 2;
    assert line[10] == digits[1];
    assert MatchAt(line, 0).None?;
    forall j | 1 <= j <= |line| ensures MatchAt(line, j).None? {
    }
  }

  /** The record of one line, if it matches. */
  function LineRecords(line: string): (r: seq<TrackRecord>)
    ensures |r| <= 1
    ensures r == [] <==> ParseLine(line).None?
    ensures r != [] ==> ParseLine(line) == Some(r[0])
  {
    match ParseLine(line)
    case Some(record) => [record]
    case None => []
  }

  /** What `lines.forEach` pushes, in line order, when each line
      contributes `perLine(line)`. */
  function Collect(lines: seq<string>, perLine: string -> seq<TrackRecord>): seq<TrackRecord>
    decreases |lines|
  {
    if |lines| == 0 then [] else Collect(lines[..|lines| - 1], perLine) + perLine(lines[|lines| - 1])
  }

  /** One more line adds its records at the end. */
  lemma CollectSnoc(lines: seq<string>, line: string, perLine: string -> seq<TrackRecord>)
    ensures Collect(lines + [line], perLine) == Collect(lines, perLine) + perLine(line)
  {
    var all := lines + [line];
    assert all[..|all| - 1] == lines;
  }

  /** The prefix of one more line adds that line's records. */
  lemma CollectPrefix(lines: seq<string>, i: nat, perLine: string -> seq<TrackRecord>)
    requires i < |lines|
    ensures Collect(lines[..i + 1], perLine) == Collect(lines[..i], perLine) + perLine(lines[i])
  {
    assert lines[..i + 1] == lines[..i] + [lines[i]];
    CollectSnoc(lines[..i], lines[i], perLine);
  }

  /** Collecting keeps the order of the lines. */
  lemma {:induction false} CollectAppend(a: seq<string>, b: seq<string>, perLine: string -> seq<TrackRecord>)
    ensures Collect(a + b, perLine) == Collect(a, perLine) + Collect(b, perLine)
    decreases |b|
  {
    if |b| == 0 {
      assert a + b == a;
    } else {
      var front := b[..|b| - 1];
      var last := b[|b| - 1];
      CollectAppend(a, front, perLine);
      assert a + b == (a + front) + [last];
      assert b == front + [last];
      CollectSnoc(a + front, last, perLine);
      CollectSnoc(front, last, perLine);
    }
  }

  /** The records of the lines, in line order; lines that do not match
      are skipped. */
  function ParseLines(lines: seq<string>): seq<TrackRecord> {
    Collect(lines, LineRecords)
  }

  /** Parsing keeps the order of the lines. */
  lemma ParseLinesAppend(a: seq<string>, b: seq<string>)
    ensures ParseLines(a + b) == ParseLines(a) + ParseLines(b)
  {
    CollectAppend(a, b, LineRecords);
  }

  /** The records of one chunk of identify output. */
  function ChunkRecords(data: string): seq<TrackRecord> {
    ParseLines(Split(data, '\n'))
  }

  /** Two chunks that meet at a line break give the records of the text
      they make together. */
  lemma ChunksAtLineBreak(a: string, b: string)
    ensures ChunkRecords(a + "\n" + b) == ChunkRecords(a) + ChunkRecords(b)
  {
    assert a + "\n" + b == a + ['\n'] + b;
    SplitAround(a, b, '\n');
    ParseLinesAppend(Split(a, '\n'), Split(b, '\n'));
  }

  /** The failures of the merge itself, which reject the call. */
  datatype MergeError = Killed | ExitCode(code: int)

  /** Exceptions thrown inside the asynchronous close handler: nothing
      catches them, so the call's promise is never settled by them. */
  datatype Uncaught = ProbeRejected | NoSecondStream | NoSecondTrack

  /** How the call ends: never, resolved, rejected, or with an uncaught
      exception while the promise stays pending. */
  datatype Settlement = Pending | Resolved | Rejected(error: MergeError) | Escaped(exception: Uncaught)

  /** `mkvmerge -o "out.mkv" "<video1>" -D -a <id> --sync <id>:<offset>
      "<video2>"`; a NaN offset is None. */
  datatype MergeCommand = MergeCommand(video1: string, trackId: string, syncOffset: Option<real>, video2: string)

  /** Everything after the identify process closes, as a value: the merge
      command run, if any, and how the call ends. `startTimes` are the
      `start_time` of ffprobe's streams (None where `Number` gives NaN),
      itself None when ffprobe rejects; `mergeCode` is the merge's exit
      code, None when it was killed by a signal. */
  function CloseOutcome(detectedTracks: seq<TrackRecord>, identifyCode: Option<int>, video1: string, video2: string,
                        offset: real, startTimes: Option<seq<Option<real>>>, mergeCode: Option<int>)
    : (Option<MergeCommand>, Settlement)
  {
    if |detectedTracks| == 0 then (None, Pending)
    else if startTimes.None? then (None, Escaped(ProbeRejected))
    else if |startTimes.value| < 2 then (None, Escaped(NoSecondStream))
    else if |detectedTracks| < 2 then (None, Escaped(NoSecondTrack))
    else
      var start := startTimes.value[1];
      var synced := if start.None? then None else Some(offset + start.value * 1000.0);
      var command := MergeCommand(video1, detectedTracks[1].id, synced, video2);
      (Some(command),
       if mergeCode.None? || mergeCode == Some(0) then Rejected(Killed)
       else if mergeCode != Some(1) then Rejected(ExitCode(mergeCode.value))
       else Resolved)
  }

  /** The identify run: the records collected from its output so far. */
  class Identification {
    var detectedTracks: seq<TrackRecord>

    constructor()
      ensures detectedTracks == []
    {
      detectedTracks := [];
    }

    /** The `data` handler of the identify output: every line of the chunk
        that matches adds its record, in line order. */
    method OnStdoutData(data: string)
      modifies this
      ensures detectedTracks == old(detectedTracks) + ChunkRecords(data)
    {
      var lines := Split(data, '\n');
      var detected := detectedTracks;
      var i := 0;
      while i < |lines|
        invariant i <= |lines|
        invariant detected == old(detectedTracks) + ParseLines(lines[..i])
      {
        var line := lines[i];
        var result := ParseLine(line);
        if result.Some? {
          detected := detected + [result.value];
        }
        CollectPrefix(lines, i, LineRecords);
        i := i + 1;
      }
      assert lines[..i] == lines;
      detectedTracks := detected;
    }

    /** The `close` handler of the identify process. The Errors built for a
        failed identify are never thrown. */
    method OnClose(code: Option<int>, video1: string, video2: string, offset: real,
                   startTimes: Option<seq<Option<real>>>, mergeCode: Option<int>)
      returns (merge: Option<MergeCommand>, settlement: Settlement)
      ensures (merge, settlement) == CloseOutcome(detectedTracks, code, video1, video2, offset, startTimes, mergeCode)
    {
      if |detectedTracks| == 0 {
        return None, Pending;
      }
      if startTimes.None? {
        return None, Escaped(ProbeRejected);
      }
      var streams := startTimes.value;
      if |streams| < 2 {
        return None, Escaped(NoSecondStream);
      }
      var synced: Option<real> := None;
      if streams[1].Some? {
        var shifted := offset + streams[1].value * 1000.0;
        synced := Some(shifted);
      }
      if |detectedTracks| < 2 {
        return None, Escaped(NoSecondTrack);
      }
      merge := Some(MergeCommand(video1, detectedTracks[1].id, synced, video2));
      if mergeCode.None? || mergeCode == Some(0) {
        settlement := Rejected(Killed);
      } else if mergeCode != Some(1) {
        settlement := Rejected(ExitCode(mergeCode.value));
      } else {
        settlement := Resolved;
      }
    }
  }

  /** The identify exit code changes nothing. */
  lemma IdentifyCodeIgnored(detectedTracks: seq<TrackRecord>, c1: Option<int>, c2: Option<int>, video1: string, video2: string,
                            offset: real, startTimes: Option<seq<Option<real>>>, mergeCode: Option<int>)
    ensures CloseOutcome(detectedTracks, c1, video1, video2, offset, startTimes, mergeCode)
         == CloseOutcome(detectedTracks, c2, video1, video2, offset, startTimes, mergeCode)
  {
  }

  /** The merge is run exactly when two tracks were detected and ffprobe
      reported two streams; it uses the second detected track, whatever its
      type, shifted by the start time of the second stream. The call
      resolves only on exit code 1; a clean exit 0 is reported as a kill. */
  lemma MergeRule(detectedTracks: seq<TrackRecord>, code: Option<int>, video1: string, video2: string,
                  offset: real, startTimes: Option<seq<Option<real>>>, mergeCode: Option<int>)
    ensures var (merge, settlement) := CloseOutcome(detectedTracks, code, video1, video2, offset, startTimes, mergeCode);
      && (merge.Some? <==> |detectedTracks| >= 2 && startTimes.Some? && |startTimes.value| >= 2)
      && (merge.Some? ==> merge.value.trackId == detectedTracks[1].id
                          && merge.value.syncOffset == (if startTimes.value[1].None? then None
                                                        else Some(offset + startTimes.value[1].value * 1000.0)))
      && (settlement == Resolved <==> merge.Some? && mergeCode == Some(1))
      && (merge.Some? && mergeCode == Some(0) ==> settlement == Rejected(Killed))
      && (|detectedTracks| == 0 ==> settlement == Pending)
      && (settlement.Pending? ==> |detectedTracks| == 0)
  {
  }
}
