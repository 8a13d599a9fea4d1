/** util/tracks.js: before tracks are merged, every audio and subtitle track
    of the second video is renamed to its index, so that the index can be
    looked up both in mkvmerge's track list and in ffprobe's stream list.

    mkvmerge, mkvpropedit and ffprobe are foreign tools. What they report is
    given to the model as values (`MkvInfo`, `Stream`), and whether a
    command succeeded as a flag. The mkvpropedit edits the code writes as
    flag strings are also modelled as `Edit` values, with `Apply` saying
    what they do to the per-type track names of the file. */
module Tracks {
  import opened Base
  import opened Text

  /** `track.properties`: `track_name`, `language` and `language_ietf`,
      None where mkvmerge leaves them out. */
  datatype Properties = Properties(trackName: Option<string>, language: Option<string>, languageIetf: Option<string>)

  /** A track of `mkvmerge -J`: its id, its `type` and its properties. */
  datatype Track = Track(id: int, kind: string, properties: Properties)

  /** The parts of `mkvmerge -J` the code reads: `container.type` and
      `tracks`. */
  datatype MkvInfo = MkvInfo(containerType: string, tracks: seq<Track>)

  /** A stream of ffprobe: its `index` and its `tags`, None where ffprobe
      reports no tags for it. */
  datatype Stream = Stream(index: int, tags: Option<StreamTags>)

  /** `stream.tags`: its `title`, None where it has none. */
  datatype StreamTags = StreamTags(title: Option<string>)

  const AudioType := "audio"
  const SubtitlesType := "subtitles"
  const VideoType := "video"

  /** `getTrackType`: the short type name of audio and subtitle tracks;
      every other type gives `undefined`. */
  function GetTrackType(track: Track): (t: Option<string>)
    ensures track.kind == AudioType <==> t == Some("audio")
    ensures track.kind == SubtitlesType <==> t == Some("subs")
    ensures t.None? <==> track.kind != AudioType && track.kind != SubtitlesType
  {
    if track.kind == AudioType then Some("audio")
    else if track.kind == SubtitlesType then Some("subs")
    else None
  }

  /** `needsContainerization`: only a Matroska file can be renamed in
      place. */
  function NeedsContainerization(info: MkvInfo): bool {
    info.containerType != "Matroska"
  }

  /** The file whose tracks are renamed: a Matroska copy next to the input,
      or the input itself. */
  function VideoToMatch(video2: string, containerize: bool): string {
    if containerize then video2 + ".match" else video2
  }

  // ---------------------------------------------------------------------
  // The type filters

  /** `tracks.filter(track => track.type === kind)`. */
  function OfType(tracks: seq<Track>, kind: string): (r: seq<Track>)
    ensures |r| <= |tracks|
    ensures forall k :: 0 <= k < |r| ==> r[k].kind == kind
    decreases |tracks|
  {
    if |tracks| == 0 then []
    else
      var last := tracks[|tracks| - 1];
      OfType(tracks[..|tracks| - 1], kind) + (if last.kind == kind then [last] else [])
  }

  /** The filter keeps exactly the tracks of the type. */
  lemma {:induction false} OfTypeMembers(tracks: seq<Track>, kind: string)
    ensures forall t :: t in OfType(tracks, kind) <==> t in tracks && t.kind == kind
    decreases |tracks|
  {
    if |tracks| > 0 {
      var prefix := tracks[..|tracks| - 1];
      OfTypeMembers(prefix, kind);
      assert tracks == prefix + [tracks[|tracks| - 1]];
    }
  }

  /** The filter keeps the order: filtering a concatenation concatenates
      the filtered parts. */
  lemma {:induction false} OfTypeAppend(a: seq<Track>, b: seq<Track>, kind: string)
    ensures OfType(a + b, kind) == OfType(a, kind) + OfType(b, kind)
    decreases |b|
  {
    if |b| > 0 {
      var b' := b[..|b| - 1];
      OfTypeAppend(a, b', kind);
      assert (a + b)[..|a + b| - 1] == a + b';
      assert (a + b)[|a + b| - 1] == b[|b| - 1];
    } else {
      assert a + b == a;
    }
  }

  /** `[...audioTracks, ...subsTracks]`. */
  function TracksToMatch(tracks: seq<Track>): seq<Track> {
    OfType(tracks, AudioType) + OfType(tracks, SubtitlesType)
  }

  /** The tracks to match are the audio and subtitle tracks, audio first,
      and each has a short type name. */
  lemma TracksToMatchTyped(tracks: seq<Track>)
    ensures forall t :: t in TracksToMatch(tracks) <==> t in tracks && GetTrackType(t).Some?
    ensures forall k :: 0 <= k < |TracksToMatch(tracks)| ==>
      GetTrackType(TracksToMatch(tracks)[k]) == Some(if k < |OfType(tracks, AudioType)| then "audio" else "subs")
  {
    OfTypeMembers(tracks, AudioType);
    OfTypeMembers(tracks, SubtitlesType);
  }

  // ---------------------------------------------------------------------
  // Renaming in place with mkvpropedit, and restoring the names

  /** What `--set name=…` or `--delete name` does to a track's name. */
  datatype NameChange = SetName(name: string) | DeleteName

  /** `--edit track:<kind><position>` and its change: `kind` is `a` or `s`,
      and `position` counts the tracks of that type from 1, in file
      order. */
  datatype Edit = Edit(kind: char, position: nat, change: NameChange)

  /** The name a change leaves. */
  function NewName(c: NameChange): Option<string> {
    match c
    case SetName(n) => Some(n)
    case DeleteName => None
  }

  /** One edit as a flag string. The renaming writes bare names, the
      restoring writes them between single quotes. */
  function EditFlag(e: Edit, quoted: bool): string {
    " --edit track:" + [e.kind] + NatToString(e.position) +
    match e.change
    case SetName(n) => if quoted then " --set name='" + n + "'" else " --set name=" + n
    case DeleteName => " --delete name"
  }

  /** The `reduce` that appends the flags of the edits, in order. */
  function Flags(edits: seq<Edit>, quoted: bool): string
    decreases |edits|
  {
    if |edits| == 0 then ""
    else Flags(edits[..|edits| - 1], quoted) + EditFlag(edits[|edits| - 1], quoted)
  }

  /** The names of a file, by type letter and per-type position. */
  type Names = map<(char, nat), Option<string>>

  /** What mkvpropedit makes of the edits: applied in order, each replaces
      the name at its position. */
  function Apply(names: Names, edits: seq<Edit>): Names
    decreases |edits|
  {
    if |edits| == 0 then names
    else
      var e := edits[|edits| - 1];
      Apply(names, edits[..|edits| - 1])[(e.kind, e.position) := NewName(e.change)]
  }

  lemma {:induction false} ApplyAppend(names: Names, a: seq<Edit>, b: seq<Edit>)
    ensures Apply(names, a + b) == Apply(Apply(names, a), b)
    decreases |b|
  {
    if |b| == 0 {
      assert a + b == a;
    } else {
      ApplyAppend(names, a, b[..|b| - 1]);
      assert (a + b)[..|a + b| - 1] == a + b[..|b| - 1];
      assert (a + b)[|a + b| - 1] == b[|b| - 1];
    }
  }

  /** The key of the j-th track of a type: position j+1. */
  function Position(kind: char, j: nat): (char, nat) {
    (kind, j + 1)
  }

  /** Edits of one type, addressing the positions 1, 2, … in turn. */
  predicate PerType(edits: seq<Edit>, kind: char) {
    forall j :: 0 <= j < |edits| ==> edits[j].kind == kind && edits[j].position == j + 1
  }

  /** A position the edits of one type address. */
  predicate Addressed(key: (char, nat), kind: char, count: nat) {
    key.0 == kind && 1 <= key.1 <= count
  }

  /** Edits of one type set the name of each position they address and
      leave every other name alone. */
  lemma {:induction false} ApplyPerType(names: Names, edits: seq<Edit>, kind: char)
    requires PerType(edits, kind)
    ensures forall j :: 0 <= j < |edits| ==>
      Position(kind, j) in Apply(names, edits) && Apply(names, edits)[Position(kind, j)] == NewName(edits[j].change)
    ensures forall key :: key in Apply(names, edits) <==> key in names || Addressed(key, kind, |edits|)
    ensures forall key :: key in names && !Addressed(key, kind, |edits|) ==> Apply(names, edits)[key] == names[key]
    decreases |edits|
  {
    if |edits| > 0 {
      var n := |edits| - 1;
      var prefix := edits[..n];
      assert PerType(prefix, kind) by {
        forall j | 0 <= j < |prefix| ensures prefix[j].kind == kind && prefix[j].position == j + 1 {
          assert prefix[j] == edits[j];
        }
      }
      ApplyPerType(names, prefix, kind);
      var before := Apply(names, prefix);
      var e := edits[n];
      assert (e.kind, e.position) == Position(kind, n);
      assert Apply(names, edits) == before[Position(kind, n) := NewName(e.change)];
      forall j | 0 <= j < n
        ensures Position(kind, j) in Apply(names, edits) && Apply(names, edits)[Position(kind, j)] == NewName(edits[j].change)
      {
        assert prefix[j] == edits[j];
        assert Position(kind, j) != Position(kind, n);
      }
    }
  }

  /** The edits of one mkvpropedit call: audio edits followed by subtitle
      edits. Each sets the name of its position; every other name stays. */
  lemma ApplyBothTypes(names: Names, audioEdits: seq<Edit>, subsEdits: seq<Edit>)
    requires PerType(audioEdits, 'a') && PerType(subsEdits, 's')
    ensures var after := Apply(names, audioEdits + subsEdits);
      && (forall j :: 0 <= j < |audioEdits| ==> Position('a', j) in after && after[Position('a', j)] == NewName(audioEdits[j].change))
      && (forall j :: 0 <= j < |subsEdits| ==> Position('s', j) in after && after[Position('s', j)] == NewName(subsEdits[j].change))
      && (forall key :: key in after <==> key in names || Addressed(key, 'a', |audioEdits|) || Addressed(key, 's', |subsEdits|))
      && (forall key :: key in names && !Addressed(key, 'a', |audioEdits|) && !Addressed(key, 's', |subsEdits|) ==> after[key] == names[key])
  {
    ApplyAppend(names, audioEdits, subsEdits);
    ApplyPerType(names, audioEdits, 'a');
    ApplyPerType(Apply(names, audioEdits), subsEdits, 's');
    forall j | 0 <= j < |audioEdits| ensures !Addressed(Position('a', j), 's', |subsEdits|) {
    }
  }

  /** The renaming edits of one type: position j+1 gets the name `first+j`,
      the next value of `highestGivenId`. */
  function RenameEdits(kind: char, first: nat, count: nat): (edits: seq<Edit>)
    ensures |edits| == count && PerType(edits, kind)
    ensures forall j :: 0 <= j < count ==> edits[j].change == SetName(NatToString(first + j))
  {
    seq(count, j requires 0 <= j => Edit(kind, j + 1, SetName(NatToString(first + j))))
  }

  /** One more renaming edit appends its flag. */
  lemma RenameFlagsSnoc(kind: char, first: nat, j: nat)
    ensures Flags(RenameEdits(kind, first, j + 1), false)
         == Flags(RenameEdits(kind, first, j), false) + (" --edit track:" + [kind]) + NatToString(j + 1)
            + " --set name=" + NatToString(first + j)
  {
    var edits := RenameEdits(kind, first, j + 1);
    assert edits[..j] == RenameEdits(kind, first, j);
    assert edits[j] == Edit(kind, j + 1, SetName(NatToString(first + j)));
  }

  /** The `--edit … --set name=<highestGivenId++>` strings for the audio
      and the subtitle tracks: the counter runs on from the audio tracks
      into the subtitle tracks. */
  method BuildRenameFlags(audioTracks: seq<Track>, subsTracks: seq<Track>)
    returns (editStringAudio: string, editStringSubs: string)
    ensures editStringAudio == Flags(RenameEdits('a', 0, |audioTracks|), false)
    ensures editStringSubs == Flags(RenameEdits('s', |audioTracks|, |subsTracks|), false)
  {
    var highestGivenId: nat := 0;
    editStringAudio := "";
    var id := 0;
    assert " --edit track:a" == " --edit track:" + ['a'];
    while id < |audioTracks|
      invariant id <= |audioTracks| && highestGivenId == id
      invariant editStringAudio == Flags(RenameEdits('a', 0, id), false)
    {
      RenameFlagsSnoc('a', 0, id);
      editStringAudio := editStringAudio + " --edit track:a" + NatToString(id + 1) + " --set name=" + NatToString(highestGivenId);
      highestGivenId := highestGivenId + 1;
      id := id + 1;
    }
    editStringSubs := "";
    id := 0;
    assert " --edit track:s" == " --edit track:" + ['s'];
    while id < |subsTracks|
      invariant id <= |subsTracks| && highestGivenId == |audioTracks| + id
      invariant editStringSubs == Flags(RenameEdits('s', |audioTracks|, id), false)
    {
      RenameFlagsSnoc('s', |audioTracks|, id);
      editStringSubs := editStringSubs + " --edit track:s" + NatToString(id + 1) + " --set name=" + NatToString(highestGivenId);
      highestGivenId := highestGivenId + 1;
      id := id + 1;
    }
  }

  /** Where the track at index k of `tracksToMatch` sits for mkvpropedit:
      the audio tracks come first, then the subtitle tracks. */
  function PositionOf(k: nat, audioCount: nat): (char, nat) {
    if k < audioCount then Position('a', k) else Position('s', k - audioCount)
  }

  /** The renaming gives every track to match its own index as its
      name. */
  lemma RenameNamesByIndex(names: Names, audioCount: nat, subsCount: nat, k: nat)
    requires k < audioCount + subsCount
    ensures var renamed := Apply(names, RenameEdits('a', 0, audioCount) + RenameEdits('s', audioCount, subsCount));
      PositionOf(k, audioCount) in renamed && renamed[PositionOf(k, audioCount)] == Some(NatToString(k))
  {
    ApplyBothTypes(names, RenameEdits('a', 0, audioCount), RenameEdits('s', audioCount, subsCount));
  }

  /** Two tracks to match never get the same name. */
  lemma RenamedNamesDistinct(names: Names, audioCount: nat, subsCount: nat, k: nat, l: nat)
    requires k < audioCount + subsCount && l < audioCount + subsCount && k != l
    ensures PositionOf(k, audioCount) != PositionOf(l, audioCount)
    ensures var renamed := Apply(names, RenameEdits('a', 0, audioCount) + RenameEdits('s', audioCount, subsCount));
      && PositionOf(k, audioCount) in renamed && PositionOf(l, audioCount) in renamed
      && renamed[PositionOf(k, audioCount)] != renamed[PositionOf(l, audioCount)]
  {
    RenameNamesByIndex(names, audioCount, subsCount, k);
    RenameNamesByIndex(names, audioCount, subsCount, l);
    if NatToString(k) == NatToString(l) {
      NatToStringInjective(k, l);
    }
  }

  /** `{ id, name }` as remembered in `mkvmergeOldTrackNames`. */
  datatype NameRecord = NameRecord(id: int, name: Option<string>)

  /** The remembered names of a list of tracks, in order. */
  function OldNames(tracks: seq<Track>): (r: seq<NameRecord>)
    ensures |r| == |tracks|
    ensures forall j :: 0 <= j < |r| ==> r[j] == NameRecord(tracks[j].id, tracks[j].properties.trackName)
  {
    seq(|tracks|, j requires 0 <= j < |tracks| => NameRecord(tracks[j].id, tracks[j].properties.trackName))
  }

  /** The restoring edits of one type: an undefined name is deleted, any
      other is set back. */
  function RestoreEdits(kind: char, olds: seq<NameRecord>): (edits: seq<Edit>)
    ensures |edits| == |olds| && PerType(edits, kind)
    ensures forall j :: 0 <= j < |olds| ==> NewName(edits[j].change) == olds[j].name
  {
    seq(|olds|, j requires 0 <= j < |olds| =>
      Edit(kind, j + 1, if olds[j].name.None? then DeleteName else SetName(olds[j].name.value)))
  }

  /** The names a file had, position by position, when its tracks of each
      type were read as `audio` and `subs`. */
  predicate Describes(names: Names, audio: seq<Track>, subs: seq<Track>) {
    && (forall j :: 0 <= j < |audio| ==> Position('a', j) in names && names[Position('a', j)] == audio[j].properties.trackName)
    && (forall j :: 0 <= j < |subs| ==> Position('s', j) in names && names[Position('s', j)] == subs[j].properties.trackName)
  }

  /** Restoring undoes the renaming: after both sets of edits the file has
      exactly the names it started with. */
  lemma RestoreUndoesRename(names: Names, audio: seq<Track>, subs: seq<Track>)
    requires Describes(names, audio, subs)
    ensures Apply(Apply(names, RenameEdits('a', 0, |audio|) + RenameEdits('s', |audio|, |subs|)),
                  RestoreEdits('a', OldNames(audio)) + RestoreEdits('s', OldNames(subs))) == names
  {
    ApplyBothTypes(names, RenameEdits('a', 0, |audio|), RenameEdits('s', |audio|, |subs|));
    var renamed := Apply(names, RenameEdits('a', 0, |audio|) + RenameEdits('s', |audio|, |subs|));
    var ea := RestoreEdits('a', OldNames(audio));
    var es := RestoreEdits('s', OldNames(subs));
    ApplyBothTypes(renamed, ea, es);
    var restored := Apply(renamed, ea + es);
    forall key | key in restored ensures key in names {
      if Addressed(key, 'a', |audio|) {
        assert key == Position('a', key.1 - 1);
      } else if Addressed(key, 's', |subs|) {
        assert key == Position('s', key.1 - 1);
      }
    }
    forall key | key in names ensures key in restored && restored[key] == names[key] {
      if Addressed(key, 'a', |audio|) {
        assert key == Position('a', key.1 - 1);
      } else if Addressed(key, 's', |subs|) {
        assert key == Position('s', key.1 - 1);
      }
    }
    assert restored.Keys == names.Keys;
  }

  // ---------------------------------------------------------------------
  // Renaming by conversion to Matroska

  /** The ` --track-name <id>:<index>` flags for the tracks to match. */
  function TrackNameFlags(tracksToMatch: seq<Track>): string
    decreases |tracksToMatch|
  {
    if |tracksToMatch| == 0 then ""
    else
      var n := |tracksToMatch| - 1;
      TrackNameFlags(tracksToMatch[..n]) + " --track-name " + TrackNameWord(tracksToMatch[n].id, n)
  }

  /** The comma-separated `0:<id>` list after `--track-order `, for every
      track, video tracks included. */
  function TrackOrderList(tracks: seq<Track>): string
    decreases |tracks|
  {
    if |tracks| == 0 then ""
    else
      var n := |tracks| - 1;
      TrackOrderList(tracks[..n]) + (if n == 0 then "" else ",") + OrderPiece(tracks[n])
  }

  function TrackOrderFlag(tracks: seq<Track>): string {
    "--track-order " + TrackOrderList(tracks)
  }

  /** A decimal rendering contains no character other than digits. */
  lemma DigitsOnly(s: string, c: char)
    requires AllDigits(s) && !IsDigit(c)
    ensures c !in s
  {
    forall k | 0 <= k < |s| ensures s[k] != c {
      assert IsDigit(s[k]);
    }
  }

  /** The rendering of an id contains neither a space nor a comma. */
  lemma IdHasNoSeparator(i: int, c: char)
    requires !IsDigit(c) && c != '-'
    ensures c !in IntToString(i)
  {
    DigitsOnly(NatToString(if i < 0 then -i else i), c);
  }

  /** The word `<id>:<index>` a track is renamed with. */
  function TrackNameWord(id: int, index: nat): string {
    IntToString(id) + ":" + NatToString(index)
  }

  lemma TrackNameWordHasNoSpace(id: int, index: nat)
    ensures ' ' !in TrackNameWord(id, index)
  {
    IdHasNoSeparator(id, ' ');
    DigitsOnly(NatToString(index), ' ');
  }

  /** The words the flags split into: an empty word, then
      `--track-name <id>:<i>` for each index i, in order. */
  predicate TrackNameWords(w: seq<string>, tracksToMatch: seq<Track>) {
    && |w| == 2 * |tracksToMatch| + 1 && w[0] == ""
    && forall i :: 0 <= i < |tracksToMatch| ==>
         w[2 * i + 1] == "--track-name" && w[2 * i + 2] == TrackNameWord(tracksToMatch[i].id, i)
  }

  lemma SpacedFlag(before: string, word: string)
    ensures before + " --track-name " + word == before + [' '] + ("--track-name" + [' '] + word)
  {
    assert " --track-name " == [' '] + "--track-name" + [' '];
  }

  /** One more track appends two words. */
  lemma TrackNameFlagsSnoc(tracksToMatch: seq<Track>)
    requires |tracksToMatch| > 0
    ensures var n := |tracksToMatch| - 1;
      Split(TrackNameFlags(tracksToMatch), ' ')
        == Split(TrackNameFlags(tracksToMatch[..n]), ' ') + ["--track-name", TrackNameWord(tracksToMatch[n].id, n)]
  {
    var n := |tracksToMatch| - 1;
    var before := TrackNameFlags(tracksToMatch[..n]);
    var word := TrackNameWord(tracksToMatch[n].id, n);
    TrackNameWordHasNoSpace(tracksToMatch[n].id, n);
    SpacedFlagWords(before, word);
  }

  lemma SpacedFlagWords(before: string, word: string)
    requires ' ' !in word
    ensures Split(before + " --track-name " + word, ' ') == Split(before, ' ') + ["--track-name", word]
  {
    SpacedFlag(before, word);
    FlagWords(before, "--track-name", word);
  }

  /** A flag and its argument, each free of spaces, after a space: two more
      words. */
  lemma FlagWords(before: string, flag: string, word: string)
    requires ' ' !in flag && ' ' !in word
    ensures Split(before + [' '] + (flag + [' '] + word), ' ') == Split(before, ' ') + [flag, word]
  {
    SplitAround(before, flag + [' '] + word, ' ');
    SplitAround(flag, word, ' ');
    SplitWithoutSeparator(flag, ' ');
    SplitWithoutSeparator(word, ' ');
  }

  lemma TrackNameWordsSnoc(w: seq<string>, tracksToMatch: seq<Track>)
    requires |tracksToMatch| > 0
    requires TrackNameWords(w, tracksToMatch[..|tracksToMatch| - 1])
    ensures var n := |tracksToMatch| - 1;
      TrackNameWords(w + ["--track-name", TrackNameWord(tracksToMatch[n].id, n)], tracksToMatch)
  {
    var n := |tracksToMatch| - 1;
    var w' := w + ["--track-name", TrackNameWord(tracksToMatch[n].id, n)];
    forall i | 0 <= i < |tracksToMatch|
      ensures w'[2 * i + 1] == "--track-name" && w'[2 * i + 2] == TrackNameWord(tracksToMatch[i].id, i)
    {
      if i < n {
        assert tracksToMatch[..n][i] == tracksToMatch[i];
      }
    }
  }

  /** Split into words as the shell does, the flags are an empty word
      followed by `--track-name <id>:<i>` for each index i of the tracks to
      match, in order. */
  lemma {:induction false} TrackNameFlagsWords(tracksToMatch: seq<Track>)
    ensures TrackNameWords(Split(TrackNameFlags(tracksToMatch), ' '), tracksToMatch)
    decreases |tracksToMatch|
  {
    if |tracksToMatch| > 0 {
      var n := |tracksToMatch| - 1;
      TrackNameFlagsWords(tracksToMatch[..n]);
      TrackNameFlagsSnoc(tracksToMatch);
      TrackNameWordsSnoc(Split(TrackNameFlags(tracksToMatch[..n]), ' '), tracksToMatch);
    }
  }

  /** The piece `0:<id>` of the track order for one track. */
  function OrderPiece(t: Track): string {
    "0:" + IntToString(t.id)
  }

  /** One `0:<id>` piece per track, in file order. */
  predicate OrderPieces(w: seq<string>, tracks: seq<Track>) {
    |w| == |tracks| && forall k :: 0 <= k < |tracks| ==> w[k] == OrderPiece(tracks[k])
  }

  /** A piece free of commas, after a comma: one more piece. */
  lemma CommaPiece(before: string, piece: string)
    requires ',' !in piece
    ensures Split(before + [','] + piece, ',') == Split(before, ',') + [piece]
  {
    SplitAround(before, piece, ',');
    SplitWithoutSeparator(piece, ',');
  }

  lemma OrderPieceHasNoComma(t: Track)
    ensures ',' !in OrderPiece(t)
  {
    IdHasNoSeparator(t.id, ',');
  }

  lemma OrderPiecesSnoc(w: seq<string>, tracks: seq<Track>)
    requires |tracks| > 0 && OrderPieces(w, tracks[..|tracks| - 1])
    ensures OrderPieces(w + [OrderPiece(tracks[|tracks| - 1])], tracks)
  {
    var n := |tracks| - 1;
    forall k | 0 <= k < n ensures (w + [OrderPiece(tracks[n])])[k] == OrderPiece(tracks[k]) {
      assert tracks[..n][k] == tracks[k];
    }
  }

  /** Split at the commas, the track order gives back one `0:<id>` piece
      per track, in file order; with no tracks it is empty. */
  lemma {:induction false} TrackOrderPieces(tracks: seq<Track>)
    ensures |tracks| == 0 ==> TrackOrderList(tracks) == ""
    ensures |tracks| > 0 ==> OrderPieces(Split(TrackOrderList(tracks), ','), tracks)
    decreases |tracks|
  {
    if |tracks| > 0 {
      var n := |tracks| - 1;
      var prefix := tracks[..n];
      var piece := OrderPiece(tracks[n]);
      OrderPieceHasNoComma(tracks[n]);
      if n == 0 {
        assert TrackOrderList(tracks) == piece;
        SplitWithoutSeparator(piece, ',');
      } else {
        TrackOrderPieces(prefix);
        assert TrackOrderList(tracks) == TrackOrderList(prefix) + [','] + piece;
        CommaPiece(TrackOrderList(prefix), piece);
        OrderPiecesSnoc(Split(TrackOrderList(prefix), ','), tracks);
      }
    }
  }

  // ---------------------------------------------------------------------
  // Matching the indices back to streams and tracks

  /** `stream.tags.title === title`, for a stream that has tags. */
  predicate HasTitle(stream: Stream, title: string) {
    stream.tags.Some? && stream.tags.value.title == Some(title)
  }

  /** How `streams.find(stream => stream.tags.title === title)` ends: at
      the first stream titled `title`, with `undefined`, or with the
      TypeError of reading `title` from the first stream without tags that
      it reaches. */
  datatype StreamLookup = Titled(at: nat) | NoTitled | Tagless(at: nat)

  /** The lookup visits the streams in order: it stops at the first one
      that either has no tags or is titled `title`. */
  function FirstTitled(streams: seq<Stream>, title: string): (r: StreamLookup)
    ensures r.Titled? ==> r.at < |streams| && HasTitle(streams[r.at], title)
    ensures r.Tagless? ==> r.at < |streams| && streams[r.at].tags.None?
    ensures !r.NoTitled? ==> forall j :: 0 <= j < r.at ==> streams[j].tags.Some? && !HasTitle(streams[j], title)
    ensures r.NoTitled? <==> forall j :: 0 <= j < |streams| ==> streams[j].tags.Some? && !HasTitle(streams[j], title)
    decreases |streams|
  {
    if |streams| == 0 then NoTitled
    else if streams[0].tags.None? then Tagless(0)
    else if HasTitle(streams[0], title) then Titled(0)
    else match FirstTitled(streams[1..], title)
      case NoTitled => NoTitled
      case Titled(k) => Titled(k + 1)
      case Tagless(k) => Tagless(k + 1)
  }

  /** The first track whose `track_name` is `name`. */
  function FirstNamed(tracks: seq<Track>, name: string): (r: Option<nat>)
    ensures r.Some? ==> r.value < |tracks| && tracks[r.value].properties.trackName == Some(name)
    ensures r.Some? ==> forall j :: 0 <= j < r.value ==> tracks[j].properties.trackName != Some(name)
    ensures r.None? ==> forall j :: 0 <= j < |tracks| ==> tracks[j].properties.trackName != Some(name)
    decreases |tracks|
  {
    if |tracks| == 0 then None
    else if tracks[0].properties.trackName == Some(name) then Some(0)
    else match FirstNamed(tracks[1..], name)
      case None => None
      case Some(k) => Some(k + 1)
  }

  /** `{ infos: { type, language, languageIetf }, ids: { ffprobe, mkvmerge } }`. */
  datatype Matching = Matching(kind: Option<string>, language: Option<string>, languageIetf: Option<string>,
                               ffprobe: int, mkvmerge: int)

  function MatchingOf(stream: Stream, track: Track, trackOffset: int): Matching {
    Matching(GetTrackType(track), track.properties.language, track.properties.languageIetf,
             stream.index + trackOffset, track.id + trackOffset)
  }

  /** The reasons `matchTracksAndStreams` rejects. */
  datatype TrackError =
    | MkvmergeMissing      // the first `mkvmerge -J` fails
    | ConversionFailed     // the conversion to Matroska is killed or exits with a non-zero code
    | RenameFailed         // mkvpropedit fails to rename
    | RenamedUnreadable    // `mkvmerge -J` of the renamed file fails
    | ProbeFailed          // ffprobe fails
    | RestoreFailed        // mkvpropedit fails to restore the names
    | StreamMissing        // no stream is titled with an index
    | TrackMissing         // no track is named with an index

  /** Exceptions thrown inside the promise's asynchronous executor outside
      any `try`: nothing catches them, so they never settle the promise
      `matchTracksAndStreams` returns. */
  datatype Uncaught =
    | ContainerCheckFailed        // the `mkvmerge -J` of `needsContainerization` fails
    | StreamWithoutTags(at: nat)  // the lookup of a stream reaches stream `at`, which has no tags

  /** How the promise ends: resolved with the matchings, rejected, or never,
      after an uncaught exception. */
  datatype Settlement = Resolved(matchings: seq<Matching>) | Rejected(error: TrackError) | Escaped(exception: Uncaught)

  /** The matching loop over the indices below `count`, stopping at the
      first index that cannot be found. */
  function Matchings(count: nat, streams: seq<Stream>, tracks: seq<Track>, trackOffset: int): Settlement
    decreases count
  {
    if count == 0 then Resolved([])
    else match Matchings(count - 1, streams, tracks, trackOffset)
      case Rejected(e) => Rejected(e)
      case Escaped(u) => Escaped(u)
      case Resolved(ms) =>
        var i := count - 1;
        match FirstTitled(streams, NatToString(i))
        case Tagless(k) => Escaped(StreamWithoutTags(k))
        case NoTitled => Rejected(StreamMissing)
        case Titled(s) =>
          match FirstNamed(tracks, NatToString(i))
          case None => Rejected(TrackMissing)
          case Some(t) => Resolved(ms + [MatchingOf(streams[s], tracks[t], trackOffset)])
  }

  /** Both lookups succeed for index i. */
  predicate Found(streams: seq<Stream>, tracks: seq<Track>, i: nat) {
    FirstTitled(streams, NatToString(i)).Titled? && FirstNamed(tracks, NatToString(i)).Some?
  }

  /** The entry for index i: the first stream titled i and the first track
      named i, both shifted by the track offset. */
  function EntryFor(streams: seq<Stream>, tracks: seq<Track>, trackOffset: int, i: nat): Matching
    requires Found(streams, tracks, i)
  {
    MatchingOf(streams[FirstTitled(streams, NatToString(i)).at], tracks[FirstNamed(tracks, NatToString(i)).value], trackOffset)
  }

  /** The loop resolves exactly when every index is found, and then yields
      one entry per index, in index order. */
  lemma {:induction false} MatchingsFindEveryIndex(count: nat, streams: seq<Stream>, tracks: seq<Track>, trackOffset: int)
    ensures Matchings(count, streams, tracks, trackOffset).Resolved? <==> forall i :: 0 <= i < count ==> Found(streams, tracks, i)
    ensures var r := Matchings(count, streams, tracks, trackOffset);
      r.Resolved? ==> |r.matchings| == count && forall i :: 0 <= i < count ==> r.matchings[i] == EntryFor(streams, tracks, trackOffset, i)
    decreases count
  {
    if count > 0 {
      var n := count - 1;
      MatchingsFindEveryIndex(n, streams, tracks, trackOffset);
      MatchingsStep(count, streams, tracks, trackOffset);
      var prev := Matchings(n, streams, tracks, trackOffset);
      if prev.Resolved? && Found(streams, tracks, n) {
        var ms := prev.matchings + [EntryFor(streams, tracks, trackOffset, n)];
        forall i | 0 <= i < count ensures ms[i] == EntryFor(streams, tracks, trackOffset, i) {
          if i < n {
            assert ms[i] == prev.matchings[i];
          }
        }
      } else if !prev.Resolved? {
        var i :| 0 <= i < n && !Found(streams, tracks, i);
      }
    }
  }

  /** One more index extends a resolved loop by its entry when it is found,
      and stops the loop otherwise. */
  lemma MatchingsStep(count: nat, streams: seq<Stream>, tracks: seq<Track>, trackOffset: int)
    requires count > 0
    ensures var prev := Matchings(count - 1, streams, tracks, trackOffset);
      var r := Matchings(count, streams, tracks, trackOffset);
      && (prev.Resolved? && Found(streams, tracks, count - 1) ==>
            r == Resolved(prev.matchings + [EntryFor(streams, tracks, trackOffset, count - 1)]))
      && (!(prev.Resolved? && Found(streams, tracks, count - 1)) ==> !r.Resolved?)
  {
  }

  /** The loop ends at the first index that is not found, every earlier one
      having been found: it rejects when no stream is titled with it, or
      when its stream is found but no track is named with it, and it
      throws when the stream lookup meets a stream without tags. */
  lemma {:induction false} MatchingsRejection(count: nat, streams: seq<Stream>, tracks: seq<Track>, trackOffset: int)
    ensures Matchings(count, streams, tracks, trackOffset) == Rejected(StreamMissing) ==>
      exists i :: 0 <= i < count && FirstTitled(streams, NatToString(i)).NoTitled?
                  && forall j :: 0 <= j < i ==> Found(streams, tracks, j)
    ensures Matchings(count, streams, tracks, trackOffset) == Rejected(TrackMissing) ==>
      exists i :: 0 <= i < count && FirstTitled(streams, NatToString(i)).Titled? && FirstNamed(tracks, NatToString(i)).None?
                  && forall j :: 0 <= j < i ==> Found(streams, tracks, j)
    ensures Matchings(count, streams, tracks, trackOffset).Rejected? ==>
      Matchings(count, streams, tracks, trackOffset).error in {StreamMissing, TrackMissing}
    ensures Matchings(count, streams, tracks, trackOffset).Escaped? ==>
      exists i :: 0 <= i < count && FirstTitled(streams, NatToString(i)).Tagless?
                  && Matchings(count, streams, tracks, trackOffset).exception
                     == StreamWithoutTags(FirstTitled(streams, NatToString(i)).at)
                  && forall j :: 0 <= j < i ==> Found(streams, tracks, j)
    decreases count
  {
    if count > 0 {
      var n := count - 1;
      var prev := Matchings(n, streams, tracks, trackOffset);
      if prev.Resolved? {
        MatchingsFindEveryIndex(n, streams, tracks, trackOffset);
        assert forall j :: 0 <= j < n ==> Found(streams, tracks, j);
      } else {
        MatchingsRejection(n, streams, tracks, trackOffset);
        assert Matchings(count, streams, tracks, trackOffset) == prev;
      }
    }
  }

  /** Once the loop has stopped, later indices change nothing. */
  lemma {:induction false} MatchingsStopStays(i: nat, count: nat, streams: seq<Stream>, tracks: seq<Track>, trackOffset: int)
    requires i <= count && !Matchings(i, streams, tracks, trackOffset).Resolved?
    ensures Matchings(count, streams, tracks, trackOffset) == Matchings(i, streams, tracks, trackOffset)
    decreases count - i
  {
    if i < count {
      MatchingsStopStays(i, count - 1, streams, tracks, trackOffset);
    }
  }

  /** A first stream without tags makes the lookup of index 0 throw, whatever
      the later streams are titled. */
  lemma TaglessFirstStream(count: nat, streams: seq<Stream>, tracks: seq<Track>, trackOffset: int)
    requires count > 0 && |streams| > 0 && streams[0].tags.None?
    ensures Matchings(count, streams, tracks, trackOffset) == Escaped(StreamWithoutTags(0))
  {
    assert Matchings(1, streams, tracks, trackOffset) == Escaped(StreamWithoutTags(0));
    MatchingsStopStays(1, count, streams, tracks, trackOffset);
  }

  /** The `for (const i in tracksToMatch)` loop. */
  method MatchIndices(count: nat, streams: seq<Stream>, tracks: seq<Track>, trackOffset: int)
    returns (r: Settlement)
    ensures r == Matchings(count, streams, tracks, trackOffset)
  {
    var matchings := [];
    var i := 0;
    while i < count
      invariant i <= count
      invariant Matchings(i, streams, tracks, trackOffset) == Resolved(matchings)
    {
      var foundStream := FirstTitled(streams, NatToString(i));
      if foundStream.Tagless? {
        // `stream.tags.title` throws a TypeError
        MatchingsStopStays(i + 1, count, streams, tracks, trackOffset);
        return Escaped(StreamWithoutTags(foundStream.at));
      }
      if foundStream.NoTitled? {
        MatchingsStopStays(i + 1, count, streams, tracks, trackOffset);
        return Rejected(StreamMissing);
      }
      var streamIndex := streams[foundStream.at].index + trackOffset;
      var trackInfo := FirstNamed(tracks, NatToString(i));
      if trackInfo.None? {
        MatchingsStopStays(i + 1, count, streams, tracks, trackOffset);
        return Rejected(TrackMissing);
      }
      var track := tracks[trackInfo.value];
      var trackId := track.id + trackOffset;
      matchings := matchings + [Matching(GetTrackType(track), track.properties.language, track.properties.languageIetf,
                                         streamIndex, trackId)];
      i := i + 1;
    }
    return Resolved(matchings);
  }

  // ---------------------------------------------------------------------
  // The whole of matchTracksAndStreams

  /** What the foreign tools report, in the order they are called: the
      first `mkvmerge -J` of the video, whether the `mkvmerge -J` of
      `needsContainerization` succeeded, whether the conversion or the
      renaming succeeded, `mkvmerge -J` and ffprobe of the renamed file,
      and whether restoring the names succeeded. None stands for a call
      that throws. */
  datatype Tools = Tools(identify: Option<MkvInfo>, recheckOk: bool, renameOk: bool, reidentify: Option<MkvInfo>,
                         probe: Option<seq<Stream>>, restoreOk: bool)

  /** The two commands that write files, with the pieces the code
      interpolates into them. */
  datatype Command =
    | Convert(trackNames: string, source: string, trackOrder: string, output: string)
    | PropEdit(file: string, audioEdits: string, subsEdits: string)

  /** The shell line of a command. */
  function CommandLine(c: Command): string {
    match c
    case Convert(trackNames, source, trackOrder, output) =>
      "mkvmerge " + trackNames + " -D \"" + source + "\" " + trackOrder + " --no-cues -o \"" + output + "\""
    case PropEdit(file, audioEdits, subsEdits) =>
      "mkvpropedit \"" + file + "\" " + audioEdits + " " + subsEdits
  }

  /** What the call does to files: a command that writes one, or the
      removal of the converted copy. */
  datatype Effect = Exec(command: Command) | Remove(path: string)

  /** The call's effects, in order, and how it settles. */
  datatype Outcome = Outcome(effects: seq<Effect>, settlement: Settlement)

  /** The conversion that copies every track but the video tracks,
      renaming the tracks to match to their indices. */
  function ConvertCommand(video2: string, tracks: seq<Track>): Command {
    Convert(TrackNameFlags(TracksToMatch(tracks)), video2, TrackOrderFlag(tracks), VideoToMatch(video2, true))
  }

  function RenameCommand(video2: string, tracks: seq<Track>): Command {
    var audioCount := |OfType(tracks, AudioType)|;
    PropEdit(video2, Flags(RenameEdits('a', 0, audioCount), false),
             Flags(RenameEdits('s', audioCount, |OfType(tracks, SubtitlesType)|), false))
  }

  function RestoreCommand(video2: string, tracks: seq<Track>): Command {
    PropEdit(video2, Flags(RestoreEdits('a', OldNames(OfType(tracks, AudioType))), true),
             Flags(RestoreEdits('s', OldNames(OfType(tracks, SubtitlesType))), true))
  }

  /** After conversion no video track is copied, so the ids and indices of
      the copy are shifted back by the number of video tracks. */
  function TrackOffset(info: MkvInfo): nat {
    if NeedsContainerization(info) then |OfType(info.tracks, VideoType)| else 0
  }

  /** The command that renames the tracks to their indices: the
      conversion to Matroska, or mkvpropedit on the file itself. */
  function RenamingCommandOf(video2: string, info: MkvInfo): Command {
    if NeedsContainerization(info) then ConvertCommand(video2, info.tracks) else RenameCommand(video2, info.tracks)
  }

  /** `matchTracksAndStreams(video2)`. */
  function MatchOutcome(video2: string, tools: Tools): Outcome {
    match tools.identify
    case None => Outcome([], Rejected(MkvmergeMissing))
    case Some(info) =>
      if !tools.recheckOk then Outcome([], Escaped(ContainerCheckFailed))
      else
        var containerize := NeedsContainerization(info);
        var target := VideoToMatch(video2, containerize);
        var first := Exec(RenamingCommandOf(video2, info));
        if !tools.renameOk then Outcome([first], Rejected(if containerize then ConversionFailed else RenameFailed))
        else
          var rest := AfterRenaming(target, info, tools);
          Outcome([first] + rest.effects, rest.settlement)
  }

  /** What follows a successful renaming: reading the renamed file back,
      removing the copy or restoring the names, and the matching loop. */
  function AfterRenaming(target: string, info: MkvInfo, tools: Tools): Outcome {
    match tools.reidentify
    case None => Outcome([], Rejected(RenamedUnreadable))
    case Some(renamed) =>
      match tools.probe
      case None => Outcome([], Rejected(ProbeFailed))
      case Some(streams) =>
        var containerize := NeedsContainerization(info);
        var last := if containerize then Remove(target) else Exec(RestoreCommand(target, info.tracks));
        if !containerize && !tools.restoreOk then Outcome([last], Rejected(RestoreFailed))
        else Outcome([last], Matchings(|TracksToMatch(info.tracks)|, streams, renamed.tracks, TrackOffset(info)))
  }

  /** The building of the renaming command, with the counter of the
      in-place renaming. */
  method RenamingCommand(video2: string, videoToMatch: string, mkvmergeInfo: MkvInfo, containerize: bool)
    returns (command: Command)
    requires containerize == NeedsContainerization(mkvmergeInfo)
    requires videoToMatch == VideoToMatch(video2, containerize)
    ensures command == RenamingCommandOf(video2, mkvmergeInfo)
  {
    var audioTracks := OfType(mkvmergeInfo.tracks, AudioType);
    var subsTracks := OfType(mkvmergeInfo.tracks, SubtitlesType);
    var tracksToMatch := audioTracks + subsTracks;
    if containerize {
      var trackNameString := TrackNameFlags(tracksToMatch);
      var trackOrderString := TrackOrderFlag(mkvmergeInfo.tracks);
      command := Convert(trackNameString, video2, trackOrderString, videoToMatch);
    } else {
      var editStringAudio, editStringSubs := BuildRenameFlags(audioTracks, subsTracks);
      command := PropEdit(videoToMatch, editStringAudio, editStringSubs);
    }
  }

  /** The mkvpropedit command that gives the tracks their remembered names
      back. */
  method RestoringCommand(videoToMatch: string, mkvmergeOldTrackNames: (seq<NameRecord>, seq<NameRecord>))
    returns (command: Command)
    ensures command == PropEdit(videoToMatch, Flags(RestoreEdits('a', mkvmergeOldTrackNames.0), true),
                                Flags(RestoreEdits('s', mkvmergeOldTrackNames.1), true))
  {
    var editStringAudio := Flags(RestoreEdits('a', mkvmergeOldTrackNames.0), true);
    var editStringSubs := Flags(RestoreEdits('s', mkvmergeOldTrackNames.1), true);
    command := PropEdit(videoToMatch, editStringAudio, editStringSubs);
  }

  method MatchTracksAndStreams(video2: string, tools: Tools) returns (effects: seq<Effect>, r: Settlement)
    ensures Outcome(effects, r) == MatchOutcome(video2, tools)
  {
    effects := [];
    if tools.identify.None? {
      return effects, Rejected(MkvmergeMissing);
    }
    var mkvmergeInfo := tools.identify.value;
    if !tools.recheckOk {
      // `needsContainerization` throws outside any `try`
      return effects, Escaped(ContainerCheckFailed);
    }
    var containerize := NeedsContainerization(mkvmergeInfo);
    var videoToMatch := if containerize then video2 + ".match" else video2;
    var renaming := RenamingCommand(video2, videoToMatch, mkvmergeInfo, containerize);
    effects := effects + [Exec(renaming)];
    if !tools.renameOk {
      return effects, Rejected(if containerize then ConversionFailed else RenameFailed);
    }
    var rest;
    rest, r := ReadBackAndMatch(videoToMatch, mkvmergeInfo, tools);
    effects := effects + rest;
  }

  /** The part of `matchTracksAndStreams` after the renaming. */
  method ReadBackAndMatch(videoToMatch: string, mkvmergeInfo: MkvInfo, tools: Tools)
    returns (effects: seq<Effect>, r: Settlement)
    ensures Outcome(effects, r) == AfterRenaming(videoToMatch, mkvmergeInfo, tools)
  {
    effects := [];
    var containerize := NeedsContainerization(mkvmergeInfo);
    var audioTracks := OfType(mkvmergeInfo.tracks, AudioType);
    var subsTracks := OfType(mkvmergeInfo.tracks, SubtitlesType);
    var videoTracks := OfType(mkvmergeInfo.tracks, VideoType);
    var mkvmergeOldTrackNames := (OldNames(audioTracks), OldNames(subsTracks));
    var tracksToMatch := audioTracks + subsTracks;
    if tools.reidentify.None? {
      return effects, Rejected(RenamedUnreadable);
    }
    var renamed := tools.reidentify.value;
    if tools.probe.None? {
      return effects, Rejected(ProbeFailed);
    }
    var streams := tools.probe.value;
    if containerize {
      effects := effects + [Remove(videoToMatch)];
    } else {
      var restoring := RestoringCommand(videoToMatch, mkvmergeOldTrackNames);
      effects := effects + [Exec(restoring)];
      if !tools.restoreOk {
        return effects, Rejected(RestoreFailed);
      }
    }
    var trackOffset := if containerize then |videoTracks| else 0;
    r := MatchIndices(|tracksToMatch|, streams, renamed.tracks, trackOffset);
  }

  /** A file renamed in place has its names restored before anything is
      matched; but when reading the renamed file back fails, the call
      rejects with the tracks still named by their indices. A failing
      container check throws before anything is run. */
  lemma InPlaceRestoreOrder(video2: string, tools: Tools)
    requires tools.identify.Some? && !NeedsContainerization(tools.identify.value)
    ensures var o := MatchOutcome(video2, tools);
      && (!tools.recheckOk ==> o == Outcome([], Escaped(ContainerCheckFailed)))
      && (tools.recheckOk ==> |o.effects| >= 1 && o.effects[0] == Exec(RenameCommand(video2, tools.identify.value.tracks)))
      && (o.settlement.Resolved? ==> o.effects == [Exec(RenameCommand(video2, tools.identify.value.tracks)),
                                                   Exec(RestoreCommand(video2, tools.identify.value.tracks))])
      && (tools.recheckOk && tools.renameOk && (tools.reidentify.None? || tools.probe.None?) ==>
            |o.effects| == 1 && o.settlement.Rejected?)
  {
  }

  /** A converted copy is removed only when both the renamed file's track
      list and its streams were read; every failure before that leaves the
      copy behind. */
  lemma ConvertedCopyRemoval(video2: string, tools: Tools)
    requires tools.identify.Some? && NeedsContainerization(tools.identify.value)
    ensures var o := MatchOutcome(video2, tools);
      && (tools.recheckOk ==> |o.effects| >= 1 && o.effects[0] == Exec(ConvertCommand(video2, tools.identify.value.tracks)))
      && (Remove(video2 + ".match") in o.effects <==>
            tools.recheckOk && tools.renameOk && tools.reidentify.Some? && tools.probe.Some?)
  {
  }

  /** When the call resolves, it yields one entry per track to match,
      entry i holding the first stream titled i and the first renamed-file
      track named i, shifted by the number of video tracks exactly when the
      file was converted. */
  lemma ResolvedMatchings(video2: string, tools: Tools)
    requires MatchOutcome(video2, tools).settlement.Resolved?
    ensures tools.identify.Some? && tools.recheckOk && tools.reidentify.Some? && tools.probe.Some?
    ensures var info := tools.identify.value;
      var ms := MatchOutcome(video2, tools).settlement.matchings;
      && |ms| == |TracksToMatch(info.tracks)|
      && forall i :: 0 <= i < |ms| ==>
           && Found(tools.probe.value, tools.reidentify.value.tracks, i)
           && ms[i] == EntryFor(tools.probe.value, tools.reidentify.value.tracks,
                                if NeedsContainerization(info) then |OfType(info.tracks, VideoType)| else 0, i)
  {
    var info := tools.identify.value;
    MatchingsFindEveryIndex(|TracksToMatch(info.tracks)|, tools.probe.value, tools.reidentify.value.tracks, TrackOffset(info));
  }

  /** When every tool succeeds and there is a track to match, a first
      stream without tags leaves the call's promise pending, even when a
      later stream carries the wanted title. */
  lemma TaglessStreamNeverSettles(video2: string, tools: Tools)
    requires tools.identify.Some? && tools.recheckOk && tools.renameOk
    requires tools.reidentify.Some? && tools.probe.Some?
    requires NeedsContainerization(tools.identify.value) || tools.restoreOk
    requires |TracksToMatch(tools.identify.value.tracks)| > 0
    requires |tools.probe.value| > 0 && tools.probe.value[0].tags.None?
    ensures MatchOutcome(video2, tools).settlement == Escaped(StreamWithoutTags(0))
  {
    TaglessFirstStream(|TracksToMatch(tools.identify.value.tracks)|, tools.probe.value,
                       tools.reidentify.value.tracks, TrackOffset(tools.identify.value));
  }
}
