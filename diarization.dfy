/**
 * Speaker diarization: the turns the diarizer finds are saved, merged when
 * one speaker continues after a short pause, and summarised per speaker.
 */
module Diarization {
  import opened Wrappers
  import opened Dicts
  import opened Seqs
  import opened FileSystem
  import opened Schema
  import opened Config
  import opened Storage

  // ---------------------------------------------------------------------------
  // Merging

  /** `next` continues the turn `cur`: same speaker, and the pause between them is at most `maxGap`. */
  predicate Absorbs(cur: Segment, next: Segment, maxGap: real) {
    next.speaker == cur.speaker && next.start - cur.end <= maxGap
  }

  /** No segment of `segs` would absorb the next one. */
  predicate Separated(segs: seq<Segment>, maxGap: real) {
    forall i :: 0 <= i < |segs| - 1 ==> !Absorbs(segs[i], segs[i + 1], maxGap)
  }

  /**
   * The merge continued from the accumulator `cur` (the turn being extended)
   * over the segments still to come.
   */
  function MergeFrom(cur: Segment, rest: seq<Segment>, maxGap: real): (r: seq<Segment>)
    ensures 1 <= |r| <= |rest| + 1
    ensures r[0].speaker == cur.speaker && r[0].start == cur.start
    decreases |rest|
  {
    if rest == [] then [cur]
    else if Absorbs(cur, rest[0], maxGap) then MergeFrom(cur.(end := rest[0].end), rest[1..], maxGap)
    else [cur] + MergeFrom(rest[0], rest[1..], maxGap)
  }

  /** The last turn ends where the last segment absorbed ends. */
  lemma {:induction false} MergeFromLast(cur: Segment, rest: seq<Segment>, maxGap: real)
    ensures var r := MergeFrom(cur, rest, maxGap); r[|r| - 1].end == if rest == [] then cur.end else rest[|rest| - 1].end
    decreases |rest|
  {
    if rest != [] {
      if Absorbs(cur, rest[0], maxGap) {
        MergeFromLast(cur.(end := rest[0].end), rest[1..], maxGap);
      } else {
        MergeFromLast(rest[0], rest[1..], maxGap);
      }
    }
  }

  lemma {:induction false} MergeFromSeparated(cur: Segment, rest: seq<Segment>, maxGap: real)
    ensures Separated(MergeFrom(cur, rest, maxGap), maxGap)
    decreases |rest|
  {
    if rest != [] {
      if Absorbs(cur, rest[0], maxGap) {
        MergeFromSeparated(cur.(end := rest[0].end), rest[1..], maxGap);
      } else {
        var tail := MergeFrom(rest[0], rest[1..], maxGap);
        MergeFromSeparated(rest[0], rest[1..], maxGap);
        var r := [cur] + tail;
        assert forall i :: 1 <= i < |r| ==> r[i] == tail[i - 1];
      }
    }
  }

  /** What `merge_same_speaker_segments(segs, maxGap)` returns. */
  function Merged(segs: seq<Segment>, maxGap: real): seq<Segment> {
    if segs == [] then [] else MergeFrom(segs[0], segs[1..], maxGap)
  }

  /**
   * `merge_same_speaker_segments`: one pass over the segments, extending a
   * copy of the current turn while the speaker continues within `maxGap`.
   * The input is a value and is left as it was.
   */
  method MergeSameSpeakerSegments(segs: seq<Segment>, maxGap: real) returns (merged: seq<Segment>)
    ensures merged == Merged(segs, maxGap)
  {
    if segs == [] {
      return [];
    }
    merged := [];
    var current := segs[0];
    var i := 1;
    while i < |segs|
      invariant 1 <= i <= |segs|
      invariant merged + MergeFrom(current, segs[i..], maxGap) == Merged(segs, maxGap)
    {
      var next := segs[i];
      assert segs[i..][0] == next && segs[i..][1..] == segs[i + 1..];
      if next.speaker == current.speaker && next.start - current.end <= maxGap {
        assert MergeFrom(current, segs[i..], maxGap) == MergeFrom(current.(end := next.end), segs[i + 1..], maxGap);
        current := current.(end := next.end);
      } else {
        var rest := MergeFrom(next, segs[i + 1..], maxGap);
        assert MergeFrom(current, segs[i..], maxGap) == [current] + rest;
        assert merged + ([current] + rest) == (merged + [current]) + rest;
        merged := merged + [current];
        current := next;
      }
      i := i + 1;
    }
    merged := merged + [current];
  }

  /** Empty in, empty out; otherwise at least one and at most as many segments as came in. */
  lemma MergedBounds(segs: seq<Segment>, maxGap: real)
    ensures Merged(segs, maxGap) == [] <==> segs == []
    ensures |Merged(segs, maxGap)| <= |segs|
  {
  }

  /** Adjacent merged turns change speaker or are more than `maxGap` apart. */
  lemma MergedSeparated(segs: seq<Segment>, maxGap: real)
    ensures Separated(Merged(segs, maxGap), maxGap)
    ensures var m := Merged(segs, maxGap);
      forall i :: 0 <= i < |m| - 1 ==> m[i].speaker != m[i + 1].speaker || m[i + 1].start - m[i].end > maxGap
  {
    if segs != [] {
      MergeFromSeparated(segs[0], segs[1..], maxGap);
    }
  }

  /** The merged turns span the input: first start to last end. */
  lemma MergedSpan(segs: seq<Segment>, maxGap: real)
    requires segs != []
    ensures Merged(segs, maxGap)[0].start == segs[0].start
    ensures Merged(segs, maxGap)[|Merged(segs, maxGap)| - 1].end == segs[|segs| - 1].end
  {
    MergeFromLast(segs[0], segs[1..], maxGap);
  }

  /** A separated sequence is left as it is. */
  lemma {:induction false} SeparatedUnchanged(cur: Segment, rest: seq<Segment>, maxGap: real)
    requires Separated([cur] + rest, maxGap)
    ensures MergeFrom(cur, rest, maxGap) == [cur] + rest
    decreases |rest|
  {
    if rest != [] {
      var s := [cur] + rest;
      assert s[0] == cur && s[1] == rest[0];
      assert [rest[0]] + rest[1..] == rest;
      assert forall i :: 0 <= i < |rest| ==> rest[i] == s[i + 1];
      SeparatedUnchanged(rest[0], rest[1..], maxGap);
    }
  }

  /** Merging twice is merging once. */
  lemma MergeIdempotent(segs: seq<Segment>, maxGap: real)
    ensures Merged(Merged(segs, maxGap), maxGap) == Merged(segs, maxGap)
  {
    var m := Merged(segs, maxGap);
    if m != [] {
      MergedSeparated(segs, maxGap);
      assert [m[0]] + m[1..] == m;
      SeparatedUnchanged(m[0], m[1..], maxGap);
    }
  }

  /**
   * A reference description by runs. Segment `i` opens a new turn unless it
   * continues the previous INPUT segment (same speaker, gap at most `maxGap`):
   * during the merge the accumulator always ends where the last segment
   * absorbed into it ends, and carries that segment's speaker.
   */
  predicate Opens(segs: seq<Segment>, i: int, maxGap: real)
    requires 0 <= i < |segs|
  {
    i == 0 || !Absorbs(segs[i - 1], segs[i], maxGap)
  }

  /** The last segment of the run that starts at `i`. */
  function RunEnd(segs: seq<Segment>, i: nat, maxGap: real): (e: nat)
    requires i < |segs|
    ensures i <= e < |segs|
    ensures forall k :: i < k <= e ==> !Opens(segs, k, maxGap)
    ensures e + 1 < |segs| ==> Opens(segs, e + 1, maxGap)
    decreases |segs| - i
  {
    if i + 1 < |segs| && !Opens(segs, i + 1, maxGap) then RunEnd(segs, i + 1, maxGap) else i
  }

  /** The turns from the run opened at `i` on: each takes speaker and start from its opener and the end of its last segment. */
  function RunTurns(segs: seq<Segment>, i: nat, maxGap: real): seq<Segment>
    requires i < |segs|
    decreases |segs| - i
  {
    var e := RunEnd(segs, i, maxGap);
    [Segment(segs[i].speaker, segs[i].start, segs[e].end)] + (if e + 1 < |segs| then RunTurns(segs, e + 1, maxGap) else [])
  }

  lemma RunEndUnique(segs: seq<Segment>, i: nat, e: nat, maxGap: real)
    requires i <= e < |segs|
    requires forall k :: i < k <= e ==> !Opens(segs, k, maxGap)
    requires e + 1 < |segs| ==> Opens(segs, e + 1, maxGap)
    ensures RunEnd(segs, i, maxGap) == e
  {
  }

  /** A run that reaches the end of the input is one turn. */
  lemma LastRun(segs: seq<Segment>, i: nat, maxGap: real)
    requires i < |segs|
    requires forall k :: i < k < |segs| ==> !Opens(segs, k, maxGap)
    ensures RunTurns(segs, i, maxGap) == [Segment(segs[i].speaker, segs[i].start, segs[|segs| - 1].end)]
  {
    RunEndUnique(segs, i, |segs| - 1, maxGap);
  }

  /** A run closed by an opener at `j` is one turn followed by the turns from `j` on. */
  lemma ClosedRun(segs: seq<Segment>, i: nat, j: nat, maxGap: real)
    requires i < j < |segs|
    requires forall k :: i < k < j ==> !Opens(segs, k, maxGap)
    requires Opens(segs, j, maxGap)
    ensures RunTurns(segs, i, maxGap) == [Segment(segs[i].speaker, segs[i].start, segs[j - 1].end)] + RunTurns(segs, j, maxGap)
  {
    RunEndUnique(segs, i, j - 1, maxGap);
  }

  /** The accumulator holding the run `segs[i..j]` finishes as the run-wise description says. */
  lemma {:induction false} MergeFromRuns(segs: seq<Segment>, i: nat, j: nat, maxGap: real)
    requires i < j <= |segs|
    requires forall k :: i < k < j ==> !Opens(segs, k, maxGap)
    requires segs[j - 1].speaker == segs[i].speaker
    ensures MergeFrom(Segment(segs[i].speaker, segs[i].start, segs[j - 1].end), segs[j..], maxGap) == RunTurns(segs, i, maxGap)
    decreases |segs| - j
  {
    var cur := Segment(segs[i].speaker, segs[i].start, segs[j - 1].end);
    if j == |segs| {
      LastRun(segs, i, maxGap);
      assert segs[j..] == [];
    } else if Absorbs(segs[j - 1], segs[j], maxGap) {
      AbsorbStep(segs, i, j, maxGap);
      MergeFromRuns(segs, i, j + 1, maxGap);
    } else {
      OpenRunStep(segs, i, j, maxGap);
      ClosedRun(segs, i, j, maxGap);
      MergeFromRuns(segs, j, j + 1, maxGap);
    }
  }

  /** The accumulator absorbs a segment that continues the previous input segment. */
  lemma AbsorbStep(segs: seq<Segment>, i: nat, j: nat, maxGap: real)
    requires i < j < |segs|
    requires segs[j - 1].speaker == segs[i].speaker
    requires Absorbs(segs[j - 1], segs[j], maxGap)
    ensures !Opens(segs, j, maxGap) && segs[j].speaker == segs[i].speaker
    ensures MergeFrom(Segment(segs[i].speaker, segs[i].start, segs[j - 1].end), segs[j..], maxGap)
         == MergeFrom(Segment(segs[i].speaker, segs[i].start, segs[j].end), segs[j + 1..], maxGap)
  {
    var rest := segs[j..];
    assert rest[0] == segs[j] && rest[1..] == segs[j + 1..];
  }

  /** The accumulator is emitted when the next segment opens a run of its own. */
  lemma OpenRunStep(segs: seq<Segment>, i: nat, j: nat, maxGap: real)
    requires i < j < |segs|
    requires segs[j - 1].speaker == segs[i].speaker
    requires !Absorbs(segs[j - 1], segs[j], maxGap)
    ensures Opens(segs, j, maxGap)
    ensures MergeFrom(Segment(segs[i].speaker, segs[i].start, segs[j - 1].end), segs[j..], maxGap)
         == [Segment(segs[i].speaker, segs[i].start, segs[j - 1].end)]
          + MergeFrom(Segment(segs[j].speaker, segs[j].start, segs[j].end), segs[j + 1..], maxGap)
  {
    var rest := segs[j..];
    assert rest[0] == segs[j] && rest[1..] == segs[j + 1..];
    assert segs[j] == Segment(segs[j].speaker, segs[j].start, segs[j].end);
  }

  /**
   * Every merged turn is one run of the input: its speaker and start are
   * those of the segment that opened the run, its end is that of the last
   * segment absorbed.
   */
  lemma MergedIsRuns(segs: seq<Segment>, maxGap: real)
    requires segs != []
    ensures Merged(segs, maxGap) == RunTurns(segs, 0, maxGap)
  {
    MergeFromRuns(segs, 0, 1, maxGap);
  }

  /** Two close turns of A merge, B's turn stays apart. */
  lemma MergeExample()
    ensures Merged([Segment("A", 0.0, 5.0), Segment("A", 5.5, 10.0), Segment("B", 10.0, 12.0)], 1.0)
         == [Segment("A", 0.0, 10.0), Segment("B", 10.0, 12.0)]
  {
    var s := [Segment("A", 0.0, 5.0), Segment("A", 5.5, 10.0), Segment("B", 10.0, 12.0)];
    assert s[1..][1..] == [Segment("B", 10.0, 12.0)];
    assert MergeFrom(Segment("B", 10.0, 12.0), [], 1.0) == [Segment("B", 10.0, 12.0)];
    assert MergeFrom(Segment("A", 0.0, 10.0), s[1..][1..], 1.0) == [Segment("A", 0.0, 10.0), Segment("B", 10.0, 12.0)];
  }

  // ---------------------------------------------------------------------------
  // Statistics

  datatype SpeakerTime = SpeakerTime(segments: nat, totalTime: real, percentage: real)

  datatype SpeakerStatistics = SpeakerStatistics(totalSpeakers: nat, totalDuration: real, speakers: Dict<string, SpeakerTime>)

  function SpeakerOf(s: Segment): string {
    s.speaker
  }

  function By(speaker: string): Segment -> bool {
    (s: Segment) => s.speaker == speaker
  }

  function Length(s: Segment): real {
    s.end - s.start
  }

  function SegmentsOf(st: SpeakerTime): nat {
    st.segments
  }

  /** Total speaking time of `speaker`, turn lengths added in order. */
  function TimeOf(segs: seq<Segment>, speaker: string): real {
    SumRealWhere(segs, By(speaker), Length)
  }

  /** Share of `total`, in percent; 0 when the meeting has no positive length. */
  function Percentage(part: real, total: real): real {
    if total > 0.0 then part / total * 100.0 else 0.0
  }

  function Ends(segs: seq<Segment>): (r: seq<real>)
    ensures |r| == |segs| && forall i :: 0 <= i < |segs| ==> r[i] == segs[i].end
  {
    seq(|segs|, i requires 0 <= i < |segs| => segs[i].end)
  }

  /** The entry of `speaker` is its count, its time and the share of its time in `total`. */
  predicate Tallied(segs: seq<Segment>, total: real, entry: (string, SpeakerTime)) {
    entry.1.segments == Count(segs, By(entry.0)) &&
    entry.1.totalTime == TimeOf(segs, entry.0) &&
    entry.1.percentage == Percentage(entry.1.totalTime, total)
  }

  /** A speaker that never talks has no turns and no time. */
  lemma Silent(segs: seq<Segment>, speaker: string)
    requires speaker !in Image(segs, SpeakerOf)
    ensures Count(segs, By(speaker)) == 0 && TimeOf(segs, speaker) == 0.0
  {
    ImageAt(segs, SpeakerOf, speaker);
    NoneSatisfy(segs, By(speaker), Length, SegmentsOfSegment);
  }

  function SegmentsOfSegment(s: Segment): nat {
    1
  }

  /** `d` tallies the segments `done` for the speakers `keys`: each entry holds its count and time among them. */
  ghost predicate Table(done: seq<Segment>, keys: set<string>, d: Dict<string, SpeakerTime>) {
    UniqueKeys(d) && KeySet(d) == keys && SumValues(d, SegmentsOf) == |done| &&
    forall k :: k in keys ==> Lookup(d, k) == Some(SpeakerTime(Count(done, By(k)), TimeOf(done, k), 0.0))
  }

  /** The table after the first `i` segments: one entry for each speaker so far. */
  ghost predicate TalliedUpTo(segs: seq<Segment>, i: nat, d: Dict<string, SpeakerTime>)
    requires i <= |segs|
  {
    Table(segs[..i], Image(segs[..i], SpeakerOf), d)
  }

  /** The table once the speaker of the next segment has an entry, new ones starting at zero. */
  function Opened(d: Dict<string, SpeakerTime>, speaker: string): Dict<string, SpeakerTime> {
    if Lookup(d, speaker).None? then Put(d, speaker, SpeakerTime(0, 0.0, 0.0)) else d
  }

  /** The entry of a speaker with one more segment of the given length. */
  function Bumped(st: SpeakerTime, length: real): SpeakerTime {
    st.(segments := st.segments + 1, totalTime := st.totalTime + length)
  }

  /** Opening an entry for a speaker who has not spoken yet keeps the table exact. */
  lemma OpenStep(done: seq<Segment>, keys: set<string>, d: Dict<string, SpeakerTime>, speaker: string)
    requires Table(done, keys, d) && keys == Image(done, SpeakerOf)
    ensures Table(done, keys + {speaker}, Opened(d, speaker))
  {
    if Lookup(d, speaker).None? {
      var zero := SpeakerTime(0, 0.0, 0.0);
      Silent(done, speaker);
      PutUniqueKeys(d, speaker, zero);
      SumValuesPut(d, speaker, zero, SegmentsOf);
      forall k | k != speaker ensures Lookup(Put(d, speaker, zero), k) == Lookup(d, k) {
        LookupPutOther(d, speaker, zero, k);
      }
    }
  }

  /** Counting one more segment for its (already present) speaker keeps the table exact. */
  lemma BumpStep(done: seq<Segment>, keys: set<string>, d: Dict<string, SpeakerTime>, seg: Segment)
    requires Table(done, keys, d) && seg.speaker in keys
    ensures Table(done + [seg], keys, Put(d, seg.speaker, Bumped(Lookup(d, seg.speaker).value, Length(seg))))
  {
    var speaker := seg.speaker;
    var next := Bumped(Lookup(d, speaker).value, Length(seg));
    var d' := Put(d, speaker, next);
    PutUniqueKeys(d, speaker, next);
    SumValuesPut(d, speaker, next, SegmentsOf);
    assert (done + [seg])[..|done|] == done;
    forall k | k in keys
      ensures Lookup(d', k) == Some(SpeakerTime(Count(done + [seg], By(k)), TimeOf(done + [seg], k), 0.0))
    {
      CountSnoc(done, seg, By(k));
      if k != speaker {
        LookupPutOther(d, speaker, next, k);
      }
    }
  }

  /** One iteration of the counting loop: open an entry for a new speaker, then count the segment. */
  lemma TallyStep(segs: seq<Segment>, i: nat, d: Dict<string, SpeakerTime>)
    requires i < |segs| && TalliedUpTo(segs, i, d)
    ensures var d' := Opened(d, segs[i].speaker);
      Lookup(d', segs[i].speaker).Some? &&
      TalliedUpTo(segs, i + 1, Put(d', segs[i].speaker, Bumped(Lookup(d', segs[i].speaker).value, Length(segs[i]))))
  {
    var keys := Image(segs[..i], SpeakerOf);
    OpenStep(segs[..i], keys, d, segs[i].speaker);
    BumpStep(segs[..i], keys + {segs[i].speaker}, Opened(d, segs[i].speaker), segs[i]);
    assert segs[..i + 1] == segs[..i] + [segs[i]];
    assert segs[..i + 1][..i] == segs[..i];
  }

  /** After the last segment, entry by entry. */
  lemma TallyEntries(segs: seq<Segment>, d: Dict<string, SpeakerTime>)
    requires TalliedUpTo(segs, |segs|, d)
    ensures forall j :: 0 <= j < |d| ==> d[j].1 == SpeakerTime(Count(segs, By(d[j].0)), TimeOf(segs, d[j].0), 0.0)
  {
    assert segs[..|segs|] == segs;
    forall j | 0 <= j < |d|
      ensures d[j].1 == SpeakerTime(Count(segs, By(d[j].0)), TimeOf(segs, d[j].0), 0.0)
    {
      LookupAt(d, j);
      KeySetAt(d, d[j].0);
    }
  }

  /** Setting the percentages keeps keys and counts. */
  lemma Finished(segs: seq<Segment>, total: real, d1: Dict<string, SpeakerTime>, d: Dict<string, SpeakerTime>)
    requires TalliedUpTo(segs, |segs|, d1)
    requires forall j :: 0 <= j < |d1| ==> d1[j].1 == SpeakerTime(Count(segs, By(d1[j].0)), TimeOf(segs, d1[j].0), 0.0)
    requires |d| == |d1|
    requires forall t :: 0 <= t < |d| ==> d[t] == (d1[t].0, d1[t].1.(percentage := Percentage(d1[t].1.totalTime, total)))
    ensures UniqueKeys(d) && KeySet(d) == Image(segs, SpeakerOf)
    ensures |d| == |Image(segs, SpeakerOf)|
    ensures SumValues(d, SegmentsOf) == |segs|
    ensures forall j :: 0 <= j < |d| ==> Tallied(segs, total, d[j])
  {
    assert segs[..|segs|] == segs;
    SameKeys(d1, d);
    SumValuesPointwise(d1, SegmentsOf, d, SegmentsOf);
    UniqueKeysCard(d);
  }

  /** The second loop of `get_speaker_statistics`: each entry gets its share of `total`, in place. */
  method AddPercentages(d: Dict<string, SpeakerTime>, total: real) returns (e: Dict<string, SpeakerTime>)
    ensures |e| == |d|
    ensures forall t :: 0 <= t < |d| ==> e[t] == (d[t].0, d[t].1.(percentage := Percentage(d[t].1.totalTime, total)))
  {
    e := d;
    var j := 0;
    while j < |e|
      invariant 0 <= j <= |e| && |e| == |d|
      invariant forall t :: 0 <= t < j ==> e[t] == (d[t].0, d[t].1.(percentage := Percentage(d[t].1.totalTime, total)))
      invariant forall t :: j <= t < |e| ==> e[t] == d[t]
    {
      var speaker, st := e[j].0, e[j].1;
      e := e[j := (speaker, st.(percentage := Percentage(st.totalTime, total)))];
      j := j + 1;
    }
  }

  /**
   * `get_speaker_statistics`: one entry per distinct speaker, in order of
   * first appearance, whose counts add up to the number of segments; the
   * duration is the latest end. Rounding to two decimals is not modelled.
   */
  method GetSpeakerStatistics(segs: seq<Segment>) returns (stats: SpeakerStatistics)
    ensures segs == [] ==> stats == SpeakerStatistics(0, 0.0, [])
    ensures segs != [] ==> (exists i :: 0 <= i < |segs| && stats.totalDuration == segs[i].end)
    ensures forall i :: 0 <= i < |segs| ==> segs[i].end <= stats.totalDuration
    ensures UniqueKeys(stats.speakers) && KeySet(stats.speakers) == Image(segs, SpeakerOf)
    ensures stats.totalSpeakers == |Image(segs, SpeakerOf)|
    ensures SumValues(stats.speakers, SegmentsOf) == |segs|
    ensures forall j :: 0 <= j < |stats.speakers| ==> Tallied(segs, stats.totalDuration, stats.speakers[j])
  {
    if segs == [] {
      return SpeakerStatistics(0, 0.0, []);
    }
    var total := MaxReal(Ends(segs));
    var d := TallySegments(segs);
    TallyOfTallied(segs);
    TallyEntries(segs, d);
    var e := AddPercentages(d, total);
    Finished(segs, total, d, e);
    return SpeakerStatistics(|e|, total, e);
  }

  /** The table after counting one more segment: its speaker's entry opened if new, then bumped. */
  function Counted(d: Dict<string, SpeakerTime>, seg: Segment): Dict<string, SpeakerTime> {
    var o := Opened(d, seg.speaker);
    Put(o, seg.speaker, Bumped(Lookup(o, seg.speaker).GetOr(SpeakerTime(0, 0.0, 0.0)), Length(seg)))
  }

  /** The table the counting loop of `get_speaker_statistics` builds from `segs`. */
  function TallyOf(segs: seq<Segment>): Dict<string, SpeakerTime> {
    if segs == [] then [] else Counted(TallyOf(segs[..|segs| - 1]), segs[|segs| - 1])
  }

  lemma TallyOfStep(segs: seq<Segment>, i: nat)
    requires i < |segs|
    ensures TallyOf(segs[..i + 1]) == Counted(TallyOf(segs[..i]), segs[i])
  {
    assert segs[..i + 1][..i] == segs[..i];
  }

  /** The table built from the segments holds each speaker's exact count and time. */
  lemma {:induction false} TallyOfTallied(segs: seq<Segment>)
    ensures TalliedUpTo(segs, |segs|, TallyOf(segs))
  {
    if segs == [] {
      assert segs[..0] == [];
    } else {
      var n := |segs| - 1;
      var init := segs[..n];
      TallyOfTallied(init);
      assert init[..|init|] == init;
      TallyStep(segs, n, TallyOf(init));
    }
  }

  /** The body of the counting loop: open the speaker's entry at zero on first sight, then count the segment. */
  method CountSegment(d: Dict<string, SpeakerTime>, seg: Segment) returns (e: Dict<string, SpeakerTime>)
    ensures e == Counted(d, seg)
  {
    var speaker := seg.speaker;
    var duration := seg.end - seg.start;
    e := d;
    if Lookup(e, speaker).None? {
      e := Put(e, speaker, SpeakerTime(0, 0.0, 0.0));
    }
    var cur := Lookup(e, speaker).value;
    e := Put(e, speaker, cur.(segments := cur.segments + 1, totalTime := cur.totalTime + duration));
  }

  /** The counting loop of `get_speaker_statistics`. */
  method TallySegments(segs: seq<Segment>) returns (d: Dict<string, SpeakerTime>)
    ensures d == TallyOf(segs)
  {
    d := [];
    var i := 0;
    while i < |segs|
      invariant 0 <= i <= |segs|
      invariant d == TallyOf(segs[..i])
    {
      TallyOfStep(segs, i);
      d := CountSegment(d, segs[i]);
      i := i + 1;
    }
    assert segs[..|segs|] == segs;
  }

  /** A speaker's time as a share of a total it does not exceed lies between 0 and 100 percent. */
  lemma PercentageBounds(part: real, total: real)
    requires 0.0 <= part <= total
    ensures 0.0 <= Percentage(part, total) <= 100.0
  {
    if total > 0.0 {
      assert part / total <= 1.0;
    }
  }

  // ---------------------------------------------------------------------------
  // Running the diarizer

  /**
   * The diarization model, as seen from the pipeline: loading it can fail
   * (no token, model not accessible), and running it on the recording at a
   * path gives the turns, already rounded, or the exception's message.
   */
  datatype Diarizer = Diarizer(load: Outcome<string>, run: string -> Result<seq<Segment>, string>)

  /**
   * What `run_diarization` returns or raises, before the file is written:
   * the missing recording, then the pipeline's load error, then the run's
   * error wrapped as "Speaker diarization failed: ...", else the turns.
   */
  function Diarize(files: Files, meetingId: string, diarizer: Diarizer): (r: Result<seq<Segment>, Error>)
    ensures GetAudioPath(files, meetingId).Failure? ==> r == Failure(AudioNotFound(meetingId))
    ensures r.Success? ==> diarizer.load == Pass && diarizer.run(GetAudioPath(files, meetingId).value) == Success(r.value)
    ensures GetAudioPath(files, meetingId).Success? && diarizer.load.Fail? ==> r == Failure(Raised(diarizer.load.error))
    ensures GetAudioPath(files, meetingId).Success? && diarizer.load.Pass? ==>
      var run := diarizer.run(GetAudioPath(files, meetingId).value);
      (run.Success? ==> r == Success(run.value)) &&
      (run.Failure? ==> r == Failure(Raised("Speaker diarization failed: " + run.error)))
  {
    var audio :- GetAudioPath(files, meetingId);
    match (diarizer.load, diarizer.run(audio))
    case (Fail(message), _) => Failure(Raised(message))
    case (Pass, Failure(message)) => Failure(Raised("Speaker diarization failed: " + message))
    case (Pass, Success(segs)) => Success(segs)
  }

  /** `run_diarization`: on success the turns are saved as the meeting's diarization file and nothing else is written. */
  method RunDiarization(fs: FileStore, meetingId: string, diarizer: Diarizer) returns (r: Result<seq<Segment>, Error>)
    modifies fs
    ensures r == Diarize(old(fs.files), meetingId, diarizer)
    ensures r.Success? ==> fs.files == old(fs.files)[DiarizationPath(meetingId) := JsonText(EncodeSegments(r.value))]
    ensures r.Success? ==> LoadDiarization(fs.files, meetingId) == Success(r.value)
    ensures r.Failure? ==> fs.files == old(fs.files)
  {
    r := Diarize(fs.files, meetingId, diarizer);
    if r.Success? {
      fs.SaveJson(DiarizationPath(meetingId), EncodeSegments(r.value));
      LoadDiarizationSaved(old(fs.files), meetingId, r.value);
    }
  }
}
