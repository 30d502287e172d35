/**
 * Transcription: every merged diarization turn is cut out of the recording
 * and transcribed, giving the utterances of the transcript; speaker labels
 * can then be replaced by roles, and the transcript summarised per speaker.
 */
module Transcription {
  import opened Wrappers
  import opened Dicts
  import opened Seqs
  import opened Text
  import opened FileSystem
  import opened Schema
  import opened Config
  import opened Storage

  /** The text an utterance gets when the recogniser raised on its audio. */
  const TranscriptionFailed: string := "[TRANSCRIPTION FAILED]"

  /**
   * What cutting one turn out of the recording comes to: the cut exists;
   * ffmpeg exited with an error, which `extract_audio_segment` turns into a
   * `RuntimeError` the loop catches; or any other exception (ffmpeg not
   * installed, say), which nothing catches, with its message.
   */
  datatype Extraction = Extracted | Skipped | Aborted(message: string)

  /**
   * The speech recogniser and the audio cutter, as seen by the loop.
   * `load` is the outcome of loading the model; `extracts(idx, seg)` is the
   * outcome of cutting turn `idx` (1-based) out of the recording;
   * `transcribe(idx, seg)` is the model's text for that cut, or the message
   * of the exception it raised.
   */
  datatype Asr = Asr(
    load: Outcome<string>,
    extracts: (int, Segment) -> Extraction,
    transcribe: (int, Segment) -> Result<string, string>)

  /** The text kept for turn `idx`: the recogniser's, or the failure marker. */
  function TextFor(asr: Asr, idx: int, seg: Segment): string {
    match asr.transcribe(idx, seg)
    case Success(text) => text
    case Failure(_) => TranscriptionFailed
  }

  /** The utterance of turn `idx`, or nothing when its audio could not be cut out. */
  function UtteranceFor(asr: Asr, idx: int, seg: Segment): Option<Utterance> {
    if asr.extracts(idx, seg).Extracted? then Some(Utterance(idx, seg.speaker, seg.start, seg.end, TextFor(asr, idx, seg)))
    else None
  }

  /** The utterances of the turns `segs`, in order: what the loop of `transcribe_segments` collects. */
  function Assembled(asr: Asr, segs: seq<Segment>): seq<Utterance> {
    if segs == [] then []
    else
      var n := |segs|;
      Assembled(asr, segs[..n - 1]) + match UtteranceFor(asr, n, segs[n - 1]) case Some(u) => [u] case None => []
  }

  /**
   * `u` is the utterance of turn `u.id` (1-based): that turn could be cut
   * out, and `u` has its speaker and times and the recogniser's text or the
   * failure marker.
   */
  ghost predicate BuiltFrom(asr: Asr, segs: seq<Segment>, u: Utterance) {
    1 <= u.id <= |segs| &&
    var seg := segs[u.id - 1];
    asr.extracts(u.id, seg).Extracted? &&
    u.speaker == seg.speaker && u.start == seg.start && u.end == seg.end &&
    u.text == (if asr.transcribe(u.id, seg).Failure? then TranscriptionFailed else asr.transcribe(u.id, seg).value)
  }

  /**
   * Every utterance comes from the turn its id names, and ids strictly
   * increase (with gaps where a turn could not be cut out).
   */
  lemma {:induction false} AssembledShape(asr: Asr, segs: seq<Segment>)
    ensures var r := Assembled(asr, segs);
      |r| <= |segs| &&
      (forall k :: 0 <= k < |r| ==> BuiltFrom(asr, segs, r[k])) &&
      (forall k, l :: 0 <= k < l < |r| ==> r[k].id < r[l].id)
  {
    if segs != [] {
      var n := |segs|;
      var init := segs[..n - 1];
      AssembledShape(asr, init);
      var r0 := Assembled(asr, init);
      forall k | 0 <= k < |r0| ensures BuiltFrom(asr, segs, r0[k]) && r0[k].id < n {
        assert init[r0[k].id - 1] == segs[r0[k].id - 1];
      }
    }
  }

  /** Every turn that could be cut out has its utterance. */
  lemma {:induction false} AssembledComplete(asr: Asr, segs: seq<Segment>, idx: int)
    requires 1 <= idx <= |segs| && asr.extracts(idx, segs[idx - 1]).Extracted?
    ensures exists k :: 0 <= k < |Assembled(asr, segs)| && Assembled(asr, segs)[k].id == idx
  {
    var n := |segs|;
    var init := segs[..n - 1];
    var r := Assembled(asr, segs);
    if idx == n {
      assert r[|r| - 1].id == idx;
    } else {
      AssembledComplete(asr, init, idx);
      var k :| 0 <= k < |Assembled(asr, init)| && Assembled(asr, init)[k].id == idx;
      assert r[k] == Assembled(asr, init)[k];
    }
  }

  /** When every turn could be cut out, the ids are exactly 1, 2, ..., one per turn. */
  lemma {:induction false} AssembledAllExtracted(asr: Asr, segs: seq<Segment>)
    requires forall i :: 0 <= i < |segs| ==> asr.extracts(i + 1, segs[i]).Extracted?
    ensures |Assembled(asr, segs)| == |segs|
    ensures forall k :: 0 <= k < |segs| ==> Assembled(asr, segs)[k].id == k + 1
  {
    if segs != [] {
      var init := segs[..|segs| - 1];
      AssembledAllExtracted(asr, init);
    }
  }

  /** The message of the first turn whose extraction raised past the loop, if any. */
  function FirstAbort(asr: Asr, segs: seq<Segment>): Option<string> {
    if segs == [] then None
    else
      var n := |segs|;
      match FirstAbort(asr, segs[..n - 1])
      case Some(message) => Some(message)
      case None => if asr.extracts(n, segs[n - 1]).Aborted? then Some(asr.extracts(n, segs[n - 1]).message) else None
  }

  /** No extraction of the turns `segs` raises past the loop. */
  ghost predicate NoAbort(asr: Asr, segs: seq<Segment>) {
    forall i :: 0 <= i < |segs| ==> !asr.extracts(i + 1, segs[i]).Aborted?
  }

  /**
   * The loop gets through exactly when no extraction aborts; otherwise it
   * stops with the message of the earliest turn that aborted.
   */
  lemma {:induction false} FirstAbortMeaning(asr: Asr, segs: seq<Segment>)
    ensures FirstAbort(asr, segs).None? <==> NoAbort(asr, segs)
    ensures FirstAbort(asr, segs).Some? ==>
      exists i :: 0 <= i < |segs| && asr.extracts(i + 1, segs[i]) == Aborted(FirstAbort(asr, segs).value) &&
        NoAbort(asr, segs[..i])
  {
    if segs != [] {
      var n := |segs|;
      var init := segs[..n - 1];
      FirstAbortMeaning(asr, init);
      assert forall i :: 0 <= i < n - 1 ==> init[i] == segs[i];
      if FirstAbort(asr, init).Some? {
        var i :| 0 <= i < |init| && asr.extracts(i + 1, init[i]) == Aborted(FirstAbort(asr, init).value) && NoAbort(asr, init[..i]);
        assert init[..i] == segs[..i];
      } else if asr.extracts(n, segs[n - 1]).Aborted? {
        assert segs[..n - 1] == init;
      }
    }
  }

  /** An abort in the first `k` turns is the loop's outcome whatever comes after. */
  lemma {:induction false} FirstAbortPrefix(asr: Asr, segs: seq<Segment>, k: nat)
    requires k <= |segs| && FirstAbort(asr, segs[..k]).Some?
    ensures FirstAbort(asr, segs) == FirstAbort(asr, segs[..k])
    decreases |segs|
  {
    if k < |segs| {
      var init := segs[..|segs| - 1];
      assert init[..k] == segs[..k];
      FirstAbortPrefix(asr, init, k);
    } else {
      assert segs[..k] == segs;
    }
  }

  /** What the loop of `transcribe_segments` ends with: the utterances, or the exception that stopped it. */
  function Transcribed(asr: Asr, segs: seq<Segment>): Result<seq<Utterance>, string> {
    match FirstAbort(asr, segs)
    case Some(message) => Failure(message)
    case None => Success(Assembled(asr, segs))
  }

  /**
   * The loop of `transcribe_segments`: a turn whose cut fails in ffmpeg is
   * skipped; any other exception from the cut leaves the loop.
   */
  method BuildUtterances(asr: Asr, segs: seq<Segment>) returns (r: Result<seq<Utterance>, string>)
    ensures r == Transcribed(asr, segs)
  {
    var utterances := [];
    var idx := 1;
    while idx <= |segs|
      invariant 1 <= idx <= |segs| + 1
      invariant FirstAbort(asr, segs[..idx - 1]).None?
      invariant utterances == Assembled(asr, segs[..idx - 1])
    {
      var segment := segs[idx - 1];
      assert segs[..idx][..idx - 1] == segs[..idx - 1];
      match asr.extracts(idx, segment) {
        case Aborted(message) =>
          FirstAbortPrefix(asr, segs, idx);
          return Failure(message);
        case Skipped =>
          idx := idx + 1;
          continue;
        case Extracted =>
      }
      var text;
      match asr.transcribe(idx, segment) {
        case Success(t) => text := t;
        case Failure(_) => text := TranscriptionFailed;
      }
      utterances := utterances + [Utterance(idx, segment.speaker, segment.start, segment.end, text)];
      idx := idx + 1;
    }
    assert segs[..|segs|] == segs;
    return Success(utterances);
  }

  /** Python's `value or default` on an optional string: `None` and `""` give the default. */
  function OrElse(value: Option<string>, default: string): (r: string)
    ensures value.Some? && value.value != "" ==> r == value.value
    ensures value.None? || value.value == "" ==> r == default
  {
    if value.Some? && value.value != "" then value.value else default
  }

  function UtteranceEnds(us: seq<Utterance>): (r: seq<real>)
    ensures |r| == |us| && forall i :: 0 <= i < |us| ==> r[i] == us[i].end
  {
    seq(|us|, i requires 0 <= i < |us| => us[i].end)
  }

  /** The latest end of an utterance, 0.0 when there are none. */
  function LatestEnd(us: seq<Utterance>): (d: real)
    ensures us == [] ==> d == 0.0
    ensures us != [] ==> (exists i :: 0 <= i < |us| && d == us[i].end) && forall i :: 0 <= i < |us| ==> us[i].end <= d
  {
    if us == [] then 0.0
    else
      var m := MaxReal(UtteranceEnds(us));
      assert exists i :: 0 <= i < |us| && m == UtteranceEnds(us)[i];
      m
  }

  /** The document `transcribe_segments` writes for the utterances `us`. */
  function MakeTranscript(meetingId: string, title: Option<string>, us: seq<Utterance>): (t: Transcript)
    ensures t.meetingId == meetingId && t.utterances == us
    ensures t.title == OrElse(title, "Meeting " + meetingId)
    ensures t.metadata.totalUtterances == |us|
    ensures us == [] ==> t.metadata.totalDuration == 0.0
    ensures forall i :: 0 <= i < |us| ==> us[i].end <= t.metadata.totalDuration
    ensures us != [] ==> exists i :: 0 <= i < |us| && t.metadata.totalDuration == us[i].end
    ensures t.metadata.whisperModel == WhisperModel && t.metadata.whisperLanguage == WhisperLanguage
  {
    Transcript(meetingId, OrElse(title, "Meeting " + meetingId), us,
      Metadata(|us|, LatestEnd(us), WhisperModel, WhisperLanguage))
  }

  /** The message of the error raised when the recogniser cannot be loaded. */
  function LoadFailure(message: string): string {
    "Could not load Whisper model '" + WhisperModel + "'. Error: " + message +
    "\nTry installing: pip install faster-whisper --break-system-packages"
  }

  /**
   * `transcribe_segments`: fails before writing anything when the recording
   * is missing, the recogniser cannot be loaded or an extraction raises
   * past the loop; otherwise writes the whole transcript and returns its
   * utterances.
   */
  method TranscribeSegments(fs: FileStore, meetingId: string, segs: seq<Segment>, title: Option<string>, asr: Asr)
    returns (r: Result<seq<Utterance>, Error>)
    modifies fs
    ensures GetAudioPath(old(fs.files), meetingId).Failure? ==>
      r == Failure(AudioNotFound(meetingId)) && fs.files == old(fs.files)
    ensures GetAudioPath(old(fs.files), meetingId).Success? && asr.load.Fail? ==>
      r == Failure(Raised(LoadFailure(asr.load.error))) && fs.files == old(fs.files)
    ensures GetAudioPath(old(fs.files), meetingId).Success? && asr.load.Pass? && Transcribed(asr, segs).Failure? ==>
      r == Failure(Raised(Transcribed(asr, segs).error)) && fs.files == old(fs.files)
    ensures GetAudioPath(old(fs.files), meetingId).Success? && asr.load.Pass? && Transcribed(asr, segs).Success? ==>
      r == Success(Assembled(asr, segs)) &&
      fs.files == old(fs.files)[TranscriptPath(meetingId) := JsonText(EncodeTranscript(MakeTranscript(meetingId, title, r.value)))]
    ensures r.Success? ==> GetUtterances(fs.files, meetingId) == Success(r.value)
  {
    var audio := GetAudioPath(fs.files, meetingId);
    if audio.Failure? {
      return Failure(audio.error);
    }
    if asr.load.Fail? {
      return Failure(Raised(LoadFailure(asr.load.error)));
    }
    var built := BuildUtterances(asr, segs);
    if built.Failure? {
      return Failure(Raised(built.error));
    }
    var utterances := built.value;
    var transcript := MakeTranscript(meetingId, title, utterances);
    fs.SaveJson(TranscriptPath(meetingId), EncodeTranscript(transcript));
    GetUtterancesSaved(old(fs.files), meetingId, transcript);
    return Success(utterances);
  }

  // ---------------------------------------------------------------------------
  // Speaker labels

  /** One utterance with its label replaced by the mapped role, when the label is a key of the map. */
  function Relabel(u: Utterance, m: SpeakerMap): Utterance {
    match Lookup(m, u.speaker)
    case Some(role) => u.(speaker := role)
    case None => u
  }

  /** The utterances after `apply_speaker_map`. */
  function Relabelled(us: seq<Utterance>, m: SpeakerMap): (r: seq<Utterance>)
    ensures |r| == |us|
  {
    seq(|us|, i requires 0 <= i < |us| => Relabel(us[i], m))
  }

  /**
   * Only the speaker changes, and only where it is a key of the map; order,
   * length, ids, times and texts stay.
   */
  lemma RelabelledAt(us: seq<Utterance>, m: SpeakerMap, i: int)
    requires 0 <= i < |us|
    ensures var u, v := us[i], Relabelled(us, m)[i];
      v.id == u.id && v.start == u.start && v.end == u.end && v.text == u.text &&
      (u.speaker in KeySet(m) ==> v.speaker == Lookup(m, u.speaker).value) &&
      (u.speaker !in KeySet(m) ==> v.speaker == u.speaker)
  {
  }

  /** An empty map changes nothing. */
  lemma RelabelledEmpty(us: seq<Utterance>)
    ensures Relabelled(us, []) == us
  {
    assert forall i :: 0 <= i < |us| ==> Relabelled(us, [])[i] == us[i];
  }

  /** `apply_speaker_map`: rewrites the speakers of the list in place; an empty map leaves it alone. */
  method ApplySpeakerMap(us: array<Utterance>, m: SpeakerMap)
    modifies us
    ensures us[..] == Relabelled(old(us[..]), m)
  {
    if m == [] {
      RelabelledEmpty(us[..]);
      return;
    }
    var i := 0;
    while i < us.Length
      invariant 0 <= i <= us.Length
      invariant forall k :: 0 <= k < i ==> us[k] == Relabel(old(us[k]), m)
      invariant forall k :: i <= k < us.Length ==> us[k] == old(us[k])
    {
      var original := us[i].speaker;
      var role := Lookup(m, original);
      if role.Some? {
        us[i] := us[i].(speaker := role.value);
      }
      i := i + 1;
    }
  }

  // ---------------------------------------------------------------------------
  // Summary

  datatype SpeakerSummary = SpeakerSummary(utterances: nat, words: nat, duration: real, wordPercentage: real)

  datatype TranscriptSummary = TranscriptSummary(
    totalUtterances: nat, totalDuration: real, totalWords: nat, speakers: Dict<string, SpeakerSummary>)

  function SpeakerOf(u: Utterance): string {
    u.speaker
  }

  function By(speaker: string): Utterance -> bool {
    (u: Utterance) => u.speaker == speaker
  }

  /** `len(u["text"].split())`. */
  function WordCount(u: Utterance): nat {
    |Words(u.text)|
  }

  function Span(u: Utterance): real {
    u.end - u.start
  }

  function Any(u: Utterance): bool {
    true
  }

  function UtterancesOfEntry(s: SpeakerSummary): nat {
    s.utterances
  }

  function WordsOfEntry(s: SpeakerSummary): nat {
    s.words
  }

  /** The number of words in all utterances. */
  function TotalWords(us: seq<Utterance>): nat {
    SumNatWhere(us, Any, WordCount)
  }

  /** A speaker's share of all words in percent; 0 when there are no words. */
  function WordPercentage(words: nat, total: nat): real {
    if total > 0 then (words as real) / (total as real) * 100.0 else 0.0
  }

  /** The entry of a speaker counts its utterances, words and speaking time, before percentages are added. */
  function Tally(done: seq<Utterance>, speaker: string): SpeakerSummary {
    SpeakerSummary(Count(done, By(speaker)), SumNatWhere(done, By(speaker), WordCount), SumRealWhere(done, By(speaker), Span), 0.0)
  }

  /** `d` tallies the utterances `done`: one exact entry per speaker, whose counts add up. */
  ghost predicate Tallies(done: seq<Utterance>, keys: set<string>, d: Dict<string, SpeakerSummary>) {
    UniqueKeys(d) && KeySet(d) == keys &&
    SumValues(d, UtterancesOfEntry) == |done| && SumValues(d, WordsOfEntry) == TotalWords(done) &&
    forall k :: k in keys ==> Lookup(d, k) == Some(Tally(done, k))
  }

  function Opened(d: Dict<string, SpeakerSummary>, speaker: string): Dict<string, SpeakerSummary> {
    if Lookup(d, speaker).None? then Put(d, speaker, SpeakerSummary(0, 0, 0.0, 0.0)) else d
  }

  function Bumped(s: SpeakerSummary, u: Utterance): SpeakerSummary {
    s.(utterances := s.utterances + 1, words := s.words + WordCount(u), duration := s.duration + Span(u))
  }

  /** A speaker with no utterances has nothing counted. */
  lemma Silent(done: seq<Utterance>, speaker: string)
    requires speaker !in Image(done, SpeakerOf)
    ensures Tally(done, speaker) == SpeakerSummary(0, 0, 0.0, 0.0)
  {
    ImageAt(done, SpeakerOf, speaker);
    NoneSatisfy(done, By(speaker), Span, WordCount);
  }

  lemma OpenStep(done: seq<Utterance>, d: Dict<string, SpeakerSummary>, speaker: string)
    requires Tallies(done, Image(done, SpeakerOf), d)
    ensures Tallies(done, Image(done, SpeakerOf) + {speaker}, Opened(d, speaker))
  {
    if Lookup(d, speaker).None? {
      var zero := SpeakerSummary(0, 0, 0.0, 0.0);
      Silent(done, speaker);
      PutUniqueKeys(d, speaker, zero);
      SumValuesPut(d, speaker, zero, UtterancesOfEntry);
      SumValuesPut(d, speaker, zero, WordsOfEntry);
      forall k | k != speaker ensures Lookup(Put(d, speaker, zero), k) == Lookup(d, k) {
        LookupPutOther(d, speaker, zero, k);
      }
    }
  }

  lemma BumpStep(done: seq<Utterance>, keys: set<string>, d: Dict<string, SpeakerSummary>, u: Utterance)
    requires Tallies(done, keys, d) && u.speaker in keys
    ensures Tallies(done + [u], keys, Put(d, u.speaker, Bumped(Lookup(d, u.speaker).value, u)))
  {
    var next := Bumped(Lookup(d, u.speaker).value, u);
    var d' := Put(d, u.speaker, next);
    PutUniqueKeys(d, u.speaker, next);
    SumValuesPut(d, u.speaker, next, UtterancesOfEntry);
    SumValuesPut(d, u.speaker, next, WordsOfEntry);
    assert (done + [u])[..|done|] == done;
    forall k | k in keys ensures Lookup(d', k) == Some(Tally(done + [u], k)) {
      CountSnoc(done, u, By(k));
      if k != u.speaker {
        LookupPutOther(d, u.speaker, next, k);
      }
    }
  }

  /** One iteration of the counting loop keeps the table exact for the utterances seen so far. */
  lemma TallyStep(us: seq<Utterance>, i: nat, d: Dict<string, SpeakerSummary>)
    requires i < |us| && Tallies(us[..i], Image(us[..i], SpeakerOf), d)
    ensures var d' := Opened(d, us[i].speaker);
      Lookup(d', us[i].speaker).Some? &&
      Tallies(us[..i + 1], Image(us[..i + 1], SpeakerOf), Put(d', us[i].speaker, Bumped(Lookup(d', us[i].speaker).value, us[i])))
  {
    OpenStep(us[..i], d, us[i].speaker);
    BumpStep(us[..i], Image(us[..i], SpeakerOf) + {us[i].speaker}, Opened(d, us[i].speaker), us[i]);
    assert us[..i + 1] == us[..i] + [us[i]];
    assert us[..i + 1][..i] == us[..i];
  }

  /** The entry of a speaker, with the share of words filled in. */
  predicate Summarised(us: seq<Utterance>, totalWords: nat, entry: (string, SpeakerSummary)) {
    var t := Tally(us, entry.0);
    entry.1 == t.(wordPercentage := WordPercentage(t.words, totalWords))
  }

  /** After the loop, entry by entry. */
  lemma TallyEntries(us: seq<Utterance>, d: Dict<string, SpeakerSummary>)
    requires Tallies(us, Image(us, SpeakerOf), d)
    ensures forall j :: 0 <= j < |d| ==> d[j].1 == Tally(us, d[j].0)
  {
    forall j | 0 <= j < |d| ensures d[j].1 == Tally(us, d[j].0) {
      LookupAt(d, j);
      KeySetAt(d, d[j].0);
    }
  }

  /** Percentages added in place keep keys and sums. */
  lemma Finished(us: seq<Utterance>, d1: Dict<string, SpeakerSummary>, d: Dict<string, SpeakerSummary>)
    requires Tallies(us, Image(us, SpeakerOf), d1)
    requires forall j :: 0 <= j < |d1| ==> d1[j].1 == Tally(us, d1[j].0)
    requires |d| == |d1|
    requires forall t :: 0 <= t < |d| ==> d[t] == (d1[t].0, d1[t].1.(wordPercentage := WordPercentage(d1[t].1.words, TotalWords(us))))
    ensures UniqueKeys(d) && KeySet(d) == Image(us, SpeakerOf)
    ensures SumValues(d, UtterancesOfEntry) == |us| && SumValues(d, WordsOfEntry) == TotalWords(us)
    ensures forall j :: 0 <= j < |d| ==> Summarised(us, TotalWords(us), d[j])
  {
    SameKeys(d1, d);
    SumValuesPointwise(d1, UtterancesOfEntry, d, UtterancesOfEntry);
    SumValuesPointwise(d1, WordsOfEntry, d, WordsOfEntry);
  }

  /** The second loop of `get_transcript_summary`: each entry gets its share of the words. */
  method AddWordPercentages(d: Dict<string, SpeakerSummary>, totalWords: nat) returns (e: Dict<string, SpeakerSummary>)
    ensures |e| == |d|
    ensures forall t :: 0 <= t < |d| ==> e[t] == (d[t].0, d[t].1.(wordPercentage := WordPercentage(d[t].1.words, totalWords)))
  {
    e := d;
    var j := 0;
    while j < |e|
      invariant 0 <= j <= |e| && |e| == |d|
      invariant forall t :: 0 <= t < j ==> e[t] == (d[t].0, d[t].1.(wordPercentage := WordPercentage(d[t].1.words, totalWords)))
      invariant forall t :: j <= t < |e| ==> e[t] == d[t]
    {
      var speaker, stats := e[j].0, e[j].1;
      e := e[j := (speaker, stats.(wordPercentage := WordPercentage(stats.words, totalWords)))];
      j := j + 1;
    }
  }

  /**
   * `get_transcript_summary`: all zeros for no utterances; otherwise one
   * entry per distinct speaker, whose utterance counts add up to the total
   * and whose word counts add up to the total number of words. Rounding to
   * two decimals is not modelled.
   */
  method GetTranscriptSummary(us: seq<Utterance>) returns (s: TranscriptSummary)
    ensures us == [] ==> s == TranscriptSummary(0, 0.0, 0, [])
    ensures s.totalUtterances == |us| && s.totalWords == TotalWords(us)
    ensures s.totalDuration == LatestEnd(us)
    ensures UniqueKeys(s.speakers) && KeySet(s.speakers) == Image(us, SpeakerOf)
    ensures SumValues(s.speakers, UtterancesOfEntry) == s.totalUtterances
    ensures SumValues(s.speakers, WordsOfEntry) == s.totalWords
    ensures forall j :: 0 <= j < |s.speakers| ==> Summarised(us, s.totalWords, s.speakers[j])
  {
    if us == [] {
      return TranscriptSummary(0, 0.0, 0, []);
    }
    var totalDuration := LatestEnd(us);
    var totalWords := TotalWords(us);
    var d := TallyUtterances(us);
    TallyOfTallies(us);
    TallyEntries(us, d);
    var e := AddWordPercentages(d, totalWords);
    Finished(us, d, e);
    return TranscriptSummary(|us|, totalDuration, totalWords, e);
  }

  /** The table after counting one more utterance: its speaker's entry opened if new, then bumped. */
  function Counted(d: Dict<string, SpeakerSummary>, u: Utterance): Dict<string, SpeakerSummary> {
    var o := Opened(d, u.speaker);
    Put(o, u.speaker, Bumped(Lookup(o, u.speaker).GetOr(SpeakerSummary(0, 0, 0.0, 0.0)), u))
  }

  /** The table the counting loop of `get_transcript_summary` builds from `us`. */
  function TallyOf(us: seq<Utterance>): Dict<string, SpeakerSummary> {
    if us == [] then [] else Counted(TallyOf(us[..|us| - 1]), us[|us| - 1])
  }

  lemma TallyOfStep(us: seq<Utterance>, i: nat)
    requires i < |us|
    ensures TallyOf(us[..i + 1]) == Counted(TallyOf(us[..i]), us[i])
  {
    assert us[..i + 1][..i] == us[..i];
  }

  /** The table built from the utterances holds each speaker's exact counts, words and time. */
  lemma {:induction false} TallyOfTallies(us: seq<Utterance>)
    ensures Tallies(us, Image(us, SpeakerOf), TallyOf(us))
  {
    if us != [] {
      var n := |us| - 1;
      var init := us[..n];
      TallyOfTallies(init);
      TallyStep(us, n, TallyOf(init));
      assert us[..n + 1] == us;
    }
  }

  /** The body of the counting loop: open the speaker's entry at zero on first sight, then count the utterance. */
  method CountUtterance(d: Dict<string, SpeakerSummary>, u: Utterance) returns (e: Dict<string, SpeakerSummary>)
    ensures e == Counted(d, u)
  {
    var speaker := u.speaker;
    e := d;
    if Lookup(e, speaker).None? {
      e := Put(e, speaker, SpeakerSummary(0, 0, 0.0, 0.0));
    }
    var cur := Lookup(e, speaker).value;
    e := Put(e, speaker, cur.(utterances := cur.utterances + 1, words := cur.words + |Words(u.text)|,
      duration := cur.duration + (u.end - u.start)));
  }

  /** The counting loop of `get_transcript_summary`. */
  method TallyUtterances(us: seq<Utterance>) returns (d: Dict<string, SpeakerSummary>)
    ensures d == TallyOf(us)
  {
    d := [];
    var i := 0;
    while i < |us|
      invariant 0 <= i <= |us|
      invariant d == TallyOf(us[..i])
    {
      TallyOfStep(us, i);
      d := CountUtterance(d, us[i]);
      i := i + 1;
    }
    assert us[..|us|] == us;
  }


}
