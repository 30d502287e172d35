/**
 * Where the pipeline keeps its files, and the checks on meeting ids and
 * recordings. Paths are relative to the project's base directory.
 */
module Config {
  import opened Wrappers
  import opened FileSystem

  const RecordingsDir: string := "recordings/"
  const ProcessedDir: string := "meetings/processed/"
  const SpeakerMapDir: string := "meetings/speaker_maps/"
  const CollectionPrefix: string := "meeting_"

  /** Default number of results a search returns. */
  const RetrievalTopK: int := 10

  const WhisperModel: string := "medium.en"
  const WhisperLanguage: string := "en"

  /** The recording formats, in the order they are looked for. */
  const AudioExtensions: seq<string> := [".wav", ".mp3", ".m4a", ".flac", ".ogg"]

  function DiarizationPath(meetingId: string): string {
    ProcessedDir + meetingId + "_diarization.json"
  }

  function TranscriptPath(meetingId: string): string {
    ProcessedDir + meetingId + "_transcript.json"
  }

  function SpeakerMapPath(meetingId: string): string {
    SpeakerMapDir + meetingId + "_speaker_map.json"
  }

  function ChromaPersistDir(meetingId: string): string {
    ProcessedDir + meetingId + "_embeddings"
  }

  function RecordingPath(meetingId: string, ext: string): string {
    RecordingsDir + meetingId + ext
  }

  /** The vector collection of a meeting: the prefix followed by the id, from which the id can be read back. */
  function ChromaCollectionName(meetingId: string): (r: string)
    ensures |r| == |CollectionPrefix| + |meetingId|
    ensures r[..|CollectionPrefix|] == CollectionPrefix && r[|CollectionPrefix|..] == meetingId
  {
    CollectionPrefix + meetingId
  }

  /** Two strings built from the same prefix and suffix around different middles differ. */
  lemma {:induction false} AffixesCancel(p: string, a: string, b: string, s: string)
    requires p + a + s == p + b + s
    ensures a == b
  {
    var x := p + a + s;
    assert |a| == |b|;
    assert a == x[|p|..|p| + |a|];
    assert b == (p + b + s)[|p|..|p| + |b|];
  }

  /** Distinct meetings never share a file, of any kind. */
  lemma PathsInjective(a: string, b: string)
    requires a != b
    ensures DiarizationPath(a) != DiarizationPath(b)
    ensures TranscriptPath(a) != TranscriptPath(b)
    ensures SpeakerMapPath(a) != SpeakerMapPath(b)
    ensures ChromaPersistDir(a) != ChromaPersistDir(b)
    ensures ChromaCollectionName(a) != ChromaCollectionName(b)
  {
    if DiarizationPath(a) == DiarizationPath(b) {
      AffixesCancel(ProcessedDir, a, b, "_diarization.json");
    }
    if TranscriptPath(a) == TranscriptPath(b) {
      AffixesCancel(ProcessedDir, a, b, "_transcript.json");
    }
    if SpeakerMapPath(a) == SpeakerMapPath(b) {
      AffixesCancel(SpeakerMapDir, a, b, "_speaker_map.json");
    }
    if ChromaPersistDir(a) == ChromaPersistDir(b) {
      AffixesCancel(ProcessedDir, a, b, "_embeddings");
    }
    if ChromaCollectionName(a) == ChromaCollectionName(b) {
      AffixesCancel(CollectionPrefix, a, b, "");
    }
  }

  /** The character `k` places from the end of `x + s` is that of `s`. */
  lemma EndChar(x: string, s: string, k: nat)
    requires 0 < k <= |s|
    ensures (x + s)[|x + s| - k] == s[|s| - k]
  {
  }

  /**
   * Files of different kinds never coincide, for the same meeting or for two
   * different ones: the directories or the fixed suffixes tell them apart.
   */
  lemma PathKindsDistinct(a: string, b: string, ext: string)
    ensures TranscriptPath(a) != DiarizationPath(b)
    ensures TranscriptPath(a) != SpeakerMapPath(b)
    ensures DiarizationPath(a) != SpeakerMapPath(b)
    ensures ChromaPersistDir(a) != TranscriptPath(b) && ChromaPersistDir(a) != DiarizationPath(b)
    ensures RecordingPath(a, ext) != TranscriptPath(b) && RecordingPath(a, ext) != DiarizationPath(b)
    ensures RecordingPath(a, ext) != SpeakerMapPath(b)
  {
    EndChar(ProcessedDir + a, "_transcript.json", 6);
    EndChar(ProcessedDir + b, "_diarization.json", 6);
    EndChar(ProcessedDir + a, "_embeddings", 1);
    EndChar(ProcessedDir + b, "_transcript.json", 1);
    EndChar(ProcessedDir + b, "_diarization.json", 1);
    assert TranscriptPath(a)[9] == 'p' && SpeakerMapPath(b)[9] == 's';
    assert DiarizationPath(a)[9] == 'p';
    assert RecordingPath(a, ext)[0] == 'r' && TranscriptPath(b)[0] == 'm';
    assert DiarizationPath(b)[0] == 'm' && SpeakerMapPath(b)[0] == 'm';
  }

  /** The characters of `[a-zA-Z0-9_-]`. */
  predicate IsIdChar(c: char) {
    ('a' <= c <= 'z') || ('A' <= c <= 'Z') || ('0' <= c <= '9') || c == '_' || c == '-'
  }

  /** How far the greedy `[a-zA-Z0-9_-]+` reaches from the start of `s`: the longest prefix of id characters. */
  function IdRun(s: string): (n: nat)
    ensures n <= |s|
    ensures forall i :: 0 <= i < n ==> IsIdChar(s[i])
    ensures n < |s| ==> !IsIdChar(s[n])
  {
    if s == [] || !IsIdChar(s[0]) then 0
    else
      assert forall i :: 1 <= i < |s| ==> s[i] == s[1..][i - 1];
      1 + IdRun(s[1..])
  }

  /**
   * `re.match(r"^[a-zA-Z0-9_-]+$", meeting_id)` after the empty-id test.
   * Without MULTILINE, `$` matches at the end of the string and also just
   * before a newline that ends it; backtracking cannot help, since giving up
   * an id character leaves an id character where `$` would have to match.
   */
  predicate ValidateMeetingIdAsWritten(meetingId: string) {
    meetingId != [] &&
    var n := IdRun(meetingId);
    n >= 1 && (n == |meetingId| || (n == |meetingId| - 1 && meetingId[n] == '\n'))
  }

  /** The intended check: the whole id matches the character class (`re.fullmatch`). */
  predicate ValidateMeetingId(meetingId: string) {
    meetingId != [] && IdRun(meetingId) == |meetingId|
  }

  /** An id is valid iff it is non-empty and each of its characters is in `[a-zA-Z0-9_-]`. */
  lemma ValidateMeetingIdMeaning(meetingId: string)
    ensures ValidateMeetingId(meetingId) <==> meetingId != [] && forall i :: 0 <= i < |meetingId| ==> IsIdChar(meetingId[i])
  {
  }

  /** The check as written accepts exactly the valid ids and the valid ids followed by one newline. */
  lemma ValidateMeetingIdAsWrittenMeaning(meetingId: string)
    ensures ValidateMeetingIdAsWritten(meetingId) <==>
      ValidateMeetingId(meetingId) ||
      (|meetingId| >= 2 && meetingId[|meetingId| - 1] == '\n' && ValidateMeetingId(meetingId[..|meetingId| - 1]))
  {
    var n := |meetingId|;
    if n >= 2 && meetingId[n - 1] == '\n' {
      var init := meetingId[..n - 1];
      assert IsIdChar(meetingId[n - 1]) == false;
      if ValidateMeetingId(init) {
        ValidateMeetingIdMeaning(init);
        assert forall i :: 0 <= i < n - 1 ==> meetingId[i] == init[i];
        assert IdRun(meetingId) >= n - 1;
      }
      if ValidateMeetingIdAsWritten(meetingId) && IdRun(meetingId) == n - 1 {
        ValidateMeetingIdMeaning(init);
        assert forall i :: 0 <= i < n - 1 ==> meetingId[i] == init[i];
      }
    }
  }

  /** The trailing newline the as-written check lets through. */
  lemma TrailingNewlineAccepted()
    ensures ValidateMeetingIdAsWritten("q3_call\n")
    ensures !ValidateMeetingId("q3_call\n")
  {
    ValidateMeetingIdAsWrittenMeaning("q3_call\n");
    assert "q3_call\n"[..7] == "q3_call";
    ValidateMeetingIdMeaning("q3_call");
    ValidateMeetingIdMeaning("q3_call\n");
    assert !IsIdChar("q3_call\n"[7]);
  }

  /** Extension `exts[k]` is the first in `exts` for which a recording of the meeting exists. */
  ghost predicate FirstExisting(files: Files, meetingId: string, exts: seq<string>, k: int) {
    0 <= k < |exts| && RecordingPath(meetingId, exts[k]) in files &&
    forall j :: 0 <= j < k ==> RecordingPath(meetingId, exts[j]) !in files
  }

  /** The first extension in `exts` for which the recording exists, as its path. */
  function FindRecording(files: Files, meetingId: string, exts: seq<string>): (r: Option<string>)
    ensures r.None? <==> forall k :: 0 <= k < |exts| ==> RecordingPath(meetingId, exts[k]) !in files
    ensures r.Some? ==> exists k :: FirstExisting(files, meetingId, exts, k) && r.value == RecordingPath(meetingId, exts[k])
  {
    if exts == [] then None
    else if RecordingPath(meetingId, exts[0]) in files then
      assert FirstExisting(files, meetingId, exts, 0);
      Some(RecordingPath(meetingId, exts[0]))
    else
      var r := FindRecording(files, meetingId, exts[1..]);
      assert forall k :: 1 <= k < |exts| ==> exts[k] == exts[1..][k - 1];
      if r.Some? then
        assert exists k :: FirstExisting(files, meetingId, exts, k) && r.value == RecordingPath(meetingId, exts[k]) by {
          var k :| FirstExisting(files, meetingId, exts[1..], k) && r.value == RecordingPath(meetingId, exts[1..][k]);
          assert FirstExisting(files, meetingId, exts, k + 1);
        }
        r
      else r
  }

  /** `get_audio_path`: the recording in the first format present, or the error when there is none. */
  function GetAudioPath(files: Files, meetingId: string): (r: Result<string, Error>)
    ensures r.Failure? <==> forall k :: 0 <= k < |AudioExtensions| ==> RecordingPath(meetingId, AudioExtensions[k]) !in files
    ensures r.Failure? ==> r.error == AudioNotFound(meetingId)
    ensures r.Success? ==> exists k :: FirstExisting(files, meetingId, AudioExtensions, k) && r.value == RecordingPath(meetingId, AudioExtensions[k])
  {
    match FindRecording(files, meetingId, AudioExtensions)
    case Some(path) => Success(path)
    case None => Failure(AudioNotFound(meetingId))
  }

  /** A wav recording is preferred over any other format present. */
  lemma WavFirst(files: Files, meetingId: string)
    requires RecordingPath(meetingId, ".wav") in files
    ensures GetAudioPath(files, meetingId) == Success(RecordingPath(meetingId, ".wav"))
  {
  }

  /** A meeting is processed once its transcript file exists. */
  predicate MeetingIsProcessed(files: Files, meetingId: string) {
    TranscriptPath(meetingId) in files
  }

  /**
   * Only writing the meeting's own transcript marks it processed: another
   * meeting's transcript, or any diarization or speaker-map file, leaves
   * the answer as it was.
   */
  lemma ProcessedAfterWrite(files: Files, meetingId: string, other: string, body: FileBody)
    ensures MeetingIsProcessed(files[TranscriptPath(other) := body], meetingId) <==>
      other == meetingId || MeetingIsProcessed(files, meetingId)
    ensures MeetingIsProcessed(files[DiarizationPath(other) := body], meetingId) == MeetingIsProcessed(files, meetingId)
    ensures MeetingIsProcessed(files[SpeakerMapPath(other) := body], meetingId) == MeetingIsProcessed(files, meetingId)
  {
    if other != meetingId {
      PathsInjective(other, meetingId);
    }
    PathKindsDistinct(meetingId, other, "");
  }
}
