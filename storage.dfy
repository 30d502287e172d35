/**
 * Reading and writing the meeting files, and the three transcript filters:
 * by speaker, by keyword and by time range.
 */
module Storage {
  import opened Wrappers
  import opened Dicts
  import opened Seqs
  import opened Text
  import opened JsonModel
  import opened FileSystem
  import opened Schema
  import opened Config

  /** `load_json(path)`: the document, `FileNotFoundError` for a missing file, a decode error for one that is not JSON. */
  function LoadJson(files: Files, path: string): (r: Result<Json, Error>)
    ensures r.Success? <==> path in files && files[path].JsonText?
    ensures path !in files ==> r == Failure(FileNotFound(path))
    ensures path in files && files[path].Unparseable? ==> r == Failure(Malformed(path))
    ensures r.Success? ==> r.value == files[path].doc
  {
    if path !in files then Failure(FileNotFound(path))
    else match files[path]
      case JsonText(doc) => Success(doc)
      case Unparseable => Failure(Malformed(path))
  }

  /** The files of the project, which the pipeline's steps overwrite one by one. */
  class FileStore {
    var files: Files

    constructor (initial: Files)
      ensures files == initial
    {
      files := initial;
    }

    /** `save_json(path, data)`: the file holds `data` afterwards and no other file changes. */
    method SaveJson(path: string, data: Json)
      modifies this
      ensures files == old(files)[path := JsonText(data)]
      ensures LoadJson(files, path) == Success(data)
      ensures forall p :: p != path ==> LoadJson(files, p) == LoadJson(old(files), p)
    {
      files := files[path := JsonText(data)];
    }

    /** `save_speaker_map`: the map is stored as a JSON object and loads back as the same dict. */
    method SaveSpeakerMap(meetingId: string, m: SpeakerMap)
      modifies this
      ensures files == old(files)[SpeakerMapPath(meetingId) := JsonText(EncodeSpeakerMap(m))]
      ensures LoadSpeakerMap(files, meetingId) == Success(Some(FromPairs(m)))
      ensures UniqueKeys(m) ==> LoadSpeakerMap(files, meetingId) == Success(Some(m))
    {
      SaveJson(SpeakerMapPath(meetingId), EncodeSpeakerMap(m));
      DecodeEncodeSpeakerMap(m);
    }
  }

  /** A value `len` accepts: a string, a list or a dict; a missing key stands for the default `[]`. */
  predicate HasLength(j: Option<Json>) {
    j.None? || j.value.Str? || j.value.Arr? || j.value.Obj?
  }

  /**
   * `load_transcript`: the document of the transcript file. Logging
   * `len(transcript.get("utterances", []))` raises unless the document is
   * a dict whose utterances, if present, have a length.
   */
  function LoadTranscript(files: Files, meetingId: string): (r: Result<Json, Error>)
    ensures LoadJson(files, TranscriptPath(meetingId)).Failure? ==> r == LoadJson(files, TranscriptPath(meetingId))
    ensures r.Success? <==>
      LoadJson(files, TranscriptPath(meetingId)).Success? &&
      files[TranscriptPath(meetingId)].doc.Obj? && HasLength(Field(files[TranscriptPath(meetingId)].doc, "utterances"))
    ensures LoadJson(files, TranscriptPath(meetingId)).Success? && r.Failure? ==> r == Failure(Malformed(TranscriptPath(meetingId)))
    ensures r.Success? ==> r.value == files[TranscriptPath(meetingId)].doc && r.value.Obj?
    ensures r.Success? ==> MeetingIsProcessed(files, meetingId)
  {
    var path := TranscriptPath(meetingId);
    var doc :- LoadJson(files, path);
    if doc.Obj? && HasLength(Field(doc, "utterances")) then Success(doc) else Failure(Malformed(path))
  }

  /** `load_diarization`: the segments of the diarization file. */
  function LoadDiarization(files: Files, meetingId: string): (r: Result<seq<Segment>, Error>)
    ensures DiarizationPath(meetingId) !in files ==> r == Failure(FileNotFound(DiarizationPath(meetingId)))
  {
    var path := DiarizationPath(meetingId);
    var doc :- LoadJson(files, path);
    match DecodeSegments(doc)
    case Some(segs) => Success(segs)
    case None => Failure(Malformed(path))
  }

  /** A diarization file written with some segments loads back as those segments. */
  lemma LoadDiarizationSaved(files: Files, meetingId: string, segs: seq<Segment>)
    ensures LoadDiarization(files[DiarizationPath(meetingId) := JsonText(EncodeSegments(segs))], meetingId) == Success(segs)
  {
    DecodeEncodeSegments(segs);
  }

  /**
   * `load_speaker_map`: `None` when the meeting has no speaker-map file;
   * otherwise the dict `json.load` reads from it, each entry a label and its role.
   */
  function LoadSpeakerMap(files: Files, meetingId: string): (r: Result<Option<SpeakerMap>, Error>)
    ensures SpeakerMapPath(meetingId) !in files <==> r == Success(None)
    ensures SpeakerMapPath(meetingId) in files && files[SpeakerMapPath(meetingId)].Unparseable? ==>
      r == Failure(Malformed(SpeakerMapPath(meetingId)))
    ensures SpeakerMapPath(meetingId) in files && files[SpeakerMapPath(meetingId)].JsonText? ==>
      var doc := files[SpeakerMapPath(meetingId)].doc;
      var members := Members(doc);
      (r.Success? <==> doc.Obj? && forall i :: 0 <= i < |members| ==> members[i].1.Str?) &&
      (r.Success? ==> r.value.Some? && |r.value.value| == |members|) &&
      (r.Success? ==> forall i :: 0 <= i < |members| ==> r.value.value[i] == (members[i].0, members[i].1.s)) &&
      (r.Failure? ==> r == Failure(Malformed(SpeakerMapPath(meetingId))))
  {
    var path := SpeakerMapPath(meetingId);
    if path !in files then Success(None)
    else
      var doc :- LoadJson(files, path);
      match DecodeSpeakerMap(doc)
      case Some(m) => Success(Some(m))
      case None => Failure(Malformed(path))
  }

  /**
   * A loaded speaker map gives each label the role written with its last
   * occurrence in the file, and has no other labels.
   */
  lemma SpeakerMapLastWins(files: Files, meetingId: string, speaker: string, role: string)
    requires SpeakerMapPath(meetingId) in files && files[SpeakerMapPath(meetingId)].JsonText?
    requires LoadSpeakerMap(files, meetingId).Success?
    ensures LoadSpeakerMap(files, meetingId).value.Some?
    ensures var doc := files[SpeakerMapPath(meetingId)].doc;
      Lookup(LoadSpeakerMap(files, meetingId).value.value, speaker) == Some(role) <==>
      exists i :: LastPairAt(doc.fields, i, speaker, Str(role))
    ensures var doc := files[SpeakerMapPath(meetingId)].doc;
      Lookup(LoadSpeakerMap(files, meetingId).value.value, speaker).None? <==>
      forall i :: 0 <= i < |doc.fields| ==> doc.fields[i].0 != speaker
  {
    var doc := files[SpeakerMapPath(meetingId)].doc;
    DecodeStrDictLookup(Members(doc), speaker);
    FieldLastWins(doc, speaker, Str(role));
  }

  /** A label written twice takes its second role, and is one entry. */
  lemma RepeatedLabelLastWins(files: Files, meetingId: string)
    ensures var f := files[SpeakerMapPath(meetingId) := JsonText(Obj([("SPEAKER_0", Str("CEO")), ("SPEAKER_0", Str("CFO"))]))];
      LoadSpeakerMap(f, meetingId) == Success(Some([("SPEAKER_0", "CFO")]))
  {
    var doc := Obj([("SPEAKER_0", Str("CEO")), ("SPEAKER_0", Str("CFO"))]);
    var f := files[SpeakerMapPath(meetingId) := JsonText(doc)];
    RepeatedKeyExample();
    FieldAt(doc, 1);
    assert Members(doc)[0].0 == "SPEAKER_0";
    var ms := [("SPEAKER_0", Str("CFO"))];
    assert Members(doc) == ms;
    assert ms[0].1.Str?;
    var m := DecodeStrDict(ms).value;
    assert |m| == 1 && m[0] == ("SPEAKER_0", "CFO");
    assert m == [("SPEAKER_0", "CFO")];
    assert LoadJson(f, SpeakerMapPath(meetingId)) == Success(doc);
  }

  /** `get_utterances`: the transcript's utterances, `[]` when it has none stored. */
  function GetUtterances(files: Files, meetingId: string): (r: Result<seq<Utterance>, Error>)
    ensures TranscriptPath(meetingId) !in files ==> r == Failure(FileNotFound(TranscriptPath(meetingId)))
    ensures r.Success? <==> LoadTranscript(files, meetingId).Success? && UtterancesOf(LoadTranscript(files, meetingId).value).Some?
    ensures r.Success? ==> r.value == UtterancesOf(LoadTranscript(files, meetingId).value).value
  {
    var doc :- LoadTranscript(files, meetingId);
    match UtterancesOf(doc)
    case Some(us) => Success(us)
    case None => Failure(Malformed(TranscriptPath(meetingId)))
  }

  /** A transcript document without an `"utterances"` key has no utterances. */
  lemma GetUtterancesDefault(files: Files, meetingId: string, fields: Dict<string, Json>)
    requires Lookup(fields, "utterances").None?
    ensures GetUtterances(files[TranscriptPath(meetingId) := JsonText(Obj(fields))], meetingId) == Success([])
  {
  }

  /** A stored transcript gives back the utterances it was stored with. */
  lemma GetUtterancesSaved(files: Files, meetingId: string, t: Transcript)
    ensures GetUtterances(files[TranscriptPath(meetingId) := JsonText(EncodeTranscript(t))], meetingId) == Success(t.utterances)
  {
    TranscriptReadsBack(t);
  }

  /** The three filters return an exact filter of the stored utterances, or the loading error. */
  ghost predicate FilteredFrom(files: Files, meetingId: string, r: Result<seq<Utterance>, Error>, p: Utterance -> bool) {
    var all := GetUtterances(files, meetingId);
    (r.Failure? <==> all.Failure?) &&
    (r.Failure? ==> r.error == all.error) &&
    (r.Success? ==>
      IsSubsequence(r.value, all.value) &&
      (forall i :: 0 <= i < |r.value| ==> p(r.value[i])) &&
      |r.value| == Count(all.value, p))
  }

  function SpeakerIs(speaker: string): Utterance -> bool {
    (u: Utterance) => u.speaker == speaker
  }

  /** `search_utterances_by_speaker`: exactly the utterances of `speaker`, in transcript order. */
  function SearchUtterancesBySpeaker(files: Files, meetingId: string, speaker: string): (r: Result<seq<Utterance>, Error>)
    ensures FilteredFrom(files, meetingId, r, SpeakerIs(speaker))
    ensures r.Success? ==> forall i :: 0 <= i < |r.value| ==> r.value[i].speaker == speaker
  {
    var us :- GetUtterances(files, meetingId);
    Success(Filter(us, SpeakerIs(speaker)))
  }

  /**
   * The keyword test: substring containment, on lowercased text and keyword
   * unless the search is case-sensitive.
   */
  predicate KeywordHit(u: Utterance, keyword: string, caseSensitive: bool) {
    if caseSensitive then Contains(u.text, keyword) else Contains(Lower(u.text), Lower(keyword))
  }

  function KeywordMatches(keyword: string, caseSensitive: bool): Utterance -> bool {
    (u: Utterance) => KeywordHit(u, keyword, caseSensitive)
  }

  /** `search_utterances_by_keyword`. */
  method SearchUtterancesByKeyword(files: Files, meetingId: string, keyword: string, caseSensitive: bool)
    returns (r: Result<seq<Utterance>, Error>)
    ensures FilteredFrom(files, meetingId, r, KeywordMatches(keyword, caseSensitive))
    ensures r.Success? ==> r.value == Filter(GetUtterances(files, meetingId).value, KeywordMatches(keyword, caseSensitive))
  {
    var us :- GetUtterances(files, meetingId);
    var matches := KeywordScan(us, keyword, caseSensitive);
    return Success(matches);
  }

  /** Every utterance that passes the keyword test contains the (lowercased) keyword. */
  lemma KeywordHitsOccur(ms: seq<Utterance>, keyword: string, caseSensitive: bool)
    requires forall i :: 0 <= i < |ms| ==> KeywordMatches(keyword, caseSensitive)(ms[i])
    ensures forall i :: 0 <= i < |ms| ==>
      OccursIn(if caseSensitive then keyword else Lower(keyword), if caseSensitive then ms[i].text else Lower(ms[i].text))
  {
    forall j | 0 <= j < |ms|
      ensures OccursIn(if caseSensitive then keyword else Lower(keyword), if caseSensitive then ms[j].text else Lower(ms[j].text))
    {
      assert KeywordHit(ms[j], keyword, caseSensitive);
    }
  }

  /** The loop of `search_utterances_by_keyword`: the keyword is lowercased once, each text as it is examined. */
  method KeywordScan(us: seq<Utterance>, keyword: string, caseSensitive: bool) returns (matches: seq<Utterance>)
    ensures matches == Filter(us, KeywordMatches(keyword, caseSensitive))
    ensures forall i :: 0 <= i < |matches| ==>
      OccursIn(if caseSensitive then keyword else Lower(keyword), if caseSensitive then matches[i].text else Lower(matches[i].text))
  {
    var kw := if caseSensitive then keyword else Lower(keyword);
    ghost var p := KeywordMatches(keyword, caseSensitive);
    matches := [];
    var i := 0;
    while i < |us|
      invariant 0 <= i <= |us|
      invariant matches == Filter(us[..i], p)
    {
      var text := if caseSensitive then us[i].text else Lower(us[i].text);
      FilterStep(us, i, p);
      assert p(us[i]) == Contains(text, kw);
      if Contains(text, kw) {
        matches := matches + [us[i]];
      }
      i := i + 1;
    }
    assert us[..|us|] == us;
    KeywordHitsOccur(matches, keyword, caseSensitive);
  }

  function InTimeRange(start: real, end: real): Utterance -> bool {
    (u: Utterance) => u.start >= start && u.end <= end
  }

  /** `get_utterances_in_time_range`: the utterances lying wholly within `[start, end]`, in order. */
  function GetUtterancesInTimeRange(files: Files, meetingId: string, start: real, end: real): (r: Result<seq<Utterance>, Error>)
    ensures FilteredFrom(files, meetingId, r, InTimeRange(start, end))
    ensures r.Success? ==> forall i :: 0 <= i < |r.value| ==> start <= r.value[i].start && r.value[i].end <= end
  {
    var us :- GetUtterances(files, meetingId);
    Success(Filter(us, InTimeRange(start, end)))
  }
}
