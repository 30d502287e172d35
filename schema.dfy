/**
 * The records the pipeline stores as JSON: diarization segments, utterances,
 * transcripts and speaker maps, with their encodings and the readers that
 * take them apart again, Python's `.get` defaults included.
 */
module Schema {
  import opened Wrappers
  import opened Dicts
  import opened JsonModel

  /** One speaker turn found by diarization; times in seconds. */
  datatype Segment = Segment(speaker: string, start: real, end: real)

  /** One transcribed segment; `id` is the 1-based position of its segment in the diarization. */
  datatype Utterance = Utterance(id: int, speaker: string, start: real, end: real, text: string)

  datatype Metadata = Metadata(totalUtterances: int, totalDuration: real, whisperModel: string, whisperLanguage: string)

  datatype Transcript = Transcript(meetingId: string, title: string, utterances: seq<Utterance>, metadata: Metadata)

  /** Raw diarization label to human-readable role, e.g. "SPEAKER_0" to "CEO". */
  type SpeakerMap = Dict<string, string>

  function EncodeSegment(s: Segment): Json {
    Obj([("speaker", Str(s.speaker)), ("start", Num(s.start)), ("end", Num(s.end))])
  }

  function DecodeSegment(j: Json): Option<Segment> {
    var speaker, start, end := StrField(j, "speaker"), RealField(j, "start"), RealField(j, "end");
    if speaker.Some? && start.Some? && end.Some? then Some(Segment(speaker.value, start.value, end.value))
    else None
  }

  lemma DecodeEncodeSegment(s: Segment)
    ensures DecodeSegment(EncodeSegment(s)) == Some(s)
  {
    FieldAt(EncodeSegment(s), 0);
    FieldAt(EncodeSegment(s), 1);
    FieldAt(EncodeSegment(s), 2);
  }

  function EncodeSegments(segs: seq<Segment>): Json {
    Arr(EncodeAll(segs, EncodeSegment))
  }

  function DecodeSegments(j: Json): Option<seq<Segment>> {
    if j.Arr? then DecodeAll(j.items, DecodeSegment) else None
  }

  /** A diarization file reads back as the segments written to it. */
  lemma DecodeEncodeSegments(segs: seq<Segment>)
    ensures DecodeSegments(EncodeSegments(segs)) == Some(segs)
  {
    forall s ensures DecodeSegment(EncodeSegment(s)) == Some(s) {
      DecodeEncodeSegment(s);
    }
    DecodeEncodeAll(segs, EncodeSegment, DecodeSegment);
  }

  function EncodeUtterance(u: Utterance): Json {
    Obj([("id", Int(u.id)), ("speaker", Str(u.speaker)), ("start", Num(u.start)), ("end", Num(u.end)), ("text", Str(u.text))])
  }

  /** An utterance record; one lacking a field, or with a field of the wrong type, does not decode. */
  function DecodeUtterance(j: Json): Option<Utterance> {
    var id, speaker := IntField(j, "id"), StrField(j, "speaker");
    var start, end, text := RealField(j, "start"), RealField(j, "end"), StrField(j, "text");
    if id.Some? && speaker.Some? && start.Some? && end.Some? && text.Some? then
      Some(Utterance(id.value, speaker.value, start.value, end.value, text.value))
    else None
  }

  lemma DecodeEncodeUtterance(u: Utterance)
    ensures DecodeUtterance(EncodeUtterance(u)) == Some(u)
  {
    FieldAt(EncodeUtterance(u), 0);
    FieldAt(EncodeUtterance(u), 1);
    FieldAt(EncodeUtterance(u), 2);
    FieldAt(EncodeUtterance(u), 3);
    FieldAt(EncodeUtterance(u), 4);
  }

  function EncodeUtterances(us: seq<Utterance>): Json {
    Arr(EncodeAll(us, EncodeUtterance))
  }

  function DecodeUtterances(j: Json): Option<seq<Utterance>> {
    if j.Arr? then DecodeAll(j.items, DecodeUtterance) else None
  }

  lemma DecodeEncodeUtterances(us: seq<Utterance>)
    ensures DecodeUtterances(EncodeUtterances(us)) == Some(us)
  {
    forall u ensures DecodeUtterance(EncodeUtterance(u)) == Some(u) {
      DecodeEncodeUtterance(u);
    }
    DecodeEncodeAll(us, EncodeUtterance, DecodeUtterance);
  }

  function EncodeMetadata(m: Metadata): Json {
    Obj([
      ("total_utterances", Int(m.totalUtterances)),
      ("total_duration", Num(m.totalDuration)),
      ("whisper_model", Str(m.whisperModel)),
      ("whisper_language", Str(m.whisperLanguage))
    ])
  }

  function EncodeTranscript(t: Transcript): Json {
    Obj([
      ("meeting_id", Str(t.meetingId)),
      ("title", Str(t.title)),
      ("utterances", EncodeUtterances(t.utterances)),
      ("metadata", EncodeMetadata(t.metadata))
    ])
  }

  /** `transcript.get("title", "")`: whatever the transcript holds there, of any type. */
  function TitleOf(doc: Json): Json {
    match Field(doc, "title")
    case None => Str("")
    case Some(title) => title
  }

  /** `transcript.get("utterances", [])`, every element decoded. */
  function UtterancesOf(doc: Json): Option<seq<Utterance>> {
    if !doc.Obj? then None
    else
      match Field(doc, "utterances")
      case None => Some([])
      case Some(j) => DecodeUtterances(j)
  }

  /**
   * `transcript.get("metadata", {}).get("total_duration", 0.0)`: whatever is
   * stored there, of any type; `None` when the metadata is not a dict, whose
   * `.get` raises.
   */
  function DurationOf(doc: Json): Option<Json> {
    match Field(doc, "metadata")
    case None => Some(Num(0.0))
    case Some(meta) =>
      if !meta.Obj? then None
      else
        match Field(meta, "total_duration")
        case None => Some(Num(0.0))
        case Some(duration) => Some(duration)
  }

  /** A stored transcript reads back with the title, utterances and duration it was written with. */
  lemma TranscriptReadsBack(t: Transcript)
    ensures TitleOf(EncodeTranscript(t)) == Str(t.title)
    ensures UtterancesOf(EncodeTranscript(t)) == Some(t.utterances)
    ensures DurationOf(EncodeTranscript(t)) == Some(Num(t.metadata.totalDuration))
  {
    DecodeEncodeUtterances(t.utterances);
    FieldAt(EncodeTranscript(t), 1);
    FieldAt(EncodeTranscript(t), 2);
    FieldAt(EncodeTranscript(t), 3);
    FieldAt(EncodeMetadata(t.metadata), 1);
  }

  /** `transcript["utterances"] = utterances` on the loaded dict; only a dict can be updated. */
  function WithUtterances(doc: Json, us: seq<Utterance>): (r: Option<Json>)
    ensures r.Some? <==> doc.Obj?
  {
    if doc.Obj? then Some(Obj(Put(Members(doc), "utterances", EncodeUtterances(us)))) else None
  }

  /** Replacing the utterances changes what is read as utterances and nothing else. */
  lemma WithUtterancesReads(doc: Json, us: seq<Utterance>)
    requires doc.Obj?
    ensures UtterancesOf(WithUtterances(doc, us).value) == Some(us)
    ensures TitleOf(WithUtterances(doc, us).value) == TitleOf(doc)
    ensures DurationOf(WithUtterances(doc, us).value) == DurationOf(doc)
  {
    DecodeEncodeUtterances(us);
    PutUniqueKeys(Members(doc), "utterances", EncodeUtterances(us));
    FromPairsUnique(Put(Members(doc), "utterances", EncodeUtterances(us)));
    LookupPutOther(Members(doc), "utterances", EncodeUtterances(us), "title");
    LookupPutOther(Members(doc), "utterances", EncodeUtterances(us), "metadata");
  }

  /** The speaker map as a JSON object: one string-valued field per entry, in order. */
  function EncodeSpeakerMap(m: SpeakerMap): (r: Json)
    ensures r.Obj? && |r.fields| == |m|
    ensures forall i :: 0 <= i < |m| ==> r.fields[i] == (m[i].0, Str(m[i].1))
  {
    Obj(seq(|m|, i requires 0 <= i < |m| => (m[i].0, Str(m[i].1))))
  }

  /** A dict whose values are all strings, in its own order. */
  function DecodeStrDict(fields: Dict<string, Json>): (r: Option<SpeakerMap>)
    ensures r.Some? <==> forall i :: 0 <= i < |fields| ==> fields[i].1.Str?
    ensures r.Some? ==> |r.value| == |fields| && forall i :: 0 <= i < |fields| ==> r.value[i] == (fields[i].0, fields[i].1.s)
  {
    if fields == [] then Some([])
    else
      var tail := DecodeStrDict(fields[1..]);
      assert forall i :: 1 <= i < |fields| ==> fields[i] == fields[1..][i - 1];
      match (fields[0].1, tail)
      case (Str(s), Some(rest)) => Some([(fields[0].0, s)] + rest)
      case _ => None
  }

  /** Decoding keeps the keys in place: a key is found after decoding exactly where it was found before. */
  lemma {:induction false} DecodeStrDictLookup(fields: Dict<string, Json>, k: string)
    requires DecodeStrDict(fields).Some?
    ensures Lookup(DecodeStrDict(fields).value, k).Some? <==> Lookup(fields, k).Some?
    ensures Lookup(fields, k).Some? ==> Lookup(fields, k).value == Str(Lookup(DecodeStrDict(fields).value, k).value)
  {
    if fields != [] {
      DecodeStrDictLookup(fields[1..], k);
    }
  }

  /** `json.load` of a speaker-map file: a dict of strings, read last-wins. */
  function DecodeSpeakerMap(j: Json): Option<SpeakerMap> {
    if j.Obj? then DecodeStrDict(Members(j)) else None
  }

  /** The encoding of a map's pairs decodes back to those pairs. */
  lemma {:induction false} DecodeEncodeStrDict(m: SpeakerMap)
    ensures DecodeStrDict(EncodeSpeakerMap(m).fields) == Some(m)
  {
    if m != [] {
      DecodeEncodeStrDict(m[1..]);
      assert EncodeSpeakerMap(m).fields[1..] == EncodeSpeakerMap(m[1..]).fields;
      assert [m[0]] + m[1..] == m;
    }
  }

  /** Setting a label in the map and in its encoding agree. */
  lemma {:induction false} PutEncoded(d: SpeakerMap, k: string, v: string)
    ensures Put(EncodeSpeakerMap(d).fields, k, Str(v)) == EncodeSpeakerMap(Put(d, k, v)).fields
  {
    var e := EncodeSpeakerMap(d).fields;
    if d != [] {
      assert e[1..] == EncodeSpeakerMap(d[1..]).fields;
      if d[0].0 != k {
        PutEncoded(d[1..], k, v);
      }
    }
  }

  /** Reading an encoded map last-wins is encoding the map read last-wins. */
  lemma {:induction false} FromPairsEncoded(m: SpeakerMap)
    ensures FromPairs(EncodeSpeakerMap(m).fields) == EncodeSpeakerMap(FromPairs(m)).fields
  {
    if m != [] {
      var init, last := m[..|m| - 1], m[|m| - 1];
      var e := EncodeSpeakerMap(m).fields;
      assert e[..|e| - 1] == EncodeSpeakerMap(init).fields;
      assert e[|e| - 1] == (last.0, Str(last.1));
      FromPairsEncoded(init);
      PutEncoded(FromPairs(init), last.0, last.1);
    }
  }

  /**
   * A saved speaker map loads back as the dict it was: the same labels in the
   * same order, each with the role it was given last; a dict comes back unchanged.
   */
  lemma DecodeEncodeSpeakerMap(m: SpeakerMap)
    ensures DecodeSpeakerMap(EncodeSpeakerMap(m)) == Some(FromPairs(m))
    ensures UniqueKeys(m) ==> DecodeSpeakerMap(EncodeSpeakerMap(m)) == Some(m)
  {
    FromPairsEncoded(m);
    DecodeEncodeStrDict(FromPairs(m));
    if UniqueKeys(m) {
      FromPairsUnique(m);
    }
  }
}
