/**
 * `process_meeting`: diarization, transcription, optional speaker labels and
 * embeddings, run in that order over the meeting's files, ending in a short
 * report. Every exception becomes an error report; what was written before
 * it stays written.
 */
module Pipeline {
  import opened Wrappers
  import opened Dicts
  import opened Seqs
  import opened JsonModel
  import opened FileSystem
  import opened Schema
  import opened Config
  import opened Storage
  import opened Diarization
  import opened Transcription

  /** The gap below which consecutive turns of one speaker are merged before transcription. */
  const MergeGap: real := 1.0

  datatype Status = AlreadyProcessed | Succeeded

  /**
   * The dictionary `process_meeting` returns: the title, counts and duration
   * read back from the stored transcript, or the exception that stopped the
   * run. Title and duration are passed on as stored, whatever their type.
   */
  datatype Report =
    | Report(meetingId: string, title: Json, status: Status, utterances: nat, speakers: nat, duration: Json)
    | ErrorReport(meetingId: string, requestedTitle: string, error: Error)

  /** The keyword arguments of `process_meeting`. */
  datatype Options = Options(title: Option<string>, applySpeakerLabels: bool, createVectors: bool, force: bool)

  /** The external models: the diarizer, the recogniser, and the outcome of `create_embeddings`. */
  datatype Services = Services(diarizer: Diarizer, asr: Asr, embed: Outcome<string>)

  /** The number of distinct speaker labels among `us`. */
  function SpeakerCount(us: seq<Utterance>): (n: nat)
    ensures n <= |us|
    ensures us != [] ==> 1 <= n
  {
    ImageSize(us, Transcription.SpeakerOf);
    |Image(us, Transcription.SpeakerOf)|
  }

  /** A value `f"{x:.1f}"` accepts: a number, or a `bool`, which Python formats as 0 or 1. */
  predicate Formattable(j: Json) {
    j.Int? || j.Num? || j.Bool?
  }

  /**
   * The report read back from the stored transcript: its title and duration
   * as stored, and its utterance and speaker counts. Metadata that is not a
   * dict raises on `.get`; after a fresh run the duration is also logged
   * with `:.1f`, which raises unless it is a number.
   */
  function Summarise(files: Files, meetingId: string, status: Status): (r: Result<Report, Error>)
    ensures LoadTranscript(files, meetingId).Failure? ==> r == Failure(LoadTranscript(files, meetingId).error)
    ensures r.Success? <==>
      LoadTranscript(files, meetingId).Success? &&
      UtterancesOf(LoadTranscript(files, meetingId).value).Some? &&
      DurationOf(LoadTranscript(files, meetingId).value).Some? &&
      (status == Succeeded ==> Formattable(DurationOf(LoadTranscript(files, meetingId).value).value))
    ensures LoadTranscript(files, meetingId).Success? && r.Failure? ==> r == Failure(Malformed(TranscriptPath(meetingId)))
    ensures r.Success? ==>
      var doc := LoadTranscript(files, meetingId).value;
      r.value == Report(meetingId, TitleOf(doc), status, |UtterancesOf(doc).value|,
                        SpeakerCount(UtterancesOf(doc).value), DurationOf(doc).value)
  {
    var doc :- LoadTranscript(files, meetingId);
    match (UtterancesOf(doc), DurationOf(doc))
    case (Some(us), Some(duration)) =>
      if status == Succeeded && !Formattable(duration) then Failure(Malformed(TranscriptPath(meetingId)))
      else Success(Report(meetingId, TitleOf(doc), status, |us|, SpeakerCount(us), duration))
    case _ => Failure(Malformed(TranscriptPath(meetingId)))
  }

  /** The `except` branch: an exception becomes an error report carrying `title or ""`. */
  function Reported(meetingId: string, title: Option<string>, r: Result<Report, Error>): Report {
    match r
    case Success(report) => report
    case Failure(e) => ErrorReport(meetingId, OrElse(title, ""), e)
  }

  /**
   * The files after the speaker-label step: the stored transcript gets the
   * relabelled utterances when a non-empty speaker map exists.
   */
  function LabelStep(files: Files, meetingId: string, us: seq<Utterance>): Result<Files, Error> {
    var loaded :- LoadSpeakerMap(files, meetingId);
    if loaded.None? || loaded.value == [] then Success(files)
    else
      var doc :- LoadTranscript(files, meetingId);
      match WithUtterances(doc, Relabelled(us, loaded.value))
      case Some(updated) => Success(files[TranscriptPath(meetingId) := JsonText(updated)])
      case None => Failure(Malformed(TranscriptPath(meetingId)))
  }

  /** An exception after `files` were written: the files stay, the report is an error. */
  function Fail(files: Files, meetingId: string, opts: Options, e: Error): (Files, Report) {
    (files, ErrorReport(meetingId, OrElse(opts.title, ""), e))
  }

  /** The stages after transcription, from the files holding the new transcript of `us`. */
  function Finish(files: Files, meetingId: string, us: seq<Utterance>, opts: Options, svc: Services): (Files, Report) {
    match (if opts.applySpeakerLabels then LabelStep(files, meetingId, us) else Success(files))
    case Failure(e) => Fail(files, meetingId, opts, e)
    case Success(labelled) =>
      if opts.createVectors && svc.embed.Fail? then Fail(labelled, meetingId, opts, Raised(svc.embed.error))
      else (labelled, Reported(meetingId, opts.title, Summarise(labelled, meetingId, Succeeded)))
  }

  /** Merging, transcription and the later stages, once the diarization file holds `segs`. */
  function FromDiarized(diarized: Files, meetingId: string, segs: seq<Segment>, opts: Options, svc: Services): (Files, Report) {
    if svc.asr.load.Fail? then Fail(diarized, meetingId, opts, Raised(LoadFailure(svc.asr.load.error)))
    else
      match Transcribed(svc.asr, Merged(segs, MergeGap))
      case Failure(message) => Fail(diarized, meetingId, opts, Raised(message))
      case Success(us) =>
        var transcribed := diarized[TranscriptPath(meetingId) :=
          JsonText(EncodeTranscript(MakeTranscript(meetingId, opts.title, us)))];
        Finish(transcribed, meetingId, us, opts, svc)
  }

  /** Diarization, merging, transcription and the later stages, on a meeting whose recording exists. */
  function Reprocess(files: Files, meetingId: string, opts: Options, svc: Services): (Files, Report) {
    match Diarize(files, meetingId, svc.diarizer)
    case Failure(e) => Fail(files, meetingId, opts, e)
    case Success(segs) =>
      FromDiarized(files[DiarizationPath(meetingId) := JsonText(EncodeSegments(segs))], meetingId, segs, opts, svc)
  }

  /**
   * The files after a run of `process_meeting` on `files`, and its report.
   * The recording is looked up first, so a missing recording is an error even
   * for a processed meeting; a processed meeting is only read unless `force`.
   */
  function Process(files: Files, meetingId: string, opts: Options, svc: Services): (Files, Report) {
    match GetAudioPath(files, meetingId)
    case Failure(e) => Fail(files, meetingId, opts, e)
    case Success(_) =>
      if MeetingIsProcessed(files, meetingId) && !opts.force then
        (files, Reported(meetingId, opts.title, Summarise(files, meetingId, AlreadyProcessed)))
      else Reprocess(files, meetingId, opts, svc)
  }

  /** Rewriting a file that is not a recording of the meeting leaves `get_audio_path` unchanged. */
  lemma {:induction false} FindRecordingFrame(files: Files, path: string, body: FileBody, meetingId: string, exts: seq<string>)
    requires forall k :: 0 <= k < |exts| ==> RecordingPath(meetingId, exts[k]) != path
    ensures FindRecording(files[path := body], meetingId, exts) == FindRecording(files, meetingId, exts)
  {
    if exts != [] {
      assert RecordingPath(meetingId, exts[0]) != path;
      assert forall k :: 0 <= k < |exts[1..]| ==> exts[1..][k] == exts[k + 1];
      FindRecordingFrame(files, path, body, meetingId, exts[1..]);
    }
  }

  /** Writing a transcript or diarization file leaves the recording where it was. */
  lemma AudioUnaffected(files: Files, meetingId: string, other: string, body: FileBody)
    ensures GetAudioPath(files[TranscriptPath(other) := body], meetingId) == GetAudioPath(files, meetingId)
    ensures GetAudioPath(files[DiarizationPath(other) := body], meetingId) == GetAudioPath(files, meetingId)
  {
    forall k | 0 <= k < |AudioExtensions|
      ensures RecordingPath(meetingId, AudioExtensions[k]) != TranscriptPath(other)
      ensures RecordingPath(meetingId, AudioExtensions[k]) != DiarizationPath(other)
    {
      PathKindsDistinct(meetingId, other, AudioExtensions[k]);
    }
    FindRecordingFrame(files, TranscriptPath(other), body, meetingId, AudioExtensions);
    FindRecordingFrame(files, DiarizationPath(other), body, meetingId, AudioExtensions);
  }

  /** `process_meeting`, step by step over the store. */
  method ProcessMeeting(fs: FileStore, meetingId: string, opts: Options, svc: Services) returns (report: Report)
    modifies fs
    ensures (fs.files, report) == Process(old(fs.files), meetingId, opts, svc)
  {
    var audio := GetAudioPath(fs.files, meetingId);
    if audio.Failure? {
      return ErrorReport(meetingId, OrElse(opts.title, ""), audio.error);
    }
    if MeetingIsProcessed(fs.files, meetingId) && !opts.force {
      return Reported(meetingId, opts.title, Summarise(fs.files, meetingId, AlreadyProcessed));
    }
    report := RunStages(fs, meetingId, opts, svc);
  }

  /** Step 1, diarize and save; then the stages that follow it. */
  method RunStages(fs: FileStore, meetingId: string, opts: Options, svc: Services) returns (report: Report)
    requires GetAudioPath(fs.files, meetingId).Success?
    modifies fs
    ensures (fs.files, report) == Reprocess(old(fs.files), meetingId, opts, svc)
  {
    var segments := RunDiarization(fs, meetingId, svc.diarizer);
    if segments.Failure? {
      return ErrorReport(meetingId, OrElse(opts.title, ""), segments.error);
    }
    AudioUnaffected(old(fs.files), meetingId, meetingId, JsonText(EncodeSegments(segments.value)));
    report := TranscribeStages(fs, meetingId, segments.value, opts, svc);
  }

  /** Step 2 on the diarized turns `segs`: merge, transcribe and save; then the later stages. */
  method TranscribeStages(fs: FileStore, meetingId: string, segs: seq<Segment>, opts: Options, svc: Services) returns (report: Report)
    requires GetAudioPath(fs.files, meetingId).Success?
    modifies fs
    ensures (fs.files, report) == FromDiarized(old(fs.files), meetingId, segs, opts, svc)
  {
    var merged := MergeSameSpeakerSegments(segs, MergeGap);
    var transcribed := TranscribeSegments(fs, meetingId, merged, opts.title, svc.asr);
    if transcribed.Failure? {
      return ErrorReport(meetingId, OrElse(opts.title, ""), transcribed.error);
    }
    report := FinishStages(fs, meetingId, transcribed.value, opts, svc);
  }

  /** Speaker labels, embeddings and the final read-back, once the transcript of `utterances` is stored. */
  method FinishStages(fs: FileStore, meetingId: string, utterances: seq<Utterance>, opts: Options, svc: Services)
    returns (report: Report)
    modifies fs
    ensures (fs.files, report) == Finish(old(fs.files), meetingId, utterances, opts, svc)
  {
    if opts.applySpeakerLabels {
      var speakerMap := LoadSpeakerMap(fs.files, meetingId);
      if speakerMap.Failure? {
        return ErrorReport(meetingId, OrElse(opts.title, ""), speakerMap.error);
      }
      if speakerMap.value.Some? && speakerMap.value.value != [] {
        var labelled := new Utterance[|utterances|](i requires 0 <= i < |utterances| => utterances[i]);
        assert labelled[..] == utterances;
        ApplySpeakerMap(labelled, speakerMap.value.value);
        var doc := LoadTranscript(fs.files, meetingId);
        if doc.Failure? {
          return ErrorReport(meetingId, OrElse(opts.title, ""), doc.error);
        }
        var updated := WithUtterances(doc.value, labelled[..]);
        if updated.None? {
          return ErrorReport(meetingId, OrElse(opts.title, ""), Malformed(TranscriptPath(meetingId)));
        }
        fs.SaveJson(TranscriptPath(meetingId), updated.value);
      }
    }
    if opts.createVectors && svc.embed.Fail? {
      return ErrorReport(meetingId, OrElse(opts.title, ""), Raised(svc.embed.error));
    }
    report := Reported(meetingId, opts.title, Summarise(fs.files, meetingId, Succeeded));
  }

  // ---------------------------------------------------------------------------
  // What a run does

  /** The utterances the stored transcript ends with: relabelled when labels are applied and a map was loaded. */
  function Labelled(us: seq<Utterance>, opts: Options, loaded: Result<Option<SpeakerMap>, Error>): seq<Utterance> {
    if opts.applySpeakerLabels && loaded.Success? && loaded.value.Some? then Relabelled(us, loaded.value.value) else us
  }

  /** Writing a transcript or diarization file leaves every speaker map as it was. */
  lemma SpeakerMapUnaffected(files: Files, meetingId: string, other: string, body: FileBody)
    ensures LoadSpeakerMap(files[TranscriptPath(other) := body], meetingId) == LoadSpeakerMap(files, meetingId)
    ensures LoadSpeakerMap(files[DiarizationPath(other) := body], meetingId) == LoadSpeakerMap(files, meetingId)
  {
    PathKindsDistinct(other, meetingId, "");
  }

  /** Without a recording the run is an error and writes nothing, even for a meeting already processed. */
  lemma NoRecordingNoWrites(files: Files, meetingId: string, opts: Options, svc: Services)
    requires forall k :: 0 <= k < |AudioExtensions| ==> RecordingPath(meetingId, AudioExtensions[k]) !in files
    ensures Process(files, meetingId, opts, svc) == (files, ErrorReport(meetingId, OrElse(opts.title, ""), AudioNotFound(meetingId)))
  {
  }

  /**
   * A processed meeting is only read unless `force` is set: nothing is
   * written, no external model is consulted, and the report never claims a
   * fresh run.
   */
  lemma AlreadyProcessedReadOnly(files: Files, meetingId: string, opts: Options, svc: Services, other: Services)
    requires GetAudioPath(files, meetingId).Success?
    requires MeetingIsProcessed(files, meetingId) && !opts.force
    ensures Process(files, meetingId, opts, svc).0 == files
    ensures Process(files, meetingId, opts, svc) == Process(files, meetingId, opts, other)
    ensures Process(files, meetingId, opts, svc).1.Report? ==> Process(files, meetingId, opts, svc).1.status == AlreadyProcessed
  {
  }

  /** The stages after transcription only rewrite the transcript. */
  lemma FinishKeepsRecording(files: Files, meetingId: string, us: seq<Utterance>, opts: Options, svc: Services)
    ensures GetAudioPath(Finish(files, meetingId, us, opts, svc).0, meetingId) == GetAudioPath(files, meetingId)
  {
    var labelled := if opts.applySpeakerLabels then LabelStep(files, meetingId, us) else Success(files);
    if labelled.Success? && labelled.value != files {
      var doc := LoadTranscript(files, meetingId).value;
      var m := LoadSpeakerMap(files, meetingId).value.value;
      AudioUnaffected(files, meetingId, meetingId, JsonText(WithUtterances(doc, Relabelled(us, m)).value));
    }
  }

  /** Writing the transcript and the later stages leave the recording where it was. */
  lemma TranscribedKeepsRecording(files: Files, meetingId: string, us: seq<Utterance>, opts: Options, svc: Services)
    ensures var body := JsonText(EncodeTranscript(MakeTranscript(meetingId, opts.title, us)));
      GetAudioPath(Finish(files[TranscriptPath(meetingId) := body], meetingId, us, opts, svc).0, meetingId) == GetAudioPath(files, meetingId)
  {
    var body := JsonText(EncodeTranscript(MakeTranscript(meetingId, opts.title, us)));
    AudioUnaffected(files, meetingId, meetingId, body);
    FinishKeepsRecording(files[TranscriptPath(meetingId) := body], meetingId, us, opts, svc);
  }

  /** The writes of diarization, transcription and the later stages leave the recording where it was. */
  lemma ReprocessKeepsRecording(files: Files, meetingId: string, opts: Options, svc: Services)
    ensures GetAudioPath(Reprocess(files, meetingId, opts, svc).0, meetingId) == GetAudioPath(files, meetingId)
  {
    var d := Diarize(files, meetingId, svc.diarizer);
    if d.Success? {
      var segBody := JsonText(EncodeSegments(d.value));
      AudioUnaffected(files, meetingId, meetingId, segBody);
      if svc.asr.load.Pass? && Transcribed(svc.asr, Merged(d.value, MergeGap)).Success? {
        var diarized := files[DiarizationPath(meetingId) := segBody];
        var us := Assembled(svc.asr, Merged(d.value, MergeGap));
        var body := JsonText(EncodeTranscript(MakeTranscript(meetingId, opts.title, us)));
        assert Reprocess(files, meetingId, opts, svc) == Finish(diarized[TranscriptPath(meetingId) := body], meetingId, us, opts, svc);
        TranscribedKeepsRecording(diarized, meetingId, us, opts, svc);
      }
    }
  }


  /** Every run leaves the recording where it found it. */
  lemma RecordingUntouched(files: Files, meetingId: string, opts: Options, svc: Services)
    ensures GetAudioPath(Process(files, meetingId, opts, svc).0, meetingId) == GetAudioPath(files, meetingId)
  {
    ReprocessKeepsRecording(files, meetingId, opts, svc);
  }


  /**
   * The steps are not undone on failure: when the recogniser cannot be
   * loaded, the new diarization file stays written and the report is an error.
   */
  lemma DiarizationKeptOnLaterFailure(files: Files, meetingId: string, opts: Options, svc: Services)
    requires GetAudioPath(files, meetingId).Success?
    requires !MeetingIsProcessed(files, meetingId) || opts.force
    requires Diarize(files, meetingId, svc.diarizer).Success? && svc.asr.load.Fail?
    ensures Process(files, meetingId, opts, svc).1.ErrorReport?
    ensures LoadDiarization(Process(files, meetingId, opts, svc).0, meetingId) == Diarize(files, meetingId, svc.diarizer)
  {
    LoadDiarizationSaved(files, meetingId, Diarize(files, meetingId, svc.diarizer).value);
  }

  /**
   * An extraction that raises anything but ffmpeg's own failure ends the
   * run: the report is that exception, the diarization file stays written
   * and no transcript is written.
   */
  lemma ExtractionAbortReported(files: Files, meetingId: string, opts: Options, svc: Services)
    requires GetAudioPath(files, meetingId).Success?
    requires !MeetingIsProcessed(files, meetingId) || opts.force
    requires Diarize(files, meetingId, svc.diarizer).Success? && svc.asr.load.Pass?
    requires !NoAbort(svc.asr, Merged(Diarize(files, meetingId, svc.diarizer).value, MergeGap))
    ensures
      var segs := Diarize(files, meetingId, svc.diarizer).value;
      FirstAbort(svc.asr, Merged(segs, MergeGap)).Some? &&
      Process(files, meetingId, opts, svc) ==
        (files[DiarizationPath(meetingId) := JsonText(EncodeSegments(segs))],
         ErrorReport(meetingId, OrElse(opts.title, ""), Raised(FirstAbort(svc.asr, Merged(segs, MergeGap)).value)))
  {
    FirstAbortMeaning(svc.asr, Merged(Diarize(files, meetingId, svc.diarizer).value, MergeGap));
  }

  /** A stored dict whose utterances decode loads as the transcript. */
  lemma TranscriptLoads(files: Files, meetingId: string, doc: Json)
    requires TranscriptPath(meetingId) in files && files[TranscriptPath(meetingId)] == JsonText(doc)
    requires doc.Obj? && UtterancesOf(doc).Some?
    ensures LoadTranscript(files, meetingId) == Success(doc)
  {
    assert HasLength(Field(doc, "utterances"));
  }

  /** A stored transcript whose utterances decode and whose duration is a number is read back as those. */
  lemma StoredTranscriptReads(files: Files, meetingId: string, doc: Json, status: Status)
    requires TranscriptPath(meetingId) in files && files[TranscriptPath(meetingId)] == JsonText(doc)
    requires doc.Obj? && UtterancesOf(doc).Some? && DurationOf(doc).Some? && Formattable(DurationOf(doc).value)
    ensures LoadTranscript(files, meetingId) == Success(doc)
    ensures GetUtterances(files, meetingId) == Success(UtterancesOf(doc).value)
    ensures Summarise(files, meetingId, status) ==
      Success(Report(meetingId, TitleOf(doc), status, |UtterancesOf(doc).value|,
                     SpeakerCount(UtterancesOf(doc).value), DurationOf(doc).value))
  {
    TranscriptLoads(files, meetingId, doc);
  }

  /** A transcript with a numeric title, no utterances and a duration given as text. */
  const UntypedTranscript: Json :=
    Obj([("title", Int(5)), ("utterances", Arr([])), ("metadata", Obj([("total_duration", Str("long"))]))])

  /** How that transcript reads: every field as stored. */
  lemma UntypedTranscriptReads()
    ensures UntypedTranscript.Obj? && HasLength(Field(UntypedTranscript, "utterances"))
    ensures TitleOf(UntypedTranscript) == Int(5)
    ensures UtterancesOf(UntypedTranscript) == Some([])
    ensures DurationOf(UntypedTranscript) == Some(Str("long"))
  {
    FieldAt(UntypedTranscript, 0);
    FieldAt(UntypedTranscript, 1);
    FieldAt(UntypedTranscript, 2);
    FieldAt(Obj([("total_duration", Str("long"))]), 0);
  }

  /** Title and duration are reported as stored: a numeric title and a text duration make a report for a processed meeting. */
  lemma UntypedTitleReported(files: Files, meetingId: string)
    ensures Summarise(files[TranscriptPath(meetingId) := JsonText(UntypedTranscript)], meetingId, AlreadyProcessed) ==
      Success(Report(meetingId, Int(5), AlreadyProcessed, 0, 0, Str("long")))
  {
    var stored := files[TranscriptPath(meetingId) := JsonText(UntypedTranscript)];
    UntypedTranscriptReads();
    TranscriptLoads(stored, meetingId, UntypedTranscript);
    assert SpeakerCount([]) == 0;
  }

  /** After a fresh run the duration is logged with `:.1f`, which raises on the same transcript. */
  lemma UntypedDurationRaises(files: Files, meetingId: string)
    ensures Summarise(files[TranscriptPath(meetingId) := JsonText(UntypedTranscript)], meetingId, Succeeded) ==
      Failure(Malformed(TranscriptPath(meetingId)))
  {
    var stored := files[TranscriptPath(meetingId) := JsonText(UntypedTranscript)];
    UntypedTranscriptReads();
    TranscriptLoads(stored, meetingId, UntypedTranscript);
    assert !Formattable(Str("long"));
  }

  /** The transcript of `us` as `transcribe_segments` writes it. */
  function TranscriptBody(meetingId: string, title: Option<string>, us: seq<Utterance>): FileBody {
    JsonText(EncodeTranscript(MakeTranscript(meetingId, title, us)))
  }

  /** With a non-empty speaker map, the label step stores the relabelled utterances in the transcript. */
  lemma RelabelStep(transcribed: Files, meetingId: string, us: seq<Utterance>, opts: Options, m: SpeakerMap)
    requires TranscriptPath(meetingId) in transcribed && transcribed[TranscriptPath(meetingId)] == TranscriptBody(meetingId, opts.title, us)
    requires LoadSpeakerMap(transcribed, meetingId) == Success(Some(m)) && m != []
    ensures WithUtterances(EncodeTranscript(MakeTranscript(meetingId, opts.title, us)), Relabelled(us, m)).Some?
    ensures LabelStep(transcribed, meetingId, us) ==
      Success(transcribed[TranscriptPath(meetingId) :=
        JsonText(WithUtterances(EncodeTranscript(MakeTranscript(meetingId, opts.title, us)), Relabelled(us, m)).value)])
  {
    var t := MakeTranscript(meetingId, opts.title, us);
    TranscriptReadsBack(t);
    TranscriptLoads(transcribed, meetingId, EncodeTranscript(t));
  }

  /** Writing the transcript leaves the diarization file as it was. */
  lemma TranscriptWriteKeepsDiarization(files: Files, meetingId: string, body: FileBody)
    ensures LoadDiarization(files[TranscriptPath(meetingId) := body], meetingId) == LoadDiarization(files, meetingId)
  {
    PathKindsDistinct(meetingId, meetingId, "");
    assert DiarizationPath(meetingId) != TranscriptPath(meetingId);
  }

  /** The transcript of `us` with the utterances relabelled reads back with the same title and duration. */
  lemma RelabelledReads(meetingId: string, title: Option<string>, us: seq<Utterance>, m: SpeakerMap)
    ensures var updated := WithUtterances(EncodeTranscript(MakeTranscript(meetingId, title, us)), Relabelled(us, m));
      updated.Some? && updated.value.Obj? &&
      TitleOf(updated.value) == Str(OrElse(title, "Meeting " + meetingId)) &&
      UtterancesOf(updated.value) == Some(Relabelled(us, m)) &&
      DurationOf(updated.value) == Some(Num(LatestEnd(us)))
  {
    var t := MakeTranscript(meetingId, title, us);
    TranscriptReadsBack(t);
    WithUtterancesReads(EncodeTranscript(t), Relabelled(us, m));
  }

  /** With a non-empty speaker map, the label step rewrites the transcript with relabelled utterances and keeps the rest. */
  lemma RelabelOutcome(transcribed: Files, meetingId: string, us: seq<Utterance>, opts: Options, m: SpeakerMap)
    requires TranscriptPath(meetingId) in transcribed && transcribed[TranscriptPath(meetingId)] == TranscriptBody(meetingId, opts.title, us)
    requires LoadSpeakerMap(transcribed, meetingId) == Success(Some(m)) && m != []
    ensures
      var labelled := LabelStep(transcribed, meetingId, us);
      labelled.Success? &&
      Summarise(labelled.value, meetingId, Succeeded) ==
        Success(Report(meetingId, Str(OrElse(opts.title, "Meeting " + meetingId)), Succeeded, |us|, SpeakerCount(Relabelled(us, m)), Num(LatestEnd(us)))) &&
      LoadDiarization(labelled.value, meetingId) == LoadDiarization(transcribed, meetingId) &&
      GetUtterances(labelled.value, meetingId) == Success(Relabelled(us, m))
  {
    var t := MakeTranscript(meetingId, opts.title, us);
    RelabelStep(transcribed, meetingId, us, opts, m);
    var updated := WithUtterances(EncodeTranscript(t), Relabelled(us, m)).value;
    RelabelledReads(meetingId, opts.title, us, m);
    var after := transcribed[TranscriptPath(meetingId) := JsonText(updated)];
    StoredTranscriptReads(after, meetingId, updated, Succeeded);
    TranscriptWriteKeepsDiarization(transcribed, meetingId, JsonText(updated));
  }

  /** Without a speaker map, or with an empty one, the label step writes nothing. */
  lemma LabelStepSkips(files: Files, meetingId: string, us: seq<Utterance>)
    requires LoadSpeakerMap(files, meetingId) == Success(None) || LoadSpeakerMap(files, meetingId) == Success(Some([]))
    ensures LabelStep(files, meetingId, us) == Success(files)
  {
  }

  /** A freshly written transcript of `us` that is not relabelled reads back as a report counting `us`. */
  lemma UnlabelledOutcome(transcribed: Files, meetingId: string, us: seq<Utterance>, opts: Options)
    requires TranscriptPath(meetingId) in transcribed && transcribed[TranscriptPath(meetingId)] == TranscriptBody(meetingId, opts.title, us)
    ensures Summarise(transcribed, meetingId, Succeeded) ==
      Success(Report(meetingId, Str(OrElse(opts.title, "Meeting " + meetingId)), Succeeded, |us|, SpeakerCount(us), Num(LatestEnd(us))))
    ensures GetUtterances(transcribed, meetingId) == Success(us)
  {
    var t := MakeTranscript(meetingId, opts.title, us);
    TranscriptReadsBack(t);
    StoredTranscriptReads(transcribed, meetingId, EncodeTranscript(t), Succeeded);
  }

  /**
   * The speaker-label step on a freshly written transcript of `us`, when the
   * speaker map loads: it succeeds, the transcript then holds the utterances
   * (relabelled when a map applies) and reads back as a report that counts
   * them, and the diarization file is untouched.
   */
  lemma LabelOutcome(transcribed: Files, meetingId: string, us: seq<Utterance>, opts: Options)
    requires TranscriptPath(meetingId) in transcribed && transcribed[TranscriptPath(meetingId)] == TranscriptBody(meetingId, opts.title, us)
    requires opts.applySpeakerLabels ==> LoadSpeakerMap(transcribed, meetingId).Success?
    ensures
      var labelled := if opts.applySpeakerLabels then LabelStep(transcribed, meetingId, us) else Success(transcribed);
      var stored := Labelled(us, opts, LoadSpeakerMap(transcribed, meetingId));
      labelled.Success? &&
      Summarise(labelled.value, meetingId, Succeeded) ==
        Success(Report(meetingId, Str(OrElse(opts.title, "Meeting " + meetingId)), Succeeded, |us|, SpeakerCount(stored), Num(LatestEnd(us)))) &&
      LoadDiarization(labelled.value, meetingId) == LoadDiarization(transcribed, meetingId) &&
      GetUtterances(labelled.value, meetingId) == Success(stored)
  {
    var loaded := LoadSpeakerMap(transcribed, meetingId);
    if opts.applySpeakerLabels && loaded.value.Some? && loaded.value.value != [] {
      RelabelOutcome(transcribed, meetingId, us, opts, loaded.value.value);
      assert Labelled(us, opts, loaded) == Relabelled(us, loaded.value.value);
    } else {
      if opts.applySpeakerLabels {
        LabelStepSkips(transcribed, meetingId, us);
        if loaded.value.Some? {
          RelabelledEmpty(us);
        }
      }
      assert Labelled(us, opts, loaded) == us;
      UnlabelledOutcome(transcribed, meetingId, us, opts);
    }
  }

  /**
   * From a diarization file holding `segs`, when the recogniser loads, no
   * extraction aborts and the later steps succeed: the report counts the
   * stored utterances, the diarization file stays, and the transcript holds
   * the utterances (relabelled when a speaker map applies).
   */
  lemma DiarizedRun(diarized: Files, meetingId: string, segs: seq<Segment>, opts: Options, svc: Services)
    requires svc.asr.load.Pass? && NoAbort(svc.asr, Merged(segs, MergeGap))
    requires opts.applySpeakerLabels ==> LoadSpeakerMap(diarized, meetingId).Success?
    requires opts.createVectors ==> svc.embed.Pass?
    ensures
      var us := Assembled(svc.asr, Merged(segs, MergeGap));
      var stored := Labelled(us, opts, LoadSpeakerMap(diarized, meetingId));
      var (after, report) := FromDiarized(diarized, meetingId, segs, opts, svc);
      report == Report(meetingId, Str(OrElse(opts.title, "Meeting " + meetingId)), Succeeded, |us|, SpeakerCount(stored), Num(LatestEnd(us))) &&
      LoadDiarization(after, meetingId) == LoadDiarization(diarized, meetingId) &&
      GetUtterances(after, meetingId) == Success(stored)
  {
    FirstAbortMeaning(svc.asr, Merged(segs, MergeGap));
    var us := Assembled(svc.asr, Merged(segs, MergeGap));
    var body := TranscriptBody(meetingId, opts.title, us);
    var transcribed := diarized[TranscriptPath(meetingId) := body];
    assert FromDiarized(diarized, meetingId, segs, opts, svc) == Finish(transcribed, meetingId, us, opts, svc);
    PathKindsDistinct(meetingId, meetingId, "");
    assert LoadDiarization(transcribed, meetingId) == LoadDiarization(diarized, meetingId);
    SpeakerMapUnaffected(diarized, meetingId, meetingId, body);
    LabelOutcome(transcribed, meetingId, us, opts);
  }

  /**
   * When every external step succeeds the run succeeds: the diarization file
   * holds the diarizer's turns, the transcript holds one utterance per merged
   * turn (relabelled when a speaker map applies), and the report counts them
   * and gives the transcript's title and duration.
   */
  lemma SuccessfulRun(files: Files, meetingId: string, opts: Options, svc: Services)
    requires GetAudioPath(files, meetingId).Success?
    requires !MeetingIsProcessed(files, meetingId) || opts.force
    requires Diarize(files, meetingId, svc.diarizer).Success? && svc.asr.load.Pass?
    requires NoAbort(svc.asr, Merged(Diarize(files, meetingId, svc.diarizer).value, MergeGap))
    requires opts.applySpeakerLabels ==> LoadSpeakerMap(files, meetingId).Success?
    requires opts.createVectors ==> svc.embed.Pass?
    ensures
      var segs := Diarize(files, meetingId, svc.diarizer).value;
      var us := Assembled(svc.asr, Merged(segs, MergeGap));
      var stored := Labelled(us, opts, LoadSpeakerMap(files, meetingId));
      var after := Process(files, meetingId, opts, svc).0;
      Process(files, meetingId, opts, svc).1 ==
        Report(meetingId, Str(OrElse(opts.title, "Meeting " + meetingId)), Succeeded, |us|, SpeakerCount(stored), Num(LatestEnd(us))) &&
      LoadDiarization(after, meetingId) == Success(segs) &&
      GetUtterances(after, meetingId) == Success(stored)
  {
    var segs := Diarize(files, meetingId, svc.diarizer).value;
    var segBody := JsonText(EncodeSegments(segs));
    var diarized := files[DiarizationPath(meetingId) := segBody];
    LoadDiarizationSaved(files, meetingId, segs);
    SpeakerMapUnaffected(files, meetingId, meetingId, segBody);
    assert Process(files, meetingId, opts, svc) == FromDiarized(diarized, meetingId, segs, opts, svc);
    DiarizedRun(diarized, meetingId, segs, opts, svc);
  }

  /** A run reports success only when every external step succeeded. */
  lemma SuccessNeedsEveryStep(files: Files, meetingId: string, opts: Options, svc: Services)
    requires Process(files, meetingId, opts, svc).1.Report? && Process(files, meetingId, opts, svc).1.status == Succeeded
    ensures GetAudioPath(files, meetingId).Success?
    ensures !MeetingIsProcessed(files, meetingId) || opts.force
    ensures Diarize(files, meetingId, svc.diarizer).Success? && svc.asr.load.Pass?
    ensures NoAbort(svc.asr, Merged(Diarize(files, meetingId, svc.diarizer).value, MergeGap))
    ensures opts.applySpeakerLabels ==> LoadSpeakerMap(files, meetingId).Success?
    ensures opts.createVectors ==> svc.embed.Pass?
  {
    var d := Diarize(files, meetingId, svc.diarizer);
    if d.Success? && svc.asr.load.Pass? {
      FirstAbortMeaning(svc.asr, Merged(d.value, MergeGap));
      var segBody := JsonText(EncodeSegments(d.value));
      var diarized := files[DiarizationPath(meetingId) := segBody];
      var us := Assembled(svc.asr, Merged(d.value, MergeGap));
      SpeakerMapUnaffected(files, meetingId, meetingId, segBody);
      SpeakerMapUnaffected(diarized, meetingId, meetingId, JsonText(EncodeTranscript(MakeTranscript(meetingId, opts.title, us))));
    }
  }

  /**
   * Processing is idempotent from the caller's side: after a successful run,
   * a second run without `force` writes nothing and reports the same counts
   * as already processed, whatever the external models would now do.
   */
  lemma RerunAfterSuccess(files: Files, meetingId: string, opts: Options, svc: Services, later: Services)
    requires Process(files, meetingId, opts, svc).1.Report? && Process(files, meetingId, opts, svc).1.status == Succeeded
    ensures
      var (after, report) := Process(files, meetingId, opts, svc);
      Process(after, meetingId, opts.(force := false), later) == (after, report.(status := AlreadyProcessed))
  {
    var (after, report) := Process(files, meetingId, opts, svc);
    SuccessNeedsEveryStep(files, meetingId, opts, svc);
    SuccessfulRun(files, meetingId, opts, svc);
    RecordingUntouched(files, meetingId, opts, svc);
    assert Summarise(after, meetingId, Succeeded) == Success(report);
  }
}
