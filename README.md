# Meeting intelligence: a verified model

This project models the `meeting_processing` package of the meeting
intelligence agent, which turns a meeting recording into a searchable
transcript:

- **Diarization** splits the recording into speaker turns.
  - Consecutive turns of the same speaker that are at most one second
    apart are merged.
  - The turns are saved as JSON.
- **Transcription** turns each merged turn into an utterance.
  - Each utterance gets an id, a speaker, its times and the recognised
    text.
  - The utterances are saved in a transcript document together with a
    title and metadata.
- **Speaker maps** optionally rename the diarizer's labels
  (`SPEAKER_0`, …) to roles such as "CEO".
- **Retrieval** answers questions over one meeting:
  - semantic search through the vector index, one query per requested
    role;
  - a keyword fallback that ranks utterances by shared words;
  - the window of utterances around a hit;
  - the text handed to a language model.
- **`process_meeting`** runs these stages in order. It:
  - leaves an already processed meeting alone unless forced;
  - reports a summary or the error that stopped it.

The project also models the banking actions of two voice assistants
(`voice-assistant` and `sovereign-voice-assistant`), which are dialogue
actions that read slots and emit `SlotSet` events:

- The balance lookup normalises the account type.
- Card blocking validates the last four digits. The sovereign version
  first strips everything but digits from the transcribed slot.
- The transfer and transaction actions only confirm.
- The two files' balance, account-list, transfer and transaction
  actions are the same code. The members of `VoiceActions` model both.

How the model is laid out:

- **Files on disk** are a `map` from path to contents (`FileSystem.Files`).
  - Reads are functions of that map.
  - `Storage.FileStore` is the class whose `SaveJson` and
    `SaveSpeakerMap` methods change it.
- **Python dicts whose order matters** are ordered association lists
  (`Dicts.Dict`). A JSON object is kept as written, repeated keys
  included, and read through the dict `json.load` builds from it, where
  the last value of a key wins (`JsonModel.Members`). Examples are the speaker map, whose inversion keeps
  the last key for a repeated role, and the per-speaker statistics.
- **Loops over mutable state are methods** with loop invariants, each
  proved equal to a specification function:
  - merging turns;
  - building utterances;
  - tallying statistics;
  - relabelling speakers in place on an `array`;
  - keyword scanning and ranking;
  - finding the context window;
  - formatting;
  - the whole pipeline.
- **External models and services are parameters**:
  - the diarization pipeline;
  - the speech recogniser: its load, the per-segment audio extraction
    (cut, refused by ffmpeg, or an exception that ends the run), and the
    text it returns;
  - the vector index search;
  - the outcome of building embeddings;
  - the renderer of floating-point numbers.

## Model

| member | source | states |
|---|---|---|
| Config.ChromaCollectionName | recipes/level-2-intermediate/meeting-intelligence-agent/meeting_processing/config.py:126-128 | the collection name is the prefix "meeting_" followed by exactly the meeting id |
| Config.PathsInjective | recipes/level-2-intermediate/meeting-intelligence-agent/meeting_processing/config.py:111-133 | two different meeting ids never give the same path string for a diarization file, transcript, speaker map or embeddings directory, nor the same collection name |
| Config.PathKindsDistinct | recipes/level-2-intermediate/meeting-intelligence-agent/meeting_processing/config.py:111-123 | a transcript, a diarization file, a speaker map, an embeddings directory and a recording never share a path, whatever the two meeting ids |
| Config.ValidateMeetingIdMeaning | recipes/level-2-intermediate/meeting-intelligence-agent/meeting_processing/config.py:160-176 | (corrected) an id is valid exactly when it is non-empty and every character is an ASCII letter, a digit, `_` or `-` |
| Config.ValidateMeetingIdAsWrittenMeaning | recipes/level-2-intermediate/meeting-intelligence-agent/meeting_processing/config.py:170-176 | the check as written accepts exactly the valid ids plus a valid id followed by one newline |
| Config.TrailingNewlineAccepted | recipes/level-2-intermediate/meeting-intelligence-agent/meeting_processing/config.py:176 | "q3_call\n" passes the check as written and fails the corrected one |
| Config.FindRecording | recipes/level-2-intermediate/meeting-intelligence-agent/meeting_processing/config.py:194-199 | the result is missing exactly when no candidate exists; otherwise it is the first existing candidate in extension order |
| Config.GetAudioPath | recipes/level-2-intermediate/meeting-intelligence-agent/meeting_processing/config.py:179-204 | fails with the audio-not-found error exactly when no recording with any of the five extensions exists; otherwise returns the first one in the order .wav, .mp3, .m4a, .flac, .ogg |
| Config.WavFirst | recipes/level-2-intermediate/meeting-intelligence-agent/meeting_processing/config.py:194-199 | a .wav recording is preferred over every other format |
| Config.ProcessedAfterWrite | recipes/level-2-intermediate/meeting-intelligence-agent/meeting_processing/config.py:207-217 | a meeting is processed exactly when its transcript exists: writing its own transcript marks it, while other meetings' transcripts and any diarization or speaker-map file leave the answer unchanged |
| Storage.LoadJson | recipes/level-2-intermediate/meeting-intelligence-agent/meeting_processing/storage.py:45-73 | succeeds exactly when the file exists and parses, with its document; a missing file gives file-not-found; an unparseable one gives a parse error |
| Storage.FileStore.SaveJson | recipes/level-2-intermediate/meeting-intelligence-agent/meeting_processing/storage.py:23-43 | the file now holds the document, which loads back unchanged; every other path loads as before |
| Storage.FileStore.SaveSpeakerMap | recipes/level-2-intermediate/meeting-intelligence-agent/meeting_processing/storage.py:142-153 | writes the map at the meeting's speaker-map path; loading it gives back the dict it was, each label with its last role in first-seen order, and a map without repeated labels unchanged |
| Storage.LoadTranscript | recipes/level-2-intermediate/meeting-intelligence-agent/meeting_processing/storage.py:76-94 | a missing or unreadable file passes its error through; a document that is not an object, or whose utterances have no length, is malformed (the log line's `len(transcript.get(...))` raises); otherwise the object itself, and the meeting then counts as processed |
| Storage.LoadDiarization | recipes/level-2-intermediate/meeting-intelligence-agent/meeting_processing/storage.py:97-115 | a meeting without a diarization file gives file-not-found on that path |
| Storage.LoadDiarizationSaved | recipes/level-2-intermediate/meeting-intelligence-agent/meeting_processing/storage.py:97-115 | diarization segments written by the pipeline load back as the same segments |
| Storage.LoadSpeakerMap | recipes/level-2-intermediate/meeting-intelligence-agent/meeting_processing/storage.py:118-139 | "no map" exactly when the speaker-map file is missing; an unreadable file is malformed; otherwise it succeeds exactly when the dict `json.load` builds holds only strings, and the map is that dict's entries in order, label and role |
| Storage.SpeakerMapLastWins | recipes/level-2-intermediate/meeting-intelligence-agent/meeting_processing/storage.py:135 | a loaded map gives a label exactly the role written with its last occurrence in the file, and lacks exactly the labels the file never names |
| Storage.RepeatedLabelLastWins | recipes/level-2-intermediate/meeting-intelligence-agent/meeting_processing/storage.py:135 | a file naming SPEAKER_0 as "CEO" and then as "CFO" loads as the one entry SPEAKER_0 to "CFO" |
| Storage.GetUtterances | recipes/level-2-intermediate/meeting-intelligence-agent/meeting_processing/storage.py:156-170 | a missing transcript gives file-not-found; succeeds exactly when the transcript loads and its utterance list reads, and returns that list |
| Storage.GetUtterancesDefault | recipes/level-2-intermediate/meeting-intelligence-agent/meeting_processing/storage.py:169-170 | a transcript without an "utterances" key has no utterances |
| Storage.GetUtterancesSaved | recipes/level-2-intermediate/meeting-intelligence-agent/meeting_processing/storage.py:156-170 | the utterances of a written transcript read back unchanged |
| Storage.SearchUtterancesBySpeaker | recipes/level-2-intermediate/meeting-intelligence-agent/meeting_processing/storage.py:173-191 | a load failure passes through; otherwise returns exactly the utterances of that speaker, in transcript order |
| Storage.SearchUtterancesByKeyword | recipes/level-2-intermediate/meeting-intelligence-agent/meeting_processing/storage.py:194-221 | a load failure passes through; otherwise returns exactly the utterances whose text contains the keyword, in order, lowercasing both sides unless the search is case-sensitive |
| Storage.KeywordScan | recipes/level-2-intermediate/meeting-intelligence-agent/meeting_processing/storage.py:208-217 | the loop keeps exactly the matching utterances in order, and each kept text contains the keyword |
| Storage.KeywordHitsOccur | recipes/level-2-intermediate/meeting-intelligence-agent/meeting_processing/storage.py:210-217 | every kept utterance contains the keyword, lowercased on both sides unless the search is case-sensitive |
| Storage.GetUtterancesInTimeRange | recipes/level-2-intermediate/meeting-intelligence-agent/meeting_processing/storage.py:224-250 | a load failure passes through; otherwise returns exactly the utterances that start at or after `start` and end at or before `end`, in order |
| Schema.DecodeEncodeSegment | recipes/level-2-intermediate/meeting-intelligence-agent/meeting_processing/diarization.py:125-129 | a saved speaker turn reads back as the same turn |
| Schema.DecodeEncodeSegments | recipes/level-2-intermediate/meeting-intelligence-agent/meeting_processing/diarization.py:144-147 | a saved list of turns reads back unchanged |
| Schema.DecodeEncodeUtterance | recipes/level-2-intermediate/meeting-intelligence-agent/meeting_processing/transcription.py:207-215 | a saved utterance (id, speaker, start, end, text) reads back unchanged |
| Schema.DecodeEncodeUtterances | recipes/level-2-intermediate/meeting-intelligence-agent/meeting_processing/transcription.py:224-242 | a saved utterance list reads back unchanged |
| Schema.TranscriptReadsBack | recipes/level-2-intermediate/meeting-intelligence-agent/meeting_processing/transcription.py:224-237 | a written transcript gives back its title, its utterances and its total duration |
| Schema.WithUtterances | recipes/level-2-intermediate/meeting-intelligence-agent/meeting_processing/__init__.py:137-150 | an utterance list can be put back exactly into a transcript that is a JSON object |
| Schema.WithUtterancesReads | recipes/level-2-intermediate/meeting-intelligence-agent/meeting_processing/__init__.py:137-150 | after the relabelled utterances are put back, they read back; title and duration are unchanged |
| Schema.EncodeSpeakerMap | recipes/level-2-intermediate/meeting-intelligence-agent/meeting_processing/storage.py:142-153 | a speaker map is saved as a JSON object whose i-th field is the i-th label with its role as a string |
| Schema.DecodeStrDict | recipes/level-2-intermediate/meeting-intelligence-agent/meeting_processing/storage.py:118-139 | decoding succeeds exactly when every value is a string, and then entry i is entry i's key and text |
| Schema.DecodeEncodeSpeakerMap | recipes/level-2-intermediate/meeting-intelligence-agent/meeting_processing/storage.py:118-153 | a saved speaker map loads back as the dict `json.load` rebuilds from it, and unchanged when no label repeats |
| Schema.DecodeStrDictLookup | recipes/level-2-intermediate/meeting-intelligence-agent/meeting_processing/storage.py:118-139 | decoding keeps every label: found after decoding exactly when found before, with the same text |
| Schema.FromPairsEncoded | recipes/level-2-intermediate/meeting-intelligence-agent/meeting_processing/storage.py:142-153 | reading the written map last-wins is writing the map read last-wins |
| Diarization.MergeSameSpeakerSegments | recipes/level-2-intermediate/meeting-intelligence-agent/meeting_processing/diarization.py:154-193 | the loop computes exactly the merged turns (`Merged`) |
| Diarization.MergedBounds | recipes/level-2-intermediate/meeting-intelligence-agent/meeting_processing/diarization.py:154-193 | merging gives nothing only for no input, and never more turns than it got |
| Diarization.MergedSeparated | recipes/level-2-intermediate/meeting-intelligence-agent/meeting_processing/diarization.py:175-189 | in the result, no two neighbours have the same speaker with a gap within `max_gap_seconds` |
| Diarization.MergedSpan | recipes/level-2-intermediate/meeting-intelligence-agent/meeting_processing/diarization.py:154-193 | the merged turns start where the first turn starts and end where the last turn ends |
| Diarization.MergeIdempotent | recipes/level-2-intermediate/meeting-intelligence-agent/meeting_processing/diarization.py:154-193 | merging an already merged list changes nothing |
| Diarization.MergedIsRuns | recipes/level-2-intermediate/meeting-intelligence-agent/meeting_processing/diarization.py:154-193 | merging equals the independent definition by maximal runs: each run opens at a turn that cannot be absorbed, keeps its first turn's speaker and start, and takes its last turn's end |
| Diarization.MergeExample | recipes/level-2-intermediate/meeting-intelligence-agent/meeting_processing/diarization.py:154-193 | A 0–5 and A 5.5–10 merge into A 0–10; B 10–12 stays separate |
| Diarization.AddPercentages | recipes/level-2-intermediate/meeting-intelligence-agent/meeting_processing/diarization.py:244-249 | every speaker entry gets its time as a percentage of the total and keeps everything else, in order |
| Diarization.GetSpeakerStatistics | recipes/level-2-intermediate/meeting-intelligence-agent/meeting_processing/diarization.py:196-255 | without turns: all zero; otherwise the total is the latest turn end; there is one entry per distinct speaker, and the turn counts add up to the number of turns; each entry has that speaker's turn count, summed time and percentage |
| Diarization.TallySegments | recipes/level-2-intermediate/meeting-intelligence-agent/meeting_processing/diarization.py:229-241 | the per-turn loop builds exactly the table the turns tally to, speakers in first-seen order |
| Diarization.TallyOfTallied | recipes/level-2-intermediate/meeting-intelligence-agent/meeting_processing/diarization.py:229-241 | the tally of the turns has one entry per distinct speaker, each with that speaker's turn count and summed time |
| Diarization.PercentageBounds | recipes/level-2-intermediate/meeting-intelligence-agent/meeting_processing/diarization.py:244-249 | a part of a positive total is between 0 and 100 percent |
| Diarization.Diarize | recipes/level-2-intermediate/meeting-intelligence-agent/meeting_processing/diarization.py:73-151 | no recording: audio-not-found; pipeline load failure: its error; a failing run: "Speaker diarization failed: " and the message; otherwise exactly the run's turns. A success means the pipeline loaded and produced those turns |
| Diarization.RunDiarization | recipes/level-2-intermediate/meeting-intelligence-agent/meeting_processing/diarization.py:73-151 | on success exactly the diarization file is written, and it loads back as the returned turns; on failure nothing is written |
| Transcription.AssembledShape | recipes/level-2-intermediate/meeting-intelligence-agent/meeting_processing/transcription.py:180-215 | every utterance comes from the segment of its id, with the same speaker and times; its text is the recognised text or the failure sentinel; ids strictly increase; there are never more utterances than segments |
| Transcription.AssembledComplete | recipes/level-2-intermediate/meeting-intelligence-agent/meeting_processing/transcription.py:188-197 | every segment whose audio was extracted has its utterance |
| Transcription.AssembledAllExtracted | recipes/level-2-intermediate/meeting-intelligence-agent/meeting_processing/transcription.py:180-215 | when every extraction succeeds, there is one utterance per segment, numbered 1 to n |
| Transcription.FirstAbortMeaning | recipes/level-2-intermediate/meeting-intelligence-agent/meeting_processing/transcription.py:98-105 | the loop gets through exactly when no extraction raises anything but ffmpeg's own failure; otherwise it stops with the message of the earliest such turn |
| Transcription.FirstAbortPrefix | recipes/level-2-intermediate/meeting-intelligence-agent/meeting_processing/transcription.py:186-197 | once an extraction has raised, the turns after it do not change the outcome |
| Transcription.BuildUtterances | recipes/level-2-intermediate/meeting-intelligence-agent/meeting_processing/transcription.py:180-215 | the loop skips a segment ffmpeg could not cut, leaves on any other extraction exception, and otherwise computes exactly the assembled utterances |
| Transcription.OrElse | recipes/level-2-intermediate/meeting-intelligence-agent/meeting_processing/transcription.py:227 | a non-empty title is kept; a missing or empty one becomes the default |
| Transcription.LatestEnd | recipes/level-2-intermediate/meeting-intelligence-agent/meeting_processing/transcription.py:230-235 | the total duration is 0 without utterances; otherwise it is the end of some utterance and no utterance ends later |
| Transcription.MakeTranscript | recipes/level-2-intermediate/meeting-intelligence-agent/meeting_processing/transcription.py:224-237 | the transcript carries the id, the utterances, the title or "Meeting <id>", the utterance count, the latest end and the model settings |
| Transcription.TranscribeSegments | recipes/level-2-intermediate/meeting-intelligence-agent/meeting_processing/transcription.py:136-246 | no recording: audio-not-found and no write. Model load failure: the load error message and no write. An extraction raising past the loop: that exception and no write. Otherwise: returns the assembled utterances, writes exactly the transcript file, and that file reads back as those utterances |
| Transcription.Relabelled | recipes/level-2-intermediate/meeting-intelligence-agent/meeting_processing/transcription.py:249-273 | relabelling keeps the number of utterances |
| Transcription.RelabelledAt | recipes/level-2-intermediate/meeting-intelligence-agent/meeting_processing/transcription.py:266-271 | a mapped speaker is replaced by its role and an unmapped one kept; id, times and text never change |
| Transcription.RelabelledEmpty | recipes/level-2-intermediate/meeting-intelligence-agent/meeting_processing/transcription.py:262-263 | an empty map changes nothing |
| Transcription.ApplySpeakerMap | recipes/level-2-intermediate/meeting-intelligence-agent/meeting_processing/transcription.py:249-273 | the in-place update leaves the array equal to the relabelled utterances |
| Transcription.AddWordPercentages | recipes/level-2-intermediate/meeting-intelligence-agent/meeting_processing/transcription.py:276-324 | every speaker entry gets its words as a percentage of all words and keeps everything else, in order |
| Transcription.GetTranscriptSummary | recipes/level-2-intermediate/meeting-intelligence-agent/meeting_processing/transcription.py:276-324 | without utterances: all zero. Otherwise: the utterance count; the total words; the latest end as duration; one entry per distinct speaker, with per-speaker utterances and words summing to the totals; and each entry's own utterance count, words, spoken time and word percentage |
| Transcription.TallyUtterances | recipes/level-2-intermediate/meeting-intelligence-agent/meeting_processing/transcription.py:298-310 | the per-utterance loop builds exactly the table the utterances tally to, speakers in first-seen order |
| Transcription.TallyOfTallies | recipes/level-2-intermediate/meeting-intelligence-agent/meeting_processing/transcription.py:298-310 | the tally of the utterances has one entry per distinct speaker, each with its utterance count, word count and spoken time |
| Retrieval.ResolveRoleMeaning | recipes/level-2-intermediate/meeting-intelligence-agent/meeting_processing/retrieval.py:60-65 | a role no speaker maps to is searched as it stands; otherwise it resolves to the last speaker label mapped to it |
| Retrieval.ResolveRoleCollision | recipes/level-2-intermediate/meeting-intelligence-agent/meeting_processing/retrieval.py:65 | when two labels map to "CEO", the later one wins |
| Retrieval.GatheredFrom | recipes/level-2-intermediate/meeting-intelligence-agent/meeting_processing/retrieval.py:99-117 | gathered hits all come from some role's query, and a success means every role's query succeeded; a failure is the error of one role's query |
| Retrieval.GatheredPrefixFails | recipes/level-2-intermediate/meeting-intelligence-agent/meeting_processing/retrieval.py:99-117 | once a role's query fails, the later roles make no difference |
| Retrieval.SemanticSearch | recipes/level-2-intermediate/meeting-intelligence-agent/meeting_processing/retrieval.py:77-135 | fails exactly when fetching fails, with its error; otherwise returns the fetched hits ranked by score and cut to `max_results` |
| Retrieval.RankedProperties | recipes/level-2-intermediate/meeting-intelligence-agent/meeting_processing/retrieval.py:129-131 | ranked hits are in non-increasing score; their number follows Python's slice rule; they come from the input; nothing cut off scores above anything kept |
| Retrieval.RankedStable | recipes/level-2-intermediate/meeting-intelligence-agent/meeting_processing/retrieval.py:130 | hits of equal score keep their input order (a prefix of it) |
| Retrieval.ScoredShape | recipes/level-2-intermediate/meeting-intelligence-agent/meeting_processing/retrieval.py:165-179 | exactly the utterances of an allowed role that share a token with the query are scored, each with its number of shared tokens |
| Retrieval.ScoreUtterances | recipes/level-2-intermediate/meeting-intelligence-agent/meeting_processing/retrieval.py:168-179 | the loop skips other roles and zero overlaps and computes exactly the scored list, in transcript order |
| Retrieval.StripScores | recipes/level-2-intermediate/meeting-intelligence-agent/meeting_processing/retrieval.py:185 | drops the scores and keeps the utterances in the same order |
| Retrieval.KeywordRank | recipes/level-2-intermediate/meeting-intelligence-agent/meeting_processing/retrieval.py:165-185 | the loop and sort compute exactly the scored utterances, best first, cut to `max_results`, without scores |
| Retrieval.KeywordProperties | recipes/level-2-intermediate/meeting-intelligence-agent/meeting_processing/retrieval.py:165-185 | each keyword hit has no score, is in the transcript, has an allowed role and shares a word with the query; overlaps do not increase; the count follows Python's slice rule over the qualifying utterances |
| Retrieval.KeywordTopIsBest | recipes/level-2-intermediate/meeting-intelligence-agent/meeting_processing/retrieval.py:182-185 | no qualifying utterance that was cut off overlaps the query more than any result kept |
| Retrieval.KeywordStable | recipes/level-2-intermediate/meeting-intelligence-agent/meeting_processing/retrieval.py:182-185 | utterances of equal overlap keep their transcript order among the results (a prefix of it) |
| Retrieval.KeywordSearch | recipes/level-2-intermediate/meeting-intelligence-agent/meeting_processing/retrieval.py:138-189 | a transcript load failure passes through; otherwise returns the keyword ranking of its utterances |
| Retrieval.SearchUtterances | recipes/level-2-intermediate/meeting-intelligence-agent/meeting_processing/retrieval.py:19-74 | a speaker-map failure passes through; otherwise the roles resolve through the reverse map, and the semantic or keyword search result is returned |
| Retrieval.FirstWithId | recipes/level-2-intermediate/meeting-intelligence-agent/meeting_processing/retrieval.py:211-215 | missing exactly when no utterance has the id; otherwise the first position holding it |
| Retrieval.FindTarget | recipes/level-2-intermediate/meeting-intelligence-agent/meeting_processing/retrieval.py:211-215 | the scan finds exactly the first position with the id |
| Retrieval.WindowProperties | recipes/level-2-intermediate/meeting-intelligence-agent/meeting_processing/retrieval.py:221-225 | the window is the contiguous slice around the target, contains it, holds at most 2k+1 utterances, all within k positions of the target |
| Retrieval.ContextExample | recipes/level-2-intermediate/meeting-intelligence-agent/meeting_processing/retrieval.py:192-231 | with ids 1–10, radius 2 around id 5 gives ids 3–7, and around id 1 gives ids 1–3 |
| Retrieval.ContextAround | recipes/level-2-intermediate/meeting-intelligence-agent/meeting_processing/retrieval.py:210-225 | the method computes exactly the context window, empty for an unknown id |
| Retrieval.GetContextAroundUtterance | recipes/level-2-intermediate/meeting-intelligence-agent/meeting_processing/retrieval.py:192-231 | a load failure passes through; otherwise returns the window around the first utterance with that id |
| Retrieval.FormatResultsForLlm | recipes/level-2-intermediate/meeting-intelligence-agent/meeting_processing/retrieval.py:234-268 | the loop builds exactly the numbered entries joined by blank lines, or the no-information sentence |
| Retrieval.FormattedStart | recipes/level-2-intermediate/meeting-intelligence-agent/meeting_processing/retrieval.py:250-268 | a non-empty result text starts with "1. " and the first speaker |
| Retrieval.FormattedSentinel | recipes/level-2-intermediate/meeting-intelligence-agent/meeting_processing/retrieval.py:245-246 | the no-information sentence is produced exactly for an empty result list |
| Retrieval.SentinelStart | recipes/level-2-intermediate/meeting-intelligence-agent/meeting_processing/retrieval.py:245-246 | the no-information sentence starts with "N", so no numbered result list equals it |
| Retrieval.ScoreInfoPresent | recipes/level-2-intermediate/meeting-intelligence-agent/meeting_processing/retrieval.py:260-263 | the relevance note appears exactly for hits that carry a score |
| Pipeline.SpeakerCount | recipes/level-2-intermediate/meeting-intelligence-agent/meeting_processing/__init__.py:171-180 | the distinct speaker count never exceeds the utterance count, and is at least one when there are utterances |
| Pipeline.Summarise | recipes/level-2-intermediate/meeting-intelligence-agent/meeting_processing/__init__.py:101-187 | a transcript load failure passes through; succeeds exactly when the utterances read, the metadata is a dict or absent and, after a fresh run, the duration is a number; the report then holds the stored title and duration of any type, the count and the distinct speaker count; otherwise the transcript is malformed |
| Pipeline.UntypedTitleReported | recipes/level-2-intermediate/meeting-intelligence-agent/meeting_processing/__init__.py:101-114 | a processed meeting whose transcript has the title 5 and the duration "long" is reported with exactly those values |
| Pipeline.UntypedDurationRaises | recipes/level-2-intermediate/meeting-intelligence-agent/meeting_processing/__init__.py:168-187 | after a fresh run, the same transcript makes the report an error, as the `:.1f` log line raises |
| Pipeline.UntypedTranscriptReads | recipes/level-2-intermediate/meeting-intelligence-agent/meeting_processing/__init__.py:101-114 | the example transcript's title, utterances and duration read as stored |
| Pipeline.TranscriptLoads | recipes/level-2-intermediate/meeting-intelligence-agent/meeting_processing/storage.py:76-94 | a stored dict whose utterances decode loads as the transcript |
| Pipeline.TranscriptWriteKeepsDiarization | recipes/level-2-intermediate/meeting-intelligence-agent/meeting_processing/__init__.py:137-150 | rewriting the transcript leaves the diarization file as it was |
| Pipeline.RelabelledReads | recipes/level-2-intermediate/meeting-intelligence-agent/meeting_processing/__init__.py:137-150 | the relabelled transcript reads back with the new utterances and the title and duration it was written with |
| Pipeline.ProcessMeeting | recipes/level-2-intermediate/meeting-intelligence-agent/meeting_processing/__init__.py:51-199 | the files afterwards and the report are exactly those of the stage-by-stage definition `Process` |
| Pipeline.RunStages | recipes/level-2-intermediate/meeting-intelligence-agent/meeting_processing/__init__.py:121-187 | diarize, merge, transcribe and finish leave exactly the files and report of `Reprocess` |
| Pipeline.TranscribeStages | recipes/level-2-intermediate/meeting-intelligence-agent/meeting_processing/__init__.py:123-187 | merge, transcribe and finish leave exactly the files and report of `FromDiarized` |
| Pipeline.FinishStages | recipes/level-2-intermediate/meeting-intelligence-agent/meeting_processing/__init__.py:137-187 | labelling, embedding and the final summary leave exactly the files and report of `Finish` |
| Pipeline.NoRecordingNoWrites | recipes/level-2-intermediate/meeting-intelligence-agent/meeting_processing/__init__.py:96-99 | without a recording nothing is written, and the report is the audio-not-found error |
| Pipeline.AlreadyProcessedReadOnly | recipes/level-2-intermediate/meeting-intelligence-agent/meeting_processing/__init__.py:101-114 | a processed meeting without `force` writes nothing, calls no service, and any summary it reports says "already processed" |
| Pipeline.RecordingUntouched | recipes/level-2-intermediate/meeting-intelligence-agent/meeting_processing/__init__.py:51-199 | processing never changes which recording the meeting resolves to |
| Pipeline.DiarizationKeptOnLaterFailure | recipes/level-2-intermediate/meeting-intelligence-agent/meeting_processing/__init__.py:121-133 | when the recogniser fails to load, the report is an error but the diarization file already written stays |
| Pipeline.ExtractionAbortReported | recipes/level-2-intermediate/meeting-intelligence-agent/meeting_processing/__init__.py:133-199 | when an extraction raises past the loop, the report is that exception, the diarization file stays written and no transcript is written |
| Pipeline.SuccessfulRun | recipes/level-2-intermediate/meeting-intelligence-agent/meeting_processing/__init__.py:121-187 | when every step succeeds and no extraction raises past the loop, the report holds the title or "Meeting <id>", the utterance count, the distinct speakers of the stored (possibly relabelled) transcript and the latest end; the diarization and the utterances read back |
| Pipeline.DiarizedRun | recipes/level-2-intermediate/meeting-intelligence-agent/meeting_processing/__init__.py:123-187 | from a written diarization, with every later step succeeding: that report, the diarization unchanged and the stored utterances read back |
| Pipeline.LabelOutcome | recipes/level-2-intermediate/meeting-intelligence-agent/meeting_processing/__init__.py:137-150 | on a fresh transcript, the label step succeeds when the map loads, relabels only with a non-empty map, and the result reads back as the report of the stored utterances |
| Pipeline.RelabelOutcome | recipes/level-2-intermediate/meeting-intelligence-agent/meeting_processing/__init__.py:140-150 | with a non-empty map, the rewritten transcript reads back as the relabelled utterances with the title and duration kept |
| Pipeline.SuccessNeedsEveryStep | recipes/level-2-intermediate/meeting-intelligence-agent/meeting_processing/__init__.py:96-160 | a successful report implies that the recording existed, the run was not skipped, diarization and the model load succeeded, no extraction raised past the loop, the speaker map loaded when labels were asked for, and embedding succeeded when asked for |
| Pipeline.RerunAfterSuccess | recipes/level-2-intermediate/meeting-intelligence-agent/meeting_processing/__init__.py:101-114 | rerunning a successfully processed meeting without `force` writes nothing and reports the same summary as "already processed" |
| VoiceActions.NormaliseAccountType | recipes/level-2-intermediate/voice-assistant/actions/actions.py:18-26 | a missing or empty type is kept; otherwise "checking" if the lowercased type contains "check", else "savings" if it contains "sav", else the lowercased type |
| VoiceActions.NormaliseIdempotent | recipes/level-2-intermediate/voice-assistant/actions/actions.py:18-26 | normalising twice is normalising once |
| VoiceActions.CheckBeforeSav | recipes/level-2-intermediate/voice-assistant/actions/actions.py:21-25 | a type containing both "check" and "sav" is treated as checking |
| VoiceActions.GetAccountBalance | recipes/level-2-intermediate/voice-assistant/actions/actions.py:7-39 | emits the normalised account type and then a balance string |
| VoiceActions.BalanceOfSlot | recipes/level-2-intermediate/sovereign-voice-assistant/actions/actions.py:9-41 | any slot containing "check" in any case gets the checking balance; otherwise one containing "sav" gets the savings balance; everything else, a missing slot included, gets "$0.00" |
| VoiceActions.GetAccounts | recipes/level-2-intermediate/voice-assistant/actions/actions.py:42-56 | sets `available_accounts` to "checking and savings" |
| VoiceActions.AccountsHaveBalances | recipes/level-2-intermediate/sovereign-voice-assistant/actions/actions.py:44-58 | both listed accounts have a balance other than the default |
| VoiceActions.ProcessTransfer | recipes/level-2-intermediate/sovereign-voice-assistant/actions/actions.py:61-84 | a transfer changes no slot |
| VoiceActions.GetTransactions | recipes/level-2-intermediate/voice-assistant/actions/actions.py:103-117 | listing transactions changes no slot |
| VoiceActions.AllDigits | recipes/level-2-intermediate/voice-assistant/actions/actions.py:95 | true exactly when every character is a digit |
| VoiceActions.BlockCard | recipes/level-2-intermediate/voice-assistant/actions/actions.py:80-100 | emits only `card_blocked`, true exactly when the slot is four digits |
| VoiceActions.SpacedDigitsRefused | recipes/level-2-intermediate/voice-assistant/actions/actions.py:95-98 | "4532" blocks the card; "4 5 3 2", "453" and a missing slot do not |
| SovereignActions.DigitsAreFilter | recipes/level-2-intermediate/sovereign-voice-assistant/actions/actions.py:105 | the cleaned slot is exactly the slot's digits, in order |
| SovereignActions.BlockCard | recipes/level-2-intermediate/sovereign-voice-assistant/actions/actions.py:87-122 | a missing or empty slot only clears the flag. Otherwise the flag is set exactly when the slot has four digit characters; the slot then becomes those digits, and it is reset to ask again when it does not |
| SovereignActions.AcceptsWhatVoiceAccepts | recipes/level-2-intermediate/sovereign-voice-assistant/actions/actions.py:100-122 | every slot the plain voice assistant accepts is accepted here too, and stored unchanged |
| SovereignActions.SpokenDigitsCleaned | recipes/level-2-intermediate/sovereign-voice-assistant/actions/actions.py:103-122 | "4 5 3 2" from speech blocks the card and stores "4532" |
| SovereignActions.ShortSlotsRefused | recipes/level-2-intermediate/sovereign-voice-assistant/actions/actions.py:100-113 | "45 3" is refused and the slot reset so it is asked again; an empty slot only clears the flag |
| Dicts.InvertLastWins | recipes/level-2-intermediate/meeting-intelligence-agent/meeting_processing/retrieval.py:65 | the dict comprehension's inverse maps a value to the last key carrying it, and has no entry exactly for values no key carries |
| Dicts.FromPairsUnique | recipes/level-2-intermediate/meeting-intelligence-agent/meeting_processing/storage.py:64 | building a dict from the pairs of a dict gives that dict back |
| JsonModel.FieldLastWins | recipes/level-2-intermediate/meeting-intelligence-agent/meeting_processing/storage.py:64 | reading a key of a loaded object gives exactly the value of its last occurrence, and nothing exactly when the key never occurs |
| JsonModel.FieldAt | recipes/level-2-intermediate/meeting-intelligence-agent/meeting_processing/storage.py:64 | a member no later member repeats is read as written |
| JsonModel.RepeatedKeyExample | recipes/level-2-intermediate/meeting-intelligence-agent/meeting_processing/storage.py:64 | of two members SPEAKER_0, the second is read, and the dict has one entry |
| Seqs.SortDesc | recipes/level-2-intermediate/meeting-intelligence-agent/meeting_processing/retrieval.py:130 | `sort(reverse=True)` yields a permutation of its input, in non-increasing key order |
| Seqs.SortDescStable | recipes/level-2-intermediate/meeting-intelligence-agent/meeting_processing/retrieval.py:182 | the sort is stable: elements of equal key keep their input order |
| Seqs.TopIsBest | recipes/level-2-intermediate/meeting-intelligence-agent/meeting_processing/retrieval.py:181-185 | after sorting and cutting, nothing cut off ranks above anything kept |
| Seqs.Prefix | recipes/level-2-intermediate/meeting-intelligence-agent/meeting_processing/retrieval.py:131 | `s[:m]` is a prefix whose length follows Python's rule, also for negative `m` |
| Text.Contains | recipes/level-2-intermediate/meeting-intelligence-agent/meeting_processing/storage.py:216 | `keyword in text` holds exactly when the keyword occurs at some position of the text |
| Text.WordsEmpty | recipes/level-2-intermediate/meeting-intelligence-agent/meeting_processing/transcription.py:295 | `split()` gives no words exactly for text made only of the characters `str.isspace()` accepts |
| Text.SeparatorsSplit | recipes/level-2-intermediate/meeting-intelligence-agent/meeting_processing/transcription.py:295 | the separators U+001C to U+001F split words and alone make none, as in `str.split()` |
| Text.Digits | recipes/level-2-intermediate/sovereign-voice-assistant/actions/actions.py:105 | the cleaned string holds only digits, is no longer than the slot, and is the slot itself when it is all digits |
| Text.NatToStringValue | recipes/level-2-intermediate/meeting-intelligence-agent/meeting_processing/retrieval.py:266 | the number written for a result reads back as that number and has no leading zero |

## Left out

- The diarization pipeline, the speech recogniser, ffmpeg audio extraction, the vector index and embedding creation are external models and services. Each is a parameter giving its outcome. Their own code (including the `vectordb` module, `search_meeting` and `create_embeddings`) is not part of this model, and neither is the vector store they write.
- Floating-point arithmetic. Times, scores and percentages are `real`, so `round(..., 3)` on turn times, `round(..., 1)`/`round(..., 2)` in the statistics and the `:.1f`/`:.2f` formatting in the prompt text are not modelled. Formatting of numbers is a renderer parameter.
- Real file I/O, directory creation, logging, environment variables, the temporary directory for extracted segments, `export_transcript_to_text` and the command-line `__main__` blocks.
- The `min_speakers`/`max_speakers` arguments of `run_diarization` are passed to the diarizer and not modelled further.
- Config.PathsInjective: paths are strings. `pathlib` resolves "./x" to "x" and "a//b" to "a/b", and an absolute id leaves the data directory, so two such ids can name one file; the model does not normalise paths, and `process_meeting` does not validate the id.
- Storage.LoadDiarization: decoding is typed. A diarization file that is not a list of segments with a string speaker and numeric times is `Malformed` when read, whereas `load_diarization` returns whatever `json.load` gives.
- Pipeline.Summarise: the utterances are decoded as typed records before they are counted, so a transcript whose utterances lack a field is `Malformed`, whereas Python only needs each one's `"speaker"`. A failure of the `:.1f` log line is reported as a malformed transcript rather than with Python's message.
- Storage.GetUtterances: decoding is typed. A transcript whose utterances lack a field or have one of the wrong type is `Malformed` as soon as it is read. Python fails only later, with a `KeyError` or `TypeError` where the field is used.
- Schema.DecodeSpeakerMap: only a JSON object of strings is a speaker map. Anything else is `Malformed`, whereas Python returns whatever `json.load` gives.
- Pipeline.ProcessMeeting: an error report carries the `Error` value, not the text of `str(e)`.
- Transcription.TranscribeSegments: the recogniser may return empty text, and the model keeps such an utterance as the source does. An extraction that ffmpeg fails skips the segment without a sentinel utterance; any other exception from the extraction ends the run. Creating the temporary directory is not modelled, so an error there is not one of the model's outcomes.
- Text.Lower and Text.Digits work on ASCII: `str.lower` and `str.isdigit` are Unicode-aware in Python. Text.Words splits on every character `str.isspace()` accepts.
- VoiceActions.BlockCard and SovereignActions.BlockCard: slots are strings or missing. A slot of another type (which `str(...)` would convert) is not modelled.
- The actions' `name()` strings, the dispatcher and the response templates are not modelled.
- The `get_audio_path` docstring lists four extensions but the code looks for five; the model follows the code (".ogg" last).
- Processing is not atomic. A failure after diarization leaves the diarization file written (Pipeline.DiarizationKeptOnLaterFailure), as in the code.

## Findings

| source | as written | input that shows it | evidently intended | confidence | as-written member | corrected member |
|---|---|---|---|---|---|---|
| recipes/level-2-intermediate/meeting-intelligence-agent/meeting_processing/config.py:176 | `re.match(r"^[a-zA-Z0-9_-]+$", meeting_id)`; Python's `$` also matches before a final newline | "q3_call\n" is accepted, and would name files `q3_call\n_transcript.json` | only letters, digits, `_` and `-` (`re.fullmatch`, or `\Z`) | not executed | Config.TrailingNewlineAccepted | Config.ValidateMeetingIdMeaning |
