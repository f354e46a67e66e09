# Medical scribe: a verified model of the transcript and session core

The medical scribe records a doctor–patient visit in the browser and streams it to a backend. The backend transcribes the audio live and labels each utterance with a speaker. When recording stops, the backend turns the transcript into a SOAP note. This project models that pipeline's core in Dafny and proves what each part promises:

- **Streaming transcription service** (`deepgram_service.dfy`, module `Deepgram`). For each utterance it:
  - looks for a speaker label from the provider in a fixed order;
  - when there is none, applies the four-rule heuristic (pause, short reply, doctor/patient phrase, word balance) over a per-session pattern record;
  - formats the line as `Speaker n: text` and appends it to the session's buffer.

  Stopping a stream, correcting the speaker and reading speaker statistics are operations on the same per-session maps. The service is a class whose map fields its methods update.
- **Session orchestrator** (`medical_scribe_service.dfy`, module `MedicalScribe`):
  - the session registry and the lifecycle ready → recording → processing → completed/error;
  - the rules on unknown ids, blank transcripts and collaborator failure;
  - the transcript callback that keeps the session's transcript equal to the stripped buffer.
- **Data models** (`session.dfy`, `responses.dfy`, `json.dfy`): the session record and its status, their dictionary forms, the generic API response and the SOAP note result.
- **Note generation** (`gemini_service.dfy`, module `Gemini`): the prompt template, the ordered keyword classification of provider errors, and how the provider's answer becomes a result.
- **Transcript view** (`transcript_display.dfy`, module `TranscriptDisplay`):
  - the split before every `Speaker <digits>:` label;
  - the per-piece match of `^Speaker (\d+):\s*(.+)`;
  - the segment list and the colour of each speaker.
- **Format round trip** (`round_trip.dfy`, module `RoundTrip`). What the backend writes, the view reads back: one segment per utterance, with its speaker and its text as `trim()` leaves it.
- **Audio worklet** (`pcm_processor.dfy`, module `PCM`):
  - the conversion of samples to little-endian 16-bit PCM;
  - the 9600-byte chunking, with its no-loss invariant;
  - the flush on STOP.
- **Shared helpers**:
  - `text.dfy` holds the string helpers that both runtimes use. It defines Python's `strip` and JavaScript's `trim` over their own whitespace sets, ASCII case mapping, substring tests, the word count of `split()`, and decimal printing and parsing.
  - `wrappers.dfy` holds `Option`, `Result` and `Byte`.

Nothing outside the program is called; each outside dependency becomes a parameter instead:

- **Provider connection:** an opaque token. Whether opening it succeeded is a `StartOutcome`. Whether a send went through is a boolean.
- **Note-generation model:** a function from prompt to `ProviderOutcome`.
- **Base64 decoder:** a function that may fail.
- **Wall clock:** an integer number of milliseconds.
- **Socket:** the emitted live update is returned as a value.

Three behaviours are kept as the code has them, although a reader of the design might expect otherwise:

- `stop_recording` replaces the transcript whenever the buffer it gets back is a non-empty string. The test is not whether the stripped text is non-empty (backend/services/medical_scribe_service.py:114). `MedicalScribe.MedicalScribeService.StopRecording` states it that way.
- `generate_soap_note` does not look at `is_recording`. A note generated while still recording leaves the session `Completed` with `isRecording` true. `MedicalScribe.MedicalScribeService.GenerateSoapNote` keeps `isRecording` unchanged.
- A transcript event that arrives after its stream was stopped still updates the speaker state. The buffer append then raises a `KeyError`. `Deepgram.DeepgramService.OnMessage` returns `BufferMissing` for it.

## Model

| member | source | states |
|---|---|---|
| Deepgram.FirstTaggedWord | backend/services/deepgram_service.py:84-90 | no tag exactly when no word carries one; a tag found is the first word's that carries one |
| Deepgram.ScanWords | backend/services/deepgram_service.py:84-90 | the loop over the words stops at the first tagged word and returns its tag |
| Deepgram.ProviderSpeaker | backend/services/deepgram_service.py:72-100 | the label is the first word's tag, else the first tagged word's, else the alternative's, else the channel's; it is absent exactly when all four are |
| Deepgram.ExtractSpeaker | backend/services/deepgram_service.py:72-100 | the extraction steps yield exactly the ordered-precedence label |
| Deepgram.OtherSpeaker | backend/services/deepgram_service.py:178 | a switch always changes the speaker and lands on 1 or 2 |
| Deepgram.SwitchIffSomeRule | backend/services/deepgram_service.py:147-183 | the speaker changes exactly when one of the rules' conditions holds; otherwise the last speaker is kept |
| Deepgram.PauseForcesSwitch | backend/services/deepgram_service.py:129-153 | a gap above 2000 ms switches whatever the text |
| Deepgram.ShortReplyForcesSwitch | backend/services/deepgram_service.py:155-158 | without a long pause, fewer than 5 words after the first utterance switches |
| Deepgram.FirstUtteranceNotSwitchedByTiming | backend/services/deepgram_service.py:116-158 | the first inferred utterance (initial record, gap 0) is never switched by the pause or short-reply rule |
| Deepgram.PhraseRulesDirection | backend/services/deepgram_service.py:139-166 | a doctor phrase switches only from speaker 2 to 1, a patient phrase only from 1 to 2; the doctor test comes first |
| Deepgram.BalanceRuleCondition | backend/services/deepgram_service.py:168-174 | the balance rule fires only for a lead of more than 50 words held by the last speaker, and hands the turn over |
| Deepgram.BalanceExample | backend/services/deepgram_service.py:168-171 | speaker 1 leading 100 to 40 on a neutral utterance yields speaker 2 |
| Deepgram.InferredSpeakerInRange | backend/services/deepgram_service.py:176-183 | from a last speaker of 1 or 2 the result stays in {1, 2} |
| Deepgram.OutOfRangeSpeakerFlowsToElseBranches | backend/services/deepgram_service.py:178-190 | a corrected speaker other than 1 or 2 is kept or switched to 1, and its words count for speaker 2 |
| Deepgram.RecordUtteranceAccounts | backend/services/deepgram_service.py:185-190 | one more utterance, the last speaker becomes the assigned one, the words go to exactly one total |
| Deepgram.DeepgramService.constructor | backend/services/deepgram_service.py:25-28 | every per-session map starts empty |
| Deepgram.DeepgramService.StartStreamingSession | backend/services/deepgram_service.py:30-45 | success exactly when the stream opened; connection, empty buffer and speaker count 1 are stored once the connection exists, even when starting it raises |
| Deepgram.DeepgramService.InferSpeaker | backend/services/deepgram_service.py:105-193 | the assigned speaker is the rule chain's; the record, the last time and the current speaker change for this session only, the gap being 0 on first use |
| Deepgram.DeepgramService.LabelUtterance | backend/services/deepgram_service.py:57-193 | the 0-based id is the provider's label, else the heuristic's speaker minus one; a provider label leaves the pattern record, current speaker and last time alone, otherwise they change for this session exactly as inference records them; connections, buffers and speaker counts are untouched |
| Deepgram.DeepgramService.OnMessage | backend/services/deepgram_service.py:53-213 | a blank sentence changes nothing; otherwise the utterance is labelled as `LabelStep` states, the buffer grows by exactly a space and the line formatted with the 1-based speaker, and the delivered data carry the sentence, that speaker, the line and the new buffer; a missing buffer is reported after the speaker state changed; connections and speaker counts never change |
| Deepgram.DeepgramService.SendAudioChunkToStream | backend/services/deepgram_service.py:247-259 | true exactly when the session has a connection and the send went through |
| Deepgram.DeepgramService.StopStreamingSession | backend/services/deepgram_service.py:261-279 | returns the buffer or "" and removes the connection and the buffer; speaker state is kept |
| Deepgram.DeepgramService.CorrectSpeaker | backend/services/deepgram_service.py:281-299 | the current speaker is set; the record's last speaker changes only when a record exists |
| Deepgram.DeepgramService.SessionSpeakerStats | backend/services/deepgram_service.py:301-316 | the record's figures, or speaker 1 with zero counts when there is no record |
| MedicalScribe.FirstIndexOf | backend/services/medical_scribe_service.py:84 | absent exactly when the character does not occur; otherwise its first position |
| MedicalScribe.AudioPayload | backend/services/medical_scribe_service.py:84 | the whole string without a comma; otherwise a comma-free field |
| MedicalScribe.PayloadOfDataUrl | backend/services/medical_scribe_service.py:84 | a `header,payload` data URL yields its payload |
| MedicalScribe.PayloadIgnoresTrailingFields | backend/services/medical_scribe_service.py:84 | only the text between the first and second comma is decoded |
| MedicalScribe.MedicalScribeService.constructor | backend/services/medical_scribe_service.py:9-13 | no sessions, no callbacks, and a fresh streaming service all six of whose per-session maps are empty |
| MedicalScribe.MedicalScribeService.GetSession | backend/services/medical_scribe_service.py:157-159 | the registered session exactly when the id is registered, carrying that id |
| MedicalScribe.MedicalScribeService.CreateSession | backend/services/medical_scribe_service.py:15-25 | a fresh session with the id and the dataclass defaults (ready, idle, empty transcript and note, no error) replaces any entry for the id; callbacks are untouched |
| MedicalScribe.MedicalScribeService.StartRecording | backend/services/medical_scribe_service.py:27-74 | unknown id: error, nothing changes; success exactly when the stream opened, and only then recording; transcript, note and error message are kept; unless the connection itself failed, the callback is registered and the service holds the connection, an empty buffer and speaker count 1; the speaker state is untouched |
| MedicalScribe.MedicalScribeService.AddAudioChunk | backend/services/medical_scribe_service.py:76-101 | "Session not recording" for an unknown or idle session; a decode error is returned; otherwise the send's outcome, with the transcript so far on success |
| MedicalScribe.MedicalScribeService.StopRecording | backend/services/medical_scribe_service.py:103-124 | unknown id: error, stream untouched; otherwise not recording and processing; the stripped buffer replaces the transcript only when the buffer is non-empty; note and error kept; the reply carries the transcript; connection and buffer are removed, every speaker map kept |
| MedicalScribe.StopTwice | backend/services/medical_scribe_service.py:103-124 | a repeated stop succeeds with the same reply |
| MedicalScribe.MedicalScribeService.GenerateSoapNote | backend/services/medical_scribe_service.py:126-155 | unknown id or blank transcript: error and nothing changes; otherwise the generator's result, completed with the note or error (old note kept on failure), transcript, recording flag and error message untouched |
| MedicalScribe.MedicalScribeService.CleanupSession | backend/services/medical_scribe_service.py:161-173 | removes only the given id from the registry, the connections and the buffers; callbacks, pattern records, current speakers, last times and speaker counts are kept |
| MedicalScribe.MedicalScribeService.OnTranscriptEvent | backend/services/medical_scribe_service.py:34-60 | the streaming service takes exactly its `on_message` step (`MessageStep`); a blank sentence changes nothing; when delivered, the captured session's transcript becomes the stripped buffer, its other fields unchanged, and a live update with the stripped chunk and sentence, the speaker and the transcript is emitted exactly when a socket is attached and the chunk is not blank |
| MedicalScribe.MedicalScribeService.Deliver | backend/services/medical_scribe_service.py:37-60 | the dictionary branch of the callback: the transcript becomes the stripped buffer, the other fields are kept, and the update exists exactly when a socket is attached and the chunk is not blank |
| Gemini.PromptRecoversTranscript | backend/services/gemini_service.py:83-102 | the prompt is the fixed prefix, the verbatim transcript and the fixed suffix, so the transcript is recoverable |
| Gemini.KeywordPrecedence | backend/services/gemini_service.py:104-115 | API_KEY, then QUOTA, then SAFETY, then PERMISSION_DENIED; the earliest wins; the generic text only when none occurs |
| Gemini.ClassificationIgnoresCase | backend/services/gemini_service.py:106-112 | a message and its upper- or lower-case spelling classify alike |
| Gemini.ErrorTextDeterminesKind | backend/services/gemini_service.py:104-115 | the five outputs are distinct; the generic one carries the original message after "Gemini API error: " |
| Gemini.GenerateSoapNote | backend/services/gemini_service.py:25-53 | success exactly when the answer text is non-empty; an exception becomes a classified failure |
| Session.ParseStatus | backend/models/session.py:5-10 | a parsed status serialises back to the value read |
| Session.StatusValueInjective | backend/models/session.py:5-10 | each status is recovered from its value |
| Session.RecordingSession.constructor | backend/models/session.py:12-19 | the dataclass defaults: idle, empty texts, ready, no error |
| Session.RecordingSession.ToDict | backend/models/session.py:21-29 | exactly six keys, every field copied, the status as its lower-case value |
| Responses.ToDict | backend/models/responses.py:10-16 | `success` always; `data` and `error` exactly when truthy; no other keys |
| Responses.ToDictRoundTrip | backend/models/responses.py:10-16 | the dictionary loses only falsy optional fields |
| Responses.SoapSuccess | backend/models/responses.py:18-22 | a success keeps the default error (none) |
| Responses.SoapFailure | backend/models/responses.py:18-22 | a failure keeps the default empty note |
| Text.Strip | backend/services/medical_scribe_service.py:49 | no longer than the input, empty exactly for blank input, no whitespace at either end |
| Text.StripOfStripped | backend/services/medical_scribe_service.py:115 | stripping is idempotent |
| Text.WordCountZeroIffBlank | backend/services/deepgram_service.py:136 | `split()` finds no word exactly in a blank sentence |
| Text.ContainsAt | backend/services/gemini_service.py:106 | substring containment means an occurrence at some index |
| Text.UpperForgetsCase | backend/services/gemini_service.py:106 | upper-casing forgets the original case |
| Text.ParseShowNat | frontend/src/components/TranscriptDisplay.tsx:23 | reading the printed speaker number gives the number back |
| TranscriptDisplay.DigitRun | frontend/src/components/TranscriptDisplay.tsx:19 | the leading run is all digits and stops before a non-digit |
| TranscriptDisplay.DigitsThenColonRun | frontend/src/components/TranscriptDisplay.tsx:14 | `\d+:` holds exactly when a non-empty digit run is followed by a colon |
| TranscriptDisplay.DigitRunOfNumber | frontend/src/components/TranscriptDisplay.tsx:19 | `\d+` takes exactly a digit string followed by a non-digit |
| TranscriptDisplay.NextLabel | frontend/src/components/TranscriptDisplay.tsx:14 | the first position at or after a start where the lookahead succeeds |
| TranscriptDisplay.SplitAtLabels | frontend/src/components/TranscriptDisplay.tsx:14 | the split always yields at least one piece |
| TranscriptDisplay.SplitFlatten | frontend/src/components/TranscriptDisplay.tsx:14 | the pieces concatenate back to the transcript |
| TranscriptDisplay.SplitCutsAtLabels | frontend/src/components/TranscriptDisplay.tsx:14 | pieces are non-empty and every piece after the first starts at a label |
| TranscriptDisplay.SplitNoInnerLabel | frontend/src/components/TranscriptDisplay.tsx:14 | no label starts inside a piece |
| TranscriptDisplay.LineEnd | frontend/src/components/TranscriptDisplay.tsx:19 | the next line terminator or the end, with none before it |
| TranscriptDisplay.LastMatchable | frontend/src/components/TranscriptDisplay.tsx:19 | the last character `.` can match, absent exactly when all are line terminators |
| TranscriptDisplay.MatchBody | frontend/src/components/TranscriptDisplay.tsx:19 | `\s*(.+)` fails exactly when only line terminators remain; its capture is non-empty and on one line |
| TranscriptDisplay.SpeakerMatch | frontend/src/components/TranscriptDisplay.tsx:19 | a match needs a label at the start, carries the value of the label's whole digit run and captures non-empty single-line text; a label followed only by line terminators does not match |
| TranscriptDisplay.LabelledMatch | frontend/src/components/TranscriptDisplay.tsx:19 | `Speaker <d>:`, whitespace and a text starting visibly matches with the value of the digits and the text's first line |
| TranscriptDisplay.ParseLine | frontend/src/components/TranscriptDisplay.tsx:17-31 | no segment exactly for a blank piece; texts are trimmed; a speaker only for a piece that starts with a label; an unlabelled text is never empty |
| TranscriptDisplay.LabelledPiece | frontend/src/components/TranscriptDisplay.tsx:17-24 | such a piece is a segment of the digits' value and the trimmed first line of the text |
| TranscriptDisplay.UnlabelledPiece | frontend/src/components/TranscriptDisplay.tsx:25-31 | a non-blank piece that does not start with a label is a segment of its trimmed text with no speaker |
| TranscriptDisplay.CollectSegments | frontend/src/components/TranscriptDisplay.tsx:16-34 | at most one segment per piece |
| TranscriptDisplay.ParseTranscriptWithSpeakers | frontend/src/components/TranscriptDisplay.tsx:8-35 | the loop over the pieces yields the segments of the transcript, none for the empty one |
| TranscriptDisplay.SegmentsTrimmed | frontend/src/components/TranscriptDisplay.tsx:16-31 | every segment's text is trimmed and unlabelled ones are non-empty |
| TranscriptDisplay.UnlabelledTranscript | frontend/src/components/TranscriptDisplay.tsx:25-31 | a non-blank transcript without labels is one unlabelled trimmed segment |
| TranscriptDisplay.BlankLabelledIsOnePiece | frontend/src/components/TranscriptDisplay.tsx:14 | "Speaker 1:  " is a labelled single piece |
| TranscriptDisplay.BlankLabelledMatch | frontend/src/components/TranscriptDisplay.tsx:19 | `\s*` gives back one space so `.+` matches it |
| TranscriptDisplay.BlankLabelledLine | frontend/src/components/TranscriptDisplay.tsx:17-24 | the piece parses to speaker 1 with empty text |
| TranscriptDisplay.LabelWithBlankText | frontend/src/components/TranscriptDisplay.tsx:14-24 | a label with only spaces after it shows as an empty labelled segment |
| TranscriptDisplay.JsRemainder6 | frontend/src/components/TranscriptDisplay.tsx:49 | JavaScript's `%`: the remainder has the dividend's sign, is zero exactly for multiples of six, and differs from the dividend by a multiple of six |
| TranscriptDisplay.GetSpeakerColor | frontend/src/components/TranscriptDisplay.tsx:37-50 | grey for null or 0; colour `(speaker - 1) mod 6` for speaker at least 1 |
| TranscriptDisplay.ColorCycle | frontend/src/components/TranscriptDisplay.tsx:40-49 | period six, and speakers 1 to 6 get distinct colours |
| TranscriptDisplay.NegativeSpeakerColor | frontend/src/components/TranscriptDisplay.tsx:49 | a negative speaker reads a colour only when `speaker - 1` is a multiple of six |
| RoundTrip.HeadShape | backend/services/deepgram_service.py:198 | the label is "Speaker ", the number and ": " |
| RoundTrip.LineIsFormatted | backend/services/deepgram_service.py:198 | a line is the service's formatting of a 0-based id |
| RoundTrip.BufferAppend | backend/services/deepgram_service.py:204 | each utterance extends the buffer by a space and its line |
| RoundTrip.BufferIsSpacedJoin | backend/services/deepgram_service.py:204 | the buffer is a space followed by the lines joined by spaces |
| RoundTrip.StrippedBuffer | backend/services/medical_scribe_service.py:49 | when the last text ends with a character Python keeps, stripping the buffer removes exactly the leading space |
| RoundTrip.TrailingPadding | backend/services/medical_scribe_service.py:49 | stripping the buffer gives the same as stripping it with the last text's trailing whitespace cut off |
| RoundTrip.LineIsLabelled | frontend/src/components/TranscriptDisplay.tsx:14 | every formatted line starts with a label |
| RoundTrip.NoLabelInsideLine | frontend/src/components/TranscriptDisplay.tsx:14 | no label starts inside a line with label-free text |
| RoundTrip.SplitJoined | frontend/src/components/TranscriptDisplay.tsx:14 | the split cuts exactly after each line's trailing space |
| RoundTrip.MatchOfLine | frontend/src/components/TranscriptDisplay.tsx:19 | a line followed by at most a space matches with its speaker number and its text from the first visible character on |
| RoundTrip.ParseLineOfLine | frontend/src/components/TranscriptDisplay.tsx:17-24 | a line followed by at most a space parses to its speaker number and its trimmed text |
| RoundTrip.CollectPieces | frontend/src/components/TranscriptDisplay.tsx:16-34 | the pieces give one segment per utterance, in order |
| RoundTrip.CutVisible | frontend/src/components/TranscriptDisplay.tsx:17-24 | cutting the last text's trailing whitespace keeps every text visible, makes the last end visibly and changes no expected segment |
| RoundTrip.EndsVisiblyRoundTrip | frontend/src/components/TranscriptDisplay.tsx:8-35 | for visible texts, the last ending with a character Python keeps, the view shows one segment per utterance, in order, with its speaker and its trimmed text |
| RoundTrip.TranscriptRoundTrip | frontend/src/components/TranscriptDisplay.tsx:8-35 | the view shows the stripped buffer as one segment per utterance, in order, with its speaker and its trimmed text, for padded or unpadded texts that are single-line, non-blank and label-free |
| RoundTrip.DisplayableRoundTrip | frontend/src/components/TranscriptDisplay.tsx:8-35 | texts that are already trimmed come back unchanged, one per segment with their speakers |
| PCM.Clamp | frontend/src/services/pcm-processor.js:34 | the sample is limited to [-1, 1] and unchanged inside it |
| PCM.Truncate | frontend/src/services/pcm-processor.js:36-37 | the bitwise operators' truncation toward zero |
| PCM.ToInt16 | frontend/src/services/pcm-processor.js:34-35 | a signed 16-bit value; full scale maps to 32767 and -32768; the sign is kept |
| PCM.DecodeEncodeSample | frontend/src/services/pcm-processor.js:36-37 | the low byte then the high byte decode back to the 16-bit value |
| PCM.DecodeEncodeAll | frontend/src/services/pcm-processor.js:32-44 | the byte stream decodes back to the samples, in order |
| PCM.Converted | frontend/src/services/pcm-processor.js:33-35 | one 16-bit value per sample of the channel |
| PCM.PCMProcessor.constructor | frontend/src/services/pcm-processor.js:2-6 | recording, empty buffer, nothing posted |
| PCM.PushKeepsChunked | frontend/src/services/pcm-processor.js:36-43 | two more bytes keep the no-loss invariant; a buffer that fills is posted as exactly 9600 bytes and starts again empty |
| PCM.FlushKeepsChunked | frontend/src/services/pcm-processor.js:16-22 | posting a non-empty buffer as a chunk keeps the no-loss invariant |
| PCM.PCMProcessor.Flush | frontend/src/services/pcm-processor.js:16-22 | posts the buffer only when non-empty and always empties it, losing nothing |
| PCM.PCMProcessor.OnMessage | frontend/src/services/pcm-processor.js:8-13 | "STOP" stops recording and flushes; any other message changes nothing |
| PCM.PCMProcessor.PushSample | frontend/src/services/pcm-processor.js:36-43 | two bytes are appended, low then high; the buffer is posted and cleared the moment it reaches 9600 bytes |
| PCM.PCMProcessor.PushChannel | frontend/src/services/pcm-processor.js:32-44 | every sample of the channel is taken in order; the earlier chunks stay and every chunk posted meanwhile is exactly 9600 bytes; an empty channel changes nothing |
| PCM.PCMProcessor.Process | frontend/src/services/pcm-processor.js:24-47 | stopped: flush and false; recording: true, every sample of the first channel taken in order, every chunk posted meanwhile exactly 9600 bytes, missing input changes nothing, fewer than 9600 bytes left |
| PCM.PostedDecodesToSamples | frontend/src/services/pcm-processor.js:16-44 | once flushed, the posted chunks decode to exactly the samples taken in |

## Left out

- **Provider client.** The streaming provider's client, its options and `connection.on/start/send/finish` are a foreign network client. The model has an opaque `Connection` token and outcome parameters in their place. An exception from `send` or `finish` is folded into the `accepted` parameter or not modelled.
- **Provider event structure.** The `hasattr` probing of the provider's event objects is replaced by a datatype with optional tags. An exception while probing is not modelled.
- **Logging.** All `print` and `traceback` output.
- **Note-generation calls.** Configuring the note-generation model, `generate_content` and `test_api_connection` are network calls. The answer is a parameter.
- **Base64 and the socket.** `base64.b64decode` is a parameter that may fail. `socketio.emit` is the returned `LiveUpdate`.
- **Legacy callback format.** The string branch of the transcript callback (backend/services/medical_scribe_service.py:42-47) is not modelled. The streaming service always passes a dictionary.
- **Exception branch of `generate_soap_note`.** The `except` branch in backend/services/medical_scribe_service.py:151-155 is not modelled, because the generator already turns every exception into a failure result.
- **Transport, routing and bootstrap.** The socket handlers, HTTP routes, application factory and settings loading are not part of this model. The same goes for the React components other than the transcript view, the hooks and the API client.
- **Concurrency.** Provider callbacks on their own threads and background note generation are not modelled; the model is sequential.
- **Leaked connection.** A second start for the same id overwrites the stored connection without closing the first one.
- **Clock.** `time.time()` is an integer number of milliseconds, so sub-millisecond gaps are not distinguished.
- **Case mapping.** `str.lower`/`str.upper` are modelled for ASCII letters only.
- **Whitespace sets.** Python's `strip` and JavaScript's `trim` are modelled over the whitespace sets in `text.dfy`.
- **Number formats.** `parseInt` precision is not modelled; the speaker number is an unbounded natural.
- PCM.ToInt16: samples are exact reals. Floating-point rounding of the scaled product and NaN inputs are not modelled.
- PCM.PCMProcessor.Process: posted chunks are byte sequences. The copy into a fresh `Uint8Array` and the transfer of its `ArrayBuffer` are not modelled.
- RoundTrip.TranscriptRoundTrip: proved for texts on one line, not blank, and without a `Speaker <digits>:` label of their own, and whose last text has the same trailing whitespace run for Python's `strip` as for JavaScript's `trim`. A last text whose trailing run holds a character only one of them counts as whitespace is not covered.
- TranscriptDisplay.GetSpeakerColor: `undefined` from an index outside the palette is `None`.
- **The React rendering.** The markup built from the segments is not modelled.
