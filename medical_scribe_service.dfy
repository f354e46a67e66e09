/**
 * The session orchestrator (backend/services/medical_scribe_service.py): the
 * session registry and its lifecycle (create, start, stream audio, stop,
 * generate the SOAP note, clean up), and the transcript callback that each
 * start registers with the streaming service.
 *
 * The callback captured the session object that was registered when
 * recording started, not the registry entry: `listeners` keeps that object
 * per session id, so a session re-created under the same id is not the one
 * the callback updates.
 */
module MedicalScribe {
  import opened Wrappers
  import opened Text
  import opened Session
  import Responses
  import Gemini
  import Deepgram

  const SessionNotFound := "Session not found"
  const StartFailed := "Failed to start streaming session"
  const NotRecording := "Session not recording"
  const SendFailed := "Failed to send audio to streaming"
  const StoppedMessage := "Recording stopped, ready for SOAP note generation"
  const NoTranscript := "No transcript available for SOAP note generation"

  /** The success reply of `stop_recording`. */
  datatype StopReply = StopReply(transcript: string, message: string)

  /** The `live_transcription` event the callback emits. */
  datatype LiveUpdate = LiveUpdate(
    sessionId: string,
    transcriptChunk: string,
    rawText: string,
    speaker: Option<int>,
    fullTranscript: string)

  // ---------------------------------------------------------------------
  // The audio payload of a data URL
  // ---------------------------------------------------------------------

  /** The index of the first occurrence of `c` in `s`. */
  function FirstIndexOf(s: string, c: char): (r: Option<nat>)
    ensures r.None? <==> c !in s
    ensures r.Some? ==> r.value < |s| && s[r.value] == c && c !in s[..r.value]
  {
    if |s| == 0 then None
    else if s[0] == c then Some(0)
    else
      var r := FirstIndexOf(s[1..], c);
      if r.Some? then
        assert s[..r.value + 1] == [s[0]] + s[1..][..r.value];
        Some(r.value + 1)
      else None
  }

  /**
   * The text handed to the base64 decoder: the whole string without a comma,
   * otherwise the second comma-separated field (what follows the first comma,
   * up to the next one).
   */
  function AudioPayload(audioData: string): (r: string)
    ensures ',' !in audioData ==> r == audioData
    ensures ',' in audioData ==> ',' !in r
  {
    match FirstIndexOf(audioData, ',')
    case None => audioData
    case Some(i) =>
      var rest := audioData[i + 1..];
      match FirstIndexOf(rest, ',')
      case None => rest
      case Some(j) => rest[..j]
  }

  /** A character whose earlier positions all differ from it is its first occurrence. */
  lemma {:induction false} FirstIndexAt(s: string, c: char, k: nat)
    requires k < |s| && s[k] == c && c !in s[..k]
    ensures FirstIndexOf(s, c) == Some(k)
  {
    if k > 0 {
      assert s[0] == s[..k][0];
      assert s[1..][..k - 1] == s[..k][1..];
      FirstIndexAt(s[1..], c, k - 1);
    }
  }

  /** A data URL `header,payload` yields its payload when neither part holds a comma. */
  lemma PayloadOfDataUrl(header: string, payload: string)
    requires ',' !in header && ',' !in payload
    ensures AudioPayload(header + "," + payload) == payload
  {
    var s := header + "," + payload;
    assert s[..|header|] == header;
    FirstIndexAt(s, ',', |header|);
    assert s[|header| + 1..] == payload;
  }

  /** Extra fields after the payload are ignored. */
  lemma PayloadIgnoresTrailingFields(header: string, payload: string, tail: string)
    requires ',' !in header && ',' !in payload
    ensures AudioPayload(header + "," + payload + "," + tail) == payload
  {
    var s := header + "," + payload + "," + tail;
    assert s[..|header|] == header;
    FirstIndexAt(s, ',', |header|);
    var rest := s[|header| + 1..];
    assert rest == payload + "," + tail;
    assert rest[..|payload|] == payload;
    FirstIndexAt(rest, ',', |payload|);
  }

  // ---------------------------------------------------------------------
  // The service
  // ---------------------------------------------------------------------

  class MedicalScribeService {
    /** The registry of sessions by id. */
    var sessions: map<string, RecordingSession>
    /** For each id, the session object captured by the callback of its latest start. */
    var listeners: map<string, RecordingSession>
    const deepgram: Deepgram.DeepgramService

    /** Every registered session carries the id it is registered under. */
    predicate Valid()
      reads this
    {
      forall id :: id in sessions ==> sessions[id].sessionId == id
    }

    /** The session object registered under `id`, as a frame. */
    function Registered(id: string): set<object>
      reads this
    {
      if id in sessions then {sessions[id]} else {}
    }

    /** The session object the callback for `id` updates, as a frame. */
    function Listening(id: string): set<object>
      reads this
    {
      if id in listeners then {listeners[id]} else {}
    }

    constructor ()
      ensures Valid() && sessions == map[] && listeners == map[]
      ensures fresh(deepgram)
      ensures deepgram.connections == map[] && deepgram.connectionTranscripts == map[]
      ensures deepgram.speakerPatterns == map[] && deepgram.currentSpeaker == map[]
      ensures deepgram.lastTranscriptTime == map[] && deepgram.sessionSpeakerCount == map[]
    {
      sessions := map[];
      listeners := map[];
      deepgram := new Deepgram.DeepgramService();
    }

    /** `get_session`: the registered session, if any, carrying the id asked for. */
    function GetSession(id: string): (r: Option<RecordingSession>)
      reads this
      ensures r.Some? <==> id in sessions
      ensures r.Some? ==> r.value == sessions[id]
      ensures Valid() && r.Some? ==> r.value.sessionId == id
    {
      if id in sessions then Some(sessions[id]) else None
    }

    /** `create_session`: registers a fresh session in its default state, replacing any under the same id. */
    method CreateSession(id: string) returns (s: RecordingSession)
      requires Valid()
      modifies this
      ensures Valid()
      ensures fresh(s) && s.sessionId == id
      ensures !s.isRecording && s.transcript == "" && s.soapNote == "" && s.status == Ready
      ensures s.errorMessage == None
      ensures sessions == old(sessions)[id := s] && listeners == old(listeners)
    {
      s := new RecordingSession(id);
      sessions := sessions[id := s];
    }

    /**
     * `start_recording`: opens a stream whose callback updates this session
     * object; only a stream that opened puts the session into recording.
     */
    method StartRecording(id: string, connection: Deepgram.Connection, outcome: Deepgram.StartOutcome)
      returns (r: Result<(), string>)
      modifies deepgram, this, Registered(id)
      ensures sessions == old(sessions)
      ensures id !in sessions ==> r == Err(SessionNotFound) && listeners == old(listeners) && unchanged(deepgram)
      ensures id in sessions ==>
        var s := sessions[id];
        && (r.Ok? <==> outcome == Deepgram.Opened)
        && (r.Err? ==> r.error == StartFailed)
        && (outcome == Deepgram.Opened ==> s.isRecording && s.status == Recording)
        && (outcome != Deepgram.Opened ==> s.isRecording == old(s.isRecording) && s.status == old(s.status))
        && s.transcript == old(s.transcript) && s.soapNote == old(s.soapNote)
        && s.errorMessage == old(s.errorMessage)
        && listeners == (if outcome == Deepgram.ConnectFailed then old(listeners) else old(listeners)[id := s])
        && deepgram.connections == (if outcome == Deepgram.ConnectFailed then old(deepgram.connections)
                                    else old(deepgram.connections)[id := connection])
        && deepgram.connectionTranscripts == (if outcome == Deepgram.ConnectFailed then old(deepgram.connectionTranscripts)
                                              else old(deepgram.connectionTranscripts)[id := ""])
        && deepgram.sessionSpeakerCount == (if outcome == Deepgram.ConnectFailed then old(deepgram.sessionSpeakerCount)
                                            else old(deepgram.sessionSpeakerCount)[id := 1])
        && deepgram.speakerPatterns == old(deepgram.speakerPatterns)
        && deepgram.currentSpeaker == old(deepgram.currentSpeaker)
        && deepgram.lastTranscriptTime == old(deepgram.lastTranscriptTime)
    {
      if id !in sessions {
        return Err(SessionNotFound);
      }
      var session := sessions[id];
      var started := deepgram.StartStreamingSession(id, connection, outcome);
      if outcome != Deepgram.ConnectFailed {
        listeners := listeners[id := session];
      }
      if started {
        session.isRecording := true;
        session.status := Recording;
        r := Ok(());
      } else {
        r := Err(StartFailed);
      }
    }

    /**
     * `add_audio_chunk`: for a recording session, decodes the payload and
     * forwards it to the stream, replying with the session's transcript so
     * far. `decode` is the base64 decoder and `accepted` whether the
     * connection's send went through.
     */
    method AddAudioChunk(id: string, audioData: string, decode: string -> Result<seq<Byte>, string>, accepted: bool)
      returns (r: Result<string, string>)
      ensures id !in sessions || !sessions[id].isRecording ==> r == Err(NotRecording)
      ensures id in sessions && sessions[id].isRecording ==>
        match decode(AudioPayload(audioData))
        case Err(e) => r == Err(e)
        case Ok(_) =>
          r == if id in deepgram.connections && accepted then Ok(sessions[id].transcript) else Err(SendFailed)
    {
      if id !in sessions || !sessions[id].isRecording {
        return Err(NotRecording);
      }
      var session := sessions[id];
      var bytes := decode(AudioPayload(audioData));
      if bytes.Err? {
        return Err(bytes.error);
      }
      var sent := deepgram.SendAudioChunkToStream(id, bytes.value, accepted);
      if sent {
        r := Ok(session.transcript);
      } else {
        r := Err(SendFailed);
      }
    }

    /**
     * `stop_recording`: the session stops recording and moves to processing;
     * the stream's buffer, stripped, replaces the transcript when the buffer
     * is non-empty.
     */
    method StopRecording(id: string) returns (r: Result<StopReply, string>)
      modifies deepgram, Registered(id)
      ensures id !in sessions ==> r == Err(SessionNotFound) && unchanged(deepgram)
      ensures id in sessions ==>
        var s := sessions[id];
        var final := if id in old(deepgram.connectionTranscripts) then old(deepgram.connectionTranscripts)[id] else "";
        && !s.isRecording && s.status == Processing
        && s.transcript == (if final != "" then Strip(Python, final) else old(s.transcript))
        && s.soapNote == old(s.soapNote) && s.errorMessage == old(s.errorMessage)
        && r == Ok(StopReply(s.transcript, StoppedMessage))
        && deepgram.connections == old(deepgram.connections) - {id}
        && deepgram.connectionTranscripts == old(deepgram.connectionTranscripts) - {id}
        && deepgram.speakerPatterns == old(deepgram.speakerPatterns)
        && deepgram.currentSpeaker == old(deepgram.currentSpeaker)
        && deepgram.lastTranscriptTime == old(deepgram.lastTranscriptTime)
        && deepgram.sessionSpeakerCount == old(deepgram.sessionSpeakerCount)
    {
      if id !in sessions {
        return Err(SessionNotFound);
      }
      var session := sessions[id];
      session.isRecording := false;
      session.status := Processing;
      var final := deepgram.StopStreamingSession(id);
      if final != "" {
        session.transcript := Strip(Python, final);
      }
      r := Ok(StopReply(session.transcript, StoppedMessage));
    }

    /**
     * `generate_soap_note`: needs a registered session with a non-blank
     * transcript; the session ends completed with the note, or in error.
     * `provider` is the model's answer to a prompt.
     */
    method GenerateSoapNote(id: string, provider: string -> Gemini.ProviderOutcome)
      returns (r: Responses.SOAPNoteResult)
      modifies Registered(id)
      ensures id !in sessions ==> r == Responses.SoapFailure(SessionNotFound)
      ensures id in sessions && IsBlank(Python, old(sessions[id].transcript)) ==>
        r == Responses.SoapFailure(NoTranscript) && unchanged(sessions[id])
      ensures id in sessions && !IsBlank(Python, old(sessions[id].transcript)) ==>
        var s := sessions[id];
        && r == Gemini.GenerateSoapNote(s.transcript, provider)
        && s.status == (if r.success then Completed else Error)
        && s.soapNote == (if r.success then r.soapNote else old(s.soapNote))
        && s.transcript == old(s.transcript) && s.isRecording == old(s.isRecording)
        && s.errorMessage == old(s.errorMessage)
    {
      if id !in sessions {
        return Responses.SoapFailure(SessionNotFound);
      }
      var session := sessions[id];
      if Strip(Python, session.transcript) == [] {
        return Responses.SoapFailure(NoTranscript);
      }
      session.status := Processing;
      r := Gemini.GenerateSoapNote(session.transcript, provider);
      if r.success {
        session.soapNote := r.soapNote;
        session.status := Completed;
      } else {
        session.status := Error;
      }
    }

    /** `cleanup_session`: closes the stream and unregisters the session. */
    method CleanupSession(id: string) returns (ok: bool)
      requires Valid()
      modifies this, deepgram
      ensures Valid() && ok
      ensures sessions == old(sessions) - {id} && listeners == old(listeners)
      ensures deepgram.connections == old(deepgram.connections) - {id}
      ensures deepgram.connectionTranscripts == old(deepgram.connectionTranscripts) - {id}
      ensures deepgram.speakerPatterns == old(deepgram.speakerPatterns)
      ensures deepgram.currentSpeaker == old(deepgram.currentSpeaker)
      ensures deepgram.lastTranscriptTime == old(deepgram.lastTranscriptTime)
      ensures deepgram.sessionSpeakerCount == old(deepgram.sessionSpeakerCount)
    {
      var _ := deepgram.StopStreamingSession(id);
      if id in sessions {
        sessions := sessions - {id};
      }
      ok := true;
    }

    /**
     * One provider event on the stream of `id`, followed by the callback:
     * the captured session's transcript becomes the stripped buffer, and a
     * live update is emitted when a socket is attached and the formatted
     * chunk is not blank.
     */
    method OnTranscriptEvent(id: string, event: Deepgram.TranscriptEvent, nowMs: int, socketAttached: bool)
      returns (outcome: Deepgram.MessageOutcome, update: Option<LiveUpdate>)
      modifies deepgram, Listening(id)
      ensures IsBlank(Python, event.transcript) ==> outcome == Deepgram.Ignored && update == None
      ensures !outcome.Delivered? ==> update == None
      ensures outcome.Delivered? && id in listeners ==>
        var d := outcome.data;
        && id in deepgram.connectionTranscripts
        && d.fullTranscript == deepgram.connectionTranscripts[id]
        && listeners[id].transcript == Strip(Python, d.fullTranscript)
        && (update.Some? <==> socketAttached && !IsBlank(Python, d.formattedText))
        && (update.Some? ==> update.value == LiveUpdate(id, Strip(Python, d.formattedText), Strip(Python, d.text),
                                                        d.speaker, listeners[id].transcript))
      ensures outcome.Delivered? && id !in listeners ==> update == None
      ensures id in listeners ==>
        var s := listeners[id];
        && s.isRecording == old(s.isRecording) && s.status == old(s.status)
        && s.soapNote == old(s.soapNote) && s.errorMessage == old(s.errorMessage)
        && (!outcome.Delivered? ==> s.transcript == old(s.transcript))
      ensures deepgram.connections == old(deepgram.connections)
      ensures deepgram.sessionSpeakerCount == old(deepgram.sessionSpeakerCount)
      ensures IsBlank(Python, event.transcript) ==> unchanged(deepgram)
      ensures !IsBlank(Python, event.transcript) ==>
        deepgram.MessageStep(old(deepgram.speakerPatterns), old(deepgram.currentSpeaker), old(deepgram.lastTranscriptTime),
                             old(deepgram.connectionTranscripts), id, event, nowMs, outcome)
    {
      outcome := deepgram.OnMessage(id, event, nowMs);
      update := None;
      if outcome.Delivered? && id in listeners {
        update := Deliver(id, outcome.data, socketAttached);
      }
    }

    /** The callback for a delivered chunk: store the stripped buffer and build the live update. */
    method Deliver(id: string, d: Deepgram.TranscriptData, socketAttached: bool) returns (update: Option<LiveUpdate>)
      requires id in listeners
      modifies listeners[id]
      ensures var s := listeners[id];
        && s.transcript == Strip(Python, d.fullTranscript)
        && s.isRecording == old(s.isRecording) && s.status == old(s.status)
        && s.soapNote == old(s.soapNote) && s.errorMessage == old(s.errorMessage)
      ensures update.Some? <==> socketAttached && !IsBlank(Python, d.formattedText)
      ensures update.Some? ==>
        update.value == LiveUpdate(id, Strip(Python, d.formattedText), Strip(Python, d.text), d.speaker, listeners[id].transcript)
    {
      var session := listeners[id];
      session.transcript := Strip(Python, d.fullTranscript);
      update := None;
      if socketAttached && Strip(Python, d.formattedText) != [] {
        update := Some(LiveUpdate(id, Strip(Python, d.formattedText), Strip(Python, d.text),
                                  d.speaker, session.transcript));
      }
    }
  }

  /**
   * Stopping twice: the second stop finds no buffer and leaves the transcript
   * the first stop produced, so both replies agree.
   */
  method StopTwice(svc: MedicalScribeService, id: string) returns (first: Result<StopReply, string>, second: Result<StopReply, string>)
    requires id in svc.sessions
    modifies svc.deepgram, svc.Registered(id)
    ensures first.Ok? && first == second
    ensures id !in svc.deepgram.connectionTranscripts
  {
    first := svc.StopRecording(id);
    second := svc.StopRecording(id);
  }
}
