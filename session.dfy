/**
 * A recording session (backend/models/session.py): its status enumeration,
 * the dataclass with its defaults, and its dictionary form.
 */
module Session {
  import opened Wrappers
  import Json

  datatype SessionStatus = Ready | Recording | Processing | Completed | Error

  /** The enumeration's `.value`, the lower-case status name sent to clients. */
  function StatusValue(s: SessionStatus): string {
    match s
    case Ready => "ready"
    case Recording => "recording"
    case Processing => "processing"
    case Completed => "completed"
    case Error => "error"
  }

  /** Reading a status back from its serialised value (`SessionStatus(v)` in Python). */
  function ParseStatus(v: string): (r: Option<SessionStatus>)
    ensures r.Some? ==> StatusValue(r.value) == v
  {
    if v == "ready" then Some(Ready)
    else if v == "recording" then Some(Recording)
    else if v == "processing" then Some(Processing)
    else if v == "completed" then Some(Completed)
    else if v == "error" then Some(Error)
    else None
  }

  /** The serialisation is injective: the status can be read back from its value. */
  lemma StatusValueInjective(s: SessionStatus)
    ensures ParseStatus(StatusValue(s)) == Some(s)
  {
  }

  const SessionDictKeys: set<string> :=
    {"session_id", "transcript", "soap_note", "is_recording", "status", "error_message"}

  function OptionalText(o: Option<string>): Json.Value {
    if o.Some? then Json.Str(o.value) else Json.Null
  }

  class RecordingSession {
    /** Never reassigned after construction. */
    const sessionId: string
    var isRecording: bool
    var transcript: string
    var soapNote: string
    var status: SessionStatus
    var errorMessage: Option<string>

    /** The dataclass constructor with every field but the id at its default. */
    constructor (sessionId: string)
      ensures this.sessionId == sessionId
      ensures !isRecording && transcript == "" && soapNote == ""
      ensures status == Ready && errorMessage == None
    {
      this.sessionId := sessionId;
      isRecording := false;
      transcript := "";
      soapNote := "";
      status := Ready;
      errorMessage := None;
    }

    /** `to_dict`: exactly six keys, the status as its value, every other field copied. */
    function ToDict(): (d: map<string, Json.Value>)
      reads this
      ensures d.Keys == SessionDictKeys && |d| == 6
      ensures d["session_id"] == Json.Str(sessionId)
      ensures d["transcript"] == Json.Str(transcript)
      ensures d["soap_note"] == Json.Str(soapNote)
      ensures d["is_recording"] == Json.Bool(isRecording)
      ensures d["status"].Str? && ParseStatus(d["status"].s) == Some(status)
      ensures d["error_message"] == OptionalText(errorMessage)
    {
      StatusValueInjective(status);
      map[
        "session_id" := Json.Str(sessionId),
        "transcript" := Json.Str(transcript),
        "soap_note" := Json.Str(soapNote),
        "is_recording" := Json.Bool(isRecording),
        "status" := Json.Str(StatusValue(status)),
        "error_message" := OptionalText(errorMessage)
      ]
    }
  }
}
