/** Response records of the backend (backend/models/responses.py). */
module Responses {
  import opened Wrappers
  import Json

  /** A generic API reply; `data` and `error` are optional. */
  datatype APIResponse = APIResponse(success: bool, data: Option<map<string, Json.Value>>, error: Option<string>)

  /** Python truthiness of the optional fields: present and non-empty. */
  predicate HasData(r: APIResponse) {
    r.data.Some? && r.data.value != map[]
  }

  predicate HasError(r: APIResponse) {
    r.error.Some? && r.error.value != ""
  }

  /** `APIResponse.to_dict`: `success` always, `data` and `error` only when truthy. */
  function ToDict(r: APIResponse): (d: map<string, Json.Value>)
    ensures "success" in d && d["success"] == Json.Bool(r.success)
    ensures "data" in d <==> HasData(r)
    ensures "error" in d <==> HasError(r)
    ensures HasData(r) ==> d["data"] == Json.Object(r.data.value)
    ensures HasError(r) ==> d["error"] == Json.Str(r.error.value)
    ensures d.Keys <= {"success", "data", "error"}
  {
    var base := map["success" := Json.Bool(r.success)];
    var withData := if HasData(r) then base["data" := Json.Object(r.data.value)] else base;
    if HasError(r) then withData["error" := Json.Str(r.error.value)] else withData
  }

  /** Reading a dictionary produced by `ToDict` back into a response. */
  function FromDict(d: map<string, Json.Value>): Option<APIResponse> {
    if "success" !in d || !d["success"].Bool? then None
    else
      var data := if "data" in d && d["data"].Object? then Some(d["data"].fields) else None;
      var error := if "error" in d && d["error"].Str? then Some(d["error"].s) else None;
      Some(APIResponse(d["success"].b, data, error))
  }

  /** What `to_dict` keeps of a response: falsy optional fields become absent. */
  function Normalised(r: APIResponse): APIResponse {
    APIResponse(r.success, if HasData(r) then r.data else None, if HasError(r) then r.error else None)
  }

  /** The dictionary form loses only falsy optional fields. */
  lemma ToDictRoundTrip(r: APIResponse)
    ensures FromDict(ToDict(r)) == Some(Normalised(r))
  {
  }

  /** Outcome of SOAP note generation; the dataclass defaults are an empty note and no error. */
  datatype SOAPNoteResult = SOAPNoteResult(success: bool, soapNote: string, error: Option<string>)

  /** `SOAPNoteResult(success=True, soap_note=note)`: the error keeps its default. */
  function SoapSuccess(note: string): (r: SOAPNoteResult)
    ensures r.success && r.soapNote == note && r.error == None
  {
    SOAPNoteResult(true, note, None)
  }

  /** `SOAPNoteResult(success=False, error=message)`: the note keeps its default. */
  function SoapFailure(message: string): (r: SOAPNoteResult)
    ensures !r.success && r.soapNote == "" && r.error == Some(message)
  {
    SOAPNoteResult(false, "", Some(message))
  }
}
