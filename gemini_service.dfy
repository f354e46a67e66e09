/**
 * The note-generation collaborator (backend/services/gemini_service.py):
 * the prompt template, the classification of provider errors into
 * user-facing messages, and the mapping of a provider answer to a
 * `SOAPNoteResult`. The provider itself is a function from prompt to outcome.
 */
module Gemini {
  import opened Wrappers
  import opened Text
  import opened Responses

  const PromptPrefix: string := "\nYou are a medical documentation assistant specializing in creating accurate SOAP notes from doctor-patient conversations.\n\nBased on the following medical conversation transcript between a doctor and patient, create a professional SOAP note.\n\nSOAP Format:\n- SUBJECTIVE: Patient's symptoms, complaints, and history in their own words\n- OBJECTIVE: Observable, measurable findings (vital signs, physical exam, test results)\n- ASSESSMENT: Medical diagnosis or clinical impression\n- PLAN: Treatment plan, medications, follow-up instructions\n\nTranscript:\n"
  const PromptSuffix: string := "\n\nPlease format the SOAP note professionally with clear sections. If any section lacks information from the transcript, note \"Not documented in visit\" for that section.\n\nCreate a well-structured SOAP note now:\n"

  /** `_create_soap_prompt`: the fixed instructions around the verbatim transcript. */
  function CreateSoapPrompt(transcript: string): string {
    PromptPrefix + transcript + PromptSuffix
  }

  /** The transcript sits verbatim between the fixed prefix and suffix, so distinct transcripts give distinct prompts. */
  lemma PromptRecoversTranscript(transcript: string, other: string)
    ensures var p := CreateSoapPrompt(transcript);
      && StartsWith(p, PromptPrefix)
      && p[|p| - |PromptSuffix|..] == PromptSuffix
      && p[|PromptPrefix|..|p| - |PromptSuffix|] == transcript
    ensures CreateSoapPrompt(other) == CreateSoapPrompt(transcript) ==> other == transcript
  {
    Framed(PromptPrefix, transcript, PromptSuffix);
    Framed(PromptPrefix, other, PromptSuffix);
  }

  /** What sits between a known prefix and a known suffix can be cut back out. */
  lemma Framed(pre: string, mid: string, suf: string)
    ensures var p := pre + mid + suf;
      && StartsWith(p, pre)
      && p[|p| - |suf|..] == suf
      && p[|pre|..|p| - |suf|] == mid
  {
    var p := pre + mid + suf;
    assert p[..|pre|] == pre;
  }

  /** The failure kinds the classifier distinguishes, in the order it tests them. */
  datatype ErrorKind = InvalidApiKey | QuotaExceeded | SafetyBlocked | PermissionDenied | OtherError

  /** The ordered keyword tests of `_handle_gemini_error` on the upper-cased message. */
  function ClassifyError(message: string): ErrorKind {
    var upper := Upper(message);
    if Contains(upper, "API_KEY") then InvalidApiKey
    else if Contains(upper, "QUOTA") then QuotaExceeded
    else if Contains(upper, "SAFETY") then SafetyBlocked
    else if Contains(upper, "PERMISSION_DENIED") then PermissionDenied
    else OtherError
  }

  // The two-sentence texts are written as two literals joined, one per sentence.
  const InvalidApiKeyText: string := "Invalid or missing Google API key. " + "Please check your GOOGLE_API_KEY in .env file."
  const QuotaExceededText: string := "API quota exceeded. " + "Please check your Gemini API usage limits."
  const SafetyBlockedText: string := "Content was blocked by safety filters. " + "This may happen with medical content."
  const PermissionDeniedText: string := "API key doesn't have permission to use Gemini"
  const OtherErrorPrefix: string := "Gemini API error: "

  /** `_handle_gemini_error`: a fixed text per recognised kind, else the prefixed original message. */
  function HandleGeminiError(message: string): string {
    match ClassifyError(message)
    case InvalidApiKey => InvalidApiKeyText
    case QuotaExceeded => QuotaExceededText
    case SafetyBlocked => SafetyBlockedText
    case PermissionDenied => PermissionDeniedText
    case OtherError => OtherErrorPrefix + message
  }

  /** The earliest keyword in the test order decides, whatever else the message contains. */
  lemma KeywordPrecedence(message: string)
    ensures var u := Upper(message);
      && (Contains(u, "API_KEY") ==> HandleGeminiError(message) == InvalidApiKeyText)
      && ((!Contains(u, "API_KEY") && Contains(u, "QUOTA"))
          ==> HandleGeminiError(message) == QuotaExceededText)
      && ((!Contains(u, "API_KEY") && !Contains(u, "QUOTA") && Contains(u, "SAFETY"))
          ==> HandleGeminiError(message) == SafetyBlockedText)
      && ((!Contains(u, "API_KEY") && !Contains(u, "QUOTA") && !Contains(u, "SAFETY") && Contains(u, "PERMISSION_DENIED"))
          ==> HandleGeminiError(message) == PermissionDeniedText)
    ensures ClassifyError(message) == OtherError <==>
      !Contains(Upper(message), "API_KEY") && !Contains(Upper(message), "QUOTA")
      && !Contains(Upper(message), "SAFETY") && !Contains(Upper(message), "PERMISSION_DENIED")
  {
  }

  /** Matching ignores case: a message and its lower- or upper-case spelling fall in the same kind. */
  lemma ClassificationIgnoresCase(message: string)
    ensures ClassifyError(Lower(message)) == ClassifyError(message)
    ensures ClassifyError(Upper(message)) == ClassifyError(message)
  {
    UpperForgetsCase(message);
  }

  /** Reading the kind back from a user-facing error text. */
  function KindOfErrorText(text: string): ErrorKind {
    if text == InvalidApiKeyText then InvalidApiKey
    else if text == QuotaExceededText then QuotaExceeded
    else if text == SafetyBlockedText then SafetyBlocked
    else if text == PermissionDeniedText then PermissionDenied
    else OtherError
  }

  /** The texts are distinct, so the kind is recoverable; an unrecognised message survives un-uppercased after the prefix. */
  lemma ErrorTextDeterminesKind(message: string)
    ensures KindOfErrorText(HandleGeminiError(message)) == ClassifyError(message)
    ensures ClassifyError(message) == OtherError ==>
      var t := HandleGeminiError(message); StartsWith(t, OtherErrorPrefix) && t[|OtherErrorPrefix|..] == message
  {
    FixedTextsDistinct();
    if ClassifyError(message) == OtherError {
      PrefixedIsNotFixed(message);
    }
  }

  /** The four fixed texts differ from one another. */
  lemma FixedTextsDistinct()
    ensures InvalidApiKeyText != QuotaExceededText && InvalidApiKeyText != SafetyBlockedText
    ensures InvalidApiKeyText != PermissionDeniedText && QuotaExceededText != SafetyBlockedText
    ensures QuotaExceededText != PermissionDeniedText && SafetyBlockedText != PermissionDeniedText
  {
    assert InvalidApiKeyText[0] == 'I' && QuotaExceededText[0] == 'A' && SafetyBlockedText[0] == 'C';
    assert QuotaExceededText[4] == 'q' && PermissionDeniedText[0] == 'A' && PermissionDeniedText[4] == 'k';
  }

  /** A prefixed message is none of the fixed texts, and the message follows the prefix. */
  lemma PrefixedIsNotFixed(message: string)
    ensures var t := OtherErrorPrefix + message;
      && t != InvalidApiKeyText && t != QuotaExceededText && t != SafetyBlockedText && t != PermissionDeniedText
      && StartsWith(t, OtherErrorPrefix) && t[|OtherErrorPrefix|..] == message
  {
    var t := OtherErrorPrefix + message;
    assert t[0] == 'G';
    assert InvalidApiKeyText[0] == 'I' && QuotaExceededText[0] == 'A' && SafetyBlockedText[0] == 'C';
    assert PermissionDeniedText[0] == 'A';
    assert t[..|OtherErrorPrefix|] == OtherErrorPrefix;
  }

  /** What the provider call yields for a prompt: response text, or the text of a raised exception. */
  datatype ProviderOutcome = Responded(text: string) | Raised(message: string)

  const NoResponseText: string := "No response generated from Gemini API"

  /**
   * `generate_soap_note`: success exactly when the provider answered the
   * prompt with non-empty text; a raised exception becomes a classified
   * failure, never an exception.
   */
  function GenerateSoapNote(transcript: string, provider: string -> ProviderOutcome): (r: SOAPNoteResult)
    ensures var out := provider(CreateSoapPrompt(transcript));
      && (r.success <==> out.Responded? && out.text != "")
      && (r.success ==> r.soapNote == out.text && r.error == None)
      && (out.Raised? ==> r == SoapFailure(HandleGeminiError(out.message)))
      && (out == Responded("") ==> r == SoapFailure(NoResponseText))
  {
    match provider(CreateSoapPrompt(transcript))
    case Responded(text) => if text != "" then SoapSuccess(text) else SoapFailure(NoResponseText)
    case Raised(message) => SoapFailure(HandleGeminiError(message))
  }
}
