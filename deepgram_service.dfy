/**
 * The streaming transcription service (backend/services/deepgram_service.py):
 * per-session provider connections and transcript buffers, the extraction of
 * a provider speaker label from an utterance event, the four-rule heuristic
 * that picks speaker 1 or 2 when the provider gives no label, and the
 * "Speaker n: " formatting of each utterance appended to the buffer.
 *
 * The provider connection is an opaque token, whether opening it succeeds is
 * a parameter, and the wall clock is an integer number of milliseconds.
 */
module Deepgram {
  import opened Wrappers
  import opened Text

  // ---------------------------------------------------------------------
  // Provider events and the speaker label they may carry
  // ---------------------------------------------------------------------

  /** One word of the first alternative, with the provider's optional 0-based speaker tag. */
  datatype Word = Word(word: string, speaker: Option<int>)

  /**
   * One utterance event: the first alternative's text and words, and the
   * optional speaker tags found on the alternative and on the channel.
   */
  datatype TranscriptEvent = TranscriptEvent(
    transcript: string,
    words: seq<Word>,
    alternativeSpeaker: Option<int>,
    channelSpeaker: Option<int>)

  /** The tag of the first word that carries one, if any word does. */
  function FirstTaggedWord(words: seq<Word>): (r: Option<int>)
    ensures r.None? <==> forall i :: 0 <= i < |words| ==> words[i].speaker.None?
    ensures r.Some? ==> exists i :: 0 <= i < |words| && words[i].speaker == r &&
                                    forall j :: 0 <= j < i ==> words[j].speaker.None?
  {
    if |words| == 0 then None
    else if words[0].speaker.Some? then words[0].speaker
    else
      var r := FirstTaggedWord(words[1..]);
      assert forall j :: 1 <= j < |words| ==> words[j] == words[1..][j - 1];
      r
  }

  /**
   * The provider's speaker label, looked for in order: the first word's tag,
   * the first tagged word, the alternative-level tag, the channel-level tag.
   */
  function ProviderSpeaker(e: TranscriptEvent): (r: Option<int>)
    ensures |e.words| > 0 && e.words[0].speaker.Some? ==> r == e.words[0].speaker
    ensures FirstTaggedWord(e.words).Some? ==> r == FirstTaggedWord(e.words)
    ensures FirstTaggedWord(e.words).None? && e.alternativeSpeaker.Some? ==> r == e.alternativeSpeaker
    ensures FirstTaggedWord(e.words).None? && e.alternativeSpeaker.None? ==> r == e.channelSpeaker
    ensures r.None? <==>
      (forall i :: 0 <= i < |e.words| ==> e.words[i].speaker.None?)
      && e.alternativeSpeaker.None? && e.channelSpeaker.None?
  {
    var fromWords :=
      if |e.words| == 0 then None
      else if e.words[0].speaker.Some? then e.words[0].speaker
      else FirstTaggedWord(e.words);
    if fromWords.Some? then fromWords
    else if e.alternativeSpeaker.Some? then e.alternativeSpeaker
    else e.channelSpeaker
  }

  /** The scan over the words for the first one that carries a speaker tag. */
  method ScanWords(words: seq<Word>) returns (speaker: Option<int>)
    ensures speaker == FirstTaggedWord(words)
  {
    speaker := None;
    var i := 0;
    while i < |words|
      invariant 0 <= i <= |words|
      invariant FirstTaggedWord(words) == FirstTaggedWord(words[i..])
    {
      assert words[i..][1..] == words[i + 1..];
      if words[i].speaker.Some? {
        speaker := words[i].speaker;
        return;
      }
      i := i + 1;
    }
  }

  /** The label extraction of `on_message`: word tags, then the alternative's, then the channel's. */
  method ExtractSpeaker(e: TranscriptEvent) returns (speakerId: Option<int>)
    ensures speakerId == ProviderSpeaker(e)
  {
    speakerId := None;
    if |e.words| > 0 {
      if e.words[0].speaker.Some? {
        speakerId := e.words[0].speaker;
      }
      if speakerId.None? {
        speakerId := ScanWords(e.words);
      }
    }
    if speakerId.None? {
      speakerId := e.alternativeSpeaker;
    }
    if speakerId.None? {
      speakerId := e.channelSpeaker;
    }
  }

  // ---------------------------------------------------------------------
  // Speaker inference when the provider gives no label
  // ---------------------------------------------------------------------

  /**
   * The per-session pattern record: the last speaker (1 or 2 unless
   * corrected to something else), the number of inferred utterances, and
   * the word totals attributed to speakers 1 and 2.
   */
  datatype SpeakerPattern = SpeakerPattern(
    lastSpeaker: int,
    utteranceCount: nat,
    speaker1Words: nat,
    speaker2Words: nat)

  /** The record a session gets on its first inferred utterance. */
  const InitialPattern: SpeakerPattern := SpeakerPattern(1, 0, 0, 0)

  /** A silence longer than this, in milliseconds, means the other party is talking. */
  const PauseThresholdMs: int := 2000
  /** A reply with fewer words than this, after the first utterance, is taken as a turn change. */
  const ShortReplyWords: nat := 5
  /** A lead of more than this many words for the last speaker hands the turn over. */
  const BalanceMargin: nat := 50

  const DoctorPhrases: seq<string> :=
    ["let's", "i'm going to", "can you", "how are", "what brings",
     "i need to", "we should", "i'd like to", "tell me about"]
  const PatientPhrases: seq<string> :=
    ["i have", "it hurts", "i feel", "my", "i can't",
     "i've been", "i think", "i'm worried", "i'm having"]

  /** `any(phrase in text for phrase in phrases)`. */
  predicate MentionsAny(text: string, phrases: seq<string>) {
    |phrases| > 0 && (Contains(text, phrases[0]) || MentionsAny(text, phrases[1..]))
  }

  /** The rule that forced a change of speaker. */
  datatype SwitchRule = PauseRule | ShortReplyRule | DoctorPhraseRule | PatientPhraseRule | BalanceRule

  /** The rule chain: the first rule that fires, or None when the last speaker keeps the turn. */
  function SwitchReason(p: SpeakerPattern, gapMs: int, sentence: string): Option<SwitchRule> {
    var lower := Lower(sentence);
    var wordCount := WordCount(sentence);
    if gapMs > PauseThresholdMs then Some(PauseRule)
    else if wordCount < ShortReplyWords && p.utteranceCount > 0 then Some(ShortReplyRule)
    else if MentionsAny(lower, DoctorPhrases) && p.lastSpeaker == 2 then Some(DoctorPhraseRule)
    else if MentionsAny(lower, PatientPhrases) && p.lastSpeaker == 1 then Some(PatientPhraseRule)
    else if p.speaker1Words > p.speaker2Words + BalanceMargin && p.lastSpeaker == 1 then Some(BalanceRule)
    else if p.speaker2Words > p.speaker1Words + BalanceMargin && p.lastSpeaker == 2 then Some(BalanceRule)
    else None
  }

  /** The speaker a switch hands the turn to: 2 after speaker 1, otherwise 1. */
  function OtherSpeaker(last: int): (r: int)
    ensures r != last && (r == 1 || r == 2)
  {
    if last == 1 then 2 else 1
  }

  /** The speaker the heuristic assigns to the utterance. */
  function InferredSpeaker(p: SpeakerPattern, gapMs: int, sentence: string): int {
    if SwitchReason(p, gapMs, sentence).Some? then OtherSpeaker(p.lastSpeaker) else p.lastSpeaker
  }

  /**
   * The pattern record after an utterance of `wordCount` words went to
   * `speaker`: one more utterance, the words added to speaker 1's total when
   * the speaker is 1 and to speaker 2's total otherwise.
   */
  function RecordUtterance(p: SpeakerPattern, speaker: int, wordCount: nat): SpeakerPattern {
    SpeakerPattern(
      speaker,
      p.utteranceCount + 1,
      if speaker == 1 then p.speaker1Words + wordCount else p.speaker1Words,
      if speaker == 1 then p.speaker2Words else p.speaker2Words + wordCount)
  }

  /** Independent statement of when the heuristic switches: some rule's condition holds. */
  predicate AnySwitchCondition(p: SpeakerPattern, gapMs: int, sentence: string) {
    var lower := Lower(sentence);
    || gapMs > PauseThresholdMs
    || (WordCount(sentence) < ShortReplyWords && p.utteranceCount > 0)
    || (MentionsAny(lower, DoctorPhrases) && p.lastSpeaker == 2)
    || (MentionsAny(lower, PatientPhrases) && p.lastSpeaker == 1)
    || (p.lastSpeaker == 1 && p.speaker1Words > p.speaker2Words + BalanceMargin)
    || (p.lastSpeaker == 2 && p.speaker2Words > p.speaker1Words + BalanceMargin)
  }

  /** The speaker changes exactly when one of the four rules' conditions holds; otherwise the last speaker keeps the turn. */
  lemma SwitchIffSomeRule(p: SpeakerPattern, gapMs: int, sentence: string)
    ensures InferredSpeaker(p, gapMs, sentence) != p.lastSpeaker <==> AnySwitchCondition(p, gapMs, sentence)
    ensures !AnySwitchCondition(p, gapMs, sentence) ==> InferredSpeaker(p, gapMs, sentence) == p.lastSpeaker
  {
  }

  /** A pause of more than two seconds forces a switch whatever the text. */
  lemma PauseForcesSwitch(p: SpeakerPattern, gapMs: int, sentence: string)
    requires gapMs > PauseThresholdMs
    ensures SwitchReason(p, gapMs, sentence) == Some(PauseRule)
    ensures InferredSpeaker(p, gapMs, sentence) == OtherSpeaker(p.lastSpeaker) != p.lastSpeaker
  {
  }

  /** Without a long pause, a reply of fewer than five words after the first utterance forces a switch. */
  lemma ShortReplyForcesSwitch(p: SpeakerPattern, gapMs: int, sentence: string)
    requires gapMs <= PauseThresholdMs && WordCount(sentence) < ShortReplyWords && p.utteranceCount > 0
    ensures SwitchReason(p, gapMs, sentence) == Some(ShortReplyRule)
    ensures InferredSpeaker(p, gapMs, sentence) != p.lastSpeaker
  {
  }

  /** The first inferred utterance (gap 0, no earlier utterance) is never switched by the timing rules. */
  lemma FirstUtteranceNotSwitchedByTiming(sentence: string)
    ensures SwitchReason(InitialPattern, 0, sentence) != Some(PauseRule)
    ensures SwitchReason(InitialPattern, 0, sentence) != Some(ShortReplyRule)
  {
  }

  /** A doctor phrase only switches to speaker 1, and only away from speaker 2; a patient phrase only to 2, away from 1. */
  lemma PhraseRulesDirection(p: SpeakerPattern, gapMs: int, sentence: string)
    ensures SwitchReason(p, gapMs, sentence) == Some(DoctorPhraseRule) ==>
      p.lastSpeaker == 2 && MentionsAny(Lower(sentence), DoctorPhrases) && InferredSpeaker(p, gapMs, sentence) == 1
    ensures SwitchReason(p, gapMs, sentence) == Some(PatientPhraseRule) ==>
      p.lastSpeaker == 1 && MentionsAny(Lower(sentence), PatientPhrases) && InferredSpeaker(p, gapMs, sentence) == 2
    ensures gapMs <= PauseThresholdMs && (WordCount(sentence) >= ShortReplyWords || p.utteranceCount == 0)
      && MentionsAny(Lower(sentence), DoctorPhrases) && p.lastSpeaker == 2
      ==> InferredSpeaker(p, gapMs, sentence) == 1
  {
  }

  /** The balance rule fires only for a lead of more than 50 words held by the last speaker, and hands the turn over. */
  lemma BalanceRuleCondition(p: SpeakerPattern, gapMs: int, sentence: string)
    ensures SwitchReason(p, gapMs, sentence) == Some(BalanceRule) ==>
      && ((p.lastSpeaker == 1 && p.speaker1Words > p.speaker2Words + BalanceMargin)
          || (p.lastSpeaker == 2 && p.speaker2Words > p.speaker1Words + BalanceMargin))
      && InferredSpeaker(p, gapMs, sentence) == OtherSpeaker(p.lastSpeaker)
  {
  }

  /**
   * The balance example: speaker 1 has 100 words, speaker 2 has 40, speaker 1
   * spoke last, and a neutral utterance arrives without a long pause.
   */
  lemma BalanceExample(count: nat, gapMs: int, sentence: string)
    requires gapMs <= PauseThresholdMs && WordCount(sentence) >= ShortReplyWords
    requires !MentionsAny(Lower(sentence), DoctorPhrases) && !MentionsAny(Lower(sentence), PatientPhrases)
    ensures InferredSpeaker(SpeakerPattern(1, count, 100, 40), gapMs, sentence) == 2
  {
  }

  /** Speakers stay in {1, 2} as long as the last speaker is 1 or 2. */
  lemma InferredSpeakerInRange(p: SpeakerPattern, gapMs: int, sentence: string)
    requires p.lastSpeaker == 1 || p.lastSpeaker == 2
    ensures InferredSpeaker(p, gapMs, sentence) == 1 || InferredSpeaker(p, gapMs, sentence) == 2
  {
  }

  /**
   * A last speaker corrected to a value other than 1 or 2 is kept or
   * switched to 1, and words it keeps go to speaker 2's total.
   */
  lemma OutOfRangeSpeakerFlowsToElseBranches(p: SpeakerPattern, gapMs: int, sentence: string, wordCount: nat)
    requires p.lastSpeaker != 1 && p.lastSpeaker != 2
    ensures var s := InferredSpeaker(p, gapMs, sentence); s == p.lastSpeaker || s == 1
    ensures RecordUtterance(p, p.lastSpeaker, wordCount).speaker2Words == p.speaker2Words + wordCount
  {
  }

  /** Recording an utterance counts it once and adds its words to exactly one speaker's total. */
  lemma RecordUtteranceAccounts(p: SpeakerPattern, speaker: int, wordCount: nat)
    ensures var q := RecordUtterance(p, speaker, wordCount);
      && q.utteranceCount == p.utteranceCount + 1
      && q.lastSpeaker == speaker
      && q.speaker1Words + q.speaker2Words == p.speaker1Words + p.speaker2Words + wordCount
      && (speaker == 1 ==> q.speaker1Words == p.speaker1Words + wordCount && q.speaker2Words == p.speaker2Words)
      && (speaker != 1 ==> q.speaker2Words == p.speaker2Words + wordCount && q.speaker1Words == p.speaker1Words)
  {
  }

  // ---------------------------------------------------------------------
  // Formatting
  // ---------------------------------------------------------------------

  /** `"Speaker {id + 1}: {sentence}"` for a 0-based label, the bare sentence without one. */
  function Format(speakerId: Option<int>, sentence: string): string {
    if speakerId.Some? then "Speaker " + ShowInt(speakerId.value + 1) + ": " + sentence else sentence
  }

  /** The pattern record the heuristic starts from for a session. */
  function PatternFor(patterns: map<string, SpeakerPattern>, sessionId: string): SpeakerPattern {
    if sessionId in patterns then patterns[sessionId] else InitialPattern
  }

  /** Milliseconds since the session's last inferred utterance; 0 when there was none. */
  function GapMs(lastTimes: map<string, int>, sessionId: string, nowMs: int): int {
    if sessionId in lastTimes then nowMs - lastTimes[sessionId] else 0
  }

  /** The current-speaker map after an inference: initialised to 1, then overwritten on a switch. */
  function CurrentSpeakerAfter(current: map<string, int>, sessionId: string, switched: bool, speaker: int): map<string, int> {
    if switched then current[sessionId := speaker]
    else if sessionId in current then current
    else current[sessionId := 1]
  }

  // ---------------------------------------------------------------------
  // The service
  // ---------------------------------------------------------------------

  /** An open provider connection, seen only as a token. */
  datatype Connection = Connection(handle: nat)

  /** How opening a stream went: creating the connection raised, starting it raised, or it opened. */
  datatype StartOutcome = ConnectFailed | StartRaised | Opened

  /** The dictionary handed to the transcript callback. */
  datatype TranscriptData = TranscriptData(
    text: string,
    speaker: Option<int>,
    formattedText: string,
    fullTranscript: string)

  /**
   * What handling one event did: nothing for a blank sentence, a delivery to
   * the callback, or a `KeyError` because the session's buffer is gone.
   */
  datatype MessageOutcome = Ignored | Delivered(data: TranscriptData) | BufferMissing

  datatype SpeakerStats = SpeakerStats(
    currentSpeaker: int,
    speaker1Words: nat,
    speaker2Words: nat,
    totalUtterances: nat)

  /**
   * The 0-based speaker id `on_message` gives an utterance, from the
   * speaker state it started with: the provider's label, else one less
   * than the heuristic's speaker.
   */
  function SpeakerIdFor(patterns0: map<string, SpeakerPattern>, last0: map<string, int>,
                        sessionId: string, event: TranscriptEvent, nowMs: int): int
  {
    var tag := ProviderSpeaker(event);
    if tag.Some? then tag.value
    else InferredSpeaker(PatternFor(patterns0, sessionId), GapMs(last0, sessionId, nowMs), event.transcript) - 1
  }

  class DeepgramService {
    var connections: map<string, Connection>
    var connectionTranscripts: map<string, string>
    var sessionSpeakerCount: map<string, int>
    /** `_session_current_speaker`. */
    var currentSpeaker: map<string, int>
    /** `_session_speaker_patterns`. */
    var speakerPatterns: map<string, SpeakerPattern>
    /** The `_last_transcript_time_<id>` attributes, in milliseconds. */
    var lastTranscriptTime: map<string, int>

    constructor ()
      ensures connections == map[] && connectionTranscripts == map[] && sessionSpeakerCount == map[]
      ensures currentSpeaker == map[] && speakerPatterns == map[] && lastTranscriptTime == map[]
    {
      connections := map[];
      connectionTranscripts := map[];
      sessionSpeakerCount := map[];
      currentSpeaker := map[];
      speakerPatterns := map[];
      lastTranscriptTime := map[];
    }

    /**
     * `start_streaming_session`: stores the connection, an empty buffer and a
     * speaker count of 1 once the connection exists, even when starting it
     * then raises; reports success only when it opened.
     */
    method StartStreamingSession(sessionId: string, connection: Connection, outcome: StartOutcome)
      returns (started: bool)
      modifies this
      ensures started <==> outcome == Opened
      ensures outcome == ConnectFailed ==>
        connections == old(connections) && connectionTranscripts == old(connectionTranscripts)
        && sessionSpeakerCount == old(sessionSpeakerCount)
      ensures outcome != ConnectFailed ==>
        && connections == old(connections)[sessionId := connection]
        && connectionTranscripts == old(connectionTranscripts)[sessionId := ""]
        && sessionSpeakerCount == old(sessionSpeakerCount)[sessionId := 1]
      ensures currentSpeaker == old(currentSpeaker) && speakerPatterns == old(speakerPatterns)
      ensures lastTranscriptTime == old(lastTranscriptTime)
    {
      if outcome == ConnectFailed {
        return false;
      }
      connections := connections[sessionId := connection];
      connectionTranscripts := connectionTranscripts[sessionId := ""];
      sessionSpeakerCount := sessionSpeakerCount[sessionId := 1];
      started := outcome == Opened;
    }

    /**
     * The inference half of `on_message`: creates the session's speaker
     * entries on first use, applies the rule chain to the pattern record,
     * records the utterance and the time, and returns the speaker (1-based).
     */
    method InferSpeaker(sessionId: string, sentence: string, nowMs: int) returns (speaker: int)
      modifies this
      ensures
        var p := PatternFor(old(speakerPatterns), sessionId);
        var gap := GapMs(old(lastTranscriptTime), sessionId, nowMs);
        && speaker == InferredSpeaker(p, gap, sentence)
        && speakerPatterns == old(speakerPatterns)[sessionId := RecordUtterance(p, speaker, WordCount(sentence))]
        && lastTranscriptTime == old(lastTranscriptTime)[sessionId := nowMs]
        && currentSpeaker == CurrentSpeakerAfter(old(currentSpeaker), sessionId,
                                                 SwitchReason(p, gap, sentence).Some?, speaker)
      ensures connections == old(connections) && connectionTranscripts == old(connectionTranscripts)
      ensures sessionSpeakerCount == old(sessionSpeakerCount)
    {
      var current := currentSpeaker;
      var allPatterns := speakerPatterns;
      if sessionId !in current {
        current := current[sessionId := 1];
      }
      if sessionId !in allPatterns {
        allPatterns := allPatterns[sessionId := InitialPattern];
      }
      var patterns := allPatterns[sessionId];
      assert patterns == PatternFor(speakerPatterns, sessionId);
      var gap := 0;
      if sessionId in lastTranscriptTime {
        gap := nowMs - lastTranscriptTime[sessionId];
      }
      assert gap == GapMs(lastTranscriptTime, sessionId, nowMs);
      var wordCount := WordCount(sentence);
      var switched := SwitchReason(patterns, gap, sentence).Some?;
      if switched {
        speaker := OtherSpeaker(patterns.lastSpeaker);
        current := current[sessionId := speaker];
      } else {
        speaker := patterns.lastSpeaker;
      }
      assert current == CurrentSpeakerAfter(currentSpeaker, sessionId, switched, speaker);
      currentSpeaker := current;
      speakerPatterns := allPatterns[sessionId := RecordUtterance(patterns, speaker, wordCount)];
      lastTranscriptTime := lastTranscriptTime[sessionId := nowMs];
    }

    /**
     * The speaker state after labelling an utterance: unchanged when the
     * provider labelled it; otherwise the heuristic records the utterance,
     * its time and any switch of the current speaker.
     */
    ghost predicate LabelStep(patterns0: map<string, SpeakerPattern>, current0: map<string, int>,
                              last0: map<string, int>, sessionId: string, event: TranscriptEvent, nowMs: int)
      reads this
    {
      var sentence := event.transcript;
      var p := PatternFor(patterns0, sessionId);
      var gap := GapMs(last0, sessionId, nowMs);
      var inferred := InferredSpeaker(p, gap, sentence);
      && (ProviderSpeaker(event).Some? ==>
            && speakerPatterns == patterns0
            && currentSpeaker == current0
            && lastTranscriptTime == last0)
      && (ProviderSpeaker(event).None? ==>
            && speakerPatterns == patterns0[sessionId := RecordUtterance(p, inferred, WordCount(sentence))]
            && lastTranscriptTime == last0[sessionId := nowMs]
            && currentSpeaker == CurrentSpeakerAfter(current0, sessionId, SwitchReason(p, gap, sentence).Some?, inferred))
    }

    /**
     * What `on_message` does with a non-blank event, from the speaker state
     * and buffers it started with: the utterance is labelled, and the
     * formatted utterance is appended to the session's buffer, or nothing
     * is when the buffer is gone.
     */
    ghost predicate MessageStep(patterns0: map<string, SpeakerPattern>, current0: map<string, int>,
                                last0: map<string, int>, buffers0: map<string, string>,
                                sessionId: string, event: TranscriptEvent, nowMs: int, outcome: MessageOutcome)
      reads this
    {
      var speakerId := SpeakerIdFor(patterns0, last0, sessionId, event, nowMs);
      var formatted := Format(Some(speakerId), event.transcript);
      && LabelStep(patterns0, current0, last0, sessionId, event, nowMs)
      && (sessionId in buffers0 ==>
            && connectionTranscripts == buffers0[sessionId := buffers0[sessionId] + " " + formatted]
            && outcome == Delivered(TranscriptData(event.transcript, Some(speakerId + 1), formatted,
                                                   connectionTranscripts[sessionId])))
      && (sessionId !in buffers0 ==>
            connectionTranscripts == buffers0 && outcome == BufferMissing)
    }

    /** The labelling half of `on_message`: the provider's label, else the heuristic's speaker. */
    method LabelUtterance(sessionId: string, event: TranscriptEvent, nowMs: int) returns (speakerId: int)
      modifies this
      ensures speakerId == SpeakerIdFor(old(speakerPatterns), old(lastTranscriptTime), sessionId, event, nowMs)
      ensures LabelStep(old(speakerPatterns), old(currentSpeaker), old(lastTranscriptTime), sessionId, event, nowMs)
      ensures connections == old(connections) && connectionTranscripts == old(connectionTranscripts)
      ensures sessionSpeakerCount == old(sessionSpeakerCount)
    {
      var tag := ExtractSpeaker(event);
      if tag.Some? {
        speakerId := tag.value;
      } else {
        var inferred := InferSpeaker(sessionId, event.transcript, nowMs);
        speakerId := inferred - 1;
      }
    }

    /**
     * `on_message` for the connection of `sessionId`: label the utterance
     * (provider label, else the heuristic), format it and append it to the
     * session's buffer. Only the entries of `sessionId` change.
     */
    method OnMessage(sessionId: string, event: TranscriptEvent, nowMs: int) returns (outcome: MessageOutcome)
      modifies this
      ensures IsBlank(Python, event.transcript) ==> outcome == Ignored && unchanged(this)
      ensures connections == old(connections) && sessionSpeakerCount == old(sessionSpeakerCount)
      ensures !IsBlank(Python, event.transcript) ==>
        MessageStep(old(speakerPatterns), old(currentSpeaker), old(lastTranscriptTime), old(connectionTranscripts),
                    sessionId, event, nowMs, outcome)
    {
      var sentence := event.transcript;
      if Strip(Python, sentence) == [] {
        return Ignored;
      }
      var speakerId := LabelUtterance(sessionId, event, nowMs);
      var formatted := Format(Some(speakerId), sentence);
      if sessionId !in connectionTranscripts {
        return BufferMissing;
      }
      connectionTranscripts := connectionTranscripts[sessionId := connectionTranscripts[sessionId] + " " + formatted];
      outcome := Delivered(TranscriptData(sentence, Some(speakerId + 1), formatted, connectionTranscripts[sessionId]));
    }

    /**
     * `send_audio_chunk_to_stream`: forwards the bytes when the session has a
     * connection; `accepted` says whether the connection's send went through.
     */
    method SendAudioChunkToStream(sessionId: string, audio: seq<Byte>, accepted: bool) returns (ok: bool)
      ensures ok <==> sessionId in connections && accepted
    {
      ok := sessionId in connections && accepted;
    }

    /**
     * `stop_streaming_session`: returns the session's buffered transcript (""
     * when there is none) and forgets its connection and buffer; the speaker
     * state is kept.
     */
    method StopStreamingSession(sessionId: string) returns (finalTranscript: string)
      modifies this
      ensures finalTranscript == if sessionId in old(connectionTranscripts) then old(connectionTranscripts)[sessionId] else ""
      ensures connections == old(connections) - {sessionId}
      ensures connectionTranscripts == old(connectionTranscripts) - {sessionId}
      ensures sessionSpeakerCount == old(sessionSpeakerCount) && currentSpeaker == old(currentSpeaker)
      ensures speakerPatterns == old(speakerPatterns) && lastTranscriptTime == old(lastTranscriptTime)
    {
      if sessionId in connections {
        connections := connections - {sessionId};
      }
      finalTranscript := if sessionId in connectionTranscripts then connectionTranscripts[sessionId] else "";
      if sessionId in connectionTranscripts {
        connectionTranscripts := connectionTranscripts - {sessionId};
      }
    }

    /**
     * `correct_speaker`: records the given speaker as current, and as the
     * pattern record's last speaker only when that record already exists.
     */
    method CorrectSpeaker(sessionId: string, speakerNumber: int) returns (ok: bool)
      modifies this
      ensures ok
      ensures currentSpeaker == old(currentSpeaker)[sessionId := speakerNumber]
      ensures speakerPatterns ==
        if sessionId in old(speakerPatterns)
        then old(speakerPatterns)[sessionId := old(speakerPatterns)[sessionId].(lastSpeaker := speakerNumber)]
        else old(speakerPatterns)
      ensures connections == old(connections) && connectionTranscripts == old(connectionTranscripts)
      ensures sessionSpeakerCount == old(sessionSpeakerCount) && lastTranscriptTime == old(lastTranscriptTime)
    {
      currentSpeaker := currentSpeaker[sessionId := speakerNumber];
      if sessionId in speakerPatterns {
        speakerPatterns := speakerPatterns[sessionId := speakerPatterns[sessionId].(lastSpeaker := speakerNumber)];
      }
      ok := true;
    }

    /** `get_session_speaker_stats`: the pattern record's figures, or speaker 1 with zero counts. */
    function SessionSpeakerStats(sessionId: string): (s: SpeakerStats)
      reads this
      ensures sessionId !in speakerPatterns ==> s == SpeakerStats(1, 0, 0, 0)
      ensures sessionId in speakerPatterns ==>
        var p := speakerPatterns[sessionId];
        s.currentSpeaker == p.lastSpeaker && s.totalUtterances == p.utteranceCount
        && s.speaker1Words == p.speaker1Words && s.speaker2Words == p.speaker2Words
    {
      if sessionId in speakerPatterns then
        var p := speakerPatterns[sessionId];
        SpeakerStats(p.lastSpeaker, p.speaker1Words, p.speaker2Words, p.utteranceCount)
      else SpeakerStats(1, 0, 0, 0)
    }
  }
}
