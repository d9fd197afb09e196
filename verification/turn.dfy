/**
 * One conversational turn (`chat_with_history`): transcribe the audio, store
 * the user's message, build the prompt from the recent history, generate a
 * reply (or the fixed fallback), store it, truncate it for speech, synthesize
 * it, trim the history and report. The three capability adapters and the
 * fallback speech helper are not modelled: their results are inputs.
 */
module Turn {
  import opened Wrappers
  import opened Text
  import opened Errors
  import opened Truncation
  import opened Validation
  import opened Sessions
  import opened Prompt

  const NormalVoice := "en-US-claire"
  const NormalStyle := "Cheerful"
  const FallbackVoice := "en-US-ken"
  const FallbackStyle := "Neutral"

  /** The parts of a turn's status line. */
  const SpeechRecognized := "\U{2705} Speech recognized"
  const UsingFallback := "\U{1F504} Using fallback response"
  const ReplyGenerated := "\U{2705} AI response generated"
  const AudioFailed := "\U{26A0}\U{FE0F} Audio generation failed"
  const AudioGenerated := "\U{2705} Audio generated"

  /** The six numbered steps of a turn. */
  datatype Step = Transcribe | Context | Generate | Truncate | Synthesize | Finalize

  /** An unexpected exception, raised at the start of the given step. */
  datatype Crash = NoCrash | CrashAt(step: Step, message: string)

  /** What the outside world contributes to one turn. */
  datatype Services = Services(
    transcription: Reply<string>,   // the speech-to-text adapter's (transcript, error)
    reply: Reply<string>,           // the language-model adapter's (response, error)
    speech: Reply<string>,          // the text-to-speech adapter's (audio_url, error)
    fallbackAudio: Option<string>,  // what the fallback speech helper returns
    crash: Crash,
    userTime: string,               // timestamp of the stored user message
    assistantTime: string)          // timestamp of the stored assistant message

  /** The adapter calls a turn makes, in order. */
  datatype Call =
    | TranscribeAudio
    | GenerateReply(prompt: string)
    | SynthesizeReply(text: string, voice: string, style: string)
    | SynthesizeFallback(text: string, voice: string, style: string)

  datatype ChatResponse = ChatResponse(
    success: bool,
    message: string,
    audioUrl: Option<string>,
    transcript: Option<string>,
    llmResponse: Option<string>,
    sessionId: string,
    messageCount: nat,
    errorType: Option<string>,
    fallbackUsed: bool)

  /** A request refused before the turn starts, or the turn's response and the calls it made. */
  datatype TurnOutcome =
    | Rejected(status: nat, detail: string)
    | Responded(response: ChatResponse, calls: seq<Call>)

  /** The session's history after the turn, and the turn's outcome. */
  datatype TurnState = TurnState(history: seq<Message>, outcome: TurnOutcome)

  predicate CrashesAt(crash: Crash, step: Step) {
    crash.CrashAt? && crash.step == step
  }

  /** The response of the speech-recognition failure path. */
  function SttFailureResponse(id: string, count: nat, fallbackAudio: Option<string>): ChatResponse {
    var fallbackMessage := FallbackMessages[SttError];
    ChatResponse(false, fallbackMessage, fallbackAudio, None, Some(fallbackMessage), id, count, Some(SttError), true)
  }

  /**
   * The catch-all handler: the exception text picks the error class and its
   * fallback sentence, which is also offered to the fallback speech helper.
   */
  function UnexpectedOutcome(id: string, count: nat, transcript: Option<string>, calls: seq<Call>,
                             message: string, fallbackAudio: Option<string>): TurnOutcome
  {
    var errorType := GetErrorType(message);
    var fallbackMessage := FallbackFor(errorType);
    Responded(
      ChatResponse(false, "Unexpected error occurred: " + fallbackMessage, fallbackAudio, transcript,
                   Some(fallbackMessage), id, count, Some(errorType), true),
      calls + [SynthesizeFallback(fallbackMessage, FallbackVoice, FallbackStyle)])
  }

  /** The status line of a turn that got past transcription. */
  function StatusMessage(llmFailed: bool, ttsFailed: bool): string {
    Join([SpeechRecognized,
          if llmFailed then UsingFallback else ReplyGenerated,
          if ttsFailed then AudioFailed else AudioGenerated],
         " | ")
  }

  /** The turn, as a function of the session's history before it. */
  function RunTurn(history: seq<Message>, id: string, contentType: Option<string>, sv: Services): TurnState {
    if !AcceptsAudio(contentType) then
      TurnState(history, Rejected(400, InvalidFileType))
    else if CrashesAt(sv.crash, Transcribe) then
      TurnState(history, UnexpectedOutcome(id, |history|, None, [], sv.crash.message, sv.fallbackAudio))
    else if sv.transcription.Err? then
      var fallbackMessage := FallbackMessages[SttError];
      TurnState(history, Responded(SttFailureResponse(id, |history|, sv.fallbackAudio),
                                   [TranscribeAudio, SynthesizeFallback(fallbackMessage, FallbackVoice, FallbackStyle)]))
    else
      var userMessage := sv.transcription.value;
      ReplyPhase(history + [Message("user", userMessage, sv.userTime)], userMessage, id, sv)
  }

  /** Steps 2 and 3, once the user's message is stored: the prompt, then the reply or its fallback. */
  function ReplyPhase(withUser: seq<Message>, userMessage: string, id: string, sv: Services): TurnState {
    if CrashesAt(sv.crash, Context) || CrashesAt(sv.crash, Generate) then
      TurnState(withUser, UnexpectedOutcome(id, |withUser|, Some(userMessage), [TranscribeAudio],
                                            sv.crash.message, sv.fallbackAudio))
    else
      var assistantMessage := if sv.reply.Err? then FallbackMessages[LlmError] else sv.reply.value;
      SpeechPhase(withUser + [Message("assistant", assistantMessage, sv.assistantTime)], userMessage, assistantMessage,
                  [TranscribeAudio, GenerateReply(PromptText(Window(withUser)))], id, sv)
  }

  /** Steps 4 to 6, once the reply is stored: truncate, synthesize, trim and report. */
  function SpeechPhase(withReply: seq<Message>, userMessage: string, assistantMessage: string, calls: seq<Call>,
                       id: string, sv: Services): TurnState
  {
    if CrashesAt(sv.crash, Truncate) || CrashesAt(sv.crash, Synthesize) then
      TurnState(withReply, UnexpectedOutcome(id, |withReply|, Some(userMessage), calls,
                                             sv.crash.message, sv.fallbackAudio))
    else
      var llmFailed := sv.reply.Err?;
      var fallbackUsed := llmFailed;
      var voice := if fallbackUsed then FallbackVoice else NormalVoice;
      var style := if fallbackUsed then FallbackStyle else NormalStyle;
      var spoken := calls + [SynthesizeReply(ChatTruncate(assistantMessage), voice, style)];
      if CrashesAt(sv.crash, Finalize) then
        TurnState(withReply, UnexpectedOutcome(id, |withReply|, Some(userMessage), spoken,
                                               sv.crash.message, sv.fallbackAudio))
      else
        var kept := Trimmed(withReply);
        var errorType := if llmFailed then Some(LlmError) else if sv.speech.Err? then Some(TtsError) else None;
        var audioUrl := if sv.speech.Ok? then Some(sv.speech.value) else None;
        TurnState(kept, Responded(
          ChatResponse(!(llmFailed && !fallbackUsed), StatusMessage(llmFailed, sv.speech.Err?), audioUrl,
                       Some(userMessage), Some(assistantMessage), id, |kept|, errorType, fallbackUsed),
          spoken))
  }

  /** `chat_with_history`, step by step against the session store. */
  method ChatTurn(store: SessionStore, id: string, contentType: Option<string>, sv: Services)
    returns (outcome: TurnOutcome)
    requires store.Valid()
    modifies store
    ensures store.Valid()
    ensures store.sessions == old(store.sessions)[id := RunTurn(old(store.History(id)), id, contentType, sv).history]
    ensures store.order == if id in old(store.sessions) then old(store.order) else old(store.order) + [id]
    ensures outcome == RunTurn(old(store.History(id)), id, contentType, sv).outcome
  {
    ghost var before := store.History(id);
    // The opening log line reads `chat_sessions[session_id]`, creating the session.
    store.Touch(id);
    assert store.sessions == old(store.sessions)[id := before];
    if !AcceptsAudio(contentType) {
      return Rejected(400, InvalidFileType);
    }

    // Step 1: transcribe.
    if CrashesAt(sv.crash, Transcribe) {
      return UnexpectedOutcome(id, |store.sessions[id]|, None, [], sv.crash.message, sv.fallbackAudio);
    }
    if sv.transcription.Err? {
      var fallbackMessage := FallbackMessages[SttError];
      return Responded(
        ChatResponse(false, fallbackMessage, sv.fallbackAudio, None, Some(fallbackMessage), id,
                     |store.sessions[id]|, Some(SttError), true),
        [TranscribeAudio, SynthesizeFallback(fallbackMessage, FallbackVoice, FallbackStyle)]);
    }
    var userMessage := sv.transcription.value;
    store.Append(id, Message("user", userMessage, sv.userTime));
    ghost var withUser := before + [Message("user", userMessage, sv.userTime)];
    assert store.sessions == old(store.sessions)[id := withUser];
    outcome := Respond(store, id, userMessage, sv);
    ReplaceTwice(old(store.sessions), id, withUser, ReplyPhase(withUser, userMessage, id, sv).history);
  }

  /** Steps 2 and 3 of `chat_with_history`, once the user's message is stored. */
  method Respond(store: SessionStore, id: string, userMessage: string, sv: Services) returns (outcome: TurnOutcome)
    requires store.Valid() && id in store.sessions
    modifies store
    ensures store.Valid() && store.order == old(store.order)
    ensures store.sessions == old(store.sessions)[id := ReplyPhase(old(store.sessions[id]), userMessage, id, sv).history]
    ensures outcome == ReplyPhase(old(store.sessions[id]), userMessage, id, sv).outcome
  {
    ghost var withUser := store.sessions[id];
    // Step 2: conversation context.
    if CrashesAt(sv.crash, Context) {
      return UnexpectedOutcome(id, |store.sessions[id]|, Some(userMessage), [TranscribeAudio],
                               sv.crash.message, sv.fallbackAudio);
    }
    var recent := Window(store.sessions[id]);
    var prompt := BuildPrompt(recent);

    // Step 3: generate, or fall back.
    if CrashesAt(sv.crash, Generate) {
      return UnexpectedOutcome(id, |store.sessions[id]|, Some(userMessage), [TranscribeAudio],
                               sv.crash.message, sv.fallbackAudio);
    }
    var calls := [TranscribeAudio, GenerateReply(prompt)];
    var assistantMessage;
    if sv.reply.Err? {
      assistantMessage := FallbackMessages[LlmError];
    } else {
      assistantMessage := sv.reply.value;
    }
    store.Append(id, Message("assistant", assistantMessage, sv.assistantTime));
    ghost var withReply := withUser + [Message("assistant", assistantMessage, sv.assistantTime)];
    outcome := Speak(store, id, userMessage, assistantMessage, calls, sv);
    ReplaceTwice(old(store.sessions), id, withReply, SpeechPhase(withReply, userMessage, assistantMessage, calls, id, sv).history);
  }

  /** Steps 4 to 6 of `chat_with_history`, once the reply is stored. */
  method Speak(store: SessionStore, id: string, userMessage: string, assistantMessage: string, calls: seq<Call>,
               sv: Services)
    returns (outcome: TurnOutcome)
    requires store.Valid() && id in store.sessions
    modifies store
    ensures store.Valid() && store.order == old(store.order)
    ensures store.sessions ==
              old(store.sessions)[id := SpeechPhase(old(store.sessions[id]), userMessage, assistantMessage, calls, id, sv).history]
    ensures outcome == SpeechPhase(old(store.sessions[id]), userMessage, assistantMessage, calls, id, sv).outcome
  {
    var errorType: Option<string> := None;
    var fallbackUsed := false;
    var llmError := sv.reply.Err?;
    if llmError {
      errorType := Some(LlmError);
      fallbackUsed := true;
    }

    // Step 4: truncate for speech.
    if CrashesAt(sv.crash, Truncate) {
      return UnexpectedOutcome(id, |store.sessions[id]|, Some(userMessage), calls, sv.crash.message, sv.fallbackAudio);
    }
    var ttsText := ChatTruncate(assistantMessage);

    // Step 5: synthesize; a speech failure is recorded only if nothing failed before.
    if CrashesAt(sv.crash, Synthesize) {
      return UnexpectedOutcome(id, |store.sessions[id]|, Some(userMessage), calls, sv.crash.message, sv.fallbackAudio);
    }
    var voice := if fallbackUsed then FallbackVoice else NormalVoice;
    var style := if fallbackUsed then FallbackStyle else NormalStyle;
    var spoken := calls + [SynthesizeReply(ttsText, voice, style)];
    var audioUrl := if sv.speech.Ok? then Some(sv.speech.value) else None;
    var ttsError := sv.speech.Err?;
    if ttsError && errorType == None {
      errorType := Some(TtsError);
    }

    // Step 6: trim and report.
    if CrashesAt(sv.crash, Finalize) {
      return UnexpectedOutcome(id, |store.sessions[id]|, Some(userMessage), spoken, sv.crash.message, sv.fallbackAudio);
    }
    ghost var withReply := store.sessions[id];
    store.Trim(id);
    var overallSuccess := !(llmError && !fallbackUsed);
    // Transcription succeeded on this path, so the first part is always the success one.
    var statusParts := [SpeechRecognized];
    if llmError {
      statusParts := statusParts + [UsingFallback];
    } else {
      statusParts := statusParts + [ReplyGenerated];
    }
    if ttsError {
      statusParts := statusParts + [AudioFailed];
    } else {
      statusParts := statusParts + [AudioGenerated];
    }
    assert statusParts == [SpeechRecognized, if llmError then UsingFallback else ReplyGenerated,
                           if ttsError then AudioFailed else AudioGenerated];
    var statusMessage := Join(statusParts, " | ");
    outcome := Responded(
      ChatResponse(overallSuccess, statusMessage, audioUrl, Some(userMessage), Some(assistantMessage), id,
                   |store.sessions[id]|, errorType, fallbackUsed),
      spoken);
  }

  /** The message stored for the user, and the one stored for the assistant, in a turn that got that far. */
  function UserEntry(sv: Services): Message
    requires sv.transcription.Ok?
  {
    Message("user", sv.transcription.value, sv.userTime)
  }

  function ReplyText(sv: Services): string {
    if sv.reply.Err? then FallbackMessages[LlmError] else sv.reply.value
  }

  function AssistantEntry(sv: Services): Message {
    Message("assistant", ReplyText(sv), sv.assistantTime)
  }

  /**
   * A turn succeeds exactly when the upload is audio, nothing unexpected is
   * raised and the audio is transcribed: a failed generation is always
   * replaced by the fallback, so it never makes the turn unsuccessful.
   */
  lemma SuccessIff(history: seq<Message>, id: string, contentType: Option<string>, sv: Services)
    ensures var st := RunTurn(history, id, contentType, sv);
            st.outcome.Responded? && st.outcome.response.success
            <==> AcceptsAudio(contentType) && sv.crash == NoCrash && sv.transcription.Ok?
  {
  }

  /**
   * Every response reports the length of the history the turn leaves behind,
   * and a turn adds at most its own two messages; a refused upload changes
   * nothing (beyond creating the empty session).
   */
  lemma {:induction false} CountMatchesHistory(history: seq<Message>, id: string, contentType: Option<string>, sv: Services)
    ensures var st := RunTurn(history, id, contentType, sv);
            (st.outcome.Responded? ==> st.outcome.response.messageCount == |st.history|
                                       && st.outcome.response.sessionId == id)
            && (st.outcome.Rejected? ==> st.history == history && st.outcome == Rejected(400, InvalidFileType))
            && |st.history| <= |history| + 2
  {
    if AcceptsAudio(contentType) && !CrashesAt(sv.crash, Transcribe) && sv.transcription.Ok? {
      var withUser := history + [UserEntry(sv)];
      if !CrashesAt(sv.crash, Context) && !CrashesAt(sv.crash, Generate) {
        var withReply := withUser + [AssistantEntry(sv)];
        assert RunTurn(history, id, contentType, sv).history == withReply || RunTurn(history, id, contentType, sv).history == Trimmed(withReply);
      }
    }
  }

  /**
   * A turn that runs to the end stores the transcript and the reply (or its
   * fallback) after the earlier messages, then applies the trim rule; it
   * calls the three services in order, prompting with a window that ends
   * with the new message, speaks the truncated reply, and reports the status
   * line of the three stages.
   */
  lemma {:induction false} CompletedTurn(history: seq<Message>, id: string, contentType: Option<string>, sv: Services)
    requires AcceptsAudio(contentType) && sv.crash == NoCrash && sv.transcription.Ok?
    ensures var st := RunTurn(history, id, contentType, sv);
            var withUser := history + [UserEntry(sv)];
            st.history == Trimmed(history + [UserEntry(sv), AssistantEntry(sv)])
            && |st.history| <= 2 * MaxHistoryMessages
            && st.outcome.Responded?
            && st.outcome.response.transcript == Some(sv.transcription.value)
            && st.outcome.response.llmResponse == Some(ReplyText(sv))
            && |st.outcome.calls| == 3
            && st.outcome.calls[0] == TranscribeAudio
            && st.outcome.calls[1] == GenerateReply(PromptText(Window(withUser)))
            && st.outcome.calls[2]
               == SynthesizeReply(ChatTruncate(ReplyText(sv)),
                                  if sv.reply.Ok? then NormalVoice else FallbackVoice,
                                  if sv.reply.Ok? then NormalStyle else FallbackStyle)
            && st.outcome.response.message
               == SpeechRecognized + " | " + (if sv.reply.Ok? then ReplyGenerated else UsingFallback)
                  + " | " + (if sv.speech.Err? then AudioFailed else AudioGenerated)
            && EndsWith(Transcript(Window(withUser)), Block(UserEntry(sv)))
  {
    var withUser := history + [UserEntry(sv)];
    assert withUser + [AssistantEntry(sv)] == history + [UserEntry(sv), AssistantEntry(sv)];
    NewestLast(history, UserEntry(sv));
    JoinThree(SpeechRecognized, if sv.reply.Ok? then ReplyGenerated else UsingFallback,
              if sv.speech.Err? then AudioFailed else AudioGenerated, " | ");
  }

  /**
   * When generation fails the fallback sentence is stored and spoken in the
   * neutral fallback voice, the error class is the generation one whatever
   * happens to speech, and the status line says so.
   */
  lemma FallbackReply(history: seq<Message>, id: string, contentType: Option<string>, sv: Services)
    requires AcceptsAudio(contentType) && sv.crash == NoCrash && sv.transcription.Ok? && sv.reply.Err?
    ensures var st := RunTurn(history, id, contentType, sv);
            st.history == Trimmed(history + [UserEntry(sv), Message("assistant", FallbackMessages[LlmError], sv.assistantTime)])
            && st.outcome.Responded?
            && st.outcome.response.llmResponse == Some(FallbackMessages[LlmError])
            && st.outcome.response.errorType == Some(LlmError)
            && st.outcome.response.fallbackUsed && st.outcome.response.success
            && st.outcome.calls[2] == SynthesizeReply(ChatTruncate(FallbackMessages[LlmError]), FallbackVoice, FallbackStyle)
            && st.outcome.response.message
               == SpeechRecognized + " | " + UsingFallback + " | " + (if sv.speech.Err? then AudioFailed else AudioGenerated)
  {
    var userMessage, fallbackMessage := sv.transcription.value, FallbackMessages[LlmError];
    var withUser := history + [UserEntry(sv)];
    var withReply := withUser + [Message("assistant", fallbackMessage, sv.assistantTime)];
    var calls := [TranscribeAudio, GenerateReply(PromptText(Window(withUser)))];
    assert withReply == history + [UserEntry(sv), Message("assistant", fallbackMessage, sv.assistantTime)];
    var audioUrl := if sv.speech.Ok? then Some(sv.speech.value) else None;
    var kept := Trimmed(withReply);
    assert RunTurn(history, id, contentType, sv) == ReplyPhase(withUser, userMessage, id, sv)
        == SpeechPhase(withReply, userMessage, fallbackMessage, calls, id, sv)
        == TurnState(kept, Responded(
             ChatResponse(true, StatusMessage(true, sv.speech.Err?), audioUrl, Some(userMessage), Some(fallbackMessage),
                          id, |kept|, Some(LlmError), true),
             calls + [SynthesizeReply(ChatTruncate(fallbackMessage), FallbackVoice, FallbackStyle)]));
    JoinThree(SpeechRecognized, UsingFallback, if sv.speech.Err? then AudioFailed else AudioGenerated, " | ");
  }

  /**
   * The error class of a completed turn: generation failure first, then
   * speech failure, else none; the synthesizer's audio link is returned
   * exactly when speech succeeded, and the normal voice is used exactly when
   * generation did.
   */
  lemma ErrorPrecedence(history: seq<Message>, id: string, contentType: Option<string>, sv: Services)
    requires AcceptsAudio(contentType) && sv.crash == NoCrash && sv.transcription.Ok?
    ensures var st := RunTurn(history, id, contentType, sv);
            st.outcome.Responded?
            && st.outcome.response.errorType
               == (if sv.reply.Err? then Some(LlmError) else if sv.speech.Err? then Some(TtsError) else None)
            && st.outcome.response.audioUrl == (if sv.speech.Ok? then Some(sv.speech.value) else None)
            && (st.outcome.response.fallbackUsed <==> sv.reply.Err?)
            && (st.outcome.calls[2].voice == NormalVoice <==> sv.reply.Ok?)
  {
  }

  /**
   * A failed transcription answers with the speech-recognition fallback,
   * stores nothing, and asks only for the fallback audio.
   */
  lemma TranscriptionFailure(history: seq<Message>, id: string, contentType: Option<string>, sv: Services)
    requires AcceptsAudio(contentType) && !CrashesAt(sv.crash, Transcribe) && sv.transcription.Err?
    ensures var st := RunTurn(history, id, contentType, sv);
            st.history == history
            && st.outcome.Responded?
            && !st.outcome.response.success && st.outcome.response.fallbackUsed
            && st.outcome.response.transcript == None
            && st.outcome.response.message == FallbackMessages[SttError]
            && st.outcome.response.llmResponse == Some(FallbackMessages[SttError])
            && st.outcome.response.errorType == Some(SttError)
            && st.outcome.response.audioUrl == sv.fallbackAudio
            && st.outcome.calls == [TranscribeAudio, SynthesizeFallback(FallbackMessages[SttError], FallbackVoice, FallbackStyle)]
  {
  }

  /**
   * An unexpected exception is answered, never propagated: the response is
   * unsuccessful, names the class picked from the exception's text, offers
   * that class's fallback sentence, and keeps whatever messages were stored
   * before it, untrimmed.
   */
  lemma CrashRecovery(history: seq<Message>, id: string, contentType: Option<string>, sv: Services)
    requires AcceptsAudio(contentType) && sv.crash.CrashAt?
    requires sv.crash.step == Transcribe || sv.transcription.Ok?
    ensures var st := RunTurn(history, id, contentType, sv);
            var kind := GetErrorType(sv.crash.message);
            st.outcome.Responded?
            && !st.outcome.response.success && st.outcome.response.fallbackUsed
            && st.outcome.response.errorType == Some(kind) && kind in FallbackMessages
            && st.outcome.response.llmResponse == Some(FallbackMessages[kind])
            && st.outcome.response.message == "Unexpected error occurred: " + FallbackMessages[kind]
            && st.outcome.response.audioUrl == sv.fallbackAudio
            && st.outcome.response.transcript
               == (if sv.crash.step == Transcribe then None else Some(sv.transcription.value))
            && st.outcome.calls[|st.outcome.calls| - 1] == SynthesizeFallback(FallbackMessages[kind], FallbackVoice, FallbackStyle)
            && st.history == match sv.crash.step
                             case Transcribe => history
                             case Context => history + [UserEntry(sv)]
                             case Generate => history + [UserEntry(sv)]
                             case _ => history + [UserEntry(sv), AssistantEntry(sv)]
  {
    var kind := GetErrorType(sv.crash.message);
    if sv.crash.step != Transcribe {
      var withUser := history + [UserEntry(sv)];
      assert RunTurn(history, id, contentType, sv) == ReplyPhase(withUser, sv.transcription.value, id, sv);
      if sv.crash.step != Context && sv.crash.step != Generate {
        var withReply := withUser + [AssistantEntry(sv)];
        assert withReply == history + [UserEntry(sv), AssistantEntry(sv)];
      }
    }
  }

  /** Because a crash skips the trim, a session can be left above the 40-message bound. */
  lemma CrashSkipsTrim(history: seq<Message>, id: string, sv: Services)
    requires |history| == 2 * MaxHistoryMessages && sv.transcription.Ok?
    requires sv.crash.CrashAt? && sv.crash.step == Finalize
    ensures |RunTurn(history, id, Some("audio/webm"), sv).history| == 2 * MaxHistoryMessages + 2
  {
    assert AcceptsAudio(Some("audio/webm"));
    CrashRecovery(history, id, Some("audio/webm"), sv);
  }

  /** A first turn in a new session: two messages stored, both echoed back. */
  lemma FirstTurn(id: string, userTime: string, assistantTime: string)
    ensures var sv := Services(Ok("Hello"), Ok("Hi there!"), Ok("a1"), None, NoCrash, userTime, assistantTime);
            var st := RunTurn([], id, Some("audio/webm"), sv);
            st.history == [Message("user", "Hello", userTime), Message("assistant", "Hi there!", assistantTime)]
            && st.outcome.Responded?
            && st.outcome.response.success
            && st.outcome.response.transcript == Some("Hello")
            && st.outcome.response.llmResponse == Some("Hi there!")
            && st.outcome.response.audioUrl == Some("a1")
            && st.outcome.response.messageCount == 2
            && st.outcome.response.errorType == None
            && !st.outcome.response.fallbackUsed
  {
    var sv := Services(Ok("Hello"), Ok("Hi there!"), Ok("a1"), None, NoCrash, userTime, assistantTime);
    assert AcceptsAudio(Some("audio/webm"));
    CompletedTurn([], id, Some("audio/webm"), sv);
  }

  lemma ReplaceTwice<K, V>(m: map<K, V>, k: K, a: V, b: V)
    ensures m[k := a][k := b] == m[k := b]
  {
  }
}
