/**
 * Error classes and their fixed apology sentences, and the keyword
 * classifier applied to the text of an unexpected exception.
 */
module Errors {
  import opened Text

  const SttError := "stt_error"
  const LlmError := "llm_error"
  const TtsError := "tts_error"
  const ConnectionError := "connection_error"
  const GeneralError := "general_error"

  /** One user-facing sentence per error class. */
  const FallbackMessages: map<string, string> := map[
    SttError := "I'm having trouble hearing you right now. Please check your microphone and try again.",
    LlmError := "I'm having trouble thinking right now. My AI brain needs a moment to reconnect.",
    TtsError := "I'm having trouble speaking right now, but I can still understand you.",
    ConnectionError := "I'm having trouble connecting to my services right now. Please try again in a moment.",
    GeneralError := "Something went wrong on my end. Let me try to help you differently."
  ]

  predicate MentionsStt(t: string) {
    Contains(t, "assemblyai") || Contains(t, "transcription") || Contains(t, "speech")
  }

  predicate MentionsLlm(t: string) {
    Contains(t, "gemini") || Contains(t, "llm") || Contains(t, "generate_content")
  }

  predicate MentionsTts(t: string) {
    Contains(t, "murf") || Contains(t, "tts") || Contains(t, "text_to_speech")
  }

  predicate MentionsConnection(t: string) {
    Contains(t, "connection") || Contains(t, "network") || Contains(t, "timeout")
  }

  /**
   * `get_error_type`: the lower-cased exception text is checked against the
   * keyword groups in a fixed order and the first group that matches decides.
   * The class is always a key of the fallback table.
   */
  function GetErrorType(exceptionText: string): (r: string)
    ensures r in FallbackMessages
    ensures var t := Lower(exceptionText); MentionsStt(t) ==> r == SttError
    ensures var t := Lower(exceptionText); !MentionsStt(t) && MentionsLlm(t) ==> r == LlmError
    ensures var t := Lower(exceptionText); !MentionsStt(t) && !MentionsLlm(t) && MentionsTts(t) ==> r == TtsError
    ensures var t := Lower(exceptionText);
              !MentionsStt(t) && !MentionsLlm(t) && !MentionsTts(t) && MentionsConnection(t) ==> r == ConnectionError
    ensures r == GeneralError <==>
      var t := Lower(exceptionText);
      !MentionsStt(t) && !MentionsLlm(t) && !MentionsTts(t) && !MentionsConnection(t)
  {
    var t := Lower(exceptionText);
    if MentionsStt(t) then SttError
    else if MentionsLlm(t) then LlmError
    else if MentionsTts(t) then TtsError
    else if MentionsConnection(t) then ConnectionError
    else GeneralError
  }

  /** `FALLBACK_MESSAGES.get(kind, FALLBACK_MESSAGES["general_error"])`. */
  function FallbackFor(kind: string): (r: string)
    ensures kind in FallbackMessages ==> r == FallbackMessages[kind]
    ensures kind !in FallbackMessages ==> r == FallbackMessages[GeneralError]
  {
    if kind in FallbackMessages then FallbackMessages[kind] else FallbackMessages[GeneralError]
  }

  /** Lower-casing commutes with taking a slice. */
  lemma LowerSlice(s: string, i: nat, j: nat)
    requires i <= j <= |s|
    ensures Lower(s)[i..j] == Lower(s[i..j])
  {
  }

  /**
   * "speech" written anywhere in the exception text, in any letter case,
   * makes it a speech-recognition error, whatever else the text mentions.
   */
  lemma SpeechAnywhereIsStt(exceptionText: string, i: nat)
    requires i + 6 <= |exceptionText|
    requires Lower(exceptionText[i..i + 6]) == "speech"
    ensures GetErrorType(exceptionText) == SttError
  {
    LowerSlice(exceptionText, i, i + 6);
    ContainsAt(Lower(exceptionText), "speech", i);
  }

  /**
   * An exception naming the speech-synthesis call `text_to_speech` is
   * classified as a speech-recognition error: "speech" is checked first, so
   * the `text_to_speech` keyword of the synthesis group can never decide.
   */
  lemma TextToSpeechIsStt(exceptionText: string)
    requires Contains(Lower(exceptionText), "text_to_speech")
    ensures GetErrorType(exceptionText) == SttError
  {
    assert "text_to_speech"[8..14] == "speech";
    ContainsInner(Lower(exceptionText), "text_to_speech", 8, "speech");
  }

  /** The `.get` default in the catch-all handler is never the one used. */
  lemma FallbackDefaultUnused(exceptionText: string)
    ensures FallbackFor(GetErrorType(exceptionText)) == FallbackMessages[GetErrorType(exceptionText)]
    ensures GetErrorType(exceptionText) != GeneralError ==>
      FallbackFor(GetErrorType(exceptionText)) != FallbackMessages[GeneralError]
  {
  }
}
