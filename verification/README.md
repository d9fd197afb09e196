# Voice chat agent core, in Dafny

This project models the deterministic core of a FastAPI voice-chat
service (`main.py`). The service turns recorded speech into a spoken
reply by calling three outside services: speech recognition, a language
model and speech synthesis. It keeps each conversation in an in-memory
session store. The modelled core is:

- **Error classes** (`errors.dfy`, module `Errors`). The five error classes
  with their fixed apology sentences, and `get_error_type`, which picks a
  class from the lower-cased text of an exception by an ordered keyword
  search.
- **Truncation for speech** (`truncation.dfy`, module `Truncation`). The
  two inline blocks that bound a reply to the synthesizer's
  3000-character budget. The chat turn's block cuts at the window's last
  space when that space is past index 0, and otherwise keeps the whole
  window. The single-shot query's block only accepts a
  space past the 90% mark.
- **Query response text** (`query.dfy`, module `Query`). The message the
  query endpoint shows: the first 500 characters of the untruncated
  reply, plus the truncation note. Also the word count it reports.
- **Request checks** (`validation.dfy`, module `Validation`). The audio
  media-type check, the empty and too-long checks on text, and the
  extension given to a saved upload.
- **Session store** (`sessions.dfy`, module `Sessions`). `chat_sessions` is
  modelled as the class `SessionStore`. It holds a map from session id to
  messages and the key insertion order that a Python dict iterates in.
  Its operations are: create-on-read (the `defaultdict`), append, the
  20-message window, the trim rule, and the history, clear and
  list-sessions endpoints.
- **Prompt** (`prompt.dfy`, module `Prompt`). The loop that renders the
  window of recent messages into the language-model prompt.
- **A chat turn** (`turn.dfy`, module `Turn`). `chat_with_history` as a
  method on the store, proved equal, step by step, to the function
  `RunTurn`. The turn runs:
  - transcribe, then store the user message;
  - build the prompt, then generate a reply or fall back;
  - store the reply, truncate it, then synthesize it;
  - trim the session, then report.

  The outside services are inputs of type `Services`:
  - each service's `(value, error)` pair becomes `Reply<string>`, either
    `Ok` or `Err`;
  - the fallback speech helper's result becomes an `Option<string>`;
  - an unexpected exception becomes `CrashAt(step, message)`, raised at
    the start of one of the six numbered steps;
  - the two message timestamps are plain parameters.

  The response lists the calls the turn made on the outside services, in
  order: the transcription request, the prompt, and the text, voice and
  style sent to synthesis.

`text.dfy` holds the string operations the code relies on, restated over
`seq<char>`: `lower`, `strip`-emptiness, `in`, `startswith`/`endswith`,
`rfind`, `join` and `str(int)`. It also holds the `Option`/`Reply` types.

The `0.8 * 3000` and `0.9 * 3000` thresholds are exact, so they are
written as the integer comparisons `5 * i > 4 * 3000` and
`10 * i > 9 * 3000`.

Points where the code's behaviour is easy to misread:

- **Strict thresholds.** The sentence cut needs its sentence end strictly
  past index 2400, and the query's space cut needs its space strictly past
  index 2700. The comment at main.py:714 speaks of "at least 80%".
- **Truncation is not idempotent.** Truncating an already truncated reply
  changes it exactly when the word cut landed on a space at index 2998 or
  2999. The cut text plus "..." is then longer than 3000 characters, and
  the second pass keeps its sentence end ("..."). `ChatTruncateTwice` and
  `QueryTruncateTwice` prove this as an if-and-only-if, and
  `ChatTruncateNotIdempotent` gives an input where it happens.
- **Empty sessions.** Every chat turn creates the session, even when the
  upload is refused. Such empty sessions are never listed, but they are
  visible to `clear`.
- **A crash skips the trim.** An unexpected exception after the reply
  was stored skips the trim, so a session can hold 42 messages
  (`CrashSkipsTrim`).
- **"text_to_speech" is a recognition error.** An exception whose text
  names `text_to_speech` is classed as a speech-recognition error,
  because "speech" is searched first (`TextToSpeechIsStt`).

## Model

| member | source | states |
|---|---|---|
| Text.LastIndexOf | main.py:905-914 | `rfind`: -1 when the character is absent, otherwise an index holding it with none after it |
| Text.JoinThree | main.py:968 | joining three status parts puts the separator between neighbours, in order |
| Errors.GetErrorType | main.py:45-58 | the lower-cased text is checked against the keyword groups in the order recognition, generation, synthesis, connection, and the first group that occurs decides the class; the class is the general one exactly when no group occurs, and is always a key of the fallback table |
| Errors.FallbackFor | main.py:999 | a known class maps to its own sentence; any other string maps to the general sentence |
| Errors.SpeechAnywhereIsStt | main.py:47-50 | "speech" at any position, in any letter case, makes the text a speech-recognition error, whatever else it mentions |
| Errors.TextToSpeechIsStt | main.py:49-54 | text naming `text_to_speech` is classed as a speech-recognition error, never as a synthesis error |
| Errors.FallbackDefaultUnused | main.py:998-999 | the `.get` default is never taken: the sentence is always the class's own |
| Truncation.LastSentenceEnd | main.py:905-909 | the largest index holding '.', '!' or '?', or -1, with no terminator after it |
| Truncation.ChatTruncate | main.py:899-916 | a reply of at most 3000 characters is unchanged. A longer one ends after the window's last sentence end when that is past index 2400. Otherwise it is the window cut at its last space (the whole window when there is none past index 0), followed by "...". The result has at most 3003 characters |
| Truncation.QueryTruncate | main.py:699-722 | the same, except that the space cut applies only past index 2700; otherwise the whole window gets "..." |
| Truncation.ElidedTwice | main.py:702-722 | truncating the output of a word cut again returns it unchanged exactly when the cut did not land on index 2998 or 2999 |
| Truncation.ChatTruncateTwice | main.py:902-916 | chat truncation is a fixed point on its own output exactly when the word cut does not land on a space at index 2998 or 2999 |
| Truncation.QueryTruncateTwice | main.py:702-722 | the same for query truncation |
| Truncation.ChatTruncateNotIdempotent | main.py:914-916 | some reply (3001 spaces) changes when truncated twice |
| Query.QueryMessage | main.py:753-758 | the message starts with "LLM responded: " and the first 500 characters of the full reply, followed by "..." when the reply is longer than 500. Its length accounts for the "..." (exactly when the reply is longer than 500) and the note (exactly when it is longer than 3000). It ends with the note when the reply was truncated |
| Query.WordCountZeroIffBlank | main.py:765 | `len(s.split())` is zero exactly when the text is blank |
| Query.QueryReplyWords | main.py:699-722 | a non-blank reply still has at least one word after query truncation |
| Validation.AcceptsAudio | main.py:814 | an upload is accepted exactly when its media type is present and starts with "audio/" |
| Validation.ValidateSpeechText | main.py:291-301 | blank text is refused first; then text over 5000 characters (whitespace counted) is refused; everything else is accepted |
| Validation.ValidateQueryText | main.py:670-680 | empty text is refused first ("Query text cannot be empty."); then text over 8000 characters ("Query text is too long. Please limit to 8000 characters."), both with status 400; everything else is accepted |
| Validation.UploadExtension | main.py:383 | "wav" when the file name has no '.', otherwise the dot-free tail after the last '.' |
| Sessions.Window | main.py:860 | the last min(n, 20) messages, as a suffix in stored order |
| Sessions.Trimmed | main.py:944-945 | at most 40 messages are kept as they are; more are replaced by the last 20; never more than 40 remain |
| Sessions.Without | main.py:1045 | deleting a key keeps exactly the other keys, keeps keys distinct, and changes nothing when the key is absent |
| Sessions.WithoutAt | main.py:1045 | deleting a key found at position i of distinct keys leaves the keys before it followed by the keys after it, each in their old order: the order `list_sessions` then iterates |
| Sessions.SummariesSound | main.py:1063-1071 | every listed entry is a stored, non-empty session, with its true count and its first and last timestamps |
| Sessions.SummariesComplete | main.py:1064-1065 | every non-empty session is listed |
| Sessions.SummariesOnce | main.py:1064 | no session is listed twice |
| Sessions.ListingIsExact | main.py:1063-1076 | a session is listed exactly when it is non-empty, and at most once |
| Sessions.SessionStore.constructor | main.py:30 | the store starts empty |
| Sessions.SessionStore.Touch | main.py:810 | reading a session through the `defaultdict` creates a missing one, empty and last in order; nothing else changes |
| Sessions.SessionStore.Append | main.py:850-854 | the message goes after the session's earlier messages; other sessions are unchanged |
| Sessions.SessionStore.Trim | main.py:944-945 | the session is replaced by its trimmed form; other sessions are unchanged |
| Sessions.SessionStore.GetHistory | main.py:1025-1032 | reports the stored messages and their count, or none for an unknown id, without creating it |
| Sessions.SessionStore.Clear | main.py:1043-1056 | the session is removed, with key order otherwise kept. Success is always reported; the message gives the removed count, or says the session was not found |
| Sessions.SessionStore.ListSessions | main.py:1063-1076 | the entries are the summaries of the non-empty sessions in key order; the total is their number |
| Prompt.BuildPrompt | main.py:863-871 | the prompt is the preamble, one block per message in order, then the continuation sentence when more than one message was used |
| Prompt.TranscriptAppend | main.py:865-867 | rendering two runs of messages renders the first run before the second |
| Prompt.BlockInPlace | main.py:865-867 | each message's block follows those of all earlier messages and precedes those of all later ones |
| Prompt.TranscriptEndsBlank | main.py:867 | a non-empty rendering ends with a blank line |
| Prompt.ContinuationIff | main.py:870-871 | the prompt ends with the continuation sentence exactly when more than one message was used |
| Prompt.NewestLast | main.py:850-867 | the message appended last is rendered last |
| Turn.ChatTurn | main.py:796-1014 | the store afterwards holds the turn's history for this session, other sessions are unchanged, a new id joins the key order last, and the response is that of `RunTurn` |
| Turn.Respond | main.py:856-895 | steps 2 and 3 against the store agree with the reply phase of `RunTurn` |
| Turn.Speak | main.py:897-988 | steps 4 to 6 against the store agree with the speech phase of `RunTurn` |
| Turn.SuccessIff | main.py:949 | a turn succeeds exactly when the upload is audio, nothing unexpected is raised, and transcription succeeds |
| Turn.CountMatchesHistory | main.py:842 | every response's count is the length of the session it leaves, and a turn adds at most two messages. A refused upload leaves the messages alone and answers 400 with the fixed detail. The same count is reported at lines 985 and 1011 |
| Turn.CompletedTurn | main.py:850-980 | a completed turn stores the user's and then the assistant's message and applies the trim rule (at most 40 remain). It calls transcription, then generation with the window prompt ending in the new message, then synthesis of the truncated reply, in en-US-claire/Cheerful after a generated reply and en-US-ken/Neutral after the fallback. It reports the transcript, the untruncated reply, and the status line of three parts (speech recognized; reply generated or fallback used; audio generated or failed), joined by the separator of main.py:968 |
| Turn.FallbackReply | main.py:881-886 | after a generation failure, the fallback sentence is stored after the user's message (then trimmed) and reported with the generation error class. It is spoken in en-US-ken/Neutral, the turn still succeeds, and the status line reads recognized, fallback, then the audio part. Voice and style are chosen at lines 924-925 and the status parts at lines 952-968 |
| Turn.ErrorPrecedence | main.py:929-981 | the error class is generation first, then synthesis, else none. The audio link is the synthesizer's own when synthesis succeeded, and none otherwise. The fallback flag and the fallback voice go with a failed generation |
| Turn.TranscriptionFailure | main.py:825-845 | a failed transcription stores nothing and answers unsuccessfully with the recognition fallback sentence, no transcript and the recognition error class. Its only further call is for fallback speech |
| Turn.CrashRecovery | main.py:995-1014 | an unexpected exception is answered unsuccessfully, with the class read from its text and that class's sentence, and fallback speech is requested; the response carries the fallback audio link and the transcript when one was obtained (none for a crash during transcription). The messages stored before it stay, untrimmed |
| Turn.CrashSkipsTrim | main.py:944-945 | a crash in the last step leaves a 40-message session at 42 messages |
| Turn.FirstTurn | main.py:850-988 | a first turn with "Hello" answered "Hi there!" stores both messages and reports them with a count of 2, no error and no fallback |

## Left out

- HTTP plumbing is not modelled: FastAPI routing, CORS, static files, the HTML page and favicon fallbacks, the health endpoint and its counts, and the `HTTPException` machinery. A refused request is the value `Rejected(status, detail)`.
- The speech-recognition, language-model and speech-synthesis SDK calls are not modelled. Neither are the `safe_*` wrappers around them, their `hasattr` response-shape checks, client set-up from environment variables, or `generate_fallback_tts`. Their results are inputs to the turn. Their error strings are never empty, so Python's truthiness test on them is modelled as `Err?`.
- Reading and saving uploads, `datetime.now()` and `print` logging are I/O and clock. Timestamps are parameters of the turn, and the saved file name is reduced to its extension rule.
- The echo, transcribe and text-to-speech endpoints and the rest of the query endpoint are not modelled. That includes its form/JSON input handling, its service checks and its own service calls. Only their shared validators, the query truncation, the query message and the word count are modelled.
- `async`/`await` and concurrent turns on one session are not modelled: turns are sequential calls on the store.
- An unexpected exception is modelled only at the start of one of the turn's six numbered steps. An exception part-way through a step (for example between the trim and the report) is not modelled.
- `str.lower`, `str.strip`/`isspace` and `str.split` are modelled for ASCII letters and whitespace only, not full Unicode.
- The transcript-failure status part ("Speech recognition failed") is not modelled. The code only reaches the status line after a successful transcription, so that branch is dead.
- Turn.CountMatchesHistory: states the bound `|history| <= old length + 2` rather than the exact length of each crash path. `Turn.CrashRecovery` states the exact histories.
