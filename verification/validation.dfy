/**
 * The request checks that run before any service is called: the audio
 * media type of an upload, the length limits on text sent to speech
 * synthesis and to the language model, and the extension given to a saved
 * upload.
 */
module Validation {
  import opened Wrappers
  import opened Text

  const MaxSpeechChars := 5000
  const MaxQueryChars := 8000
  const InvalidFileType := "Invalid file type. Only audio files are allowed."

  /** A request-level check: accepted, or rejected with an HTTP status and detail. */
  datatype Check = Accept | Reject(status: nat, detail: string)

  /** `content_type and content_type.startswith('audio/')`; a missing type is refused. */
  function AcceptsAudio(contentType: Option<string>): (ok: bool)
    ensures ok <==> contentType.Some? && |contentType.value| >= 6
                    && contentType.value == "audio/" + contentType.value[6..]
  {
    contentType.Some? && StartsWith(contentType.value, "audio/")
  }

  /**
   * The speech endpoint's checks: a text that is blank once stripped is
   * refused first; the 5000-character limit applies to the text as sent,
   * surrounding whitespace included.
   */
  function ValidateSpeechText(text: string): (c: Check)
    ensures c.Accept? <==> !Blank(text) && |text| <= MaxSpeechChars
    ensures Blank(text) ==> c == Reject(400, "Text cannot be empty.")
    ensures !Blank(text) && |text| > MaxSpeechChars ==>
              c == Reject(400, "Text is too long. Please limit to 5000 characters.")
  {
    if Blank(text) then Reject(400, "Text cannot be empty.")
    else if |text| > MaxSpeechChars then Reject(400, "Text is too long. Please limit to 5000 characters.")
    else Accept
  }

  /** The query endpoint's checks on the query text: empty first, then too long. */
  function ValidateQueryText(query: string): (c: Check)
    ensures c.Accept? <==> 0 < |query| <= MaxQueryChars
    ensures c.Reject? ==> c.status == 400
    ensures |query| == 0 ==> c == Reject(400, "Query text cannot be empty.")
    ensures |query| > MaxQueryChars ==> c == Reject(400, "Query text is too long. Please limit to 8000 characters.")
  {
    if |query| == 0 then Reject(400, "Query text cannot be empty.")
    else if |query| > MaxQueryChars then Reject(400, "Query text is too long. Please limit to 8000 characters.")
    else Accept
  }

  /**
   * The extension of a saved upload: what follows the last '.' of the file
   * name, or "wav" when the name has no '.'.
   */
  function UploadExtension(filename: string): (ext: string)
    ensures '.' !in filename ==> ext == "wav"
    ensures '.' in filename ==> '.' !in ext && EndsWith(filename, "." + ext)
  {
    if '.' in filename then filename[LastIndexOf(filename, '.') + 1..] else "wav"
  }
}
