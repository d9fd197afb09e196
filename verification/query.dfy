/**
 * The pure parts of the single-shot query endpoint: the length checks on the
 * query text, the message shown to the caller (built from the untruncated
 * reply) and the word count of the text that was sent to speech synthesis.
 */
module Query {
  import opened Text
  import opened Truncation

  const DisplayChars := 500
  const ResponsePrefix := "LLM responded: "
  const TruncationNote := " (Note: Audio response was truncated to 3000 characters due to TTS limits)"

  function Min(a: int, b: int): int {
    if a <= b then a else b
  }

  /**
   * The response message: at most the first 500 characters of the full reply
   * (with "..." when there were more), then the truncation note exactly when
   * the reply exceeded the speech budget.
   */
  function QueryMessage(fullReply: string): (m: string)
    ensures StartsWith(m, ResponsePrefix + fullReply[..Min(DisplayChars, |fullReply|)])
    ensures |m| == |ResponsePrefix| + Min(DisplayChars, |fullReply|)
                   + (if |fullReply| > DisplayChars then |Ellipsis| else 0)
                   + (if |fullReply| > MaxMurfChars then |TruncationNote| else 0)
    ensures |fullReply| > DisplayChars ==>
              m[|ResponsePrefix| + DisplayChars..|ResponsePrefix| + DisplayChars + |Ellipsis|] == Ellipsis
    ensures |fullReply| > MaxMurfChars ==> EndsWith(m, TruncationNote)
  {
    var shown := fullReply[..Min(DisplayChars, |fullReply|)];
    var head := ResponsePrefix + shown + (if |fullReply| > DisplayChars then Ellipsis else "");
    if |fullReply| > MaxMurfChars then head + TruncationNote else head
  }

  /** Position `i` begins a whitespace-separated word. */
  predicate StartsWord(s: string, i: nat)
    requires i < |s|
  {
    !IsSpace(s[i]) && (i == 0 || IsSpace(s[i - 1]))
  }

  /** `len(s.split())`: the number of maximal runs of non-whitespace characters. */
  function WordCount(s: string): nat {
    if |s| == 0 then 0
    else WordCount(s[..|s| - 1]) + (if StartsWord(s, |s| - 1) then 1 else 0)
  }

  /** A text has no words exactly when it is blank. */
  lemma {:induction false} WordCountZeroIffBlank(s: string)
    ensures WordCount(s) == 0 <==> Blank(s)
  {
    if |s| > 0 {
      var init := s[..|s| - 1];
      WordCountZeroIffBlank(init);
      if Blank(s) {
        forall i | 0 <= i < |init| ensures IsSpace(init[i]) {
          assert init[i] == s[i];
        }
      }
      if WordCount(s) == 0 {
        forall i | 0 <= i < |s| ensures IsSpace(s[i]) {
          if i < |s| - 1 {
            assert s[i] == init[i];
          } else if i > 0 {
            assert s[i - 1] == init[i - 1];
          }
        }
      }
    }
  }

  /** The word count the query endpoint reports for a non-blank reply is positive: truncation never leaves a blank text. */
  lemma QueryReplyWords(fullReply: string)
    requires !Blank(fullReply)
    ensures WordCount(QueryTruncate(fullReply)) > 0
  {
    var spoken := QueryTruncate(fullReply);
    if |fullReply| <= MaxMurfChars {
      WordCountZeroIffBlank(spoken);
    } else {
      assert !Blank(spoken) by {
        if KeepsSentence(fullReply) {
          assert !IsSpace(spoken[|spoken| - 1]);
        } else {
          assert spoken[|spoken| - 1] == '.';
        }
      }
      WordCountZeroIffBlank(spoken);
    }
  }
}
