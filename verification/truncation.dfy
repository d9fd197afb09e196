/**
 * The two inline truncations that bound a reply to the speech service's
 * 3000-character budget: the chat turn's (`ChatTruncate`) and the
 * single-shot query's (`QueryTruncate`). Both keep the window of the first
 * 3000 characters, prefer to end after the last sentence end past the 80%
 * mark (index > 2400), and otherwise cut at a space and append "...". They
 * differ only in which space they accept: the chat cut takes the last space
 * at any index > 0, the query cut only one past the 90% mark (index > 2700).
 */
module Truncation {
  import opened Text

  const MaxMurfChars := 3000
  const Ellipsis := "..."

  predicate IsTerminator(c: char) {
    c == '.' || c == '!' || c == '?'
  }

  /** `max(w.rfind('.'), w.rfind('!'), w.rfind('?'))`. */
  function LastSentenceEnd(w: string): (r: int)
    ensures -1 <= r < |w|
    ensures r >= 0 ==> IsTerminator(w[r])
    ensures forall j :: r < j < |w| ==> !IsTerminator(w[j])
  {
    var period, bang, question := LastIndexOf(w, '.'), LastIndexOf(w, '!'), LastIndexOf(w, '?');
    if period >= bang && period >= question then period
    else if bang >= question then bang
    else question
  }

  /** The window holds a sentence end strictly past the 80% mark (`i > 3000 * 0.8`). */
  ghost predicate KeepsSentence(text: string)
    requires |text| >= MaxMurfChars
  {
    exists j :: 4 * MaxMurfChars < 5 * j < 5 * MaxMurfChars && IsTerminator(text[j])
  }

  /** `r` is `text` up to and including the last sentence end of the window, found past the 80% mark. */
  ghost predicate CutAfterSentence(text: string, r: string)
    requires |text| >= MaxMurfChars
  {
    4 * MaxMurfChars < 5 * (|r| - 1) && |r| <= MaxMurfChars && r == text[..|r|]
    && IsTerminator(r[|r| - 1])
    && forall j :: |r| <= j < MaxMurfChars ==> !IsTerminator(text[j])
  }

  /**
   * `c` is where a word cut lands: the last space of the window at an index
   * above `floor` when there is one, the end of the window otherwise.
   */
  ghost predicate SpaceCut(text: string, floor: nat, c: int)
    requires |text| >= MaxMurfChars
  {
    if exists j :: floor < j < MaxMurfChars && text[j] == ' ' then
      floor < c < MaxMurfChars && text[c] == ' ' && forall j :: c < j < MaxMurfChars ==> text[j] != ' '
    else
      c == MaxMurfChars
  }

  /** `r` is a prefix of `text` ending at the word cut, followed by "...". */
  ghost predicate CutWithEllipsis(text: string, floor: nat, r: string)
    requires |text| >= MaxMurfChars
  {
    3 <= |r| && SpaceCut(text, floor, |r| - 3) && r == text[..|r| - 3] + Ellipsis
  }

  /** Chat-path truncation (the text sent to speech synthesis after a turn's reply). */
  function ChatTruncate(text: string): (r: string)
    ensures |text| <= MaxMurfChars ==> r == text
    ensures |text| > MaxMurfChars && KeepsSentence(text) ==> CutAfterSentence(text, r)
    ensures |text| > MaxMurfChars && !KeepsSentence(text) ==> CutWithEllipsis(text, 0, r)
    ensures |r| <= MaxMurfChars + |Ellipsis|
  {
    if |text| <= MaxMurfChars then text
    else
      var window := text[..MaxMurfChars];
      var lastSentence := LastSentenceEnd(window);
      if 5 * lastSentence > 4 * MaxMurfChars then
        window[..lastSentence + 1]
      else
        var lastSpace := LastIndexOf(window, ' ');
        (if lastSpace > 0 then window[..lastSpace] else window) + Ellipsis
  }

  /** Query-path truncation: a space cut only counts past the 90% mark (`i > 3000 * 0.9`). */
  function QueryTruncate(text: string): (r: string)
    ensures |text| <= MaxMurfChars ==> r == text
    ensures |text| > MaxMurfChars && KeepsSentence(text) ==> CutAfterSentence(text, r)
    ensures |text| > MaxMurfChars && !KeepsSentence(text) ==> CutWithEllipsis(text, 2700, r)
    ensures |r| <= MaxMurfChars + |Ellipsis|
  {
    if |text| <= MaxMurfChars then text
    else
      var window := text[..MaxMurfChars];
      var lastSentenceEnd := LastSentenceEnd(window);
      if 5 * lastSentenceEnd > 4 * MaxMurfChars then
        window[..lastSentenceEnd + 1]
      else
        var lastSpace := LastIndexOf(window, ' ');
        if 10 * lastSpace > 9 * MaxMurfChars then window[..lastSpace] + Ellipsis
        else window + Ellipsis
  }

  /** The word cut of a long text lands on one of the window's last two positions. */
  ghost predicate CutNearEnd(text: string) {
    |text| > MaxMurfChars && !KeepsSentence(text)
    && (text[MaxMurfChars - 2] == ' ' || text[MaxMurfChars - 1] == ' ')
  }

  /**
   * Truncating the output of a word cut a second time: the output is a fixed
   * point unless the cut landed on a space at index 2998 or 2999, where the
   * output is longer than the budget and its "..." then reads as a sentence end.
   */
  lemma {:induction false} ElidedTwice(text: string, floor: nat, r: string, r2: string)
    requires floor <= 2700
    requires |text| > MaxMurfChars && !KeepsSentence(text) && CutWithEllipsis(text, floor, r)
    requires |r| <= MaxMurfChars ==> r2 == r
    requires |r| > MaxMurfChars && KeepsSentence(r) ==> CutAfterSentence(r, r2)
    requires |r| > MaxMurfChars && !KeepsSentence(r) ==> CutWithEllipsis(r, floor, r2)
    ensures r2 == r <==> !CutNearEnd(text)
  {
    var c := |r| - 3;
    if c == MaxMurfChars {
      assert r[..MaxMurfChars] == text[..MaxMurfChars];
      assert !(exists j :: floor < j < MaxMurfChars && text[j] == ' ');
      forall j | 0 <= j < MaxMurfChars ensures r[j] == text[j] {
        assert r[j] == r[..MaxMurfChars][j];
      }
      assert !KeepsSentence(r);
      assert SpaceCut(r, floor, |r2| - 3);
      assert |r2| - 3 == MaxMurfChars;
      assert r2 == r;
      assert !CutNearEnd(text);
    } else if c < MaxMurfChars - 2 {
      assert !CutNearEnd(text);
    } else {
      assert r[MaxMurfChars - 1] == '.';
      assert KeepsSentence(r);
      assert |r2| <= MaxMurfChars < |r|;
      assert text[c] == ' ';
    }
  }

  /** Chat truncation is idempotent exactly when its word cut does not land on index 2998 or 2999. */
  lemma ChatTruncateTwice(text: string)
    ensures ChatTruncate(ChatTruncate(text)) == ChatTruncate(text) <==> !CutNearEnd(text)
  {
    if |text| > MaxMurfChars && !KeepsSentence(text) {
      ElidedTwice(text, 0, ChatTruncate(text), ChatTruncate(ChatTruncate(text)));
    }
  }

  /** Query truncation is idempotent exactly when its word cut does not land on index 2998 or 2999. */
  lemma QueryTruncateTwice(text: string)
    ensures QueryTruncate(QueryTruncate(text)) == QueryTruncate(text) <==> !CutNearEnd(text)
  {
    if |text| > MaxMurfChars && !KeepsSentence(text) {
      ElidedTwice(text, 2700, QueryTruncate(text), QueryTruncate(QueryTruncate(text)));
    }
  }

  /** Such inputs exist: 3001 spaces, for one, are not a fixed point of chat truncation. */
  lemma ChatTruncateNotIdempotent()
    ensures exists text :: ChatTruncate(ChatTruncate(text)) != ChatTruncate(text)
  {
    var spaces := seq(MaxMurfChars + 1, i => ' ');
    assert !KeepsSentence(spaces) by {
      forall j | 0 <= j < |spaces| ensures !IsTerminator(spaces[j]) {
      }
    }
    assert CutNearEnd(spaces);
    ChatTruncateTwice(spaces);
  }
}
