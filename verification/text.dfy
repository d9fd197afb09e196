/** Small option and outcome types shared by the model. */
module Wrappers {

  datatype Option<+T> = None | Some(value: T)

  /** The `(value, error)` pair a capability adapter hands back: exactly one side is set. */
  datatype Reply<+T> = Ok(value: T) | Err(message: string)
}

/**
 * The handful of Python string operations the service relies on
 * (`str.isspace`, `str.lower`, `in`, `startswith`, `rfind`, `str.join`,
 * `str(int)`), restated over `seq<char>`.
 */
module Text {

  /** `c.isspace()`, restricted to the ASCII whitespace and separator characters. */
  predicate IsSpace(c: char) {
    c == ' ' || c == '\t' || c == '\n' || c == '\r' || c == '\U{B}' || c == '\U{C}'
    || ('\U{1C}' <= c <= '\U{1F}')
  }

  /** `len(s.strip()) == 0`: nothing but whitespace. */
  predicate Blank(s: string) {
    forall i :: 0 <= i < |s| ==> IsSpace(s[i])
  }

  /** `c.lower()` for ASCII letters; every other character is left alone. */
  function LowerChar(c: char): char {
    if 'A' <= c <= 'Z' then (c as int + 32) as char else c
  }

  /** `s.lower()`, character by character. */
  function Lower(s: string): string {
    seq(|s|, i requires 0 <= i < |s| => LowerChar(s[i]))
  }

  predicate StartsWith(s: string, prefix: string) {
    |prefix| <= |s| && s[..|prefix|] == prefix
  }

  predicate EndsWith(s: string, suffix: string) {
    |suffix| <= |s| && s[|s| - |suffix|..] == suffix
  }

  /** `needle in s` for strings: some position of `s` starts with `needle`. */
  predicate Contains(s: string, needle: string)
    decreases |s|
  {
    StartsWith(s, needle) || (|s| > 0 && Contains(s[1..], needle))
  }

  /** An occurrence at any position makes `Contains` true. */
  lemma {:induction false} ContainsAt(s: string, needle: string, i: nat)
    requires i + |needle| <= |s| && s[i..i + |needle|] == needle
    ensures Contains(s, needle)
  {
    if i == 0 {
      assert StartsWith(s, needle);
    } else {
      assert s[1..][i - 1..i - 1 + |needle|] == s[i..i + |needle|];
      ContainsAt(s[1..], needle, i - 1);
    }
  }

  /** Whatever is contained in a contained string is contained in the whole. */
  lemma {:induction false} ContainsInner(s: string, outer: string, k: nat, needle: string)
    requires Contains(s, outer)
    requires k + |needle| <= |outer| && outer[k..k + |needle|] == needle
    ensures Contains(s, needle)
    decreases |s|
  {
    if StartsWith(s, outer) {
      assert s[..|outer|] == outer;
      forall j | 0 <= j < |needle|
        ensures s[k..k + |needle|][j] == needle[j]
      {
        assert s[k + j] == s[..|outer|][k + j] == outer[k + j] == outer[k..k + |needle|][j];
      }
      ContainsAt(s, needle, k);
    } else {
      ContainsInner(s[1..], outer, k, needle);
      if StartsWith(s[1..], needle) {
        assert s[1..][..|needle|] == s[1..1 + |needle|];
        ContainsAt(s, needle, 1);
      } else {
        assert Contains(s[1..], needle);
      }
    }
  }

  /** `s.rfind(c)`: the last index holding `c`, or -1 when there is none. */
  function LastIndexOf(s: string, c: char): (r: int)
    ensures -1 <= r < |s|
    ensures r >= 0 ==> s[r] == c
    ensures forall j :: r < j < |s| ==> s[j] != c
  {
    if |s| == 0 then -1
    else if s[|s| - 1] == c then |s| - 1
    else LastIndexOf(s[..|s| - 1], c)
  }

  /** `sep.join(parts)`. */
  function Join(parts: seq<string>, sep: string): string {
    if |parts| == 0 then ""
    else if |parts| == 1 then parts[0]
    else Join(parts[..|parts| - 1], sep) + sep + parts[|parts| - 1]
  }

  /** Three parts are joined with the separator between neighbours, in order. */
  lemma JoinThree(a: string, b: string, c: string, sep: string)
    ensures Join([a, b, c], sep) == a + sep + b + sep + c
  {
    assert [a, b, c][..2] == [a, b];
    assert [a, b][..1] == [a];
    assert Join([a, b], sep) == a + sep + b;
    assert Join([a, b, c], sep) == Join([a, b], sep) + sep + c;
  }

  function DigitChar(d: nat): char
    requires d < 10
  {
    ('0' as int + d) as char
  }

  /** `str(n)` for a non-negative integer: its decimal digits. */
  function NatToString(n: nat): (r: string)
    ensures |r| > 0
    ensures forall i :: 0 <= i < |r| ==> '0' <= r[i] <= '9'
  {
    if n < 10 then [DigitChar(n)] else NatToString(n / 10) + [DigitChar(n % 10)]
  }
}
