/**
 * The few string operations the Python code relies on, over ASCII:
 * `str.lower()`, `str.title()`, substring test `word in text`, and `" ".join(...)`.
 */
module Text {

  predicate IsUpper(c: char) { 'A' <= c <= 'Z' }

  predicate IsLower(c: char) { 'a' <= c <= 'z' }

  predicate IsLetter(c: char) { IsUpper(c) || IsLower(c) }

  function LowerChar(c: char): (r: char)
    ensures !IsUpper(r)
    ensures IsLetter(c) <==> IsLetter(r)
  {
    if IsUpper(c) then (c as int + 32) as char else c
  }

  function UpperChar(c: char): (r: char)
    ensures !IsLower(r)
    ensures IsLetter(c) <==> IsLetter(r)
  {
    if IsLower(c) then (c as int - 32) as char else c
  }

  /** `s.lower()`. */
  function Lower(s: string): (r: string)
    ensures |r| == |s|
    ensures forall i :: 0 <= i < |r| ==> r[i] == LowerChar(s[i])
  {
    if s == [] then [] else [LowerChar(s[0])] + Lower(s[1..])
  }

  /**
   * `s.title()`: a letter that starts a run of letters is upper-cased, a letter
   * inside a run lower-cased, and every other character kept.
   */
  function Title(s: string): (r: string)
    ensures |r| == |s|
    ensures forall i :: 0 <= i < |s| && !IsLetter(s[i]) ==> r[i] == s[i]
    ensures forall i :: 0 <= i < |s| && IsLetter(s[i]) ==>
      r[i] == if i > 0 && IsLetter(s[i - 1]) then LowerChar(s[i]) else UpperChar(s[i])
  {
    TitleFrom(s, false)
  }

  /** `Title` of a suffix whose preceding character was a letter exactly when `afterLetter`. */
  function TitleFrom(s: string, afterLetter: bool): (r: string)
    ensures |r| == |s|
    ensures forall i :: 0 <= i < |s| && !IsLetter(s[i]) ==> r[i] == s[i]
    ensures forall i :: 0 <= i < |s| && IsLetter(s[i]) ==>
      r[i] == if (if i > 0 then IsLetter(s[i - 1]) else afterLetter) then LowerChar(s[i]) else UpperChar(s[i])
  {
    if s == [] then []
    else
      var c := s[0];
      var d := if !IsLetter(c) then c else if afterLetter then LowerChar(c) else UpperChar(c);
      [d] + TitleFrom(s[1..], IsLetter(c))
  }

  predicate StartsWith(s: string, prefix: string) {
    |prefix| <= |s| && s[..|prefix|] == prefix
  }

  /** Python's `word in text` on strings: `word` occurs at some position of `text`. */
  predicate Contains(text: string, word: string)
    decreases |text|
  {
    StartsWith(text, word) || (|text| > 0 && Contains(text[1..], word))
  }

  /** `sep.join(parts)`. */
  function Join(parts: seq<string>, sep: string): string {
    if parts == [] then []
    else if |parts| == 1 then parts[0]
    else parts[0] + sep + Join(parts[1..], sep)
  }

  /** Every character of a word found in `text` is a character of `text`. */
  lemma {:induction false} ContainsChars(text: string, word: string)
    requires Contains(text, word)
    ensures forall c :: c in word ==> c in text
    decreases |text|
  {
    if StartsWith(text, word) {
      assert forall c :: c in word ==> c in text[..|word|];
    } else {
      ContainsChars(text[1..], word);
    }
  }

  /** A word found in a suffix of `text` is found in `text`. */
  lemma {:induction false} ContainsInSuffix(text: string, k: nat, word: string)
    requires k <= |text| && Contains(text[k..], word)
    ensures Contains(text, word)
    decreases k
  {
    if k > 0 {
      assert text[1..][k - 1..] == text[k..];
      ContainsInSuffix(text[1..], k - 1, word);
    }
  }

  /** Whatever contains `a + b` contains its tail `b`. */
  lemma {:induction false} ContainsTail(text: string, a: string, b: string)
    requires Contains(text, a + b)
    ensures Contains(text, b)
    decreases |text|
  {
    if StartsWith(text, a + b) {
      assert text[|a|..][..|b|] == (a + b)[|a|..];
      assert StartsWith(text[|a|..], b);
      ContainsInSuffix(text, |a|, b);
    } else {
      ContainsTail(text[1..], a, b);
      ContainsInSuffix(text, 1, b);
    }
  }
}
