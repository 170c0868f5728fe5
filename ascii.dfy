/** `String.prototype.toUpperCase`, restricted to ASCII letters. */
module Ascii {

  predicate IsLower(c: char)
  {
    'a' <= c <= 'z'
  }

  predicate IsUpper(c: char)
  {
    'A' <= c <= 'Z'
  }

  /** Upper-cases one character; every character other than `a`..`z` is kept. */
  function UpperChar(c: char): char
  {
    if IsLower(c) then (c as int - 32) as char else c
  }

  /** The lower-case partner of an upper-case letter; other characters are kept. */
  function LowerOf(c: char): char
  {
    if IsUpper(c) then (c as int + 32) as char else c
  }

  /** The upper-cased string: same length, each character upper-cased in place. */
  function ToUpper(s: string): (r: string)
    ensures |r| == |s|
    ensures forall i | 0 <= i < |s| :: r[i] == UpperChar(s[i])
    ensures forall i | 0 <= i < |r| :: !IsLower(r[i])
  {
    if s == [] then [] else [UpperChar(s[0])] + ToUpper(s[1..])
  }

  /** A character upper-cases to `c` (itself not lower-case) exactly when it is `c`
      or, for a letter, its lower-case partner. */
  lemma UpperCharTo(x: char, c: char)
    requires !IsLower(c)
    ensures UpperChar(x) == c <==> x == c || x == LowerOf(c)
  {
    if IsLower(x) {
      assert UpperChar(x) as int == x as int - 32;
    }
  }

  /** A case-insensitive comparison against a word with no lower-case letters:
      `ToUpper(s) == w` holds exactly when `s` spells `w` letter by letter in
      either case. */
  lemma {:induction false} ToUpperMatches(s: string, w: string)
    requires forall i | 0 <= i < |w| :: !IsLower(w[i])
    ensures ToUpper(s) == w <==>
      |s| == |w| && forall i | 0 <= i < |s| :: s[i] == w[i] || s[i] == LowerOf(w[i])
  {
    if |s| == |w| {
      forall i | 0 <= i < |s|
        ensures UpperChar(s[i]) == w[i] <==> s[i] == w[i] || s[i] == LowerOf(w[i])
      {
        UpperCharTo(s[i], w[i]);
      }
      if forall i | 0 <= i < |s| :: s[i] == w[i] || s[i] == LowerOf(w[i]) {
        assert forall i | 0 <= i < |s| :: ToUpper(s)[i] == w[i];
      }
    }
  }
}
