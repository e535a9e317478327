/** String helpers with the JavaScript semantics the components rely on:
    String.prototype.trim, the digit pattern ^[0-9]+$, startsWith, slice,
    and the decimal value of a digit string (what BigInt and Number give for one). */
module Text {

  /** The code points ECMAScript counts as WhiteSpace or LineTerminator,
      i.e. what String.prototype.trim removes from both ends. */
  predicate IsWhitespace(c: char) {
    c == '\t' || c == '\n' || c == '\U{000B}' || c == '\U{000C}' || c == '\r' || c == ' '
    || c == '\U{00A0}' || c == '\U{1680}' || ('\U{2000}' <= c <= '\U{200A}')
    || c == '\U{2028}' || c == '\U{2029}' || c == '\U{202F}' || c == '\U{205F}'
    || c == '\U{3000}' || c == '\U{FEFF}'
  }

  /** No whitespace at either end. */
  predicate IsTrimmed(s: string) {
    s == [] || (!IsWhitespace(s[0]) && !IsWhitespace(s[|s| - 1]))
  }

  /** Drops leading whitespace: the result is a suffix of `s`, everything
      dropped is whitespace, and what is kept does not start with whitespace. */
  function TrimStart(s: string): (r: string)
    ensures |r| <= |s| && r == s[|s| - |r|..]
    ensures forall i | 0 <= i < |s| - |r| :: IsWhitespace(s[i])
    ensures r == [] || !IsWhitespace(r[0])
    decreases |s|
  {
    if |s| > 0 && IsWhitespace(s[0]) then TrimStart(s[1..]) else s
  }

  /** Drops trailing whitespace: the result is a prefix of `s`, everything
      dropped is whitespace, and what is kept does not end with whitespace. */
  function TrimEnd(s: string): (r: string)
    ensures |r| <= |s| && r == s[..|r|]
    ensures forall i | |r| <= i < |s| :: IsWhitespace(s[i])
    ensures r == [] || !IsWhitespace(r[|r| - 1])
    decreases |s|
  {
    if |s| > 0 && IsWhitespace(s[|s| - 1]) then TrimEnd(s[..|s| - 1]) else s
  }

  /** String.prototype.trim: the result is the middle of `s` left once the
      leading and the trailing whitespace are dropped, and nothing else. */
  function Trim(s: string): (r: string)
    ensures IsTrimmed(r)
    ensures |r| <= |s|
    ensures var k := |s| - |TrimStart(s)|;
            k + |r| <= |s| && r == s[k..k + |r|]
            && (forall c | c in s[..k] :: IsWhitespace(c))
            && (forall c | c in s[k + |r|..] :: IsWhitespace(c))
  {
    var t := TrimStart(s);
    TrimEndKeepsFront(t);
    TrimEndOfSuffix(s, t);
    TrimEnd(t)
  }

  /** Trimming the end of a string that does not start with whitespace leaves
      a string trimmed at both ends. */
  lemma TrimEndKeepsFront(t: string)
    requires t == [] || !IsWhitespace(t[0])
    ensures IsTrimmed(TrimEnd(t))
  {
    var r := TrimEnd(t);
    if r != [] {
      assert r[0] == t[0];
    }
  }

  /** Trimming the end of a suffix `t` of `s` keeps a contiguous slice of `s`
      and drops only whitespace after it. */
  lemma TrimEndOfSuffix(s: string, t: string)
    requires |t| <= |s| && t == s[|s| - |t|..]
    ensures var k := |s| - |t|;
            var r := TrimEnd(t);
            k + |r| <= |s| && r == s[k..k + |r|]
            && (forall i | k + |r| <= i < |s| :: IsWhitespace(s[i]))
  {
    var k := |s| - |t|;
    var r := TrimEnd(t);
    forall i | k + |r| <= i < |s|
      ensures IsWhitespace(s[i])
    {
      assert s[i] == t[i - k];
    }
  }

  /** Trimming leaves a trimmed string as it is, so trimming twice is trimming once. */
  lemma TrimIdempotent(s: string)
    ensures Trim(Trim(s)) == Trim(s)
  {
    var t := Trim(s);
    assert TrimStart(t) == t;
    assert TrimEnd(t) == t;
  }

  /** Trimming yields the empty string exactly when `s` holds whitespace only. */
  lemma TrimEmptyIffBlank(s: string)
    ensures |Trim(s)| > 0 <==> exists i | 0 <= i < |s| :: !IsWhitespace(s[i])
  {
    var r := Trim(s);
    var k := |s| - |TrimStart(s)|;
    if |r| > 0 {
      assert r[0] == s[k];
    }
  }

  predicate IsDigit(c: char) {
    '0' <= c <= '9'
  }

  predicate AllDigits(s: string) {
    forall i | 0 <= i < |s| :: IsDigit(s[i])
  }

  /** The anchored pattern ^[0-9]+$ matched one character at a time: a digit,
      then either the end of the input or a further match of the pattern. */
  function MatchesDigitRun(s: string): (b: bool)
    ensures b <==> |s| > 0 && AllDigits(s)
    decreases |s|
  {
    |s| > 0 && IsDigit(s[0]) && (|s| == 1 || MatchesDigitRun(s[1..]))
  }

  function Pow(base: nat, exp: nat): (r: nat)
    ensures base > 0 ==> r > 0
  {
    if exp == 0 then 1 else base * Pow(base, exp - 1)
  }

  function DigitValue(c: char): (d: nat)
    requires IsDigit(c)
    ensures d <= 9
  {
    (c as int) - ('0' as int)
  }

  /** The decimal value of a digit string, most significant digit first;
      the empty string counts as 0. A value never needs more digits than it has. */
  function DigitsValue(s: string): (n: nat)
    requires AllDigits(s)
    ensures n < Pow(10, |s|)
    decreases |s|
  {
    if s == [] then 0 else DigitsValue(s[..|s| - 1]) * 10 + DigitValue(s[|s| - 1])
  }

  /** Appending digits shifts the value of the prefix by one decimal place per digit. */
  lemma {:induction false} DigitsValueAppend(s: string, t: string)
    requires AllDigits(s) && AllDigits(t)
    ensures AllDigits(s + t)
    ensures DigitsValue(s + t) == DigitsValue(s) * Pow(10, |t|) + DigitsValue(t)
    decreases |t|
  {
    if t != [] {
      var u := t[..|t| - 1];
      DigitsValueAppend(s, u);
      assert (s + t)[..|s + t| - 1] == s + u;
      assert (s + t)[|s + t| - 1] == t[|t| - 1];
      var a, p, v, d := DigitsValue(s), Pow(10, |u|), DigitsValue(u), DigitValue(t[|t| - 1]);
      assert DigitsValue(s + t) == DigitsValue(s + u) * 10 + d;
      assert DigitsValue(t) == v * 10 + d;
      assert Pow(10, |t|) == 10 * p;
      ShiftByOneDigit(a, p, v, d);
    } else {
      assert s + t == s;
    }
  }

  lemma ShiftByOneDigit(a: nat, p: nat, v: nat, d: nat)
    ensures (a * p + v) * 10 + d == a * (10 * p) + (v * 10 + d)
  {
  }

  /** Leading zeros do not change the value, so "019" and "19" denote the same number. */
  lemma LeadingZeroIgnored(s: string)
    requires AllDigits(s)
    ensures AllDigits(['0'] + s) && DigitsValue(['0'] + s) == DigitsValue(s)
  {
    DigitsValueAppend(['0'], s);
    assert DigitsValue(['0']) == 0 by {
      assert ['0'][..0] == [];
    }
  }

  function Min(a: nat, b: nat): nat {
    if a <= b then a else b
  }

  /** String.prototype.startsWith: `prefix` fits in `s` and agrees with it
      character by character. */
  predicate StartsWith(s: string, prefix: string): (b: bool)
    ensures b <==> |prefix| <= |s| && forall i | 0 <= i < |prefix| :: s[i] == prefix[i]
  {
    |prefix| <= |s| && s[..|prefix|] == prefix
  }

  /** How String.prototype.slice resolves one relative index against a length:
      a negative index counts back from the end, and the result is clamped to [0, len]. */
  function RelativeIndex(i: int, len: nat): (k: nat)
    ensures k <= len
    ensures 0 <= i <= len ==> k == i
    ensures -(len as int) <= i < 0 ==> k == len + i
    ensures i > len ==> k == len
    ensures i < -(len as int) ==> k == 0
  {
    if i < 0 then (if len + i < 0 then 0 else len + i)
    else if i > len then len
    else i
  }

  /** String.prototype.slice(start, end): the characters from the resolved start
      up to the resolved end, or nothing when the end does not lie past the start. */
  function Slice(s: string, start: int, end: int): (r: string)
    ensures |r| <= |s|
    ensures 0 <= start <= end <= |s| ==> r == s[start..end]
    ensures -(|s| as int) <= start < 0 && end >= |s| ==> r == s[|s| + start..]
    ensures start >= end >= 0 ==> r == []
    ensures start >= |s| ==> r == []
    ensures 0 <= start <= |s| && end >= |s| ==> r == s[start..]
    ensures start < -(|s| as int) && end >= |s| ==> r == s
  {
    var from := RelativeIndex(start, |s|);
    var to := RelativeIndex(end, |s|);
    if from < to then s[from..to] else []
  }
}
