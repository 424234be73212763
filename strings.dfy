/**
 * The few Python `str` operations the engine and its helpers rely on:
 * `lower()`, `isspace()`, `lstrip(chars)`, `strip()`, `int(s)` and `split()`.
 * Only ASCII case mapping and ASCII decimal digits are modelled.
 */
module Strings {
  import opened Wrappers

  /** `c.lower()` for one character (ASCII letters only). */
  function LowerChar(c: char): char {
    if 'A' <= c <= 'Z' then (c as int + 32) as char else c
  }

  /** `s.lower()`. */
  function Lower(s: string): (r: string)
    ensures |r| == |s|
  {
    seq(|s|, i requires 0 <= i < |s| => LowerChar(s[i]))
  }

  /** Lower-casing twice is lower-casing once. */
  lemma LowerIdempotent(s: string)
    ensures Lower(Lower(s)) == Lower(s)
  {
  }

  /** `c.isspace()`: the characters Python treats as whitespace. */
  predicate IsSpace(c: char) {
    || '\U{0009}' <= c <= '\U{000D}'
    || '\U{001C}' <= c <= '\U{0020}'
    || c == '\U{0085}' || c == '\U{00A0}' || c == '\U{1680}'
    || '\U{2000}' <= c <= '\U{200A}'
    || c == '\U{2028}' || c == '\U{2029}' || c == '\U{202F}' || c == '\U{205F}' || c == '\U{3000}'
  }

  predicate IsDigit(c: char) {
    '0' <= c <= '9'
  }

  /**
   * `s.lstrip(chars)`: drops leading characters that belong to the SET
   * `chars` (not a prefix string).
   */
  function LStripChars(s: string, chars: set<char>): (r: string)
    ensures |r| <= |s| && r == s[|s| - |r|..]
    ensures forall i :: 0 <= i < |s| - |r| ==> s[i] in chars
    ensures r == [] || r[0] !in chars
    decreases |s|
  {
    if s != [] && s[0] in chars then
      var r := LStripChars(s[1..], chars);
      assert s[1..][|s| - 1 - |r|..] == s[|s| - |r|..];
      r
    else s
  }

  /** `lstrip` drops a leading run of set members and stops at the first non-member. */
  lemma {:induction false} LStripPrefix(pre: string, t: string, chars: set<char>)
    requires forall i :: 0 <= i < |pre| ==> pre[i] in chars
    requires t == [] || t[0] !in chars
    ensures LStripChars(pre + t, chars) == t
    decreases |pre|
  {
    if pre == [] {
      assert pre + t == t;
    } else {
      assert (pre + t)[0] == pre[0] && (pre + t)[1..] == pre[1..] + t;
      LStripPrefix(pre[1..], t, chars);
    }
  }

  /** Leading whitespace removed. */
  function LStripSpace(s: string): (r: string)
    ensures |r| <= |s| && r == s[|s| - |r|..]
    ensures forall i :: 0 <= i < |s| - |r| ==> IsSpace(s[i])
    ensures r == [] || !IsSpace(r[0])
    decreases |s|
  {
    if s != [] && IsSpace(s[0]) then
      var r := LStripSpace(s[1..]);
      assert s[1..][|s| - 1 - |r|..] == s[|s| - |r|..];
      r
    else s
  }

  /** Trailing whitespace removed. */
  function RStripSpace(s: string): (r: string)
    ensures |r| <= |s| && r == s[..|r|]
    ensures forall i :: |r| <= i < |s| ==> IsSpace(s[i])
    ensures r == [] || !IsSpace(r[|r| - 1])
    decreases |s|
  {
    if s != [] && IsSpace(s[|s| - 1]) then
      var r := RStripSpace(s[..|s| - 1]);
      assert s[..|s| - 1][..|r|] == s[..|r|];
      r
    else s
  }

  /** `s.strip()`. */
  function Strip(s: string): string {
    RStripSpace(LStripSpace(s))
  }

  /**
   * The digit part Python's `int(s)` accepts in base 10: ASCII digits, where
   * a single `_` may separate two digits.
   */
  predicate DigitGroups(b: string)
    decreases |b|
  {
    && |b| > 0
    && IsDigit(b[0])
    && (|b| == 1 || (IsDigit(b[1]) && DigitGroups(b[1..])) || (b[1] == '_' && DigitGroups(b[2..])))
  }

  /** The number the digits of `b` denote, underscores ignored. */
  function DigitsValue(b: string): (n: nat)
    decreases |b|
  {
    if b == [] then 0
    else if b[|b| - 1] == '_' then DigitsValue(b[..|b| - 1])
    else DigitsValue(b[..|b| - 1]) * 10 + DigitValue(b[|b| - 1])
  }

  function DigitValue(c: char): nat {
    if IsDigit(c) then c as int - '0' as int else 0
  }

  /**
   * `int(s)`: surrounding whitespace, then an optional sign, then digit
   * groups; `None` where Python raises `ValueError`.
   */
  function ParseInt(s: string): Option<int> {
    var t := Strip(s);
    if t == [] then None
    else
      var negative := t[0] == '-';
      var body := if t[0] == '-' || t[0] == '+' then t[1..] else t;
      if DigitGroups(body) then
        Some(if negative then -(DigitsValue(body) as int) else DigitsValue(body) as int)
      else None
  }

  /** The decimal rendering of a natural number, as `str(n)`. */
  function ShowNat(n: nat): (r: string)
    ensures |r| > 0 && forall i :: 0 <= i < |r| ==> IsDigit(r[i])
  {
    var d := ('0' as int + n % 10) as char;
    if n < 10 then [d] else ShowNat(n / 10) + [d]
  }

  lemma {:induction false} AllDigitsAreGroups(b: string)
    requires |b| > 0 && forall i :: 0 <= i < |b| ==> IsDigit(b[i])
    ensures DigitGroups(b)
    decreases |b|
  {
    if |b| > 1 {
      AllDigitsAreGroups(b[1..]);
    }
  }

  lemma {:induction false} ShowNatValue(n: nat)
    ensures DigitsValue(ShowNat(n)) == n
  {
    var s := ShowNat(n);
    if n >= 10 {
      ShowNatValue(n / 10);
      assert s[..|s| - 1] == ShowNat(n / 10);
    }
  }

  /** Strip leaves a string without surrounding whitespace unchanged. */
  lemma StripNoSpace(s: string)
    requires s != [] && !IsSpace(s[0]) && !IsSpace(s[|s| - 1])
    ensures Strip(s) == s
  {
  }

  /** `int(str(n)) == n`: the parser inverts the decimal rendering. */
  lemma ParseShowNat(n: nat)
    ensures ParseInt(ShowNat(n)) == Some(n)
  {
    var s := ShowNat(n);
    StripNoSpace(s);
    AllDigitsAreGroups(s);
    ShowNatValue(n);
  }

  /** A piece `split()` can return: non-empty and free of whitespace. */
  predicate IsToken(w: string) {
    w != [] && forall i :: 0 <= i < |w| ==> !IsSpace(w[i])
  }

  /** The end of the run of non-whitespace characters that starts at `k`. */
  function TokenEnd(s: string, k: nat): (j: nat)
    requires k <= |s|
    ensures k <= j <= |s|
    ensures forall i :: k <= i < j ==> !IsSpace(s[i])
    ensures j == |s| || IsSpace(s[j])
    decreases |s| - k
  {
    if k < |s| && !IsSpace(s[k]) then TokenEnd(s, k + 1) else k
  }

  /** `s.split()`: the maximal runs of non-whitespace characters, in order. */
  function Split(s: string): seq<string>
    decreases |s|
  {
    var t := LStripSpace(s);
    if t == [] then []
    else
      var n := TokenEnd(t, 0);
      [t[..n]] + Split(t[n..])
  }

  /** Every word `split` yields is non-empty and free of whitespace. */
  lemma {:induction false} SplitTokens(s: string)
    ensures forall w :: w in Split(s) ==> IsToken(w)
    decreases |s|
  {
    var t := LStripSpace(s);
    if t != [] {
      var n := TokenEnd(t, 0);
      SplitTokens(t[n..]);
      assert IsToken(t[..n]);
    }
  }

  /** `" ".join(ws)`. */
  function Join(ws: seq<string>): string
    decreases |ws|
  {
    if ws == [] then "" else if |ws| == 1 then ws[0] else ws[0] + (" " + Join(ws[1..]))
  }

  /** A token followed by whitespace or nothing ends where the token does. */
  lemma {:induction false} TokenEndAfter(w: string, rest: string, k: nat)
    requires IsToken(w) && k <= |w| && (rest == [] || IsSpace(rest[0]))
    ensures TokenEnd(w + rest, k) == |w|
    decreases |w| - k
  {
    if k < |w| {
      assert (w + rest)[k] == w[k];
      TokenEndAfter(w, rest, k + 1);
    } else if rest != [] {
      assert (w + rest)[k] == rest[0];
    }
  }

  /** `split()` of a token followed by whitespace or nothing. */
  lemma SplitToken(w: string, rest: string)
    requires IsToken(w) && (rest == [] || IsSpace(rest[0]))
    ensures Split(w + rest) == [w] + Split(rest)
  {
    var s := w + rest;
    assert s[0] == w[0];
    assert LStripSpace(s) == s;
    TokenEndAfter(w, rest, 0);
    assert s[..|w|] == w && s[|w|..] == rest;
  }

  /** Leading whitespace does not change `split()`. */
  lemma SplitSpace(c: char, s: string)
    requires IsSpace(c)
    ensures Split([c] + s) == Split(s)
  {
    assert ([c] + s)[1..] == s;
  }

  /** One more token in front of a joined list splits off as that token. */
  lemma SplitJoinCons(w: string, tail: seq<string>)
    requires IsToken(w) && tail != []
    ensures Split(Join([w] + tail)) == [w] + Split(Join(tail))
  {
    var ws := [w] + tail;
    assert ws[0] == w && ws[1..] == tail;
    SplitSpace(' ', Join(tail));
    SplitToken(w, " " + Join(tail));
  }

  /** `split()` undoes `" ".join` of tokens. */
  lemma {:induction false} SplitJoin(ws: seq<string>)
    requires forall w :: w in ws ==> IsToken(w)
    ensures Split(Join(ws)) == ws
    decreases |ws|
  {
    if |ws| == 1 {
      assert ws[0] in ws;
      SplitToken(ws[0], "");
      assert ws[0] + "" == ws[0];
    } else if |ws| > 1 {
      var w, tail := ws[0], ws[1..];
      assert w in ws && ws == [w] + tail;
      assert forall x :: x in tail ==> x in ws;
      SplitJoin(tail);
      SplitJoinCons(w, tail);
    }
  }
}
