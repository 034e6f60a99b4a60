/**
 * ASCII string primitives the views and the risk engine rely on:
 * `String.prototype.trim`, `toLowerCase`, `includes`, `parseInt`, `Number`
 * and the decimal rendering of a count inside a template literal.
 * Strings are ASCII; whitespace is the ASCII part of JavaScript's `\s`.
 */
module Text {

  datatype Option<T> = None | Some(value: T)

  predicate IsSpace(c: char) {
    c == ' ' || c == '\t' || c == '\n' || c == '\r' || c == '\U{000B}' || c == '\U{000C}'
  }

  predicate IsDigit(c: char) {
    '0' <= c <= '9'
  }

  predicate AllSpace(s: string) {
    forall i :: 0 <= i < |s| ==> IsSpace(s[i])
  }

  predicate AllDigits(s: string) {
    forall i :: 0 <= i < |s| ==> IsDigit(s[i])
  }

  /** `s.trimStart()`: drops the leading whitespace. */
  function TrimStart(s: string): (r: string)
    ensures |r| <= |s| && forall i :: 0 <= i < |r| ==> r[i] == s[|s| - |r| + i]
    ensures AllSpace(s[..|s| - |r|])
    ensures r != [] ==> !IsSpace(r[0])
  {
    if s != [] && IsSpace(s[0]) then TrimStart(s[1..]) else s
  }

  /** `s.trimEnd()`: drops the trailing whitespace. */
  function TrimEnd(s: string): (r: string)
    ensures |r| <= |s| && r == s[..|r|]
    ensures AllSpace(s[|r|..])
    ensures r != [] ==> !IsSpace(r[|r| - 1])
  {
    if s != [] && IsSpace(s[|s| - 1]) then TrimEnd(s[..|s| - 1]) else s
  }

  /** `s.trim()` */
  function Trim(s: string): string {
    TrimEnd(TrimStart(s))
  }

  /** The string is empty or whitespace only. */
  predicate IsBlank(s: string) {
    AllSpace(s)
  }

  /** `!s.trim()` holds exactly for the blank strings. */
  lemma {:induction false} TrimEmptyIffBlank(s: string)
    ensures Trim(s) == "" <==> IsBlank(s)
  {
    var t := TrimStart(s);
    if !AllSpace(s) {
      var i :| 0 <= i < |s| && !IsSpace(s[i]);
      assert t[i - (|s| - |t|)] == s[i];
    }
  }

  function LowerChar(c: char): char {
    if 'A' <= c <= 'Z' then (c as int + 32) as char else c
  }

  /** `s.toLowerCase()` on ASCII text. */
  function ToLower(s: string): (r: string)
    ensures |r| == |s|
    ensures forall i :: 0 <= i < |s| ==> r[i] == LowerChar(s[i])
  {
    seq(|s|, i requires 0 <= i < |s| => LowerChar(s[i]))
  }

  /** `s.includes(sub)`: `sub` occurs in `s` at some offset. */
  predicate Contains(s: string, sub: string) {
    exists i: nat | i <= |s| :: OccursAt(s, sub, i)
  }

  /** `sub` occurs in `s` starting at index `i`. */
  predicate OccursAt(s: string, sub: string, i: nat) {
    i + |sub| <= |s| && s[i..i + |sub|] == sub
  }

  /** `sub` occurs in `s` at offset `i`, checked character by character. */
  lemma ContainsAt(s: string, sub: string, i: nat)
    requires i + |sub| <= |s| && forall j :: 0 <= j < |sub| ==> s[i + j] == sub[j]
    ensures Contains(s, sub)
  {
    assert s[i..i + |sub|] == sub;
    assert OccursAt(s, sub, i);
  }

  /** If a character of `sub` never occurs in `s`, then `s` does not contain `sub`. */
  lemma NotContainsByChar(s: string, sub: string, m: nat)
    requires m < |sub| && sub[m] !in s
    ensures !Contains(s, sub)
  {
  }

  /**
   * If the character `sub[m]` occurs in `s` only at index `k`, then the only
   * candidate offset is `k - m`; a mismatch there (at `sub[j]`) rules out
   * every occurrence.
   */
  lemma NotContainsByAnchor(s: string, sub: string, m: nat, k: nat, j: nat)
    requires m < |sub| && k < |s| && s[k] == sub[m] && j < |sub|
    requires forall i :: 0 <= i < |s| && i != k ==> s[i] != sub[m]
    requires k < m || k - m + |sub| > |s| || s[k - m + j] != sub[j]
    ensures !Contains(s, sub)
  {
  }

  /** Prepending digits cannot create an occurrence of a string that starts with a non-digit. */
  lemma ContainsAfterDigits(d: string, rest: string, sub: string)
    requires AllDigits(d) && sub != [] && !IsDigit(sub[0])
    ensures Contains(d + rest, sub) <==> Contains(rest, sub)
  {
    var s := d + rest;
    if Contains(s, sub) {
      var i: nat :| OccursAt(s, sub, i);
      assert OccursAt(s, sub, i);
      assert s[i] == sub[0];
      assert rest[i - |d|..i - |d| + |sub|] == s[i..i + |sub|];
      assert OccursAt(rest, sub, i - |d|);
    }
    if Contains(rest, sub) {
      var i: nat :| OccursAt(rest, sub, i);
      assert OccursAt(rest, sub, i);
      assert s[|d| + i..|d| + i + |sub|] == rest[i..i + |sub|];
      assert OccursAt(s, sub, |d| + i);
    }
  }

  function DigitChar(d: nat): (c: char)
    requires d < 10
    ensures IsDigit(c)
  {
    ('0' as int + d) as char
  }

  /** The decimal rendering of a non-negative integer, as `${n}` produces it. */
  function NatToString(n: nat): (r: string)
    ensures r != [] && AllDigits(r)
    decreases n
  {
    if n < 10 then [DigitChar(n)] else NatToString(n / 10) + [DigitChar(n % 10)]
  }

  /** A decimal rendering holds no character other than digits. */
  lemma DigitsLackChar(n: nat, c: char)
    requires !IsDigit(c)
    ensures c !in NatToString(n)
  {
    var s := NatToString(n);
    assert forall k :: 0 <= k < |s| ==> s[k] != c;
  }

  function DigitValue(c: char): nat
    requires IsDigit(c)
  {
    c as int - '0' as int
  }

  /** The value of a string of decimal digits (most significant first). */
  function DigitsValue(s: string): nat
    requires AllDigits(s)
  {
    if s == [] then 0 else DigitsValue(s[..|s| - 1]) * 10 + DigitValue(s[|s| - 1])
  }

  /** Length of the longest prefix of `s` made of decimal digits. */
  function DigitRun(s: string): (n: nat)
    ensures n <= |s| && AllDigits(s[..n])
    ensures n < |s| ==> !IsDigit(s[n])
  {
    if s != [] && IsDigit(s[0]) then
      var n := 1 + DigitRun(s[1..]);
      assert forall i :: 1 <= i < n ==> s[..n][i] == s[1..][..n - 1][i - 1];
      n
    else 0
  }

  /**
   * `parseInt(s)` in base 10: skip leading whitespace, take an optional sign
   * and the longest run of digits after it; no digits is `NaN` (None).
   */
  function ParseInt(s: string): (r: Option<int>)
    ensures r.Some? ==> exists k :: 0 <= k < |TrimStart(s)| && IsDigit(TrimStart(s)[k])
  {
    ParseSigned(TrimStart(s))
  }

  /** `parseInt` after the leading whitespace: an optional sign, then the digit run. */
  function ParseSigned(t: string): (r: Option<int>)
  {
    var sign := if t != [] && (t[0] == '-' || t[0] == '+') then 1 else 0;
    var body := t[sign..];
    var n := DigitRun(body);
    if n == 0 then None
    else
      assert IsDigit(t[sign]) by { assert body[0] == t[sign]; }
      var v := DigitsValue(body[..n]);
      Some(if sign == 1 && t[0] == '-' then -(v as int) else v)
  }

  /** `[+-]? digits ('.' digits*)? | [+-]? '.' digits+`: the decimal literals `Number` accepts here. */
  predicate IsDecimalLiteral(t: string) {
    var sign := if t != [] && (t[0] == '-' || t[0] == '+') then 1 else 0;
    var body := t[sign..];
    var n := DigitRun(body);
    var rest := body[n..];
    if rest == [] then n > 0
    else rest[0] == '.' && AllDigits(rest[1..]) && (n > 0 || |rest| > 1)
  }

  /**
   * `!isNaN(s)` for a string: `Number(s)` trims it; the empty result is 0,
   * a decimal literal is its value, anything else is `NaN`.
   */
  predicate IsNumeric(s: string) {
    var t := Trim(s);
    t == "" || IsDecimalLiteral(t)
  }

  /** `Number(s)`, with None for `NaN`. */
  function ToNumber(s: string): (r: Option<real>)
    ensures r.Some? <==> IsNumeric(s)
  {
    var t := Trim(s);
    if t == "" then Some(0.0)
    else if !IsDecimalLiteral(t) then None
    else
      var sign := if t[0] == '-' || t[0] == '+' then 1 else 0;
      var body := t[sign..];
      var n := DigitRun(body);
      var rest := body[n..];
      var whole := DigitsValue(body[..n]) as real;
      var frac := if rest == [] then 0.0 else FractionValue(rest[1..]);
      var v := whole + frac;
      Some(if sign == 1 && t[0] == '-' then -v else v)
  }

  function Pow10(k: nat): (p: nat)
    ensures p >= 1
  {
    if k == 0 then 1 else 10 * Pow10(k - 1)
  }

  /** The value of the digits after a decimal point. */
  function FractionValue(s: string): real
    requires AllDigits(s)
  {
    DigitsValue(s) as real / Pow10(|s|) as real
  }

  /** Every character of an all-digit string belongs to its leading digit run. */
  lemma {:induction false} DigitRunAll(s: string, rest: string)
    requires AllDigits(s) && (rest == [] || !IsDigit(rest[0]))
    ensures DigitRun(s + rest) == |s|
  {
    if s != [] {
      assert (s + rest)[1..] == s[1..] + rest;
      DigitRunAll(s[1..], rest);
    } else {
      assert s + rest == rest;
    }
  }

  /** `Number` of a string of digits is their decimal value. */
  lemma DigitsNumber(s: string)
    requires s != [] && AllDigits(s)
    ensures ToNumber(s) == Some(DigitsValue(s) as real)
  {
    DigitsTrimmed(s);
    DigitsLiteral(s);
  }

  /** A string of digits has no whitespace to trim. */
  lemma DigitsTrimmed(s: string)
    requires s != [] && AllDigits(s)
    ensures Trim(s) == s
  {
    NoLeadingSpace(s);
    NoTrailingSpace(s);
  }

  lemma NoLeadingSpace(s: string)
    requires s != [] && IsDigit(s[0])
    ensures TrimStart(s) == s
  {
  }

  lemma NoTrailingSpace(s: string)
    requires s != [] && IsDigit(s[|s| - 1])
    ensures TrimEnd(s) == s
  {
  }

  /** A string of digits is a decimal literal that is all digit run. */
  lemma DigitsLiteral(s: string)
    requires s != [] && AllDigits(s)
    ensures IsDecimalLiteral(s) && DigitRun(s) == |s| && s[..|s|] == s
  {
    assert s[0..] == s;
    DigitRunAll(s, []);
    assert s + [] == s;
    assert s[|s|..] == [];
  }

  /** The value of a two-digit string. */
  lemma TwoDigitsValue(s: string)
    requires |s| == 2 && IsDigit(s[0]) && IsDigit(s[1])
    ensures DigitsValue(s) == 10 * DigitValue(s[0]) + DigitValue(s[1])
  {
    var h := s[..1];
    assert h[..0] == [] && h[0] == s[0];
    assert DigitsValue(h) == DigitValue(s[0]);
  }

  /** `Number` of a two-digit string. */
  lemma TwoDigitsNumber(s: string, v: nat)
    requires |s| == 2 && IsDigit(s[0]) && IsDigit(s[1]) && v == 10 * DigitValue(s[0]) + DigitValue(s[1])
    ensures ToNumber(s) == Some(v as real)
  {
    TwoDigitsValue(s);
    assert DigitsValue(s) == v;
    DigitsNumber(s);
  }

  /** `parseInt` of a string of digits followed by a non-digit is their decimal value. */
  lemma DigitsParse(s: string, rest: string)
    requires s != [] && AllDigits(s) && (rest == [] || !IsDigit(rest[0]))
    ensures ParseInt(s + rest) == Some(DigitsValue(s))
  {
    ParseIntRule([], [], s, rest);
    DropEmpty([], s + rest);
    Regroup([], [], s, rest);
  }


  /** Leading whitespace in front of text that does not start with whitespace is all `trimStart` removes. */
  lemma {:induction false} TrimStartSpaces(ws: string, t: string)
    requires AllSpace(ws) && (t == [] || !IsSpace(t[0]))
    ensures TrimStart(ws + t) == t
  {
    if ws != [] {
      assert (ws + t)[1..] == ws[1..] + t;
      TrimStartSpaces(ws[1..], t);
    } else {
      assert ws + t == t;
    }
  }

  /**
   * The rule of base-10 `parseInt`, stated on the parts of its argument:
   * leading whitespace `ws`, an optional sign `sg` (`+` or `-`), the longest
   * digit run `ds` after it, and the remainder. The result is the signed
   * value of the digits, and `NaN` exactly when no digit follows the
   * optional sign.
   */
  lemma ParseIntRule(ws: string, sg: string, ds: string, rest: string)
    requires AllSpace(ws)
    requires |sg| <= 1 && (sg != [] ==> sg[0] == '+' || sg[0] == '-')
    requires AllDigits(ds) && (rest == [] || !IsDigit(rest[0]))
    requires sg == [] && ds == [] ==> rest == [] || (!IsSpace(rest[0]) && rest[0] != '+' && rest[0] != '-')
    ensures ParseInt(ws + sg + ds + rest) ==
      if ds == [] then None
      else Some(if sg != [] && sg[0] == '-' then -(DigitsValue(ds) as int) else DigitsValue(ds) as int)
  {
    Regroup(ws, sg, ds, rest);
    SignedDigits(sg, ds, rest);
    SpacesThenParse(ws, sg + (ds + rest));
  }

  lemma Regroup<T>(a: seq<T>, b: seq<T>, c: seq<T>, d: seq<T>)
    ensures a + b + c + d == a + (b + (c + d))
  {
  }

  /** Leading whitespace does not change what `parseInt` reads. */
  lemma SpacesThenParse(ws: string, t: string)
    requires AllSpace(ws) && (t == [] || !IsSpace(t[0]))
    ensures ParseInt(ws + t) == ParseSigned(t)
  {
    TrimStartSpaces(ws, t);
  }

  /** What `parseInt` reads after the whitespace: the optional sign, then the digit run. */
  lemma SignedDigits(sg: string, ds: string, rest: string)
    requires |sg| <= 1 && (sg != [] ==> sg[0] == '+' || sg[0] == '-')
    requires AllDigits(ds) && (rest == [] || !IsDigit(rest[0]))
    requires sg == [] && ds == [] ==> rest == [] || (!IsSpace(rest[0]) && rest[0] != '+' && rest[0] != '-')
    ensures var t := sg + (ds + rest); t == [] || !IsSpace(t[0])
    ensures ParseSigned(sg + (ds + rest)) ==
      if ds == [] then None
      else Some(if sg != [] && sg[0] == '-' then -(DigitsValue(ds) as int) else DigitsValue(ds) as int)
  {
    if sg == [] {
      DropEmpty(sg, ds + rest);
      UnsignedDigits(ds, rest);
    } else {
      OneElement(sg);
      SignThenDigits(sg[0], ds, rest);
    }
  }

  lemma DropEmpty<T>(e: seq<T>, a: seq<T>)
    requires e == []
    ensures e + a == a && e + (e + a) == a
  {
  }

  lemma OneElement<T>(a: seq<T>)
    requires |a| == 1
    ensures a == [a[0]]
  {
  }

  lemma HeadOfConcat<T>(a: seq<T>, b: seq<T>)
    requires a != []
    ensures (a + b)[0] == a[0] && (a + b)[..|a|] == a && (a + b)[|a|..] == b
  {
  }

  /** Digits with no sign in front. */
  lemma UnsignedDigits(ds: string, rest: string)
    requires AllDigits(ds) && (rest == [] || !IsDigit(rest[0]))
    requires ds == [] ==> rest == [] || (!IsSpace(rest[0]) && rest[0] != '+' && rest[0] != '-')
    ensures var t := ds + rest; t == [] || !IsSpace(t[0])
    ensures ParseSigned(ds + rest) == if ds == [] then None else Some(DigitsValue(ds) as int)
  {
    DigitRunAll(ds, rest);
    if ds == [] {
      DropEmpty(ds, rest);
    } else {
      HeadOfConcat(ds, rest);
      assert IsDigit(ds[0]);
    }
    SliceFromZero(ds + rest);
  }

  lemma SliceFromZero<T>(a: seq<T>)
    ensures a[0..] == a
  {
  }

  /** Digits after a sign character. */
  lemma SignThenDigits(c: char, ds: string, rest: string)
    requires c == '+' || c == '-'
    requires AllDigits(ds) && (rest == [] || !IsDigit(rest[0]))
    ensures var t := [c] + (ds + rest); t == [] || !IsSpace(t[0])
    ensures ParseSigned([c] + (ds + rest)) ==
      if ds == [] then None else Some(if c == '-' then -(DigitsValue(ds) as int) else DigitsValue(ds) as int)
  {
    DigitRunAll(ds, rest);
    HeadOfConcat([c], ds + rest);
    if ds != [] {
      HeadOfConcat(ds, rest);
    } else {
      DropEmpty(ds, rest);
    }
  }

  /** `parseInt` of a whitespace-only string is `NaN`. */
  lemma BlankParse(ws: string)
    requires AllSpace(ws)
    ensures ParseInt(ws) == None
  {
    TrimStartSpaces(ws, []);
    assert ws + [] == ws;
  }

  /** `Number` of a whitespace-only string is 0, so `isNaN` is false for it. */
  lemma BlankNumber(ws: string)
    requires AllSpace(ws)
    ensures IsNumeric(ws)
  {
    TrimEmptyIffBlank(ws);
  }

  /** Splitting on a separator that occurs once gives the text before it and the text after it. */
  lemma SplitOnce(s: string, sep: char, k: nat)
    requires k < |s| && s[k] == sep && sep !in s[..k] && sep !in s[k + 1..]
    ensures Split(s, sep) == [s[..k], s[k + 1..]]
  {
    assert sep in s by { assert s[k] == sep; }
    var j := IndexOfChar(s, sep);
    assert j == k;
  }

  /** `s.split(sep)`: the pieces between the separators, in order. */
  function Split(s: string, sep: char): (parts: seq<string>)
    ensures |parts| >= 1
    ensures forall i :: 0 <= i < |parts| ==> sep !in parts[i]
  {
    if sep !in s then [s]
    else
      var k := IndexOfChar(s, sep);
      [s[..k]] + Split(s[k + 1..], sep)
  }

  function IndexOfChar(s: string, c: char): (k: nat)
    requires c in s
    ensures k < |s| && s[k] == c && c !in s[..k]
  {
    if s[0] == c then 0
    else
      var k := 1 + IndexOfChar(s[1..], c);
      assert s[..k] == [s[0]] + s[1..][..k - 1];
      k
  }
}
