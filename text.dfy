/**
 * The pieces of JavaScript text handling the core relies on: printing an integer
 * inside a template literal (`${n}`), `parseInt` with no radix, and
 * `Array.prototype.join` / `String.prototype.split` with a one-character separator.
 */
module Text {
  import opened Wrappers

  predicate IsDigit(c: char) {
    '0' <= c <= '9'
  }

  predicate AllDigits(s: string) {
    forall i :: 0 <= i < |s| ==> IsDigit(s[i])
  }

  function DigitChar(d: int): (c: char)
    requires 0 <= d < 10
    ensures IsDigit(c)
  {
    ('0' as int + d) as char
  }

  function DigitValue(c: char): (d: int)
    requires IsDigit(c)
    ensures 0 <= d < 10 && DigitChar(d) == c
  {
    c as int - '0' as int
  }

  /** Decimal digits of `n`, most significant first, with no leading zero. */
  function NatToString(n: nat): (s: string)
    ensures |s| >= 1 && AllDigits(s)
    ensures |s| > 1 ==> s[0] != '0'
    decreases n
  {
    if n < 10 then [DigitChar(n)] else NatToString(n / 10) + [DigitChar(n % 10)]
  }

  /** How an integer-valued number prints in a template literal or `textContent`. */
  function IntToString(n: int): (s: string)
    ensures |s| >= 1
    ensures forall i :: 0 <= i < |s| ==> IsDigit(s[i]) || s[i] == '-'
  {
    if n < 0 then "-" + NatToString(-n) else NatToString(n)
  }

  /** The number a non-empty run of decimal digits denotes. */
  function DigitsValue(s: string): nat
    requires AllDigits(s)
    decreases |s|
  {
    if |s| == 0 then 0 else 10 * DigitsValue(s[..|s| - 1]) + DigitValue(s[|s| - 1])
  }

  lemma {:induction false} DigitsValueOfNatToString(n: nat)
    ensures DigitsValue(NatToString(n)) == n
    decreases n
  {
    if n >= 10 {
      var s := NatToString(n);
      assert s[..|s| - 1] == NatToString(n / 10);
      DigitsValueOfNatToString(n / 10);
    }
  }

  predicate IsHexDigit(c: char) {
    IsDigit(c) || 'a' <= c <= 'f' || 'A' <= c <= 'F'
  }

  function HexDigitValue(c: char): (d: int)
    requires IsHexDigit(c)
    ensures 0 <= d < 16
  {
    if IsDigit(c) then DigitValue(c)
    else if 'a' <= c <= 'f' then c as int - 'a' as int + 10
    else c as int - 'A' as int + 10
  }

  function HexValue(s: string): nat
    requires forall i :: 0 <= i < |s| ==> IsHexDigit(s[i])
    decreases |s|
  {
    if |s| == 0 then 0 else 16 * HexValue(s[..|s| - 1]) + HexDigitValue(s[|s| - 1])
  }

  /**
   * The white space `parseInt` skips before the number: the ECMAScript
   * WhiteSpace and LineTerminator characters.
   */
  predicate IsWhiteSpace(c: char) {
    c == '\t' || c == '\n' || c == '\r' || c == ' ' ||
    c == '\U{000B}' || c == '\U{000C}' || c == '\U{00A0}' || c == '\U{1680}' ||
    ('\U{2000}' <= c <= '\U{200A}') || c == '\U{2028}' || c == '\U{2029}' ||
    c == '\U{202F}' || c == '\U{205F}' || c == '\U{3000}' || c == '\U{FEFF}'
  }

  function TrimStart(s: string): (t: string)
    ensures |t| <= |s| && t == s[|s| - |t|..]
    ensures forall i :: 0 <= i < |s| - |t| ==> IsWhiteSpace(s[i])
    ensures |t| > 0 ==> !IsWhiteSpace(t[0])
    decreases |s|
  {
    if |s| > 0 && IsWhiteSpace(s[0]) then TrimStart(s[1..]) else s
  }

  /** The longest prefix of `s` made of characters satisfying `p`. */
  function LongestPrefix(s: string, p: char -> bool): (d: string)
    ensures |d| <= |s| && d == s[..|d|]
    ensures forall i :: 0 <= i < |d| ==> p(d[i])
    ensures |d| < |s| ==> !p(s[|d|])
    decreases |s|
  {
    if |s| > 0 && p(s[0]) then [s[0]] + LongestPrefix(s[1..], p) else []
  }

  lemma {:induction false} LongestPrefixWhole(s: string, p: char -> bool)
    requires forall i :: 0 <= i < |s| ==> p(s[i])
    ensures LongestPrefix(s, p) == s
    decreases |s|
  {
    if |s| > 0 {
      LongestPrefixWhole(s[1..], p);
    }
  }

  /**
   * `parseInt(s)` with no radix argument, None standing for NaN: leading white
   * space is skipped, one sign is taken, a `0x`/`0X` prefix switches to hexadecimal,
   * and the longest run of digits that follows is the value.
   */
  function ParseInt(s: string): (r: Option<int>)
  {
    ParseSigned(TrimStart(s))
  }

  /** `parseInt` after the white space: an optional sign, then the magnitude. */
  function ParseSigned(t: string): Option<int> {
    var negative := |t| > 0 && t[0] == '-';
    var u := if |t| > 0 && (t[0] == '-' || t[0] == '+') then t[1..] else t;
    match ParseMagnitude(u)
    case None => None
    case Some(v) => Some(if negative then 0 - v else v)
  }

  /** `parseInt` after the sign: hexadecimal digits after `0x`/`0X`, decimal digits otherwise. */
  function ParseMagnitude(u: string): Option<nat> {
    if |u| >= 2 && u[0] == '0' && (u[1] == 'x' || u[1] == 'X') then
      var h := LongestPrefix(u[2..], IsHexDigit);
      if |h| == 0 then None else Some(HexValue(h))
    else
      var d := LongestPrefix(u, IsDigit);
      if |d| == 0 then None else Some(DigitsValue(d))
  }

  /** A run of decimal digits reads as its value. */
  lemma MagnitudeOfDigits(d: string)
    requires |d| >= 1 && AllDigits(d)
    ensures ParseMagnitude(d) == Some(DigitsValue(d))
  {
    assert !(|d| >= 2 && d[0] == '0' && (d[1] == 'x' || d[1] == 'X')) by {
      if |d| >= 2 { assert IsDigit(d[1]); }
    }
    LongestPrefixWhole(d, IsDigit);
  }

  lemma DigitNotWhiteSpace(c: char)
    requires IsDigit(c)
    ensures !IsWhiteSpace(c)
  {
  }

  /** Nothing to skip in front: `parseInt` goes straight to the sign step. */
  lemma ParseWithoutSpace(s: string)
    requires |s| >= 1 && !IsWhiteSpace(s[0])
    ensures ParseInt(s) == ParseSigned(s)
  {
    assert TrimStart(s) == s;
  }

  /** With no sign in front, the sign step keeps the magnitude. */
  lemma SignedUnsigned(u: string, v: nat)
    requires |u| >= 1 && IsDigit(u[0])
    requires ParseMagnitude(u) == Some(v)
    ensures ParseSigned(u) == Some(v)
  {
  }

  /** A minus sign in front: the sign step negates the magnitude. */
  lemma SignedNegative(u: string, v: nat)
    requires ParseMagnitude(u) == Some(v)
    ensures ParseSigned("-" + u) == Some(0 - v)
  {
    assert ("-" + u)[0] == '-' && ("-" + u)[1..] == u;
  }

  /** A run of decimal digits parses to its value. */
  lemma ParseUnsigned(d: string)
    requires |d| >= 1 && AllDigits(d)
    ensures ParseInt(d) == Some(DigitsValue(d))
  {
    DigitNotWhiteSpace(d[0]);
    ParseWithoutSpace(d);
    MagnitudeOfDigits(d);
    SignedUnsigned(d, DigitsValue(d));
  }

  /** A minus sign is not white space: `parseInt` takes it as the sign at once. */
  lemma ParseAtMinus(u: string)
    ensures ParseInt("-" + u) == ParseSigned("-" + u)
  {
    assert ("-" + u)[0] == '-';
    ParseWithoutSpace("-" + u);
  }

  /** Digits after a minus sign: the sign step gives their value negated. */
  lemma SignedOfNegative(d: string)
    requires |d| >= 1 && AllDigits(d)
    ensures ParseSigned("-" + d) == Some(0 - DigitsValue(d))
  {
    MagnitudeOfDigits(d);
    SignedNegative(d, DigitsValue(d));
  }

  /** A minus sign before a run of decimal digits negates its value. */
  lemma ParseNegative(d: string)
    requires |d| >= 1 && AllDigits(d)
    ensures ParseInt("-" + d) == Some(0 - DigitsValue(d))
  {
    ParseAtMinus(d);
    SignedOfNegative(d);
  }

  /** Printing an integer and parsing it back gives the same integer. */
  lemma ParseIntOfIntToString(n: int)
    ensures ParseInt(IntToString(n)) == Some(n)
  {
    var m: nat := if n < 0 then -n else n;
    var d := NatToString(m);
    assert |d| >= 1 && AllDigits(d);
    assert DigitsValue(d) == m by {
      DigitsValueOfNatToString(m);
    }
    if n < 0 {
      assert IntToString(n) == "-" + d;
      ParseNegative(d);
    } else {
      assert IntToString(n) == d;
      ParseUnsigned(d);
    }
  }

  /** `parts.join(sep)`. */
  function Join(parts: seq<string>, sep: char): string
    decreases |parts|
  {
    if |parts| == 0 then ""
    else if |parts| == 1 then parts[0]
    else parts[0] + [sep] + Join(parts[1..], sep)
  }

  /** Every part followed by `sep`: the text of lines that each end in a newline. */
  function Terminated(parts: seq<string>, sep: char): string
    decreases |parts|
  {
    if |parts| == 0 then "" else parts[0] + [sep] + Terminated(parts[1..], sep)
  }

  /** Terminated lines in front of a join are one longer join. */
  lemma {:induction false} TerminatedJoin(a: seq<string>, b: seq<string>, sep: char)
    requires |b| >= 1
    ensures Terminated(a, sep) + Join(b, sep) == Join(a + b, sep)
    decreases |a|
  {
    if |a| == 0 {
      assert a + b == b;
    } else {
      TerminatedJoin(a[1..], b, sep);
      assert (a + b)[1..] == a[1..] + b;
    }
  }

  /** Index of the first `c` in `s`, or -1 (`s.indexOf(c)`). */
  function IndexOfChar(s: string, c: char): (k: int)
    ensures -1 <= k < |s|
    ensures k == -1 <==> c !in s
    ensures k >= 0 ==> s[k] == c && c !in s[..k]
    decreases |s|
  {
    if |s| == 0 then -1
    else if s[0] == c then 0
    else
      var k := IndexOfChar(s[1..], c);
      assert s[1..][..k + 1] == s[1..k + 2] by {}
      if k == -1 then -1 else k + 1
  }

  /** `s.split(sep)`: the pieces between separators, at least one. */
  function Split(s: string, sep: char): (parts: seq<string>)
    ensures |parts| >= 1
    ensures forall i :: 0 <= i < |parts| ==> sep !in parts[i]
    decreases |s|
  {
    var k := IndexOfChar(s, sep);
    if k < 0 then [s]
    else
      var rest := Split(s[k + 1..], sep);
      PiecesFreeOfSep(s[..k], rest, sep);
      [s[..k]] + rest
  }

  lemma PiecesFreeOfSep(x: string, rest: seq<string>, sep: char)
    requires sep !in x
    requires forall i :: 0 <= i < |rest| ==> sep !in rest[i]
    ensures forall i :: 0 <= i < |[x] + rest| ==> sep !in ([x] + rest)[i]
  {
    assert forall i :: 0 < i <= |rest| ==> ([x] + rest)[i] == rest[i - 1];
  }

  lemma {:induction false} SplitAfterPiece(x: string, sep: char, rest: string)
    requires sep !in x
    ensures Split(x + [sep] + rest, sep) == [x] + Split(rest, sep)
  {
    var s := x + [sep] + rest;
    assert s[|x|] == sep && s[..|x|] == x;
    var k := IndexOfChar(s, sep);
    assert k <= |x| by {
      assert forall i :: 0 <= i < k ==> s[..k][i] == s[i];
    }
    assert k == |x|;
    assert s[..k] == x;
    assert s[k + 1..] == rest;
  }

  /** Splitting a join gives back the parts, provided none contains the separator. */
  lemma {:induction false} SplitJoin(parts: seq<string>, sep: char)
    requires |parts| >= 1
    requires forall i :: 0 <= i < |parts| ==> sep !in parts[i]
    ensures Split(Join(parts, sep), sep) == parts
    decreases |parts|
  {
    if |parts| == 1 {
      assert IndexOfChar(parts[0], sep) == -1;
    } else {
      SplitJoin(parts[1..], sep);
      SplitAfterPiece(parts[0], sep, Join(parts[1..], sep));
    }
  }

  /** Joining two non-empty lists is joining each and putting a separator between. */
  lemma {:induction false} JoinAppend(a: seq<string>, b: seq<string>, sep: char)
    requires |a| >= 1 && |b| >= 1
    ensures Join(a + b, sep) == Join(a, sep) + [sep] + Join(b, sep)
    decreases |a|
  {
    if |a| == 1 {
      assert (a + b)[1..] == b;
    } else {
      assert (a + b)[1..] == a[1..] + b;
      JoinAppend(a[1..], b, sep);
    }
  }
}
