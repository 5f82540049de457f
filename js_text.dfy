/**
 * Models of the JavaScript string built-ins the front end relies on:
 * `String.prototype.trim`, `split` with a one-character separator,
 * `Array.prototype.join`, `Number.prototype.toString` on integers and
 * `parseInt(s, 10)`.
 */
module JsText {
  import opened Wrappers

  /**
   * ECMAScript's WhiteSpace and LineTerminator code points: the characters
   * `trim` removes and `parseInt` skips before the number.
   */
  predicate IsWhiteSpace(c: char) {
    c == '\t' || c == '\n' || c == '\U{000B}' || c == '\U{000C}' || c == '\r' || c == ' '
    || c == '\U{00A0}' || c == '\U{1680}' || ('\U{2000}' <= c <= '\U{200A}')
    || c == '\U{2028}' || c == '\U{2029}' || c == '\U{202F}' || c == '\U{205F}'
    || c == '\U{3000}' || c == '\U{FEFF}'
  }

  /** The input without its leading white space. */
  function TrimStart(s: string): (r: string)
    ensures |r| <= |s| && r == s[|s| - |r|..]
    ensures forall k :: 0 <= k < |s| - |r| ==> IsWhiteSpace(s[k])
    ensures r != [] ==> !IsWhiteSpace(r[0])
  {
    if s != [] && IsWhiteSpace(s[0]) then TrimStart(s[1..]) else s
  }

  /** The input without its trailing white space. */
  function TrimEnd(s: string): (r: string)
    ensures |r| <= |s| && r == s[..|r|]
    ensures forall k :: |r| <= k < |s| ==> IsWhiteSpace(s[k])
    ensures r != [] ==> !IsWhiteSpace(r[|r| - 1])
  {
    if s != [] && IsWhiteSpace(s[|s| - 1]) then TrimEnd(s[..|s| - 1]) else s
  }

  /** `s.trim()`. */
  function Trim(s: string): (r: string)
    ensures |r| <= |s|
    ensures r != [] ==> !IsWhiteSpace(r[0]) && !IsWhiteSpace(r[|r| - 1])
  {
    TrimEnd(TrimStart(s))
  }

  /**
   * What `trim` returns: a contiguous piece of the input, everything cut
   * off on either side is white space, and the piece neither starts nor
   * ends with white space.
   */
  lemma TrimIsInfix(s: string)
    ensures exists i, j :: (0 <= i <= j <= |s| && Trim(s) == s[i..j]
      && (forall k :: 0 <= k < i ==> IsWhiteSpace(s[k]))
      && (forall k :: j <= k < |s| ==> IsWhiteSpace(s[k])))
    ensures Trim(s) != [] ==> !IsWhiteSpace(Trim(s)[0]) && !IsWhiteSpace(Trim(s)[|Trim(s)| - 1])
  {
    var i, j := TrimCut(s);
    assert 0 <= i <= j <= |s| && Trim(s) == s[i..j]
      && (forall k :: 0 <= k < i ==> IsWhiteSpace(s[k]))
      && (forall k :: j <= k < |s| ==> IsWhiteSpace(s[k]));
  }

  /** Where `trim` cuts: before `i` and from `j` on. */
  lemma TrimCut(s: string) returns (i: nat, j: nat)
    ensures i <= j <= |s| && Trim(s) == s[i..j]
    ensures forall k :: 0 <= k < i ==> IsWhiteSpace(s[k])
    ensures forall k :: j <= k < |s| ==> IsWhiteSpace(s[k])
  {
    i := TrimStartCut(s);
    var n := TrimEndCut(s[i..]);
    j := i + n;
    TrimOfCuts(s, i, n);
    WhiteAfterCut(s, i, n);
  }

  /** Cutting `i` characters off the front and keeping `n` of the rest is the slice `s[i..i + n]`. */
  lemma TrimOfCuts(s: string, i: nat, n: nat)
    requires i <= |s| && n <= |s| - i
    requires TrimStart(s) == s[i..] && TrimEnd(s[i..]) == s[i..][..n]
    ensures Trim(s) == s[i..i + n]
  {
    SliceOfSuffix(s, i, n);
  }

  /** `TrimStart` keeps `s[i..]` and drops white space before `i`. */
  lemma TrimStartCut(s: string) returns (i: nat)
    ensures i <= |s| && TrimStart(s) == s[i..]
    ensures forall k :: 0 <= k < i ==> IsWhiteSpace(s[k])
  {
    i := |s| - |TrimStart(s)|;
  }

  /** `TrimEnd` keeps `t[..n]` and drops white space from `n` on. */
  lemma TrimEndCut(t: string) returns (n: nat)
    ensures n <= |t| && TrimEnd(t) == t[..n]
    ensures forall k :: n <= k < |t| ==> IsWhiteSpace(t[k])
  {
    n := |TrimEnd(t)|;
  }

  lemma SliceOfSuffix(s: string, i: nat, n: nat)
    requires i <= |s| && n <= |s| - i
    ensures s[i..][..n] == s[i..i + n]
  {
  }

  /** White space of the suffix `s[i..]` from `n` on is white space of `s` from `i + n` on. */
  lemma WhiteAfterCut(s: string, i: nat, n: nat)
    requires i <= |s| && n <= |s| - i
    requires forall k :: n <= k < |s| - i ==> IsWhiteSpace(s[i..][k])
    ensures forall k :: i + n <= k < |s| ==> IsWhiteSpace(s[k])
  {
    forall k | i + n <= k < |s| ensures IsWhiteSpace(s[k]) {
      assert s[k] == s[i..][k - i];
    }
  }

  /** The trimmed prompt is empty exactly when the prompt is all white space. */
  lemma TrimEmptyIff(s: string)
    ensures Trim(s) == [] <==> forall k :: 0 <= k < |s| ==> IsWhiteSpace(s[k])
  {
    var t := TrimStart(s);
    if Trim(s) == [] {
      assert t == [];
    }
  }

  /** Trimming twice is trimming once. */
  lemma TrimIdempotent(s: string)
    ensures Trim(Trim(s)) == Trim(s)
  {
    var r := Trim(s);
    TrimIsInfix(s);
    assert TrimStart(r) == r;
    assert TrimEnd(r) == r;
  }

  /** `s.split(sep)` for a one-character separator: the runs between separators, empty runs included. */
  function Split(s: string, sep: char): (parts: seq<string>)
    ensures |parts| >= 1
    ensures forall i :: 0 <= i < |parts| ==> sep !in parts[i]
  {
    if s == [] then [""]
    else
      var rest := Split(s[1..], sep);
      if s[0] == sep then [""] + rest else [[s[0]] + rest[0]] + rest[1..]
  }

  /** The summed lengths of the parts. */
  function TotalLength(parts: seq<string>): nat {
    if parts == [] then 0 else |parts[0]| + TotalLength(parts[1..])
  }

  /** `parts.join(sep)`: the parts with `sep` between neighbours; the empty array joins to "". */
  function Join(parts: seq<string>, sep: string): (r: string)
    ensures parts == [] ==> r == ""
    ensures parts != [] ==> |r| == TotalLength(parts) + (|parts| - 1) * |sep|
    ensures parts != [] ==> |parts[0]| <= |r| && r[..|parts[0]|] == parts[0]
  {
    if parts == [] then ""
    else if |parts| == 1 then parts[0]
    else parts[0] + sep + Join(parts[1..], sep)
  }

  /** Splitting at a character and joining with it gives back the string. */
  lemma {:induction false} JoinSplit(s: string, sep: char)
    ensures Join(Split(s, sep), [sep]) == s
  {
    if s != [] {
      var rest := Split(s[1..], sep);
      JoinSplit(s[1..], sep);
      if s[0] == sep {
        assert Split(s, sep) == [""] + rest;
      } else {
        var parts := Split(s, sep);
        assert parts == [[s[0]] + rest[0]] + rest[1..];
        if |rest| == 1 {
          assert Join(parts, [sep]) == [s[0]] + rest[0];
        } else {
          assert parts[1..] == rest[1..];
          assert Join(parts, [sep]) == [s[0]] + rest[0] + [sep] + Join(rest[1..], [sep]);
        }
        assert s == [s[0]] + s[1..];
      }
    }
  }

  predicate IsDigit(c: char) {
    '0' <= c <= '9'
  }

  function DigitChar(d: nat): (c: char)
    requires d < 10
    ensures IsDigit(c) && DigitValue(c) == d
  {
    ('0' as int + d) as char
  }

  function DigitValue(c: char): (d: nat)
    requires IsDigit(c)
    ensures d < 10
  {
    (c as int - '0' as int)
  }

  /** The decimal digits of a non-negative integer, most significant first, without leading zeros. */
  function Digits(n: nat): (ds: string)
    ensures ds != [] && forall k :: 0 <= k < |ds| ==> IsDigit(ds[k])
    ensures ds[0] == '0' <==> n == 0
  {
    if n < 10 then [DigitChar(n)] else Digits(n / 10) + [DigitChar(n % 10)]
  }

  /** The number a string of decimal digits denotes. */
  function DigitsValue(ds: string): nat
    requires forall k :: 0 <= k < |ds| ==> IsDigit(ds[k])
  {
    if ds == [] then 0 else DigitsValue(ds[..|ds| - 1]) * 10 + DigitValue(ds[|ds| - 1])
  }

  /**
   * `n.toString()` for an integer `n`: a `-` exactly for negative numbers,
   * then the decimal digits of the magnitude, with no leading zero except
   * for `0` itself.
   */
  function IntToString(n: int): (s: string)
    ensures s != []
    ensures s[0] == '-' <==> n < 0
    ensures var ds := if n < 0 then s[1..] else s;
      && ds != []
      && (forall k :: 0 <= k < |ds| ==> IsDigit(ds[k]))
      && Decimal(ds) == (if n < 0 then -n else n)
      && (ds[0] == '0' <==> n == 0)
  {
    var m: nat := if n < 0 then -n else n;
    DigitsValueOfDigits(m);
    DigitsValueIsDecimal(Digits(m));
    if n < 0 then "-" + Digits(m) else Digits(m)
  }

  function Pow10(k: nat): (p: nat)
    ensures p >= 1
  {
    if k == 0 then 1 else 10 * Pow10(k - 1)
  }

  /**
   * Reference reading of a digit string, most significant digit first:
   * the leading digit weighs `10^(|ds| - 1)`.
   */
  function Decimal(ds: string): nat
    requires forall k :: 0 <= k < |ds| ==> IsDigit(ds[k])
  {
    if ds == [] then 0 else DigitValue(ds[0]) * Pow10(|ds| - 1) + Decimal(ds[1..])
  }

  /** Appending a digit shifts the reading one place left. */
  lemma {:induction false} DecimalSnoc(ds: string, c: char)
    requires forall k :: 0 <= k < |ds| ==> IsDigit(ds[k])
    requires IsDigit(c)
    ensures Decimal(ds + [c]) == Decimal(ds) * 10 + DigitValue(c)
  {
    var e := ds + [c];
    if ds == [] {
      assert e == [c];
    } else {
      assert e[0] == ds[0] && e[1..] == ds[1..] + [c];
      DecimalSnoc(ds[1..], c);
      var p := Pow10(|ds| - 1);
      assert Pow10(|e| - 1) == 10 * p;
      ShiftPlace(DigitValue(ds[0]), p, Decimal(ds[1..]), DigitValue(c));
    }
  }

  /** The arithmetic of one shift: the leading digit's weight grows tenfold along with the rest. */
  lemma ShiftPlace(v: int, p: int, x: int, d: int)
    ensures v * (10 * p) + (x * 10 + d) == (v * p + x) * 10 + d
  {
  }

  /** The right-to-left accumulation `DigitsValue` agrees with the reference reading. */
  lemma {:induction false} DigitsValueIsDecimal(ds: string)
    requires forall k :: 0 <= k < |ds| ==> IsDigit(ds[k])
    ensures DigitsValue(ds) == Decimal(ds)
  {
    if ds != [] {
      var p := ds[..|ds| - 1];
      DigitsValueIsDecimal(p);
      DecimalSnoc(p, ds[|ds| - 1]);
      assert p + [ds[|ds| - 1]] == ds;
    }
  }

  /** The longest prefix made of decimal digits. */
  function DigitRun(s: string): (ds: string)
    ensures |ds| <= |s| && ds == s[..|ds|]
    ensures forall k :: 0 <= k < |ds| ==> IsDigit(ds[k])
    ensures |ds| < |s| ==> !IsDigit(s[|ds|])
  {
    if s != [] && IsDigit(s[0]) then [s[0]] + DigitRun(s[1..]) else []
  }

  /** A digit, or a sign followed by a digit: what `parseInt` needs to find a number. */
  predicate StartsNumber(t: string) {
    (t != [] && IsDigit(t[0])) || (|t| >= 2 && (t[0] == '-' || t[0] == '+') && IsDigit(t[1]))
  }

  /**
   * `parseInt(s, 10)`: skip leading white space, read an optional sign, then
   * the longest run of decimal digits; `None` stands for NaN (no digits).
   */
  function ParseInt(s: string): (r: Option<int>)
    ensures r.Some? <==> StartsNumber(TrimStart(s))
    ensures r.Some? && TrimStart(s)[0] == '-' ==> r.value <= 0
    ensures r.Some? && TrimStart(s)[0] != '-' ==> r.value >= 0
  {
    ReadSigned(TrimStart(s))
  }

  /** The optional sign in front of the digits `parseInt` reads. */
  datatype Sign = NoSign | Plus | Minus

  /** The sign a text starts with, if any. */
  function SignOf(t: string): (sign: Sign)
    ensures sign == Minus <==> t != [] && t[0] == '-'
    ensures sign == Plus <==> t != [] && t[0] == '+'
  {
    if t != [] && t[0] == '-' then Minus else if t != [] && t[0] == '+' then Plus else NoSign
  }

  /** The text after its sign character, if it has one. */
  function AfterSign(t: string): string {
    if SignOf(t) == NoSign then t else t[1..]
  }

  /** A magnitude with the sign in front of it. */
  function Signed(sign: Sign, m: nat): int {
    if sign == Minus then -(m as int) else m
  }

  /** The part of `parseInt` after the white space: an optional sign, then the digit run. */
  function ReadSigned(t: string): (r: Option<int>)
    ensures r.Some? <==> StartsNumber(t)
    ensures r.Some? && t[0] == '-' ==> r.value <= 0
    ensures r.Some? && t[0] != '-' ==> r.value >= 0
  {
    var ds := DigitRun(AfterSign(t));
    if ds == [] then None else Some(Signed(SignOf(t), DigitsValue(ds)))
  }

  lemma {:induction false} DigitsValueOfDigits(n: nat)
    ensures DigitsValue(Digits(n)) == n
  {
    if n >= 10 {
      DigitsValueOfDigits(n / 10);
      var ds := Digits(n);
      assert ds[..|ds| - 1] == Digits(n / 10);
    }
  }

  lemma DigitRunOfDigits(ds: string)
    requires forall k :: 0 <= k < |ds| ==> IsDigit(ds[k])
    ensures DigitRun(ds) == ds
  {
  }

  /** Leading white space before a non-white-space start is all `TrimStart` removes. */
  lemma {:induction false} TrimStartSkips(w: string, x: string)
    requires forall k :: 0 <= k < |w| ==> IsWhiteSpace(w[k])
    requires x == [] || !IsWhiteSpace(x[0])
    ensures TrimStart(w + x) == x
  {
    if w == [] {
      assert w + x == x;
    } else {
      assert (w + x)[1..] == w[1..] + x;
      TrimStartSkips(w[1..], x);
    }
  }

  /** The digit run stops at the first character that is not a digit. */
  lemma {:induction false} DigitRunStops(ds: string, t: string)
    requires forall k :: 0 <= k < |ds| ==> IsDigit(ds[k])
    requires t == [] || !IsDigit(t[0])
    ensures DigitRun(ds + t) == ds
  {
    if ds == [] {
      assert ds + t == t;
    } else {
      assert (ds + t)[1..] == ds[1..] + t;
      DigitRunStops(ds[1..], t);
    }
  }

  function SignText(sign: Sign): string {
    match sign
    case NoSign => ""
    case Plus => "+"
    case Minus => "-"
  }

  /**
   * What `parseInt(s, 10)` reads: after white space `w` and an optional
   * sign, the longest run of digits `ds` in base 10; whatever follows the
   * run is ignored.
   */
  lemma ParseIntReads(w: string, sign: Sign, ds: string, t: string)
    requires forall k :: 0 <= k < |w| ==> IsWhiteSpace(w[k])
    requires ds != [] && forall k :: 0 <= k < |ds| ==> IsDigit(ds[k])
    requires t == [] || !IsDigit(t[0])
    ensures ParseInt(w + SignText(sign) + ds + t) == Some(Signed(sign, Decimal(ds)))
  {
    ConcatAssoc(w + SignText(sign), ds, t);
    ConcatAssoc(w, SignText(sign), ds + t);
    ParseIntSigned(w, sign, ds, t);
    DigitsValueIsDecimal(ds);
  }

  /** `ParseIntReads` with the concatenation grouped to the right and the value given by `DigitsValue`. */
  lemma ParseIntSigned(w: string, sign: Sign, ds: string, t: string)
    requires forall k :: 0 <= k < |w| ==> IsWhiteSpace(w[k])
    requires ds != [] && forall k :: 0 <= k < |ds| ==> IsDigit(ds[k])
    requires t == [] || !IsDigit(t[0])
    ensures ParseInt(w + (SignText(sign) + (ds + t))) == Some(Signed(sign, DigitsValue(ds)))
  {
    var x := SignText(sign) + (ds + t);
    SignedStartsNonWhite(sign, ds + t);
    ReadSignedDigits(sign, ds, t);
    ParseIntAfterWhite(w, x, Some(Signed(sign, DigitsValue(ds))));
  }

  /** A sign or a digit is not white space. */
  lemma SignedStartsNonWhite(sign: Sign, y: string)
    requires y != [] && IsDigit(y[0])
    ensures !IsWhiteSpace((SignText(sign) + y)[0])
  {
    match sign
    case NoSign => assert SignText(sign) + y == y;
    case Plus => assert (SignText(sign) + y)[0] == '+';
    case Minus => assert (SignText(sign) + y)[0] == '-';
  }

  /** Leading white space does not change what `parseInt` reads. */
  lemma ParseIntAfterWhite(w: string, x: string, r: Option<int>)
    requires forall k :: 0 <= k < |w| ==> IsWhiteSpace(w[k])
    requires x == [] || !IsWhiteSpace(x[0])
    requires ReadSigned(x) == r
    ensures ParseInt(w + x) == r
  {
    TrimStartSkips(w, x);
  }

  /** An optional sign, a digit run and a non-digit tail read as the run's value with that sign. */
  lemma ReadSignedDigits(sign: Sign, ds: string, t: string)
    requires ds != [] && forall k :: 0 <= k < |ds| ==> IsDigit(ds[k])
    requires t == [] || !IsDigit(t[0])
    ensures ReadSigned(SignText(sign) + (ds + t)) == Some(Signed(sign, DigitsValue(ds)))
  {
    var y := ds + t;
    DigitRunStops(ds, t);
    assert y[0] == ds[0];
    ReadSignedRun(sign, y, ds);
  }

  /** An optional sign in front of a text whose digit run is `ds` reads as the value of `ds` with that sign. */
  lemma ReadSignedRun(sign: Sign, y: string, ds: string)
    requires ds != [] && forall k :: 0 <= k < |ds| ==> IsDigit(ds[k])
    requires y != [] && IsDigit(y[0]) && DigitRun(y) == ds
    ensures ReadSigned(SignText(sign) + y) == Some(Signed(sign, DigitsValue(ds)))
  {
    SignThenText(sign, y);
  }

  /** A sign character in front of a text that starts with a digit is read as that sign. */
  lemma SignThenText(sign: Sign, y: string)
    requires y != [] && IsDigit(y[0])
    ensures SignOf(SignText(sign) + y) == sign && AfterSign(SignText(sign) + y) == y
  {
    var x := SignText(sign) + y;
    match sign
    case NoSign => assert x == y;
    case Plus => assert x[0] == '+' && x[1..] == y;
    case Minus => assert x[0] == '-' && x[1..] == y;
  }

  lemma ConcatAssoc<T>(a: seq<T>, b: seq<T>, c: seq<T>)
    ensures a + b + c == a + (b + c)
  {
  }

  /** `parseInt(n.toString(), 10)` gives `n` back: the decimal round trip of the credit balance. */
  lemma ParseIntToString(n: int)
    ensures ParseInt(IntToString(n)) == Some(n)
  {
    var s := IntToString(n);
    assert !IsWhiteSpace(s[0]);
    assert TrimStart(s) == s;
    var m := if n < 0 then -n else n;
    DigitsValueOfDigits(m);
    DigitRunOfDigits(Digits(m));
    if n < 0 {
      assert s[1..] == Digits(m);
      assert DigitRun(s[1..]) == Digits(m);
      assert DigitsValue(Digits(m)) == m;
    } else {
      assert s[0] != '-' && s[0] != '+';
      assert DigitRun(s) == s;
      assert DigitsValue(s) == n;
    }
  }
}
