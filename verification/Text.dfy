/**
  Strings as the Go sources handle them: search for a byte, decimal numbers as
  fmt prints and scans them, substitution of single characters. A character
  stands for one byte.
 */
module Text {
  import opened Wrappers

  function IndexFrom(s: string, c: char, i: nat): (k: nat)
    requires i <= |s|
    ensures i <= k <= |s|
    ensures k < |s| ==> s[k] == c
    ensures forall j :: i <= j < k ==> s[j] != c
    decreases |s| - i
  {
    if i == |s| || s[i] == c then i else IndexFrom(s, c, i + 1)
  }

  /** The first position of `c`, or the end. */
  function IndexOf(s: string, c: char): (i: nat)
    ensures i <= |s|
    ensures i < |s| ==> s[i] == c
    ensures forall j :: 0 <= j < i ==> s[j] != c
    ensures i == |s| <==> c !in s
  {
    IndexFrom(s, c, 0)
  }

  lemma IndexAt(a: string, c: char, b: string)
    requires c !in a
    ensures IndexOf(a + [c] + b, c) == |a|
  {
    var s := a + [c] + b;
    assert s[|a|] == c;
    assert forall j :: 0 <= j < |a| ==> s[j] == a[j];
  }

  /** A string cut at its first `c` falls into the parts it was joined from. */
  lemma CutAt(a: string, c: char, b: string)
    requires c !in a
    ensures IndexOf(a + [c] + b, c) == |a|
    ensures (a + [c] + b)[..|a|] == a
    ensures (a + [c] + b)[|a| + 1..] == b
  {
    IndexAt(a, c, b);
  }

  // ------------------------------------------------------------------------- decimal numbers

  predicate IsDigit(c: char) {
    '0' <= c <= '9'
  }

  predicate AllDigits(s: string) {
    forall i :: 0 <= i < |s| ==> IsDigit(s[i])
  }

  /** A natural number as fmt prints it with %d. */
  function Digits(n: nat): string {
    var d := ['0' + (n % 10) as char];
    if n < 10 then d else Digits(n / 10) + d
  }

  function Value(s: string): nat
    requires AllDigits(s)
  {
    if s == "" then 0
    else
      var n := |s| - 1;
      Value(s[..n]) * 10 + (s[n] - '0') as nat
  }

  lemma {:induction false} DigitsValue(n: nat)
    ensures Digits(n) != "" && AllDigits(Digits(n)) && Value(Digits(n)) == n
  {
    var d := ['0' + (n % 10) as char];
    if n < 10 {
      assert Digits(n) == d;
      assert d[..0] == "";
    } else {
      DigitsValue(n / 10);
      assert Digits(n)[..|Digits(n)| - 1] == Digits(n / 10);
    }
  }

  const MAX_INT: int := 0x7fff_ffff_ffff_ffff

  predicate IsBlank(c: char) {
    c == ' ' || c == '\t' || c == '\r' || c as int == 11 || c as int == 12
  }

  function SkipBlanks(s: string): string {
    if s != "" && IsBlank(s[0]) then SkipBlanks(s[1..]) else s
  }

  /** The digits at the front of a string. */
  function DigitRun(s: string): (d: string)
    ensures AllDigits(d)
    ensures d <= s
    ensures |d| < |s| ==> !IsDigit(s[|d|])
  {
    if s == "" || !IsDigit(s[0]) then "" else [s[0]] + DigitRun(s[1..])
  }

  /**
    What fmt.Sscanf with %d reads from the front of a string: blanks, a sign, digits.
    Nothing is read without digits or outside of the 64-bit range.
   */
  function ScanInt(s: string): Option<int> {
    var t := SkipBlanks(s);
    var negative := t != "" && t[0] == '-';
    var d := DigitRun(if t != "" && (t[0] == '-' || t[0] == '+') then t[1..] else t);
    if d == "" then None
    else
      var n: int := Value(d);
      var v := if negative then -n else n;
      if -MAX_INT - 1 <= v <= MAX_INT then Some(v) else None
  }

  lemma DigitRunAll(s: string)
    requires AllDigits(s)
    ensures DigitRun(s) == s
  {
    assert |DigitRun(s)| == |s|;
  }

  /** Scanning undoes printing. */
  lemma ScanDigits(n: nat)
    requires n <= MAX_INT
    ensures ScanInt(Digits(n)) == Some(n)
  {
    DigitsValue(n);
    var s := Digits(n);
    DigitRunAll(s);
    assert IsDigit(s[0]);
    assert SkipBlanks(s) == s;
  }

  predicate AllBlank(s: string) {
    forall i :: 0 <= i < |s| ==> IsBlank(s[i])
  }

  lemma {:induction false} SkipsBlanks(blanks: string, rest: string)
    requires AllBlank(blanks) && (rest == "" || !IsBlank(rest[0]))
    ensures SkipBlanks(blanks + rest) == rest
  {
    if blanks == "" {
      assert blanks + rest == rest;
    } else {
      assert (blanks + rest)[1..] == blanks[1..] + rest;
      SkipsBlanks(blanks[1..], rest);
    }
  }

  lemma {:induction false} RunsDigits(d: string, rest: string)
    requires AllDigits(d) && (rest == "" || !IsDigit(rest[0]))
    ensures DigitRun(d + rest) == d
  {
    if d == "" {
      assert d + rest == rest;
    } else {
      assert (d + rest)[1..] == d[1..] + rest;
      RunsDigits(d[1..], rest);
    }
  }

  function Signed(negative: bool, n: int): int {
    if negative then 0 - n else n
  }

  lemma ScanSigned(t: string, negative: bool, d: string)
    requires AllDigits(d) && (t == "" || !IsBlank(t[0])) && negative == (t != "" && t[0] == '-')
    requires DigitRun(if t != "" && (t[0] == '-' || t[0] == '+') then t[1..] else t) == d
    ensures var n := Signed(negative, Value(d));
      ScanInt(t) == if d != "" && -MAX_INT - 1 <= n <= MAX_INT then Some(n) else None
  {
    assert SkipBlanks(t) == t;
  }

  lemma ScanSkips(blanks: string, t: string)
    requires AllBlank(blanks) && (t == "" || !IsBlank(t[0]))
    ensures ScanInt(blanks + t) == ScanInt(t)
  {
    SkipsBlanks(blanks, t);
    assert SkipBlanks(t) == t;
  }

  /** Neither a blank nor a sign nor a digit. */
  predicate IsOther(c: char) {
    !IsBlank(c) && c != '+' && c != '-' && !IsDigit(c)
  }

  /** Scanning from the sign on, if there is one. */
  lemma ScanUnsigned(d: string, rest: string)
    requires AllDigits(d) && (rest == "" || (!IsDigit(rest[0]) && (d == "" ==> IsOther(rest[0]))))
    ensures ScanInt(d + rest) == if d != "" && Value(d) <= MAX_INT then Some(Value(d)) else None
  {
    var t := d + rest;
    assert t != "" ==> t[0] == if d != "" then d[0] else rest[0];
    assert d != "" ==> IsDigit(d[0]);
    RunsDigits(d, rest);
    ScanSigned(t, false, d);
  }

  lemma ScanWithSign(sign: char, d: string, rest: string)
    requires (sign == '+' || sign == '-') && AllDigits(d) && (rest == "" || !IsDigit(rest[0]))
    ensures var n := Signed(sign == '-', Value(d));
      ScanInt([sign] + (d + rest)) == if d != "" && -MAX_INT - 1 <= n <= MAX_INT then Some(n) else None
  {
    var t := [sign] + (d + rest);
    assert t[1..] == d + rest;
    RunsDigits(d, rest);
    ScanSigned(t, sign == '-', d);
  }

  /**
    What is scanned from any text: blanks, perhaps a sign, then digits, whatever follows them.
    The number counts if it fits 64 bits, and without digits nothing is scanned.
   */
  lemma ScanMeans(blanks: string, sign: string, d: string, rest: string)
    requires AllBlank(blanks) && (sign == "" || sign == "+" || sign == "-") && AllDigits(d)
    requires rest == "" || (!IsDigit(rest[0]) && (d == "" && sign == "" ==> IsOther(rest[0])))
    ensures var n := Signed(sign == "-", Value(d));
      ScanInt(blanks + (sign + (d + rest))) == if d != "" && -MAX_INT - 1 <= n <= MAX_INT then Some(n) else None
  {
    var t := sign + (d + rest);
    assert t != "" ==> t[0] == if sign != "" then sign[0] else if d != "" then d[0] else rest[0];
    assert d != "" ==> IsDigit(d[0]);
    ScanSkips(blanks, t);
    if sign == "" {
      assert t == d + rest;
      ScanUnsigned(d, rest);
    } else {
      assert sign == [sign[0]];
      ScanWithSign(sign[0], d, rest);
    }
  }

  // ----------------------------------------------------------------------------- substitution

  /** strings.ReplaceAll for a pattern of one character. */
  function ReplaceChar(s: string, c: char, put: string): string {
    if s == "" then "" else (if s[0] == c then put else [s[0]]) + ReplaceChar(s[1..], c, put)
  }

  lemma {:induction false} ReplaceConcat(a: string, b: string, c: char, put: string)
    ensures ReplaceChar(a + b, c, put) == ReplaceChar(a, c, put) + ReplaceChar(b, c, put)
    decreases |a|
  {
    if a == "" {
      assert a + b == b;
    } else {
      assert (a + b)[1..] == a[1..] + b;
      ReplaceConcat(a[1..], b, c, put);
    }
  }

  // ------------------------------------------------------------------------- trimming of space

  predicate IsSpace(c: char) {
    c == ' ' || 9 <= c as int <= 13
  }

  function TrimLeft(s: string): (t: string)
    ensures t == "" || !IsSpace(t[0])
    ensures |t| <= |s|
    ensures t == "" || t[|t| - 1] == s[|s| - 1]
    ensures s == "" || IsSpace(s[0]) || t == s
  {
    if s != "" && IsSpace(s[0]) then TrimLeft(s[1..]) else s
  }

  function TrimRight(s: string): (t: string)
    ensures t == "" || !IsSpace(t[|t| - 1])
    ensures |t| <= |s|
    ensures t == "" || t[0] == s[0]
    ensures s == "" || IsSpace(s[|s| - 1]) || t == s
  {
    if s != "" && IsSpace(s[|s| - 1]) then TrimRight(s[..|s| - 1]) else s
  }

  /** strings.TrimSpace on ASCII. */
  function Trim(s: string): (t: string)
    ensures t == "" || (!IsSpace(t[0]) && !IsSpace(t[|t| - 1]))
  {
    TrimRight(TrimLeft(s))
  }

  predicate AllSpace(s: string) {
    forall i :: 0 <= i < |s| ==> IsSpace(s[i])
  }

  lemma {:induction false} TrimLeftMeans(s: string) returns (a: string)
    ensures AllSpace(a) && s == a + TrimLeft(s)
  {
    if s != "" && IsSpace(s[0]) {
      var rest := TrimLeftMeans(s[1..]);
      a := [s[0]] + rest;
      OneMoreSpace(s, rest, TrimLeft(s[1..]));
    } else {
      a := "";
    }
  }

  lemma OneMoreSpace(s: string, a: string, t: string)
    requires s != "" && IsSpace(s[0]) && AllSpace(a) && s[1..] == a + t
    ensures AllSpace([s[0]] + a) && s == [s[0]] + a + t
  {
    assert s == [s[0]] + s[1..];
  }

  lemma {:induction false} TrimRightMeans(s: string) returns (b: string)
    ensures AllSpace(b) && s == TrimRight(s) + b
  {
    if s != "" && IsSpace(s[|s| - 1]) {
      b := TrimRightMeans(s[..|s| - 1]);
      assert s == s[..|s| - 1] + [s[|s| - 1]];
      b := b + [s[|s| - 1]];
    } else {
      b := "";
    }
  }

  /** Trimming takes away space at both ends and nothing else. */
  lemma TrimMeans(s: string) returns (a: string, b: string)
    ensures AllSpace(a) && AllSpace(b) && s == a + Trim(s) + b
    ensures Trim(s) == "" || (!IsSpace(Trim(s)[0]) && !IsSpace(Trim(s)[|Trim(s)| - 1]))
  {
    a := TrimLeftMeans(s);
    b := TrimRightMeans(TrimLeft(s));
    assert a + (Trim(s) + b) == a + Trim(s) + b;
  }

  lemma TrimTwice(s: string)
    ensures Trim(Trim(s)) == Trim(s)
  {
    var t := Trim(s);
    if t != "" {
      assert TrimLeft(t) == t;
      assert TrimRight(t) == t;
    }
  }
}
