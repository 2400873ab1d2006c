/**
 * The string operations the client applies to what it sends: `str.lstrip`
 * for endpoint paths, `str.join` for id lists, and the decimal notation
 * shared by `str(int)` and `int(str)`.
 */
module Text {
  import opened Wrappers

  /** `s.lstrip(c)` for a single character: drops every leading `c`. */
  function LStrip(s: string, c: char): (r: string)
    ensures |r| <= |s| && r == s[|s| - |r|..]
    ensures r == [] || r[0] != c
    ensures forall k :: 0 <= k < |s| - |r| ==> s[k] == c
    decreases |s|
  {
    if |s| > 0 && s[0] == c then LStrip(s[1..], c) else s
  }

  /** Stripping twice is stripping once. */
  lemma LStripIdempotent(s: string, c: char)
    ensures LStrip(LStrip(s, c), c) == LStrip(s, c)
  {
  }

  /** n copies of c. */
  function Repeat(c: char, n: nat): (r: string)
    ensures |r| == n && forall k :: 0 <= k < n ==> r[k] == c
    decreases n
  {
    if n == 0 then "" else [c] + Repeat(c, n - 1)
  }

  /** Any number of leading `c` are stripped alike. */
  lemma {:induction false} LStripRepeat(c: char, n: nat, s: string)
    ensures LStrip(Repeat(c, n) + s, c) == LStrip(s, c)
    decreases n
  {
    var t := Repeat(c, n) + s;
    if n == 0 {
      assert t == s;
    } else {
      assert t[1..] == Repeat(c, n - 1) + s;
      LStripRepeat(c, n - 1, s);
    }
  }

  /** `sep.join(parts)`: "" for no parts, the part itself for one, and always headed by the first part. */
  function Join(parts: seq<string>, sep: string): (r: string)
    ensures |parts| == 0 ==> r == ""
    ensures |parts| == 1 ==> r == parts[0]
    ensures |parts| > 0 ==> parts[0] <= r
    ensures |parts| > 1 ==> parts[0] + sep <= r
    decreases |parts|
  {
    if |parts| == 0 then ""
    else if |parts| == 1 then parts[0]
    else parts[0] + sep + Join(parts[1..], sep)
  }

  /** `s.split(c)`: the pieces between occurrences of `c`; never empty. */
  function Split(s: string, c: char): (parts: seq<string>)
    ensures |parts| >= 1
    ensures forall k :: 0 <= k < |parts| ==> c !in parts[k]
    decreases |s|
  {
    if |s| == 0 then [""]
    else
      var rest := Split(s[1..], c);
      if s[0] == c then [""] + rest else [[s[0]] + rest[0]] + rest[1..]
  }

  lemma {:induction false} SplitWithoutSeparator(a: string, c: char)
    requires c !in a
    ensures Split(a, c) == [a]
    decreases |a|
  {
    if |a| > 0 {
      SplitWithoutSeparator(a[1..], c);
      assert [a[0]] + a[1..] == a;
    }
  }

  lemma {:induction false} SplitAtFirstSeparator(a: string, b: string, c: char)
    requires c !in a
    ensures Split(a + [c] + b, c) == [a] + Split(b, c)
    decreases |a|
  {
    var s := a + [c] + b;
    if |a| == 0 {
      assert s[1..] == b;
    } else {
      assert s[1..] == a[1..] + [c] + b;
      SplitAtFirstSeparator(a[1..], b, c);
      assert [a[0]] + a[1..] == a;
    }
  }

  /** Splitting a join on a separator that no part contains gives the parts back. */
  lemma {:induction false} SplitJoin(parts: seq<string>, c: char)
    requires |parts| >= 1
    requires forall k :: 0 <= k < |parts| ==> c !in parts[k]
    ensures Split(Join(parts, [c]), c) == parts
    decreases |parts|
  {
    if |parts| == 1 {
      SplitWithoutSeparator(parts[0], c);
    } else {
      SplitJoin(parts[1..], c);
      SplitAtFirstSeparator(parts[0], Join(parts[1..], [c]), c);
      assert [parts[0]] + parts[1..] == parts;
    }
  }

  predicate IsDigit(ch: char) {
    '0' <= ch <= '9'
  }

  predicate AllDigits(s: string) {
    forall k :: 0 <= k < |s| ==> IsDigit(s[k])
  }

  function DigitChar(d: nat): char
    requires d < 10
  {
    (('0' as int) + d) as char
  }

  /** `str(n)` for a natural number. */
  function NatToDecimal(n: nat): string
    decreases n
  {
    if n < 10 then [DigitChar(n)] else NatToDecimal(n / 10) + [DigitChar(n % 10)]
  }

  /** `str(i)` for an integer: a "-" exactly for a negative number, then the digits of its magnitude. */
  function IntToDecimal(i: int): (r: string)
    ensures |r| > 0
    ensures r[0] == '-' <==> i < 0
    ensures i < 0 ==> AllDigits(r[1..]) && |r| > 1 && DigitsValue(r[1..]) == -i
    ensures i >= 0 ==> AllDigits(r) && DigitsValue(r) == i
  {
    var n: nat := if i < 0 then -i else i;
    NatToDecimalDigits(n);
    if i < 0 then
      assert ("-" + NatToDecimal(n))[1..] == NatToDecimal(n);
      "-" + NatToDecimal(n)
    else NatToDecimal(n)
  }

  /** The value of a run of ASCII digits, most significant first. */
  function DigitsValue(s: string): nat
    requires AllDigits(s)
    decreases |s|
  {
    if |s| == 0 then 0
    else DigitsValue(s[..|s| - 1]) * 10 + (s[|s| - 1] as int - '0' as int)
  }

  /** What `int()` accepts here: a digit or a sign first, at least one digit, and digits only after the first character. */
  predicate IsNumeral(s: string) {
    && |s| > 0
    && (IsDigit(s[0]) || ((s[0] == '+' || s[0] == '-') && |s| >= 2))
    && forall k :: 1 <= k < |s| ==> IsDigit(s[k])
  }

  /**
   * `int(s)` for a string: an optional sign followed by one or more ASCII
   * digits; None where Python raises ValueError.
   */
  function ParseDecimal(s: string): (r: Option<int>)
    ensures r.Some? ==> exists k :: 0 <= k < |s| && IsDigit(s[k])
  {
    if |s| > 0 && (s[0] == '-' || s[0] == '+') then
      var digits := s[1..];
      if |digits| > 0 && AllDigits(digits) then
        assert IsDigit(s[1]);
        Some(if s[0] == '-' then -(DigitsValue(digits) as int) else DigitsValue(digits) as int)
      else None
    else if |s| > 0 && AllDigits(s) then
      assert IsDigit(s[0]);
      Some(DigitsValue(s))
    else None
  }

  /** `int()` accepts exactly the numerals. */
  lemma ParseDecimalAcceptsNumerals(s: string)
    ensures ParseDecimal(s).Some? <==> IsNumeral(s)
  {
    if |s| > 0 && !(s[0] == '-' || s[0] == '+') && IsNumeral(s) {
      assert AllDigits(s);
    }
  }

  lemma {:induction false} NatToDecimalDigits(n: nat)
    ensures |NatToDecimal(n)| > 0 && AllDigits(NatToDecimal(n))
    ensures DigitsValue(NatToDecimal(n)) == n
    decreases n
  {
    if n >= 10 {
      NatToDecimalDigits(n / 10);
      var s := NatToDecimal(n);
      assert s[..|s| - 1] == NatToDecimal(n / 10);
    }
  }

  /** Reading back what `str` wrote: `int(str(i)) == i`. */
  lemma IntToDecimalParses(i: int)
    ensures ParseDecimal(IntToDecimal(i)) == Some(i)
  {
    var n: nat := if i < 0 then -i else i;
    NatToDecimalDigits(n);
    var s := IntToDecimal(i);
    if i < 0 {
      assert s[1..] == NatToDecimal(n);
    } else {
      assert IsDigit(s[0]);
    }
  }

  lemma {:induction false} ZerosValue(k: nat)
    ensures AllDigits(Repeat('0', k)) && DigitsValue(Repeat('0', k)) == 0
    decreases k
  {
    if k > 0 {
      ZerosValue(k - 1);
      assert Repeat('0', k)[..k - 1] == Repeat('0', k - 1);
    }
  }

  /** Leading zeros do not change the value of a run of digits. */
  lemma {:induction false} LeadingZerosValue(k: nat, t: string)
    requires AllDigits(t)
    ensures AllDigits(Repeat('0', k) + t) && DigitsValue(Repeat('0', k) + t) == DigitsValue(t)
    decreases |t|
  {
    var u := Repeat('0', k) + t;
    if |t| == 0 {
      assert u == Repeat('0', k);
      ZerosValue(k);
    } else {
      LeadingZerosValue(k, t[..|t| - 1]);
      assert u[..|u| - 1] == Repeat('0', k) + t[..|t| - 1];
    }
  }

  /** Digits read as their value. */
  lemma UnsignedDigits(d: string)
    requires |d| > 0 && AllDigits(d)
    ensures ParseDecimal(d) == Some(DigitsValue(d))
  {
    assert IsDigit(d[0]);
  }

  /** After a `+` digits read as their value, after a `-` as its negation. */
  lemma SignedDigits(sign: char, d: string)
    requires sign == '+' || sign == '-'
    requires |d| > 0 && AllDigits(d)
    ensures ParseDecimal([sign] + d) == Some(if sign == '-' then -(DigitsValue(d) as int) else DigitsValue(d))
  {
    var s := [sign] + d;
    assert s[1..] == d;
  }

  /** Zero padding in front of `str(n)` keeps a run of digits with value n. */
  lemma ZeroPadded(k: nat, n: nat)
    ensures |Repeat('0', k) + NatToDecimal(n)| > 0
    ensures AllDigits(Repeat('0', k) + NatToDecimal(n))
    ensures DigitsValue(Repeat('0', k) + NatToDecimal(n)) == n
  {
    NatToDecimalDigits(n);
    LeadingZerosValue(k, NatToDecimal(n));
  }

  /**
   * `int()` also reads numerals `str` never writes: leading zeros and an
   * explicit `+` are ignored, and "-0" and its zero-padded forms are 0.
   */
  lemma NonCanonicalNumerals(k: nat, n: nat)
    ensures ParseDecimal(Repeat('0', k) + NatToDecimal(n)) == Some(n)
    ensures ParseDecimal(['+'] + (Repeat('0', k) + NatToDecimal(n))) == Some(n)
    ensures ParseDecimal(['-'] + (Repeat('0', k) + NatToDecimal(n))) == Some(-(n as int))
  {
    var d := Repeat('0', k) + NatToDecimal(n);
    ZeroPadded(k, n);
    UnsignedDigits(d);
    SignedDigits('+', d);
    SignedDigits('-', d);
  }
}
