/** Integer text conversions the core relies on: std::to_string and stream
    output of an int, std::stoi, and std::stoul with base 16, the last two
    for a platform whose long is 32 bits wide. */
module Numeric {
  import opened Wrappers
  import opened Text

  const Int32Min: int := -0x8000_0000
  const Int32Max: int := 0x7FFF_FFFF
  /** One more than the largest 32-bit unsigned long. */
  const UInt32Limit: int := 0x1_0000_0000

  /** The characters isspace accepts in the C locale. */
  const CSpace: set<char> := {' ', '\t', '\n', '\U{000B}', '\U{000C}', '\r'}

  type Base = b: nat | b == 10 || b == 16 witness 10

  predicate IsDigitIn(c: char, b: Base) {
    ('0' <= c <= '9') || (b == 16 && (('a' <= c <= 'f') || ('A' <= c <= 'F')))
  }

  function DigitValue(c: char, b: Base): (d: nat)
    requires IsDigitIn(c, b)
    ensures d < b
  {
    if '0' <= c <= '9' then c as nat - '0' as nat
    else if 'a' <= c <= 'f' then c as nat - 'a' as nat + 10
    else c as nat - 'A' as nat + 10
  }

  predicate AllDigits(s: string, b: Base) {
    forall k :: 0 <= k < |s| ==> IsDigitIn(s[k], b)
  }

  /** The value of a string of digits in base b, most significant first. */
  function ValueOf(s: string, b: Base): nat
    requires AllDigits(s, b)
  {
    if s == [] then 0 else ValueOf(s[..|s| - 1], b) * b + DigitValue(s[|s| - 1], b)
  }

  /** The length of the longest prefix of s made of base-b digits. */
  function DigitRun(s: string, b: Base): (n: nat)
    ensures n <= |s|
    ensures AllDigits(s[..n], b)
    ensures n < |s| ==> !IsDigitIn(s[n], b)
  {
    if s == [] || !IsDigitIn(s[0], b) then 0
    else
      var n := 1 + DigitRun(s[1..], b);
      assert forall k :: 1 <= k < n ==> s[..n][k] == s[1..][..n - 1][k - 1];
      n
  }

  function DecimalDigit(d: nat): (c: char)
    requires d < 10
    ensures IsDigitIn(c, 10) && DigitValue(c, 10) == d
  {
    ('0' as nat + d) as char
  }

  /** Decimal text of a natural number, without leading zeros. */
  function NatToDecimal(n: nat): (s: string)
    ensures |s| > 0 && AllDigits(s, 10) && ValueOf(s, 10) == n
    ensures s[0] == '0' <==> n == 0
    ensures |s| > 1 ==> s[0] != '0'
  {
    if n < 10 then [DecimalDigit(n)]
    else
      var s := NatToDecimal(n / 10) + [DecimalDigit(n % 10)];
      assert s[..|s| - 1] == NatToDecimal(n / 10);
      s
  }

  /** std::to_string / operator<< of an int: a minus sign for a negative
      number, then the decimal digits of its magnitude. */
  function IntToDecimal(i: int): (s: string)
    ensures |s| > 0 && (s[0] == '-' <==> i < 0)
    ensures var digits := if i < 0 then s[1..] else s;
      |digits| > 0 && AllDigits(digits, 10) && ValueOf(digits, 10) == (if i < 0 then -i else i) &&
      (|digits| > 1 ==> digits[0] != '0')
  {
    if i < 0 then "-" + NatToDecimal(-i) else NatToDecimal(i)
  }

  /** The part of the input that strtol / strtoul read: an optional sign and
      a run of digits (after an optional 0x or 0X in base 16), following any
      leading isspace characters. */
  datatype Subject = Subject(negative: bool, digits: string)

  /** The index just after an optional '+' or '-' at index i of s. */
  function SignEnd(s: string, i: nat): (j: nat)
    requires i <= |s|
    ensures j <= |s|
  {
    if i < |s| && (s[i] == '-' || s[i] == '+') then i + 1 else i
  }

  /** Whether a "0x" or "0X" prefix followed by a hex digit starts at index j
      of s, in base 16. */
  predicate HexPrefixAt(s: string, j: nat, b: Base)
  {
    b == 16 && j + 2 < |s| && s[j] == '0' && (s[j + 1] == 'x' || s[j + 1] == 'X') && IsDigitIn(s[j + 2], 16)
  }

  /** The subject sequence of s in base b, or None when it holds no digit
      (the case std::stoi and std::stoul report with invalid_argument).
      Characters after the digits are ignored, as those functions do. */
  function SubjectOf(s: string, b: Base): (r: Option<Subject>)
    ensures var j := SignEnd(s, FirstNotIn(s, CSpace));
      r.None? <==> j == |s| || !IsDigitIn(s[j], b)
    ensures r.Some? ==> (r.value.negative <==> s[FirstNotIn(s, CSpace)] == '-')
    ensures r.Some? ==> |r.value.digits| > 0 && AllDigits(r.value.digits, b)
  {
    var j := SignEnd(s, FirstNotIn(s, CSpace));
    var k := DigitsStart(s, b);
    assert k == if HexPrefixAt(s, j, b) then j + 2 else j;
    DigitRunAt(s, k, b);
    var n := DigitRun(s[k..], b);
    assert n == 0 <==> j == |s| || !IsDigitIn(s[j], b);
    if n == 0 then None
    else
      var i := FirstNotIn(s, CSpace);
      var digits := s[k..k + n];
      assert |digits| > 0 && AllDigits(digits, b);
      Some(Subject(i < |s| && s[i] == '-', digits))
  }

  /** The digits of a subject are the whole run of digits that starts after
      the white space, the sign and the optional hex prefix. */
  lemma SubjectDigits(s: string, b: Base)
    requires SubjectOf(s, b).Some?
    ensures var k := DigitsStart(s, b);
      var e := k + |SubjectOf(s, b).value.digits|;
      e <= |s| && SubjectOf(s, b).value.digits == s[k..e] && (e == |s| || !IsDigitIn(s[e], b))
  {
    var k := DigitsStart(s, b);
    DigitRunAt(s, k, b);
  }

  /** Where the digits of the subject of s begin: after the leading C white
      space, the optional sign and, in base 16, an optional "0x" or "0X"
      that a hex digit follows. */
  function DigitsStart(s: string, b: Base): (k: nat)
    ensures k <= |s|
  {
    var j := SignEnd(s, FirstNotIn(s, CSpace));
    if HexPrefixAt(s, j, b) then j + 2 else j
  }

  /** The digit run starting at index k of s, as indices into s. */
  lemma DigitRunAt(s: string, k: nat, b: Base)
    requires k <= |s|
    ensures var n := DigitRun(s[k..], b);
      k + n <= |s| && AllDigits(s[k..k + n], b) && (k + n == |s| || !IsDigitIn(s[k + n], b)) &&
      (n == 0 <==> k == |s| || !IsDigitIn(s[k], b))
  {
    var n := DigitRun(s[k..], b);
    assert s[k..][..n] == s[k..k + n];
    if k + n < |s| {
      assert s[k..][n] == s[k + n];
    }
    if k < |s| {
      assert s[k..][0] == s[k];
    }
  }

  /** std::stoi: None when it would throw, either because no digit could be
      read (invalid_argument) or because the value does not fit in a 32-bit
      int (out_of_range). */
  function ParseInt(s: string): (r: Option<int>)
    ensures r.Some? ==> Int32Min <= r.value <= Int32Max
    ensures r.Some? ==> (SubjectOf(s, 10).Some? &&
      var m: int := ValueOf(SubjectOf(s, 10).value.digits, 10);
      r.value == (if SubjectOf(s, 10).value.negative then -m else m))
    ensures r.Some? <==> (SubjectOf(s, 10).Some? &&
      var m := ValueOf(SubjectOf(s, 10).value.digits, 10);
      if SubjectOf(s, 10).value.negative then m <= -Int32Min else m <= Int32Max)
  {
    match SubjectOf(s, 10)
    case None => None
    case Some(sub) =>
      var m: int := ValueOf(sub.digits, 10);
      var x: int := if sub.negative then -m else m;
      if Int32Min <= x <= Int32Max then Some(x) else None
  }

  /** std::stoul with base 16 and a 32-bit unsigned long: None when it would
      throw (no hex digit, or a magnitude above 0xFFFFFFFF); a leading minus
      sign negates the value modulo 2^32, as strtoul does. */
  function ParseHex(s: string): (r: Option<nat>)
    ensures r.Some? ==> r.value < UInt32Limit
    ensures r.Some? <==> SubjectOf(s, 16).Some? && ValueOf(SubjectOf(s, 16).value.digits, 16) < UInt32Limit
    ensures r.Some? && !SubjectOf(s, 16).value.negative ==> r.value == ValueOf(SubjectOf(s, 16).value.digits, 16)
  {
    match SubjectOf(s, 16)
    case None => None
    case Some(sub) =>
      var m := ValueOf(sub.digits, 16);
      if m >= UInt32Limit then None
      else Some(if sub.negative then (UInt32Limit - m) % UInt32Limit else m)
  }

  /** A run that covers the whole string is the whole string. */
  lemma DigitRunOfDigits(s: string, b: Base)
    requires AllDigits(s, b)
    ensures DigitRun(s, b) == |s|
  {
  }

  /** Reading back the decimal text of any 32-bit int gives that int:
      std::stoi inverts std::to_string on the int range. */
  lemma {:induction false} ParseIntOfDecimal(i: int)
    requires Int32Min <= i <= Int32Max
    ensures ParseInt(IntToDecimal(i)) == Some(i)
  {
    var s := IntToDecimal(i);
    var m: nat := if i < 0 then -i else i;
    var d := NatToDecimal(m);
    var j := if i < 0 then 1 else 0;
    assert s[j..] == d;
    assert s[0] !in CSpace;
    assert FirstNotIn(s, CSpace) == 0;
    assert DigitsStart(s, 10) == j;
    assert s[j] == d[0];
    DigitRunOfDigits(d, 10);
    assert s[j..j + |d|] == d;
    assert SubjectOf(s, 10) == Some(Subject(i < 0, d));
  }
}
