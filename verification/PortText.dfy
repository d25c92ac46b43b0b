/** The text of a port range, as validation reads it and as the iterator reads it. */
module PortTexts {
  import opened GoValues

  const MAX_PORT: int := 0xFFFF

  predicate IsDigit(c: char) {
    '0' <= c <= '9'
  }

  predicate AllDigits(s: string) {
    forall i :: 0 <= i < |s| ==> IsDigit(s[i])
  }

  function Value(s: string): nat
    requires AllDigits(s)
  {
    if s == "" then 0 else 10 * Value(s[..|s| - 1]) + (s[|s| - 1] - '0') as nat
  }

  /** strconv.ParseUint(s, 10, 16): digits only. */
  function ParseUint16(s: string): Option<nat> {
    if s != "" && AllDigits(s) && Value(s) <= MAX_PORT then Some(Value(s)) else None
  }

  /** strconv.Atoi: digits with an optional sign, within 64 bits. */
  function Atoi(s: string): Option<int> {
    if s != "" && (s[0] == '+' || s[0] == '-') then
      var digits := s[1..];
      if digits == "" || !AllDigits(digits) then None
      else if s[0] == '+' then (if Value(digits) < 0x8000_0000_0000_0000 then Some(Value(digits)) else None)
      else if Value(digits) <= 0x8000_0000_0000_0000 then Some(0 - Value(digits)) else None
    else if s != "" && AllDigits(s) && Value(s) < 0x8000_0000_0000_0000 then Some(Value(s))
    else None
  }

  predicate HasPlus(s: string) {
    s != "" && s[0] == '+'
  }

  /** For numbers that can be ports, the two parsers differ exactly over a leading plus sign. */
  lemma ParsersAgreeIff(s: string)
    requires Atoi(s).Some? && 0 < Atoi(s).value <= MAX_PORT
    ensures ParseUint16(s) == (if HasPlus(s) then None else Some(Atoi(s).value))
  {
    if HasPlus(s) {
      assert !IsDigit(s[0]);
    }
  }

  lemma ParseUintMeans(s: string)
    requires ParseUint16(s).Some?
    ensures Atoi(s) == Some(ParseUint16(s).value) && 0 <= ParseUint16(s).value <= MAX_PORT
  {
    assert IsDigit(s[0]);
  }

  function DashFrom(s: string, i: nat): (k: nat)
    requires i <= |s|
    ensures i <= k <= |s| && (k < |s| ==> s[k] == '-')
    ensures forall j :: i <= j < k ==> s[j] != '-'
    decreases |s| - i
  {
    if i == |s| || s[i] == '-' then i else DashFrom(s, i + 1)
  }

  /** strings.SplitN(s, "-", 2): what stands before and after the first dash, if there is one. */
  function Halves(s: string): Option<(string, string)> {
    var k := DashFrom(s, 0);
    if k == |s| then None else Some((s[..k], s[k + 1..]))
  }

  /** Putting the halves together again gives the text, and no other dash comes first. */
  lemma HalvesMean(s: string)
    ensures Halves(s).Some? <==> '-' in s
    ensures Halves(s).Some? ==> s == Halves(s).value.0 + "-" + Halves(s).value.1 && '-' !in Halves(s).value.0
  {
    var k := DashFrom(s, 0);
    if k < |s| {
      assert s == s[..k] + [s[k]] + s[k + 1..];
    }
  }

  /** A sign in front ends up in the first half. */
  lemma HalvesOfSigned(t: string)
    requires Halves(t).Some?
    ensures Halves("+" + t) == Some(("+" + Halves(t).value.0, Halves(t).value.1))
  {
    DashAfterSign(t, 0);
    var k, signed := DashFrom(t, 0), "+" + t;
    assert DashFrom(signed, 0) == k + 1;
    assert signed[..k + 1] == "+" + t[..k];
    assert signed[k + 2..] == t[k + 1..];
  }

  lemma {:induction false} DashAfterSign(t: string, i: nat)
    requires i <= |t|
    ensures DashFrom("+" + t, i + 1) == DashFrom(t, i) + 1
    decreases |t| - i
  {
    if i < |t| && t[i] != '-' {
      DashAfterSign(t, i + 1);
    }
  }

  // ---------- The texts numbers are written in ----------

  const DIGITS: string := "0123456789"

  /** How a number is written. */
  function Decimal(n: nat): string {
    if n < 10 then [DIGITS[n]] else Decimal(n / 10) + [DIGITS[n % 10]]
  }

  lemma {:induction false} DecimalReads(n: nat)
    ensures Decimal(n) != "" && AllDigits(Decimal(n)) && Value(Decimal(n)) == n
  {
    if n >= 10 {
      DecimalReads(n / 10);
      var front := Decimal(n / 10);
      assert Decimal(n)[..|Decimal(n)| - 1] == front;
    } else {
      assert Decimal(n)[..0] == "";
    }
  }

  /** Leading zeros change nothing. */
  lemma {:induction false} LeadingZero(s: string)
    requires AllDigits(s)
    ensures AllDigits("0" + s) && Value("0" + s) == Value(s)
  {
    var t := "0" + s;
    forall i | 0 <= i < |t| ensures IsDigit(t[i]) {
      if i > 0 { assert t[i] == s[i - 1]; }
    }
    if s == "" {
      assert t[..0] == "";
    } else {
      LeadingZero(s[..|s| - 1]);
      assert t[..|t| - 1] == "0" + s[..|s| - 1];
    }
  }

  /** Both parsers read the text of a number as that number, up to their limits, and only Atoi takes a sign. */
  lemma ParsersReadNumbers(n: nat)
    ensures ParseUint16(Decimal(n)) == if n <= 65535 then Some(n) else None
    ensures Atoi(Decimal(n)) == if n <= 9223372036854775807 then Some(n) else None
    ensures Atoi("+" + Decimal(n)) == if n <= 9223372036854775807 then Some(n) else None
    ensures Atoi("-" + Decimal(n)) == if n <= 9223372036854775808 then Some(-(n as int)) else None
    ensures ParseUint16("+" + Decimal(n)) == ParseUint16("-" + Decimal(n)) == None
  {
    DecimalReads(n);
    var d := Decimal(n);
    assert IsDigit(d[0]);
    assert ("+" + d)[1..] == d && ("-" + d)[1..] == d;
    assert !IsDigit(("+" + d)[0]) && !IsDigit(("-" + d)[0]);
  }

  /** Nothing but digits is a number to ParseUint, and nothing but digits behind at most one sign to Atoi. */
  lemma OnlyDigitsAreRead(s: string)
    ensures ParseUint16(s).Some? ==> s != "" && forall c :: c in s ==> c in DIGITS
    ensures Atoi(s).Some? ==>
      var digits := if s != "" && s[0] in "+-" then s[1..] else s;
      digits != "" && forall c :: c in digits ==> c in DIGITS
  {
    forall c | IsDigit(c) ensures c in DIGITS {
      assert DIGITS[(c - '0') as nat] == c;
    }
  }

  /** How a range is written. */
  function RangeText(a: nat, b: nat): string {
    Decimal(a) + "-" + Decimal(b)
  }

  lemma {:induction false} FirstDash(s: string, rest: string, i: nat)
    requires i <= |s| && AllDigits(s)
    ensures DashFrom(s + "-" + rest, i) == |s|
    decreases |s| - i
  {
    if i < |s| {
      assert (s + "-" + rest)[i] == s[i];
      FirstDash(s, rest, i + 1);
    }
  }

  lemma HalvesOfRange(a: nat, b: nat)
    ensures Halves(RangeText(a, b)) == Some((Decimal(a), Decimal(b)))
  {
    DecimalReads(a);
    FirstDash(Decimal(a), Decimal(b), 0);
    var k := |Decimal(a)|;
    assert RangeText(a, b)[..k] == Decimal(a) && RangeText(a, b)[k + 1..] == Decimal(b);
  }
}
