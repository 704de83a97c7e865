/**
 * Patient identifiers: "P" followed by a counter printed with Python's
 * "%03d" format, i.e. in decimal, left-padded with zeros to at least three
 * digits. Reading the digits back recovers the counter, so distinct
 * counters give distinct identifiers.
 */
module PatientIds {

  predicate IsDigit(c: char) {
    '0' <= c <= '9'
  }

  predicate AllDigits(s: string) {
    forall i :: 0 <= i < |s| ==> IsDigit(s[i])
  }

  function DigitChar(d: nat): (c: char)
    requires d < 10
    ensures IsDigit(c)
  {
    ('0' as int + d) as char
  }

  function DigitValue(c: char): (d: nat)
    requires IsDigit(c)
    ensures d < 10
  {
    c as int - '0' as int
  }

  /** `n` in decimal, most significant digit first, with no leading zero. */
  function Decimal(n: nat): (s: string)
    ensures 1 <= |s|
    ensures AllDigits(s)
    ensures |s| == 1 <==> n < 10
    ensures n >= 10 ==> s[0] != '0'
    decreases n
  {
    if n < 10 then [DigitChar(n)] else Decimal(n / 10) + [DigitChar(n % 10)]
  }

  /** The number a string of decimal digits denotes; leading zeros are allowed. */
  function ParseDecimal(s: string): nat
    requires AllDigits(s)
  {
    if s == [] then 0 else ParseDecimal(s[..|s| - 1]) * 10 + DigitValue(s[|s| - 1])
  }

  function Zeros(k: nat): (s: string)
    ensures |s| == k
    ensures forall i :: 0 <= i < k ==> s[i] == '0'
  {
    if k == 0 then [] else ['0'] + Zeros(k - 1)
  }

  /** Python's "%03d" applied to a non-negative integer. */
  function Pad3(n: nat): (s: string)
    ensures AllDigits(s)
  {
    var d := Decimal(n);
    if |d| < 3 then Zeros(3 - |d|) + d else d
  }

  /** The identifier given to the `n`-th registered patient. */
  function PatientId(n: nat): (id: string)
    ensures |id| >= 4 && id[0] == 'P'
  {
    PadWidth(n);
    "P" + Pad3(n)
  }

  lemma {:induction false} ParseDecimalOfDecimal(n: nat)
    ensures ParseDecimal(Decimal(n)) == n
    decreases n
  {
    if n >= 10 {
      var s := Decimal(n);
      assert s[..|s| - 1] == Decimal(n / 10);
      ParseDecimalOfDecimal(n / 10);
    }
  }

  lemma {:induction false} ParseIgnoresLeadingZeros(k: nat, s: string)
    requires AllDigits(s)
    ensures ParseDecimal(Zeros(k) + s) == ParseDecimal(s)
    decreases |s|
  {
    var z := Zeros(k);
    if s == [] {
      assert z + s == z;
      ParseOfZeros(k);
    } else {
      var t := z + s;
      assert t[..|t| - 1] == z + s[..|s| - 1];
      assert t[|t| - 1] == s[|s| - 1];
      ParseIgnoresLeadingZeros(k, s[..|s| - 1]);
    }
  }

  lemma {:induction false} ParseOfZeros(k: nat)
    ensures ParseDecimal(Zeros(k)) == 0
  {
    if k > 0 {
      var z := Zeros(k);
      assert z[..k - 1] == Zeros(k - 1);
      ParseOfZeros(k - 1);
    }
  }

  /** Reading back the padded digits gives the counter. */
  lemma Pad3RoundTrip(n: nat)
    ensures ParseDecimal(Pad3(n)) == n
  {
    var d := Decimal(n);
    ParseDecimalOfDecimal(n);
    if |d| < 3 {
      ParseIgnoresLeadingZeros(3 - |d|, d);
    }
  }

  /** The width of "%03d": three characters below 1000, the plain decimal form from 100 on. */
  lemma PadWidth(n: nat)
    ensures |Pad3(n)| >= 3
    ensures n < 1000 ==> |Pad3(n)| == 3
    ensures n >= 100 ==> Pad3(n) == Decimal(n)
  {
    DecimalLength(n);
  }

  lemma {:induction false} DecimalLength(n: nat)
    ensures (|Decimal(n)| <= 2) == (n < 100)
    ensures (|Decimal(n)| <= 3) == (n < 1000)
    decreases n
  {
    if n >= 10 {
      DecimalLength(n / 10);
    }
  }

  /** Distinct counters give distinct identifiers. */
  lemma PatientIdInjective(a: nat, b: nat)
    requires PatientId(a) == PatientId(b)
    ensures a == b
  {
    assert PatientId(a)[1..] == Pad3(a);
    assert PatientId(b)[1..] == Pad3(b);
    Pad3RoundTrip(a);
    Pad3RoundTrip(b);
  }

  /** The first three registrations get P001, P002 and P003; two- and four-digit counters are padded to three digits or printed in full. */
  lemma PatientIdExamples()
    ensures PatientId(1) == "P001"
    ensures PatientId(2) == "P002"
    ensures PatientId(3) == "P003"
    ensures PatientId(42) == "P042"
    ensures PatientId(1234) == "P1234"
  {
  }
}
