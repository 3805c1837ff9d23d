/** The parts of System.UInt64 the model uses: the 64-bit unsigned range,
    `checked` addition and subtraction, and the decimal rendering of
    `ToString()`. */
module UInt64 {
  import opened Outcomes

  const Modulus: int := 0x1_0000_0000_0000_0000

  /** ulong.MaxValue */
  const MaxValue: int := Modulus - 1

  type U64 = x: int | 0 <= x < Modulus

  /** `checked(a + b)` on two ulongs: the exact sum, or an OverflowException
      when the sum does not fit in 64 bits. It never wraps around. */
  function CheckedAdd(a: U64, b: U64): (r: Result<U64>)
    ensures r.Ok? <==> a + b <= MaxValue
    ensures r.Ok? ==> r.value == a + b
    ensures r.Err? ==> r.error == Overflow
  {
    if a + b <= MaxValue then Ok(a + b) else Err(Overflow)
  }

  /** `checked(a - b)` on two ulongs: the exact difference, or an
      OverflowException when it would be negative. */
  function CheckedSub(a: U64, b: U64): (r: Result<U64>)
    ensures r.Ok? <==> b <= a
    ensures r.Ok? ==> r.value == a - b && r.value <= a
    ensures r.Err? ==> r.error == Overflow
  {
    if b <= a then Ok(a - b) else Err(Overflow)
  }

  predicate IsDigit(c: char) {
    '0' <= c <= '9'
  }

  function DigitChar(d: int): (c: char)
    requires 0 <= d < 10
    ensures IsDigit(c)
  {
    ['0', '1', '2', '3', '4', '5', '6', '7', '8', '9'][d]
  }

  function DigitValue(c: char): (d: int)
    requires IsDigit(c)
    ensures 0 <= d < 10
  {
    c as int - '0' as int
  }

  /** The decimal rendering of ulong.ToString(): the digits of `n`, most
      significant first, with no sign, no separators and no leading zero. */
  function ToDecimal(n: nat): (s: string)
    ensures 0 < |s|
    ensures forall i :: 0 <= i < |s| ==> IsDigit(s[i])
    ensures 1 < |s| ==> s[0] != '0'
    ensures n < 10 <==> |s| == 1
  {
    if n < 10 then [DigitChar(n)] else ToDecimal(n / 10) + [DigitChar(n % 10)]
  }

  /** The value a string of decimal digits denotes, the reference against
      which ToDecimal is checked. */
  function ParseDecimal(s: string): (n: nat)
    requires forall i :: 0 <= i < |s| ==> IsDigit(s[i])
  {
    if s == [] then 0 else 10 * ParseDecimal(s[..|s| - 1]) + DigitValue(s[|s| - 1])
  }

  lemma DigitRoundTrip(d: int)
    requires 0 <= d < 10
    ensures DigitValue(DigitChar(d)) == d
  {
  }

  /** Reading the decimal rendering of `n` back gives `n`. */
  lemma {:induction false} DecimalRoundTrip(n: nat)
    ensures ParseDecimal(ToDecimal(n)) == n
  {
    DigitRoundTrip(n % 10);
    if 10 <= n {
      var s := ToDecimal(n);
      assert s[..|s| - 1] == ToDecimal(n / 10);
      DecimalRoundTrip(n / 10);
    }
  }

  /** Different numbers have different decimal renderings. */
  lemma DecimalInjective(m: nat, n: nat)
    ensures ToDecimal(m) == ToDecimal(n) <==> m == n
  {
    DecimalRoundTrip(m);
    DecimalRoundTrip(n);
  }
}
