/** StreamRevision: an immutable, bounded, zero-based position of an event
    in a stream. A concrete revision lies in [0, long.MaxValue]; the
    sentinel `None` sits on a raw value above every concrete revision. */
module StreamRevisions {
  import opened Outcomes
  import opened UInt64
  import opened StreamPositions

  /** long.MaxValue: the largest concrete revision. */
  const MaxRevision: U64 := 0x7FFF_FFFF_FFFF_FFFF

  /** The raw values reserved above the concrete range. */
  type SentinelValue = x: U64 | MaxRevision < x witness MaxValue

  /** The raw value of `None`. Only its place above every concrete revision
      is known, so the constant is deliberately left without a value. */
  const NoneValue: SentinelValue

  /** The revision's raw 64-bit value. */
  datatype RevisionValue = RevisionValue(raw: U64)

  /** A revision is concrete (at most long.MaxValue) or the sentinel. */
  type StreamRevision = r: RevisionValue | r.raw <= MaxRevision || r.raw == NoneValue
    witness RevisionValue(0)

  /** StreamRevision.None */
  const None: StreamRevision := RevisionValue(NoneValue)

  predicate IsConcrete(r: StreamRevision) {
    r.raw <= MaxRevision
  }

  /** `new StreamRevision(value)`, and the explicit and implicit conversions
      from ulong, which agree with it: accepts exactly the values up to
      long.MaxValue and otherwise raises ArgumentOutOfRangeException naming
      the parameter "value". */
  function FromUInt64(value: U64): (r: Result<StreamRevision>)
    ensures r.Ok? <==> value <= MaxRevision
    ensures r.Ok? ==> r.value.raw == value && IsConcrete(r.value) && r.value != None
    ensures r.Err? ==> r.error == ArgumentOutOfRange("value")
  {
    if value <= MaxRevision then Ok(RevisionValue(value))
    else Err(ArgumentOutOfRange("value"))
  }

  /** The explicit and implicit conversions to ulong, and ToUInt64(). */
  function ToUInt64(r: StreamRevision): (n: U64)
    ensures IsConcrete(r) ==> n <= MaxRevision
    ensures r == None ==> MaxRevision < n
  {
    r.raw
  }

  /** The outcome of a checked ulong computation fed to the constructor. */
  function Construct(sum: Result<U64>): (r: Result<StreamRevision>)
  {
    match sum
    case Ok(v) => FromUInt64(v)
    case Err(e) => Err(e)
  }

  /** `revision + operand`: the exact sum as a revision; an OverflowException
      when the sum leaves the 64-bit unsigned range; the constructor's
      ArgumentOutOfRangeException when it fits 64 bits but exceeds
      long.MaxValue. */
  function Add(r: StreamRevision, operand: U64): (s: Result<StreamRevision>)
    ensures r.raw + operand <= MaxRevision ==> s == Ok(RevisionValue(r.raw + operand))
    ensures MaxRevision < r.raw + operand <= MaxValue ==> s == Err(ArgumentOutOfRange("value"))
    ensures MaxValue < r.raw + operand ==> s == Err(Overflow)
  {
    Construct(CheckedAdd(r.raw, operand))
  }

  /** `operand + revision`, the number on the left. */
  function AddToNumber(operand: U64, r: StreamRevision): (s: Result<StreamRevision>)
    ensures operand + r.raw <= MaxRevision ==> s == Ok(RevisionValue(operand + r.raw))
    ensures MaxRevision < operand + r.raw <= MaxValue ==> s == Err(ArgumentOutOfRange("value"))
    ensures MaxValue < operand + r.raw ==> s == Err(Overflow)
  {
    Construct(CheckedAdd(operand, r.raw))
  }

  /** `revision - operand`: the exact difference, or an OverflowException
      when the operand exceeds the revision; it never wraps around. */
  function Sub(r: StreamRevision, operand: U64): (s: Result<StreamRevision>)
    ensures IsConcrete(r) && operand <= r.raw ==> s == Ok(RevisionValue(r.raw - operand))
    ensures r.raw < operand ==> s == Err(Overflow)
    ensures s.Ok? ==> s.value.raw == r.raw - operand
  {
    Construct(CheckedSub(r.raw, operand))
  }

  /** `number - revision`, the number on the left: the exact difference as a
      revision, or an OverflowException when the revision exceeds the
      number. */
  function SubFromNumber(number: U64, r: StreamRevision): (s: Result<StreamRevision>)
    ensures r.raw <= number && number - r.raw <= MaxRevision ==> s == Ok(RevisionValue(number - r.raw))
    ensures r.raw <= number && MaxRevision < number - r.raw ==> s == Err(ArgumentOutOfRange("value"))
    ensures number < r.raw ==> s == Err(Overflow)
  {
    Construct(CheckedSub(number, r.raw))
  }

  /** Next(): the revision one after this one. */
  function Next(r: StreamRevision): (s: Result<StreamRevision>)
    ensures r.raw < MaxRevision ==> s == Ok(RevisionValue(r.raw + 1))
    ensures r.raw == MaxRevision ==> s == Err(ArgumentOutOfRange("value"))
    ensures r == None ==> s.Err?
  {
    Add(r, 1)
  }

  /** StreamRevision.FromStreamPosition: `Start` becomes revision 0; `End`,
      which has no number, raises ArgumentOutOfRangeException. */
  function FromStreamPosition(p: StreamPosition): (r: Result<StreamRevision>)
    ensures p == Start ==> r == FromUInt64(0)
    ensures p == End <==> r.Err?
    ensures r.Err? ==> r.error.ArgumentOutOfRange?
  {
    match p
    case Start => Ok(RevisionValue(0))
    case End => Err(ArgumentOutOfRange("position"))
  }

  /** CompareTo: -1, 0 or 1 by the order of the raw values. */
  function CompareTo(a: StreamRevision, b: StreamRevision): (c: int)
    ensures c == 0 <==> a == b
    ensures c == -1 <==> a.raw < b.raw
    ensures c == 1 <==> b.raw < a.raw
  {
    if a.raw < b.raw then -1 else if b.raw < a.raw then 1 else 0
  }

  /** ToString(): the decimal rendering of the raw value. */
  function ToString(r: StreamRevision): (s: string)
    ensures 0 < |s| && forall i :: 0 <= i < |s| ==> IsDigit(s[i])
    ensures 1 < |s| ==> s[0] != '0'
    ensures ParseDecimal(s) == ToUInt64(r)
  {
    DecimalRoundTrip(r.raw);
    ToDecimal(r.raw)
  }

  // ---------------------------------------------------------------------
  // Properties relating the operations

  /** Equality is by value: two constructed revisions are equal exactly when
      the numbers they were built from are. */
  lemma EqualityByValue(a: U64, b: U64)
    requires a <= MaxRevision && b <= MaxRevision
    ensures FromUInt64(a) == FromUInt64(b) <==> a == b
    ensures FromUInt64(a).Ok? && FromUInt64(b).Ok?
    ensures CompareTo(FromUInt64(a).value, FromUInt64(b).value) == 0 <==> a == b
  {
  }

  /** Every value above long.MaxValue is refused by the constructor. */
  lemma RangeRejection(value: U64)
    requires MaxRevision < value
    ensures FromUInt64(value) == Err(ArgumentOutOfRange("value"))
  {
  }

  /** ulong -> revision -> ulong is the identity on the valid range, and
      revision -> ulong -> revision is the identity on concrete revisions;
      None has no number the constructor accepts. */
  lemma ConversionRoundTrip(value: U64, r: StreamRevision)
    ensures value <= MaxRevision ==> FromUInt64(value).Ok? && ToUInt64(FromUInt64(value).value) == value
    ensures IsConcrete(r) ==> FromUInt64(ToUInt64(r)) == Ok(r)
    ensures FromUInt64(ToUInt64(None)).Err?
  {
  }

  /** The decimal rendering identifies the revision. */
  lemma ToStringInjective(a: StreamRevision, b: StreamRevision)
    ensures ToString(a) == ToString(b) <==> a == b
  {
    DecimalInjective(a.raw, b.raw);
  }

  /** Addition is the same with the number on either side. */
  lemma AddCommutes(r: StreamRevision, n: U64)
    ensures AddToNumber(n, r) == Add(r, n)
  {
  }

  /** The next revision compares greater. (That Next() is `+ 1` holds by
      its definition and is restated here only for reference.) */
  lemma NextIsAddOne(r: StreamRevision)
    ensures Next(r) == Add(r, 1)
    ensures Next(r).Ok? ==> CompareTo(r, Next(r).value) == -1
  {
  }

  /** Adding and then subtracting the same operand gives the revision back;
      so does subtracting and adding. */
  lemma AddSubInverse(r: StreamRevision, n: U64)
    requires IsConcrete(r)
    ensures Add(r, n).Ok? ==> Sub(Add(r, n).value, n) == Ok(r)
    ensures Sub(r, n).Ok? ==> Add(Sub(r, n).value, n) == Ok(r)
  {
  }

  /** Both subtraction forms agree: `(ulong)a - b` and `a - (ulong)b`. */
  lemma SubFormsAgree(a: StreamRevision, b: StreamRevision)
    ensures SubFromNumber(ToUInt64(a), b) == Sub(a, ToUInt64(b))
  {
  }

  /** Subtraction never wraps: it succeeds exactly when the operand is at
      most the revision, and the result is never larger than the revision. */
  lemma SubNeverWraps(r: StreamRevision, n: U64)
    requires IsConcrete(r)
    ensures Sub(r, n).Ok? <==> n <= r.raw
    ensures Sub(r, n).Ok? ==> CompareTo(Sub(r, n).value, r) <= 0
  {
  }

  /** None orders above every other revision, with opposite signs. */
  lemma NoneIsGreatest(r: StreamRevision)
    requires r != None
    ensures CompareTo(r, None) == -1 && CompareTo(None, r) == 1
  {
  }

  /** CompareTo is a total order: antisymmetric in sign, transitive and
      total. */
  lemma CompareToIsTotalOrder(a: StreamRevision, b: StreamRevision, c: StreamRevision)
    ensures CompareTo(a, b) == -CompareTo(b, a)
    ensures CompareTo(a, b) <= 0 && CompareTo(b, c) <= 0 ==> CompareTo(a, c) <= 0
    ensures CompareTo(a, b) <= 0 || CompareTo(b, a) <= 0
  {
  }

  /** Arithmetic results, when they exist, are always concrete revisions. */
  lemma ArithmeticStaysConcrete(r: StreamRevision, n: U64)
    ensures Add(r, n).Ok? ==> IsConcrete(Add(r, n).value)
    ensures AddToNumber(n, r).Ok? ==> IsConcrete(AddToNumber(n, r).value)
    ensures Sub(r, n).Ok? ==> IsConcrete(Sub(r, n).value)
    ensures SubFromNumber(n, r).Ok? ==> IsConcrete(SubFromNumber(n, r).value)
  {
  }
}
