/** The concrete cases of StreamRevisionTests, one lemma per test. */
module StreamRevisionCases {
  import opened Outcomes
  import opened UInt64
  import opened StreamPositions
  import opened StreamRevisions

  /** long.MaxValue + 1UL */
  const AboveLongMax: U64 := 0x8000_0000_0000_0000
  /** long.MaxValue + 2UL */
  const AboveLongMaxByTwo: U64 := 0x8000_0000_0000_0001
  /** ulong.MaxValue - 1UL */
  const BelowULongMax: U64 := 0xFFFF_FFFF_FFFF_FFFE

  lemma EqualityCases()
    ensures FromUInt64(1) == Ok(RevisionValue(1))
    ensures FromUInt64(1) == FromUInt64(1)
    ensures FromUInt64(2) != FromUInt64(1)
  {
  }

  lemma AdditionCases()
    ensures Add(RevisionValue(0), 1) == Ok(RevisionValue(1))
    ensures AddToNumber(1, RevisionValue(0)) == Ok(RevisionValue(1))
    ensures Next(RevisionValue(0)) == Add(RevisionValue(0), 1)
  {
  }

  /** long.MaxValue + (long.MaxValue + 2) is 2^64: an overflow either way round. */
  lemma AdditionOutOfBoundsCase()
    ensures Add(RevisionValue(MaxRevision), AboveLongMaxByTwo) == Err(Overflow)
    ensures AddToNumber(AboveLongMaxByTwo, RevisionValue(MaxRevision)) == Err(Overflow)
  {
  }

  lemma SubtractionCases()
    ensures Sub(RevisionValue(1), 1) == Ok(RevisionValue(0))
    ensures SubFromNumber(1, RevisionValue(1)) == Ok(RevisionValue(0))
  {
  }

  /** (1, 2) and (0, 1): both subtraction forms overflow instead of wrapping. */
  lemma SubtractionOutOfBoundsCases()
    ensures Sub(RevisionValue(1), 2) == Err(Overflow)
    ensures SubFromNumber(ToUInt64(RevisionValue(1)), RevisionValue(2)) == Err(Overflow)
    ensures Sub(RevisionValue(0), 1) == Err(Overflow)
    ensures SubFromNumber(ToUInt64(RevisionValue(0)), RevisionValue(1)) == Err(Overflow)
  {
  }

  lemma ArgumentOutOfRangeCases()
    ensures FromUInt64(AboveLongMax) == Err(ArgumentOutOfRange("value"))
    ensures FromUInt64(BelowULongMax) == Err(ArgumentOutOfRange("value"))
  {
  }

  lemma FromStreamPositionCases()
    ensures FromStreamPosition(End).Err? && FromStreamPosition(End).error.ArgumentOutOfRange?
    ensures FromStreamPosition(Start) == Ok(RevisionValue(0))
  {
  }

  lemma ComparabilityCases()
    ensures CompareTo(RevisionValue(0), RevisionValue(0)) == 0
    ensures CompareTo(RevisionValue(0), None) == -1
    ensures CompareTo(None, RevisionValue(0)) == 1
  {
  }

  /** Conversions of 0 both ways, ToUInt64 and ToString. */
  lemma ConversionCases()
    ensures FromUInt64(0) == Ok(RevisionValue(0))
    ensures ToUInt64(RevisionValue(0)) == 0
    ensures ToString(RevisionValue(0)) == ToDecimal(0) == "0"
  {
  }
}
