# StreamRevision: a verified model

This project models `StreamRevision` from the EventStore .NET client. It is
an immutable value type for the zero-based revision of an event inside a
stream. The model covers:

- checked construction from a `ulong`;
- `+` and `-` with the plain number on either side;
- `Next()`;
- the `None` sentinel;
- conversion from the `StreamPosition` sentinels `Start` and `End`;
- `CompareTo`;
- the conversions to and from `ulong`, `ToUInt64()` and `ToString()`.

The implementation file of `StreamRevision` is not part of this model. Its
behaviour is taken from the assertions of
`test/EventStore.Client.Tests/StreamRevisionTests.cs`. Every test there
becomes a lemma in module `StreamRevisionCases`. Each test is generalised to
all inputs in module `StreamRevisions`: by a lemma there, or, for
`FromStreamPosition` and `ToString`, by the function's own contract.

Files:

- `outcomes.dfy` (module `Outcomes`): the two exceptions as an `Error` value
  (`Overflow`, `ArgumentOutOfRange(paramName)`) and `Result`.
- `uint64.dfy` (module `UInt64`): the 64-bit unsigned range, `checked`
  addition and subtraction, and the decimal rendering of `ulong.ToString()`
  with a parser that reads it back.
- `stream_position.dfy` (module `StreamPositions`): `StreamPosition.Start`
  and `StreamPosition.End`.
- `stream_revision.dfy` (module `StreamRevisions`): the revision type, its
  operations and their properties.
- `stream_revision_tests.dfy` (module `StreamRevisionCases`): the concrete
  test cases.

Design of the model:

- A revision is a `RevisionValue(raw)` over one `ulong`. The subset type
  `StreamRevision` admits a raw value only if it is at most `long.MaxValue`
  (a concrete revision) or equals `NoneValue`.
- `NoneValue` is a constant of type "a `ulong` above `long.MaxValue`" that is
  given no value. So `None` orders above every concrete revision; the
  comparison tests check this against revision 0 (lines 98-99), and
  `NoneIsGreatest` generalises it. Nothing else about its raw value is
  assumed.
- Arithmetic is done as `checked` `ulong` arithmetic followed by the checked
  constructor. A result outside `[0, 2^64)` raises `Overflow`. A result that
  fits in 64 bits but exceeds `long.MaxValue` raises the constructor's
  `ArgumentOutOfRange("value")`. Arithmetic never wraps.
- C# operators and implicit conversions become named functions: `Add`
  (`rev + n`), `AddToNumber` (`n + rev`), `Sub` (`rev - n`), `SubFromNumber`
  (`n - rev`), `FromUInt64` (the constructor and both conversions from
  `ulong`) and `ToUInt64` (both conversions to `ulong` and `ToUInt64()`).
- Equality is Dafny's structural equality on the datatype, which is equality
  by value.
- A sum above `long.MaxValue` that still fits in 64 bits fails with
  `ArgumentOutOfRange("value")`. The tests pin `Overflow` only for a sum of
  exactly 2^64 (line 45), and `ArgumentOutOfRange("value")` for the two
  constructed values 2^63 and 2^64-2 (lines 73-74); the error kind in between
  is a choice, recorded under "## Left out".

## Model

| member | source | states |
|---|---|---|
| `StreamRevisions.FromUInt64` | test/EventStore.Client.Tests/StreamRevisionTests.cs:121-134 | construction and the conversions from ulong succeed exactly for values up to long.MaxValue, keep the value, never yield None, and otherwise fail with ArgumentOutOfRange("value") |
| `StreamRevisions.RangeRejection` | test/EventStore.Client.Tests/StreamRevisionTests.cs:72-81 | every value above long.MaxValue is refused with ArgumentOutOfRange whose parameter name is "value" |
| `StreamRevisions.EqualityByValue` | test/EventStore.Client.Tests/StreamRevisionTests.cs:7-29 | two constructed revisions are equal, and CompareTo gives 0, exactly when their numbers are equal |
| `StreamRevisions.ToUInt64` | test/EventStore.Client.Tests/StreamRevisionTests.cs:143-148 | a concrete revision converts to a number at most long.MaxValue; None converts to a number above it |
| `StreamRevisions.ConversionRoundTrip` | test/EventStore.Client.Tests/StreamRevisionTests.cs:106-148 | ulong to revision to ulong is the identity on the valid range; revision to ulong to revision is the identity on concrete revisions; None's number is refused by the constructor |
| `StreamRevisions.ToString` | test/EventStore.Client.Tests/StreamRevisionTests.cs:136-141 | the text is a non-empty run of decimal digits with no leading zero that reads back as the revision's number, so it is exactly the decimal rendering of that number |
| `StreamRevisions.ToStringInjective` | test/EventStore.Client.Tests/StreamRevisionTests.cs:136-141 | two revisions have the same text exactly when they are equal |
| `StreamRevisions.Add` | test/EventStore.Client.Tests/StreamRevisionTests.cs:31-52 | rev + n is the exact sum when it is a valid revision, ArgumentOutOfRange("value") when the sum fits 64 bits but exceeds long.MaxValue, Overflow when it reaches 2^64 |
| `StreamRevisions.AddToNumber` | test/EventStore.Client.Tests/StreamRevisionTests.cs:31-52 | n + rev, with the same three outcomes in terms of the exact sum |
| `StreamRevisions.AddCommutes` | test/EventStore.Client.Tests/StreamRevisionTests.cs:31-36 | addition gives the same outcome with the number on either side |
| `StreamRevisions.Next` | test/EventStore.Client.Tests/StreamRevisionTests.cs:38-42 | the next revision is the number plus one below long.MaxValue; at long.MaxValue and on None it fails |
| `StreamRevisions.NextIsAddOne` | test/EventStore.Client.Tests/StreamRevisionTests.cs:38-42 | a successful Next() compares greater than the revision (that Next() is + 1 holds by its definition) |
| `StreamRevisions.Sub` | test/EventStore.Client.Tests/StreamRevisionTests.cs:54-70 | rev - n is the exact difference on a concrete revision when n is at most the revision, and Overflow when n is larger |
| `StreamRevisions.SubFromNumber` | test/EventStore.Client.Tests/StreamRevisionTests.cs:54-70 | n - rev is the exact difference as a revision, Overflow when the revision exceeds n, ArgumentOutOfRange("value") when the difference exceeds long.MaxValue |
| `StreamRevisions.SubFormsAgree` | test/EventStore.Client.Tests/StreamRevisionTests.cs:66-70 | (ulong)a - b and a - (ulong)b give the same outcome for every pair of revisions |
| `StreamRevisions.SubNeverWraps` | test/EventStore.Client.Tests/StreamRevisionTests.cs:61-70 | subtraction from a concrete revision succeeds exactly when the operand is at most the revision, and the result is never greater |
| `StreamRevisions.AddSubInverse` | test/EventStore.Client.Tests/StreamRevisionTests.cs:31-59 | adding then subtracting the same operand, or subtracting then adding, gives the revision back |
| `StreamRevisions.ArithmeticStaysConcrete` | test/EventStore.Client.Tests/StreamRevisionTests.cs:31-70 | every successful sum or difference is a concrete revision, never the sentinel |
| `StreamRevisions.FromStreamPosition` | test/EventStore.Client.Tests/StreamRevisionTests.cs:83-93 | Start becomes the revision constructed from 0; End, and only End, fails, with ArgumentOutOfRange |
| `StreamRevisions.CompareTo` | test/EventStore.Client.Tests/StreamRevisionTests.cs:102-104 | the result is 0 exactly for equal revisions, -1 exactly when the left is smaller, 1 exactly when it is larger |
| `StreamRevisions.NoneIsGreatest` | test/EventStore.Client.Tests/StreamRevisionTests.cs:95-100 | every other revision compares -1 against None, and None compares 1 against it |
| `StreamRevisions.CompareToIsTotalOrder` | test/EventStore.Client.Tests/StreamRevisionTests.cs:95-104 | CompareTo is antisymmetric in sign, transitive and total |
| `UInt64.CheckedAdd` | test/EventStore.Client.Tests/StreamRevisionTests.cs:44-52 | checked ulong addition gives the exact sum when it is below 2^64 and Overflow otherwise |
| `UInt64.CheckedSub` | test/EventStore.Client.Tests/StreamRevisionTests.cs:61-70 | checked ulong subtraction gives the exact difference when it is not negative and Overflow otherwise |
| `UInt64.ToDecimal` | test/EventStore.Client.Tests/StreamRevisionTests.cs:136-141 | ulong.ToString() is a non-empty run of decimal digits with no leading zero, one digit exactly below 10 |
| `UInt64.DecimalRoundTrip` | test/EventStore.Client.Tests/StreamRevisionTests.cs:136-141 | parsing the decimal rendering of n gives n back |
| `UInt64.DecimalInjective` | test/EventStore.Client.Tests/StreamRevisionTests.cs:136-141 | two numbers have the same rendering exactly when they are equal |
| `StreamRevisionCases.EqualityCases` | test/EventStore.Client.Tests/StreamRevisionTests.cs:7-29 | Rev(1) equals Rev(1) and Rev(2) differs from Rev(1) |
| `StreamRevisionCases.AdditionCases` | test/EventStore.Client.Tests/StreamRevisionTests.cs:31-42 | Rev(0) + 1 and 1 + Rev(0) are Rev(1), and Next() of Rev(0) is Rev(0) + 1 |
| `StreamRevisionCases.AdditionOutOfBoundsCase` | test/EventStore.Client.Tests/StreamRevisionTests.cs:44-52 | Rev(long.MaxValue) + (long.MaxValue + 2) overflows in both operand orders |
| `StreamRevisionCases.SubtractionCases` | test/EventStore.Client.Tests/StreamRevisionTests.cs:54-59 | Rev(1) - 1 and 1 - Rev(1) are Rev(0) |
| `StreamRevisionCases.SubtractionOutOfBoundsCases` | test/EventStore.Client.Tests/StreamRevisionTests.cs:61-70 | for (1, 2) and (0, 1) both subtraction forms overflow |
| `StreamRevisionCases.ArgumentOutOfRangeCases` | test/EventStore.Client.Tests/StreamRevisionTests.cs:72-81 | constructing from long.MaxValue + 1 and ulong.MaxValue - 1 fails with ArgumentOutOfRange("value") |
| `StreamRevisionCases.FromStreamPositionCases` | test/EventStore.Client.Tests/StreamRevisionTests.cs:83-93 | End fails with ArgumentOutOfRange and Start gives Rev(0) |
| `StreamRevisionCases.ComparabilityCases` | test/EventStore.Client.Tests/StreamRevisionTests.cs:95-104 | start vs start is 0, start vs None is -1, None vs start is 1 |
| `StreamRevisionCases.ConversionCases` | test/EventStore.Client.Tests/StreamRevisionTests.cs:106-148 | 0 converts to Rev(0) and back to 0, and Rev(0) renders as "0" |

## Left out

- test/EventStore.Client.Streams.Tests/append_to_stream_with_timeout.cs is not part of this model. It is a network integration test of the gRPC append call under a zero deadline. It depends on wall-clock time, asynchronous tasks and the transport.
- The raw value of `None` is left unspecified. The model only knows that it lies above `long.MaxValue`. So `ToUInt64(None)`, `ToString(None)` and arithmetic on `None` are defined in terms of that unknown number, and their exact outcomes are not stated.
- StreamRevisions.FromUInt64: rejects every value above `long.MaxValue`. The tests do not say whether the constructor accepts `None`'s raw value. They deliberately skip `ulong.MaxValue` (line 74).
- StreamRevisions.FromStreamPosition: the parameter name `"position"` for `End` is a choice of the model. The test checks only the exception type (line 85).
- StreamRevisions.Add: for sums above `long.MaxValue` that fit in 64 bits, the error kind (`ArgumentOutOfRange("value")`) is a choice of the model. The tests do not fix it. The same holds for `AddToNumber`, `Next` at `long.MaxValue` and `SubFromNumber`.
- StreamPositions.StreamPosition: only `Start` and `End` are modelled, since they are the only positions the tests convert. Other stream positions are not part of this model.
- Hash codes, `object.Equals` overloads and the C# operator and implicit-conversion dispatch are not modelled. The operators are named functions, and equality is Dafny's value equality.
- The xUnit plumbing (`Fact`, `Theory`, `MemberData` and the `yield return` case generators) is not modelled. Each case is a lemma in `StreamRevisionCases`.
- `ToString()` uses the decimal rendering of the number without culture-specific formatting.
