/** The "no value" conventions of the health records.  Several counters use 0
    for "not supported" or "not reported"; the normalized attribute fields use
    -1 for "unknown".  Each convention is an encoding of an optional value, and
    the lemmas here show that the encoding loses nothing. */
module Sentinels {
  import opened Wrappers

  /** Reads a field in which 0 stands for "absent". */
  function ZeroAsAbsent(x: nat): Option<nat> {
    if x == 0 then None else Some(x)
  }

  /** Writes an optional value into a field in which 0 stands for "absent". */
  function AbsentAsZero(o: Option<nat>): nat {
    match o
    case None => 0
    case Some(v) => v
  }

  lemma ZeroSentinelMeaning(x: nat)
    ensures ZeroAsAbsent(x).None? <==> x == 0
    ensures ZeroAsAbsent(x).Some? ==> ZeroAsAbsent(x).value > 0
  {
  }

  lemma ZeroSentinelRoundTrip(x: nat)
    ensures AbsentAsZero(ZeroAsAbsent(x)) == x
  {
  }

  /** Every optional value except a present 0 survives the encoding; a present
      0 cannot be told apart from "absent", which is why the fields that use
      this convention never hold a real 0. */
  lemma ZeroSentinelRoundTripOption(o: Option<nat>)
    ensures ZeroAsAbsent(AbsentAsZero(o)) == o <==> o != Some(0)
  {
  }

  /** The sentinel of a normalized attribute field. */
  const UNKNOWN: int := -1

  /** Reads a field in which -1 stands for "unknown" and every other value is
      a non-negative reading. */
  function MinusOneAsUnknown(x: int): Option<nat>
    requires x >= UNKNOWN
  {
    if x == UNKNOWN then None else Some(x)
  }

  function UnknownAsMinusOne(o: Option<nat>): int {
    match o
    case None => UNKNOWN
    case Some(v) => v
  }

  lemma UnknownSentinelRoundTrip(x: int)
    requires x >= UNKNOWN
    ensures MinusOneAsUnknown(x).None? <==> x == UNKNOWN
    ensures UnknownAsMinusOne(MinusOneAsUnknown(x)) == x
  {
  }

  /** Unlike the zero convention, the -1 convention is a bijection: every
      reading, 0 included, is representable. */
  lemma UnknownSentinelRoundTripOption(o: Option<nat>)
    ensures UnknownAsMinusOne(o) >= UNKNOWN
    ensures MinusOneAsUnknown(UnknownAsMinusOne(o)) == o
  {
  }
}
