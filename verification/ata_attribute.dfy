/** BDSmartATAAttribute: one SMART attribute of an ATA device, with its
    normalized value, worst value and threshold (each -1 when unknown), the
    two failure flags derived from them, and the raw and parsed ("pretty")
    values. */
module AtaAttribute {
  import opened BoundedInts
  import opened Wrappers
  import Sentinels
  import AtaBitmasks

  /** BDSmartATAAttributeUnit, in declaration order. */
  datatype Unit =
    | Unknown
    | Dimensionless
    | Milliseconds
    | Sectors
    | Millikelvin
    | SmallPercent  // percentage with three decimal places
    | Percent
    | Megabytes
  {
    function Code(): nat {
      match this
      case Unknown => 0
      case Dimensionless => 1
      case Milliseconds => 2
      case Sectors => 3
      case Millikelvin => 4
      case SmallPercent => 5
      case Percent => 6
      case Megabytes => 7
    }
  }

  function UnitFromCode(code: int): (r: Option<Unit>)
    ensures r.Some? <==> 0 <= code < 8
    ensures r.Some? ==> r.value.Code() == code
  {
    match code
    case 0 => Some(Unknown)
    case 1 => Some(Dimensionless)
    case 2 => Some(Milliseconds)
    case 3 => Some(Sectors)
    case 4 => Some(Millikelvin)
    case 5 => Some(SmallPercent)
    case 6 => Some(Percent)
    case 7 => Some(Megabytes)
    case _ => None
  }

  /** A normalized value field (gint): a byte-sized reading, or -1 for
      "unknown". */
  type Normalized = x: int | x == Sentinels.UNKNOWN || 0 <= x < 0x100

  /** The reading a normalized field holds, if it is known. */
  function Reading(x: Normalized): Option<uint8> {
    if x == Sentinels.UNKNOWN then None else Some(x)
  }

  /** x is below the threshold t; false when either is unknown. */
  predicate Below(x: Normalized, t: Normalized) {
    x != Sentinels.UNKNOWN && t != Sentinels.UNKNOWN && x < t
  }

  datatype Attribute = Attribute(
    id: uint8,
    name: string,
    wellKnownName: Option<string>,  // None for unknown or vendor-specific attributes
    value: Normalized,
    worst: Normalized,
    threshold: Normalized,
    failedPast: bool,
    failingNow: bool,
    flags: bv16,
    valueRaw: uint64,
    prettyValue: int64,
    prettyValueUnit: Unit,
    prettyValueString: Option<string>)
  {
    /** The failure flags agree with the normalized values: a failure in the
        past is a worst value below the threshold, a failure now a current
        value below it. */
    predicate FlagsDerived() {
      failedPast == Below(worst, threshold) && failingNow == Below(value, threshold)
    }
  }

  /** Builds an attribute from the values a backend reports; the failure flags
      are computed here, never taken from the backend. */
  function MakeAttribute(
    id: uint8, name: string, wellKnownName: Option<string>,
    value: Normalized, worst: Normalized, threshold: Normalized,
    flags: bv16, valueRaw: uint64,
    prettyValue: int64, prettyValueUnit: Unit, prettyValueString: Option<string>): (a: Attribute)
    ensures a.FlagsDerived()
    ensures a.id == id && a.name == name && a.wellKnownName == wellKnownName
    ensures a.value == value && a.worst == worst && a.threshold == threshold
    ensures a.flags == flags && a.valueRaw == valueRaw
    ensures a.prettyValue == prettyValue && a.prettyValueUnit == prettyValueUnit
    ensures a.prettyValueString == prettyValueString
  {
    Attribute(id, name, wellKnownName, value, worst, threshold,
              Below(worst, threshold), Below(value, threshold),
              flags, valueRaw, prettyValue, prettyValueUnit, prettyValueString)
  }

  /** Recomputes the failure flags of an attribute from its normalized values
      and leaves every other field alone. */
  function Rederive(a: Attribute): (b: Attribute)
    ensures b.FlagsDerived()
    ensures b.(failedPast := a.failedPast, failingNow := a.failingNow) == a
  {
    a.(failedPast := Below(a.worst, a.threshold), failingNow := Below(a.value, a.threshold))
  }

  /** An attribute whose flags are already derived is left unchanged, so
      recomputing twice is the same as recomputing once. */
  lemma RederiveFixesDerived(a: Attribute)
    ensures a.FlagsDerived() <==> Rederive(a) == a
    ensures Rederive(Rederive(a)) == Rederive(a)
  {
  }

  /** The derived flags, stated on the readings the sentinel encodes: each
      flag holds exactly when both of its readings are known and the first is
      below the second. */
  lemma FlagsFromReadings(a: Attribute)
    requires a.FlagsDerived()
    ensures a.failingNow <==> Reading(a.value).Some? && Reading(a.threshold).Some?
                              && Reading(a.value).value < Reading(a.threshold).value
    ensures a.failedPast <==> Reading(a.worst).Some? && Reading(a.threshold).Some?
                              && Reading(a.worst).value < Reading(a.threshold).value
  {
  }

  /** The readings decode the sentinel convention losslessly. */
  lemma ReadingMatchesSentinel(x: Normalized)
    ensures Reading(x) == Sentinels.MinusOneAsUnknown(x)
    ensures Sentinels.UnknownAsMinusOne(Reading(x)) == x
  {
  }

  /** A threshold of 0 can never be failed. */
  lemma ZeroThresholdNeverFails(a: Attribute)
    requires a.FlagsDerived() && a.threshold == 0
    ensures !a.failingNow && !a.failedPast
  {
  }

  /** An unknown threshold can never be failed. */
  lemma UnknownThresholdNeverFails(a: Attribute)
    requires a.FlagsDerived() && a.threshold == Sentinels.UNKNOWN
    ensures !a.failingNow && !a.failedPast
  {
  }

  // ---------------------------------------------------------------------
  // Advisory and prefailure conditions
  // ---------------------------------------------------------------------

  /** What a value at or below its threshold indicates: with the prefailure
      bit set, imminent loss of data; without it, that the device has
      exceeded its intended design life. */
  datatype Condition = NoCondition | AdvisoryCondition | PrefailureCondition

  function ThresholdCondition(a: Attribute): (c: Condition)
    ensures c != NoCondition <==> Reading(a.value).Some? && Reading(a.threshold).Some?
                                  && Reading(a.value).value <= Reading(a.threshold).value
    ensures c == PrefailureCondition ==> AtaBitmasks.HasAttributeFlag(a.flags, AtaBitmasks.Prefailure)
    ensures c == AdvisoryCondition ==> !AtaBitmasks.HasAttributeFlag(a.flags, AtaBitmasks.Prefailure)
  {
    if a.value == Sentinels.UNKNOWN || a.threshold == Sentinels.UNKNOWN || a.value > a.threshold then
      NoCondition
    else if AtaBitmasks.HasAttributeFlag(a.flags, AtaBitmasks.Prefailure) then
      PrefailureCondition
    else
      AdvisoryCondition
  }

  /** The "failing now" flag and the threshold condition differ exactly by a
      known value equal to its threshold: such a value raises a condition but
      is not "below" the threshold. */
  lemma FailingNowVersusCondition(a: Attribute)
    requires a.FlagsDerived()
    ensures ThresholdCondition(a) != NoCondition
        <==> a.failingNow || (a.value != Sentinels.UNKNOWN && a.value == a.threshold)
    ensures a.failingNow ==> ThresholdCondition(a) != NoCondition
  {
  }
}
