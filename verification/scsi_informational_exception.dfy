/** BDSmartSCSIInformationalException: the simplified category of a SCSI
    Informational Exception, derived from the ASC/ASCQ pair the device reports.
    The codes are the warning (ASC 0Bh) and failure-prediction (ASC 5Dh)
    assignments of SCSI Primary Commands (SPC-4, section 4.5.6, "ASC and ASCQ
    assignments"). */
module ScsiInformationalException {
  import opened BoundedInts
  import Wrappers

  /** Additional Sense Code of the warnings. */
  const WARNING_ASC: uint8 := 0x0b
  /** Additional Sense Code of the failure predictions and impending failures. */
  const FAILURE_PREDICTION_ASC: uint8 := 0x5d

  /** The categories, in declaration order. */
  datatype InformationalException =
    | None
    | AbortedCommand
    | TemperatureExceeded
    | EnclosureDegraded
    | BackgroundSelfTestFailed
    | BackgroundPrescanMediumError
    | BackgroundScanMediumError
    | NvCacheVolatile
    | NvCacheDegradedPower
    | PowerLossExpected
    | StatisticsNotification
    | HighCriticalTemp
    | LowCriticalTemp
    | HighOperatingTemp
    | LowOperatingTemp
    | HighCriticalHumidity
    | LowCriticalHumidity
    | HighOperatingHumidity
    | LowOperatingHumidity
    | MicrocodeSecurityRisk
    | MicrocodeSignatureValidationFailure
    | PhysicalElementStatusChange
    | FailurePredictionThresh
    | MediaFailurePredictionThresh
    | LogicalUnitFailurePredictionThresh
    | SpareExhaustionPredictionThresh
    | HardwareImpendingFailure
    | ControllerImpendingFailure
    | DataChannelImpendingFailure
    | ServoImpendingFailure
    | SpindleImpendingFailure
    | FirmwareImpendingFailure
    | MediaEnduranceLimit
    | Unspecified
  {
    /** The C enumerator value: the implicit position in the declaration. */
    function Code(): nat {
      match this
      case None => 0
      case AbortedCommand => 1
      case TemperatureExceeded => 2
      case EnclosureDegraded => 3
      case BackgroundSelfTestFailed => 4
      case BackgroundPrescanMediumError => 5
      case BackgroundScanMediumError => 6
      case NvCacheVolatile => 7
      case NvCacheDegradedPower => 8
      case PowerLossExpected => 9
      case StatisticsNotification => 10
      case HighCriticalTemp => 11
      case LowCriticalTemp => 12
      case HighOperatingTemp => 13
      case LowOperatingTemp => 14
      case HighCriticalHumidity => 15
      case LowCriticalHumidity => 16
      case HighOperatingHumidity => 17
      case LowOperatingHumidity => 18
      case MicrocodeSecurityRisk => 19
      case MicrocodeSignatureValidationFailure => 20
      case PhysicalElementStatusChange => 21
      case FailurePredictionThresh => 22
      case MediaFailurePredictionThresh => 23
      case LogicalUnitFailurePredictionThresh => 24
      case SpareExhaustionPredictionThresh => 25
      case HardwareImpendingFailure => 26
      case ControllerImpendingFailure => 27
      case DataChannelImpendingFailure => 28
      case ServoImpendingFailure => 29
      case SpindleImpendingFailure => 30
      case FirmwareImpendingFailure => 31
      case MediaEnduranceLimit => 32
      case Unspecified => 33
    }

    /** A category the documentation assigns explicit ASC/ASCQ codes to:
        everything except "no exception" and "unspecified warning". */
    predicate IsDocumented() {
      this != None && this != Unspecified
    }
  }

  /** Number of categories. */
  const CATEGORY_COUNT: nat := 34

  /** Decodes a C enumerator value. */
  function FromCode(n: int): (r: Wrappers.Option<InformationalException>)
    ensures r.Some? <==> 0 <= n < CATEGORY_COUNT
    ensures r.Some? ==> r.value.Code() == n
  {
    if n < 0 || n >= CATEGORY_COUNT then Wrappers.None
    else if n < 11 then Wrappers.Some(FromCodeBelow11(n))
    else if n < 22 then Wrappers.Some(FromCodeBelow22(n))
    else Wrappers.Some(FromCodeBelow34(n))
  }

  function FromCodeBelow11(n: int): (c: InformationalException)
    requires 0 <= n < 11
    ensures c.Code() == n
  {
    match n
    case 0 => None
    case 1 => AbortedCommand
    case 2 => TemperatureExceeded
    case 3 => EnclosureDegraded
    case 4 => BackgroundSelfTestFailed
    case 5 => BackgroundPrescanMediumError
    case 6 => BackgroundScanMediumError
    case 7 => NvCacheVolatile
    case 8 => NvCacheDegradedPower
    case 9 => PowerLossExpected
    case _ => StatisticsNotification
  }

  function FromCodeBelow22(n: int): (c: InformationalException)
    requires 11 <= n < 22
    ensures c.Code() == n
  {
    match n
    case 11 => HighCriticalTemp
    case 12 => LowCriticalTemp
    case 13 => HighOperatingTemp
    case 14 => LowOperatingTemp
    case 15 => HighCriticalHumidity
    case 16 => LowCriticalHumidity
    case 17 => HighOperatingHumidity
    case 18 => LowOperatingHumidity
    case 19 => MicrocodeSecurityRisk
    case 20 => MicrocodeSignatureValidationFailure
    case _ => PhysicalElementStatusChange
  }

  function FromCodeBelow34(n: int): (c: InformationalException)
    requires 22 <= n < 34
    ensures c.Code() == n
  {
    match n
    case 22 => FailurePredictionThresh
    case 23 => MediaFailurePredictionThresh
    case 24 => LogicalUnitFailurePredictionThresh
    case 25 => SpareExhaustionPredictionThresh
    case 26 => HardwareImpendingFailure
    case 27 => ControllerImpendingFailure
    case 28 => DataChannelImpendingFailure
    case 29 => ServoImpendingFailure
    case 30 => SpindleImpendingFailure
    case 31 => FirmwareImpendingFailure
    case 32 => MediaEnduranceLimit
    case _ => Unspecified
  }

  /** The enumerator values are exactly the positions 0..33, one per category. */
  lemma CodeRoundTrip(c: InformationalException)
    ensures c.Code() < CATEGORY_COUNT
    ensures FromCode(c.Code()) == Wrappers.Some(c)
  {
  }

  // ---------------------------------------------------------------------
  // The documented code table
  // ---------------------------------------------------------------------

  /** An ASC with an inclusive range of ASCQ values. */
  datatype CodeRange = CodeRange(asc: uint8, first: uint8, last: uint8) {
    predicate Contains(a: uint8, q: uint8) {
      a == asc && first <= q <= last
    }
  }

  function Single(asc: uint8, ascq: uint8): CodeRange {
    CodeRange(asc, ascq, ascq)
  }

  /** The ASC/ASCQ codes the documentation attaches to each category. */
  function DocumentedCodes(c: InformationalException): seq<CodeRange> {
    match c
    case None => []
    case AbortedCommand => [Single(WARNING_ASC, 0x00)]
    case TemperatureExceeded => [Single(WARNING_ASC, 0x01)]
    case EnclosureDegraded => [Single(WARNING_ASC, 0x02)]
    case BackgroundSelfTestFailed => [Single(WARNING_ASC, 0x03)]
    case BackgroundPrescanMediumError => [Single(WARNING_ASC, 0x04)]
    case BackgroundScanMediumError => [Single(WARNING_ASC, 0x05)]
    case NvCacheVolatile => [Single(WARNING_ASC, 0x06)]
    case NvCacheDegradedPower => [Single(WARNING_ASC, 0x07)]
    case PowerLossExpected => [Single(WARNING_ASC, 0x08)]
    case StatisticsNotification => [Single(WARNING_ASC, 0x09)]
    case HighCriticalTemp => [Single(WARNING_ASC, 0x0a)]
    case LowCriticalTemp => [Single(WARNING_ASC, 0x0b)]
    case HighOperatingTemp => [Single(WARNING_ASC, 0x0c)]
    case LowOperatingTemp => [Single(WARNING_ASC, 0x0d)]
    case HighCriticalHumidity => [Single(WARNING_ASC, 0x0e)]
    case LowCriticalHumidity => [Single(WARNING_ASC, 0x0f)]
    case HighOperatingHumidity => [Single(WARNING_ASC, 0x10)]
    case LowOperatingHumidity => [Single(WARNING_ASC, 0x11)]
    case MicrocodeSecurityRisk => [Single(WARNING_ASC, 0x12)]
    case MicrocodeSignatureValidationFailure => [Single(WARNING_ASC, 0x13)]
    case PhysicalElementStatusChange => [Single(WARNING_ASC, 0x14)]
    case FailurePredictionThresh =>
      [Single(FAILURE_PREDICTION_ASC, 0x00), Single(FAILURE_PREDICTION_ASC, 0xff)]
    case MediaFailurePredictionThresh => [Single(FAILURE_PREDICTION_ASC, 0x01)]
    case LogicalUnitFailurePredictionThresh => [Single(FAILURE_PREDICTION_ASC, 0x02)]
    case SpareExhaustionPredictionThresh => [Single(FAILURE_PREDICTION_ASC, 0x03)]
    case HardwareImpendingFailure => [CodeRange(FAILURE_PREDICTION_ASC, 0x10, 0x1d)]
    case ControllerImpendingFailure => [CodeRange(FAILURE_PREDICTION_ASC, 0x20, 0x2c)]
    case DataChannelImpendingFailure => [CodeRange(FAILURE_PREDICTION_ASC, 0x30, 0x3c)]
    case ServoImpendingFailure => [CodeRange(FAILURE_PREDICTION_ASC, 0x40, 0x4c)]
    case SpindleImpendingFailure => [CodeRange(FAILURE_PREDICTION_ASC, 0x50, 0x5c)]
    case FirmwareImpendingFailure => [CodeRange(FAILURE_PREDICTION_ASC, 0x60, 0x6c)]
    case MediaEnduranceLimit => [Single(FAILURE_PREDICTION_ASC, 0x73)]
    case Unspecified => []
  }

  function AnyContains(ranges: seq<CodeRange>, asc: uint8, ascq: uint8): bool {
    |ranges| > 0 && (ranges[0].Contains(asc, ascq) || AnyContains(ranges[1..], asc, ascq))
  }

  lemma AnyContainsOne(r: CodeRange, asc: uint8, ascq: uint8)
    ensures AnyContains([r], asc, ascq) <==> r.Contains(asc, ascq)
  {
    assert [r][1..] == [];
  }

  lemma AnyContainsTwo(r1: CodeRange, r2: CodeRange, asc: uint8, ascq: uint8)
    ensures AnyContains([r1, r2], asc, ascq) <==> r1.Contains(asc, ascq) || r2.Contains(asc, ascq)
  {
    assert [r1, r2][1..] == [r2];
    AnyContainsOne(r2, asc, ascq);
  }

  /** The documentation assigns the pair (asc, ascq) to category c. */
  predicate Covers(c: InformationalException, asc: uint8, ascq: uint8) {
    AnyContains(DocumentedCodes(c), asc, ascq)
  }

  // ---------------------------------------------------------------------
  // The classifier
  // ---------------------------------------------------------------------

  /** Category of an ASC 0Bh warning. */
  function ClassifyWarning(ascq: uint8): InformationalException {
    match ascq
    case 0x00 => AbortedCommand
    case 0x01 => TemperatureExceeded
    case 0x02 => EnclosureDegraded
    case 0x03 => BackgroundSelfTestFailed
    case 0x04 => BackgroundPrescanMediumError
    case 0x05 => BackgroundScanMediumError
    case 0x06 => NvCacheVolatile
    case 0x07 => NvCacheDegradedPower
    case 0x08 => PowerLossExpected
    case 0x09 => StatisticsNotification
    case 0x0a => HighCriticalTemp
    case 0x0b => LowCriticalTemp
    case 0x0c => HighOperatingTemp
    case 0x0d => LowOperatingTemp
    case 0x0e => HighCriticalHumidity
    case 0x0f => LowCriticalHumidity
    case 0x10 => HighOperatingHumidity
    case 0x11 => LowOperatingHumidity
    case 0x12 => MicrocodeSecurityRisk
    case 0x13 => MicrocodeSignatureValidationFailure
    case 0x14 => PhysicalElementStatusChange
    case _ => Unspecified
  }

  /** Category of an ASC 5Dh failure prediction; the impending-failure
      ranges are tested in ascending order. */
  function ClassifyFailurePrediction(ascq: uint8): InformationalException {
    if ascq == 0x00 || ascq == 0xff then FailurePredictionThresh
    else if ascq == 0x01 then MediaFailurePredictionThresh
    else if ascq == 0x02 then LogicalUnitFailurePredictionThresh
    else if ascq == 0x03 then SpareExhaustionPredictionThresh
    else if 0x10 <= ascq <= 0x1d then HardwareImpendingFailure
    else if 0x20 <= ascq <= 0x2c then ControllerImpendingFailure
    else if 0x30 <= ascq <= 0x3c then DataChannelImpendingFailure
    else if 0x40 <= ascq <= 0x4c then ServoImpendingFailure
    else if 0x50 <= ascq <= 0x5c then SpindleImpendingFailure
    else if 0x60 <= ascq <= 0x6c then FirmwareImpendingFailure
    else if ascq == 0x73 then MediaEnduranceLimit
    else Unspecified
  }

  /** Maps a reported ASC/ASCQ pair to its category.  Only the warning and
      failure-prediction ASCs are taken into account; any other ASC means no
      informational exception was raised. */
  function Classify(asc: uint8, ascq: uint8): (r: InformationalException)
    ensures r != None <==> asc == WARNING_ASC || asc == FAILURE_PREDICTION_ASC
  {
    if asc == WARNING_ASC then ClassifyWarning(ascq)
    else if asc == FAILURE_PREDICTION_ASC then ClassifyFailurePrediction(ascq)
    else None
  }

  // ---------------------------------------------------------------------
  // The classifier against the documented table
  // ---------------------------------------------------------------------

  /** The documented codes of c, stated without the recursion of AnyContains. */
  lemma CoversUnfolded(c: InformationalException, asc: uint8, ascq: uint8)
    requires c.IsDocumented()
    ensures 1 <= |DocumentedCodes(c)| <= 2
    ensures Covers(c, asc, ascq)
        <==> DocumentedCodes(c)[0].Contains(asc, ascq)
             || (|DocumentedCodes(c)| == 2 && DocumentedCodes(c)[1].Contains(asc, ascq))
  {
    var codes := DocumentedCodes(c);
    if |codes| == 1 {
      AnyContainsOne(codes[0], asc, ascq);
      assert codes == [codes[0]];
    } else {
      AnyContainsTwo(codes[0], codes[1], asc, ascq);
      assert codes == [codes[0], codes[1]];
    }
  }

  /** Whatever documented category the classifier returns lists the pair. */
  lemma ClassifiedIsCovered(asc: uint8, ascq: uint8)
    requires Classify(asc, ascq).IsDocumented()
    ensures Covers(Classify(asc, ascq), asc, ascq)
  {
    CoversUnfolded(Classify(asc, ascq), asc, ascq);
  }

  /** A documented category that lists the pair is what the classifier
      returns for it. */
  lemma CoveredIsClassified(c: InformationalException, asc: uint8, ascq: uint8)
    requires c.IsDocumented() && Covers(c, asc, ascq)
    ensures Classify(asc, ascq) == c
  {
    CoversUnfolded(c, asc, ascq);
  }

  /** The classifier returns a documented category exactly for the codes the
      documentation lists for it. */
  lemma ClassifyMatchesDocumentation(c: InformationalException, asc: uint8, ascq: uint8)
    requires c.IsDocumented()
    ensures Classify(asc, ascq) == c <==> Covers(c, asc, ascq)
  {
    if Classify(asc, ascq) == c {
      ClassifiedIsCovered(asc, ascq);
    }
    if Covers(c, asc, ascq) {
      CoveredIsClassified(c, asc, ascq);
    }
  }

  /** Every pair is covered by at most one documented category: the documented
      ranges are pairwise disjoint, so the table defines a function. */
  lemma DocumentedCodesDisjoint(c1: InformationalException, c2: InformationalException, asc: uint8, ascq: uint8)
    requires c1.IsDocumented() && c2.IsDocumented()
    requires Covers(c1, asc, ascq) && Covers(c2, asc, ascq)
    ensures c1 == c2
  {
    ClassifyMatchesDocumentation(c1, asc, ascq);
    ClassifyMatchesDocumentation(c2, asc, ascq);
  }

  /** UNSPECIFIED is reported exactly for a warning or failure-prediction ASC
      whose ASCQ the documentation does not list. */
  lemma UnspecifiedExactlyForUnlistedCodes(asc: uint8, ascq: uint8)
    ensures Classify(asc, ascq) == Unspecified
        <==> (asc == WARNING_ASC || asc == FAILURE_PREDICTION_ASC)
             && forall c: InformationalException :: c.IsDocumented() ==> !Covers(c, asc, ascq)
  {
    var r := Classify(asc, ascq);
    if r == Unspecified {
      forall c: InformationalException | c.IsDocumented()
        ensures !Covers(c, asc, ascq)
      {
        ClassifyMatchesDocumentation(c, asc, ascq);
      }
    } else if r.IsDocumented() {
      ClassifyMatchesDocumentation(r, asc, ascq);
    }
  }

  /** The 21 warnings take ASCQ 00h..14h in declaration order: ASCQ n is the
      category with enumerator value n + 1. */
  lemma WarningsFollowDeclarationOrder(ascq: uint8)
    requires ascq <= 0x14
    ensures Classify(WARNING_ASC, ascq).Code() == ascq + 1
    ensures Classify(WARNING_ASC, ascq).IsDocumented()
  {
  }

  /** The generic and component-specific failure-prediction thresholds. */
  lemma FailurePredictionThresholds()
    ensures Classify(FAILURE_PREDICTION_ASC, 0x00) == FailurePredictionThresh
    ensures Classify(FAILURE_PREDICTION_ASC, 0xff) == FailurePredictionThresh
    ensures Classify(FAILURE_PREDICTION_ASC, 0x01) == MediaFailurePredictionThresh
    ensures Classify(FAILURE_PREDICTION_ASC, 0x02) == LogicalUnitFailurePredictionThresh
    ensures Classify(FAILURE_PREDICTION_ASC, 0x03) == SpareExhaustionPredictionThresh
  {
  }

  /** Sample classifications: a temperature warning, a controller impending
      failure inside its range, the endurance limit. */
  lemma SampleClassifications()
    ensures Classify(0x0b, 0x01) == TemperatureExceeded
    ensures Classify(0x5d, 0x25) == ControllerImpendingFailure
    ensures Classify(0x5d, 0x73) == MediaEnduranceLimit
    ensures Classify(0x5d, 0x1e) == Unspecified
    ensures Classify(0x00, 0x00) == None
  {
  }

  // ---------------------------------------------------------------------
  // Table-driven lookup
  // ---------------------------------------------------------------------

  /** Looks the pair up in the documented table, trying the documented
      categories in declaration order; an unlisted code under a taken-into-
      account ASC is UNSPECIFIED, anything else is NONE.  Agrees with the
      classifier on every input. */
  method LookupDocumented(asc: uint8, ascq: uint8) returns (r: InformationalException)
    ensures r == Classify(asc, ascq)
  {
    var k := 1;
    while k < CATEGORY_COUNT - 1
      invariant 1 <= k <= CATEGORY_COUNT - 1
      invariant forall j :: 1 <= j < k ==> !Covers(FromCode(j).value, asc, ascq)
    {
      var c := FromCode(k).value;
      if Covers(c, asc, ascq) {
        ClassifyMatchesDocumentation(c, asc, ascq);
        return c;
      }
      k := k + 1;
    }
    var actual := Classify(asc, ascq);
    if actual.IsDocumented() {
      ClassifyMatchesDocumentation(actual, asc, ascq);
      CodeRoundTrip(actual);
      assert false;
    }
    r := if asc == WARNING_ASC || asc == FAILURE_PREDICTION_ASC then Unspecified else None;
  }
}
