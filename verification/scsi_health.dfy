/** BDSmartSCSI: the SMART health report of a SCSI device, and
    BDSmartSCSIBackgroundScanStatus. */
module ScsiHealth {
  import opened BoundedInts
  import opened Wrappers
  import Sentinels
  import IE = ScsiInformationalException

  datatype BackgroundScanStatus =
    | NoScansActive
    | ScanActive
    | PrescanActive
    | HaltedErrorFatal
    | HaltedPatternVendorSpecific
    | HaltedErrorPlist             // medium formatted without a P-List
    | HaltedVendorSpecific
    | HaltedTemperature            // temperature out of range
    | BmsTimer                     // waiting for the BMS interval timer
  {
    function Code(): uint8 {
      match this
      case NoScansActive => 0x00
      case ScanActive => 0x01
      case PrescanActive => 0x02
      case HaltedErrorFatal => 0x03
      case HaltedPatternVendorSpecific => 0x04
      case HaltedErrorPlist => 0x05
      case HaltedVendorSpecific => 0x06
      case HaltedTemperature => 0x07
      case BmsTimer => 0x08
    }
  }

  function BackgroundScanStatusFromCode(code: int): (r: Option<BackgroundScanStatus>)
    ensures r.Some? <==> 0x00 <= code <= 0x08
    ensures r.Some? ==> r.value.Code() == code
  {
    match code
    case 0x00 => Some(NoScansActive)
    case 0x01 => Some(ScanActive)
    case 0x02 => Some(PrescanActive)
    case 0x03 => Some(HaltedErrorFatal)
    case 0x04 => Some(HaltedPatternVendorSpecific)
    case 0x05 => Some(HaltedErrorPlist)
    case 0x06 => Some(HaltedVendorSpecific)
    case 0x07 => Some(HaltedTemperature)
    case 0x08 => Some(BmsTimer)
    case _ => None
  }

  lemma BackgroundScanStatusRoundTrip(s: BackgroundScanStatus)
    ensures BackgroundScanStatusFromCode(s.Code()) == Some(s)
  {
  }

  datatype ScsiInfo = ScsiInfo(
    smartSupported: bool,
    smartEnabled: bool,
    overallStatusPassed: bool,
    scsiIe: IE.InformationalException,
    scsiIeAsc: uint8,
    scsiIeAscq: uint8,
    backgroundScanStatus: BackgroundScanStatus,
    scsiIeString: Option<string>,
    backgroundScanRuns: uint32,
    backgroundMediumScanRuns: uint32,
    readErrorsCorrectedEccFast: uint32,
    readErrorsCorrectedEccDelayed: uint32,
    readErrorsCorrectedRereads: uint32,
    readErrorsCorrectedTotal: uint32,
    readErrorsUncorrected: uint32,
    readProcessedBytes: uint64,
    writeErrorsCorrectedEccFast: uint32,
    writeErrorsCorrectedEccDelayed: uint32,
    writeErrorsCorrectedRewrites: uint32,
    writeErrorsCorrectedTotal: uint32,
    writeErrorsUncorrected: uint32,
    writeProcessedBytes: uint64,
    startStopCycleCount: uint32,
    startStopCycleLifetime: uint32,
    loadUnloadCycleCount: uint32,
    loadUnloadCycleLifetime: uint32,
    scsiGrownDefectList: uint32,
    powerOnTime: uint32,                 // minutes
    temperatureWarningEnabled: bool,
    temperature: uint32,                 // Kelvin, 0 when not reported
    temperatureDriveTrip: uint32)        // Kelvin, 0 when not reported

  /** The simplified category agrees with the reported ASC/ASCQ pair, and a
      passed self-assessment carries no exception. */
  ghost predicate ExceptionConsistent(s: ScsiInfo) {
    && s.scsiIe == IE.Classify(s.scsiIeAsc, s.scsiIeAscq)
    && (s.overallStatusPassed ==> s.scsiIe == IE.None)
  }

  /** Records the verdict of the self-assessment and, for a failed one, the
      informational exception the device reports.  A passed assessment keeps
      the exception fields at "no exception". */
  function WithHealthStatus(s: ScsiInfo, passed: bool, asc: uint8, ascq: uint8, description: Option<string>): (r: ScsiInfo)
    ensures ExceptionConsistent(r)
    ensures r.overallStatusPassed == passed
    ensures !passed ==> r.scsiIeAsc == asc && r.scsiIeAscq == ascq && r.scsiIeString == description
    ensures passed ==> r.scsiIe == IE.None && r.scsiIeString.None?
    ensures r.(overallStatusPassed := s.overallStatusPassed, scsiIe := s.scsiIe, scsiIeAsc := s.scsiIeAsc,
               scsiIeAscq := s.scsiIeAscq, scsiIeString := s.scsiIeString) == s
  {
    if passed then
      s.(overallStatusPassed := true, scsiIe := IE.None, scsiIeAsc := 0, scsiIeAscq := 0, scsiIeString := None)
    else
      s.(overallStatusPassed := false, scsiIe := IE.Classify(asc, ascq), scsiIeAsc := asc,
         scsiIeAscq := ascq, scsiIeString := description)
  }

  /** A failed assessment is categorised as something other than "no
      exception" exactly when the device reports a warning or a failure
      prediction. */
  lemma FailedStatusCategory(s: ScsiInfo, asc: uint8, ascq: uint8, description: Option<string>)
    ensures WithHealthStatus(s, false, asc, ascq, description).scsiIe != IE.None
        <==> asc == IE.WARNING_ASC || asc == IE.FAILURE_PREDICTION_ASC
  {
  }

  /** The current drive temperature in Kelvin, if reported. */
  function Temperature(s: ScsiInfo): Option<nat> {
    Sentinels.ZeroAsAbsent(s.temperature)
  }

  /** The drive trip temperature in Kelvin, if reported. */
  function TripTemperature(s: ScsiInfo): Option<nat> {
    Sentinels.ZeroAsAbsent(s.temperatureDriveTrip)
  }

  lemma TemperatureSentinels(s: ScsiInfo)
    ensures Temperature(s).None? <==> s.temperature == 0
    ensures TripTemperature(s).None? <==> s.temperatureDriveTrip == 0
    ensures Temperature(s).Some? ==> Temperature(s).value == s.temperature
    ensures TripTemperature(s).Some? ==> TripTemperature(s).value == s.temperatureDriveTrip
  {
  }
}
