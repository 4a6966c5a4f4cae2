/** BDSmartATASelfTestStatus and the self-test execution status byte of the
    ATA SMART READ DATA structure: bits 7..4 hold the status code, bits 3..0
    the remaining part of a running self-test in tens of percent. */
module AtaSelfTest {
  import opened BoundedInts
  import opened Wrappers

  datatype Status =
    | CompletedNoError  // the last self-test passed, or none was ever run
    | AbortedHost
    | IntrHostReset     // interrupted by the host with a hard or soft reset
    | ErrorFatal
    | ErrorUnknown      // a test element failed, which one is not known
    | ErrorElectrical
    | ErrorServo
    | ErrorRead
    | ErrorHandling     // failed, the device is suspected of handling damage
    | InProgress
  {
    /** The C enumerator value. */
    function Code(): uint8 {
      match this
      case CompletedNoError => 0x00
      case AbortedHost => 0x01
      case IntrHostReset => 0x02
      case ErrorFatal => 0x03
      case ErrorUnknown => 0x04
      case ErrorElectrical => 0x05
      case ErrorServo => 0x06
      case ErrorRead => 0x07
      case ErrorHandling => 0x08
      case InProgress => 0x0F
    }
  }

  /** Decodes a status code; the codes 09h..0Eh and anything above 0Fh name
      no status. */
  function DecodeStatus(code: int): (r: Option<Status>)
    ensures r.Some? <==> 0x00 <= code <= 0x08 || code == 0x0F
    ensures r.Some? ==> r.value.Code() == code
  {
    match code
    case 0x00 => Some(CompletedNoError)
    case 0x01 => Some(AbortedHost)
    case 0x02 => Some(IntrHostReset)
    case 0x03 => Some(ErrorFatal)
    case 0x04 => Some(ErrorUnknown)
    case 0x05 => Some(ErrorElectrical)
    case 0x06 => Some(ErrorServo)
    case 0x07 => Some(ErrorRead)
    case 0x08 => Some(ErrorHandling)
    case 0x0F => Some(InProgress)
    case _ => None
  }

  /** Every status decodes from its own code, so the codes are distinct. */
  lemma StatusRoundTrip(s: Status)
    ensures DecodeStatus(s.Code()) == Some(s)
  {
  }

  /** 0Fh alone means a self-test is running. */
  lemma InProgressCode(code: int)
    ensures DecodeStatus(code) == Some(InProgress) <==> code == 0x0F
  {
  }

  /** The status of the last or running self-test, and how much of a running
      self-test remains in percent (0 when none is running). */
  datatype Execution = Execution(status: Status, percentRemaining: nat)

  /** Decodes the self-test execution status byte. */
  function DecodeExecution(b: uint8): (r: Option<Execution>)
    ensures r.Some? <==> DecodeStatus(b / 16).Some?
    ensures r.Some? ==> r.value.status.Code() == b / 16
    ensures r.Some? ==> r.value.percentRemaining % 10 == 0 && r.value.percentRemaining <= 150
    ensures r.Some? && r.value.percentRemaining > 0 ==> r.value.status == InProgress
  {
    match DecodeStatus(b / 16)
    case None => None
    case Some(s) =>
      Some(Execution(s, if s == InProgress then (b % 16) * 10 else 0))
  }

  /** An execution state the byte can carry: a remaining percentage only for
      a running test, in tens of percent that fit in four bits. */
  predicate Encodable(e: Execution) {
    && e.percentRemaining % 10 == 0
    && e.percentRemaining <= 150
    && (e.status != InProgress ==> e.percentRemaining == 0)
  }

  function EncodeExecution(e: Execution): uint8
    requires Encodable(e)
  {
    e.status.Code() * 16 + e.percentRemaining / 10
  }

  lemma ExecutionRoundTrip(e: Execution)
    requires Encodable(e)
    ensures DecodeExecution(EncodeExecution(e)) == Some(e)
  {
    var b := EncodeExecution(e);
    assert b / 16 == e.status.Code();
    assert b % 16 == e.percentRemaining / 10;
    StatusRoundTrip(e.status);
  }

  /** A byte is rebuilt from its decoding unless it carries a remaining
      percentage for a test that is not running, which the decoding drops. */
  lemma ExecutionByteRoundTrip(b: uint8)
    requires DecodeExecution(b).Some?
    ensures Encodable(DecodeExecution(b).value)
    ensures EncodeExecution(DecodeExecution(b).value) == b
        <==> DecodeExecution(b).value.status == InProgress || b % 16 == 0
  {
  }
}
