/** BDSmartATAOfflineDataCollectionStatus and the offline data collection
    status byte of the ATA SMART READ DATA structure it is read from.  Bit 7 of
    that byte says whether automatic offline data collection is enabled; bits
    6..0 hold the status: the six named codes, 40h..7Fh vendor specific, and
    every other value reserved. */
module AtaOfflineCollection {
  import opened BoundedInts

  datatype Status =
    | NeverStarted
    | NoError          // completed without error: a passed test
    | InProgress
    | SuspendedIntr    // suspended by an interrupting command from the host
    | AbortedIntr      // aborted by an interrupting command from the host
    | AbortedError     // aborted by the device with a fatal error: a failed test
    | VendorSpecific
    | Reserved
  {
    /** The C enumerator value. */
    function Code(): uint8 {
      match this
      case NeverStarted => 0x00
      case NoError => 0x02
      case InProgress => 0x03
      case SuspendedIntr => 0x04
      case AbortedIntr => 0x05
      case AbortedError => 0x06
      case VendorSpecific => 0x40
      case Reserved => 0x3F
    }

    /** The status names one of the six codes with a fixed meaning. */
    predicate IsNamed() {
      this != VendorSpecific && this != Reserved
    }
  }

  /** Bit 7 of the status byte. */
  const AUTO_OFFLINE_BIT: uint8 := 0x80

  /** The decoded status byte: the status and the automatic offline data
      collection flag of the health record. */
  datatype OfflineCollection = OfflineCollection(status: Status, autoEnabled: bool)

  function DecodeStatusCode(code: uint8): (s: Status)
    requires code < AUTO_OFFLINE_BIT
    ensures s.IsNamed() ==> s.Code() == code
    ensures s == VendorSpecific <==> 0x40 <= code
  {
    match code
    case 0x00 => NeverStarted
    case 0x02 => NoError
    case 0x03 => InProgress
    case 0x04 => SuspendedIntr
    case 0x05 => AbortedIntr
    case 0x06 => AbortedError
    case _ => if code >= 0x40 then VendorSpecific else Reserved
  }

  function DecodeOfflineCollection(b: uint8): (r: OfflineCollection)
    ensures r.autoEnabled <==> b >= AUTO_OFFLINE_BIT
  {
    OfflineCollection(DecodeStatusCode(b % AUTO_OFFLINE_BIT), b >= AUTO_OFFLINE_BIT)
  }

  /** Every status, the two catch-all ones included, decodes from its own
      enumerator value, with automatic collection off. */
  lemma StatusRoundTrip(s: Status)
    ensures DecodeOfflineCollection(s.Code()) == OfflineCollection(s, false)
  {
  }

  /** The automatic-collection bit does not change the status. */
  lemma AutoBitIndependent(b: uint8)
    requires b < AUTO_OFFLINE_BIT
    ensures DecodeOfflineCollection(b + AUTO_OFFLINE_BIT)
         == DecodeOfflineCollection(b).(autoEnabled := true)
  {
  }

  /** The reserved codes are exactly 01h and 07h..3Fh (with either value of
      bit 7). */
  lemma ReservedCodes(b: uint8)
    ensures DecodeOfflineCollection(b).status == Reserved
        <==> var code := b % AUTO_OFFLINE_BIT; code == 0x01 || 0x07 <= code <= 0x3f
  {
  }

  /** Only the named codes decode to a named status, and distinct named codes
      decode to distinct statuses. */
  lemma NamedStatusesInjective(b1: uint8, b2: uint8)
    requires DecodeOfflineCollection(b1).status.IsNamed()
    requires DecodeOfflineCollection(b1).status == DecodeOfflineCollection(b2).status
    ensures b1 % AUTO_OFFLINE_BIT == b2 % AUTO_OFFLINE_BIT
  {
  }
}
