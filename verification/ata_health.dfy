/** BDSmartATA: the SMART health report of an ATA device. */
module AtaHealth {
  import opened BoundedInts
  import opened Wrappers
  import Sentinels
  import AtaOfflineCollection
  import AtaSelfTest
  import AtaAttribute

  /** A recommended polling time in minutes; 0 means the routine is not
      supported. */
  type PollingMinutes = x: int | 0 <= x < 0x8000_0000

  datatype AtaInfo = AtaInfo(
    smartSupported: bool,
    smartEnabled: bool,
    overallStatusPassed: bool,
    offlineDataCollectionStatus: AtaOfflineCollection.Status,
    autoOfflineDataCollectionEnabled: bool,
    offlineDataCollectionCompletion: int32,     // seconds
    offlineDataCollectionCapabilities: bv32,
    selfTestStatus: AtaSelfTest.Status,
    selfTestPercentRemaining: int32,
    selfTestPollingShort: PollingMinutes,
    selfTestPollingExtended: PollingMinutes,
    selfTestPollingConveyance: PollingMinutes,
    smartCapabilities: bv32,
    powerOnTime: uint32,                        // minutes
    temperature: uint32,                        // Kelvin, 0 when not reported
    attributes: seq<AtaAttribute.Attribute>,
    powerCycleCount: uint64)

  /** Every attribute of the report carries flags derived from its values. */
  ghost predicate AttributesDerived(info: AtaInfo) {
    forall i :: 0 <= i < |info.attributes| ==> info.attributes[i].FlagsDerived()
  }

  /** The current temperature in Kelvin, if the device reports one. */
  function Temperature(info: AtaInfo): Option<nat> {
    Sentinels.ZeroAsAbsent(info.temperature)
  }

  lemma TemperatureSentinel(info: AtaInfo)
    ensures Temperature(info).None? <==> info.temperature == 0
    ensures Temperature(info).Some? ==> Temperature(info).value == info.temperature
  {
  }

  /** The remaining percentage of the running self-test; there is none unless
      the self-test status says a test is in progress. */
  function RunningSelfTestRemaining(info: AtaInfo): (r: Option<int>)
    ensures r.Some? <==> info.selfTestStatus.Code() == 0x0F
    ensures r.Some? ==> r.value == info.selfTestPercentRemaining
  {
    if info.selfTestStatus == AtaSelfTest.InProgress then Some(info.selfTestPercentRemaining) else None
  }

  /** The offline data collection fields of a report as read from the status
      byte of the device. */
  function WithOfflineCollectionByte(info: AtaInfo, b: uint8): (r: AtaInfo)
    ensures r.autoOfflineDataCollectionEnabled <==> b >= 0x80
    ensures r.offlineDataCollectionStatus.IsNamed() <==> var code := b % 0x80; code == 0x00 || 0x02 <= code <= 0x06
    ensures r.offlineDataCollectionStatus.IsNamed() ==> r.offlineDataCollectionStatus.Code() == b % 0x80
    ensures r.offlineDataCollectionStatus == AtaOfflineCollection.VendorSpecific <==> b % 0x80 >= 0x40
    ensures r.(offlineDataCollectionStatus := info.offlineDataCollectionStatus,
               autoOfflineDataCollectionEnabled := info.autoOfflineDataCollectionEnabled) == info
  {
    var d := AtaOfflineCollection.DecodeOfflineCollection(b);
    info.(offlineDataCollectionStatus := d.status, autoOfflineDataCollectionEnabled := d.autoEnabled)
  }

  /** The self-test fields of a report as read from the execution status byte
      of the device; a byte whose status code names no status is rejected. */
  function WithSelfTestByte(info: AtaInfo, b: uint8): (r: Option<AtaInfo>)
    ensures r.Some? <==> AtaSelfTest.DecodeStatus(b / 16).Some?
    ensures r.Some? ==> r.value.selfTestStatus.Code() == b / 16
    ensures r.Some? && r.value.selfTestStatus != AtaSelfTest.InProgress ==> r.value.selfTestPercentRemaining == 0
    ensures r.Some? && r.value.selfTestStatus == AtaSelfTest.InProgress ==> r.value.selfTestPercentRemaining == (b % 16) * 10
    ensures r.Some? ==> r.value.(selfTestStatus := info.selfTestStatus,
                                 selfTestPercentRemaining := info.selfTestPercentRemaining) == info
  {
    match AtaSelfTest.DecodeExecution(b)
    case None => None
    case Some(e) => Some(info.(selfTestStatus := e.status, selfTestPercentRemaining := e.percentRemaining))
  }

  /** Reading back a status byte built from any status and automatic-collection
      setting restores both into the report. */
  lemma OfflineCollectionByteRoundTrip(info: AtaInfo, s: AtaOfflineCollection.Status, auto: bool)
    ensures var r := WithOfflineCollectionByte(info, s.Code() + if auto then 0x80 else 0x00);
            r.offlineDataCollectionStatus == s && r.autoOfflineDataCollectionEnabled == auto
  {
    AtaOfflineCollection.StatusRoundTrip(s);
    if auto {
      AtaOfflineCollection.AutoBitIndependent(s.Code());
    }
  }

  /** Reading back an execution status byte built from any representable
      execution restores its status and remaining percentage into the report. */
  lemma SelfTestByteRoundTrip(info: AtaInfo, e: AtaSelfTest.Execution)
    requires AtaSelfTest.Encodable(e)
    ensures WithSelfTestByte(info, AtaSelfTest.EncodeExecution(e))
         == Some(info.(selfTestStatus := e.status, selfTestPercentRemaining := e.percentRemaining))
  {
    AtaSelfTest.ExecutionRoundTrip(e);
  }

  /** After reading an execution status byte, a remaining percentage is
      reported exactly when the byte's status nibble is 0Fh, and it is the
      low nibble in tens of percent. */
  lemma RunningRemainingFromByte(info: AtaInfo, b: uint8)
    requires WithSelfTestByte(info, b).Some?
    ensures RunningSelfTestRemaining(WithSelfTestByte(info, b).value)
         == if b / 16 == 0x0F then Some((b % 16) * 10) else None
  {
  }

  /** Rebuilding every attribute's flags makes the whole report consistent
      and changes nothing else. */
  function RederiveAttributes(info: AtaInfo): (r: AtaInfo)
    ensures AttributesDerived(r)
    ensures |r.attributes| == |info.attributes|
    ensures forall i :: 0 <= i < |info.attributes| ==>
              r.attributes[i] == AtaAttribute.Rederive(info.attributes[i])
    ensures r.(attributes := info.attributes) == info
  {
    info.(attributes := seq(|info.attributes|, i requires 0 <= i < |info.attributes| =>
                            AtaAttribute.Rederive(info.attributes[i])))
  }

  /** A report whose attributes are already consistent is its own rebuild. */
  lemma RederiveAttributesFixesDerived(info: AtaInfo)
    requires AttributesDerived(info)
    ensures RederiveAttributes(info) == info
  {
    var r := RederiveAttributes(info);
    forall i | 0 <= i < |info.attributes|
      ensures r.attributes[i] == info.attributes[i]
    {
      AtaAttribute.RederiveFixesDerived(info.attributes[i]);
    }
    assert r.attributes == info.attributes;
  }
}
