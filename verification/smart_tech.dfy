/** BDSmartTech, BDSmartTechMode and BDSmartSelfTestOp: which device
    technology a request is for, and which self-test routine each operation
    starts on each technology. */
module SmartTech {
  import opened Wrappers
  import Sentinels
  import opened SmartError
  import AtaHealth

  datatype Tech = Ata | Scsi

  /** The query modes of a technology-availability check, as bits of a mask. */
  datatype TechMode = Info | SelfTestMode {
    function Mask(): bv64 {
      match this
      case Info => 1 << 0
      case SelfTestMode => 1 << 1
    }
  }

  lemma TechModesDisjoint(m: TechMode, n: TechMode)
    requires m != n
    ensures m.Mask() & n.Mask() == 0
  {
  }

  /** The self-test operations, in declaration order. */
  datatype SelfTestOp = Abort | Offline | Short | Long | Conveyance

  /** Where the device runs a started routine. */
  datatype Mode = Background | Foreground

  /** The routines a self-test operation can start. */
  datatype Routine =
    | ImmediateOffline   // SMART Immediate Offline Test (ATA)
    | DefaultSelfTest    // the default self-test (SCSI)
    | ShortSelfTest
    | ExtendedSelfTest
    | ConveyanceSelfTest

  /** What the device is asked to do. */
  datatype Command = AbortRunning | Start(routine: Routine, mode: Mode)

  /** The conveyance self-test exists on ATA only; every other operation
      applies to both technologies. */
  predicate Supports(tech: Tech, op: SelfTestOp) {
    op != Conveyance || tech == Ata
  }

  /** The command an operation issues on a technology, or TechUnavail. */
  function CommandFor(tech: Tech, op: SelfTestOp): (r: Result<Command, Error>)
    ensures r.Failure? <==> !Supports(tech, op)
    ensures r.Failure? ==> r.error == TechUnavail
    ensures r.Success? ==> (r.value == AbortRunning <==> op == Abort)
    ensures r.Success? && r.value.Start? ==> (r.value.mode == Foreground <==> tech == Scsi && op == Offline)
    ensures r.Success? && r.value.Start? ==>
              (r.value.routine == ImmediateOffline <==> tech == Ata && op == Offline)
              && (r.value.routine == DefaultSelfTest <==> tech == Scsi && op == Offline)
              && (r.value.routine == ShortSelfTest <==> op == Short)
              && (r.value.routine == ExtendedSelfTest <==> op == Long)
              && (r.value.routine == ConveyanceSelfTest <==> op == Conveyance)
  {
    match (tech, op)
    case (_, Abort) => Success(AbortRunning)
    case (Ata, Offline) => Success(Start(ImmediateOffline, Background))
    case (Scsi, Offline) => Success(Start(DefaultSelfTest, Foreground))
    case (_, Short) => Success(Start(ShortSelfTest, Background))
    case (_, Long) => Success(Start(ExtendedSelfTest, Background))
    case (Ata, Conveyance) => Success(Start(ConveyanceSelfTest, Background))
    case (Scsi, Conveyance) => Failure(TechUnavail)
  }

  /** The operation a command was issued for. */
  function OperationOf(c: Command): SelfTestOp {
    match c
    case AbortRunning => Abort
    case Start(ImmediateOffline, _) => Offline
    case Start(DefaultSelfTest, _) => Offline
    case Start(ShortSelfTest, _) => Short
    case Start(ExtendedSelfTest, _) => Long
    case Start(ConveyanceSelfTest, _) => Conveyance
  }

  /** Every issued command identifies its operation, so on one technology
      distinct operations issue distinct commands. */
  lemma CommandIdentifiesOperation(tech: Tech, op: SelfTestOp)
    requires CommandFor(tech, op).Success?
    ensures OperationOf(CommandFor(tech, op).value) == op
  {
  }

  lemma CommandForInjective(tech: Tech, op1: SelfTestOp, op2: SelfTestOp)
    requires CommandFor(tech, op1).Success? && CommandFor(tech, op1) == CommandFor(tech, op2)
    ensures op1 == op2
  {
    CommandIdentifiesOperation(tech, op1);
    CommandIdentifiesOperation(tech, op2);
  }

  /** ATA supports all five operations, SCSI all but the conveyance test. */
  lemma SupportedOperations()
    ensures forall op: SelfTestOp :: Supports(Ata, op)
    ensures forall op: SelfTestOp :: Supports(Scsi, op) <==> op != Conveyance
    ensures CommandFor(Scsi, Conveyance) == Failure(TechUnavail)
  {
  }

  /** The recommended polling time of the routine an operation starts, from
      an ATA report; none for the operations without a polling estimate or
      when the device reports 0 ("not supported"). */
  function PollingMinutes(info: AtaHealth.AtaInfo, op: SelfTestOp): (r: Option<nat>)
    ensures r.Some? ==> r.value > 0 && (op == Short || op == Long || op == Conveyance)
    ensures op == Short ==> (r.Some? <==> info.selfTestPollingShort != 0)
    ensures op == Long ==> (r.Some? <==> info.selfTestPollingExtended != 0)
    ensures op == Conveyance ==> (r.Some? <==> info.selfTestPollingConveyance != 0)
    ensures op == Short && r.Some? ==> r.value == info.selfTestPollingShort
    ensures op == Long && r.Some? ==> r.value == info.selfTestPollingExtended
    ensures op == Conveyance && r.Some? ==> r.value == info.selfTestPollingConveyance
  {
    match op
    case Short => Sentinels.ZeroAsAbsent(info.selfTestPollingShort)
    case Long => Sentinels.ZeroAsAbsent(info.selfTestPollingExtended)
    case Conveyance => Sentinels.ZeroAsAbsent(info.selfTestPollingConveyance)
    case _ => None
  }

  /** The field a polling time is read from, by operation; 0 for the
      operations without one. */
  function PollingField(info: AtaHealth.AtaInfo, op: SelfTestOp): AtaHealth.PollingMinutes {
    match op
    case Short => info.selfTestPollingShort
    case Long => info.selfTestPollingExtended
    case Conveyance => info.selfTestPollingConveyance
    case _ => 0
  }

  /** Writing the polling time back with the zero sentinel restores the
      report's field: the optional form loses nothing. */
  lemma PollingMinutesRoundTrip(info: AtaHealth.AtaInfo, op: SelfTestOp)
    ensures Sentinels.AbsentAsZero(PollingMinutes(info, op)) == PollingField(info, op)
  {
    Sentinels.ZeroSentinelRoundTrip(PollingField(info, op));
  }
}
