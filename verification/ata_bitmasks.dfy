/** The ATA bitmask enumerations: the 16-bit attribute flags
    (BDSmartATAAttributeFlag), the offline data collection capabilities
    (BDSmartATAOfflineDataCollectionCapabilities) and the miscellaneous SMART
    capabilities (BDSmartATACapabilities).  Each named flag owns a fixed set of
    bits; a mask is decoded into the set of flags whose bits it has, and the
    lemmas show that the named bits do not overlap and what decoding keeps. */
module AtaBitmasks {

  // ---------------------------------------------------------------------
  // Attribute flags (guint16 flags of an attribute)
  // ---------------------------------------------------------------------

  datatype AttributeFlag =
    | Prefailure      // a value at or below threshold predicts imminent failure
    | Online          // updated during normal operation, not only offline
    | Performance
    | ErrorRate
    | EventCount
    | SelfPreserving
    | Other           // the ten reserved high bits
  {
    function Mask(): bv16 {
      match this
      case Prefailure => 0x0001
      case Online => 0x0002
      case Performance => 0x0004
      case ErrorRate => 0x0008
      case EventCount => 0x0010
      case SelfPreserving => 0x0020
      case Other => 0xffc0
    }
  }

  /** The six single-bit flags, lowest bit first. */
  const NamedAttributeFlags: seq<AttributeFlag> :=
    [Prefailure, Online, Performance, ErrorRate, EventCount, SelfPreserving]

  predicate HasAttributeFlag(flags: bv16, f: AttributeFlag) {
    flags & f.Mask() != 0
  }

  /** The flags a raw mask carries. */
  function AttributeFlagsOf(flags: bv16): set<AttributeFlag> {
    set f: AttributeFlag | f in NamedAttributeFlags + [Other] && HasAttributeFlag(flags, f)
  }

  /** The mask of a set of flags: the union of their bits. */
  function AttributeFlagsMask(fs: set<AttributeFlag>): bv16 {
    (if Prefailure in fs then Prefailure.Mask() else 0)
    | (if Online in fs then Online.Mask() else 0)
    | (if Performance in fs then Performance.Mask() else 0)
    | (if ErrorRate in fs then ErrorRate.Mask() else 0)
    | (if EventCount in fs then EventCount.Mask() else 0)
    | (if SelfPreserving in fs then SelfPreserving.Mask() else 0)
    | (if Other in fs then Other.Mask() else 0)
  }

  /** Each named flag except OTHER is exactly one bit. */
  lemma NamedAttributeFlagsAreSingleBits(f: AttributeFlag)
    requires f != Other
    ensures f.Mask() != 0 && f.Mask() & (f.Mask() - 1) == 0
  {
  }

  /** Distinct flags share no bit. */
  lemma AttributeFlagsDisjoint(f: AttributeFlag, g: AttributeFlag)
    requires f != g
    ensures f.Mask() & g.Mask() == 0
  {
  }

  /** The seven flags partition the 16-bit field: every bit of every mask
      belongs to exactly one of them. */
  lemma AttributeFlagsPartition(flags: bv16)
    ensures AttributeFlagsMask({Prefailure, Online, Performance, ErrorRate, EventCount, SelfPreserving, Other}) == 0xffff
    ensures flags == (flags & Prefailure.Mask()) | (flags & Online.Mask()) | (flags & Performance.Mask())
                     | (flags & ErrorRate.Mask()) | (flags & EventCount.Mask())
                     | (flags & SelfPreserving.Mask()) | (flags & Other.Mask())
  {
  }

  /** Encoding a set of flags and decoding the mask gives the set back. */
  lemma AttributeFlagsRoundTrip(fs: set<AttributeFlag>)
    ensures AttributeFlagsOf(AttributeFlagsMask(fs)) == fs
  {
    var m := AttributeFlagsMask(fs);
    forall f: AttributeFlag
      ensures f in AttributeFlagsOf(m) <==> f in fs
    {
      AttributeFlagsOfMeaning(m, f);
      match f
      case Prefailure => assert m & 0x0001 != 0 <==> f in fs;
      case Online => assert m & 0x0002 != 0 <==> f in fs;
      case Performance => assert m & 0x0004 != 0 <==> f in fs;
      case ErrorRate => assert m & 0x0008 != 0 <==> f in fs;
      case EventCount => assert m & 0x0010 != 0 <==> f in fs;
      case SelfPreserving => assert m & 0x0020 != 0 <==> f in fs;
      case Other => assert m & 0xffc0 != 0 <==> f in fs;
    }
  }

  /** A decoded mask holds a flag exactly when the mask has a bit of it. */
  lemma AttributeFlagsOfMeaning(flags: bv16, f: AttributeFlag)
    ensures f in AttributeFlagsOf(flags) <==> HasAttributeFlag(flags, f)
  {
    assert f in NamedAttributeFlags + [Other] by {
      match f
      case Prefailure => assert NamedAttributeFlags[0] == f;
      case Online => assert NamedAttributeFlags[1] == f;
      case Performance => assert NamedAttributeFlags[2] == f;
      case ErrorRate => assert NamedAttributeFlags[3] == f;
      case EventCount => assert NamedAttributeFlags[4] == f;
      case SelfPreserving => assert NamedAttributeFlags[5] == f;
      case Other => assert (NamedAttributeFlags + [Other])[6] == f;
    }
  }

  /** The mask rebuilt from the flags a raw mask carries. */
  function RebuiltMask(flags: bv16): bv16 {
    AttributeFlagsMask(AttributeFlagsOf(flags))
  }

  lemma RebuiltMaskBits(flags: bv16)
    ensures RebuiltMask(flags)
         == (flags & 0x003f) | (if flags & Other.Mask() != 0 then Other.Mask() else 0)
  {
    AttributeFlagsOfMeaning(flags, Prefailure);
    AttributeFlagsOfMeaning(flags, Online);
    AttributeFlagsOfMeaning(flags, Performance);
    AttributeFlagsOfMeaning(flags, ErrorRate);
    AttributeFlagsOfMeaning(flags, EventCount);
    AttributeFlagsOfMeaning(flags, SelfPreserving);
    AttributeFlagsOfMeaning(flags, Other);
  }

  /** Decoding a mask and re-encoding it keeps every named bit. */
  lemma AttributeMaskKeepsNamedBits(flags: bv16)
    ensures RebuiltMask(flags) & 0x003f == flags & 0x003f
  {
    RebuiltMaskBits(flags);
  }

  /** Decoding a mask and re-encoding it gives the mask back exactly when its
      reserved bits are all clear or all set: OTHER records only that some
      reserved bit is set, not which. */
  lemma AttributeMaskRoundTrip(flags: bv16)
    ensures RebuiltMask(flags) == flags
        <==> flags & Other.Mask() == 0 || flags & Other.Mask() == Other.Mask()
  {
    RebuiltMaskBits(flags);
  }

  // ---------------------------------------------------------------------
  // Offline data collection capabilities (guint)
  // ---------------------------------------------------------------------

  /** NOT_SUPPORTED (0x00) is the empty set of these. */
  datatype OfflineCapability =
    | ExecOfflineImmediate
    | OfflineAbort
    | OfflineSurfaceScan
    | SelfTest
    | ConveyanceSelfTest
    | SelectiveSelfTest
  {
    function Mask(): bv32 {
      match this
      case ExecOfflineImmediate => 0x01
      case OfflineAbort => 0x04
      case OfflineSurfaceScan => 0x08
      case SelfTest => 0x10
      case ConveyanceSelfTest => 0x20
      case SelectiveSelfTest => 0x40
    }
  }

  const OFFLINE_CAPABILITIES_NOT_SUPPORTED: bv32 := 0x00

  function OfflineCapabilitiesOf(caps: bv32): set<OfflineCapability> {
    set c: OfflineCapability | caps & c.Mask() != 0
  }

  lemma OfflineCapabilitiesAreSingleBits(c: OfflineCapability)
    ensures c.Mask() != 0 && c.Mask() & (c.Mask() - 1) == 0
  {
  }

  lemma OfflineCapabilitiesDisjoint(c: OfflineCapability, d: OfflineCapability)
    requires c != d
    ensures c.Mask() & d.Mask() == 0
  {
  }

  /** A mask advertises a capability exactly when it has that capability's
      bit; NOT_SUPPORTED advertises none. */
  lemma OfflineCapabilitiesMeaning(caps: bv32, c: OfflineCapability)
    ensures c in OfflineCapabilitiesOf(caps) <==> caps & c.Mask() == c.Mask()
    ensures OfflineCapabilitiesOf(OFFLINE_CAPABILITIES_NOT_SUPPORTED) == {}
  {
  }

  // ---------------------------------------------------------------------
  // Miscellaneous SMART capabilities (guint)
  // ---------------------------------------------------------------------

  datatype SmartCapability =
    | AttributeAutosave  // saves SMART data before entering power-saving mode
    | AutosaveTimer
    | ErrorLogging
    | GpLogging          // general purpose logging
  {
    function Mask(): bv32 {
      match this
      case AttributeAutosave => 1 << 0
      case AutosaveTimer => 1 << 1
      case ErrorLogging => 1 << 2
      case GpLogging => 1 << 3
    }
  }

  function SmartCapabilitiesOf(caps: bv32): set<SmartCapability> {
    set c: SmartCapability | caps & c.Mask() != 0
  }

  /** A mask advertises a capability exactly when it has that capability's
      bit; an empty mask advertises none, and bits above the four named ones
      advertise nothing. */
  lemma SmartCapabilitiesMeaning(caps: bv32, c: SmartCapability)
    ensures c in SmartCapabilitiesOf(caps) <==> caps & c.Mask() == c.Mask()
    ensures SmartCapabilitiesOf(0) == {}
    ensures SmartCapabilitiesOf(caps) == SmartCapabilitiesOf(caps & 0x0f)
  {
  }

  lemma SmartCapabilitiesDisjoint(c: SmartCapability, d: SmartCapability)
    requires c != d
    ensures c.Mask() & d.Mask() == 0
    ensures c.Mask() != 0 && c.Mask() & (c.Mask() - 1) == 0
  {
  }
}
