# SMART health data of ATA and SCSI disks — a Dafny model

This project models the public contract of libblockdev's SMART plugin
(`src/plugins/smart/smart.h`): the enumerations and records through which the
plugin reports the health of ATA and SCSI disks, and the rules its
documentation attaches to them. The model covers:

- the classifier from a SCSI Informational Exception's ASC/ASCQ pair to the
  simplified `BDSmartSCSIInformationalException` category. The codes are the
  warning (ASC 0Bh) and failure-prediction (ASC 5Dh) assignments of SCSI
  Primary Commands (SPC-4, section 4.5.6, "ASC and ASCQ assignments"). It is
  proved against the code table in the enumeration's documentation.
- the ATA offline data collection status and self-test execution status
  bytes, decoded into `BDSmartATAOfflineDataCollectionStatus` and
  `BDSmartATASelfTestStatus`. The byte layout is that of the ATA Command Set's
  SMART READ DATA structure.
- the bitmask enumerations: attribute flags, offline data collection
  capabilities, miscellaneous SMART capabilities and technology modes.
- the `BDSmartATAAttribute` record. Its `failed_past` and `failing_now` flags
  are derived from the normalized value, worst value and threshold, and -1
  means "unknown" for each of those three.
- the `BDSmartATA` and `BDSmartSCSI` records. Their zero-means-absent
  conventions cover polling times and temperatures. On the SCSI record, a
  failed assessment carries the exception fields.
- the self-test operations (`BDSmartSelfTestOp`) and the command each one
  issues on each technology (`BDSmartTech`). The conveyance test is ATA-only.

Every operation is a pure function over immutable datatypes, except that the classifier's table scan `ScsiInformationalException.LookupDocumented` is a method with a loop. The C integer
widths become bounded integer subset types (`BoundedInts`). The masks are
bit-vectors of the width of their C field.

Modules: `BoundedInts`, `Wrappers` (Option, Result), `Sentinels`,
`SmartError`, `AtaBitmasks`, `AtaOfflineCollection`, `AtaSelfTest`,
`AtaAttribute`, `AtaHealth`, `ScsiInformationalException`, `ScsiHealth`,
`SmartTech`.

Decisions where the header leaves something open:

- The doc comments of `failed_past` and `failing_now` say "below" the
  threshold, so the flags use strict `<`. The documentation of the prefailure
  flag (line 139) speaks of a value "less than or equal to" the threshold. That
  wording is modelled separately as `AtaAttribute.ThresholdCondition`. The
  lemma `AtaAttribute.FailingNowVersusCondition` shows that the two disagree
  exactly when a known value equals its threshold. The flags follow the field
  documentation (lines 165-166), not the flag documentation (line 139).
- For ASC 0Bh or 5Dh with an ASCQ the table does not list, the classifier
  returns UNSPECIFIED ("unspecified warning"). Any other ASC gives NONE, since
  only 0Bh and 5Dh are taken into account (line 335). ASC 0Bh with ASCQ 00h
  is ABORTED_COMMAND, as line 234 lists it, not NONE.
- The offline data collection status byte is split as in the ATA Command Set.
  Bit 7 fills `auto_offline_data_collection_enabled`. In bits 6..0, 40h..7Fh
  are vendor specific, and 01h and 07h..3Fh are reserved. The header gives
  only the enumerator values (lines 44-53: VENDOR_SPECIFIC = 40h, RESERVED =
  3Fh), so the ranges they stand for are taken from the ATA Command Set.
- In the self-test execution status byte, the high nibble is the status. The
  low nibble is the remaining part in tens of percent and is kept only while
  the status is IN_PROGRESS (line 199, "of a running self-test"). A status code
  outside {00h..08h, 0Fh} names no status and is rejected.
- A conveyance self-test requested on SCSI fails with TECH_UNAVAIL.
- When the SCSI self-assessment passed, the exception fields stay at their
  zero defaults: NONE, ASC 0, ASCQ 0, no string.

## Model

| member | source | states |
|---|---|---|
| `ScsiInformationalException.Classify` | src/plugins/smart/smart.h:333-336 | The category is NONE exactly when the ASC is neither 0Bh (warnings) nor 5Dh (impending failures). |
| `ScsiInformationalException.ClassifyMatchesDocumentation` | src/plugins/smart/smart.h:233-266 | For every documented category, the classifier returns it exactly for the ASC/ASCQ codes its doc line lists (single codes, the 00h/FFh pair, and the six ASCQ ranges). |
| `ScsiInformationalException.ClassifiedIsCovered` | src/plugins/smart/smart.h:233-266 | Whenever the classifier returns a documented category, that category's doc line lists the ASC/ASCQ pair it was given. |
| `ScsiInformationalException.CoveredIsClassified` | src/plugins/smart/smart.h:233-266 | An ASC/ASCQ pair that a documented category's doc line lists is classified as that category, whatever the other categories say. |
| `ScsiInformationalException.DocumentedCodesDisjoint` | src/plugins/smart/smart.h:255-265 | No ASC/ASCQ pair is listed under two categories, so the table defines a function. |
| `ScsiInformationalException.UnspecifiedExactlyForUnlistedCodes` | src/plugins/smart/smart.h:266 | UNSPECIFIED is returned exactly for ASC 0Bh or 5Dh with an ASCQ no category lists. |
| `ScsiInformationalException.WarningsFollowDeclarationOrder` | src/plugins/smart/smart.h:234-290 | ASC 0Bh with ASCQ n (00h..14h) is the warning whose enumerator value is n + 1, from ABORTED_COMMAND to PHYSICAL_ELEMENT_STATUS_CHANGE. |
| `ScsiInformationalException.FailurePredictionThresholds` | src/plugins/smart/smart.h:255-258 | 5Dh/00h and 5Dh/FFh are FAILURE_PREDICTION_THRESH; 01h, 02h and 03h are the media, logical-unit and spare-exhaustion thresholds. |
| `ScsiInformationalException.SampleClassifications` | src/plugins/smart/smart.h:235-265 | 0Bh/01h is TEMPERATURE_EXCEEDED, 5Dh/25h is CONTROLLER_IMPENDING_FAILURE, 5Dh/73h is MEDIA_ENDURANCE_LIMIT, 5Dh/1Eh is UNSPECIFIED, and 00h/00h is NONE. |
| `ScsiInformationalException.LookupDocumented` | src/plugins/smart/smart.h:231-266 | Scanning the documented table in declaration order gives the same category as the classifier, for every input. |
| `ScsiInformationalException.FromCode` | src/plugins/smart/smart.h:268-303 | Enumerator values 0..33 decode to the category declared at that position; nothing else decodes. |
| `ScsiInformationalException.CodeRoundTrip` | src/plugins/smart/smart.h:268-303 | Every category's enumerator value is below 34 and decodes back to that category. |
| `ScsiInformationalException.FromCodeBelow11` | src/plugins/smart/smart.h:269-279 | Enumerator values 0..10 name the categories declared first, NONE to STATISTICS_NOTIFICATION. |
| `ScsiInformationalException.FromCodeBelow22` | src/plugins/smart/smart.h:280-290 | Enumerator values 11..21 name HIGH_CRITICAL_TEMP to PHYSICAL_ELEMENT_STATUS_CHANGE. |
| `ScsiInformationalException.FromCodeBelow34` | src/plugins/smart/smart.h:291-302 | Enumerator values 22..33 name FAILURE_PREDICTION_THRESH to UNSPECIFIED. |
| `AtaBitmasks.NamedAttributeFlagsAreSingleBits` | src/plugins/smart/smart.h:147-153 | PREFAILURE through SELF_PRESERVING each occupy exactly one bit. |
| `AtaBitmasks.AttributeFlagsDisjoint` | src/plugins/smart/smart.h:147-155 | Distinct attribute flags, OTHER included, share no bit. |
| `AtaBitmasks.AttributeFlagsPartition` | src/plugins/smart/smart.h:147-155 | The seven flags together cover all 16 bits, and every mask is the union of its parts under each flag. |
| `AtaBitmasks.AttributeFlagsOfMeaning` | src/plugins/smart/smart.h:168 | A decoded flags field holds a flag exactly when the field has one of that flag's bits. |
| `AtaBitmasks.AttributeFlagsRoundTrip` | src/plugins/smart/smart.h:147-155 | Encoding any set of flags and decoding the mask gives the same set. |
| `AtaBitmasks.AttributeMaskKeepsNamedBits` | src/plugins/smart/smart.h:147-153 | Decoding and re-encoding a flags field keeps its six named bits. |
| `AtaBitmasks.AttributeMaskRoundTrip` | src/plugins/smart/smart.h:154 | Re-encoding gives the field back exactly when its reserved (OTHER) bits are all clear or all set. |
| `AtaBitmasks.OfflineCapabilitiesAreSingleBits` | src/plugins/smart/smart.h:65-73 | Each offline data collection capability is one bit. |
| `AtaBitmasks.OfflineCapabilitiesDisjoint` | src/plugins/smart/smart.h:65-73 | Distinct offline data collection capabilities share no bit. |
| `AtaBitmasks.OfflineCapabilitiesMeaning` | src/plugins/smart/smart.h:57-73 | A mask advertises a capability exactly when it has its bit; NOT_SUPPORTED (0) advertises none. |
| `AtaBitmasks.SmartCapabilitiesDisjoint` | src/plugins/smart/smart.h:108-113 | The four SMART capability flags are distinct single bits. |
| `AtaBitmasks.SmartCapabilitiesMeaning` | src/plugins/smart/smart.h:102-113 | A mask advertises a SMART capability exactly when it has that capability's bit. An empty mask advertises none, and bits above 1<<3 advertise nothing. |
| `AtaOfflineCollection.DecodeStatusCode` | src/plugins/smart/smart.h:44-53 | A named status decodes only from its own enumerator value; VENDOR_SPECIFIC is exactly the codes 40h and up. |
| `AtaOfflineCollection.DecodeOfflineCollection` | src/plugins/smart/smart.h:194-195 | Automatic offline data collection is reported enabled exactly when bit 7 of the status byte is set. |
| `AtaOfflineCollection.StatusRoundTrip` | src/plugins/smart/smart.h:44-53 | Every status, RESERVED (3Fh) and VENDOR_SPECIFIC (40h) included, decodes from its own enumerator value. |
| `AtaOfflineCollection.AutoBitIndependent` | src/plugins/smart/smart.h:194-195 | Setting bit 7 changes only the automatic-collection flag, not the status. |
| `AtaOfflineCollection.ReservedCodes` | src/plugins/smart/smart.h:42-52 | RESERVED is decoded exactly for status codes 01h and 07h..3Fh. |
| `AtaOfflineCollection.NamedStatusesInjective` | src/plugins/smart/smart.h:45-50 | Two bytes that decode to the same named status have the same status code. |
| `AtaSelfTest.DecodeStatus` | src/plugins/smart/smart.h:88-99 | The self-test status codes are exactly 00h..08h and 0Fh, and each decodes to the status with that enumerator value. |
| `AtaSelfTest.StatusRoundTrip` | src/plugins/smart/smart.h:88-99 | Every self-test status decodes from its own code. |
| `AtaSelfTest.InProgressCode` | src/plugins/smart/smart.h:86-98 | 0Fh and no other code means a self-test is in progress. |
| `AtaSelfTest.DecodeExecution` | src/plugins/smart/smart.h:198-199 | The status is the high nibble. The remaining percentage is a multiple of 10, and it is non-zero only for a test in progress. |
| `AtaSelfTest.ExecutionRoundTrip` | src/plugins/smart/smart.h:198-199 | Every status with a representable remaining percentage survives encoding into the byte and decoding back. |
| `AtaSelfTest.ExecutionByteRoundTrip` | src/plugins/smart/smart.h:198-199 | A byte is rebuilt from its decoding exactly unless it carries a remaining percentage for a test that is not running. |
| `AtaAttribute.UnitFromCode` | src/plugins/smart/smart.h:126-135 | The pretty-value units are exactly the enumerator values 0..7, each decoding to the unit declared at that position. |
| `AtaAttribute.MakeAttribute` | src/plugins/smart/smart.h:157-187 | A built attribute has failure flags derived from its normalized values, and every other field is as given. |
| `AtaAttribute.Rederive` | src/plugins/smart/smart.h:165-166 | Recomputing the failure flags makes them agree with the normalized values and changes no other field. |
| `AtaAttribute.RederiveFixesDerived` | src/plugins/smart/smart.h:165-166 | An attribute is unchanged by recomputation exactly when its flags are already derived; recomputation is idempotent. |
| `AtaAttribute.FlagsFromReadings` | src/plugins/smart/smart.h:162-166 | `failing_now` holds exactly when value and threshold are both known and value < threshold; `failed_past` is the same for worst. |
| `AtaAttribute.ReadingMatchesSentinel` | src/plugins/smart/smart.h:162-164 | -1 decodes to "unknown" and every other normalized value to itself, losslessly. |
| `AtaAttribute.ZeroThresholdNeverFails` | src/plugins/smart/smart.h:164-166 | With threshold 0 neither failure flag can be set. |
| `AtaAttribute.UnknownThresholdNeverFails` | src/plugins/smart/smart.h:164-166 | With an unknown threshold neither failure flag can be set. |
| `AtaAttribute.ThresholdCondition` | src/plugins/smart/smart.h:139 | A condition arises exactly when the value and threshold are both known and the value is less than or equal to the threshold. It is a prefailure condition when the PREFAILURE bit is set and an advisory one when it is clear. |
| `AtaAttribute.FailingNowVersusCondition` | src/plugins/smart/smart.h:139-166 | A condition holds exactly when the attribute is failing now or a known value equals its threshold. |
| `AtaHealth.TemperatureSentinel` | src/plugins/smart/smart.h:207 | An ATA temperature of 0 means not reported; any other value is the temperature in Kelvin. |
| `AtaHealth.RunningSelfTestRemaining` | src/plugins/smart/smart.h:198-199 | A remaining percentage is reported exactly when the self-test status code is 0Fh (in progress), and it is the report's `self_test_percent_remaining`. |
| `AtaHealth.WithOfflineCollectionByte` | src/plugins/smart/smart.h:44-53 | Bit 7 of the status byte is the automatic-collection flag. Bits 6..0 give a named status exactly for 00h and 02h..06h, and that status carries the code. 40h..7Fh give VENDOR_SPECIFIC. No other field changes. |
| `AtaHealth.OfflineCollectionByteRoundTrip` | src/plugins/smart/smart.h:44-53 | Reading back a byte built from any status and any automatic-collection setting restores both. |
| `AtaHealth.WithSelfTestByte` | src/plugins/smart/smart.h:198-199 | The execution byte is accepted exactly when its status nibble names a status. The remaining percentage of a running test is the low nibble times ten, and 0 otherwise. No other field changes. |
| `AtaHealth.RunningRemainingFromByte` | src/plugins/smart/smart.h:198-199 | After a byte is read, a remaining percentage is reported exactly when its status nibble is 0Fh, and it is then the low nibble times ten. |
| `AtaHealth.SelfTestByteRoundTrip` | src/plugins/smart/smart.h:198-199 | Reading back the byte of any representable execution restores its status and remaining percentage, and nothing else changes. |
| `AtaHealth.RederiveAttributes` | src/plugins/smart/smart.h:204 | After rebuilding, every attribute of the report has derived flags; each is the rebuild of the original and nothing else changes. |
| `AtaHealth.RederiveAttributesFixesDerived` | src/plugins/smart/smart.h:204 | A report whose attributes are already consistent is its own rebuild. |
| `ScsiHealth.BackgroundScanStatusFromCode` | src/plugins/smart/smart.h:317-327 | The background scan status codes are exactly 00h..08h, each decoding to the status with that value. |
| `ScsiHealth.BackgroundScanStatusRoundTrip` | src/plugins/smart/smart.h:317-327 | Every background scan status decodes from its own code. |
| `ScsiHealth.WithHealthStatus` | src/plugins/smart/smart.h:333-337 | A failed assessment carries the reported ASC/ASCQ, string and their category. A passed one carries NONE. The category always agrees with ASC/ASCQ, and nothing else changes. |
| `ScsiHealth.FailedStatusCategory` | src/plugins/smart/smart.h:333-335 | A failed assessment gets a category other than NONE exactly when the ASC is 0Bh or 5Dh. |
| `ScsiHealth.TemperatureSentinels` | src/plugins/smart/smart.h:361-362 | A current or trip temperature of 0 means not reported; otherwise it is the reading in Kelvin. |
| `SmartTech.TechModesDisjoint` | src/plugins/smart/smart.h:28-31 | INFO and SELFTEST are distinct bits of the mode mask. |
| `SmartTech.CommandFor` | src/plugins/smart/smart.h:400-414 | Only CONVEYANCE on SCSI fails, with TECH_UNAVAIL. OFFLINE starts the Immediate Offline Test on ATA and the default self-test on SCSI, and that SCSI routine is the only foreground one. SHORT, LONG and CONVEYANCE start their own routines. Only ABORT aborts. |
| `SmartTech.CommandIdentifiesOperation` | src/plugins/smart/smart.h:401-406 | Every issued command determines the operation it was issued for. |
| `SmartTech.CommandForInjective` | src/plugins/smart/smart.h:401-406 | On one technology, distinct operations issue distinct commands. |
| `SmartTech.SupportedOperations` | src/plugins/smart/smart.h:402-406 | ATA supports all five operations; SCSI supports all but CONVEYANCE. |
| `SmartTech.PollingMinutes` | src/plugins/smart/smart.h:200-202 | SHORT, LONG and CONVEYANCE have a polling time exactly when the matching field is non-zero, and it is then that field's value. Other operations have none. |
| `SmartTech.PollingMinutesRoundTrip` | src/plugins/smart/smart.h:200-202 | Writing a polling time back with the zero sentinel restores the report's field, so the optional form loses nothing. |
| `SmartError.ErrorCodesDistinct` | src/plugins/smart/smart.h:17-21 | The three error kinds have distinct enumerator values. |
| `Sentinels.ZeroSentinelMeaning` | src/plugins/smart/smart.h:200-207 | A zero field reads as absent; any other field reads as its positive value. |
| `Sentinels.ZeroSentinelRoundTrip` | src/plugins/smart/smart.h:200-207 | Reading a zero-means-absent field and writing it back gives the same field. |
| `Sentinels.ZeroSentinelRoundTripOption` | src/plugins/smart/smart.h:200-207 | Writing an optional value and reading it back is lossless exactly when it is not a present 0. |
| `Sentinels.UnknownSentinelRoundTrip` | src/plugins/smart/smart.h:162-164 | -1 reads as unknown, and reading then writing any field of -1 or above gives it back. |
| `Sentinels.UnknownSentinelRoundTripOption` | src/plugins/smart/smart.h:162-164 | Every optional reading, 0 included, survives the -1 encoding. |

## Left out

- `bd_smart_ata_get_info`, `bd_smart_scsi_get_info`, `bd_smart_set_enabled` and `bd_smart_device_self_test` (lines 442-458): they query or command a device through libatasmart or smartmontools, which are not part of this model. `SmartTech.CommandFor` models only which command an operation maps to.
- `bd_smart_ata_get_info_from_data` (lines 445-447): the layout of the SMART data buffer it parses, and the raw-to-pretty conversions, are not part of this model. Only the unit tag set is modelled.
- `bd_smart_check_deps`, `bd_smart_init`, `bd_smart_close` and `bd_smart_is_tech_avail` (lines 435-439): they probe dependencies and keep process-wide state. Only the technology and mode enumerations are modelled.
- `bd_smart_error_quark` and the free/copy functions (lines 8-9, 417-424): memory management has no counterpart for immutable values.
- `background_scan_progress` (line 373): a floating-point percentage, left out of the SCSI record.
- The strings `name`, `well_known_name`, `pretty_value_string` and `scsi_ie_string`: backend-defined text, carried as opaque values.
- Rejecting a new self-test while one is running: the header says nothing about it, and the running state lives in the device.
- AtaAttribute.Normalized: the normalized value, worst value and threshold are `gint` in C, but here they are -1 or 0..255. The header gives -1 as "unknown", the values are single bytes on the device, and other values have no documented meaning.
- Negative polling times: the model's polling times are non-negative, although the C fields are signed `gint`. The header gives no meaning to negative values.
- The table of well-known names and units per attribute id: `well_known_name` is kept as the backend gives it.
