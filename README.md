# MAX22200 octal solenoid driver — Dafny model

This project models the core of the `max22200` C++ driver for the MAX22200.
The MAX22200 is an eight-channel solenoid and motor driver that is programmed
over SPI. The model has three layers, one per header of the driver.

- **Register codec** (`types.dfy`, `structs.dfy`). This layer converts engineering
  units to the device's packed register fields and back:
  - the chopping-frequency table;
  - the rounding of a current in mA to the 7-bit HIT/HOLD code;
  - the HIT-time encoding with its 0 and 255 sentinels;
  - the VDR duty encoding;
  - the 32-bit packing and unpacking of `ChannelConfig`, `StatusConfig`,
    `FaultStatus` and `DpmConfig`.

  The four register structs are classes. Their `FromRegister` methods
  overwrite their fields in place. `ToRegister` is a function of those
  fields, and lemmas prove the round trips in both directions.
  `ChannelCountOn` and `GetFaultCount` are the source's counting loops,
  proved against popcounts.
- **Wire encoding** (`registers.dfy`). This layer holds the register bank
  addresses and the Command Register byte `Build`. It also holds the bit
  layouts of STATUS, CFG_CHx, FAULT and CFG_DPM, with lemmas that the fields
  of each register are disjoint and cover the register. The channel-to-bank
  map is here too.
- **Controller** (`driver.dfy`, over `transport.dfy`). The `MAX22200<SpiType>`
  class becomes `Driver.Max22200`. Its fields are the initialization flag,
  the cached STATUS fields, the last fault byte, the statistics and the board
  configuration.
  - The SPI peripheral, the CMD/ENABLE/nFAULT lines and the delay routine are
    one abstract `Transport.Bus`. It records every operation in a trace and
    answers each from a fixed oracle, keyed by the operation's position.
  - Each register-access method states the exact bus trace it produces,
    its result for every oracle answer, its new statistics and its new
    cached state. The last fault byte follows from `Valid`.
  - The start-up handshake of `Initialize` is a function of the oracle.
    `PassOutcome` and `PassEvents` say how one pass starting at a given
    position ends and what it puts on the bus. `RunFrom` strings up to
    three passes together, and `HandshakeFrom` applies it to the driver's
    passes. The driver keeps these two pass functions in ghost fields,
    and `PassesKnown` says they are the definitions. `Handshake`, `Start`
    and `Initialize` state their result and trace as `HandshakeFrom` at
    the position where the handshake begins.
  - The invariant `Valid` says that the last fault byte is the reply to the
    most recent successful command phase (`Transport.LatestFaultByte`).

C++ `float`s are modelled as `real`s: the codec's contracts are
exact-arithmetic statements, not IEEE-754 ones. `uint32_t` arithmetic that can
wrap is written out with `% 2^32`. Register words and bytes are `bv32` and
`bv8`.

The bodies of the controller's methods are in `src/max22200.ipp`, which is not
part of this model. The controller is specified from the documented
contracts in `inc/max22200.hpp`. Where the header leaves a choice open,
the model picks one, as described under "Left out".

## Model

| member | source | states |
|---|---|---|
| Bits.Inc32 | inc/max22200.hpp:894 | a `uint32_t` counter increment: `x + 1` below 2^32 - 1, and 0 at 2^32 - 1 |
| Bits.PopCountBounds | inc/max22200_types.hpp:706-712 | a byte's popcount is at most 8, equals the number of set bit positions, and is 0 exactly for the zero byte |
| Bits.CountBitsIsCardinality | inc/max22200_types.hpp:706-712 | counting set bits below position n gives the size of the set of set positions below n |
| Bits.WithBitBits | inc/max22200.hpp:298-314 | setting bit i of a byte to a value sets that bit as asked and keeps the other seven |
| CommandReg.Build | inc/max22200_registers.hpp:172-177 | bit 7 is the write flag, bits 4:1 are `bank & 0x0F`, bit 0 is the 8-bit mode flag, and the reserved bits 6:5 are 0 |
| CommandReg.BuildDecodes | inc/max22200_registers.hpp:139-177 | for a bank below 16, the bank, the direction and the width can each be read back from the built byte |
| CommandReg.BuildInjective | inc/max22200_registers.hpp:172-177 | two accesses to banks below 16 with the same command byte have the same bank, direction and width |
| CommandReg.BuildExamples | inc/max22200_registers.hpp:163-169 | the documented values: a STATUS write is 0x80, a fast CFG_CH0 read is 0x03, a CFG_CH0 write is 0x82 |
| CommandReg.BuildOfDecoded | inc/max22200_registers.hpp:139-177 | every command byte with clear reserved bits is the byte built from its own fields, so the decoding is onto |
| Registers.ChannelCfgBank | inc/max22200_registers.hpp:535-537 | the bank is `1 + channel` mod 256; for channels 0..7 it lies in CFG_CH0..CFG_CH7 and is never STATUS, FAULT or CFG_DPM |
| Registers.ChannelCfgBankInjective | inc/max22200_registers.hpp:94-106 | distinct channels have distinct configuration banks |
| Registers.StatusDisjoint | inc/max22200_registers.hpp:218-266 | no two STATUS fields share a bit |
| Registers.StatusLayout | inc/max22200_registers.hpp:218-256 | the STATUS fields cover all 32 bits; `FAULT_FLAGS_MASK` is the OR of OVT..UVM; `FAULT_BYTE_COMER` is the COMER bit; each mask is its field width shifted into place |
| Registers.ChannelConfigLayout | inc/max22200_registers.hpp:357-406 | the CFG_CHx fields are pairwise disjoint, cover 0xFFFFFFFF, and each mask matches its shift |
| Registers.FaultLayout | inc/max22200_registers.hpp:439-448 | the four FAULT byte masks partition the word and match their shifts |
| Registers.DpmLayout | inc/max22200_registers.hpp:508-515 | the CFG_DPM fields are disjoint, lie in bits 14:0 and fill them |
| Types.ChannelModeOf | inc/max22200_types.hpp:159-163 | decoding a two-bit pair-mode code gives a mode whose code is that value; 3 decodes to `Reserved` |
| Types.ChopFreqOf | inc/max22200_types.hpp:211-216 | decoding a two-bit FREQ_CFG code gives the setting with that code |
| Types.ChopFreqCodeRoundTrip | inc/max22200_types.hpp:211-216 | encoding a chopping setting and decoding it gives the setting back |
| Types.ChopFreqKhz | inc/max22200_types.hpp:224-232 | the chopping frequency is the master clock (80 or 100 kHz) divided by the setting's divider, rounded down, and lies in 20..100 kHz |
| Types.ChopFreqTable | inc/max22200_types.hpp:224-232 | the eight entries 25/33/50/100 kHz (100 kHz base) and 20/26/40/80 kHz (80 kHz base) |
| Types.CurrentMaToRaw | inc/max22200_types.hpp:240-245 | the code is at most 127; it is 0 without a full scale and 127 at or above full scale; when `ma*127` does not wrap, the code is the nearest to `127*ma/ifs`, with halves rounded up |
| Types.WrappedQuotient | inc/max22200_types.hpp:243 | the wrapped `uint32_t` quotient equals the exact rounded quotient whenever the sum does not wrap |
| Types.NearestQuotient | inc/max22200_types.hpp:243 | `(n + d/2)/d` is `n/d` rounded to the nearest whole number, halves up, and stays at most 127 when `n < 127*d` |
| Types.CurrentMaToRawExamples | inc/max22200_types.hpp:240-245 | at a 1000 mA full scale: 630 mA gives 80, 315 mA gives 40, 500 mA gives 64 |
| Types.TruncToU32 | inc/max22200_types.hpp:259 | the float-to-`uint32_t` cast truncates toward zero |
| Types.HitTimeMsToRaw | inc/max22200_types.hpp:254-263 | a negative time or one of 1e6 ms or more gives 255; 0 ms gives 0; any other time gives 1..255, nearest to `ms*fCHOP/40`, with a rounded 0 raised to 1 and a rounded count above 254 made 255 |
| Types.HitTimeExample | inc/max22200_types.hpp:254-263 | 100 ms at 25 kHz gives 63 |
| Types.HitTimeRawToMs | inc/max22200_types.hpp:519-527 | code 0 decodes to 0 ms, code 255 to -1 ms (continuous), and any other code to a positive finite time |
| Types.HitTimeRoundTrip | inc/max22200_types.hpp:519-527 | decoding any HIT-time code and encoding the result gives the code back |
| Types.CurrentFieldRaw | inc/max22200_types.hpp:405-451 | the HIT/HOLD code is at most 127. In CDR mode it is 0 without a full scale and 127 at or above it. In VDR mode ≤ 0 % gives 0, ≥ 100 % gives 127, and anything between gives the nearest code to `value*127/100` |
| Types.CdrRaw | inc/max22200_types.hpp:407-416 | the CDR branch: the code is at most 127, 0 without a full scale, and 127 at or above it |
| Types.VdrRaw | inc/max22200_types.hpp:417-427 | the VDR branch: the code is 0 at or below 0 %, 127 at or above 100 %, and otherwise the nearest code |
| Types.CdrAccuracy | inc/max22200_types.hpp:407-416 | rounding to whole mA and then to a code leaves the code within `(ifs + 127)/2` mA-steps of `127*value/ifs` |
| Types.RoundingAccuracy | inc/max22200_types.hpp:414-415 | the same bound, with the two rounded values named |
| Types.DecodeCurrent | inc/max22200_types.hpp:503-516 | a decoded value is non-negative and at most the full scale (CDR) or 100 % (VDR) |
| Types.ScaledCode | inc/max22200_types.hpp:503-516 | the decoded value is code/127 of the scale: 127 times the value is the code times the scale, it lies between 0 and the scale, and strictly below the scale for codes under 127 |
| Types.CurrentRoundTrip | inc/max22200_types.hpp:404-516 | decoding a 7-bit code and encoding the value gives the code back. This holds in VDR mode always, and in CDR mode for a full scale of 128 mA to 2^25 mA |
| Types.CdrRoundTrip | inc/max22200_types.hpp:407-416 | the CDR case of the round trip, for codes below 127 |
| Types.DecodeBelowFullScale | inc/max22200_types.hpp:506-507 | a code below 127 decodes to `code*ifs/127`, strictly below full scale |
| Types.CdrRecoversCode | inc/max22200_types.hpp:407-416 | the CDR encoding of the exact value of a code below 127 is that code, for a full scale of 128 mA to 2^25 mA |
| Types.NearestMa | inc/max22200_types.hpp:412-415 | rounding such a value to whole mA stays below full scale and within 63/127 mA of it |
| Types.CodeOfNearestMa | inc/max22200_types.hpp:240-245 | at a full scale above 127 mA, the nearest code to a whole mA that close to a code's value is that code |
| Types.FullBridgeBits | inc/max22200_types.hpp:867-872 | the lower channel is on exactly for Forward or Brake, and the upper channel exactly for Reverse or Brake |
| Types.FullBridgeBitsInjective | inc/max22200_types.hpp:867-872 | each bridge state has its own pair of ONCH bits |
| Types.DutyLimits.Clamp | inc/max22200_types.hpp:1026-1030 | a value in the window is kept and one at or below the minimum gives the minimum; for a non-empty window, one at or above the maximum gives the maximum and every result is in range |
| Types.DutyLimits.InRange | inc/max22200_types.hpp:1022-1024 | a duty value is in range exactly when it lies between the minimum and the maximum, both included; `Clamp` ensures its result is in range for a non-empty window and keeps any value already in range |
| Types.ClampIdempotent | inc/max22200_types.hpp:1026-1030 | clamping twice is clamping once |
| Types.ClampNearest | inc/max22200_types.hpp:1022-1030 | the clamped value is the point of the window nearest to the input |
| Types.BoardConfig.HasMaxCurrentLimit | inc/max22200_types.hpp:992 | a current limit is set exactly when it is above 0; `LimitedCurrent` cuts a request to it only then |
| Types.BoardConfig.HasMaxDutyLimit | inc/max22200_types.hpp:994 | a duty limit is set exactly when it is above 0 |
| Types.BoardConfig.HasIfsConfigured | inc/max22200_types.hpp:996 | a full scale is configured exactly when it is above 0; the current setters and getters give INVALID_PARAMETER exactly when it is not |
| Types.DriverStatistics.SuccessRate | inc/max22200_types.hpp:1047-1050 | it is 100 before any transfer and 100 with no failures, 0 when every transfer failed, and within 0..100 while failures do not exceed transfers |
| Types.DriverStatistics.Recorded | inc/max22200.hpp:894 | one more transfer increments the total, increments the failures exactly when it failed (both wrap at 2^32), and leaves the other counters alone |
| Types.DriverStatistics.HasFailures | inc/max22200_types.hpp:1052 | some transfer has failed exactly when the failure count is not 0 |
| Types.DriverStatistics.IsHealthy | inc/max22200_types.hpp:1053 | healthy exactly when no transfer has failed; `RecordedKeepsFailedBelowTotal` proves a recorded transfer keeps it healthy exactly when it succeeded |
| Types.RecordedKeepsFailedBelowTotal | inc/max22200_types.hpp:1036-1054 | until the total wraps, failures stay at most the total, and the driver stays healthy exactly when it was healthy and the transfer succeeded |
| Transport.LowByte | inc/max22200.hpp:815-842 | the fault byte of a command phase is the low byte of what was clocked in |
| Transport.Bus.Perform | inc/max22200.hpp:815-842 | a transport operation is appended to the record and answered by the oracle for its position |
| Transport.LatestAfterOther | inc/max22200.hpp:534-554 | an operation other than a successful command phase leaves the latest fault byte unchanged |
| Transport.LatestAfterCommand | inc/max22200.hpp:534-554 | a successful command phase makes its own reply byte the latest fault byte |
| Transport.Occurrences | inc/max22200.hpp:172-200 | a trace helper for the handshake model: a count of the operations equal to one event, at most the trace length |
| Transport.OccurrencesAbsent | inc/max22200.hpp:172-200 | a trace helper for the handshake model: the count is 0 exactly when the event is absent from the trace |
| Transport.OccurrencesAppend | inc/max22200.hpp:172-200 | a trace helper for the handshake model: occurrence counts add up over concatenation |
| Transport.PhasesSnoc | inc/max22200.hpp:815-892 | appending one operation adds one to the matching counter: command phases, full data phases, short data phases and occurrences |
| RegisterStructs.UnpackChannel | inc/max22200_types.hpp:485-496 | every field read out of a CFG_CHx word fits its width |
| RegisterStructs.PackedHfsAndHold | inc/max22200_types.hpp:458-459 | in a packed CFG_CHx word, the HFS bit is the flag and bits 30:24 are the HOLD code cut to 7 bits |
| RegisterStructs.PackedTrgAndHit | inc/max22200_types.hpp:460-461 | TRGnSPI is the flag, and bits 22:16 are the HIT code cut to 7 bits |
| RegisterStructs.PackedTimingAndMode | inc/max22200_types.hpp:462-465 | bits 15:8 are the HIT-time code; VDRnCDR and HSnLS are the flags; bits 5:4 are the FREQ_CFG code |
| RegisterStructs.PackedEnables | inc/max22200_types.hpp:466-469 | SRC, OL_EN, DPM_EN and HHF_EN are the four feature flags |
| RegisterStructs.UnpackPackChannel | inc/max22200_types.hpp:457-496 | unpacking a packed field set gives it back when each field fits |
| RegisterStructs.PackUnpackChannel | inc/max22200_types.hpp:457-496 | packing the unpacked fields of any CFG_CHx word gives the word back |
| RegisterStructs.ChannelConfig.constructor | inc/max22200_types.hpp:386-395 | the documented defaults: zero currents and HIT time, 1000 mA full scale, CDR, low side, FMAIN/4, every flag off |
| RegisterStructs.ChannelConfig.Fields | inc/max22200_types.hpp:404-470 | the fields `toRegister` packs: the rounded HIT, HOLD and HIT-time codes and the FREQ_CFG code |
| RegisterStructs.ChannelConfig.CanEncode | inc/max22200_types.hpp:407-416 | the C++ cast in the CDR branch is defined: in CDR mode with a full scale, both currents are above -1.5 mA |
| RegisterStructs.ChannelConfig.HitRaw | inc/max22200_types.hpp:405-427 | the HIT code of `toRegister`; `CurrentFieldRaw` bounds it by 127 and gives the CDR and VDR rounding |
| RegisterStructs.ChannelConfig.HoldRaw | inc/max22200_types.hpp:429-451 | the HOLD code of `toRegister`, encoded like the HIT code |
| RegisterStructs.ChannelConfig.HitTimeRaw | inc/max22200_types.hpp:452-453 | the HIT-time code of `toRegister`, as `HitTimeMsToRaw` specifies it with the stored clock base and chopping setting |
| RegisterStructs.ChannelConfig.ToRegister | inc/max22200_types.hpp:404-470 | the packed CFG_CHx word; `ChannelEncodeFields` proves each field holds its setting's code, and `ChannelSettingsRoundTrip` that decoding it restores the settings |
| RegisterStructs.ChannelConfig.HasHitTime | inc/max22200_types.hpp:536 | a positive HIT time is set; `HitTimeProbes` proves that after decoding this holds exactly for codes 1..254 |
| RegisterStructs.ChannelConfig.IsContinuousHit | inc/max22200_types.hpp:537 | the HIT time is negative or at least 1e6 ms; `HitTimeProbes` proves that after decoding this holds exactly for code 255 |
| RegisterStructs.ChannelConfig.FromRegister | inc/max22200_types.hpp:483-527 | the configuration decodes the word: flags and modes from their bits, currents by `DecodeCurrent` with the given full scale, and HIT time by `HitTimeRawToMs` with the given clock base |
| RegisterStructs.ChannelConfig.DecodeMagnitudes | inc/max22200_types.hpp:498-527 | stores the context and converts the HIT, HOLD and HIT-time codes to units |
| RegisterStructs.ChannelEncodeFields | inc/max22200_types.hpp:404-470 | every field of `toRegister()` holds the matching setting's code |
| RegisterStructs.ChannelSettingsRoundTrip | inc/max22200_types.hpp:457-496 | decoding `toRegister()` restores HFS, TRG, drive mode, side mode, chopping setting and the four flags; with the same clock base it also restores the HIT-time code, so 0 and 255 stay 0 and 255 |
| RegisterStructs.ChannelWordRoundTrip | inc/max22200_types.hpp:404-527 | a configuration decoded from a word encodes back to that word: in VDR mode always, and in CDR mode for a full scale of 128 mA to 2^25 mA |
| RegisterStructs.DecodedFields | inc/max22200_types.hpp:404-527 | under the same conditions, the fields a decoded configuration packs are those of the word |
| RegisterStructs.DecodedCodes | inc/max22200_types.hpp:404-527 | under the same conditions, the decoded HIT, HOLD and HIT-time codes re-encode to the word's codes |
| RegisterStructs.HitTimeProbes | inc/max22200_types.hpp:536-537 | after decoding, `isContinuousHit` holds exactly for code 255, and `hasHitTime` exactly for codes 1..254 |
| RegisterStructs.UnpackStatus | inc/max22200_types.hpp:661-683 | every pair mode read out of a STATUS word fits two bits |
| RegisterStructs.PackedOnch | inc/max22200_types.hpp:641 | bits 31:24 of a packed STATUS word are the ONCH byte |
| RegisterStructs.PackedMasksHigh | inc/max22200_types.hpp:642-645 | the OVT, OCP, OLF and HHF mask bits are the mask flags |
| RegisterStructs.PackedMasksLow | inc/max22200_types.hpp:646-649 | the DPM, COMF and UVM mask bits and FREQM are the flags |
| RegisterStructs.PackedPairModes | inc/max22200_types.hpp:650-653 | the four two-bit pair fields hold the pair-mode codes |
| RegisterStructs.PackedActive | inc/max22200_types.hpp:654 | ACTIVE is the flag, and no read-only fault bit (7:1) is set |
| RegisterStructs.UnpackPackStatus | inc/max22200_types.hpp:639-683 | unpacking a packed STATUS field set gives its writable fields back, with every fault flag clear |
| RegisterStructs.PackUnpackStatus | inc/max22200_types.hpp:639-683 | packing the unpacked fields of any STATUS word gives the word without its fault-flag bits |
| RegisterStructs.StatusConfig.constructor | inc/max22200_types.hpp:624-634 | the defaults: all channels off, only COMER masked, 100 kHz base, independent pairs, inactive, no faults |
| RegisterStructs.StatusConfig.Fields | inc/max22200_types.hpp:639-656 | every pair-mode code fits two bits |
| RegisterStructs.StatusConfig.ToRegister | inc/max22200_types.hpp:639-656 | the packed STATUS word; `PackedOnch` through `PackedActive` give each of its fields, and `StatusRoundTrip` proves decoding it restores the writable fields |
| RegisterStructs.StatusConfig.HasFault | inc/max22200_types.hpp:688-691 | some fault flag is set; `StatusHasFaultIff` proves that after reading a word this holds exactly when one of its bits 7:1 is set |
| RegisterStructs.StatusConfig.IsChannelOn | inc/max22200_types.hpp:703-705 | channel `ch` is below 8 and its ONCH bit is set; `ChannelCountOn` counts the channels for which it holds |
| RegisterStructs.StatusConfig.FromRegister | inc/max22200_types.hpp:661-683 | every field holds its bit range of the word, the pair modes through the two-bit code |
| RegisterStructs.StatusConfig.SetFields | inc/max22200_types.hpp:661-683 | the object's fields become the given field set |
| RegisterStructs.StatusConfig.ChannelCountOn | inc/max22200_types.hpp:706-712 | the loop's count is the popcount of the ONCH byte, which is the number of channels for which `isChannelOn` holds |
| RegisterStructs.StatusRoundTrip | inc/max22200_types.hpp:639-683 | decoding `toRegister()` restores ONCH, the seven masks, FREQM, the four pair modes and ACTIVE, and leaves every fault flag false |
| RegisterStructs.StatusWordRoundTrip | inc/max22200_types.hpp:639-683 | a configuration read from a word writes back the word without its fault-flag bits |
| RegisterStructs.StatusHasFaultIff | inc/max22200_types.hpp:688-691 | after reading a word, `hasFault` holds exactly when one of its bits 7:1 is set |
| RegisterStructs.ChannelQueriesOutOfRange | inc/max22200_types.hpp:703-705 | `isChannelOn` and every per-channel fault query are false for a channel number past 7 |
| RegisterStructs.FaultStatus.constructor | inc/max22200_types.hpp:765-766 | every fault mask is zero |
| RegisterStructs.FaultStatus.FromRegister | inc/max22200_types.hpp:768-773 | the OCP, HHF, OLF and DPM masks are bytes 3, 2, 1 and 0 of the word |
| RegisterStructs.FaultStatus.Word | inc/max22200_types.hpp:768-773 | the FAULT word the four masks make up, with OCP, HHF, OLF and DPM in bytes 3 to 0; `FaultWordRoundTrip` proves reading a word and rebuilding it gives the word back |
| RegisterStructs.FaultStatus.ChannelsWithAnyFault | inc/max22200_types.hpp:818-821 | the OR of the four masks; `FaultOnChannelIff` proves a channel's bit is set exactly when some kind of fault is flagged on it |
| RegisterStructs.FaultStatus.HasFault | inc/max22200_types.hpp:778-781 | some channel has a fault; `FaultIffSomeChannel` and `FaultCountZeroIff` prove it holds exactly when some channel is faulty, and exactly when the fault count is not 0 |
| RegisterStructs.FaultStatus.HasFaultOnChannel | inc/max22200_types.hpp:802-805 | channel `ch` is below 8 and has some fault; `FaultOnChannelIff` states it by fault kind |
| RegisterStructs.FaultStatus.HasOvercurrentOnChannel | inc/max22200_types.hpp:806-808 | channel `ch` is below 8 and its OCP bit is set; false past channel 7 by `ChannelQueriesOutOfRange` |
| RegisterStructs.FaultStatus.HasHitNotReachedOnChannel | inc/max22200_types.hpp:809-811 | channel `ch` is below 8 and its HHF bit is set |
| RegisterStructs.FaultStatus.HasOpenLoadFaultOnChannel | inc/max22200_types.hpp:812-814 | channel `ch` is below 8 and its OLF bit is set |
| RegisterStructs.FaultStatus.HasPlungerMovementFaultOnChannel | inc/max22200_types.hpp:815-817 | channel `ch` is below 8 and its DPM bit is set |
| RegisterStructs.FaultStatus.GetFaultCount | inc/max22200_types.hpp:786-795 | the loop's count is the total popcount of the four masks; it is at most 32, and 0 exactly when `hasFault` is false |
| RegisterStructs.FaultCountStep | inc/max22200_types.hpp:788-793 | one loop step adds one per mask with that bit set |
| RegisterStructs.FaultCountBelowBound | inc/max22200_types.hpp:786-795 | after n steps the count is at most 4n |
| RegisterStructs.FaultCountZeroIff | inc/max22200_types.hpp:778-795 | the full count is at most 32, and 0 exactly when no fault is flagged |
| RegisterStructs.FaultWordRoundTrip | inc/max22200_types.hpp:768-773 | the four masks read from a FAULT word make that word again |
| RegisterStructs.FaultOnChannelIff | inc/max22200_types.hpp:803-818 | a channel has some fault exactly when one of the four kinds is flagged on it |
| RegisterStructs.FaultIffSomeChannel | inc/max22200_types.hpp:778-822 | `hasFault`, that is `channelsWithAnyFault() != 0`, holds exactly when some channel has a fault |
| RegisterStructs.DpmConfig.constructor | inc/max22200_types.hpp:841-842 | all three settings are zero |
| RegisterStructs.DpmConfig.FromRegister | inc/max22200_types.hpp:850-854 | the start current is bits 14:8, the debounce bits 7:4, and the threshold bits 3:0 |
| RegisterStructs.DpmConfig.ToRegister | inc/max22200_types.hpp:844-848 | the packed CFG_DPM word; `DpmEncodeFields` proves each field holds its setting cut to width with bits 31:15 clear, and `DpmSettingsRoundTrip` that decoding it restores settings in range |
| RegisterStructs.DpmEncodeFields | inc/max22200_types.hpp:844-848 | each field of `toRegister()` holds its setting cut to width, and bits 31:15 are 0 |
| RegisterStructs.DpmSettingsRoundTrip | inc/max22200_types.hpp:844-854 | with the start current ≤ 127 and the other two settings ≤ 15, decoding `toRegister()` gives the settings back |
| RegisterStructs.DpmWordRoundTrip | inc/max22200_types.hpp:844-854 | settings read from a word write back its bits 14:0 |
| Driver.InitStatusWord | inc/max22200.hpp:180-186 | the start-up STATUS fields (ACTIVE, ONCH 0, independent pairs, only COMER masked) pack to 0x00040001 and unpack back |
| Driver.Transaction | inc/max22200.hpp:815-892 | a register access is 4 operations when its command phase succeeds and 3 when it does not |
| Driver.CommandEventsPhases | inc/max22200.hpp:815-842 | a command phase holds exactly one command transfer and no data phase |
| Driver.TransactionPhases | inc/max22200.hpp:815-892 | an access holds one command phase, and one data phase of its width exactly when the command phase succeeded |
| Driver.TransactionCommands | inc/max22200.hpp:815-892 | an access carries its own command byte once and no other |
| Driver.WithPairBits | inc/max22200.hpp:352-366 | setting a pair puts bit 0 on channel 2p, bit 1 on channel 2p+1, and keeps the other six ONCH bits |
| Driver.CurrentCodeReplaced | inc/max22200.hpp:597-613 | replacing the HIT or HOLD code of a CFG_CHx word changes that field and no other |
| Driver.CurrentCodeReadBack | inc/max22200.hpp:597-613 | reading the field back after the replacement gives the code written |
| Driver.CodeToMa | inc/max22200.hpp:640-646 | a code converted back to mA is at most the full scale |
| Driver.CurrentReadBack | inc/max22200.hpp:597-646 | setting a current below full scale and reading it back gives it to within half a code step plus one mA |
| Driver.LimitedCurrent | inc/max22200.hpp:597-607 | the request is cut to the board's current limit when one is set, and is kept otherwise |
| Driver.CdrRawWhole | inc/max22200.hpp:738-765 | a whole number of mA encodes in CDR mode exactly as `currentMaToRaw` encodes it |
| Driver.CdrChannelFields | inc/max22200.hpp:738-765 | the one-shot CDR word has CDR mode, no HFS, SPI trigger, the nearest HIT and HOLD codes, and the HIT-time code |
| Driver.CdrFieldsAsConfig | inc/max22200.hpp:738-765 | that word is what `ChannelConfig::toRegister` gives for a configuration holding the same CDR settings |
| Driver.NoComerAppend | inc/max22200.hpp:172-200 | an access whose fault byte is not COMER keeps the record free of COMER replies |
| Driver.StatusAccessCommands | inc/max22200.hpp:172-200 | of the two STATUS accesses of the handshake, only the write carries the STATUS-write command |
| Driver.IdleStatusWord | inc/max22200.hpp:202-217 | the shut-down STATUS word clears ONCH and ACTIVE and keeps the pair modes and FREQM |
| Driver.Max22200.constructor | inc/max22200.hpp:135-145 | a new driver over the transport: not initialized, zero statistics, last fault byte 0, default STATUS cache, default board configuration |
| Driver.Max22200.WithBoard | inc/max22200.hpp:147-156 | the same, with the given board configuration |
| Driver.Max22200.IsValidChannel | inc/max22200.hpp:798 | valid exactly for channel numbers below `NUM_CHANNELS_` = 8 |
| Driver.Max22200.GetLastFaultByte | inc/max22200.hpp:534-554 | the reply byte of the most recent successful command phase of this driver, or 0 before any |
| Driver.Max22200.IsInitialized | inc/max22200.hpp:222 | the initialization flag; `Initialize` ensures it holds exactly when it returned Ok, and `Deinitialize` ensures it is cleared |
| Driver.Max22200.WriteCommandRegister | inc/max22200.hpp:815-844 | CMD high, one command byte, CMD low; on success the reply becomes the last fault byte; the result tells whether the transfer worked |
| Driver.Max22200.Signal | inc/max22200.hpp:815-844 | a pin, delay or data operation is recorded and answered by the oracle, and the last fault byte stays the latest one |
| Driver.Max22200.TransferCommand | inc/max22200.hpp:815-844 | the one-byte command transfer; when it works, its reply byte becomes the last fault byte, and otherwise the old one is kept |
| Driver.Max22200.DataPhase | inc/max22200.hpp:846-870 | one data transfer; COMMUNICATION_ERROR exactly when the transport reports failure |
| Driver.Max22200.WriteRegister32 | inc/max22200.hpp:522 | command phase, then (if it worked) a 32-bit write of the value; Ok exactly when both phases worked; statistics record one transfer |
| Driver.Max22200.ReadRegister32 | inc/max22200.hpp:517 | the same shape with a 32-bit read; the value is the word read on success, else 0 |
| Driver.Max22200.WriteRegister8 | inc/max22200.hpp:532 | the same shape with an MSB-only write |
| Driver.Max22200.ReadRegister8 | inc/max22200.hpp:527 | the same shape with an MSB-only read |
| Driver.Max22200.SetChannelsOn | inc/max22200.hpp:336-350 | the cached ONCH byte becomes the mask, with one 8-bit STATUS write of it and nothing else on the bus. The result is Ok exactly when the access worked, and the statistics record one transfer |
| Driver.Max22200.SetChannelEnabled | inc/max22200.hpp:308-314 | an invalid channel gives INVALID_PARAMETER with no bus traffic; otherwise only that channel's ONCH bit changes, written with one 8-bit STATUS write. An invalid request leaves the statistics alone. A valid one gives Ok exactly when the write worked, and the statistics record one transfer |
| Driver.Max22200.EnableChannel | inc/max22200.hpp:284-298 | INVALID_PARAMETER exactly for channel ≥ 8; otherwise the channel's ONCH bit is set, the other seven are kept, and the rest of the cache is unchanged. An invalid request leaves the statistics alone. A valid one gives Ok exactly when the write worked, and the statistics record one transfer |
| Driver.Max22200.DisableChannel | inc/max22200.hpp:300-306 | INVALID_PARAMETER exactly for channel ≥ 8; otherwise the channel's ONCH bit is cleared, the other seven are kept, and the rest of the cache is unchanged. An invalid request leaves the statistics alone. A valid one gives Ok exactly when the write worked, and the statistics record one transfer |
| Driver.Max22200.SetAllChannelsEnabled | inc/max22200.hpp:328-333 | ONCH becomes 0xFF or 0, written with one 8-bit STATUS write. The result is Ok exactly when the access worked, and the statistics record one transfer |
| Driver.Max22200.EnableAllChannels | inc/max22200.hpp:316-320 | ONCH becomes 0xFF, written with one 8-bit STATUS write. The result is Ok exactly when the access worked, and the statistics record one transfer |
| Driver.Max22200.DisableAllChannels | inc/max22200.hpp:322-326 | ONCH becomes 0, written with one 8-bit STATUS write. The result is Ok exactly when the access worked, and the statistics record one transfer |
| Driver.Max22200.SetFullBridgeState | inc/max22200.hpp:352-366 | INVALID_PARAMETER for a pair above 3 with no bus traffic; otherwise ONCH bits 2p and 2p+1 take the state's two bits, the other six are kept, and the new byte is written with one 8-bit STATUS write. An invalid request leaves the statistics alone. A valid one gives Ok exactly when the write worked, and the statistics record one transfer |
| Driver.Max22200.ReadStatus | inc/max22200.hpp:231 | one 32-bit STATUS read; on success the argument describes the word read, on failure it is unchanged. The result is Ok exactly when the access worked, and the statistics record one transfer |
| Driver.Max22200.WriteStatus | inc/max22200.hpp:236 | one 32-bit STATUS write of `toRegister()`; on success the cache holds the written fields. The result is Ok exactly when the access worked, and the statistics record one transfer |
| Driver.Max22200.ReadFaultFlags | inc/max22200.hpp:433 | one STATUS read; on success the argument describes it and reports a fault exactly when a bit 7:1 is set. The result is Ok exactly when the access worked, and the statistics record one transfer |
| Driver.Max22200.ClearFaultFlags | inc/max22200.hpp:438 | one STATUS read, whose result is discarded. The result is Ok exactly when the access worked, and the statistics record one transfer |
| Driver.Max22200.ReadFaultRegister | inc/max22200.hpp:370-384 | one FAULT read; on success the argument describes the word, on failure it is unchanged. The result is Ok exactly when the access worked, and the statistics record one transfer |
| Driver.Max22200.ClearAllFaults | inc/max22200.hpp:386-394 | one FAULT read, whose result is discarded. The result is Ok exactly when the access worked, and the statistics record one transfer |
| Driver.Max22200.ReadDpmConfig | inc/max22200.hpp:461-472 | one CFG_DPM read; on success the argument describes the word, on failure it is unchanged. The result is Ok exactly when the access worked, and the statistics record one transfer |
| Driver.Max22200.WriteDpmConfig | inc/max22200.hpp:474-482 | one CFG_DPM write of `toRegister()`. The result is Ok exactly when the access worked, and the statistics record one transfer |
| Driver.Max22200.SetDeviceEnable | inc/max22200.hpp:498-503 | drives the ENABLE line to the requested level |
| Driver.Max22200.EnableDevice | inc/max22200.hpp:488-491 | drives ENABLE high |
| Driver.Max22200.DisableDevice | inc/max22200.hpp:493-496 | drives ENABLE low |
| Driver.Max22200.GetFaultPinState | inc/max22200.hpp:505-508 | reads nFAULT once; the fault is active exactly when the read worked and reported it |
| Driver.Max22200.ResetStatistics | inc/max22200.hpp:561 | every counter is zero, and the success rate is 100 |
| Driver.Max22200.GetStatistics | inc/max22200.hpp:560 | the driver's statistics, as each register-access method ensures them |
| Driver.Max22200.GetBoardConfig | inc/max22200.hpp:591 | the board configuration, as `SetBoardConfig` and the constructors ensure it |
| Driver.Max22200.SetBoardConfig | inc/max22200.hpp:572-586 | the board configuration becomes the argument |
| Driver.Max22200.ConfigureChannel | inc/max22200.hpp:242-263 | INVALID_PARAMETER with no bus traffic for channel ≥ 8; otherwise one 32-bit write of `config.toRegister()` to the channel's bank. The result is Ok exactly when the access worked, and the statistics record one transfer |
| Driver.Max22200.GetChannelConfig | inc/max22200.hpp:265-270 | INVALID_PARAMETER for channel ≥ 8; otherwise one 32-bit read of the channel's bank, decoded with the board's full scale and the cached clock base on success. The result is Ok exactly when the access worked, and the statistics record one transfer |
| Driver.Max22200.SetCurrentMa | inc/max22200.hpp:597-613 | INVALID_PARAMETER exactly for an invalid channel or no full scale, with no bus traffic and no statistics. Otherwise the channel register is read, and only its HIT or HOLD code is replaced by the nearest code of the limited current and written back. The result is Ok exactly when both accesses worked, and the statistics record each access made |
| Driver.Max22200.SetHitCurrentMa | inc/max22200.hpp:597-608 | the HIT case of `SetCurrentMa`, with the same result, trace and statistics |
| Driver.Max22200.SetHoldCurrentMa | inc/max22200.hpp:610-613 | the HOLD case of `SetCurrentMa`, with the same result, trace and statistics |
| Driver.Max22200.GetCurrentMa | inc/max22200.hpp:640-651 | INVALID_PARAMETER exactly for an invalid channel or no full scale; otherwise one channel read, converting the code to mA (0 on failure, never above full scale). The result is Ok exactly when the access worked, and the statistics record one transfer |
| Driver.Max22200.GetHitCurrentMa | inc/max22200.hpp:640-646 | the HIT case of `GetCurrentMa`, with the same result, trace and statistics |
| Driver.Max22200.GetHoldCurrentMa | inc/max22200.hpp:648-651 | the HOLD case of `GetCurrentMa`, with the same result, trace and statistics |
| Driver.Max22200.ConfigureChannelCdr | inc/max22200.hpp:738-765 | INVALID_PARAMETER exactly for an invalid channel or no full scale; otherwise one 32-bit write of the CDR word built from the limited currents, HIT time and settings. The result is Ok exactly when the access worked, and the statistics record one transfer |
| Driver.Max22200.HandshakeRead | inc/max22200.hpp:176-179 | one STATUS read; it reports COMER exactly when the command phase worked and answered 0x04 |
| Driver.Max22200.HandshakeWrite | inc/max22200.hpp:180-184 | one STATUS write of 0x00040001; it reports COMER exactly as above |
| Driver.Max22200.InitAttempt | inc/max22200.hpp:176-186 | one pass of the handshake: its outcome is `PassOutcome` and its bus record `PassEvents` at the current position. On completion the record ends with a COMER-free STATUS read, write and re-read, and the cache is the word read back. A retry leaves 0x04 as the last fault byte |
| Driver.Max22200.WriteAndConfirm | inc/max22200.hpp:180-186 | the write and re-read half of a pass: its outcome and record are those of a pass from its second access, with the same guarantees |
| Driver.Max22200.Handshake | inc/max22200.hpp:172-200 | the loop's result, its bus record and the start of its last pass are those of `HandshakeFrom` at the current position with three passes. When it succeeds, the last twelve operations are one complete COMER-free pass |
| Driver.Max22200.PowerUp | inc/max22200.hpp:172-200 | transport init and SPI mode 0 MSB-first set-up, ENABLE high, a 500 µs delay; INITIALIZATION_ERROR exactly when init or set-up fails |
| Driver.Max22200.Start | inc/max22200.hpp:172-200 | Ok exactly when `HandshakeFrom` at the current position completes, and COMMUNICATION_ERROR otherwise. The record is the handshake's, followed by ENABLE dropped when it did not complete |
| Driver.Max22200.Initialize | inc/max22200.hpp:172-200 | INITIALIZATION_ERROR exactly when transport init or set-up fails. Otherwise the result is Ok exactly when `HandshakeFrom` after the four power-up operations completes, and COMMUNICATION_ERROR otherwise, with the handshake's record followed by ENABLE dropped. On Ok the driver is initialized, with a COMER-free pass at the end of the record and the cache as read back |
| Driver.BehindNothing | inc/max22200.hpp:172-200 | a trace helper for the handshake model: no earlier passes leave a handshake as it is |
| Driver.BehindBehind | inc/max22200.hpp:172-200 | a trace helper for the handshake model: two groups of earlier passes put in front of a handshake one after the other are one group |
| Driver.RunBounds | inc/max22200.hpp:172-200 | a trace helper for the handshake model: a handshake makes one to `n` passes from its start on; it is done exactly when its last pass completed, and a last pass that asked for a retry means all `n` passes were made |
| Driver.RunOccurrences | inc/max22200.hpp:172-200 | a trace helper for the handshake model: an operation that no pass records twice is recorded at most once a pass |
| Driver.OccurrencesBehind | inc/max22200.hpp:172-200 | a trace helper for the handshake model: that bound survives one more pass in front |
| Driver.RunFirstDone | inc/max22200.hpp:172-200 | a trace helper for the handshake model: a first pass that completes is the whole handshake |
| Driver.RunRetriesOut | inc/max22200.hpp:172-200 | a trace helper for the handshake model: three passes in a row that ask for a retry end the handshake, not done, after three passes |
| Driver.RunStep | inc/max22200.hpp:172-200 | a trace helper for the handshake model: after one more pass the handshake is either still open with that pass's record added, or decided with it as its last pass |
| Driver.Max22200.PassStep | inc/max22200.hpp:172-200 | the same step for the driver's own passes, which is what the loop of `Handshake` keeps |
| Driver.Max22200.PassDoneIff | inc/max22200.hpp:176-186 | a pass completes exactly when its three accesses go through without COMER, and a completed pass has twelve operations |
| Driver.Max22200.PassWrites | inc/max22200.hpp:176-186 | a pass carries the STATUS-write command once when its first read is clean and not at all otherwise |
| Driver.Max22200.HandshakeWrites | inc/max22200.hpp:172-200 | the handshake carries the STATUS-write command at most once a pass |
| Driver.Max22200.StartRecord | inc/max22200.hpp:172-200 | the record of `Start` carries the STATUS-write command at most three times, and ends with ENABLE dropped when the handshake did not complete |
| Driver.Max22200.CleanFirstPass | inc/max22200.hpp:172-200 | when the three accesses from the handshake's start go through without COMER, the handshake is done after that one pass |
| Driver.Max22200.PersistentComer | inc/max22200.hpp:180-190 | COMER on three passes in a row makes the handshake fail after its third pass, so `Initialize` gives COMMUNICATION_ERROR |
| Driver.Max22200.WriteIdleStatus | inc/max22200.hpp:202-217 | one 32-bit write of the cached STATUS fields. The result is Ok exactly when the access worked, and the statistics record one transfer |
| Driver.Max22200.Shutdown | inc/max22200.hpp:202-217 | an 8-bit STATUS write of 0, a 32-bit STATUS write of the cache with ONCH 0 and ACTIVE 0, then ENABLE low. The result is Ok exactly when both writes worked, and the statistics record both |
| Driver.Max22200.Deinitialize | inc/max22200.hpp:202-217 | when not initialized: Ok with no bus traffic and unchanged cache and statistics. Otherwise it performs the shut-down sequence, with its result and statistics. Either way the driver ends not initialized |

## Left out

- Legacy API (`src/MAX22200.cpp`, `inc/MAX22200.h`, `inc/MAX22200_Types.h`): a superseded single-frame protocol, not part of this model.
- The SPI and GPIO transports and the example and test applications: these are I/O plumbing. They are replaced by the abstract `Transport.Bus`.
- Data-phase byte order: no modelled file shows it, so a 32-bit data phase is recorded as the whole word.
- Timing: the power-up delay tEN is recorded as one `Delay(500)` operation. tWU and tDIS and the `uptime_ms` counter are not modelled, because the model has no clock.
- Callbacks (`SetFaultCallback`, `SetStateChangeCallback`) and the `fault_events` and `state_changes` counters: these are function pointers into caller code. The counters are kept but never changed.
- `FaultTypeToStr`, `DriverStatusToStr`: string tables only.
- `ClearChannelFaults`, `ReadFaultRegisterSelectiveClear`: their effect depends on the silicon variant (MAX22200 or MAX22200A) and cannot be stated.
- `ConfigureAllChannels`, `GetAllChannelConfigs`: loops over `ConfigureChannel` and `GetChannelConfig` with an array type; not modelled.
- `SetHitCurrentA`, `SetHoldCurrentA`, the `*CurrentPercent` and `*DutyPercent` setters and getters, `ConfigureChannelVdr`, `SetHitTimeMs`, `GetHitTimeMs`, `ConfigureDpm` and `GetDutyLimits`: float front ends whose bodies are not part of this model. Their encodings (`CurrentFieldRaw` in VDR mode, `HitTimeMsToRaw`, `DutyLimits.Clamp`) are modelled.
- The one-field probes of `StatusConfig` (`hasOvertemperature` … `hasUndervoltage`, `isActive`, the `is*Masked` getters) and the whole-register probes of `FaultStatus` (`hasOvercurrent`, `hasHitNotReached`, `hasOpenLoadFault`, `hasPlungerMovementFault`): each returns one field, or tests one mask against 0. The model reads the field directly.
- `BoardConfig(rref_kohm, hfs)`: a float formula; the model takes the full-scale current as given.
- IEEE-754 float behaviour (rounding, NaN): floats are reals. `TruncToU32` requires its argument to be in (-1, 2^32), where the C++ cast is defined.
- Driver.Max22200.ConfigureChannel: explains its `INVALID_PARAMETER` only by the channel check that the header documents. No other check is modelled. The same method requires `config.CanEncode()`, which excludes only CDR currents of -1.5 mA or less, where the C++ cast is undefined.
- Driver.Max22200.SetCurrentMa: modelled as a read-modify-write of the channel register, because the header's description ("converts mA to 7-bit register value") does not say how the other fields are kept. The implementation file that decides this is not part of this model.
- Driver.Max22200.Initialize: the header says only that a COMER answer fails the call. The model makes the retry concrete: up to three passes while COMER persists. An `Initialize` on a driver that is already initialized runs the sequence again. Its contract states the trace, the result, and the cache on success. It does not state the cache after a failed handshake, which holds whatever the last pass had cached, nor the statistics, which count one transfer per STATUS access as in the other methods.
- Driver.Max22200.Start: states the trace, the result, and the cache on success, but neither the statistics nor the cache after a pass that did not complete, as for `Initialize`.
- Driver.Max22200.Handshake: states the trace, the result, and the cache on success, but neither the statistics nor the cache after a pass that did not complete, as for `Initialize`.
- Driver.Max22200.InitAttempt: states the trace, the outcome, and the cache on success, but neither the statistics nor the cache after a pass that did not complete, as for `Initialize`.
- Driver.Max22200.WriteAndConfirm: states the trace, the outcome, and the cache on success, but neither the statistics nor the cache after a pass that did not complete, as for `Initialize`.
- Driver.Max22200.ReadStatus: does not refresh `cached_status_`. The C++ method is `const`, so it can change only the `mutable` statistics and last fault byte.
- Types.HitTimeMsToRaw: follows the code. A rounded period count above 254 gives 255 (continuous).
- Types.CurrentMaToRaw: the nearest-code bound is stated only where `ma*127 + ifs/2` does not wrap at 2^32. The wrapped result is still computed and bounded by 127.
- Types.CurrentRoundTrip: the CDR case needs a full scale above 127 mA. Below that, two codes can share a whole-mA value, so the round trip does not hold.
- Driver.Max22200.ConfigureChannelCdr: the default arguments of the C++ method (low side, FMAIN/4, and all four feature flags off) are not modelled. Dafny has no default arguments, so every argument is passed explicitly.
- CommandReg.Build: the C++ `build` defaults `mode8` to false (a full 32-bit access). Dafny has no default arguments, so every caller passes the width explicitly.
