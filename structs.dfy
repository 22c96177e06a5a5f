/**
 * The register structures of the MAX22200 driver: `ChannelConfig`,
 * `StatusConfig`, `FaultStatus` and `DpmConfig`.  Each is an object whose
 * `FromRegister` overwrites its fields from a 32-bit register word, and whose
 * `ToRegister` packs the fields back into a word.  `Decodes(w, ...)` /
 * `Describes(w)` state the field values `FromRegister(w)` leaves behind, so
 * the round-trip lemmas relate the two directions.
 */
module RegisterStructs {
  import opened Bits
  import opened Types
  import StatusReg
  import CfgChReg
  import FaultReg
  import CfgDpmReg

  // ---------------------------------------------------------------------
  // CFG_CHx
  // ---------------------------------------------------------------------

  /** A flag bit of a register word: `mask` when `b` holds, otherwise nothing. */
  function Flag(b: bool, mask: bv32): bv32
  {
    if b then mask else 0
  }

  /** The 7-bit HOLD code of a channel configuration word (bits 30:24). */
  function HoldBits(w: bv32): bv8
  {
    ((w >> CfgChReg.HOLD_SHIFT) & 0x7F) as bv8
  }

  /** The 7-bit HIT code of a channel configuration word (bits 22:16). */
  function HitBits(w: bv32): bv8
  {
    ((w >> CfgChReg.HIT_SHIFT) & 0x7F) as bv8
  }

  /** The 8-bit HIT time code of a channel configuration word (bits 15:8). */
  function HitTimeBits(w: bv32): bv8
  {
    ((w >> CfgChReg.HITT_SHIFT) & 0xFF) as bv8
  }

  /** The 2-bit FREQ_CFG code of a channel configuration word (bits 5:4). */
  function FreqCfgBits(w: bv32): bv8
  {
    ((w >> CfgChReg.FREQ_CFG_SHIFT) & 0x03) as bv8
  }

  /** The fields of a channel configuration word, as codes. */
  datatype ChannelFields = ChannelFields(
    hfs: bool, hold: bv8, trg: bool, hit: bv8, hitTime: bv8,
    vdr: bool, hs: bool, freqCfg: bv8, src: bool, ol: bool, dpm: bool, hhf: bool)
  {
    /** Every code fits its field: HOLD and HIT in 7 bits, FREQ_CFG in 2. */
    predicate Fits()
    {
      hold <= 0x7F && hit <= 0x7F && freqCfg <= 0x03
    }
  }

  /**
   * A channel configuration word assembled from its fields, in the order the
   * driver ORs them in.  HOLD and HIT are cut to 7 bits and FREQ_CFG to 2, so
   * no field can spill into a neighbour.
   */
  function PackChannel(f: ChannelFields): bv32
  {
    Flag(f.hfs, CfgChReg.HFS_BIT)
    | (((f.hold & 0x7F) as bv32) << CfgChReg.HOLD_SHIFT)
    | Flag(f.trg, CfgChReg.TRGNSPI_BIT)
    | (((f.hit & 0x7F) as bv32) << CfgChReg.HIT_SHIFT)
    | ((f.hitTime as bv32) << CfgChReg.HITT_SHIFT)
    | Flag(f.vdr, CfgChReg.VDRNCDR_BIT)
    | Flag(f.hs, CfgChReg.HSNLS_BIT)
    | (((f.freqCfg & 0x03) as bv32) << CfgChReg.FREQ_CFG_SHIFT)
    | Flag(f.src, CfgChReg.SRC_BIT)
    | Flag(f.ol, CfgChReg.OL_EN_BIT)
    | Flag(f.dpm, CfgChReg.DPM_EN_BIT)
    | Flag(f.hhf, CfgChReg.HHF_EN_BIT)
  }

  /** The fields of a channel configuration word, each read from its bit range. */
  function UnpackChannel(w: bv32): (f: ChannelFields)
    ensures f.Fits()
  {
    ChannelFields(
      w & CfgChReg.HFS_BIT != 0, HoldBits(w), w & CfgChReg.TRGNSPI_BIT != 0, HitBits(w),
      HitTimeBits(w), w & CfgChReg.VDRNCDR_BIT != 0, w & CfgChReg.HSNLS_BIT != 0,
      FreqCfgBits(w), w & CfgChReg.SRC_BIT != 0, w & CfgChReg.OL_EN_BIT != 0,
      w & CfgChReg.DPM_EN_BIT != 0, w & CfgChReg.HHF_EN_BIT != 0)
  }

  // Each field of a packed word reads back as the value packed into it.  The
  // twelve fields are proved in groups so that each proof stays small.

  lemma PackedHfsAndHold(f: ChannelFields)
    ensures var w := PackChannel(f);
      (w & CfgChReg.HFS_BIT != 0) == f.hfs && HoldBits(w) == f.hold & 0x7F
  {
  }

  lemma PackedTrgAndHit(f: ChannelFields)
    ensures var w := PackChannel(f);
      (w & CfgChReg.TRGNSPI_BIT != 0) == f.trg && HitBits(w) == f.hit & 0x7F
  {
  }

  lemma PackedTimingAndMode(f: ChannelFields)
    ensures var w := PackChannel(f);
      && HitTimeBits(w) == f.hitTime
      && (w & CfgChReg.VDRNCDR_BIT != 0) == f.vdr
      && (w & CfgChReg.HSNLS_BIT != 0) == f.hs
      && FreqCfgBits(w) == f.freqCfg & 0x03
  {
  }

  lemma PackedEnables(f: ChannelFields)
    ensures var w := PackChannel(f);
      && (w & CfgChReg.SRC_BIT != 0) == f.src
      && (w & CfgChReg.OL_EN_BIT != 0) == f.ol
      && (w & CfgChReg.DPM_EN_BIT != 0) == f.dpm
      && (w & CfgChReg.HHF_EN_BIT != 0) == f.hhf
  {
  }

  /** Fields that fit are read back unchanged from the word they are packed into. */
  lemma UnpackPackChannel(f: ChannelFields)
    requires f.Fits()
    ensures UnpackChannel(PackChannel(f)) == f
  {
    PackedHfsAndHold(f);
    PackedTrgAndHit(f);
    PackedTimingAndMode(f);
    PackedEnables(f);
  }

  lemma RepackByte3(w: bv32)
    ensures PackChannel(UnpackChannel(w)) & 0xFF00_0000 == w & 0xFF00_0000
  {
  }

  lemma RepackByte2(w: bv32)
    ensures PackChannel(UnpackChannel(w)) & 0x00FF_0000 == w & 0x00FF_0000
  {
  }

  lemma RepackByte1(w: bv32)
    ensures PackChannel(UnpackChannel(w)) & 0x0000_FF00 == w & 0x0000_FF00
  {
  }

  lemma RepackByte0(w: bv32)
    ensures PackChannel(UnpackChannel(w)) & 0x0000_00FF == w & 0x0000_00FF
  {
  }

  /** The fields of a channel configuration word determine it: repacking them gives it back. */
  lemma PackUnpackChannel(w: bv32)
    ensures PackChannel(UnpackChannel(w)) == w
  {
    RepackByte3(w);
    RepackByte2(w);
    RepackByte1(w);
    RepackByte0(w);
  }

  /**
   * One channel's configuration, kept in user units: HIT and HOLD as mA in
   * CDR mode or as duty percent in VDR mode, the HIT time in ms, and the
   * full-scale current and master clock needed to convert them to codes.
   */
  class ChannelConfig {
    var hitCurrentValue: real
    var holdCurrentValue: real
    var hitTimeMs: real
    var fullScaleCurrentMa: u32
    var masterClock80khz: bool
    var halfFullScale: bool
    var triggerFromPin: bool
    var driveMode: DriveMode
    var sideMode: SideMode
    var chopFreq: ChopFreq
    var slewRateControlEnabled: bool
    var openLoadDetectionEnabled: bool
    var plungerMovementDetectionEnabled: bool
    var hitCurrentCheckEnabled: bool

    /** Zero currents and HIT time, 1000 mA full scale, 100 kHz clock, CDR low-side, fCHOP / 4. */
    constructor()
      ensures hitCurrentValue == 0.0 && holdCurrentValue == 0.0 && hitTimeMs == 0.0
      ensures fullScaleCurrentMa == 1000 && !masterClock80khz
      ensures !halfFullScale && !triggerFromPin
      ensures driveMode == CDR && sideMode == LowSide && chopFreq == FMainDiv4
      ensures !slewRateControlEnabled && !openLoadDetectionEnabled
      ensures !plungerMovementDetectionEnabled && !hitCurrentCheckEnabled
    {
      hitCurrentValue := 0.0;
      holdCurrentValue := 0.0;
      hitTimeMs := 0.0;
      fullScaleCurrentMa := 1000;
      masterClock80khz := false;
      halfFullScale := false;
      triggerFromPin := false;
      driveMode := CDR;
      sideMode := LowSide;
      chopFreq := FMainDiv4;
      slewRateControlEnabled := false;
      openLoadDetectionEnabled := false;
      plungerMovementDetectionEnabled := false;
      hitCurrentCheckEnabled := false;
    }

    /**
     * The C++ conversion is defined: a CDR current below full scale must stay
     * above -1.5 mA for the rounding cast to `uint32_t` to be defined.
     */
    predicate CanEncode()
      reads this
    {
      driveMode == CDR && fullScaleCurrentMa != 0 ==>
        hitCurrentValue > -1.5 && holdCurrentValue > -1.5
    }

    /** The 7-bit HIT code this configuration asks for. */
    function HitRaw(): u8
      reads this
      requires CanEncode()
    {
      CurrentFieldRaw(hitCurrentValue, driveMode, fullScaleCurrentMa)
    }

    /** The 7-bit HOLD code this configuration asks for. */
    function HoldRaw(): u8
      reads this
      requires CanEncode()
    {
      CurrentFieldRaw(holdCurrentValue, driveMode, fullScaleCurrentMa)
    }

    /** The 8-bit HIT time code this configuration asks for. */
    function HitTimeRaw(): u8
      reads this
    {
      HitTimeMsToRaw(hitTimeMs, masterClock80khz, chopFreq)
    }

    /** The codes this configuration asks for, field by field. */
    function Fields(): (f: ChannelFields)
      reads this
      requires CanEncode()
      ensures f.Fits()
      ensures CodeOf(f.hold) == HoldRaw() && CodeOf(f.hit) == HitRaw() && CodeOf(f.hitTime) == HitTimeRaw()
      ensures f.freqCfg == ChopFreqCode(chopFreq)
    {
      CodeOfByte(HoldRaw());
      CodeOfByte(HitRaw());
      CodeOfByte(HitTimeRaw());
      ChannelFields(
        halfFullScale, ByteOf(HoldRaw()), triggerFromPin, ByteOf(HitRaw()), ByteOf(HitTimeRaw()),
        driveMode == VDR, sideMode == HighSide, ChopFreqCode(chopFreq),
        slewRateControlEnabled, openLoadDetectionEnabled, plungerMovementDetectionEnabled,
        hitCurrentCheckEnabled)
    }

    /** The CFG_CHx register word, packed from the codes of `Fields()`. */
    function ToRegister(): bv32
      reads this
      requires CanEncode()
    {
      PackChannel(Fields())
    }

    /**
     * The fields hold what decoding word `w` gives, with full scale `ifsMa`
     * and master clock `freqm` supplied by the caller.
     */
    predicate Decodes(w: bv32, ifsMa: u32, freqm: bool)
      reads this
    {
      var f := UnpackChannel(w);
      && halfFullScale == f.hfs
      && triggerFromPin == f.trg
      && driveMode == (if f.vdr then VDR else CDR)
      && sideMode == (if f.hs then HighSide else LowSide)
      && chopFreq == ChopFreqOf(f.freqCfg)
      && slewRateControlEnabled == f.src
      && openLoadDetectionEnabled == f.ol
      && plungerMovementDetectionEnabled == f.dpm
      && hitCurrentCheckEnabled == f.hhf
      && fullScaleCurrentMa == ifsMa
      && masterClock80khz == freqm
      && hitCurrentValue == DecodeCurrent(CodeOf(f.hit), driveMode, ifsMa)
      && holdCurrentValue == DecodeCurrent(CodeOf(f.hold), driveMode, ifsMa)
      && hitTimeMs == HitTimeRawToMs(CodeOf(f.hitTime), freqm, chopFreq)
    }

    // `FromRegister` overwrites the fields in three groups, so that each
    // step's proof only follows a few field updates.

    /** Overwrite the mode bits: HFS, TRGnSPI, VDRnCDR and HSnLS. */
    method DecodeModeBits(f: ChannelFields)
      modifies this`halfFullScale, this`triggerFromPin, this`driveMode, this`sideMode
      ensures halfFullScale == f.hfs && triggerFromPin == f.trg
      ensures driveMode == (if f.vdr then VDR else CDR)
      ensures sideMode == (if f.hs then HighSide else LowSide)
    {
      halfFullScale := f.hfs;
      triggerFromPin := f.trg;
      driveMode := if f.vdr then VDR else CDR;
      sideMode := if f.hs then HighSide else LowSide;
    }

    /** Overwrite the chopping frequency and the four feature enables. */
    method DecodeFeatureBits(f: ChannelFields)
      requires f.Fits()
      modifies this`chopFreq, this`slewRateControlEnabled, this`openLoadDetectionEnabled
      modifies this`plungerMovementDetectionEnabled, this`hitCurrentCheckEnabled
      ensures chopFreq == ChopFreqOf(f.freqCfg)
      ensures slewRateControlEnabled == f.src && openLoadDetectionEnabled == f.ol
      ensures plungerMovementDetectionEnabled == f.dpm && hitCurrentCheckEnabled == f.hhf
    {
      chopFreq := ChopFreqOf(f.freqCfg);
      slewRateControlEnabled := f.src;
      openLoadDetectionEnabled := f.ol;
      plungerMovementDetectionEnabled := f.dpm;
      hitCurrentCheckEnabled := f.hhf;
    }

    /**
     * Store the conversion context and overwrite the HIT/HOLD values and the
     * HIT time with the codes converted back to user units.
     */
    method DecodeMagnitudes(f: ChannelFields, ifsMa: u32, freqm: bool)
      requires f.Fits()
      modifies this`fullScaleCurrentMa, this`masterClock80khz
      modifies this`hitCurrentValue, this`holdCurrentValue, this`hitTimeMs
      ensures fullScaleCurrentMa == ifsMa && masterClock80khz == freqm
      ensures hitCurrentValue == DecodeCurrent(CodeOf(f.hit), driveMode, ifsMa)
      ensures holdCurrentValue == DecodeCurrent(CodeOf(f.hold), driveMode, ifsMa)
      ensures hitTimeMs == HitTimeRawToMs(CodeOf(f.hitTime), freqm, chopFreq)
    {
      fullScaleCurrentMa := ifsMa;
      masterClock80khz := freqm;
      hitCurrentValue := DecodeCurrent(CodeOf(f.hit), driveMode, fullScaleCurrentMa);
      holdCurrentValue := DecodeCurrent(CodeOf(f.hold), driveMode, fullScaleCurrentMa);
      hitTimeMs := HitTimeRawToMs(CodeOf(f.hitTime), masterClock80khz, chopFreq);
    }

    /** Overwrite every field from a CFG_CHx word. */
    method FromRegister(val: bv32, ifsMa: u32, freqm: bool)
      modifies this
      ensures Decodes(val, ifsMa, freqm)
    {
      var f := UnpackChannel(val);
      DecodeModeBits(f);
      DecodeFeatureBits(f);
      DecodeMagnitudes(f, ifsMa, freqm);
    }

    /** A finite, non-zero HIT time is configured. */
    predicate HasHitTime()
      reads this
    {
      hitTimeMs > 0.0
    }

    /** The HIT current is held indefinitely. */
    predicate IsContinuousHit()
      reads this
    {
      hitTimeMs < 0.0 || hitTimeMs >= CONTINUOUS_HIT_MS
    }
  }

  /** Every field of `c.ToRegister()` holds the matching code of `c`. */
  lemma ChannelEncodeFields(c: ChannelConfig)
    requires c.CanEncode()
    ensures UnpackChannel(c.ToRegister()) == c.Fields()
  {
    UnpackPackChannel(c.Fields());
  }

  /**
   * Decoding `c.ToRegister()` restores every non-numeric setting exactly, and
   * with the same master clock the decoded HIT time encodes to the same code.
   */
  lemma ChannelSettingsRoundTrip(c: ChannelConfig, d: ChannelConfig, ifsMa: u32, freqm: bool)
    requires c.CanEncode() && d.Decodes(c.ToRegister(), ifsMa, freqm)
    ensures d.halfFullScale == c.halfFullScale && d.triggerFromPin == c.triggerFromPin
    ensures d.driveMode == c.driveMode && d.sideMode == c.sideMode && d.chopFreq == c.chopFreq
    ensures d.slewRateControlEnabled == c.slewRateControlEnabled
    ensures d.openLoadDetectionEnabled == c.openLoadDetectionEnabled
    ensures d.plungerMovementDetectionEnabled == c.plungerMovementDetectionEnabled
    ensures d.hitCurrentCheckEnabled == c.hitCurrentCheckEnabled
    ensures freqm == c.masterClock80khz ==> d.HitTimeRaw() == c.HitTimeRaw()
  {
    var f := c.Fields();
    ChannelEncodeFields(c);
    ChopFreqCodeRoundTrip(c.chopFreq);
    HitTimeRoundTrip(CodeOf(f.hitTime), freqm, d.chopFreq);
  }

  /**
   * Conversely, a configuration decoded from any word `w` encodes back to `w`
   * itself, provided that in CDR mode the full scale is coarser than one code
   * step (more than 127 mA) and small enough not to overflow.
   */
  lemma ChannelWordRoundTrip(c: ChannelConfig, w: bv32, ifsMa: u32, freqm: bool)
    requires c.Decodes(w, ifsMa, freqm)
    requires w & CfgChReg.VDRNCDR_BIT == 0 ==> 128 <= ifsMa <= IFS_LIMIT_MA
    ensures c.CanEncode() && c.ToRegister() == w
  {
    DecodedFields(c, w, ifsMa, freqm);
    PackUnpackChannel(w);
  }

  /** The codes of a configuration decoded from a word are the word's own fields. */
  lemma DecodedFields(c: ChannelConfig, w: bv32, ifsMa: u32, freqm: bool)
    requires c.Decodes(w, ifsMa, freqm)
    requires w & CfgChReg.VDRNCDR_BIT == 0 ==> 128 <= ifsMa <= IFS_LIMIT_MA
    ensures c.CanEncode() && c.Fields() == UnpackChannel(w)
  {
    DecodedCodes(c, w, ifsMa, freqm);
    var u := UnpackChannel(w);
    ByteOfCode(u.hit);
    ByteOfCode(u.hold);
    ByteOfCode(u.hitTime);
    var f := c.Fields();
    assert f.hit == u.hit && f.hold == u.hold && f.hitTime == u.hitTime;
  }

  /** The values decoded from a word convert back to the word's own codes. */
  lemma DecodedCodes(c: ChannelConfig, w: bv32, ifsMa: u32, freqm: bool)
    requires c.Decodes(w, ifsMa, freqm)
    requires w & CfgChReg.VDRNCDR_BIT == 0 ==> 128 <= ifsMa <= IFS_LIMIT_MA
    ensures c.CanEncode()
    ensures var u := UnpackChannel(w);
      c.HitRaw() == CodeOf(u.hit) && c.HoldRaw() == CodeOf(u.hold) && c.HitTimeRaw() == CodeOf(u.hitTime)
  {
    var u := UnpackChannel(w);
    CurrentRoundTrip(CodeOf(u.hit), c.driveMode, ifsMa);
    CurrentRoundTrip(CodeOf(u.hold), c.driveMode, ifsMa);
    HitTimeRoundTrip(CodeOf(u.hitTime), freqm, c.chopFreq);
  }

  /** After decoding, the HIT time probes agree with the HIT time code. */
  lemma HitTimeProbes(c: ChannelConfig, w: bv32, ifsMa: u32, freqm: bool)
    requires c.Decodes(w, ifsMa, freqm)
    ensures c.IsContinuousHit() <==> HitTimeBits(w) == 255
    ensures c.HasHitTime() <==> 0 < HitTimeBits(w) < 255
  {
  }

  // ---------------------------------------------------------------------
  // STATUS
  // ---------------------------------------------------------------------

  /** The ONCH byte of a STATUS word (bits 31:24). */
  function OnchBits(w: bv32): bv8
  {
    ((w >> StatusReg.ONCH_SHIFT) & 0xFF) as bv8
  }

  /** The two-bit channel-pair mode field of a STATUS word that starts at bit `shift`. */
  function PairModeBits(w: bv32, shift: bv32): bv8
    requires shift < 32
  {
    ((w >> shift) & 0x03) as bv8
  }

  /** The fields of a STATUS word, as codes and flags. */
  datatype StatusFields = StatusFields(
    onch: bv8,
    mOvt: bool, mOcp: bool, mOlf: bool, mHhf: bool, mDpm: bool, mComf: bool, mUvm: bool, freqm: bool,
    cm76: bv8, cm54: bv8, cm32: bv8, cm10: bv8,
    active: bool,
    ovt: bool, ocp: bool, olf: bool, hhf: bool, dpm: bool, comer: bool, uvm: bool)
  {
    /** Every channel-pair mode code fits its two bits. */
    predicate Fits()
    {
      cm76 < 4 && cm54 < 4 && cm32 < 4 && cm10 < 4
    }

    /** The same fields with the read-only fault flags cleared. */
    function Writable(): StatusFields
    {
      this.(ovt := false, ocp := false, olf := false, hhf := false, dpm := false,
            comer := false, uvm := false)
    }
  }

  /**
   * The STATUS word the driver writes: ONCH, the fault masks, FREQM, the four
   * channel-pair modes and ACTIVE.  The read-only fault flags are not written.
   */
  function PackStatus(f: StatusFields): bv32
  {
    ((f.onch as bv32) << StatusReg.ONCH_SHIFT)
    | Flag(f.mOvt, StatusReg.M_OVT_BIT)
    | Flag(f.mOcp, StatusReg.M_OCP_BIT)
    | Flag(f.mOlf, StatusReg.M_OLF_BIT)
    | Flag(f.mHhf, StatusReg.M_HHF_BIT)
    | Flag(f.mDpm, StatusReg.M_DPM_BIT)
    | Flag(f.mComf, StatusReg.M_COMF_BIT)
    | Flag(f.mUvm, StatusReg.M_UVM_BIT)
    | Flag(f.freqm, StatusReg.FREQM_BIT)
    | ((f.cm76 as bv32) << StatusReg.CM76_SHIFT)
    | ((f.cm54 as bv32) << StatusReg.CM54_SHIFT)
    | ((f.cm32 as bv32) << StatusReg.CM32_SHIFT)
    | ((f.cm10 as bv32) << StatusReg.CM10_SHIFT)
    | Flag(f.active, StatusReg.ACTIVE_BIT)
  }

  /** Every field of a STATUS word, read from its bit range. */
  function UnpackStatus(w: bv32): (f: StatusFields)
    ensures f.Fits()
  {
    StatusFields(
      OnchBits(w),
      w & StatusReg.M_OVT_BIT != 0, w & StatusReg.M_OCP_BIT != 0, w & StatusReg.M_OLF_BIT != 0,
      w & StatusReg.M_HHF_BIT != 0, w & StatusReg.M_DPM_BIT != 0, w & StatusReg.M_COMF_BIT != 0,
      w & StatusReg.M_UVM_BIT != 0, w & StatusReg.FREQM_BIT != 0,
      PairModeBits(w, StatusReg.CM76_SHIFT), PairModeBits(w, StatusReg.CM54_SHIFT),
      PairModeBits(w, StatusReg.CM32_SHIFT), PairModeBits(w, StatusReg.CM10_SHIFT),
      w & StatusReg.ACTIVE_BIT != 0,
      w & StatusReg.OVT_BIT != 0, w & StatusReg.OCP_BIT != 0, w & StatusReg.OLF_BIT != 0,
      w & StatusReg.HHF_BIT != 0, w & StatusReg.DPM_BIT != 0, w & StatusReg.COMER_BIT != 0,
      w & StatusReg.UVM_BIT != 0)
  }

  lemma PackedOnch(f: StatusFields)
    requires f.Fits()
    ensures OnchBits(PackStatus(f)) == f.onch
  {
  }

  lemma PackedMasksHigh(f: StatusFields)
    requires f.Fits()
    ensures var w := PackStatus(f);
      && (w & StatusReg.M_OVT_BIT != 0) == f.mOvt
      && (w & StatusReg.M_OCP_BIT != 0) == f.mOcp
      && (w & StatusReg.M_OLF_BIT != 0) == f.mOlf
      && (w & StatusReg.M_HHF_BIT != 0) == f.mHhf
  {
  }

  lemma PackedMasksLow(f: StatusFields)
    requires f.Fits()
    ensures var w := PackStatus(f);
      && (w & StatusReg.M_DPM_BIT != 0) == f.mDpm
      && (w & StatusReg.M_COMF_BIT != 0) == f.mComf
      && (w & StatusReg.M_UVM_BIT != 0) == f.mUvm
      && (w & StatusReg.FREQM_BIT != 0) == f.freqm
  {
  }

  lemma PackedPairModes(f: StatusFields)
    requires f.Fits()
    ensures var w := PackStatus(f);
      && PairModeBits(w, StatusReg.CM76_SHIFT) == f.cm76
      && PairModeBits(w, StatusReg.CM54_SHIFT) == f.cm54
      && PairModeBits(w, StatusReg.CM32_SHIFT) == f.cm32
      && PairModeBits(w, StatusReg.CM10_SHIFT) == f.cm10
  {
  }

  lemma PackedActive(f: StatusFields)
    requires f.Fits()
    ensures var w := PackStatus(f);
      (w & StatusReg.ACTIVE_BIT != 0) == f.active && w & StatusReg.FAULT_FLAGS_MASK == 0
  {
  }

  /** The written fields read back unchanged; the fault flags read back clear. */
  lemma UnpackPackStatus(f: StatusFields)
    requires f.Fits()
    ensures UnpackStatus(PackStatus(f)) == f.Writable()
  {
    PackedOnch(f);
    PackedMasksHigh(f);
    PackedMasksLow(f);
    PackedPairModes(f);
    PackedActive(f);
    var w := PackStatus(f);
    assert w & StatusReg.OVT_BIT == 0 && w & StatusReg.OCP_BIT == 0 && w & StatusReg.OLF_BIT == 0;
    assert w & StatusReg.HHF_BIT == 0 && w & StatusReg.DPM_BIT == 0;
    assert w & StatusReg.COMER_BIT == 0 && w & StatusReg.UVM_BIT == 0;
  }

  lemma RepackStatusByte3(w: bv32)
    ensures PackStatus(UnpackStatus(w)) & 0xFF00_0000 == w & 0xFF00_0000
  {
  }

  lemma RepackStatusByte2(w: bv32)
    ensures PackStatus(UnpackStatus(w)) & 0x00FF_0000 == w & 0x00FF_0000
  {
  }

  lemma RepackStatusPairs7654(w: bv32)
    ensures PackStatus(UnpackStatus(w)) & 0x0000_F000 == w & 0x0000_F000
  {
  }

  lemma RepackStatusPairs3210(w: bv32)
    ensures PackStatus(UnpackStatus(w)) & 0x0000_0F00 == w & 0x0000_0F00
  {
  }

  lemma RepackStatusByte0(w: bv32)
    ensures PackStatus(UnpackStatus(w)) & 0x0000_00FF == w & StatusReg.ACTIVE_BIT
  {
  }

  /** Repacking the fields of a STATUS word gives the word without its fault flags. */
  lemma PackUnpackStatus(w: bv32)
    ensures PackStatus(UnpackStatus(w)) == w & !StatusReg.FAULT_FLAGS_MASK
  {
    RepackStatusByte3(w);
    RepackStatusByte2(w);
    RepackStatusPairs7654(w);
    RepackStatusPairs3210(w);
    RepackStatusByte0(w);
  }

  /** The fields of a default-constructed `StatusConfig`. */
  const DEFAULT_STATUS_FIELDS: StatusFields :=
    StatusFields(0, false, false, false, false, false, true, false, false,
      0, 0, 0, 0, false, false, false, false, false, false, false, false)

  /**
   * The global STATUS register: channel on/off bits, fault masks, master
   * clock, channel-pair modes, ACTIVE, and the read-only fault flags.
   */
  class StatusConfig {
    var channelsOnMask: bv8
    var overtemperatureMasked: bool
    var overcurrentMasked: bool
    var openLoadFaultMasked: bool
    var hitNotReachedMasked: bool
    var plungerMovementFaultMasked: bool
    var communicationErrorMasked: bool
    var undervoltageMasked: bool
    var masterClock80khz: bool
    var channelPairMode76: ChannelMode
    var channelPairMode54: ChannelMode
    var channelPairMode32: ChannelMode
    var channelPairMode10: ChannelMode
    var active: bool
    var overtemperature: bool
    var overcurrent: bool
    var openLoadFault: bool
    var hitNotReached: bool
    var plungerMovementFault: bool
    var communicationError: bool
    var undervoltage: bool

    /** All channels off, only COMER masked, 100 kHz clock, independent pairs, inactive, no faults. */
    constructor()
      ensures Fields() == DEFAULT_STATUS_FIELDS
    {
      channelsOnMask := 0;
      overtemperatureMasked := false;
      overcurrentMasked := false;
      openLoadFaultMasked := false;
      hitNotReachedMasked := false;
      plungerMovementFaultMasked := false;
      communicationErrorMasked := true;
      undervoltageMasked := false;
      masterClock80khz := false;
      channelPairMode76 := Independent;
      channelPairMode54 := Independent;
      channelPairMode32 := Independent;
      channelPairMode10 := Independent;
      active := false;
      overtemperature := false;
      overcurrent := false;
      openLoadFault := false;
      hitNotReached := false;
      plungerMovementFault := false;
      communicationError := false;
      undervoltage := false;
    }

    /** The fields as register codes and flags. */
    function Fields(): (f: StatusFields)
      reads this
      ensures f.Fits()
    {
      StatusFields(
        channelsOnMask,
        overtemperatureMasked, overcurrentMasked, openLoadFaultMasked, hitNotReachedMasked,
        plungerMovementFaultMasked, communicationErrorMasked, undervoltageMasked, masterClock80khz,
        ChannelModeCode(channelPairMode76), ChannelModeCode(channelPairMode54),
        ChannelModeCode(channelPairMode32), ChannelModeCode(channelPairMode10),
        active,
        overtemperature, overcurrent, openLoadFault, hitNotReached,
        plungerMovementFault, communicationError, undervoltage)
    }

    /** The STATUS word the driver writes, from the writable fields. */
    function ToRegister(): bv32
      reads this
    {
      PackStatus(Fields())
    }

    /** Every field holds the matching bit range of `w`. */
    predicate Describes(w: bv32)
      reads this
    {
      Fields() == UnpackStatus(w)
    }

    // `FromRegister` overwrites the fields in groups, so that each step's
    // proof only follows a few field updates.

    /** Overwrite the ONCH byte and the upper four fault masks. */
    method DecodeOnchAndMasks(f: StatusFields)
      modifies this`channelsOnMask, this`overtemperatureMasked, this`overcurrentMasked
      modifies this`openLoadFaultMasked, this`hitNotReachedMasked
      ensures channelsOnMask == f.onch
      ensures overtemperatureMasked == f.mOvt && overcurrentMasked == f.mOcp
      ensures openLoadFaultMasked == f.mOlf && hitNotReachedMasked == f.mHhf
    {
      channelsOnMask := f.onch;
      overtemperatureMasked := f.mOvt;
      overcurrentMasked := f.mOcp;
      openLoadFaultMasked := f.mOlf;
      hitNotReachedMasked := f.mHhf;
    }

    /** Overwrite the lower three fault masks and FREQM. */
    method DecodeMasksAndClock(f: StatusFields)
      modifies this`plungerMovementFaultMasked, this`communicationErrorMasked
      modifies this`undervoltageMasked, this`masterClock80khz
      ensures plungerMovementFaultMasked == f.mDpm && communicationErrorMasked == f.mComf
      ensures undervoltageMasked == f.mUvm && masterClock80khz == f.freqm
    {
      plungerMovementFaultMasked := f.mDpm;
      communicationErrorMasked := f.mComf;
      undervoltageMasked := f.mUvm;
      masterClock80khz := f.freqm;
    }

    /** Overwrite the four channel-pair modes. */
    method DecodePairModes(f: StatusFields)
      requires f.Fits()
      modifies this`channelPairMode76, this`channelPairMode54
      modifies this`channelPairMode32, this`channelPairMode10
      ensures ChannelModeCode(channelPairMode76) == f.cm76
      ensures ChannelModeCode(channelPairMode54) == f.cm54
      ensures ChannelModeCode(channelPairMode32) == f.cm32
      ensures ChannelModeCode(channelPairMode10) == f.cm10
    {
      channelPairMode76 := ChannelModeOf(f.cm76);
      channelPairMode54 := ChannelModeOf(f.cm54);
      channelPairMode32 := ChannelModeOf(f.cm32);
      channelPairMode10 := ChannelModeOf(f.cm10);
    }

    /** Overwrite the first four fault flags (OVT, OCP, OLF, HHF). */
    method DecodeFaultsHigh(f: StatusFields)
      modifies this`overtemperature, this`overcurrent, this`openLoadFault, this`hitNotReached
      ensures overtemperature == f.ovt && overcurrent == f.ocp
      ensures openLoadFault == f.olf && hitNotReached == f.hhf
    {
      overtemperature := f.ovt;
      overcurrent := f.ocp;
      openLoadFault := f.olf;
      hitNotReached := f.hhf;
    }

    /** Overwrite the last three fault flags (DPM, COMER, UVM) and ACTIVE. */
    method DecodeFaultsLowAndActive(f: StatusFields)
      modifies this`plungerMovementFault, this`communicationError, this`undervoltage, this`active
      ensures plungerMovementFault == f.dpm && communicationError == f.comer
      ensures undervoltage == f.uvm && active == f.active
    {
      plungerMovementFault := f.dpm;
      communicationError := f.comer;
      undervoltage := f.uvm;
      active := f.active;
    }

    /** Overwrite the writable fields: bytes 3 to 1 of the word. */
    method DecodeControl(f: StatusFields)
      requires f.Fits()
      modifies this`channelsOnMask, this`overtemperatureMasked, this`overcurrentMasked
      modifies this`openLoadFaultMasked, this`hitNotReachedMasked
      modifies this`plungerMovementFaultMasked, this`communicationErrorMasked
      modifies this`undervoltageMasked, this`masterClock80khz
      modifies this`channelPairMode76, this`channelPairMode54
      modifies this`channelPairMode32, this`channelPairMode10
      ensures channelsOnMask == f.onch
      ensures overtemperatureMasked == f.mOvt && overcurrentMasked == f.mOcp
      ensures openLoadFaultMasked == f.mOlf && hitNotReachedMasked == f.mHhf
      ensures plungerMovementFaultMasked == f.mDpm && communicationErrorMasked == f.mComf
      ensures undervoltageMasked == f.mUvm && masterClock80khz == f.freqm
      ensures ChannelModeCode(channelPairMode76) == f.cm76
      ensures ChannelModeCode(channelPairMode54) == f.cm54
      ensures ChannelModeCode(channelPairMode32) == f.cm32
      ensures ChannelModeCode(channelPairMode10) == f.cm10
    {
      DecodeOnchAndMasks(f);
      DecodeMasksAndClock(f);
      DecodePairModes(f);
    }

    /** Overwrite byte 0 of the word: the fault flags and ACTIVE. */
    method DecodeFlags(f: StatusFields)
      modifies this`overtemperature, this`overcurrent, this`openLoadFault, this`hitNotReached
      modifies this`plungerMovementFault, this`communicationError, this`undervoltage, this`active
      ensures overtemperature == f.ovt && overcurrent == f.ocp
      ensures openLoadFault == f.olf && hitNotReached == f.hhf
      ensures plungerMovementFault == f.dpm && communicationError == f.comer
      ensures undervoltage == f.uvm && active == f.active
    {
      DecodeFaultsHigh(f);
      DecodeFaultsLowAndActive(f);
    }

    /** Overwrite every field from the decoded fields `f`. */
    method SetFields(f: StatusFields)
      requires f.Fits()
      modifies this
      ensures Fields() == f
    {
      DecodeControl(f);
      DecodeFlags(f);
    }

    /** Overwrite every field, fault flags included, from a STATUS word. */
    method FromRegister(val: bv32)
      modifies this
      ensures Describes(val)
    {
      SetFields(UnpackStatus(val));
    }

    /** Some fault flag is set. */
    predicate HasFault()
      reads this
    {
      overtemperature || overcurrent || openLoadFault || hitNotReached
      || plungerMovementFault || communicationError || undervoltage
    }

    /** Channel `ch` is switched on by its ONCH bit; false for channels past 7. */
    predicate IsChannelOn(ch: u8)
      reads this
    {
      ch < 8 && BitSet(channelsOnMask, ch)
    }

    /** The number of channels switched on, counted one ONCH bit at a time. */
    method ChannelCountOn() returns (n: u8)
      ensures n == PopCount(channelsOnMask)
      ensures n == |set ch: nat | ch < 8 && IsChannelOn(ch)|
    {
      n := 0;
      for i := 0 to 8
        invariant n == CountBits(channelsOnMask, i)
      {
        CountBitsBound(channelsOnMask, i);
        if BitSet(channelsOnMask, i) {
          n := n + 1;
        }
      }
      PopCountBounds(channelsOnMask);
      assert (set ch: nat | ch < 8 && IsChannelOn(ch)) == SetBits(channelsOnMask, 8);
    }
  }

  /**
   * Decoding `s.ToRegister()` restores every writable field of `s` and
   * leaves the fault flags clear.
   */
  lemma StatusRoundTrip(s: StatusConfig, t: StatusConfig)
    requires t.Describes(s.ToRegister())
    ensures t.Fields() == s.Fields().Writable()
    ensures !t.HasFault()
  {
    UnpackPackStatus(s.Fields());
  }

  /** A configuration read from word `w` writes back `w` without its fault flags. */
  lemma StatusWordRoundTrip(s: StatusConfig, w: bv32)
    requires s.Describes(w)
    ensures s.ToRegister() == w & !StatusReg.FAULT_FLAGS_MASK
  {
    PackUnpackStatus(w);
  }

  /** After reading word `w`, a fault is reported exactly when a fault flag bit of `w` is set. */
  lemma StatusHasFaultIff(s: StatusConfig, w: bv32)
    requires s.Describes(w)
    ensures s.HasFault() <==> w & StatusReg.FAULT_FLAGS_MASK != 0
  {
    var f := UnpackStatus(w);
    if w & StatusReg.FAULT_FLAGS_MASK != 0 {
      assert f.ovt || f.ocp || f.olf || f.hhf || f.dpm || f.comer || f.uvm;
    }
  }

  // ---------------------------------------------------------------------
  // FAULT
  // ---------------------------------------------------------------------

  /** The byte of a register word that starts at bit `shift`. */
  function ByteAt(w: bv32, shift: bv32): bv8
    requires shift < 32
  {
    ((w >> shift) & 0xFF) as bv8
  }

  /**
   * The per-channel fault flags of the FAULT register: one mask per fault
   * kind, bit N standing for channel N.
   */
  class FaultStatus {
    var overcurrentChannelMask: bv8
    var hitNotReachedChannelMask: bv8
    var openLoadFaultChannelMask: bv8
    var plungerMovementFaultChannelMask: bv8

    /** No fault on any channel. */
    constructor()
      ensures overcurrentChannelMask == 0 && hitNotReachedChannelMask == 0
      ensures openLoadFaultChannelMask == 0 && plungerMovementFaultChannelMask == 0
    {
      overcurrentChannelMask := 0;
      hitNotReachedChannelMask := 0;
      openLoadFaultChannelMask := 0;
      plungerMovementFaultChannelMask := 0;
    }

    /** Each mask holds its byte of `w`: OCP, HHF, OLF and DPM from the top down. */
    predicate Describes(w: bv32)
      reads this
    {
      && overcurrentChannelMask == ByteAt(w, FaultReg.OCP_SHIFT)
      && hitNotReachedChannelMask == ByteAt(w, FaultReg.HHF_SHIFT)
      && openLoadFaultChannelMask == ByteAt(w, FaultReg.OLF_SHIFT)
      && plungerMovementFaultChannelMask == ByteAt(w, FaultReg.DPM_SHIFT)
    }

    /** Overwrite the four masks from a FAULT word. */
    method FromRegister(val: bv32)
      modifies this
      ensures Describes(val)
    {
      overcurrentChannelMask := ByteAt(val, FaultReg.OCP_SHIFT);
      hitNotReachedChannelMask := ByteAt(val, FaultReg.HHF_SHIFT);
      openLoadFaultChannelMask := ByteAt(val, FaultReg.OLF_SHIFT);
      plungerMovementFaultChannelMask := ByteAt(val, FaultReg.DPM_SHIFT);
    }

    /** The FAULT word the four masks make up. */
    function Word(): bv32
      reads this
    {
      ((overcurrentChannelMask as bv32) << FaultReg.OCP_SHIFT)
      | ((hitNotReachedChannelMask as bv32) << FaultReg.HHF_SHIFT)
      | ((openLoadFaultChannelMask as bv32) << FaultReg.OLF_SHIFT)
      | ((plungerMovementFaultChannelMask as bv32) << FaultReg.DPM_SHIFT)
    }

    /** The channels with at least one fault of any kind. */
    function ChannelsWithAnyFault(): bv8
      reads this
    {
      overcurrentChannelMask | hitNotReachedChannelMask
      | openLoadFaultChannelMask | plungerMovementFaultChannelMask
    }

    /** Some channel has some fault. */
    predicate HasFault()
      reads this
    {
      ChannelsWithAnyFault() != 0
    }

    /** Channel `ch` has a fault of some kind; false for channels past 7. */
    predicate HasFaultOnChannel(ch: u8)
      reads this
    {
      ch < 8 && BitSet(ChannelsWithAnyFault(), ch)
    }

    predicate HasOvercurrentOnChannel(ch: u8)
      reads this
    {
      ch < 8 && BitSet(overcurrentChannelMask, ch)
    }

    predicate HasHitNotReachedOnChannel(ch: u8)
      reads this
    {
      ch < 8 && BitSet(hitNotReachedChannelMask, ch)
    }

    predicate HasOpenLoadFaultOnChannel(ch: u8)
      reads this
    {
      ch < 8 && BitSet(openLoadFaultChannelMask, ch)
    }

    predicate HasPlungerMovementFaultOnChannel(ch: u8)
      reads this
    {
      ch < 8 && BitSet(plungerMovementFaultChannelMask, ch)
    }

    /** The number of fault flags set among bit positions 0 .. n-1 of the four masks. */
    function FaultCountBelow(n: nat): nat
      reads this
      requires n <= 8
    {
      CountBits(overcurrentChannelMask, n) + CountBits(hitNotReachedChannelMask, n)
      + CountBits(openLoadFaultChannelMask, n) + CountBits(plungerMovementFaultChannelMask, n)
    }

    /** The total number of per-channel fault flags set, counted one bit position at a time. */
    method GetFaultCount() returns (count: u8)
      ensures count == PopCount(overcurrentChannelMask) + PopCount(hitNotReachedChannelMask)
        + PopCount(openLoadFaultChannelMask) + PopCount(plungerMovementFaultChannelMask)
      ensures count <= 32
      ensures count == 0 <==> !HasFault()
    {
      count := 0;
      for i := 0 to 8
        invariant count == FaultCountBelow(i)
      {
        FaultCountBelowBound(this, i);
        FaultCountStep(this, i);
        if BitSet(overcurrentChannelMask, i) {
          count := count + 1;
        }
        if BitSet(hitNotReachedChannelMask, i) {
          count := count + 1;
        }
        if BitSet(openLoadFaultChannelMask, i) {
          count := count + 1;
        }
        if BitSet(plungerMovementFaultChannelMask, i) {
          count := count + 1;
        }
      }
      FaultCountZeroIff(this);
    }
  }

  lemma FaultCountStep(s: FaultStatus, i: nat)
    requires i < 8
    ensures s.FaultCountBelow(i + 1) == s.FaultCountBelow(i)
      + (if BitSet(s.overcurrentChannelMask, i) then 1 else 0)
      + (if BitSet(s.hitNotReachedChannelMask, i) then 1 else 0)
      + (if BitSet(s.openLoadFaultChannelMask, i) then 1 else 0)
      + (if BitSet(s.plungerMovementFaultChannelMask, i) then 1 else 0)
  {
  }

  lemma FaultCountBelowBound(s: FaultStatus, n: nat)
    requires n <= 8
    ensures s.FaultCountBelow(n) <= 4 * n
  {
    CountBitsBound(s.overcurrentChannelMask, n);
    CountBitsBound(s.hitNotReachedChannelMask, n);
    CountBitsBound(s.openLoadFaultChannelMask, n);
    CountBitsBound(s.plungerMovementFaultChannelMask, n);
  }

  /** Every per-channel query answers false for a channel number past 7. */
  lemma ChannelQueriesOutOfRange(st: StatusConfig, s: FaultStatus, ch: u8)
    requires ch >= 8
    ensures !st.IsChannelOn(ch) && !s.HasFaultOnChannel(ch)
    ensures !s.HasOvercurrentOnChannel(ch) && !s.HasHitNotReachedOnChannel(ch)
    ensures !s.HasOpenLoadFaultOnChannel(ch) && !s.HasPlungerMovementFaultOnChannel(ch)
  {
  }

  /** The fault count is at most 32, and zero exactly when no fault is flagged. */
  lemma FaultCountZeroIff(s: FaultStatus)
    ensures s.FaultCountBelow(8) <= 32
    ensures s.FaultCountBelow(8) == 0 <==> !s.HasFault()
  {
    PopCountBounds(s.overcurrentChannelMask);
    PopCountBounds(s.hitNotReachedChannelMask);
    PopCountBounds(s.openLoadFaultChannelMask);
    PopCountBounds(s.plungerMovementFaultChannelMask);
  }

  /** The four masks read from a FAULT word make that word up again. */
  lemma FaultWordRoundTrip(s: FaultStatus, w: bv32)
    requires s.Describes(w)
    ensures s.Word() == w
  {
  }

  /** A channel has some fault exactly when one of the four kinds is flagged on it. */
  lemma FaultOnChannelIff(s: FaultStatus, ch: u8)
    ensures s.HasFaultOnChannel(ch) <==>
      s.HasOvercurrentOnChannel(ch) || s.HasHitNotReachedOnChannel(ch)
      || s.HasOpenLoadFaultOnChannel(ch) || s.HasPlungerMovementFaultOnChannel(ch)
  {
  }

  /** Some fault is flagged exactly when some channel below 8 has one. */
  lemma FaultIffSomeChannel(s: FaultStatus)
    ensures s.HasFault() <==> exists ch: u8 :: s.HasFaultOnChannel(ch)
  {
    ZeroIffNoBitSet(s.ChannelsWithAnyFault());
    if s.HasFault() {
      var i: nat :| i < 8 && BitSet(s.ChannelsWithAnyFault(), i);
      assert s.HasFaultOnChannel(i);
    }
  }

  // ---------------------------------------------------------------------
  // CFG_DPM
  // ---------------------------------------------------------------------

  /** The DPM_ISTART code of a CFG_DPM word (bits 14:8). */
  function IStartBits(w: bv32): bv8
  {
    ((w >> CfgDpmReg.DPM_ISTART_SHIFT) & 0x7F) as bv8
  }

  /** The DPM_TDEB code of a CFG_DPM word (bits 7:4). */
  function TDebBits(w: bv32): bv8
  {
    ((w >> CfgDpmReg.DPM_TDEB_SHIFT) & 0x0F) as bv8
  }

  /** The DPM_IPTH code of a CFG_DPM word (bits 3:0). */
  function IPthBits(w: bv32): bv8
  {
    ((w >> CfgDpmReg.DPM_IPTH_SHIFT) & 0x0F) as bv8
  }

  /** The plunger-movement detection settings of the CFG_DPM register. */
  class DpmConfig {
    var plungerMovementStartCurrent: bv8
    var plungerMovementDebounceTime: bv8
    var plungerMovementCurrentThreshold: bv8

    /** All three settings zero. */
    constructor()
      ensures plungerMovementStartCurrent == 0 && plungerMovementDebounceTime == 0
      ensures plungerMovementCurrentThreshold == 0
    {
      plungerMovementStartCurrent := 0;
      plungerMovementDebounceTime := 0;
      plungerMovementCurrentThreshold := 0;
    }

    /** The CFG_DPM word, with each setting cut to the width of its field. */
    function ToRegister(): bv32
      reads this
    {
      (((plungerMovementStartCurrent & 0x7F) as bv32) << CfgDpmReg.DPM_ISTART_SHIFT)
      | (((plungerMovementDebounceTime & 0x0F) as bv32) << CfgDpmReg.DPM_TDEB_SHIFT)
      | (((plungerMovementCurrentThreshold & 0x0F) as bv32) << CfgDpmReg.DPM_IPTH_SHIFT)
    }

    /** Each setting holds its field of `w`. */
    predicate Describes(w: bv32)
      reads this
    {
      && plungerMovementStartCurrent == IStartBits(w)
      && plungerMovementDebounceTime == TDebBits(w)
      && plungerMovementCurrentThreshold == IPthBits(w)
    }

    /** Overwrite the three settings from a CFG_DPM word. */
    method FromRegister(val: bv32)
      modifies this
      ensures Describes(val)
    {
      plungerMovementStartCurrent := IStartBits(val);
      plungerMovementDebounceTime := TDebBits(val);
      plungerMovementCurrentThreshold := IPthBits(val);
    }
  }

  /** Each field of `d.ToRegister()` holds its setting cut to width, and bits 31:15 are clear. */
  lemma DpmEncodeFields(d: DpmConfig)
    ensures var w := d.ToRegister();
      && IStartBits(w) == d.plungerMovementStartCurrent & 0x7F
      && TDebBits(w) == d.plungerMovementDebounceTime & 0x0F
      && IPthBits(w) == d.plungerMovementCurrentThreshold & 0x0F
      && w & !CfgDpmReg.USED_BITS == 0
  {
  }

  /** Settings that fit their fields are read back unchanged from the word they write. */
  lemma DpmSettingsRoundTrip(d: DpmConfig, e: DpmConfig)
    requires d.plungerMovementStartCurrent <= 0x7F
    requires d.plungerMovementDebounceTime <= 0x0F && d.plungerMovementCurrentThreshold <= 0x0F
    requires e.Describes(d.ToRegister())
    ensures e.plungerMovementStartCurrent == d.plungerMovementStartCurrent
    ensures e.plungerMovementDebounceTime == d.plungerMovementDebounceTime
    ensures e.plungerMovementCurrentThreshold == d.plungerMovementCurrentThreshold
  {
    DpmEncodeFields(d);
  }

  /** Settings read from a CFG_DPM word write back its bits 14:0. */
  lemma DpmWordRoundTrip(d: DpmConfig, w: bv32)
    requires d.Describes(w)
    ensures d.ToRegister() == w & CfgDpmReg.USED_BITS
  {
  }
}
