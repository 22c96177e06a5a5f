/**
 * Enumerations and unit conversions of the MAX22200 driver: drive and side
 * modes, channel-pair modes, the chopping-frequency table, the rounding of a
 * current to the 7-bit current code, and the encoding of a HIT time as the
 * 8-bit HIT time code.  C++ `float` values are modelled as `real`s, so the
 * results are the exact-arithmetic results of the C++ expressions.
 */
module Types {
  import opened Bits

  /** Drive regulation: current (VDRnCDR = 0) or voltage (VDRnCDR = 1). */
  datatype DriveMode = CDR | VDR

  /** Low-side (HSnLS = 0) or high-side (HSnLS = 1) driver. */
  datatype SideMode = LowSide | HighSide

  /**
   * Mode of a channel pair (two-bit CMxy field of STATUS).  `Reserved` is the
   * code 3, which the device reserves; it appears only when a register holding
   * it is decoded.
   */
  datatype ChannelMode = Independent | Parallel | HBridge | Reserved

  function ChannelModeCode(m: ChannelMode): (code: bv8)
    ensures code < 4
  {
    match m
    case Independent => 0
    case Parallel => 1
    case HBridge => 2
    case Reserved => 3
  }

  function ChannelModeOf(code: bv8): (m: ChannelMode)
    requires code < 4
    ensures ChannelModeCode(m) == code
  {
    if code == 0 then Independent
    else if code == 1 then Parallel
    else if code == 2 then HBridge
    else Reserved
  }

  /** Chopping frequency as a divider of the master clock (FREQ_CFG). */
  datatype ChopFreq = FMainDiv4 | FMainDiv3 | FMainDiv2 | FMain

  function ChopFreqCode(cf: ChopFreq): (code: bv8)
    ensures code < 4
  {
    match cf
    case FMainDiv4 => 0
    case FMainDiv3 => 1
    case FMainDiv2 => 2
    case FMain => 3
  }

  function ChopFreqOf(code: bv8): (cf: ChopFreq)
    requires code < 4
    ensures ChopFreqCode(cf) == code
  {
    if code == 0 then FMainDiv4
    else if code == 1 then FMainDiv3
    else if code == 2 then FMainDiv2
    else FMain
  }

  lemma ChopFreqCodeRoundTrip(cf: ChopFreq)
    ensures ChopFreqOf(ChopFreqCode(cf)) == cf
  {
  }

  /** The divider each chopping setting applies to the master clock. */
  function Divider(cf: ChopFreq): nat
  {
    match cf
    case FMainDiv4 => 4
    case FMainDiv3 => 3
    case FMainDiv2 => 2
    case FMain => 1
  }

  /** The master clock in kHz: 80 kHz when FREQM is set, 100 kHz otherwise. */
  function MasterClockKhz(masterClock80khz: bool): nat
  {
    if masterClock80khz then 80 else 100
  }

  /** The chopping frequency in kHz, from the table of the datasheet. */
  function ChopFreqKhz(masterClock80khz: bool, cf: ChopFreq): (khz: nat)
    ensures khz == MasterClockKhz(masterClock80khz) / Divider(cf)
    ensures 20 <= khz <= 100
  {
    match cf
    case FMainDiv4 => if masterClock80khz then 20 else 25
    case FMainDiv3 => if masterClock80khz then 26 else 33
    case FMainDiv2 => if masterClock80khz then 40 else 50
    case FMain => if masterClock80khz then 80 else 100
  }

  /** The eight entries of the chopping-frequency table. */
  lemma ChopFreqTable()
    ensures ChopFreqKhz(false, FMainDiv4) == 25 && ChopFreqKhz(true, FMainDiv4) == 20
    ensures ChopFreqKhz(false, FMainDiv3) == 33 && ChopFreqKhz(true, FMainDiv3) == 26
    ensures ChopFreqKhz(false, FMainDiv2) == 50 && ChopFreqKhz(true, FMainDiv2) == 40
    ensures ChopFreqKhz(false, FMain) == 100 && ChopFreqKhz(true, FMain) == 80
  {
  }

  /** Largest 7-bit current code. */
  const MAX_CURRENT_RAW: u8 := 127

  /**
   * The 7-bit current code for `ma` milliamps at full scale `ifsMa`: zero when
   * no full scale is known, 127 at or above full scale, otherwise the nearest
   * code.  The product `ma * 127` is a `uint32_t` product and wraps at 2^32.
   */
  function CurrentMaToRaw(ifsMa: u32, ma: u32): (raw: u8)
    ensures raw <= MAX_CURRENT_RAW
    ensures ifsMa == 0 ==> raw == 0
    ensures ifsMa != 0 && ma >= ifsMa ==> raw == MAX_CURRENT_RAW
    ensures 0 < ifsMa && ma < ifsMa && ma * 127 + ifsMa / 2 < U32_MODULUS ==>
      -(ifsMa as int) < 2 * ((raw as int) * (ifsMa as int) - 127 * (ma as int)) <= ifsMa as int
  {
    if ifsMa == 0 then 0
    else if ma >= ifsMa then MAX_CURRENT_RAW
    else
      var q := WrappedQuotient(ifsMa, ma);
      NearestQuotient(127 * ma, ifsMa);
      if q > MAX_CURRENT_RAW then MAX_CURRENT_RAW else q
  }

  /** The `uint32_t` sum `ma * 127 + ifsMa / 2`, wrapped at 2^32, divided by `ifsMa`. */
  function WrappedQuotient(ifsMa: nat, ma: nat): (q: nat)
    requires ifsMa > 0
    ensures ma * 127 + ifsMa / 2 < U32_MODULUS ==> q == (127 * ma + ifsMa / 2) / ifsMa
  {
    ((ma * 127 + ifsMa / 2) % U32_MODULUS) / ifsMa
  }

  lemma MulMonotone(a: nat, b: nat, d: nat)
    requires a <= b
    ensures a * d <= b * d
  {
  }

  /** `(n + d/2) / d` is the quotient nearest to `n / d`; below 127 when `n / d` is. */
  lemma NearestQuotient(n: nat, d: nat)
    requires d > 0
    ensures -(d as int) < 2 * ((n + d / 2) / d * d - n) <= d
    ensures n < 127 * d ==> (n + d / 2) / d <= 127
  {
    var h := d / 2;
    var q := (n + h) / d;
    var r := (n + h) % d;
    var qd := q * d;
    assert n + h == qd + r && 0 <= r < d;
    assert 2 * h <= d <= 2 * h + 1;
    if n < 127 * d && q > 127 {
      MulMonotone(128, q, d);
      assert false;
    }
  }

  /** Worked values at a 1000 mA full scale. */
  lemma CurrentMaToRawExamples()
    ensures CurrentMaToRaw(1000, 630) == 80
    ensures CurrentMaToRaw(1000, 315) == 40
    ensures CurrentMaToRaw(1000, 500) == 64
  {
  }

  /**
   * The C++ conversion of a non-negative-enough `float` to `uint32_t`: it
   * truncates toward zero and is undefined outside (-1, 2^32).
   */
  function TruncToU32(x: real): (r: u32)
    requires -1.0 < x < U32_MODULUS as real
    ensures x >= 0.0 ==> r as real <= x < r as real + 1.0
    ensures x < 0.0 ==> r == 0
  {
    if x < 0.0 then 0 else x.Floor
  }

  /** HIT-time values at or above this many milliseconds mean "continuous". */
  const CONTINUOUS_HIT_MS: real := 1000000.0

  /**
   * The 8-bit HIT time code for `ms` milliseconds: 255 (continuous) for a
   * negative or huge time, 0 for no HIT time, otherwise the number of chopping
   * periods of 40 / fCHOP rounded to nearest, at least 1 and with any rounded
   * count above 254 turned into 255.
   */
  function HitTimeMsToRaw(ms: real, masterClock80khz: bool, cf: ChopFreq): (raw: u8)
    ensures ms < 0.0 || ms >= CONTINUOUS_HIT_MS ==> raw == 255
    ensures ms == 0.0 ==> raw == 0
    ensures 0.0 < ms < CONTINUOUS_HIT_MS ==> 1 <= raw
    ensures 0.0 < ms < CONTINUOUS_HIT_MS && 1 < raw < 255 ==>
      var periods := ms * ChopFreqKhz(masterClock80khz, cf) as real / 40.0;
      raw as real - 0.5 <= periods < raw as real + 0.5
    ensures 0.0 < ms < CONTINUOUS_HIT_MS && raw == 1 ==>
      ms * ChopFreqKhz(masterClock80khz, cf) as real / 40.0 < 1.5
    ensures 0.0 < ms < CONTINUOUS_HIT_MS && raw == 255 ==>
      ms * ChopFreqKhz(masterClock80khz, cf) as real / 40.0 >= 254.5
  {
    var khz := ChopFreqKhz(masterClock80khz, cf);
    if ms < 0.0 || ms >= CONTINUOUS_HIT_MS then 255
    else if ms == 0.0 then 0
    else
      var hz := khz as real * 1000.0;
      var r := TruncToU32((ms / 1000.0) * hz / 40.0 + 0.5);
      if r > 254 then 255 else if r == 0 then 1 else r
  }

  /** 100 ms at the default 25 kHz chopping frequency is 63 periods. */
  lemma HitTimeExample()
    ensures HitTimeMsToRaw(100.0, false, FMainDiv4) == 63
  {
  }

  /**
   * The HIT time in milliseconds that a HIT time code stands for: 0 for 0,
   * -1 (continuous) for 255, otherwise the code times 40 chopping periods.
   */
  function HitTimeRawToMs(raw: u8, masterClock80khz: bool, cf: ChopFreq): (ms: real)
    ensures raw == 0 ==> ms == 0.0
    ensures raw == 255 ==> ms == -1.0
    ensures 0 < raw < 255 ==> 0.0 < ms < CONTINUOUS_HIT_MS
  {
    if raw == 0 then 0.0
    else if raw == 255 then -1.0
    else
      var hz := ChopFreqKhz(masterClock80khz, cf) as real * 1000.0;
      (raw as real * 40.0 / hz) * 1000.0
  }

  /** Decoding a HIT time code and encoding the result gives the code back. */
  lemma HitTimeRoundTrip(raw: u8, masterClock80khz: bool, cf: ChopFreq)
    ensures HitTimeMsToRaw(HitTimeRawToMs(raw, masterClock80khz, cf), masterClock80khz, cf) == raw
  {
    if 0 < raw < 255 {
      var khz := ChopFreqKhz(masterClock80khz, cf) as real;
      var ms := HitTimeRawToMs(raw, masterClock80khz, cf);
      assert ms == raw as real * 40.0 / khz;
      assert (ms / 1000.0) * (khz * 1000.0) / 40.0 + 0.5 == raw as real + 0.5;
    }
  }

  /**
   * Largest full scale, in mA, for which `CurrentMaToRaw` cannot wrap: every
   * `ma <= ifsMa` then keeps `ma * 127 + ifsMa / 2` below 2^32.
   */
  const IFS_LIMIT_MA: int := 0x200_0000

  /**
   * The 7-bit HIT or HOLD code of a channel configuration.  In CDR mode
   * `value` is a current in mA, rounded to whole mA and then to the nearest
   * code of the full scale `ifsMa`; in VDR mode it is a duty cycle in percent,
   * with 100 % mapped to code 127.  A CDR current of -1.5 mA or less would
   * make the C++ float-to-unsigned conversion undefined and is excluded.
   */
  function CurrentFieldRaw(value: real, mode: DriveMode, ifsMa: u32): (raw: u8)
    requires mode == CDR && ifsMa != 0 ==> value > -1.5
    ensures raw <= MAX_CURRENT_RAW
    ensures mode == CDR && ifsMa == 0 ==> raw == 0
    ensures mode == CDR && ifsMa != 0 && value >= ifsMa as real ==> raw == MAX_CURRENT_RAW
    ensures mode == VDR && value <= 0.0 ==> raw == 0
    ensures mode == VDR && value >= 100.0 ==> raw == MAX_CURRENT_RAW
    ensures mode == VDR && 0.0 < value < 100.0 ==>
      raw as real - 0.5 <= value * 127.0 / 100.0 < raw as real + 0.5
  {
    match mode
    case CDR => CdrRaw(value, ifsMa)
    case VDR => VdrRaw(value)
  }

  /** The CDR branch of `CurrentFieldRaw`. */
  function CdrRaw(value: real, ifsMa: u32): (raw: u8)
    requires ifsMa != 0 ==> value > -1.5
    ensures raw <= MAX_CURRENT_RAW
    ensures ifsMa == 0 ==> raw == 0
    ensures ifsMa != 0 && value >= ifsMa as real ==> raw == MAX_CURRENT_RAW
  {
    if ifsMa == 0 then 0
    else if value >= ifsMa as real then MAX_CURRENT_RAW
    else
      var ma := TruncToU32(value + 0.5);
      var raw := CurrentMaToRaw(ifsMa, ma);
      raw
  }

  /** The VDR branch of `CurrentFieldRaw`. */
  function VdrRaw(value: real): (raw: u8)
    ensures raw <= MAX_CURRENT_RAW
    ensures value <= 0.0 ==> raw == 0
    ensures value >= 100.0 ==> raw == MAX_CURRENT_RAW
    ensures 0.0 < value < 100.0 ==> raw as real - 0.5 <= value * 127.0 / 100.0 < raw as real + 0.5
  {
    if value <= 0.0 then 0
    else if value >= 100.0 then MAX_CURRENT_RAW
    else
      var x := (value / 100.0) * 127.0;
      assert x == value * 127.0 / 100.0;
      var r := TruncToU32(x + 0.5);
      if r > MAX_CURRENT_RAW then MAX_CURRENT_RAW else r
  }

  /**
   * In CDR mode, rounding to whole mA and then to the nearest code leaves the
   * code within (ifsMa + 127) / 2 mA-codes of the exact value 127 * value / ifsMa.
   */
  lemma CdrAccuracy(value: real, ifsMa: u32)
    requires 0 < ifsMa <= IFS_LIMIT_MA && 0.0 <= value < ifsMa as real
    ensures var err := 2.0 * (CdrRaw(value, ifsMa) as real * ifsMa as real - 127.0 * value);
      -(ifsMa as real + 127.0) <= err <= ifsMa as real + 127.0
  {
    var ma := TruncToU32(value + 0.5);
    RoundingAccuracy(value, ifsMa, ma, CurrentMaToRaw(ifsMa, ma));
  }

  /** The two roundings of `CdrRaw`, with the rounded values named. */
  lemma RoundingAccuracy(value: real, ifsMa: u32, ma: u32, raw: u8)
    requires 0 < ifsMa <= IFS_LIMIT_MA && 0.0 <= value < ifsMa as real
    requires ma == TruncToU32(value + 0.5) && raw == CurrentMaToRaw(ifsMa, ma)
    ensures var err := 2.0 * (raw as real * ifsMa as real - 127.0 * value);
      -(ifsMa as real + 127.0) <= err <= ifsMa as real + 127.0
  {
    assert ma <= ifsMa;
    assert -0.5 <= ma as real - value <= 0.5;
    if ma < ifsMa {
      assert ma * 127 + ifsMa / 2 < U32_MODULUS;
      var e := 2 * (raw * ifsMa - 127 * ma);
      assert -(ifsMa as int) <= e <= ifsMa as int;
      ProductAsReal(raw, ifsMa);
      assert e as real == 2.0 * (raw as real * ifsMa as real) - 254.0 * ma as real;
    }
  }

  lemma ProductAsReal(a: int, b: int)
    ensures (a * b) as real == a as real * b as real
  {
  }

  /**
   * The current or duty value that a 7-bit code stands for, as decoded from a
   * channel configuration register: a fraction code/127 of the full scale in
   * CDR mode (0 when no full scale is known), of 100 % in VDR mode.
   */
  function DecodeCurrent(raw: u8, mode: DriveMode, ifsMa: u32): (value: real)
    requires raw <= MAX_CURRENT_RAW
    ensures 0.0 <= value
    ensures mode == CDR ==> value <= ifsMa as real
    ensures mode == VDR ==> value <= 100.0
  {
    match mode
    case CDR => if ifsMa > 0 then ScaledCode(raw, ifsMa as real) else 0.0
    case VDR => ScaledCode(raw, 100.0)
  }

  /** The fraction code/127 of `scale`, as the C++ computes it. */
  function ScaledCode(raw: u8, scale: real): (value: real)
    requires raw <= MAX_CURRENT_RAW && 0.0 <= scale
    ensures 0.0 <= value <= scale
    ensures raw < MAX_CURRENT_RAW && 0.0 < scale ==> value < scale
    ensures 127.0 * value == raw as real * scale
  {
    var fraction := raw as real / 127.0;
    FractionOf(fraction, scale);
    assert 127.0 * (fraction * scale) == (127.0 * fraction) * scale;
    fraction * scale
  }

  lemma PositiveProduct(a: real, b: real)
    requires 0.0 < a && 0.0 < b
    ensures 0.0 < a * b
  {
  }

  lemma RatioAtMostOne(a: real, b: real)
    requires 0.0 <= a <= b && 0.0 < b
    ensures 0.0 <= a / b <= 1.0
  {
  }

  lemma FractionOf(a: real, b: real)
    requires 0.0 <= a <= 1.0 && 0.0 <= b
    ensures 0.0 <= a * b <= b
    ensures a < 1.0 && 0.0 < b ==> a * b < b
  {
    assert (1.0 - a) * b == b - a * b;
    if a < 1.0 && 0.0 < b {
      PositiveProduct(1.0 - a, b);
    }
  }

  /**
   * Decoding a 7-bit code and encoding the value gives the code back, in VDR
   * mode always and in CDR mode whenever the full scale is coarser than the
   * code step (more than 127 mA) and cannot overflow.
   */
  lemma CurrentRoundTrip(raw: u8, mode: DriveMode, ifsMa: u32)
    requires raw <= MAX_CURRENT_RAW
    requires mode == CDR ==> 128 <= ifsMa <= IFS_LIMIT_MA
    ensures CurrentFieldRaw(DecodeCurrent(raw, mode, ifsMa), mode, ifsMa) == raw
  {
    match mode
    case CDR =>
      if raw < MAX_CURRENT_RAW {
        CdrRoundTrip(raw, ifsMa);
      }
    case VDR =>
      if 0 < raw < MAX_CURRENT_RAW {
        var v := DecodeCurrent(raw, mode, ifsMa);
        assert v * 127.0 / 100.0 == raw as real;
      }
  }

  lemma CdrRoundTrip(raw: u8, ifsMa: u32)
    requires raw < MAX_CURRENT_RAW
    requires 128 <= ifsMa <= IFS_LIMIT_MA
    ensures CdrRaw(DecodeCurrent(raw, CDR, ifsMa), ifsMa) == raw
  {
    DecodeBelowFullScale(raw, ifsMa);
    CdrRecoversCode(raw, ifsMa, DecodeCurrent(raw, CDR, ifsMa));
  }

  /** A CDR value that is exactly the value of a code below 127 encodes to that code. */
  lemma CdrRecoversCode(raw: u8, ifsMa: u32, v: real)
    requires raw < MAX_CURRENT_RAW && 128 <= ifsMa <= IFS_LIMIT_MA
    requires 127.0 * v == raw as real * ifsMa as real && 0.0 <= v < ifsMa as real
    ensures CdrRaw(v, ifsMa) == raw
  {
    var ma := TruncToU32(v + 0.5);
    NearestMa(raw, ifsMa, v, ma);
    assert ma * 127 + ifsMa / 2 < U32_MODULUS;
    CodeOfNearestMa(CurrentMaToRaw(ifsMa, ma), raw, ifsMa, ma);
  }

  /**
   * Rounding the value of a code below 127 to whole mA stays below full scale
   * and within 63 of the code's multiple `raw * ifsMa / 127`, in units of 1/127 mA.
   */
  lemma NearestMa(raw: u8, ifsMa: u32, v: real, ma: u32)
    requires raw < MAX_CURRENT_RAW && 128 <= ifsMa
    requires 127.0 * v == raw as real * ifsMa as real && 0.0 <= v < ifsMa as real
    requires ma == TruncToU32(v + 0.5)
    ensures ma < ifsMa
    ensures -63 <= 127 * ma - raw * ifsMa <= 63
  {
    var d := 127 * ma - raw * ifsMa;
    assert d as real == 127.0 * (ma as real - v);
    MulMonotone(raw, 126, ifsMa);
  }

  /**
   * The nearest code to `127 * ma / ifs` is `raw` when `127 * ma` is within 63
   * of `raw * ifs` and the full scale is above 127 mA.
   */
  lemma CodeOfNearestMa(back: int, raw: int, ifs: int, ma: int)
    requires ifs >= 128
    requires -ifs <= 2 * (back * ifs - 127 * ma) <= ifs
    requires -63 <= 127 * ma - raw * ifs <= 63
    ensures back == raw
  {
    var d := back - raw;
    assert d * ifs == (back * ifs - 127 * ma) + (127 * ma - raw * ifs);
    MulSign(d, ifs);
  }

  /** A non-zero integer multiple of `n` is at least `n` away from zero. */
  lemma MulSign(d: int, n: nat)
    ensures d >= 1 ==> d * n >= n
    ensures d <= -1 ==> d * n <= -(n as int)
  {
    if d >= 1 {
      MulMonotone(1, d, n);
    } else if d <= -1 {
      MulMonotone(1, -d, n);
      assert (-d) * n == -(d * n);
    }
  }

  /** A code below 127 decodes to `code * ifs / 127`, strictly below full scale. */
  lemma DecodeBelowFullScale(raw: u8, ifsMa: u32)
    requires raw < MAX_CURRENT_RAW && 0 < ifsMa
    ensures 127.0 * DecodeCurrent(raw, CDR, ifsMa) == raw as real * ifsMa as real
    ensures DecodeCurrent(raw, CDR, ifsMa) < ifsMa as real
  {
    assert DecodeCurrent(raw, CDR, ifsMa) == ScaledCode(raw, ifsMa as real);
  }

  /**
   * State of an H-bridge formed by a channel pair (x, y) = (2p, 2p+1):
   * HiZ leaves both off, Forward turns on x only, Reverse y only, Brake both.
   */
  datatype FullBridgeState = HiZ | Forward | Reverse | Brake

  /** The two ONCH bits of a pair for a bridge state: bit 0 is channel x, bit 1 channel y. */
  function FullBridgeBits(s: FullBridgeState): (bits: bv8)
    ensures bits < 4
    ensures (bits & 1 != 0) <==> (s == Forward || s == Brake)
    ensures (bits & 2 != 0) <==> (s == Reverse || s == Brake)
  {
    match s
    case HiZ => 0
    case Forward => 1
    case Reverse => 2
    case Brake => 3
  }

  /** Each bridge state has its own pair of ONCH bits. */
  lemma FullBridgeBitsInjective(s: FullBridgeState, t: FullBridgeState)
    requires FullBridgeBits(s) == FullBridgeBits(t)
    ensures s == t
  {
  }

  /** Outcome of every driver operation. */
  datatype DriverStatus =
    | Ok
    | InitializationError
    | CommunicationError
    | InvalidParameter
    | HardwareFault
    | Timeout

  /** The duty-cycle window the device accepts in VDR mode, in percent. */
  datatype DutyLimits = DutyLimits(minPercent: u8, maxPercent: u8)
  {
    predicate InRange(percent: real)
    {
      minPercent as real <= percent <= maxPercent as real
    }

    /** `percent` moved into the window; a value already inside is kept. */
    function Clamp(percent: real): (r: real)
      ensures minPercent <= maxPercent ==> InRange(r)
      ensures InRange(percent) ==> r == percent
      ensures percent <= minPercent as real ==> r == minPercent as real
      ensures minPercent <= maxPercent && percent >= maxPercent as real ==> r == maxPercent as real
    {
      if percent <= minPercent as real then minPercent as real
      else if percent >= maxPercent as real then maxPercent as real
      else percent
    }
  }

  /** The window of a default-constructed `DutyLimits`. */
  const DEFAULT_DUTY_LIMITS: DutyLimits := DutyLimits(4, 96)

  /** Clamping twice is clamping once. */
  lemma ClampIdempotent(d: DutyLimits, percent: real)
    requires d.minPercent <= d.maxPercent
    ensures d.Clamp(d.Clamp(percent)) == d.Clamp(percent)
  {
  }

  /** The clamped value is the point of the window nearest to the input. */
  lemma ClampNearest(d: DutyLimits, percent: real, q: real)
    requires d.minPercent <= d.maxPercent && d.InRange(q)
    ensures Dist(d.Clamp(percent), percent) <= Dist(q, percent)
  {
  }

  function Dist(a: real, b: real): real
  {
    if a >= b then a - b else b - a
  }

  /**
   * Board-level settings: the full-scale current set by the RREF resistor,
   * an optional current limit and an optional duty limit (0 = no limit).
   */
  datatype BoardConfig = BoardConfig(fullScaleCurrentMa: u32, maxCurrentMa: u32, maxDutyPercent: u8)
  {
    predicate HasMaxCurrentLimit()
    {
      maxCurrentMa > 0
    }

    predicate HasMaxDutyLimit()
    {
      maxDutyPercent > 0
    }

    predicate HasIfsConfigured()
    {
      fullScaleCurrentMa > 0
    }
  }

  /** A default-constructed `BoardConfig`: 1000 mA full scale, no limits. */
  const DEFAULT_BOARD_CONFIG: BoardConfig := BoardConfig(1000, 0, 0)

  /** Transfer and event counters kept by the driver; all are `uint32_t`. */
  datatype DriverStatistics = DriverStatistics(
    totalTransfers: u32,
    failedTransfers: u32,
    faultEvents: u32,
    stateChanges: u32,
    uptimeMs: u32)
  {
    predicate HasFailures()
    {
      failedTransfers != 0
    }

    predicate IsHealthy()
    {
      failedTransfers == 0
    }

    /**
     * Percentage of transfers that succeeded, 100 before any transfer.  The
     * difference of the two counters is a `uint32_t` difference.
     */
    function SuccessRate(): (r: real)
      ensures totalTransfers == 0 ==> r == 100.0
      ensures failedTransfers <= totalTransfers ==> 0.0 <= r <= 100.0
      ensures failedTransfers == 0 ==> r == 100.0
      ensures 0 < totalTransfers && failedTransfers == totalTransfers ==> r == 0.0
    {
      if totalTransfers == 0 then 100.0
      else
        var ok := (totalTransfers - failedTransfers) % U32_MODULUS;
        var fraction := ok as real / totalTransfers as real;
        if failedTransfers <= totalTransfers then
          RatioAtMostOne(ok as real, totalTransfers as real);
          assert failedTransfers == 0 ==> ok == totalTransfers && fraction == 1.0;
          FractionOf(fraction, 100.0);
          fraction * 100.0
        else
          fraction * 100.0
    }

    /** The counters after one more transfer, successful or not. */
    function Recorded(success: bool): (s: DriverStatistics)
      ensures s.totalTransfers == Inc32(totalTransfers)
      ensures s.failedTransfers == if success then failedTransfers else Inc32(failedTransfers)
      ensures s.faultEvents == faultEvents && s.stateChanges == stateChanges && s.uptimeMs == uptimeMs
    {
      var counted := this.(totalTransfers := Inc32(totalTransfers));
      if success then counted else counted.(failedTransfers := Inc32(failedTransfers))
    }
  }

  /** A default-constructed `DriverStatistics`: every counter zero. */
  const ZERO_STATISTICS: DriverStatistics := DriverStatistics(0, 0, 0, 0, 0)

  /** Until the total counter wraps, no more transfers have failed than were made. */
  lemma RecordedKeepsFailedBelowTotal(st: DriverStatistics, success: bool)
    requires st.failedTransfers <= st.totalTransfers < U32_MODULUS - 1
    ensures st.Recorded(success).failedTransfers <= st.Recorded(success).totalTransfers
    ensures st.Recorded(success).IsHealthy() <==> st.IsHealthy() && success
  {
  }
}
