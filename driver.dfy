/**
 * The MAX22200 controller: the driver object that owns the cached STATUS
 * register, the last fault byte, the transfer statistics and the board
 * configuration, and talks to the device over an abstract transport.
 *
 * Every register access is the device's two-phase protocol: a command phase
 * (CMD high, one byte out, the fault byte STATUS[7:0] back) followed, if it
 * succeeded, by a data phase of four bytes or of the most significant byte.
 */
module Driver {
  import opened Bits
  import opened Types
  import opened Transport
  import opened RegisterStructs
  import RegBank
  import CommandReg
  import StatusReg
  import Registers

  /** Number of driver attempts at the STATUS handshake of `Initialize`. */
  const MAX_INIT_ATTEMPTS: nat := 3

  /** Power-up delay after ENABLE goes high before SPI is ready (tEN = 0.5 ms), in microseconds. */
  const POWER_UP_DELAY_US: nat := 500

  /** SPI mode 0: clock idle low, data sampled on the leading edge. */
  const SPI_MODE: nat := 0

  /** The STATUS fields `Initialize` writes: the defaults (only COMER masked, all off, independent pairs), ACTIVE set. */
  const INIT_STATUS: StatusFields := DEFAULT_STATUS_FIELDS.(active := true)

  /** The STATUS word `Initialize` writes: M_COMF and ACTIVE, the packing of `INIT_STATUS`. */
  const INIT_STATUS_WORD: bv32 := 0x0004_0001

  /** The Command Register byte for a full-register write of STATUS. */
  const STATUS_WRITE_CMD: bv8 := CommandReg.Build(RegBank.STATUS, true, false)

  /** `INIT_STATUS` packs to `INIT_STATUS_WORD`, and unpacking that word gives `INIT_STATUS` back. */
  lemma InitStatusWord()
    ensures PackStatus(INIT_STATUS) == StatusReg.M_COMF_BIT | StatusReg.ACTIVE_BIT
    ensures PackStatus(INIT_STATUS) == INIT_STATUS_WORD
    ensures UnpackStatus(PackStatus(INIT_STATUS)) == INIT_STATUS
  {
    UnpackPackStatus(INIT_STATUS);
  }

  // ---------------------------------------------------------------------
  // The shape of one register access on the bus
  // ---------------------------------------------------------------------

  /** A command phase: CMD raised, the command byte transferred, CMD lowered. */
  function CommandEvents(cmd: bv8): seq<BusEvent>
  {
    [SetPin(CmdPin, true), CommandPhase(cmd), SetPin(CmdPin, false)]
  }

  /** One register access: the command phase, then the data phase if the command phase succeeded. */
  function Transaction(cmd: bv8, data: BusEvent, cmdOk: bool): (t: seq<BusEvent>)
    ensures |t| == if cmdOk then 4 else 3
  {
    CommandEvents(cmd) + (if cmdOk then [data] else [])
  }

  /** A lone command phase counts one command phase and no data phase. */
  lemma CommandEventsPhases(cmd: bv8)
    ensures CommandPhases(CommandEvents(cmd)) == 1
    ensures FullDataPhases(CommandEvents(cmd)) == 0 && ShortDataPhases(CommandEvents(cmd)) == 0
  {
    var x, y, z := SetPin(CmdPin, true), CommandPhase(cmd), SetPin(CmdPin, false);
    assert [x, y, z][..2] == [x, y] && [x, y][..1] == [x] && [x][..0] == [];
    assert CommandPhases([x]) == 0 && FullDataPhases([x]) == 0 && ShortDataPhases([x]) == 0;
    assert CommandPhases([x, y]) == 1 && FullDataPhases([x, y]) == 0 && ShortDataPhases([x, y]) == 0;
  }

  /**
   * A register access has one command phase, and a data phase of the kind
   * asked for exactly when the command phase succeeded.
   */
  lemma TransactionPhases(cmd: bv8, data: BusEvent, cmdOk: bool)
    requires data.Write32Phase? || data.Read32Phase? || data.Write8Phase? || data.Read8Phase?
    ensures CommandPhases(Transaction(cmd, data, cmdOk)) == 1
    ensures FullDataPhases(Transaction(cmd, data, cmdOk)) ==
      (if cmdOk && (data.Write32Phase? || data.Read32Phase?) then 1 else 0)
    ensures ShortDataPhases(Transaction(cmd, data, cmdOk)) ==
      (if cmdOk && (data.Write8Phase? || data.Read8Phase?) then 1 else 0)
  {
    CommandEventsPhases(cmd);
    if cmdOk {
      PhasesSnoc(CommandEvents(cmd), data);
    } else {
      assert Transaction(cmd, data, cmdOk) == CommandEvents(cmd);
    }
  }

  /** A register access holds exactly one command phase, the one with its own command byte. */
  lemma TransactionCommands(cmd: bv8, data: BusEvent, cmdOk: bool, e: BusEvent)
    requires e.CommandPhase? && !data.CommandPhase?
    ensures Occurrences(Transaction(cmd, data, cmdOk), e) == if e == CommandPhase(cmd) then 1 else 0
  {
    CommandEventsCommands(cmd, e);
    if cmdOk {
      OccurrencesAppend(CommandEvents(cmd), [data], e);
      OccurrencesSingle(data, e);
    } else {
      assert Transaction(cmd, data, cmdOk) == CommandEvents(cmd);
    }
  }

  /** A command phase carries its own command byte once and no other. */
  lemma CommandEventsCommands(cmd: bv8, e: BusEvent)
    requires e.CommandPhase?
    ensures Occurrences(CommandEvents(cmd), e) == if e == CommandPhase(cmd) then 1 else 0
  {
    var x, y, z := SetPin(CmdPin, true), CommandPhase(cmd), SetPin(CmdPin, false);
    OccurrencesSingle(x, e);
    OccurrencesSingle(y, e);
    OccurrencesSingle(z, e);
    OccurrencesAppend([x], [y], e);
    OccurrencesAppend([x, y], [z], e);
    assert [x] + [y] == [x, y];
    assert [x, y] + [z] == CommandEvents(cmd);
  }

  /** `b` with the ONCH bits of channel pair `p`, channels 2p and 2p+1, set from bits 0 and 1 of `bits`. */
  function WithPair(b: bv8, p: nat, bits: bv8): bv8
    requires p < 4
  {
    WithBit(WithBit(b, 2 * p, bits & 1 != 0), 2 * p + 1, bits & 2 != 0)
  }

  /** `WithPair` puts bit 0 of `bits` on the lower channel, bit 1 on the upper, and keeps the other six. */
  lemma WithPairBits(b: bv8, p: nat, bits: bv8)
    requires p < 4
    ensures BitSet(WithPair(b, p, bits), 2 * p) == (bits & 1 != 0)
    ensures BitSet(WithPair(b, p, bits), 2 * p + 1) == (bits & 2 != 0)
    ensures forall j: nat :: j < 8 && j != 2 * p && j != 2 * p + 1 ==>
      BitSet(WithPair(b, p, bits), j) == BitSet(b, j)
  {
    var lower := WithBit(b, 2 * p, bits & 1 != 0);
    WithBitBits(b, 2 * p, bits & 1 != 0);
    WithBitBits(lower, 2 * p + 1, bits & 2 != 0);
  }

  /** Which of a channel's two current codes an operation works on. */
  datatype CurrentSetting = HitCurrent | HoldCurrent

  /** The code of `setting` in a channel's fields. */
  function CurrentCode(f: ChannelFields, setting: CurrentSetting): bv8
  {
    match setting
    case HitCurrent => f.hit
    case HoldCurrent => f.hold
  }

  /** A CFG_CHx word with the code of `setting` replaced by `code`. */
  function WithCurrentCode(w: bv32, setting: CurrentSetting, code: bv8): bv32
  {
    var f := UnpackChannel(w);
    PackChannel(match setting
      case HitCurrent => f.(hit := code)
      case HoldCurrent => f.(hold := code))
  }

  /** Replacing a 7-bit current code changes that field of the word and no other. */
  lemma CurrentCodeReplaced(w: bv32, setting: CurrentSetting, code: bv8)
    requires code <= 0x7F
    ensures UnpackChannel(WithCurrentCode(w, setting, code)) ==
      match setting
      case HitCurrent => UnpackChannel(w).(hit := code)
      case HoldCurrent => UnpackChannel(w).(hold := code)
  {
    var f := UnpackChannel(w);
    match setting
    case HitCurrent => UnpackPackChannel(f.(hit := code));
    case HoldCurrent => UnpackPackChannel(f.(hold := code));
  }

  /**
   * What a read of the channel register gives back after the code of
   * `setting` was replaced: the code itself, which then reads as
   * `CodeToMa(code, ifsMa)` mA.
   */
  lemma CurrentCodeReadBack(w: bv32, setting: CurrentSetting, code: u8)
    requires code <= MAX_CURRENT_RAW
    ensures CodeOf(CurrentCode(UnpackChannel(WithCurrentCode(w, setting, ByteOf(code))), setting)) == code
  {
    CurrentCodeReplaced(w, setting, ByteOf(code));
    CodeOfByte(code);
  }

  /**
   * The current in mA that a 7-bit code stands for at full scale `ifsMa`:
   * code / 127 of full scale, truncated to whole mA.
   */
  function CodeToMa(code: u8, ifsMa: u32): (ma: u32)
    requires code <= MAX_CURRENT_RAW
    ensures ma <= ifsMa
  {
    MulMonotone(code, MAX_CURRENT_RAW, ifsMa);
    code * ifsMa / 127
  }

  /**
   * Setting a current in mA and reading it back gives it to within half a
   * code step plus one mA: a code step is ifsMa / 127 mA.
   */
  lemma CurrentReadBack(ifsMa: u32, ma: u32)
    requires 0 < ifsMa <= IFS_LIMIT_MA && ma < ifsMa
    ensures var back := CodeToMa(CurrentMaToRaw(ifsMa, ma), ifsMa);
      -(ifsMa as int) - 254 < 254 * (back - ma) <= ifsMa
  {
    var raw := CurrentMaToRaw(ifsMa, ma);
    var back := CodeToMa(raw, ifsMa);
    assert ma * 127 + ifsMa / 2 < U32_MODULUS;
    assert -(ifsMa as int) <= 2 * (raw * ifsMa - 127 * ma) <= ifsMa;
    assert 127 * back <= raw * ifsMa < 127 * back + 127;
  }

  /**
   * The current actually asked of the device for a request of `ma`: the
   * request, cut down to the board's current limit when one is set.
   */
  function LimitedCurrent(board: BoardConfig, ma: u32): (m: u32)
    ensures m <= ma
    ensures board.HasMaxCurrentLimit() ==> m <= board.maxCurrentMa
    ensures (!board.HasMaxCurrentLimit() || ma <= board.maxCurrentMa) ==> m == ma
  {
    if board.HasMaxCurrentLimit() && ma > board.maxCurrentMa then board.maxCurrentMa else ma
  }

  /** A whole number of mA is encoded in CDR mode exactly as `CurrentMaToRaw` encodes it. */
  lemma CdrRawWhole(ma: u32, ifsMa: u32)
    ensures CurrentFieldRaw(ma as real, CDR, ifsMa) == CurrentMaToRaw(ifsMa, ma)
  {
    if ifsMa != 0 && (ma as real) < ifsMa as real {
      var t := TruncToU32(ma as real + 0.5);
      assert t as real <= ma as real + 0.5 < t as real + 1.0;
      assert t == ma;
    }
  }

  /**
   * The CFG_CHx fields of a CDR channel configured in whole mA: the HIT and
   * HOLD codes are the nearest codes of the full scale, HFS and TRGnSPI are
   * off, and the other settings are taken as given.
   */
  function CdrChannelFields(
    ifsMa: u32, freqm: bool, hitMa: u32, holdMa: u32, hitTimeMs: real,
    side: SideMode, chop: ChopFreq, src: bool, ol: bool, dpm: bool, hhf: bool): (f: ChannelFields)
    ensures f.Fits() && !f.vdr && !f.hfs && !f.trg
    ensures CodeOf(f.hit) == CurrentMaToRaw(ifsMa, hitMa)
    ensures CodeOf(f.hold) == CurrentMaToRaw(ifsMa, holdMa)
    ensures CodeOf(f.hitTime) == HitTimeMsToRaw(hitTimeMs, freqm, chop)
  {
    CodeOfByte(CurrentMaToRaw(ifsMa, hitMa));
    CodeOfByte(CurrentMaToRaw(ifsMa, holdMa));
    CodeOfByte(HitTimeMsToRaw(hitTimeMs, freqm, chop));
    ChannelFields(
      false, ByteOf(CurrentMaToRaw(ifsMa, holdMa)), false, ByteOf(CurrentMaToRaw(ifsMa, hitMa)),
      ByteOf(HitTimeMsToRaw(hitTimeMs, freqm, chop)),
      false, side == HighSide, ChopFreqCode(chop), src, ol, dpm, hhf)
  }

  /**
   * `CdrChannelFields` is what a `ChannelConfig` holding the same CDR
   * settings encodes: the one-shot CDR set-up writes the register word that
   * configuring the channel with such a configuration would write.
   */
  lemma CdrFieldsAsConfig(
    c: ChannelConfig, ifsMa: u32, freqm: bool, hitMa: u32, holdMa: u32, hitTimeMs: real,
    side: SideMode, chop: ChopFreq, src: bool, ol: bool, dpm: bool, hhf: bool)
    requires c.driveMode == CDR && c.fullScaleCurrentMa == ifsMa && c.masterClock80khz == freqm
    requires c.hitCurrentValue == hitMa as real && c.holdCurrentValue == holdMa as real
    requires c.hitTimeMs == hitTimeMs && !c.halfFullScale && !c.triggerFromPin
    requires c.sideMode == side && c.chopFreq == chop
    requires c.slewRateControlEnabled == src && c.openLoadDetectionEnabled == ol
    requires c.plungerMovementDetectionEnabled == dpm && c.hitCurrentCheckEnabled == hhf
    ensures c.CanEncode()
    ensures c.ToRegister() == PackChannel(CdrChannelFields(ifsMa, freqm, hitMa, holdMa, hitTimeMs, side, chop, src, ol, dpm, hhf))
  {
    CdrRawWhole(hitMa, ifsMa);
    CdrRawWhole(holdMa, ifsMa);
  }

  /** Position `k` of `trace` is not a successful command phase answered with COMER. */
  ghost predicate CleanAt(trace: seq<BusEvent>, respond: nat -> Reply, k: nat)
    requires k < |trace|
  {
    trace[k].CommandPhase? && respond(k).ok ==> LowByte(respond(k)) != StatusReg.FAULT_BYTE_COMER
  }

  /**
   * No successful command phase at position `from` or later was answered
   * with the communication-error fault byte.
   */
  ghost predicate NoComerFrom(trace: seq<BusEvent>, respond: nat -> Reply, from: nat)
  {
    forall k :: from <= k < |trace| ==> CleanAt(trace, respond, k)
  }

  /** One more access whose command phase was not answered with COMER keeps `NoComerFrom`. */
  lemma NoComerAppend(trace: seq<BusEvent>, respond: nat -> Reply, from: nat, cmd: bv8, data: BusEvent)
    requires NoComerFrom(trace, respond, from) && !data.CommandPhase?
    requires respond(|trace| + 1).ok ==> LowByte(respond(|trace| + 1)) != StatusReg.FAULT_BYTE_COMER
    ensures NoComerFrom(trace + Transaction(cmd, data, respond(|trace| + 1).ok), respond, from)
  {
    var t := Transaction(cmd, data, respond(|trace| + 1).ok);
    forall k | from <= k < |trace + t|
      ensures CleanAt(trace + t, respond, k)
    {
      if k < |trace| {
        assert CleanAt(trace, respond, k);
      } else if (trace + t)[k].CommandPhase? {
        assert t[k - |trace|].CommandPhase?;
        assert k == |trace| + 1;
      }
    }
  }

  /** Of the two STATUS accesses of the start-up handshake, only the write carries the STATUS write command. */
  lemma StatusAccessCommands(cmdOk: bool)
    ensures Occurrences(Transaction(CommandReg.Build(RegBank.STATUS, false, false), Read32Phase, cmdOk),
      CommandPhase(STATUS_WRITE_CMD)) == 0
    ensures Occurrences(Transaction(STATUS_WRITE_CMD, Write32Phase(INIT_STATUS_WORD), cmdOk),
      CommandPhase(STATUS_WRITE_CMD)) == 1
  {
    CommandReg.BuildDecodes(RegBank.STATUS, false, false);
    CommandReg.BuildDecodes(RegBank.STATUS, true, false);
    TransactionCommands(CommandReg.Build(RegBank.STATUS, false, false), Read32Phase, cmdOk, CommandPhase(STATUS_WRITE_CMD));
    TransactionCommands(STATUS_WRITE_CMD, Write32Phase(INIT_STATUS_WORD), cmdOk, CommandPhase(STATUS_WRITE_CMD));
  }

  /**
   * The statistics after a read-modify-write: the read is recorded, and the
   * write, made only after a successful read, is recorded too.
   */
  function TwoAccesses(s: DriverStatistics, readOk: bool, writeOk: bool): DriverStatistics
  {
    if readOk then s.Recorded(true).Recorded(writeOk) else s.Recorded(false)
  }

  /** The transport set-up and power-up steps that come before the handshake. */
  function PowerUpEvents(): seq<BusEvent>
  {
    [InitBus, ConfigureBus(SPI_MODE, true), SetPin(EnablePin, true), Delay(POWER_UP_DELAY_US)]
  }

  /** How one pass of the start-up handshake ended. */
  datatype AttemptOutcome = AttemptDone | AttemptRetry | AttemptFailed

  /**
   * The course of the handshake of `Initialize`: whether its last pass
   * completed, where that pass began, the bus record of all passes, and the
   * number of passes.
   */
  datatype HandshakeRun = HandshakeRun(done: bool, start: nat, events: seq<BusEvent>, passes: nat)

  /** `run` preceded by `k` more passes whose bus record is `e`. */
  function Behind(e: seq<BusEvent>, k: nat, run: HandshakeRun): HandshakeRun
  {
    run.(events := e + run.events, passes := k + run.passes)
  }

  lemma BehindNothing(run: HandshakeRun)
    ensures Behind([], 0, run) == run
  {
    assert [] + run.events == run.events;
  }

  lemma BehindBehind(a: seq<BusEvent>, k: nat, b: seq<BusEvent>, j: nat, run: HandshakeRun)
    ensures Behind(a, k, Behind(b, j, run)) == Behind(a + b, k + j, run)
  {
    assert a + (b + run.events) == (a + b) + run.events;
  }

  /**
   * A handshake from position `at` with at most `n` passes, where a pass
   * starting at position `p` ends as `outcome(p)` and has the bus record
   * `events(p)`: a pass that asks for a retry is followed by the next one,
   * until a pass completes or fails or the `n`-th pass has been made.
   */
  function RunFrom(outcome: nat -> AttemptOutcome, events: nat -> seq<BusEvent>, at: nat, n: nat): HandshakeRun
    requires n > 0
    decreases n
  {
    if outcome(at) == AttemptRetry && n > 1 then
      Behind(events(at), 1, RunFrom(outcome, events, at + |events(at)|, n - 1))
    else
      HandshakeRun(outcome(at) == AttemptDone, at, events(at), 1)
  }

  /**
   * A handshake makes one to `n` passes and stops early only on a pass that
   * completed or failed; it is done exactly when its last pass completed.
   */
  lemma {:induction false} RunBounds(outcome: nat -> AttemptOutcome, events: nat -> seq<BusEvent>, at: nat, n: nat)
    requires n > 0
    ensures var run := RunFrom(outcome, events, at, n);
      && 1 <= run.passes <= n
      && at <= run.start
      && run.done == (outcome(run.start) == AttemptDone)
      && (outcome(run.start) == AttemptRetry ==> run.passes == n)
    decreases n
  {
    if outcome(at) == AttemptRetry && n > 1 {
      RunBounds(outcome, events, at + |events(at)|, n - 1);
    }
  }

  /** If no pass records `e` more than once, a handshake records it at most once a pass. */
  lemma {:induction false} RunOccurrences(outcome: nat -> AttemptOutcome, events: nat -> seq<BusEvent>, at: nat, n: nat, e: BusEvent)
    requires n > 0
    requires forall p :: Occurrences(events(p), e) <= 1
    ensures Occurrences(RunFrom(outcome, events, at, n).events, e) <= RunFrom(outcome, events, at, n).passes
    decreases n
  {
    var first := events(at);
    if outcome(at) == AttemptRetry && n > 1 {
      var rest := RunFrom(outcome, events, at + |first|, n - 1);
      RunOccurrences(outcome, events, at + |first|, n - 1, e);
      OccurrencesBehind(first, rest, e);
    } else {
      assert RunFrom(outcome, events, at, n) == HandshakeRun(outcome(at) == AttemptDone, at, first, 1);
      assert Occurrences(first, e) <= 1;
    }
  }

  lemma OccurrencesBehind(first: seq<BusEvent>, rest: HandshakeRun, e: BusEvent)
    requires Occurrences(first, e) <= 1 && Occurrences(rest.events, e) <= rest.passes
    ensures Occurrences(Behind(first, 1, rest).events, e) <= Behind(first, 1, rest).passes
  {
    OccurrencesAppend(first, rest.events, e);
  }

  /** A first pass that completes ends the handshake at once. */
  lemma RunFirstDone(outcome: nat -> AttemptOutcome, events: nat -> seq<BusEvent>, at: nat, n: nat)
    requires n > 0 && outcome(at) == AttemptDone
    ensures RunFrom(outcome, events, at, n) == HandshakeRun(true, at, events(at), 1)
  {
  }

  /** A handshake whose three passes all ask for a retry fails after the third. */
  lemma RunRetriesOut(outcome: nat -> AttemptOutcome, events: nat -> seq<BusEvent>, at: nat)
    requires outcome(at) == AttemptRetry
    requires outcome(at + |events(at)|) == AttemptRetry
    requires outcome(at + |events(at)| + |events(at + |events(at)|)|) == AttemptRetry
    ensures !RunFrom(outcome, events, at, MAX_INIT_ATTEMPTS).done
    ensures RunFrom(outcome, events, at, MAX_INIT_ATTEMPTS).passes == MAX_INIT_ATTEMPTS
  {
    var a2 := at + |events(at)|;
    var a3 := a2 + |events(a2)|;
    assert RunFrom(outcome, events, a3, 1) == HandshakeRun(false, a3, events(a3), 1);
    assert RunFrom(outcome, events, a2, 2) == Behind(events(a2), 1, RunFrom(outcome, events, a3, 1));
  }

  /**
   * One more pass of a handshake: if the handshake from `at` is `before`
   * (`k` passes) followed by the passes from `m`, then after the pass at
   * `m` it is either still open or decided.
   */
  lemma RunStep(outcome: nat -> AttemptOutcome, events: nat -> seq<BusEvent>, at: nat, n: nat,
                before: seq<BusEvent>, k: nat, m: nat)
    requires k < n
    requires RunFrom(outcome, events, at, n) == Behind(before, k, RunFrom(outcome, events, m, n - k))
    ensures outcome(m) == AttemptRetry && k + 1 < n ==>
      RunFrom(outcome, events, at, n)
        == Behind(before + events(m), k + 1, RunFrom(outcome, events, m + |events(m)|, n - (k + 1)))
    ensures !(outcome(m) == AttemptRetry && k + 1 < n) ==>
      RunFrom(outcome, events, at, n) == HandshakeRun(outcome(m) == AttemptDone, m, before + events(m), k + 1)
  {
    if outcome(m) == AttemptRetry && k + 1 < n {
      BehindBehind(before, k, events(m), 1, RunFrom(outcome, events, m + |events(m)|, n - (k + 1)));
    }
  }

  /**
   * The STATUS word written on shut-down clears ONCH and ACTIVE, and keeps
   * the cached masks, FREQM and pair modes.
   */
  lemma IdleStatusWord(s: StatusFields)
    requires s.Fits()
    ensures var w := UnpackStatus(PackStatus(s.(onch := 0, active := false)));
      && w.onch == 0 && !w.active && w.cm10 == s.cm10 && w.cm32 == s.cm32
      && w.cm54 == s.cm54 && w.cm76 == s.cm76 && w.freqm == s.freqm
  {
    UnpackPackStatus(s.(onch := 0, active := false));
  }

  // ---------------------------------------------------------------------
  // The controller
  // ---------------------------------------------------------------------

  /** The controller for one MAX22200, over the transport `bus`. */
  class Max22200 {
    const bus: Bus
    /** Length of the bus record when this driver was created. */
    ghost const origin: nat

    var initialized: bool
    var statistics: DriverStatistics
    /** STATUS[7:0] received in the most recent Command Register write. */
    var lastFaultByte: bv8
    /** The STATUS register as last written or read, for fast ONCH updates. */
    var cachedStatus: StatusFields
    var boardConfig: BoardConfig
    /**
     * The outcome and the bus record of a handshake pass, by the position
     * where it starts, held as values over which the handshake of
     * `Initialize` is stated; `PassesKnown` makes them `PassOutcome` and
     * `PassEvents`.
     */
    ghost var passOutcome: nat -> AttemptOutcome
    ghost var passEvents: nat -> seq<BusEvent>

    /**
     * The last fault byte is the answer to the latest successful command
     * phase of this driver, and the cached pair modes fit their two bits.
     */
    ghost predicate Valid()
      reads this`lastFaultByte, this`cachedStatus, bus`trace
    {
      && origin <= |bus.trace|
      && lastFaultByte == LatestFaultByte(bus.trace, bus.respond, origin)
      && cachedStatus.Fits()
    }

    /**
     * The pass values are those of the transport's answers.  Set by the
     * constructors; no method changes them.
     */
    ghost predicate PassesKnown()
      reads this`passOutcome, this`passEvents
    {
      && (forall p {:trigger PassOutcome(p)} :: passOutcome(p) == PassOutcome(p))
      && (forall p {:trigger PassEvents(p)} :: passEvents(p) == PassEvents(p))
    }

    /** Driver over `bus`, with the default board configuration. */
    constructor (bus: Bus)
      ensures this.bus == bus && Valid() && PassesKnown()
      ensures !initialized && statistics == ZERO_STATISTICS && lastFaultByte == 0
      ensures cachedStatus == DEFAULT_STATUS_FIELDS && boardConfig == DEFAULT_BOARD_CONFIG
    {
      this.bus := bus;
      origin := |bus.trace|;
      initialized := false;
      statistics := ZERO_STATISTICS;
      lastFaultByte := 0;
      cachedStatus := DEFAULT_STATUS_FIELDS;
      boardConfig := DEFAULT_BOARD_CONFIG;
      new;
      passOutcome, passEvents := PassOutcome, PassEvents;
    }

    /** Driver over `bus` with board configuration `board`. */
    constructor WithBoard(bus: Bus, board: BoardConfig)
      ensures this.bus == bus && Valid() && PassesKnown()
      ensures !initialized && statistics == ZERO_STATISTICS && lastFaultByte == 0
      ensures cachedStatus == DEFAULT_STATUS_FIELDS && boardConfig == board
    {
      this.bus := bus;
      origin := |bus.trace|;
      initialized := false;
      statistics := ZERO_STATISTICS;
      lastFaultByte := 0;
      cachedStatus := DEFAULT_STATUS_FIELDS;
      boardConfig := board;
      new;
      passOutcome, passEvents := PassOutcome, PassEvents;
    }

    /** A channel number names one of the eight channels. */
    static function IsValidChannel(channel: u8): (valid: bool)
      ensures valid <==> channel < Registers.NUM_CHANNELS
    {
      channel < Registers.NUM_CHANNELS
    }

    function IsInitialized(): bool
      reads this
    {
      initialized
    }

    /** The fault byte of the most recent Command Register write, 0 before any. */
    function GetLastFaultByte(): (b: bv8)
      reads this, bus
      requires Valid()
      ensures b == LatestFaultByte(bus.trace, bus.respond, origin)
    {
      lastFaultByte
    }

    // -- the bus record of one access starting at position `at` --

    /** The command phase of an access starting at `at` succeeds. */
    ghost function CommandOk(at: nat): bool
    {
      bus.respond(at + 1).ok
    }

    /** The fault byte answered to the command phase of an access starting at `at`. */
    ghost function FaultByteAt(at: nat): bv8
    {
      LowByte(bus.respond(at + 1))
    }

    /** Both phases of an access starting at `at` succeed. */
    ghost function AccessOk(at: nat): bool
    {
      CommandOk(at) && bus.respond(at + 3).ok
    }

    ghost function Write32Access(at: nat, bank: bv8, value: bv32): seq<BusEvent>
    {
      Transaction(CommandReg.Build(bank, true, false), Write32Phase(value), CommandOk(at))
    }

    ghost function Read32Access(at: nat, bank: bv8): seq<BusEvent>
    {
      Transaction(CommandReg.Build(bank, false, false), Read32Phase, CommandOk(at))
    }

    ghost function Write8Access(at: nat, bank: bv8, value: bv8): seq<BusEvent>
    {
      Transaction(CommandReg.Build(bank, true, true), Write8Phase(value), CommandOk(at))
    }

    ghost function Read8Access(at: nat, bank: bv8): seq<BusEvent>
    {
      Transaction(CommandReg.Build(bank, false, true), Read8Phase, CommandOk(at))
    }

    // -- transport steps --

    /** Carry out a transport operation that is not a command phase. */
    method Signal(e: BusEvent) returns (reply: Reply)
      requires Valid() && !e.CommandPhase?
      modifies bus`trace
      ensures Valid()
      ensures bus.trace == old(bus.trace) + [e] && reply == bus.respond(|old(bus.trace)|)
    {
      LatestAfterOther(bus.trace, bus.respond, origin, e);
      reply := bus.Perform(e);
    }

    /**
     * Phase 1: write the Command Register with CMD held high, and keep the
     * fault byte the device shifts out.
     */
    method WriteCommandRegister(bank: bv8, isWrite: bool, mode8: bool) returns (r: DriverStatus)
      requires Valid()
      modifies bus`trace, this`lastFaultByte
      ensures Valid()
      ensures bus.trace == old(bus.trace) + CommandEvents(CommandReg.Build(bank, isWrite, mode8))
      ensures r == (if CommandOk(|old(bus.trace)|) then Ok else CommunicationError)
      ensures CommandOk(|old(bus.trace)|) ==> lastFaultByte == FaultByteAt(|old(bus.trace)|)
      ensures !CommandOk(|old(bus.trace)|) ==> lastFaultByte == old(lastFaultByte)
    {
      var cmd := CommandReg.Build(bank, isWrite, mode8);
      ghost var t0 := bus.trace;
      var _ := Signal(SetPin(CmdPin, true));
      ghost var t1 := bus.trace;
      var ok := TransferCommand(cmd);
      ghost var t2 := bus.trace;
      var _ := Signal(SetPin(CmdPin, false));
      assert |t1| == |t0| + 1 && t2 == t1 + [CommandPhase(cmd)];
      assert bus.trace == t0 + CommandEvents(cmd);
      r := if ok then Ok else CommunicationError;
    }

    /** The one-byte transfer of phase 1; a successful one leaves its answer as the last fault byte. */
    method TransferCommand(cmd: bv8) returns (ok: bool)
      requires Valid()
      modifies bus`trace, this`lastFaultByte
      ensures Valid()
      ensures bus.trace == old(bus.trace) + [CommandPhase(cmd)]
      ensures ok == bus.respond(|old(bus.trace)|).ok
      ensures lastFaultByte == if ok then LowByte(bus.respond(|old(bus.trace)|)) else old(lastFaultByte)
    {
      ghost var before := bus.trace;
      var reply := bus.Perform(CommandPhase(cmd));
      ok := reply.ok;
      if ok {
        LatestAfterCommand(before, bus.respond, origin, cmd);
        lastFaultByte := LowByte(reply);
      } else {
        LatestAfterOther(before, bus.respond, origin, CommandPhase(cmd));
      }
    }

    /** Phase 2 of a transaction: one data transfer of the bus. */
    method DataPhase(e: BusEvent) returns (r: DriverStatus, reply: Reply)
      requires Valid() && !e.CommandPhase?
      modifies bus`trace
      ensures Valid()
      ensures bus.trace == old(bus.trace) + [e] && reply == bus.respond(|old(bus.trace)|)
      ensures r == (if reply.ok then Ok else CommunicationError)
    {
      reply := Signal(e);
      r := if reply.ok then Ok else CommunicationError;
    }

    /** Write a full 32-bit register. */
    method WriteRegister32(bank: bv8, value: bv32) returns (r: DriverStatus)
      requires Valid()
      modifies bus`trace, this`lastFaultByte, this`statistics
      ensures Valid()
      ensures bus.trace == old(bus.trace) + Write32Access(|old(bus.trace)|, bank, value)
      ensures r == (if AccessOk(|old(bus.trace)|) then Ok else CommunicationError)
      ensures lastFaultByte == if CommandOk(|old(bus.trace)|) then FaultByteAt(|old(bus.trace)|) else old(lastFaultByte)
      ensures statistics == old(statistics).Recorded(r == Ok)
    {
      r := WriteCommandRegister(bank, true, false);
      if r == Ok {
        var reply;
        r, reply := DataPhase(Write32Phase(value));
      }
      statistics := statistics.Recorded(r == Ok);
    }

    /** Read a full 32-bit register; the value is 0 if the access fails. */
    method ReadRegister32(bank: bv8) returns (r: DriverStatus, value: bv32)
      requires Valid()
      modifies bus`trace, this`lastFaultByte, this`statistics
      ensures Valid()
      ensures bus.trace == old(bus.trace) + Read32Access(|old(bus.trace)|, bank)
      ensures r == (if AccessOk(|old(bus.trace)|) then Ok else CommunicationError)
      ensures value == if r == Ok then bus.respond(|old(bus.trace)| + 3).data else 0
      ensures lastFaultByte == if CommandOk(|old(bus.trace)|) then FaultByteAt(|old(bus.trace)|) else old(lastFaultByte)
      ensures statistics == old(statistics).Recorded(r == Ok)
    {
      value := 0;
      r := WriteCommandRegister(bank, false, false);
      if r == Ok {
        var reply;
        r, reply := DataPhase(Read32Phase);
        if r == Ok {
          value := reply.data;
        }
      }
      statistics := statistics.Recorded(r == Ok);
    }

    /** Write the most significant byte of a register (fast 8-bit access). */
    method WriteRegister8(bank: bv8, value: bv8) returns (r: DriverStatus)
      requires Valid()
      modifies bus`trace, this`lastFaultByte, this`statistics
      ensures Valid()
      ensures bus.trace == old(bus.trace) + Write8Access(|old(bus.trace)|, bank, value)
      ensures r == (if AccessOk(|old(bus.trace)|) then Ok else CommunicationError)
      ensures lastFaultByte == if CommandOk(|old(bus.trace)|) then FaultByteAt(|old(bus.trace)|) else old(lastFaultByte)
      ensures statistics == old(statistics).Recorded(r == Ok)
    {
      r := WriteCommandRegister(bank, true, true);
      if r == Ok {
        var reply;
        r, reply := DataPhase(Write8Phase(value));
      }
      statistics := statistics.Recorded(r == Ok);
    }

    /** Read the most significant byte of a register (fast 8-bit access); 0 if the access fails. */
    method ReadRegister8(bank: bv8) returns (r: DriverStatus, value: bv8)
      requires Valid()
      modifies bus`trace, this`lastFaultByte, this`statistics
      ensures Valid()
      ensures bus.trace == old(bus.trace) + Read8Access(|old(bus.trace)|, bank)
      ensures r == (if AccessOk(|old(bus.trace)|) then Ok else CommunicationError)
      ensures value == if r == Ok then LowByte(bus.respond(|old(bus.trace)| + 3)) else 0
      ensures lastFaultByte == if CommandOk(|old(bus.trace)|) then FaultByteAt(|old(bus.trace)|) else old(lastFaultByte)
      ensures statistics == old(statistics).Recorded(r == Ok)
    {
      value := 0;
      r := WriteCommandRegister(bank, false, true);
      if r == Ok {
        var reply;
        r, reply := DataPhase(Read8Phase);
        if r == Ok {
          value := LowByte(reply);
        }
      }
      statistics := statistics.Recorded(r == Ok);
    }

    // -- STATUS: channel on/off through the cached ONCH byte --

    /**
     * Turn on exactly the channels whose bits are set in `mask`: the cached
     * ONCH byte becomes `mask` and one fast 8-bit write of STATUS sends it.
     */
    method SetChannelsOn(mask: bv8) returns (r: DriverStatus)
      requires Valid()
      modifies bus`trace, this`lastFaultByte, this`statistics, this`cachedStatus
      ensures Valid()
      ensures cachedStatus == old(cachedStatus).(onch := mask)
      ensures bus.trace == old(bus.trace) + Write8Access(|old(bus.trace)|, RegBank.STATUS, mask)
      ensures r == (if AccessOk(|old(bus.trace)|) then Ok else CommunicationError)
      ensures statistics == old(statistics).Recorded(r == Ok)
    {
      cachedStatus := cachedStatus.(onch := mask);
      r := WriteRegister8(RegBank.STATUS, mask);
    }

    /**
     * Turn channel `channel` on or off and leave the other seven as cached;
     * a channel number of 8 or more is rejected before any bus access.
     */
    method SetChannelEnabled(channel: u8, enable: bool) returns (r: DriverStatus)
      requires Valid()
      modifies bus`trace, this`lastFaultByte, this`statistics, this`cachedStatus
      ensures Valid()
      ensures !IsValidChannel(channel) ==>
        && r == InvalidParameter && bus.trace == old(bus.trace)
        && cachedStatus == old(cachedStatus) && statistics == old(statistics)
      ensures IsValidChannel(channel) ==>
        && cachedStatus == old(cachedStatus).(onch := WithBit(old(cachedStatus).onch, channel, enable))
        && BitSet(cachedStatus.onch, channel) == enable
        && (forall j: nat :: j < 8 && j != channel ==>
              BitSet(cachedStatus.onch, j) == BitSet(old(cachedStatus).onch, j))
        && bus.trace == old(bus.trace) + Write8Access(|old(bus.trace)|, RegBank.STATUS, cachedStatus.onch)
        && r == (if AccessOk(|old(bus.trace)|) then Ok else CommunicationError)
        && statistics == old(statistics).Recorded(r == Ok)
    {
      if !IsValidChannel(channel) {
        return InvalidParameter;
      }
      WithBitBits(cachedStatus.onch, channel, enable);
      r := SetChannelsOn(WithBit(cachedStatus.onch, channel, enable));
    }

    /** Turn channel `channel` on (ONCHx = 1). */
    method EnableChannel(channel: u8) returns (r: DriverStatus)
      requires Valid()
      modifies bus`trace, this`lastFaultByte, this`statistics, this`cachedStatus
      ensures Valid()
      ensures !IsValidChannel(channel) ==>
        && r == InvalidParameter && bus.trace == old(bus.trace)
        && cachedStatus == old(cachedStatus) && statistics == old(statistics)
      ensures IsValidChannel(channel) ==>
        && cachedStatus == old(cachedStatus).(onch := WithBit(old(cachedStatus).onch, channel, true))
        && BitSet(cachedStatus.onch, channel)
        && (forall j: nat :: j < 8 && j != channel ==>
              BitSet(cachedStatus.onch, j) == BitSet(old(cachedStatus).onch, j))
        && bus.trace == old(bus.trace) + Write8Access(|old(bus.trace)|, RegBank.STATUS, cachedStatus.onch)
        && r == (if AccessOk(|old(bus.trace)|) then Ok else CommunicationError)
        && statistics == old(statistics).Recorded(r == Ok)
    {
      r := SetChannelEnabled(channel, true);
    }

    /** Turn channel `channel` off (ONCHx = 0). */
    method DisableChannel(channel: u8) returns (r: DriverStatus)
      requires Valid()
      modifies bus`trace, this`lastFaultByte, this`statistics, this`cachedStatus
      ensures Valid()
      ensures !IsValidChannel(channel) ==>
        && r == InvalidParameter && bus.trace == old(bus.trace)
        && cachedStatus == old(cachedStatus) && statistics == old(statistics)
      ensures IsValidChannel(channel) ==>
        && cachedStatus == old(cachedStatus).(onch := WithBit(old(cachedStatus).onch, channel, false))
        && !BitSet(cachedStatus.onch, channel)
        && (forall j: nat :: j < 8 && j != channel ==>
              BitSet(cachedStatus.onch, j) == BitSet(old(cachedStatus).onch, j))
        && bus.trace == old(bus.trace) + Write8Access(|old(bus.trace)|, RegBank.STATUS, cachedStatus.onch)
        && r == (if AccessOk(|old(bus.trace)|) then Ok else CommunicationError)
        && statistics == old(statistics).Recorded(r == Ok)
    {
      r := SetChannelEnabled(channel, false);
    }

    /** Turn all eight channels on or all off, in one fast write. */
    method SetAllChannelsEnabled(enable: bool) returns (r: DriverStatus)
      requires Valid()
      modifies bus`trace, this`lastFaultByte, this`statistics, this`cachedStatus
      ensures Valid()
      ensures cachedStatus == old(cachedStatus).(onch := if enable then 0xFF else 0)
      ensures bus.trace == old(bus.trace) + Write8Access(|old(bus.trace)|, RegBank.STATUS, cachedStatus.onch)
      ensures r == (if AccessOk(|old(bus.trace)|) then Ok else CommunicationError)
      ensures statistics == old(statistics).Recorded(r == Ok)
    {
      r := SetChannelsOn(if enable then 0xFF else 0);
    }

    method EnableAllChannels() returns (r: DriverStatus)
      requires Valid()
      modifies bus`trace, this`lastFaultByte, this`statistics, this`cachedStatus
      ensures Valid()
      ensures cachedStatus == old(cachedStatus).(onch := 0xFF)
      ensures bus.trace == old(bus.trace) + Write8Access(|old(bus.trace)|, RegBank.STATUS, 0xFF)
      ensures r == (if AccessOk(|old(bus.trace)|) then Ok else CommunicationError)
      ensures statistics == old(statistics).Recorded(r == Ok)
    {
      r := SetAllChannelsEnabled(true);
    }

    method DisableAllChannels() returns (r: DriverStatus)
      requires Valid()
      modifies bus`trace, this`lastFaultByte, this`statistics, this`cachedStatus
      ensures Valid()
      ensures cachedStatus == old(cachedStatus).(onch := 0)
      ensures bus.trace == old(bus.trace) + Write8Access(|old(bus.trace)|, RegBank.STATUS, 0)
      ensures r == (if AccessOk(|old(bus.trace)|) then Ok else CommunicationError)
      ensures statistics == old(statistics).Recorded(r == Ok)
    {
      r := SetAllChannelsEnabled(false);
    }

    /**
     * Drive the H-bridge of channel pair `pairIndex` (channels 2p and 2p+1)
     * into `state`, keeping the other six ONCH bits; a pair index above 3 is
     * rejected before any bus access.
     */
    method SetFullBridgeState(pairIndex: u8, state: FullBridgeState) returns (r: DriverStatus)
      requires Valid()
      modifies bus`trace, this`lastFaultByte, this`statistics, this`cachedStatus
      ensures Valid()
      ensures pairIndex > 3 ==>
        && r == InvalidParameter && bus.trace == old(bus.trace)
        && cachedStatus == old(cachedStatus) && statistics == old(statistics)
      ensures pairIndex <= 3 ==>
        && cachedStatus == old(cachedStatus).(onch := WithPair(old(cachedStatus).onch, pairIndex, FullBridgeBits(state)))
        && BitSet(cachedStatus.onch, 2 * pairIndex) == (state == Forward || state == Brake)
        && BitSet(cachedStatus.onch, 2 * pairIndex + 1) == (state == Reverse || state == Brake)
        && (forall j: nat :: j < 8 && j != 2 * pairIndex && j != 2 * pairIndex + 1 ==>
              BitSet(cachedStatus.onch, j) == BitSet(old(cachedStatus).onch, j))
        && bus.trace == old(bus.trace) + Write8Access(|old(bus.trace)|, RegBank.STATUS, cachedStatus.onch)
        && r == (if AccessOk(|old(bus.trace)|) then Ok else CommunicationError)
        && statistics == old(statistics).Recorded(r == Ok)
    {
      if pairIndex > 3 {
        return InvalidParameter;
      }
      var bits := FullBridgeBits(state);
      WithPairBits(cachedStatus.onch, pairIndex, bits);
      r := SetChannelsOn(WithPair(cachedStatus.onch, pairIndex, bits));
    }

    // -- STATUS: full register --

    /** Read STATUS into `status`; `status` is left alone if the read fails. */
    method ReadStatus(status: StatusConfig) returns (r: DriverStatus)
      requires Valid()
      modifies status, bus`trace, this`lastFaultByte, this`statistics
      ensures Valid()
      ensures bus.trace == old(bus.trace) + Read32Access(|old(bus.trace)|, RegBank.STATUS)
      ensures r == (if AccessOk(|old(bus.trace)|) then Ok else CommunicationError)
      ensures r == Ok ==> status.Describes(bus.respond(|old(bus.trace)| + 3).data)
      ensures r != Ok ==> unchanged(status)
      ensures statistics == old(statistics).Recorded(r == Ok)
    {
      var value;
      r, value := ReadRegister32(RegBank.STATUS);
      if r == Ok {
        status.FromRegister(value);
      }
    }

    /** Write the writable fields of `status` to STATUS; on success they become the cached STATUS. */
    method WriteStatus(status: StatusConfig) returns (r: DriverStatus)
      requires Valid()
      modifies bus`trace, this`lastFaultByte, this`statistics, this`cachedStatus
      ensures Valid()
      ensures bus.trace == old(bus.trace) + Write32Access(|old(bus.trace)|, RegBank.STATUS, status.ToRegister())
      ensures r == (if AccessOk(|old(bus.trace)|) then Ok else CommunicationError)
      ensures cachedStatus == if r == Ok then status.Fields() else old(cachedStatus)
      ensures statistics == old(statistics).Recorded(r == Ok)
    {
      r := WriteRegister32(RegBank.STATUS, status.ToRegister());
      if r == Ok {
        cachedStatus := status.Fields();
      }
    }

    /** Read the fault flags of STATUS (the whole register) into `status`. */
    method ReadFaultFlags(status: StatusConfig) returns (r: DriverStatus)
      requires Valid()
      modifies status, bus`trace, this`lastFaultByte, this`statistics
      ensures Valid()
      ensures bus.trace == old(bus.trace) + Read32Access(|old(bus.trace)|, RegBank.STATUS)
      ensures r == (if AccessOk(|old(bus.trace)|) then Ok else CommunicationError)
      ensures r == Ok ==> status.Describes(bus.respond(|old(bus.trace)| + 3).data)
      ensures r == Ok ==> (status.HasFault() <==>
        bus.respond(|old(bus.trace)| + 3).data & StatusReg.FAULT_FLAGS_MASK != 0)
      ensures r != Ok ==> unchanged(status)
      ensures statistics == old(statistics).Recorded(r == Ok)
    {
      r := ReadStatus(status);
      if r == Ok {
        StatusHasFaultIff(status, bus.respond(|old(bus.trace)| + 3).data);
      }
    }

    /** Clear the STATUS fault flags by reading STATUS and discarding it. */
    method ClearFaultFlags() returns (r: DriverStatus)
      requires Valid()
      modifies bus`trace, this`lastFaultByte, this`statistics
      ensures Valid()
      ensures bus.trace == old(bus.trace) + Read32Access(|old(bus.trace)|, RegBank.STATUS)
      ensures r == (if AccessOk(|old(bus.trace)|) then Ok else CommunicationError)
      ensures statistics == old(statistics).Recorded(r == Ok)
    {
      var value;
      r, value := ReadRegister32(RegBank.STATUS);
    }

    // -- FAULT --

    /** Read the FAULT register into `faults` (the device clears its flags on the read). */
    method ReadFaultRegister(faults: FaultStatus) returns (r: DriverStatus)
      requires Valid()
      modifies faults, bus`trace, this`lastFaultByte, this`statistics
      ensures Valid()
      ensures bus.trace == old(bus.trace) + Read32Access(|old(bus.trace)|, RegBank.FAULT)
      ensures r == (if AccessOk(|old(bus.trace)|) then Ok else CommunicationError)
      ensures r == Ok ==> faults.Describes(bus.respond(|old(bus.trace)| + 3).data)
      ensures r != Ok ==> unchanged(faults)
      ensures statistics == old(statistics).Recorded(r == Ok)
    {
      var value;
      r, value := ReadRegister32(RegBank.FAULT);
      if r == Ok {
        faults.FromRegister(value);
      }
    }

    /** Clear all FAULT flags by reading FAULT and discarding it. */
    method ClearAllFaults() returns (r: DriverStatus)
      requires Valid()
      modifies bus`trace, this`lastFaultByte, this`statistics
      ensures Valid()
      ensures bus.trace == old(bus.trace) + Read32Access(|old(bus.trace)|, RegBank.FAULT)
      ensures r == (if AccessOk(|old(bus.trace)|) then Ok else CommunicationError)
      ensures statistics == old(statistics).Recorded(r == Ok)
    {
      var value;
      r, value := ReadRegister32(RegBank.FAULT);
    }

    // -- CFG_DPM --

    method ReadDpmConfig(config: DpmConfig) returns (r: DriverStatus)
      requires Valid()
      modifies config, bus`trace, this`lastFaultByte, this`statistics
      ensures Valid()
      ensures bus.trace == old(bus.trace) + Read32Access(|old(bus.trace)|, RegBank.CFG_DPM)
      ensures r == (if AccessOk(|old(bus.trace)|) then Ok else CommunicationError)
      ensures r == Ok ==> config.Describes(bus.respond(|old(bus.trace)| + 3).data)
      ensures r != Ok ==> unchanged(config)
      ensures statistics == old(statistics).Recorded(r == Ok)
    {
      var value;
      r, value := ReadRegister32(RegBank.CFG_DPM);
      if r == Ok {
        config.FromRegister(value);
      }
    }

    method WriteDpmConfig(config: DpmConfig) returns (r: DriverStatus)
      requires Valid()
      modifies bus`trace, this`lastFaultByte, this`statistics
      ensures Valid()
      ensures bus.trace == old(bus.trace) + Write32Access(|old(bus.trace)|, RegBank.CFG_DPM, config.ToRegister())
      ensures r == (if AccessOk(|old(bus.trace)|) then Ok else CommunicationError)
      ensures statistics == old(statistics).Recorded(r == Ok)
    {
      r := WriteRegister32(RegBank.CFG_DPM, config.ToRegister());
    }

    // -- device control lines --

    /** Drive the ENABLE line: high wakes the device, low puts it to sleep. */
    method SetDeviceEnable(enable: bool) returns (r: DriverStatus)
      requires Valid()
      modifies bus`trace
      ensures Valid()
      ensures bus.trace == old(bus.trace) + [SetPin(EnablePin, enable)] && r == Ok
    {
      var _ := Signal(SetPin(EnablePin, enable));
      r := Ok;
    }

    method EnableDevice() returns (r: DriverStatus)
      requires Valid()
      modifies bus`trace
      ensures Valid()
      ensures bus.trace == old(bus.trace) + [SetPin(EnablePin, true)] && r == Ok
    {
      r := SetDeviceEnable(true);
    }

    method DisableDevice() returns (r: DriverStatus)
      requires Valid()
      modifies bus`trace
      ensures Valid()
      ensures bus.trace == old(bus.trace) + [SetPin(EnablePin, false)] && r == Ok
    {
      r := SetDeviceEnable(false);
    }

    /** Read the nFAULT line; `faultActive` is false if the read fails. */
    method GetFaultPinState() returns (r: DriverStatus, faultActive: bool)
      requires Valid()
      modifies bus`trace
      ensures Valid()
      ensures bus.trace == old(bus.trace) + [ReadPin(FaultPin)]
      ensures var reply := bus.respond(|old(bus.trace)|);
        && r == (if reply.ok then Ok else CommunicationError)
        && faultActive == (reply.ok && reply.data & 1 != 0)
    {
      var reply := Signal(ReadPin(FaultPin));
      r := if reply.ok then Ok else CommunicationError;
      faultActive := reply.ok && reply.data & 1 != 0;
    }

    // -- statistics and board configuration --

    function GetStatistics(): DriverStatistics
      reads this
    {
      statistics
    }

    method ResetStatistics()
      modifies this`statistics
      ensures statistics == ZERO_STATISTICS && statistics.SuccessRate() == 100.0
    {
      statistics := ZERO_STATISTICS;
    }

    function GetBoardConfig(): BoardConfig
      reads this
    {
      boardConfig
    }

    method SetBoardConfig(config: BoardConfig)
      modifies this`boardConfig
      ensures boardConfig == config
    {
      boardConfig := config;
    }

    // -- CFG_CHx --

    /** Write `config` to the configuration register of channel `channel`. */
    method ConfigureChannel(channel: u8, config: ChannelConfig) returns (r: DriverStatus)
      requires Valid() && config.CanEncode()
      modifies bus`trace, this`lastFaultByte, this`statistics
      ensures Valid()
      ensures !IsValidChannel(channel) ==>
        r == InvalidParameter && bus.trace == old(bus.trace) && statistics == old(statistics)
      ensures IsValidChannel(channel) ==>
        var at := |old(bus.trace)|;
        && bus.trace == old(bus.trace) + Write32Access(at, Registers.ChannelCfgBank(ByteOf(channel)), config.ToRegister())
        && r == (if AccessOk(at) then Ok else CommunicationError)
        && statistics == old(statistics).Recorded(r == Ok)
    {
      if !IsValidChannel(channel) {
        return InvalidParameter;
      }
      r := WriteRegister32(Registers.ChannelCfgBank(ByteOf(channel)), config.ToRegister());
    }

    /**
     * Read the configuration register of channel `channel` into `config`,
     * converting codes to units with the board's full scale and the cached
     * FREQM; `config` is left alone if the read fails.
     */
    method GetChannelConfig(channel: u8, config: ChannelConfig) returns (r: DriverStatus)
      requires Valid()
      modifies config, bus`trace, this`lastFaultByte, this`statistics
      ensures Valid()
      ensures !IsValidChannel(channel) ==>
        r == InvalidParameter && bus.trace == old(bus.trace) && unchanged(config) && statistics == old(statistics)
      ensures IsValidChannel(channel) ==>
        var at := |old(bus.trace)|;
        && bus.trace == old(bus.trace) + Read32Access(at, Registers.ChannelCfgBank(ByteOf(channel)))
        && r == (if AccessOk(at) then Ok else CommunicationError)
        && statistics == old(statistics).Recorded(r == Ok)
      ensures r == Ok ==>
        config.Decodes(bus.respond(|old(bus.trace)| + 3).data, boardConfig.fullScaleCurrentMa, cachedStatus.freqm)
      ensures r != Ok ==> unchanged(config)
    {
      if !IsValidChannel(channel) {
        return InvalidParameter;
      }
      var value;
      r, value := ReadRegister32(Registers.ChannelCfgBank(ByteOf(channel)));
      if r == Ok {
        config.FromRegister(value, boardConfig.fullScaleCurrentMa, cachedStatus.freqm);
      }
    }

    // -- currents in mA (CDR mode) --

    /**
     * Set the HIT or HOLD current of channel `channel` to `ma` mA, cut to the
     * board's current limit and converted with the board's full scale.  The
     * register is read, the one 7-bit code replaced, and the word written
     * back.  A bad channel, or no full scale configured, is rejected before
     * any bus access.
     */
    method SetCurrentMa(channel: u8, setting: CurrentSetting, ma: u32) returns (r: DriverStatus)
      requires Valid()
      modifies bus`trace, this`lastFaultByte, this`statistics
      ensures Valid()
      ensures r == InvalidParameter <==> !IsValidChannel(channel) || !boardConfig.HasIfsConfigured()
      ensures r == InvalidParameter ==> bus.trace == old(bus.trace) && statistics == old(statistics)
      ensures r != InvalidParameter ==>
        var at := |old(bus.trace)|;
        var bank := Registers.ChannelCfgBank(ByteOf(channel));
        var code := CurrentMaToRaw(boardConfig.fullScaleCurrentMa, LimitedCurrent(boardConfig, ma));
        var read := bus.respond(at + 3).data;
        var written := WithCurrentCode(read, setting, ByteOf(code));
        && bus.trace == old(bus.trace) + Read32Access(at, bank)
             + (if AccessOk(at) then Write32Access(at + 4, bank, written) else [])
        && r == (if AccessOk(at) && AccessOk(at + 4) then Ok else CommunicationError)
        && statistics == TwoAccesses(old(statistics), AccessOk(at), AccessOk(at + 4))
    {
      if !IsValidChannel(channel) || !boardConfig.HasIfsConfigured() {
        return InvalidParameter;
      }
      ghost var at := |bus.trace|;
      var bank := Registers.ChannelCfgBank(ByteOf(channel));
      var code := CurrentMaToRaw(boardConfig.fullScaleCurrentMa, LimitedCurrent(boardConfig, ma));
      var value;
      r, value := ReadRegister32(bank);
      if r != Ok {
        assert bus.trace == old(bus.trace) + Read32Access(at, bank) + [];
        return;
      }
      r := WriteRegister32(bank, WithCurrentCode(value, setting, ByteOf(code)));
    }

    method SetHitCurrentMa(channel: u8, ma: u32) returns (r: DriverStatus)
      requires Valid()
      modifies bus`trace, this`lastFaultByte, this`statistics
      ensures Valid()
      ensures r == InvalidParameter <==> !IsValidChannel(channel) || !boardConfig.HasIfsConfigured()
      ensures r == InvalidParameter ==> bus.trace == old(bus.trace) && statistics == old(statistics)
      ensures r != InvalidParameter ==>
        var at := |old(bus.trace)|;
        var code := CurrentMaToRaw(boardConfig.fullScaleCurrentMa, LimitedCurrent(boardConfig, ma));
        var read := bus.respond(at + 3).data;
        var bank := Registers.ChannelCfgBank(ByteOf(channel));
        && bus.trace == old(bus.trace) + Read32Access(at, bank)
             + (if AccessOk(at) then Write32Access(at + 4, bank, WithCurrentCode(read, HitCurrent, ByteOf(code))) else [])
        && r == (if AccessOk(at) && AccessOk(at + 4) then Ok else CommunicationError)
        && statistics == TwoAccesses(old(statistics), AccessOk(at), AccessOk(at + 4))
    {
      r := SetCurrentMa(channel, HitCurrent, ma);
    }

    method SetHoldCurrentMa(channel: u8, ma: u32) returns (r: DriverStatus)
      requires Valid()
      modifies bus`trace, this`lastFaultByte, this`statistics
      ensures Valid()
      ensures r == InvalidParameter <==> !IsValidChannel(channel) || !boardConfig.HasIfsConfigured()
      ensures r == InvalidParameter ==> bus.trace == old(bus.trace) && statistics == old(statistics)
      ensures r != InvalidParameter ==>
        var at := |old(bus.trace)|;
        var code := CurrentMaToRaw(boardConfig.fullScaleCurrentMa, LimitedCurrent(boardConfig, ma));
        var read := bus.respond(at + 3).data;
        var bank := Registers.ChannelCfgBank(ByteOf(channel));
        && bus.trace == old(bus.trace) + Read32Access(at, bank)
             + (if AccessOk(at) then Write32Access(at + 4, bank, WithCurrentCode(read, HoldCurrent, ByteOf(code))) else [])
        && r == (if AccessOk(at) && AccessOk(at + 4) then Ok else CommunicationError)
        && statistics == TwoAccesses(old(statistics), AccessOk(at), AccessOk(at + 4))
    {
      r := SetCurrentMa(channel, HoldCurrent, ma);
    }

    /**
     * Read the HIT or HOLD current of channel `channel` in mA: code / 127 of
     * the board's full scale, truncated.  A bad channel, or no full scale
     * configured, is rejected before any bus access; `ma` is 0 on failure.
     */
    method GetCurrentMa(channel: u8, setting: CurrentSetting) returns (r: DriverStatus, ma: u32)
      requires Valid()
      modifies bus`trace, this`lastFaultByte, this`statistics
      ensures Valid()
      ensures r == InvalidParameter <==> !IsValidChannel(channel) || !boardConfig.HasIfsConfigured()
      ensures r == InvalidParameter ==> bus.trace == old(bus.trace) && statistics == old(statistics)
      ensures r != InvalidParameter ==>
        var at := |old(bus.trace)|;
        && bus.trace == old(bus.trace) + Read32Access(at, Registers.ChannelCfgBank(ByteOf(channel)))
        && r == (if AccessOk(at) then Ok else CommunicationError)
        && statistics == old(statistics).Recorded(r == Ok)
      ensures r == Ok ==>
        var code := CodeOf(CurrentCode(UnpackChannel(bus.respond(|old(bus.trace)| + 3).data), setting));
        code <= MAX_CURRENT_RAW && ma == CodeToMa(code, boardConfig.fullScaleCurrentMa)
      ensures ma <= boardConfig.fullScaleCurrentMa
      ensures r != Ok ==> ma == 0
    {
      ma := 0;
      if !IsValidChannel(channel) || !boardConfig.HasIfsConfigured() {
        return InvalidParameter, 0;
      }
      var value;
      r, value := ReadRegister32(Registers.ChannelCfgBank(ByteOf(channel)));
      if r == Ok {
        var code := CodeOf(CurrentCode(UnpackChannel(value), setting));
        ma := CodeToMa(code, boardConfig.fullScaleCurrentMa);
      }
    }

    method GetHitCurrentMa(channel: u8) returns (r: DriverStatus, ma: u32)
      requires Valid()
      modifies bus`trace, this`lastFaultByte, this`statistics
      ensures Valid()
      ensures r == InvalidParameter <==> !IsValidChannel(channel) || !boardConfig.HasIfsConfigured()
      ensures r == InvalidParameter ==> bus.trace == old(bus.trace) && statistics == old(statistics)
      ensures r != InvalidParameter ==>
        var at := |old(bus.trace)|;
        && bus.trace == old(bus.trace) + Read32Access(at, Registers.ChannelCfgBank(ByteOf(channel)))
        && r == (if AccessOk(at) then Ok else CommunicationError)
        && statistics == old(statistics).Recorded(r == Ok)
      ensures r == Ok ==>
        ma == CodeToMa(CodeOf(UnpackChannel(bus.respond(|old(bus.trace)| + 3).data).hit), boardConfig.fullScaleCurrentMa)
      ensures r != Ok ==> ma == 0
    {
      r, ma := GetCurrentMa(channel, HitCurrent);
    }

    method GetHoldCurrentMa(channel: u8) returns (r: DriverStatus, ma: u32)
      requires Valid()
      modifies bus`trace, this`lastFaultByte, this`statistics
      ensures Valid()
      ensures r == InvalidParameter <==> !IsValidChannel(channel) || !boardConfig.HasIfsConfigured()
      ensures r == InvalidParameter ==> bus.trace == old(bus.trace) && statistics == old(statistics)
      ensures r != InvalidParameter ==>
        var at := |old(bus.trace)|;
        && bus.trace == old(bus.trace) + Read32Access(at, Registers.ChannelCfgBank(ByteOf(channel)))
        && r == (if AccessOk(at) then Ok else CommunicationError)
        && statistics == old(statistics).Recorded(r == Ok)
      ensures r == Ok ==>
        ma == CodeToMa(CodeOf(UnpackChannel(bus.respond(|old(bus.trace)| + 3).data).hold), boardConfig.fullScaleCurrentMa)
      ensures r != Ok ==> ma == 0
    {
      r, ma := GetCurrentMa(channel, HoldCurrent);
    }

    /**
     * Configure channel `channel` for CDR operation in whole mA: both
     * currents are cut to the board's current limit and encoded with the
     * board's full scale, the HIT time with the cached FREQM.  A bad channel,
     * or no full scale configured, is rejected before any bus access.
     */
    method ConfigureChannelCdr(
      channel: u8, hitMa: u32, holdMa: u32, hitTimeMs: real, side: SideMode, chop: ChopFreq,
      src: bool, ol: bool, dpm: bool, hhf: bool) returns (r: DriverStatus)
      requires Valid()
      modifies bus`trace, this`lastFaultByte, this`statistics
      ensures Valid()
      ensures r == InvalidParameter <==> !IsValidChannel(channel) || !boardConfig.HasIfsConfigured()
      ensures r == InvalidParameter ==> bus.trace == old(bus.trace) && statistics == old(statistics)
      ensures r != InvalidParameter ==>
        var at := |old(bus.trace)|;
        var f := CdrChannelFields(boardConfig.fullScaleCurrentMa, cachedStatus.freqm,
          LimitedCurrent(boardConfig, hitMa), LimitedCurrent(boardConfig, holdMa), hitTimeMs,
          side, chop, src, ol, dpm, hhf);
        && bus.trace == old(bus.trace) + Write32Access(at, Registers.ChannelCfgBank(ByteOf(channel)), PackChannel(f))
        && r == (if AccessOk(at) then Ok else CommunicationError)
        && statistics == old(statistics).Recorded(r == Ok)
    {
      if !IsValidChannel(channel) || !boardConfig.HasIfsConfigured() {
        return InvalidParameter;
      }
      var f := CdrChannelFields(boardConfig.fullScaleCurrentMa, cachedStatus.freqm,
        LimitedCurrent(boardConfig, hitMa), LimitedCurrent(boardConfig, holdMa), hitTimeMs,
        side, chop, src, ol, dpm, hhf);
      r := WriteRegister32(Registers.ChannelCfgBank(ByteOf(channel)), PackChannel(f));
    }

    // -- lifecycle --

    /**
     * The STATUS read of the start-up handshake.  `comer` says that the read
     * went through but its command phase was answered with COMER; a clean
     * read keeps `NoComerFrom(_, _, from)`.
     */
    method HandshakeRead(ghost from: nat) returns (r: DriverStatus, comer: bool, value: bv32)
      requires Valid() && NoComerFrom(bus.trace, bus.respond, from)
      modifies bus`trace, this`lastFaultByte, this`statistics
      ensures Valid()
      ensures bus.trace == old(bus.trace) + Read32Access(|old(bus.trace)|, RegBank.STATUS)
      ensures r == (if AccessOk(|old(bus.trace)|) then Ok else CommunicationError)
      ensures r == Ok ==> value == bus.respond(|old(bus.trace)| + 3).data
      ensures comer == (r == Ok && FaultByteAt(|old(bus.trace)|) == StatusReg.FAULT_BYTE_COMER)
      ensures comer ==> lastFaultByte == StatusReg.FAULT_BYTE_COMER
      ensures r == Ok && !comer ==> NoComerFrom(bus.trace, bus.respond, from)
      ensures statistics == old(statistics).Recorded(r == Ok)
    {
      ghost var t0 := bus.trace;
      r, value := ReadRegister32(RegBank.STATUS);
      comer := r == Ok && lastFaultByte == StatusReg.FAULT_BYTE_COMER;
      if r == Ok && !comer {
        NoComerAppend(t0, bus.respond, from, CommandReg.Build(RegBank.STATUS, false, false), Read32Phase);
      }
    }

    /** The write of the start-up STATUS word in the handshake, checked like `HandshakeRead`. */
    method HandshakeWrite(ghost from: nat) returns (r: DriverStatus, comer: bool)
      requires Valid() && NoComerFrom(bus.trace, bus.respond, from)
      modifies bus`trace, this`lastFaultByte, this`statistics
      ensures Valid()
      ensures bus.trace == old(bus.trace) + Write32Access(|old(bus.trace)|, RegBank.STATUS, INIT_STATUS_WORD)
      ensures r == (if AccessOk(|old(bus.trace)|) then Ok else CommunicationError)
      ensures comer == (r == Ok && FaultByteAt(|old(bus.trace)|) == StatusReg.FAULT_BYTE_COMER)
      ensures comer ==> lastFaultByte == StatusReg.FAULT_BYTE_COMER
      ensures r == Ok && !comer ==> NoComerFrom(bus.trace, bus.respond, from)
      ensures statistics == old(statistics).Recorded(r == Ok)
    {
      ghost var t0 := bus.trace;
      r := WriteRegister32(RegBank.STATUS, INIT_STATUS_WORD);
      comer := r == Ok && lastFaultByte == StatusReg.FAULT_BYTE_COMER;
      if r == Ok && !comer {
        NoComerAppend(t0, bus.respond, from, STATUS_WRITE_CMD, Write32Phase(INIT_STATUS_WORD));
      }
    }

    /**
     * The bus record of a completed handshake pass starting at `at`: a read
     * of STATUS, the write of the start-up word, and the confirming read.
     */
    ghost function HandshakeEvents(at: nat): seq<BusEvent>
    {
      Read32Access(at, RegBank.STATUS) + Write32Access(at + 4, RegBank.STATUS, INIT_STATUS_WORD)
        + Read32Access(at + 8, RegBank.STATUS)
    }

    /**
     * `trace` ends with a completed handshake pass that began at `start`:
     * every access went through, no command phase since `start` was answered
     * with COMER, and `cache` holds the STATUS fields read back last.
     */
    ghost predicate HandshakeDone(trace: seq<BusEvent>, start: nat, cache: StatusFields)
    {
      && start + 12 == |trace|
      && trace[start..] == HandshakeEvents(start)
      && AccessOk(start) && AccessOk(start + 4) && AccessOk(start + 8)
      && NoComerFrom(trace, bus.respond, start)
      && cache == UnpackStatus(bus.respond(start + 11).data)
    }

    // -- the start-up handshake as a function of the transport's answers --

    /** The access starting at `at` went through and its command phase was not answered with COMER. */
    ghost predicate CleanAccess(at: nat)
    {
      AccessOk(at) && FaultByteAt(at) != StatusReg.FAULT_BYTE_COMER
    }

    /**
     * How a handshake pass goes on from its access number `k` (0: the first
     * read of STATUS, 1: the write of the start-up word, 2: the confirming
     * read), which starts at position `at`: it fails if the access did not go
     * through, asks for a retry if the command phase was answered with
     * COMER, and otherwise goes on with the next access, completing after
     * the third.
     */
    ghost function StageOutcome(at: nat, k: nat): AttemptOutcome
      requires k <= 3
      decreases 3 - k
    {
      if k == 3 then AttemptDone
      else if !AccessOk(at) then AttemptFailed
      else if FaultByteAt(at) == StatusReg.FAULT_BYTE_COMER then AttemptRetry
      else StageOutcome(at + 4, k + 1)
    }

    /** The bus record of access number `k` of a handshake pass when it starts at `at`. */
    ghost function StageAccess(at: nat, k: nat): seq<BusEvent>
    {
      if k == 1 then Write32Access(at, RegBank.STATUS, INIT_STATUS_WORD) else Read32Access(at, RegBank.STATUS)
    }

    /** The bus record of a handshake pass from its access number `k` at `at`: each access, and the next one after a clean one. */
    ghost function StageEvents(at: nat, k: nat): seq<BusEvent>
      requires k <= 2
      decreases 2 - k
    {
      StageAccess(at, k) + (if k < 2 && CleanAccess(at) then StageEvents(at + 4, k + 1) else [])
    }

    /** The outcome of a handshake pass starting at `at`. */
    ghost function PassOutcome(at: nat): AttemptOutcome
    {
      StageOutcome(at, 0)
    }

    /** The bus record of a handshake pass starting at `at`. */
    ghost function PassEvents(at: nat): seq<BusEvent>
    {
      StageEvents(at, 0)
    }

    /** The handshake of `Initialize` from position `at` with at most `n` passes. */
    ghost function HandshakeFrom(at: nat, n: nat): HandshakeRun
      reads this`passOutcome, this`passEvents
      requires n > 0
    {
      RunFrom(passOutcome, passEvents, at, n)
    }

    /**
     * The handshake from `at` after its `k`-th pass, which started at `m`,
     * ended as `outcome` with the bus record `seg` and left the transport at
     * `pos`: it is still open, or decided with `after` as its whole record.
     */
    lemma PassStep(at: nat, before: seq<BusEvent>, after: seq<BusEvent>, k: nat, m: nat,
                   outcome: AttemptOutcome, seg: seq<BusEvent>, pos: nat)
      requires PassesKnown() && 0 < k <= MAX_INIT_ATTEMPTS
      requires outcome == PassOutcome(m) && seg == PassEvents(m) && pos == m + |seg| && after == before + seg
      requires HandshakeFrom(at, MAX_INIT_ATTEMPTS) == Behind(before, k - 1, HandshakeFrom(m, MAX_INIT_ATTEMPTS - (k - 1)))
      ensures outcome == AttemptRetry && k < MAX_INIT_ATTEMPTS ==>
        HandshakeFrom(at, MAX_INIT_ATTEMPTS) == Behind(after, k, HandshakeFrom(pos, MAX_INIT_ATTEMPTS - k))
      ensures !(outcome == AttemptRetry && k < MAX_INIT_ATTEMPTS) ==>
        HandshakeFrom(at, MAX_INIT_ATTEMPTS) == HandshakeRun(outcome == AttemptDone, m, after, k)
    {
      RunStep(passOutcome, passEvents, at, MAX_INIT_ATTEMPTS, before, k - 1, m);
    }

    /** A pass completes exactly when its three accesses go through without COMER. */
    lemma PassDoneIff(at: nat)
      ensures PassOutcome(at) == AttemptDone <==> CleanAccess(at) && CleanAccess(at + 4) && CleanAccess(at + 8)
      ensures PassOutcome(at) == AttemptDone ==> |PassEvents(at)| == 12
    {
      assert StageEvents(at + 8, 2) == Read32Access(at + 8, RegBank.STATUS) + [];
      assert StageOutcome(at + 12, 3) == AttemptDone;
    }

    /** A pass writes the start-up STATUS word once if its first read is clean, and not at all otherwise. */
    lemma PassWrites(at: nat)
      ensures Occurrences(PassEvents(at), CommandPhase(STATUS_WRITE_CMD)) == if CleanAccess(at) then 1 else 0
    {
      var e := CommandPhase(STATUS_WRITE_CMD);
      var first := Read32Access(at, RegBank.STATUS);
      StatusAccessCommands(CommandOk(at));
      if CleanAccess(at) {
        var w, c := Write32Access(at + 4, RegBank.STATUS, INIT_STATUS_WORD), Read32Access(at + 8, RegBank.STATUS);
        StatusAccessCommands(CommandOk(at + 4));
        StatusAccessCommands(CommandOk(at + 8));
        assert StageEvents(at + 8, 2) == c + [];
        OccurrencesAppend(c, [], e);
        var tail := if CleanAccess(at + 4) then StageEvents(at + 8, 2) else [];
        assert StageEvents(at + 4, 1) == w + tail;
        OccurrencesAppend(w, tail, e);
        assert PassEvents(at) == first + StageEvents(at + 4, 1);
        OccurrencesAppend(first, StageEvents(at + 4, 1), e);
      } else {
        assert PassEvents(at) == first + [];
        OccurrencesAppend(first, [], e);
      }
    }

    /** The handshake writes the start-up STATUS word at most once a pass. */
    lemma HandshakeWrites(at: nat, n: nat)
      requires PassesKnown() && n > 0
      ensures Occurrences(HandshakeFrom(at, n).events, CommandPhase(STATUS_WRITE_CMD)) <= HandshakeFrom(at, n).passes
    {
      forall p: nat
        ensures Occurrences(passEvents(p), CommandPhase(STATUS_WRITE_CMD)) <= 1
      {
        PassWrites(p);
      }
      RunOccurrences(passOutcome, passEvents, at, n, CommandPhase(STATUS_WRITE_CMD));
    }

    /**
     * The bus record of `Initialize` after power-up at `at`, the handshake
     * and the lowering of ENABLE when it does not complete, writes the
     * start-up STATUS word at most three times and, on failure, ends with
     * ENABLE lowered.
     */
    lemma StartRecord(at: nat)
      requires PassesKnown()
      ensures var run := HandshakeFrom(at, MAX_INIT_ATTEMPTS);
        var rest := run.events + (if run.done then [] else [SetPin(EnablePin, false)]);
        && Occurrences(rest, CommandPhase(STATUS_WRITE_CMD)) <= MAX_INIT_ATTEMPTS
        && (!run.done ==> |rest| > 0 && rest[|rest| - 1] == SetPin(EnablePin, false))
    {
      var run := HandshakeFrom(at, MAX_INIT_ATTEMPTS);
      var e := CommandPhase(STATUS_WRITE_CMD);
      RunBounds(passOutcome, passEvents, at, MAX_INIT_ATTEMPTS);
      HandshakeWrites(at, MAX_INIT_ATTEMPTS);
      if !run.done {
        OccurrencesAppend(run.events, [SetPin(EnablePin, false)], e);
        OccurrencesSingle(SetPin(EnablePin, false), e);
      } else {
        assert run.events + [] == run.events;
      }
    }

    /** A clean first pass completes the handshake at once. */
    lemma CleanFirstPass(at: nat, n: nat)
      requires PassesKnown()
      requires n > 0 && CleanAccess(at) && CleanAccess(at + 4) && CleanAccess(at + 8)
      ensures HandshakeFrom(at, n) == HandshakeRun(true, at, PassEvents(at), 1)
    {
      PassDoneIff(at);
      assert passOutcome(at) == PassOutcome(at);
      RunFirstDone(passOutcome, passEvents, at, n);
    }

    /** COMER on each of three passes in a row makes the handshake fail after its third pass. */
    lemma PersistentComer(at: nat)
      requires PassesKnown()
      requires PassOutcome(at) == AttemptRetry
      requires PassOutcome(at + |PassEvents(at)|) == AttemptRetry
      requires PassOutcome(at + |PassEvents(at)| + |PassEvents(at + |PassEvents(at)|)|) == AttemptRetry
      ensures !HandshakeFrom(at, MAX_INIT_ATTEMPTS).done
      ensures HandshakeFrom(at, MAX_INIT_ATTEMPTS).passes == MAX_INIT_ATTEMPTS
    {
      RunRetriesOut(passOutcome, passEvents, at);
    }

    /**
     * One pass of the start-up handshake: read STATUS, write the start-up
     * STATUS, cache it, and read STATUS back into the cache.  The pass asks
     * for a retry as soon as an access is answered with COMER, and fails on
     * any transport failure.
     */
    method InitAttempt() returns (outcome: AttemptOutcome, ghost seg: seq<BusEvent>)
      requires Valid()
      modifies bus`trace, this`lastFaultByte, this`statistics, this`cachedStatus
      ensures Valid()
      ensures bus.trace == old(bus.trace) + seg
      ensures outcome == PassOutcome(|old(bus.trace)|) && seg == PassEvents(|old(bus.trace)|)
      ensures outcome == AttemptRetry ==> lastFaultByte == StatusReg.FAULT_BYTE_COMER
      ensures outcome == AttemptDone ==> HandshakeDone(bus.trace, |old(bus.trace)|, cachedStatus)
    {
      ghost var t0, at := bus.trace, |bus.trace|;
      assert NoComerFrom(bus.trace, bus.respond, at);
      var r, comer, value := HandshakeRead(at);
      seg := Read32Access(at, RegBank.STATUS);
      if r != Ok || comer {
        assert PassEvents(at) == seg + [];
        return if comer then AttemptRetry else AttemptFailed, seg;
      }
      ghost var t1, rest := bus.trace, [];
      outcome, rest := WriteAndConfirm(at);
      if outcome == AttemptDone {
        HandshakeJoin(t0, seg, t1, rest, cachedStatus);
      }
      ConcatAssoc(t0, seg, rest);
      seg := seg + rest;
    }

    /**
     * `seg`, recorded after `trace`, is a completed write of the start-up
     * STATUS word and its confirming read, whose STATUS fields are `cache`.
     */
    ghost predicate ConfirmDone(trace: seq<BusEvent>, seg: seq<BusEvent>, cache: StatusFields)
    {
      var at := |trace|;
      && AccessOk(at) && AccessOk(at + 4)
      && seg == Write32Access(at, RegBank.STATUS, INIT_STATUS_WORD) + Read32Access(at + 4, RegBank.STATUS)
      && cache == UnpackStatus(bus.respond(at + 7).data)
    }

    /** A clean first read of STATUS followed by a completed write and confirming read is a completed pass. */
    lemma HandshakeJoin(t0: seq<BusEvent>, first: seq<BusEvent>, t1: seq<BusEvent>, rest: seq<BusEvent>, cache: StatusFields)
      requires first == Read32Access(|t0|, RegBank.STATUS) && AccessOk(|t0|) && t1 == t0 + first
      requires ConfirmDone(t1, rest, cache) && NoComerFrom(t1 + rest, bus.respond, |t0|)
      ensures HandshakeDone(t1 + rest, |t0|, cache)
    {
      var at := |t0|;
      assert |first| == 4 && |rest| == 8;
      assert (t0 + first + rest)[at..] == first + rest;
    }

    /** The write and confirming read of a handshake pass whose first read was clean since `from`. */
    method WriteAndConfirm(ghost from: nat) returns (outcome: AttemptOutcome, ghost seg: seq<BusEvent>)
      requires Valid() && NoComerFrom(bus.trace, bus.respond, from)
      modifies bus`trace, this`lastFaultByte, this`statistics, this`cachedStatus
      ensures Valid()
      ensures bus.trace == old(bus.trace) + seg
      ensures outcome == StageOutcome(|old(bus.trace)|, 1) && seg == StageEvents(|old(bus.trace)|, 1)
      ensures outcome == AttemptRetry ==> lastFaultByte == StatusReg.FAULT_BYTE_COMER
      ensures outcome == AttemptDone ==>
        ConfirmDone(old(bus.trace), seg, cachedStatus) && NoComerFrom(bus.trace, bus.respond, from)
    {
      ghost var t0 := bus.trace;
      var r, comer := HandshakeWrite(from);
      var value;
      seg := Write32Access(|t0|, RegBank.STATUS, INIT_STATUS_WORD);
      if r != Ok || comer {
        assert StageEvents(|t0|, 1) == seg + [];
        assert StageOutcome(|t0|, 1) == if comer then AttemptRetry else AttemptFailed;
        return if comer then AttemptRetry else AttemptFailed, seg;
      }
      cachedStatus := INIT_STATUS;
      assert StageOutcome(|t0|, 1) == StageOutcome(|t0| + 4, 2);
      assert StageEvents(|t0|, 1) == seg + StageEvents(|t0| + 4, 2);

      ghost var t1 := bus.trace;
      assert |t1| == |t0| + 4;
      r, comer, value := HandshakeRead(from);
      ghost var c := Read32Access(|t1|, RegBank.STATUS);
      assert StageEvents(|t1|, 2) == c + [];
      ConcatAssoc(t0, seg, c);
      if r == Ok && !comer {
        ConfirmJoin(t0, seg, t1, c, value);
      }
      seg := seg + c;
      assert seg == StageEvents(|t0|, 1);
      if r != Ok || comer {
        assert StageOutcome(|t1|, 2) == if comer then AttemptRetry else AttemptFailed;
        return if comer then AttemptRetry else AttemptFailed, seg;
      }
      assert StageOutcome(|t1|, 2) == StageOutcome(|t1| + 4, 3);
      cachedStatus := UnpackStatus(value);
      outcome := AttemptDone;
    }

    /** A completed write of the start-up STATUS word followed by a completed read of STATUS. */
    lemma ConfirmJoin(t0: seq<BusEvent>, w: seq<BusEvent>, t1: seq<BusEvent>, c: seq<BusEvent>, value: bv32)
      requires w == Write32Access(|t0|, RegBank.STATUS, INIT_STATUS_WORD) && AccessOk(|t0|) && t1 == t0 + w
      requires c == Read32Access(|t1|, RegBank.STATUS) && AccessOk(|t1|)
      requires value == bus.respond(|t1| + 3).data
      ensures ConfirmDone(t0, w + c, UnpackStatus(value))
    {
      assert |w| == 4;
    }

    /**
     * Bring the device up: set up the transport (SPI mode 0, MSB first),
     * raise ENABLE, wait the power-up time, then run the handshake up to
     * three times while it is answered with COMER.  A transport set-up
     * failure gives InitializationError; a transfer failure, or COMER on
     * every attempt, lowers ENABLE again and gives CommunicationError.
     * `start` is where the last handshake pass began.
     */
    method Initialize() returns (r: DriverStatus, ghost start: nat, ghost rest: seq<BusEvent>)
      requires Valid() && PassesKnown()
      modifies bus`trace, this`lastFaultByte, this`statistics, this`cachedStatus, this`initialized
      ensures Valid()
      ensures initialized <==> r == Ok
      ensures r == Ok || r == InitializationError || r == CommunicationError
      ensures var at := |old(bus.trace)|;
        r == InitializationError <==> !bus.respond(at).ok || !bus.respond(at + 1).ok
      ensures r == InitializationError ==>
        bus.trace == old(bus.trace) + [InitBus]
          + (if bus.respond(|old(bus.trace)|).ok then [ConfigureBus(SPI_MODE, true)] else [])
      ensures r != InitializationError ==> bus.trace == old(bus.trace) + PowerUpEvents() + rest
      ensures r == Ok ==> |old(bus.trace)| + 4 <= start && HandshakeDone(bus.trace, start, cachedStatus)
      ensures r != InitializationError ==>
        var run := HandshakeFrom(|old(bus.trace)| + |PowerUpEvents()|, MAX_INIT_ATTEMPTS);
        && r == (if run.done then Ok else CommunicationError)
        && rest == run.events + (if run.done then [] else [SetPin(EnablePin, false)])
        && (r == Ok ==> start == run.start)
    {
      start, rest := |bus.trace|, [];
      r := PowerUp();
      if r == Ok {
        r, start, rest := Start();
      }
      initialized := r == Ok;
    }

    /**
     * The steps of `Initialize` after power-up: the handshake passes, and
     * lowering ENABLE again when they do not complete.
     */
    method Start() returns (r: DriverStatus, ghost start: nat, ghost rest: seq<BusEvent>)
      requires Valid() && PassesKnown()
      modifies bus`trace, this`lastFaultByte, this`statistics, this`cachedStatus
      ensures Valid()
      ensures bus.trace == old(bus.trace) + rest
      ensures var run := HandshakeFrom(|old(bus.trace)|, MAX_INIT_ATTEMPTS);
        && r == (if run.done then Ok else CommunicationError)
        && rest == run.events + (if run.done then [] else [SetPin(EnablePin, false)])
        && (r == Ok ==> start == run.start)
      ensures r == Ok ==> |old(bus.trace)| <= start && HandshakeDone(bus.trace, start, cachedStatus)
    {
      var done;
      done, start, rest := Handshake();
      if !done {
        var _ := Signal(SetPin(EnablePin, false));
        rest := rest + [SetPin(EnablePin, false)];
        r := CommunicationError;
      } else {
        r := Ok;
      }
    }

    /** Transport set-up and power-up: the steps of `Initialize` before the handshake. */
    method PowerUp() returns (r: DriverStatus)
      requires Valid()
      modifies bus`trace
      ensures Valid()
      ensures r == Ok || r == InitializationError
      ensures var at := |old(bus.trace)|;
        r == InitializationError <==> !bus.respond(at).ok || !bus.respond(at + 1).ok
      ensures r == InitializationError ==>
        bus.trace == old(bus.trace) + [InitBus]
          + (if bus.respond(|old(bus.trace)|).ok then [ConfigureBus(SPI_MODE, true)] else [])
      ensures r == Ok ==> bus.trace == old(bus.trace) + PowerUpEvents()
    {
      var reply := Signal(InitBus);
      if !reply.ok {
        return InitializationError;
      }
      reply := Signal(ConfigureBus(SPI_MODE, true));
      if !reply.ok {
        return InitializationError;
      }
      var _ := Signal(SetPin(EnablePin, true));
      var _ := Signal(Delay(POWER_UP_DELAY_US));
      r := Ok;
    }

    /**
     * The handshake passes of `Initialize`: at most three, as long as each
     * asks for a retry.  `attempts` is their bus record and `start` where
     * the last one began.
     */
    method Handshake() returns (done: bool, ghost start: nat, ghost attempts: seq<BusEvent>)
      requires Valid() && PassesKnown()
      modifies bus`trace, this`lastFaultByte, this`statistics, this`cachedStatus
      ensures Valid()
      ensures bus.trace == old(bus.trace) + attempts
      ensures var run := HandshakeFrom(|old(bus.trace)|, MAX_INIT_ATTEMPTS);
        done == run.done && attempts == run.events && start == run.start
      ensures done ==> |old(bus.trace)| <= start && HandshakeDone(bus.trace, start, cachedStatus)
    {
      ghost var at := |bus.trace|;
      attempts := [];
      start := at;
      var attempt := 0;
      var outcome := AttemptRetry;
      BehindNothing(HandshakeFrom(at, MAX_INIT_ATTEMPTS));
      while attempt < MAX_INIT_ATTEMPTS && outcome == AttemptRetry
        invariant Valid()
        invariant 0 <= attempt <= MAX_INIT_ATTEMPTS
        invariant bus.trace == old(bus.trace) + attempts
        invariant outcome == AttemptRetry && attempt < MAX_INIT_ATTEMPTS ==>
          HandshakeFrom(at, MAX_INIT_ATTEMPTS)
            == Behind(attempts, attempt, HandshakeFrom(|bus.trace|, MAX_INIT_ATTEMPTS - attempt))
        invariant !(outcome == AttemptRetry && attempt < MAX_INIT_ATTEMPTS) ==>
          HandshakeFrom(at, MAX_INIT_ATTEMPTS) == HandshakeRun(outcome == AttemptDone, start, attempts, attempt)
        invariant outcome == AttemptDone ==> at <= start && HandshakeDone(bus.trace, start, cachedStatus)
        decreases MAX_INIT_ATTEMPTS - attempt
      {
        start := |bus.trace|;
        ghost var seg;
        outcome, seg := InitAttempt();
        ConcatAssoc(old(bus.trace), attempts, seg);
        ghost var before := attempts;
        attempts := attempts + seg;
        attempt := attempt + 1;
        PassStep(at, before, attempts, attempt, start, outcome, seg, |bus.trace|);
      }
      done := outcome == AttemptDone;
    }

    /** Write the cached STATUS fields as the whole STATUS register. */
    method WriteIdleStatus() returns (r: DriverStatus)
      requires Valid()
      modifies bus`trace, this`lastFaultByte, this`statistics
      ensures Valid()
      ensures bus.trace == old(bus.trace) + Write32Access(|old(bus.trace)|, RegBank.STATUS, PackStatus(cachedStatus))
      ensures r == (if AccessOk(|old(bus.trace)|) then Ok else CommunicationError)
      ensures statistics == old(statistics).Recorded(r == Ok)
    {
      r := WriteRegister32(RegBank.STATUS, PackStatus(cachedStatus));
    }

    /**
     * Shut the device down: all channels off through the fast ONCH write,
     * the cached STATUS written back with ACTIVE cleared, and ENABLE lowered.
     * Every step is taken even if an earlier write fails, and the driver
     * ends uninitialized.  Nothing happens if the driver is not initialized.
     */
    method Deinitialize() returns (r: DriverStatus)
      requires Valid()
      modifies bus`trace, this`lastFaultByte, this`statistics, this`cachedStatus, this`initialized
      ensures Valid() && !initialized
      ensures !old(initialized) ==>
        r == Ok && bus.trace == old(bus.trace) && cachedStatus == old(cachedStatus) && statistics == old(statistics)
      ensures old(initialized) ==> cachedStatus == old(cachedStatus).(onch := 0, active := false)
      ensures old(initialized) ==>
        var at := |old(bus.trace)|;
        var at2 := at + |Write8Access(at, RegBank.STATUS, 0)|;
        bus.trace == old(bus.trace) + Write8Access(at, RegBank.STATUS, 0)
          + Write32Access(at2, RegBank.STATUS, PackStatus(cachedStatus)) + [SetPin(EnablePin, false)]
      ensures old(initialized) ==>
        var at := |old(bus.trace)|;
        var at2 := at + |Write8Access(at, RegBank.STATUS, 0)|;
        && r == (if AccessOk(at) && AccessOk(at2) then Ok else CommunicationError)
        && statistics == old(statistics).Recorded(AccessOk(at)).Recorded(AccessOk(at2))
    {
      if !initialized {
        return Ok;
      }
      r := Shutdown();
      initialized := false;
    }

    /** The three shut-down steps of `Deinitialize`. */
    method Shutdown() returns (r: DriverStatus)
      requires Valid()
      modifies bus`trace, this`lastFaultByte, this`statistics, this`cachedStatus
      ensures Valid()
      ensures cachedStatus == old(cachedStatus).(onch := 0, active := false)
      ensures var at := |old(bus.trace)|;
        var at2 := at + |Write8Access(at, RegBank.STATUS, 0)|;
        && bus.trace == old(bus.trace) + Write8Access(at, RegBank.STATUS, 0)
          + Write32Access(at2, RegBank.STATUS, PackStatus(cachedStatus)) + [SetPin(EnablePin, false)]
        && r == (if AccessOk(at) && AccessOk(at2) then Ok else CommunicationError)
        && statistics == old(statistics).Recorded(AccessOk(at)).Recorded(AccessOk(at2))
    {
      ghost var at := |bus.trace|;
      var r1 := SetChannelsOn(0);
      assert |bus.trace| == at + |Write8Access(at, RegBank.STATUS, 0)|;
      cachedStatus := cachedStatus.(active := false);
      var r2 := WriteIdleStatus();
      var _ := SetDeviceEnable(false);
      r := if r1 == Ok && r2 == Ok then Ok else CommunicationError;
    }
  }
}
