/**
 * The bus the controller drives, as an abstract transport.  The SPI
 * peripheral, the CMD / ENABLE / nFAULT lines and the delay routine are one
 * object that records every operation the controller asks of it, in order,
 * and answers each from a fixed oracle indexed by the operation's position in
 * the record.  Nothing is said about how the transport moves bits: a 32-bit
 * data phase is recorded as the whole register word, without a byte order.
 */
module Transport {

  /** The control lines of the device. */
  datatype Pin = EnablePin | CmdPin | FaultPin

  /** One operation of the transport, as the controller requests it. */
  datatype BusEvent =
    | InitBus                                // the transport's `init()`
    | ConfigureBus(mode: nat, msbFirst: bool) // SPI mode and bit order
    | SetPin(pin: Pin, active: bool)
    | ReadPin(pin: Pin)
    | Delay(us: nat)
    | CommandPhase(cmd: bv8)                 // one-byte transfer, CMD held high
    | Write32Phase(value: bv32)              // full-register data phase, written
    | Read32Phase                            // full-register data phase, read
    | Write8Phase(byte: bv8)                 // MSB-only data phase, written
    | Read8Phase                             // MSB-only data phase, read

  /** What the transport answers: whether the operation succeeded, and the bits clocked in. */
  datatype Reply = Reply(ok: bool, data: bv32)

  /** The byte received in a one-byte transfer. */
  function LowByte(r: Reply): (b: bv8)
    ensures b as bv32 == r.data & 0xFF
  {
    (r.data & 0xFF) as bv8
  }

  /** The transport: what it has been asked so far, and how it will answer. */
  class Bus {
    var trace: seq<BusEvent>
    const respond: nat -> Reply

    constructor (respond: nat -> Reply)
      ensures trace == [] && this.respond == respond
    {
      trace := [];
      this.respond := respond;
    }

    /** Carry out `e`: it is recorded, and answered by the oracle for its position. */
    method Perform(e: BusEvent) returns (r: Reply)
      modifies this`trace
      ensures trace == old(trace) + [e]
      ensures r == respond(|old(trace)|)
    {
      r := respond(|trace|);
      trace := trace + [e];
    }
  }

  /**
   * The fault byte of the most recent successful command phase among the
   * operations at positions `from` onwards, or 0 if there is none.
   */
  ghost function LatestFaultByte(trace: seq<BusEvent>, respond: nat -> Reply, from: nat): bv8
    decreases |trace|
  {
    if |trace| <= from then 0
    else
      var i := |trace| - 1;
      if trace[i].CommandPhase? && respond(i).ok then LowByte(respond(i))
      else LatestFaultByte(trace[..i], respond, from)
  }

  /** An operation other than a successful command phase leaves the latest fault byte alone. */
  lemma LatestAfterOther(trace: seq<BusEvent>, respond: nat -> Reply, from: nat, e: BusEvent)
    requires from <= |trace|
    requires !(e.CommandPhase? && respond(|trace|).ok)
    ensures LatestFaultByte(trace + [e], respond, from) == LatestFaultByte(trace, respond, from)
  {
    assert (trace + [e])[..|trace|] == trace;
  }

  /** A successful command phase makes its own fault byte the latest. */
  lemma LatestAfterCommand(trace: seq<BusEvent>, respond: nat -> Reply, from: nat, cmd: bv8)
    requires from <= |trace| && respond(|trace|).ok
    ensures LatestFaultByte(trace + [CommandPhase(cmd)], respond, from) == LowByte(respond(|trace|))
  {
  }

  /** Number of operations of `trace` that are `e`. */
  function Occurrences(trace: seq<BusEvent>, e: BusEvent): (n: nat)
    ensures n <= |trace|
  {
    if trace == [] then 0
    else Occurrences(trace[..|trace| - 1], e) + (if trace[|trace| - 1] == e then 1 else 0)
  }

  /** `e` occurs in `trace` no times exactly when it is not in `trace`. */
  lemma {:induction false} OccurrencesAbsent(trace: seq<BusEvent>, e: BusEvent)
    ensures Occurrences(trace, e) == 0 <==> e !in trace
    decreases |trace|
  {
    if trace != [] {
      var init := trace[..|trace| - 1];
      OccurrencesAbsent(init, e);
      assert trace == init + [trace[|trace| - 1]];
    }
  }

  /** A one-operation record holds `e` once if it is `e`, and not at all otherwise. */
  lemma OccurrencesSingle(a: BusEvent, e: BusEvent)
    ensures Occurrences([a], e) == if a == e then 1 else 0
  {
    assert [a][..0] == [];
  }

  lemma {:induction false} OccurrencesAppend(a: seq<BusEvent>, b: seq<BusEvent>, e: BusEvent)
    ensures Occurrences(a + b, e) == Occurrences(a, e) + Occurrences(b, e)
    decreases |b|
  {
    if b == [] {
      assert a + b == a;
    } else {
      var n := |b| - 1;
      assert (a + b)[..|a + b| - 1] == a + b[..n];
      OccurrencesAppend(a, b[..n], e);
    }
  }

  /**
   * Concatenation regrouped.  Stated once here so that the driver's methods
   * call it in place of asserting it among their many sequence facts.
   */
  lemma ConcatAssoc(a: seq<BusEvent>, b: seq<BusEvent>, c: seq<BusEvent>)
    ensures a + b + c == a + (b + c)
  {
  }

  /** Number of data phases of `trace` that carry a full 32-bit register. */
  function FullDataPhases(trace: seq<BusEvent>): (n: nat)
    ensures n <= |trace|
  {
    if trace == [] then 0
    else
      var last := trace[|trace| - 1];
      FullDataPhases(trace[..|trace| - 1]) + (if last.Write32Phase? || last.Read32Phase? then 1 else 0)
  }

  /** Number of data phases of `trace` that carry only a register's most significant byte. */
  function ShortDataPhases(trace: seq<BusEvent>): (n: nat)
    ensures n <= |trace|
  {
    if trace == [] then 0
    else
      var last := trace[|trace| - 1];
      ShortDataPhases(trace[..|trace| - 1]) + (if last.Write8Phase? || last.Read8Phase? then 1 else 0)
  }

  /** The three phase counters of `trace + [e]`, from those of `trace`. */
  lemma PhasesSnoc(trace: seq<BusEvent>, e: BusEvent)
    ensures CommandPhases(trace + [e]) == CommandPhases(trace) + (if e.CommandPhase? then 1 else 0)
    ensures FullDataPhases(trace + [e]) ==
      FullDataPhases(trace) + (if e.Write32Phase? || e.Read32Phase? then 1 else 0)
    ensures ShortDataPhases(trace + [e]) ==
      ShortDataPhases(trace) + (if e.Write8Phase? || e.Read8Phase? then 1 else 0)
    ensures Occurrences(trace + [e], e) == Occurrences(trace, e) + 1
  {
    assert (trace + [e])[..|trace|] == trace;
  }

  /** Number of command phases of `trace`. */
  function CommandPhases(trace: seq<BusEvent>): (n: nat)
    ensures n <= |trace|
  {
    if trace == [] then 0
    else CommandPhases(trace[..|trace| - 1]) + (if trace[|trace| - 1].CommandPhase? then 1 else 0)
  }
}
