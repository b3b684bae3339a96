/** Manual DMA, HDMA and the arbitration that every CPU cycle goes through. */
module MachineDma {
  import opened Clock
  import opened MachineBus
  import HdmaTable

  /** A state and the DMA clocks spent to reach it, refresh stalls not counted. */
  datatype Ran = Ran(s: State, clocks: int)

  /** The outcome of one arbitration: whether a transfer ran in this CPU cycle. */
  datatype Arbitrated = Arbitrated(s: State, ran: bool, clocks: int)

  predicate CpuSpeed(speed: int) {
    speed == 6 || speed == 8 || speed == 12
  }

  // ----- one step of a transfer -----

  /** A table byte: read, then eight clocks. */
  function Fetch(s: State, a: int): Got {
    var g := Read(s, a);
    if Failed(g.s) then g else Got(Wait(g.s, 8), g.value)
  }

  /** One byte from the A bus to the B bus, without its clocks. */
  function Carry(s: State, source: int, target: int): State {
    var g := Read(s, source);
    if Failed(g.s) then g.s else Write(g.s, target, g.value)
  }

  function ToBoundary(s: State): (n: int)
    ensures 1 <= n <= 8
  {
    8 - s.t.beam.clock % 8
  }

  function ToCpu(clocks: int, speed: int): (n: int)
    requires CpuSpeed(speed)
    ensures 1 <= n <= speed
  {
    speed - clocks % speed
  }

  // ----- HDMA -----

  /** A nested run shares the manual transfer's clock domain; an ordinary one synchronises at both ends. */
  function Begin(s: State, nested: bool): Ran {
    if nested then Ran(s, 0) else Ran(Wait(s, ToBoundary(s)), ToBoundary(s))
  }

  function Finish(r: Ran, speed: int, nested: bool): Ran
    requires CpuSpeed(speed)
  {
    if Failed(r.s) || nested then r
    else Ran(Wait(r.s, ToCpu(r.clocks, speed)), r.clocks + ToCpu(r.clocks, speed))
  }

  /** Eight clocks of overhead. */
  function Overhead(r: Ran): Ran {
    Ran(Wait(r.s, 8), r.clocks + 8)
  }

  function WithCursor(s: State, c: HdmaTable.Cursor): State {
    s.(d := s.d.(hdma := c))
  }

  function TableAddress(s: State, table: int): int {
    s.d.ch2.bank * 0x10000 + table
  }

  /** Reads the rest of a descriptor whose first byte has been read at `table`. */
  function Descriptor(r: Ran, first: int, table: int): Ran {
    if Failed(r.s) then r
    else
      var low := Fetch(r.s, TableAddress(r.s, HdmaTable.Next(table)));
      if Failed(low.s) then Ran(low.s, r.clocks)
      else if first == 0 then
        Ran(WithCursor(low.s, HdmaTable.Cursor(HdmaTable.Next(HdmaTable.Next(table)), 0, true, true, true,
                                               low.value * 0x100)), r.clocks + 8)
      else
        var high := Fetch(low.s, TableAddress(low.s, HdmaTable.Next(HdmaTable.Next(table))));
        if Failed(high.s) then Ran(high.s, r.clocks + 8)
        else
          Ran(WithCursor(high.s, HdmaTable.Cursor(HdmaTable.Next(HdmaTable.Next(HdmaTable.Next(table))), first,
                                                  true, false, true, low.value + high.value * 0x100)), r.clocks + 16)
  }

  function ClearCursor(s: State): State {
    WithCursor(s, s.d.hdma.(finished := false, transfer := false, ready := false))
  }

  predicate Enabled(s: State) {
    s.r.hdmaen / 4 % 2 == 1
  }

  /** The frame's initialisation. */
  function HdmaInit(s: State, speed: int, nested: bool): Ran
    requires CpuSpeed(speed)
  {
    var cleared := ClearCursor(s);
    if !Enabled(s) then Ran(cleared, 0)
    else if s.r.hdmaen != 4 || !Proved(s.d) then Ran(Fail(cleared, HdmaConfig), 0)
    else
      var begun := Overhead(Begin(cleared, nested));
      if Failed(begun.s) then begun
      else
        var first := Fetch(begun.s, TableAddress(begun.s, begun.s.d.ch2.source));
        Finish(Descriptor(Ran(first.s, begun.clocks + 8), first.value, s.d.ch2.source), speed, nested)
  }

  /** Mode 2: two bytes through the indirect pointer to one register. */
  function CopyIndirect(r: Ran): Ran {
    if Failed(r.s) then r
    else
      var d := r.s.d;
      var moved := Carry(r.s, d.ch2.indirectBank * 0x10000 + d.hdma.pointer, 0x2100 + d.ch2.bbad);
      if Failed(moved) then Ran(moved, r.clocks)
      else
        var w := Wait(moved, 8);
        Ran(WithCursor(w, w.d.hdma.(pointer := (w.d.hdma.pointer + 1) % 0x10000)), r.clocks + 8)
  }

  /** The line counter, the speculative read and, at the end of a descriptor, the next one. */
  function NextLine(r: Ran): Ran {
    if Failed(r.s) then r
    else
      var c := r.s.d.hdma;
      var counter := (c.counter - 1) % 0x100;
      var counted := WithCursor(r.s, c.(counter := counter, transfer := counter >= 0x80));
      var first := Fetch(counted, TableAddress(counted, c.table));
      if Failed(first.s) then Ran(first.s, r.clocks)
      else if counter % 0x80 != 0 then Ran(first.s, r.clocks + 8)
      else Descriptor(Ran(first.s, r.clocks + 8), first.value, c.table)
  }

  /** One scanline's service. */
  function HdmaScanline(s: State, speed: int, nested: bool): Ran
    requires CpuSpeed(speed)
  {
    if !Enabled(s) then Ran(s, 0)
    else if s.r.hdmaen != 4 || !Proved(s.d) then Ran(Fail(s, HdmaConfig), 0)
    else if !s.d.hdma.ready then Ran(Fail(s, HdmaNotReady), 0)
    else if s.d.hdma.finished then Ran(s, 0)
    else
      var begun := Overhead(Begin(s, nested));
      var copied := if s.d.hdma.transfer then CopyIndirect(CopyIndirect(begun)) else begun;
      Finish(NextLine(copied), speed, nested)
  }

  /** The request that is about to be served is no longer pending. */
  function Taken(s: State): State {
    var pace := s.t.arb.pace.(whole := s.t.arb.pace.whole && s.r.hdmaen == 4);
    s.(t := s.t.(arb := if s.t.arb.transferPending
                        then s.t.arb.(transferPending := false, pace := pace.(taken := pace.taken + 1))
                        else s.t.arb.(initPending := false, pace := pace)))
  }

  /** A pending transfer goes before a pending initialisation. */
  function ServeHdma(s: State, speed: int, nested: bool): Arbitrated
    requires CpuSpeed(speed)
  {
    var u := Taken(s);
    if s.t.arb.transferPending then
      if s.r.hdmaen == 0 then Arbitrated(u, false, 0)
      else var ran := HdmaScanline(u, speed, nested); Arbitrated(ran.s, true, ran.clocks)
    else if s.r.hdmaen == 0 then Arbitrated(ClearCursor(u), false, 0)
    else var ran := HdmaInit(u, speed, nested); Arbitrated(ran.s, true, ran.clocks)
  }

  predicate HdmaPending(s: State) {
    s.t.arb.initPending || s.t.arb.transferPending
  }

  function ClearDelay(s: State): State {
    s.(t := s.t.(arb := s.t.arb.(startDelay := false)))
  }

  /** The checkpoint after the startup and after every byte of a manual transfer. */
  function Checkpoint(r: Ran, speed: int): Ran
    requires CpuSpeed(speed)
  {
    if Failed(r.s) then r
    else if r.s.t.arb.startDelay then Ran(ClearDelay(r.s), r.clocks)
    else if !HdmaPending(r.s) then r
    else var served := ServeHdma(r.s, speed, true); Ran(served.s, r.clocks + served.clocks)
  }

  // ----- manual DMA -----

  function Offset(mode: int, n: int): int {
    if mode == 1 || mode == 5 then n % 2
    else if mode == 3 || mode == 7 then n % 4 / 2
    else if mode == 4 then n % 4
    else 0
  }

  function SourceAt(ch: Channel, n: int): int {
    if ch.dmap / 8 % 2 == 1 then ch.source % 0x10000
    else if ch.dmap / 16 % 2 == 1 then (ch.source - n) % 0x10000
    else (ch.source + n) % 0x10000
  }

  function Remaining(ch: Channel): (n: int) {
    if ch.size == 0 then 65536 else ch.size
  }

  /** The n-th byte of a transfer: the move, its eight clocks, and the checkpoint. */
  function MoveByte(r: Ran, ch: Channel, n: int, speed: int): Ran
    requires CpuSpeed(speed)
  {
    if Failed(r.s) then r
    else
      var moved := Carry(r.s, ch.bank * 0x10000 + SourceAt(ch, n),
                         0x2100 + (ch.bbad + Offset(ch.dmap % 8, n)) % 0x100);
      if Failed(moved) then Ran(moved, r.clocks)
      else Checkpoint(Overhead(Ran(moved, r.clocks)), speed)
  }

  /** The transfer after `n` bytes. */
  function Moved(r: Ran, ch: Channel, n: nat, speed: int): Ran
    requires CpuSpeed(speed)
  {
    if n == 0 then r else MoveByte(Moved(r, ch, n - 1, speed), ch, n - 1, speed)
  }

  predicate ModeReached(index: int, mode: int) {
    ((index == 0 || index == 1) && mode <= 2) || (index == 7 && mode == 1)
  }

  function RunChannel(r: Ran, index: int, speed: int): Ran
    requires CpuSpeed(speed)
  {
    if Failed(r.s) then r
    else
      var ch := GetChannel(r.s.d, index);
      if ch.dmap / 128 % 2 == 1 then Ran(Fail(r.s, DmaDirection), r.clocks)
      else if !ModeReached(index, ch.dmap % 8) then Ran(Fail(r.s, DmaMode), r.clocks)
      else
        var count := if Remaining(ch) < 0 then 0 else Remaining(ch);
        var u := Moved(r, ch, count, speed);
        if Failed(u.s) then u
        else
          Ran(u.s.(d := SetChannel(u.s.d, index, GetChannel(u.s.d, index).(source := SourceAt(ch, count), size := 0))),
              u.clocks)
  }

  function PendingChannel(mask: int): int {
    if mask == 1 then 0 else if mask == 2 then 1 else 7
  }

  /** The start synchronisation, the global and the channel overhead, each overhead with its checkpoint. */
  function Startup(s: State, speed: int): Ran
    requires CpuSpeed(speed)
  {
    var started := Checkpoint(Overhead(Begin(s, false)), speed);
    if Failed(started.s) then started else Checkpoint(Overhead(started), speed)
  }

  /** A manual transfer from its start synchronisation to the end one. */
  function RunDma(s: State, speed: int): Ran
    requires CpuSpeed(speed)
  {
    var mask := s.d.mask;
    var taken := s.(d := s.d.(mask := 0));
    if mask != 1 && mask != 2 && mask != 0x80 then Ran(Fail(taken, DmaMask), 0)
    else Finish(RunChannel(Startup(taken, speed), PendingChannel(mask), speed), speed, false)
  }

  // ----- the CPU cycle -----

  function Arbitrate(s: State, speed: int): Arbitrated
    requires CpuSpeed(speed)
  {
    if Failed(s) || (s.d.mask == 0 && !HdmaPending(s)) then Arbitrated(s, false, 0)
    else if s.t.arb.startDelay then Arbitrated(ClearDelay(s), false, 0)
    else if HdmaPending(s) then ServeHdma(s, speed, false)
    else var ran := RunDma(s, speed); Arbitrated(ran.s, true, ran.clocks)
  }

  /** The edge detector: a cycle in which a transfer ran defers the sampled edge by one cycle. */
  function Sample(n: Nmi, lock: bool): Nmi {
    if n.counter <= 0 then n
    else if n.counter > 1 then n.(counter := n.counter - 1)
    else if lock then n.(counter := 1, pending := false)
    else n.(counter := 0, pending := true)
  }

  /** The transfer's clocks, whether the cycle was free of one, and whether it latched an edge. */
  function Counted(k: Counts, n: Nmi, ran: bool, clocks: int): Counts {
    k.(tally := k.tally.(dmaClocks := k.tally.dmaClocks + clocks, free := k.tally.free + (if ran then 0 else 1),
                         latched := k.tally.latched + (if n.counter == 1 && !ran then 1 else 0)))
  }

  /** What comes before the clocks of a CPU cycle: arbitration and sampling. */
  function Sampled(s: State, speed: int): State
    requires CpuSpeed(speed)
  {
    var a := Arbitrate(s, speed);
    if Failed(a.s) then a.s
    else
      a.s.(t := a.s.t.(nmi := Sample(a.s.t.nmi, a.ran)), k := Counted(a.s.k, a.s.t.nmi, a.ran, a.clocks))
  }

  function Cycle(s: State, speed: int): State
    requires CpuSpeed(speed)
  {
    var u := Sampled(s, speed);
    if Failed(u) then u else Wait(u, speed)
  }
}
