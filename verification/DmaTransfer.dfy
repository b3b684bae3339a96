/** Manual DMA with HDMA between any two bytes, the arbitration, and one CPU cycle: exact clocks, alignment and
    the deadline every request meets. */
module DmaTransfer {
  import opened Options
  import opened Clock
  import opened ClockEvents
  import opened MachineBus
  import opened MachineDma
  import opened HdmaService
  import opened HdmaSchedule
  import PpuPorts
  import RomChecksum

  /** `n` clocks spent without losing the place in the table. */
  ghost predicate Paid(s: State, u: State, n: int) {
    Spent(s, u, n) && Follow(s, u)
  }

  lemma PaidAdds(s: State, u: State, w: State, n: int, m: int)
    requires Paid(s, u, n) && Paid(u, w, m)
    ensures Paid(s, w, n + m)
  {
    hide Spent, Follows;
    SpentAdds(s, u, w, n, m);
  }

  // ----- serving a request -----

  /** A service begun with one pending request leaves none, and takes exactly the clocks it reports. */
  ghost predicate RequestServed(s: State, a: Arbitrated, speed: int, nested: bool)
    requires CpuSpeed(speed)
  {
    if Failed(a.s) then !SchedulerFault(a.s)
    else
      && Ready(a.s) && Paid(s, a.s, a.clocks) && ScrollOnly(s, a.s)
      && !Pending(a.s.t.arb) && a.s.t.arb == Taken(s).t.arb && a.s.t.beam == Later(s.t.beam, a.clocks)
      && 0 <= a.clocks <= 68 && Exact(a.clocks, speed, nested) && (!a.ran ==> a.clocks == 0)
  }

  lemma SpentKeeps(s: State, t: State, u: State, n: int)
    requires Spent(s, t, 0) && Spent(t, u, n)
    ensures u.m == s.m && |u.p.scroll.bgH| == |s.p.scroll.bgH|
  {
  }

  lemma FromTaken(s: State, u: State, n: int, k: int)
    requires Begun(s, k) && HdmaPending(s) && Served(Taken(s), u, n, k)
    ensures if Failed(u) then !SchedulerFault(u)
            else Ready(u) && Spent(s, u, n) && ScrollOnly(s, u) && u.m == s.m && !Pending(u.t.arb)
                 && |u.p.scroll.bgH| == |s.p.scroll.bgH|
                 && u.t.arb == Taken(s).t.arb && u.t.beam == Later(s.t.beam, n)
  {
    hide Near, Settled, Spent;
    TakenBegun(s, k);
    if !Failed(u) {
      SpentKeeps(s, Taken(s), u, n);
      SpentAdds(s, Taken(s), u, 0, n);
    }
  }

  lemma ServeCosts(s: State, speed: int, nested: bool, k: int)
    requires CpuSpeed(speed) && Begun(s, k) && HdmaPending(s) && k + 80 <= 250
    ensures var a := ServeHdma(s, speed, nested);
            if Failed(a.s) then !SchedulerFault(a.s)
            else
              && Ready(a.s) && Spent(s, a.s, a.clocks) && ScrollOnly(s, a.s) && a.s.m == s.m
              && |a.s.p.scroll.bgH| == |s.p.scroll.bgH|
              && !Pending(a.s.t.arb) && a.s.t.arb == Taken(s).t.arb && a.s.t.beam == Later(s.t.beam, a.clocks)
              && 0 <= a.clocks <= 68 && Exact(a.clocks, speed, nested) && (!a.ran ==> a.clocks == 0)
  {
    hide Served, Begun, HdmaScanline, HdmaInit, Spent, Near, ScrollOnly, Ready, Failed, WithCursor;
    var u := Taken(s);
    TakenBegun(s, k);
    SameServed(u, k);
    if s.r.hdmaen == 0 {
      var c := u.d.hdma.(finished := false, transfer := false, ready := false);
      CursorServed(u, c, k);
      FromTaken(s, u, 0, k);
      FromTaken(s, WithCursor(u, c), 0, k);
    } else if s.t.arb.transferPending {
      ScanlineServed(u, speed, nested, k);
      FromTaken(s, HdmaScanline(u, speed, nested).s, HdmaScanline(u, speed, nested).clocks, k);
    } else {
      InitServed(u, speed, nested, k);
      FromTaken(s, HdmaInit(u, speed, nested).s, HdmaInit(u, speed, nested).clocks, k);
    }
  }

  lemma ServeOk(s: State, speed: int, nested: bool)
    requires CpuSpeed(speed) && Ready(s) && Waiting(s.t, 56) && HdmaPending(s)
    ensures RequestServed(s, ServeHdma(s, speed, nested), speed, nested)
  {
    hide Begun, ServeHdma, Spent, Waiting, ScrollOnly, Ready, Taken, Follow;
    WaitingBegun(s, 56);
    ServeCosts(s, speed, nested, 56);
    if !Failed(ServeHdma(s, speed, nested).s) {
      ServeFollows(s, speed, nested, ServeHdma(s, speed, nested).clocks);
    }
  }

  // ----- inside a manual transfer -----

  /** Where a checkpoint is about to look: a request is at most 24 clocks old, a delayed one at most 16. */
  predicate AtCheckpoint(s: State) {
    Ready(s) && Waiting(s.t, if s.t.arb.startDelay then 16 else 24)
  }

  predicate PastCheckpoint(s: State) {
    Ready(s) && !s.t.arb.startDelay && Waiting(s.t, 16)
  }

  /** Part of a manual transfer: eights of clocks, no scheduler failure. */
  ghost predicate Part(r: Ran, q: Ran, least: int) {
    if Failed(q.s) then !SchedulerFault(q.s)
    else Paid(r.s, q.s, q.clocks - r.clocks) && q.clocks - r.clocks >= least && (q.clocks - r.clocks) % 8 == 0
  }

  lemma PartAdds(r: Ran, q: Ran, w: Ran, least: int, more: int)
    requires Part(r, q, least) && !Failed(q.s) && Part(q, w, more)
    ensures Part(r, w, least + more)
  {
    hide Paid, SchedulerFault;
    if !Failed(w.s) {
      PaidAdds(r.s, q.s, w.s, q.clocks - r.clocks, w.clocks - q.clocks);
    }
  }

  lemma CheckpointOk(r: Ran, speed: int)
    requires CpuSpeed(speed) && AtCheckpoint(r.s)
    ensures var q := Checkpoint(r, speed);
            Part(r, q, 0) && (!Failed(q.s) ==> PastCheckpoint(q.s) && ScrollOnly(r.s, q.s))
  {
    hide Near, Waiting, Settled, ServeHdma, Paid, Taken;
    SamePaid(r.s);
    if r.s.t.arb.startDelay {
      DelayPaid(r.s);
      DelayWaits(r.s, 16);
    } else if HdmaPending(r.s) {
      WaitingWeaken(r.s.t, 24, 56);
      ServeOk(r.s, speed, true);
      TakenDelay(r.s);
    }
    if !Failed(Checkpoint(r, speed).s) && !Pending(Checkpoint(r, speed).s.t.arb) {
      NothingWaits(Checkpoint(r, speed).s.t, 16);
    }
  }

  /** A checkpoint where no service can fail completes. */
  lemma SafeCheckpoint(r: Ran, speed: int)
    requires CpuSpeed(speed) && AtCheckpoint(r.s) && Safe(r.s)
    ensures !Failed(Checkpoint(r, speed).s) && Safe(Checkpoint(r, speed).s)
  {
    hide Waiting, Sound, ServeHdma, Safe;
    if r.s.t.arb.startDelay {
      SafeKept(r.s, ClearDelay(r.s));
    } else if HdmaPending(r.s) {
      WaitingWeaken(r.s.t, 24, 56);
      ServeCompletes(r.s, speed, true);
    }
    LiveState(r.s);
  }

  lemma LiveState(s: State)
    requires Ready(s)
    ensures !Failed(s) && !Failed(ClearDelay(s))
  {
  }

  lemma DelayWaits(s: State, k: int)
    ensures Waiting(ClearDelay(s).t, k) == Waiting(s.t, k) && (Paced(s.t) ==> Paced(ClearDelay(s).t))
  {
  }

  lemma TakenDelay(s: State)
    ensures Taken(s).t.arb.startDelay == s.t.arb.startDelay
  {
  }

  lemma SamePaid(s: State)
    requires Settled(s.t.beam)
    ensures Paid(s, s, 0) && ScrollOnly(s, s)
  {
  }

  lemma DelayPaid(s: State)
    requires Settled(s.t.beam)
    ensures Paid(s, ClearDelay(s), 0) && ScrollOnly(s, ClearDelay(s))
  {
  }

  /** Clocks spent with nothing pending, or on a request that is not yet too old. */
  lemma WaitAgain(s: State, n: nat, k: int)
    requires Ready(s) && 0 <= k && k + n <= 250 && Waiting(s.t, k)
    ensures var u := Wait(s, n);
            && Ready(u) && !Failed(u) && Paid(s, u, n) && u.p == s.p && u.d == s.d && u.r == s.r
            && (Pending(s.t.arb) ==> u.t.arb == s.t.arb && Waiting(u.t, k + n))
            && (!Pending(s.t.arb) ==> Waiting(u.t, n) && (Pending(u.t.arb) ==> u.t.arb.startDelay))
            && (!Pending(u.t.arb) ==> u.t.arb == s.t.arb.(pace := u.t.arb.pace))
  {
    hide Waiting, Settled, Advance, Spent, Follow, Paced;
    WaitSpent(s, n);
    WaitFollowsOn(s, n);
    if Pending(s.t.arb) {
      WaitingAdvance(s.t, s.r, n, k);
    } else {
      FarAdvance(s.t, s.r, n);
    }
  }

  lemma WaitFollowsOn(s: State, n: nat)
    requires Settled(s.t.beam)
    ensures !Failed(Wait(s, n)) ==> Follow(s, Wait(s, n))
  {
    hide Advance, Settled, Follow;
    if !Failed(Wait(s, n)) {
      WaitFollows(s, n);
    }
  }

  lemma NothingWaits(t: Timing, k: int)
    requires !Pending(t.arb)
    ensures Waiting(t, k)
  {
  }

  lemma OverheadOk(r: Ran)
    requires PastCheckpoint(r.s)
    ensures Part(r, Overhead(r), 8) && AtCheckpoint(Overhead(r).s) && !Failed(Overhead(r).s)
    ensures Overhead(r).s.p == r.s.p && Overhead(r).s.r == r.s.r
  {
    hide Wait, Paid, Sound;
    WaitAgain(r.s, 8, 16);
    WaitingWeaken(Overhead(r).s.t, 8, 16);
    WaitingWeaken(Overhead(r).s.t, 16, 24);
  }

  // ----- the bytes -----

  /** A write to the B bus reaches the picture unit, an outside port, or nothing. */
  ghost predicate PortEffect(s: State, u: State) {
    || u == s || u == Fail(s, VramMapping) || u == Fail(s, BusWrite)
    || (u == s.(p := u.p, r := u.r) && SameTimers(s.r, u.r) && |u.p.scroll.bgH| == |s.p.scroll.bgH|)
  }

  lemma PortWrite(s: State, b: int, value: int)
    requires 0 <= b < 0x100
    ensures PortEffect(s, Write(s, 0x2100 + b, value))
    ensures b <= 0x33 && !PpuPorts.Refused(s.p, 0x2100 + b)
            ==> Write(s, 0x2100 + b, value).p == PpuPorts.Write(s.p, 0x2100 + b, value)
  {
    hide PpuPorts.Write, PpuPorts.Refused, WriteDmaRegister, WriteControl, RomChecksum.SramOffset,
         RomChecksum.CpuToLinear;
    assert Bank(0x2100 + b) == 0 && Local(0x2100 + b) == 0x2100 + b;
    CartridgeSilent(b);
    PpuPorts.WriteSized(s.p, 0x2100 + b, value);
  }

  lemma CartridgeSilent(b: int)
    requires 0 <= b < 0x100
    ensures RomChecksum.SramOffset(0, 0x2100 + b).None? && RomChecksum.CpuToLinear(0, 0x2100 + b).None?
  {
  }

  /** Moving a byte takes no clocks of its own and leaves the clock and its requests alone. */
  lemma CarryOk(s: State, source: int, b: int)
    requires Ready(s) && 0 <= b < 0x100
    ensures var u := Carry(s, source, 0x2100 + b);
            if Failed(u) then !SchedulerFault(u)
            else Ready(u) && Paid(s, u, 0) && u.t.arb == s.t.arb && u.t.beam == s.t.beam && u.d == s.d
  {
    hide Read, Write, Near, Settled;
    ReadOnly(s, source);
    var g := Read(s, source);
    PortWrite(g.s, b, g.value);
  }

  lemma MoveByteOk(r: Ran, ch: Channel, n: int, speed: int)
    requires CpuSpeed(speed) && PastCheckpoint(r.s)
    ensures var q := MoveByte(r, ch, n, speed); Part(r, q, 8) && (!Failed(q.s) ==> PastCheckpoint(q.s))
  {
    hide Carry, Near, Paid, Offset, SourceAt, Checkpoint, Overhead, Sound;
    var b := (ch.bbad + Offset(ch.dmap % 8, n)) % 0x100;
    var source := ch.bank * 0x10000 + SourceAt(ch, n);
    CarryOk(r.s, source, b);
    var moved := Carry(r.s, source, 0x2100 + b);
    ReadyRuns(r.s);
    if !Failed(moved) {
      var m := Ran(moved, r.clocks);
      assert Part(r, m, 0);
      OverheadOk(m);
      PartAdds(r, m, Overhead(m), 0, 8);
      CheckpointOk(Overhead(m), speed);
      PartAdds(r, Overhead(m), Checkpoint(Overhead(m), speed), 8, 0);
    }
  }

  lemma ReadyRuns(s: State)
    requires Ready(s)
    ensures !Failed(s) && Settled(s.t.beam)
  {
  }

  /** Any number of bytes, whatever HDMA runs between them. */
  lemma {:induction false} MovedOk(r: Ran, ch: Channel, n: nat, speed: int)
    requires CpuSpeed(speed) && PastCheckpoint(r.s)
    ensures var q := Moved(r, ch, n, speed); Part(r, q, 8 * n) && (!Failed(q.s) ==> PastCheckpoint(q.s))
  {
    hide MoveByte, Paid, PastCheckpoint;
    if n == 0 {
      PastSettled(r.s);
      SamePaid(r.s);
    } else {
      var q := Moved(r, ch, n - 1, speed);
      MovedOk(r, ch, n - 1, speed);
      if Failed(q.s) {
        MoveFailed(q, ch, n - 1, speed);
      } else {
        MoveByteOk(q, ch, n - 1, speed);
        PartAdds(r, q, MoveByte(q, ch, n - 1, speed), 8 * (n - 1), 8);
      }
    }
  }

  lemma PastSettled(s: State)
    requires PastCheckpoint(s)
    ensures Settled(s.t.beam) && !Failed(s)
  {
  }

  lemma MoveFailed(r: Ran, ch: Channel, n: int, speed: int)
    requires CpuSpeed(speed) && Failed(r.s)
    ensures MoveByte(r, ch, n, speed) == r
  {
  }

  /** Every byte of a transfer that starts on an eight-clock boundary moves on one. */
  lemma BytesAligned(r: Ran, ch: Channel, n: nat, speed: int)
    requires CpuSpeed(speed) && PastCheckpoint(r.s) && r.s.t.beam.clock % 8 == 0
    ensures var q := Moved(r, ch, n, speed); !Failed(q.s) ==> q.s.t.beam.clock % 8 == 0
  {
    hide Moved, PastCheckpoint, Kept, Settled;
    MovedOk(r, ch, n, speed);
    var q := Moved(r, ch, n, speed);
    if !Failed(q.s) {
      EightsAdd(r.s.t.beam.clock, q.clocks - r.clocks, q.s.t.beam.refreshes - r.s.t.beam.refreshes);
    }
  }

  lemma EightsAdd(clock: int, n: int, refreshes: int)
    requires clock % 8 == 0 && n % 8 == 0
    ensures (clock + n + REFRESH_CLOCKS * refreshes) % 8 == 0
  {
    assert clock + n + REFRESH_CLOCKS * refreshes == 8 * (clock / 8 + n / 8 + 5 * refreshes);
  }
}
