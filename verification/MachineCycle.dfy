/** One CPU cycle: whatever transfer it grants, its exact cost, the edge it samples and the requests it leaves. */
module MachineCycle {
  import opened Clock
  import opened ClockEvents
  import opened MachineBus
  import opened MachineDma
  import opened HdmaService
  import opened HdmaSchedule
  import opened DmaTransfer

  /** A transfer's effect on everything but its own channel and the picture unit. */
  ghost predicate Worked(s: State, u: State, n: int) {
    Ledger(s, u, n) && CpuKept(s, u) && u.d.mask == s.d.mask && u.d.ch2 == s.d.ch2 && Follow(s, u)
  }

  lemma PaidWorks(s: State, u: State, n: int)
    requires Paid(s, u, n)
    ensures Worked(s, u, n)
  {
  }

  lemma WorkedAdds(s: State, u: State, w: State, n: int, m: int)
    requires Worked(s, u, n) && Worked(u, w, m)
    ensures Worked(s, w, n + m)
  {
    hide Settled;
  }

  // ----- a whole manual transfer -----

  lemma ChannelStored(s: State, index: int, source: int)
    requires PastCheckpoint(s) && (index == 0 || index == 1 || index == 7)
    ensures var u := s.(d := SetChannel(s.d, index, GetChannel(s.d, index).(source := source, size := 0)));
            PastCheckpoint(u) && Worked(s, u, 0)
  {
    hide Near, Settled;
  }

  lemma RunChannelOk(r: Ran, index: int, speed: int)
    requires CpuSpeed(speed) && PastCheckpoint(r.s) && (index == 0 || index == 1 || index == 7)
    ensures var q := RunChannel(r, index, speed);
            if Failed(q.s) then !SchedulerFault(q.s)
            else PastCheckpoint(q.s) && Worked(r.s, q.s, q.clocks - r.clocks) && q.clocks >= r.clocks
                 && (q.clocks - r.clocks) % 8 == 0
  {
    hide PastCheckpoint, Moved, Paid, SetChannel, GetChannel, SourceAt;
    PastSettled(r.s);
    var ch := GetChannel(r.s.d, index);
    var count := if Remaining(ch) < 0 then 0 else Remaining(ch);
    MovedOk(r, ch, count, speed);
    var u := Moved(r, ch, count, speed);
    if ch.dmap / 128 % 2 != 1 && ModeReached(index, ch.dmap % 8) && !Failed(u.s) {
      PaidWorks(r.s, u.s, u.clocks - r.clocks);
      ChannelStored(u.s, index, SourceAt(ch, count));
      WorkedAdds(r.s, u.s, RunChannel(r, index, speed).s, u.clocks - r.clocks, 0);
    }
  }

  /** A transfer starts on an eight-clock boundary, whatever HDMA ran at the two checkpoints. */
  lemma StartupOk(s: State, speed: int)
    requires CpuSpeed(speed) && Ready(s) && !Pending(s.t.arb) && !s.t.arb.startDelay
    ensures var q := Startup(s, speed);
            if Failed(q.s) then !SchedulerFault(q.s)
            else PastCheckpoint(q.s) && Paid(s, q.s, q.clocks) && q.clocks >= 17 && q.s.t.beam.clock % 8 == 0
                 && ScrollOnly(s, q.s)
  {
    hide Near, Sound, Paid, Advance, Checkpoint, Wait;
    var b := Begin(s, false);
    WaitAgain(s, ToBoundary(s), 0);
    WaitingWeaken(b.s.t, ToBoundary(s), 8);
    WaitAgain(b.s, 8, 8);
    var o := Overhead(b);
    WaitingWeaken(o.s.t, 8, 16);
    WaitingWeaken(o.s.t, 16, 24);
    PaidAdds(s, b.s, o.s, ToBoundary(s), 8);
    CheckpointOk(o, speed);
    var one := Checkpoint(o, speed);
    if !Failed(one.s) {
      OverheadOk(one);
      CheckpointOk(Overhead(one), speed);
      var q := Checkpoint(Overhead(one), speed);
      if !Failed(q.s) {
        StartupAdds(s, o, one, Overhead(one), q);
        AlignedStart(s, q, ToBoundary(s));
      }
    }
  }

  lemma StartupAdds(s: State, o: Ran, one: Ran, p: Ran, q: Ran)
    requires Paid(s, o.s, o.clocks) && Part(o, one, 0) && !Failed(one.s) && Part(one, p, 8) && !Failed(p.s)
    requires Part(p, q, 0) && !Failed(q.s)
    ensures Paid(s, q.s, q.clocks) && q.clocks >= o.clocks + 8 && (q.clocks - o.clocks) % 8 == 0
  {
    hide Paid;
    PaidAdds(s, o.s, one.s, o.clocks, one.clocks - o.clocks);
    PaidAdds(s, one.s, p.s, one.clocks, p.clocks - one.clocks);
    PaidAdds(s, p.s, q.s, p.clocks, q.clocks - p.clocks);
  }

  lemma AlignedStart(s: State, q: Ran, sync: int)
    requires Paid(s, q.s, q.clocks) && sync == 8 - s.t.beam.clock % 8 && (q.clocks - sync - 8) % 8 == 0
    ensures q.s.t.beam.clock % 8 == 0
  {
    hide Kept, Settled;
    var rest := q.clocks - sync;
    assert rest % 8 == 0;
    assert (s.t.beam.clock + sync) % 8 == 0;
    EightsAdd(s.t.beam.clock + sync, rest, q.s.t.beam.refreshes - s.t.beam.refreshes);
  }

  /** What a transfer leaves for the rest of its cycle. */
  predicate AfterTransfer(s: State) {
    Ready(s) && Waiting(s.t, if s.t.arb.startDelay then 12 else 28)
  }

  /** A finished manual transfer: it took a positive whole number of cycles of the interrupted speed. */
  ghost predicate DmaDone(s: State, q: Ran, speed: int)
    requires CpuSpeed(speed)
  {
    if Failed(q.s) then !SchedulerFault(q.s)
    else AfterTransfer(q.s) && Ledger(s, q.s, q.clocks) && CpuKept(s, q.s) && q.s.d.mask == 0
         && q.s.d.ch2 == s.d.ch2 && q.clocks > 0 && q.clocks % speed == 0 && Follow(s, q.s)
  }

  /** A manual transfer of any length, with any HDMA nested in it, takes a positive whole number of cycles of the
      interrupted speed, refresh stalls not counted. */
  lemma RunDmaOk(s: State, speed: int)
    requires CpuSpeed(speed) && Ready(s) && !Pending(s.t.arb) && !s.t.arb.startDelay
    ensures DmaDone(s, RunDma(s, speed), speed)
  {
    hide Near, Settled, Advance, Startup, RunChannel, Paid, CpuKept, PastCheckpoint;
    var taken := s.(d := s.d.(mask := 0));
    TakenKept(s);
    var index := PendingChannel(s.d.mask);
    StartupOk(taken, speed);
    var up := Startup(taken, speed);
    var run := RunChannel(up, index, speed);
    if Failed(up.s) {
      RunFailed(up, index, speed);
    } else {
      RunChannelOk(up, index, speed);
      if !Failed(run.s) {
        PaidWorks(taken, up.s, up.clocks);
        WorkedAdds(taken, up.s, run.s, up.clocks, run.clocks - up.clocks);
        EndOk(taken, run, speed);
      }
    }
    TakenWorks(s, RunDma(s, speed).s, RunDma(s, speed).clocks);
  }

  lemma TakenKept(s: State)
    requires Ready(s) && !Pending(s.t.arb) && !s.t.arb.startDelay
    ensures var u := s.(d := s.d.(mask := 0)); Ready(u) && !Pending(u.t.arb) && !u.t.arb.startDelay
  {
  }

  lemma TakenWorks(s: State, u: State, n: int)
    ensures Worked(s.(d := s.d.(mask := 0)), u, n) ==> Ledger(s, u, n) && CpuKept(s, u) && u.d.mask == 0
                                                        && u.d.ch2 == s.d.ch2 && Follow(s, u)
  {
  }

  lemma RunFailed(r: Ran, index: int, speed: int)
    requires CpuSpeed(speed) && Failed(r.s)
    ensures RunChannel(r, index, speed) == r && Finish(r, speed, false) == r
  {
  }

  /** The end synchronisation. */
  lemma EndOk(s: State, r: Ran, speed: int)
    requires CpuSpeed(speed) && PastCheckpoint(r.s) && Worked(s, r.s, r.clocks) && r.clocks > 0
    ensures var q := Finish(r, speed, false);
            && !Failed(q.s) && AfterTransfer(q.s) && Worked(s, q.s, q.clocks)
            && q.clocks > 0 && q.clocks % speed == 0
  {
    hide Near, Settled, Advance, CpuKept, Wait;
    var n := ToCpu(r.clocks, speed);
    WaitAgain(r.s, n, 16);
    var u := Wait(r.s, n);
    WaitingWeaken(u.t, 16 + n, 28);
    WaitingWeaken(u.t, n, 12);
    PaidWorks(r.s, u, n);
    WorkedAdds(s, r.s, u, r.clocks, n);
    ToCpuExact(r.clocks, speed);
  }

  // ----- the cycle -----

  /** The oldest a pending request can be when a CPU cycle begins: each cycle it may have to wait for another
      start delay, one of them caused by a single MDMAEN write. */
  function Limit(s: State): int {
    32 + (if s.t.arb.startDelay then 0 else 12) + (if s.d.mask != 0 then 12 else 0)
  }

  /** The invariant of every run at every CPU cycle. */
  predicate Inv(s: State) {
    Ready(s) && Waiting(s.t, Limit(s))
  }

  /** The same before the clocks of the cycle itself. */
  predicate Granted(s: State) {
    Ready(s) && Waiting(s.t, Limit(s) - 12)
  }

  /** The arbitration of one CPU cycle: it takes a whole number of the interrupted cycles, none unless a transfer
      ran, and every request it leaves will be served in time. */
  ghost predicate ArbitrationOk(s: State, a: Arbitrated, speed: int)
    requires CpuSpeed(speed)
  {
    if Failed(a.s) then !SchedulerFault(a.s)
    else
      && Granted(a.s) && Ledger(s, a.s, a.clocks) && CpuKept(s, a.s) && a.s.d.ch2 == s.d.ch2
      && a.clocks >= 0 && a.clocks % speed == 0 && (!a.ran ==> a.clocks == 0)
      && (a.s.d.mask == s.d.mask || a.s.d.mask == 0) && Follow(s, a.s)
  }

  lemma ArbitrateOk(s: State, speed: int)
    requires CpuSpeed(speed) && Inv(s)
    ensures ArbitrationOk(s, Arbitrate(s, speed), speed)
  {
    hide Settled, ServeHdma, RunDma, CpuKept, Near, ScrollOnly;
    InvRuns(s);
    SamePaid(s);
    if s.d.mask == 0 && !HdmaPending(s) {
    } else if s.t.arb.startDelay {
      DelayPaid(s);
      WaitingWeaken(s.t, Limit(s), Limit(ClearDelay(s)) - 12);
    } else if HdmaPending(s) {
      WaitingWeaken(s.t, Limit(s), 56);
      ServeOk(s, speed, false);
    } else {
      RunDmaOk(s, speed);
      var u := RunDma(s, speed).s;
      WaitingWeaken(u.t, 12, 20);
      WaitingWeaken(u.t, 28, 32);
    }
  }

  lemma InvRuns(s: State)
    requires Inv(s)
    ensures !Failed(s) && Settled(s.t.beam)
  {
  }

  /** The clocks the arbitration of a cycle takes from the CPU. */
  function Stolen(s: State, speed: int): int
    requires CpuSpeed(speed)
  {
    Arbitrate(s, speed).clocks
  }

  /** What a cycle leaves alone, and what it adds to the ledger. */
  ghost predicate CycleKept(s: State, u: State, speed: int)
    requires CpuSpeed(speed)
  {
    && u.m == s.m && u.cpu == s.cpu && u.fast == s.fast && u.port == s.port && SameTimers(s.r, u.r)
    && u.d.ch2 == s.d.ch2
    && u.k == s.k.(tally := u.k.tally)
    && u.k.tally == s.k.tally.(dmaClocks := s.k.tally.dmaClocks + Stolen(s, speed),
                               free := s.k.tally.free + (if Arbitrate(s, speed).ran then 0 else 1),
                               latched := u.k.tally.latched)
  }

  /** A finished cycle: its own clocks, whole cycles of DMA, the refreshes, and the invariant again. */
  ghost predicate CycleDone(s: State, u: State, speed: int)
    requires CpuSpeed(speed)
  {
    if Failed(u) then !SchedulerFault(u)
    else Inv(u) && Ledger(s, u, speed + Stolen(s, speed)) && CycleKept(s, u, speed) && Follow(s, u)
         && Stolen(s, speed) >= 0 && Stolen(s, speed) % speed == 0
  }

  /** A CPU cycle takes its own clocks, a whole number of further ones for DMA, and forty for every refresh. */
  lemma CycleOk(s: State, speed: int)
    requires CpuSpeed(speed) && Inv(s)
    ensures CycleDone(s, Cycle(s, speed), speed)
  {
    hide Settled, Arbitrate, Advance, Near, EdgeKept, Wait, Limit;
    ArbitrateOk(s, speed);
    var a := Arbitrate(s, speed);
    var v := Sampled(s, speed);
    if !Failed(a.s) {
      SampledGranted(a.s, a.ran, v.k);
      LimitRange(v);
      WaitAgain(v, speed, Limit(v) - 12);
      GrantedWaits(v, speed);
    }
  }

  lemma LimitRange(s: State)
    ensures 32 <= Limit(s) <= 56
  {
  }

  lemma SampledGranted(s: State, lock: bool, k: Counts)
    requires Granted(s)
    ensures Granted(s.(t := s.t.(nmi := Sample(s.t.nmi, lock)), k := k))
  {
    hide Near, Settled;
  }

  lemma GrantedWaits(s: State, speed: int)
    requires CpuSpeed(speed) && Granted(s)
    ensures Inv(Wait(s, speed)) && !Failed(Wait(s, speed))
  {
    hide Near, Settled, Wait, Paid;
    WaitAgain(s, speed, Limit(s) - 12);
    var u := Wait(s, speed);
    WaitingWeaken(u.t, Limit(s) - 12 + speed, Limit(s));
    WaitingWeaken(u.t, speed, 32);
    WaitingWeaken(u.t, 32, Limit(u));
  }
}
