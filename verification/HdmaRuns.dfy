/** What a run shows of the table: the word that each line of an undisturbed frame leaves in the scroll register. */
module HdmaRuns {
  import opened Options
  import opened Clock
  import opened ClockEvents
  import opened MachineBus
  import opened MachineDma
  import opened HdmaTable
  import opened HdmaService
  import opened HdmaFrame
  import opened HdmaSchedule
  import opened MachineCycle
  import opened MachineCpu
  import opened MachineRuns
  import PpuPorts

  /** The next CPU cycle serves the transfer of a visible line of an undisturbed frame, from plain memory. */
  ghost predicate LineDue(s: State) {
    && s.t.arb.transferPending && !s.t.arb.startDelay && s.t.arb.pace.whole && s.r.hdmaen == 4
    && s.t.beam.frames > 0 && 0 <= s.t.beam.v < 225
    && (WordOnLine(s, s.t.beam.v).Some? ==> PlainWord(s.m, WordOnLine(s, s.t.beam.v).value))
  }

  /** The table's line is done: the cursor is before the next line, and the horizontal scroll of layer 1 is the word
      that the table gives for this one, if it gives any. */
  ghost predicate LineDone(s: State, u: State) {
    && s.t.beam.v >= 0 && u.d.hdma == AfterLines(Rom(s.m.rom), TABLE, s.t.beam.v + 1)
    && match WordOnLine(s, s.t.beam.v)
       case None => u.p == s.p
       case Some(a) =>
         && PlainWord(s.m, a) && |s.p.scroll.bgH| == 4
         && u.p.scroll.bgH == s.p.scroll.bgH[0 := WordAt(s.m, a) % 0x400]
  }

  /** The actions that are one CPU cycle and nothing more. */
  predicate OneCycle(x: Action) {
    x.CodeFetch? || x.InternalCycle? || x.DataCycle?
  }

  lemma CycleServes(s: State, speed: int)
    requires CpuSpeed(speed) && Inv(s) && Follows(s) && |s.p.scroll.bgH| == 4 && LineDue(s)
    ensures Proved(s.d) ==> !Failed(Cycle(s, speed))
    ensures !Failed(Cycle(s, speed)) ==> LineDone(s, Cycle(s, speed))
  {
    hide Waiting, Settled, Granted, Ledger, ServeHdma, Sound, Proved, Follows, AfterLines, Rom, Plain, Transfers,
         Sample, Advance;
    InvRuns(s);
    LimitRange(s);
    WaitingWeaken(s.t, Limit(s), 56);
    LineServed(s, speed, false);
    ArbitrateOk(s, speed);
    var a := ServeHdma(s, speed, false);
    assert Arbitrate(s, speed) == a;
    if !Failed(a.s) {
      SampledGranted(a.s, a.ran, Sampled(s, speed).k);
      GrantedWaits(Sampled(s, speed), speed);
    }
  }

  /** Over every run: the cycle that serves line `v` of an undisturbed frame leaves the scroll register at the word
      the table gives for line `v`, and completes if the channel has its one configuration. */
  lemma LineShown(sram: seq<int>, rom: seq<int>, port: (int, int) -> int, actions: seq<Action>, n: nat)
    requires n < |actions| && OneCycle(actions[n])
    ensures var (s, u) := (After(Boot(sram, rom, port), actions, n), After(Boot(sram, rom, port), actions, n + 1));
            !Failed(s) && LineDue(s)
            ==> && s.m.rom == rom && s.t.arb.pace.taken == s.t.beam.v
                && (Proved(s.d) ==> !Failed(u))
                && (!Failed(u) ==> LineDone(s, u))
  {
    hide After, Boot, Good, Follows, LineDone, Proved, Plain, WordOnLine, Cycle;
    var s := After(Boot(sram, rom, port), actions, n);
    EveryRun(sram, rom, port, actions, n);
    PlaceKept(sram, rom, port, actions, n);
    AfterNext(Boot(sram, rom, port), actions, n);
    if !Failed(s) && LineDue(s) {
      GoodRuns(s);
      DueTurn(s);
      ActServes(s, actions[n]);
    }
  }

  lemma AfterNext(s: State, actions: seq<Action>, n: nat)
    requires n < |actions|
    ensures After(s, actions, n + 1) == Act(After(s, actions, n), actions[n])
  {
    hide Act;
  }

  lemma DueTurn(s: State)
    requires Inv(s) && LineDue(s)
    ensures s.t.arb.pace.taken == s.t.beam.v
  {
    hide Waiting, WordOnLine, Plain;
    LimitRange(s);
    WaitingWeaken(s.t, Limit(s), 56);
    LineTurn(s);
  }

  lemma ActServes(s: State, x: Action)
    requires OneCycle(x) && Inv(s) && Follows(s) && |s.p.scroll.bgH| == 4 && LineDue(s)
    ensures Proved(s.d) ==> !Failed(Act(s, x))
    ensures !Failed(Act(s, x)) ==> LineDone(s, Act(s, x))
  {
    hide Cycle, Inv, Follows, Proved, Plain, WordOnLine, AfterLines, Rom, BusSpeed;
    InvRuns(s);
    CycleServes(s, 6);
    match x
    case CodeFetch(a) => CycleServes(s, BusSpeed(s.fast, a));
    case InternalCycle =>
    case DataCycle(a) => CycleServes(s, BusSpeed(s.fast, a));
  }
}
