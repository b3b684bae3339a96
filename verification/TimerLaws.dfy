/** When the clock raises things: the timer IRQ, the NMI flag and the two HDMA requests. */
module TimerLaws {
  import opened Options
  import opened Clock
  import opened ClockEvents

  /** The dot the horizontal match is programmed for has been passed between two dots of a line. */
  predicate Crossed(r: Timers, line: int, before: int, after: int) {
    r.hirq && (r.virq ==> line == r.vtime) && before < 4 * r.htime + 4 <= after
  }

  /** Along a line the IRQ line rises exactly when the programmed dot is crossed, and counts once. */
  lemma {:induction false} IrqCrossed(t: Timing, r: Timers, n: nat)
    requires 0 <= t.beam.h && t.beam.h + n < Period(t.beam.field, t.beam.v)
    ensures var u := Ticks(t, r, n);
            && u.beam.h == t.beam.h + n && u.beam.v == t.beam.v && u.beam.field == t.beam.field
            && (u.irq.line <==> t.irq.line || Crossed(r, t.beam.v, t.beam.h, t.beam.h + n))
            && u.irq.events == t.irq.events + (if u.irq.line && !t.irq.line then 1 else 0)
    decreases n
  {
    if n > 0 {
      IrqCrossed(Tick(t, r), r, n - 1);
    }
  }

  /** At the start of a line it rises exactly on the programmed line, with the vertical match alone. */
  lemma IrqAtLineStart(t: Timing, r: Timers)
    requires t.beam.h + 1 >= Period(t.beam.field, t.beam.v) && r.htime >= 0
    ensures var u := Tick(t, r);
            && u.beam.h == 0
            && (u.irq.line <==> t.irq.line || (r.virq && !r.hirq && u.beam.v == r.vtime))
            && u.irq.events == t.irq.events + (if u.irq.line && !t.irq.line then 1 else 0)
  {
  }

  /** Once up it is held for four clocks, and stays up without end if nobody reads it. */
  lemma {:induction false} IrqHeld(t: Timing, r: Timers, n: nat)
    requires t.irq.line && t.irq.hold >= 0
    ensures var u := Ticks(t, r, n);
            && u.irq.line && u.irq.events == t.irq.events
            && u.irq.hold == if n < t.irq.hold then t.irq.hold - n else 0
    decreases n
  {
    if n > 0 {
      IrqHeld(Tick(t, r), r, n - 1);
    }
  }

  lemma IrqRisesHeld(t: Timing, r: Timers)
    ensures Tick(t, r).irq.line && !t.irq.line ==> Tick(t, r).irq.hold == 4 && Tick(t, r).irq.transition
  {
  }

  /** The NMI flag goes up at dot 2 of the NMI line, where the joypads are polled if that is enabled, and down at
      dot 2 of line 0; nothing else moves it. */
  lemma FlagMoves(t: Timing, r: Timers)
    ensures var u := Tick(t, r);
            var up := u.beam.v == (if r.overscan then 240 else 225) && u.beam.h == 2;
            var down := u.beam.v == 0 && u.beam.h == 2;
            && (up ==> u.nmi.flag) && (down ==> !u.nmi.flag) && (!up && !down ==> u.nmi.flag == t.nmi.flag)
            && u.nmi.polls == t.nmi.polls + (if up && r.autoJoypad then 1 else 0)
  {
  }

  /** Each frame after the first raises its initialisation at the init dot of line 0, HDMA on or off. */
  lemma InitRaised(t: Timing, r: Timers)
    requires Sound(t, r) && !Pending(t.arb)
    ensures var u := Tick(t, r);
            u.beam.frames > 0 && u.beam.v == 0 && u.beam.h == u.beam.initH
            ==> && u.arb.initPending && !u.arb.transferPending && u.arb.startDelay && u.arb.fault.None?
                && u.arb.pace == Pace(u.beam.clock, 0, 0, r.hdmaen == 4)
  {
    TickBeamOk(t.beam);
    InitDot(t.beam);
  }

  /** With HDMA on every visible line raises its transfer at dot 1104, and the frame stays undisturbed. */
  lemma TransferRaised(t: Timing, r: Timers)
    requires Sound(t, r) && !Pending(t.arb)
    ensures var u := Tick(t, r);
            u.beam.v < (if r.overscan then 240 else 225) && u.beam.h == 1104 && r.hdmaen == 4
            ==> && u.arb.transferPending && !u.arb.initPending && u.arb.startDelay && u.arb.fault.None?
                && u.arb.pace == t.arb.pace.(since := u.beam.clock, due := t.arb.pace.due + 1)
  {
    TickBeamOk(t.beam);
    InitDot(t.beam);
  }

  /** Without it none is raised, and that ends the claim to an undisturbed frame. */
  lemma NothingRaised(t: Timing, r: Timers)
    requires Sound(t, r) && !Pending(t.arb) && r.hdmaen == 0
    ensures var u := Tick(t, r);
            && !u.arb.transferPending
            && (u.beam.v < (if r.overscan then 240 else 225) && u.beam.h == 1104 ==> !u.arb.pace.whole)
  {
    TickBeamOk(t.beam);
    InitDot(t.beam);
  }
}
