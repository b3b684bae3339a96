/** What the clock does to the events it raises: HDMA requests and the NMI edge. */
module ClockEvents {
  import opened Options
  import opened Clock

  predicate Pending(a: Arbiter) {
    a.initPending || a.transferPending
  }

  /** At most `k` clocks after a dot at which a frame initialisation or a scanline transfer is raised. */
  predicate Near(b: Beam, k: int) {
    || TRANSFER_H <= b.h <= TRANSFER_H + k
    || (b.frames > 0 && b.v == 0 && b.initH <= b.h <= b.initH + k)
  }

  /** The request that is pending was raised at most `k` clocks ago: an initialisation at the init dot of line 0,
      a transfer at dot 1104 of a visible line.  `since` is the clock of that dot. */
  predicate Waiting(t: Timing, k: int) {
    && (t.arb.initPending ==>
          && t.beam.frames > 0 && t.beam.v == 0 && t.beam.initH <= t.beam.h <= t.beam.initH + k
          && t.arb.pace.since == t.beam.clock - (t.beam.h - t.beam.initH))
    && (t.arb.transferPending ==>
          && t.beam.v < 240 && TRANSFER_H <= t.beam.h <= TRANSFER_H + k
          && t.arb.pace.since == t.beam.clock - (t.beam.h - TRANSFER_H))
  }

  /** On a line that transfers in every setting, after the frame's initialisation has been raised. */
  predicate InFrame(b: Beam) {
    b.frames > 0 && b.v < 225 && (b.v > 0 || b.h >= b.initH)
  }

  /** How many lines of the frame have raised their transfer. */
  function LinesBegun(b: Beam): int {
    b.v + (if b.h >= TRANSFER_H then 1 else 0)
  }

  /** In an undisturbed frame every line has raised one transfer, and all but a pending one have been taken. */
  predicate Paced(t: Timing) {
    InFrame(t.beam) && t.arb.pace.whole ==>
      && t.arb.pace.due == LinesBegun(t.beam)
      && t.arb.pace.taken == t.arb.pace.due - (if t.arb.transferPending then 1 else 0)
  }

  /** The beam has a legal state, the scheduler has not failed, at most one request is pending, and the frame is
      on pace. */
  predicate Sound(t: Timing, r: Timers) {
    && Settled(t.beam) && t.arb.fault.None? && (r.hdmaen == 0 || r.hdmaen == 4)
    && !(t.arb.initPending && t.arb.transferPending) && Paced(t)
  }

  /** The init dot lies at 12 to 19 of line 0, and is never the first dot of a line. */
  lemma InitDot(b: Beam)
    requires Settled(b)
    ensures var u := TickBeam(b);
            u.v == 0 && u.h == u.initH ==> u.frames > 0 && 12 <= u.initH <= 19 && b.v == 0 && b.h == u.h - 1
    ensures b.frames > 0 ==> 12 <= b.initH <= 19
  {
    TickBeamOk(b);
  }

  /** Shortly after one event nothing is raised and no refresh is due. */
  lemma NearTick(t: Timing, r: Timers, k: int)
    requires Settled(t.beam) && 0 <= k <= 250 && Near(t.beam, k)
    ensures Tick(t, r).arb == t.arb && Near(Tick(t, r).beam, k + 1) && Settled(Tick(t, r).beam)
    ensures Tick(t, r).beam == t.beam.(clock := t.beam.clock + 1, h := t.beam.h + 1)
  {
    TickBeamOk(t.beam);
    InitDot(t.beam);
    var b := TickBeam(t.beam);
    if RefreshDue(b) {
      RefreshPhase(b);
    }
  }

  lemma {:induction false} NearAdvance(t: Timing, r: Timers, n: nat, k: int)
    requires Settled(t.beam) && 0 <= k && k + n <= 250 && Near(t.beam, k)
    ensures Settled(Advance(t, r, n).beam) && Near(Advance(t, r, n).beam, k + n)
    ensures Advance(t, r, n).arb == t.arb
    ensures Advance(t, r, n).beam == t.beam.(clock := t.beam.clock + n, h := t.beam.h + n)
    decreases n
  {
    if n > 0 {
      NearTick(t, r, k);
      NearAdvance(Tick(t, r), r, n - 1, k + 1);
    }
  }

  lemma NearSound(t: Timing, r: Timers, n: nat, k: int)
    requires Sound(t, r) && 0 <= k && k + n <= 250 && Near(t.beam, k)
    ensures Sound(Advance(t, r, n), r) && Near(Advance(t, r, n).beam, k + n) && Advance(t, r, n).arb == t.arb
  {
    hide Settled, Advance;
    InitDotOf(t.beam);
    NearAdvance(t, r, n, k);
  }

  /** A pending request ages by exactly the clocks that pass, and nothing else is raised meanwhile. */
  lemma WaitingAdvance(t: Timing, r: Timers, n: nat, k: int)
    requires Sound(t, r) && Pending(t.arb) && Waiting(t, k) && 0 <= k && k + n <= 250
    ensures Sound(Advance(t, r, n), r) && Waiting(Advance(t, r, n), k + n)
    ensures Advance(t, r, n).arb == t.arb
    ensures Advance(t, r, n).beam == t.beam.(clock := t.beam.clock + n, h := t.beam.h + n)
  {
    hide Settled, Advance;
    InitDotOf(t.beam);
    NearAdvance(t, r, n, k);
  }

  lemma InitDotOf(b: Beam)
    requires Settled(b)
    ensures b.frames > 0 ==> 12 <= b.initH <= 19
  {
  }

  /** With nothing pending a clock raises at most one request, and it is then new. */
  lemma FarTick(t: Timing, r: Timers)
    requires Sound(t, r) && !Pending(t.arb)
    ensures var u := Tick(t, r);
            && u.arb.fault.None? && !(u.arb.initPending && u.arb.transferPending)
            && Waiting(u, 0) && (Pending(u.arb) ==> u.arb.startDelay && Near(u.beam, 0))
            && (!Pending(u.arb) ==> u.arb == t.arb.(pace := u.arb.pace))
  {
    TickBeamOk(t.beam);
    InitDot(t.beam);
  }

  lemma PacedTick(t: Timing, r: Timers)
    requires Sound(t, r) && !Pending(t.arb)
    ensures Paced(Tick(t, r))
  {
    TickBeamOk(t.beam);
    InitDot(t.beam);
  }

  lemma {:induction false} RefreshRaisesNothing(t: Timing, r: Timers, n: nat)
    requires Settled(t.beam) && t.beam.refreshDone && 531 <= t.beam.h && t.beam.h + n < 600
    ensures Ticks(t, r, n).arb == t.arb
    decreases n
  {
    if n > 0 {
      TickBeamOk(t.beam);
      InitDot(t.beam);
      RefreshRaisesNothing(Tick(t, r), r, n - 1);
    }
  }

  lemma SettleRaisesNothing(t: Timing, r: Timers)
    requires BeamOk(t.beam)
    ensures Settle(t, r).arb == t.arb && (Paced(t) ==> Paced(Settle(t, r)))
    ensures Near(t.beam, 0) ==> Settle(t, r) == t
  {
    SettleOk(t, r);
    if RefreshDue(t.beam) {
      RefreshPhase(t.beam);
      RefreshRaisesNothing(t.(beam := Refreshing(t.beam)), r, REFRESH_CLOCKS);
    }
  }

  /** Advancing with nothing pending raises at most one request, at most `n` clocks before the end. */
  lemma {:induction false} FarAdvance(t: Timing, r: Timers, n: nat)
    requires Sound(t, r) && !Pending(t.arb) && n <= 250
    ensures var u := Advance(t, r, n);
            && Sound(u, r) && Waiting(u, n) && (Pending(u.arb) ==> u.arb.startDelay)
            && (!Pending(u.arb) ==> u.arb == t.arb.(pace := u.arb.pace))
    decreases n
  {
    if n > 0 {
      hide Tick, Settle, Settled, BeamOk, RefreshDue, Paced, Waiting, Near;
      var tick := Tick(t, r);
      TickSettles(t, r);
      FarTick(t, r);
      PacedTick(t, r);
      SettleRaisesNothing(tick, r);
      if Pending(tick.arb) {
        WaitingAdvance(tick, r, n - 1, 0);
      } else {
        FarAdvance(Settle(tick, r), r, n - 1);
      }
      WaitingWeaken(Advance(t, r, n), n - 1, n);
    }
  }

  lemma TickSettles(t: Timing, r: Timers)
    requires Settled(t.beam)
    ensures BeamOk(Tick(t, r).beam) && Settled(Settle(Tick(t, r), r).beam)
  {
    TickBeamOk(t.beam);
    SettleOk(Tick(t, r), r);
  }

  lemma WaitingWeaken(t: Timing, j: int, k: int)
    requires j <= k
    ensures Waiting(t, j) ==> Waiting(t, k)
  {
  }

  /** An undisturbed frame whose initialisation has been taken was one before, with as many lines taken. */
  predicate PaceKept(t: Timing, u: Timing) {
    InFrame(u.beam) && u.arb.pace.whole && !u.arb.initPending ==>
      && InFrame(t.beam) && t.arb.pace.whole && !t.arb.initPending && u.arb.pace.taken == t.arb.pace.taken
  }

  lemma PaceTick(t: Timing, r: Timers)
    requires Settled(t.beam) && Tick(t, r).arb.fault.None?
    ensures PaceKept(t, Tick(t, r)) && t.arb.fault.None?
  {
    TickBeamOk(t.beam);
    InitDot(t.beam);
  }

  lemma {:induction false} PaceAdvance(t: Timing, r: Timers, n: nat)
    requires Settled(t.beam)
    ensures Advance(t, r, n).arb.fault.None? ==> PaceKept(t, Advance(t, r, n)) && t.arb.fault.None?
    decreases n
  {
    hide Tick, Settle, Settled, BeamOk, RefreshDue, InFrame;
    if n > 0 {
      var tick := Tick(t, r);
      TickSettles(t, r);
      SettleRaisesNothing(tick, r);
      SettleStays(tick, r);
      PaceAdvance(Settle(tick, r), r, n - 1);
      if tick.arb.fault.None? {
        PaceTick(t, r);
      }
    }
  }

  lemma SettleStays(t: Timing, r: Timers)
    requires BeamOk(t.beam)
    ensures InFrame(Settle(t, r).beam) == InFrame(t.beam)
  {
    SettleOk(t, r);
  }

  // ----- the NMI edge -----

  /** An edge has been raised and not yet been taken. */
  predicate EdgeHeld(n: Nmi) {
    n.pending || n.counter > 0
  }

  /** Clocks change the edge only by raising one, which is then about to be sampled. */
  predicate EdgeKept(n: Nmi, m: Nmi) {
    && m.pending == n.pending && m.raises >= n.raises
    && m.counter == if m.raises > n.raises then 1 else n.counter
  }

  lemma {:induction false} TicksKeepEdge(t: Timing, r: Timers, n: nat)
    ensures EdgeKept(t.nmi, Ticks(t, r, n).nmi)
    decreases n
  {
    if n > 0 {
      TicksKeepEdge(Tick(t, r), r, n - 1);
    }
  }

  lemma {:induction false} AdvanceKeepsEdge(t: Timing, r: Timers, n: nat)
    ensures EdgeKept(t.nmi, Advance(t, r, n).nmi)
    decreases n
  {
    if n > 0 {
      var tick := Tick(t, r);
      TicksKeepEdge(tick.(beam := Refreshing(tick.beam)), r, REFRESH_CLOCKS);
      AdvanceKeepsEdge(Settle(tick, r), r, n - 1);
    }
  }

  /** The edge is raised at dot 6 of the NMI line, exactly when the guest has enabled it, and is then about to be
      sampled. */
  lemma EdgeRaised(t: Timing, r: Timers)
    ensures var u := Tick(t, r);
            var now := r.nmiEnable && u.beam.v == (if r.overscan then 240 else 225) && u.beam.h == 6;
            && u.nmi.raises == t.nmi.raises + (if now then 1 else 0)
            && u.nmi.counter == if now then 1 else t.nmi.counter
  {
  }
}
