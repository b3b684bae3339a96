/** The transfer rule from above: whatever it adds for a state, the concrete machine does from that state. */
module ClosureExactness {
  import opened Options
  import opened ClosureModel
  import opened ClosureSoundness

  /** Both instructions as the analysis reads them. */
  const AS_READ := Hardware(false, false)

  /** Concrete bytes for a local PHP stack; where the carry is unknown it is `c`. */
  function Concrete(ps: seq<SavedP>, c: bool): (f: seq<Frame>)
    ensures |f| == |ps|
  {
    seq(|ps|, k requires 0 <= k < |ps| => PFrame(ps[k].m, ps[k].x, if ps[k].carry.Some? then ps[k].carry.value else c))
  }

  /** Registers that fit a context; where the carry is unknown it is `c`. */
  function RegsOf(a: Cpu, c: bool): (r: Regs)
    ensures Fits(r, a)
  {
    Regs(a.pbr, a.pc, a.e, a.m, a.x, if a.carry.Some? then a.carry.value else c)
  }

  lemma ConcreteFits(ps: seq<SavedP>, c: bool, k: nat)
    requires k < |ps|
    ensures FrameFits(Concrete(ps, c)[k], ps[k])
  {
  }

  lemma ConcretePush(ps: seq<SavedP>, s: SavedP, c: bool, rest: seq<Frame>)
    requires CarryFits(c, s.carry)
    ensures rest + Concrete(ps + [s], c) == (rest + Concrete(ps, c)) + [PFrame(s.m, s.x, c)]
  {
  }

  lemma ConcretePop(ps: seq<SavedP>, c: bool, rest: seq<Frame>)
    requires ps != []
    ensures var stack := rest + Concrete(ps, c);
            && stack != [] && stack[..|stack| - 1] == rest + Concrete(ps[..|ps| - 1], c)
            && stack[|stack| - 1] == Concrete(ps, c)[|ps| - 1]
  {
  }

  /** From some registers that fit `st`, over its local bytes, one instruction leads to the registers `r` over the
      local bytes of `n`, with nothing below them touched. */
  ghost predicate SteppedTo(p: Program, st: State, n: State, r: Regs, rest: seq<Frame>) {
    exists from: Regs, ev: Event :: Fits(from, st.cpu) && ev.Execute?
                                    && Step(p, AS_READ, Config(from, rest + Concrete(st.pstack, r.c)), ev)
                                       == Next(Config(r, rest + Concrete(n.pstack, r.c)))
  }

  predicate IsBreak(p: Program, st: State) {
    IsAt(p, st, BRK) || IsAt(p, st, COP)
  }

  lemma DirectStep(p: Program, st: State, i: Inst, n: State, r: Regs, stack: seq<Frame>)
    requires IsJump(i) && Fits(r, n.cpu)
    requires n in Dispatch(p, st.proc, st.cpu, st.cpu, st.pstack, i).next
    ensures n.proc == st.proc && n.pstack == st.pstack
    ensures var ev := Execute(r.c, n.cpu.pc == i.operand, Site(n.cpu.pbr, n.cpu.pc));
            StepInst(p, AS_READ, Config(RegsOf(st.cpu, r.c), stack), i, ev) == Next(Config(r, stack))
  {
    hide Dispatch, StepInst, IsBranch;
    JumpNext(p, st, i);
    JumpLands(p, RegsOf(st.cpu, r.c), i, stack, Execute(r.c, n.cpu.pc == i.operand, Site(n.cpu.pbr, n.cpu.pc)));
  }

  /** The successors of a direct jump. */
  lemma JumpNext(p: Program, st: State, i: Inst)
    requires IsJump(i)
    ensures var fall := (st.cpu.pc + i.length) % 0x10000;
            Dispatch(p, st.proc, st.cpu, st.cpu, st.pstack, i).next
            == if i.mnemonic.JML? then {State(st.proc, FarPc(st.cpu, i.operand), st.pstack)}
               else if IsBranch(i.mnemonic)
               then {State(st.proc, st.cpu.(pc := fall), st.pstack),
                     State(st.proc, st.cpu.(pc := i.operand), st.pstack)}
               else {State(st.proc, st.cpu.(pc := i.operand), st.pstack)}
  {
    hide HandlerEntries, Leave;
  }

  lemma JumpLands(p: Program, r: Regs, i: Inst, stack: seq<Frame>, ev: Event)
    requires IsJump(i) && ev.Execute?
    ensures StepInst(p, AS_READ, Config(r, stack), i, ev)
            == Next(Config(if i.mnemonic.JML?
                           then r.(pbr := i.operand / 0x10000 % 0x100, pc := i.operand % 0x10000)
                           else r.(pc := if IsBranch(i.mnemonic) && !ev.taken then (r.pc + i.length) % 0x10000
                                         else i.operand), stack))
  {
    hide StepStatus, StepIndirect, StepReturn, StepCall, StepRti;
  }

  lemma IndirectStep(p: Program, st: State, i: Inst, n: State, r: Regs, stack: seq<Frame>)
    requires IsIndirectJump(i) && Fits(r, n.cpu)
    requires n in Dispatch(p, st.proc, st.cpu, st.cpu, st.pstack, i).next
    ensures n.proc == st.proc && n.pstack == st.pstack
    ensures var ev := Execute(r.c, n.cpu.pc == i.operand, Site(n.cpu.pbr, n.cpu.pc));
            StepInst(p, AS_READ, Config(RegsOf(st.cpu, r.c), stack), i, ev) == Next(Config(r, stack))
  {
    hide HandlerEntries, StepStatus, StepReturn, StepCall, StepRti, Leave;
  }

  lemma JumpReached(p: Program, st: State, i: Inst, n: State, r: Regs, rest: seq<Frame>)
    requires p.decode(KeyOf(st.cpu)) == Some(i) && (IsJump(i) || IsIndirectJump(i))
    requires n in Dispatch(p, st.proc, st.cpu, st.cpu, st.pstack, i).next && Fits(r, n.cpu)
    ensures n.proc == st.proc && SteppedTo(p, st, n, r, rest)
  {
    hide Dispatch, StepInst, Concrete, IsJump;
    var from := RegsOf(st.cpu, r.c);
    var ev := Execute(r.c, n.cpu.pc == i.operand, Site(n.cpu.pbr, n.cpu.pc));
    if IsIndirectJump(i) {
      IndirectStep(p, st, i, n, r, rest + Concrete(st.pstack, r.c));
    } else {
      DirectStep(p, st, i, n, r, rest + Concrete(st.pstack, r.c));
    }
    assert Step(p, AS_READ, Config(from, rest + Concrete(st.pstack, r.c)), ev)
        == Next(Config(r, rest + Concrete(n.pstack, r.c)));
  }

  lemma PlainReached(st: State, i: Inst, s: Status, r: Regs)
    requires s == StatusAfter(st.cpu, st.pstack, i) && s.Status? && !i.mnemonic.PHP? && !i.mnemonic.PLP?
    requires Fits(r, s.cpu.(pc := (st.cpu.pc + i.length) % 0x10000))
    ensures s.pstack == st.pstack
    ensures RegsAfter(AS_READ, RegsOf(st.cpu, r.c), i, r.c).(pc := r.pc) == r
  {
    hide HasFlag;
    StatusStack(st.cpu, st.pstack, i);
    if i.mnemonic.REP? || i.mnemonic.SEP? {
      WidthsReached(st.cpu, i, r);
    }
  }

  lemma WidthsReached(a: Cpu, i: Inst, r: Regs)
    requires i.mnemonic.REP? || i.mnemonic.SEP?
    requires Fits(r, StatusAfter(a, [], i).cpu.(pc := r.pc))
    ensures RegsAfter(AS_READ, RegsOf(a, r.c), i, r.c).(pc := r.pc) == r
  {
    hide HasFlag;
  }

  lemma StatusReached(p: Program, st: State, i: Inst, n: State, r: Regs, rest: seq<Frame>)
    requires p.decode(KeyOf(st.cpu)) == Some(i) && !IsControl(i)
    requires var s := StatusAfter(st.cpu, st.pstack, i);
             s.Status? && n == State(st.proc, s.cpu.(pc := (st.cpu.pc + i.length) % 0x10000), s.pstack)
    requires Fits(r, n.cpu)
    ensures SteppedTo(p, st, n, r, rest)
  {
    hide StatusAfter, RegsAfter, StepInst;
    var from := RegsOf(st.cpu, r.c);
    var ev := Execute(r.c, false, Site(0, 0));
    var c := Config(from, rest + Concrete(st.pstack, r.c));
    StatusStep(p, AS_READ, c, i, ev);
    StatusKeepsPc(st.cpu, st.pstack, i);
    StatusLands(st, i, n, r, rest);
    assert Step(p, AS_READ, c, ev) == Next(Config(r, rest + Concrete(n.pstack, r.c)));
  }

  lemma StatusLands(st: State, i: Inst, n: State, r: Regs, rest: seq<Frame>)
    requires var s := StatusAfter(st.cpu, st.pstack, i);
             s.Status? && n == State(st.proc, s.cpu.(pc := (st.cpu.pc + i.length) % 0x10000), s.pstack)
    requires Fits(r, n.cpu)
    ensures StepStatus(AS_READ, Config(RegsOf(st.cpu, r.c), rest + Concrete(st.pstack, r.c)), i, r.c)
            == Next(Config(r, rest + Concrete(n.pstack, r.c)))
  {
    if i.mnemonic.PHP? {
      PhpLands(st, i, n, r, rest);
    } else if i.mnemonic.PLP? {
      PlpLands(st, i, n, r, rest);
    } else {
      hide StatusAfter, RegsAfter, Concrete, RegsOf, Fits;
      PlainReached(st, i, StatusAfter(st.cpu, st.pstack, i), r);
      NextPc(st, i, n, r);
    }
  }

  lemma NextPc(st: State, i: Inst, n: State, r: Regs)
    requires n.cpu.pc == (st.cpu.pc + i.length) % 0x10000 && Fits(r, n.cpu)
    ensures r.pc == (RegsOf(st.cpu, r.c).pc + i.length) % 0x10000
  {
  }

  lemma PhpLands(st: State, i: Inst, n: State, r: Regs, rest: seq<Frame>)
    requires i.mnemonic.PHP? && Fits(r, n.cpu)
    requires n == State(st.proc, st.cpu.(pc := (st.cpu.pc + i.length) % 0x10000),
                        st.pstack + [SavedP(st.cpu.m, st.cpu.x, st.cpu.carry)])
    ensures StepStatus(AS_READ, Config(RegsOf(st.cpu, r.c), rest + Concrete(st.pstack, r.c)), i, r.c)
            == Next(Config(r, rest + Concrete(n.pstack, r.c)))
  {
    hide Concrete;
    ConcretePush(st.pstack, SavedP(st.cpu.m, st.cpu.x, st.cpu.carry), r.c, rest);
  }

  lemma PlpLands(st: State, i: Inst, n: State, r: Regs, rest: seq<Frame>)
    requires i.mnemonic.PLP? && st.pstack != [] && Fits(r, n.cpu)
    requires var s := st.pstack[|st.pstack| - 1];
             n == State(st.proc, st.cpu.(m := st.cpu.e || s.m, x := st.cpu.e || s.x, carry := s.carry,
                                         pc := (st.cpu.pc + i.length) % 0x10000), st.pstack[..|st.pstack| - 1])
    ensures StepStatus(AS_READ, Config(RegsOf(st.cpu, r.c), rest + Concrete(st.pstack, r.c)), i, r.c)
            == Next(Config(r, rest + Concrete(n.pstack, r.c)))
  {
    ConcretePop(st.pstack, r.c, rest);
    var last := Concrete(st.pstack, r.c)[|st.pstack| - 1];
    var s := st.pstack[|st.pstack| - 1];
    assert last == PFrame(s.m, s.x, r.c);
    hide Concrete;
  }

  /** Every successor inside a procedure is one step away: each of its concrete registers, over its local bytes, is
      what the instruction leaves of some registers of the state it comes from. */
  lemma NextExact(p: Program, st: State, n: State, r: Regs, rest: seq<Frame>)
    requires n in Transfer(p, st).next && !IsBreak(p, st) && Fits(r, n.cpu)
    ensures n.proc == st.proc && SteppedTo(p, st, n, r, rest)
  {
    hide StatusAfter, SteppedTo, Fits, IsControl, IsJump;
    var i := p.decode(KeyOf(st.cpu)).value;
    Shape(p, st, i);
    if IsControl(i) {
      ControlFlow(p, st, i);
      JumpReached(p, st, i, n, r, rest);
    } else {
      StatusReached(p, st, i, n, r, rest);
    }
  }

  /** Which instructions have successors at all. */
  lemma Shape(p: Program, st: State, i: Inst)
    requires p.decode(KeyOf(st.cpu)) == Some(i) && !IsBreak(p, st) && Transfer(p, st).next != {}
    ensures IsControl(i) ==> IsJump(i) || IsIndirectJump(i)
    ensures !IsControl(i) ==>
              var s := StatusAfter(st.cpu, st.pstack, i);
              && s.Status?
              && Transfer(p, st).next
                 == {State(st.proc, s.cpu.(pc := (st.cpu.pc + i.length) % 0x10000), s.pstack)}
  {
    hide HandlerEntries;
    if !IsControl(i) && StatusAfter(st.cpu, st.pstack, i).Status? {
      StatusKeepsPc(st.cpu, st.pstack, i);
    }
  }

  /** BRK and COP: the handler in every width, and the state that the pushed context resumes. */
  lemma BreakExact(p: Program, st: State, r: Regs, stack: seq<Frame>, ev: Event)
    requires IsBreak(p, st) && Fits(r, st.cpu) && !r.e && ev.Execute?
    ensures var vector := if IsAt(p, st, BRK) then p.brk else p.cop;
            var next := Step(p, AS_READ, Config(r, stack), ev);
            && next.Next? && next.config.stack == stack + [Top(next.config)]
            && Fits(next.config.cpu, HandlerEntry(vector, (r.m, r.x)).cpu)
            && (forall n :: n in Transfer(p, st).next
                            <==> (n in HandlerEntries(vector)
                                  || (Resumes(Top(next.config), n) && n.proc == st.proc && n.pstack == st.pstack
                                      && n.cpu.carry == st.cpu.carry)))
  {
    hide HandlerEntries, HandlerEntry, Transfer, Dispatch, StepStatus;
    HandlerShape(p.brk, (r.m, r.x));
    HandlerShape(p.cop, (r.m, r.x));
    var i := p.decode(KeyOf(st.cpu)).value;
    ControlFlow(p, st, i);
    BreakShape(p, st, i);
  }

  lemma BreakShape(p: Program, st: State, i: Inst)
    requires i.mnemonic.BRK? || i.mnemonic.COP?
    ensures Dispatch(p, st.proc, st.cpu, st.cpu, st.pstack, i).next
            == HandlerEntries(if i.mnemonic.BRK? then p.brk else p.cop)
               + {State(st.proc, st.cpu.(pc := (st.cpu.pc + i.length) % 0x10000), st.pstack)}
  {
    hide HandlerEntries;
  }

  lemma HandlerShape(vector: nat, w: (bool, bool))
    ensures HandlerEntry(vector, w).cpu == Cpu(0, vector, false, w.0, w.1, None)
  {
  }

  /** Every call is one step away: the callee's entry, over the return frame of the continuation. */
  lemma CallExact(p: Program, st: State, k: Call, r: Regs, rest: seq<Frame>)
    requires k in Transfer(p, st).calls && Fits(r, Entry(k.callee).cpu)
    ensures k.cont.caller == st.proc && k.cont.pstack == st.pstack
    ensures exists from: Regs, ev: Event ::
              && Fits(from, st.cpu) && ev.Execute?
              && Step(p, AS_READ, Config(from, rest + Concrete(st.pstack, r.c)), ev)
                 == Next(Config(r, rest + Concrete(st.pstack, r.c)
                                   + [RetFrame(k.callee.kind, k.cont.bank, k.cont.pc)]))
  {
    hide HandlerEntries, StatusAfter, IsControl, Concrete, Dispatch, StepInst;
    var i := p.decode(KeyOf(st.cpu)).value;
    CallShape(p, st, i);
    ControlFlow(p, st, i);
    var ev := Execute(r.c, false, Site(r.pbr, r.pc));
    CallStep(p, st, i, k, r, rest + Concrete(st.pstack, r.c), ev);
  }

  lemma CallStep(p: Program, st: State, i: Inst, k: Call, r: Regs, stack: seq<Frame>, ev: Event)
    requires p.decode(KeyOf(st.cpu)) == Some(i) && (i.mnemonic.JSR? || i.mnemonic.JSL?)
    requires k in Dispatch(p, st.proc, st.cpu, st.cpu, st.pstack, i).calls && Fits(r, Entry(k.callee).cpu)
    requires ev == Execute(r.c, false, Site(r.pbr, r.pc))
    ensures k.cont.caller == st.proc && k.cont.pstack == st.pstack
    ensures StepInst(p, AS_READ, Config(RegsOf(st.cpu, r.c), stack), i, ev)
            == Next(Config(r, stack + [RetFrame(k.callee.kind, k.cont.bank, k.cont.pc)]))
  {
    hide HandlerEntries, StepStatus;
  }

  lemma CallShape(p: Program, st: State, i: Inst)
    requires p.decode(KeyOf(st.cpu)) == Some(i) && (Transfer(p, st).calls != {} || Transfer(p, st).exits != {})
    ensures IsControl(i)
    ensures Transfer(p, st).calls != {} ==> i.mnemonic.JSR? || i.mnemonic.JSL?
    ensures Transfer(p, st).exits != {} ==> i.mnemonic.RTS? || i.mnemonic.RTL?
  {
    hide HandlerEntries, StatusAfter;
  }

  /** Every exit is one step away from each continuation: the summary of a call resumes there with the exit's
      status, and the return frame is gone. */
  lemma ExitExact(p: Program, st: State, x: ExitFact, k: Continuation, r: Regs, rest: seq<Frame>, ev: Event)
    requires x in Transfer(p, st).exits && Fits(r, Return(k, x.exit).cpu) && ev.Execute?
    ensures x.proc == st.proc && st.pstack == []
    ensures exists from: Regs ::
              && Fits(from, st.cpu)
              && Step(p, AS_READ, Config(from, rest + [RetFrame(st.proc.kind, k.bank, k.pc)]), ev)
                 == Next(Config(r, rest))
  {
    hide HandlerEntries, StatusAfter, IsControl;
    var i := p.decode(KeyOf(st.cpu)).value;
    CallShape(p, st, i);
    ControlFlow(p, st, i);
    var from := RegsOf(st.cpu, r.c);
    var stack := rest + [RetFrame(st.proc.kind, k.bank, k.pc)];
    assert stack[..|stack| - 1] == rest;
    assert Step(p, AS_READ, Config(from, stack), ev) == Next(Config(r, rest));
  }

  /** What lies on top of a stack that a table explains. */
  lemma TopFrame(t: Table, st: State, c: Config)
    requires Represents(t, st, c)
    ensures st.pstack != [] ==> c.stack != [] && Top(c).PFrame?
    ensures st.pstack == [] && st.proc.kind.RootKind? ==> c.stack == []
    ensures st.pstack == [] && (st.proc.kind.RtsKind? || st.proc.kind.RtlKind?) ==>
              c.stack != [] && Top(c).RetFrame? && Top(c).kind == st.proc.kind
    ensures st.pstack == [] && st.proc.kind.RtiKind? ==> c.stack != [] && Top(c).IntFrame?
  {
    assert Frames(t, c.stack, st.proc, st.pstack);
    if st.pstack == [] {
      match st.proc.kind
      case RootKind =>
      case RtsKind => assert ReturnFrame(t, c.stack, st.proc);
      case RtlKind => assert ReturnFrame(t, c.stack, st.proc);
      case RtiKind =>
    }
  }

  lemma ControlFault(p: Program, t: Table, st: State, i: Inst, c: Config, ev: Event)
    requires Represents(t, st, c) && ev.Execute? && p.decode(KeyOf(st.cpu)) == Some(i) && IsControl(i)
    ensures Step(p, AS_READ, c, ev).Broken? <==> Transfer(p, st).fault.Some?
    ensures Transfer(p, st).fault != Some(UnknownCarryXce)
  {
    hide HandlerEntries, Frames, StatusAfter, StepStatus, Transfer;
    TopFrame(t, st, c);
    ControlFlow(p, st, i);
  }

  lemma StatusFault(p: Program, t: Table, st: State, i: Inst, c: Config, ev: Event)
    requires Represents(t, st, c) && ev.Execute? && p.decode(KeyOf(st.cpu)) == Some(i) && !IsControl(i)
    ensures Step(p, AS_READ, c, ev).Broken? <==> i.mnemonic.PLP? && st.pstack == []
    ensures Transfer(p, st).fault == if i.mnemonic.XCE? && st.cpu.carry.None? then Some(UnknownCarryXce)
                                     else if i.mnemonic.PLP? && st.pstack == [] then Some(PlpUnderflow) else None
  {
    hide HandlerEntries, HasFlag, Frames, RegsAfter, StepInst;
    TopFrame(t, st, c);
    StatusStep(p, AS_READ, c, i, ev);
  }

  /** A frontier is where the machine breaks, or where XCE meets an unknown carry: over any stack that a table
      explains, a state that stops at another fault breaks on every event, and no other state breaks on any. */
  lemma FaultExact(p: Program, t: Table, st: State, c: Config, ev: Event)
    requires Represents(t, st, c) && ev.Execute?
    ensures Step(p, AS_READ, c, ev).Broken?
            <==> Transfer(p, st).fault.Some? && Transfer(p, st).fault != Some(UnknownCarryXce)
    ensures Transfer(p, st).fault == Some(UnknownCarryXce) <==> IsAt(p, st, XCE) && st.cpu.carry.None?
  {
    hide Frames, IsControl, StepInst, StatusAfter, Dispatch;
    if p.decode(KeyOf(st.cpu)).Some? {
      var i := p.decode(KeyOf(st.cpu)).value;
      XceIsStatus(i);
      if IsControl(i) {
        ControlFault(p, t, st, i, c, ev);
      } else {
        StatusFault(p, t, st, i, c, ev);
      }
    }
  }

  lemma XceIsStatus(i: Inst)
    ensures i.mnemonic.XCE? ==> !IsControl(i)
  {
  }

  /** A seed is the reset state, or what an NMI or an IRQ enters from native registers of the same widths, or the
      BRK handler. */
  lemma SeedsExact(p: Program, st: State, r: Regs)
    requires st in Seeds(p) && Fits(r, st.cpu)
    ensures st.pstack == []
    ensures || (Initial(p, Config(r, [])) && st.proc.kind.RootKind?)
            || (st.proc.kind.RtiKind?
                && (st in HandlerEntries(p.brk)
                    || Step(p, AS_READ, Config(r, []), Interrupt(true)) == Next(Config(r, [Interrupted(r)]))
                    || Step(p, AS_READ, Config(r, []), Interrupt(false)) == Next(Config(r, [Interrupted(r)]))))
  {
    hide Transfer;
    if st != ResetEntry(p) && st !in HandlerEntries(p.brk) {
      SeedNative(if st in HandlerEntries(p.nmi) then p.nmi else p.irq, st);
    }
  }

  function Interrupted(r: Regs): Frame {
    IntFrame(r.pbr, r.pc, r.m, r.x, r.c)
  }

  lemma SeedNative(vector: nat, st: State)
    requires st in HandlerEntries(vector)
    ensures st.pstack == [] && st.proc.kind.RtiKind? && !st.cpu.e && st.cpu.pbr == 0 && st.cpu.pc == vector
  {
  }

  /** Every return site is a return of the machine: from the instruction, over a frame of its kind, to the target. */
  lemma SiteExact(p: Program, t: Table, s: ReturnSite, ev: Event)
    requires s in ReturnSites(p, t) && ev.Execute?
    ensures exists from: Regs ::
              && Site(from.pbr, from.pc) == s.at
              && var next := Step(p, AS_READ, Config(from, [RetFrame(s.kind, s.target.bank, s.target.pc)]), ev);
                 next.Next? && Site(next.config.cpu.pbr, next.config.cpu.pc) == s.target && next.config.stack == []
  {
    hide Transfer, Step;
    var st, k :| st in t.seen && k in t.calls && Transfer(p, st).exits != {} && k.callee == st.proc
                 && s == ReturnSite(Site(st.cpu.pbr, st.cpu.pc), st.proc.kind, Site(k.cont.bank, k.cont.pc));
    var x :| x in Transfer(p, st).exits;
    var r := RegsOf(Return(k.cont, x.exit).cpu, false);
    ExitExact(p, st, x, k.cont, r, [], ev);
    assert [] + [RetFrame(s.kind, s.target.bank, s.target.pc)] == [RetFrame(s.kind, s.target.bank, s.target.pc)];
  }

  // ----- what both readings share -----

  /** REP and SEP by the bits of their operand: 0 is carry, 4 the index width, 5 the accumulator width. */
  lemma FlagBits(carry: nat, low: nat, index: nat, accumulator: nat, high: nat)
    requires carry < 2 && low < 8 && index < 2 && accumulator < 2 && high < 4
    ensures var operand := carry + 2 * low + 0x10 * index + 0x20 * accumulator + 0x40 * high;
            && (HasFlag(operand, P_C) <==> carry == 1) && (HasFlag(operand, P_X) <==> index == 1)
            && (HasFlag(operand, P_M) <==> accumulator == 1)
  {
    var operand := carry + 2 * low + 0x10 * index + 0x20 * accumulator + 0x40 * high;
    assert operand / 0x10 == index + 2 * accumulator + 4 * high && operand / 0x20 == accumulator + 2 * high;
  }

  /** The instructions whose carry depends on data, and those that branch on a flag. */
  lemma ClassesListed(m: Mnemonic)
    ensures ClobbersCarry(m) <==> m in {CMP, CPX, CPY, ADC, SBC, LSR, ROL, ASL}
    ensures IsBranch(m) <==> m in {BEQ, BNE, BCC, BCS, BVC, BVS, BMI, BPL}
  {
  }
}
