/** The concrete machine with one unified stack, and the proof that no run of it leaves a closed table. */
module ClosureSoundness {
  import opened Options
  import opened ClosureModel

  /** Entries of the single hardware stack: a PHP byte, a call's return address, an interrupted context. */
  datatype Frame =
    | PFrame(m: bool, x: bool, c: bool)
    | RetFrame(kind: Kind, bank: nat, pc: nat)
    | IntFrame(pbr: nat, pc: nat, m: bool, x: bool, c: bool)

  datatype Regs = Regs(pbr: nat, pc: nat, e: bool, m: bool, x: bool, c: bool)
  datatype Config = Config(cpu: Regs, stack: seq<Frame>)

  /** What the untracked data of a run decides: a computed carry, a branch, an indirect target, an interrupt. */
  datatype Event =
    | Execute(carry: bool, taken: bool, target: Site)
    | Interrupt(nonMaskable: bool)

  /** Two W65C816 facts the analysis does not use: ROR writes carry, and RTS leaves PBR alone. */
  datatype Hardware = Hardware(rorWritesCarry: bool, rtsKeepsBank: bool)

  datatype Outcome =
    | Next(config: Config)
    | Blocked   // the event is not possible here, or the machine stops by design
    | Broken    // an undecodable context, a mismatched stack frame or an unproved target

  function RegsKey(r: Regs): RuntimeKey {
    RuntimeKey(r.pbr, r.pc, r.e, r.m, r.x)
  }

  function Pop(c: Config): seq<Frame>
    requires c.stack != []
  {
    c.stack[..|c.stack| - 1]
  }

  function Top(c: Config): Frame
    requires c.stack != []
  {
    c.stack[|c.stack| - 1]
  }

  function Go(c: Config, r: Regs): Outcome {
    Next(Config(r, c.stack))
  }

  function EnterHandler(c: Config, resume: nat, vector: nat): Outcome {
    Next(Config(c.cpu.(pbr := 0, pc := vector),
                c.stack + [IntFrame(c.cpu.pbr, resume, c.cpu.m, c.cpu.x, c.cpu.c)]))
  }

  /** The status bits after one instruction other than PLP. */
  function RegsAfter(hw: Hardware, r: Regs, i: Inst, carry: bool): Regs {
    if i.mnemonic.CLC? then r.(c := false)
    else if i.mnemonic.SEC? then r.(c := true)
    else if i.mnemonic.REP? then
      r.(c := r.c && !HasFlag(i.operand, P_C),
         m := r.m && (r.e || !HasFlag(i.operand, P_M)),
         x := r.x && (r.e || !HasFlag(i.operand, P_X)))
    else if i.mnemonic.SEP? then
      r.(c := r.c || HasFlag(i.operand, P_C),
         m := r.m || HasFlag(i.operand, P_M),
         x := r.x || HasFlag(i.operand, P_X))
    else if i.mnemonic.XCE? then r.(e := r.c, c := r.e, m := r.c || r.m, x := r.c || r.x)
    else if ClobbersCarry(i.mnemonic) || (i.mnemonic.ROR? && hw.rorWritesCarry) then r.(c := carry)
    else r
  }

  /** The instructions that only change the status bits or the PHP stack, then fall through. */
  function StepStatus(hw: Hardware, c: Config, i: Inst, carry: bool): Outcome {
    var r := RegsAfter(hw, c.cpu, i, carry);
    var fall := (c.cpu.pc + i.length) % 0x10000;
    if i.mnemonic.PHP? then Next(Config(r.(pc := fall), c.stack + [PFrame(r.m, r.x, r.c)]))
    else if !i.mnemonic.PLP? then Go(c, r.(pc := fall))
    else if c.stack == [] || !Top(c).PFrame? then Broken
    else Next(Config(r.(pc := fall, m := r.e || Top(c).m, x := r.e || Top(c).x, c := Top(c).c), Pop(c)))
  }

  function StepReturn(hw: Hardware, c: Config, kind: Kind): Outcome {
    if c.stack == [] || !Top(c).RetFrame? || Top(c).kind != kind then Broken
    else
      var bank := if kind.RtsKind? && hw.rtsKeepsBank then c.cpu.pbr else Top(c).bank;
      Next(Config(c.cpu.(pbr := bank, pc := Top(c).pc), Pop(c)))
  }

  function StepCall(c: Config, kind: Kind, fall: nat, target: Site): Outcome {
    Next(Config(c.cpu.(pbr := target.bank, pc := target.pc), c.stack + [RetFrame(kind, c.cpu.pbr, fall)]))
  }

  function StepRti(c: Config): Outcome {
    if c.stack == [] || !Top(c).IntFrame? then Broken
    else if c.cpu.e then Blocked
    else Next(Config(Regs(Top(c).pbr, Top(c).pc, false, Top(c).m, Top(c).x, Top(c).c), Pop(c)))
  }

  function StepIndirect(p: Program, c: Config, i: Inst, fall: nat, target: Site): Outcome {
    var site := Site(c.cpu.pbr, c.cpu.pc);
    if site !in p.indirect then Broken
    else if target !in p.indirect[site] then Blocked
    else if i.mnemonic.JSR? then StepCall(c, RtsKind, fall, target)
    else Go(c, c.cpu.(pbr := target.bank, pc := target.pc))
  }

  predicate IsIndirect(i: Inst) {
    IsIndirectJump(i) || (i.mnemonic.JSR? && i.mode.AbsIndX?)
  }

  function StepInst(p: Program, hw: Hardware, c: Config, i: Inst, ev: Event): Outcome
    requires ev.Execute?
  {
    var r := c.cpu;
    var fall := (r.pc + i.length) % 0x10000;
    var far := Site((i.operand / 0x10000) % 0x100, i.operand % 0x10000);
    if i.mnemonic.JML? then Go(c, r.(pbr := far.bank, pc := far.pc))
    else if i.mnemonic.JMP? && i.mode.Abs? then Go(c, r.(pc := i.operand))
    else if IsIndirect(i) then StepIndirect(p, c, i, fall, ev.target)
    else if IsBranch(i.mnemonic) then Go(c, r.(pc := if ev.taken then i.operand else fall))
    else if i.mnemonic.BRA? || i.mnemonic.BRL? then Go(c, r.(pc := i.operand))
    else if i.mnemonic.JSR? && i.mode.Abs? then StepCall(c, RtsKind, fall, Site(r.pbr, i.operand))
    else if i.mnemonic.JSL? then StepCall(c, RtlKind, fall, far)
    else if i.mnemonic.RTS? then StepReturn(hw, c, RtsKind)
    else if i.mnemonic.RTL? then StepReturn(hw, c, RtlKind)
    else if i.mnemonic.RTI? then StepRti(c)
    else if i.mnemonic.BRK? || i.mnemonic.COP? then
      if r.e then Blocked else EnterHandler(c, fall, if i.mnemonic.BRK? then p.brk else p.cop)
    else if i.mnemonic.STP? then Blocked
    else StepStatus(hw, c, i, ev.carry)
  }

  /** One step: an instruction, or an interrupt at an instruction boundary (native mode only). */
  function Step(p: Program, hw: Hardware, c: Config, ev: Event): Outcome {
    match ev
    case Interrupt(n) =>
      if c.cpu.e then Blocked else EnterHandler(c, c.cpu.pc, if n then p.nmi else p.irq)
    case Execute(_, _, _) =>
      match p.decode(RegsKey(c.cpu))
      case None => Broken
      case Some(i) => StepInst(p, hw, c, i, ev)
  }

  predicate Initial(p: Program, c: Config) {
    RegsKey(c.cpu) == RuntimeKey(0, p.reset, true, true, true) && c.stack == []
  }

  /** A run from reset: every event takes one configuration to the next. */
  predicate IsRun(p: Program, hw: Hardware, run: seq<Config>, events: seq<Event>) {
    && |run| == |events| + 1
    && Initial(p, run[0])
    && forall n :: 0 <= n < |events| ==> Step(p, hw, run[n], events[n]) == Next(run[n + 1])
  }

  // ----- the abstraction relation -----

  predicate CarryFits(c: bool, a: Option<bool>) {
    a.None? || a.value == c
  }

  predicate Fits(r: Regs, a: Cpu) {
    RegsKey(r) == KeyOf(a) && CarryFits(r.c, a.carry)
  }

  predicate FrameFits(f: Frame, s: SavedP) {
    f.PFrame? && f.m == s.m && f.x == s.x && CarryFits(f.c, s.carry)
  }

  /** The stack splits into the local PHP bytes of `proc`, its own return frame, and its caller's stack. */
  ghost predicate Frames(t: Table, stack: seq<Frame>, proc: Proc, ps: seq<SavedP>)
    decreases |stack|
  {
    if ps != [] then
      && stack != []
      && FrameFits(stack[|stack| - 1], ps[|ps| - 1])
      && Frames(t, stack[..|stack| - 1], proc, ps[..|ps| - 1])
    else
      match proc.kind
      case RootKind => stack == []
      case RtsKind => ReturnFrame(t, stack, proc)
      case RtlKind => ReturnFrame(t, stack, proc)
      case RtiKind =>
        && stack != []
        && stack[|stack| - 1].IntFrame?
        && exists st :: st in t.seen && Resumes(stack[|stack| - 1], st)
                        && Frames(t, stack[..|stack| - 1], st.proc, st.pstack)
  }

  ghost predicate ReturnFrame(t: Table, stack: seq<Frame>, proc: Proc)
    decreases |stack|, 0
  {
    && stack != []
    && stack[|stack| - 1].RetFrame?
    && stack[|stack| - 1].kind == proc.kind
    && exists k :: k in t.calls && k.callee == proc && ReturnsTo(stack[|stack| - 1], k.cont)
                   && Frames(t, stack[..|stack| - 1], k.cont.caller, k.cont.pstack)
  }

  predicate ReturnsTo(f: Frame, k: Continuation) {
    f.RetFrame? && f.bank == k.bank && f.pc == k.pc
  }

  predicate Resumes(f: Frame, st: State) {
    f.IntFrame? && Fits(Regs(f.pbr, f.pc, false, f.m, f.x, f.c), st.cpu)
  }

  ghost predicate Represents(t: Table, st: State, c: Config) {
    st in t.seen && Fits(c.cpu, st.cpu) && Frames(t, c.stack, st.proc, st.pstack)
  }

  ghost predicate Represented(t: Table, c: Config) {
    exists st :: Represents(t, st, c)
  }

  // ----- what the two unused hardware facts ask of the table -----

  /** The table answers for a state: for each carry it allows, with that carry or with carry unknown. */
  ghost predicate Held(t: Table, st: State) {
    forall c: bool :: CarryFits(c, st.cpu.carry) ==> HeldWith(t, st, None) || HeldWith(t, st, Some(c))
  }

  ghost predicate HeldWith(t: Table, st: State, carry: Option<bool>) {
    st.(cpu := st.cpu.(carry := carry)) in t.seen
  }

  /** What follows a ROR when nothing is known of the carry it leaves. */
  function AfterRor(st: State, i: Inst): State {
    st.(cpu := st.cpu.(pc := (st.cpu.pc + i.length) % 0x10000, carry := None))
  }

  predicate IsAt(p: Program, st: State, m: Mnemonic) {
    p.decode(KeyOf(st.cpu)).Some? && p.decode(KeyOf(st.cpu)).value.mnemonic == m
  }

  /** After every analysed ROR the table answers for both carries. */
  ghost predicate RorCovered(p: Program, t: Table) {
    forall st :: st in t.seen && IsAt(p, st, ROR) ==> Held(t, AfterRor(st, p.decode(KeyOf(st.cpu)).value))
  }

  function ExitOf(c: Cpu): Exit {
    Exit(c.e, c.m, c.x, c.carry)
  }

  /** Where a return really resumes: an RTS may keep the bank it is in. */
  function Resumed(hw: Hardware, st: State, k: Continuation): State {
    Return(k.(bank := if st.proc.kind.RtsKind? && hw.rtsKeepsBank then st.cpu.pbr else k.bank), ExitOf(st.cpu))
  }

  /** The table answers for every resumption of the procedure that `st` returns from. */
  ghost predicate Resumable(hw: Hardware, t: Table, st: State) {
    forall k :: k in t.calls && k.callee == st.proc ==> Held(t, Resumed(hw, st, k.cont))
  }

  /** Wherever an RTS leaves its procedure, the table answers for every caller in the RTS's own bank. */
  ghost predicate RtsCovered(p: Program, t: Table) {
    forall st {:trigger Transfer(p, st)} ::
      st in t.seen && IsAt(p, st, RTS) && Transfer(p, st).exits != {} ==> Resumable(Hardware(false, true), t, st)
  }

  ghost predicate Suits(p: Program, hw: Hardware, t: Table) {
    && (hw.rorWritesCarry ==> RorCovered(p, t))
    && (hw.rtsKeepsBank ==> RtsCovered(p, t))
  }

  /** The same asked of the processor: whatever registers fit an analysed ROR or returning RTS, what they
      become fits an analysed state of the same activation, or of the caller's. */
  ghost predicate Simulates(p: Program, hw: Hardware, t: Table) {
    && (forall st, r, c :: st in t.seen && IsAt(p, st, ROR) && Fits(r, st.cpu) ==> RorSimulated(p, hw, t, st, r, c))
    && (forall st, r, k :: st in t.seen && IsAt(p, st, RTS) && Transfer(p, st).exits != {} && Fits(r, st.cpu)
                           && k in t.calls && k.callee == st.proc
                           ==> RtsSimulated(hw, t, r, k.cont))
  }

  ghost predicate FitsSome(t: Table, r: Regs, proc: Proc, ps: seq<SavedP>) {
    exists n :: n in t.seen && n.proc == proc && n.pstack == ps && Fits(r, n.cpu)
  }

  ghost predicate RorSimulated(p: Program, hw: Hardware, t: Table, st: State, r: Regs, carry: bool)
    requires IsAt(p, st, ROR)
  {
    var i := p.decode(KeyOf(st.cpu)).value;
    FitsSome(t, RegsAfter(hw, r, i, carry).(pc := (r.pc + i.length) % 0x10000), st.proc, st.pstack)
  }

  ghost predicate RtsSimulated(hw: Hardware, t: Table, r: Regs, k: Continuation) {
    FitsSome(t, r.(pbr := if hw.rtsKeepsBank then r.pbr else k.bank, pc := k.pc), k.caller, k.pstack)
  }

  /** To be held is to have a fitting state for all registers that fit. */
  lemma HeldFits(t: Table, st: State)
    ensures Held(t, st) <==> forall r :: Fits(r, st.cpu) ==> FitsSome(t, r, st.proc, st.pstack)
  {
    if Held(t, st) {
      forall r | Fits(r, st.cpu)
        ensures FitsSome(t, r, st.proc, st.pstack)
      {
        var _ := Answer(t, st, r);
      }
    }
    if forall r :: Fits(r, st.cpu) ==> FitsSome(t, r, st.proc, st.pstack) {
      forall c: bool | CarryFits(c, st.cpu.carry)
        ensures HeldWith(t, st, None) || HeldWith(t, st, Some(c))
      {
        var r := Regs(st.cpu.pbr, st.cpu.pc, st.cpu.e, st.cpu.m, st.cpu.x, c);
        assert FitsSome(t, r, st.proc, st.pstack);
        var n :| n in t.seen && n.proc == st.proc && n.pstack == st.pstack && Fits(r, n.cpu);
        assert n == st.(cpu := st.cpu.(carry := n.cpu.carry));
        assert n.cpu.carry.None? || n.cpu.carry == Some(c);
      }
    }
  }

  /** The state by which the table answers for registers that fit a held state. */
  lemma Answer(t: Table, st: State, r: Regs) returns (n: State)
    requires Held(t, st) && Fits(r, st.cpu)
    ensures n in t.seen && n.proc == st.proc && n.pstack == st.pstack && Fits(r, n.cpu)
  {
    n := st.(cpu := st.cpu.(carry := if HeldWith(t, st, None) then None else Some(r.c)));
  }

  lemma SeenFits(t: Table, st: State, r: Regs)
    requires st in t.seen && Fits(r, st.cpu)
    ensures FitsSome(t, r, st.proc, st.pstack)
  {
  }

  lemma SeenHeld(t: Table, st: State)
    requires st in t.seen
    ensures Held(t, st)
  {
    forall c: bool | CarryFits(c, st.cpu.carry) ensures HeldWith(t, st, None) || HeldWith(t, st, Some(c)) {
      assert st.(cpu := st.cpu.(carry := st.cpu.carry)) == st;
    }
  }

  lemma RorFlows(p: Program, t: Table, st: State, i: Inst)
    requires Covers(t, Transfer(p, st)) && p.decode(KeyOf(st.cpu)) == Some(i) && i.mnemonic.ROR?
    ensures AfterRor(st, i).(cpu := AfterRor(st, i).cpu.(carry := st.cpu.carry)) in t.seen
  {
    hide HandlerEntries, HasFlag;
    assert st.(cpu := st.cpu.(pc := (st.cpu.pc + i.length) % 0x10000)) in Transfer(p, st).next;
  }

  lemma ReturnExits(p: Program, t: Table, st: State, i: Inst)
    requires Covers(t, Transfer(p, st)) && p.decode(KeyOf(st.cpu)) == Some(i)
    requires (i.mnemonic.RTS? || i.mnemonic.RTL?) && Transfer(p, st).exits != {}
    ensures st.proc.kind == if i.mnemonic.RTS? then RtsKind else RtlKind
    ensures ExitFact(st.proc, ExitOf(st.cpu)) in t.exits
  {
    hide HandlerEntries, HasFlag;
    assert ExitFact(st.proc, ExitOf(st.cpu)) in Transfer(p, st).exits;
  }

  lemma RorExact(p: Program, hw: Hardware, t: Table, st: State)
    requires Covers(t, Transfer(p, st)) && IsAt(p, st, ROR)
    ensures (forall r, c :: Fits(r, st.cpu) ==> RorSimulated(p, hw, t, st, r, c))
        <==> (hw.rorWritesCarry ==> Held(t, AfterRor(st, p.decode(KeyOf(st.cpu)).value)))
  {
    hide Transfer, Held, FitsSome;
    var i := p.decode(KeyOf(st.cpu)).value;
    var after := AfterRor(st, i);
    HeldFits(t, after);
    if hw.rorWritesCarry {
      if forall r, c :: Fits(r, st.cpu) ==> RorSimulated(p, hw, t, st, r, c) {
        forall r | Fits(r, after.cpu)
          ensures FitsSome(t, r, st.proc, st.pstack)
        {
          var before := r.(pc := st.cpu.pc, c := st.cpu.carry.Some? && st.cpu.carry.value);
          assert RorSimulated(p, hw, t, st, before, r.c);
        }
      }
    } else {
      RorFlows(p, t, st, i);
      forall r, c: bool | Fits(r, st.cpu)
        ensures RorSimulated(p, hw, t, st, r, c)
      {
        SeenFits(t, after.(cpu := after.cpu.(carry := st.cpu.carry)), r.(pc := after.cpu.pc));
      }
    }
  }

  lemma RtsExact(hw: Hardware, t: Table, st: State, k: Call)
    requires st.proc.kind.RtsKind?
    ensures (forall r :: Fits(r, st.cpu) ==> RtsSimulated(hw, t, r, k.cont)) <==> Held(t, Resumed(hw, st, k.cont))
  {
    hide Held, FitsSome;
    var n := Resumed(hw, st, k.cont);
    HeldFits(t, n);
    if forall r :: Fits(r, st.cpu) ==> RtsSimulated(hw, t, r, k.cont) {
      forall r | Fits(r, n.cpu)
        ensures FitsSome(t, r, n.proc, n.pstack)
      {
        assert RtsSimulated(hw, t, r.(pbr := st.cpu.pbr, pc := st.cpu.pc), k.cont);
      }
    }
  }

  /** Exactly when a closed table follows the processor: the premise of the results below is this condition,
      which can be read off the result of the analysis. */
  lemma HardwareExact(p: Program, hw: Hardware, t: Table)
    requires Closed(p, t)
    ensures Simulates(p, hw, t) <==> Suits(p, hw, t)
  {
    hide Transfer, Held, RorSimulated, RtsSimulated, AfterRor, Fits;
    forall st | st in t.seen && IsAt(p, st, ROR)
      ensures (forall r, c :: Fits(r, st.cpu) ==> RorSimulated(p, hw, t, st, r, c))
          <==> (hw.rorWritesCarry ==> Held(t, AfterRor(st, p.decode(KeyOf(st.cpu)).value)))
    {
      RorExact(p, hw, t, st);
    }
    forall st | st in t.seen && IsAt(p, st, RTS) && Transfer(p, st).exits != {}
      ensures (forall r, k :: Fits(r, st.cpu) && k in t.calls && k.callee == st.proc ==> RtsSimulated(hw, t, r, k.cont))
          <==> (hw.rtsKeepsBank ==> Resumable(Hardware(false, true), t, st))
    {
      RtsAllExact(p, hw, t, st);
    }
  }

  lemma RtsAllExact(p: Program, hw: Hardware, t: Table, st: State)
    requires Closed(p, t) && st in t.seen && IsAt(p, st, RTS) && Transfer(p, st).exits != {}
    ensures (forall r, k :: Fits(r, st.cpu) && k in t.calls && k.callee == st.proc ==> RtsSimulated(hw, t, r, k.cont))
        <==> (hw.rtsKeepsBank ==> Resumable(Hardware(false, true), t, st))
  {
    hide Transfer, Held, RtsSimulated, Fits;
    ReturnExits(p, t, st, p.decode(KeyOf(st.cpu)).value);
    forall k | k in t.calls && k.callee == st.proc
      ensures (forall r :: Fits(r, st.cpu) ==> RtsSimulated(hw, t, r, k.cont)) <==> Held(t, Resumed(hw, st, k.cont))
      ensures hw.rtsKeepsBank || Held(t, Resumed(hw, st, k.cont))
      ensures hw.rtsKeepsBank ==> Resumed(hw, st, k.cont) == Resumed(Hardware(false, true), st, k.cont)
    {
      RtsExact(hw, t, st, k);
      if !hw.rtsKeepsBank {
        assert Return(k.cont, ExitFact(st.proc, ExitOf(st.cpu)).exit) in t.seen;
        SeenHeld(t, Resumed(hw, st, k.cont));
      }
    }
  }

  // ----- preservation, one family of instructions at a time -----

  lemma FramesPush(t: Table, stack: seq<Frame>, proc: Proc, ps: seq<SavedP>, f: Frame, s: SavedP)
    requires Frames(t, stack, proc, ps) && FrameFits(f, s)
    ensures Frames(t, stack + [f], proc, ps + [s])
  {
    assert (stack + [f])[..|stack|] == stack;
    assert (ps + [s])[..|ps|] == ps;
  }

  lemma RepFits(hw: Hardware, r: Regs, a: Cpu, i: Inst, carry: bool)
    requires Fits(r, a) && (i.mnemonic.REP? || i.mnemonic.SEP?)
    ensures Fits(RegsAfter(hw, r, i, carry), StatusAfter(a, [], i).cpu)
  {
    hide HasFlag;
  }

  lemma XceFits(hw: Hardware, r: Regs, a: Cpu, i: Inst, carry: bool)
    requires Fits(r, a) && i.mnemonic.XCE? && a.carry.Some?
    ensures Fits(RegsAfter(hw, r, i, carry), StatusAfter(a, [], i).cpu)
  {
    hide HasFlag;
  }

  /** CLC to the shifts and compares: the concrete bits keep fitting the abstract ones. */
  lemma StatusFits(hw: Hardware, r: Regs, a: Cpu, i: Inst, carry: bool)
    requires Fits(r, a) && !i.mnemonic.PHP? && !i.mnemonic.PLP?
    requires hw.rorWritesCarry && i.mnemonic.ROR? ==> a.carry.None? || a.carry == Some(carry)
    requires i.mnemonic.XCE? ==> a.carry.Some?
    ensures Fits(RegsAfter(hw, r, i, carry), StatusAfter(a, [], i).cpu)
  {
    if i.mnemonic.REP? || i.mnemonic.SEP? {
      RepFits(hw, r, a, i, carry);
    } else if i.mnemonic.XCE? {
      XceFits(hw, r, a, i, carry);
    }
  }

  lemma StatusStack(a: Cpu, ps: seq<SavedP>, i: Inst)
    requires !i.mnemonic.PHP? && !i.mnemonic.PLP?
    ensures StatusAfter(a, ps, i).Status? ==> StatusAfter(a, ps, i) == Status(StatusAfter(a, [], i).cpu, ps)
    ensures StatusAfter(a, ps, i).Status? && i.mnemonic.XCE? ==> a.carry.Some?
  {
  }

  lemma PhpPreserves(hw: Hardware, t: Table, st: State, c: Config, i: Inst, carry: bool, fall: nat)
    requires Represents(t, st, c) && i.mnemonic.PHP? && fall == (st.cpu.pc + i.length) % 0x10000
    requires State(st.proc, st.cpu.(pc := fall),
                   st.pstack + [SavedP(st.cpu.m, st.cpu.x, st.cpu.carry)]) in t.seen
    ensures StepStatus(hw, c, i, carry).Next? && Represented(t, StepStatus(hw, c, i, carry).config)
  {
    var s := SavedP(st.cpu.m, st.cpu.x, st.cpu.carry);
    FramesPush(t, c.stack, st.proc, st.pstack, PFrame(c.cpu.m, c.cpu.x, c.cpu.c), s);
    assert Represents(t, State(st.proc, st.cpu.(pc := fall), st.pstack + [s]), StepStatus(hw, c, i, carry).config);
  }

  lemma PlpPreserves(hw: Hardware, t: Table, st: State, c: Config, i: Inst, carry: bool, fall: nat)
    requires Represents(t, st, c) && i.mnemonic.PLP? && fall == (st.cpu.pc + i.length) % 0x10000
    requires st.pstack != []
    requires var s := st.pstack[|st.pstack| - 1];
             State(st.proc, st.cpu.(m := st.cpu.e || s.m, x := st.cpu.e || s.x, carry := s.carry, pc := fall),
                   st.pstack[..|st.pstack| - 1]) in t.seen
    ensures StepStatus(hw, c, i, carry).Next? && Represented(t, StepStatus(hw, c, i, carry).config)
  {
    var s := st.pstack[|st.pstack| - 1];
    var cpu := st.cpu.(m := st.cpu.e || s.m, x := st.cpu.e || s.x, carry := s.carry, pc := fall);
    assert FrameFits(Top(c), s);
    assert Represents(t, State(st.proc, cpu, st.pstack[..|st.pstack| - 1]), StepStatus(hw, c, i, carry).config);
  }

  lemma PlainPreserves(hw: Hardware, t: Table, st: State, c: Config, i: Inst, carry: bool, cpu: Cpu)
    requires Represents(t, st, c) && !i.mnemonic.PHP? && !i.mnemonic.PLP?
    requires Fits(RegsAfter(hw, c.cpu, i, carry), cpu)
    requires State(st.proc, cpu.(pc := (st.cpu.pc + i.length) % 0x10000), st.pstack) in t.seen
    ensures StepStatus(hw, c, i, carry).Next? && Represented(t, StepStatus(hw, c, i, carry).config)
  {
    var next := State(st.proc, cpu.(pc := (st.cpu.pc + i.length) % 0x10000), st.pstack);
    assert Represents(t, next, StepStatus(hw, c, i, carry).config);
  }

  lemma RorPreserves(hw: Hardware, t: Table, st: State, c: Config, i: Inst, carry: bool)
    requires Represents(t, st, c) && i.mnemonic.ROR? && hw.rorWritesCarry && Held(t, AfterRor(st, i))
    ensures StepStatus(hw, c, i, carry).Next? && Represented(t, StepStatus(hw, c, i, carry).config)
  {
    hide Held;
    var next := StepStatus(hw, c, i, carry).config;
    var n := Answer(t, AfterRor(st, i), next.cpu);
    assert Represents(t, n, next);
  }

  lemma StatusPreserves(hw: Hardware, t: Table, st: State, c: Config, i: Inst, carry: bool, s: Status)
    requires Represents(t, st, c)
    requires hw.rorWritesCarry && i.mnemonic.ROR? ==> Held(t, AfterRor(st, i))
    requires s == StatusAfter(st.cpu, st.pstack, i) && s.Status?
    requires State(st.proc, s.cpu.(pc := (st.cpu.pc + i.length) % 0x10000), s.pstack) in t.seen
    ensures StepStatus(hw, c, i, carry).Next? && Represented(t, StepStatus(hw, c, i, carry).config)
  {
    if i.mnemonic.PHP? {
      PhpPreserves(hw, t, st, c, i, carry, (st.cpu.pc + i.length) % 0x10000);
    } else if i.mnemonic.PLP? {
      PlpPreserves(hw, t, st, c, i, carry, (st.cpu.pc + i.length) % 0x10000);
    } else if i.mnemonic.ROR? && hw.rorWritesCarry {
      RorPreserves(hw, t, st, c, i, carry);
    } else {
      StatusStack(st.cpu, st.pstack, i);
      StatusFits(hw, c.cpu, st.cpu, i, carry);
      PlainPreserves(hw, t, st, c, i, carry, s.cpu);
    }
  }

  lemma CallPreserves(t: Table, st: State, c: Config, kind: Kind, fall: nat, target: Site)
    requires Represents(t, st, c) && (kind.RtsKind? || kind.RtlKind?)
    requires var k := CallTo(st.proc, st.pstack, st.cpu.(pbr := target.bank, pc := target.pc),
                             kind, st.cpu.pbr, fall);
             k in t.calls && Entry(k.callee) in t.seen
    ensures Represented(t, StepCall(c, kind, fall, target).config)
  {
    var k := CallTo(st.proc, st.pstack, st.cpu.(pbr := target.bank, pc := target.pc), kind, st.cpu.pbr, fall);
    var next := StepCall(c, kind, fall, target).config;
    assert next.stack[..|next.stack| - 1] == c.stack;
    assert ReturnsTo(next.stack[|next.stack| - 1], k.cont);
    assert ReturnFrame(t, next.stack, k.callee);
    assert Represents(t, Entry(k.callee), next);
  }

  lemma ReturnPreserves(hw: Hardware, t: Table, st: State, c: Config, kind: Kind)
    returns (k: Call)
    requires Represents(t, st, c) && Resumable(hw, t, st)
    requires st.proc.kind == kind && st.pstack == [] && (kind.RtsKind? || kind.RtlKind?)
    ensures StepReturn(hw, c, kind).Next? && Represented(t, StepReturn(hw, c, kind).config)
    ensures k in t.calls && k.callee == st.proc
    ensures StepReturn(hw, c, kind).config.cpu.pc == k.cont.pc
    ensures StepReturn(hw, c, kind).config.cpu.pbr == Resumed(hw, st, k.cont).cpu.pbr
  {
    hide Held;
    assert ReturnFrame(t, c.stack, st.proc);
    k :| k in t.calls && k.callee == st.proc && ReturnsTo(Top(c), k.cont)
         && Frames(t, Pop(c), k.cont.caller, k.cont.pstack);
    var next := StepReturn(hw, c, kind).config;
    var n := Answer(t, Resumed(hw, st, k.cont), next.cpu);
    assert Represents(t, n, next);
  }

  lemma RtiPreserves(t: Table, st: State, c: Config)
    requires Represents(t, st, c)
    requires st.proc.kind.RtiKind? && st.pstack == []
    ensures !StepRti(c).Broken?
    ensures StepRti(c).Next? ==> Represented(t, StepRti(c).config)
  {
    var back :| back in t.seen && Resumes(Top(c), back) && Frames(t, Pop(c), back.proc, back.pstack);
    if StepRti(c).Next? {
      assert Represents(t, back, StepRti(c).config);
    }
  }

  lemma WidthListed(m: bool, x: bool)
    ensures (m, x) in WIDTHS
  {
    assert WIDTHS[0] == (false, false) && WIDTHS[1] == (false, true)
        && WIDTHS[2] == (true, false) && WIDTHS[3] == (true, true);
  }

  lemma HandlerPreserves(t: Table, resume: State, c: Config, pc: nat, vector: nat)
    requires HandlerEntries(vector) <= t.seen
    requires resume in t.seen && !c.cpu.e && Fits(c.cpu.(pc := pc), resume.cpu)
    requires Frames(t, c.stack, resume.proc, resume.pstack)
    ensures Represented(t, EnterHandler(c, pc, vector).config)
  {
    var next := EnterHandler(c, pc, vector).config;
    var w := (c.cpu.m, c.cpu.x);
    WidthListed(w.0, w.1);
    assert HandlerEntry(vector, w) in HandlerEntries(vector);
    assert next.stack[..|next.stack| - 1] == c.stack;
    assert Resumes(next.stack[|next.stack| - 1], resume);
    assert Represents(t, HandlerEntry(vector, w), next);
  }

  lemma IndirectPreserves(p: Program, t: Table, st: State, c: Config, i: Inst, target: Site)
    requires Represents(t, st, c) && IsIndirect(i)
    requires Covers(t, Dispatch(p, st.proc, st.cpu, st.cpu, st.pstack, i))
    requires Dispatch(p, st.proc, st.cpu, st.cpu, st.pstack, i).fault.None?
    requires forall k :: k in t.calls ==> Entry(k.callee) in t.seen
    ensures !StepIndirect(p, c, i, (c.cpu.pc + i.length) % 0x10000, target).Broken?
    ensures StepIndirect(p, c, i, (c.cpu.pc + i.length) % 0x10000, target).Next?
            ==> Represented(t, StepIndirect(p, c, i, (c.cpu.pc + i.length) % 0x10000, target).config)
  {
    var site := Site(c.cpu.pbr, c.cpu.pc);
    var fall := (c.cpu.pc + i.length) % 0x10000;
    var after := st.cpu.(pbr := target.bank, pc := target.pc);
    var e := Dispatch(p, st.proc, st.cpu, st.cpu, st.pstack, i);
    if target in p.indirect[site] {
      if i.mnemonic.JSR? {
        assert CallTo(st.proc, st.pstack, after, RtsKind, st.cpu.pbr, fall) in e.calls;
        CallPreserves(t, st, c, RtsKind, fall, target);
      } else {
        assert State(st.proc, after, st.pstack) in e.next;
        assert Represents(t, State(st.proc, after, st.pstack), StepIndirect(p, c, i, fall, target).config);
      }
    }
  }

  predicate IsJump(i: Inst) {
    || i.mnemonic.JML? || (i.mnemonic.JMP? && i.mode.Abs?) || IsBranch(i.mnemonic)
    || i.mnemonic.BRA? || i.mnemonic.BRL?
  }

  predicate IsControl(i: Inst) {
    || IsJump(i) || IsIndirect(i) || (i.mnemonic.JSR? && i.mode.Abs?) || i.mnemonic.JSL?
    || i.mnemonic.RTS? || i.mnemonic.RTL? || i.mnemonic.RTI? || i.mnemonic.BRK? || i.mnemonic.COP?
    || i.mnemonic.STP?
  }

  lemma JumpPreserves(p: Program, hw: Hardware, t: Table, st: State, c: Config, i: Inst, ev: Event)
    requires Represents(t, st, c) && ev.Execute? && IsJump(i)
    requires Covers(t, Dispatch(p, st.proc, st.cpu, st.cpu, st.pstack, i))
    ensures StepInst(p, hw, c, i, ev).Next? && Represented(t, StepInst(p, hw, c, i, ev).config)
  {
    var next := StepInst(p, hw, c, i, ev).config;
    var to := State(st.proc, st.cpu.(pbr := next.cpu.pbr, pc := next.cpu.pc), st.pstack);
    assert to in Dispatch(p, st.proc, st.cpu, st.cpu, st.pstack, i).next;
    assert Represents(t, to, next);
  }

  lemma BreakPreserves(p: Program, hw: Hardware, t: Table, st: State, c: Config, i: Inst, ev: Event)
    requires Represents(t, st, c) && ev.Execute? && (i.mnemonic.BRK? || i.mnemonic.COP?)
    requires Covers(t, Dispatch(p, st.proc, st.cpu, st.cpu, st.pstack, i))
    ensures !StepInst(p, hw, c, i, ev).Broken?
    ensures StepInst(p, hw, c, i, ev).Next? ==> Represented(t, StepInst(p, hw, c, i, ev).config)
  {
    if !c.cpu.e {
      var fall := (st.cpu.pc + i.length) % 0x10000;
      var resume := State(st.proc, st.cpu.(pc := fall), st.pstack);
      var e := Dispatch(p, st.proc, st.cpu, st.cpu, st.pstack, i);
      assert resume in e.next;
      HandlerPreserves(t, resume, c, fall, if i.mnemonic.BRK? then p.brk else p.cop);
    }
  }

  lemma ControlPreserves(p: Program, hw: Hardware, t: Table, st: State, c: Config, i: Inst, ev: Event)
    requires Represents(t, st, c) && ev.Execute? && IsControl(i)
    requires var e := Dispatch(p, st.proc, st.cpu, st.cpu, st.pstack, i);
             Covers(t, e) && e.fault.None?
    requires forall k :: k in t.calls ==> Entry(k.callee) in t.seen
    requires i.mnemonic.RTS? || i.mnemonic.RTL? ==> Resumable(hw, t, st)
    ensures !StepInst(p, hw, c, i, ev).Broken?
    ensures StepInst(p, hw, c, i, ev).Next? ==> Represented(t, StepInst(p, hw, c, i, ev).config)
  {
    var fall := (c.cpu.pc + i.length) % 0x10000;
    if IsIndirect(i) {
      IndirectPreserves(p, t, st, c, i, ev.target);
    } else if i.mnemonic.JSR? {
      CallPreserves(t, st, c, RtsKind, fall, Site(c.cpu.pbr, i.operand));
    } else if i.mnemonic.JSL? {
      CallPreserves(t, st, c, RtlKind, fall, Site((i.operand / 0x10000) % 0x100, i.operand % 0x10000));
    } else if i.mnemonic.RTS? {
      var _ := ReturnPreserves(hw, t, st, c, RtsKind);
    } else if i.mnemonic.RTL? {
      var _ := ReturnPreserves(hw, t, st, c, RtlKind);
    } else if i.mnemonic.RTI? {
      RtiPreserves(t, st, c);
    } else if i.mnemonic.BRK? || i.mnemonic.COP? {
      BreakPreserves(p, hw, t, st, c, i, ev);
    } else if !i.mnemonic.STP? {
      JumpPreserves(p, hw, t, st, c, i, ev);
    }
  }

  lemma ControlFlow(p: Program, st: State, i: Inst)
    requires p.decode(KeyOf(st.cpu)) == Some(i) && IsControl(i)
    ensures Transfer(p, st) == Dispatch(p, st.proc, st.cpu, st.cpu, st.pstack, i)
  {
    hide Dispatch;
  }

  /** Every other instruction only changes the status and falls through. */
  lemma StatusFlow(p: Program, st: State, i: Inst)
    requires p.decode(KeyOf(st.cpu)) == Some(i) && !IsControl(i) && Transfer(p, st).fault.None?
    ensures var s := StatusAfter(st.cpu, st.pstack, i);
            && s.Status?
            && State(st.proc, s.cpu.(pc := (st.cpu.pc + i.length) % 0x10000), s.pstack) in Transfer(p, st).next
  {
    hide StatusAfter, HandlerEntries;
    StatusKeepsPc(st.cpu, st.pstack, i);
  }

  lemma StatusKeepsPc(c: Cpu, ps: seq<SavedP>, i: Inst)
    ensures StatusAfter(c, ps, i).Status? ==> StatusAfter(c, ps, i).cpu.pc == c.pc
  {
    hide HasFlag;
  }

  lemma StatusStep(p: Program, hw: Hardware, c: Config, i: Inst, ev: Event)
    requires ev.Execute? && !IsControl(i)
    ensures StepInst(p, hw, c, i, ev) == StepStatus(hw, c, i, ev.carry)
  {
    hide StepStatus;
  }

  lemma InstPreserves(p: Program, hw: Hardware, t: Table, st: State, c: Config, i: Inst, ev: Event)
    requires Represents(t, st, c) && ev.Execute?
    requires p.decode(KeyOf(st.cpu)) == Some(i)
    requires Covers(t, Transfer(p, st)) && Transfer(p, st).fault.None?
    requires forall k :: k in t.calls ==> Entry(k.callee) in t.seen
    requires hw.rorWritesCarry && i.mnemonic.ROR? ==> Held(t, AfterRor(st, i))
    requires i.mnemonic.RTS? || i.mnemonic.RTL? ==> Resumable(hw, t, st)
    ensures !StepInst(p, hw, c, i, ev).Broken?
    ensures StepInst(p, hw, c, i, ev).Next? ==> Represented(t, StepInst(p, hw, c, i, ev).config)
  {
    hide Frames, StepInst, StepStatus, StatusAfter, Transfer, Dispatch, IsControl;
    if IsControl(i) {
      ControlFlow(p, st, i);
      ControlPreserves(p, hw, t, st, c, i, ev);
    } else {
      StatusFlow(p, st, i);
      var s := StatusAfter(st.cpu, st.pstack, i);
      StatusPreserves(hw, t, st, c, i, ev.carry, s);
      StatusStep(p, hw, c, i, ev);
    }
  }

  lemma ResumableOf(p: Program, hw: Hardware, t: Table, st: State)
    requires Closed(p, t) && Suits(p, hw, t) && st in t.seen && Transfer(p, st).exits != {}
    requires IsAt(p, st, RTS) || IsAt(p, st, RTL)
    ensures Resumable(hw, t, st)
  {
    hide Held, Transfer;
    ReturnExits(p, t, st, p.decode(KeyOf(st.cpu)).value);
    forall k | k in t.calls && k.callee == st.proc
      ensures Held(t, Resumed(hw, st, k.cont))
    {
      if st.proc.kind.RtsKind? && hw.rtsKeepsBank {
        assert Resumable(Hardware(false, true), t, st);
      } else {
        assert Return(k.cont, ExitFact(st.proc, ExitOf(st.cpu)).exit) in t.seen;
        SeenHeld(t, Resumed(hw, st, k.cont));
      }
    }
  }

  /** The facts about one state that its step needs. */
  lemma FactsOf(p: Program, hw: Hardware, t: Table, st: State)
    requires Closed(p, t) && FrontierFree(p, t) && Suits(p, hw, t) && st in t.seen
    ensures Covers(t, Transfer(p, st)) && Transfer(p, st).fault.None?
    ensures p.decode(KeyOf(st.cpu)).Some?
    ensures var i := p.decode(KeyOf(st.cpu)).value;
            && (hw.rorWritesCarry && i.mnemonic.ROR? ==> Held(t, AfterRor(st, i)))
            && (i.mnemonic.RTS? || i.mnemonic.RTL? ==> Transfer(p, st).exits != {} && Resumable(hw, t, st))
  {
    hide Frames, Covers, Summarised, Resumable, Held, AfterRor, HandlerEntries, RtsCovered;
    assert Transfer(p, st).fault.None?;
    var i := p.decode(KeyOf(st.cpu)).value;
    if i.mnemonic.RTS? || i.mnemonic.RTL? {
      assert ExitFact(st.proc, ExitOf(st.cpu)) in Transfer(p, st).exits;
      ResumableOf(p, hw, t, st);
    }
  }

  /** One step of the concrete machine never breaks and stays inside the table. */
  lemma StepPreserves(p: Program, hw: Hardware, t: Table, c: Config, ev: Event)
    requires Closed(p, t) && FrontierFree(p, t) && Suits(p, hw, t) && Represented(t, c)
    ensures !Step(p, hw, c, ev).Broken?
    ensures Step(p, hw, c, ev).Next? ==> Represented(t, Step(p, hw, c, ev).config)
  {
    var st :| Represents(t, st, c);
    FactsOf(p, hw, t, st);
    match ev
    case Interrupt(n) =>
      if !c.cpu.e {
        HandlerPreserves(t, st, c, c.cpu.pc, if n then p.nmi else p.irq);
      }
    case Execute(_, _, _) =>
      InstPreserves(p, hw, t, st, c, p.decode(KeyOf(st.cpu)).value, ev);
  }

  lemma ResetRepresented(p: Program, t: Table, c: Config)
    requires Seeds(p) <= t.seen && Initial(p, c)
    ensures Represented(t, c)
  {
    assert ResetEntry(p) in Seeds(p);
    assert Represents(t, ResetEntry(p), c);
  }

  lemma {:induction false} RunRepresented(p: Program, hw: Hardware, t: Table,
                                          run: seq<Config>, events: seq<Event>, n: nat)
    requires Closed(p, t) && FrontierFree(p, t) && Suits(p, hw, t)
    requires IsRun(p, hw, run, events) && n < |run|
    ensures Represented(t, run[n])
  {
    if n == 0 {
      ResetRepresented(p, t, run[0]);
    } else {
      RunRepresented(p, hw, t, run, events, n - 1);
      StepPreserves(p, hw, t, run[n - 1], events[n - 1]);
    }
  }

  /** Main result: over every run, with interrupts anywhere, the runtime identity stays in the emitted
      contexts and no event can break the machine (every PLP finds a PHP byte of its own activation,
      every RTS, RTL and RTI a frame of its own kind, every indirect jump a proved site). */
  lemma PushdownSoundness(p: Program, hw: Hardware, t: Table,
                          run: seq<Config>, events: seq<Event>, n: nat, ev: Event)
    requires Closed(p, t) && FrontierFree(p, t) && Suits(p, hw, t)
    requires IsRun(p, hw, run, events) && n < |run|
    ensures InContexts(p, t, RegsKey(run[n].cpu))
    ensures !Step(p, hw, run[n], ev).Broken?
  {
    RunRepresented(p, hw, t, run, events, n);
    StepPreserves(p, hw, t, run[n], ev);
    var st :| Represents(t, st, run[n]);
    FactsOf(p, hw, t, st);
  }

  /** No ROR is analysed with a known carry. */
  ghost predicate RorCarryUnknown(p: Program, t: Table) {
    forall st :: st in t.seen && IsAt(p, st, ROR) ==> st.cpu.carry.None?
  }

  /** Every RTS of the return-site sets lies in the bank of each of its targets. */
  ghost predicate RtsStaysInBank(p: Program, t: Table) {
    forall s :: s in ReturnSites(p, t) && s.kind.RtsKind? ==> s.at.bank == s.target.bank
  }

  /** Two conditions that are easier to check and suffice. */
  ghost predicate PlainlySuits(p: Program, hw: Hardware, t: Table) {
    (hw.rorWritesCarry ==> RorCarryUnknown(p, t)) && (hw.rtsKeepsBank ==> RtsStaysInBank(p, t))
  }

  lemma PlainSuffices(p: Program, hw: Hardware, t: Table)
    requires Closed(p, t) && PlainlySuits(p, hw, t)
    ensures Suits(p, hw, t) && SitesSuit(p, hw, t)
  {
    hide Transfer, Held;
    if hw.rorWritesCarry {
      forall st | st in t.seen && IsAt(p, st, ROR)
        ensures Held(t, AfterRor(st, p.decode(KeyOf(st.cpu)).value))
      {
        var i := p.decode(KeyOf(st.cpu)).value;
        assert Covers(t, Transfer(p, st));
        RorFlows(p, t, st, i);
        SeenHeld(t, AfterRor(st, i));
      }
    }
    if hw.rtsKeepsBank {
      forall st | st in t.seen && IsAt(p, st, RTS) && Transfer(p, st).exits != {}
        ensures Resumable(Hardware(false, true), t, st)
      {
        StaysResumable(p, t, st);
      }
    }
  }

  lemma StaysResumable(p: Program, t: Table, st: State)
    requires Closed(p, t) && PlainlySuits(p, Hardware(false, true), t)
    requires st in t.seen && IsAt(p, st, RTS) && Transfer(p, st).exits != {}
    ensures Resumable(Hardware(false, true), t, st)
  {
    hide Transfer, Held;
    ReturnExits(p, t, st, p.decode(KeyOf(st.cpu)).value);
    forall k | k in t.calls && k.callee == st.proc
      ensures Held(t, Resumed(Hardware(false, true), st, k.cont))
    {
      assert ReturnSite(Site(st.cpu.pbr, st.cpu.pc), RtsKind, Site(k.cont.bank, k.cont.pc)) in ReturnSites(p, t);
      assert Return(k.cont, ExitFact(st.proc, ExitOf(st.cpu)).exit) in t.seen;
      SeenHeld(t, Return(k.cont, ExitOf(st.cpu)));
    }
  }

  /** A table that is not suited itself is still sound if some wider closed table is suited and has no
      other contexts. */
  lemma SoundThroughWider(p: Program, hw: Hardware, t: Table, wider: Table,
                          run: seq<Config>, events: seq<Event>, n: nat, ev: Event)
    requires Closed(p, wider) && FrontierFree(p, wider) && Suits(p, hw, wider)
    requires forall key :: InContexts(p, wider, key) ==> InContexts(p, t, key)
    requires IsRun(p, hw, run, events) && n < |run|
    ensures InContexts(p, t, RegsKey(run[n].cpu))
    ensures !Step(p, hw, run[n], ev).Broken?
  {
    PushdownSoundness(p, hw, wider, run, events, n, ev);
  }

  /** The bank a return goes to: an RTS may keep its own. */
  function BankOn(hw: Hardware, s: ReturnSite): nat {
    if s.kind.RtsKind? && hw.rtsKeepsBank then s.at.bank else s.target.bank
  }

  function SiteOn(hw: Hardware, s: ReturnSite): ReturnSite {
    s.(target := Site(BankOn(hw, s), s.target.pc))
  }

  /** The return-target sets hold every target that the processor makes of them. */
  ghost predicate SitesSuit(p: Program, hw: Hardware, t: Table) {
    forall s :: s in ReturnSites(p, t) ==> SiteOn(hw, s) in ReturnSites(p, t)
  }

  /** Every return edge a run takes is a return site, in the bank the processor returns to. */
  lemma ReturnEdge(p: Program, hw: Hardware, t: Table,
                   run: seq<Config>, events: seq<Event>, n: nat, i: Inst) returns (s: ReturnSite)
    requires Closed(p, t) && FrontierFree(p, t) && Suits(p, hw, t)
    requires IsRun(p, hw, run, events) && n < |events| && events[n].Execute?
    requires p.decode(RegsKey(run[n].cpu)) == Some(i) && (i.mnemonic.RTS? || i.mnemonic.RTL?)
    ensures s in ReturnSites(p, t)
    ensures SiteOn(hw, s) == ReturnSite(Site(run[n].cpu.pbr, run[n].cpu.pc),
                                        if i.mnemonic.RTS? then RtsKind else RtlKind,
                                        Site(run[n + 1].cpu.pbr, run[n + 1].cpu.pc))
  {
    hide Transfer, StepReturn, StepInst, Closed, FrontierFree, Suits, Covers, Frames, Held;
    RunRepresented(p, hw, t, run, events, n);
    var st :| Represents(t, st, run[n]);
    FactsOf(p, hw, t, st);
    var kind := if i.mnemonic.RTS? then RtsKind else RtlKind;
    ReturnFacts(p, t, st, i, kind);
    var k := ReturnPreserves(hw, t, st, run[n], kind);
    ReturnStep(p, hw, run[n], i, events[n], kind);
    assert Step(p, hw, run[n], events[n]) == Next(run[n + 1]);
    s := ReturnSite(Site(st.cpu.pbr, st.cpu.pc), kind, Site(k.cont.bank, k.cont.pc));
  }

  /** Every return edge a run takes is in the finite return-target set of its instruction. */
  lemma ReturnAuthority(p: Program, hw: Hardware, t: Table,
                        run: seq<Config>, events: seq<Event>, n: nat, i: Inst)
    requires Closed(p, t) && FrontierFree(p, t) && Suits(p, hw, t) && SitesSuit(p, hw, t)
    requires IsRun(p, hw, run, events) && n < |events| && events[n].Execute?
    requires p.decode(RegsKey(run[n].cpu)) == Some(i) && (i.mnemonic.RTS? || i.mnemonic.RTL?)
    ensures ReturnSite(Site(run[n].cpu.pbr, run[n].cpu.pc),
                       if i.mnemonic.RTS? then RtsKind else RtlKind,
                       Site(run[n + 1].cpu.pbr, run[n + 1].cpu.pc)) in ReturnSites(p, t)
  {
    var _ := ReturnEdge(p, hw, t, run, events, n, i);
  }

  /** A return that is no frontier leaves a procedure of its own kind, with its PHP bytes balanced. */
  lemma ReturnFacts(p: Program, t: Table, st: State, i: Inst, kind: Kind)
    requires p.decode(KeyOf(st.cpu)) == Some(i) && (i.mnemonic.RTS? || i.mnemonic.RTL?)
    requires kind == if i.mnemonic.RTS? then RtsKind else RtlKind
    requires Covers(t, Transfer(p, st)) && Transfer(p, st).fault.None?
    ensures st.proc.kind == kind && st.pstack == [] && Transfer(p, st).exits != {}
    ensures ExitFact(st.proc, Exit(st.cpu.e, st.cpu.m, st.cpu.x, st.cpu.carry)) in t.exits
  {
    hide HandlerEntries, HasFlag;
    assert ExitFact(st.proc, Exit(st.cpu.e, st.cpu.m, st.cpu.x, st.cpu.carry)) in Transfer(p, st).exits;
  }

  lemma ReturnStep(p: Program, hw: Hardware, c: Config, i: Inst, ev: Event, kind: Kind)
    requires p.decode(RegsKey(c.cpu)) == Some(i) && ev.Execute? && (i.mnemonic.RTS? || i.mnemonic.RTL?)
    requires kind == if i.mnemonic.RTS? then RtsKind else RtlKind
    ensures Step(p, hw, c, ev) == StepReturn(hw, c, kind)
  {
    hide StepReturn, StepStatus;
  }
}
