/** Data and one-instruction transfer rules of the offline control-flow closure. */
module ClosureModel {
  import opened Options

  /** How a procedure may be left: the reset root, an interrupt handler, a near or a far call. */
  datatype Kind = RootKind | RtiKind | RtsKind | RtlKind

  /** An abstract processor context; carry is None when it is statically unknown. */
  datatype Cpu = Cpu(pbr: nat, pc: nat, e: bool, m: bool, x: bool, carry: Option<bool>)

  /** One PHP byte, as far as the analysis tracks it. */
  datatype SavedP = SavedP(m: bool, x: bool, carry: Option<bool>)

  datatype Proc = Proc(bank: nat, pc: nat, e: bool, m: bool, x: bool, carry: Option<bool>, kind: Kind)
  datatype State = State(proc: Proc, cpu: Cpu, pstack: seq<SavedP>)
  datatype Continuation = Continuation(caller: Proc, bank: nat, pc: nat, pstack: seq<SavedP>)
  datatype Exit = Exit(e: bool, m: bool, x: bool, carry: Option<bool>)
  datatype RuntimeKey = RuntimeKey(pbr: nat, pc: nat, e: bool, m: bool, x: bool)
  datatype Site = Site(bank: nat, pc: nat)

  datatype Mnemonic =
    | CLC | SEC | REP | SEP | XCE
    | CMP | CPX | CPY | ADC | SBC | LSR | ROL | ASL | ROR
    | PHP | PLP
    | JML | JMP | JSR | JSL | RTS | RTL | RTI
    | BEQ | BNE | BCC | BCS | BVC | BVS | BMI | BPL | BRA | BRL
    | BRK | COP | STP | OtherMnemonic

  datatype Mode = Abs | AbsInd | AbsIndX | AbsLongInd | OtherMode

  datatype Inst = Inst(mnemonic: Mnemonic, mode: Mode, length: nat, operand: nat, raw: seq<nat>)

  /** The inputs of one analysis: the decoder over runtime keys, the proved indirect targets and the vectors. */
  datatype Program = Program(
    decode: RuntimeKey -> Option<Inst>,
    indirect: map<Site, seq<Site>>,
    reset: nat, brk: nat, cop: nat, nmi: nat, irq: nat)

  datatype Fault =
    | DecodeFailed | UnknownCarryXce | PlpUnderflow
    | UnprovedIndirect | WrongReturnKind | UnbalancedPhp

  const P_C: nat := 0x01
  const P_X: nat := 0x10
  const P_M: nat := 0x20

  predicate HasFlag(operand: nat, flag: nat)
    requires flag > 0
  {
    (operand / flag) % 2 == 1
  }

  function KeyOf(c: Cpu): RuntimeKey {
    RuntimeKey(c.pbr, c.pc, c.e, c.m, c.x)
  }

  function ProcOf(c: Cpu, kind: Kind): Proc {
    Proc(c.pbr, c.pc, c.e, c.m, c.x, c.carry, kind)
  }

  /** The state in which a procedure is first analysed. */
  function Entry(p: Proc): State {
    State(p, Cpu(p.bank, p.pc, p.e, p.m, p.x, p.carry), [])
  }

  /** The caller's state after its callee left with the given exit status. */
  function Return(k: Continuation, x: Exit): State {
    State(k.caller, Cpu(k.bank, k.pc, x.e, x.m, x.x, x.carry), k.pstack)
  }

  predicate ClobbersCarry(m: Mnemonic) {
    m.CMP? || m.CPX? || m.CPY? || m.ADC? || m.SBC? || m.LSR? || m.ROL? || m.ASL?
  }

  predicate IsBranch(m: Mnemonic) {
    m.BEQ? || m.BNE? || m.BCC? || m.BCS? || m.BVC? || m.BVS? || m.BMI? || m.BPL?
  }

  predicate IsIndirectJump(i: Inst) {
    i.mnemonic.JMP? && (i.mode.AbsInd? || i.mode.AbsIndX? || i.mode.AbsLongInd?)
  }

  datatype Status = Status(cpu: Cpu, pstack: seq<SavedP>) | StatusFault(fault: Fault)

  /** The effect of one instruction on E, M, X, carry and the procedure-local PHP stack. */
  function StatusAfter(c: Cpu, ps: seq<SavedP>, i: Inst): Status {
    if i.mnemonic.CLC? then Status(c.(carry := Some(false)), ps)
    else if i.mnemonic.SEC? then Status(c.(carry := Some(true)), ps)
    else if i.mnemonic.REP? then
      Status(c.(carry := if HasFlag(i.operand, P_C) then Some(false) else c.carry,
                m := if !c.e && HasFlag(i.operand, P_M) then false else c.m,
                x := if !c.e && HasFlag(i.operand, P_X) then false else c.x), ps)
    else if i.mnemonic.SEP? then
      Status(c.(carry := if HasFlag(i.operand, P_C) then Some(true) else c.carry,
                m := c.m || HasFlag(i.operand, P_M),
                x := c.x || HasFlag(i.operand, P_X)), ps)
    else if i.mnemonic.XCE? then
      if c.carry.None? then StatusFault(UnknownCarryXce)
      else
        var e := c.carry.value;
        Status(c.(e := e, carry := Some(c.e), m := e || c.m, x := e || c.x), ps)
    else if ClobbersCarry(i.mnemonic) then Status(c.(carry := None), ps)
    else if i.mnemonic.PHP? then Status(c, ps + [SavedP(c.m, c.x, c.carry)])
    else if i.mnemonic.PLP? then
      if ps == [] then StatusFault(PlpUnderflow)
      else
        var s := ps[|ps| - 1];
        Status(c.(m := c.e || s.m, x := c.e || s.x, carry := s.carry), ps[..|ps| - 1])
    else Status(c, ps)
  }

  datatype Call = Call(callee: Proc, cont: Continuation)
  datatype ExitFact = ExitFact(proc: Proc, exit: Exit)

  /** Everything the service of one state adds, or the frontier it stops at. */
  datatype Effect = Effect(next: set<State>, calls: set<Call>, exits: set<ExitFact>, fault: Option<Fault>)

  function Frontier(f: Fault): Effect {
    Effect({}, {}, {}, Some(f))
  }

  function Flow(next: set<State>): Effect {
    Effect(next, {}, {}, None)
  }

  function Leave(proc: Proc, c: Cpu, ps: seq<SavedP>): Effect {
    if ps != [] then Frontier(UnbalancedPhp)
    else Effect({}, {}, {ExitFact(proc, Exit(c.e, c.m, c.x, c.carry))}, None)
  }

  function CallTo(proc: Proc, ps: seq<SavedP>, target: Cpu, kind: Kind, bank: nat, fall: nat): Call {
    Call(ProcOf(target, kind), Continuation(proc, bank, fall, ps))
  }

  function FarPc(c: Cpu, operand: nat): Cpu {
    c.(pbr := (operand / 0x10000) % 0x100, pc := operand % 0x10000)
  }

  const WIDTHS: seq<(bool, bool)> := [(false, false), (false, true), (true, false), (true, true)]

  /** An interrupt vector is entered in native mode with any register widths and an unknown carry. */
  function HandlerEntry(vector: nat, w: (bool, bool)): State {
    Entry(Proc(0, vector, false, w.0, w.1, None, RtiKind))
  }

  function HandlerEntries(vector: nat): set<State> {
    set w | w in WIDTHS :: HandlerEntry(vector, w)
  }

  function ResetEntry(p: Program): State {
    Entry(Proc(0, p.reset, true, true, true, None, RootKind))
  }

  function Seeds(p: Program): set<State> {
    {ResetEntry(p)} + HandlerEntries(p.brk) + HandlerEntries(p.nmi) + HandlerEntries(p.irq)
  }

  /** The transfer rule for one decoded instruction, after its effect on the status is known. */
  function Dispatch(p: Program, proc: Proc, c: Cpu, after: Cpu, ps: seq<SavedP>, i: Inst): Effect {
    var site := Site(c.pbr, c.pc);
    var fall := (c.pc + i.length) % 0x10000;
    if i.mnemonic.JML? then Flow({State(proc, FarPc(after, i.operand), ps)})
    else if i.mnemonic.JMP? && i.mode.Abs? then Flow({State(proc, after.(pc := i.operand), ps)})
    else if IsIndirectJump(i) then
      if site !in p.indirect then Frontier(UnprovedIndirect)
      else Flow(set t | t in p.indirect[site] :: State(proc, after.(pbr := t.bank, pc := t.pc), ps))
    else if IsBranch(i.mnemonic) then
      Flow({State(proc, after.(pc := fall), ps), State(proc, after.(pc := i.operand), ps)})
    else if i.mnemonic.BRA? || i.mnemonic.BRL? then Flow({State(proc, after.(pc := i.operand), ps)})
    else if i.mnemonic.JSR? && i.mode.Abs? then
      Effect({}, {CallTo(proc, ps, after.(pc := i.operand), RtsKind, c.pbr, fall)}, {}, None)
    else if i.mnemonic.JSR? && i.mode.AbsIndX? then
      if site !in p.indirect then Frontier(UnprovedIndirect)
      else
        Effect({}, set t | t in p.indirect[site] ::
                 CallTo(proc, ps, after.(pbr := t.bank, pc := t.pc), RtsKind, c.pbr, fall), {}, None)
    else if i.mnemonic.JSL? then
      Effect({}, {CallTo(proc, ps, FarPc(after, i.operand), RtlKind, c.pbr, fall)}, {}, None)
    else if i.mnemonic.RTS? then
      if proc.kind.RtsKind? then Leave(proc, after, ps) else Frontier(WrongReturnKind)
    else if i.mnemonic.RTL? then
      if proc.kind.RtlKind? then Leave(proc, after, ps) else Frontier(WrongReturnKind)
    else if i.mnemonic.RTI? then
      if !proc.kind.RtiKind? then Frontier(WrongReturnKind)
      else if ps != [] then Frontier(UnbalancedPhp)
      else Flow({})
    else if i.mnemonic.BRK? || i.mnemonic.COP? then
      Flow(HandlerEntries(if i.mnemonic.BRK? then p.brk else p.cop) + {State(proc, after.(pc := fall), ps)})
    else if i.mnemonic.STP? then Flow({})
    else Flow({State(proc, after.(pc := fall), ps)})
  }

  /** What the service of one state contributes. */
  function Transfer(p: Program, st: State): Effect {
    match p.decode(KeyOf(st.cpu))
    case None => Frontier(DecodeFailed)
    case Some(i) =>
      match StatusAfter(st.cpu, st.pstack, i)
      case StatusFault(f) => Frontier(f)
      case Status(after, ps) => Dispatch(p, st.proc, st.cpu, after, ps, i)
  }

  /** The three relations the analysis computes. */
  datatype Table = Table(seen: set<State>, calls: set<Call>, exits: set<ExitFact>)

  ghost predicate Included(a: Table, b: Table) {
    a.seen <= b.seen && a.calls <= b.calls && a.exits <= b.exits
  }

  ghost predicate Covers(t: Table, e: Effect) {
    e.next <= t.seen && e.calls <= t.calls && e.exits <= t.exits
  }

  /** Every caller sees every exit of its callee. */
  ghost predicate Summarised(known: set<State>, calls: set<Call>, exits: set<ExitFact>) {
    forall k, x :: k in calls && x in exits && k.callee == x.proc ==> Return(k.cont, x.exit) in known
  }

  /** Closed under the seeds, the transfer rule and the call/return summaries. */
  ghost predicate Closed(p: Program, t: Table) {
    && Seeds(p) <= t.seen
    && (forall st {:trigger Transfer(p, st)} :: st in t.seen ==> Covers(t, Transfer(p, st)))
    && (forall k :: k in t.calls ==> Entry(k.callee) in t.seen)
    && Summarised(t.seen, t.calls, t.exits)
  }

  /** No state of the table stops at a frontier. */
  ghost predicate FrontierFree(p: Program, t: Table) {
    forall st {:trigger Transfer(p, st)} :: st in t.seen ==> Transfer(p, st).fault.None?
  }

  /** The same relations with no bound on their size. */
  datatype Wide = Wide(seen: iset<State>, calls: iset<Call>, exits: iset<ExitFact>)

  ghost predicate Within(t: Table, w: Wide) {
    && (forall st :: st in t.seen ==> st in w.seen)
    && (forall k :: k in t.calls ==> k in w.calls)
    && (forall x :: x in t.exits ==> x in w.exits)
  }

  ghost function Contribution(e: Effect): Table {
    Table(e.next, e.calls, e.exits)
  }

  ghost predicate WideClosed(p: Program, w: Wide) {
    && (forall st :: st in Seeds(p) ==> st in w.seen)
    && (forall st {:trigger Transfer(p, st)} :: st in w.seen ==> Within(Contribution(Transfer(p, st)), w))
    && (forall k :: k in w.calls ==> Entry(k.callee) in w.seen)
    && (forall k, x :: k in w.calls && x in w.exits && k.callee == x.proc ==> Return(k.cont, x.exit) in w.seen)
  }

  ghost function Widen(t: Table): Wide {
    Wide(iset st | st in t.seen, iset k | k in t.calls, iset x | x in t.exits)
  }

  lemma ClosedWidens(p: Program, t: Table)
    ensures Closed(p, t) <==> WideClosed(p, Widen(t))
  {
    hide Transfer, Seeds;
    if WideClosed(p, Widen(t)) {
      forall st | st in t.seen
        ensures Covers(t, Transfer(p, st))
      {
        assert Within(Contribution(Transfer(p, st)), Widen(t));
      }
    }
  }

  /** Least among all closed relations, the infinite ones included. */
  ghost predicate LeastClosed(p: Program, t: Table) {
    Closed(p, t) && forall w: Wide :: WideClosed(p, w) ==> Within(t, w)
  }

  /** The runtime identities the generated core is emitted for. */
  ghost predicate InContexts(p: Program, t: Table, key: RuntimeKey) {
    p.decode(key).Some? && exists st :: st in t.seen && KeyOf(st.cpu) == key
  }

  datatype ReturnSite = ReturnSite(at: Site, kind: Kind, target: Site)

  /** The finite return-target sets, joined only after the fixed point is reached. */
  function ReturnSites(p: Program, t: Table): set<ReturnSite> {
    set st, k | st in t.seen && k in t.calls && Transfer(p, st).exits != {} && k.callee == st.proc ::
      ReturnSite(Site(st.cpu.pbr, st.cpu.pc), st.proc.kind, Site(k.cont.bank, k.cont.pc))
  }
}
