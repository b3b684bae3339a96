/** When the search of the analysis is finite: sixteen-bit programs whose PHP nesting is bounded. */
module ClosureBounds {
  import opened Options
  import opened ClosureModel

  // ----- what every program decoded from an image satisfies -----

  predicate InSpace(bank: nat, pc: nat) {
    bank < 0x100 && pc < 0x10000
  }

  /** The instructions whose operand becomes the program counter as it stands. */
  predicate JumpsToOperand(i: Inst) {
    || ((i.mnemonic.JMP? || i.mnemonic.JSR?) && i.mode.Abs?)
    || IsBranch(i.mnemonic) || i.mnemonic.BRA? || i.mnemonic.BRL?
  }

  /** Vectors, decoded targets and proved targets are addresses of the 24-bit space. */
  ghost predicate InRange(p: Program) {
    && p.reset < 0x10000 && p.brk < 0x10000 && p.cop < 0x10000 && p.nmi < 0x10000 && p.irq < 0x10000
    && (forall key: RuntimeKey :: InSpace(key.pbr, key.pc) && p.decode(key).Some? && JumpsToOperand(p.decode(key).value)
                                  ==> p.decode(key).value.operand < 0x10000)
    && (forall site, t :: site in p.indirect && t in p.indirect[site] ==> InSpace(t.bank, t.pc))
  }

  predicate StateInSpace(st: State) {
    InSpace(st.proc.bank, st.proc.pc) && InSpace(st.cpu.pbr, st.cpu.pc)
  }

  predicate CallInSpace(k: Call) {
    && InSpace(k.callee.bank, k.callee.pc) && InSpace(k.cont.caller.bank, k.cont.caller.pc)
    && InSpace(k.cont.bank, k.cont.pc)
  }

  predicate ExitInSpace(x: ExitFact) {
    InSpace(x.proc.bank, x.proc.pc)
  }

  ghost function Space(): Wide {
    Wide(iset st | StateInSpace(st), iset k | CallInSpace(k), iset x | ExitInSpace(x))
  }

  lemma StatusKeepsAddress(c: Cpu, ps: seq<SavedP>, i: Inst)
    ensures var s := StatusAfter(c, ps, i); s.Status? ==> s.cpu.pc == c.pc && s.cpu.pbr == c.pbr
  {
    hide HasFlag;
  }

  lemma TransferInSpace(p: Program, st: State)
    requires InRange(p) && StateInSpace(st)
    ensures Within(Contribution(Transfer(p, st)), Space())
  {
    hide HasFlag, StatusAfter, Dispatch, InRange, Within;
    match p.decode(KeyOf(st.cpu))
    case None => NothingInSpace(DecodeFailed);
    case Some(i) =>
      StatusKeepsAddress(st.cpu, st.pstack, i);
      match StatusAfter(st.cpu, st.pstack, i)
      case StatusFault(f) => NothingInSpace(f);
      case Status(after, ps) => DispatchInSpace(p, st.proc, st.cpu, after, ps, i);
  }

  lemma NothingInSpace(f: Fault)
    ensures Within(Contribution(Frontier(f)), Space())
  {
  }

  lemma DispatchInSpace(p: Program, proc: Proc, c: Cpu, after: Cpu, ps: seq<SavedP>, i: Inst)
    requires InRange(p) && InSpace(proc.bank, proc.pc) && InSpace(c.pbr, c.pc) && InSpace(after.pbr, after.pc)
    requires p.decode(KeyOf(c)) == Some(i)
    ensures Within(Contribution(Dispatch(p, proc, c, after, ps, i)), Space())
  {
    hide Dispatch;
    StatesInSpace(p, proc, c, after, ps, i);
    CallsInSpace(p, proc, c, after, ps, i);
    ExitsInSpace(p, proc, c, after, ps, i);
  }

  lemma StatesInSpace(p: Program, proc: Proc, c: Cpu, after: Cpu, ps: seq<SavedP>, i: Inst)
    requires InRange(p) && InSpace(proc.bank, proc.pc) && InSpace(c.pbr, c.pc) && InSpace(after.pbr, after.pc)
    requires p.decode(KeyOf(c)) == Some(i)
    ensures forall st :: st in Dispatch(p, proc, c, after, ps, i).next ==> StateInSpace(st)
  {
  }

  lemma CallsInSpace(p: Program, proc: Proc, c: Cpu, after: Cpu, ps: seq<SavedP>, i: Inst)
    requires InRange(p) && InSpace(proc.bank, proc.pc) && InSpace(c.pbr, c.pc) && InSpace(after.pbr, after.pc)
    requires p.decode(KeyOf(c)) == Some(i)
    ensures forall k :: k in Dispatch(p, proc, c, after, ps, i).calls ==> CallInSpace(k)
  {
    hide HandlerEntries;
  }

  lemma ExitsInSpace(p: Program, proc: Proc, c: Cpu, after: Cpu, ps: seq<SavedP>, i: Inst)
    requires InSpace(proc.bank, proc.pc)
    ensures forall x :: x in Dispatch(p, proc, c, after, ps, i).exits ==> ExitInSpace(x)
  {
    hide HandlerEntries;
  }

  lemma SpaceCloses(p: Program)
    requires InRange(p)
    ensures WideClosed(p, Space())
  {
    hide Transfer;
    forall st | StateInSpace(st)
      ensures Within(Contribution(Transfer(p, st)), Space())
    {
      TransferInSpace(p, st);
    }
  }

  // ----- the least closed relations, finite or not -----

  /** In every closed relation, so found by every search that is to be complete. */
  ghost predicate Derived(p: Program, st: State) {
    forall w: Wide :: WideClosed(p, w) ==> st in w.seen
  }

  ghost predicate DerivedCall(p: Program, k: Call) {
    forall w: Wide :: WideClosed(p, w) ==> k in w.calls
  }

  ghost predicate DerivedExit(p: Program, x: ExitFact) {
    forall w: Wide :: WideClosed(p, w) ==> x in w.exits
  }

  ghost function AllDerived(p: Program): Wide {
    Wide(iset st | Derived(p, st), iset k | DerivedCall(p, k), iset x | DerivedExit(p, x))
  }

  lemma DerivedCloses(p: Program)
    ensures WideClosed(p, AllDerived(p))
  {
    hide Transfer, Seeds;
    var d := AllDerived(p);
    forall st | st in d.seen
      ensures Within(Contribution(Transfer(p, st)), d)
    {
      forall w: Wide | WideClosed(p, w)
        ensures Within(Contribution(Transfer(p, st)), w)
      {
        assert st in w.seen;
      }
    }
    forall k, x | k in d.calls && x in d.exits && k.callee == x.proc
      ensures Return(k.cont, x.exit) in d.seen
    {
      forall w: Wide | WideClosed(p, w) ensures Return(k.cont, x.exit) in w.seen {
        assert k in w.calls && x in w.exits;
      }
    }
  }

  // ----- bounded nesting -----

  /** No derived state has more than `depth` PHP bytes open in its procedure. */
  ghost predicate NestsWithin(p: Program, depth: nat) {
    forall st :: Derived(p, st) ==> |st.pstack| <= depth
  }

  ghost predicate Shallow(w: Wide, depth: nat) {
    forall st :: st in w.seen ==> |st.pstack| <= depth
  }

  /** Nesting is bounded exactly when some closed relation, however large, is bounded. */
  lemma NestingInvariant(p: Program, depth: nat)
    ensures NestsWithin(p, depth) <==> exists w: Wide :: WideClosed(p, w) && Shallow(w, depth)
  {
    hide WideClosed;
    DerivedCloses(p);
    if NestsWithin(p, depth) {
      assert Shallow(AllDerived(p), depth);
    }
  }

  ghost predicate PushesP(p: Program) {
    exists key :: p.decode(key).Some? && p.decode(key).value.mnemonic.PHP?
  }

  lemma WithoutPhpStep(p: Program, st: State)
    requires !PushesP(p) && st.pstack == []
    ensures forall n :: n in Transfer(p, st).next ==> n.pstack == []
    ensures forall k :: k in Transfer(p, st).calls ==> k.cont.pstack == []
  {
    hide HasFlag;
  }

  /** A program without PHP never nests. */
  lemma WithoutPhp(p: Program)
    requires !PushesP(p)
    ensures NestsWithin(p, 0)
  {
    hide Transfer, PushesP, Seeds;
    var d := AllDerived(p);
    DerivedCloses(p);
    var w := d.(seen := (iset st | st in d.seen && st.pstack == []),
                calls := (iset k | k in d.calls && k.cont.pstack == []));
    forall st | st in w.seen
      ensures Within(Contribution(Transfer(p, st)), w)
    {
      WithoutPhpStep(p, st);
      assert Within(Contribution(Transfer(p, st)), d);
    }
    SeedsFlat(p);
    assert WideClosed(p, w);
    NestingInvariant(p, 0);
  }

  lemma SeedsFlat(p: Program)
    ensures forall st :: st in Seeds(p) ==> st.pstack == []
  {
  }

  // ----- the finite universe of one depth -----

  function Carries(): set<Option<bool>> {
    {None, Some(false), Some(true)}
  }

  function Procs(): set<Proc> {
    set b: nat, pc: nat, e: bool, m: bool, x: bool, c, k: Kind | b < 0x100 && pc < 0x10000 && c in Carries()
      :: Proc(b, pc, e, m, x, c, k)
  }

  function Cpus(): set<Cpu> {
    set b: nat, pc: nat, e: bool, m: bool, x: bool, c | b < 0x100 && pc < 0x10000 && c in Carries()
      :: Cpu(b, pc, e, m, x, c)
  }

  function Bytes(): set<SavedP> {
    set m: bool, x: bool, c | c in Carries() :: SavedP(m, x, c)
  }

  function Stacks(depth: nat): set<seq<SavedP>> {
    if depth == 0 then {[]}
    else Stacks(depth - 1) + set s, b | s in Stacks(depth - 1) && b in Bytes() :: s + [b]
  }

  lemma {:induction false} StacksExact(depth: nat, ps: seq<SavedP>)
    ensures ps in Stacks(depth) <==> |ps| <= depth
  {
    if depth > 0 {
      StacksExact(depth - 1, ps);
      if ps != [] {
        var last := |ps| - 1;
        StacksExact(depth - 1, ps[..last]);
        assert ps == ps[..last] + [ps[last]];
        CarryListed(ps[last].carry);
        assert ps[last] in Bytes();
      }
      forall s, b | s in Stacks(depth - 1) && b in Bytes() && ps == s + [b] ensures |ps| <= depth {
        StacksExact(depth - 1, s);
      }
    }
  }

  function Universe(depth: nat): set<State> {
    set p, c, ps | p in Procs() && c in Cpus() && ps in Stacks(depth) :: State(p, c, ps)
  }

  function CallUniverse(depth: nat): set<Call> {
    set callee, caller, at, ps | callee in Procs() && caller in Procs() && at in Procs() && ps in Stacks(depth)
      :: Call(callee, Continuation(caller, at.bank, at.pc, ps))
  }

  function ExitUniverse(): set<ExitFact> {
    set p, c | p in Procs() && c in Cpus() :: ExitFact(p, Exit(c.e, c.m, c.x, c.carry))
  }

  lemma CarryListed(c: Option<bool>)
    ensures c in Carries()
  {
    match c
    case None =>
    case Some(b) => if b { assert c == Some(true); } else { assert c == Some(false); }
  }

  lemma UniverseHolds(depth: nat, st: State)
    requires StateInSpace(st) && |st.pstack| <= depth
    ensures st in Universe(depth)
  {
    hide Stacks;
    StacksExact(depth, st.pstack);
    CarryListed(st.proc.carry);
    CarryListed(st.cpu.carry);
    assert st.proc in Procs() && st.cpu in Cpus();
  }

  lemma CallUniverseHolds(depth: nat, k: Call)
    requires CallInSpace(k) && |k.cont.pstack| <= depth
    ensures k in CallUniverse(depth)
  {
    hide Stacks;
    StacksExact(depth, k.cont.pstack);
    CarryListed(k.callee.carry);
    CarryListed(k.cont.caller.carry);
    CarryListed(None);
    var at := Proc(k.cont.bank, k.cont.pc, false, false, false, None, RootKind);
    assert k.callee in Procs() && k.cont.caller in Procs() && at in Procs();
    assert k == Call(k.callee, Continuation(k.cont.caller, at.bank, at.pc, k.cont.pstack));
  }

  lemma ExitUniverseHolds(x: ExitFact)
    requires ExitInSpace(x)
    ensures x in ExitUniverse()
  {
    CarryListed(x.proc.carry);
    CarryListed(x.exit.carry);
    assert x.proc in Procs();
    assert Cpu(0, 0, x.exit.e, x.exit.m, x.exit.x, x.exit.carry) in Cpus();
  }

  // ----- bounded nesting is what makes the search finite -----

  lemma CallsKeepStack(p: Program, st: State)
    ensures forall k :: k in Transfer(p, st).calls ==> k.cont.pstack == st.pstack
  {
    hide HasFlag;
  }

  /** A call's continuation keeps the PHP bytes of its caller, so it nests no deeper. */
  lemma CallsNestWithin(p: Program, depth: nat, k: Call)
    requires NestsWithin(p, depth) && DerivedCall(p, k)
    ensures |k.cont.pstack| <= depth
  {
    hide Transfer, Seeds;
    var d := AllDerived(p);
    DerivedCloses(p);
    var w := d.(calls := iset c | c in d.calls && |c.cont.pstack| <= depth);
    forall st | st in w.seen
      ensures Within(Contribution(Transfer(p, st)), w)
    {
      assert Within(Contribution(Transfer(p, st)), d);
      CallsKeepStack(p, st);
    }
    assert WideClosed(p, w);
  }

  /** The derived relations as finite sets. */
  ghost function DerivedTable(p: Program, depth: nat): Table {
    Table(set st | st in Universe(depth) && Derived(p, st),
          set k | k in CallUniverse(depth) && DerivedCall(p, k),
          set x | x in ExitUniverse() && DerivedExit(p, x))
  }

  lemma DerivedTableIsAll(p: Program, depth: nat)
    requires InRange(p) && NestsWithin(p, depth)
    ensures Widen(DerivedTable(p, depth)) == AllDerived(p)
  {
    hide Universe, CallUniverse, ExitUniverse, WideClosed;
    SpaceCloses(p);
    var t, d := DerivedTable(p, depth), AllDerived(p);
    forall st | st in d.seen ensures st in t.seen {
      assert st in Space().seen;
      UniverseHolds(depth, st);
    }
    forall k | k in d.calls ensures k in t.calls {
      assert k in Space().calls;
      CallsNestWithin(p, depth, k);
      CallUniverseHolds(depth, k);
    }
    forall x | x in d.exits ensures x in t.exits {
      assert x in Space().exits;
      ExitUniverseHolds(x);
    }
    assert Widen(t).seen == d.seen && Widen(t).calls == d.calls && Widen(t).exits == d.exits;
  }

  lemma {:induction false} DeepestState(states: set<State>) returns (depth: nat)
    ensures forall st :: st in states ==> |st.pstack| <= depth
  {
    if states == {} {
      depth := 0;
    } else {
      var st :| st in states;
      var rest := DeepestState(states - {st});
      depth := if |st.pstack| > rest then |st.pstack| else rest;
    }
  }

  /** A program of the 24-bit space has a finite closed table exactly when its PHP nesting is bounded. */
  lemma FiniteExactly(p: Program)
    requires InRange(p)
    ensures (exists depth: nat :: NestsWithin(p, depth)) <==> (exists t :: Closed(p, t))
  {
    hide Derived, Closed, WideClosed, DerivedTable;
    if depth: nat :| NestsWithin(p, depth) {
      DerivedTableIsAll(p, depth);
      DerivedCloses(p);
      ClosedWidens(p, DerivedTable(p, depth));
    }
    if t :| Closed(p, t) {
      ClosedWidens(p, t);
      var depth := DeepestState(t.seen);
      assert Shallow(Widen(t), depth);
      NestingInvariant(p, depth);
    }
  }
}
