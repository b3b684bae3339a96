/** The worklist of the analysis, proved to compute the least closed table whatever it serves first. */
module ClosureWorklist {
  import opened Options
  import opened ClosureModel
  import opened ClosureBounds

  ghost function CallsOf(m: map<Proc, set<Continuation>>): set<Call> {
    set p, k | p in m && k in m[p] :: Call(p, k)
  }

  ghost function ExitsOf(m: map<Proc, set<Exit>>): set<ExitFact> {
    set p, x | p in m && x in m[p] :: ExitFact(p, x)
  }

  /** Reading a dictionary whose missing entries are empty sets. */
  function Lookup<K, V>(m: map<K, set<V>>, k: K): set<V> {
    if k in m then m[k] else {}
  }

  lemma CallsAdd(m: map<Proc, set<Continuation>>, k: Call)
    ensures CallsOf(m[k.callee := Lookup(m, k.callee) + {k.cont}]) == CallsOf(m) + {k}
  {
    var n := m[k.callee := Lookup(m, k.callee) + {k.cont}];
    forall c: Call ensures c in CallsOf(n) <==> c in CallsOf(m) + {k} {
      assert c in CallsOf(n) <==> c.callee in n && c.cont in n[c.callee];
      assert c in CallsOf(m) <==> c.callee in m && c.cont in m[c.callee];
    }
  }

  lemma ExitsAdd(m: map<Proc, set<Exit>>, x: ExitFact)
    ensures ExitsOf(m[x.proc := Lookup(m, x.proc) + {x.exit}]) == ExitsOf(m) + {x}
  {
    var n := m[x.proc := Lookup(m, x.proc) + {x.exit}];
    forall f: ExitFact ensures f in ExitsOf(n) <==> f in ExitsOf(m) + {x} {
      assert f in ExitsOf(n) <==> f.proc in n && f.exit in n[f.proc];
      assert f in ExitsOf(m) <==> f.proc in m && f.exit in m[f.proc];
    }
  }

  /** Nothing is derived that a closed table holding `given` could do without. */
  ghost predicate Forced(p: Program, given: Table, derived: Table) {
    forall w: Wide :: WideClosed(p, w) && Within(given, w) ==> Within(derived, w)
  }

  /** The table with the direct contributions of one effect added. */
  ghost function With(t: Table, e: Effect): Table {
    Table(t.seen + e.next, t.calls + e.calls, t.exits + e.exits)
  }

  /** One effect has been entered: all of it, and nothing that closure does not force. */
  ghost predicate Entered(p: Program, before: Table, e: Effect, after: Table) {
    && Included(With(before, e), after)
    && Forced(p, With(before, e), after)
    && (forall k :: k in e.calls ==> Entry(k.callee) in after.seen)
    && after.calls == before.calls + e.calls
  }

  lemma NothingEntered(p: Program, t: Table)
    ensures Entered(p, t, Effect({}, {}, {}, None), t)
  {
    assert With(t, Effect({}, {}, {}, None)) == t;
  }

  lemma CallEntered(p: Program, before: Table, done: set<Call>, mid: Table, k: Call, after: Table)
    requires Entered(p, before, Effect({}, done, {}, None), mid) && Included(mid, after)
    requires Entry(k.callee) in after.seen && after.calls == mid.calls + {k} && after.exits == mid.exits
    requires Forced(p, mid.(calls := mid.calls + {k}), after)
    ensures Entered(p, before, Effect({}, done + {k}, {}, None), after)
  {
    hide WideClosed;
  }

  /** Every served state has been entered in full, and everything found is forced. */
  ghost predicate Progress(p: Program, served: set<State>, found: Table) {
    && Summarised(found.seen, found.calls, found.exits)
    && Seeds(p) <= found.seen
    && (forall st {:trigger Transfer(p, st)} :: st in served ==> Covers(found, Transfer(p, st)))
    && (forall k :: k in found.calls ==> Entry(k.callee) in found.seen)
    && (forall w: Wide :: WideClosed(p, w) ==> Within(found, w))
  }

  ghost predicate FrontiersExact(p: Program, served: set<State>, frontiers: seq<(State, Fault)>) {
    frontiers == [] <==> forall st {:trigger Transfer(p, st)} :: st in served ==> Transfer(p, st).fault.None?
  }

  ghost predicate ContextsExact(p: Program, served: set<State>, contexts: map<RuntimeKey, Inst>) {
    forall key :: (key in contexts <==> p.decode(key).Some? && exists st :: st in served && KeyOf(st.cpu) == key)
                  && (key in contexts ==> p.decode(key) == Some(contexts[key]))
  }

  /** The fault of an effect is reported once, and nothing else is. */
  ghost predicate Reports(before: seq<(State, Fault)>, e: Effect, after: seq<(State, Fault)>) {
    if e.fault.None? then after == before
    else |after| == |before| + 1 && after[..|before|] == before && after[|before|].1 == e.fault.value
  }

  lemma ProgressStep(p: Program, served: set<State>, st: State, before: Table, after: Table)
    requires Progress(p, served, before) && st in before.seen
    requires Entered(p, before, Transfer(p, st), after)
    requires Summarised(after.seen, after.calls, after.exits)
    ensures Progress(p, served + {st}, after)
  {
    assert Included(before, after);
    forall w: Wide | WideClosed(p, w) ensures Within(after, w) {
      assert Within(before, w);
      assert Within(Contribution(Transfer(p, st)), w);
      assert Within(With(before, Transfer(p, st)), w);
    }
  }

  lemma FrontiersStep(p: Program, served: set<State>, st: State,
                      before: seq<(State, Fault)>, after: seq<(State, Fault)>)
    requires FrontiersExact(p, served, before) && Reports(before, Transfer(p, st), after)
    ensures FrontiersExact(p, served + {st}, after)
  {
    if Transfer(p, st).fault.Some? {
      assert after != [] && st in served + {st};
    }
  }

  lemma ContextsStep(p: Program, served: set<State>, st: State,
                     before: map<RuntimeKey, Inst>, after: map<RuntimeKey, Inst>)
    requires ContextsExact(p, served, before)
    requires var d := p.decode(KeyOf(st.cpu));
             after == if d.None? then before else before[KeyOf(st.cpu) := d.value]
    ensures ContextsExact(p, served + {st}, after)
  {
    forall key ensures key in after
        <==> p.decode(key).Some? && exists s :: s in served + {st} && KeyOf(s.cpu) == key {
      if key == KeyOf(st.cpu) {
        assert st in served + {st};
      } else if key in before {
        var s :| s in served && KeyOf(s.cpu) == key;
        assert s in served + {st};
      }
    }
  }

  lemma ProgressCloses(p: Program, t: Table)
    requires Progress(p, t.seen, t)
    ensures LeastClosed(p, t)
  {
  }

  /** What is left of the universe of one depth shrinks with each state served inside it. */
  lemma UniverseShrinks(p: Program, depth: nat, served: set<State>, found: Table, st: State)
    requires InRange(p) && Progress(p, served, found) && st in found.seen && st !in served && |st.pstack| <= depth
    ensures |Universe(depth) - (served + {st})| < |Universe(depth) - served|
  {
    hide Universe;
    SpaceCloses(p);
    assert Within(found, Space());
    UniverseHolds(depth, st);
    assert Universe(depth) - (served + {st}) == Universe(depth) - served - {st};
    assert st in Universe(depth) - served;
  }

  lemma FoundIsDerived(p: Program, served: set<State>, found: Table, st: State)
    requires Progress(p, served, found) && st in found.seen
    ensures Derived(p, st)
  {
    forall w: Wide | WideClosed(p, w) ensures st in w.seen {
      assert Within(found, w);
    }
  }

  /** A closed table of shallow states bounds the nesting. */
  lemma ShallowResult(p: Program, t: Table, depth: nat)
    requires Closed(p, t) && forall st :: st in t.seen ==> |st.pstack| <= depth
    ensures NestsWithin(p, depth)
  {
    ClosedWidens(p, t);
    assert Shallow(Widen(t), depth);
    NestingInvariant(p, depth);
  }

  class Analyzer {
    const program: Program
    var q: seq<State>
    var queued: set<State>
    var seen: set<State>
    var callers: map<Proc, set<Continuation>>
    var procExits: map<Proc, set<Exit>>
    var contexts: map<RuntimeKey, Inst>
    var frontiers: seq<(State, Fault)>

    constructor (p: Program)
      ensures program == p
      ensures q == [] && queued == {} && seen == {} && callers == map[] && procExits == map[]
      ensures contexts == map[] && frontiers == []
    {
      program := p;
      q, queued, seen, callers, procExits, contexts, frontiers := [], {}, {}, map[], map[], map[], [];
    }

    /** The table found so far; a queued state counts as found. */
    ghost function Found(): Table
      reads this
    {
      Table(seen + queued, CallsOf(callers), ExitsOf(procExits))
    }

    ghost predicate QueueOk()
      reads this
    {
      && (forall s :: s in queued <==> s in q)
      && (forall i, j :: 0 <= i < j < |q| ==> q[i] != q[j])
    }

    method Enqueue(st: State)
      requires QueueOk()
      modifies this`q, this`queued
      ensures QueueOk()
      ensures Found() == old(Found()).(seen := old(Found().seen) + {st})
    {
      if st !in seen && st !in queued {
        q := q + [st];
        queued := queued + {st};
      }
    }

    method RegisterCall(k: Call)
      requires QueueOk() && Summarised(Found().seen, Found().calls, Found().exits)
      modifies this`q, this`queued, this`callers
      ensures QueueOk() && Summarised(Found().seen, Found().calls, Found().exits)
      ensures Included(old(Found()), Found()) && Entry(k.callee) in Found().seen
      ensures Found().calls == old(Found().calls) + {k} && Found().exits == old(Found().exits)
      ensures Forced(program, old(Found()).(calls := old(Found().calls) + {k}), Found())
    {
      hide Transfer, Covers;
      ghost var before := Found();
      if k.cont !in Lookup(callers, k.callee) {
        CallsAdd(callers, k);
        callers := callers[k.callee := Lookup(callers, k.callee) + {k.cont}];
        var rest := Lookup(procExits, k.callee);
        while rest != {}
          invariant QueueOk() && rest <= Lookup(procExits, k.callee)
          invariant Found().calls == before.calls + {k} && Found().exits == before.exits
          invariant before.seen <= Found().seen
          invariant forall x :: x in Lookup(procExits, k.callee) && x !in rest ==> Return(k.cont, x) in Found().seen
          invariant Forced(program, before.(calls := before.calls + {k}), Found())
          decreases |rest|
        {
          var x :| x in rest;
          assert ExitFact(k.callee, x) in Found().exits;
          Enqueue(Return(k.cont, x));
          rest := rest - {x};
        }
        assert forall f :: f in Found().exits && f.proc == k.callee ==> f.exit in Lookup(procExits, k.callee);
      } else {
        assert k in CallsOf(callers);
        assert before.calls + {k} == before.calls;
      }
      Enqueue(Entry(k.callee));
    }

    /** A new exit status of a procedure reaches every caller known so far. */
    method PropagateExit(proc: Proc, x: Exit)
      requires QueueOk() && Summarised(Found().seen, Found().calls, Found().exits)
      modifies this`q, this`queued, this`procExits
      ensures QueueOk() && Summarised(Found().seen, Found().calls, Found().exits)
      ensures old(Found().seen) <= Found().seen && Found().calls == old(Found().calls)
      ensures Found().exits == old(Found().exits) + {ExitFact(proc, x)}
      ensures Forced(program, old(Found()).(exits := old(Found().exits) + {ExitFact(proc, x)}), Found())
    {
      hide Transfer, Covers;
      ghost var before := Found();
      ghost var fact := ExitFact(proc, x);
      ExitsAdd(procExits, fact);
      procExits := procExits[proc := Lookup(procExits, proc) + {x}];
      var rest := Lookup(callers, proc);
      while rest != {}
        invariant QueueOk() && rest <= Lookup(callers, proc)
        invariant Found().calls == before.calls && Found().exits == before.exits + {fact}
        invariant before.seen <= Found().seen
        invariant forall k :: k in Lookup(callers, proc) && k !in rest ==> Return(k, x) in Found().seen
        invariant Forced(program, before.(exits := before.exits + {fact}), Found())
        decreases |rest|
      {
        var k :| k in rest;
        assert Call(proc, k) in Found().calls;
        Enqueue(Return(k, x));
        rest := rest - {k};
      }
      assert forall k :: k in Found().calls && k.callee == proc ==> k.cont in Lookup(callers, proc);
    }

    method AddExit(st: State)
      requires QueueOk() && Summarised(Found().seen, Found().calls, Found().exits)
      modifies this`q, this`queued, this`procExits, this`frontiers
      ensures QueueOk() && Summarised(Found().seen, Found().calls, Found().exits)
      ensures old(Found().seen) <= Found().seen && Found().calls == old(Found().calls)
      ensures Found().exits == old(Found().exits) + Leave(st.proc, st.cpu, st.pstack).exits
      ensures Forced(program, old(Found()).(exits := old(Found().exits) + Leave(st.proc, st.cpu, st.pstack).exits),
                     Found())
      ensures frontiers == if st.pstack != [] then old(frontiers) + [(st, UnbalancedPhp)] else old(frontiers)
    {
      ghost var before := Found();
      if st.pstack != [] {
        frontiers := frontiers + [(st, UnbalancedPhp)];
        assert before.exits + {} == before.exits;
        return;
      }
      var x := Exit(st.cpu.e, st.cpu.m, st.cpu.x, st.cpu.carry);
      if x in Lookup(procExits, st.proc) {
        assert ExitFact(st.proc, x) in ExitsOf(procExits);
        assert before.exits + {ExitFact(st.proc, x)} == before.exits;
        return;
      }
      PropagateExit(st.proc, x);
    }

    method EnterHandlers(vector: nat)
      requires QueueOk()
      modifies this`q, this`queued
      ensures QueueOk()
      ensures Found() == old(Found()).(seen := old(Found().seen) + HandlerEntries(vector))
    {
      ghost var before := Found();
      for n := 0 to |WIDTHS|
        invariant QueueOk()
        invariant Found() == before.(seen := before.seen + set w | w in WIDTHS[..n] :: HandlerEntry(vector, w))
      {
        Enqueue(HandlerEntry(vector, WIDTHS[n]));
        assert WIDTHS[..n + 1] == WIDTHS[..n] + [WIDTHS[n]];
      }
      assert WIDTHS[..|WIDTHS|] == WIDTHS;
    }

    method JumpAll(proc: Proc, after: Cpu, ps: seq<SavedP>, targets: seq<Site>)
      requires QueueOk()
      modifies this`q, this`queued
      ensures QueueOk()
      ensures Found() == old(Found()).(seen := old(Found().seen)
              + set t | t in targets :: State(proc, after.(pbr := t.bank, pc := t.pc), ps))
    {
      ghost var before := Found();
      for n := 0 to |targets|
        invariant QueueOk()
        invariant Found() == before.(seen := before.seen
                  + set t | t in targets[..n] :: State(proc, after.(pbr := t.bank, pc := t.pc), ps))
      {
        Enqueue(State(proc, after.(pbr := targets[n].bank, pc := targets[n].pc), ps));
        assert targets[..n + 1] == targets[..n] + [targets[n]];
      }
      assert targets[..|targets|] == targets;
    }

    method CallAll(proc: Proc, after: Cpu, ps: seq<SavedP>, targets: seq<Site>, bank: nat, fall: nat)
      requires QueueOk() && Summarised(Found().seen, Found().calls, Found().exits)
      modifies this`q, this`queued, this`callers
      ensures QueueOk() && Summarised(Found().seen, Found().calls, Found().exits)
      ensures Found().exits == old(Found().exits)
      ensures Entered(program, old(Found()), Effect({}, set t | t in targets ::
                CallTo(proc, ps, after.(pbr := t.bank, pc := t.pc), RtsKind, bank, fall), {}, None), Found())
    {
      hide Summarised, Entered, Forced;
      ghost var before := Found();
      ghost var done: set<Call> := {};
      NothingEntered(program, before);
      for n := 0 to |targets|
        invariant QueueOk() && Summarised(Found().seen, Found().calls, Found().exits)
        invariant Found().exits == before.exits
        invariant done == set t | t in targets[..n] ::
                    CallTo(proc, ps, after.(pbr := t.bank, pc := t.pc), RtsKind, bank, fall)
        invariant Entered(program, before, Effect({}, done, {}, None), Found())
      {
        var k := CallTo(proc, ps, after.(pbr := targets[n].bank, pc := targets[n].pc), RtsKind, bank, fall);
        ghost var mid := Found();
        RegisterCall(k);
        CallEntered(program, before, done, mid, k, Found());
        done := done + {k};
        assert targets[..n + 1] == targets[..n] + [targets[n]];
      }
      assert targets[..|targets|] == targets;
    }

    predicate IsCall(i: Inst) {
      i.mnemonic.JSL? || (i.mnemonic.JSR? && (i.mode.Abs? || i.mode.AbsIndX?))
    }

    predicate IsReturn(i: Inst) {
      i.mnemonic.RTS? || i.mnemonic.RTL?
    }

    /** The cases that stay inside one procedure. */
    method ServiceFlow(st: State, after: Cpu, ps: seq<SavedP>, i: Inst)
      requires QueueOk() && !IsCall(i) && !IsReturn(i)
      modifies this`q, this`queued, this`frontiers
      ensures QueueOk()
      ensures var e := Dispatch(program, st.proc, st.cpu, after, ps, i);
              && e.calls == {} && e.exits == {}
              && Found() == old(Found()).(seen := old(Found().seen) + e.next)
              && Reports(old(frontiers), e, frontiers)
    {
      hide Transfer, StatusAfter;
      var c := st.cpu;
      var site := Site(c.pbr, c.pc);
      var fall := (c.pc + i.length) % 0x10000;
      if i.mnemonic.JML? {
        Enqueue(State(st.proc, FarPc(after, i.operand), ps));
      } else if i.mnemonic.JMP? && i.mode.Abs? {
        Enqueue(State(st.proc, after.(pc := i.operand), ps));
      } else if IsIndirectJump(i) {
        if site !in program.indirect {
          frontiers := frontiers + [(st, UnprovedIndirect)];
        } else {
          JumpAll(st.proc, after, ps, program.indirect[site]);
        }
      } else if IsBranch(i.mnemonic) {
        Enqueue(State(st.proc, after.(pc := fall), ps));
        Enqueue(State(st.proc, after.(pc := i.operand), ps));
      } else if i.mnemonic.BRA? || i.mnemonic.BRL? {
        Enqueue(State(st.proc, after.(pc := i.operand), ps));
      } else if i.mnemonic.RTI? {
        if !st.proc.kind.RtiKind? {
          frontiers := frontiers + [(st, WrongReturnKind)];
        } else if ps != [] {
          frontiers := frontiers + [(st, UnbalancedPhp)];
        }
      } else if i.mnemonic.BRK? || i.mnemonic.COP? {
        EnterHandlers(if i.mnemonic.BRK? then program.brk else program.cop);
        Enqueue(State(st.proc, after.(pc := fall), ps));
      } else if !i.mnemonic.STP? {
        Enqueue(State(st.proc, after.(pc := fall), ps));
      }
    }

    method ServiceCall(st: State, after: Cpu, ps: seq<SavedP>, i: Inst)
      requires QueueOk() && Summarised(Found().seen, Found().calls, Found().exits) && IsCall(i)
      modifies this`q, this`queued, this`callers, this`frontiers
      ensures QueueOk() && Summarised(Found().seen, Found().calls, Found().exits)
      ensures var e := Dispatch(program, st.proc, st.cpu, after, ps, i);
              && e.exits == {} && Found().exits == old(Found().exits)
              && Entered(program, old(Found()), e, Found())
              && Reports(old(frontiers), e, frontiers)
    {
      hide Transfer, Covers, Closed, WideClosed, Summarised, StatusAfter, HandlerEntries;
      var c := st.cpu;
      var site := Site(c.pbr, c.pc);
      var fall := (c.pc + i.length) % 0x10000;
      if i.mnemonic.JSL? {
        RegisterCall(CallTo(st.proc, ps, FarPc(after, i.operand), RtlKind, c.pbr, fall));
      } else if i.mode.Abs? {
        RegisterCall(CallTo(st.proc, ps, after.(pc := i.operand), RtsKind, c.pbr, fall));
      } else if site !in program.indirect {
        frontiers := frontiers + [(st, UnprovedIndirect)];
        assert With(old(Found()), Frontier(UnprovedIndirect)) == old(Found());
      } else {
        CallAll(st.proc, after, ps, program.indirect[site], c.pbr, fall);
      }
    }

    method ServiceReturn(st: State, after: Cpu, ps: seq<SavedP>, i: Inst)
      requires QueueOk() && Summarised(Found().seen, Found().calls, Found().exits) && IsReturn(i)
      modifies this`q, this`queued, this`procExits, this`frontiers
      ensures QueueOk() && Summarised(Found().seen, Found().calls, Found().exits)
      ensures var e := Dispatch(program, st.proc, st.cpu, after, ps, i);
              && e.calls == {} && e.next == {} && Found().exits == old(Found().exits) + e.exits
              && Entered(program, old(Found()), e, Found())
              && Reports(old(frontiers), e, frontiers)
    {
      hide Transfer, Covers, Closed, WideClosed, Summarised, StatusAfter, HandlerEntries;
      if st.proc.kind == (if i.mnemonic.RTS? then RtsKind else RtlKind) {
        AddExit(State(st.proc, after, ps));
        assert With(old(Found()), Leave(st.proc, after, ps))
            == old(Found()).(exits := old(Found().exits) + Leave(st.proc, after, ps).exits);
      } else {
        frontiers := frontiers + [(st, WrongReturnKind)];
        assert With(old(Found()), Frontier(WrongReturnKind)) == old(Found());
      }
    }

    /** The service of one state: decode, status effect, then its instruction's case. */
    method Service(st: State)
      requires QueueOk() && Summarised(Found().seen, Found().calls, Found().exits)
      modifies this`q, this`queued, this`callers, this`procExits, this`contexts, this`frontiers
      ensures QueueOk() && Summarised(Found().seen, Found().calls, Found().exits)
      ensures var e := Transfer(program, st);
              && Entered(program, old(Found()), e, Found())
              && Found().exits == old(Found().exits) + e.exits
              && Reports(old(frontiers), e, frontiers)
      ensures var d := program.decode(KeyOf(st.cpu));
              contexts == if d.None? then old(contexts) else old(contexts)[KeyOf(st.cpu) := d.value]
    {
      hide StatusAfter, Closed, Covers, HandlerEntries;
      var d := program.decode(KeyOf(st.cpu));
      if d.None? {
        frontiers := frontiers + [(st, DecodeFailed)];
        assert With(old(Found()), Frontier(DecodeFailed)) == old(Found());
        return;
      }
      var i := d.value;
      contexts := contexts[KeyOf(st.cpu) := i];
      var s := StatusAfter(st.cpu, st.pstack, i);
      if s.StatusFault? {
        frontiers := frontiers + [(st, s.fault)];
        assert With(old(Found()), Frontier(s.fault)) == old(Found());
      } else if IsCall(i) {
        ServiceCall(st, s.cpu, s.pstack, i);
      } else if IsReturn(i) {
        ServiceReturn(st, s.cpu, s.pstack, i);
      } else {
        ServiceFlow(st, s.cpu, s.pstack, i);
        assert With(old(Found()), Transfer(program, st))
            == old(Found()).(seen := old(Found().seen) + Transfer(program, st).next);
      }
    }

    method SeedAll()
      requires QueueOk()
      modifies this`q, this`queued
      ensures QueueOk()
      ensures Found() == old(Found()).(seen := old(Found().seen) + Seeds(program))
    {
      Enqueue(ResetEntry(program));
      EnterHandlers(program.brk);
      EnterHandlers(program.nmi);
      EnterHandlers(program.irq);
    }

    method Dequeue() returns (st: State)
      requires QueueOk() && q != []
      modifies this`q, this`queued
      ensures QueueOk() && old(q) == [st] + q && |q| == |old(q)| - 1
      ensures queued == old(queued) - {st} && st in old(queued)
    {
      st := q[0];
      q := q[1..];
      queued := queued - {st};
      assert old(q) == [st] + q;
    }

    ghost predicate Consistent()
      reads this
    {
      && QueueOk()
      && Progress(program, seen, Found())
      && FrontiersExact(program, seen, frontiers)
      && ContextsExact(program, seen, contexts)
    }

    /** One turn of the service loop on a state not served before. */
    method Turn(st: State)
      requires Consistent() && q != [] && q[0] == st
      modifies this`q, this`queued, this`seen, this`callers, this`procExits, this`contexts, this`frontiers
      ensures Consistent()
      ensures seen == old(seen) + {st}
    {
      hide Transfer, Entered, Summarised, FrontiersExact, ContextsExact;
      ghost var before := Found();
      var _ := Dequeue();
      seen := seen + {st};
      assert Found() == before;
      Service(st);
      ProgressStep(program, old(seen), st, before, Found());
      FrontiersStep(program, old(seen), st, old(frontiers), frontiers);
      ContextsStep(program, old(seen), st, old(contexts), contexts);
    }

    ghost predicate Fresh()
      reads this
    {
      && q == [] && queued == {} && seen == {} && callers == map[] && procExits == map[]
      && contexts == map[] && frontiers == []
    }

    method Start()
      requires Fresh()
      modifies this`q, this`queued
      ensures Consistent() && seen == {}
    {
      SeedAll();
      forall w: Wide | WideClosed(program, w) ensures Within(Found(), w) {
      }
    }

    /** A queued state that was served in the meantime is dropped. */
    method Skip()
      requires Consistent() && q != [] && q[0] in seen
      modifies this`q, this`queued
      ensures Consistent() && |q| < |old(q)|
    {
      ghost var before := Found();
      var _ := Dequeue();
      assert Found() == before;
    }

    /** The table of the served states. */
    ghost function Result(): Table
      reads this
    {
      Table(seen, CallsOf(callers), ExitsOf(procExits))
    }

    /** What the finished analysis promises. */
    ghost predicate Complete()
      reads this
    {
      && LeastClosed(program, Result())
      && (frontiers == [] <==> FrontierFree(program, Result()))
      && (forall key :: (key in contexts <==> InContexts(program, Result(), key))
                        && (key in contexts ==> program.decode(key) == Some(contexts[key])))
    }

    /** Nothing is queued any more: what has been found is what has been served. */
    lemma Finished()
      requires Consistent() && q == []
      ensures Complete()
    {
      hide Transfer, Progress, LeastClosed;
      assert queued == {} && seen + queued == seen;
      assert Found() == Result();
      ProgressCloses(program, Result());
    }

    /** One pass of the loop. */
    method Iterate()
      requires Consistent() && q != []
      modifies this`q, this`queued, this`seen, this`callers, this`procExits, this`contexts, this`frontiers
      ensures Consistent() && seen == old(seen) + {old(q[0])}
      ensures old(q[0]) in old(seen) ==> |q| < |old(q)|
    {
      hide Progress, FrontiersExact, ContextsExact;
      if q[0] in seen {
        Skip();
      } else {
        Turn(q[0]);
      }
    }

    /** The whole analysis, for a program whose PHP nesting is bounded. */
    method Run(ghost depth: nat)
      requires Fresh() && InRange(program) && NestsWithin(program, depth)
      modifies this
      ensures Complete()
    {
      hide Progress, FrontiersExact, ContextsExact, LeastClosed, FrontierFree, InContexts, InRange, NestsWithin,
           Universe;
      Start();
      while q != []
        invariant Consistent()
        decreases |Universe(depth) - seen|, |q|
      {
        FoundIsDerived(program, seen, Found(), q[0]);
        NestedIn(program, depth, q[0]);
        if q[0] !in seen {
          UniverseShrinks(program, depth, seen, Found(), q[0]);
        } else {
          assert seen + {q[0]} == seen;
        }
        Iterate();
      }
      Finished();
    }

    /** The same loop cut off below a depth.  It ends on every program and at every depth, either complete or
        with a derived state that nests deeper; so it is complete exactly when the nesting stays within. */
    method RunWithin(depth: nat) returns (deep: Option<State>)
      requires Fresh() && InRange(program)
      modifies this
      ensures deep.Some? ==> Derived(program, deep.value) && |deep.value.pstack| > depth
      ensures deep.None? ==> Complete()
      ensures deep.None? <==> NestsWithin(program, depth)
    {
      hide Progress, FrontiersExact, ContextsExact, LeastClosed, FrontierFree, InContexts, InRange, Universe, Derived;
      Start();
      while q != []
        invariant Consistent()
        invariant forall st :: st in seen ==> |st.pstack| <= depth
        decreases |Universe(depth) - seen|, |q|
      {
        if |q[0].pstack| > depth {
          FoundIsDerived(program, seen, Found(), q[0]);
          return Some(q[0]);
        }
        if q[0] !in seen {
          UniverseShrinks(program, depth, seen, Found(), q[0]);
        } else {
          assert seen + {q[0]} == seen;
        }
        Iterate();
      }
      Finished();
      LeastIsClosed(program, Result());
      ShallowResult(program, Result(), depth);
      deep := None;
    }
  }

  lemma LeastIsClosed(p: Program, t: Table)
    requires LeastClosed(p, t)
    ensures Closed(p, t)
  {
  }

  lemma NestedIn(p: Program, depth: nat, st: State)
    requires NestsWithin(p, depth) && Derived(p, st)
    ensures |st.pstack| <= depth
  {
  }

  /** The least closed table is unique, so the order of service cannot matter. */
  lemma LeastIsUnique(p: Program, a: Table, b: Table)
    requires LeastClosed(p, a) && LeastClosed(p, b)
    ensures a == b
  {
    ClosedWidens(p, a);
    ClosedWidens(p, b);
    assert Within(a, Widen(b)) && Within(b, Widen(a));
    assert Included(a, b) && Included(b, a);
    assert a == Table(a.seen, a.calls, a.exits);
  }
}
