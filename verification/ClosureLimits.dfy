/** Where the analysis stops short: three small programs, each worked out in full. */
module ClosureLimits {
  import opened Options
  import opened ClosureModel
  import opened ClosureBounds
  import opened ClosureSoundness

  const HANDLER: nat := 0xF000

  function Plain(m: Mnemonic, length: nat, operand: nat): Option<Inst> {
    Some(Inst(m, if m.JSR? then Abs else OtherMode, length, operand, []))
  }

  const ROOT: Proc := Proc(0, 0x8000, true, true, true, None, RootKind)

  ghost function Handlers(): set<State> {
    HandlerEntries(HANDLER)
  }

  function Make(decode: RuntimeKey -> Option<Inst>): Program {
    Program(decode, map[], 0x8000, HANDLER, HANDLER, HANDLER, HANDLER)
  }

  /** The handlers of these programs return at once. */
  lemma HandlerFlow(p: Program, st: State)
    requires st in Handlers()
    requires forall key: RuntimeKey :: key.pc == HANDLER ==> p.decode(key) == Plain(RTI, 1, 0)
    ensures Transfer(p, st) == Flow({})
  {
    assert KeyOf(st.cpu).pc == HANDLER;
    assert StatusAfter(st.cpu, [], p.decode(KeyOf(st.cpu)).value) == Status(st.cpu, []);
  }

  // ----- PHP in a loop: no finite closed table exists, so the worklist cannot stop -----

  function PhpLoopCode(key: RuntimeKey): Option<Inst> {
    if key.pc == 0x8000 then Plain(PHP, 1, 0)
    else if key.pc == 0x8001 then Plain(BRA, 2, 0x8000)
    else Plain(RTI, 1, 0)
  }

  function PhpLoop(): Program {
    Make(PhpLoopCode)
  }

  function Pushed(n: nat): seq<SavedP> {
    if n == 0 then [] else Pushed(n - 1) + [SavedP(true, true, None)]
  }

  function LoopHead(n: nat): State {
    State(ROOT, Cpu(0, 0x8000, true, true, true, None), Pushed(n))
  }

  function LoopTail(n: nat): State {
    State(ROOT, Cpu(0, 0x8001, true, true, true, None), Pushed(n))
  }

  lemma {:induction false} PushedLength(n: nat)
    ensures |Pushed(n)| == n
  {
    if n > 0 { PushedLength(n - 1); }
  }

  lemma {:induction false} LoopUnwinds(t: Table, n: nat)
    requires Closed(PhpLoop(), t)
    ensures LoopHead(n) in t.seen
  {
    hide Transfer;
    var p := PhpLoop();
    if n == 0 {
      assert ResetEntry(p) == LoopHead(0) && ResetEntry(p) in Seeds(p);
    } else {
      LoopUnwinds(t, n - 1);
      LoopTurns(n - 1);
      assert Covers(t, Transfer(p, LoopHead(n - 1)));
      assert Covers(t, Transfer(p, LoopTail(n)));
    }
  }

  lemma LoopTurns(n: nat)
    ensures Transfer(PhpLoop(), LoopHead(n)) == Flow({LoopTail(n + 1)})
    ensures Transfer(PhpLoop(), LoopTail(n)) == Flow({LoopHead(n)})
    ensures Transfer(PhpLoop(), LoopTail(n + 1)) == Flow({LoopHead(n + 1)})
  {
    hide Transfer;
    LoopTurn(n);
    LoopTurn(n + 1);
  }

  lemma LoopTurn(n: nat)
    ensures Transfer(PhpLoop(), LoopHead(n)) == Flow({LoopTail(n + 1)})
    ensures Transfer(PhpLoop(), LoopTail(n)) == Flow({LoopHead(n)})
  {
  }

  lemma {:induction false} ManyHeads(t: Table, n: nat) returns (heads: set<State>)
    requires Closed(PhpLoop(), t)
    ensures heads <= t.seen && |heads| == n
    ensures forall st :: st in heads ==> |st.pstack| < n
  {
    hide Closed, Pushed;
    if n == 0 {
      heads := {};
    } else {
      var fewer := ManyHeads(t, n - 1);
      LoopUnwinds(t, n - 1);
      PushedLength(n - 1);
      heads := fewer + {LoopHead(n - 1)};
    }
  }

  lemma {:induction false} SubsetSize(a: set<State>, b: set<State>)
    requires a <= b
    ensures |a| <= |b|
  {
    if a != {} {
      var x :| x in a;
      SubsetSize(a - {x}, b - {x});
    }
  }

  /** A PHP in a loop defeats every finite table: the search space is not finite without a bound on nesting. */
  lemma PhpLoopHasNoClosedTable(t: Table)
    ensures !Closed(PhpLoop(), t)
  {
    if Closed(PhpLoop(), t) {
      var heads := ManyHeads(t, |t.seen| + 1);
      SubsetSize(heads, t.seen);
      assert false;
    }
  }

  /** So its nesting has no bound either, and the search cut off at any depth finds a deeper state. */
  lemma PhpLoopNestsWithoutBound(depth: nat)
    ensures !NestsWithin(PhpLoop(), depth)
  {
    hide Closed, NestsWithin;
    if NestsWithin(PhpLoop(), depth) {
      FiniteExactly(PhpLoop());
      var t :| Closed(PhpLoop(), t);
      PhpLoopHasNoClosedTable(t);
    }
  }

  // ----- ROR keeps its carry in the analysis but not in the processor -----

  function RorCode(key: RuntimeKey): Option<Inst> {
    if key.pc == 0x8000 then Plain(CLC, 1, 0)
    else if key.pc == 0x8001 then Plain(ROR, 1, 0)
    else if key.pc == 0x8002 then Plain(XCE, 1, 0)
    else if key.pc == 0x8003 then Plain(STP, 1, 0)
    else Plain(RTI, 1, 0)
  }

  function RorProgram(): Program {
    Make(RorCode)
  }

  function RorState(pc: nat, e: bool, carry: Option<bool>): State {
    State(ROOT, Cpu(0, pc, e, true, true, carry), [])
  }

  ghost function RorTable(): Table {
    Table({RorState(0x8000, true, None), RorState(0x8001, true, Some(false)),
           RorState(0x8002, true, Some(false)), RorState(0x8003, false, Some(true))} + Handlers(), {}, {})
  }

  lemma RorFlow()
    ensures Transfer(RorProgram(), RorState(0x8000, true, None)) == Flow({RorState(0x8001, true, Some(false))})
    ensures Transfer(RorProgram(), RorState(0x8001, true, Some(false))) == Flow({RorState(0x8002, true, Some(false))})
  {
    var p := RorProgram();
    assert p.decode(RuntimeKey(0, 0x8000, true, true, true)) == Plain(CLC, 1, 0);
    assert p.decode(RuntimeKey(0, 0x8001, true, true, true)) == Plain(ROR, 1, 0);
  }

  lemma RorFlowOn()
    ensures Transfer(RorProgram(), RorState(0x8002, true, Some(false))) == Flow({RorState(0x8003, false, Some(true))})
    ensures Transfer(RorProgram(), RorState(0x8003, false, Some(true))) == Flow({})
  {
    var p := RorProgram();
    assert p.decode(RuntimeKey(0, 0x8002, true, true, true)) == Plain(XCE, 1, 0);
    assert p.decode(RuntimeKey(0, 0x8003, false, true, true)) == Plain(STP, 1, 0);
  }

  lemma RorTableIsLeast()
    ensures LeastClosed(RorProgram(), RorTable()) && FrontierFree(RorProgram(), RorTable())
  {
    hide Transfer;
    RorFlow();
    RorFlowOn();
    var p := RorProgram();
    forall st | st in Handlers() ensures Transfer(p, st) == Flow({}) {
      HandlerFlow(p, st);
    }
    forall w: Wide | WideClosed(p, w) ensures Within(RorTable(), w) {
      assert ResetEntry(p) == RorState(0x8000, true, None);
      assert Within(Contribution(Transfer(p, RorState(0x8000, true, None))), w);
      assert Within(Contribution(Transfer(p, RorState(0x8001, true, Some(false)))), w);
      assert Within(Contribution(Transfer(p, RorState(0x8002, true, Some(false)))), w);
    }
  }

  function RorConfig(pc: nat, c: bool): Config {
    Config(Regs(0, pc, true, true, true, c), [])
  }

  function RorRun(): seq<Config> {
    [RorConfig(0x8000, false), RorConfig(0x8001, false), RorConfig(0x8002, true), RorConfig(0x8003, true)]
  }

  function RorEvents(): seq<Event> {
    var go := Execute(true, false, Site(0, 0));
    [go, go, go]
  }

  lemma RorFirst()
    ensures Step(RorProgram(), Hardware(true, false), RorConfig(0x8000, false), RorEvents()[0])
            == Next(RorConfig(0x8001, false))
  {
    assert RorProgram().decode(RuntimeKey(0, 0x8000, true, true, true)) == Plain(CLC, 1, 0);
  }

  lemma RorSecond()
    ensures Step(RorProgram(), Hardware(true, false), RorConfig(0x8001, false), RorEvents()[1])
            == Next(RorConfig(0x8002, true))
  {
    assert RorProgram().decode(RuntimeKey(0, 0x8001, true, true, true)) == Plain(ROR, 1, 0);
  }

  lemma RorThird()
    ensures Step(RorProgram(), Hardware(true, false), RorConfig(0x8002, true), RorEvents()[2])
            == Next(RorConfig(0x8003, true))
  {
    assert RorProgram().decode(RuntimeKey(0, 0x8002, true, true, true)) == Plain(XCE, 1, 0);
  }

  lemma RorSteps()
    ensures IsRun(RorProgram(), Hardware(true, false), RorRun(), RorEvents())
  {
    hide Step;
    RorFirst();
    RorSecond();
    RorThird();
  }

  /** CLC; ROR; XCE on a processor whose ROR writes carry reaches an emulation-mode context that the
      analysis, finished and free of frontiers, never emitted. */
  lemma RorEscapes()
    ensures LeastClosed(RorProgram(), RorTable()) && FrontierFree(RorProgram(), RorTable())
    ensures IsRun(RorProgram(), Hardware(true, false), RorRun(), RorEvents())
    ensures !InContexts(RorProgram(), RorTable(), RegsKey(RorRun()[3].cpu))
  {
    hide Transfer;
    RorTableIsLeast();
    RorSteps();
    forall st | st in RorTable().seen ensures KeyOf(st.cpu) != RuntimeKey(0, 0x8003, true, true, true) {
    }
  }

  // ----- the same gap where nothing looks at the carry -----

  function IdleCode(key: RuntimeKey): Option<Inst> {
    if key.pc == 0x8000 then Plain(CLC, 1, 0)
    else if key.pc == 0x8001 then Plain(ROR, 1, 0)
    else if key.pc == 0x8002 then Plain(STP, 1, 0)
    else Plain(RTI, 1, 0)
  }

  function IdleProgram(): Program {
    Make(IdleCode)
  }

  ghost function IdleTable(): Table {
    Table({RorState(0x8000, true, None), RorState(0x8001, true, Some(false)),
           RorState(0x8002, true, Some(false))} + Handlers(), {}, {})
  }

  ghost function IdleWider(): Table {
    IdleTable().(seen := IdleTable().seen + {RorState(0x8002, true, None)})
  }

  lemma IdleFlow()
    ensures Transfer(IdleProgram(), RorState(0x8000, true, None)) == Flow({RorState(0x8001, true, Some(false))})
    ensures Transfer(IdleProgram(), RorState(0x8001, true, Some(false))) == Flow({RorState(0x8002, true, Some(false))})
  {
    var p := IdleProgram();
    assert p.decode(RuntimeKey(0, 0x8000, true, true, true)) == Plain(CLC, 1, 0);
    assert p.decode(RuntimeKey(0, 0x8001, true, true, true)) == Plain(ROR, 1, 0);
  }

  lemma IdleFlowOn()
    ensures forall c :: Transfer(IdleProgram(), RorState(0x8002, true, c)) == Flow({})
  {
    assert IdleProgram().decode(RuntimeKey(0, 0x8002, true, true, true)) == Plain(STP, 1, 0);
  }

  lemma IdleTablesAreClosed()
    ensures LeastClosed(IdleProgram(), IdleTable()) && FrontierFree(IdleProgram(), IdleTable())
    ensures Closed(IdleProgram(), IdleWider()) && FrontierFree(IdleProgram(), IdleWider())
  {
    hide Transfer;
    IdleFlow();
    IdleFlowOn();
    var p := IdleProgram();
    forall st | st in Handlers() ensures Transfer(p, st) == Flow({}) {
      HandlerFlow(p, st);
    }
    forall w: Wide | WideClosed(p, w) ensures Within(IdleTable(), w) {
      assert ResetEntry(p) == RorState(0x8000, true, None);
      assert Within(Contribution(Transfer(p, RorState(0x8000, true, None))), w);
      assert Within(Contribution(Transfer(p, RorState(0x8001, true, Some(false)))), w);
    }
  }

  /** CLC; ROR; STP: the result does not answer for the carry that the processor may leave, but a wider
      closed table with the same contexts does, so no run escapes. */
  lemma RorHarmless(run: seq<Config>, events: seq<Event>, n: nat, ev: Event)
    ensures !Suits(IdleProgram(), Hardware(true, true), IdleTable())
    ensures IsRun(IdleProgram(), Hardware(true, true), run, events) && n < |run|
            ==> InContexts(IdleProgram(), IdleTable(), RegsKey(run[n].cpu))
                && !Step(IdleProgram(), Hardware(true, true), run[n], ev).Broken?
  {
    hide Transfer, Step;
    var p, hw := IdleProgram(), Hardware(true, true);
    IdleTablesAreClosed();
    var st := RorState(0x8001, true, Some(false));
    var next := AfterRor(st, p.decode(KeyOf(st.cpu)).value);
    assert next == RorState(0x8002, true, None);
    assert !HeldWith(IdleTable(), next, Some(true)) && !HeldWith(IdleTable(), next, None);
    assert !Held(IdleTable(), next);
    IdleWiderSuits();
    if IsRun(p, hw, run, events) && n < |run| {
      forall key | InContexts(p, IdleWider(), key) ensures InContexts(p, IdleTable(), key) {
        var s :| s in IdleWider().seen && KeyOf(s.cpu) == key;
        assert KeyOf(RorState(0x8002, true, None).cpu) == KeyOf(RorState(0x8002, true, Some(false)).cpu);
      }
      SoundThroughWider(p, hw, IdleTable(), IdleWider(), run, events, n, ev);
    }
  }

  /** Its one ROR, and no RTS. */
  lemma IdleInstructions(st: State)
    requires st in IdleWider().seen
    ensures IsAt(IdleProgram(), st, ROR) ==> st == RorState(0x8001, true, Some(false))
    ensures !IsAt(IdleProgram(), st, RTS)
  {
    hide Transfer, RorState;
    if st in Handlers() {
      assert KeyOf(st.cpu).pc == HANDLER;
    } else {
      assert forall pc, c :: RorState(pc, true, c).cpu.pc == pc by { RorStatePc(); }
    }
  }

  lemma RorStatePc()
    ensures forall pc, c :: RorState(pc, true, c).cpu.pc == pc
  {
  }

  lemma IdleWiderSuits()
    ensures Suits(IdleProgram(), Hardware(true, true), IdleWider())
  {
    hide Transfer, Held, Handlers, RorState, IdleCode;
    var p, t := IdleProgram(), IdleWider();
    forall st | st in t.seen
      ensures !IsAt(p, st, RTS)
      ensures IsAt(p, st, ROR) ==> Held(t, AfterRor(st, p.decode(KeyOf(st.cpu)).value))
    {
      IdleInstructions(st);
      if IsAt(p, st, ROR) {
        AfterIdleRor();
        SeenHeld(t, RorState(0x8002, true, None));
      }
    }
  }

  lemma AfterIdleRor()
    ensures var st := RorState(0x8001, true, Some(false));
            IsAt(IdleProgram(), st, ROR)
            && AfterRor(st, IdleProgram().decode(KeyOf(st.cpu)).value) == RorState(0x8002, true, None)
  {
  }

  // ----- RTS in another bank than its JSR -----

  function BankCode(key: RuntimeKey): Option<Inst> {
    if key.pc == 0x8000 then Plain(JSR, 3, 0x9000)
    else if key.pc == 0x9000 then Plain(JML, 4, 0x1A000)
    else if key.pc == 0xA000 then Plain(RTS, 1, 0)
    else if key.pc == 0x8003 then Plain(STP, 1, 0)
    else Plain(RTI, 1, 0)
  }

  function BankProgram(): Program {
    Make(BankCode)
  }

  const LEAF: Proc := Proc(0, 0x9000, true, true, true, None, RtsKind)

  function BankState(proc: Proc, bank: nat, pc: nat): State {
    State(proc, Cpu(bank, pc, true, true, true, None), [])
  }

  const BANK_CALL: Call := Call(LEAF, Continuation(ROOT, 0, 0x8003, []))
  const BANK_EXIT: ExitFact := ExitFact(LEAF, Exit(true, true, true, None))

  ghost function BankTable(): Table {
    Table({BankState(ROOT, 0, 0x8000), BankState(LEAF, 0, 0x9000), BankState(LEAF, 1, 0xA000),
           BankState(ROOT, 0, 0x8003)} + Handlers(), {BANK_CALL}, {BANK_EXIT})
  }

  lemma BankFlow()
    ensures Transfer(BankProgram(), BankState(ROOT, 0, 0x8000)) == Effect({}, {BANK_CALL}, {}, None)
    ensures Transfer(BankProgram(), BankState(LEAF, 0, 0x9000)) == Flow({BankState(LEAF, 1, 0xA000)})
  {
    var p := BankProgram();
    assert p.decode(RuntimeKey(0, 0x8000, true, true, true)) == Plain(JSR, 3, 0x9000);
    assert p.decode(RuntimeKey(0, 0x9000, true, true, true)) == Plain(JML, 4, 0x1A000);
  }

  lemma BankFlowOn()
    ensures Transfer(BankProgram(), BankState(LEAF, 1, 0xA000)) == Effect({}, {}, {BANK_EXIT}, None)
    ensures Transfer(BankProgram(), BankState(ROOT, 0, 0x8003)) == Flow({})
  {
    var p := BankProgram();
    assert p.decode(RuntimeKey(1, 0xA000, true, true, true)) == Plain(RTS, 1, 0);
    assert p.decode(RuntimeKey(0, 0x8003, true, true, true)) == Plain(STP, 1, 0);
  }

  lemma BankTableIsLeast()
    ensures LeastClosed(BankProgram(), BankTable()) && FrontierFree(BankProgram(), BankTable())
  {
    hide Transfer;
    BankFlow();
    BankFlowOn();
    var p := BankProgram();
    forall st | st in Handlers() ensures Transfer(p, st) == Flow({}) {
      HandlerFlow(p, st);
    }
    assert Entry(LEAF) == BankState(LEAF, 0, 0x9000);
    assert Return(BANK_CALL.cont, BANK_EXIT.exit) == BankState(ROOT, 0, 0x8003);
    forall w: Wide | WideClosed(p, w) ensures Within(BankTable(), w) {
      assert ResetEntry(p) == BankState(ROOT, 0, 0x8000);
      assert Within(Contribution(Transfer(p, BankState(ROOT, 0, 0x8000))), w);
      assert Within(Contribution(Transfer(p, BankState(LEAF, 0, 0x9000))), w);
      assert Within(Contribution(Transfer(p, BankState(LEAF, 1, 0xA000))), w);
    }
  }

  function BankRun(): seq<Config> {
    var frame := [RetFrame(RtsKind, 0, 0x8003)];
    [Config(Regs(0, 0x8000, true, true, true, false), []),
     Config(Regs(0, 0x9000, true, true, true, false), frame),
     Config(Regs(1, 0xA000, true, true, true, false), frame),
     Config(Regs(1, 0x8003, true, true, true, false), [])]
  }

  lemma BankSteps()
    ensures IsRun(BankProgram(), Hardware(false, true), BankRun(), RorEvents())
  {
    var p, hw := BankProgram(), Hardware(false, true);
    var run := BankRun();
    assert Step(p, hw, run[0], RorEvents()[0]) == Next(run[1]);
    assert Step(p, hw, run[1], RorEvents()[1]) == Next(run[2]);
    assert Step(p, hw, run[2], RorEvents()[2]) == Next(run[3]);
  }

  /** JSR; JML to bank 1; RTS on a processor whose RTS keeps PBR returns into bank 1, which was not emitted. */
  lemma RtsEscapes()
    ensures LeastClosed(BankProgram(), BankTable()) && FrontierFree(BankProgram(), BankTable())
    ensures IsRun(BankProgram(), Hardware(false, true), BankRun(), RorEvents())
    ensures !InContexts(BankProgram(), BankTable(), RegsKey(BankRun()[3].cpu))
  {
    BankTableIsLeast();
    BankSteps();
    forall st | st in BankTable().seen ensures KeyOf(st.cpu) != RuntimeKey(1, 0x8003, true, true, true) {
    }
  }
}
