/** Why the names must be free, by example. A program with a variable called like the counter: the pass
    reports no block although one was run, and changes the program's variable. A program with a function
    called like the handler: nothing is reported. A program that calls a function of that name which it
    only declares: the call reaches the report instead. */
module Clash {
  import opened Wrappers
  import opened Types
  import opened IR
  import opened Machine
  import opened CountBB
  import opened Simulation
  import opened Counting
  import opened Exit
  import opened Pass
  import opened DeclaredHandler

  const TAKEN := GlobalA(COUNTER)
  const SPARE := COUNTER + ".1"
  const MAIN_SIG := Sig([], IntT(32), false)

  function Ret0(): Instr {
    Ret(Some(Const(IntV(0))))
  }

  /** A main that only returns 0. */
  function SmallMain(): Fn {
    Fn("main", MAIN_SIG, [[Ret0()]], 0)
  }

  /** ... beside a variable that happens to be called like the counter. */
  function Unlucky(): Module {
    Module(map[COUNTER := GlobalVar(IntV(7), false)], [SmallMain()])
  }

  /** ... beside a function that happens to be called like the handler. */
  function Guarded(): Module {
    Module(map[], [SmallMain(), Fn(HANDLER, HANDLER_SIG, [[Ret(None)]], 0)])
  }

  /** A main that calls an external function of the handler's name. */
  function Caller(): Module {
    Module(map[], [Fn("main", MAIN_SIG, [[Call(0, Const(FnV(HANDLER)), []), Ret0()]], 1),
                   Fn(HANDLER, HANDLER_SIG, [], 0)])
  }

  /** What the pass makes of the small main. */
  function MainCode(): seq<Instr> {
    [AtexitCall(0)] + Increment(COUNTER, 1) + [Ret0()]
  }

  predicate SmallResult(t: Module) {
    Lookup(t, "main") == Some(Fn("main", MAIN_SIG, [MainCode()], 3)) && DeclaredAs(t, "atexit", ATEXIT_SIG)
    && DeclaredAs(t, "printf", PRINTF_SIG)
  }

  lemma ResultMain(m: Module, c: string)
    requires Accepted(m) && Lookup(m, "main") == Some(SmallMain())
    requires Lookup(m, "atexit").None? && Lookup(m, "printf").None?
    ensures MapFn(AfterSetup(m, c, "main")) == Some(Fn("main", MAIN_SIG, [MainCode()], 3))
    ensures MapFn(AfterSetup(m, c, "atexit")) == Some(Fn("atexit", ATEXIT_SIG, [], 0))
    ensures MapFn(AfterSetup(m, c, "printf")) == Some(Fn("printf", PRINTF_SIG, [], 0))
  {
    EmptyStays(Fn("atexit", ATEXIT_SIG, [], 0));
    EmptyStays(Fn("printf", PRINTF_SIG, [], 0));
    var p := PrependCall(SmallMain());
    assert p.blocks == [[AtexitCall(0)] + [Ret0()]];
    assert InstrBlock(p.blocks[0], COUNTER, 1) == MainCode() by {
      assert p.blocks[0][..1] == [AtexitCall(0)] && p.blocks[0][1..] == [Ret0()];
    }
    assert InstrFn(p, COUNTER).blocks == [MainCode()];
  }

  lemma EmptyStays(f: Fn)
    requires f.blocks == []
    ensures InstrOne(f) == f
  {
    assert InstrFn(f, COUNTER).blocks == [];
  }

  lemma ResultSmall(m: Module, suffix: string)
    requires Accepted(m) && Lookup(m, "main") == Some(SmallMain())
    requires Lookup(m, "atexit").None? && Lookup(m, "printf").None?
    ensures Instrument(m, suffix).Ok? && SmallResult(Instrument(m, suffix).value)
  {
    hide Accepted, Instrument, AfterSetup, InstrOne, MainCode;
    ResultLookup(m, suffix, "main");
    ResultLookup(m, suffix, "atexit");
    ResultLookup(m, suffix, "printf");
    ResultMain(m, CounterName(m, suffix));
  }

  // ---------- the first steps of the instrumented small main ----------

  function MainFrame(ip: nat, regs: map<nat, Val>): Frame {
    Frame("main", 0, ip, [], regs, None)
  }

  /** The state after `k` steps, up to the exit, when the variable that is incremented starts at `w`. */
  function At(k: nat, mem: map<Addr, Val>, w: Word): State
    requires k <= 5
  {
    var s := State([MainFrame(k, map[])], mem, 0, [HANDLER], [], 0, [("main", 0)], Running);
    var v := IntV((w + 1) % WORDS);
    match k
    case 0 => s.(handlers := [])
    case 1 => s.(frames := [MainFrame(1, map[0 := IntV(0)])])
    case 2 => s.(frames := [MainFrame(2, map[0 := IntV(0), 1 := IntV(w)])])
    case 3 => s.(frames := [MainFrame(3, map[0 := IntV(0), 1 := IntV(w), 2 := v])])
    case 4 => s.(frames := [MainFrame(4, map[0 := IntV(0), 1 := IntV(w), 2 := v])], mem := mem[TAKEN := v])
    case 5 => s.(frames := [], mem := mem[TAKEN := v], phase := Exiting(0, 0))
  }

  predicate Holds(mem: map<Addr, Val>, w: Word) {
    TAKEN in mem && mem[TAKEN] == IntV(w)
  }

  lemma FetchMain(t: Module, mem: map<Addr, Val>, w: Word, k: nat)
    requires SmallResult(t) && k < 5
    ensures At(k, mem, w).frames != [] && Fetch(t, Top(At(k, mem, w))) == Some(MainCode()[k])
  {
  }

  lemma CountStep(t: Module, env: Env, mem: map<Addr, Val>, w: Word, k: nat)
    requires SmallResult(t) && Holds(mem, w) && 1 <= k < 4
    ensures Step(t, env, At(k, mem, w)) == At(k + 1, mem, w)
  {
    hide Step, SmallResult;
    FetchMain(t, mem, w, k);
    var s, r := At(k, mem, w), At(k + 1, mem, w);
    var i := MainCode()[k];
    var e := Effect(Top(r).regs, r.mem, 0);
    var v := IntV((w + 1) % WORDS);
    if k == 1 {
      assert map[0 := IntV(0)][1 := IntV(w)] == e.regs;
    } else if k == 2 {
      assert map[0 := IntV(0), 1 := IntV(w)][2 := v] == e.regs;
    }
    assert Local(Top(s), s.mem, s.cells, i) == Some(e);
    InsertedStep(t, env, s, i);
  }

  lemma MainStep(t: Module, env: Env, mem: map<Addr, Val>, w: Word, k: nat)
    requires SmallResult(t) && Holds(mem, w) && k < 5
    ensures Step(t, env, At(k, mem, w)) == At(k + 1, mem, w)
  {
    if k == 0 {
      FetchMain(t, mem, w, 0);
      AtexitStep(t, env, At(0, mem, w), 0);
      assert map[][0 := IntV(0)] == map[0 := IntV(0)];
    } else if k < 4 {
      CountStep(t, env, mem, w, k);
    } else {
      FetchMain(t, mem, w, 4);
    }
  }

  lemma {:induction false} MainRun(t: Module, env: Env, mem: map<Addr, Val>, w: Word, k: nat)
    requires SmallResult(t) && Holds(mem, w) && k <= 5
    ensures Run(t, env, At(0, mem, w), k) == At(k, mem, w)
  {
    hide Step, At, SmallResult;
    if k > 0 {
      MainRun(t, env, mem, w, k - 1);
      MainStep(t, env, mem, w, k - 1);
    }
  }

  lemma RunOne(t: Module, env: Env, s: State)
    ensures Run(t, env, s, 1) == Step(t, env, s)
  {
    assert Run(t, env, s, 1) == Step(t, env, Run(t, env, s, 0));
  }

  /** No handler is left. */
  lemma ExitDone(t: Module, env: Env, s: State)
    requires s.frames == [] && s.phase == Exiting(0, 0) && s.handlers == []
    ensures Step(t, env, s) == s.(phase := Done(0))
  {
    hide Invoke, StepFrame;
  }

  lemma SmallReturn(m: Module, env: Env, s: State)
    requires Lookup(m, "main") == Some(SmallMain())
    requires s.frames == [Frame("main", 0, 0, [], map[], None)] && s.phase == Running
    ensures Step(m, env, s) == s.(frames := [], phase := Exiting(0, 0))
  {
    hide CallStep, BranchStep, LocalStep, StepExit;
    assert Fetch(m, Top(s)) == Some(Ret0());
    assert Eval(Top(s), Const(IntV(0))) == Some(IntV(0));
  }

  lemma SmallInit(m: Module)
    requires Lookup(m, "main") == Some(SmallMain())
    ensures var s := Init(m, []);
      s.frames == [Frame("main", 0, 0, [], map[], None)] && s.phase == Running && s.handlers == [] && |s.log| == 1
  {
    hide InitMem;
  }

  /** The original programs with the small main complete one block and return 0. */
  lemma SmallPlain(m: Module, env: Env)
    requires Lookup(m, "main") == Some(SmallMain())
    ensures Run(m, env, Init(m, []), 2) == Init(m, []).(frames := [], phase := Done(0))
    ensures Completed(Run(m, env, Init(m, []), 2)) == 1
  {
    hide Step, Run, Init;
    var s := Init(m, []);
    SmallInit(m);
    SmallReturn(m, env, s);
    RunCompose(m, env, s, 1, 1);
    RunOne(m, env, s);
    ExitDone(m, env, s.(frames := [], phase := Exiting(0, 0)));
    RunOne(m, env, s.(frames := [], phase := Exiting(0, 0)));
  }

  // ---------- a variable called like the counter ----------

  lemma UnluckyOk()
    ensures ModuleOk(Unlucky()) && Accepted(Unlucky())
    ensures Lookup(Unlucky(), "main") == Some(SmallMain())
    ensures forall n :: n != "main" ==> Lookup(Unlucky(), n) == None
  {
    var m := Unlucky();
    assert Operands(Ret0()) == [Const(IntV(0))];
    assert FnOk(m, SmallMain());
    hide FnOk;
    forall n | n != "main" ensures LookupIn(m.funcs, n) == None { assert m.funcs[1..] == []; }
  }

  lemma UnluckyResult(t: Module)
    requires Instrument(Unlucky(), ".1") == Ok(t)
    ensures SmallResult(t) && Lookup(t, HANDLER) == Some(ReportOf(SPARE))
    ensures InitMem(t) == map[TAKEN := IntV(7), GlobalA(SPARE) := IntV(0)]
  {
    hide Instrument, AfterSetup, Accepted, SmallResult, ModuleIn;
    UnluckyOk();
    ResultSmall(Unlucky(), ".1");
    ResultLookup(Unlucky(), ".1", HANDLER);
    AfterHandler(Unlucky(), SPARE);
    assert HandlerBefore(Unlucky()) == HandlerDecl();
    assert AppendReport(HandlerDecl(), SPARE).blocks == [ReportBlock(SPARE, 0)];
    assert t.globals == map[COUNTER := GlobalVar(IntV(7), false), SPARE := GlobalVar(IntV(0), false)];
  }

  lemma DueAt(t: Module, env: Env, mem: map<Addr, Val>)
    requires Lookup(t, HANDLER) == Some(ReportOf(SPARE)) && DeclaredAs(t, "printf", PRINTF_SIG)
    requires mem == map[TAKEN := IntV(7), GlobalA(SPARE) := IntV(0)]
    ensures Due(t, At(5, mem, 7), SPARE, IntV(0)) && At(5, mem, 7).handlers != []
    ensures var r := Reporting(env, At(5, mem, 7), IntV(0), 4);
      r.trace == [Report(IntV(0))] && Holds(r.mem, 8) && Step(t, env, r) == r.(phase := Done(0))
  {
  }

  lemma UnluckyRun(t: Module, env: Env, mem: map<Addr, Val>)
    requires SmallResult(t) && Lookup(t, HANDLER) == Some(ReportOf(SPARE))
    requires mem == map[TAKEN := IntV(7), GlobalA(SPARE) := IntV(0)]
    ensures var r := Run(t, env, At(0, mem, 7), 10);
      r.phase == Done(0) && r.trace == [Report(IntV(0))] && Holds(r.mem, 8)
  {
    hide Step, At, Run, Reporting, Due, MainCode;
    DueAt(t, env, mem);
    MainRun(t, env, mem, 7, 5);
    ReportRun(t, env, At(5, mem, 7), SPARE, IntV(0), 4);
    RunCompose(t, env, At(0, mem, 7), 5, 4);
    RunCompose(t, env, At(0, mem, 7), 9, 1);
    RunOne(t, env, Reporting(env, At(5, mem, 7), IntV(0), 4));
  }

  /** The original completes one block and leaves its variable at 7; the instrumented program ends with
      the variable at 8 and a report of 0 blocks. */
  lemma UnluckyReport(env: Env)
    ensures Instrument(Unlucky(), ".1").Ok?
    ensures var s := Run(Unlucky(), env, Init(Unlucky(), []), 2);
      s.phase == Done(0) && Completed(s) == 1 && Holds(s.mem, 7)
    ensures var t := Instrument(Unlucky(), ".1").value;
      var r := Run(t, env, Init(t, []), 10);
      r.phase == Done(0) && r.trace == [Report(IntV(0))] && Holds(r.mem, 8)
  {
    hide Step, At, Run, Init, Instrument, Unlucky, InitMem, ModuleIn, Accepted, SmallResult, Completed;
    UnluckyOk();
    ResultSmall(Unlucky(), ".1");
    var t := Instrument(Unlucky(), ".1").value;
    SmallPlain(Unlucky(), env);
    UnluckyMem();
    UnluckyResult(t);
    var mem := InitMem(t);
    AtStart(t);
    UnluckyRun(t, env, mem);
  }

  lemma UnluckyMem()
    ensures Holds(Init(Unlucky(), []).mem, 7)
  {
    assert TAKEN in InitMem(Unlucky());
  }

  lemma AtStart(t: Module)
    requires SmallResult(t)
    ensures forall w :: Init(t, []) == At(0, InitMem(t), w)
  {
  }

  // ---------- a function called like the handler ----------

  lemma GuardedOk()
    ensures ModuleOk(Guarded()) && Accepted(Guarded()) && Defined(Guarded(), HANDLER)
    ensures Lookup(Guarded(), "main") == Some(SmallMain()) && Lookup(Guarded(), HANDLER) == Some(Guarded().funcs[1])
    ensures forall n :: n != "main" && n != HANDLER ==> Lookup(Guarded(), n) == None
  {
    var m := Guarded();
    SmallOk(m);
    BareReturnOk(m);
    hide FnOk, LookupIn;
    LookupTwo(m, m.funcs[0], m.funcs[1]);
  }

  lemma SmallOk(m: Module)
    ensures FnOk(m, SmallMain())
  {
    assert Operands(Ret0()) == [Const(IntV(0))];
  }

  lemma BareReturnOk(m: Module)
    ensures FnOk(m, Fn(HANDLER, HANDLER_SIG, [[Ret(None)]], 0)) && FnOk(m, Fn(HANDLER, HANDLER_SIG, [], 0))
  {
  }

  lemma LookupTwo(m: Module, f: Fn, g: Fn)
    requires m.funcs == [f, g] && f.name == "main" && g.name == HANDLER
    ensures Lookup(m, "main") == Some(f) && Lookup(m, HANDLER) == Some(g)
    ensures forall n :: n != "main" && n != HANDLER ==> Lookup(m, n) == None
  {
    assert m.funcs[1..] == [g] && m.funcs[1..][1..] == [];
    LookupAt(m.funcs, 1);
    forall n | n != "main" && n != HANDLER
      ensures LookupIn(m.funcs, n) == None
    {
      assert LookupIn(m.funcs[1..][1..], n) == None;
      assert LookupIn(m.funcs[1..], n) == None;
    }
  }

  lemma GuardedResult(t: Module)
    requires Instrument(Guarded(), ".1") == Ok(t)
    ensures SmallResult(t) && Lookup(t, HANDLER).Some?
    ensures Lookup(t, HANDLER).value == Fn(HANDLER, HANDLER_SIG, [[Ret(None)], ReportBlock(COUNTER, 0)], 2)
    ensures InitMem(t) == map[TAKEN := IntV(0)]
  {
    hide Instrument, AfterSetup, Accepted, SmallResult, ModuleIn;
    GuardedOk();
    ResultSmall(Guarded(), ".1");
    ResultLookup(Guarded(), ".1", HANDLER);
    AfterHandler(Guarded(), COUNTER);
    assert AppendReport(Guarded().funcs[1], COUNTER).blocks == [[Ret(None)], ReportBlock(COUNTER, 0)];
    assert t.globals == map[COUNTER := GlobalVar(IntV(0), false)];
  }

  /** The handler is called at exit ... */
  lemma HandlerEntry(t: Module, env: Env, s: State)
    requires Defined(t, HANDLER) && Lookup(t, HANDLER).value.sig == HANDLER_SIG
    requires s.frames == [] && s.phase == Exiting(0, 0) && s.handlers == [HANDLER]
    ensures Step(t, env, s) == s.(
      frames := [Frame(HANDLER, 0, 0, [], map[], None)], handlers := [], log := s.log + [(HANDLER, 0)])
  {
    hide External;
    assert s.handlers[..0] == [];
  }

  /** ... returns at once ... */
  lemma HandlerReturn(t: Module, env: Env, s: State)
    requires Defined(t, HANDLER) && Lookup(t, HANDLER).value.blocks[0] == [Ret(None)]
    requires s.frames == [Frame(HANDLER, 0, 0, [], map[], None)] && s.phase == Exiting(0, 0)
    ensures Step(t, env, s) == s.(frames := [])
  {
    hide CallStep, BranchStep, LocalStep, StepExit;
    assert Fetch(t, Top(s)) == Some(Ret(None)) && s.frames[..0] == [];
    assert RetStep(s, Ret(None)) == s.(frames := []);
  }

  lemma GuardedExit(t: Module, env: Env, s: State)
    requires Lookup(t, HANDLER) == Some(Fn(HANDLER, HANDLER_SIG, [[Ret(None)], ReportBlock(COUNTER, 0)], 2))
    requires s.frames == [] && s.phase == Exiting(0, 0) && s.handlers == [HANDLER]
    ensures Run(t, env, s, 3) == s.(handlers := [], log := s.log + [(HANDLER, 0)], phase := Done(0))
  {
    hide Step, Run, ReportBlock;
    var r := s.(handlers := [], log := s.log + [(HANDLER, 0)]);
    var q := r.(frames := [Frame(HANDLER, 0, 0, [], map[], None)]);
    HandlerEntry(t, env, s);
    HandlerReturn(t, env, q);
    ExitDone(t, env, r);
    RunOne(t, env, s);
    RunCompose(t, env, s, 1, 1);
    RunOne(t, env, q);
    RunCompose(t, env, s, 2, 1);
    RunOne(t, env, r);
  }

  lemma GuardedRun(t: Module, env: Env, mem: map<Addr, Val>)
    requires SmallResult(t) && Holds(mem, 0)
    requires Lookup(t, HANDLER) == Some(Fn(HANDLER, HANDLER_SIG, [[Ret(None)], ReportBlock(COUNTER, 0)], 2))
    ensures var r := Run(t, env, At(0, mem, 0), 8); r.phase == Done(0) && r.trace == [] && Holds(r.mem, 1)
  {
    hide Step, Run, SmallResult, MainCode;
    MainRun(t, env, mem, 0, 5);
    GuardedExit(t, env, At(5, mem, 0));
    RunCompose(t, env, At(0, mem, 0), 5, 3);
  }

  /** The original completes one block; the instrumented program completes it too, counts it, ends in the
      same way, and reports nothing. */
  lemma GuardedSilence(env: Env)
    ensures ModuleOk(Guarded()) && Defined(Guarded(), HANDLER) && Instrument(Guarded(), ".1").Ok?
    ensures var s := Run(Guarded(), env, Init(Guarded(), []), 2);
      s.phase == Done(0) && Completed(s) == 1
    ensures var t := Instrument(Guarded(), ".1").value;
      var r := Run(t, env, Init(t, []), 8);
      r.phase == Done(0) && r.trace == [] && Holds(r.mem, 1)
  {
    hide Step, At, Run, Init, Instrument, Guarded, InitMem, ModuleIn, Accepted, SmallResult, MainCode, Completed;
    GuardedOk();
    ResultSmall(Guarded(), ".1");
    var t := Instrument(Guarded(), ".1").value;
    SmallPlain(Guarded(), env);
    GuardedResult(t);
    var mem := InitMem(t);
    AtStart(t);
    GuardedRun(t, env, mem);
  }

  // ---------- a call to a declared function called like the handler ----------

  /** A function of one block that consists of a call and a return. */
  lemma CallerMainOk(m: Module, f: Fn, call: Instr, ret: Instr)
    requires f.blocks == [[call, ret]] && call.Call? && ret.Ret? && InstrOk(m, f, call) && InstrOk(m, f, ret)
    ensures FnOk(m, f)
  {
    hide InstrOk;
  }

  lemma CallerInstrs(m: Module, f: Fn)
    requires Lookup(m, HANDLER).Some? && f.next == 1
    ensures InstrOk(m, f, Call(0, Const(FnV(HANDLER)), [])) && InstrOk(m, f, Ret0())
  {
    assert Operands(Ret0()) == [Const(IntV(0))];
    assert Operands(Call(0, Const(FnV(HANDLER)), [])) == [Const(FnV(HANDLER))];
  }

  lemma CallerOk(m: Module)
    requires m == Caller()
    ensures ModuleOk(m) && Accepted(m)
    ensures Lookup(m, "main") == Some(m.funcs[0]) && Lookup(m, HANDLER) == Some(m.funcs[1])
  {
    LookupTwo(m, m.funcs[0], m.funcs[1]);
    hide LookupIn;
    CallerInstrs(m, m.funcs[0]);
    CallerMainOk(m, m.funcs[0], Call(0, Const(FnV(HANDLER)), []), Ret0());
    BareReturnOk(m);
    hide FnOk;
  }

  lemma CallerInit(m: Module)
    requires m == Caller() && Lookup(m, "main") == Some(m.funcs[0])
    ensures var s := Init(m, []);
      s.frames == [Frame("main", 0, 0, [], map[], None)] && s.phase == Running && s.trace == []
  {
    hide InitMem;
  }

  lemma CallerStep(m: Module, env: Env, s: State)
    requires m == Caller() && Lookup(m, "main") == Some(m.funcs[0]) && Lookup(m, HANDLER) == Some(m.funcs[1])
    requires s.frames == [Frame("main", 0, 0, [], map[], None)] && s.phase == Running && s.trace == []
    ensures Step(m, env, s).trace == [Event("main", HANDLER, [])]
  {
    var i := m.funcs[0].blocks[0][0];
    assert Fetch(m, Top(s)) == Some(i) && i == Call(0, Const(FnV(HANDLER)), []);
    hide Caller, Fetch, RetStep, BranchStep, LocalStep, StepExit;
    assert EvalAll(Top(s), i.args) == Some([]);
  }

  lemma CallerCalls(m: Module, env: Env)
    requires m == Caller()
    ensures Run(m, env, Init(m, []), 1).trace == [Event("main", HANDLER, [])]
  {
    hide Step, Init;
    CallerOk(m);
    CallerInit(m);
    CallerStep(m, env, Init(m, []));
    RunOne(m, env, Init(m, []));
  }

  /** The original calls the external function in its first step; the instrumented program shows the
      same events at no step. */
  lemma CallerApart(m: Module, env: Env, suffix: string, k: nat)
    requires m == Caller()
    ensures ModuleOk(m) && Accepted(m) && Instrument(m, suffix).Ok?
    ensures var s := Run(m, env, Init(m, []), 1);
      var t := Instrument(m, suffix).value;
      s.trace == [Event("main", HANDLER, [])] && Visible(Run(t, env, Init(t, []), k).trace) != s.trace
  {
    hide Instrument, Run, Init, Caller, ModuleIn, Accepted, Visible;
    CallerOk(m);
    CallerCalls(m, env);
    CalledApart(m, suffix, env, [], 1, k, Event("main", HANDLER, []));
  }
}
