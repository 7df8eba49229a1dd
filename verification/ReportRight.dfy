/** When the report is right: the handler is registered first and so reports last, and what it reports
    is the number of completed blocks exactly when the names were free. */
module ReportRight {
  import opened Wrappers
  import opened IR
  import opened Machine
  import opened CountBB
  import opened Invariant
  import opened Simulation
  import opened Counting
  import opened Exit
  import opened Theorems
  import opened ExitReport
  import opened Pass
  import opened SpareCounter
  import opened DeadReport
  import opened Pipeline

  // ---------- a report is made ----------

  /** The reporting block is the handler's entry, and main starts with the registration. */
  ghost predicate Registers(t: Module, x: string) {
    && Lookup(t, HANDLER) == Some(ReportOf(x))
    && DeclaredAs(t, "atexit", ATEXIT_SIG) && DeclaredAs(t, "printf", PRINTF_SIG)
    && Lookup(t, "main").Some?
    && Lookup(t, "main").value.blocks != [] && Lookup(t, "main").value.blocks[0] != []
    && exists id: nat :: Lookup(t, "main").value.blocks[0][0] == AtexitCall(id)
  }

  /** The handler has been called, and has printed unless it is just about to. */
  predicate Called(s: State) {
    && (HANDLER, 0) in s.log
    && (|| ReportCount(s.trace) > 0
        || (s.frames != [] && !AtExitBase(s) && !s.phase.Done?
            && Top(s).fn == HANDLER && Top(s).blk == 0 && Top(s).ip <= 1))
  }

  /** The frames that called exit are still there. */
  predicate Based(s: State) {
    s.phase.Exiting? ==> s.phase.base <= |s.frames|
  }

  /** The handler is still due as the last one of all, or has been called. */
  predicate Arranged(s: State) {
    && Based(s)
    && (s.phase.Done? ==> s.handlers == [])
    && ((s.handlers != [] && s.handlers[0] == HANDLER) || Called(s))
  }

  /** A step of the top frame takes nothing off the lists. */
  predicate Extends(s: State, r: State) {
    s.handlers <= r.handlers && s.trace <= r.trace && s.log <= r.log
  }

  lemma ExternalExtends(env: Env, s: State, caller: string, name: string, vals: seq<Val>, dest: Option<nat>)
    ensures Extends(s, External(env, s, caller, name, vals, dest))
    ensures s.phase.Done? || !External(env, s, caller, name, vals, dest).phase.Done?
    ensures Based(s) ==> Based(External(env, s, caller, name, vals, dest))
  {
  }

  lemma InvokeExtends(t: Module, env: Env, s: State, caller: string, name: string, vals: seq<Val>, dest: Option<nat>)
    ensures Extends(s, Invoke(t, env, s, caller, name, vals, dest))
    ensures s.phase.Done? || !Invoke(t, env, s, caller, name, vals, dest).phase.Done?
    ensures Based(s) ==> Based(Invoke(t, env, s, caller, name, vals, dest))
  {
    hide External;
    ExternalExtends(env, s, caller, name, vals, dest);
  }

  lemma FrameExtends(t: Module, env: Env, s: State)
    requires s.frames != []
    ensures Extends(s, StepFrame(t, env, s))
    ensures s.phase.Done? || !StepFrame(t, env, s).phase.Done?
    ensures Based(s) && !AtExitBase(s) ==> Based(StepFrame(t, env, s))
  {
    hide Invoke, Local, Jump, BranchTarget, EvalAll, Eval;
    if Fetch(t, Top(s)).Some? && Fetch(t, Top(s)).value.Call? {
      var i, f := Fetch(t, Top(s)).value, Top(s);
      var c, vals := Eval(f, i.callee), EvalAll(f, i.args);
      if c.Some? && c.value.FnV? && vals.Some? {
        InvokeExtends(t, env, SetTop(s, f.(ip := f.ip + 1)), f.fn, c.value.fn, vals.value, Some(i.id));
      }
    }
  }

  lemma {:induction false} CountGrows(a: seq<Event>, b: seq<Event>)
    requires a <= b
    ensures ReportCount(a) <= ReportCount(b)
  {
    if |a| < |b| {
      assert a <= b[..|b|-1];
      CountGrows(a, b[..|b|-1]);
    } else {
      assert a == b;
    }
  }

  /** The handler's next step when it has not printed yet. */
  lemma CalledStep(t: Module, x: string, env: Env, s: State)
    requires Registers(t, x) && s.frames != [] && !AtExitBase(s) && !s.phase.Done?
    requires Top(s).fn == HANDLER && Top(s).blk == 0 && Top(s).ip <= 1 && (HANDLER, 0) in s.log
    ensures var r := StepFrame(t, env, s); r.phase.Undef? || Called(r)
  {
    var f := Top(s);
    assert Fetch(t, f) == Some(ReportBlock(x, 0)[f.ip]);
    if f.ip == 1 {
      if Eval(f, Reg(0)).Some? {
        EvalAllTwo(f, Const(StrV(FORMAT)), Reg(0));
        PrintCounted(s.trace, Eval(f, Reg(0)).value);
      }
    }
  }

  lemma PrintCounted(tr: seq<Event>, v: Val)
    ensures ReportCount(tr + [Report(v)]) > 0
  {
    assert (tr + [Report(v)])[..|tr|] == tr;
  }

  lemma FrameArranged(t: Module, x: string, env: Env, s: State)
    requires Registers(t, x) && Arranged(s) && s.frames != [] && !AtExitBase(s) && !s.phase.Done?
    ensures StepFrame(t, env, s).phase.Undef? || Arranged(StepFrame(t, env, s))
  {
    hide StepFrame, Registers;
    FrameExtends(t, env, s);
    CountGrows(s.trace, StepFrame(t, env, s).trace);
    if Called(s) && ReportCount(s.trace) == 0 {
      CalledStep(t, x, env, s);
    }
  }

  lemma ExitArranged(t: Module, x: string, env: Env, s: State)
    requires Registers(t, x) && Arranged(s) && AtExitBase(s)
    ensures StepExit(t, env, s).phase.Undef? || Arranged(StepExit(t, env, s))
  {
    hide Invoke, Registers;
    if s.handlers != [] {
      var n := |s.handlers| - 1;
      var p := s.(handlers := s.handlers[..n]);
      if n == 0 && s.handlers[0] == HANDLER {
        HandlerEntered(t, x, env, p);
      } else {
        InvokeExtends(t, env, p, "", s.handlers[n], [], None);
        CountGrows(s.trace, Invoke(t, env, p, "", s.handlers[n], [], None).trace);
      }
    }
  }

  lemma HandlerEntered(t: Module, x: string, env: Env, p: State)
    requires Registers(t, x) && AtExitBase(p) && Based(p)
    ensures Arranged(Invoke(t, env, p, "", HANDLER, [], None))
  {
    var r := Invoke(t, env, p, "", HANDLER, [], None);
    assert r.log == p.log + [(HANDLER, 0)];
    assert r.frames == p.frames + [Frame(HANDLER, 0, 0, [], map[], None)];
  }

  lemma StuckArranged(s: State)
    requires Arranged(s) && !s.phase.Done?
    ensures Arranged(Stuck(s))
  {
  }

  lemma StepArranged(t: Module, x: string, env: Env, s: State)
    requires Registers(t, x) && Arranged(s)
    ensures Arranged(Step(t, env, s))
  {
    hide Arranged, Registers, StepFrame, StepExit;
    if !s.phase.Done? {
      StuckArranged(s);
      if AtExitBase(s) {
        ExitArranged(t, x, env, s);
      } else if s.frames != [] {
        FrameArranged(t, x, env, s);
      }
    }
  }

  /** The first step registers the handler. */
  lemma FirstArranged(t: Module, x: string, env: Env, args: seq<Val>)
    requires Registers(t, x) && |Lookup(t, "main").value.sig.params| == |args|
    ensures Arranged(Step(t, env, Init(t, args)))
  {
    hide Step, InitMem;
    var s := Init(t, args);
    var id: nat :| Lookup(t, "main").value.blocks[0][0] == AtexitCall(id);
    AtexitStep(t, env, s, id);
  }

  lemma {:induction false} RunArranged(t: Module, x: string, env: Env, args: seq<Val>, k: nat)
    requires Registers(t, x) && |Lookup(t, "main").value.sig.params| == |args| && k > 0
    ensures Arranged(Run(t, env, Init(t, args), k))
  {
    hide Step, Init, Arranged, Registers;
    if k == 1 {
      assert Run(t, env, Init(t, args), 1) == Step(t, env, Run(t, env, Init(t, args), 0));
      FirstArranged(t, x, env, args);
    } else {
      RunArranged(t, x, env, args, k - 1);
      StepArranged(t, x, env, Run(t, env, Init(t, args), k - 1));
    }
  }

  lemma DoneReported(t: Module, x: string, env: Env, args: seq<Val>, k: nat)
    requires Registers(t, x) && |Lookup(t, "main").value.sig.params| == |args|
    requires Run(t, env, Init(t, args), k).phase.Done?
    ensures var s := Run(t, env, Init(t, args), k); ReportCount(s.trace) > 0 && (HANDLER, 0) in s.log
  {
    hide Step, Init, Registers, Run;
    InitRuns(t, args) by { RegistersMain(t, x); }
    assert Run(t, env, Init(t, args), 0) == Init(t, args) by { RunNothing(t, env, Init(t, args)); }
    RunArranged(t, x, env, args, k);
  }

  lemma RunNothing(t: Module, env: Env, s: State)
    ensures Run(t, env, s, 0) == s
  {
  }

  lemma RegistersMain(t: Module, x: string)
    requires Registers(t, x)
    ensures Defined(t, "main")
  {
  }

  lemma InitRuns(t: Module, args: seq<Val>)
    requires Defined(t, "main") && |Lookup(t, "main").value.sig.params| == |args|
    ensures Init(t, args).phase == Running
  {
  }

  // ---------- the output of the pass ----------

  /** The library functions that the inserted code calls are not defined by the program. */
  predicate LibraryOnly(m: Module) {
    !Defined(m, "atexit") && !Defined(m, "printf")
  }

  lemma AcceptedRegisters(m: Module, suffix: string)
    requires ModuleOk(m) && Accepted(m) && LibraryOnly(m) && !Defined(m, HANDLER)
    ensures Instrument(m, suffix).Ok? && Registers(Instrument(m, suffix).value, CounterName(m, suffix))
  {
    hide ModuleIn, Instrument, AfterSetup, InstrOne, Accepted, PrependCall, AppendReport;
    var c := CounterName(m, suffix);
    ResultLookup(m, suffix, HANDLER);
    HandlerAlone(m, c);
    ResultLookup(m, suffix, "atexit");
    StaysDeclared(m, c, "atexit");
    ResultLookup(m, suffix, "printf");
    StaysDeclared(m, c, "printf");
    ResultLookup(m, suffix, "main");
    MainRegisters(m, c);
  }

  lemma StaysDeclared(m: Module, c: string, n: string)
    requires Accepted(m) && !Defined(m, n) && (n == "atexit" || n == "printf")
    ensures AfterSetup(m, c, n).Some?
    ensures var f := InstrOne(AfterSetup(m, c, n).value);
      f.blocks == [] && f.sig == if n == "atexit" then ATEXIT_SIG else PRINTF_SIG
  {
  }

  lemma MainRegisters(m: Module, c: string)
    requires ModuleOk(m) && Accepted(m)
    ensures AfterSetup(m, c, "main").Some?
    ensures var f := InstrOne(AfterSetup(m, c, "main").value);
      f.blocks != [] && f.blocks[0] != [] && f.blocks[0][0] == AtexitCall(Lookup(m, "main").value.next)
  {
    hide ModuleIn, InstrBlock;
    var main := Lookup(m, "main").value;
    var p := PrependCall(main);
    BlockOkOf(m, m, "main", 0);
    assert HasTerminator(p.blocks[0]) && p.blocks[0][0] == AtexitCall(main.next) && |p.blocks[0]| > 1;
    InstrBlockFront(p.blocks[0], p.next + 0);
    InstrBlockLonger(p.blocks[0], p.next + 0);
    assert InstrOne(p).blocks[0] == InstrBlock(p.blocks[0], COUNTER, p.next + 2 * 0);
  }

  lemma InstrBlockLonger(b: seq<Instr>, id: nat)
    ensures |InstrBlock(b, COUNTER, id)| >= |b|
  {
  }

  /** A finished run has entered the reporting block if and only if the program did not define the
      handler itself. */
  lemma EnteredExactly(m: Module, suffix: string, env: Env, args: seq<Val>, k: nat)
    requires ModuleOk(m) && Accepted(m) && LibraryOnly(m) && |Lookup(m, "main").value.sig.params| == |args|
    ensures Instrument(m, suffix).Ok?
    ensures var t := Instrument(m, suffix).value;
      var s := Run(t, env, Init(t, args), k);
      s.phase.Done? ==> ((HANDLER, ReportIndex(m)) in s.log <==> !Defined(m, HANDLER))
  {
    hide ModuleIn, Instrument, Accepted, Run, Init, Registers, LibraryOnly, InstrOne;
    TakenHandler(m, suffix);
    var t := Instrument(m, suffix).value;
    if Defined(m, HANDLER) {
      NeverReported(m, suffix, env, args, k);
    } else if Run(t, env, Init(t, args), k).phase.Done? {
      AcceptedRegisters(m, suffix);
      ResultLookup(m, suffix, "main");
      MainParams(m, CounterName(m, suffix));
      DoneReported(t, CounterName(m, suffix), env, args, k);
    }
  }

  lemma MainParams(m: Module, c: string)
    requires Accepted(m)
    ensures AfterSetup(m, c, "main").Some?
    ensures InstrOne(AfterSetup(m, c, "main").value).sig == Lookup(m, "main").value.sig
  {
  }

  // ---------- what the last report says ----------

  function LastReport(tr: seq<Event>): Option<Event> {
    if tr == [] then None
    else if IsReport(tr[|tr|-1]) then Some(tr[|tr|-1])
    else LastReport(tr[..|tr|-1])
  }

  lemma {:induction false} LastIsZero(tr: seq<Event>)
    requires ZeroReports(tr) && ReportCount(tr) > 0
    ensures LastReport(tr) == Some(Report(IntV(0)))
  {
    if !IsReport(tr[|tr|-1]) {
      LastIsZero(tr[..|tr|-1]);
    }
  }

  /** The last report gives the number of blocks that the run has completed outside the handler. */
  predicate ReportedRight(s: State) {
    LastReport(s.trace) == Some(Report(IntV((|UserLog(s.log)| - |s.frames|) % WORDS)))
  }

  lemma FreshRight(m: Module, t: Module, env: Env, args: seq<Val>, k: nat)
    requires Started(m, t, args) && Run(t, env, Init(t, args), k).phase.Done?
    ensures ReportedRight(Run(t, env, Init(t, args), k))
  {
    hide Step, Setting, Good, Init, Cost, Run, Linked, ModuleIn;
    RunSim(m, t, env, args, k);
    var b := Time(m, t, env, args, k);
    RunCompose(t, env, Init(t, args), k, b - k);
    RunFrozen(t, env, Run(t, env, Init(t, args), k), b - k);
    var s, r := Run(m, env, Init(m, args), k), Run(t, env, Init(t, args), b);
    Phases(m, t, s, r);
    ReportAtExit(m, t, env, args, k);
    LinkedMatch(m, t, s, r);
    MatchCounts(m, s, r);
  }

  lemma MatchCounts(m: Module, s: State, r: State)
    requires Match(m, s, r)
    ensures UserLog(r.log) == s.log && |r.frames| == |s.frames|
  {
  }

  lemma AcceptedFresh(m: Module)
    requires ModuleOk(m) && Accepted(m) && LibraryOnly(m) && !Taken(m, HANDLER) && !Taken(m, COUNTER)
    ensures Fresh(m)
  {
    hide ModuleIn;
  }

  /** The last report of a finished run is right if and only if the counter's name was free or the run
      completed no block, counted modulo 2^64. */
  lemma RightExactly(m: Module, suffix: string, env: Env, args: seq<Val>, k: nat)
    requires ModuleOk(m) && Accepted(m) && LibraryOnly(m) && !Taken(m, HANDLER)
    requires suffix != [] && !Taken(m, COUNTER + suffix)
    requires ValsGood(m, args) && |Lookup(m, "main").value.sig.params| == |args|
    ensures Instrument(m, suffix).Ok?
    ensures var t := Instrument(m, suffix).value;
      var s := Run(t, env, Init(t, args), k);
      s.phase.Done? ==>
        (ReportedRight(s) <==> !Taken(m, COUNTER) || (|UserLog(s.log)| - |s.frames|) % WORDS == 0)
  {
    hide ModuleIn, Instrument, Accepted, Run, Init, Registers, LibraryOnly, InstrOne, Fresh, Started;
    ResultLookup(m, suffix, "main");
    var t := Instrument(m, suffix).value;
    if Run(t, env, Init(t, args), k).phase.Done? {
      if !Taken(m, COUNTER) {
        AcceptedFresh(m);
        PassStarts(m, suffix, args);
        FreshRight(m, t, env, args, k);
      } else {
        AcceptedRegisters(m, suffix);
        MainParams(m, CounterName(m, suffix));
        DoneReported(t, CounterName(m, suffix), env, args, k);
        RenamedReports(m, suffix, env, args, k);
        LastIsZero(Run(t, env, Init(t, args), k).trace);
      }
    }
  }
}
