/** The exact cost of the instrumentation and the meaning of the reports printed at exit. */
module ExitReport {
  import opened Wrappers
  import opened IR
  import opened Machine
  import opened CountBB
  import opened Invariant
  import opened Simulation
  import opened Counting
  import opened Exit
  import opened Conservation
  import opened Bookkeeping
  import opened Theorems

  predicate IsReport(e: Event) {
    e.caller == HANDLER
  }

  /** A report prints its text with one number, at most `bound`. */
  predicate ReportOk(e: Event, bound: int) {
    && e.callee == "printf" && |e.args| == 2
    && e.args[0] == StrV(FORMAT) && e.args[1].IntV? && e.args[1].w <= bound
  }

  /** The numbers reported so far never go down. */
  predicate ReportsOk(tr: seq<Event>, bound: int) {
    && (forall i :: 0 <= i < |tr| && IsReport(tr[i]) ==> ReportOk(tr[i], bound))
    && (forall i, j :: 0 <= i < j < |tr| && IsReport(tr[i]) && IsReport(tr[j]) ==> tr[i].args[1].w <= tr[j].args[1].w)
  }

  /** The handler is registered before anything else can be. */
  predicate First(s: State, r: State) {
    if s.phase.Done? then r.trace != [] && r.trace[|r.trace|-1] == Report(Count(s, 0))
    else
      (|| (r.handlers != [] && r.handlers[0] == HANDLER)
       || (s.phase.Running? && |s.frames| == 1 && NeedsReg(s.frames[0]) && r.handlers == []))
  }

  /** Registrations are either still on the list or already reported. */
  predicate Balanced(s: State, r: State) {
    |r.handlers| - |s.handlers| + (|r.trace| - |s.trace|) == Registered(s)
  }

  predicate Book(s: State, r: State) {
    && Balanced(s, r)
    && First(s, r)
    && (s.phase.Done? ==> s.handlers == [] && r.handlers == [])
    && (|s.log| < WORDS ==> ReportsOk(r.trace, Completed(s)))
  }

  lemma {:induction false} VisibleClean(tr: seq<Event>)
    ensures forall i :: 0 <= i < |Visible(tr)| ==> !IsReport(Visible(tr)[i])
  {
    if tr != [] {
      VisibleClean(tr[..|tr|-1]);
    }
  }

  lemma ReportsGrow(tr: seq<Event>, more: seq<Event>, bound: int, bound': int)
    requires ReportsOk(tr, bound) && bound <= bound'
    requires forall i :: 0 <= i < |more| ==> !IsReport(more[i])
    ensures ReportsOk(tr + more, bound')
  {
  }

  lemma ReportsAppend(tr: seq<Event>, n: nat, c: int)
    requires ReportsOk(tr, c) && 0 <= c < WORDS
    ensures ReportsOk(tr + Reports(IntV(c), n), c)
  {
  }

  lemma LiveBook(m: Module, t: Module, env: Env, s: State, r: State)
    requires Setting(m, t) && Good(m, m, s) && Live(s) && FrameGood(m, m, Top(s)) && Match(m, s, r) && Book(s, r)
    requires !Step(m, env, s).phase.Undef?
    ensures Book(Step(m, env, s), Run(t, env, r, Cost(m, s, r)))
  {
    hide Step, Match, Setting, Good, Tracks, Sync, FrameGood, Linked, Run;
    var s', r' := Step(m, env, s), Run(t, env, r, Cost(m, s, r));
    LiveSim(m, t, env, s, r);
    StepMoved(m, env, s) by { SettingModule(m, t); }
    LiveNotDone(m, env, s);
    LinkedVisible(m, t, s', r');
    VisibleClean(r'.trace);
    if |s'.log| < WORDS {
      ReportsGrow(r.trace, s'.trace[|s.trace|..], Completed(s), Completed(s'));
    }
  }

  lemma SettingModule(m: Module, t: Module)
    requires Setting(m, t)
    ensures ModuleOk(m)
  {
  }

  lemma LinkedVisible(m: Module, t: Module, s: State, r: State)
    requires Linked(m, t, s, r)
    ensures Visible(r.trace) == s.trace
  {
  }

  /** Only the exit machinery finishes a run. */
  lemma LiveNotDone(m: Module, env: Env, s: State)
    requires Live(s)
    ensures !Step(m, env, s).phase.Done?
  {
  }

  lemma ExitBook(m: Module, t: Module, env: Env, s: State, r: State)
    requires Setting(m, t) && Good(m, m, s) && AtExitBase(s) && |s.frames| == s.phase.base && Match(m, s, r)
        && Book(s, r)
    requires !Step(m, env, s).phase.Undef?
    ensures Book(Step(m, env, s), Run(t, env, r, Cost(m, s, r)))
  {
    hide Step, Match, Setting, Good, Tracks, Linked, SameGrowth, Book, Balanced, ReportsOk, Moved, Trailing;
    var n := Trailing(r.handlers);
    ReportAll(m, t, env, s, r);
    TrailingShape(r.handlers);
    var y := Run(t, env, r, 4 * n);
    ExitStepSim(m, t, env, s, y);
    assert Run(t, env, r, 4 * n + 1) == Step(t, env, y);
    var s', r' := Step(m, env, s), Step(t, env, y);
    CompletedNat(m, s);
    AfterReports(s, r, y, n);
    if s.handlers == [] {
      ExitBookDone(s, r, y, n);
    } else {
      ExitMoved(m, env, s);
      MatchVisible(m, s', r');
      VisibleClean(r'.trace);
      var s1, y1 := s.(handlers := s.handlers[..|s.handlers|-1]), y.(handlers := y.handlers[..|y.handlers|-1]);
      LastHandlerUser(m, s, y);
      PopBalanced(s, y);
      GrowthBook(s1, y1, s', r');
    }
  }

  lemma AfterReports(s: State, r: State, y: State, n: nat)
    requires Book(s, r) && AtExitBase(s) && n <= |r.handlers| && Completed(s) >= 0
    requires y.handlers == r.handlers[..|r.handlers| - n] && y.trace == r.trace + Reports(Count(s, 0), n)
    ensures Balanced(s, y)
    ensures |s.log| < WORDS ==> ReportsOk(y.trace, Completed(s))
    ensures y.handlers != [] ==> y.handlers[0] == HANDLER
  {
    if |s.log| < WORDS {
      ReportsAppend(r.trace, n, Completed(s));
    }
  }

  /** The registration that came first is reported last. */
  lemma ExitBookDone(s: State, r: State, y: State, n: nat)
    requires Book(s, r) && AtExitBase(s) && s.handlers == [] && n == |r.handlers| && Balanced(s, y) && y.handlers == []
    requires y.trace == r.trace + Reports(Count(s, 0), n)
    requires |s.log| < WORDS ==> ReportsOk(y.trace, Completed(s))
    ensures Book(s.(phase := Done(s.phase.code)), y.(phase := Done(s.phase.code)))
  {
    assert y.trace[|y.trace|-1] == Reports(Count(s, 0), n)[n - 1];
  }

  lemma PopBalanced(s: State, y: State)
    requires Balanced(s, y) && s.handlers != [] && y.handlers != []
    ensures Balanced(s.(handlers := s.handlers[..|s.handlers|-1]), y.(handlers := y.handlers[..|y.handlers|-1]))
  {
  }

  lemma LastHandlerUser(m: Module, s: State, y: State)
    requires Match(m, s, y) && s.handlers != [] && y.handlers != []
    requires y.handlers[|y.handlers|-1] != HANDLER && y.handlers[0] == HANDLER
    ensures |y.handlers| >= 2
  {
  }

  /** A step that grows both machines alike keeps the books. */
  lemma GrowthBook(s: State, r: State, s': State, r': State)
    requires SameGrowth(s, r, s', r') && Moved(s, s', 0, 0) && !s'.phase.Done? && !s.phase.Done?
    requires Balanced(s, r)
    requires r.handlers != [] && r.handlers[0] == HANDLER
    requires |s.log| < WORDS ==> ReportsOk(r.trace, Completed(s))
    requires forall i :: 0 <= i < |s'.trace| ==> !IsReport(s'.trace[i])
    ensures Book(s', r')
  {
    if |s'.log| < WORDS {
      ReportsGrow(r.trace, s'.trace[|s.trace|..], Completed(s), Completed(s'));
    }
  }

  lemma CompletedNat(m: Module, s: State)
    requires Good(m, m, s)
    ensures Completed(s) >= 0
  {
  }

  lemma MatchVisible(m: Module, s: State, r: State)
    requires Match(m, s, r)
    ensures Visible(r.trace) == s.trace
  {
  }

  lemma ExitMoved(m: Module, env: Env, s: State)
    requires AtExitBase(s) && s.handlers != [] && !Step(m, env, s).phase.Undef?
    ensures Moved(s.(handlers := s.handlers[..|s.handlers|-1]), Step(m, env, s), 0, 0)
    ensures !Step(m, env, s).phase.Done?
  {
    var n := |s.handlers| - 1;
    ExitUnfold(m, env, s);
    InvokeMoved(m, env, s.(handlers := s.handlers[..n]), "", s.handlers[n], [], None);
    InvokePhase(m, env, s.(handlers := s.handlers[..n]), "", s.handlers[n], [], None);
  }

  lemma InvokePhase(m: Module, env: Env, s: State, caller: string, name: string, vals: seq<Val>, dest: Option<nat>)
    requires !s.phase.Done?
    ensures !Invoke(m, env, s, caller, name, vals, dest).phase.Done?
  {
  }

  /** The books are kept over a whole run. */
  lemma {:induction false} RunBook(m: Module, t: Module, env: Env, args: seq<Val>, n: nat)
    requires Started(m, t, args) && !Run(m, env, Init(m, args), n).phase.Undef?
    ensures Book(Run(m, env, Init(m, args), n), Run(t, env, Init(t, args), Time(m, t, env, args, n)))
  {
    hide Step, Match, Setting, Good, Init, Cost, Linked, Book;
    if n == 0 {
      InitBook(m, t, args);
    } else {
      RunSim(m, t, env, args, n - 1);
      var s := Run(m, env, Init(m, args), n - 1);
      var k := Time(m, t, env, args, n - 1);
      var r := Run(t, env, Init(t, args), k);
      if Halted(s) {
        StepFrozen(m, env, s);
      }
      RunBook(m, t, env, args, n - 1);
      Phases(m, t, s, r);
      LinkedMatch(m, t, s, r);
      RunCompose(t, env, Init(t, args), k, Cost(m, s, r));
      if Halted(s) {
        RunFrozen(t, env, r, Cost(m, s, r));
      } else if AtExitBase(s) {
        ExitBook(m, t, env, s, r);
      } else {
        LiveBook(m, t, env, s, r);
      }
    }
  }

  lemma InitBook(m: Module, t: Module, args: seq<Val>)
    requires Started(m, t, args)
    ensures Book(Init(m, args), Init(t, args))
  {
    hide ModuleIn, Fresh, Instrumented, InitMem, InstrDef;
    StartedFacts(m, t, args);
    MainsPush([], ("main", 0));
    assert [] + [("main", 0)] == [("main", 0)];
    var f := Init(m, args).frames;
    assert f[..|f|-1] == [];
    assert Init(t, args).trace == [] && Init(t, args).handlers == [];
    assert f == [Frame("main", 0, 0, args, map[], None)];
    assert Mains([]) == 0;
    assert Mains(Init(m, args).log) == 1;
    assert Waiting([]) == 0;
    assert Waiting(f) == 1;
    assert Balanced(Init(m, args), Init(t, args));
    assert First(Init(m, args), Init(t, args));
  }

  // ---------- cost ----------

  lemma CostStep(m: Module, t: Module, env: Env, s: State, r: State)
    requires Setting(m, t) && Good(m, m, s) && Match(m, s, r) && !s.phase.Undef?
    requires !Step(m, env, s).phase.Undef?
    ensures var s', r' := Step(m, env, s), Run(t, env, r, Cost(m, s, r));
      Cost(m, s, r) == 1 + 3 * (Completed(s') - Completed(s)) + (Registered(s') - Registered(s))
                         + 4 * (|r'.trace| - |s'.trace| - |r.trace| + |s.trace|)
  {
    hide Step, Match, Setting, Good, Tracks, Sync, FrameGood, Linked, Run;
    LinkedOf(m, t, s, r);
    Phases(m, t, s, r);
    SettingModule(m, t);
    if s.phase.Done? {
      StepFrozen(m, env, s);
      RunFrozen(t, env, r, 1);
    } else if AtExitBase(s) {
      ExitCost(m, t, env, s, r);
    } else {
      LiveSim(m, t, env, s, r);
      StepMoved(m, env, s);
    }
  }

  lemma LinkedOf(m: Module, t: Module, s: State, r: State)
    requires Match(m, s, r) && !s.phase.Undef?
    ensures Linked(m, t, s, r)
  {
  }

  lemma ExitCost(m: Module, t: Module, env: Env, s: State, r: State)
    requires Setting(m, t) && Good(m, m, s) && AtExitBase(s) && |s.frames| == s.phase.base && Match(m, s, r)
    requires !Step(m, env, s).phase.Undef?
    ensures var s', r' := Step(m, env, s), Run(t, env, r, Cost(m, s, r));
      && Completed(s') == Completed(s) && Registered(s') == Registered(s)
      && |r'.trace| - |s'.trace| == |r.trace| - |s.trace| + Trailing(r.handlers)
  {
    hide Step, Match, Setting, Good, Tracks, Linked, Trailing;
    var n := Trailing(r.handlers);
    ReportAll(m, t, env, s, r);
    TrailingShape(r.handlers);
    var y := Run(t, env, r, 4 * n);
    ExitStepSim(m, t, env, s, y);
    assert Run(t, env, r, 4 * n + 1) == Step(t, env, y);
    if s.handlers != [] {
      ExitMoved(m, env, s);
    }
  }

  /** The exact price of the instrumentation: three steps for every completed block, one for every
      registration, four for every report. */
  lemma {:induction false} Overhead(m: Module, t: Module, env: Env, args: seq<Val>, n: nat)
    requires Started(m, t, args) && !Run(m, env, Init(m, args), n).phase.Undef?
    ensures var k := Time(m, t, env, args, n);
      var s, r := Run(m, env, Init(m, args), n), Run(t, env, Init(t, args), k);
      k == n + 3 * Completed(s) + Registered(s) + 4 * (|r.trace| - |s.trace|)
  {
    hide Step, Match, Setting, Good, Init, Cost, Linked, Registered;
    if n == 0 {
      InitBook(m, t, args);
      InitCounts(m, t, args);
    } else {
      RunSim(m, t, env, args, n - 1);
      var s := Run(m, env, Init(m, args), n - 1);
      var k := Time(m, t, env, args, n - 1);
      var r := Run(t, env, Init(t, args), k);
      if Halted(s) {
        StepFrozen(m, env, s);
      }
      Overhead(m, t, env, args, n - 1);
      LinkedMatch(m, t, s, r);
      RunCompose(t, env, Init(t, args), k, Cost(m, s, r));
      CostStep(m, t, env, s, r);
    }
  }

  lemma InitCounts(m: Module, t: Module, args: seq<Val>)
    requires Started(m, t, args)
    ensures Completed(Init(m, args)) == 0 && Registered(Init(m, args)) == 0
    ensures Init(m, args).trace == [] && Init(t, args).trace == []
  {
    InitBook(m, t, args);
  }

  // ---------- the report ----------

  function ReportCount(tr: seq<Event>): nat {
    if tr == [] then 0
    else ReportCount(tr[..|tr|-1]) + if IsReport(tr[|tr|-1]) then 1 else 0
  }

  lemma {:induction false} VisibleCount(tr: seq<Event>)
    ensures |tr| == |Visible(tr)| + ReportCount(tr)
  {
    if tr != [] {
      VisibleCount(tr[..|tr|-1]);
    }
  }

  /** When the original finishes, so does the instrumented program, with the same exit code. It has
      reported once for every entry of main; the last thing it did was to report the number of all
      blocks that the original completed, those of its own exit handlers included; and short of
      2^64 blocks the reported numbers never go down. */
  lemma ReportAtExit(m: Module, t: Module, env: Env, args: seq<Val>, n: nat)
    requires Started(m, t, args) && Run(m, env, Init(m, args), n).phase.Done?
    ensures var s, r := Run(m, env, Init(m, args), n), Run(t, env, Init(t, args), Time(m, t, env, args, n));
      && r.phase == s.phase
      && Visible(r.trace) == s.trace
      && ReportCount(r.trace) == Mains(s.log)
      && r.trace != [] && r.trace[|r.trace|-1]
           == Event("setupAtExit", "printf", [StrV("%d BB(s) Executed\n"), IntV((|s.log| - |s.frames|) % WORDS)])
      && (|s.log| < WORDS ==> ReportsOk(r.trace, |s.log| - |s.frames|))
  {
    hide Step, Setting, Good, Init, Cost, ReportsOk, Run, ModuleIn, Match, Linked, Mains, Waiting, ReportCount, Visible;
    var s, r := Run(m, env, Init(m, args), n), Run(t, env, Init(t, args), Time(m, t, env, args, n));
    RunSim(m, t, env, args, n);
    LinkedMatch(m, t, s, r);
    MatchPhase(m, s, r);
    MatchVisible(m, s, r);
    RunBook(m, t, env, args, n);
    StartedFacts(m, t, args);
    RunSuspended(m, env, args, n);
    NoneWaiting(s.frames);
    VisibleCount(r.trace);
  }
}
