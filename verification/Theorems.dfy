/** The results about whole runs: the instrumented program behaves as the original, its count is
    right at every state, and the report at exit says how many blocks were completed. */
module Theorems {
  import opened Wrappers
  import opened IR
  import opened Machine
  import opened CountBB
  import opened Invariant
  import opened Simulation
  import opened Counting
  import opened Exit
  import opened Conservation

  /** Steps of the instrumented machine for the next step of the original one. */
  function Cost(m: Module, s: State, r: State): nat {
    1 + if AtExitBase(s) then 4 * Trailing(r.handlers)
        else if Live(s) && FrameGood(m, m, Top(s)) then Prelude(m, Top(s))
        else 0
  }

  ghost predicate Linked(m: Module, t: Module, s: State, r: State) {
    if s.phase.Undef? then r.phase.Undef? && Tracks(t, s, r) else Match(m, s, r)
  }

  predicate Halted(s: State) {
    s.phase.Done? || s.phase.Undef?
  }

  lemma StuckTracks(t: Module, s: State, x: State)
    requires Tracks(t, s, x)
    ensures Tracks(t, Stuck(s), Stuck(x))
  {
  }

  lemma Phases(m: Module, t: Module, s: State, r: State)
    requires Good(m, m, s) && Linked(m, t, s, r)
    ensures r.phase.Undef? <==> s.phase.Undef?
    ensures !s.phase.Undef? ==> r.phase == s.phase
    ensures Halted(s) || AtExitBase(s) || Live(s)
    ensures AtExitBase(s) ==> |s.frames| == s.phase.base
    ensures Live(s) ==> FrameGood(m, m, Top(s))
  {
  }

  // ---------- one original step ----------

  /** What an instruction adds to the handlers and the trace of both machines. */
  predicate Grown(s: State, r: State, s': State, r': State, reg: bool) {
    && s.handlers <= s'.handlers && s.trace <= s'.trace
    && r'.handlers == r.handlers + (if reg then [HANDLER] else []) + s'.handlers[|s.handlers|..]
    && r'.trace == r.trace + s'.trace[|s.trace|..]
  }

  lemma LiveSim(m: Module, t: Module, env: Env, s: State, r: State)
    requires Setting(m, t) && Good(m, m, s) && Live(s) && FrameGood(m, m, Top(s)) && Match(m, s, r)
    ensures var s', r' := Step(m, env, s), Run(t, env, r, Cost(m, s, r));
      && Linked(m, t, s', r')
      && (!s'.phase.Undef? ==> Grown(s, r, s', r', NeedsReg(Top(s))))
  {
    hide Step, Match, Setting, Good, Tracks, Sync, FrameGood;
    var p := Prelude(m, Top(s));
    PreludeRun(m, t, env, s, r, p);
    var y := Run(t, env, r, p);
    SharedStep(m, t, env, s, y);
    assert Run(t, env, r, p + 1) == Step(t, env, y);
    if Step(m, env, s).phase.Undef? {
      StuckTracks(t, s, y);
    }
  }

  /** The list of due handlers ends with one of the original program, or is empty. */
  lemma LastUser(hs: seq<string>)
    requires hs != [] ==> hs[|hs|-1] != HANDLER
    ensures hs == [] <==> UserHandlers(hs) == []
    ensures hs != [] ==>
      var u := UserHandlers(hs);
      && u[|u|-1] == hs[|hs|-1] && UserHandlers(hs[..|hs|-1]) == u[..|u|-1]
  {
    if hs != [] {
      var v := UserHandlers(hs[..|hs|-1]);
      assert (v + [hs[|hs|-1]])[..|v|] == v;
    }
  }

  /** After the due reports, both machines call the same handler or finish. */
  lemma ExitStepSim(m: Module, t: Module, env: Env, s: State, y: State)
    requires Setting(m, t) && Good(m, m, s) && AtExitBase(s) && Match(m, s, y)
    requires y.handlers != [] ==> y.handlers[|y.handlers|-1] != HANDLER
    ensures var s', y' := Step(m, env, s), Step(t, env, y);
      && (s'.phase.Undef? <==> y'.phase.Undef?)
      && (s'.phase.Undef? ==> s' == Stuck(s) && y' == Stuck(y))
      && (!s'.phase.Undef? ==> Match(m, s', y'))
      && (s.handlers == [] ==>
          s' == s.(phase := Done(s.phase.code)) && y' == y.(phase := Done(s.phase.code)) && y.handlers == [])
      && (s.handlers != [] && !s'.phase.Undef? ==>
            && y.handlers != []
            && SameGrowth(s.(handlers := s.handlers[..|s.handlers|-1]), y.(handlers := y.handlers[..|y.handlers|-1]),
                s', y'))
  {
    hide Invoke, Match, Setting, Good, SameGrowth;
    MatchPhase(m, s, y);
    MatchHandlers(m, s, y);
    LastUser(y.handlers);
    if s.handlers == [] {
      ExitDoneMatch(m, s, y);
    } else {
      var n := |s.handlers| - 1;
      var k := |y.handlers| - 1;
      var s1, y1 := s.(handlers := s.handlers[..n]), y.(handlers := y.handlers[..k]);
      ExitPopMatch(m, s, y);
      GoodHandler(m, s, n);
      InvokeMatch(m, t, env, s1, y1, "", s.handlers[n], [], None);
      ExitUnfold(m, env, s);
      ExitUnfold(t, env, y);
    }
  }

  lemma MatchHandlers(m: Module, s: State, y: State)
    requires Match(m, s, y)
    ensures UserHandlers(y.handlers) == s.handlers
  {
  }

  lemma GoodHandler(m: Module, s: State, n: nat)
    requires Good(m, m, s) && n < |s.handlers|
    ensures Lookup(m, s.handlers[n]).Some?
  {
  }

  lemma ExitDoneMatch(m: Module, s: State, y: State)
    requires Match(m, s, y) && s.phase.Exiting?
    ensures Match(m, s.(phase := Done(s.phase.code)), y.(phase := Done(s.phase.code)))
  {
  }

  lemma ExitPopMatch(m: Module, s: State, y: State)
    requires Match(m, s, y) && s.handlers != [] && y.handlers != []
    requires UserHandlers(y.handlers[..|y.handlers|-1]) == s.handlers[..|s.handlers|-1]
    ensures Match(m, s.(handlers := s.handlers[..|s.handlers|-1]), y.(handlers := y.handlers[..|y.handlers|-1]))
  {
  }

  lemma ExitUnfold(m: Module, env: Env, s: State)
    requires AtExitBase(s) && s.handlers != []
    ensures var n := |s.handlers| - 1;
      var r := Invoke(m, env, s.(handlers := s.handlers[..n]), "", s.handlers[n], [], None);
      Step(m, env, s) == if r.phase.Undef? then Stuck(s) else r
  {
  }

  lemma ExitSim(m: Module, t: Module, env: Env, s: State, r: State)
    requires Setting(m, t) && Good(m, m, s) && AtExitBase(s) && |s.frames| == s.phase.base && Match(m, s, r)
    ensures Linked(m, t, Step(m, env, s), Run(t, env, r, Cost(m, s, r)))
  {
    hide Step, Match, Setting, Good, Tracks;
    var n := Trailing(r.handlers);
    ReportAll(m, t, env, s, r);
    TrailingShape(r.handlers);
    var y := Run(t, env, r, 4 * n);
    ExitStepSim(m, t, env, s, y);
    assert Run(t, env, r, 4 * n + 1) == Step(t, env, y);
    if Step(m, env, s).phase.Undef? {
      MatchTracks(m, t, s, y);
      StuckTracks(t, s, y);
    }
  }

  /** Forward simulation of one step. */
  lemma StepSim(m: Module, t: Module, env: Env, s: State, r: State)
    requires Setting(m, t) && Good(m, m, s) && Linked(m, t, s, r)
    ensures Linked(m, t, Step(m, env, s), Run(t, env, r, Cost(m, s, r)))
  {
    hide Step, Match, Setting, Good, Tracks, Linked;
    Phases(m, t, s, r);
    if !s.phase.Undef? {
      LinkedMatch(m, t, s, r);
    }
    if Halted(s) {
      StepFrozen(m, env, s);
      assert Halted(r);
      RunFrozen(t, env, r, Cost(m, s, r));
    } else if AtExitBase(s) {
      ExitSim(m, t, env, s, r);
    } else {
      LiveSim(m, t, env, s, r);
    }
  }

  lemma LinkedMatch(m: Module, t: Module, s: State, r: State)
    requires Linked(m, t, s, r) && !s.phase.Undef?
    ensures Match(m, s, r)
  {
  }

  // ---------- between two boundaries ----------

  lemma {:induction false} ReportsTrack(m: Module, t: Module, env: Env, s: State, r: State, j: nat)
    requires Setting(m, t) && Good(m, m, s) && Match(m, s, r) && AtExitBase(s) && |s.frames| == s.phase.base
    requires j <= 4 * Trailing(r.handlers)
    ensures Tracks(t, s, Run(t, env, r, j))
    decreases |r.handlers|
  {
    hide Step, Match, Setting, Good, Tracks, Due;
    if j == 0 {
      MatchTracks(m, t, s, r);
    } else {
      var c := Count(s, 0);
      ReportedMatch(m, t, env, s, r);
      if j <= 4 {
        ReportRun(t, env, r, COUNTER, c, j);
        ReportingTracks(m, t, env, s, r, c, j);
      } else {
        ReportRun(t, env, r, COUNTER, c, 4);
        ReportsTrack(m, t, env, s, Reporting(env, r, c, 4), j - 4);
        RunCompose(t, env, r, 4, j - 4);
      }
    }
  }

  /** Every state of the instrumented machine before the next boundary still tracks `s`. */
  lemma StepTracks(m: Module, t: Module, env: Env, s: State, r: State, j: nat)
    requires Setting(m, t) && Good(m, m, s) && Linked(m, t, s, r) && j < Cost(m, s, r)
    ensures Tracks(t, s, Run(t, env, r, j))
  {
    hide Step, Match, Setting, Good, Tracks;
    Phases(m, t, s, r);
    if s.phase.Undef? {
      RunFrozen(t, env, r, j);
    } else if s.phase.Done? {
      MatchTracks(m, t, s, r);
      assert Run(t, env, r, 0) == r;
    } else if AtExitBase(s) {
      ReportsTrack(m, t, env, s, r, j);
    } else {
      PreludeRun(m, t, env, s, r, j);
    }
  }

  // ---------- whole runs ----------

  /** How many steps of the instrumented run correspond to `n` of the original. */
  function Time(m: Module, t: Module, env: Env, args: seq<Val>, n: nat): nat {
    if n == 0 then 0
    else
      var k := Time(m, t, env, args, n - 1);
      k + Cost(m, Run(m, env, Init(m, args), n - 1), Run(t, env, Init(t, args), k))
  }

  /** A program and its instrumented form, started with the arguments that main takes. */
  ghost predicate Started(m: Module, t: Module, args: seq<Val>) {
    Setting(m, t) && ValsGood(m, args) && |Lookup(m, "main").value.sig.params| == |args|
  }

  lemma InitMatch(m: Module, t: Module, args: seq<Val>)
    requires Started(m, t, args)
    ensures Match(m, Init(m, args), Init(t, args))
  {
    hide InitMem, ModuleIn, Fresh;
    StartedFacts(m, t, args);
    var s, r := Init(m, args), Init(t, args);
    InitMemMatch(m, t);
    UserLogPush([], ("main", 0));
    assert [] + [("main", 0)] == [("main", 0)];
    assert FramesMatch(m, s.frames, r.frames, 0);
  }

  lemma InitMemMatch(m: Module, t: Module)
    requires t.globals == m.globals[COUNTER := GlobalVar(IntV(0), false)]
    ensures InitMem(t) == InitMem(m)[GlobalA(COUNTER) := IntV(0)]
  {
  }

  lemma StartedFacts(m: Module, t: Module, args: seq<Val>)
    requires Started(m, t, args)
    ensures ModuleOk(m) && Defined(m, "main") && Defined(t, "main")
    ensures |Lookup(t, "main").value.sig.params| == |args|
    ensures Lookup(t, "main") == Some(InstrDef(Lookup(m, "main").value))
  {
  }

  /** Forward simulation, for runs of every length. */
  lemma {:induction false} RunSim(m: Module, t: Module, env: Env, args: seq<Val>, n: nat)
    requires Started(m, t, args)
    ensures Good(m, m, Run(m, env, Init(m, args), n))
    ensures Linked(m, t, Run(m, env, Init(m, args), n), Run(t, env, Init(t, args), Time(m, t, env, args, n)))
    ensures n <= Time(m, t, env, args, n)
  {
    hide Step, Match, Setting, Good, Init, Cost, ModuleIn;
    StartedFacts(m, t, args);
    RunGood(m, m, env, args, n);
    if n == 0 {
      InitMatch(m, t, args);
      InitPhase(m, args);
    } else {
      RunSim(m, t, env, args, n - 1);
      var s := Run(m, env, Init(m, args), n - 1);
      var k := Time(m, t, env, args, n - 1);
      StepSim(m, t, env, s, Run(t, env, Init(t, args), k));
      RunCompose(t, env, Init(t, args), k, Cost(m, s, Run(t, env, Init(t, args), k)));
      CostPositive(m, s, Run(t, env, Init(t, args), k));
    }
  }

  lemma InitPhase(m: Module, args: seq<Val>)
    requires Defined(m, "main") && |Lookup(m, "main").value.sig.params| == |args|
    ensures Init(m, args).phase == Running
  {
  }

  lemma CostPositive(m: Module, s: State, r: State)
    ensures Cost(m, s, r) >= 1
  {
  }

  /** Backward: every state of the instrumented run lies between two boundaries. */
  lemma {:induction false} BetweenBoundaries(m: Module, t: Module, env: Env, args: seq<Val>, k: nat) returns (n: nat)
    requires Started(m, t, args)
    ensures n <= k && Time(m, t, env, args, n) <= k < Time(m, t, env, args, n + 1)
    ensures Tracks(t, Run(m, env, Init(m, args), n), Run(t, env, Init(t, args), k))
  {
    hide Step, Setting, Good, Init, Cost, Tracks, Linked;
    if k == 0 {
      n := 0;
    } else {
      n := BetweenBoundaries(m, t, env, args, k - 1);
      if Time(m, t, env, args, n + 1) <= k {
        n := n + 1;
        CostPositive(m, Run(m, env, Init(m, args), n), Run(t, env, Init(t, args), k));
      }
    }
    RunSim(m, t, env, args, n);
    var b := Time(m, t, env, args, n);
    var s, r := Run(m, env, Init(m, args), n), Run(t, env, Init(t, args), b);
    CostPositive(m, s, r);
    StepTracks(m, t, env, s, r, k - b);
    RunCompose(t, env, Init(t, args), b, k - b);
  }

  /** What the instrumented program shows at any state, the original shows at some state. */
  lemma Backward(m: Module, t: Module, env: Env, args: seq<Val>, k: nat)
    requires Started(m, t, args)
    ensures exists n: nat :: n <= k && Tracks(t, Run(m, env, Init(m, args), n), Run(t, env, Init(t, args), k))
  {
    var n := BetweenBoundaries(m, t, env, args, k);
  }

  /** Neither termination, nor the exit code, nor undefined behaviour is added or lost. */
  lemma SameOutcome(m: Module, t: Module, env: Env, args: seq<Val>, end: Phase)
    requires Started(m, t, args) && (end.Done? || end.Undef?)
    ensures (exists n: nat :: Run(m, env, Init(m, args), n).phase == end)
       <==> (exists k: nat :: Run(t, env, Init(t, args), k).phase == end)
  {
    hide Step, Setting, Good, Init, Cost, Linked;
    if n: nat :| Run(m, env, Init(m, args), n).phase == end {
      RunSim(m, t, env, args, n);
      var k := Time(m, t, env, args, n);
      Phases(m, t, Run(m, env, Init(m, args), n), Run(t, env, Init(t, args), k));
      assert Run(t, env, Init(t, args), k).phase == end;
    }
    if k: nat :| Run(t, env, Init(t, args), k).phase == end {
      RunSim(m, t, env, args, k);
      var b := Time(m, t, env, args, k);
      RunCompose(t, env, Init(t, args), k, b - k);
      RunFrozen(t, env, Run(t, env, Init(t, args), k), b - k);
      Phases(m, t, Run(m, env, Init(m, args), k), Run(t, env, Init(t, args), b));
      assert Run(m, env, Init(m, args), k).phase == end;
    }
  }

  lemma TracksConserved(t: Module, s: State, x: State)
    requires Tracks(t, s, x)
    ensures Conserved(t, x)
  {
  }

  /** Below the word size, equal modulo the word size is equal. */
  lemma ExactBelow(x: nat, w: Word, p: nat)
    requires x % WORDS == (w + p) % WORDS && p <= x < WORDS
    ensures x == w + p
  {
  }

  /** Conservation at every reachable state: modulo 2^64, and exactly below it. */
  lemma ConservationLaw(m: Module, t: Module, env: Env, args: seq<Val>, k: nat)
    requires Started(m, t, args)
    ensures var x := Run(t, env, Init(t, args), k);
      && Conserved(t, x)
      && (|UserLog(x.log)| < WORDS ==> |UserLog(x.log)| == x.mem[GlobalA(COUNTER)].w + PendingCount(t, x.frames))
  {
    hide Step, Setting, Good, Init, Run, PendingCount, UserLog, Pending, Tracks;
    var n := BetweenBoundaries(m, t, env, args, k);
    var x := Run(t, env, Init(t, args), k);
    TracksConserved(t, Run(m, env, Init(m, args), n), x);
    if |UserLog(x.log)| < WORDS {
      ExactBelow(|UserLog(x.log)|, x.mem[GlobalA(COUNTER)].w, PendingCount(t, x.frames));
    }
  }
}
