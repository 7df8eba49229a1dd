/** A program that only declares the handler, and never refers to it, is treated like one in which the
    name is free: neither its own runs nor those of its instrumented form notice the declaration. */
module DeclaredHandler {
  import opened Wrappers
  import opened IR
  import opened Machine
  import opened CountBB
  import opened Invariant
  import opened Simulation
  import opened Pass
  import opened Unused
  import opened Posix
  import opened Commute
  import opened Theorems
  import opened Pipeline

  /** The same module without the declaration. */
  function Bare(m: Module): Module {
    Without(m, HANDLER)
  }

  predicate DeclaredOnly(m: Module) {
    && ModuleOk(m) && ModuleIn(m, Without(m, HANDLER)) && DeclaredAtMost(m, HANDLER, HANDLER_SIG)
  }

  lemma BareLookup(m: Module, x: string)
    requires DeclaredOnly(m)
    ensures Lookup(Bare(m), x) == if x == HANDLER then None else Lookup(m, x)
  {
    LookupWithout(m, HANDLER, x);
  }

  // ---------- the original runs alike ----------

  lemma BareInvoke(m: Module, env: Env, s: State, caller: string, name: string, vals: seq<Val>, dest: Option<nat>)
    requires DeclaredOnly(m) && Lookup(Bare(m), name).Some?
    ensures Invoke(Bare(m), env, s, caller, name, vals, dest) == Invoke(m, env, s, caller, name, vals, dest)
  {
    hide External, DeclaredOnly;
    BareLookup(m, name);
  }

  lemma BareFrame(m: Module, f: Frame)
    requires DeclaredOnly(m) && FrameGood(m, Bare(m), f)
    ensures Lookup(Bare(m), f.fn) == Lookup(m, f.fn) && Fetch(Bare(m), f) == Fetch(m, f)
  {
    hide ModuleIn, Used;
    BareLookup(m, f.fn);
  }

  lemma BareCall(m: Module, env: Env, s: State, i: Instr)
    requires DeclaredOnly(m) && s.frames != [] && FrameGood(m, Bare(m), Top(s)) && i.Call?
    requires InstrOk(Bare(m), Lookup(m, Top(s).fn).value, i)
    ensures CallStep(Bare(m), env, s, i) == CallStep(m, env, s, i)
  {
    hide Invoke, DeclaredOnly, Bare, InstrOk, EvalAll;
    var f := Top(s);
    var d := Lookup(m, f.fn).value;
    CallOperands(Bare(m), d, i);
    EvalGood(Bare(m), d, f, i.callee);
    var c := Eval(f, i.callee);
    var vals := EvalAll(f, i.args);
    if c.Some? && c.value.FnV? && vals.Some? {
      BareInvoke(m, env, SetTop(s, f.(ip := f.ip + 1)), f.fn, c.value.fn, vals.value, Some(i.id));
    }
  }

  lemma BareStep(m: Module, env: Env, s: State)
    requires DeclaredOnly(m) && Good(m, Bare(m), s)
    ensures Step(Bare(m), env, s) == Step(m, env, s)
  {
    hide CallStep, RetStep, LocalStep, Invoke, DeclaredOnly, Bare, Good, Fetch, Jump, BranchTarget;
    if AtExitBase(s) {
      if s.handlers != [] {
        var n := |s.handlers| - 1;
        GoodHandlerIn(m, Bare(m), s, n);
        BareInvoke(m, env, s.(handlers := s.handlers[..n]), "", s.handlers[n], [], None);
      }
    } else if s.frames != [] {
      TopGood(m, Bare(m), s);
      BareFrame(m, Top(s));
      BareIn(m);
      FetchGood(m, Bare(m), Top(s));
      var i := Fetch(m, Top(s)).value;
      if i.Call? {
        BareCall(m, env, s, i);
      }
    }
  }

  lemma BareIn(m: Module)
    requires DeclaredOnly(m)
    ensures ModuleIn(m, Bare(m))
  {
    hide ModuleIn;
  }

  lemma BareInit(m: Module, args: seq<Val>)
    requires DeclaredOnly(m)
    ensures Init(Bare(m), args) == Init(m, args)
  {
    hide ModuleIn, Used;
    BareLookup(m, "main");
  }

  lemma {:induction false} BareRun(m: Module, env: Env, args: seq<Val>, n: nat)
    requires DeclaredOnly(m) && Defined(m, "main") && ValsGood(Bare(m), args)
    requires |Lookup(m, "main").value.sig.params| == |args|
    ensures Run(Bare(m), env, Init(Bare(m), args), n) == Run(m, env, Init(m, args), n)
  {
    hide Step, Init, DeclaredOnly, Bare, Good;
    BareInit(m, args);
    if n > 0 {
      BareRun(m, env, args, n - 1);
      BareIn(m);
      RunGood(m, Bare(m), env, args, n - 1);
      BareStep(m, env, Run(m, env, Init(m, args), n - 1));
    }
  }

  // ---------- so does the instrumented program ----------

  lemma BareAccepted(m: Module)
    requires DeclaredOnly(m) && Fresh(Bare(m)) && ModuleOk(Bare(m))
    ensures Accepted(m) && Accepted(Bare(m)) && Defined(m, "main")
    ensures Taken(m, COUNTER) == Taken(Bare(m), COUNTER)
  {
    hide ModuleIn, Used;
    FreshAccepted(Bare(m));
    BareLookup(m, "main");
    BareLookup(m, "atexit");
    BareLookup(m, "printf");
    BareLookup(m, COUNTER);
  }

  lemma {:induction false} RemoveNone(fs: seq<Fn>, n: string)
    requires LookupIn(fs, n).None?
    ensures RemoveFn(fs, n) == fs
  {
    if fs != [] {
      RemoveNone(fs[1..], n);
      assert [fs[0]] + fs[1..] == fs;
    }
  }

  /** Taking out one function keeps the others in their order. */
  lemma RemoveKeeps(fs: seq<Fn>, n: string) returns (k: nat)
    ensures forall i :: 0 <= i < |RemoveFn(fs, n)| ==>
      (i < k || i + 1 < |fs|) && |RemoveFn(fs, n)| <= |fs| && RemoveFn(fs, n)[i] == fs[if i < k then i else i + 1]
  {
    if LookupIn(fs, n).Some? {
      k := FirstOf(fs, n);
      RemoveAt(fs, n, k);
    } else {
      k := |fs|;
      RemoveNone(fs, n);
    }
  }

  lemma BareOk(m: Module)
    requires DeclaredOnly(m)
    ensures ModuleOk(Bare(m))
  {
    hide FnOk, Used, RemoveFn;
    BareIn(m);
    var k := RemoveKeeps(m.funcs, HANDLER);
  }

  lemma SameResult(m: Module, suffix: string)
    requires DeclaredOnly(m) && Fresh(Bare(m)) && ModuleOk(Bare(m))
    ensures Instrument(m, suffix).Ok? && Instrument(Bare(m), suffix).Ok?
    ensures SameLookup(Instrument(m, suffix).value, Instrument(Bare(m), suffix).value)
  {
    hide ModuleIn, Instrument, InstrOne, Used, Fresh, Accepted, AfterSetup, Bare;
    BareAccepted(m);
    ResultLookup(m, suffix, HANDLER);
    ResultLookup(Bare(m), suffix, HANDLER);
    BareGlobals(m);
    forall n
      ensures Lookup(Instrument(m, suffix).value, n) == Lookup(Instrument(Bare(m), suffix).value, n)
    {
      ResultLookup(m, suffix, n);
      ResultLookup(Bare(m), suffix, n);
      SameAfter(m, CounterName(m, suffix), n);
    }
  }

  lemma BareGlobals(m: Module)
    ensures Bare(m).globals == m.globals
  {
  }

  lemma SameAfter(m: Module, c: string, n: string)
    requires DeclaredOnly(m) && Accepted(m) && Accepted(Bare(m))
    ensures AfterSetup(m, c, n) == AfterSetup(Bare(m), c, n)
  {
    hide ModuleIn, Used, Bare, AppendReport, PrependCall;
    BareLookup(m, n);
    BareLookup(m, "main");
    BareLookup(m, HANDLER);
    if Lookup(m, HANDLER).Some? {
      FnOkOf(m, m, HANDLER);
    }
  }

  /** The results about runs apply to the module without the declaration, and it runs, before and after
      the pass, exactly as the module with it. */
  lemma DeclaredAlike(m: Module, suffix: string, env: Env, args: seq<Val>, n: nat)
    requires DeclaredOnly(m) && Fresh(Bare(m))
    requires ValsGood(Bare(m), args) && Lookup(m, "main").Some? && |Lookup(m, "main").value.sig.params| == |args|
    ensures Instrument(m, suffix).Ok? && Instrument(Bare(m), suffix).Ok?
    ensures var t, u := Instrument(m, suffix).value, Instrument(Bare(m), suffix).value;
      && Started(Bare(m), u, args)
      && Run(m, env, Init(m, args), n) == Run(Bare(m), env, Init(Bare(m), args), n)
      && Run(t, env, Init(t, args), n) == Run(u, env, Init(u, args), n)
  {
    hide ModuleIn, Instrument, Used, Fresh, Run, Init, Bare, SameLookup, DeclaredOnly;
    BareOk(m);
    BareAccepted(m);
    BareLookup(m, "main");
    SameResult(m, suffix);
    PassStarts(Bare(m), suffix, args);
    BareRun(m, env, args, n);
    SameRun(Instrument(m, suffix).value, Instrument(Bare(m), suffix).value, env, args, n);
  }

  // ---------- a program that calls the declared function ----------

  /** Events go to functions without a body only. */
  predicate CalleesDeclared(t: Module, tr: seq<Event>) {
    forall i :: 0 <= i < |tr| ==> Declared(t, tr[i].callee)
  }

  lemma InvokeCallees(t: Module, env: Env, s: State, caller: string, name: string, vals: seq<Val>, dest: Option<nat>)
    requires CalleesDeclared(t, s.trace)
    ensures CalleesDeclared(t, Invoke(t, env, s, caller, name, vals, dest).trace)
  {
  }

  lemma StepCallees(t: Module, env: Env, s: State)
    requires CalleesDeclared(t, s.trace)
    ensures CalleesDeclared(t, Step(t, env, s).trace)
  {
    hide Invoke, Local, Jump, BranchTarget, EvalAll, Eval, CalleesDeclared;
    if AtExitBase(s) && s.handlers != [] {
      var n := |s.handlers| - 1;
      InvokeCallees(t, env, s.(handlers := s.handlers[..n]), "", s.handlers[n], [], None);
    } else if s.frames != [] && Fetch(t, Top(s)).Some? && Fetch(t, Top(s)).value.Call? {
      var i, f := Fetch(t, Top(s)).value, Top(s);
      var c, vals := Eval(f, i.callee), EvalAll(f, i.args);
      if c.Some? && c.value.FnV? && vals.Some? {
        InvokeCallees(t, env, SetTop(s, f.(ip := f.ip + 1)), f.fn, c.value.fn, vals.value, Some(i.id));
      }
    }
  }

  lemma {:induction false} RunCallees(t: Module, env: Env, args: seq<Val>, n: nat)
    ensures CalleesDeclared(t, Run(t, env, Init(t, args), n).trace)
  {
    hide Step;
    if n > 0 {
      RunCallees(t, env, args, n - 1);
      StepCallees(t, env, Run(t, env, Init(t, args), n - 1));
    }
  }

  lemma {:induction false} VisibleIn(tr: seq<Event>, e: Event)
    requires e in Visible(tr)
    ensures e in tr
  {
    if e !in Visible(tr[..|tr|-1]) {
      assert e == tr[|tr|-1];
    } else {
      VisibleIn(tr[..|tr|-1], e);
    }
  }

  /** Once the original has called its external setupAtExit, no state of the instrumented program shows
      the same events: there the call runs the report instead. */
  lemma CalledApart(m: Module, suffix: string, env: Env, args: seq<Val>, n: nat, k: nat, e: Event)
    requires ModuleOk(m) && Accepted(m) && e in Run(m, env, Init(m, args), n).trace && e.callee == HANDLER
    ensures Instrument(m, suffix).Ok?
    ensures var t := Instrument(m, suffix).value;
      Visible(Run(t, env, Init(t, args), k).trace) != Run(m, env, Init(m, args), n).trace
  {
    hide ModuleIn, Instrument, Accepted, Run, Init, CounterName, HandlerBefore;
    TakenHandler(m, suffix);
    var t := Instrument(m, suffix).value;
    RunCallees(t, env, args, k);
    var tr := Run(t, env, Init(t, args), k).trace;
    assert !Declared(t, HANDLER) && e !in tr;
    if e in Visible(tr) {
      VisibleIn(tr, e);
    }
  }
}
