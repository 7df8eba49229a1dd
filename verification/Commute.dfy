/** The two passes in either order: the same functions, the same runs, the same counts. */
module Commute {
  import opened Wrappers
  import opened IR
  import opened Machine
  import opened CountBB
  import opened Simulation
  import opened Pass
  import opened Recover
  import opened Unused
  import opened Posix

  // ---------- runs do not see the order of functions ----------

  ghost predicate SameLookup(a: Module, b: Module) {
    a.globals == b.globals && forall n :: Lookup(a, n) == Lookup(b, n)
  }

  lemma SameStep(a: Module, b: Module, env: Env, s: State)
    requires SameLookup(a, b)
    ensures Step(a, env, s) == Step(b, env, s)
  {
    hide Lookup, External, RetStep, LocalStep, Jump, BranchTarget, EvalAll, Eval;
    if s.frames != [] {
      assert Lookup(a, Top(s).fn) == Lookup(b, Top(s).fn);
      assert Fetch(a, Top(s)) == Fetch(b, Top(s));
    }
    forall s, caller, name, vals, dest
      ensures Invoke(a, env, s, caller, name, vals, dest) == Invoke(b, env, s, caller, name, vals, dest)
    {
      assert Lookup(a, name) == Lookup(b, name);
    }
  }

  lemma {:induction false} SameRun(a: Module, b: Module, env: Env, args: seq<Val>, n: nat)
    requires SameLookup(a, b)
    ensures Run(a, env, Init(a, args), n) == Run(b, env, Init(b, args), n)
  {
    hide Step, SameLookup;
    if n == 0 {
      SameInit(a, b, args);
    } else {
      SameRun(a, b, env, args, n - 1);
      SameStep(a, b, env, Run(a, env, Init(a, args), n - 1));
    }
  }

  lemma SameInit(a: Module, b: Module, args: seq<Val>)
    requires SameLookup(a, b)
    ensures Init(a, args) == Init(b, args)
  {
    assert Lookup(a, "main") == Lookup(b, "main");
  }

  // ---------- the instrumented module can still be rewritten ----------

  lemma InsertedSilent(f: Fn, b: nat, k: nat)
    requires k < 3
    ensures !Mentions(Increment(COUNTER, TempId(f, b))[k], "main")
    ensures !Mentions(AtexitCall(f.next), "main")
  {
    assert FnV("atexit") != FnV("main") && FnV(HANDLER) != FnV("main");
  }

  lemma DefSilent(m: Module, f: Fn)
    requires FnOk(m, f) && !UsedBy(f, "main")
    ensures !UsedBy(InstrDef(f), "main")
  {
    hide InstrDef, FnOk;
    NextOf(f);
    forall b, k | 0 <= b < |f.blocks| && 0 <= k < |InstrDef(f).blocks[b]|
      ensures !Mentions(InstrDef(f).blocks[b][k], "main")
    {
      DefSilentAt(m, f, b, k);
    }
  }

  lemma DefSilentAt(m: Module, f: Fn, b: nat, k: nat)
    requires FnOk(m, f) && !UsedBy(f, "main") && b < |f.blocks| == |InstrDef(f).blocks| && k < |InstrDef(f).blocks[b]|
    ensures !Mentions(InstrDef(f).blocks[b][k], "main")
  {
    hide InstrDef;
    var o, e, h := f.blocks[b], InstrDef(f).blocks[b], Shift(f, b);
    BlockShape(f, b);
    InsertedSilent(f, b, 0);
    if k >= h {
      ShapeAt(o, e, h, TempId(f, b), k);
      if k - h < |o| - 1 {
        assert !Mentions(o[k - h], "main");
      } else if k - h < |o| + 2 {
        InsertedSilent(f, b, k - h - |o| + 1);
      } else {
        assert !Mentions(o[|o| - 1], "main");
      }
    }
  }

  lemma ReportSilent()
    ensures !UsedBy(ReportFn(), "main")
  {
    var b := ReportBlock(COUNTER, 0);
    assert Operands(b[1]) == [Const(FnV("printf")), Const(StrV(FORMAT)), Reg(0)];
    assert FnV("printf") != FnV("main");
  }

  lemma ResultSilent(m: Module, i: nat)
    requires Plain(m) && Fresh(m) && i < |ResultFuncs(m)|
    ensures !UsedBy(ResultFuncs(m)[i], "main")
  {
    hide FnOk, InstrDef, AddedDecls, UsedBy, ModuleIn;
    var n := |m.funcs|;
    PlainIn(m);
    if i < n {
      assert FnOk(m, m.funcs[i]) by { AllFnsOk(m); }
      DefSilent(m, m.funcs[i]);
    } else if i == n {
      ReportSilent();
    } else {
      DeclFacts(m, i - n - 1);
      EmptySilent(AddedDecls(m)[i - n - 1]);
    }
  }

  lemma EmptySilent(f: Fn)
    requires f.blocks == []
    ensures !UsedBy(f, "main")
  {
  }

  /** Counting leaves main parameterless and unreferenced. */
  lemma ResultPlain(m: Module, suffix: string)
    requires Plain(m) && Fresh(m)
    ensures Instrument(m, suffix).Ok? && Plain(Instrument(m, suffix).value)
    ensures Instrument(m, suffix).value == Module(m.globals[COUNTER := GlobalVar(IntV(0), false)], ResultFuncs(m))
    ensures Lookup(Instrument(m, suffix).value, "main") == Some(InstrDef(Lookup(m, "main").value))
  {
    hide Instrument, UsedBy, ModuleIn, InstrDef;
    FreshFuncs(m, suffix);
    FreshInstrumented(m, suffix);
    ResultOk(m, suffix);
    var t := Instrument(m, suffix).value;
    assert t.funcs == ResultFuncs(m);
    forall i | 0 <= i < |t.funcs| ensures !UsedBy(t.funcs[i], "main") { ResultSilent(m, i); }
    PlainIn(m);
    UnusedIn(t, "main");
    NextOf(Lookup(m, "main").value);
  }

  /** Rewriting main leaves the names of the counting pass free. */
  lemma RewrittenFresh(m: Module)
    requires Plain(m) && Fresh(m)
    ensures ModuleOk(Rewritten(m)) && Fresh(Rewritten(m))
  {
    hide ModuleIn, Rewritten, Used, Posixize;
    RewrittenOk(m);
    assert Rewritten(m).globals == m.globals by { RewrittenGlobals(m); }
    LookupRewritten(m, "main");
  }

  lemma RewrittenGlobals(m: Module)
    requires Lookup(m, "main").Some?
    ensures Rewritten(m).globals == m.globals
    ensures Rewritten(m).funcs == RemoveFn(m.funcs, "main") + [NewMain(Lookup(m, "main").value)]
  {
  }

  // ---------- both orders ----------

  lemma DefNewMain(f: Fn)
    requires f.name == "main"
    ensures InstrDef(NewMain(f)) == NewMain(InstrDef(f))
  {
  }

  lemma {:induction false} RemoveDefs(fs: seq<Fn>, n: string)
    ensures RemoveFn(Defs(fs), n) == Defs(RemoveFn(fs, n))
  {
    hide InstrDef;
    if fs != [] {
      NextOf(fs[0]);
      assert Defs(fs)[1..] == Defs(fs[1..]);
      RemoveDefs(fs[1..], n);
      if fs[0].name != n {
        assert Defs([fs[0]] + RemoveFn(fs[1..], n)) == [InstrDef(fs[0])] + Defs(RemoveFn(fs[1..], n));
      }
    }
  }

  lemma {:induction false} RemoveFront(a: seq<Fn>, b: seq<Fn>, n: string)
    requires LookupIn(a, n).Some?
    ensures RemoveFn(a + b, n) == RemoveFn(a, n) + b
  {
    if a[0].name == n {
      assert (a + b)[1..] == a[1..] + b;
    } else {
      assert (a + b)[1..] == a[1..] + b;
      RemoveFront(a[1..], b, n);
    }
  }

  lemma {:induction false} DefsLookup(fs: seq<Fn>, n: string)
    ensures LookupIn(Defs(fs), n).Some? <==> LookupIn(fs, n).Some?
  {
    hide InstrDef;
    if fs != [] {
      NextOf(fs[0]);
      assert Defs(fs)[1..] == Defs(fs[1..]);
      DefsLookup(fs[1..], n);
    }
  }

  /** What the handler and the declarations add. */
  function Extras(m: Module): seq<Fn> {
    [ReportFn()] + AddedDecls(m)
  }

  lemma CountAfterPosix(m: Module, suffix: string)
    requires Plain(m) && Fresh(m)
    ensures ModuleOk(Rewritten(m)) && Fresh(Rewritten(m))
    ensures Instrument(Rewritten(m), suffix) == Ok(Module(
      m.globals[COUNTER := GlobalVar(IntV(0), false)],
      Defs(RemoveFn(m.funcs, "main")) + [NewMain(InstrDef(Lookup(m, "main").value))] + Extras(m)))
  {
    hide Instrument, ModuleIn, Plain, Fresh, InstrDef, RemoveFn;
    RewrittenFresh(m);
    PlainMain(m);
    RewrittenGlobals(m);
    var p := Rewritten(m);
    FreshFuncs(p, suffix);
    DefNewMain(Lookup(m, "main").value);
    var x, y := RemoveFn(m.funcs, "main"), NewMain(Lookup(m, "main").value);
    assert Defs(x + [y]) == Defs(x) + [InstrDef(y)];
    LookupRewritten(m, "atexit");
    LookupRewritten(m, "printf");
    assert AddedDecls(p) == AddedDecls(m);
    assert Defs(x) + [InstrDef(y)] + [ReportFn()] + AddedDecls(m) == Defs(x) + [InstrDef(y)] + Extras(m);
  }

  lemma PosixAfterCount(m: Module, suffix: string)
    requires Plain(m) && Fresh(m)
    ensures Instrument(m, suffix).Ok?
    ensures Posixize(Instrument(m, suffix).value) == Ok((Module(
      m.globals[COUNTER := GlobalVar(IntV(0), false)],
      Defs(RemoveFn(m.funcs, "main")) + Extras(m) + [NewMain(InstrDef(Lookup(m, "main").value))]), true))
  {
    hide Instrument, ModuleIn, Fresh, InstrDef, RemoveFn, Used, Posixize;
    ResultPlain(m, suffix);
    var t := Instrument(m, suffix).value;
    RewrittenOk(t);
    RewrittenGlobals(t);
    assert t.funcs == Defs(m.funcs) + Extras(m);
    DefsLookup(m.funcs, "main");
    RemoveFront(Defs(m.funcs), Extras(m), "main");
    RemoveDefs(m.funcs, "main");
  }

  lemma SwapLookup(x: seq<Fn>, y: Fn, z: seq<Fn>, n: string)
    requires forall i :: 0 <= i < |z| ==> z[i].name != y.name
    ensures LookupIn(x + [y] + z, n) == LookupIn(x + z + [y], n)
  {
    LookupConcat(x + [y], z, n);
    LookupConcat(x, [y], n);
    LookupConcat(x + z, [y], n);
    LookupConcat(x, z, n);
    assert [y][1..] == [];
  }

  lemma ExtrasNames(m: Module, i: nat)
    requires Fresh(m) && i < |Extras(m)|
    ensures Extras(m)[i].name != "main"
  {
    if i > 0 {
      DeclFacts(m, i - 1);
    }
  }

  /** Both orders succeed, give the same functions in a different order, and run alike: for every
      environment, arguments and number of steps the two states are equal. */
  lemma PassesCommute(m: Module, suffix: string, env: Env, args: seq<Val>, n: nat)
    requires Plain(m) && Fresh(m)
    ensures Posixize(m).Ok? && Instrument(Posixize(m).value.0, suffix).Ok?
    ensures Instrument(m, suffix).Ok? && Posixize(Instrument(m, suffix).value).Ok?
    ensures var a := Instrument(Posixize(m).value.0, suffix).value;
      var b := Posixize(Instrument(m, suffix).value).value.0;
      && multiset(a.funcs) == multiset(b.funcs)
      && Run(a, env, Init(a, args), n) == Run(b, env, Init(b, args), n)
  {
    hide Instrument, ModuleIn, Fresh, InstrDef, RemoveFn, Used, Posixize, Extras, Run, Init;
    RewrittenOk(m);
    CountAfterPosix(m, suffix);
    PosixAfterCount(m, suffix);
    var a := Instrument(Posixize(m).value.0, suffix).value;
    var b := Posixize(Instrument(m, suffix).value).value.0;
    var x, y, z := Defs(RemoveFn(m.funcs, "main")), NewMain(InstrDef(Lookup(m, "main").value)), Extras(m);
    forall i | 0 <= i < |z| ensures z[i].name != y.name { ExtrasNames(m, i); }
    forall k
      ensures Lookup(a, k) == Lookup(b, k)
    {
      SwapLookup(x, y, z, k);
    }
    SameRun(a, b, env, args, n);
  }
}
