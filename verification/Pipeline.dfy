/** The passes applied to a program, and their results put together. */
module Pipeline {
  import opened Wrappers
  import opened IR
  import opened Machine
  import opened CountBB
  import opened Invariant
  import opened Simulation
  import opened Bookkeeping
  import opened Theorems
  import opened ExitReport
  import opened Pass
  import opened Recover
  import opened Unused
  import opened Posix
  import opened Commute

  /** The counting pass puts every well-formed module with free names into the setting of the
      theorems about runs. */
  lemma PassStarts(m: Module, suffix: string, args: seq<Val>)
    requires ModuleOk(m) && Fresh(m) && ValsGood(m, args) && |Lookup(m, "main").value.sig.params| == |args|
    ensures Instrument(m, suffix).Ok?
    ensures ModuleOk(Instrument(m, suffix).value) && Started(m, Instrument(m, suffix).value, args)
  {
    hide Instrument, ModuleIn, Fresh, Instrumented;
    FreshInstrumented(m, suffix);
    ResultOk(m, suffix);
  }

  lemma ValsKept(m: Module, vals: seq<Val>)
    requires Plain(m) && ValsGood(m, vals)
    ensures ValsGood(Rewritten(m), vals)
  {
    forall k | 0 <= k < |vals| && vals[k].FnV?
      ensures Lookup(Rewritten(m), vals[k].fn).Some?
    {
      assert ValOk(m, vals[k]);
      LookupRewritten(m, vals[k].fn);
    }
  }

  /** Both passes together: whatever argc and argv are, if the original program finishes, the result
      finishes with the same exit code and the same visible events; it reports once for every entry
      of main, and last the number of blocks that the original completed. */
  lemma BothPasses(m: Module, suffix: string, env: Env, argc: Val, argv: Val, n: nat)
    requires Plain(m) && Fresh(m) && ValsGood(m, [argc, argv])
    requires Run(m, env, Init(m, []), n).phase.Done?
    ensures Posixize(m).Ok? && Instrument(Posixize(m).value.0, suffix).Ok?
    ensures var s := Run(m, env, Init(m, []), n);
      var t := Instrument(Posixize(m).value.0, suffix).value;
      exists k: nat ::
        var r := Run(t, env, Init(t, [argc, argv]), k);
        && r.phase == s.phase
        && Visible(r.trace) == s.trace
        && ReportCount(r.trace) == Mains(s.log)
        && r.trace != [] && r.trace[|r.trace|-1]
             == Event("setupAtExit", "printf", [StrV("%d BB(s) Executed\n"), IntV((|s.log| - |s.frames|) % WORDS)])
  {
    hide Instrument, ModuleIn, Fresh, Instrumented, Run, Init, Used, Started, Posixize;
    RewrittenOk(m);
    RewrittenFresh(m);
    ValsKept(m, [argc, argv]);
    LookupRewritten(m, "main");
    var p := Rewritten(m);
    PassStarts(p, suffix, [argc, argv]);
    var t := Instrument(p, suffix).value;
    PosixRun(m, env, argc, argv, n);
    ReportAtExit(p, t, env, [argc, argv], n);
    var k := Time(p, t, env, [argc, argv], n);
    assert Run(t, env, Init(t, [argc, argv]), k).phase == Run(m, env, Init(m, []), n).phase;
  }
}
