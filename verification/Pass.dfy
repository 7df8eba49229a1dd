/** What the pass does to a module: when it succeeds, what every lookup finds afterwards, that the
    result is well-formed, and that deleting the inserted code gives the original back. */
module Pass {
  import opened Wrappers
  import opened Types
  import opened IR
  import opened Machine
  import opened CountBB
  import opened Invariant
  import opened Simulation

  lemma {:induction false} LookupReplace(fs: seq<Fn>, n: string, g: Fn, x: string)
    requires g.name == n
    ensures LookupIn(ReplaceIn(fs, n, g), x) == if x == n && LookupIn(fs, n).Some? then Some(g) else LookupIn(fs, x)
  {
    if fs != [] {
      if fs[0].name == n {
        assert ([g] + fs[1..])[1..] == fs[1..];
      } else {
        assert ([fs[0]] + ReplaceIn(fs[1..], n, g))[1..] == ReplaceIn(fs[1..], n, g);
        LookupReplace(fs[1..], n, g, x);
      }
    }
  }

  function MapFn(f: Option<Fn>): Option<Fn> {
    if f.Some? then Some(InstrOne(f.value)) else None
  }

  lemma {:induction false} LookupInstr(fs: seq<Fn>, x: string)
    ensures LookupIn(InstrAll(fs), x) == MapFn(LookupIn(fs, x))
  {
    if fs != [] {
      assert InstrAll(fs)[1..] == InstrAll(fs[1..]);
      LookupInstr(fs[1..], x);
    }
  }

  lemma LookupGetOrInsert(m: Module, n: string, sig: Sig, x: string)
    requires GetOrInsert(m, n, sig).Ok?
    ensures var r := GetOrInsert(m, n, sig).value;
      && Lookup(r, x) == (if x == n && Lookup(m, n).None? then Some(Fn(n, sig, [], 0)) else Lookup(m, x))
      && r.globals == m.globals
  {
    if Lookup(m, n).None? {
      LookupConcat(m.funcs, [Fn(n, sig, [], 0)], x);
      assert [Fn(n, sig, [], 0)][1..] == [];
    }
  }

  // ---------- when the pass succeeds ----------

  predicate Usable(m: Module, n: string, sig: Sig) {
    n !in m.globals && (Lookup(m, n).Some? ==> Lookup(m, n).value.sig == sig)
  }

  /** The modules the pass accepts. */
  predicate Accepted(m: Module) {
    && Lookup(m, "main").Some?
    && HasFront(Lookup(m, "main").value)
    && Usable(m, HANDLER, HANDLER_SIG)
    && Usable(m, "atexit", ATEXIT_SIG)
    && Usable(m, "printf", PRINTF_SIG)
    && (COUNTER in m.globals ==> !m.globals[COUNTER].local)
    && (COUNTER !in m.globals ==> Lookup(m, COUNTER).None?)
  }

  lemma SuffixName(suffix: string, n: string)
    requires n == HANDLER || n == "atexit" || n == "printf" || n == "main"
    ensures COUNTER + suffix != n && COUNTER != n
  {
    assert (COUNTER + suffix)[0] == 'b' && COUNTER[0] == 'b';
    assert n[0] != 'b';
  }

  /** What the first stage leaves for a lookup, on accepted modules. */
  lemma DeclareLookup(m: Module, c: string, x: string)
    requires Usable(m, HANDLER, HANDLER_SIG) && Usable(m, "atexit", ATEXIT_SIG) && c != HANDLER && c != "atexit"
    ensures Declare(m, c).Ok?
    ensures var t := Declare(m, c).value;
      && t.globals == m.globals[c := GlobalVar(IntV(0), false)]
      && Lookup(t, x) ==
          if x == HANDLER && Lookup(m, x).None? then Some(Fn(HANDLER, HANDLER_SIG, [], 0))
          else if x == "atexit" && Lookup(m, x).None? then Some(Fn(x, ATEXIT_SIG, [], 0))
          else Lookup(m, x)
  {
    var m1 := m.(globals := m.globals[c := GlobalVar(IntV(0), false)]);
    forall n ensures Lookup(m1, n) == Lookup(m, n) {}
    LookupGetOrInsert(m1, HANDLER, HANDLER_SIG, "atexit");
    LookupGetOrInsert(m1, HANDLER, HANDLER_SIG, x);
    LookupGetOrInsert(GetOrInsert(m1, HANDLER, HANDLER_SIG).value, "atexit", ATEXIT_SIG, x);
  }

  lemma AttachLookup(m: Module, main: Fn, c: string, x: string)
    requires HasFront(main) && main.name == "main" && Lookup(m, "main").Some?
    requires Usable(m, "printf", PRINTF_SIG) && Lookup(m, HANDLER).Some?
    ensures Attach(m, main, c).Ok?
    ensures var t := Attach(m, main, c).value;
      && t.globals == m.globals
      && Lookup(t, x) ==
          if x == HANDLER then Some(AppendReport(Lookup(m, HANDLER).value, c))
          else if x == "main" then Some(PrependCall(main))
          else if x == "printf" && Lookup(m, x).None? then Some(Fn(x, PRINTF_SIG, [], 0))
          else Lookup(m, x)
  {
    var m4 := m.(funcs := ReplaceIn(m.funcs, "main", PrependCall(main)));
    LookupReplace(m.funcs, "main", PrependCall(main), HANDLER);
    LookupReplace(m.funcs, "main", PrependCall(main), "printf");
    LookupReplace(m.funcs, "main", PrependCall(main), x);
    var m5 := GetOrInsert(m4, "printf", PRINTF_SIG).value;
    LookupGetOrInsert(m4, "printf", PRINTF_SIG, HANDLER);
    LookupGetOrInsert(m4, "printf", PRINTF_SIG, x);
    LookupReplace(m5.funcs, HANDLER, AppendReport(Lookup(m5, HANDLER).value, c), x);
  }

  /** The handler before it gets its reporting block. */
  function HandlerBefore(m: Module): Fn {
    if Lookup(m, HANDLER).Some? then Lookup(m, HANDLER).value else HandlerDecl()
  }

  function HandlerDecl(): Fn {
    Fn(HANDLER, HANDLER_SIG, [], 0)
  }

  /** What a lookup finds after the setup. */
  function AfterSetup(m: Module, c: string, x: string): Option<Fn>
    requires Accepted(m)
  {
    if x == HANDLER then Some(AppendReport(HandlerBefore(m), c))
    else if x == "main" then Some(PrependCall(Lookup(m, "main").value))
    else if x == "atexit" && Lookup(m, x).None? then Some(Fn(x, ATEXIT_SIG, [], 0))
    else if x == "printf" && Lookup(m, x).None? then Some(Fn(x, PRINTF_SIG, [], 0))
    else Lookup(m, x)
  }

  /** The stages of the setup, put together. */
  lemma SetupLookup(m: Module, suffix: string, x: string)
    requires Accepted(m)
    ensures Setup(m, suffix).Ok?
    ensures var t := Setup(m, suffix).value;
      && t.globals == m.globals[CounterName(m, suffix) := GlobalVar(IntV(0), false)]
      && Lookup(t, x) == AfterSetup(m, CounterName(m, suffix), x)
  {
    hide Declare, Attach;
    SuffixName(suffix, HANDLER);
    SuffixName(suffix, "atexit");
    SuffixName(suffix, "printf");
    var c := CounterName(m, suffix);
    DeclareLookup(m, c, HANDLER);
    DeclareLookup(m, c, "printf");
    DeclareLookup(m, c, "main");
    DeclareLookup(m, c, x);
    AttachLookup(Declare(m, c).value, Lookup(m, "main").value, c, x);
  }

  /** What stops the pass first. */
  function Refusal(m: Module): Error {
    var main := Lookup(m, "main");
    if main.None? then NoMain
    else if !Usable(m, HANDLER, HANDLER_SIG) then NotAFunction(HANDLER)
    else if !Usable(m, "atexit", ATEXIT_SIG) then NotAFunction("atexit")
    else if !HasFront(main.value) then NoFront
    else if !Usable(m, "printf", PRINTF_SIG) then NotAFunction("printf")
    else NoCounter
  }

  lemma AcceptedLiterally(m: Module)
    ensures Accepted(m) <==>
      && Lookup(m, "main").Some?
      && Lookup(m, "main").value.blocks != [] && Lookup(m, "main").value.blocks[0] != []
      && Usable(m, "setupAtExit", Sig([], VoidT, false))
      && Usable(m, "atexit", Sig([PtrT(FnT(VoidT, []))], IntT(32), false))
      && Usable(m, "printf", Sig([PtrT(IntT(8))], IntT(32), true))
      && (if "bbCounter" in m.globals then !m.globals["bbCounter"].local else Lookup(m, "bbCounter").None?)
  {
  }

  /** The pass succeeds if and only if there is a main with a first instruction, nothing of another type
      has one of the three function names, and the counter's name is a variable that a lookup sees or
      free; otherwise it fails for the first of these reasons. */
  lemma AcceptedExactly(m: Module, suffix: string)
    requires suffix != [] && !Taken(m, "bbCounter" + suffix)
    ensures Instrument(m, suffix).Ok? <==>
      && Lookup(m, "main").Some?
      && Lookup(m, "main").value.blocks != [] && Lookup(m, "main").value.blocks[0] != []
      && Usable(m, "setupAtExit", Sig([], VoidT, false))
      && Usable(m, "atexit", Sig([PtrT(FnT(VoidT, []))], IntT(32), false))
      && Usable(m, "printf", Sig([PtrT(IntT(8))], IntT(32), true))
      && (if "bbCounter" in m.globals then !m.globals["bbCounter"].local else Lookup(m, "bbCounter").None?)
    ensures Instrument(m, suffix).Ok? <==> Accepted(m)
    ensures !Accepted(m) ==> Instrument(m, suffix) == Err(Refusal(m))
  {
    AcceptedLiterally(m);
    hide Setup, Accepted, Usable;
    if Accepted(m) {
      SetupLookup(m, suffix, HANDLER);
      AcceptedVisible(m, suffix);
    } else if Lookup(m, "main").Some? {
      Refused(m, suffix);
    } else {
      assert Setup(m, suffix) == Err(NoMain) by { NoMainFirst(m, suffix); }
    }
  }

  lemma NoMainFirst(m: Module, suffix: string)
    requires Lookup(m, "main").None?
    ensures Setup(m, suffix) == Err(NoMain)
  {
  }

  lemma AcceptedVisible(m: Module, suffix: string)
    requires Accepted(m)
    ensures CounterVisible(m.(globals := m.globals[CounterName(m, suffix) := GlobalVar(IntV(0), false)]))
  {
  }

  lemma Refused(m: Module, suffix: string)
    requires suffix != [] && !Taken(m, COUNTER + suffix) && !Accepted(m) && Lookup(m, "main").Some?
    ensures Instrument(m, suffix) == Err(Refusal(m))
  {
    SuffixName(suffix, HANDLER);
    SuffixName(suffix, "atexit");
    SuffixName(suffix, "printf");
    assert COUNTER + suffix != COUNTER by { assert |COUNTER + suffix| != |COUNTER|; }
    var c := CounterName(m, suffix);
    var main := Lookup(m, "main").value;
    if Usable(m, HANDLER, HANDLER_SIG) && Usable(m, "atexit", ATEXIT_SIG) {
      DeclareLookup(m, c, HANDLER);
      DeclareLookup(m, c, "printf");
      DeclareLookup(m, c, "main");
      var d := Declare(m, c).value;
      if HasFront(main) {
        if Usable(m, "printf", PRINTF_SIG) {
          AttachLookup(d, main, c, HANDLER);
        } else {
          LookupReplace(d.funcs, "main", PrependCall(main), "printf");
        }
      }
    } else {
      DeclareRefused(m, c);
    }
  }

  lemma DeclareRefused(m: Module, c: string)
    requires c != HANDLER && c != "atexit"
    requires !Usable(m, HANDLER, HANDLER_SIG) || !Usable(m, "atexit", ATEXIT_SIG)
    ensures Declare(m, c) == Err(NotAFunction(if Usable(m, HANDLER, HANDLER_SIG) then "atexit" else HANDLER))
  {
    var m1 := m.(globals := m.globals[c := GlobalVar(IntV(0), false)]);
    forall n ensures Lookup(m1, n) == Lookup(m, n) {}
    if Usable(m, HANDLER, HANDLER_SIG) {
      LookupGetOrInsert(m1, HANDLER, HANDLER_SIG, "atexit");
    }
  }

  /** What a lookup finds in the result of the pass. */
  lemma ResultLookup(m: Module, suffix: string, x: string)
    requires Accepted(m)
    ensures Instrument(m, suffix).Ok?
    ensures var t := Instrument(m, suffix).value;
      && t.globals == m.globals[CounterName(m, suffix) := GlobalVar(IntV(0), false)]
      && Lookup(t, x) == MapFn(AfterSetup(m, CounterName(m, suffix), x))
  {
    hide Setup, Accepted, AfterSetup;
    SetupLookup(m, suffix, x);
    AcceptedVisible(m, suffix);
    LookupInstr(Setup(m, suffix).value.funcs, x);
  }

  /** The calls that the pass inserts fit the functions they go to: the registration passes one
      argument, the report its text and the number. */
  lemma InsertedCallsFit(m: Module, suffix: string)
    requires suffix != [] && !Taken(m, COUNTER + suffix) && Instrument(m, suffix).Ok?
    ensures var t := Instrument(m, suffix).value;
      && Lookup(t, "atexit").Some? && Lookup(t, "printf").Some? && Lookup(t, "setupAtExit").Some?
      && Lookup(t, "atexit").value.sig == Sig([PtrT(FnT(VoidT, []))], IntT(32), false)
      && Lookup(t, "printf").value.sig == Sig([PtrT(IntT(8))], IntT(32), true)
      && Lookup(t, "setupAtExit").value.sig == Sig([], VoidT, false)
    ensures forall id: nat :: AtexitCall(id).callee == Const(FnV("atexit")) && |AtexitCall(id).args| == 1
    ensures forall c, id: nat ::
      ReportBlock(c, id)[1].callee == Const(FnV("printf")) && |ReportBlock(c, id)[1].args| == 2
    ensures var t := Instrument(m, suffix).value;
      Accepts(Lookup(t, "atexit").value.sig, 1) && Accepts(Lookup(t, "printf").value.sig, 2)
  {
    AcceptedExactly(m, suffix);
    hide Instrument, Accepted;
    ResultLookup(m, suffix, "atexit");
    ResultLookup(m, suffix, "printf");
    ResultLookup(m, suffix, HANDLER);
    ResultSig(m, CounterName(m, suffix));
  }

  lemma ResultSig(m: Module, c: string)
    requires Accepted(m)
    ensures AfterSetup(m, c, "atexit").Some? && InstrOne(AfterSetup(m, c, "atexit").value).sig == ATEXIT_SIG
    ensures AfterSetup(m, c, "printf").Some? && InstrOne(AfterSetup(m, c, "printf").value).sig == PRINTF_SIG
    ensures AfterSetup(m, c, HANDLER).Some? && InstrOne(AfterSetup(m, c, HANDLER).value).sig == HANDLER_SIG
  {
  }

  // ---------- names that are taken ----------

  /** The last thing before the terminator is an increment of `c`. */
  ghost predicate IncrementsAtEnd(b: seq<Instr>, c: string) {
    |b| >= 4 && exists id: nat :: b[|b|-4..|b|-1] == Increment(c, id)
  }

  /** Every block increments the variable `c`. */
  ghost predicate Counts(f: Fn, c: string) {
    forall b :: 0 <= b < |f.blocks| ==> IncrementsAtEnd(f.blocks[b], c)
  }

  /** The last block prints the variable `c`. */
  ghost predicate ReportsLast(f: Fn, c: string) {
    f.blocks != [] && exists id: nat :: f.blocks[|f.blocks| - 1] == ReportBlock(c, id)
  }

  /** Every function but the handler increments the variable that a lookup by name finds; the report
      reads the variable that was created. These are one variable exactly when the name was free. */
  lemma SharedCounter(m: Module, suffix: string)
    requires ModuleOk(m) && Accepted(m) && suffix != []
    ensures Instrument(m, suffix).Ok?
    ensures var t, created := Instrument(m, suffix).value, CounterName(m, suffix);
      && (forall n :: n != HANDLER && Lookup(t, n).Some? ==> Counts(Lookup(t, n).value, COUNTER))
      && Lookup(t, HANDLER).Some? && ReportsLast(Lookup(t, HANDLER).value, created)
      && created in t.globals && t.globals[created].init == IntV(0)
      && (created == COUNTER <==> !Taken(m, COUNTER))
  {
    hide Accepted, ModuleIn, Counts, ReportsLast, AfterSetup, AppendReport, Instrument;
    ResultLookup(m, suffix, HANDLER);
    var t, c := Instrument(m, suffix).value, CounterName(m, suffix);
    forall n | n != HANDLER && Lookup(t, n).Some?
      ensures Counts(Lookup(t, n).value, COUNTER)
    {
      ResultLookup(m, suffix, n);
      CountsInResult(m, c, n);
    }
    AfterHandler(m, c);
    ReportLast(HandlerBefore(m), c);
    assert |COUNTER + suffix| > |COUNTER|;
  }

  lemma AfterHandler(m: Module, c: string)
    requires Accepted(m)
    ensures AfterSetup(m, c, HANDLER) == Some(AppendReport(HandlerBefore(m), c))
    ensures HandlerBefore(m).name == HANDLER
  {
  }

  lemma ReportLast(f: Fn, c: string)
    requires f.name == HANDLER
    ensures InstrOne(AppendReport(f, c)).blocks == f.blocks + [ReportBlock(c, f.next)]
    ensures ReportsLast(InstrOne(AppendReport(f, c)), c)
  {
  }

  lemma IncrementAtEnd(b: seq<Instr>, id: nat)
    requires HasTerminator(b)
    ensures IncrementsAtEnd(InstrBlock(b, COUNTER, id), COUNTER)
  {
    var e := InstrBlock(b, COUNTER, id);
    assert e[|e|-4..|e|-1] == Increment(COUNTER, id);
  }

  lemma CountsOne(f: Fn)
    requires f.name != HANDLER && forall b :: 0 <= b < |f.blocks| ==> HasTerminator(f.blocks[b])
    ensures Counts(InstrOne(f), COUNTER)
  {
    hide InstrBlock, IncrementsAtEnd, HasTerminator;
    var d := InstrOne(f);
    forall b | 0 <= b < |d.blocks|
      ensures IncrementsAtEnd(d.blocks[b], COUNTER)
    {
      IncrementAtEnd(f.blocks[b], f.next + 2 * b);
    }
  }

  lemma CountsInResult(m: Module, c: string, n: string)
    requires ModuleOk(m) && Accepted(m) && n != HANDLER && AfterSetup(m, c, n).Some?
    ensures Counts(InstrOne(AfterSetup(m, c, n).value), COUNTER)
  {
    hide ModuleIn, FnOk, InstrOne, Counts;
    var f := AfterSetup(m, c, n).value;
    forall b | 0 <= b < |f.blocks|
      ensures HasTerminator(f.blocks[b])
    {
      if Lookup(m, n).Some? {
        BlockOkOf(m, m, n, b);
      }
    }
    CountsOne(f);
  }

  /** Where the reporting block stands in the handler. */
  function ReportIndex(m: Module): nat {
    |HandlerBefore(m).blocks|
  }

  /** No branch leads to block `n` or beyond. */
  predicate NoWayTo(f: Fn, n: nat) {
    forall b, k, l :: 0 <= b < |f.blocks| && 0 <= k < |f.blocks[b]| && 0 <= l < |Targets(f.blocks[b][k])| ==>
      Targets(f.blocks[b][k])[l] < n
  }

  /** The reporting block comes after the blocks that the handler already has, and no branch leads
      there; so it is where the handler is entered if and only if the handler had no body. */
  lemma TakenHandler(m: Module, suffix: string)
    requires ModuleOk(m) && Accepted(m)
    ensures Instrument(m, suffix).Ok?
    ensures var h := Lookup(Instrument(m, suffix).value, HANDLER);
      && h.Some?
      && h.value.blocks == HandlerBefore(m).blocks + [ReportBlock(CounterName(m, suffix), HandlerBefore(m).next)]
      && |h.value.blocks| == ReportIndex(m) + 1 && NoWayTo(h.value, ReportIndex(m))
    ensures ReportIndex(m) == 0 <==> !Defined(m, HANDLER)
  {
    hide Accepted, ModuleIn, AfterSetup, AppendReport, Instrument, FnOk, ReportBlock, NoWayTo;
    ResultLookup(m, suffix, HANDLER);
    var d := HandlerBefore(m);
    AfterHandler(m, CounterName(m, suffix));
    ReportLast(d, CounterName(m, suffix));
    if Lookup(m, HANDLER).Some? {
      FnOkOf(m, m, HANDLER);
    } else {
      DeclFnOk(m, d);
    }
    NoWayPast(m, d, CounterName(m, suffix), Lookup(Instrument(m, suffix).value, HANDLER).value);
  }

  lemma DeclFnOk(m: Module, d: Fn)
    requires d.blocks == [] && d.next == 0
    ensures FnOk(m, d)
  {
  }

  lemma NoWayPast(m: Module, d: Fn, c: string, h: Fn)
    requires FnOk(m, d) && h.blocks == d.blocks + [ReportBlock(c, d.next)]
    ensures NoWayTo(h, |d.blocks|)
  {
    forall b, k | 0 <= b < |h.blocks| && 0 <= k < |h.blocks[b]|
      ensures forall l :: 0 <= l < |Targets(h.blocks[b][k])| ==> Targets(h.blocks[b][k])[l] < |d.blocks|
    {
      if b < |d.blocks| {
        assert InstrOk(m, d, d.blocks[b][k]);
      }
    }
  }

  /** On a module with the names free, the result is what the simulation is about. */
  lemma FreshInstrumented(m: Module, suffix: string)
    requires ModuleOk(m) && Fresh(m)
    ensures Instrument(m, suffix).Ok? && Instrumented(m, Instrument(m, suffix).value)
  {
    hide ModuleIn, Setup, InstrOne, InstrDef, AppendReport, Accepted;
    FreshAccepted(m);
    SetupLookup(m, suffix, HANDLER);
    AcceptedVisible(m, suffix);
    var t0 := Setup(m, suffix).value;
    var t := Instrument(m, suffix).value;
    forall n
      ensures Lookup(t, n) == MapFn(Lookup(t0, n))
    {
      LookupInstr(t0.funcs, n);
    }
    SetupLookup(m, suffix, "atexit");
    SetupLookup(m, suffix, "printf");
    FreshParts(m);
    forall n | Lookup(m, n).Some?
      ensures Lookup(t, n) == Some(InstrDef(Lookup(m, n).value))
    {
      SetupLookup(m, suffix, n);
      OneIsDef(Lookup(m, n).value);
    }
  }

  lemma FreshAccepted(m: Module)
    requires ModuleOk(m) && Fresh(m)
    ensures Accepted(m)
  {
    FnOkOf(m, m, "main");
  }

  lemma FreshParts(m: Module)
    requires Fresh(m)
    ensures InstrOne(AppendReport(Fn(HANDLER, HANDLER_SIG, [], 0), COUNTER)) == ReportFn()
    ensures forall d: Fn :: InstrOne(d).sig == d.sig && (d.blocks == [] ==> InstrOne(d).blocks == [])
  {
  }

  // ---------- the functions of the result, in order ----------

  function Defs(fs: seq<Fn>): (r: seq<Fn>)
    ensures |r| == |fs|
    ensures forall i :: 0 <= i < |fs| ==> r[i] == InstrDef(fs[i])
  {
    seq(|fs|, i requires 0 <= i < |fs| => InstrDef(fs[i]))
  }

  /** The declaration added for a library function that the module does not have yet. */
  function Added(m: Module, n: string, sig: Sig): seq<Fn> {
    if Lookup(m, n).Some? then [] else [Fn(n, sig, [], 0)]
  }

  function AddedDecls(m: Module): seq<Fn> {
    Added(m, "atexit", ATEXIT_SIG) + Added(m, "printf", PRINTF_SIG)
  }

  lemma {:induction false} ReplaceConcat(a: seq<Fn>, b: seq<Fn>, n: string, g: Fn)
    ensures ReplaceIn(a + b, n, g) == if LookupIn(a, n).Some? then ReplaceIn(a, n, g) + b else a + ReplaceIn(b, n, g)
  {
    if a == [] {
      assert a + b == b;
    } else {
      assert (a + b)[1..] == a[1..] + b;
      ReplaceConcat(a[1..], b, n, g);
      assert [g] + (a[1..] + b) == ([g] + a[1..]) + b;
      assert [a[0]] + (a[1..] + ReplaceIn(b, n, g)) == a + ReplaceIn(b, n, g);
      assert [a[0]] + (ReplaceIn(a[1..], n, g) + b) == ([a[0]] + ReplaceIn(a[1..], n, g)) + b;
    }
  }

  lemma OneIsDef(f: Fn)
    requires f.name != HANDLER
    ensures f.name == "main" && f.blocks != [] ==> InstrOne(PrependCall(f)) == InstrDef(f)
    ensures f.name != "main" ==> InstrOne(f) == InstrDef(f)
  {
  }

  /** Replacing the one function of a name and instrumenting all is instrumenting each. */
  lemma {:induction false} ReplaceInstr(fs: seq<Fn>)
    requires forall i, j :: 0 <= i < j < |fs| ==> fs[i].name != fs[j].name
    requires forall i :: 0 <= i < |fs| ==> fs[i].name != HANDLER
    requires LookupIn(fs, "main").Some? ==> LookupIn(fs, "main").value.blocks != []
    ensures (if LookupIn(fs, "main").Some?
             then InstrAll(ReplaceIn(fs, "main", PrependCall(LookupIn(fs, "main").value)))
             else InstrAll(fs)) == Defs(fs)
  {
    hide InstrOne, InstrDef, PrependCall, InstrAll;
    if fs != [] {
      OneIsDef(fs[0]);
      ReplaceInstr(fs[1..]);
      assert Defs(fs) == [InstrDef(fs[0])] + Defs(fs[1..]);
      if fs[0].name == "main" {
        assert LookupIn(fs[1..], "main").None?;
        InstrCons(PrependCall(fs[0]), fs[1..]);
      } else if LookupIn(fs, "main").Some? {
        InstrCons(fs[0], ReplaceIn(fs[1..], "main", PrependCall(LookupIn(fs, "main").value)));
      } else {
        InstrCons(fs[0], fs[1..]);
        assert [fs[0]] + fs[1..] == fs;
      }
    }
  }

  lemma InstrCons(f: Fn, fs: seq<Fn>)
    ensures InstrAll([f] + fs) == [InstrOne(f)] + InstrAll(fs)
  {
    hide InstrOne;
  }

  lemma InstrConcat(a: seq<Fn>, b: seq<Fn>)
    ensures InstrAll(a + b) == InstrAll(a) + InstrAll(b)
  {
  }

  lemma InsertedFuncs(m: Module, n: string, sig: Sig)
    requires GetOrInsert(m, n, sig).Ok?
    ensures GetOrInsert(m, n, sig).value == m.(funcs := m.funcs + Added(m, n, sig))
  {
    assert m.funcs + [] == m.funcs;
  }

  lemma SetupFront(m: Module)
    requires ModuleOk(m) && Fresh(m)
    ensures var m1 := m.(globals := m.globals[COUNTER := GlobalVar(IntV(0), false)]);
      var m2 := GetOrInsert(m1, HANDLER, HANDLER_SIG);
      && m2.Ok?
      && GetOrInsert(m2.value, "atexit", ATEXIT_SIG)
           == Ok(m1.(funcs := m.funcs + ([HandlerDecl()] + Added(m, "atexit", ATEXIT_SIG))))
      && LookupIn(m.funcs + ([HandlerDecl()] + Added(m, "atexit", ATEXIT_SIG)), "printf") == Lookup(m, "printf")
  {
    var m1 := m.(globals := m.globals[COUNTER := GlobalVar(IntV(0), false)]);
    forall n ensures Lookup(m1, n) == Lookup(m, n) {}
    InsertedFuncs(m1, HANDLER, HANDLER_SIG);
    var m2 := GetOrInsert(m1, HANDLER, HANDLER_SIG).value;
    LookupGetOrInsert(m1, HANDLER, HANDLER_SIG, "atexit");
    LookupGetOrInsert(m1, HANDLER, HANDLER_SIG, "printf");
    InsertedFuncs(m2, "atexit", ATEXIT_SIG);
    LookupGetOrInsert(m2, "atexit", ATEXIT_SIG, "printf");
    assert GetOrInsert(m2, "atexit", ATEXIT_SIG).value.funcs
        == m.funcs + ([HandlerDecl()] + Added(m, "atexit", ATEXIT_SIG));
  }

  lemma HandlerReplaced(fs: seq<Fn>, rest: seq<Fn>)
    requires LookupIn(fs, HANDLER).None?
    ensures LookupIn(fs + ([HandlerDecl()] + rest), HANDLER) == Some(HandlerDecl())
    ensures ReplaceIn(fs + ([HandlerDecl()] + rest), HANDLER, ReportFn()) == fs + ([ReportFn()] + rest)
  {
    hide ReportFn;
    assert ([HandlerDecl()] + rest)[1..] == rest;
    LookupConcat(fs, [HandlerDecl()] + rest, HANDLER);
    ReplaceConcat(fs, [HandlerDecl()] + rest, HANDLER, ReportFn());
  }

  /** The last stages on a list of functions `us`, with declarations `da` and `dp` after the handler. */
  lemma SetupBack(us: seq<Fn>, p: Fn, da: seq<Fn>, dp: seq<Fn>)
    requires LookupIn(us, "main").Some? && LookupIn(us, HANDLER).None? && p.name == "main"
    ensures var fs := ReplaceIn(us, "main", p);
      && ReplaceIn(us + ([HandlerDecl()] + da), "main", p) == fs + ([HandlerDecl()] + da)
      && LookupIn(fs + ([HandlerDecl()] + (da + dp)), HANDLER) == Some(HandlerDecl())
      && ReplaceIn(fs + ([HandlerDecl()] + (da + dp)), HANDLER, ReportFn()) == fs + ([ReportFn()] + (da + dp))
  {
    hide ReplaceIn, ReportFn, HandlerDecl, LookupIn;
    var fs := ReplaceIn(us, "main", p);
    ReplaceConcat(us, [HandlerDecl()] + da, "main", p);
    LookupReplace(us, "main", p, HANDLER);
    HandlerReplaced(fs, da + dp);
  }

  lemma SetupFresh(m: Module, suffix: string)
    requires ModuleOk(m) && Fresh(m)
    ensures Setup(m, suffix) == Ok(Module(m.globals[COUNTER := GlobalVar(IntV(0), false)],
      ReplaceIn(m.funcs, "main", PrependCall(Lookup(m, "main").value)) + ([ReportFn()] + AddedDecls(m))))
  {
    hide ModuleIn, GetOrInsert, PrependCall, ReplaceIn;
    var p := PrependCall(Lookup(m, "main").value);
    FreshAccepted(m);
    var fs := ReplaceIn(m.funcs, "main", p);
    var da, dp := Added(m, "atexit", ATEXIT_SIG), Added(m, "printf", PRINTF_SIG);
    SetupFront(m);
    PrependName(Lookup(m, "main").value);
    SetupBack(m.funcs, p, da, dp);
    var m4 := Module(m.globals[COUNTER := GlobalVar(IntV(0), false)], fs + ([HandlerDecl()] + da));
    assert m4.funcs == ReplaceIn(m.funcs + ([HandlerDecl()] + da), "main", p);
    LookupReplace(m.funcs + ([HandlerDecl()] + da), "main", p, "printf");
    PrintfInserted(m, m4);
    assert fs + ([HandlerDecl()] + da) + dp == fs + ([HandlerDecl()] + (da + dp));
    assert AppendReport(HandlerDecl(), COUNTER) == ReportFn();
  }

  lemma PrependName(f: Fn)
    requires f.blocks != []
    ensures PrependCall(f).name == f.name
  {
  }

  lemma PrintfInserted(m: Module, m4: Module)
    requires Fresh(m) && Lookup(m4, "printf") == Lookup(m, "printf")
    requires m4.globals == m.globals[COUNTER := GlobalVar(IntV(0), false)]
    ensures GetOrInsert(m4, "printf", PRINTF_SIG) == Ok(m4.(funcs := m4.funcs + Added(m, "printf", PRINTF_SIG)))
  {
    InsertedFuncs(m4, "printf", PRINTF_SIG);
  }

  /** The original functions, instrumented and in their order; then the handler; then declarations. */
  lemma FreshFuncs(m: Module, suffix: string)
    requires ModuleOk(m) && Fresh(m)
    ensures Instrument(m, suffix) == Ok(
      Module(m.globals[COUNTER := GlobalVar(IntV(0), false)], Defs(m.funcs) + [ReportFn()] + AddedDecls(m)))
  {
    hide Setup, ReplaceIn, PrependCall;
    SetupFresh(m, suffix);
    var fs := ReplaceIn(m.funcs, "main", PrependCall(Lookup(m, "main").value));
    InstrConcat(fs, [ReportFn()] + AddedDecls(m));
    InstrConcat([ReportFn()], AddedDecls(m));
    FreshMain(m);
    ReplaceInstr(m.funcs);
    assert InstrAll([ReportFn()]) == [ReportFn()];
    DeclsStay(m);
    assert [ReportFn()] + AddedDecls(m) == InstrAll([ReportFn()] + AddedDecls(m));
    assert Defs(m.funcs) + ([ReportFn()] + AddedDecls(m)) == Defs(m.funcs) + [ReportFn()] + AddedDecls(m);
  }

  lemma DeclsStay(m: Module)
    ensures InstrAll(AddedDecls(m)) == AddedDecls(m)
  {
    var d := AddedDecls(m);
    forall i | 0 <= i < |d|
      ensures InstrOne(d[i]) == d[i]
    {
      assert d[i].blocks == [] && d[i].next == 0;
      assert InstrFn(d[i], COUNTER).blocks == [];
    }
  }

  lemma FreshMain(m: Module)
    requires Fresh(m)
    ensures forall i :: 0 <= i < |m.funcs| ==> m.funcs[i].name != HANDLER
  {
  }
}
