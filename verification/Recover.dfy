/** Instrumentation keeps modules well-formed and single-assignment, and can be undone. */
module Recover {
  import opened Wrappers
  import opened IR
  import opened CountBB
  import opened Simulation
  import opened Pass

  // ---------- well-formedness ----------

  /** Position `j` of an instrumented block, seen from the original one. */
  lemma ShapeAt(o: seq<Instr>, e: seq<Instr>, h: nat, id: nat, j: nat)
    requires Shape(o, e, h, id) && h <= j < |e|
    ensures j - h < |o| - 1 ==> e[j] == o[j - h]
    ensures |o| - 1 <= j - h < |o| + 2 ==> e[j] == Increment(COUNTER, id)[j - h - |o| + 1]
    ensures j - h == |o| + 2 ==> e[j] == o[|o| - 1]
  {
    if j - h < |o| - 1 {
      assert e[(j - h) + h] == o[j - h];
    } else if j - h < |o| + 2 {
      var k := j - h - |o| + 1;
      assert e[|o| + h - 1 + k] == Increment(COUNTER, id)[k];
    }
  }

  lemma {:induction false} NoPhis(o: seq<Instr>, k: nat)
    requires BlockOk(o) && !o[0].Phi? && k < |o|
    ensures !o[k].Phi?
  {
    if k > 0 {
      NoPhis(o, k - 1);
    }
  }

  /** One terminator at the end, phis at the front: both survive. */
  lemma InstrBlockOk(f: Fn, b: nat)
    requires b < |f.blocks| && BlockOk(f.blocks[b]) && (b == 0 ==> !f.blocks[0][0].Phi?)
    ensures BlockOk(InstrDef(f).blocks[b])
    ensures b == 0 ==> !InstrDef(f).blocks[0][0].Phi?
  {
    var o, e, h, id := f.blocks[b], InstrDef(f).blocks[b], Shift(f, b), TempId(f, b);
    BlockShape(f, b);
    forall j | 0 <= j < |e|
      ensures IsTerm(e[j]) <==> j == |e| - 1
    {
      if j >= h {
        ShapeAt(o, e, h, id, j);
      }
    }
    forall j | 0 < j < |e| && e[j].Phi?
      ensures e[j - 1].Phi?
    {
      ShapeAt(o, e, h, id, j);
      assert o[j - h].Phi? && j - h < |o| - 1;
      if h == 1 || j - h == 0 {
        NoPhis(o, j - h) by { assert h == 1 ==> b == 0; }
      } else {
        ShapeAt(o, e, h, id, j - 1);
      }
    }
    if b == 0 && h == 0 {
      ShapeAt(o, e, h, id, 0);
    }
  }

  lemma OperandKept(m: Module, t: Module, f: Fn, o: Operand)
    requires Instrumented(m, t) && OperandOk(m, f, o)
    ensures OperandOk(t, InstrDef(f), o)
  {
  }

  lemma InstrKept(m: Module, t: Module, f: Fn, i: Instr)
    requires Instrumented(m, t) && InstrOk(m, f, i) && |InstrDef(f).blocks| == |f.blocks|
    ensures InstrOk(t, InstrDef(f), i)
  {
    forall k | 0 <= k < |Operands(i)|
      ensures OperandOk(t, InstrDef(f), Operands(i)[k])
    {
      OperandKept(m, t, f, Operands(i)[k]);
    }
  }

  lemma NextOf(f: Fn)
    ensures InstrDef(f).next == f.next + (if f.name == "main" && f.blocks != [] then 1 else 0) + 2 * |f.blocks|
    ensures InstrDef(f).name == f.name && InstrDef(f).sig == f.sig && |InstrDef(f).blocks| == |f.blocks|
  {
  }

  lemma NewConstants(m: Module, t: Module)
    requires Instrumented(m, t)
    ensures ConstOk(t, PtrV(GlobalA(COUNTER))) && ConstOk(t, IntV(1))
    ensures ConstOk(t, FnV("atexit")) && ConstOk(t, FnV(HANDLER))
  {
  }

  lemma IncrementOk(t: Module, d: Fn, id: nat, k: nat)
    requires ConstOk(t, PtrV(GlobalA(COUNTER))) && ConstOk(t, IntV(1)) && id + 1 < d.next && k < 3
    ensures InstrOk(t, d, Increment(COUNTER, id)[k])
  {
    hide ConstOk;
  }

  lemma AtexitOk(t: Module, d: Fn, id: nat)
    requires ConstOk(t, FnV("atexit")) && ConstOk(t, FnV(HANDLER)) && id < d.next
    ensures InstrOk(t, d, AtexitCall(id))
  {
    hide ConstOk;
    assert Operands(AtexitCall(id)) == [Const(FnV("atexit")), Const(FnV(HANDLER))];
  }

  lemma InsertedOk(m: Module, t: Module, f: Fn, b: nat, k: nat)
    requires Instrumented(m, t) && b < |f.blocks| && k < 3
    ensures InstrOk(t, InstrDef(f), Increment(COUNTER, TempId(f, b))[k])
    ensures InstrOk(t, InstrDef(f), AtexitCall(f.next))
  {
    hide InstrDef, InstrOk, ConstOk, Instrumented;
    NewConstants(m, t);
    NextOf(f);
    IncrementOk(t, InstrDef(f), TempId(f, b), k);
    AtexitOk(t, InstrDef(f), f.next);
  }

  lemma InstrDefOk(m: Module, t: Module, f: Fn)
    requires Instrumented(m, t) && FnOk(m, f)
    ensures FnOk(t, InstrDef(f))
  {
    hide InstrDef, InstrOk, BlockOk, Instrumented, Shape;
    var d := InstrDef(f);
    NextOf(f);
    forall b | 0 <= b < |d.blocks|
      ensures BlockOk(d.blocks[b])
    {
      InstrBlockOk(f, b);
    }
    forall b, k | 0 <= b < |d.blocks| && 0 <= k < |d.blocks[b]|
      ensures InstrOk(t, d, d.blocks[b][k])
    {
      InstrAtOk(m, t, f, b, k);
    }
    if f.blocks != [] {
      InstrBlockOk(f, 0);
    }
  }

  lemma InstrAtOk(m: Module, t: Module, f: Fn, b: nat, k: nat)
    requires Instrumented(m, t) && FnOk(m, f) && |InstrDef(f).blocks| == |f.blocks|
    requires b < |f.blocks| && k < |InstrDef(f).blocks[b]|
    ensures InstrOk(t, InstrDef(f), InstrDef(f).blocks[b][k])
  {
    hide InstrDef, InstrOk, Instrumented;
    var o, e, h, id := f.blocks[b], InstrDef(f).blocks[b], Shift(f, b), TempId(f, b);
    BlockShape(f, b);
    InsertedOk(m, t, f, b, 0);
    if k >= h {
      ShapeAt(o, e, h, id, k);
      if k - h < |o| - 1 {
        InstrKept(m, t, f, o[k - h]);
      } else if k - h < |o| + 2 {
        InsertedOk(m, t, f, b, k - h - |o| + 1);
      } else {
        InstrKept(m, t, f, o[|o| - 1]);
      }
    }
  }

  lemma DeclFacts(m: Module, i: nat)
    requires Fresh(m) && i < |AddedDecls(m)|
    ensures var d := AddedDecls(m)[i];
      d.blocks == [] && d.next == 0 && Lookup(m, d.name).None? && d.name !in m.globals
          && (d.name == "atexit" || d.name == "printf")
    ensures i > 0 ==> AddedDecls(m)[0].name != AddedDecls(m)[i].name
    ensures |AddedDecls(m)| <= 2
  {
  }

  function ResultFuncs(m: Module): seq<Fn> {
    Defs(m.funcs) + [ReportFn()] + AddedDecls(m)
  }

  lemma ResultFnsOk(m: Module, t: Module, i: nat)
    requires ModuleOk(m) && Fresh(m) && Instrumented(m, t) && i < |ResultFuncs(m)|
    ensures FnOk(t, ResultFuncs(m)[i]) && ResultFuncs(m)[i].name !in t.globals
  {
    hide FnOk, InstrDef, AddedDecls;
    var n := |m.funcs|;
    if i < n {
      InstrDefOk(m, t, m.funcs[i]);
      FreshNames(m, i);
      NextOf(m.funcs[i]);
    } else if i == n {
      ReportOk(t);
    } else {
      DeclFacts(m, i - n - 1);
      DeclOk(t, AddedDecls(m)[i - n - 1]);
    }
  }

  lemma DeclOk(t: Module, d: Fn)
    requires d.blocks == [] && d.next == 0
    ensures FnOk(t, d)
  {
  }

  lemma ResultNames(m: Module, i: nat, j: nat)
    requires ModuleOk(m) && Fresh(m) && i < j < |ResultFuncs(m)|
    ensures ResultFuncs(m)[i].name != ResultFuncs(m)[j].name
  {
    hide FnOk, InstrDef, AddedDecls;
    var n := |m.funcs|;
    if i < n {
      FreshNames(m, i);
      NextOf(m.funcs[i]);
      if j < n {
        NextOf(m.funcs[j]);
        assert m.funcs[i].name != m.funcs[j].name;
      } else if j > n {
        DeclFacts(m, j - n - 1);
      }
    } else {
      DeclFacts(m, j - n - 1);
    }
  }

  /** The result of the pass is a well-formed module. */
  lemma ResultOk(m: Module, suffix: string)
    requires ModuleOk(m) && Fresh(m)
    ensures Instrument(m, suffix).Ok? && ModuleOk(Instrument(m, suffix).value)
  {
    hide FnOk, Instrument, ResultFuncs, Instrumented;
    FreshFuncs(m, suffix);
    FreshInstrumented(m, suffix);
    var t := Instrument(m, suffix).value;
    assert t.funcs == ResultFuncs(m) by { ResultParts(m); }
    assert t.globals == m.globals[COUNTER := GlobalVar(IntV(0), false)];
    forall i | 0 <= i < |t.funcs|
      ensures FnOk(t, t.funcs[i]) && t.funcs[i].name !in t.globals
    {
      ResultFnsOk(m, t, i);
    }
    forall i, j | 0 <= i < j < |t.funcs|
      ensures t.funcs[i].name != t.funcs[j].name
    {
      ResultNames(m, i, j);
    }
    InitsKept(m, t);
  }

  lemma ResultParts(m: Module)
    ensures ResultFuncs(m) == Defs(m.funcs) + [ReportFn()] + AddedDecls(m)
  {
  }

  lemma InitsKept(m: Module, t: Module)
    requires ModuleOk(m) && Instrumented(m, t)
    ensures forall n :: n in t.globals ==> ConstOk(t, t.globals[n].init)
  {
  }

  lemma FreshNames(m: Module, i: nat)
    requires ModuleOk(m) && Fresh(m) && i < |m.funcs|
    ensures m.funcs[i].name != HANDLER && m.funcs[i].name != COUNTER && m.funcs[i].name !in m.globals
    ensures Lookup(m, m.funcs[i].name).Some?
  {
  }

  lemma ReportOk(t: Module)
    requires COUNTER in t.globals && Lookup(t, "printf").Some?
    ensures FnOk(t, ReportFn())
  {
    var b := ReportBlock(COUNTER, 0);
    assert Operands(b[1]) == [Const(FnV("printf")), Const(StrV(FORMAT)), Reg(0)];
  }

  // ---------- single assignment ----------

  predicate SingleAssignment(f: Fn) {
    forall b, k, b', k' |
        && 0 <= b < |f.blocks| && 0 <= k < |f.blocks[b]|
        && 0 <= b' < |f.blocks| && 0 <= k' < |f.blocks[b']|
        && Def(f.blocks[b][k]).Some? && Def(f.blocks[b][k]) == Def(f.blocks[b'][k'])
      :: b == b' && k == k'
  }

  /** Which register position `k` of instrumented block `b` defines. */
  lemma DefAt(m: Module, f: Fn, b: nat, k: nat)
    requires FnOk(m, f) && b < |f.blocks| && |InstrDef(f).blocks| == |f.blocks| && k < |InstrDef(f).blocks[b]|
    ensures var o, e, h, id := f.blocks[b], InstrDef(f).blocks[b], Shift(f, b), TempId(f, b);
      && |e| == |o| + h + 3
      && (k < h ==> Def(e[k]) == Some(f.next))
      && (h <= k < |o| + h - 1 ==> e[k] == o[k - h] && (Def(e[k]).Some? ==> Def(e[k]).value < f.next))
      && (k == |o| + h - 1 ==> Def(e[k]) == Some(id))
      && (k == |o| + h ==> Def(e[k]) == Some(id + 1))
      && (k > |o| + h ==> Def(e[k]).None?)
  {
    BlockShape(f, b);
    if k >= Shift(f, b) {
      ShapeAt(f.blocks[b], InstrDef(f).blocks[b], Shift(f, b), TempId(f, b), k);
      if k - Shift(f, b) < |f.blocks[b]| - 1 {
        assert InstrOk(m, f, f.blocks[b][k - Shift(f, b)]);
      }
    }
  }

  /** The new registers are all different, and different from the old ones. */
  lemma InstrSingleAssignment(m: Module, f: Fn)
    requires FnOk(m, f) && SingleAssignment(f)
    ensures SingleAssignment(InstrDef(f))
  {
    hide InstrDef, FnOk;
    NextOf(f);
    var d := InstrDef(f);
    forall b, k, b', k' | 0 <= b < |d.blocks| && 0 <= k < |d.blocks[b]| && 0 <= b' < |d.blocks|
        && 0 <= k' < |d.blocks[b']|
      && Def(d.blocks[b][k]).Some? && Def(d.blocks[b][k]) == Def(d.blocks[b'][k'])
      ensures b == b' && k == k'
    {
      DefAt(m, f, b, k);
      DefAt(m, f, b', k');
    }
  }

  // ---------- undoing the pass ----------

  predicate IsCounterLoad(i: Instr) {
    i.Load? && i.ptr == CounterRef(COUNTER)
  }

  predicate IsRegistration(i: Instr) {
    i.Call? && Const(FnV(HANDLER)) in i.args
  }

  /** Drop the increments and the registration. */
  function StripBlock(b: seq<Instr>): seq<Instr> {
    if b == [] then []
    else if IsCounterLoad(b[0]) && |b| >= 3 then StripBlock(b[3..])
    else if IsRegistration(b[0]) then StripBlock(b[1..])
    else [b[0]] + StripBlock(b[1..])
  }

  function StripNext(f: Fn): nat {
    var used := if f.blocks == [] then 0 else 2 * |f.blocks| + if f.name == "main" then 1 else 0;
    if used <= f.next then f.next - used else 0
  }

  function StripFn(f: Fn): (r: Fn)
    ensures |r.blocks| == |f.blocks|
  {
    f.(blocks := seq(|f.blocks|, k requires 0 <= k < |f.blocks| => StripBlock(f.blocks[k])), next := StripNext(f))
  }

  function StripFuncs(fs: seq<Fn>): seq<Fn> {
    if fs == [] then []
    else (if fs[0].name == HANDLER then [] else [StripFn(fs[0])]) + StripFuncs(fs[1..])
  }

  /** Delete the counter, the handler and every inserted instruction. */
  function Strip(t: Module): Module {
    Module(t.globals - {COUNTER}, StripFuncs(t.funcs))
  }

  lemma {:induction false} StripUser(o: seq<Instr>, x: seq<Instr>)
    requires forall k :: 0 <= k < |o| ==> !IsCounterLoad(o[k]) && !IsRegistration(o[k])
    ensures StripBlock(o + x) == o + StripBlock(x)
  {
    if o == [] {
      assert o + x == x;
    } else {
      assert (o + x)[1..] == o[1..] + x;
      StripUser(o[1..], x);
      assert [o[0]] + (o[1..] + StripBlock(x)) == o + StripBlock(x);
    }
  }

  lemma StripIncrement(id: nat, x: seq<Instr>)
    ensures StripBlock(Increment(COUNTER, id) + x) == StripBlock(x)
  {
    assert (Increment(COUNTER, id) + x)[3..] == x;
  }

  lemma StripRegistration(id: nat, x: seq<Instr>)
    ensures StripBlock([AtexitCall(id)] + x) == StripBlock(x)
  {
    assert ([AtexitCall(id)] + x)[1..] == x;
    assert Const(FnV(HANDLER)) in AtexitCall(id).args;
  }

  /** No instruction of a module with the names free is taken for an inserted one. */
  lemma UserInstr(m: Module, f: Fn, i: Instr)
    requires Fresh(m) && InstrOk(m, f, i)
    ensures !IsCounterLoad(i) && !IsRegistration(i)
  {
    if i.Load? {
      assert Operands(i)[0] == i.ptr;
    }
    if i.Call? {
      forall k | 0 <= k < |i.args| ensures i.args[k] != Const(FnV(HANDLER)) { assert Operands(i)[k + 1] == i.args[k]; }
    }
  }

  function Front(f: Fn, b: nat): seq<Instr> {
    if Shift(f, b) == 1 then [AtexitCall(f.next)] else []
  }

  /** An instrumented block in parts. */
  lemma BlockParts(f: Fn, b: nat)
    requires b < |f.blocks| == |InstrDef(f).blocks| && BlockOk(f.blocks[b])
    ensures var o := f.blocks[b];
      InstrDef(f).blocks[b] == Front(f, b) + (o[..|o|-1] + (Increment(COUNTER, TempId(f, b)) + [o[|o|-1]]))
  {
    hide InstrDef;
    var o, e, h, id := f.blocks[b], InstrDef(f).blocks[b], Shift(f, b), TempId(f, b);
    BlockShape(f, b);
    var rest := o[..|o|-1] + (Increment(COUNTER, id) + [o[|o|-1]]);
    forall j | h <= j < |e| ensures e[j] == rest[j - h] { ShapeAt(o, e, h, id, j); }
    assert e == Front(f, b) + rest;
  }

  lemma StripInstrBlock(m: Module, f: Fn, b: nat)
    requires Fresh(m) && FnOk(m, f) && b < |f.blocks| == |InstrDef(f).blocks|
    ensures StripBlock(InstrDef(f).blocks[b]) == f.blocks[b]
  {
    hide InstrDef, StripBlock, Increment, AtexitCall, IsCounterLoad, IsRegistration;
    BlockParts(f, b);
    var o, id := f.blocks[b], TempId(f, b);
    var n := |o| - 1;
    forall k | 0 <= k < |o| ensures !IsCounterLoad(o[k]) && !IsRegistration(o[k]) { UserInstr(m, f, o[k]); }
    var rest := Increment(COUNTER, id) + [o[n]];
    StripFront(f, b, o[..n] + rest);
    StripUser(o[..n], rest);
    StripIncrement(id, [o[n]]);
    StripLast(o[n]);
    assert o[..n] + [o[n]] == o;
  }

  lemma StripFront(f: Fn, b: nat, x: seq<Instr>)
    ensures StripBlock(Front(f, b) + x) == StripBlock(x)
  {
    hide StripBlock;
    if Shift(f, b) == 1 {
      StripRegistration(f.next, x);
    } else {
      assert [] + x == x;
    }
  }

  lemma StripLast(i: Instr)
    requires !IsCounterLoad(i) && !IsRegistration(i)
    ensures StripBlock([i]) == [i]
  {
    assert [i][1..] == [];
  }

  lemma StripDef(m: Module, f: Fn)
    requires Fresh(m) && FnOk(m, f)
    ensures StripFn(InstrDef(f)) == f
  {
    NextOf(f);
    forall b | 0 <= b < |f.blocks| ensures StripFn(InstrDef(f)).blocks[b] == f.blocks[b] { StripInstrBlock(m, f, b); }
    assert StripFn(InstrDef(f)).blocks == f.blocks;
  }

  lemma {:induction false} StripFuncsConcat(a: seq<Fn>, b: seq<Fn>)
    ensures StripFuncs(a + b) == StripFuncs(a) + StripFuncs(b)
  {
    if a == [] {
      assert a + b == b;
    } else {
      assert (a + b)[1..] == a[1..] + b;
      StripFuncsConcat(a[1..], b);
    }
  }

  lemma {:induction false} StripDefs(m: Module, fs: seq<Fn>)
    requires Fresh(m) && forall i :: 0 <= i < |fs| ==> FnOk(m, fs[i]) && fs[i].name != HANDLER
    ensures StripFuncs(Defs(fs)) == fs
  {
    hide InstrDef, FnOk;
    if fs != [] {
      StripDef(m, fs[0]);
      NextOf(fs[0]);
      StripDefs(m, fs[1..]);
      assert Defs(fs)[1..] == Defs(fs[1..]);
      assert [fs[0]] + fs[1..] == fs;
    }
  }

  lemma {:induction false} StripDecls(d: seq<Fn>)
    requires forall i :: 0 <= i < |d| ==> d[i].blocks == [] && d[i].next == 0 && d[i].name != HANDLER
    ensures StripFuncs(d) == d
  {
    if d != [] {
      StripDecls(d[1..]);
      assert StripFn(d[0]).blocks == d[0].blocks;
      assert [d[0]] + d[1..] == d;
    }
  }

  lemma AllFnsOk(m: Module)
    requires ModuleOk(m)
    ensures forall i :: 0 <= i < |m.funcs| ==> FnOk(m, m.funcs[i])
  {
  }

  lemma StripHandler()
    ensures StripFuncs([ReportFn()]) == []
  {
    assert [ReportFn()][1..] == [];
  }

  /** Deleting what was inserted gives the original module back, up to the declarations of library
      functions that stay behind. */
  lemma Recovered(m: Module, suffix: string)
    requires ModuleOk(m) && Fresh(m)
    ensures Instrument(m, suffix).Ok?
    ensures Strip(Instrument(m, suffix).value) == m.(funcs := m.funcs + AddedDecls(m))
  {
    hide Instrument, FnOk, InstrDef, AddedDecls, ModuleIn, StripFuncs;
    FreshFuncs(m, suffix);
    FreshMain(m);
    assert forall i :: 0 <= i < |m.funcs| ==> FnOk(m, m.funcs[i]) by { AllFnsOk(m); }
    forall i | 0 <= i < |AddedDecls(m)|
      ensures AddedDecls(m)[i].blocks == [] && AddedDecls(m)[i].next == 0 && AddedDecls(m)[i].name != HANDLER
    {
      DeclFacts(m, i);
    }
    var t := Instrument(m, suffix).value;
    StripFuncsConcat(Defs(m.funcs) + [ReportFn()], AddedDecls(m));
    StripFuncsConcat(Defs(m.funcs), [ReportFn()]);
    StripDefs(m, m.funcs);
    StripDecls(AddedDecls(m));
    StripHandler();
    assert m.funcs + [] == m.funcs;
    assert t.globals - {COUNTER} == m.globals;
  }
}
