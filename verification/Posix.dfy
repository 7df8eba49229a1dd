/** Giving a parameterless main the two parameters of a hosted program (C11, section 5.1.2.2.1). */
module Posix {
  import opened Wrappers
  import opened Types
  import opened IR
  import opened Machine
  import opened Invariant
  import opened Unused

  /** AssertFailed: main has neither zero nor two parameters, or two of the wrong types.
      StillUsed: the old main cannot be erased while something refers to it. */
  datatype Error = AssertFailed | StillUsed

  const POSIX_SIG := Sig([IntT(32), PtrT(PtrT(IntT(8)))], IntT(32), false)

  /** argc is an integer and argv a pointer to a pointer to bytes. */
  predicate PosixTypes(ps: seq<Type>) {
    |ps| == 2 && ps[0].IntT? && ps[1].PtrT? && ps[1].elem.PtrT? && ps[1].elem.elem.IntT? && ps[1].elem.elem.bits == 8
  }

  /** The new main takes over all blocks of the old one, in their order. */
  function NewMain(f: Fn): Fn {
    Fn("main", POSIX_SIG, f.blocks, f.next)
  }

  /** The rewritten module and whether anything was changed. */
  function Posixize(m: Module): Result<(Module, bool), Error> {
    var main := Lookup(m, "main");
    if main.None? then Ok((m, false))
    else if |main.value.sig.params| == 2 then
      if PosixTypes(main.value.sig.params) then Ok((m, false)) else Err(AssertFailed)
    else if |main.value.sig.params| != 0 then Err(AssertFailed)
    else if Used(m, "main") then Err(StillUsed)
    else Ok((m.(funcs := RemoveFn(m.funcs, "main") + [NewMain(main.value)]), true))
  }

  /** A module whose main takes nothing, and in which everything makes sense without main. */
  predicate Plain(m: Module) {
    && ModuleOk(m) && ModuleIn(m, Without(m, "main"))
    && Defined(m, "main") && Lookup(m, "main").value.sig.params == []
  }

  function Rewritten(m: Module): Module
    requires Lookup(m, "main").Some?
  {
    m.(funcs := RemoveFn(m.funcs, "main") + [NewMain(Lookup(m, "main").value)])
  }

  // ---------- lookup ----------

  lemma LookupRewritten(m: Module, x: string)
    requires Plain(m)
    ensures Lookup(Rewritten(m), x) == if x == "main" then Some(NewMain(Lookup(m, "main").value)) else Lookup(m, x)
    ensures Lookup(Without(m, "main"), x) == if x == "main" then None else Lookup(m, x)
  {
    LookupRemove(m.funcs, "main", x);
    LookupConcat(RemoveFn(m.funcs, "main"), [NewMain(Lookup(m, "main").value)], x);
    var one := [NewMain(Lookup(m, "main").value)];
    assert one[1..] == [] && LookupIn(one[1..], x) == None;
  }

  lemma PlainIn(m: Module)
    requires Plain(m)
    ensures ModuleIn(m, Without(m, "main")) && !Used(m, "main")
  {
    hide ModuleIn, Used;
    UsedExactly(m, "main");
  }

  // ---------- the two runs in lockstep ----------

  /** Equal but for the arguments of main, which the old main has no way to read. */
  predicate TwinFrame(f: Frame, g: Frame) {
    g == f.(args := g.args) && (f.fn != "main" ==> g.args == f.args)
  }

  predicate Twin(s: State, r: State) {
    && r == s.(frames := r.frames)
    && |r.frames| == |s.frames|
    && forall i :: 0 <= i < |s.frames| ==> TwinFrame(s.frames[i], r.frames[i])
  }

  lemma TwinEval(m: Module, f: Frame, g: Frame, o: Operand)
    requires Plain(m) && TwinFrame(f, g) && FrameGood(m, Without(m, "main"), f)
    requires OperandOk(Without(m, "main"), Lookup(m, f.fn).value, o)
    ensures Eval(g, o) == Eval(f, o)
  {
  }

  lemma {:induction false} TwinEvalAll(m: Module, f: Frame, g: Frame, os: seq<Operand>)
    requires Plain(m) && TwinFrame(f, g) && FrameGood(m, Without(m, "main"), f)
    requires forall k :: 0 <= k < |os| ==> OperandOk(Without(m, "main"), Lookup(m, f.fn).value, os[k])
    ensures EvalAll(g, os) == EvalAll(f, os)
  {
    if os != [] {
      TwinEvalAll(m, f, g, os[..|os|-1]);
      TwinEval(m, f, g, os[|os|-1]);
    }
  }

  /** All operands of a good frame's instruction read the same in both machines. */
  lemma TwinOperands(m: Module, f: Frame, g: Frame, i: Instr)
    requires Plain(m) && TwinFrame(f, g) && FrameGood(m, Without(m, "main"), f)
    requires InstrOk(Without(m, "main"), Lookup(m, f.fn).value, i)
    ensures forall k :: 0 <= k < |Operands(i)| ==> Eval(g, Operands(i)[k]) == Eval(f, Operands(i)[k])
  {
    forall k | 0 <= k < |Operands(i)| ensures Eval(g, Operands(i)[k]) == Eval(f, Operands(i)[k]) {
      TwinEval(m, f, g, Operands(i)[k]);
    }
  }

  lemma TwinLocal(m: Module, s: State, r: State, i: Instr)
    requires Plain(m) && Twin(s, r) && s.frames != [] && FrameGood(m, Without(m, "main"), Top(s))
    requires InstrOk(Without(m, "main"), Lookup(m, Top(s).fn).value, i)
    ensures Twin(LocalStep(s, i), LocalStep(r, i))
  {
    hide Plain, FrameGood, InstrOk;
    var f, g := Top(s), Top(r);
    TwinOperands(m, f, g, i);
    assert Local(g, r.mem, r.cells, i) == Local(f, s.mem, s.cells, i) by {
      match i
      case Load(_, p) => assert Operands(i)[0] == p;
      case Store(o, p) => assert Operands(i)[0] == o && Operands(i)[1] == p;
      case Bin(_, _, x, y) => assert Operands(i)[0] == x && Operands(i)[1] == y;
      case _ =>
    }
  }

  lemma {:induction false} TwinPhis(m: Module, f: Frame, g: Frame, b: seq<Instr>, n: nat)
    requires Plain(m) && TwinFrame(f, g) && FrameGood(m, Without(m, "main"), f) && n <= |b|
    requires forall k :: 0 <= k < |b| ==> InstrOk(Without(m, "main"), Lookup(m, f.fn).value, b[k])
    ensures PhiRegs(g, b, n) == PhiRegs(f, b, n)
  {
    hide Plain, FrameGood, InstrOk, Without, OperandOk;
    if n > 0 {
      TwinPhis(m, f, g, b, n - 1);
      var i := b[n - 1];
      if i.Phi? {
        var o := PhiOperand(i.incoming, f.blk);
        if o.Some? {
          var k :| 0 <= k < |Operands(i)| && Operands(i)[k] == o.value;
          TwinOperands(m, f, g, i);
        }
      }
    }
  }

  lemma TwinJump(m: Module, f: Frame, g: Frame, t: nat)
    requires Plain(m) && TwinFrame(f, g) && FrameGood(m, Without(m, "main"), f)
    ensures var d := Lookup(m, f.fn).value;
      var j, j' := Jump(d, f, t), Jump(if f.fn == "main" then NewMain(d) else d, g, t);
      (j.Some? <==> j'.Some?) && (j.Some? ==> TwinFrame(j.value, j'.value))
  {
    var d := Lookup(m, f.fn).value;
    if t < |d.blocks| {
      PlainIn(m);
      FnOkOf(m, Without(m, "main"), f.fn);
      TwinPhis(m, f, g, d.blocks[t], NumPhis(d.blocks[t], 0));
    }
  }

  lemma TwinBranch(m: Module, s: State, r: State, i: Instr)
    requires Plain(m) && Twin(s, r) && s.frames != [] && FrameGood(m, Without(m, "main"), Top(s))
    requires InstrOk(Without(m, "main"), Lookup(m, Top(s).fn).value, i)
    ensures Twin(BranchStep(m, s, i), BranchStep(Rewritten(m), r, i))
  {
    hide Jump, InstrOk, FrameGood, Plain, Rewritten;
    var f, g := Top(s), Top(r);
    TwinOperands(m, f, g, i);
    assert BranchTarget(g, i) == BranchTarget(f, i) by {
      match i
      case CondBr(c, _, _) => assert Operands(i)[0] == c;
      case Switch(o, _, _) => assert Operands(i)[0] == o;
      case _ =>
    }
    FrameLookup(m, f);
    var t := BranchTarget(f, i);
    if t.Some? {
      TwinJump(m, f, g, t.value);
    }
  }

  lemma FrameLookup(m: Module, f: Frame)
    requires Plain(m) && FrameGood(m, Without(m, "main"), f)
    ensures Lookup(m, f.fn).Some?
    ensures Lookup(Rewritten(m), f.fn)
         == Some(if f.fn == "main" then NewMain(Lookup(m, f.fn).value) else Lookup(m, f.fn).value)
    ensures Fetch(Rewritten(m), f) == Fetch(m, f)
  {
    LookupRewritten(m, f.fn);
  }

  lemma TwinDeliver(s: State, r: State, dest: Option<nat>, v: Val)
    requires Twin(s, r)
    ensures Twin(Deliver(s, dest, v), Deliver(r, dest, v))
  {
  }

  lemma TwinExternal(env: Env, s: State, r: State, caller: string, name: string, vals: seq<Val>, dest: Option<nat>)
    requires Twin(s, r)
    ensures Twin(External(env, s, caller, name, vals, dest), External(env, r, caller, name, vals, dest))
  {
    hide Deliver;
    if name == "atexit" {
      if |vals| == 1 && vals[0].FnV? {
        TwinDeliver(s.(handlers := s.handlers + [vals[0].fn]), r.(handlers := r.handlers + [vals[0].fn]), dest,
            IntV(0));
      }
    } else {
      var e := s.trace + [Event(caller, name, vals)];
      TwinDeliver(s.(trace := e), r.(trace := e), dest, IntV(env.output(vals)));
      TwinDeliver(s.(trace := e, inputs := s.inputs + 1), r.(trace := e, inputs := r.inputs + 1), dest,
        IntV(env.input(s.inputs, name, vals)));
    }
  }

  lemma TwinInvoke(m: Module, env: Env, s: State, r: State, caller: string, name: string, vals: seq<Val>,
      dest: Option<nat>)
    requires Plain(m) && Twin(s, r) && Lookup(Without(m, "main"), name).Some?
    ensures Twin(Invoke(m, env, s, caller, name, vals, dest), Invoke(Rewritten(m), env, r, caller, name, vals, dest))
  {
    hide External, Plain, Rewritten, Without;
    LookupRewritten(m, name);
    TwinExternal(env, s, r, caller, name, vals, dest);
  }

  lemma TwinCall(m: Module, env: Env, s: State, r: State, i: Instr)
    requires Plain(m) && Twin(s, r) && s.frames != [] && FrameGood(m, Without(m, "main"), Top(s)) && i.Call?
    requires InstrOk(Without(m, "main"), Lookup(m, Top(s).fn).value, i)
    ensures Twin(CallStep(m, env, s, i), CallStep(Rewritten(m), env, r, i))
  {
    hide Invoke, Plain, InstrOk, Eval, EvalAll, Without;
    var f, g := Top(s), Top(r);
    var d := Lookup(m, f.fn).value;
    CallOperands(Without(m, "main"), d, i);
    TwinEvalAll(m, f, g, i.args);
    TwinEval(m, f, g, i.callee);
    var c := Eval(f, i.callee);
    var vals := EvalAll(f, i.args);
    if c.Some? && c.value.FnV? && vals.Some? {
      EvalGood(Without(m, "main"), d, f, i.callee);
      TwinInvoke(m, env, SetTop(s, f.(ip := f.ip + 1)), SetTop(r, g.(ip := g.ip + 1)), f.fn, c.value.fn, vals.value,
          Some(i.id));
    }
  }

  lemma TwinRet(m: Module, s: State, r: State, i: Instr)
    requires Plain(m) && Twin(s, r) && s.frames != [] && FrameGood(m, Without(m, "main"), Top(s)) && i.Ret?
    requires InstrOk(Without(m, "main"), Lookup(m, Top(s).fn).value, i)
    ensures Twin(RetStep(s, i), RetStep(r, i))
  {
    hide Plain, Deliver, FrameGood, InstrOk;
    var f, g := Top(s), Top(r);
    if i.result.Some? {
      TwinOperands(m, f, g, i);
      assert Operands(i)[0] == i.result.value;
      if Eval(f, i.result.value).Some? {
        TwinDeliver(s.(frames := s.frames[..|s.frames|-1]), r.(frames := r.frames[..|r.frames|-1]), f.dest,
            Eval(f, i.result.value).value);
      }
    }
  }

  lemma TwinStep(m: Module, env: Env, s: State, r: State)
    requires Plain(m) && Good(m, Without(m, "main"), s) && Twin(s, r)
    ensures Twin(Step(m, env, s), Step(Rewritten(m), env, r))
  {
    hide CallStep, RetStep, BranchStep, LocalStep, Invoke, Plain, Rewritten, Good, Fetch;
    if s.phase.Done? || s.phase.Undef? {
    } else if AtExitBase(s) {
      if s.handlers != [] {
        var n := |s.handlers| - 1;
        GoodHandlerIn(m, Without(m, "main"), s, n);
        TwinInvoke(m, env, s.(handlers := s.handlers[..n]), r.(handlers := r.handlers[..n]), "", s.handlers[n], [],
            None);
      }
    } else if s.frames != [] {
      PlainIn(m);
      PlainMain(m);
      TopGood(m, Without(m, "main"), s);
      FetchGood(m, Without(m, "main"), Top(s));
      FrameLookup(m, Top(s));
      FetchTwin(Rewritten(m), Top(s), Top(r));
      var i := Fetch(m, Top(s)).value;
      if i.Call? {
        TwinCall(m, env, s, r, i);
      } else if i.Ret? {
        TwinRet(m, s, r, i);
      } else if IsTerm(i) {
        TwinBranch(m, s, r, i);
      } else {
        TwinLocal(m, s, r, i);
      }
    }
  }

  lemma FetchTwin(p: Module, f: Frame, g: Frame)
    requires TwinFrame(f, g)
    ensures Fetch(p, g) == Fetch(p, f)
  {
  }

  lemma GoodHandlerIn(m: Module, w: Module, s: State, n: nat)
    requires Good(m, w, s) && n < |s.handlers|
    ensures Lookup(w, s.handlers[n]).Some?
  {
  }

  /** For every argc and argv the new program does step by step what the old one does: the same
      events, memory, log of blocks and outcome. */
  lemma {:induction false} PosixRun(m: Module, env: Env, argc: Val, argv: Val, n: nat)
    requires Plain(m)
    ensures Twin(Run(m, env, Init(m, []), n), Run(Rewritten(m), env, Init(Rewritten(m), [argc, argv]), n))
  {
    hide Step, Init, Rewritten, Plain, Twin;
    if n == 0 {
      TwinInit(m, argc, argv);
    } else {
      PosixRun(m, env, argc, argv, n - 1);
      PlainIn(m);
      PlainMain(m);
      RunGood(m, Without(m, "main"), env, [], n - 1);
      TwinStep(m, env, Run(m, env, Init(m, []), n - 1),
          Run(Rewritten(m), env, Init(Rewritten(m), [argc, argv]), n - 1));
    }
  }

  lemma PlainMain(m: Module)
    requires Plain(m)
    ensures Defined(m, "main") && |Lookup(m, "main").value.sig.params| == 0
  {
  }

  lemma TwinInit(m: Module, argc: Val, argv: Val)
    requires Plain(m)
    ensures Twin(Init(m, []), Init(Rewritten(m), [argc, argv]))
  {
    hide ModuleIn;
    LookupRewritten(m, "main");
  }

  // ---------- the rewritten module ----------

  /** The rewrite succeeds if and only if there is no main, or main takes an integer and a pointer to
      pointers to bytes, or it takes nothing and everything makes sense without it; only in the last
      case anything changes, and these are the plain modules when main has a body. */
  lemma PosixizeExactly(m: Module)
    requires ModuleOk(m)
    ensures Posixize(m).Ok? <==>
      || Lookup(m, "main").None?
      || (exists bits: nat :: Lookup(m, "main").value.sig.params == [IntT(bits), PtrT(PtrT(IntT(8)))])
      || (Lookup(m, "main").value.sig.params == [] && ModuleIn(m, Without(m, "main")))
    ensures Posixize(m) == Err(StillUsed) <==>
      Lookup(m, "main").Some? && Lookup(m, "main").value.sig.params == [] && !ModuleIn(m, Without(m, "main"))
    ensures Posixize(m).Ok? ==>
        (Posixize(m).value.1 <==> Lookup(m, "main").Some? && Lookup(m, "main").value.sig.params == [])
    ensures Posixize(m).Ok? && !Posixize(m).value.1 ==> Posixize(m).value.0 == m
    ensures Plain(m) <==> Posixize(m).Ok? && Posixize(m).value.1 && Defined(m, "main")
  {
    hide ModuleIn, Used, Without;
    UsedExactly(m, "main");
    if Lookup(m, "main").Some? {
      TypesLiterally(Lookup(m, "main").value.sig.params);
      hide PosixTypes;
    }
  }

  lemma TypesLiterally(ps: seq<Type>)
    ensures PosixTypes(ps) <==> exists bits: nat :: ps == [IntT(bits), PtrT(PtrT(IntT(8)))]
  {
    if PosixTypes(ps) {
      assert ps == [IntT(ps[0].bits), PtrT(PtrT(IntT(8)))];
    }
  }

  lemma Unchanged(m: Module)
    ensures Posixize(m).Ok? && !Posixize(m).value.1 ==> Posixize(m).value.0 == m
    ensures Lookup(m, "main").None? ==> Posixize(m) == Ok((m, false))
  {
  }

  lemma {:induction false} RemoveAt(fs: seq<Fn>, n: string, i: nat)
    requires i < |fs| && fs[i].name == n && forall j :: 0 <= j < i ==> fs[j].name != n
    ensures RemoveFn(fs, n) == fs[..i] + fs[i+1..]
  {
    if i > 0 {
      RemoveAt(fs[1..], n, i - 1);
      assert fs[1..][..i-1] == fs[1..i] && fs[1..][i..] == fs[i+1..];
      assert [fs[0]] + fs[1..i] == fs[..i];
      assert [fs[0]] + (fs[1..i] + fs[i+1..]) == fs[..i] + fs[i+1..];
    }
  }

  lemma {:induction false} FirstOf(fs: seq<Fn>, n: string) returns (k: nat)
    requires LookupIn(fs, n).Some?
    ensures k < |fs| && fs[k].name == n && forall j :: 0 <= j < k ==> fs[j].name != n
  {
    if fs[0].name == n {
      k := 0;
    } else {
      k := FirstOf(fs[1..], n);
      k := k + 1;
    }
  }

  lemma RewrittenFn(m: Module, f: Fn)
    requires Plain(m) && FnOk(Without(m, "main"), f)
    ensures FnOk(Rewritten(m), f)
    ensures f.sig.params == [] ==> FnOk(Rewritten(m), NewMain(f))
  {
    forall n | Lookup(Without(m, "main"), n).Some? ensures Lookup(Rewritten(m), n).Some? { LookupRewritten(m, n); }
    forall b, k | 0 <= b < |f.blocks| && 0 <= k < |f.blocks[b]|
      ensures InstrOk(Rewritten(m), f, f.blocks[b][k])
      ensures f.sig.params == [] ==> InstrOk(Rewritten(m), NewMain(f), f.blocks[b][k])
    {
      var i := f.blocks[b][k];
      assert InstrOk(Without(m, "main"), f, i);
      forall j | 0 <= j < |Operands(i)|
        ensures OperandOk(Rewritten(m), f, Operands(i)[j])
        ensures f.sig.params == [] ==> OperandOk(Rewritten(m), NewMain(f), Operands(i)[j])
      {
        assert OperandOk(Without(m, "main"), f, Operands(i)[j]);
      }
    }
  }

  /** Where the functions of the result come from: all but main keep their order, the new main is last. */
  lemma RewrittenAt(m: Module) returns (k: nat)
    requires Plain(m)
    ensures k < |m.funcs| == |Rewritten(m).funcs| && m.funcs[k].name == "main"
    ensures forall j :: 0 <= j < |m.funcs| && j != k ==> m.funcs[j].name != "main"
    ensures forall i :: 0 <= i < |m.funcs| - 1 ==> Rewritten(m).funcs[i] == m.funcs[if i < k then i else i + 1]
    ensures Rewritten(m).funcs[|m.funcs| - 1] == NewMain(Lookup(m, "main").value)
  {
    hide FnOk, Used;
    k := FirstOf(m.funcs, "main");
    RemoveAt(m.funcs, "main", k);
  }

  lemma RewrittenNames(m: Module, i: nat, j: nat)
    requires Plain(m) && i < j < |Rewritten(m).funcs|
    ensures Rewritten(m).funcs[i].name != Rewritten(m).funcs[j].name
  {
    hide RemoveFn, FnOk, Used;
    var k := RewrittenAt(m);
  }

  lemma RewrittenFnsOk(m: Module, i: nat)
    requires Plain(m) && i < |Rewritten(m).funcs|
    ensures FnOk(Rewritten(m), Rewritten(m).funcs[i]) && Rewritten(m).funcs[i].name !in m.globals
  {
    hide RemoveFn, FnOk;
    PlainIn(m);
    var k := RewrittenAt(m);
    if i < |Rewritten(m).funcs| - 1 {
      RewrittenFn(m, m.funcs[if i < k then i else i + 1]);
    } else {
      RewrittenFn(m, Lookup(m, "main").value);
    }
  }

  lemma RewrittenInits(m: Module, n: string)
    requires Plain(m) && n in m.globals
    ensures ConstOk(Rewritten(m), m.globals[n].init)
  {
    PlainIn(m);
    if m.globals[n].init.FnV? {
      LookupRewritten(m, m.globals[n].init.fn);
    }
  }

  /** The result is well-formed, its one main is the new one, `int main(int, char **)`, with the old
      blocks in order, every other function is as before, and a second run changes nothing. */
  lemma RewrittenOk(m: Module)
    requires Plain(m)
    ensures Posixize(m) == Ok((Rewritten(m), true))
    ensures ModuleOk(Rewritten(m))
    ensures Lookup(Rewritten(m), "main").Some?
        && Lookup(Rewritten(m), "main").value.blocks == Lookup(m, "main").value.blocks
    ensures Lookup(Rewritten(m), "main").value.sig == Sig([IntT(32), PtrT(PtrT(IntT(8)))], IntT(32), false)
    ensures forall n :: n != "main" ==> Lookup(Rewritten(m), n) == Lookup(m, n)
    ensures Posixize(Rewritten(m)) == Ok((Rewritten(m), false))
  {
    hide FnOk, ModuleIn, ValOk, Used, Lookup;
    PlainMain(m);
    PlainIn(m);
    var p := Rewritten(m);
    assert p.globals == m.globals;
    LookupRewritten(m, "main");
    forall n | n != "main" ensures Lookup(p, n) == Lookup(m, n) { LookupRewritten(m, n); }
    forall i | 0 <= i < |p.funcs|
      ensures FnOk(p, p.funcs[i]) && p.funcs[i].name !in p.globals
    {
      RewrittenFnsOk(m, i);
    }
    forall i, j | 0 <= i < j < |p.funcs| ensures p.funcs[i].name != p.funcs[j].name { RewrittenNames(m, i, j); }
    forall n | n in p.globals
      ensures ConstOk(p, p.globals[n].init)
    {
      RewrittenInits(m, n);
    }
    ModuleParts(p);
  }

  lemma ModuleParts(p: Module)
    requires forall i :: 0 <= i < |p.funcs| ==> FnOk(p, p.funcs[i]) && p.funcs[i].name !in p.globals
    requires forall i, j :: 0 <= i < j < |p.funcs| ==> p.funcs[i].name != p.funcs[j].name
    requires forall n :: n in p.globals ==> ConstOk(p, p.globals[n].init)
    ensures ModuleOk(p)
  {
  }
}
