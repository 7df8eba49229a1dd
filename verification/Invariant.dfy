/** What every run of a well-formed module keeps: all values mention only names of the module,
    every frame is at an instruction of its function, and the exit bookkeeping is consistent. */
module Invariant {
  import opened Wrappers
  import opened IR
  import opened Machine

  predicate RegsGood(w: Module, d: Fn, regs: map<nat, Val>) {
    forall id :: id in regs ==> id < d.next && ValOk(w, regs[id])
  }

  predicate ValsGood(w: Module, vals: seq<Val>) {
    forall k :: 0 <= k < |vals| ==> ValOk(w, vals[k])
  }

  predicate FrameGood(m: Module, w: Module, f: Frame) {
    var d := Lookup(m, f.fn);
    && d.Some?
    && f.blk < |d.value.blocks|
    && f.ip < |d.value.blocks[f.blk]|
    && RegsGood(w, d.value, f.regs)
    && ValsGood(w, f.args)
  }

  predicate DestGood(m: Module, frames: seq<Frame>) {
    forall i :: 0 < i < |frames| && frames[i].dest.Some? ==>
      Lookup(m, frames[i-1].fn).Some? && frames[i].dest.value < Lookup(m, frames[i-1].fn).value.next
  }

  predicate MemGood(w: Module, mem: map<Addr, Val>) {
    forall a :: a in mem ==> (a.GlobalA? ==> a.name in w.globals) && ValOk(w, mem[a])
  }

  predicate FramesGood(m: Module, w: Module, frames: seq<Frame>) {
    && (forall i :: 0 <= i < |frames| ==> FrameGood(m, w, frames[i]))
    && DestGood(m, frames)
  }

  predicate Good(m: Module, w: Module, s: State) {
    && FramesGood(m, w, s.frames)
    && MemGood(w, s.mem)
    && (forall i :: 0 <= i < |s.handlers| ==> Lookup(w, s.handlers[i]).Some?)
    && |s.frames| <= |s.log|
    && (s.phase.Running? ==> s.frames != [])
    && (s.phase.Exiting? ==> s.phase.base <= |s.frames|)
  }

  lemma FnOkOf(m: Module, w: Module, n: string)
    requires ModuleIn(m, w) && Lookup(m, n).Some?
    ensures FnOk(w, Lookup(m, n).value)
  {
    var d := Lookup(m, n).value;
    var i :| 0 <= i < |m.funcs| && m.funcs[i] == d;
  }

  lemma BlockOkOf(m: Module, w: Module, n: string, b: nat)
    requires ModuleIn(m, w) && Lookup(m, n).Some? && b < |Lookup(m, n).value.blocks|
    ensures BlockOk(Lookup(m, n).value.blocks[b])
  {
    hide BlockOk;
    FnOkOf(m, w, n);
  }

  /** The instruction a good frame is at, with what well-formedness says about it. */
  lemma FetchGood(m: Module, w: Module, f: Frame)
    requires ModuleIn(m, w) && FrameGood(m, w, f)
    ensures Fetch(m, f).Some?
    ensures InstrOk(w, Lookup(m, f.fn).value, Fetch(m, f).value)
    ensures BlockOk(Lookup(m, f.fn).value.blocks[f.blk])
    ensures IsTerm(Fetch(m, f).value) <==> f.ip == |Lookup(m, f.fn).value.blocks[f.blk]| - 1
  {
    FnOkOf(m, w, f.fn);
  }

  lemma EvalGood(w: Module, d: Fn, f: Frame, o: Operand)
    requires RegsGood(w, d, f.regs) && ValsGood(w, f.args) && OperandOk(w, d, o)
    ensures Eval(f, o).Some? ==> ValOk(w, Eval(f, o).value)
  {
  }

  lemma LocalGood(w: Module, d: Fn, f: Frame, mem: map<Addr, Val>, cells: nat, i: Instr)
    requires RegsGood(w, d, f.regs) && ValsGood(w, f.args) && InstrOk(w, d, i) && MemGood(w, mem)
    ensures Local(f, mem, cells, i).Some? ==>
      RegsGood(w, d, Local(f, mem, cells, i).value.regs) && MemGood(w, Local(f, mem, cells, i).value.mem)
  {
    match i
    case Load(id, p) => assert Operands(i)[0] == p; EvalGood(w, d, f, p);
    case Store(o, p) =>
      assert Operands(i)[0] == o && Operands(i)[1] == p;
      EvalGood(w, d, f, o);
      EvalGood(w, d, f, p);
    case Bin(id, op, x, y) =>
      assert Operands(i)[0] == x && Operands(i)[1] == y;
    case _ =>
  }

  lemma {:induction false} PhiRegsGood(w: Module, d: Fn, f: Frame, b: seq<Instr>, n: nat)
    requires RegsGood(w, d, f.regs) && ValsGood(w, f.args) && n <= |b|
    requires forall k :: 0 <= k < |b| ==> InstrOk(w, d, b[k])
    ensures PhiRegs(f, b, n).Some? ==> RegsGood(w, d, PhiRegs(f, b, n).value)
  {
    if n > 0 {
      PhiRegsGood(w, d, f, b, n - 1);
      var i := b[n - 1];
      if i.Phi? {
        assert InstrOk(w, d, i);
        var o := PhiOperand(i.incoming, f.blk);
        if o.Some? {
          var k :| 0 <= k < |Operands(i)| && Operands(i)[k] == o.value;
          EvalGood(w, d, f, o.value);
        }
      }
    }
  }

  lemma JumpGood(m: Module, w: Module, f: Frame, t: nat)
    requires ModuleIn(m, w) && FrameGood(m, w, f)
    ensures var j := Jump(Lookup(m, f.fn).value, f, t);
      j.Some? ==> FrameGood(m, w, j.value) && j.value.fn == f.fn && j.value.dest == f.dest
  {
    var d := Lookup(m, f.fn).value;
    if t < |d.blocks| {
      FnOkOf(m, w, f.fn);
      var b := d.blocks[t];
      assert BlockOk(b) && IsTerm(b[|b|-1]);
      PhiRegsGood(w, d, f, b, NumPhis(b, 0));
    }
  }

  lemma TopGood(m: Module, w: Module, s: State)
    requires Good(m, w, s) && s.frames != []
    ensures FrameGood(m, w, Top(s))
  {
  }

  lemma LocalStepGood(m: Module, w: Module, s: State, i: Instr)
    requires ModuleIn(m, w) && Good(m, w, s) && s.frames != [] && Fetch(m, Top(s)) == Some(i) && !IsTerm(i)
    ensures LocalStep(s, i).phase.Undef? || Good(m, w, LocalStep(s, i))
  {
    FetchGood(m, w, Top(s));
    LocalGood(w, Lookup(m, Top(s).fn).value, Top(s), s.mem, s.cells, i);
  }

  lemma BranchStepGood(m: Module, w: Module, s: State, i: Instr)
    requires ModuleIn(m, w) && Good(m, w, s) && s.frames != []
    ensures BranchStep(m, s, i).phase.Undef? || Good(m, w, BranchStep(m, s, i))
  {
    hide Good, Jump, FrameGood, ModuleIn;
    TopGood(m, w, s);
    var f := Top(s);
    var t := BranchTarget(f, i);
    if t.Some? {
      JumpGood(m, w, f, t.value);
      var j := Jump(Lookup(m, f.fn).value, f, t.value);
      if j.Some? {
        JumpedGood(m, w, s, j.value, (f.fn, t.value));
      }
    }
  }

  /** Another place in the same function. */
  lemma JumpedGood(m: Module, w: Module, s: State, j: Frame, entered: (string, nat))
    requires Good(m, w, s) && s.frames != [] && FrameGood(m, w, j) && j.fn == Top(s).fn && j.dest == Top(s).dest
    ensures Good(m, w, SetTop(s, j).(log := s.log + [entered]))
  {
    hide FrameGood, MemGood;
    TopGood(m, w, s);
  }

  lemma DeliverGood(m: Module, w: Module, s: State, dest: Option<nat>, v: Val)
    requires Good(m, w, s) && ValOk(w, v)
    requires s.frames != [] && dest.Some? ==> dest.value < Lookup(m, Top(s).fn).value.next
    ensures Good(m, w, Deliver(s, dest, v))
  {
  }

  lemma RetStepGood(m: Module, w: Module, s: State, i: Instr)
    requires ModuleIn(m, w) && Good(m, w, s) && s.frames != [] && !AtExitBase(s) && !s.phase.Done?
    requires Fetch(m, Top(s)) == Some(i) && i.Ret?
    ensures RetStep(s, i).phase.Undef? || Good(m, w, RetStep(s, i))
  {
    hide Good, FrameGood, ModuleIn, Deliver, BlockOk;
    TopGood(m, w, s);
    var f := Top(s);
    FetchGood(m, w, f);
    var v := if i.result.Some? then Eval(f, i.result.value) else None;
    if i.result.Some? && v.None? {
    } else if s.phase.Running? && |s.frames| == 1 {
      if ExitCode(v).Some? {
        ExitedGood(m, w, s, ExitCode(v).value);
      }
    } else {
      PopGood(m, w, s);
      if v.Some? {
        ResultGood(m, w, f, i);
        DeliverGood(m, w, s.(frames := s.frames[..|s.frames|-1]), f.dest, v.value);
      }
    }
  }

  lemma ResultGood(m: Module, w: Module, f: Frame, i: Instr)
    requires FrameGood(m, w, f) && i.Ret? && i.result.Some? && InstrOk(w, Lookup(m, f.fn).value, i)
    ensures Eval(f, i.result.value).Some? ==> ValOk(w, Eval(f, i.result.value).value)
  {
    assert Operands(i)[0] == i.result.value;
    EvalGood(w, Lookup(m, f.fn).value, f, i.result.value);
  }

  lemma ExitedGood(m: Module, w: Module, s: State, code: Word)
    requires Good(m, w, s)
    ensures Good(m, w, s.(frames := [], phase := Exiting(0, code)))
  {
  }

  lemma PopGood(m: Module, w: Module, s: State)
    requires Good(m, w, s) && s.frames != [] && !AtExitBase(s) && !(s.phase.Running? && |s.frames| == 1)
    ensures var p := s.(frames := s.frames[..|s.frames|-1]);
      && Good(m, w, p)
      && (p.frames != [] && Top(s).dest.Some? ==>
            Lookup(m, Top(p).fn).Some? && Top(s).dest.value < Lookup(m, Top(p).fn).value.next)
  {
    hide FrameGood;
  }

  lemma ExternalGood(m: Module, w: Module, env: Env, s: State, caller: string, name: string, vals: seq<Val>,
      dest: Option<nat>)
    requires Good(m, w, s) && ValsGood(w, vals) && !s.phase.Done?
    requires s.frames != [] && dest.Some? ==> dest.value < Lookup(m, Top(s).fn).value.next
    ensures var r := External(env, s, caller, name, vals, dest); r.phase.Undef? || Good(m, w, r)
  {
    if name == "exit" {
    } else if name == "atexit" {
      if |vals| == 1 && vals[0].FnV? {
        assert ValOk(w, vals[0]);
        DeliverGood(m, w, s.(handlers := s.handlers + [vals[0].fn]), dest, IntV(0));
      }
    } else if name == "printf" {
      DeliverGood(m, w, s.(trace := s.trace + [Event(caller, name, vals)]), dest, IntV(env.output(vals)));
    } else {
      DeliverGood(m, w, s.(trace := s.trace + [Event(caller, name, vals)], inputs := s.inputs + 1), dest,
        IntV(env.input(s.inputs, name, vals)));
    }
  }

  lemma InvokeGood(m: Module, w: Module, env: Env, s: State, caller: string, name: string, vals: seq<Val>,
      dest: Option<nat>)
    requires ModuleIn(m, w) && Good(m, w, s) && ValsGood(w, vals) && !s.phase.Done?
    requires s.frames != [] && dest.Some? ==> dest.value < Lookup(m, Top(s).fn).value.next
    ensures var r := Invoke(m, env, s, caller, name, vals, dest); r.phase.Undef? || Good(m, w, r)
  {
    hide External, Good;
    var d := Lookup(m, name);
    if d.Some? {
      ExternalGood(m, w, env, s, caller, name, vals, dest);
      if d.value.blocks != [] {
        PushGood(m, w, s, name, vals, dest);
      }
    }
  }

  lemma PushGood(m: Module, w: Module, s: State, name: string, vals: seq<Val>, dest: Option<nat>)
    requires ModuleIn(m, w) && Good(m, w, s) && ValsGood(w, vals) && Defined(m, name)
    requires s.frames != [] && dest.Some? ==> dest.value < Lookup(m, Top(s).fn).value.next
    ensures Good(m, w, s.(frames := s.frames + [Frame(name, 0, 0, vals, map[], dest)], log := s.log + [(name, 0)]))
  {
    hide MemGood, ModuleIn, FrameGood;
    var f := Frame(name, 0, 0, vals, map[], dest);
    assert FrameGood(m, w, f) by { EntryGood(m, w, f); }
    if s.frames != [] {
      assert FrameGood(m, w, Top(s)) by { TopGood(m, w, s); }
      assert Lookup(m, Top(s).fn).Some? by { FrameKnown(m, w, Top(s)); }
    }
  }

  lemma FrameKnown(m: Module, w: Module, f: Frame)
    requires FrameGood(m, w, f)
    ensures Lookup(m, f.fn).Some?
  {
  }

  /** A frame that has just been entered. */
  lemma EntryGood(m: Module, w: Module, f: Frame)
    requires ModuleIn(m, w) && Defined(m, f.fn) && f.blk == 0 && f.ip == 0 && f.regs == map[] && ValsGood(w, f.args)
    ensures FrameGood(m, w, f)
  {
    FnOkOf(m, w, f.fn);
    assert BlockOk(Lookup(m, f.fn).value.blocks[0]);
  }

  lemma CallOperands(w: Module, d: Fn, i: Instr)
    requires i.Call? && InstrOk(w, d, i)
    ensures OperandOk(w, d, i.callee)
    ensures forall k :: 0 <= k < |i.args| ==> OperandOk(w, d, i.args[k])
  {
    assert Operands(i)[0] == i.callee;
    forall k | 0 <= k < |i.args| ensures OperandOk(w, d, i.args[k]) { assert Operands(i)[k + 1] == i.args[k]; }
  }

  lemma ArgsGood(m: Module, w: Module, f: Frame, i: Instr)
    requires FrameGood(m, w, f) && i.Call? && InstrOk(w, Lookup(m, f.fn).value, i)
    ensures EvalAll(f, i.args).Some? ==> ValsGood(w, EvalAll(f, i.args).value)
  {
    var d := Lookup(m, f.fn).value;
    forall k | 0 <= k < |i.args|
      ensures OperandOk(w, d, i.args[k])
    {
      assert Operands(i)[k + 1] == i.args[k];
    }
  }

  lemma CallStepGood(m: Module, w: Module, env: Env, s: State, i: Instr)
    requires ModuleIn(m, w) && Good(m, w, s) && s.frames != [] && !s.phase.Done?
    requires Fetch(m, Top(s)) == Some(i) && i.Call?
    ensures CallStep(m, env, s, i).phase.Undef? || Good(m, w, CallStep(m, env, s, i))
  {
    hide Invoke, Good, FrameGood, ModuleIn, EvalAll, BlockOk;
    TopGood(m, w, s);
    var f := Top(s);
    FetchGood(m, w, f);
    ArgsGood(m, w, f, i);
    var c := Eval(f, i.callee);
    var vals := EvalAll(f, i.args);
    if c.Some? && c.value.FnV? && vals.Some? {
      AdvanceGood(m, w, s, i);
      InvokeGood(m, w, env, SetTop(s, f.(ip := f.ip + 1)), f.fn, c.value.fn, vals.value, Some(i.id));
    }
  }

  /** Past an instruction that is not a terminator. */
  lemma AdvanceGood(m: Module, w: Module, s: State, i: Instr)
    requires ModuleIn(m, w) && Good(m, w, s) && s.frames != [] && Fetch(m, Top(s)) == Some(i) && !IsTerm(i)
    ensures Good(m, w, SetTop(s, Top(s).(ip := Top(s).ip + 1)))
    ensures Def(i).Some? ==> Lookup(m, Top(s).fn).Some? && Def(i).value < Lookup(m, Top(s).fn).value.next
  {
    hide MemGood, RegsGood, ValsGood;
    TopGood(m, w, s);
    FetchGood(m, w, Top(s));
  }

  lemma StepGood(m: Module, w: Module, env: Env, s: State)
    requires ModuleIn(m, w) && Good(m, w, s)
    ensures Good(m, w, Step(m, env, s))
  {
    hide Invoke, LocalStep, BranchStep, RetStep, CallStep, Good;
    StuckGood(m, w, s);
    if s.phase.Done? || s.phase.Undef? {
    } else if AtExitBase(s) {
      if s.handlers != [] {
        var n := |s.handlers| - 1;
        ExitPopGood(m, w, s);
        InvokeGood(m, w, env, s.(handlers := s.handlers[..n]), "", s.handlers[n], [], None);
      } else {
        ExitDoneGood(m, w, s);
      }
    } else if s.frames != [] {
      TopGood(m, w, s);
      FetchGood(m, w, Top(s));
      var i := Fetch(m, Top(s)).value;
      if i.Call? {
        CallStepGood(m, w, env, s, i);
      } else if i.Ret? {
        RetStepGood(m, w, s, i);
      } else if IsTerm(i) {
        BranchStepGood(m, w, s, i);
      } else {
        LocalStepGood(m, w, s, i);
      }
    }
  }

  lemma StuckGood(m: Module, w: Module, s: State)
    requires Good(m, w, s)
    ensures Good(m, w, Stuck(s))
  {
  }

  lemma ExitPopGood(m: Module, w: Module, s: State)
    requires Good(m, w, s) && s.handlers != []
    ensures Good(m, w, s.(handlers := s.handlers[..|s.handlers| - 1]))
  {
  }

  lemma ExitDoneGood(m: Module, w: Module, s: State)
    requires Good(m, w, s) && s.phase.Exiting?
    ensures Good(m, w, s.(phase := Done(s.phase.code)))
  {
  }

  /** Main's arguments may be any values that name nothing the module lacks. */
  lemma InitGood(m: Module, w: Module, args: seq<Val>)
    requires ModuleIn(m, w) && ValsGood(w, args) && Defined(m, "main") && |Lookup(m, "main").value.sig.params| == |args|
    ensures Good(m, w, Init(m, args))
  {
    FnOkOf(m, w, "main");
    assert BlockOk(Lookup(m, "main").value.blocks[0]);
    forall n | n in m.globals
      ensures ValOk(w, m.globals[n].init)
    {
    }
  }

  lemma {:induction false} RunGood(m: Module, w: Module, env: Env, args: seq<Val>, n: nat)
    requires ModuleIn(m, w) && ValsGood(w, args) && Defined(m, "main") && |Lookup(m, "main").value.sig.params| == |args|
    ensures Good(m, w, Run(m, env, Init(m, args), n))
  {
    hide Step, Good, Init;
    if n == 0 {
      InitGood(m, w, args);
    } else {
      RunGood(m, w, env, args, n - 1);
      StepGood(m, w, env, Run(m, env, Init(m, args), n - 1));
    }
  }
}
