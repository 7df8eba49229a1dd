/** A program with a variable of the counter's name: the variable that was created instead is known
    to nobody but the handler, so over all runs every report says 0. */
module SpareCounter {
  import opened Wrappers
  import opened IR
  import opened Machine
  import opened CountBB
  import opened Invariant
  import opened Counting
  import opened Exit
  import opened Pass

  predicate Names(i: Instr, x: string) {
    Const(PtrV(GlobalA(x))) in Operands(i)
  }

  predicate Silent(f: Fn, x: string) {
    forall b, k :: 0 <= b < |f.blocks| && 0 <= k < |f.blocks[b]| ==> !Names(f.blocks[b][k], x)
  }

  /** The handler reports `x`, which starts at 0 and is named nowhere else. */
  ghost predicate Spare(t: Module, x: string) {
    && Lookup(t, HANDLER) == Some(ReportOf(x))
    && (forall n :: n != HANDLER && Lookup(t, n).Some? ==> Silent(Lookup(t, n).value, x))
    && x in t.globals && t.globals[x].init == IntV(0)
    && (forall g :: g in t.globals ==> t.globals[g].init != PtrV(GlobalA(x)))
  }

  // ---------- what is kept over a run ----------

  predicate RegsQuiet(x: string, regs: map<nat, Val>) {
    forall id :: id in regs ==> regs[id] != PtrV(GlobalA(x))
  }

  /** The handler has loaded a 0 when it is about to print. */
  predicate FrameQuiet(x: string, f: Frame) {
    && RegsQuiet(x, f.regs)
    && PtrV(GlobalA(x)) !in f.args
    && (f.fn == HANDLER ==> f.blk == 0 && (f.ip == 1 ==> 0 in f.regs && f.regs[0] == IntV(0)))
  }

  /** Waiting for a call to return; the handler calls printf only, from its second instruction. */
  predicate Waits(f: Frame) {
    f.fn == HANDLER ==> f.ip != 1
  }

  predicate MemQuiet(x: string, mem: map<Addr, Val>) {
    && (forall a :: a in mem ==> mem[a] != PtrV(GlobalA(x)))
    && GlobalA(x) in mem && mem[GlobalA(x)] == IntV(0)
  }

  /** Every report is a 0. */
  predicate ZeroReports(tr: seq<Event>) {
    forall i :: 0 <= i < |tr| && tr[i].caller == HANDLER ==> tr[i] == Report(IntV(0))
  }

  predicate FramesQuiet(x: string, s: State) {
    && (forall i :: 0 <= i < |s.frames| ==> FrameQuiet(x, s.frames[i]))
    && (forall i :: 0 <= i < |s.frames| && (i < |s.frames| - 1 || AtExitBase(s)) ==> Waits(s.frames[i]))
  }

  predicate Quiet(x: string, s: State) {
    FramesQuiet(x, s) && MemQuiet(x, s.mem) && ZeroReports(s.trace)
  }

  lemma EvalQuiet(x: string, f: Frame, o: Operand)
    requires FrameQuiet(x, f) && o != Const(PtrV(GlobalA(x)))
    ensures Eval(f, o) != Some(PtrV(GlobalA(x)))
  {
  }

  lemma LocalQuiet(x: string, f: Frame, mem: map<Addr, Val>, cells: nat, i: Instr)
    requires FrameQuiet(x, f) && MemQuiet(x, mem) && !Names(i, x)
    ensures Local(f, mem, cells, i).Some? ==>
      RegsQuiet(x, Local(f, mem, cells, i).value.regs) && MemQuiet(x, Local(f, mem, cells, i).value.mem)
  {
    hide EvalBin;
    match i
    case Store(o, p) =>
      assert Operands(i)[0] == o && Operands(i)[1] == p;
      EvalQuiet(x, f, o);
      EvalQuiet(x, f, p);
    case Bin(_, op, a, b) => BinInt(f, op, a, b);
    case _ =>
  }

  lemma BinInt(f: Frame, op: BinOp, a: Operand, b: Operand)
    ensures Eval(f, a).Some? && Eval(f, b).Some? && EvalBin(op, Eval(f, a).value, Eval(f, b).value).Some? ==>
      EvalBin(op, Eval(f, a).value, Eval(f, b).value).value.IntV?
  {
  }

  lemma {:induction false} PhiRegsQuiet(x: string, f: Frame, b: seq<Instr>, n: nat)
    requires FrameQuiet(x, f) && n <= |b| && forall k :: 0 <= k < n ==> !Names(b[k], x)
    ensures PhiRegs(f, b, n).Some? ==> RegsQuiet(x, PhiRegs(f, b, n).value)
  {
    if n > 0 {
      PhiRegsQuiet(x, f, b, n - 1);
      var i := b[n - 1];
      if i.Phi? {
        var o := PhiOperand(i.incoming, f.blk);
        if o.Some? {
          assert o.value in Operands(i);
          EvalQuiet(x, f, o.value);
        }
      }
    }
  }

  /** The top frame moves on. */
  lemma TopQuiet(x: string, s: State, f: Frame, mem: map<Addr, Val>, cells: nat)
    requires Quiet(x, s) && s.frames != [] && FrameQuiet(x, f) && MemQuiet(x, mem) && !AtExitBase(s)
    ensures Quiet(x, SetTop(s, f).(mem := mem, cells := cells))
  {
  }

  lemma LocalStepQuiet(x: string, s: State, i: Instr)
    requires Quiet(x, s) && s.frames != [] && !AtExitBase(s) && Top(s).fn != HANDLER && !Names(i, x)
    ensures LocalStep(s, i).phase.Undef? || Quiet(x, LocalStep(s, i))
  {
    hide Local, Quiet;
    assert FrameQuiet(x, Top(s)) && MemQuiet(x, s.mem) by { QuietParts(x, s); }
    LocalQuiet(x, Top(s), s.mem, s.cells, i);
    var e := Local(Top(s), s.mem, s.cells, i);
    if e.Some? {
      TopQuiet(x, s, Top(s).(ip := Top(s).ip + 1, regs := e.value.regs), e.value.mem, e.value.cells);
    }
  }

  lemma QuietParts(x: string, s: State)
    requires Quiet(x, s)
    ensures s.frames != [] ==> FrameQuiet(x, Top(s))
    ensures MemQuiet(x, s.mem)
  {
  }

  lemma BranchStepQuiet(t: Module, x: string, s: State, i: Instr)
    requires Spare(t, x) && Quiet(x, s) && s.frames != [] && !AtExitBase(s) && Top(s).fn != HANDLER
    ensures BranchStep(t, s, i).phase.Undef? || Quiet(x, BranchStep(t, s, i))
  {
    hide Quiet, Spare;
    var f := Top(s);
    var d := Lookup(t, f.fn);
    var b := BranchTarget(f, i);
    if d.Some? && b.Some? && b.value < |d.value.blocks| {
      QuietParts(x, s);
      assert Silent(d.value, x) by { SilentOf(t, x, f.fn); }
      var code := d.value.blocks[b.value];
      PhiRegsQuiet(x, f, code, NumPhis(code, 0));
      var j := Jump(d.value, f, b.value);
      if j.Some? {
        TopQuiet(x, s, j.value, s.mem, s.cells);
        LogQuiet(x, SetTop(s, j.value), s.log + [(f.fn, b.value)]);
      }
    }
  }

  lemma SilentOf(t: Module, x: string, n: string)
    requires Spare(t, x) && n != HANDLER && Lookup(t, n).Some?
    ensures Silent(Lookup(t, n).value, x)
  {
  }

  lemma LogQuiet(x: string, s: State, log: seq<(string, nat)>)
    requires Quiet(x, s)
    ensures Quiet(x, s.(log := log))
  {
  }

  // ---------- calls and returns ----------

  /** All frames wait, so a result may be delivered to the top one. */
  predicate Settled(x: string, s: State) {
    Quiet(x, s) && (s.frames != [] ==> Waits(Top(s)))
  }

  lemma DeliverQuiet(x: string, s: State, dest: Option<nat>, v: Val)
    requires Settled(x, s) && v != PtrV(GlobalA(x))
    ensures Quiet(x, Deliver(s, dest, v))
  {
  }

  lemma ExternalQuiet(x: string, env: Env, s: State, caller: string, name: string, vals: seq<Val>, dest: Option<nat>)
    requires Settled(x, s) && (caller == HANDLER ==> name == "printf" && vals == [StrV(FORMAT), IntV(0)])
    ensures var r := External(env, s, caller, name, vals, dest); r.phase.Undef? || Quiet(x, r)
  {
    hide Deliver;
    if name == "exit" {
    } else if name == "atexit" {
      if |vals| == 1 && vals[0].FnV? {
        DeliverQuiet(x, s.(handlers := s.handlers + [vals[0].fn]), dest, IntV(0));
      }
    } else {
      var e := s.trace + [Event(caller, name, vals)];
      DeliverQuiet(x, s.(trace := e), dest, IntV(env.output(vals)));
      DeliverQuiet(x, s.(trace := e, inputs := s.inputs + 1), dest, IntV(env.input(s.inputs, name, vals)));
    }
  }

  lemma PushQuiet(x: string, s: State, name: string, vals: seq<Val>, dest: Option<nat>)
    requires Settled(x, s) && PtrV(GlobalA(x)) !in vals
    ensures Quiet(x, s.(frames := s.frames + [Frame(name, 0, 0, vals, map[], dest)], log := s.log + [(name, 0)]))
  {
  }

  lemma InvokeQuiet(t: Module, x: string, env: Env, s: State, caller: string, name: string, vals: seq<Val>,
      dest: Option<nat>)
    requires Settled(x, s) && PtrV(GlobalA(x)) !in vals
    requires caller == HANDLER ==> name == "printf" && vals == [StrV(FORMAT), IntV(0)]
    ensures var r := Invoke(t, env, s, caller, name, vals, dest); r.phase.Undef? || Quiet(x, r)
  {
    hide External, Quiet, Settled;
    ExternalQuiet(x, env, s, caller, name, vals, dest);
    PushQuiet(x, s, name, vals, dest);
  }

  lemma CallStepQuiet(t: Module, x: string, env: Env, s: State, i: Instr)
    requires Quiet(x, s) && s.frames != [] && !AtExitBase(s) && Top(s).fn != HANDLER && i.Call? && !Names(i, x)
    ensures CallStep(t, env, s, i).phase.Undef? || Quiet(x, CallStep(t, env, s, i))
  {
    hide Invoke, Quiet;
    var f := Top(s);
    var c := Eval(f, i.callee);
    var vals := EvalAll(f, i.args);
    if c.Some? && c.value.FnV? && vals.Some? {
      QuietParts(x, s);
      forall k | 0 <= k < |i.args|
        ensures vals.value[k] != PtrV(GlobalA(x))
      {
        assert Operands(i)[k + 1] == i.args[k];
        EvalQuiet(x, f, i.args[k]);
      }
      AdvanceSettled(x, s);
      InvokeQuiet(t, x, env, SetTop(s, f.(ip := f.ip + 1)), f.fn, c.value.fn, vals.value, Some(i.id));
    }
  }

  lemma AdvanceSettled(x: string, s: State)
    requires Quiet(x, s) && s.frames != [] && !AtExitBase(s) && (Top(s).fn == HANDLER ==> Top(s).ip == 1)
    ensures Settled(x, SetTop(s, Top(s).(ip := Top(s).ip + 1)))
  {
  }

  lemma RetStepQuiet(x: string, s: State, i: Instr)
    requires Quiet(x, s) && s.frames != [] && !AtExitBase(s) && i.Ret? && !Names(i, x)
    ensures RetStep(s, i).phase.Undef? || Quiet(x, RetStep(s, i))
  {
    hide Deliver, Quiet;
    var f := Top(s);
    var v := if i.result.Some? then Eval(f, i.result.value) else None;
    if s.phase.Running? && |s.frames| == 1 {
      if ExitCode(v).Some? {
        EmptyQuiet(x, s, ExitCode(v).value);
      }
    } else {
      QuietParts(x, s);
      PopSettled(x, s);
      if v.Some? {
        assert Operands(i)[0] == i.result.value;
        EvalQuiet(x, f, i.result.value);
        DeliverQuiet(x, s.(frames := s.frames[..|s.frames|-1]), f.dest, v.value);
      }
    }
  }

  lemma EmptyQuiet(x: string, s: State, code: Word)
    requires Quiet(x, s)
    ensures Quiet(x, s.(frames := [], phase := Exiting(0, code)))
  {
  }

  lemma PopSettled(x: string, s: State)
    requires Quiet(x, s) && s.frames != []
    ensures Settled(x, s.(frames := s.frames[..|s.frames|-1])) && Quiet(x, s.(frames := s.frames[..|s.frames|-1]))
  {
  }

  // ---------- the handler ----------

  lemma HandlerFetch(t: Module, x: string, f: Frame)
    requires Lookup(t, HANDLER) == Some(ReportOf(x)) && FrameQuiet(x, f) && f.fn == HANDLER
    ensures Fetch(t, f) == if f.ip < 3 then Some(ReportBlock(x, 0)[f.ip]) else None
  {
  }

  lemma HandlerQuiet(t: Module, x: string, env: Env, s: State)
    requires Spare(t, x) && Quiet(x, s) && s.frames != [] && !AtExitBase(s) && Top(s).fn == HANDLER
    ensures StepFrame(t, env, s).phase.Undef? || Quiet(x, StepFrame(t, env, s))
  {
    hide Quiet, Invoke, Spare, Local;
    var f := Top(s);
    QuietParts(x, s);
    assert Lookup(t, HANDLER) == Some(ReportOf(x)) by { SpareHandler(t, x); }
    HandlerFetch(t, x, f);
    if f.ip == 0 {
      LoadSpare(x, f, s.mem, s.cells);
      TopQuiet(x, s, f.(ip := 1, regs := f.regs[0 := IntV(0)]), s.mem, s.cells);
    } else if f.ip == 1 {
      EvalAllTwo(f, Const(StrV(FORMAT)), Reg(0));
      AdvanceSettled(x, s);
      InvokeQuiet(t, x, env, SetTop(s, f.(ip := 2)), HANDLER, "printf", [StrV(FORMAT), IntV(0)], Some(1));
    } else if f.ip == 2 {
      RetStepQuiet(x, s, Ret(None));
    }
  }

  lemma SpareHandler(t: Module, x: string)
    requires Spare(t, x)
    ensures Lookup(t, HANDLER) == Some(ReportOf(x))
  {
  }

  lemma LoadSpare(x: string, f: Frame, mem: map<Addr, Val>, cells: nat)
    requires MemQuiet(x, mem)
    ensures Local(f, mem, cells, ReportBlock(x, 0)[0]) == Some(Effect(f.regs[0 := IntV(0)], mem, cells))
  {
  }

  // ---------- runs ----------

  lemma FrameStepQuiet(t: Module, x: string, env: Env, s: State)
    requires Spare(t, x) && Quiet(x, s) && s.frames != [] && !AtExitBase(s)
    ensures StepFrame(t, env, s).phase.Undef? || Quiet(x, StepFrame(t, env, s))
  {
    hide Quiet, Spare, CallStep, RetStep, BranchStep, LocalStep;
    if Top(s).fn == HANDLER {
      HandlerQuiet(t, x, env, s);
    } else if Fetch(t, Top(s)).Some? {
      var i := Fetch(t, Top(s)).value;
      SilentOf(t, x, Top(s).fn);
      if i.Call? {
        CallStepQuiet(t, x, env, s, i);
      } else if i.Ret? {
        RetStepQuiet(x, s, i);
      } else if IsTerm(i) {
        BranchStepQuiet(t, x, s, i);
      } else {
        LocalStepQuiet(x, s, i);
      }
    }
  }

  lemma ExitStepQuiet(t: Module, x: string, env: Env, s: State)
    requires Quiet(x, s) && AtExitBase(s)
    ensures StepExit(t, env, s).phase.Undef? || Quiet(x, StepExit(t, env, s))
  {
    hide Invoke;
    if s.handlers != [] {
      var n := |s.handlers| - 1;
      InvokeQuiet(t, x, env, s.(handlers := s.handlers[..n]), "", s.handlers[n], [], None);
    }
  }

  lemma StuckQuiet(x: string, s: State)
    requires Quiet(x, s)
    ensures Quiet(x, Stuck(s))
  {
  }

  lemma StepQuiet(t: Module, x: string, env: Env, s: State)
    requires Spare(t, x) && Quiet(x, s)
    ensures Quiet(x, Step(t, env, s))
  {
    hide Quiet, Spare, StepExit, StepFrame;
    StuckQuiet(x, s);
    if AtExitBase(s) {
      ExitStepQuiet(t, x, env, s);
    } else if s.frames != [] {
      FrameStepQuiet(t, x, env, s);
    }
  }

  lemma InitQuiet(t: Module, x: string, args: seq<Val>)
    requires Spare(t, x) && PtrV(GlobalA(x)) !in args
    ensures Quiet(x, Init(t, args))
  {
    assert GlobalA(x) in InitMem(t);
    forall a | a in InitMem(t) ensures InitMem(t)[a] != PtrV(GlobalA(x)) {}
  }

  lemma {:induction false} RunQuiet(t: Module, x: string, env: Env, args: seq<Val>, n: nat)
    requires Spare(t, x) && PtrV(GlobalA(x)) !in args
    ensures Quiet(x, Run(t, env, Init(t, args), n))
  {
    hide Quiet, Spare, Step, Init;
    if n == 0 {
      InitQuiet(t, x, args);
    } else {
      RunQuiet(t, x, env, args, n - 1);
      StepQuiet(t, x, env, Run(t, env, Init(t, args), n - 1));
    }
  }

  // ---------- the pass on a taken name ----------

  /** The pass takes this branch: the counter gets a new name, and the handler has only the report. */
  predicate Renamed(m: Module, suffix: string) {
    && ModuleOk(m) && Accepted(m)
    && Taken(m, COUNTER) && !Defined(m, HANDLER)
    && suffix != [] && !Taken(m, COUNTER + suffix)
  }

  lemma OldSilent(m: Module, f: Fn, x: string)
    requires FnOk(m, f) && x !in m.globals
    ensures Silent(f, x)
  {
    forall b, k | 0 <= b < |f.blocks| && 0 <= k < |f.blocks[b]|
      ensures !Names(f.blocks[b][k], x)
    {
      assert InstrOk(m, f, f.blocks[b][k]);
    }
  }

  lemma InsertedSilent(x: string, id: nat, k: nat)
    requires x != COUNTER && k < 3
    ensures !Names(Increment(COUNTER, id)[k], x) && !Names(AtexitCall(id), x)
  {
    assert Operands(AtexitCall(id)) == [Const(FnV("atexit")), Const(FnV(HANDLER))];
  }

  lemma PrependSilent(f: Fn, x: string)
    requires Silent(f, x) && HasFront(f) && x != COUNTER
    ensures Silent(PrependCall(f), x)
  {
    var g := PrependCall(f);
    forall b, k | 0 <= b < |g.blocks| && 0 <= k < |g.blocks[b]|
      ensures !Names(g.blocks[b][k], x)
    {
      InsertedSilent(x, f.next, 0);
      if b > 0 {
        assert !Names(f.blocks[b][k], x);
      } else if k > 0 {
        assert !Names(f.blocks[0][k - 1], x);
      }
    }
  }

  /** Where the instructions of an instrumented block come from. */
  lemma BlockOrigin(b: seq<Instr>, id: nat, k: nat)
    requires k < |InstrBlock(b, COUNTER, id)|
    ensures InstrBlock(b, COUNTER, id)[k] in b || InstrBlock(b, COUNTER, id)[k] in Increment(COUNTER, id)
  {
    if HasTerminator(b) {
      var e, n := InstrBlock(b, COUNTER, id), |b| - 1;
      if k < n {
        assert e[k] == b[k];
      } else if k < n + 3 {
        assert e[k] == Increment(COUNTER, id)[k - n];
      } else {
        assert e[k] == b[n];
      }
    }
  }

  lemma InstrSilent(f: Fn, x: string)
    requires Silent(f, x) && x != COUNTER && f.name != HANDLER
    ensures Silent(InstrOne(f), x)
  {
    hide InstrBlock, Names;
    var d := InstrOne(f);
    forall b, k | 0 <= b < |d.blocks| && 0 <= k < |d.blocks[b]|
      ensures !Names(d.blocks[b][k], x)
    {
      var id := f.next + 2 * b;
      BlockOrigin(f.blocks[b], id, k);
      if d.blocks[b][k] in Increment(COUNTER, id) {
        var j :| 0 <= j < 3 && Increment(COUNTER, id)[j] == d.blocks[b][k];
        InsertedSilent(x, id, j);
      } else {
        var j :| 0 <= j < |f.blocks[b]| && f.blocks[b][j] == d.blocks[b][k];
        assert !Names(f.blocks[b][j], x);
      }
    }
  }

  lemma AfterSilent(m: Module, c: string, n: string, x: string)
    requires ModuleOk(m) && Accepted(m) && n != HANDLER && x !in m.globals && x != COUNTER
    ensures AfterSetup(m, c, n).Some? ==> Silent(InstrOne(AfterSetup(m, c, n).value), x)
  {
    hide ModuleIn, FnOk, InstrOne, Silent, PrependCall;
    if AfterSetup(m, c, n).Some? {
      var f := AfterSetup(m, c, n).value;
      if Lookup(m, n).Some? {
        FnOkOf(m, m, n);
        OldSilent(m, Lookup(m, n).value, x);
        if n == "main" {
          PrependSilent(Lookup(m, n).value, x);
        }
      } else {
        assert Silent(f, x) by { EmptySilent(f, x); }
      }
      AfterName(m, c, n);
      InstrSilent(f, x);
    }
  }

  lemma EmptySilent(f: Fn, x: string)
    requires f.blocks == []
    ensures Silent(f, x)
  {
  }

  lemma AfterName(m: Module, c: string, n: string)
    requires Accepted(m) && AfterSetup(m, c, n).Some?
    ensures AfterSetup(m, c, n).value.name == n
  {
  }

  /** In that branch nothing but the handler names the created variable. */
  lemma RenamedSpare(m: Module, suffix: string)
    requires Renamed(m, suffix)
    ensures Instrument(m, suffix).Ok? && Spare(Instrument(m, suffix).value, COUNTER + suffix)
  {
    hide ModuleIn, Instrument, AfterSetup, InstrOne, Silent, Accepted;
    var x := COUNTER + suffix;
    ResultLookup(m, suffix, HANDLER);
    var t := Instrument(m, suffix).value;
    assert |x| > |COUNTER|;
    forall n | n != HANDLER && Lookup(t, n).Some?
      ensures Silent(Lookup(t, n).value, x)
    {
      ResultLookup(m, suffix, n);
      AfterSilent(m, x, n, x);
    }
    HandlerAlone(m, x);
    InitsSilent(m, x);
  }

  lemma HandlerAlone(m: Module, x: string)
    requires ModuleOk(m) && Accepted(m) && !Defined(m, HANDLER)
    ensures MapFn(AfterSetup(m, x, HANDLER)) == Some(ReportOf(x))
  {
    hide ModuleIn;
    if Lookup(m, HANDLER).Some? {
      FnOkOf(m, m, HANDLER);
    }
    assert HandlerBefore(m) == HandlerDecl();
    assert AppendReport(HandlerDecl(), x).blocks == [ReportBlock(x, 0)];
  }

  lemma InitsSilent(m: Module, x: string)
    requires ModuleOk(m) && x !in m.globals
    ensures forall g :: g in m.globals ==> m.globals[g].init != PtrV(GlobalA(x))
  {
    hide FnOk;
  }

  /** Where the counter's name was taken, no run ever reports anything but 0. */
  lemma RenamedReports(m: Module, suffix: string, env: Env, args: seq<Val>, n: nat)
    requires Renamed(m, suffix) && ValsGood(m, args)
    ensures Instrument(m, suffix).Ok?
    ensures ZeroReports(Run(Instrument(m, suffix).value, env, Init(Instrument(m, suffix).value, args), n).trace)
  {
    hide Instrument, Spare, Run, Init, ModuleIn, Accepted;
    RenamedSpare(m, suffix);
    var x := COUNTER + suffix;
    forall k | 0 <= k < |args| ensures args[k] != PtrV(GlobalA(x)) { assert ValOk(m, args[k]); }
    RunQuiet(Instrument(m, suffix).value, x, env, args, n);
  }
}
