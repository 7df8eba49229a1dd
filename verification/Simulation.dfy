/** The relation between a run of a module and the run of its instrumented form, and the proof
    that one step of the former is a fixed number of steps of the latter. */
module Simulation {
  import opened Wrappers
  import opened IR
  import opened Machine
  import opened CountBB
  import opened Invariant

  predicate DeclaredAtMost(m: Module, n: string, sig: Sig) {
    && n !in m.globals
    && (Lookup(m, n).Some? ==> Lookup(m, n).value.blocks == [] && Lookup(m, n).value.sig == sig)
  }

  /** The names the pass introduces are unused, the library functions it calls have no body here,
      and there is a main to instrument. */
  predicate Fresh(m: Module) {
    && !Taken(m, COUNTER)
    && !Taken(m, HANDLER)
    && DeclaredAtMost(m, "atexit", ATEXIT_SIG)
    && DeclaredAtMost(m, "printf", PRINTF_SIG)
    && Defined(m, "main")
  }

  function ReportFn(): Fn {
    Fn(HANDLER, HANDLER_SIG, [ReportBlock(COUNTER, 0)], 2)
  }

  /** What becomes of one function of the module. */
  function InstrDef(f: Fn): Fn {
    InstrFn(if f.name == "main" && f.blocks != [] then PrependCall(f) else f, COUNTER)
  }

  predicate Declared(t: Module, n: string) {
    Lookup(t, n).Some? && Lookup(t, n).value.blocks == []
  }

  predicate DeclaredAs(t: Module, n: string, sig: Sig) {
    Declared(t, n) && Lookup(t, n).value.sig == sig
  }

  /** All the simulation needs to know about the pass; the order of the functions is not in it. */
  ghost predicate Instrumented(m: Module, t: Module) {
    && t.globals == m.globals[COUNTER := GlobalVar(IntV(0), false)]
    && Lookup(t, HANDLER) == Some(ReportFn())
    && DeclaredAs(t, "atexit", ATEXIT_SIG)
    && DeclaredAs(t, "printf", PRINTF_SIG)
    && (forall n :: Lookup(m, n).Some? ==> Lookup(t, n) == Some(InstrDef(Lookup(m, n).value)))
  }

  ghost predicate Setting(m: Module, t: Module) {
    ModuleOk(m) && Fresh(m) && Instrumented(m, t)
  }

  // ---------- shape of an instrumented block ----------

  function Shift(f: Fn, b: nat): nat {
    if f.name == "main" && b == 0 then 1 else 0
  }

  function TempId(f: Fn, b: nat): nat {
    f.next + (if f.name == "main" then 1 else 0) + 2 * b
  }

  /** An increment in front of the last instruction, and `h` instructions put in front of it all. */
  ghost predicate Shape(o: seq<Instr>, e: seq<Instr>, h: nat, id: nat) {
    && o != [] && |e| == |o| + h + 3
    && (forall k :: 0 <= k < |o| - 1 ==> e[k + h] == o[k])
    && (forall k :: 0 <= k < 3 ==> e[|o| + h - 1 + k] == Increment(COUNTER, id)[k])
    && e[|o| + h + 2] == o[|o| - 1]
  }

  lemma InstrBlockShape(o: seq<Instr>, front: seq<Instr>, id: nat)
    requires HasTerminator(o)
    ensures Shape(o, InstrBlock(front + o, COUNTER, id), |front|, id)
  {
    var p := front + o;
    assert HasTerminator(p);
    assert p[..|p|-1] == front + o[..|o|-1];
    assert p[|p|-1..] == [o[|o|-1]];
  }

  lemma BlockShape(f: Fn, b: nat)
    requires b < |f.blocks| && BlockOk(f.blocks[b])
    ensures |InstrDef(f).blocks| == |f.blocks|
    ensures Shape(f.blocks[b], InstrDef(f).blocks[b], Shift(f, b), TempId(f, b))
    ensures Shift(f, b) == 1 ==> InstrDef(f).blocks[b][0] == AtexitCall(f.next)
  {
    hide InstrBlock, Shape;
    var front := if Shift(f, b) == 1 then [AtexitCall(f.next)] else [];
    assert HasTerminator(f.blocks[b]);
    InstrBlockShape(f.blocks[b], front, TempId(f, b));
    assert InstrDef(f).blocks[b] == InstrBlock(front + f.blocks[b], COUNTER, TempId(f, b)) by {
      assert [] + f.blocks[b] == f.blocks[b];
    }
    InstrBlockFront(front + f.blocks[b], TempId(f, b));
  }

  lemma InstrBlockFront(p: seq<Instr>, id: nat)
    requires HasTerminator(p)
    ensures |p| > 1 ==> InstrBlock(p, COUNTER, id)[0] == p[0]
  {
  }

  // ---------- the relation ----------

  function Visible(tr: seq<Event>): seq<Event> {
    if tr == [] then []
    else Visible(tr[..|tr|-1]) + if tr[|tr|-1].caller == HANDLER then [] else [tr[|tr|-1]]
  }

  function UserLog(log: seq<(string, nat)>): seq<(string, nat)> {
    if log == [] then []
    else UserLog(log[..|log|-1]) + if log[|log|-1].0 == HANDLER then [] else [log[|log|-1]]
  }

  function UserHandlers(hs: seq<string>): seq<string> {
    if hs == [] then []
    else UserHandlers(hs[..|hs|-1]) + if hs[|hs|-1] == HANDLER then [] else [hs[|hs|-1]]
  }

  lemma VisiblePush(tr: seq<Event>, e: Event)
    ensures Visible(tr + [e]) == Visible(tr) + if e.caller == HANDLER then [] else [e]
  {
    assert (tr + [e])[..|tr|] == tr;
  }

  lemma UserLogPush(log: seq<(string, nat)>, e: (string, nat))
    ensures UserLog(log + [e]) == UserLog(log) + if e.0 == HANDLER then [] else [e]
  {
    assert (log + [e])[..|log|] == log;
  }

  lemma UserHandlersPush(hs: seq<string>, h: string)
    ensures UserHandlers(hs + [h]) == UserHandlers(hs) + if h == HANDLER then [] else [h]
  {
    assert (hs + [h])[..|hs|] == hs;
  }

  /** Blocks whose end was reached: every live frame is still inside its block. */
  function Completed(s: State): int {
    |s.log| - |s.frames|
  }

  predicate RegsMatch(next: nat, rs: map<nat, Val>, rt: map<nat, Val>) {
    && (forall id :: id in rs ==> id in rt && rt[id] == rs[id])
    && (forall id :: id in rt && id < next ==> id in rs)
  }

  predicate FrameMatch(m: Module, fs: Frame, ft: Frame, ip: nat) {
    && ft.fn == fs.fn && ft.blk == fs.blk && ft.args == fs.args && ft.dest == fs.dest
    && ft.ip == ip
    && Lookup(m, fs.fn).Some?
    && RegsMatch(Lookup(m, fs.fn).value.next, fs.regs, ft.regs)
  }

  /** Where the instrumented frame stands when the original one is between two instructions. */
  function BoundaryIp(f: Frame): nat {
    if f.fn == "main" && f.blk == 0 && f.ip > 0 then f.ip + 1 else f.ip
  }

  predicate FramesMatch(m: Module, fs: seq<Frame>, ts: seq<Frame>, ip: nat) {
    && |fs| == |ts|
    && forall i :: 0 <= i < |fs| ==> FrameMatch(m, fs[i], ts[i], if i == |fs| - 1 then ip else BoundaryIp(fs[i]))
  }

  predicate CounterIs(s: State, mem: map<Addr, Val>, extra: nat) {
    mem == s.mem[GlobalA(COUNTER) := IntV((Completed(s) + extra) % WORDS)]
  }

  /** The two states agree except that the instrumented one has its top frame at `ip` and has
      counted `extra` blocks more than are completed. */
  predicate Sync(m: Module, s: State, t: State, ip: nat, extra: nat) {
    && FramesMatch(m, s.frames, t.frames, ip)
    && CounterIs(s, t.mem, extra)
    && t.cells == s.cells && t.inputs == s.inputs && t.phase == s.phase
    && Visible(t.trace) == s.trace
    && UserLog(t.log) == s.log
    && UserHandlers(t.handlers) == s.handlers
  }

  function TopIp(s: State): nat {
    if s.frames == [] then 0 else BoundaryIp(Top(s))
  }

  predicate Match(m: Module, s: State, t: State) {
    Sync(m, s, t, TopIp(s), 0)
  }

  // ---------- operands and straight-line instructions ----------

  lemma EvalMatch(m: Module, d: Fn, fs: Frame, ft: Frame, o: Operand)
    requires RegsMatch(d.next, fs.regs, ft.regs) && ft.args == fs.args && OperandOk(m, d, o)
    ensures Eval(ft, o) == Eval(fs, o)
  {
  }

  lemma {:induction false} EvalAllMatch(m: Module, d: Fn, fs: Frame, ft: Frame, os: seq<Operand>)
    requires RegsMatch(d.next, fs.regs, ft.regs) && ft.args == fs.args
    requires forall k :: 0 <= k < |os| ==> OperandOk(m, d, os[k])
    ensures EvalAll(ft, os) == EvalAll(fs, os)
  {
    if os != [] {
      EvalAllMatch(m, d, fs, ft, os[..|os|-1]);
      EvalMatch(m, d, fs, ft, os[|os|-1]);
    }
  }

  /** A store elsewhere and a store to the counter can be exchanged. */
  lemma StoreApart(mem: map<Addr, Val>, w: Word, a: Addr, v: Val)
    requires a != GlobalA(COUNTER)
    ensures mem[GlobalA(COUNTER) := IntV(w)][a := v] == mem[a := v][GlobalA(COUNTER) := IntV(w)]
  {
  }

  /** The same outcome, up to new registers and the counter's value. */
  predicate EffectMatch(d: Fn, es: Option<Effect>, et: Option<Effect>, w: Word) {
    && (es.Some? <==> et.Some?)
    && (es.Some? ==>
          && RegsMatch(d.next, es.value.regs, et.value.regs)
          && et.value.mem == es.value.mem[GlobalA(COUNTER) := IntV(w)]
          && et.value.cells == es.value.cells)
  }

  /** Frames of the two machines at an instruction of `d` that uses only names of `m`. */
  predicate Beside(m: Module, d: Fn, fs: Frame, ft: Frame, mem: map<Addr, Val>, i: Instr) {
    && RegsMatch(d.next, fs.regs, ft.regs) && ft.args == fs.args && InstrOk(m, d, i)
    && RegsGood(m, d, fs.regs) && ValsGood(m, fs.args) && MemGood(m, mem) && COUNTER !in m.globals
  }

  lemma LoadMatch(m: Module, d: Fn, fs: Frame, ft: Frame, mem: map<Addr, Val>, w: Word, cells: nat, i: Instr)
    requires Beside(m, d, fs, ft, mem, i) && i.Load?
    ensures EffectMatch(d, Local(fs, mem, cells, i), Local(ft, mem[GlobalA(COUNTER) := IntV(w)], cells, i), w)
  {
    assert Operands(i)[0] == i.ptr;
    EvalGood(m, d, fs, i.ptr);
    EvalMatch(m, d, fs, ft, i.ptr);
    hide Eval, OperandOk, Operands;
  }

  lemma StoreMatch(m: Module, d: Fn, fs: Frame, ft: Frame, mem: map<Addr, Val>, w: Word, cells: nat, i: Instr)
    requires Beside(m, d, fs, ft, mem, i) && i.Store?
    ensures EffectMatch(d, Local(fs, mem, cells, i), Local(ft, mem[GlobalA(COUNTER) := IntV(w)], cells, i), w)
  {
    assert Operands(i)[0] == i.value && Operands(i)[1] == i.ptr;
    EvalGood(m, d, fs, i.ptr);
    EvalMatch(m, d, fs, ft, i.value);
    EvalMatch(m, d, fs, ft, i.ptr);
    hide Eval, OperandOk, Operands;
    var a, v := Eval(fs, i.ptr), Eval(fs, i.value);
    if a.Some? && v.Some? && a.value.PtrV? && a.value.a in mem {
      StoreApart(mem, w, a.value.a, v.value);
    }
  }

  lemma BinMatch(m: Module, d: Fn, fs: Frame, ft: Frame, mem: map<Addr, Val>, w: Word, cells: nat, i: Instr)
    requires Beside(m, d, fs, ft, mem, i) && i.Bin?
    ensures EffectMatch(d, Local(fs, mem, cells, i), Local(ft, mem[GlobalA(COUNTER) := IntV(w)], cells, i), w)
  {
    hide EvalBin;
    assert Operands(i)[0] == i.a && Operands(i)[1] == i.b;
    EvalMatch(m, d, fs, ft, i.a);
    EvalMatch(m, d, fs, ft, i.b);
    hide Eval, OperandOk, Operands;
  }

  lemma AllocaMatch(m: Module, d: Fn, fs: Frame, ft: Frame, mem: map<Addr, Val>, w: Word, cells: nat, i: Instr)
    requires Beside(m, d, fs, ft, mem, i) && i.Alloca?
    ensures EffectMatch(d, Local(fs, mem, cells, i), Local(ft, mem[GlobalA(COUNTER) := IntV(w)], cells, i), w)
  {
    StoreApart(mem, w, CellA(cells), UndefV);
  }

  lemma LocalMatch(m: Module, d: Fn, fs: Frame, ft: Frame, mem: map<Addr, Val>, w: Word, cells: nat, i: Instr)
    requires Beside(m, d, fs, ft, mem, i)
    ensures EffectMatch(d, Local(fs, mem, cells, i), Local(ft, mem[GlobalA(COUNTER) := IntV(w)], cells, i), w)
  {
    match i
    case Load(_, _) => LoadMatch(m, d, fs, ft, mem, w, cells, i);
    case Store(_, _) => StoreMatch(m, d, fs, ft, mem, w, cells, i);
    case Bin(_, _, x, y) => BinMatch(m, d, fs, ft, mem, w, cells, i);
    case Alloca(_) => AllocaMatch(m, d, fs, ft, mem, w, cells, i);
    case _ =>
  }

  // ---------- jumps ----------

  /** Instrumentation leaves the phis at the front of a jump target alone. */
  lemma {:induction false} NumPhisMatch(o: seq<Instr>, e: seq<Instr>, k: nat)
    requires o != [] && |o| <= |e| && k < |o|
    requires !o[|o|-1].Phi? && !e[|o|-1].Phi?
    requires forall j :: 0 <= j < |o| - 1 ==> e[j] == o[j]
    ensures NumPhis(e, k) == NumPhis(o, k) < |o|
    decreases |o| - k
  {
    if k < |o| - 1 && o[k].Phi? {
      NumPhisMatch(o, e, k + 1);
    }
  }

  lemma {:induction false} PhiRegsMatch(m: Module, d: Fn, fs: Frame, ft: Frame, o: seq<Instr>, e: seq<Instr>, n: nat)
    requires RegsMatch(d.next, fs.regs, ft.regs) && ft.args == fs.args && ft.blk == fs.blk
    requires n <= |o| && n <= |e|
    requires forall k :: 0 <= k < n ==> e[k] == o[k] && InstrOk(m, d, o[k])
    ensures PhiRegs(fs, o, n).Some? <==> PhiRegs(ft, e, n).Some?
    ensures PhiRegs(fs, o, n).Some? ==> RegsMatch(d.next, PhiRegs(fs, o, n).value, PhiRegs(ft, e, n).value)
  {
    if n > 0 {
      PhiRegsMatch(m, d, fs, ft, o, e, n - 1);
      var i := o[n - 1];
      if i.Phi? {
        var p := PhiOperand(i.incoming, fs.blk);
        if p.Some? {
          var k :| 0 <= k < |Operands(i)| && Operands(i)[k] == p.value;
          EvalMatch(m, d, fs, ft, p.value);
        }
      }
    }
  }

  lemma JumpMatch(m: Module, fs: Frame, ft: Frame, ip: nat, b: nat)
    requires ModuleOk(m) && FrameGood(m, m, fs) && FrameMatch(m, fs, ft, ip)
    requires 0 < b < |Lookup(m, fs.fn).value.blocks|
    ensures var d := Lookup(m, fs.fn).value;
      var js := Jump(d, fs, b);
      var jt := Jump(InstrDef(d), ft, b);
      && (js.Some? <==> jt.Some?)
      && (js.Some? ==>
          FrameMatch(m, js.value, jt.value, BoundaryIp(js.value)) && js.value.fn == fs.fn
              && js.value.blk == jt.value.blk == b)
  {
    var d := Lookup(m, fs.fn).value;
    FnOkOf(m, m, fs.fn);
    BlockShape(d, b);
    var o, e := d.blocks[b], InstrDef(d).blocks[b];
    assert IsTerm(o[|o| - 1]);
    NumPhisMatch(o, e, 0);
    assert forall k :: 0 <= k < |o| - 1 ==> e[k] == o[k] by {
      forall k | 0 <= k < |o| - 1 ensures e[k] == o[k] { assert e[k + 0] == o[k]; }
    }
    PhiRegsMatch(m, d, fs, ft, o, e, NumPhis(o, 0));
  }

  // ---------- the instruction the two machines share ----------

  function BlockLen(m: Module, f: Frame): nat
    requires FrameGood(m, m, f)
  {
    |Lookup(m, f.fn).value.blocks[f.blk]|
  }

  predicate AtEnd(m: Module, f: Frame)
    requires FrameGood(m, m, f)
  {
    f.ip == BlockLen(m, f) - 1
  }

  /** Where the instrumented frame stands when it is about to run the original instruction. */
  function ReadyIp(m: Module, f: Frame): nat
    requires FrameGood(m, m, f)
  {
    f.ip + Shift(Lookup(m, f.fn).value, f.blk) + if AtEnd(m, f) then 3 else 0
  }

  lemma ReadyFetch(m: Module, t: Module, fs: Frame, ft: Frame)
    requires Setting(m, t) && FrameGood(m, m, fs) && FrameMatch(m, fs, ft, ReadyIp(m, fs))
    ensures Fetch(t, ft) == Fetch(m, fs)
  {
    hide ModuleIn, FnOk, BlockOk, Fresh, InstrDef, RegsMatch;
    var d := Lookup(m, fs.fn).value;
    BlockShape(d, fs.blk) by { BlockOkOf(m, m, fs.fn, fs.blk); }
    if !AtEnd(m, fs) {
      assert InstrDef(d).blocks[fs.blk][fs.ip + Shift(d, fs.blk)] == d.blocks[fs.blk][fs.ip];
    }
  }

  lemma LocalStepSync(m: Module, t: Module, s: State, s': State, i: Instr)
    requires Setting(m, t) && Good(m, m, s) && s.frames != []
    requires Sync(m, s, s', ReadyIp(m, Top(s)), 0) && Fetch(m, Top(s)) == Some(i) && !IsTerm(i)
    requires !s.phase.Undef?
    ensures LocalStep(s, i).phase.Undef? <==> LocalStep(s', i).phase.Undef?
    ensures LocalStep(s, i).phase.Undef? || Match(m, LocalStep(s, i), LocalStep(s', i))
  {
    hide Sync, Match, Local, Good, FramesGood, BlockOk, InstrOk, ModuleIn, Instrumented, RegsMatch, ValsGood, RegsGood;
    TopGood(m, m, s);
    var f := Top(s);
    SyncTop(m, s, s', ReadyIp(m, f), 0);
    FetchGood(m, m, f);
    GoodMem(m, s);
    SyncRest(m, s, s', ReadyIp(m, f), 0);
    LocalMatch(m, Lookup(m, f.fn).value, f, Top(s'), s.mem, Completed(s) % WORDS, s.cells, i);
    var e, e' := Local(f, s.mem, s.cells, i), Local(Top(s'), s'.mem, s'.cells, i);
    if e.Some? {
      LocalAdvance(m, s, s', e.value, e'.value);
    }
  }

  lemma GoodMem(m: Module, s: State)
    requires Good(m, m, s)
    ensures MemGood(m, s.mem)
  {
  }

  lemma SyncRest(m: Module, s: State, s': State, ip: nat, extra: nat)
    requires Sync(m, s, s', ip, extra)
    ensures CounterIs(s, s'.mem, extra) && s'.cells == s.cells
  {
  }

  lemma LocalAdvance(m: Module, s: State, s': State, e: Effect, e': Effect)
    requires s.frames != [] && FrameGood(m, m, Top(s)) && !AtEnd(m, Top(s)) && Sync(m, s, s', ReadyIp(m, Top(s)), 0)
    requires RegsMatch(Lookup(m, Top(s).fn).value.next, e.regs, e'.regs) && e'.cells == e.cells
    requires e'.mem == e.mem[GlobalA(COUNTER) := IntV(Completed(s) % WORDS)]
    ensures Match(m,
      SetTop(s, Top(s).(ip := Top(s).ip + 1, regs := e.regs)).(mem := e.mem, cells := e.cells),
      SetTop(s', Top(s').(ip := Top(s').ip + 1, regs := e'.regs)).(mem := e'.mem, cells := e'.cells))
  {
  }

  lemma SyncTop(m: Module, s: State, s': State, ip: nat, extra: nat)
    requires Sync(m, s, s', ip, extra) && s.frames != []
    ensures |s'.frames| == |s.frames| && FrameMatch(m, Top(s), Top(s'), ip)
    ensures s'.phase == s.phase
  {
  }

  lemma BranchStepSync(m: Module, t: Module, s: State, s': State, i: Instr)
    requires Setting(m, t) && Good(m, m, s) && s.frames != []
    requires Sync(m, s, s', ReadyIp(m, Top(s)), 1) && Fetch(m, Top(s)) == Some(i)
    requires !s.phase.Undef?
    ensures BranchStep(m, s, i).phase.Undef? <==> BranchStep(t, s', i).phase.Undef?
    ensures BranchStep(m, s, i).phase.Undef? || Match(m, BranchStep(m, s, i), BranchStep(t, s', i))
  {
    hide Sync, Match, Jump, Good, FramesGood, BlockOk, ModuleIn, RegsMatch, ValsGood, RegsGood, OperandOk;
    TopGood(m, m, s);
    var f := Top(s);
    SyncTop(m, s, s', ReadyIp(m, f), 1);
    var f' := Top(s');
    FetchGood(m, m, f);
    BranchTargetMatch(m, f, f', i);
    var b := BranchTarget(f, i);
    if b.Some? {
      var k :| 0 <= k < |Targets(i)| && Targets(i)[k] == b.value;
      JumpMatch(m, f, f', ReadyIp(m, f), b.value);
      var j, j' := Jump(Lookup(m, f.fn).value, f, b.value), Jump(InstrDef(Lookup(m, f.fn).value), f', b.value);
      if j.Some? {
        JumpedMatch(m, s, s', j.value, j'.value);
      }
    }
  }

  lemma JumpedMatch(m: Module, s: State, s': State, j: Frame, j': Frame)
    requires s.frames != [] && FrameGood(m, m, Top(s)) && Sync(m, s, s', ReadyIp(m, Top(s)), 1)
    requires FrameMatch(m, j, j', BoundaryIp(j)) && j.fn == Top(s).fn != HANDLER
    ensures Match(m, SetTop(s, j).(log := s.log + [(j.fn, j.blk)]), SetTop(s', j').(log := s'.log + [(j.fn, j.blk)]))
  {
    UserLogPush(s'.log, (j.fn, j.blk));
  }

  lemma BranchTargetMatch(m: Module, fs: Frame, ft: Frame, i: Instr)
    requires FrameGood(m, m, fs) && FrameMatch(m, fs, ft, ReadyIp(m, fs)) && InstrOk(m, Lookup(m, fs.fn).value, i)
    ensures BranchTarget(ft, i) == BranchTarget(fs, i)
  {
    hide FrameGood, BlockOk, RegsMatch;
    var d := Lookup(m, fs.fn).value;
    match i
    case CondBr(c, _, _) =>
      assert Operands(i)[0] == c;
      EvalMatch(m, d, fs, ft, c);
    case Switch(o, _, _) =>
      assert Operands(i)[0] == o;
      EvalMatch(m, d, fs, ft, o);
    case _ =>
  }

  // ---------- calls and returns ----------

  lemma DeliverMatch(m: Module, s: State, t: State, dest: Option<nat>, v: Val)
    requires Match(m, s, t)
    ensures Match(m, Deliver(s, dest, v), Deliver(t, dest, v))
  {
    hide Visible, UserLog, UserHandlers;
  }

  lemma ExternalMatch(m: Module, env: Env, s: State, t: State, caller: string, name: string, vals: seq<Val>,
      dest: Option<nat>)
    requires Match(m, s, t) && ValsGood(m, vals) && Lookup(m, HANDLER).None? && caller != HANDLER && !s.phase.Undef?
    ensures var s', t' := External(env, s, caller, name, vals, dest), External(env, t, caller, name, vals, dest);
      (s'.phase.Undef? <==> t'.phase.Undef?) && (s'.phase.Undef? || (Match(m, s', t') && SameGrowth(s, t, s', t')))
  {
    hide Match, Deliver;
    MatchPhase(m, s, t);
    if name == "exit" {
      if s.phase.Running? && |vals| == 1 && vals[0].IntV? {
        ExitMatch(m, s, t, vals[0].w);
      }
    } else if name == "atexit" {
      if |vals| == 1 && vals[0].FnV? {
        assert ValOk(m, vals[0]);
        var h, h' := s.(handlers := s.handlers + [vals[0].fn]), t.(handlers := t.handlers + [vals[0].fn]);
        HandlerMatch(m, s, t, vals[0].fn);
        DeliverMatch(m, h, h', dest, IntV(0));
        DeliverFrame(h, dest, IntV(0));
        DeliverFrame(h', dest, IntV(0));
      }
    } else {
      var e := Event(caller, name, vals);
      EventMatch(m, s, t, e);
      var v := IntV(if name == "printf" then env.output(vals) else env.input(s.inputs, name, vals));
      var n := if name == "printf" then 0 else 1;
      var p, p' := s.(trace := s.trace + [e], inputs := s.inputs + n),
          t.(trace := t.trace + [e], inputs := t.inputs + n);
      DeliverMatch(m, p, p', dest, v);
      DeliverFrame(p, dest, v);
      DeliverFrame(p', dest, v);
    }
  }

  lemma DeliverFrame(s: State, dest: Option<nat>, v: Val)
    ensures var r := Deliver(s, dest, v);
      r.phase == s.phase && r.handlers == s.handlers && r.trace == s.trace
  {
  }

  /** What one step appends to handlers and trace, the other machine's step appends too. */
  predicate SameGrowth(s: State, t: State, s': State, t': State) {
    && s.handlers <= s'.handlers && t'.handlers == t.handlers + s'.handlers[|s.handlers|..]
    && s.trace <= s'.trace && t'.trace == t.trace + s'.trace[|s.trace|..]
  }

  lemma ExitMatch(m: Module, s: State, t: State, w: Word)
    requires Match(m, s, t)
    ensures Match(m, s.(phase := Exiting(|s.frames|, w)), t.(phase := Exiting(|t.frames|, w)))
  {
  }

  lemma HandlerMatch(m: Module, s: State, t: State, h: string)
    requires Match(m, s, t) && h != HANDLER
    ensures Match(m, s.(handlers := s.handlers + [h]), t.(handlers := t.handlers + [h]))
  {
    UserHandlersPush(t.handlers, h);
  }

  lemma EventMatch(m: Module, s: State, t: State, e: Event)
    requires Match(m, s, t) && e.caller != HANDLER
    ensures t.inputs == s.inputs
    ensures Match(m, s.(trace := s.trace + [e]), t.(trace := t.trace + [e]))
    ensures Match(m, s.(trace := s.trace + [e], inputs := s.inputs + 1),
        t.(trace := t.trace + [e], inputs := t.inputs + 1))
  {
    hide Visible, UserLog, UserHandlers, FramesMatch, CounterIs, TopIp;
    VisiblePush(t.trace, e);
    assert TopIp(s.(trace := s.trace + [e])) == TopIp(s) by { SameTop(s, e); }
    assert TopIp(s.(trace := s.trace + [e], inputs := s.inputs + 1)) == TopIp(s) by { SameTop(s, e); }
    assert CounterIs(s.(trace := s.trace + [e]), t.mem, 0)
        && CounterIs(s.(trace := s.trace + [e], inputs := s.inputs + 1), t.mem, 0) by {
      SameCount(s, e, t.mem);
    }
  }

  lemma SameTop(s: State, e: Event)
    ensures TopIp(s.(trace := s.trace + [e])) == TopIp(s)
    ensures TopIp(s.(trace := s.trace + [e], inputs := s.inputs + 1)) == TopIp(s)
  {
  }

  lemma SameCount(s: State, e: Event, mem: map<Addr, Val>)
    requires CounterIs(s, mem, 0)
    ensures CounterIs(s.(trace := s.trace + [e]), mem, 0)
    ensures CounterIs(s.(trace := s.trace + [e], inputs := s.inputs + 1), mem, 0)
  {
  }

  lemma PushMatch(m: Module, s: State, t: State, name: string, vals: seq<Val>, dest: Option<nat>)
    requires Match(m, s, t) && Lookup(m, name).Some? && name != HANDLER
    ensures var f := Frame(name, 0, 0, vals, map[], dest);
      Match(m, s.(frames := s.frames + [f], log := s.log + [(name, 0)]),
          t.(frames := t.frames + [f], log := t.log + [(name, 0)]))
  {
    hide UserLog, FrameMatch, FramesMatch;
    UserLogPush(t.log, (name, 0));
    FramesPush(m, s.frames, t.frames, Frame(name, 0, 0, vals, map[], dest));
  }

  lemma FramesPush(m: Module, fs: seq<Frame>, ts: seq<Frame>, f: Frame)
    requires FramesMatch(m, fs, ts, if fs == [] then 0 else BoundaryIp(fs[|fs| - 1]))
    requires Lookup(m, f.fn).Some? && f.ip == 0 && f.regs == map[]
    ensures FramesMatch(m, fs + [f], ts + [f], 0)
  {
  }

  lemma InvokeMatch(m: Module, t: Module, env: Env, s: State, s': State, caller: string, name: string, vals: seq<Val>,
      dest: Option<nat>)
    requires Setting(m, t) && Match(m, s, s') && ValsGood(m, vals) && caller != HANDLER && !s.phase.Undef?
    requires Lookup(m, name).Some?
    ensures var r, r' := Invoke(m, env, s, caller, name, vals, dest), Invoke(t, env, s', caller, name, vals, dest);
      (r.phase.Undef? <==> r'.phase.Undef?) && (r.phase.Undef? || (Match(m, r, r') && SameGrowth(s, s', r, r')))
  {
    hide External, Match, ModuleIn, FnOk, SameGrowth;
    var d := Lookup(m, name).value;
    DefParts(d);
    hide InstrDef;
    MatchPhase(m, s, s');
    if !Accepts(d.sig, |vals|) {
    } else if d.blocks == [] {
      ExternalMatch(m, env, s, s', caller, name, vals, dest);
    } else {
      PushMatch(m, s, s', name, vals, dest);
      NoGrowth(s, s', Invoke(m, env, s, caller, name, vals, dest), Invoke(t, env, s', caller, name, vals, dest));
    }
  }

  lemma NoGrowth(s: State, t: State, s': State, t': State)
    requires s'.handlers == s.handlers && t'.handlers == t.handlers && s'.trace == s.trace && t'.trace == t.trace
    ensures SameGrowth(s, t, s', t')
  {
  }

  lemma DefParts(d: Fn)
    ensures |InstrDef(d).blocks| == |d.blocks| && InstrDef(d).sig == d.sig && InstrDef(d).name == d.name
  {
    hide InstrBlock;
  }

  lemma MatchPhase(m: Module, s: State, s': State)
    requires Match(m, s, s')
    ensures s'.phase == s.phase && |s'.frames| == |s.frames|
  {
  }

  lemma GrowthFrom(s: State, t: State, s1: State, t1: State, s': State, t': State)
    requires s1.handlers == s.handlers && s1.trace == s.trace && t1.handlers == t.handlers && t1.trace == t.trace
    ensures SameGrowth(s1, t1, s', t') ==> SameGrowth(s, t, s', t')
  {
  }

  /** The call itself, once callee and arguments are known to be the same. */
  lemma InvokeSync(m: Module, t: Module, env: Env, s: State, s': State, name: string, vals: seq<Val>, dest: Option<nat>)
    requires Setting(m, t) && Good(m, m, s) && s.frames != [] && FrameGood(m, m, Top(s)) && !AtEnd(m, Top(s))
    requires Sync(m, s, s', ReadyIp(m, Top(s)), 0) && ValsGood(m, vals) && Lookup(m, name).Some? && !s.phase.Undef?
    ensures s'.frames != []
    ensures var r := Invoke(m, env, SetTop(s, Top(s).(ip := Top(s).ip + 1)), Top(s).fn, name, vals, dest);
      var r' := Invoke(t, env, SetTop(s', Top(s').(ip := Top(s').ip + 1)), Top(s).fn, name, vals, dest);
      (r.phase.Undef? <==> r'.phase.Undef?) && (r.phase.Undef? || (Match(m, r, r') && SameGrowth(s, s', r, r')))
  {
    hide Invoke, Sync, Match, Good, FramesGood, SameGrowth, ModuleIn, FrameMatch, RegsMatch, ValsGood, Completed;
    SyncTop(m, s, s', ReadyIp(m, Top(s)), 0);
    var f, f' := Top(s), Top(s');
    var p, p' := SetTop(s, f.(ip := f.ip + 1)), SetTop(s', f'.(ip := f'.ip + 1));
    AdvanceMatch(m, s, s');
    InvokeMatch(m, t, env, p, p', f.fn, name, vals, dest);
    GrowthFrom(s, s', p, p', Invoke(m, env, p, f.fn, name, vals, dest), Invoke(t, env, p', f.fn, name, vals, dest));
  }

  lemma CallStepSync(m: Module, t: Module, env: Env, s: State, s': State, i: Instr)
    requires Setting(m, t) && Good(m, m, s) && s.frames != []
    requires Sync(m, s, s', ReadyIp(m, Top(s)), 0) && Fetch(m, Top(s)) == Some(i) && i.Call?
    requires !s.phase.Undef?
    ensures CallStep(m, env, s, i).phase.Undef? <==> CallStep(t, env, s', i).phase.Undef?
    ensures CallStep(m, env, s, i).phase.Undef? ||
            (Match(m, CallStep(m, env, s, i), CallStep(t, env, s', i))
                && SameGrowth(s, s', CallStep(m, env, s, i), CallStep(t, env, s', i)))
  {
    hide Invoke, Sync, Match, Good, FramesGood, BlockOk, InstrOk, SameGrowth, Eval, EvalAll, Fresh, ModuleIn;
    hide Instrumented, Completed, Operands, OperandOk, RegsMatch, ValsGood, RegsGood;
    TopGood(m, m, s);
    var f := Top(s);
    SyncTop(m, s, s', ReadyIp(m, f), 0);
    var f' := Top(s');
    var d := Lookup(m, f.fn).value;
    FetchGood(m, m, f);
    assert FrameMatch(m, f, f', ReadyIp(m, f)) && !AtEnd(m, f);
    hide ReadyIp, AtEnd;
    CallOperands(m, d, i);
    ArgsGood(m, m, f, i);
    EvalGood(m, d, f, i.callee);
    EvalMatch(m, d, f, f', i.callee);
    EvalAllMatch(m, d, f, f', i.args);
    var c := Eval(f, i.callee);
    var vals := EvalAll(f, i.args);
    if c.Some? && c.value.FnV? && vals.Some? {
      InvokeSync(m, t, env, s, s', c.value.fn, vals.value, Some(i.id));
    }
  }

  /** Both machines move past the same non-terminator. */
  lemma AdvanceMatch(m: Module, s: State, s': State)
    requires ModuleOk(m) && Good(m, m, s) && s.frames != [] && !AtEnd(m, Top(s))
    requires Sync(m, s, s', ReadyIp(m, Top(s)), 0)
    ensures Match(m, SetTop(s, Top(s).(ip := Top(s).ip + 1)), SetTop(s', Top(s').(ip := Top(s').ip + 1)))
  {
    hide ModuleIn, Visible, UserLog, UserHandlers, RegsMatch, MemGood, DestGood, RegsGood, ValsGood;
  }

  lemma RetStepSync(m: Module, t: Module, s: State, s': State, i: Instr)
    requires Setting(m, t) && Good(m, m, s) && s.frames != [] && !AtExitBase(s)
    requires Sync(m, s, s', ReadyIp(m, Top(s)), 1) && Fetch(m, Top(s)) == Some(i) && i.Ret?
    requires !s.phase.Undef?
    ensures RetStep(s, i).phase.Undef? <==> RetStep(s', i).phase.Undef?
    ensures RetStep(s, i).phase.Undef? || Match(m, RetStep(s, i), RetStep(s', i))
  {
    hide Sync, Match, Good, FramesGood, BlockOk, InstrOk, Deliver, Completed, FrameMatch, RegsMatch, ModuleIn,
        Instrumented;
    hide Fresh, ValsGood, RegsGood, Eval;
    TopGood(m, m, s);
    var f := Top(s);
    SyncTop(m, s, s', ReadyIp(m, f), 1);
    var f' := Top(s');
    FetchGood(m, m, f);
    RetOperand(m, f, f', i, ReadyIp(m, f));
    var v := if i.result.Some? then Eval(f, i.result.value) else None;
    PopMatch(m, s, s');
    if v.Some? {
      DeliverMatch(m, s.(frames := s.frames[..|s.frames|-1]), s'.(frames := s'.frames[..|s'.frames|-1]), f.dest,
          v.value);
      DeliverFrame(s.(frames := s.frames[..|s.frames|-1]), f.dest, v.value);
      DeliverFrame(s'.(frames := s'.frames[..|s'.frames|-1]), f.dest, v.value);
    }
    if s.phase.Running? && |s.frames| == 1 && ExitCode(v).Some? {
      assert s.frames[..0] == [] && s'.frames[..0] == [];
      ExitedMatch(m, s.(frames := []), s'.(frames := []), ExitCode(v).value);
    }
  }

  lemma RetOperand(m: Module, f: Frame, f': Frame, i: Instr, ip: nat)
    requires FrameGood(m, m, f) && FrameMatch(m, f, f', ip) && i.Ret? && InstrOk(m, Lookup(m, f.fn).value, i)
    ensures i.result.Some? ==> Eval(f', i.result.value) == Eval(f, i.result.value)
    ensures f'.dest == f.dest
  {
    if i.result.Some? {
      assert Operands(i)[0] == i.result.value;
    }
  }

  lemma ExitedMatch(m: Module, s: State, s': State, w: Word)
    requires Match(m, s, s') && s.frames == [] == s'.frames
    ensures Match(m, s.(phase := Exiting(0, w)), s'.(phase := Exiting(0, w)))
  {
  }

  lemma PopMatch(m: Module, s: State, s': State)
    requires s.frames != [] && FrameGood(m, m, Top(s)) && Sync(m, s, s', ReadyIp(m, Top(s)), 1)
    ensures Match(m, s.(frames := s.frames[..|s.frames|-1]), s'.(frames := s'.frames[..|s'.frames|-1]))
  {
  }
}
