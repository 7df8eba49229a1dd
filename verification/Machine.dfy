/** Step semantics of the representation: a call stack, memory, the exit-handler list, the events
    sent to external functions, and the log of blocks entered. The machine is deterministic; what
    external functions answer is the parameter `env`. */
module Machine {
  import opened Wrappers
  import opened IR

  /** `dest` is where the caller wants the result; `ip` of a suspended frame is past its call. */
  datatype Frame = Frame(fn: string, blk: nat, ip: nat, args: seq<Val>, regs: map<nat, Val>, dest: Option<nat>)

  datatype Event = Event(caller: string, callee: string, args: seq<Val>)

  /** `Exiting(base, code)`: exit handlers run on top of `base` frames that never resume.
      `Undef`: undefined behaviour was met. */
  datatype Phase = Running | Exiting(base: nat, code: Word) | Done(code: Word) | Undef

  datatype State = State(
    frames: seq<Frame>,
    mem: map<Addr, Val>,
    cells: nat,
    handlers: seq<string>,
    trace: seq<Event>,
    inputs: nat,
    log: seq<(string, nat)>,
    phase: Phase)

  /** `printf` only writes: its answer depends on its arguments alone. Every other external call
      may answer anything that depends on how many such calls came before it. */
  datatype Env = Env(input: (nat, string, seq<Val>) -> Word, output: seq<Val> -> Word)

  function Stuck(s: State): State {
    s.(phase := Undef)
  }

  function Top(s: State): Frame
    requires s.frames != []
  {
    s.frames[|s.frames| - 1]
  }

  function SetTop(s: State, f: Frame): (r: State)
    requires s.frames != []
    ensures |r.frames| == |s.frames|
  {
    s.(frames := s.frames[|s.frames| - 1 := f])
  }

  // ---------- operands ----------

  function Eval(f: Frame, o: Operand): Option<Val> {
    match o
    case Const(v) => Some(v)
    case Reg(id) => if id in f.regs then Some(f.regs[id]) else None
    case Arg(i) => if i < |f.args| then Some(f.args[i]) else None
  }

  function EvalAll(f: Frame, os: seq<Operand>): (r: Option<seq<Val>>)
    ensures r.Some? ==> |r.value| == |os|
    ensures r.Some? ==> forall k :: 0 <= k < |os| ==> Eval(f, os[k]) == Some(r.value[k])
    ensures r.None? ==> exists k :: 0 <= k < |os| && Eval(f, os[k]).None?
  {
    if os == [] then Some([])
    else
      var rest := EvalAll(f, os[..|os|-1]);
      var last := Eval(f, os[|os|-1]);
      if rest.None? || last.None? then None else Some(rest.value + [last.value])
  }

  function Arith(op: BinOp, x: Word, y: Word): Option<Word> {
    match op
    case Add => Some((x + y) % WORDS)
    case Sub => Some((x - y) % WORDS)
    case Mul => Some((x * y) % WORDS)
    case UDiv => if y == 0 then None else Some(x / y)
    case ULt => Some(if x < y then 1 else 0)
    case Eq => Some(if x == y then 1 else 0)
  }

  function EvalBin(op: BinOp, u: Val, v: Val): Option<Val> {
    if u.IntV? && v.IntV? then
      var r := Arith(op, u.w, v.w);
      if r.None? then None else Some(IntV(r.value))
    else if op.Eq? && u.PtrV? && v.PtrV? then Some(IntV(if u == v then 1 else 0))
    else None
  }

  // ---------- straight-line instructions ----------

  datatype Effect = Effect(regs: map<nat, Val>, mem: map<Addr, Val>, cells: nat)

  /** Instructions that only touch registers and memory. */
  function Local(f: Frame, mem: map<Addr, Val>, cells: nat, i: Instr): Option<Effect> {
    match i
    case Alloca(id) =>
      Some(Effect(f.regs[id := PtrV(CellA(cells))], mem[CellA(cells) := UndefV], cells + 1))
    case Load(id, p) =>
      var a := Eval(f, p);
      if a.Some? && a.value.PtrV? && a.value.a in mem
      then Some(Effect(f.regs[id := mem[a.value.a]], mem, cells)) else None
    case Store(o, p) =>
      var a := Eval(f, p);
      var v := Eval(f, o);
      if a.Some? && v.Some? && a.value.PtrV? && a.value.a in mem
      then Some(Effect(f.regs, mem[a.value.a := v.value], cells)) else None
    case Bin(id, op, x, y) =>
      var u := Eval(f, x);
      var v := Eval(f, y);
      if u.None? || v.None? then None else
      var r := EvalBin(op, u.value, v.value);
      if r.None? then None else Some(Effect(f.regs[id := r.value], mem, cells))
    case _ => None
  }

  // ---------- branches ----------

  function SwitchTarget(cases: seq<(Word, nat)>, default: nat, w: Word): (t: nat)
    ensures t == default || t in Seconds(cases)
  {
    if cases == [] then default
    else if cases[0].0 == w then assert Seconds(cases)[0] == cases[0].1; cases[0].1
    else
      var t := SwitchTarget(cases[1..], default, w);
      assert forall k :: 0 <= k < |cases| - 1 ==> Seconds(cases[1..])[k] == Seconds(cases)[k + 1];
      t
  }

  function BranchTarget(f: Frame, i: Instr): (t: Option<nat>)
    ensures t.Some? ==> t.value in Targets(i)
  {
    match i
    case Br(t) => Some(t)
    case CondBr(c, t, e) =>
      var v := Eval(f, c);
      if v.Some? && v.value.IntV? then Some(if v.value.w != 0 then t else e) else None
    case Switch(o, d, cs) =>
      var v := Eval(f, o);
      if v.Some? && v.value.IntV? then Some(SwitchTarget(cs, d, v.value.w)) else None
    case _ => None
  }

  function NumPhis(b: seq<Instr>, k: nat): (n: nat)
    requires k <= |b|
    ensures k <= n <= |b|
    ensures n < |b| ==> !b[n].Phi?
    ensures forall j :: k <= j < n ==> b[j].Phi?
    decreases |b| - k
  {
    if k < |b| && b[k].Phi? then NumPhis(b, k + 1) else k
  }

  function PhiOperand(inc: seq<(nat, Operand)>, pred: nat): (o: Option<Operand>)
    ensures o.Some? ==> o.value in Seconds(inc)
  {
    if inc == [] then None
    else if inc[0].0 == pred then assert Seconds(inc)[0] == inc[0].1; Some(inc[0].1)
    else
      var o := PhiOperand(inc[1..], pred);
      assert forall k :: 0 <= k < |inc| - 1 ==> Seconds(inc[1..])[k] == Seconds(inc)[k + 1];
      o
  }

  /** Registers after the first `n` phis of `b`, all read from the registers before the jump. */
  function PhiRegs(f: Frame, b: seq<Instr>, n: nat): Option<map<nat, Val>>
    requires n <= |b|
  {
    if n == 0 then Some(f.regs)
    else
      var before := PhiRegs(f, b, n - 1);
      var i := b[n - 1];
      if before.None? || !i.Phi? then None else
      var o := PhiOperand(i.incoming, f.blk);
      if o.None? then None else
      var v := Eval(f, o.value);
      if v.None? then None else Some(before.value[i.id := v.value])
  }

  /** The frame after a jump to block `t` of its function. */
  function Jump(d: Fn, f: Frame, t: nat): Option<Frame> {
    if t >= |d.blocks| then None else
    var n := NumPhis(d.blocks[t], 0);
    var regs := PhiRegs(f, d.blocks[t], n);
    if regs.None? then None else Some(f.(blk := t, ip := n, regs := regs.value))
  }

  // ---------- calls ----------

  /** Give `v` to the top frame's register `dest`. */
  function Deliver(s: State, dest: Option<nat>, v: Val): State {
    if dest.None? || s.frames == [] then s
    else SetTop(s, Top(s).(regs := Top(s).regs[dest.value := v]))
  }

  /** A call to a function that has no body here. */
  function External(env: Env, s: State, caller: string, name: string, vals: seq<Val>, dest: Option<nat>): State {
    if name == "exit" then
      // A second call of exit is undefined (C11, section 7.22.4.4).
      if s.phase.Running? && |vals| == 1 && vals[0].IntV?
      then s.(phase := Exiting(|s.frames|, vals[0].w)) else Stuck(s)
    else if name == "atexit" then
      if |vals| == 1 && vals[0].FnV?
      then Deliver(s.(handlers := s.handlers + [vals[0].fn]), dest, IntV(0)) else Stuck(s)
    else if name == "printf" then
      Deliver(s.(trace := s.trace + [Event(caller, name, vals)]), dest, IntV(env.output(vals)))
    else
      Deliver(s.(trace := s.trace + [Event(caller, name, vals)], inputs := s.inputs + 1),
              dest, IntV(env.input(s.inputs, name, vals)))
  }

  /** A variadic function takes more arguments than it names. */
  predicate Accepts(sig: Sig, n: nat) {
    n == |sig.params| || (sig.variadic && n > |sig.params|)
  }

  function Invoke(m: Module, env: Env, s: State, caller: string, name: string, vals: seq<Val>,
      dest: Option<nat>): State {
    var d := Lookup(m, name);
    if d.None? || !Accepts(d.value.sig, |vals|) then Stuck(s)
    else if d.value.blocks == [] then External(env, s, caller, name, vals, dest)
    else s.(frames := s.frames + [Frame(name, 0, 0, vals, map[], dest)], log := s.log + [(name, 0)])
  }

  // ---------- one step ----------

  function Fetch(m: Module, f: Frame): Option<Instr> {
    var d := Lookup(m, f.fn);
    if d.None? || f.blk >= |d.value.blocks| || f.ip >= |d.value.blocks[f.blk]| then None
    else Some(d.value.blocks[f.blk][f.ip])
  }

  function CallStep(m: Module, env: Env, s: State, i: Instr): State
    requires s.frames != [] && i.Call?
  {
    var f := Top(s);
    var c := Eval(f, i.callee);
    var vals := EvalAll(f, i.args);
    if c.None? || !c.value.FnV? || vals.None? then Stuck(s)
    else Invoke(m, env, SetTop(s, f.(ip := f.ip + 1)), f.fn, c.value.fn, vals.value, Some(i.id))
  }

  function ExitCode(v: Option<Val>): Option<Word> {
    if v.Some? && v.value.IntV? then Some(v.value.w) else None
  }

  /** Returning from the first call of main calls exit (C11, section 5.1.2.2.3). */
  function RetStep(s: State, i: Instr): State
    requires s.frames != [] && i.Ret?
  {
    var f := Top(s);
    var v := if i.result.Some? then Eval(f, i.result.value) else None;
    if i.result.Some? && v.None? then Stuck(s)
    else if s.phase.Running? && |s.frames| == 1 then
      var code := ExitCode(v);
      if code.None? then Stuck(s) else s.(frames := [], phase := Exiting(0, code.value))
    else
      var s' := s.(frames := s.frames[..|s.frames|-1]);
      if v.Some? then Deliver(s', f.dest, v.value) else s'
  }

  function BranchStep(m: Module, s: State, i: Instr): State
    requires s.frames != []
  {
    var f := Top(s);
    var d := Lookup(m, f.fn);
    var t := BranchTarget(f, i);
    if d.None? || t.None? then Stuck(s) else
    var f' := Jump(d.value, f, t.value);
    if f'.None? then Stuck(s)
    else SetTop(s, f'.value).(log := s.log + [(f.fn, t.value)])
  }

  function LocalStep(s: State, i: Instr): State
    requires s.frames != []
  {
    var f := Top(s);
    var e := Local(f, s.mem, s.cells, i);
    if e.None? then Stuck(s)
    else SetTop(s, f.(ip := f.ip + 1, regs := e.value.regs)).(mem := e.value.mem, cells := e.value.cells)
  }

  function Exec(m: Module, env: Env, s: State, i: Instr): State
    requires s.frames != []
  {
    if i.Call? then CallStep(m, env, s, i)
    else if i.Ret? then RetStep(s, i)
    else if IsTerm(i) then BranchStep(m, s, i)
    else LocalStep(s, i)
  }

  function StepFrame(m: Module, env: Env, s: State): State
    requires s.frames != []
  {
    var i := Fetch(m, Top(s));
    if i.None? then Stuck(s) else Exec(m, env, s, i.value)
  }

  /** All handler frames have returned: call the handler registered last, or finish. */
  function StepExit(m: Module, env: Env, s: State): State
    requires s.phase.Exiting?
  {
    if s.handlers == [] then s.(phase := Done(s.phase.code))
    else
      var n := |s.handlers| - 1;
      Invoke(m, env, s.(handlers := s.handlers[..n]), "", s.handlers[n], [], None)
  }

  predicate AtExitBase(s: State) {
    s.phase.Exiting? && |s.frames| <= s.phase.base
  }

  function StepLive(m: Module, env: Env, s: State): State {
    if AtExitBase(s) then StepExit(m, env, s)
    else if s.frames == [] then Stuck(s)
    else StepFrame(m, env, s)
  }

  /** A finished state stays; undefined behaviour freezes the state in which it was met. */
  function Step(m: Module, env: Env, s: State): State {
    if s.phase.Done? || s.phase.Undef? then s
    else
      var r := StepLive(m, env, s);
      if r.phase.Undef? then Stuck(s) else r
  }

  function Run(m: Module, env: Env, s: State, n: nat): State {
    if n == 0 then s else Step(m, env, Run(m, env, s, n - 1))
  }

  function InitMem(m: Module): map<Addr, Val> {
    map a: Addr | a in (set n | n in m.globals :: GlobalA(n)) :: m.globals[a.name].init
  }

  /** Program start: main is entered with the given arguments. */
  function Init(m: Module, args: seq<Val>): State {
    var s := State([], InitMem(m), 0, [], [], 0, [], Running);
    if Defined(m, "main") && |Lookup(m, "main").value.sig.params| == |args|
    then s.(frames := [Frame("main", 0, 0, args, map[], None)], log := [("main", 0)])
    else Stuck(s)
  }

  lemma {:induction false} RunCompose(m: Module, env: Env, s: State, a: nat, b: nat)
    ensures Run(m, env, s, a + b) == Run(m, env, Run(m, env, s, a), b)
  {
    hide Step;
    if b > 0 {
      RunCompose(m, env, s, a, b - 1);
    }
  }

  lemma StepFrozen(m: Module, env: Env, s: State)
    requires s.phase.Done? || s.phase.Undef?
    ensures Step(m, env, s) == s
  {
    hide StepLive;
  }

  /** A finished or undefined run stays as it is. */
  lemma {:induction false} RunFrozen(m: Module, env: Env, s: State, n: nat)
    requires s.phase.Done? || s.phase.Undef?
    ensures Run(m, env, s, n) == s
  {
    hide Step;
    if n > 0 {
      RunFrozen(m, env, s, n - 1);
      StepFrozen(m, env, s);
    }
  }
}
