/** The block-counting pass as a function on modules. */
module CountBB {
  import opened Wrappers
  import opened Types
  import opened IR

  const COUNTER := "bbCounter"
  const HANDLER := "setupAtExit"

  const HANDLER_SIG := Sig([], VoidT, false)
  const ATEXIT_SIG := Sig([PtrT(FnT(VoidT, []))], IntT(32), false)
  const PRINTF_SIG := Sig([PtrT(IntT(8))], IntT(32), true)
  const FORMAT := "%d BB(s) Executed\n"

  /** NoMain: the pass exits. NotAFunction: the name is a global variable or a function of another
      type, so the cast to Function fails. NoFront: `front()` of an empty list, because main is only
      declared or its first block is empty. NoCounter: no visible global has the counter's name. */
  datatype Error = NoMain | NotAFunction(name: string) | NoFront | NoCounter

  function CounterRef(c: string): Operand {
    Const(PtrV(GlobalA(c)))
  }

  /** Load, add one, store back; `id` and `id + 1` are new registers. */
  function Increment(c: string, id: nat): seq<Instr> {
    [Load(id, CounterRef(c)), Bin(id + 1, Add, Reg(id), Const(IntV(1))), Store(Reg(id + 1), CounterRef(c))]
  }

  predicate HasTerminator(b: seq<Instr>) {
    b != [] && IsTerm(b[|b|-1])
  }

  /** The increment goes in front of the terminator. In a block without one the insertion position
      is null, and the new instructions stay outside every block. */
  function InstrBlock(b: seq<Instr>, c: string, id: nat): seq<Instr> {
    if HasTerminator(b) then b[..|b|-1] + Increment(c, id) + b[|b|-1..] else b
  }

  function InstrFn(f: Fn, c: string): Fn {
    f.(blocks := seq(|f.blocks|, k requires 0 <= k < |f.blocks| => InstrBlock(f.blocks[k], c, f.next + 2 * k)),
       next := f.next + 2 * |f.blocks|)
  }

  function AtexitCall(id: nat): Instr {
    Call(id, Const(FnV("atexit")), [Const(FnV(HANDLER))])
  }

  /** Register the handler in front of the first instruction of the function. */
  function PrependCall(f: Fn): Fn
    requires f.blocks != []
  {
    f.(blocks := f.blocks[0 := [AtexitCall(f.next)] + f.blocks[0]], next := f.next + 1)
  }

  function ReportBlock(c: string, id: nat): seq<Instr> {
    [Load(id, CounterRef(c)), Call(id + 1, Const(FnV("printf")), [Const(StrV(FORMAT)), Reg(id)]), Ret(None)]
  }

  /** A new block that prints the counter, after the blocks the function already has. */
  function AppendReport(f: Fn, c: string): Fn {
    f.(blocks := f.blocks + [ReportBlock(c, f.next)], next := f.next + 2)
  }

  function GetOrInsert(m: Module, n: string, sig: Sig): Result<Module, Error> {
    var d := Lookup(m, n);
    if n in m.globals then Err(NotAFunction(n))
    else if d.None? then Ok(m.(funcs := m.funcs + [Fn(n, sig, [], 0)]))
    else if d.value.sig != sig then Err(NotAFunction(n))
    else Ok(m)
  }

  function ReplaceIn(fs: seq<Fn>, n: string, g: Fn): (r: seq<Fn>)
    ensures |r| == |fs|
  {
    if fs == [] then []
    else if fs[0].name == n then [g] + fs[1..]
    else [fs[0]] + ReplaceIn(fs[1..], n, g)
  }

  /** A global whose wanted name is taken gets a suffix from the symbol table. */
  function CounterName(m: Module, suffix: string): string {
    if Taken(m, COUNTER) then COUNTER + suffix else COUNTER
  }

  predicate HasFront(f: Fn) {
    f.blocks != [] && f.blocks[0] != []
  }

  /** The counter, the handler and atexit. */
  function Declare(m: Module, c: string): Result<Module, Error> {
    var m1 := m.(globals := m.globals[c := GlobalVar(IntV(0), false)]);
    var m2 := GetOrInsert(m1, HANDLER, HANDLER_SIG);
    if m2.Err? then m2 else GetOrInsert(m2.value, "atexit", ATEXIT_SIG)
  }

  /** printf and the handler's body. */
  function Finish(m: Module, c: string): Result<Module, Error> {
    var m5 := GetOrInsert(m, "printf", PRINTF_SIG);
    if m5.Err? then m5 else
    var h := Lookup(m5.value, HANDLER);
    if h.None? then Err(NotAFunction(HANDLER))
    else Ok(m5.value.(funcs := ReplaceIn(m5.value.funcs, HANDLER, AppendReport(h.value, c))))
  }

  /** The registration in main comes before the handler gets its body. */
  function Attach(m: Module, main: Fn, c: string): Result<Module, Error> {
    if !HasFront(main) then Err(NoFront) else
    Finish(m.(funcs := ReplaceIn(m.funcs, "main", PrependCall(main))), c)
  }

  function Setup(m: Module, suffix: string): Result<Module, Error> {
    var main := Lookup(m, "main");
    if main.None? then Err(NoMain) else
    var c := CounterName(m, suffix);
    var m3 := Declare(m, c);
    if m3.Err? then m3 else Attach(m3.value, main.value, c)
  }

  function InstrOne(f: Fn): Fn {
    if f.name == HANDLER then f else InstrFn(f, COUNTER)
  }

  function InstrAll(fs: seq<Fn>): (r: seq<Fn>)
    ensures |r| == |fs|
    ensures forall i :: 0 <= i < |fs| ==> r[i] == InstrOne(fs[i])
  {
    seq(|fs|, i requires 0 <= i < |fs| => InstrOne(fs[i]))
  }

  predicate CounterVisible(m: Module) {
    COUNTER in m.globals && !m.globals[COUNTER].local
  }

  /** The whole pass. `suffix` is what the symbol table appends when the counter's name is taken. */
  function Instrument(m: Module, suffix: string): Result<Module, Error> {
    var r := Setup(m, suffix);
    if r.Err? then r
    else if !CounterVisible(r.value) then Err(NoCounter)
    else Ok(r.value.(funcs := InstrAll(r.value.funcs)))
  }
}
