/** A small LLVM-like intermediate representation.
    Functions and globals are referred to by name, instruction results by a number drawn from the
    function's own supply `next`, and blocks by their position in the function. */
module IR {
  import opened Wrappers
  import opened Types

  const WORDS: int := 0x1_0000_0000_0000_0000

  /** 64-bit machine words; all arithmetic wraps. */
  type Word = x: int | 0 <= x < 0x1_0000_0000_0000_0000

  datatype Addr = GlobalA(name: string) | CellA(id: nat)
  /** `StrV` is the address of a constant string that nothing but the constant itself refers to. */
  datatype Val = IntV(w: Word) | PtrV(a: Addr) | FnV(fn: string) | StrV(text: string) | UndefV
  datatype Operand = Const(v: Val) | Reg(id: nat) | Arg(i: nat)
  datatype BinOp = Add | Sub | Mul | UDiv | ULt | Eq

  datatype Instr =
    | Phi(id: nat, incoming: seq<(nat, Operand)>)
    | Alloca(id: nat)
    | Load(id: nat, ptr: Operand)
    | Store(value: Operand, ptr: Operand)
    | Bin(id: nat, op: BinOp, a: Operand, b: Operand)
    | Call(id: nat, callee: Operand, args: seq<Operand>)
    | Br(target: nat)
    | CondBr(cond: Operand, thn: nat, els: nat)
    | Switch(on: Operand, default: nat, cases: seq<(Word, nat)>)
    | Ret(result: Option<Operand>)
    | Unreachable

  /** The type of a function. */
  datatype Sig = Sig(params: seq<Type>, ret: Type, variadic: bool)

  /** A function without blocks is a declaration. */
  datatype Fn = Fn(name: string, sig: Sig, blocks: seq<seq<Instr>>, next: nat)

  /** `local` marks internal linkage, which a lookup by name does not see. */
  datatype GlobalVar = GlobalVar(init: Val, local: bool)

  datatype Module = Module(globals: map<string, GlobalVar>, funcs: seq<Fn>)

  function LookupIn(fs: seq<Fn>, n: string): (r: Option<Fn>)
    ensures r.Some? ==> r.value in fs && r.value.name == n
    ensures r.None? ==> forall k :: 0 <= k < |fs| ==> fs[k].name != n
  {
    if fs == [] then None
    else if fs[0].name == n then Some(fs[0])
    else LookupIn(fs[1..], n)
  }

  function Lookup(m: Module, n: string): (r: Option<Fn>)
    ensures r.Some? ==> r.value in m.funcs && r.value.name == n
  {
    LookupIn(m.funcs, n)
  }

  /** Functions and globals share one symbol table. */
  predicate Taken(m: Module, n: string) {
    n in m.globals || Lookup(m, n).Some?
  }

  predicate IsTerm(i: Instr) {
    i.Br? || i.CondBr? || i.Switch? || i.Ret? || i.Unreachable?
  }

  function Seconds<A, B>(ps: seq<(A, B)>): (r: seq<B>)
    ensures |r| == |ps|
    ensures forall k :: 0 <= k < |ps| ==> r[k] == ps[k].1
  {
    seq(|ps|, k requires 0 <= k < |ps| => ps[k].1)
  }

  /** Successors in operand order; a switch lists its default first. */
  function Targets(i: Instr): seq<nat> {
    match i
    case Br(t) => [t]
    case CondBr(_, t, e) => [t, e]
    case Switch(_, d, cs) => [d] + Seconds(cs)
    case _ => []
  }

  function Def(i: Instr): Option<nat> {
    match i
    case Phi(id, _) => Some(id)
    case Alloca(id) => Some(id)
    case Load(id, _) => Some(id)
    case Bin(id, _, _, _) => Some(id)
    case Call(id, _, _) => Some(id)
    case _ => None
  }

  function Operands(i: Instr): seq<Operand> {
    match i
    case Phi(_, inc) => Seconds(inc)
    case Alloca(_) => []
    case Load(_, p) => [p]
    case Store(v, p) => [v, p]
    case Bin(_, _, a, b) => [a, b]
    case Call(_, c, args) => [c] + args
    case Br(_) => []
    case CondBr(c, _, _) => [c]
    case Switch(v, _, _) => [v]
    case Ret(v) => if v.Some? then [v.value] else []
    case Unreachable => []
  }

  // ---------- well-formedness ----------

  /** A value mentions only names that the module has. */
  predicate ValOk(m: Module, v: Val) {
    match v
    case PtrV(GlobalA(n)) => n in m.globals
    case FnV(n) => Lookup(m, n).Some?
    case _ => true
  }

  /** A constant does not name a stack cell. */
  predicate ConstOk(m: Module, v: Val) {
    ValOk(m, v) && !(v.PtrV? && v.a.CellA?)
  }

  predicate OperandOk(m: Module, f: Fn, o: Operand) {
    match o
    case Const(v) => ConstOk(m, v)
    case Reg(id) => id < f.next
    case Arg(i) => i < |f.sig.params|
  }

  predicate InstrOk(m: Module, f: Fn, i: Instr) {
    && (Def(i).Some? ==> Def(i).value < f.next)
    && (forall k :: 0 <= k < |Operands(i)| ==> OperandOk(m, f, Operands(i)[k]))
    && (forall k :: 0 <= k < |Targets(i)| ==> 0 < Targets(i)[k] < |f.blocks|)
  }

  /** One terminator, at the end; phis only at the front. */
  predicate BlockOk(b: seq<Instr>) {
    && b != []
    && (forall k :: 0 <= k < |b| ==> (IsTerm(b[k]) <==> k == |b| - 1))
    && (forall k :: 0 < k < |b| && b[k].Phi? ==> b[k-1].Phi?)
  }

  /** No branch goes back to the entry block, so the entry block has no phis; a declaration has no registers. */
  predicate FnOk(m: Module, f: Fn) {
    && (forall b :: 0 <= b < |f.blocks| ==> BlockOk(f.blocks[b]))
    && (forall b, k :: 0 <= b < |f.blocks| && 0 <= k < |f.blocks[b]| ==> InstrOk(m, f, f.blocks[b][k]))
    && (f.blocks != [] ==> !f.blocks[0][0].Phi?)
    && (f.blocks == [] ==> f.next == 0)
  }

  /** All code and data of `m` mention only names of `w`. */
  predicate ModuleIn(m: Module, w: Module) {
    && (forall i :: 0 <= i < |m.funcs| ==> FnOk(w, m.funcs[i]))
    && (forall i, j :: 0 <= i < j < |m.funcs| ==> m.funcs[i].name != m.funcs[j].name)
    && (forall i :: 0 <= i < |m.funcs| ==> m.funcs[i].name !in m.globals)
    && (forall n :: n in m.globals ==> n in w.globals && ConstOk(w, m.globals[n].init))
  }

  predicate ModuleOk(m: Module) {
    ModuleIn(m, m)
  }

  predicate Defined(m: Module, n: string) {
    Lookup(m, n).Some? && Lookup(m, n).value.blocks != []
  }

  // ---------- lookup ----------

  /** The first function of a given name; unique when names are. */
  lemma {:induction false} LookupAt(fs: seq<Fn>, k: nat)
    requires k < |fs|
    requires forall j :: 0 <= j < k ==> fs[j].name != fs[k].name
    ensures LookupIn(fs, fs[k].name) == Some(fs[k])
  {
    if k > 0 {
      assert fs[0].name != fs[k].name;
      LookupAt(fs[1..], k - 1);
    }
  }

  lemma {:induction false} LookupConcat(a: seq<Fn>, b: seq<Fn>, n: string)
    ensures LookupIn(a + b, n) == if LookupIn(a, n).Some? then LookupIn(a, n) else LookupIn(b, n)
  {
    if a == [] {
      assert a + b == b;
    } else {
      assert (a + b)[1..] == a[1..] + b;
      LookupConcat(a[1..], b, n);
    }
  }
}
