/** Questions about values and instructions: what counts as a pointer, which instructions handle
    pointers, and the value behind a constant expression. */
module Values {
  import opened Wrappers
  import opened IR
  import opened Types

  // ---------- values and their types ----------

  /** A stack slot, global variable or function has the type of its address, which isTrivialPointer
      asserts to be a pointer type. */
  datatype Value = AllocaV(ty: Type) | GlobalV(ty: Type) | FunctionV(ty: Type) | PlainV(ty: Type)

  /** `CastFailed`: a cast to PointerType met another type. `Fatal`: the reported fatal error. */
  datatype Outcome<T> = Answer(value: T) | CastFailed | Fatal

  predicate Trivial(v: Value) {
    v.AllocaV? || v.GlobalV? || v.FunctionV?
  }

  function PointedType(ty: Type): Outcome<Type> {
    if ty.PtrT? then Answer(ty.elem) else CastFailed
  }

  /** The address of a variable stands for the variable: its pointed type is one level deeper. */
  function PointedTypeOf(v: Value): Outcome<Type> {
    var ty := PointedType(v.ty);
    if ty.Answer? && Trivial(v) then PointedType(ty.value) else ty
  }

  function IsPointerValue(v: Value): Outcome<bool> {
    if Trivial(v) then
      var ty := PointedType(v.ty);
      if ty.Answer? then Answer(ty.value.PtrT?) else CastFailed
    else Answer(v.ty.PtrT?)
  }

  function IsPointerToPointerValue(v: Value): Outcome<bool> {
    var p := IsPointerValue(v);
    if !p.Answer? || !p.value then p
    else
      var ty := PointedTypeOf(v);
      if ty.Answer? then Answer(ty.value.PtrT?) else CastFailed
  }

  /** Levels of pointers in a type. */
  function PointerDepth(ty: Type): nat {
    if ty.PtrT? then 1 + PointerDepth(ty.elem) else 0
  }

  /** Levels of pointers of a value, the address of a variable not counted. */
  function EffectiveDepth(v: Value): int {
    PointerDepth(v.ty) - if v.PlainV? then 0 else 1
  }

  /** The two predicates are thresholds of one measure, and none of their casts fails; the pointed
      type exists exactly from depth one on, and is one level shallower. */
  lemma DepthDecides(v: Value)
    requires !v.PlainV? ==> v.ty.PtrT?
    ensures IsPointerValue(v) == Answer(EffectiveDepth(v) >= 1)
    ensures IsPointerToPointerValue(v) == Answer(EffectiveDepth(v) >= 2)
    ensures PointedTypeOf(v).Answer? <==> EffectiveDepth(v) >= 1
    ensures PointedTypeOf(v).Answer? ==> PointerDepth(PointedTypeOf(v).value) == EffectiveDepth(v) - 1
  {
    Deeper(v.ty);
    if v.ty.PtrT? {
      Deeper(v.ty.elem);
      if v.ty.elem.PtrT? {
        Deeper(v.ty.elem.elem);
      }
    }
  }

  lemma Deeper(ty: Type)
    ensures PointerDepth(ty) == if ty.PtrT? then 1 + PointerDepth(ty.elem) else 0
  {
  }

  // ---------- instructions that handle pointers ----------

  datatype Intrinsic = NotIntrinsic | Memcpy | Memmove | Memset | OtherIntrinsic

  datatype Callee = Callee(name: string, declaration: bool, intrinsic: Intrinsic)

  function IsMemOp(c: Option<Callee>): bool {
    c.Some? && (
      || (c.value.declaration && c.value.name == "malloc")
      || (c.value.declaration && c.value.name == "free")
      || c.value.intrinsic.Memcpy?
      || c.value.intrinsic.Memmove?
      || c.value.intrinsic.Memset?)
  }

  /** `OtherI` is any kind the pass does not list; `ty` is the type of the result. */
  datatype Inst =
    | AllocaI(ty: Type)
    | LoadI(ty: Type, ptr: Value)
    | StoreI(stored: Value, ptr: Value)
    | BitCastI(ty: Type, op: Value)
    | GepI(ty: Type)
    | CallI(ty: Type, inlineAsm: bool, callee: Option<Callee>)
    | PhiI(ty: Type)
    | ExtractValueI(ty: Type)
    | InsertValueI(ty: Type, inserted: Value)
    | IntToPtrI(ty: Type)
    | SelectI(ty: Type)
    | OtherI(ty: Type)

  function AsValue(i: Inst): Value {
    if i.AllocaI? then AllocaV(i.ty) else if i.StoreI? then PlainV(VoidT) else PlainV(i.ty)
  }

  /** The code's last resort: an instruction nobody expected to give a pointer. */
  function NotPointer(i: Inst): Outcome<bool> {
    var p := IsPointerValue(AsValue(i));
    if p == Answer(true) then Fatal else if p.Answer? then Answer(false) else p
  }

  function IsPointerManipulation(i: Inst): Outcome<bool> {
    match i
    case AllocaI(_) => Answer(false)
    case LoadI(_, p) =>
      var ty := PointedType(p.ty);
      if !ty.Answer? then CastFailed else if ty.value.PtrT? then Answer(true) else NotPointer(i)
    case StoreI(v, _) => if v.ty.PtrT? then Answer(true) else NotPointer(i)
    case BitCastI(ty, v) => if ty.PtrT? && v.ty.PtrT? then Answer(true) else NotPointer(i)
    case GepI(_) => Answer(true)
    case CallI(_, asm, c) => if asm then Answer(false) else Answer(IsMemOp(c))
    case PhiI(_) => IsPointerValue(AsValue(i))
    case ExtractValueI(_) => IsPointerValue(AsValue(i))
    case InsertValueI(_, v) => IsPointerValue(v)
    case IntToPtrI(_) => Answer(true)
    case SelectI(_) => if IsPointerValue(AsValue(i)) == Answer(true) then Answer(true) else NotPointer(i)
    case OtherI(_) => NotPointer(i)
  }

  /** The depth of what the instruction moves or makes; calls are judged by their callee alone. */
  function Moved(i: Inst): int {
    match i
    case AllocaI(_) => 0
    case StoreI(v, _) => PointerDepth(v.ty)
    case GepI(_) => 1
    case CallI(_, asm, c) => if !asm && IsMemOp(c) then 1 else 0
    case InsertValueI(_, v) => EffectiveDepth(v)
    case IntToPtrI(_) => 1
    case _ => PointerDepth(i.ty)
  }

  /** A call counts if and only if it is a direct call of a declared malloc or free, or of one of three
      intrinsics: a malloc that the program defines, a call through a pointer and inline assembly do not. */
  lemma CallExact(ty: Type, asm: bool, c: Option<Callee>)
    ensures IsPointerManipulation(CallI(ty, asm, c)) == Answer(
      && !asm && c.Some?
      && (|| (c.value.declaration && c.value.name in {"malloc", "free"})
          || c.value.intrinsic in {Memcpy, Memmove, Memset}))
    ensures IsPointerManipulation(CallI(ty, asm, Some(Callee("malloc", true, NotIntrinsic)))) == Answer(!asm)
    ensures IsPointerManipulation(CallI(ty, asm, Some(Callee("malloc", false, NotIntrinsic)))) == Answer(false)
    ensures IsPointerManipulation(CallI(ty, asm, None)) == Answer(false)
    ensures IsPointerManipulation(CallI(ty, true, c)) == Answer(false)
  {
  }

  /** On well-typed instructions (a load goes through a pointer to its type, a bitcast keeps pointers
      pointers, a variable has the type of its address) no cast fails; the fatal branch is reached
      exactly by an unlisted kind that gives a pointer; otherwise the answer is whether a pointer is
      moved or made. */
  lemma ManipulationExact(i: Inst)
    requires i.LoadI? ==> i.ptr.ty == PtrT(i.ty)
    requires i.BitCastI? ==> (i.ty.PtrT? <==> i.op.ty.PtrT?)
    requires i.InsertValueI? && !i.inserted.PlainV? ==> i.inserted.ty.PtrT?
    ensures IsPointerManipulation(i) == if i.OtherI? && i.ty.PtrT? then Fatal else Answer(Moved(i) >= 1)
    ensures i.CallI? ==> IsPointerManipulation(i) == Answer(
      && !i.inlineAsm && i.callee.Some?
      && (|| (i.callee.value.declaration && i.callee.value.name in {"malloc", "free"})
          || i.callee.value.intrinsic in {Memcpy, Memmove, Memset}))
  {
    match i
    case StoreI(v, _) => DepthDecides(PlainV(VoidT));
    case CallI(ty, asm, c) => CallExact(ty, asm, c);
    case InsertValueI(_, v) => DepthDecides(v);
    case AllocaI(_) =>
    case _ => DepthDecides(AsValue(i));
  }

  // ---------- constant expressions ----------

  /** `Convert` keeps the low `bits` bits, `SignExtend` also copies the highest of them upwards; the
      other casts keep the address. */
  datatype Cast = BitCast | IntToPtr | Convert(bits: nat) | SignExtend(bits: nat)

  /** `Plain` is anything that is not a constant expression. */
  datatype Expr =
    | Plain(id: nat)
    | Gep(base: Expr, offset: Word)
    | CastE(kind: Cast, op: Expr)
    | BinE(a: Expr, b: Expr)
    | OtherE(op: Expr)

  /** Follow first operands through address computations and casts; None is the failed assertion. */
  function Elim(e: Expr): (r: Option<Expr>)
    ensures r.Some? ==> r.value.Plain? || r.value.BinE?
  {
    match e
    case Gep(b, _) => Elim(b)
    case CastE(_, b) => Elim(b)
    case OtherE(_) => None
    case _ => Some(e)
  }

  /** `x` is `e` itself, or lies further down its chain of first operands. */
  predicate Under(e: Expr, x: Expr) {
    x == e || (e.Gep? && Under(e.base, x)) || (e.CastE? && Under(e.op, x))
  }

  /** The result is the one expression on the chain, narrowing casts included, that is not an address
      computation or a cast; there is none when the assertion fails. */
  lemma {:induction false} ElimExactly(e: Expr, x: Expr)
    ensures Elim(e) == Some(x) <==> Under(e, x) && (x.Plain? || x.BinE?)
  {
    match e
    case Gep(b, _) => ElimExactly(b, x);
    case CastE(_, b) => ElimExactly(b, x);
    case _ =>
  }

  function Power2(n: nat): (r: nat)
    ensures r >= 1
  {
    if n == 0 then 1 else 2 * Power2(n - 1)
  }

  predicate Narrows(k: Cast) {
    (k.Convert? || k.SignExtend?) && Power2(k.bits) < WORDS
  }

  lemma SmallMod(w: nat, p: nat)
    requires w < p
    ensures w % p == w
  {
  }

  function ApplyCast(k: Cast, w: Word): (r: Word)
    ensures k.BitCast? || k.IntToPtr? ==> r == w
    ensures k.Convert? ==> r == w % Power2(k.bits)
    ensures k.SignExtend? && w < Power2(k.bits) < WORDS ==>
      r == if 2 * w < Power2(k.bits) then w else WORDS - (Power2(k.bits) - w)
  {
    if !Narrows(k) then
      assert k.Convert? ==> w % Power2(k.bits) == w by { if k.Convert? { SmallMod(w, Power2(k.bits)); } }
      w
    else
      var p := Power2(k.bits);
      var low := w % p;
      assert w < p ==> low == w by { if w < p { SmallMod(w, p); } }
      if k.SignExtend? && 2 * low >= p then low + (WORDS - p) else low
  }

  function Wrap(x: int): Word {
    x % WORDS
  }

  /** The address a constant expression stands for, from the values of what it is built on. */
  function Address(value: Expr -> Word, e: Expr): Word {
    match e
    case Gep(b, o) => Wrap(Address(value, b) + o)
    case CastE(k, b) => ApplyCast(k, Address(value, b))
    case _ => value(e)
  }

  function Offsets(e: Expr): int {
    match e
    case Gep(b, o) => Offsets(b) + o
    case CastE(_, b) => Offsets(b)
    case _ => 0
  }

  predicate Narrowing(e: Expr) {
    match e
    case Gep(b, _) => Narrowing(b)
    case CastE(k, b) => Narrows(k) || Narrowing(b)
    case _ => false
  }

  /** The result is its own result, so a second call changes nothing; and the assertion fails exactly
      when the chain ends in an expression that is neither an address computation, a cast nor a
      binary operation. */
  lemma {:induction false} ElimIdempotent(e: Expr)
    ensures Elim(e).Some? ==> Elim(Elim(e).value) == Elim(e) && Under(e, Elim(e).value)
    ensures Elim(e).None? <==> ChainEnd(e).OtherE?
  {
    match e
    case Gep(b, _) => ElimIdempotent(b);
    case CastE(_, b) => ElimIdempotent(b);
    case _ =>
  }

  function ChainEnd(e: Expr): Expr {
    match e
    case Gep(b, _) => ChainEnd(b)
    case CastE(_, b) => ChainEnd(b)
    case _ => e
  }

  /** For these values of the plain parts, the stripped offsets are all that was lost. */
  predicate Accounted(value: Expr -> Word, e: Expr, root: Expr) {
    Address(value, e) == Wrap(value(root) + Offsets(e))
  }

  lemma {:induction false} AddressKept(value: Expr -> Word, e: Expr)
    requires Elim(e).Some? && !Narrowing(e)
    ensures Accounted(value, e, Elim(e).value)
  {
    hide Wrap, Power2;
    WrapWord(value(e));
    match e
    case Gep(b, o) =>
      AddressKept(value, b);
      GepKept(value(Elim(b).value), Offsets(b), o, Address(value, b));
    case CastE(_, b) => AddressKept(value, b);
    case _ =>
  }

  lemma GepKept(root: int, s: int, o: int, w: Word)
    requires w == Wrap(root + s)
    ensures Wrap(w + o) == Wrap(root + (s + o))
  {
  }

  lemma WrapWord(w: Word)
    ensures Wrap(w) == w && Wrap(w + 0) == w
  {
  }

  /** A narrowing cast maps two values of the root to one address. */
  lemma {:induction false} Collapse(e: Expr) returns (c: Word, d: Word)
    requires Elim(e).Some? && Narrowing(e)
    ensures c != d && Address(_ => c, e) == Address(_ => d, e)
  {
    match e
    case Gep(b, o) =>
      c, d := Collapse(b);
    case CastE(k, b) =>
      if Narrowing(b) {
        c, d := Collapse(b);
      } else {
        c, d := CollapseHere(k, b);
      }
  }

  lemma CollapseHere(k: Cast, b: Expr) returns (c: Word, d: Word)
    requires Narrows(k) && Elim(b).Some? && !Narrowing(b)
    ensures c != d && ApplyCast(k, Address(_ => c, b)) == ApplyCast(k, Address(_ => d, b))
  {
    hide Offsets, Address, Elim, Narrowing;
    var p: Word := Power2(k.bits);
    c, d := Wrap(0 - Offsets(b)), Wrap(p - Offsets(b));
    AddressKept(_ => c, b);
    AddressKept(_ => d, b);
    Undo(0, Offsets(b));
    Undo(p, Offsets(b));
    assert Address(_ => c, b) == 0 && Address(_ => d, b) == p;
    assert 0 % p == 0 && p % p == 0;
  }

  lemma Undo(x: Word, s: int)
    ensures Wrap(Wrap(x - s) + s) == x
  {
  }

  lemma SameShift(c: Word, d: Word, s: int)
    requires Wrap(c + s) == Wrap(d + s)
    ensures c == d
  {
  }

  /** Stripping loses exactly the offsets, whatever the root's value, if and only if no cast on the
      way drops bits. */
  lemma AddressExactly(e: Expr)
    requires Elim(e).Some?
    ensures Under(e, Elim(e).value) && (Elim(e).value.Plain? || Elim(e).value.BinE?)
    ensures (forall value: Expr -> Word :: Accounted(value, e, Elim(e).value)) <==> !Narrowing(e)
  {
    ElimExactly(e, Elim(e).value);
    if Narrowing(e) {
      var c, d := Collapse(e);
      if Accounted(_ => c, e, Elim(e).value) && Accounted(_ => d, e, Elim(e).value) {
        SameShift(c, d, Offsets(e));
      }
    } else {
      forall value: Expr -> Word ensures Accounted(value, e, Elim(e).value) { AddressKept(value, e); }
    }
  }
}
