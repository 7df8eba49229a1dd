/** Types, and the question whether a type is built from integers and pointers to integers only. */
module Types {
  import opened Wrappers

  /** `NamedT` is a struct known by name, so types may refer to themselves through pointers. */
  datatype Type =
    | VoidT
    | IntT(bits: nat)
    | FloatT
    | PtrT(elem: Type)
    | ArrayT(len: nat, elem: Type)
    | StructT(elems: seq<Type>)
    | FnT(ret: Type, params: seq<Type>)
    | NamedT(name: string)

  /** Bodies of the named structs; a struct without a body has no elements. */
  type Table = map<string, seq<Type>>

  function Body(tb: Table, n: string): seq<Type> {
    if n in tb then tb[n] else []
  }

  predicate IsStruct(ty: Type) {
    ty.StructT? || ty.NamedT?
  }

  function Elements(tb: Table, ty: Type): seq<Type>
    requires IsStruct(ty)
  {
    if ty.StructT? then ty.elems else Body(tb, ty.name)
  }

  /** Every struct that `ty` holds by value has a rank below `r`. */
  predicate Below(ty: Type, rank: map<string, nat>, r: nat) {
    match ty
    case NamedT(n) => n in rank && rank[n] < r
    case StructT(es) => forall i :: 0 <= i < |es| ==> Below(es[i], rank, r)
    case ArrayT(_, e) => Below(e, rank, r)
    case _ => true
  }

  /** No struct holds itself by value: ranks go down from a struct to its elements. */
  predicate Grounded(tb: Table, rank: map<string, nat>) {
    forall n, i :: n in rank && 0 <= i < |Body(tb, n)| ==> Below(Body(tb, n)[i], rank, rank[n])
  }

  // ---------- leaves ----------

  predicate IsAggregate(ty: Type) {
    IsStruct(ty) || ty.ArrayT?
  }

  /** The type found by following element positions; an array has its element type at any position,
      whatever its length. */
  function At(tb: Table, ty: Type, path: seq<nat>): Option<Type>
    decreases |path|
  {
    if path == [] then Some(ty)
    else if ty.ArrayT? then At(tb, ty.elem, path[1..])
    else if IsStruct(ty) && path[0] < |Elements(tb, ty)| then At(tb, Elements(tb, ty)[path[0]], path[1..])
    else None
  }

  predicate IsIntOrIntPointer(ty: Type) {
    ty.IntT? || (ty.PtrT? && ty.elem.IntT?)
  }

  predicate LeafOk(tb: Table, ty: Type, path: seq<nat>) {
    At(tb, ty, path).Some? && !IsAggregate(At(tb, ty, path).value) ==> IsIntOrIntPointer(At(tb, ty, path).value)
  }

  ghost predicate AllLeavesOk(tb: Table, ty: Type) {
    forall path: seq<nat> :: LeafOk(tb, ty, path)
  }

  lemma LeafBelow(tb: Table, ty: Type, i: nat)
    requires AllLeavesOk(tb, ty)
    ensures ty.ArrayT? ==> AllLeavesOk(tb, ty.elem)
    ensures IsStruct(ty) && i < |Elements(tb, ty)| ==> AllLeavesOk(tb, Elements(tb, ty)[i])
  {
    if ty.ArrayT? || (IsStruct(ty) && i < |Elements(tb, ty)|) {
      var e := if ty.ArrayT? then ty.elem else Elements(tb, ty)[i];
      forall path: seq<nat> ensures LeafOk(tb, e, path) {
        assert ([i] + path)[1..] == path;
        assert LeafOk(tb, ty, [i] + path);
      }
    }
  }

  lemma LeavesAbove(tb: Table, ty: Type)
    requires ty.ArrayT? ==> AllLeavesOk(tb, ty.elem)
    requires IsStruct(ty) ==> forall i :: 0 <= i < |Elements(tb, ty)| ==> AllLeavesOk(tb, Elements(tb, ty)[i])
    requires !IsAggregate(ty) ==> IsIntOrIntPointer(ty)
    ensures AllLeavesOk(tb, ty)
  {
    forall path: seq<nat> ensures LeafOk(tb, ty, path) {
      if path != [] {
        if ty.ArrayT? {
          assert LeafOk(tb, ty.elem, path[1..]);
        } else if IsStruct(ty) && path[0] < |Elements(tb, ty)| {
          assert LeafOk(tb, Elements(tb, ty)[path[0]], path[1..]);
        }
      }
    }
  }

  /** What an aggregate is made of decides: a struct by its elements, so one without elements passes,
      and an array by its element type, whatever its length. */
  lemma Aggregates(tb: Table, ty: Type)
    ensures ty.StructT? ==> (AllLeavesOk(tb, ty) <==> forall i :: 0 <= i < |ty.elems| ==> AllLeavesOk(tb, ty.elems[i]))
    ensures ty.NamedT? && ty.name in tb ==>
      (AllLeavesOk(tb, ty) <==> forall i :: 0 <= i < |tb[ty.name]| ==> AllLeavesOk(tb, tb[ty.name][i]))
    ensures ty.NamedT? && ty.name !in tb ==> AllLeavesOk(tb, ty)
    ensures ty.ArrayT? ==> (AllLeavesOk(tb, ty) <==> AllLeavesOk(tb, ty.elem))
    ensures !ty.StructT? && !ty.NamedT? && !ty.ArrayT? ==>
      (AllLeavesOk(tb, ty) <==> ty.IntT? || (ty.PtrT? && ty.elem.IntT?))
  {
    if AllLeavesOk(tb, ty) {
      LeafBelow(tb, ty, 0);
      if IsStruct(ty) {
        forall i | 0 <= i < |Elements(tb, ty)| ensures AllLeavesOk(tb, Elements(tb, ty)[i]) { LeafBelow(tb, ty, i); }
      }
      assert LeafOk(tb, ty, []);
    } else {
      NotBelow(tb, ty);
    }
  }

  lemma NotBelow(tb: Table, ty: Type)
    requires !AllLeavesOk(tb, ty)
    ensures ty.ArrayT? ==> !AllLeavesOk(tb, ty.elem)
    ensures IsStruct(ty) ==> exists i :: 0 <= i < |Elements(tb, ty)| && !AllLeavesOk(tb, Elements(tb, ty)[i])
    ensures !IsAggregate(ty) ==> !IsIntOrIntPointer(ty)
  {
    hide AllLeavesOk;
    if (ty.ArrayT? ==> AllLeavesOk(tb, ty.elem))
      && (IsStruct(ty) ==> forall i :: 0 <= i < |Elements(tb, ty)| ==> AllLeavesOk(tb, Elements(tb, ty)[i]))
      && (!IsAggregate(ty) ==> IsIntOrIntPointer(ty))
    {
      LeavesAbove(tb, ty);
    }
  }

  // ---------- nesting ----------

  /** Types nest by value no deeper than `depth`. */
  ghost predicate Bounded(tb: Table, ty: Type, depth: nat) {
    forall path: seq<nat> :: |path| > depth ==> At(tb, ty, path).None?
  }

  lemma BoundedBelow(tb: Table, ty: Type, i: nat, depth: nat)
    requires Bounded(tb, ty, depth)
    ensures ty.ArrayT? ==> depth > 0 && Bounded(tb, ty.elem, depth - 1)
    ensures IsStruct(ty) && i < |Elements(tb, ty)| ==> depth > 0 && Bounded(tb, Elements(tb, ty)[i], depth - 1)
  {
    if ty.ArrayT? || (IsStruct(ty) && i < |Elements(tb, ty)|) {
      var e := if ty.ArrayT? then ty.elem else Elements(tb, ty)[i];
      assert At(tb, ty, [i]) == At(tb, e, [i][1..]);
      forall path: seq<nat> | |path| > depth - 1 ensures At(tb, e, path).None? {
        assert ([i] + path)[1..] == path;
        assert At(tb, ty, [i] + path).None?;
      }
    }
  }

  lemma BoundedAbove(tb: Table, ty: Type, depth: nat)
    requires ty.ArrayT? ==> Bounded(tb, ty.elem, depth)
    requires IsStruct(ty) ==> forall i :: 0 <= i < |Elements(tb, ty)| ==> Bounded(tb, Elements(tb, ty)[i], depth)
    ensures Bounded(tb, ty, depth + 1)
  {
  }

  /** No struct holds itself by value when ranks go down from a struct to its elements; then the nesting
      is bounded. */
  lemma GroundedBounded(tb: Table, ty: Type, rank: map<string, nat>, r: nat) returns (depth: nat)
    requires Grounded(tb, rank) && Below(ty, rank, r)
    ensures Bounded(tb, ty, depth)
    decreases r, ty
  {
    depth := 0;
    if ty.ArrayT? {
      depth := GroundedBounded(tb, ty.elem, rank, r);
    } else if IsStruct(ty) {
      var es := Elements(tb, ty);
      var i := 0;
      while i < |es|
        invariant i <= |es|
        invariant forall j :: 0 <= j < i ==> Bounded(tb, es[j], depth)
      {
        var d := GroundedBounded(tb, es[i], rank, if ty.NamedT? then rank[ty.name] else r);
        depth := if d > depth then d else depth;
        i := i + 1;
      }
    }
    BoundedAbove(tb, ty, depth);
    depth := depth + 1;
  }

  /** Terminates on every type that nests by value to some depth, and answers whether all scalar leaves
      are integers or pointers to integers. Pointers are not followed further. */
  method IsIntegerRelatedType(tb: Table, ty: Type, ghost depth: nat) returns (yes: bool)
    requires Bounded(tb, ty, depth)
    ensures yes <==> AllLeavesOk(tb, ty)
    ensures ty.StructT? ==> (yes <==> forall i :: 0 <= i < |ty.elems| ==> AllLeavesOk(tb, ty.elems[i]))
    ensures ty.NamedT? && ty.name in tb ==>
      (yes <==> forall i :: 0 <= i < |tb[ty.name]| ==> AllLeavesOk(tb, tb[ty.name][i]))
    ensures ty.NamedT? && ty.name !in tb ==> yes
    ensures ty.ArrayT? ==> (yes <==> AllLeavesOk(tb, ty.elem))
    ensures !ty.StructT? && !ty.NamedT? && !ty.ArrayT? ==> (yes <==> ty.IntT? || (ty.PtrT? && ty.elem.IntT?))
    decreases depth
  {
    Aggregates(tb, ty);
    hide AllLeavesOk, Bounded;
    if ty.PtrT? {
      return ty.elem.IntT?;
    } else if IsStruct(ty) {
      var elems := Elements(tb, ty);
      var i := 0;
      while i < |elems|
        invariant i <= |elems|
        invariant forall j :: 0 <= j < i ==> AllLeavesOk(tb, elems[j])
      {
        var eleTy := elems[i];
        BoundedBelow(tb, ty, i, depth);
        var ok := IsIntegerRelatedType(tb, eleTy, depth - 1);
        if !ok {
          return false;
        }
        i := i + 1;
      }
      return true;
    } else if ty.ArrayT? {
      BoundedBelow(tb, ty, 0, depth);
      yes := IsIntegerRelatedType(tb, ty.elem, depth - 1);
      return;
    }
    return ty.IntT?;
  }
}
