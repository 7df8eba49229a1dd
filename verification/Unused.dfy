/** A function that nothing refers to: without it, code and data mention only names that remain. */
module Unused {
  import opened Wrappers
  import opened IR

  predicate Mentions(i: Instr, n: string) {
    Const(FnV(n)) in Operands(i)
  }

  predicate UsedBy(f: Fn, n: string) {
    exists b, k :: 0 <= b < |f.blocks| && 0 <= k < |f.blocks[b]| && Mentions(f.blocks[b][k], n)
  }

  predicate Used(m: Module, n: string) {
    || (exists i :: 0 <= i < |m.funcs| && UsedBy(m.funcs[i], n))
    || (exists g :: g in m.globals && m.globals[g].init == FnV(n))
  }

  function RemoveFn(fs: seq<Fn>, n: string): seq<Fn> {
    if fs == [] then []
    else if fs[0].name == n then fs[1..]
    else [fs[0]] + RemoveFn(fs[1..], n)
  }

  function Without(m: Module, n: string): Module {
    m.(funcs := RemoveFn(m.funcs, n))
  }

  lemma {:induction false} LookupRemove(fs: seq<Fn>, n: string, x: string)
    requires forall i, j :: 0 <= i < j < |fs| ==> fs[i].name != fs[j].name
    ensures LookupIn(RemoveFn(fs, n), x) == if x == n then None else LookupIn(fs, x)
  {
    if fs != [] {
      if fs[0].name == n {
        assert LookupIn(fs[1..], n).None?;
      } else {
        assert ([fs[0]] + RemoveFn(fs[1..], n))[1..] == RemoveFn(fs[1..], n);
        LookupRemove(fs[1..], n, x);
      }
    }
  }

  lemma LookupWithout(m: Module, n: string, x: string)
    requires ModuleOk(m)
    ensures Lookup(Without(m, n), x) == if x == n then None else Lookup(m, x)
  {
    hide FnOk;
    LookupRemove(m.funcs, n, x);
  }

  lemma InstrAvoids(m: Module, n: string, f: Fn, b: nat, k: nat)
    requires ModuleOk(m) && !Used(m, n) && f in m.funcs && b < |f.blocks| && k < |f.blocks[b]|
        && InstrOk(m, f, f.blocks[b][k])
    ensures InstrOk(Without(m, n), f, f.blocks[b][k])
  {
    var i := f.blocks[b][k];
    assert !UsedBy(f, n) by {
      var j :| 0 <= j < |m.funcs| && m.funcs[j] == f;
    }
    assert !Mentions(i, n);
    forall j | 0 <= j < |Operands(i)|
      ensures OperandOk(Without(m, n), f, Operands(i)[j])
    {
      var o := Operands(i)[j];
      if o.Const? && o.v.FnV? {
        LookupWithout(m, n, o.v.fn);
      }
    }
  }

  lemma UnusedIn(m: Module, n: string)
    requires ModuleOk(m) && !Used(m, n)
    ensures ModuleIn(m, Without(m, n))
  {
    var w := Without(m, n);
    forall i | 0 <= i < |m.funcs|
      ensures FnOk(w, m.funcs[i])
    {
      var f := m.funcs[i];
      assert FnOk(m, f);
      forall b, k | 0 <= b < |f.blocks| && 0 <= k < |f.blocks[b]|
        ensures InstrOk(w, f, f.blocks[b][k])
      {
        InstrAvoids(m, n, f, b, k);
      }
    }
    forall g | g in m.globals
      ensures ValOk(w, m.globals[g].init)
    {
      var v := m.globals[g].init;
      assert ValOk(m, v);
      if v.FnV? {
        assert v != FnV(n);
        LookupWithout(m, n, v.fn);
      }
    }
  }

  /** A mention is an operand that is not there without the function. */
  lemma UsedStays(m: Module, n: string)
    requires ModuleOk(m) && Used(m, n)
    ensures !ModuleIn(m, Without(m, n))
  {
    hide FnOk;
    var w := Without(m, n);
    LookupWithout(m, n, n);
    if i :| 0 <= i < |m.funcs| && UsedBy(m.funcs[i], n) {
      assert !FnOk(w, m.funcs[i]) by { UsedNotOk(w, m.funcs[i], n); }
    } else {
      var g :| g in m.globals && m.globals[g].init == FnV(n);
      assert !ConstOk(w, m.globals[g].init);
    }
  }

  lemma UsedNotOk(w: Module, f: Fn, n: string)
    requires UsedBy(f, n) && Lookup(w, n).None?
    ensures !FnOk(w, f)
  {
    var b, k :| 0 <= b < |f.blocks| && 0 <= k < |f.blocks[b]| && Mentions(f.blocks[b][k], n);
    var i := f.blocks[b][k];
    var j :| 0 <= j < |Operands(i)| && Operands(i)[j] == Const(FnV(n));
    assert !OperandOk(w, f, Operands(i)[j]);
  }

  /** A function is referred to if and only if the rest of the module does not make sense without it. */
  lemma UsedExactly(m: Module, n: string)
    requires ModuleOk(m)
    ensures Used(m, n) <==> !ModuleIn(m, Without(m, n))
  {
    hide ModuleIn, Used;
    if Used(m, n) {
      UsedStays(m, n);
    } else {
      UnusedIn(m, n);
    }
  }
}
