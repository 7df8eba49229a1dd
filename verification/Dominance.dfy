/** Definitions come before uses: every way from the entry of a function to a use passes the
    definition, and the pass keeps it so for the old registers and the new ones. */
module Dominance {
  import opened Wrappers
  import opened IR
  import opened CountBB
  import opened Simulation
  import opened Pass
  import opened Recover
  import opened CfgPath

  /** A walk from the entry to block `b`. */
  predicate EntryWalk(f: Fn, b: nat, p: seq<nat>) {
    IsPath(CfgOf(f), 0, b, p)
  }

  /** Position `l` of the walk's block number `j` defines `id`; the last block is entered only up to
      position `k`. */
  predicate DefinedAt(f: Fn, p: seq<nat>, k: nat, id: nat, j: nat, l: nat) {
    && j < |p| && p[j] < |f.blocks| && l < |f.blocks[p[j]]|
    && (j == |p| - 1 ==> l < k)
    && Def(f.blocks[p[j]][l]) == Some(id)
  }

  ghost predicate Passed(f: Fn, p: seq<nat>, k: nat, id: nat) {
    exists j: nat, l: nat :: DefinedAt(f, p, k, id, j, l)
  }

  /** However position `k` of block `b` is reached, `id` is defined by then. */
  ghost predicate Dominated(f: Fn, b: nat, k: nat, id: nat) {
    forall p :: EntryWalk(f, b, p) ==> Passed(f, p, k, id)
  }

  /** The place where operand `j` is read: a phi reads its operands at the end of the block that
      control comes from. */
  function UsePlace(f: Fn, b: nat, k: nat, j: nat): (nat, nat)
    requires b < |f.blocks| && k < |f.blocks[b]| && j < |Operands(f.blocks[b][k])|
  {
    var i := f.blocks[b][k];
    if !i.Phi? then (b, k)
    else
      var pred := i.incoming[j].0;
      (pred, if pred < |f.blocks| then |f.blocks[pred]| else 0)
  }

  ghost predicate UsesDominated(f: Fn, b: nat, k: nat)
    requires b < |f.blocks| && k < |f.blocks[b]|
  {
    forall j :: 0 <= j < |Operands(f.blocks[b][k])| && Operands(f.blocks[b][k])[j].Reg? ==>
      Dominated(f, UsePlace(f, b, k, j).0, UsePlace(f, b, k, j).1, Operands(f.blocks[b][k])[j].id)
  }

  /** Static single assignment: one definition for every register, and before every use. */
  ghost predicate SSA(f: Fn) {
    && SingleAssignment(f)
    && forall b, k :: 0 <= b < |f.blocks| && 0 <= k < |f.blocks[b]| ==> UsesDominated(f, b, k)
  }

  /** A definition passed in the original is passed in the instrumented function. */
  lemma PassedKept(m: Module, f: Fn, b: nat, p: seq<nat>, k: nat, k': nat, id: nat)
    requires FnOk(m, f) && b < |f.blocks| == |InstrDef(f).blocks| && EntryWalk(f, b, p) && Passed(f, p, k, id)
    requires k + Shift(f, b) <= k' || |f.blocks[b]| - 1 + Shift(f, b) <= k'
    ensures Passed(InstrDef(f), p, k', id)
  {
    hide InstrDef, InstrOk, CfgOf;
    var j: nat, l: nat :| DefinedAt(f, p, k, id, j, l);
    var c := p[j];
    BlockShape(f, c);
    assert l < |f.blocks[c]| - 1 by { assert !IsTerm(f.blocks[c][l]); }
    assert InstrDef(f).blocks[c][l + Shift(f, c)] == f.blocks[c][l];
    assert DefinedAt(InstrDef(f), p, k', id, j, l + Shift(f, c));
  }

  lemma DominatedKept(m: Module, f: Fn, b: nat, k: nat, k': nat, id: nat)
    requires FnOk(m, f) && b < |f.blocks| == |InstrDef(f).blocks| && Dominated(f, b, k, id)
    requires k + Shift(f, b) <= k' || |f.blocks[b]| - 1 + Shift(f, b) <= k'
    ensures Dominated(InstrDef(f), b, k', id)
  {
    hide InstrDef, FnOk, Passed, CfgOf;
    CfgKept(m, f);
    forall p | EntryWalk(InstrDef(f), b, p)
      ensures Passed(InstrDef(f), p, k', id)
    {
      assert EntryWalk(f, b, p);
      PassedKept(m, f, b, p, k, k', id);
    }
  }

  /** A definition directly before a use is enough. */
  lemma JustDefined(f: Fn, b: nat, k: nat, id: nat)
    requires b < |f.blocks| && 0 < k < |f.blocks[b]| && Def(f.blocks[b][k - 1]) == Some(id)
    ensures Dominated(f, b, k, id)
  {
    forall p | EntryWalk(f, b, p)
      ensures Passed(f, p, k, id)
    {
      assert DefinedAt(f, p, k, id, |p| - 1, k - 1);
    }
  }

  /** Where instruction `k` of an instrumented block comes from: None is an inserted one. */
  function Origin(f: Fn, b: nat, k: nat): Option<nat>
    requires b < |f.blocks|
  {
    var n, h := |f.blocks[b]|, Shift(f, b);
    if h <= k < n + h - 1 then Some(k - h)
    else if k == n + h + 2 && n > 0 then Some(n - 1)
    else None
  }

  lemma OriginAt(m: Module, f: Fn, b: nat, k: nat)
    requires FnOk(m, f) && b < |f.blocks| == |InstrDef(f).blocks| && k < |InstrDef(f).blocks[b]|
    ensures Origin(f, b, k).Some? ==>
      Origin(f, b, k).value < |f.blocks[b]| && InstrDef(f).blocks[b][k] == f.blocks[b][Origin(f, b, k).value]
  {
    hide InstrDef, InstrOk;
    BlockShape(f, b);
    if k >= Shift(f, b) {
      ShapeAt(f.blocks[b], InstrDef(f).blocks[b], Shift(f, b), TempId(f, b), k);
    }
  }

  /** An inserted instruction uses only the register that the instruction before it defines, and no
      other instruction uses a new register. */
  lemma NewUses(m: Module, f: Fn, b: nat, k: nat, id: nat)
    requires FnOk(m, f) && b < |f.blocks| == |InstrDef(f).blocks| && k < |InstrDef(f).blocks[b]|
    requires Reg(id) in Operands(InstrDef(f).blocks[b][k])
    ensures Origin(f, b, k).None? <==> id >= f.next
    ensures id >= f.next ==> k > 0 && Def(InstrDef(f).blocks[b][k - 1]) == Some(id)
  {
    hide InstrDef;
    BlockShape(f, b);
    var o, e, h, t := f.blocks[b], InstrDef(f).blocks[b], Shift(f, b), TempId(f, b);
    if k >= h {
      ShapeAt(o, e, h, t, k);
      OriginAt(m, f, b, k);
      if Origin(f, b, k).None? {
        ShapeAt(o, e, h, t, k - 1);
      } else {
        assert InstrOk(m, f, o[Origin(f, b, k).value]);
      }
    }
  }

  lemma OldUses(m: Module, f: Fn, b: nat, k: nat)
    requires FnOk(m, f) && b < |f.blocks| == |InstrDef(f).blocks| && k < |InstrDef(f).blocks[b]|
    requires Origin(f, b, k).Some? && Origin(f, b, k).value < |f.blocks[b]|
        && UsesDominated(f, b, Origin(f, b, k).value)
    ensures UsesDominated(InstrDef(f), b, k)
  {
    hide InstrDef, FnOk, Dominated;
    OriginAt(m, f, b, k);
    var i, l := InstrDef(f).blocks[b][k], Origin(f, b, k).value;
    forall j | 0 <= j < |Operands(i)| && Operands(i)[j].Reg?
      ensures var place := UsePlace(InstrDef(f), b, k, j);
        Dominated(InstrDef(f), place.0, place.1, Operands(i)[j].id)
    {
      var c, n := UsePlace(f, b, l, j).0, UsePlace(f, b, l, j).1;
      assert Dominated(f, c, n, Operands(f.blocks[b][l])[j].id);
      if c < |f.blocks| {
        LongerBlock(m, f, c);
        DominatedKept(m, f, c, n, UsePlace(InstrDef(f), b, k, j).1, Operands(i)[j].id);
      } else {
        NowhereDominated(InstrDef(f), c, UsePlace(InstrDef(f), b, k, j).1, Operands(i)[j].id);
      }
    }
  }

  lemma LongerBlock(m: Module, f: Fn, b: nat)
    requires FnOk(m, f) && b < |f.blocks| == |InstrDef(f).blocks|
    ensures |InstrDef(f).blocks[b]| == |f.blocks[b]| + Shift(f, b) + 3
  {
    BlockShape(f, b);
  }

  lemma NowhereDominated(f: Fn, b: nat, k: nat, id: nat)
    requires b >= |f.blocks|
    ensures Dominated(f, b, k, id)
  {
  }

  /** Definitions still come before uses. */
  lemma InstrSSA(m: Module, f: Fn)
    requires FnOk(m, f) && SSA(f)
    ensures SSA(InstrDef(f))
  {
    hide InstrDef, FnOk, UsesDominated, Dominated, SingleAssignment;
    InstrSingleAssignment(m, f);
    NextOf(f);
    var d := InstrDef(f);
    forall b, k | 0 <= b < |d.blocks| && 0 <= k < |d.blocks[b]|
      ensures UsesDominated(d, b, k)
    {
      InstrUses(m, f, b, k);
    }
  }

  lemma InstrUses(m: Module, f: Fn, b: nat, k: nat)
    requires FnOk(m, f) && SSA(f) && b < |f.blocks| == |InstrDef(f).blocks| && k < |InstrDef(f).blocks[b]|
    ensures UsesDominated(InstrDef(f), b, k)
  {
    hide InstrDef, FnOk, Dominated, SingleAssignment;
    OriginAt(m, f, b, k);
    if Origin(f, b, k).Some? {
      OldUses(m, f, b, k);
    } else {
      var i := InstrDef(f).blocks[b][k];
      InsertedNoPhi(m, f, b, k);
      forall j | 0 <= j < |Operands(i)| && Operands(i)[j].Reg?
        ensures Dominated(InstrDef(f), b, k, Operands(i)[j].id)
      {
        NewUses(m, f, b, k, Operands(i)[j].id);
        JustDefined(InstrDef(f), b, k, Operands(i)[j].id);
      }
    }
  }

  lemma InsertedNoPhi(m: Module, f: Fn, b: nat, k: nat)
    requires FnOk(m, f) && b < |f.blocks| == |InstrDef(f).blocks| && k < |InstrDef(f).blocks[b]|
        && Origin(f, b, k).None?
    ensures !InstrDef(f).blocks[b][k].Phi?
  {
    hide InstrDef;
    BlockShape(f, b);
    if k >= Shift(f, b) {
      ShapeAt(f.blocks[b], InstrDef(f).blocks[b], Shift(f, b), TempId(f, b), k);
    }
  }

  lemma ReportSSA()
    ensures SSA(ReportFn())
  {
    var f := ReportFn();
    forall b, k | 0 <= b < |f.blocks| && 0 <= k < |f.blocks[b]|
      ensures UsesDominated(f, b, k)
    {
      if k == 1 {
        assert Operands(f.blocks[0][1]) == [Const(FnV("printf")), Const(StrV(FORMAT)), Reg(0)];
        JustDefined(f, 0, 1, 0);
      }
    }
  }

  /** The pass keeps single assignment and definition before use in every function of the module. */
  lemma ResultSSA(m: Module, suffix: string)
    requires ModuleOk(m) && Fresh(m) && forall f :: f in m.funcs ==> SSA(f)
    ensures Instrument(m, suffix).Ok?
    ensures forall f :: f in Instrument(m, suffix).value.funcs ==> SSA(f)
  {
    hide Instrument, FnOk, SSA, InstrDef, AddedDecls;
    FreshFuncs(m, suffix);
    AllFnsOk(m);
    ReportSSA();
    forall f | f in Instrument(m, suffix).value.funcs
      ensures SSA(f)
    {
      if f in Defs(m.funcs) {
        var i :| 0 <= i < |m.funcs| && f == InstrDef(m.funcs[i]);
        assert m.funcs[i] in m.funcs;
        InstrSSA(m, m.funcs[i]);
      } else if f != ReportFn() {
        var i :| 0 <= i < |AddedDecls(m)| && f == AddedDecls(m)[i];
        DeclFacts(m, i);
        DeclSSA(f);
      }
    }
  }

  lemma DeclSSA(f: Fn)
    requires f.blocks == []
    ensures SSA(f)
  {
  }
}
