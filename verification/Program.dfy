/** The passes as they work: on objects, changed in place. A module owns functions, a function owns
    blocks, a block owns its instruction list and knows its one parent. `View` is the value the
    semantics runs on. */
module Program {
  import opened Wrappers
  import opened IR

  class BasicBlock {
    var insts: seq<Instr>
    var parent: Function?

    constructor (insts: seq<Instr>, parent: Function)
      ensures this.insts == insts && this.parent == parent
    {
      this.insts := insts;
      this.parent := parent;
    }
  }

  class Function {
    var name: string
    var sig: Sig
    var blocks: seq<BasicBlock>
    var next: nat

    constructor (name: string, sig: Sig)
      ensures this.name == name && this.sig == sig && blocks == [] && next == 0
    {
      this.name := name;
      this.sig := sig;
      blocks := [];
      next := 0;
    }

    function View(): Fn
      reads this, blocks
    {
      Fn(name, sig, BlockViews(blocks), next)
    }

    /** The blocks are different objects and belong to this function. */
    ghost predicate Owns()
      reads this, blocks
    {
      && (forall k :: 0 <= k < |blocks| ==> blocks[k].parent == this)
      && (forall k, l :: 0 <= k < l < |blocks| ==> blocks[k] != blocks[l])
    }
  }

  function BlockViews(bs: seq<BasicBlock>): (r: seq<seq<Instr>>)
    reads bs
    ensures |r| == |bs|
    ensures forall k :: 0 <= k < |bs| ==> r[k] == bs[k].insts
  {
    seq(|bs|, k requires 0 <= k < |bs| reads bs => bs[k].insts)
  }

  /** All blocks of these functions. */
  ghost function BlocksOf(fs: seq<Function>): (r: set<BasicBlock>)
    reads fs
    ensures forall i :: 0 <= i < |fs| ==> forall b :: b in fs[i].blocks ==> b in r
  {
    set f, b | f in fs && b in f.blocks :: b
  }

  function FnViews(fs: seq<Function>): (r: seq<Fn>)
    reads fs, BlocksOf(fs)
    ensures |r| == |fs|
    ensures forall i :: 0 <= i < |fs| ==> r[i] == fs[i].View()
  {
    seq(|fs|, i requires 0 <= i < |fs| reads fs, BlocksOf(fs) => fs[i].View())
  }

  class ModuleObject {
    var globals: map<string, GlobalVar>
    var funcs: seq<Function>
    ghost var Repr: set<object>

    constructor ()
      ensures Valid() && fresh(Repr) && View() == Module(map[], [])
    {
      globals := map[];
      funcs := [];
      Repr := {this};
    }

    ghost predicate Valid()
      reads this, Repr
      ensures Valid() ==> this in Repr
    {
      && this in Repr
      && (forall i :: 0 <= i < |funcs| ==> funcs[i] in Repr)
      && (forall i, k :: 0 <= i < |funcs| && 0 <= k < |funcs[i].blocks| ==> funcs[i].blocks[k] in Repr)
      && (forall i, j :: 0 <= i < j < |funcs| ==> funcs[i] != funcs[j])
      && (forall i, k :: 0 <= i < |funcs| && 0 <= k < |funcs[i].blocks| ==> funcs[i].blocks[k].parent == funcs[i])
      && (forall i, k, l :: 0 <= i < |funcs| && 0 <= k < l < |funcs[i].blocks| ==>
          funcs[i].blocks[k] != funcs[i].blocks[l])
    }

    function View(): Module
      reads this, funcs, BlocksOf(funcs)
    {
      Module(globals, FnViews(funcs))
    }

    /** The first function of that name, as an index. */
    method FindFunction(n: string) returns (i: nat)
      ensures i <= |funcs|
      ensures forall j :: 0 <= j < i ==> funcs[j].name != n
      ensures i < |funcs| ==> funcs[i].name == n && Lookup(View(), n) == Some(funcs[i].View())
      ensures i == |funcs| ==> Lookup(View(), n).None?
    {
      i := 0;
      while i < |funcs| && funcs[i].name != n
        invariant i <= |funcs|
        invariant forall j :: 0 <= j < i ==> funcs[j].name != n
      {
        i := i + 1;
      }
      LookupIndex(View().funcs, n, i);
    }
  }

  lemma LookupIndex(fs: seq<Fn>, n: string, i: nat)
    requires i <= |fs|
    requires forall j :: 0 <= j < i ==> fs[j].name != n
    requires i < |fs| ==> fs[i].name == n
    ensures LookupIn(fs, n) == if i < |fs| then Some(fs[i]) else None
  {
    if i < |fs| {
      LookupAt(fs, i);
    }
  }
}
