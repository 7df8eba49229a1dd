/** The rewrite of main on module objects: the blocks move from one function to another. */
module PosixPass {
  import opened Wrappers
  import opened IR
  import opened Unused
  import opened Posix
  import opened Program

  /** Move all blocks of `from` to the front of `to`'s list; each block follows its new parent. */
  method Splice(to: Function, from: Function)
    requires from != to && from.Owns() && to.blocks == []
    modifies to`blocks, from`blocks, from.blocks`parent
    ensures from.blocks == [] && to.blocks == old(from.blocks) && to.Owns()
  {
    var k := 0;
    while k < |from.blocks|
      invariant k <= |from.blocks| && from.blocks == old(from.blocks) && to.blocks == []
      invariant forall j :: 0 <= j < k ==> from.blocks[j].parent == to
    {
      from.blocks[k].parent := to;
      k := k + 1;
    }
    to.blocks := from.blocks + to.blocks;
    from.blocks := [];
  }

  /** The new main, with all that the old one had but its name and parameters. */
  method Successor(oldMain: Function) returns (newMain: Function)
    requires oldMain.Owns()
    modifies oldMain`name, oldMain`blocks, oldMain.blocks`parent
    ensures fresh(newMain) && newMain.Owns() && newMain.blocks == old(oldMain.blocks) && oldMain.blocks == []
    ensures newMain.View() == NewMain(old(oldMain.View()))
  {
    ghost var before := oldMain.View();
    oldMain.name := "old_main";
    newMain := new Function("main", POSIX_SIG);
    newMain.next := oldMain.next;
    Splice(newMain, oldMain);
    assert newMain.View().blocks == before.blocks;
  }

  /** Take one function out of the module. */
  method EraseFunction(m: ModuleObject, i: nat)
    requires m.Valid() && i < |m.funcs|
    modifies m`funcs
    ensures m.Valid()
    ensures FnViews(m.funcs) == old(FnViews(m.funcs))[..i] + old(FnViews(m.funcs))[i+1..]
  {
    m.funcs := m.funcs[..i] + m.funcs[i+1..];
  }

  /** The list with one more function at the end, and function `i` taken out. */
  lemma LastAdded(before: seq<Fn>, after: seq<Fn>, i: nat)
    requires i < |before| && |after| == |before| + 1
    requires forall j :: 0 <= j < |before| && j != i ==> after[j] == before[j]
    ensures after[..i] + after[i+1..] == before[..i] + before[i+1..] + [after[|before|]]
  {
  }

  class PrepareFunc {
    var main: Function?

    constructor ()
      ensures main == null
    {
      main := null;
    }

    /** Put a function that owns its blocks at the end of the module's list. */
    method AppendFunction(m: ModuleObject, f: Function)
      requires m.Valid() && f !in m.Repr && f.Owns() && forall b :: b in f.blocks ==> b in m.Repr
      modifies m`funcs, m`Repr
      ensures m.Valid() && m.Repr == old(m.Repr) + {f} && m.funcs == old(m.funcs) + [f]
    {
      m.funcs := m.funcs + [f];
      m.Repr := m.Repr + {f};
    }

    /** The new main with the old one's blocks takes the last place in the list. */
    method CreateMain(m: ModuleObject, mi: nat, oldMain: Function)
      requires m.Valid() && mi < |m.funcs| && m.funcs[mi] == oldMain
      modifies m`funcs, m`Repr, oldMain`name, oldMain`blocks, oldMain.blocks`parent
      ensures m.Valid() && fresh(m.Repr - old(m.Repr)) && old(m.Repr) <= m.Repr
      ensures |m.funcs| == |old(m.funcs)| + 1 && m.funcs[..|old(m.funcs)|] == old(m.funcs)
      ensures m.funcs[|old(m.funcs)|].View() == NewMain(old(oldMain.View()))
      ensures forall j :: 0 <= j < |old(m.funcs)| && j != mi ==> m.funcs[j].View() == old(FnViews(m.funcs))[j]
    {
      ghost var before := FnViews(m.funcs);
      assert oldMain.Owns();
      var newMain := Successor(oldMain);
      AppendFunction(m, newMain);
      forall j | 0 <= j < |old(m.funcs)| && j != mi
        ensures m.funcs[j].View() == before[j]
      {
        assert BlockViews(m.funcs[j].blocks) == before[j].blocks;
      }
    }

    /** Create the new main, then take the old one out of the module. */
    method ReplaceMain(m: ModuleObject, mi: nat, oldMain: Function)
      requires m.Valid() && mi < |m.funcs| && m.funcs[mi] == oldMain
      modifies m.Repr
      ensures m.Valid() && fresh(m.Repr - old(m.Repr)) && m.globals == old(m.globals)
      ensures FnViews(m.funcs)
           == old(FnViews(m.funcs))[..mi] + old(FnViews(m.funcs))[mi+1..] + [NewMain(old(oldMain.View()))]
    {
      ghost var before := FnViews(m.funcs);
      CreateMain(m, mi, oldMain);
      LastAdded(before, FnViews(m.funcs), mi);
      EraseFunction(m, mi);
    }

    /** What is done with a main that was found. */
    method PosixizeFound(m: ModuleObject, mi: nat, f: Function) returns (changed: bool, err: Option<Error>)
      requires m.Valid() && mi < |m.funcs| && m.funcs[mi] == f && f.name == "main"
      requires forall j :: 0 <= j < mi ==> m.funcs[j].name != "main"
      modifies m.Repr
      ensures fresh(m.Repr - old(m.Repr))
      ensures err.Some? ==> Posixize(old(m.View())) == Err(err.value)
      ensures err.None? ==> m.Valid() && Posixize(old(m.View())) == Ok((m.View(), changed))
    {
      hide Used, RemoveFn, NewMain;
      ghost var v := m.View();
      LookupIndex(v.funcs, "main", mi);
      assert Lookup(v, "main") == Some(f.View()) && f.View().sig == f.sig;
      if |f.sig.params| == 2 {
        var argc := f.sig.params[0];
        var argv := f.sig.params[1];
        if !argc.IntT? || !argv.PtrT? || !argv.elem.PtrT? || !argv.elem.elem.IntT? || argv.elem.elem.bits != 8 {
          return false, Some(AssertFailed);
        }
        return false, None;
      }
      if |f.sig.params| != 0 {
        return false, Some(AssertFailed);
      }
      if Used(m.View(), "main") {
        return false, Some(StillUsed);
      }
      RemoveAt(v.funcs, "main", mi);
      ReplaceMain(m, mi, f);
      return true, None;
    }

    /** `changed` is what the pass returns; an error is an assertion or an erased function in use. */
    method PosixizeMain(m: ModuleObject) returns (changed: bool, err: Option<Error>)
      requires m.Valid() && this !in m.Repr
      modifies this`main, m.Repr
      ensures fresh(m.Repr - old(m.Repr))
      ensures err.Some? ==> Posixize(old(m.View())) == Err(err.value)
      ensures err.None? ==> m.Valid() && Posixize(old(m.View())) == Ok((m.View(), changed))
      ensures err.None? && !changed ==> m.View() == old(m.View())
    {
      hide Posixize, FnViews, ModuleObject.Valid, Lookup;
      ghost var v := m.View();
      Unchanged(v);
      var mi := m.FindFunction("main");
      BlocksInRepr(m);
      main := if mi < |m.funcs| then m.funcs[mi] else null;
      assert m.View() == v;
      if main == null {
        return false, None;
      }
      hide ModuleObject.View;
      changed, err := PosixizeFound(m, mi, main);
    }
  }

  lemma BlocksInRepr(m: ModuleObject)
    requires m.Valid()
    ensures BlocksOf(m.funcs) <= m.Repr
  {
  }
}
