/** The calls to `__assert_fail` in a function. */
module AssertSites {
  import opened IR
  import opened CountBB
  import opened Simulation
  import opened Recover
  import opened Program

  const ASSERT_FAIL := "__assert_fail"

  /** A direct call; a call through a pointer or with a computed callee has no called function. */
  predicate IsSite(i: Instr) {
    i.Call? && i.callee == Const(FnV(ASSERT_FAIL))
  }

  function SitesIn(b: seq<Instr>): seq<Instr> {
    if b == [] then [] else SitesIn(b[..|b|-1]) + if IsSite(b[|b|-1]) then [b[|b|-1]] else []
  }

  function Sites(bs: seq<seq<Instr>>): seq<Instr> {
    if bs == [] then [] else Sites(bs[..|bs|-1]) + SitesIn(bs[|bs|-1])
  }

  /** All blocks in order, and in each block all instructions in order. */
  method GetAssertCallSite(f: Function) returns (calls: seq<Instr>)
    ensures calls == Sites(f.View().blocks)
  {
    ghost var bs := f.View().blocks;
    calls := [];
    var b := 0;
    while b < |f.blocks|
      invariant b <= |f.blocks| && |bs| == |f.blocks| && bs == f.View().blocks
      invariant calls == Sites(bs[..b])
    {
      var insts := f.blocks[b].insts;
      var k := 0;
      while k < |insts|
        invariant k <= |insts|
        invariant calls == Sites(bs[..b]) + SitesIn(insts[..k])
      {
        assert insts[..k+1][..k] == insts[..k];
        if insts[k].Call? && insts[k].callee.Const? && insts[k].callee.v.FnV? {
          var callee := insts[k].callee.v.fn;
          if callee == ASSERT_FAIL {
            calls := calls + [insts[k]];
          }
        }
        k := k + 1;
      }
      assert insts[..k] == insts;
      assert bs[..b+1][..b] == bs[..b];
      b := b + 1;
    }
    assert bs[..b] == bs;
  }

  // ---------- order, membership, no repeats ----------

  /** The list goes along with the code: what comes first in the block comes first in the list. */
  lemma {:induction false} SitesInConcat(x: seq<Instr>, y: seq<Instr>)
    ensures SitesIn(x + y) == SitesIn(x) + SitesIn(y)
  {
    hide IsSite;
    if y == [] {
      assert x + y == x;
    } else {
      var n := |y| - 1;
      assert (x + y)[..|x + y|-1] == x + y[..n];
      SitesInConcat(x, y[..n]);
    }
  }

  lemma {:induction false} SitesConcat(x: seq<seq<Instr>>, y: seq<seq<Instr>>)
    ensures Sites(x + y) == Sites(x) + Sites(y)
  {
    hide SitesIn;
    if y == [] {
      assert x + y == x;
    } else {
      var n := |y| - 1;
      assert (x + y)[..|x + y|-1] == x + y[..n];
      SitesConcat(x, y[..n]);
      assert Sites(x) + Sites(y[..n]) + SitesIn(y[n]) == Sites(x) + (Sites(y[..n]) + SitesIn(y[n]));
    }
  }

  /** Where a site of position `k` in block `b` stands in the list: after all earlier sites. */
  function SiteIndex(bs: seq<seq<Instr>>, b: nat, k: nat): nat
    requires b < |bs| && k < |bs[b]|
  {
    |Sites(bs[..b])| + |SitesIn(bs[b][..k])|
  }

  lemma SiteAt(bs: seq<seq<Instr>>, b: nat, k: nat)
    requires b < |bs| && k < |bs[b]| && IsSite(bs[b][k])
    ensures SiteIndex(bs, b, k) < |Sites(bs)| && Sites(bs)[SiteIndex(bs, b, k)] == bs[b][k]
  {
    var o := bs[b];
    assert bs == bs[..b+1] + bs[b+1..] && bs[..b+1][..b] == bs[..b];
    SitesConcat(bs[..b+1], bs[b+1..]);
    assert o == o[..k+1] + o[k+1..] && o[..k+1][..k] == o[..k];
    SitesInConcat(o[..k+1], o[k+1..]);
  }

  /** The list follows the order of the code, within a block and from block to block. */
  lemma SitesInOrder(bs: seq<seq<Instr>>, b: nat, k: nat, c: nat, l: nat)
    requires b < |bs| && k < |bs[b]| && c < |bs| && l < |bs[c]|
    requires IsSite(bs[b][k]) && IsSite(bs[c][l]) && (b < c || (b == c && k < l))
    ensures SiteIndex(bs, b, k) < SiteIndex(bs, c, l) < |Sites(bs)|
    ensures Sites(bs)[SiteIndex(bs, b, k)] == bs[b][k] && Sites(bs)[SiteIndex(bs, c, l)] == bs[c][l]
  {
    SiteAt(bs, b, k);
    SiteAt(bs, c, l);
    if b < c {
      assert bs[..c][..b] == bs[..b] && bs[..c][b] == bs[b];
      SiteAt(bs[..c], b, k);
    } else {
      assert bs[b][..l][..k] == bs[b][..k];
      SiteAt([bs[b][..l]], 0, k);
      assert [bs[b][..l]][..0] == [];
    }
  }

  lemma {:induction false} SitesInMember(b: seq<Instr>, i: Instr)
    ensures i in SitesIn(b) <==> IsSite(i) && i in b
  {
    if b != [] {
      SitesInMember(b[..|b|-1], i);
      assert b == b[..|b|-1] + [b[|b|-1]];
    }
  }

  /** Exactly the direct calls of the function. */
  lemma {:induction false} SitesMember(bs: seq<seq<Instr>>, i: Instr)
    ensures i in Sites(bs) <==>
      && i.Call? && i.callee == Const(FnV("__assert_fail"))
      && exists b :: 0 <= b < |bs| && i in bs[b]
  {
    if bs != [] {
      var n := |bs| - 1;
      SitesMember(bs[..n], i);
      SitesInMember(bs[n], i);
      assert forall b :: 0 <= b < n ==> bs[..n][b] == bs[b];
    }
  }

  predicate Distinct(s: seq<Instr>) {
    forall i, j :: 0 <= i < j < |s| ==> s[i] != s[j]
  }

  /** In single-assignment form no call is listed twice. */
  lemma {:induction false} SitesDistinct(f: Fn, n: nat)
    requires SingleAssignment(f) && n <= |f.blocks|
    ensures Distinct(Sites(f.blocks[..n]))
  {
    if n > 0 {
      SitesDistinct(f, n - 1);
      var front, b := f.blocks[..n-1], f.blocks[n-1];
      assert f.blocks[..n][..n-1] == front;
      assert SitesIn(b) == SitesIn(b[..]);
      BlockSitesDistinct(f, n - 1);
      forall i | i in Sites(front)
        ensures i !in SitesIn(b)
      {
        SitesMember(front, i);
        SitesInMember(b, i);
        if i in b && IsSite(i) {
          OneBlock(f, n - 1, i);
        }
      }
      DistinctConcat(Sites(front), SitesIn(b));
      assert Sites(f.blocks[..n]) == Sites(front) + SitesIn(b);
    }
  }

  /** An instruction with a result stands in one block only. */
  lemma OneBlock(f: Fn, n: nat, i: Instr)
    requires SingleAssignment(f) && n < |f.blocks| && Def(i).Some? && i in f.blocks[n]
    ensures forall c :: 0 <= c < n ==> i !in f.blocks[c]
  {
    var l :| 0 <= l < |f.blocks[n]| && f.blocks[n][l] == i;
    forall c, k | 0 <= c < n && 0 <= k < |f.blocks[c]|
      ensures f.blocks[c][k] != i
    {
      assert Def(f.blocks[n][l]) == Def(i);
    }
  }

  lemma DistinctConcat(x: seq<Instr>, y: seq<Instr>)
    requires Distinct(x) && Distinct(y) && forall i :: i in x ==> i !in y
    ensures Distinct(x + y)
  {
    var s := x + y;
    forall i, j | 0 <= i < j < |s|
      ensures s[i] != s[j]
    {
      if j < |x| {
        assert s[i] == x[i] && s[j] == x[j];
      } else if i >= |x| {
        assert s[i] == y[i - |x|] && s[j] == y[j - |x|];
      } else {
        assert s[i] in x && s[j] in y;
      }
    }
  }

  /** Within one block, calls differ in the register they define. */
  lemma BlockSitesDistinct(f: Fn, b: nat)
    requires SingleAssignment(f) && b < |f.blocks|
    ensures Distinct(SitesIn(f.blocks[b]))
  {
    PrefixSitesDistinct(f, b, |f.blocks[b]|);
    assert f.blocks[b][..|f.blocks[b]|] == f.blocks[b];
  }

  lemma {:induction false} PrefixSitesDistinct(f: Fn, b: nat, k: nat)
    requires SingleAssignment(f) && b < |f.blocks| && k <= |f.blocks[b]|
    ensures Distinct(SitesIn(f.blocks[b][..k]))
  {
    if k > 0 {
      PrefixSitesDistinct(f, b, k - 1);
      var o := f.blocks[b];
      assert o[..k][..k-1] == o[..k-1];
      SitesInMember(o[..k-1], o[k-1]);
      assert IsSite(o[k-1]) ==> o[k-1] !in o[..k-1] by {
        forall l | 0 <= l < k - 1 && IsSite(o[k-1])
          ensures o[l] != o[k-1]
        {
          assert Def(f.blocks[b][k-1]).Some?;
          assert Def(f.blocks[b][l]) == Def(f.blocks[b][k-1]) ==> l == k - 1;
        }
      }
    }
  }

  // ---------- the counting pass ----------

  lemma BlockSitesKept(m: Module, f: Fn, b: nat)
    requires FnOk(m, f) && b < |f.blocks| == |InstrDef(f).blocks|
    ensures SitesIn(InstrDef(f).blocks[b]) == SitesIn(f.blocks[b])
  {
    hide InstrDef, SitesIn, Increment, AtexitCall;
    BlockParts(f, b);
    var o, id := f.blocks[b], TempId(f, b);
    var n := |o| - 1;
    SitesInConcat(Front(f, b), o[..n] + (Increment(COUNTER, id) + [o[n]]));
    SitesInConcat(o[..n], Increment(COUNTER, id) + [o[n]]);
    SitesInConcat(Increment(COUNTER, id), [o[n]]);
    FrontSilent(f, id);
    SitesInConcat(o[..n], [o[n]]);
    assert o[..n] + [o[n]] == o;
  }

  lemma FrontSilent(f: Fn, id: nat)
    ensures SitesIn(Increment(COUNTER, id)) == [] && SitesIn([AtexitCall(f.next)]) == [] && SitesIn([]) == []
  {
    SitesInMemberNone(Increment(COUNTER, id));
    SitesInMemberNone([AtexitCall(f.next)]);
  }

  lemma {:induction false} SitesInMemberNone(b: seq<Instr>)
    requires forall k :: 0 <= k < |b| ==> !IsSite(b[k])
    ensures SitesIn(b) == []
  {
    if b != [] {
      SitesInMemberNone(b[..|b|-1]);
    }
  }

  /** Counting blocks adds no assertion and moves none. */
  lemma SitesKept(m: Module, f: Fn)
    requires FnOk(m, f)
    ensures Sites(InstrDef(f).blocks) == Sites(f.blocks)
  {
    NextOf(f);
    SitesKeptUpTo(m, f, |f.blocks|);
    assert InstrDef(f).blocks[..|f.blocks|] == InstrDef(f).blocks && f.blocks[..|f.blocks|] == f.blocks;
  }

  lemma {:induction false} SitesKeptUpTo(m: Module, f: Fn, n: nat)
    requires FnOk(m, f) && n <= |f.blocks| == |InstrDef(f).blocks|
    ensures Sites(InstrDef(f).blocks[..n]) == Sites(f.blocks[..n])
  {
    hide InstrDef, FnOk, SitesIn;
    if n > 0 {
      SitesKeptUpTo(m, f, n - 1);
      BlockSitesKept(m, f, n - 1);
      assert InstrDef(f).blocks[..n][..n-1] == InstrDef(f).blocks[..n-1] && f.blocks[..n][..n-1] == f.blocks[..n-1];
    }
  }
}
