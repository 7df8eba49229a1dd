/** The path dump: reachability between blocks by a search whose visited set is passed by value. */
module CfgPath {
  import opened IR
  import opened Simulation

  /** Successors of every block, in operand order and with repetitions. */
  type Cfg = seq<seq<nat>>

  function CfgOf(f: Fn): (g: Cfg)
    ensures |g| == |f.blocks|
  {
    seq(|f.blocks|, b requires 0 <= b < |f.blocks| =>
      if f.blocks[b] == [] then [] else Targets(f.blocks[b][|f.blocks[b]| - 1]))
  }

  predicate CfgOk(g: Cfg) {
    forall b, k :: 0 <= b < |g| && 0 <= k < |g[b]| ==> g[b][k] < |g|
  }

  // ---------- paths ----------

  predicate IsWalk(g: Cfg, p: seq<nat>) {
    && p != []
    && (forall i :: 0 <= i < |p| ==> p[i] < |g|)
    && (forall i :: 0 <= i < |p| - 1 ==> p[i + 1] in g[p[i]])
  }

  predicate IsPath(g: Cfg, a: nat, b: nat, p: seq<nat>) {
    IsWalk(g, p) && p[0] == a && p[|p| - 1] == b
  }

  predicate Avoids(p: seq<nat>, v: set<nat>) {
    forall i :: 0 <= i < |p| ==> p[i] !in v
  }

  ghost predicate Reach(g: Cfg, a: nat, b: nat) {
    exists p :: IsPath(g, a, b, p)
  }

  ghost predicate ReachAvoid(g: Cfg, a: nat, b: nat, v: set<nat>) {
    exists p :: IsPath(g, a, b, p) && Avoids(p, v)
  }

  lemma ReachNone(g: Cfg, a: nat, b: nat)
    ensures ReachAvoid(g, a, b, {}) <==> Reach(g, a, b)
  {
    if p :| IsPath(g, a, b, p) {
      assert Avoids(p, {});
    }
  }

  /** The part of a path after its last visit to `a`. */
  lemma {:induction false} AfterLast(g: Cfg, a: nat, b: nat, p: seq<nat>, v: set<nat>) returns (q: seq<nat>)
    requires IsPath(g, a, b, p) && a != b && Avoids(p, v - {a})
    ensures q != [] && q[0] in g[a] && IsPath(g, q[0], b, q) && Avoids(q, v + {a})
    decreases |p|
  {
    if k :| 0 < k < |p| && p[k] == a {
      q := AfterLast(g, a, b, p[k..], v);
    } else {
      q := p[1..];
      assert p[0 + 1] in g[p[0]];
    }
  }

  lemma StepReach(g: Cfg, a: nat, b: nat, v: set<nat>, s: nat)
    requires CfgOk(g) && a < |g| && s in g[a] && ReachAvoid(g, s, b, v + {a})
    ensures ReachAvoid(g, a, b, v - {a})
  {
    var p :| IsPath(g, s, b, p) && Avoids(p, v + {a});
    var q := [a] + p;
    assert forall i :: 1 <= i < |q| ==> q[i] == p[i - 1];
    assert IsPath(g, a, b, q) && Avoids(q, v - {a});
  }

  lemma NoReach(g: Cfg, a: nat, b: nat, v: set<nat>)
    requires CfgOk(g) && a < |g| && a != b
    requires forall k :: 0 <= k < |g[a]| && g[a][k] !in v + {a} ==> !ReachAvoid(g, g[a][k], b, v + {a})
    ensures !ReachAvoid(g, a, b, v - {a})
  {
    if ReachAvoid(g, a, b, v - {a}) {
      ReachStep(g, a, b, v);
    }
  }

  lemma ReachStep(g: Cfg, a: nat, b: nat, v: set<nat>)
    requires a < |g| && a != b && ReachAvoid(g, a, b, v - {a})
    ensures exists k :: 0 <= k < |g[a]| && g[a][k] !in v + {a} && ReachAvoid(g, g[a][k], b, v + {a})
  {
    var p :| IsPath(g, a, b, p) && Avoids(p, v - {a});
    var q := AfterLast(g, a, b, p, v);
    var k :| 0 <= k < |g[a]| && g[a][k] == q[0];
  }

  lemma ReachTransitive(g: Cfg, a: nat, b: nat, c: nat)
    requires Reach(g, a, b) && Reach(g, b, c)
    ensures Reach(g, a, c)
  {
    var p :| IsPath(g, a, b, p);
    var q :| IsPath(g, b, c, q);
    var r := p + q[1..];
    forall i | 0 <= i < |r| - 1
      ensures r[i + 1] in g[r[i]]
    {
      if i >= |p| - 1 {
        var k := i - (|p| - 1);
        assert q[k + 1] in g[q[k]];
        assert r[i + 1] == q[k + 1] && r[i] == q[k];
      }
    }
    assert IsPath(g, a, c, r);
  }

  // ---------- the search ----------

  /** Blocks that are not visited yet. */
  function Rest(g: Cfg, v: set<nat>): set<nat> {
    set x: nat | x < |g| && x !in v
  }

  lemma RestShrinks(g: Cfg, v: set<nat>, s: nat)
    requires s < |g| && s !in v
    ensures |Rest(g, v + {s})| == |Rest(g, v)| - 1
  {
    assert Rest(g, v) == Rest(g, v + {s}) + {s};
  }

  /** Number of calls the search makes. */
  ghost function Calls(g: Cfg, a: nat, b: nat, v: set<nat>): nat
    requires CfgOk(g) && a < |g|
    decreases |Rest(g, v + {a})|, |g[a]| + 1
  {
    if a == b then 1 else 1 + CallsAt(g, a, b, v + {a}, 0)
  }

  /** The calls made for the successors of `a` from position `k` on. */
  ghost function CallsAt(g: Cfg, a: nat, b: nat, v: set<nat>, k: nat): nat
    requires CfgOk(g) && a < |g| && k <= |g[a]|
    decreases |Rest(g, v)|, |g[a]| - k
  {
    if k == |g[a]| then 0
    else
      var s := g[a][k];
      if s in v then CallsAt(g, a, b, v, k + 1)
      else
        RestShrinks(g, v, s);
        Calls(g, s, b, v) + if ReachAvoid(g, s, b, v) then 0 else CallsAt(g, a, b, v, k + 1)
  }

  /** The blocks of a path. */
  function Blocks(p: seq<nat>): set<nat> {
    set i | 0 <= i < |p| :: p[i]
  }

  predicate Distinct(p: seq<nat>) {
    forall i, j :: 0 <= i < j < |p| ==> p[i] != p[j]
  }

  /** The calls under way: they have come along the simple path `p` to `b1`, and have visited the
      blocks of `v0` and those of the path. The outermost call has no path yet. */
  predicate Trail(g: Cfg, v0: set<nat>, p: seq<nat>, b1: nat, visited0: set<nat>) {
    IsWalk(g, p + [b1]) && Distinct(p + [b1]) && visited0 == v0 + Blocks(p)
  }

  lemma TrailNext(g: Cfg, v0: set<nat>, p: seq<nat>, b1: nat, visited0: set<nat>, s: nat)
    requires CfgOk(g) && b1 < |g| && Trail(g, v0, p, b1, visited0) && s in g[b1] && s !in visited0 + {b1}
    ensures Trail(g, v0, p + [b1], s, visited0 + {b1})
  {
    var q := p + [b1];
    assert Blocks(q) == Blocks(p) + {b1} by {
      assert forall i :: 0 <= i < |p| ==> q[i] == p[i];
      assert q[|p|] == b1;
    }
    forall i | 0 <= i < |q|
      ensures q[i] != s
    {
      assert q[i] in Blocks(q);
    }
    forall i | 0 <= i < |q + [s]| - 1
      ensures (q + [s])[i + 1] in g[(q + [s])[i]]
    {
      if i < |p| {
        assert q[i + 1] in g[q[i]];
      }
    }
  }

  /** A simple path is no longer than the graph. */
  lemma {:induction false} TrailShort(n: nat, p: seq<nat>)
    requires Distinct(p) && forall i :: 0 <= i < |p| ==> p[i] < n
    ensures |p| <= n
  {
    if p != [] {
      assert p[0] < n;
      if k :| 0 <= k < |p| && p[k] == n - 1 {
        var q := p[..k] + p[k+1..];
        forall i | 0 <= i < |q|
          ensures q[i] < n - 1
        {
          assert q[i] == p[if i < k then i else i + 1];
        }
        TrailShort(n - 1, q);
      } else {
        TrailShort(n - 1, p);
      }
    }
  }

  /** True exactly when some path from `b1` to `b2` has, after `b1`, no visited block. The ghost
      results are the number of calls made and the depth of the recursion; with the calls under way
      it is never more than the number of blocks. */
  method HasPath(g: Cfg, b1: nat, b2: nat, visited0: set<nat>, ghost v0: set<nat>, ghost trail: seq<nat>)
    returns (r: bool, ghost calls: nat, ghost depth: nat)
    requires CfgOk(g) && b1 < |g| && Trail(g, v0, trail, b1, visited0)
    ensures r <==> ReachAvoid(g, b1, b2, visited0 - {b1})
    ensures calls == Calls(g, b1, b2, visited0)
    ensures depth <= 1 + |Rest(g, visited0 + {b1})| && |trail| + depth <= |g|
    decreases |Rest(g, visited0 + {b1})|
  {
    TrailShort(|g|, trail + [b1]);
    var visited := visited0 + {b1};
    var reachable := false;
    calls, depth := 1, 1;
    if b1 == b2 {
      assert IsPath(g, b1, b2, [b1]) && Avoids([b1], visited0 - {b1});
      return true, calls, depth;
    }
    var pi := 0;
    while pi < |g[b1]|
      invariant pi <= |g[b1]| && !reachable
      invariant forall k :: 0 <= k < pi && g[b1][k] !in visited ==> !ReachAvoid(g, g[b1][k], b2, visited)
      invariant calls + CallsAt(g, b1, b2, visited, pi) == Calls(g, b1, b2, visited0)
      invariant depth <= 1 + |Rest(g, visited)| && |trail| + depth <= |g|
    {
      if g[b1][pi] !in visited {
        RestShrinks(g, visited, g[b1][pi]);
        TrailNext(g, v0, trail, b1, visited0, g[b1][pi]);
        ghost var c, d;
        reachable, c, d := HasPath(g, g[b1][pi], b2, visited, v0, trail + [b1]);
        assert visited - {g[b1][pi]} == visited;
        calls, depth := calls + c, if d + 1 > depth then d + 1 else depth;
        if reachable {
          StepReach(g, b1, b2, visited0, g[b1][pi]);
          return true, calls, depth;
        }
      }
      pi := pi + 1;
    }
    NoReach(g, b1, b2, visited0);
    return reachable, calls, depth;
  }

  /** One row per block, in order: the other blocks it reaches, in order. */
  method TraversePath(g: Cfg) returns (rows: seq<seq<nat>>)
    requires CfgOk(g)
    ensures |rows| == |g|
    ensures forall i, j: nat :: 0 <= i < |g| ==> (j in rows[i] <==> j < |g| && j != i && Reach(g, i, j))
    ensures forall i, k, l :: 0 <= i < |g| && 0 <= k < l < |rows[i]| ==> rows[i][k] < rows[i][l]
  {
    rows := [];
    var visited := {};
    var b1 := 0;
    while b1 < |g|
      invariant b1 <= |g| && |rows| == b1 && visited == {}
      invariant forall i, j: nat :: 0 <= i < b1 ==> (j in rows[i] <==> j < |g| && j != i && Reach(g, i, j))
      invariant forall i, k, l :: 0 <= i < b1 && 0 <= k < l < |rows[i]| ==> rows[i][k] < rows[i][l]
    {
      var row: seq<nat> := [];
      var b2 := 0;
      while b2 < |g|
        invariant b2 <= |g|
        invariant forall j: nat :: j in row <==> j < b2 && j != b1 && Reach(g, b1, j)
        invariant forall k :: 0 <= k < |row| ==> row[k] < b2
        invariant forall k, l :: 0 <= k < l < |row| ==> row[k] < row[l]
      {
        if b1 != b2 {
          var r, _, _ := HasPath(g, b1, b2, visited, {}, []);
          assert {} - {b1} == {};
          ReachNone(g, b1, b2);
          if r {
            row := row + [b2];
          }
        }
        b2 := b2 + 1;
      }
      rows := rows + [row];
      visited := {};
      b1 := b1 + 1;
    }
  }

  /** The dumped relation is closed under composition away from the diagonal. */
  lemma RowsCompose(g: Cfg, rows: seq<seq<nat>>, i: nat, j: nat, k: nat)
    requires |rows| == |g| && i < |g| && j < |g| && k != i
    requires forall i, j: nat :: 0 <= i < |g| ==> (j in rows[i] <==> j < |g| && j != i && Reach(g, i, j))
    requires j in rows[i] && k in rows[j]
    ensures k in rows[i]
  {
    ReachTransitive(g, i, j, k);
  }

  lemma CfgAt(f: Fn, b: nat)
    requires b < |f.blocks| && f.blocks[b] != []
    ensures CfgOf(f)[b] == Targets(f.blocks[b][|f.blocks[b]| - 1])
  {
  }

  /** Counting blocks leaves the terminator of every block, and with it the graph. */
  lemma CfgKept(m: Module, f: Fn)
    requires FnOk(m, f)
    ensures |InstrDef(f).blocks| == |f.blocks|
    ensures forall b :: 0 <= b < |f.blocks| ==>
      var o, e := f.blocks[b], InstrDef(f).blocks[b];
      o != [] && e != [] && e[|e| - 1] == o[|o| - 1]
    ensures CfgOk(CfgOf(f)) && CfgOf(InstrDef(f)) == CfgOf(f)
  {
    hide InstrDef, CfgOf;
    DefParts(f);
    forall b | 0 <= b < |f.blocks|
      ensures var o, e := f.blocks[b], InstrDef(f).blocks[b]; o != [] && e != [] && e[|e| - 1] == o[|o| - 1]
      ensures CfgOf(InstrDef(f))[b] == CfgOf(f)[b]
      ensures forall k :: 0 <= k < |CfgOf(f)[b]| ==> CfgOf(f)[b][k] < |f.blocks|
    {
      BlockShape(f, b);
      CfgAt(f, b);
      CfgAt(InstrDef(f), b);
      assert InstrOk(m, f, f.blocks[b][|f.blocks[b]| - 1]);
    }
  }
}
