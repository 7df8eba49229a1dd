/** What the search costs: a failing query makes one call for every simple path from its start. */
module CfgCost {
  import opened CfgPath

  predicate DistinctSuccs(g: Cfg) {
    forall b, j, k :: 0 <= b < |g| && 0 <= j < k < |g[b]| ==> g[b][j] != g[b][k]
  }

  /** A path without repetition that avoids `v` after its first block. */
  predicate IsSimple(g: Cfg, a: nat, v: set<nat>, p: seq<nat>) {
    && IsWalk(g, p) && p[0] == a
    && (forall i :: 0 < i < |p| ==> p[i] !in v)
    && (forall i, j :: 0 <= i < j < |p| ==> p[i] != p[j])
  }

  function Prefixed(a: nat, ps: seq<seq<nat>>): (r: seq<seq<nat>>)
    ensures |r| == |ps|
    ensures forall i :: 0 <= i < |ps| ==> r[i] == [a] + ps[i]
  {
    seq(|ps|, i requires 0 <= i < |ps| => [a] + ps[i])
  }

  /** A listing of the simple paths from `a`, grouped by the first edge. */
  function Paths(g: Cfg, a: nat, v: set<nat>): seq<seq<nat>>
    requires CfgOk(g) && a < |g|
    decreases |Rest(g, v + {a})|, |g[a]| + 1
  {
    [[a]] + PathsAt(g, a, v + {a}, 0)
  }

  function PathsAt(g: Cfg, a: nat, v: set<nat>, k: nat): seq<seq<nat>>
    requires CfgOk(g) && a < |g| && k <= |g[a]|
    decreases |Rest(g, v)|, |g[a]| - k
  {
    if k == |g[a]| then []
    else
      var s := g[a][k];
      if s in v then PathsAt(g, a, v, k + 1)
      else
        RestShrinks(g, v, s);
        Prefixed(a, Paths(g, s, v)) + PathsAt(g, a, v, k + 1)
  }

  // ---------- the listing is the set of simple paths ----------

  lemma ExtendSimple(g: Cfg, a: nat, v: set<nat>, q: seq<nat>)
    requires a < |g| && a in v && q != [] && q[0] in g[a] && q[0] !in v && IsSimple(g, q[0], v, q)
    ensures IsSimple(g, a, v - {a}, [a] + q)
  {
    var p := [a] + q;
    assert forall i :: 1 <= i < |p| ==> p[i] == q[i - 1];
  }

  lemma {:induction false} PathsSound(g: Cfg, a: nat, v: set<nat>, p: seq<nat>)
    requires CfgOk(g) && a < |g| && p in Paths(g, a, v)
    ensures IsSimple(g, a, v - {a}, p)
    decreases |Rest(g, v + {a})|, |g[a]| + 1
  {
    if p != [a] {
      PathsAtSound(g, a, v + {a}, 0, p);
      assert v + {a} - {a} == v - {a};
    }
  }

  lemma {:induction false} PathsAtSound(g: Cfg, a: nat, v: set<nat>, k: nat, p: seq<nat>)
    requires CfgOk(g) && a < |g| && k <= |g[a]| && a in v && p in PathsAt(g, a, v, k)
    ensures IsSimple(g, a, v - {a}, p)
    ensures |p| > 1 && p[1] in g[a][k..] && p[1] !in v
    decreases |Rest(g, v)|, |g[a]| - k
  {
    var s := g[a][k];
    if s in v {
      PathsAtSound(g, a, v, k + 1, p);
    } else {
      RestShrinks(g, v, s);
      if p in Prefixed(a, Paths(g, s, v)) {
        var q := p[1..];
        assert q in Paths(g, s, v);
        PathsSound(g, s, v, q);
        assert v - {s} == v;
        assert [a] + q == p && q[0] == s;
        ExtendSimple(g, a, v, q);
        assert g[a][k..][0] == s;
      } else {
        PathsAtSound(g, a, v, k + 1, p);
      }
    }
  }

  lemma {:induction false} PathsComplete(g: Cfg, a: nat, v: set<nat>, p: seq<nat>)
    requires CfgOk(g) && a < |g| && IsSimple(g, a, v, p)
    ensures p in Paths(g, a, v)
    decreases |p|
  {
    if |p| == 1 {
      assert p == [a];
      assert Paths(g, a, v)[0] == [a];
    } else {
      var q := p[1..];
      assert p[0 + 1] in g[a];
      forall i | 0 <= i < |q| ensures q[i] !in v + {a} { assert q[i] == p[i + 1]; }
      assert IsSimple(g, q[0], v + {a}, q);
      PathsComplete(g, q[0], v + {a}, q);
      var k :| 0 <= k < |g[a]| && g[a][k] == q[0];
      PathsAtComplete(g, a, v + {a}, k, q);
      InTail(g, a, v + {a}, 0, k, [a] + q);
      assert [a] + q == p;
    }
  }

  lemma PathsAtComplete(g: Cfg, a: nat, v: set<nat>, k: nat, q: seq<nat>)
    requires CfgOk(g) && a < |g| && k < |g[a]| && g[a][k] !in v && q in Paths(g, g[a][k], v)
    ensures [a] + q in PathsAt(g, a, v, k)
  {
    var ps := Paths(g, g[a][k], v);
    var i :| 0 <= i < |ps| && ps[i] == q;
    assert Prefixed(a, ps)[i] == [a] + q;
    RestShrinks(g, v, g[a][k]);
    assert PathsAt(g, a, v, k)[i] == Prefixed(a, ps)[i];
  }

  lemma {:induction false} InTail(g: Cfg, a: nat, v: set<nat>, j: nat, k: nat, p: seq<nat>)
    requires CfgOk(g) && a < |g| && j <= k <= |g[a]| && p in PathsAt(g, a, v, k)
    ensures p in PathsAt(g, a, v, j)
    decreases k - j
  {
    if j < k {
      InTail(g, a, v, j + 1, k, p);
      if g[a][j] !in v {
        RestShrinks(g, v, g[a][j]);
      }
    }
  }

  predicate NoRepeat(ps: seq<seq<nat>>) {
    forall i, j :: 0 <= i < j < |ps| ==> ps[i] != ps[j]
  }

  lemma {:induction false} PathsDistinct(g: Cfg, a: nat, v: set<nat>)
    requires CfgOk(g) && DistinctSuccs(g) && a < |g|
    ensures NoRepeat(Paths(g, a, v))
    decreases |Rest(g, v + {a})|, |g[a]| + 1
  {
    PathsAtDistinct(g, a, v + {a}, 0);
    var t := PathsAt(g, a, v + {a}, 0);
    forall i | 0 <= i < |t| ensures t[i] != [a] { PathsAtSound(g, a, v + {a}, 0, t[i]); }
  }

  lemma {:induction false} PathsAtDistinct(g: Cfg, a: nat, v: set<nat>, k: nat)
    requires CfgOk(g) && DistinctSuccs(g) && a < |g| && k <= |g[a]| && a in v
    ensures NoRepeat(PathsAt(g, a, v, k))
    decreases |Rest(g, v)|, |g[a]| - k
  {
    if k < |g[a]| {
      PathsAtDistinct(g, a, v, k + 1);
      var s := g[a][k];
      if s !in v {
        RestShrinks(g, v, s);
        PathsDistinct(g, s, v);
        var x, t := Prefixed(a, Paths(g, s, v)), PathsAt(g, a, v, k + 1);
        forall i, j | 0 <= i < j < |x|
          ensures x[i] != x[j]
        {
          assert x[i][1..] == Paths(g, s, v)[i] && x[j][1..] == Paths(g, s, v)[j];
        }
        forall i, j | 0 <= i < |x| && 0 <= j < |t|
          ensures x[i] != t[j]
        {
          PathsAtSound(g, a, v, k + 1, t[j]);
          PathsSound(g, s, v, Paths(g, s, v)[i]);
          assert x[i][1] == s;
        }
      }
    }
  }

  /** The listing holds every simple path once and nothing else. */
  lemma PathsExact(g: Cfg, a: nat, v: set<nat>, p: seq<nat>)
    requires CfgOk(g) && a < |g|
    ensures p in Paths(g, a, v) <==> IsSimple(g, a, v - {a}, p)
    ensures DistinctSuccs(g) ==> NoRepeat(Paths(g, a, v))
  {
    if p in Paths(g, a, v) {
      PathsSound(g, a, v, p);
    }
    if IsSimple(g, a, v - {a}, p) {
      assert IsSimple(g, a, v, p) by {
        forall i | 0 < i < |p| ensures p[i] !in v { assert p[0] != p[i]; }
      }
      PathsComplete(g, a, v, p);
    }
    if DistinctSuccs(g) {
      PathsDistinct(g, a, v);
    }
  }

  // ---------- calls against paths ----------

  lemma {:induction false} CallsBound(g: Cfg, a: nat, b: nat, v: set<nat>)
    requires CfgOk(g) && a < |g|
    ensures Calls(g, a, b, v) <= |Paths(g, a, v)|
    ensures !ReachAvoid(g, a, b, v - {a}) ==> Calls(g, a, b, v) == |Paths(g, a, v)|
    decreases |Rest(g, v + {a})|, |g[a]| + 1
  {
    if a == b {
      assert IsPath(g, a, b, [a]) && Avoids([a], v - {a});
    } else {
      CallsAtBound(g, a, b, v, 0);
    }
  }

  lemma {:induction false} CallsAtBound(g: Cfg, a: nat, b: nat, v: set<nat>, k: nat)
    requires CfgOk(g) && a < |g| && k <= |g[a]|
    ensures CallsAt(g, a, b, v + {a}, k) <= |PathsAt(g, a, v + {a}, k)|
    ensures !ReachAvoid(g, a, b, v - {a}) ==> CallsAt(g, a, b, v + {a}, k) == |PathsAt(g, a, v + {a}, k)|
    decreases |Rest(g, v + {a})|, |g[a]| - k
  {
    if k < |g[a]| {
      CallsAtBound(g, a, b, v, k + 1);
      var s := g[a][k];
      if s !in v + {a} {
        RestShrinks(g, v + {a}, s);
        CallsBound(g, s, b, v + {a});
        assert v + {a} - {s} == v + {a};
        if ReachAvoid(g, s, b, v + {a}) {
          StepReach(g, a, b, v, s);
        }
      }
    }
  }

  // ---------- how many simple paths there can be ----------

  /** Most simple paths that can start in a block with `k` other blocks around. */
  function MostPaths(k: nat): (r: nat)
    ensures r >= 1
  {
    if k == 0 then 1 else 1 + k * MostPaths(k - 1)
  }

  /** k! / (k-j)!, the ways to go through `j` of `k` blocks in order. */
  function Falling(k: nat, j: nat): nat
    requires j <= k
  {
    if j == 0 then 1 else k * Falling(k - 1, j - 1)
  }

  function FallingSum(k: nat, j: nat): nat
    requires j <= k
  {
    Falling(k, j) + if j == 0 then 0 else FallingSum(k, j - 1)
  }

  lemma {:induction false} FallingStep(k: nat, j: nat)
    requires 0 < k && j < k
    ensures FallingSum(k, j + 1) == 1 + k * FallingSum(k - 1, j)
  {
    if j > 0 {
      FallingStep(k, j - 1);
      Distribute(k, Falling(k - 1, j), FallingSum(k - 1, j - 1));
    } else {
      assert FallingSum(k, 1) == Falling(k, 1) + FallingSum(k, 0);
    }
  }

  lemma Distribute(k: nat, x: nat, y: nat)
    ensures k * (x + y) == k * x + k * y
  {
  }

  /** The bound in closed form: the sum over j of k!/(k-j)!. */
  lemma {:induction false} MostPathsSum(k: nat)
    ensures MostPaths(k) == FallingSum(k, k)
  {
    if k > 0 {
      MostPathsSum(k - 1);
      FallingStep(k, k - 1);
    }
  }

  function Open(g: Cfg, a: nat, v: set<nat>, k: nat): set<nat>
    requires a < |g| && k <= |g[a]|
  {
    set j | k <= j < |g[a]| && g[a][j] !in v :: g[a][j]
  }

  lemma {:induction false} PathsFew(g: Cfg, a: nat, v: set<nat>)
    requires CfgOk(g) && DistinctSuccs(g) && a < |g|
    ensures |Paths(g, a, v)| <= MostPaths(|Rest(g, v + {a})|)
    decreases |Rest(g, v + {a})|, |g[a]| + 1
  {
    var w := v + {a};
    var n := |Rest(g, w)|;
    OpenFew(g, a, w);
    PathsAtFew(g, a, w, 0);
    if n == 0 {
      assert Open(g, a, w, 0) == {};
    } else {
      Monotone(|Open(g, a, w, 0)|, n, MostPaths(n - 1));
    }
  }

  lemma OpenFew(g: Cfg, a: nat, v: set<nat>)
    requires CfgOk(g) && a < |g|
    ensures |Open(g, a, v, 0)| <= |Rest(g, v)|
  {
    SubsetSize(Open(g, a, v, 0), Rest(g, v));
  }

  lemma {:induction false} SubsetSize(x: set<nat>, y: set<nat>)
    requires x <= y
    ensures |x| <= |y|
  {
    if x != {} {
      var e :| e in x;
      SubsetSize(x - {e}, y - {e});
    }
  }

  lemma Monotone(x: nat, y: nat, t: nat)
    requires x <= y
    ensures x * t <= y * t
  {
  }

  function Times(x: nat, t: nat): nat {
    x * t
  }

  lemma Combine(c: nat, l: nat, x: nat, t: nat)
    requires c <= t && l <= Times(x, t)
    ensures c + l <= Times(x + 1, t)
  {
  }

  /** One position more. */
  lemma OpenStep(g: Cfg, a: nat, v: set<nat>, k: nat)
    requires CfgOk(g) && DistinctSuccs(g) && a < |g| && k <= |g[a]|
    ensures k == |g[a]| ==> Open(g, a, v, k) == {}
    ensures k < |g[a]| && g[a][k] in v ==> Open(g, a, v, k) == Open(g, a, v, k + 1)
    ensures k < |g[a]| && g[a][k] !in v ==> |Open(g, a, v, k)| == 1 + |Open(g, a, v, k + 1)|
  {
    if k < |g[a]| && g[a][k] !in v {
      assert Open(g, a, v, k) == {g[a][k]} + Open(g, a, v, k + 1);
    } else if k < |g[a]| {
      assert Open(g, a, v, k) == Open(g, a, v, k + 1);
    }
  }

  lemma {:induction false} PathsAtFew(g: Cfg, a: nat, v: set<nat>, k: nat)
    requires CfgOk(g) && DistinctSuccs(g) && a < |g| && k <= |g[a]|
    ensures |PathsAt(g, a, v, k)|
         <= Times(|Open(g, a, v, k)|, if Rest(g, v) == {} then 0 else MostPaths(|Rest(g, v)| - 1))
    decreases |Rest(g, v)|, |g[a]| - k
  {
    hide Times, MostPaths, Paths, Open;
    OpenStep(g, a, v, k);
    if k < |g[a]| {
      PathsAtFew(g, a, v, k + 1);
      var s := g[a][k];
      if s !in v {
        assert s in Rest(g, v);
        RestShrinks(g, v, s);
        PathsFew(g, s, v);
        Combine(|Paths(g, s, v)|, |PathsAt(g, a, v, k + 1)|, |Open(g, a, v, k + 1)|, MostPaths(|Rest(g, v)| - 1));
      }
    }
  }

  /** The cost of a query in a graph of n blocks: never more than the sum over j of (n-1)!/(n-1-j)!
      calls; and a failing one makes exactly one call per simple path from its first block. */
  lemma QueryCost(g: Cfg, a: nat, b: nat)
    requires CfgOk(g) && DistinctSuccs(g) && a < |g|
    ensures Calls(g, a, b, {}) <= FallingSum(|g| - 1, |g| - 1)
    ensures !Reach(g, a, b) ==> Calls(g, a, b, {}) == |Paths(g, a, {})|
  {
    CallsBound(g, a, b, {});
    PathsFew(g, a, {});
    RestAll(g, a);
    MostPathsSum(|g| - 1);
    ReachNone(g, a, b);
    assert {} - {a} == {};
  }

  lemma RestAll(g: Cfg, a: nat)
    requires a < |g|
    ensures |Rest(g, {} + {a})| == |g| - 1
  {
    assert Rest(g, {}) == Below(|g|);
    RestShrinks(g, {}, a);
  }

  function Below(n: nat): (r: set<nat>)
    ensures forall x: nat :: x in r <==> x < n
    ensures |r| == n
  {
    if n == 0 then {} else Below(n - 1) + {n - 1}
  }
}
