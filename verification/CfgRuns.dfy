/** What the successor lists mean for the machine: they hold exactly the blocks that a terminator can
    go to, so the blocks that a frame enters in a run form a walk of the graph. */
module CfgRuns {
  import opened Wrappers
  import opened IR
  import opened Machine
  import opened Invariant
  import opened CfgPath

  // ---------- one terminator ----------

  /** The terminator with the number `w` in place of what it asks for. */
  function Given(i: Instr, w: Word): Instr {
    match i
    case CondBr(_, t, e) => CondBr(Const(IntV(w)), t, e)
    case Switch(_, d, cs) => Switch(Const(IntV(w)), d, cs)
    case _ => i
  }

  function Blank(): Frame {
    Frame("", 0, 0, [], map[], None)
  }

  /** For some value the terminator goes to block `t`. */
  ghost predicate GoesTo(i: Instr, t: nat) {
    exists w: Word :: BranchTarget(Blank(), Given(i, w)) == Some(t)
  }

  /** The values of the cases differ, and do not exhaust all numbers. */
  predicate SwitchOk(i: Instr) {
    i.Switch? ==>
      |i.cases| < WORDS && forall j, k :: 0 <= j < k < |i.cases| ==> i.cases[j].0 != i.cases[k].0
  }

  lemma {:induction false} CaseTaken(cs: seq<(Word, nat)>, d: nat, k: nat)
    requires k < |cs| && forall i, j :: 0 <= i < j < |cs| ==> cs[i].0 != cs[j].0
    ensures SwitchTarget(cs, d, cs[k].0) == cs[k].1
  {
    if k > 0 {
      assert cs[0].0 != cs[k].0;
      CaseTaken(cs[1..], d, k - 1);
    }
  }

  lemma {:induction false} DefaultTaken(cs: seq<(Word, nat)>, d: nat, w: Word)
    requires forall k :: 0 <= k < |cs| ==> cs[k].0 != w
    ensures SwitchTarget(cs, d, w) == d
  {
    if cs != [] {
      DefaultTaken(cs[1..], d, w);
    }
  }

  /** Fewer than `n` numbers leave one below `n` out. */
  lemma {:induction false} LeftOver(n: nat, xs: seq<int>) returns (w: nat)
    requires |xs| < n
    ensures w < n && w !in xs
  {
    if k :| 0 <= k < |xs| && xs[k] == n - 1 {
      w := LeftOver(n - 1, xs[..k] + xs[k+1..]);
      forall j | 0 <= j < |xs| ensures xs[j] != w {
        assert j != k ==> (xs[..k] + xs[k+1..])[if j < k then j else j - 1] == xs[j];
      }
    } else {
      w := n - 1;
    }
  }

  lemma DefaultReached(cs: seq<(Word, nat)>, d: nat) returns (w: Word)
    requires |cs| < WORDS
    ensures SwitchTarget(cs, d, w) == d
  {
    var xs := seq(|cs|, k requires 0 <= k < |cs| => cs[k].0 as int);
    var n := LeftOver(WORDS, xs);
    w := n;
    forall k | 0 <= k < |cs| ensures cs[k].0 != w { assert xs[k] in xs; }
    DefaultTaken(cs, d, w);
  }

  /** Where a frame goes, the terminator goes for the value that the frame holds. */
  lemma TakenGiven(fr: Frame, i: Instr, t: nat)
    requires BranchTarget(fr, i) == Some(t)
    ensures GoesTo(i, t)
  {
    match i
    case Br(_) => assert BranchTarget(Blank(), Given(i, 0)) == Some(t);
    case CondBr(c, _, _) => assert BranchTarget(Blank(), Given(i, Eval(fr, c).value.w)) == Some(t);
    case Switch(o, _, _) => assert BranchTarget(Blank(), Given(i, Eval(fr, o).value.w)) == Some(t);
  }

  lemma SwitchListed(i: Instr, t: nat)
    requires i.Switch? && t in Targets(i)
    ensures t == i.default || exists k :: 0 <= k < |i.cases| && i.cases[k].1 == t
  {
    if t != i.default {
      var k :| 0 <= k < |i.cases| && Seconds(i.cases)[k] == t;
      assert i.cases[k].1 == t;
    }
  }

  lemma SwitchTaken(i: Instr, t: nat)
    requires i.Switch? && t in Targets(i) && SwitchOk(i)
    ensures GoesTo(i, t)
  {
    hide SwitchTarget;
    var d, cs := i.default, i.cases;
    var w: Word := 0;
    if t == d {
      w := DefaultReached(cs, d);
    } else {
      SwitchListed(i, t);
      var k :| 0 <= k < |cs| && cs[k].1 == t;
      CaseTaken(cs, d, k);
      w := cs[k].0;
    }
    assert Given(i, w) == Switch(Const(IntV(w)), d, cs);
    assert BranchTarget(Blank(), Given(i, w)) == Some(t);
  }

  lemma TargetTaken(i: Instr, t: nat)
    requires t in Targets(i) && SwitchOk(i)
    ensures GoesTo(i, t)
  {
    hide SwitchOk, SwitchTarget;
    match i
    case Br(_) => assert BranchTarget(Blank(), Given(i, 0)) == Some(t);
    case CondBr(_, thn, _) => assert BranchTarget(Blank(), Given(i, if t == thn then 1 else 0)) == Some(t);
    case Switch(_, _, _) => SwitchTaken(i, t);
  }

  function Last(f: Fn, b: nat): Instr
    requires b < |f.blocks| && f.blocks[b] != []
  {
    f.blocks[b][|f.blocks[b]| - 1]
  }

  /** A block's successor list holds whatever its terminator goes to in some frame, and nothing that it
      goes to for no value. */
  lemma EdgesExactly(m: Module, f: Fn, b: nat, t: nat)
    requires FnOk(m, f) && b < |f.blocks|
    ensures f.blocks[b] != []
    ensures forall fr: Frame :: BranchTarget(fr, Last(f, b)) == Some(t) ==> t in CfgOf(f)[b] && GoesTo(Last(f, b), t)
    ensures SwitchOk(Last(f, b)) ==> (t in CfgOf(f)[b] <==> GoesTo(Last(f, b), t))
    ensures t in CfgOf(f)[b] && !GoesTo(Last(f, b), t) ==>
      && Last(f, b).Switch?
      && (t == Last(f, b).default || exists k :: 0 <= k < |Last(f, b).cases| && Last(f, b).cases[k].1 == t)
  {
    assert BlockOk(f.blocks[b]);
    var i := Last(f, b);
    forall fr: Frame | BranchTarget(fr, i) == Some(t) ensures GoesTo(i, t) { TakenGiven(fr, i, t); }
    if GoesTo(i, t) {
      var w: Word :| BranchTarget(Blank(), Given(i, w)) == Some(t);
      GivenListed(i, w, t);
    }
    if t in Targets(i) {
      if SwitchOk(i) {
        TargetTaken(i, t);
      } else {
        SwitchListed(i, t);
      }
    }
  }

  lemma GivenListed(i: Instr, w: Word, t: nat)
    requires BranchTarget(Blank(), Given(i, w)) == Some(t)
    ensures t in Targets(i)
  {
    assert Targets(Given(i, w)) == Targets(i);
  }

  // ---------- the dump of a function ----------

  /** Control can go along `p`, each terminator for some value. */
  ghost predicate ControlPath(f: Fn, a: nat, b: nat, p: seq<nat>) {
    && p != [] && p[0] == a && p[|p| - 1] == b
    && (forall i :: 0 <= i < |p| ==> p[i] < |f.blocks| && f.blocks[p[i]] != [])
    && (forall i :: 0 <= i < |p| - 1 ==> GoesTo(Last(f, p[i]), p[i + 1]))
  }

  predicate SwitchesOk(f: Fn) {
    forall b :: 0 <= b < |f.blocks| && f.blocks[b] != [] ==> SwitchOk(Last(f, b))
  }

  lemma GraphPaths(m: Module, f: Fn, a: nat, b: nat, p: seq<nat>)
    requires FnOk(m, f) && SwitchesOk(f)
    ensures IsPath(CfgOf(f), a, b, p) <==> ControlPath(f, a, b, p)
  {
    hide GoesTo, CfgOf, SwitchOk, FnOk, Last;
    forall i | 0 <= i < |p| && p[i] < |f.blocks|
      ensures f.blocks[p[i]] != []
      ensures i < |p| - 1 ==> (p[i + 1] in CfgOf(f)[p[i]] <==> GoesTo(Last(f, p[i]), p[i + 1]))
    {
      EdgesExactly(m, f, p[i], if i < |p| - 1 then p[i + 1] else 0);
    }
  }

  /** One row for every block of the function, in order: the other blocks that control can come to from
      there, in order. */
  method TraverseFunction(f: Fn, ghost m: Module) returns (rows: seq<seq<nat>>)
    requires FnOk(m, f) && SwitchesOk(f)
    ensures |rows| == |f.blocks|
    ensures forall i, j: nat :: 0 <= i < |f.blocks| ==>
      (j in rows[i] <==> j != i && exists p :: ControlPath(f, i, j, p))
    ensures forall i, k, l :: 0 <= i < |rows| && 0 <= k < l < |rows[i]| ==> rows[i][k] < rows[i][l]
  {
    hide FnOk, CfgOf, SwitchesOk, ControlPath, IsPath;
    assert CfgOk(CfgOf(f)) by { CfgKept(m, f); }
    rows := TraversePath(CfgOf(f));
    forall i, j: nat | 0 <= i < |f.blocks|
      ensures j in rows[i] <==> j != i && exists p :: ControlPath(f, i, j, p)
    {
      ReachControl(m, f, i, j);
    }
  }

  lemma ReachControl(m: Module, f: Fn, a: nat, b: nat)
    requires FnOk(m, f) && SwitchesOk(f)
    ensures Reach(CfgOf(f), a, b) <==> exists p :: ControlPath(f, a, b, p)
    ensures Reach(CfgOf(f), a, b) ==> b < |f.blocks|
  {
    hide FnOk, SwitchesOk, ControlPath, CfgOf;
    if p :| IsPath(CfgOf(f), a, b, p) {
      GraphPaths(m, f, a, b, p);
    }
    if p :| ControlPath(f, a, b, p) {
      GraphPaths(m, f, a, b, p);
      assert IsPath(CfgOf(f), a, b, p);
    }
  }

  // ---------- runs ----------

  function PlaceOf(f: Frame): (string, nat) {
    (f.fn, f.blk)
  }

  /** The first `n` frames are in the same blocks. */
  predicate SamePlaces(s: State, r: State, n: nat) {
    n <= |s.frames| && n <= |r.frames| && forall i :: 0 <= i < n ==> PlaceOf(r.frames[i]) == PlaceOf(s.frames[i])
  }

  predicate Stays(s: State, r: State) {
    r.log == s.log && |r.frames| == |s.frames| && SamePlaces(s, r, |s.frames|)
  }

  predicate Enters(m: Module, s: State, r: State) {
    && |r.frames| == |s.frames| + 1 && SamePlaces(s, r, |s.frames|)
    && Defined(m, Top(r).fn) && Top(r).blk == 0 && r.log == s.log + [(Top(r).fn, 0)]
  }

  predicate Leaves(s: State, r: State) {
    r.log == s.log && s.frames != [] && |r.frames| == |s.frames| - 1 && SamePlaces(s, r, |r.frames|)
  }

  predicate Branches(m: Module, s: State, r: State) {
    && s.frames != [] && |r.frames| == |s.frames| && SamePlaces(s, r, |s.frames| - 1)
    && Top(r).fn == Top(s).fn && r.log == s.log + [PlaceOf(Top(r))]
    && Lookup(m, Top(s).fn).Some?
    && Top(s).blk < |CfgOf(Lookup(m, Top(s).fn).value)|
    && Top(r).blk in CfgOf(Lookup(m, Top(s).fn).value)[Top(s).blk]
  }

  predicate Moves(m: Module, s: State, r: State) {
    Stays(s, r) || Enters(m, s, r) || Leaves(s, r) || Branches(m, s, r)
  }

  lemma InvokeMoves(m: Module, env: Env, s: State, caller: string, name: string, vals: seq<Val>, dest: Option<nat>)
    ensures Moves(m, s, Invoke(m, env, s, caller, name, vals, dest))
  {
    var r := Invoke(m, env, s, caller, name, vals, dest);
    if Defined(m, name) && Accepts(Lookup(m, name).value.sig, |vals|) {
      assert r.frames == s.frames + [Frame(name, 0, 0, vals, map[], dest)];
      assert Enters(m, s, r);
    } else {
      assert Stays(s, r);
    }
  }

  lemma CallMoves(m: Module, env: Env, s: State, i: Instr)
    requires s.frames != [] && i.Call?
    ensures Moves(m, s, CallStep(m, env, s, i))
  {
    hide Invoke, Moves, EvalAll, Eval;
    var f := Top(s);
    var c, vals := Eval(f, i.callee), EvalAll(f, i.args);
    StuckMoves(m, s);
    if c.Some? && c.value.FnV? && vals.Some? {
      var p := SetTop(s, f.(ip := f.ip + 1));
      InvokeMoves(m, env, p, f.fn, c.value.fn, vals.value, Some(i.id));
      AdvancedMoves(m, s, Invoke(m, env, p, f.fn, c.value.fn, vals.value, Some(i.id)));
    }
  }

  lemma StuckMoves(m: Module, s: State)
    ensures Moves(m, s, Stuck(s))
  {
  }

  lemma AdvancedMoves(m: Module, s: State, r: State)
    requires s.frames != [] && Moves(m, SetTop(s, Top(s).(ip := Top(s).ip + 1)), r)
    ensures Moves(m, s, r)
  {
    var p := SetTop(s, Top(s).(ip := Top(s).ip + 1));
    assert SamePlaces(s, p, |s.frames|);
  }

  lemma RetMoves(m: Module, s: State, i: Instr)
    requires s.frames != [] && i.Ret?
    ensures Moves(m, s, RetStep(s, i))
  {
    var r := RetStep(s, i);
    assert Stays(s, r) || Leaves(s, r);
  }

  lemma BranchMoves(m: Module, s: State, i: Instr)
    requires ModuleOk(m) && s.frames != [] && FrameGood(m, m, Top(s)) && Fetch(m, Top(s)) == Some(i) && IsTerm(i)
    ensures Moves(m, s, BranchStep(m, s, i))
  {
    hide ModuleIn, FnOk, FrameGood, BlockOk, GoesTo, SwitchOk, CfgOf;
    var f := Top(s);
    FetchGood(m, m, f);
    FnOkOf(m, m, f.fn);
    var d := Lookup(m, f.fn).value;
    var t := BranchTarget(f, i);
    if t.Some? {
      PlaceGood(m, f);
      EdgesExactly(m, d, f.blk, t.value);
      var j := Jump(d, f, t.value);
      if j.Some? {
        assert Branches(m, s, BranchStep(m, s, i));
      } else {
        StuckMoves(m, s);
      }
    }
  }

  lemma PlaceGood(m: Module, f: Frame)
    requires FrameGood(m, m, f)
    ensures Lookup(m, f.fn).Some? && f.blk < |Lookup(m, f.fn).value.blocks|
  {
  }

  lemma LocalMoves(m: Module, s: State, i: Instr)
    requires s.frames != []
    ensures Moves(m, s, LocalStep(s, i))
  {
    hide Local;
    assert Stays(s, LocalStep(s, i));
  }

  lemma StepMoves(m: Module, env: Env, s: State)
    requires ModuleOk(m) && Good(m, m, s)
    ensures Moves(m, s, Step(m, env, s))
  {
    hide CallStep, RetStep, BranchStep, LocalStep, Invoke, Moves, ModuleIn, Good;
    StuckMoves(m, s);
    SameMoves(m, s);
    if s.phase.Done? || s.phase.Undef? {
    } else if AtExitBase(s) {
      if s.handlers != [] {
        var p := s.(handlers := s.handlers[..|s.handlers| - 1]);
        InvokeMoves(m, env, p, "", s.handlers[|s.handlers| - 1], [], None);
        HandlersMove(m, s, p, Invoke(m, env, p, "", s.handlers[|s.handlers| - 1], [], None));
      }
    } else if s.frames != [] {
      TopGood(m, m, s);
      FetchGood(m, m, Top(s));
      var i := Fetch(m, Top(s)).value;
      if i.Call? {
        CallMoves(m, env, s, i);
      } else if i.Ret? {
        RetMoves(m, s, i);
      } else if IsTerm(i) {
        BranchMoves(m, s, i);
      } else {
        LocalMoves(m, s, i);
      }
    }
  }

  lemma SameMoves(m: Module, s: State)
    ensures Moves(m, s, s)
    ensures s.phase.Exiting? ==> Moves(m, s, s.(phase := Done(s.phase.code)))
  {
  }

  lemma HandlersMove(m: Module, s: State, p: State, r: State)
    requires p.frames == s.frames && p.log == s.log && Moves(m, p, r)
    ensures Moves(m, s, r)
  {
    hide CfgOf;
    if s.frames != [] {
      assert Top(p) == Top(s);
    }
  }

  /** For every frame the blocks that it has entered, kept from step to step by looking at the log. */
  function Follow(trails: seq<seq<nat>>, s: State, r: State): seq<seq<nat>> {
    if |r.frames| < |trails| then trails[..|r.frames|]
    else if |r.log| <= |s.log| then trails
    else
      var entered := r.log[|r.log| - 1].1;
      if |r.frames| > |trails| then trails + [[entered]]
      else if trails == [] then []
      else trails[|trails| - 1 := trails[|trails| - 1] + [entered]]
  }

  function Trails(m: Module, env: Env, args: seq<Val>, n: nat): seq<seq<nat>> {
    if n == 0 then Follow([], Init(m, args).(log := []), Init(m, args))
    else Follow(Trails(m, env, args, n - 1), Run(m, env, Init(m, args), n - 1), Run(m, env, Init(m, args), n))
  }

  /** Every trail is a walk from the entry of its function to the block its frame is in. */
  predicate Followed(m: Module, s: State, trails: seq<seq<nat>>) {
    && |trails| == |s.frames|
    && forall i :: 0 <= i < |trails| ==> Walked(m, s.frames[i], trails[i])
  }

  predicate Walked(m: Module, f: Frame, p: seq<nat>) {
    Lookup(m, f.fn).Some? && IsPath(CfgOf(Lookup(m, f.fn).value), 0, f.blk, p)
  }

  /** Every block in the log can be reached from the entry of its function. */
  ghost predicate LogReachable(m: Module, log: seq<(string, nat)>) {
    forall i :: 0 <= i < |log| ==> Lookup(m, log[i].0).Some? && Reach(CfgOf(Lookup(m, log[i].0).value), 0, log[i].1)
  }

  lemma LongerWalk(g: Cfg, a: nat, b: nat, p: seq<nat>, t: nat)
    requires CfgOk(g) && IsPath(g, a, b, p) && t in g[b]
    ensures IsPath(g, a, t, p + [t])
  {
    var q := p + [t];
    forall i | 0 <= i < |q| - 1 ensures q[i + 1] in g[q[i]] {
      if i < |p| - 1 {
        assert p[i + 1] in g[p[i]];
      }
    }
  }

  lemma EntryWalked(m: Module, f: Frame)
    requires Defined(m, f.fn) && f.blk == 0
    ensures Walked(m, f, [0]) && Reach(CfgOf(Lookup(m, f.fn).value), 0, 0)
  {
    assert IsPath(CfgOf(Lookup(m, f.fn).value), 0, 0, [0]);
  }

  lemma StepFollowed(m: Module, s: State, r: State, trails: seq<seq<nat>>)
    requires ModuleOk(m) && Moves(m, s, r) && Followed(m, s, trails) && LogReachable(m, s.log)
    ensures Followed(m, r, Follow(trails, s, r)) && LogReachable(m, r.log)
  {
    hide ModuleIn, IsPath, CfgOf, Reach;
    if Enters(m, s, r) {
      EntryWalked(m, Top(r));
    } else if Branches(m, s, r) {
      var d := Lookup(m, Top(s).fn).value;
      var p := trails[|trails| - 1];
      assert Walked(m, Top(s), p);
      GraphOk(m, Top(s).fn);
      LongerWalk(CfgOf(d), 0, Top(s).blk, p, Top(r).blk);
      PathReach(CfgOf(d), 0, Top(r).blk, p + [Top(r).blk]);
    }
  }

  lemma PathReach(g: Cfg, a: nat, b: nat, p: seq<nat>)
    requires IsPath(g, a, b, p)
    ensures Reach(g, a, b)
  {
  }

  lemma GraphOk(m: Module, n: string)
    requires ModuleOk(m) && Lookup(m, n).Some?
    ensures CfgOk(CfgOf(Lookup(m, n).value))
  {
    hide ModuleIn;
    FnOkOf(m, m, n);
    CfgKept(m, Lookup(m, n).value);
  }

  /** In every run the blocks that a frame enters form a walk of its function's graph that starts at the
      entry, and every block in the log is one that the path search finds from the entry. */
  lemma {:induction false} RunFollowed(m: Module, env: Env, args: seq<Val>, n: nat)
    requires ModuleOk(m) && ValsGood(m, args) && Defined(m, "main") && |Lookup(m, "main").value.sig.params| == |args|
    ensures Followed(m, Run(m, env, Init(m, args), n), Trails(m, env, args, n))
    ensures LogReachable(m, Run(m, env, Init(m, args), n).log)
  {
    hide Step, ModuleIn, Followed, LogReachable, Follow, Moves, Good;
    if n == 0 {
      InitFollowed(m, args);
    } else {
      hide Init;
      RunFollowed(m, env, args, n - 1);
      RunGood(m, m, env, args, n - 1);
      StepMoves(m, env, Run(m, env, Init(m, args), n - 1));
      StepFollowed(m, Run(m, env, Init(m, args), n - 1), Run(m, env, Init(m, args), n), Trails(m, env, args, n - 1));
    }
  }

  lemma InitFollowed(m: Module, args: seq<Val>)
    requires Defined(m, "main") && |Lookup(m, "main").value.sig.params| == |args|
    ensures var s := Init(m, args); Followed(m, s, Follow([], s.(log := []), s)) && LogReachable(m, s.log)
  {
    hide CfgOf, IsPath, Reach, InitMem;
    EntryWalked(m, Frame("main", 0, 0, args, map[], None));
  }
}
