/** The registered handler at program exit: four steps that report the counter and nothing else. */
module Exit {
  import opened Wrappers
  import opened IR
  import opened Machine
  import opened CountBB
  import opened Simulation
  import opened Counting

  function Report(w: Val): Event {
    Event(HANDLER, "printf", [StrV(FORMAT), w])
  }

  function ReportFrame(k: nat, regs: map<nat, Val>): Frame {
    Frame(HANDLER, 0, k, [], regs, None)
  }

  /** The state after `k` steps of the handler, started from `r` by taking it off the list. */
  function Reporting(env: Env, r: State, c: Val, k: nat): State
    requires r.handlers != [] && 1 <= k <= 4
  {
    var q := r.(handlers := r.handlers[..|r.handlers|-1], log := r.log + [(HANDLER, 0)]);
    var p := q.(trace := r.trace + [Report(c)]);
    match k
    case 1 => q.(frames := r.frames + [ReportFrame(0, map[])])
    case 2 => q.(frames := r.frames + [ReportFrame(1, map[0 := c])])
    case 3 => p.(frames := r.frames + [ReportFrame(2, map[0 := c, 1 := IntV(env.output([StrV(FORMAT), c]))])])
    case 4 => p
  }

  /** A handler that reports the variable `x`. */
  function ReportOf(x: string): Fn {
    Fn(HANDLER, HANDLER_SIG, [ReportBlock(x, 0)], 2)
  }

  /** The handler is due, and the variable it reports holds `c`. */
  ghost predicate Due(t: Module, r: State, x: string, c: Val) {
    && AtExitBase(r) && |r.frames| == r.phase.base
    && r.handlers != [] && r.handlers[|r.handlers|-1] == HANDLER
    && GlobalA(x) in r.mem && r.mem[GlobalA(x)] == c
    && Lookup(t, HANDLER) == Some(ReportOf(x))
    && DeclaredAs(t, "printf", PRINTF_SIG)
  }

  lemma ReportFetch(t: Module, x: string, k: nat, regs: map<nat, Val>)
    requires Lookup(t, HANDLER) == Some(ReportOf(x)) && k < 3
    ensures Fetch(t, ReportFrame(k, regs)) == Some(ReportBlock(x, 0)[k])
  {
  }

  lemma ReportEnter(t: Module, env: Env, r: State, x: string, c: Val)
    requires Due(t, r, x, c)
    ensures Step(t, env, r) == Reporting(env, r, c, 1)
  {
  }

  lemma ReportLoad(t: Module, env: Env, r: State, x: string, c: Val)
    requires Due(t, r, x, c)
    ensures Step(t, env, Reporting(env, r, c, 1)) == Reporting(env, r, c, 2)
  {
    var q := Reporting(env, r, c, 1);
    ReportFetch(t, x, 0, map[]);
    assert Local(Top(q), q.mem, q.cells, ReportBlock(x, 0)[0]) == Some(Effect(map[0 := c], q.mem, q.cells));
    InsertedStep(t, env, q, ReportBlock(x, 0)[0]);
    assert SetTop(q, ReportFrame(1, map[0 := c])).frames == r.frames + [ReportFrame(1, map[0 := c])];
  }

  lemma ReportPrint(t: Module, env: Env, r: State, x: string, c: Val)
    requires Due(t, r, x, c)
    ensures Step(t, env, Reporting(env, r, c, 2)) == Reporting(env, r, c, 3)
  {
    var v := IntV(env.output([StrV(FORMAT), c]));
    var q := Reporting(env, r, c, 2);
    ReportFetch(t, x, 1, map[0 := c]);
    var i := ReportBlock(x, 0)[1];
    EvalAllTwo(Top(q), i.args[0], i.args[1]);
    var p := SetTop(q, ReportFrame(2, map[0 := c]));
    var e := p.(trace := p.trace + [Report(c)]);
    assert Invoke(t, env, p, HANDLER, "printf", [StrV(FORMAT), c], Some(1)) == Deliver(e, Some(1), v);
    assert CallStep(t, env, q, i) == Deliver(e, Some(1), v);
    assert map[0 := c][1 := v] == map[0 := c, 1 := v];
    assert Deliver(e, Some(1), v).frames
        == r.frames + [ReportFrame(2, map[0 := c, 1 := v])];
  }

  lemma ReportReturn(t: Module, env: Env, r: State, x: string, c: Val)
    requires Due(t, r, x, c)
    ensures Step(t, env, Reporting(env, r, c, 3)) == Reporting(env, r, c, 4)
  {
    var q := Reporting(env, r, c, 3);
    ReportFetch(t, x, 2, map[0 := c, 1 := IntV(env.output([StrV(FORMAT), c]))]);
    assert q.frames[..|q.frames|-1] == r.frames;
  }

  lemma ReportRun(t: Module, env: Env, r: State, x: string, c: Val, k: nat)
    requires Due(t, r, x, c) && 1 <= k <= 4
    ensures Run(t, env, r, k) == Reporting(env, r, c, k)
  {
    hide Step, Reporting, Due;
    ReportEnter(t, env, r, x, c);
    assert Run(t, env, r, 0) == r;
    if k > 1 {
      ReportRun(t, env, r, x, c, k - 1);
      if k == 2 {
        ReportLoad(t, env, r, x, c);
      } else if k == 3 {
        ReportPrint(t, env, r, x, c);
      } else {
        ReportReturn(t, env, r, x, c);
      }
    }
  }

  // ---------- all handlers that are due at once ----------

  /** How many registrations of the handler stand at the end of the list. */
  function Trailing(hs: seq<string>): (n: nat)
    ensures n <= |hs|
  {
    if hs != [] && hs[|hs|-1] == HANDLER then 1 + Trailing(hs[..|hs|-1]) else 0
  }

  function Reports(c: Val, n: nat): (r: seq<Event>)
    ensures |r| == n && forall i :: 0 <= i < n ==> r[i] == Report(c)
  {
    seq(n, _ => Report(c))
  }

  lemma {:induction false} TrailingShape(hs: seq<string>)
    ensures forall i :: |hs| - Trailing(hs) <= i < |hs| ==> hs[i] == HANDLER
    ensures Trailing(hs) < |hs| ==> hs[|hs| - Trailing(hs) - 1] != HANDLER
    ensures UserHandlers(hs[..|hs| - Trailing(hs)]) == UserHandlers(hs)
  {
    if hs != [] && hs[|hs|-1] == HANDLER {
      var init := hs[..|hs|-1];
      TrailingShape(init);
      assert init[..|init| - Trailing(init)] == hs[..|hs| - Trailing(hs)];
    } else {
      assert hs[..|hs|] == hs;
    }
  }

  /** One report does not disturb the relation. */
  lemma ReportedMatch(m: Module, t: Module, env: Env, s: State, r: State)
    requires Setting(m, t) && Match(m, s, r) && AtExitBase(s) && |s.frames| == s.phase.base
    requires r.handlers != [] && r.handlers[|r.handlers|-1] == HANDLER
    ensures Due(t, r, COUNTER, Count(s, 0))
    ensures Match(m, s, Reporting(env, r, Count(s, 0), 4))
  {
    SyncCounter(m, s, r, TopIp(s), 0);
    VisiblePush(r.trace, Report(Count(s, 0)));
    UserLogPush(r.log, (HANDLER, 0));
  }

  lemma {:induction false} ReportAll(m: Module, t: Module, env: Env, s: State, r: State)
    requires Setting(m, t) && Match(m, s, r) && AtExitBase(s) && |s.frames| == s.phase.base
    ensures var n := Trailing(r.handlers);
      var r' := Run(t, env, r, 4 * n);
      && Match(m, s, r')
      && r'.handlers == r.handlers[..|r.handlers| - n]
      && r'.trace == r.trace + Reports(Count(s, 0), n)
    decreases |r.handlers|
  {
    hide Step, Match, Setting, Due;
    if r.handlers != [] && r.handlers[|r.handlers|-1] == HANDLER {
      var c := Count(s, 0);
      ReportedMatch(m, t, env, s, r);
      ReportRun(t, env, r, COUNTER, c, 4);
      var q := Reporting(env, r, c, 4);
      ReportAll(m, t, env, s, q);
      var n := Trailing(q.handlers);
      RunCompose(t, env, r, 4, 4 * n);
      assert q.handlers[..|q.handlers| - n] == r.handlers[..|r.handlers| - (n + 1)];
      assert r.trace + [Report(c)] + Reports(c, n) == r.trace + Reports(c, n + 1);
    } else {
      assert r.handlers[..|r.handlers|] == r.handlers;
      assert r.trace + Reports(Count(s, 0), 0) == r.trace;
      assert Run(t, env, r, 0) == r;
    }
  }
}
