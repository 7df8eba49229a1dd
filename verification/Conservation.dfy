/** What holds at every state of the instrumented run, also between two original instructions. */
module Conservation {
  import opened IR
  import opened Machine
  import opened CountBB
  import opened Invariant
  import opened Simulation
  import opened Counting
  import opened Exit

  /** The frame's block is not finished: its inserted store is still to come. */
  predicate Pending(t: Module, f: Frame) {
    var d := Lookup(t, f.fn);
    f.fn != HANDLER && d.Some? && f.blk < |d.value.blocks| && f.ip + 1 < |d.value.blocks[f.blk]|
  }

  function PendingCount(t: Module, fs: seq<Frame>): (n: nat)
    ensures n <= |fs|
  {
    if fs == [] then 0
    else PendingCount(t, fs[..|fs|-1]) + if Pending(t, fs[|fs|-1]) then 1 else 0
  }

  /** Blocks entered outside the handler are those counted plus those still unfinished. */
  predicate Conserved(t: Module, x: State) {
    && GlobalA(COUNTER) in x.mem && x.mem[GlobalA(COUNTER)].IntV?
    && |UserLog(x.log)| % WORDS == (x.mem[GlobalA(COUNTER)].w + PendingCount(t, x.frames)) % WORDS
    && PendingCount(t, x.frames) <= |UserLog(x.log)|
  }

  /** The instrumented state `x` shows the outside what `s` shows, and its count adds up. */
  predicate Tracks(t: Module, s: State, x: State) {
    Visible(x.trace) == s.trace && UserLog(x.log) == s.log && Conserved(t, x)
  }

  lemma WordSum(x: int, a: int, b: int)
    requires x == a + b
    ensures (a % WORDS + b) % WORDS == x % WORDS
  {
  }

  /** Every frame at an instruction boundary is unfinished. */
  lemma BoundaryPending(m: Module, t: Module, fs: Frame, ft: Frame)
    requires Setting(m, t) && FrameGood(m, m, fs) && FrameMatch(m, fs, ft, BoundaryIp(fs))
    ensures Pending(t, ft)
  {
    FnOkOf(m, m, fs.fn);
    BlockShape(Lookup(m, fs.fn).value, fs.blk);
  }

  lemma {:induction false} BoundaryPendingAll(m: Module, t: Module, fs: seq<Frame>, ts: seq<Frame>)
    requires Setting(m, t) && |fs| == |ts|
    requires forall i :: 0 <= i < |fs| ==> FrameGood(m, m, fs[i]) && FrameMatch(m, fs[i], ts[i], BoundaryIp(fs[i]))
    ensures PendingCount(t, ts) == |ts|
  {
    hide Setting, FrameGood, FrameMatch, Pending;
    if fs != [] {
      var n := |fs| - 1;
      BoundaryPendingAll(m, t, fs[..n], ts[..n]);
      assert FrameGood(m, m, fs[n]) && FrameMatch(m, fs[n], ts[n], BoundaryIp(fs[n]));
      BoundaryPending(m, t, fs[n], ts[n]);
    }
  }

  /** A state in step with `s` that is inside the inserted instructions or at a boundary. */
  predicate Between(m: Module, t: Module, s: State, x: State, ip: nat, extra: nat) {
    && Sync(m, s, x, ip, extra)
    && extra <= 1
    && (s.frames == [] ==> extra == 0)
    && (s.frames != [] ==> (Pending(t, Top(s).(ip := ip)) <==> extra == 0))
  }

  lemma BetweenTracks(m: Module, t: Module, s: State, x: State, ip: nat, extra: nat)
    requires Setting(m, t) && Good(m, m, s) && Between(m, t, s, x, ip, extra)
    ensures Tracks(t, s, x)
  {
    hide Setting, FrameGood, FramesMatch, PendingCount;
    SyncCounter(m, s, x, ip, extra);
    BetweenPending(m, t, s, x, ip, extra);
    WordSum(|s.log|, Completed(s) + extra, |s.frames| - extra);
  }

  lemma BetweenPending(m: Module, t: Module, s: State, x: State, ip: nat, extra: nat)
    requires Setting(m, t) && Good(m, m, s) && Between(m, t, s, x, ip, extra)
    ensures PendingCount(t, x.frames) == |s.frames| - extra
  {
    hide Setting, FrameGood, RegsMatch, CounterIs, UserLog, UserHandlers, Visible, MemGood, DestGood;
    if s.frames != [] {
      var n := |s.frames| - 1;
      BoundaryPendingAll(m, t, s.frames[..n], x.frames[..n]);
      SyncTop(m, s, x, ip, extra);
      assert Pending(t, Top(x)) <==> Pending(t, Top(s).(ip := ip));
    }
  }

  lemma MatchTracks(m: Module, t: Module, s: State, x: State)
    requires Setting(m, t) && Good(m, m, s) && Match(m, s, x)
    ensures Tracks(t, s, x)
  {
    if s.frames != [] {
      TopGood(m, m, s);
      SyncTop(m, s, x, TopIp(s), 0);
      BoundaryPending(m, t, Top(s), Top(x));
      assert Pending(t, Top(x)) <==> Pending(t, Top(s).(ip := TopIp(s)));
    }
    BetweenTracks(m, t, s, x, TopIp(s), 0);
  }

  lemma NotPending(t: Module, f: Frame)
    requires f.fn == HANDLER
    ensures !Pending(t, f)
  {
  }

  /** A running handler is not counted and shows nothing. */
  lemma ReportingTracks(m: Module, t: Module, env: Env, s: State, r: State, c: Val, k: nat)
    requires Setting(m, t) && Good(m, m, s) && Match(m, s, r) && r.handlers != [] && 1 <= k <= 4
    ensures Tracks(t, s, Reporting(env, r, c, k))
  {
    hide Setting, Good, Match, Pending, UserLog, Visible;
    MatchTracks(m, t, s, r);
    UserLogPush(r.log, (HANDLER, 0));
    VisiblePush(r.trace, Report(c));
    ReportingParts(env, r, c, k);
    hide Reporting;
    var x := Reporting(env, r, c, k);
    if k < 4 {
      NotPending(t, x.frames[|r.frames|]);
    }
  }

  lemma ReportingParts(env: Env, r: State, c: Val, k: nat)
    requires r.handlers != [] && 1 <= k <= 4
    ensures var x := Reporting(env, r, c, k);
      && x.log == r.log + [(HANDLER, 0)] && (x.trace == r.trace || x.trace == r.trace + [Report(c)]) && x.mem == r.mem
      && (k == 4 ==> x.frames == r.frames)
      && (k < 4 ==> |x.frames| == |r.frames| + 1 && x.frames[..|r.frames|] == r.frames)
      && (k < 4 ==> x.frames[|r.frames|].fn == HANDLER)
  {
  }

  // ---------- before the original instruction ----------

  /** Extra steps of the instrumented machine before an original instruction. */
  function Prelude(m: Module, f: Frame): nat
    requires FrameGood(m, m, f)
  {
    (if NeedsReg(f) then 1 else 0) + if AtEnd(m, f) then 3 else 0
  }

  lemma NotHandler(m: Module, f: Frame)
    requires Fresh(m) && FrameGood(m, m, f)
    ensures f.fn != HANDLER
  {
  }

  lemma TickingTracks(m: Module, t: Module, s: State, x: State, k: nat)
    requires Setting(m, t) && Good(m, m, s) && Ticking(m, s, x, k)
    ensures Tracks(t, s, x)
  {
    hide Sync, Good, ModuleIn, FnOk, BlockOk, InstrDef, Fresh;
    var f := Top(s);
    BlockShape(Lookup(m, f.fn).value, f.blk) by { BlockOkOf(m, m, f.fn, f.blk); }
    NotHandler(m, f);
    assert Pending(t, f.(ip := LoadIp(m, f) + k));
    BetweenTracks(m, t, s, x, LoadIp(m, f) + k, 0);
  }

  lemma StoredTracks(m: Module, t: Module, s: State, x: State)
    requires Setting(m, t) && Good(m, m, s) && Live(s) && FrameGood(m, m, Top(s))
        && Sync(m, s, x, LoadIp(m, Top(s)) + 3, 1)
    ensures Tracks(t, s, x)
  {
    hide Sync, Good, ModuleIn, FnOk, BlockOk, InstrDef, Fresh;
    var f := Top(s);
    BlockShape(Lookup(m, f.fn).value, f.blk) by { BlockOkOf(m, m, f.fn, f.blk); }
    assert !Pending(t, f.(ip := LoadIp(m, f) + 3));
    BetweenTracks(m, t, s, x, LoadIp(m, f) + 3, 1);
  }

  lemma RegisteredTracks(m: Module, t: Module, s: State, x: State)
    requires Setting(m, t) && Good(m, m, s) && Live(s) && NeedsReg(Top(s)) && Sync(m, s, x, 1, 0)
    ensures Tracks(t, s, x)
  {
    hide Sync, Good;
    var f := Top(s);
    TopGood(m, m, s);
    FnOkOf(m, m, f.fn);
    BlockShape(Lookup(m, f.fn).value, f.blk);
    assert Pending(t, f.(ip := 1));
    BetweenTracks(m, t, s, x, 1, 0);
  }

  /** Load, add, store: three steps, each of them tracking `s`. */
  lemma IncrementRun(m: Module, t: Module, env: Env, s: State, r: State, k: nat)
    requires Setting(m, t) && Good(m, m, s) && Ticking(m, s, r, 0) && k <= 3
    ensures var x := Run(t, env, r, k);
      && (k < 3 ==> Ticking(m, s, x, k))
      && (k == 3 ==> Sync(m, s, x, LoadIp(m, Top(s)) + 3, 1))
      && Tracks(t, s, x) && x.handlers == r.handlers && x.trace == r.trace
  {
    hide Step, Sync, Setting, Good, Tracks, Ticking;
    if k == 0 {
      TickingTracks(m, t, s, r, 0);
    } else {
      IncrementRun(m, t, env, s, r, k - 1);
      TickingLive(m, s, r, 0);
      var x := Run(t, env, r, k - 1);
      if k == 1 {
        TickLoad(m, t, env, s, x);
        TickingTracks(m, t, s, Step(t, env, x), 1);
      } else if k == 2 {
        TickAdd(m, t, env, s, x);
        TickingTracks(m, t, s, Step(t, env, x), 2);
      } else {
        TickStore(m, t, env, s, x);
        StoredTracks(m, t, s, Step(t, env, x));
      }
    }
  }

  lemma TickingLive(m: Module, s: State, r: State, k: nat)
    requires Ticking(m, s, r, k)
    ensures Live(s) && FrameGood(m, m, Top(s)) && Sync(m, s, r, LoadIp(m, Top(s)) + k, 0)
  {
  }

  /** The registration of the handler, when main has just been entered. */
  lemma RegisterRun(m: Module, t: Module, env: Env, s: State, r: State)
    requires Setting(m, t) && Good(m, m, s) && Live(s) && Match(m, s, r) && FrameGood(m, m, Top(s))
    ensures var x := Run(t, env, r, if NeedsReg(Top(s)) then 1 else 0);
      && Sync(m, s, x, Top(s).ip + Shift(Lookup(m, Top(s).fn).value, Top(s).blk), 0)
      && Tracks(t, s, x)
      && x.handlers == r.handlers + (if NeedsReg(Top(s)) then [HANDLER] else [])
      && x.trace == r.trace
  {
    hide Step, Sync, Setting, Good, Tracks;
    MatchTracks(m, t, s, r);
    if NeedsReg(Top(s)) {
      assert Run(t, env, r, 0) == r && Run(t, env, r, 1) == Step(t, env, Run(t, env, r, 0));
      RegisterStep(m, t, env, s, r);
      RegisteredTracks(m, t, s, Step(t, env, r));
    } else {
      assert r.handlers + [] == r.handlers;
    }
  }

  /** The whole prelude ends where both machines run the same instruction. */
  lemma PreludeRun(m: Module, t: Module, env: Env, s: State, r: State, k: nat)
    requires Setting(m, t) && Good(m, m, s) && Live(s) && Match(m, s, r) && FrameGood(m, m, Top(s))
        && k <= Prelude(m, Top(s))
    ensures var x := Run(t, env, r, k);
      && Tracks(t, s, x)
      && (k == Prelude(m, Top(s)) ==>
            && Sync(m, s, x, ReadyIp(m, Top(s)), if AtEnd(m, Top(s)) then 1 else 0)
            && x.handlers == r.handlers + (if NeedsReg(Top(s)) then [HANDLER] else [])
            && x.trace == r.trace)
  {
    hide Step, Sync, Setting, Good, Tracks, Match, FrameGood;
    var g := if NeedsReg(Top(s)) then 1 else 0;
    RegisterRun(m, t, env, s, r);
    if k < g {
      MatchTracks(m, t, s, r);
      assert Run(t, env, r, 0) == r;
    } else {
      var x := Run(t, env, r, g);
      RunCompose(t, env, r, g, k - g);
      if AtEnd(m, Top(s)) {
        IncrementRun(m, t, env, s, x, k - g);
      }
    }
  }
}
