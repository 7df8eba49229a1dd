/** One step of the original run against the instrumented run: how many steps it costs, that the
    increments and the registration happen in between, and what the counter holds meanwhile. */
module Counting {
  import opened Wrappers
  import opened IR
  import opened Machine
  import opened CountBB
  import opened Invariant
  import opened Simulation

  /** A frame is about to run an instruction. */
  predicate Live(s: State) {
    !s.phase.Done? && !s.phase.Undef? && !AtExitBase(s) && s.frames != []
  }

  lemma GrowthOfSteps(m: Module, env: Env, s: State, i: Instr)
    requires s.frames != [] && !i.Call?
    ensures var r := Exec(m, env, s, i); r.handlers == s.handlers && r.trace == s.trace
  {
  }

  /** The original instruction itself, run by both machines. */
  lemma SharedStep(m: Module, t: Module, env: Env, s: State, r: State)
    requires Setting(m, t) && Good(m, m, s) && Live(s) && FrameGood(m, m, Top(s))
    requires Sync(m, s, r, ReadyIp(m, Top(s)), if AtEnd(m, Top(s)) then 1 else 0)
    ensures var s2, r2 := Step(m, env, s), Step(t, env, r);
      && (s2.phase.Undef? <==> r2.phase.Undef?)
      && (s2.phase.Undef? ==> s2 == Stuck(s) && r2 == Stuck(r))
      && (!s2.phase.Undef? ==> Match(m, s2, r2) && SameGrowth(s, r, s2, r2))
  {
    hide CallStep, RetStep, BranchStep, LocalStep, Sync, Match, Good, ModuleIn, Fresh, Instrumented, Fetch;
    FetchGood(m, m, Top(s));
    SyncTop(m, s, r, ReadyIp(m, Top(s)), if AtEnd(m, Top(s)) then 1 else 0);
    SyncLive(m, s, r, ReadyIp(m, Top(s)), if AtEnd(m, Top(s)) then 1 else 0);
    ReadyFetch(m, t, Top(s), Top(r));
    var i := Fetch(m, Top(s)).value;
    if i.Call? {
      CallStepSync(m, t, env, s, r, i);
    } else {
      GrowthOfSteps(m, env, s, i);
      GrowthOfSteps(t, env, r, i);
      if i.Ret? {
        RetStepSync(m, t, s, r, i);
      } else if IsTerm(i) {
        BranchStepSync(m, t, s, r, i);
      } else {
        LocalStepSync(m, t, s, r, i);
      }
    }
  }

  lemma SyncLive(m: Module, s: State, r: State, ip: nat, extra: nat)
    requires Sync(m, s, r, ip, extra) && Live(s)
    ensures Live(r)
  {
  }

  // ---------- the inserted instructions ----------

  predicate NeedsReg(f: Frame) {
    f.fn == "main" && f.blk == 0 && f.ip == 0
  }

  /** The call that the pass puts in front of main registers the handler. */
  lemma RegisterStep(m: Module, t: Module, env: Env, s: State, r: State)
    requires Setting(m, t) && Good(m, m, s) && Live(s) && NeedsReg(Top(s)) && Match(m, s, r)
    ensures var r1 := Step(t, env, r);
      Sync(m, s, r1, 1, 0) && r1.handlers == r.handlers + [HANDLER] && r1.trace == r.trace
  {
    hide Sync, Step, FrameMatch, Good, ModuleIn, Fresh, BlockOk, FnOk, InstrDef;
    TopGood(m, m, s);
    SyncTop(m, s, r, 0, 0);
    SyncLive(m, s, r, 0, 0);
    var d := Lookup(m, "main").value;
    FnOkOf(m, m, "main");
    EntryFetch(m, t, s, r);
    AtexitStep(t, env, r, d.next);
    SyncAdvance(m, s, r, 0, d.next, IntV(0));
    var q := SetTop(r, Top(r).(ip := 1, regs := Top(r).regs[d.next := IntV(0)]));
    UserHandlersPush(q.handlers, HANDLER);
    SyncHandlers(m, s, q, 1);
  }

  lemma EntryFetch(m: Module, t: Module, s: State, r: State)
    requires Setting(m, t) && Live(s) && NeedsReg(Top(s)) && FrameGood(m, m, Top(s)) && Sync(m, s, r, 0, 0)
    ensures r.frames != [] && Fetch(t, Top(r)) == Some(AtexitCall(Lookup(m, "main").value.next))
  {
    SyncTop(m, s, r, 0, 0);
    FnOkOf(m, m, "main");
    BlockShape(Lookup(m, "main").value, 0);
  }

  lemma SyncHandlers(m: Module, s: State, q: State, ip: nat)
    requires Sync(m, s, q, ip, 0)
    ensures Sync(m, s, q.(handlers := q.handlers + [HANDLER]), ip, 0)
  {
    UserHandlersPush(q.handlers, HANDLER);
  }

  lemma EvalAllOne(f: Frame, o: Operand)
    ensures EvalAll(f, [o]) == if Eval(f, o).Some? then Some([Eval(f, o).value]) else None
  {
    assert [o][..|[o]| - 1] == [];
    if Eval(f, o).Some? {
      assert [] + [Eval(f, o).value] == [Eval(f, o).value];
    }
  }

  lemma EvalAllTwo(f: Frame, o: Operand, p: Operand)
    requires Eval(f, o).Some? && Eval(f, p).Some?
    ensures EvalAll(f, [o, p]) == Some([Eval(f, o).value, Eval(f, p).value])
  {
    EvalAllOne(f, o);
    assert [o, p][..|[o, p]| - 1] == [o];
    assert [Eval(f, o).value] + [Eval(f, p).value] == [Eval(f, o).value, Eval(f, p).value];
  }

  lemma AtexitStep(t: Module, env: Env, r: State, id: nat)
    requires Live(r) && Fetch(t, Top(r)) == Some(AtexitCall(id)) && DeclaredAs(t, "atexit", ATEXIT_SIG)
    ensures Step(t, env, r) ==
      SetTop(r, Top(r).(ip := Top(r).ip + 1, regs := Top(r).regs[id := IntV(0)])).(handlers := r.handlers + [HANDLER])
  {
    var i := AtexitCall(id);
    EvalAllOne(Top(r), i.args[0]);
    var p := SetTop(r, Top(r).(ip := Top(r).ip + 1));
    var q := p.(handlers := p.handlers + [HANDLER]);
    assert Invoke(t, env, p, Top(r).fn, "atexit", [FnV(HANDLER)], Some(id)) == Deliver(q, Some(id), IntV(0));
    assert CallStep(t, env, r, i) == Deliver(q, Some(id), IntV(0));
    var f := Top(r).(ip := Top(r).ip + 1, regs := Top(r).regs[id := IntV(0)]);
    assert Deliver(q, Some(id), IntV(0)).frames == SetTop(r, f).frames;
  }

  /** One of the three inserted instructions, as a step of the instrumented machine. */
  lemma InsertedStep(t: Module, env: Env, r: State, i: Instr)
    requires Live(r) && Fetch(t, Top(r)) == Some(i) && (i.Load? || i.Bin? || i.Store?)
    requires Local(Top(r), r.mem, r.cells, i).Some?
    ensures var e := Local(Top(r), r.mem, r.cells, i).value;
      Step(t, env, r) == SetTop(r, Top(r).(ip := Top(r).ip + 1, regs := e.regs)).(mem := e.mem, cells := e.cells)
  {
  }

  lemma LoadEffect(f: Frame, mem: map<Addr, Val>, cells: nat, id: nat)
    requires GlobalA(COUNTER) in mem
    ensures Local(f, mem, cells, Increment(COUNTER, id)[0])
         == Some(Effect(f.regs[id := mem[GlobalA(COUNTER)]], mem, cells))
  {
  }

  lemma AddEffect(f: Frame, mem: map<Addr, Val>, cells: nat, id: nat, x: int)
    requires id in f.regs && f.regs[id] == IntV(x % WORDS)
    ensures Local(f, mem, cells, Increment(COUNTER, id)[1])
         == Some(Effect(f.regs[id + 1 := IntV((x + 1) % WORDS)], mem, cells))
  {
    WordInc(x);
  }

  lemma StoreEffect(f: Frame, mem: map<Addr, Val>, cells: nat, id: nat)
    requires GlobalA(COUNTER) in mem && id + 1 in f.regs
    ensures Local(f, mem, cells, Increment(COUNTER, id)[2])
         == Some(Effect(f.regs, mem[GlobalA(COUNTER) := f.regs[id + 1]], cells))
  {
  }

  function Count(s: State, extra: nat): Val {
    IntV((Completed(s) + extra) % WORDS)
  }

  /** Where the first inserted instruction of the top frame's block is. */
  function LoadIp(m: Module, f: Frame): nat
    requires FrameGood(m, m, f)
  {
    BlockLen(m, f) - 1 + Shift(Lookup(m, f.fn).value, f.blk)
  }

  predicate Ticking(m: Module, s: State, r: State, k: nat) {
    && Live(s) && FrameGood(m, m, Top(s)) && AtEnd(m, Top(s)) && k <= 2
    && Sync(m, s, r, LoadIp(m, Top(s)) + k, 0)
    && (var d := Lookup(m, Top(s).fn).value;
        var id := TempId(d, Top(s).blk);
        && (k == 1 ==> id in Top(r).regs && Top(r).regs[id] == Count(s, 0))
        && (k == 2 ==> id + 1 in Top(r).regs && Top(r).regs[id + 1] == Count(s, 1)))
  }

  lemma TickFetch(m: Module, t: Module, s: State, r: State, k: nat)
    requires Setting(m, t) && Ticking(m, s, r, k)
    ensures Live(r) && Lookup(m, Top(s).fn).Some?
    ensures Fetch(t, Top(r)) == Some(Increment(COUNTER, TempId(Lookup(m, Top(s).fn).value, Top(s).blk))[k])
  {
    hide Sync, FrameMatch, FrameGood, Setting;
    SyncLive(m, s, r, LoadIp(m, Top(s)) + k, 0);
    SyncTop(m, s, r, LoadIp(m, Top(s)) + k, 0);
    IncrementFetch(m, t, Top(s), Top(r), k);
  }

  lemma IncrementFetch(m: Module, t: Module, fs: Frame, ft: Frame, k: nat)
    requires Setting(m, t) && FrameGood(m, m, fs) && k <= 2 && FrameMatch(m, fs, ft, LoadIp(m, fs) + k)
    ensures Fetch(t, ft) == Some(Increment(COUNTER, TempId(Lookup(m, fs.fn).value, fs.blk))[k])
  {
    hide ModuleIn, FnOk, BlockOk, Fresh, InstrDef, RegsMatch, Increment;
    BlockShape(Lookup(m, fs.fn).value, fs.blk) by { BlockOkOf(m, m, fs.fn, fs.blk); }
  }

  /** Load, then add: the counter does not change yet. */
  lemma TickLoad(m: Module, t: Module, env: Env, s: State, r: State)
    requires Setting(m, t) && Ticking(m, s, r, 0)
    ensures var r1 := Step(t, env, r);
      Ticking(m, s, r1, 1) && r1.handlers == r.handlers && r1.trace == r.trace
  {
    hide Sync, Step, FrameMatch, Setting, FrameGood;
    TickFetch(m, t, s, r, 0);
    var id := TempId(Lookup(m, Top(s).fn).value, Top(s).blk);
    var ip := LoadIp(m, Top(s));
    SyncCounter(m, s, r, ip, 0);
    LoadEffect(Top(r), r.mem, r.cells, id);
    hide Local, Increment, LoadIp, AtEnd, Live, Count;
    InsertedStep(t, env, r, Increment(COUNTER, id)[0]);
    SyncAdvance(m, s, r, ip, id, Count(s, 0));
  }

  lemma TickAdd(m: Module, t: Module, env: Env, s: State, r: State)
    requires Setting(m, t) && Ticking(m, s, r, 1)
    ensures var r1 := Step(t, env, r);
      Ticking(m, s, r1, 2) && r1.handlers == r.handlers && r1.trace == r.trace
  {
    hide Sync, Step, FrameMatch, Setting, FrameGood;
    TickFetch(m, t, s, r, 1);
    var id := TempId(Lookup(m, Top(s).fn).value, Top(s).blk);
    AddEffect(Top(r), r.mem, r.cells, id, Completed(s));
    hide Local, Increment, LoadIp, AtEnd, Live;
    InsertedStep(t, env, r, Increment(COUNTER, id)[1]);
    SyncAdvance(m, s, r, LoadIp(m, Top(s)) + 1, id + 1, Count(s, 1));
  }

  lemma WordInc(x: int)
    ensures (x % WORDS + 1) % WORDS == (x + 1) % WORDS
  {
  }

  lemma SyncCounter(m: Module, s: State, r: State, ip: nat, extra: nat)
    requires Sync(m, s, r, ip, extra)
    ensures GlobalA(COUNTER) in r.mem && r.mem[GlobalA(COUNTER)] == Count(s, extra)
  {
  }

  /** Writing a register that the original function does not have. */
  lemma SyncAdvance(m: Module, s: State, r: State, ip: nat, id: nat, v: Val)
    requires s.frames != [] && FrameGood(m, m, Top(s)) && Sync(m, s, r, ip, 0) && Lookup(m, Top(s).fn).value.next <= id
    ensures Sync(m, s, SetTop(r, Top(r).(ip := Top(r).ip + 1, regs := Top(r).regs[id := v])), ip + 1, 0)
  {
  }

  lemma SyncStored(m: Module, s: State, r: State, ip: nat)
    requires s.frames != [] && Sync(m, s, r, ip, 0)
    ensures var r1 := SetTop(r, Top(r).(ip := Top(r).ip + 1)).(mem := r.mem[GlobalA(COUNTER) := Count(s, 1)]);
      Sync(m, s, r1, ip + 1, 1)
  {
  }

  /** The store makes the block counted. */
  lemma TickStore(m: Module, t: Module, env: Env, s: State, r: State)
    requires Setting(m, t) && Ticking(m, s, r, 2)
    ensures var r1 := Step(t, env, r);
      Sync(m, s, r1, LoadIp(m, Top(s)) + 3, 1) && r1.handlers == r.handlers && r1.trace == r.trace
  {
    hide Sync, Step, FrameMatch, Setting, FrameGood;
    TickFetch(m, t, s, r, 2);
    var id := TempId(Lookup(m, Top(s).fn).value, Top(s).blk);
    var i := Increment(COUNTER, id)[2];
    var ip := LoadIp(m, Top(s)) + 2;
    SyncTop(m, s, r, ip, 0);
    SyncCounter(m, s, r, ip, 0);
    StoreEffect(Top(r), r.mem, r.cells, id);
    hide Local, LoadIp, AtEnd, Live;
    InsertedStep(t, env, r, i);
    SyncStored(m, s, r, ip);
  }
}
