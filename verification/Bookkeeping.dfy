/** How the counts of an original run move with each step. */
module Bookkeeping {
  import opened Wrappers
  import opened IR
  import opened Machine
  import opened Invariant
  import opened Simulation
  import opened Counting

  /** How often main was entered. */
  function Mains(log: seq<(string, nat)>): nat {
    if log == [] then 0
    else Mains(log[..|log|-1]) + if log[|log|-1] == ("main", 0) then 1 else 0
  }

  /** Frames of main that have not run their first instruction. */
  function Waiting(fs: seq<Frame>): nat {
    if fs == [] then 0
    else Waiting(fs[..|fs|-1]) + if NeedsReg(fs[|fs|-1]) then 1 else 0
  }

  /** How often main ran its first instruction: the registrations of the instrumented run. */
  function Registered(s: State): int {
    Mains(s.log) - Waiting(s.frames)
  }

  lemma MainsPush(log: seq<(string, nat)>, e: (string, nat))
    ensures Mains(log + [e]) == Mains(log) + if e == ("main", 0) then 1 else 0
  {
    assert (log + [e])[..|log|] == log;
  }

  lemma WaitingTop(s: State, f: Frame)
    requires s.frames != []
    ensures Waiting(s.frames) == Waiting(s.frames[..|s.frames|-1]) + if NeedsReg(Top(s)) then 1 else 0
    ensures Waiting(SetTop(s, f).frames) == Waiting(s.frames[..|s.frames|-1]) + if NeedsReg(f) then 1 else 0
  {
    assert SetTop(s, f).frames[..|s.frames|-1] == s.frames[..|s.frames|-1];
  }

  lemma DeliverCounts(s: State, dest: Option<nat>, v: Val)
    ensures var r := Deliver(s, dest, v);
      r.log == s.log && |r.frames| == |s.frames| && Waiting(r.frames) == Waiting(s.frames)
  {
    if dest.Some? && s.frames != [] {
      WaitingTop(s, Top(s).(regs := Top(s).regs[dest.value := v]));
    }
  }

  /** The counts move by the given amounts. */
  predicate Moved(s: State, r: State, registered: int, completed: int) {
    && Registered(r) == Registered(s) + registered
    && Completed(r) == Completed(s) + completed
    && |s.log| <= |r.log|
  }

  lemma InvokeMoved(m: Module, env: Env, s: State, caller: string, name: string, vals: seq<Val>, dest: Option<nat>)
    ensures var r := Invoke(m, env, s, caller, name, vals, dest); r.phase.Undef? || Moved(s, r, 0, 0)
  {
    hide External;
    var d := Lookup(m, name);
    if d.Some? && d.value.blocks == [] {
      ExternalMoved(env, s, caller, name, vals, dest);
    } else if d.Some? {
      var f := Frame(name, 0, 0, vals, map[], dest);
      assert (s.frames + [f])[..|s.frames|] == s.frames;
      MainsPush(s.log, (name, 0));
    }
  }

  lemma ExternalMoved(env: Env, s: State, caller: string, name: string, vals: seq<Val>, dest: Option<nat>)
    ensures var r := External(env, s, caller, name, vals, dest); r.phase.Undef? || Moved(s, r, 0, 0)
  {
    hide Deliver, Mains, Waiting;
    if name == "atexit" {
      if |vals| == 1 && vals[0].FnV? {
        DeliverCounts(s.(handlers := s.handlers + [vals[0].fn]), dest, IntV(0));
      }
    } else if name != "exit" {
      var e := s.trace + [Event(caller, name, vals)];
      DeliverCounts(s.(trace := e), dest, IntV(env.output(vals)));
      DeliverCounts(s.(trace := e, inputs := s.inputs + 1), dest, IntV(env.input(s.inputs, name, vals)));
    }
  }

  lemma CallMoved(m: Module, env: Env, s: State, i: Instr)
    requires s.frames != [] && i.Call?
    ensures var r := CallStep(m, env, s, i); r.phase.Undef? || Moved(s, r, if NeedsReg(Top(s)) then 1 else 0, 0)
  {
    hide Invoke;
    var f := Top(s);
    var c := Eval(f, i.callee);
    var vals := EvalAll(f, i.args);
    if c.Some? && c.value.FnV? && vals.Some? {
      WaitingTop(s, f.(ip := f.ip + 1));
      InvokeMoved(m, env, SetTop(s, f.(ip := f.ip + 1)), f.fn, c.value.fn, vals.value, Some(i.id));
    }
  }

  lemma RetMoved(s: State, i: Instr)
    requires s.frames != [] && i.Ret?
    ensures var r := RetStep(s, i); r.phase.Undef? || Moved(s, r, if NeedsReg(Top(s)) then 1 else 0, 1)
  {
    var f := Top(s);
    if i.result.Some? && Eval(f, i.result.value).Some? {
      DeliverCounts(s.(frames := s.frames[..|s.frames|-1]), f.dest, Eval(f, i.result.value).value);
    }
    if s.phase.Running? && |s.frames| == 1 {
      assert s.frames[..0] == [];
    }
  }

  lemma JumpPlace(d: Fn, f: Frame, t: nat)
    ensures Jump(d, f, t).Some? ==> Jump(d, f, t).value.blk == t
  {
  }

  lemma BranchMoved(m: Module, s: State, i: Instr)
    requires ModuleOk(m) && s.frames != [] && FrameGood(m, m, Top(s)) && Fetch(m, Top(s)) == Some(i)
    ensures var r := BranchStep(m, s, i); r.phase.Undef? || Moved(s, r, if NeedsReg(Top(s)) then 1 else 0, 1)
  {
    hide ModuleIn, FrameGood, BlockOk, Jump, OperandOk, Waiting, Mains;
    var f := Top(s);
    FetchGood(m, m, f);
    var t := BranchTarget(f, i);
    if t.Some? {
      var k :| 0 <= k < |Targets(i)| && Targets(i)[k] == t.value;
      var j := Jump(Lookup(m, f.fn).value, f, t.value);
      if j.Some? {
        JumpPlace(Lookup(m, f.fn).value, f, t.value);
        WaitingTop(s, j.value);
        MainsPush(s.log, (f.fn, t.value));
      }
    }
  }

  lemma LocalMoved(s: State, i: Instr)
    requires s.frames != []
    ensures var r := LocalStep(s, i); r.phase.Undef? || Moved(s, r, if NeedsReg(Top(s)) then 1 else 0, 0)
  {
    var f := Top(s);
    var e := Local(f, s.mem, s.cells, i);
    if e.Some? {
      WaitingTop(s, f.(ip := f.ip + 1, regs := e.value.regs));
    }
  }

  /** An instruction: the top frame's first one is a registration, its block's last one completes it. */
  lemma StepMoved(m: Module, env: Env, s: State)
    requires ModuleOk(m) && Live(s) && FrameGood(m, m, Top(s))
    ensures var r := Step(m, env, s);
      r.phase.Undef? || Moved(s, r, if NeedsReg(Top(s)) then 1 else 0, if AtEnd(m, Top(s)) then 1 else 0)
  {
    hide CallStep, RetStep, BranchStep, LocalStep, Moved, ModuleIn;
    FetchGood(m, m, Top(s));
    var i := Fetch(m, Top(s)).value;
    if i.Call? {
      CallMoved(m, env, s, i);
    } else if i.Ret? {
      RetMoved(s, i);
    } else if IsTerm(i) {
      BranchMoved(m, s, i);
    } else {
      LocalMoved(s, i);
    }
  }

  // ---------- suspended frames ----------

  /** A frame that is not about to run has run its first instruction. */
  predicate Suspended(s: State) {
    forall i :: 0 <= i < |s.frames| && (i < |s.frames| - 1 || AtExitBase(s) || s.phase.Done?) ==> s.frames[i].ip > 0
  }

  lemma InvokeSuspended(m: Module, env: Env, s: State, caller: string, name: string, vals: seq<Val>, dest: Option<nat>)
    requires forall i :: 0 <= i < |s.frames| ==> s.frames[i].ip > 0
    requires !s.phase.Done? && (s.phase.Exiting? ==> s.phase.base <= |s.frames|)
    ensures Suspended(Invoke(m, env, s, caller, name, vals, dest))
  {
  }

  lemma CallSuspended(m: Module, env: Env, s: State, i: Instr)
    requires s.frames != [] && i.Call? && Suspended(s) && Live(s)
    ensures var r := CallStep(m, env, s, i); r.phase.Undef? || Suspended(r)
  {
    hide Invoke;
    var f := Top(s);
    var c := Eval(f, i.callee);
    var vals := EvalAll(f, i.args);
    if c.Some? && c.value.FnV? && vals.Some? {
      InvokeSuspended(m, env, SetTop(s, f.(ip := f.ip + 1)), f.fn, c.value.fn, vals.value, Some(i.id));
    }
  }

  lemma StepSuspended(m: Module, env: Env, s: State)
    requires Suspended(s) && (s.phase.Exiting? ==> s.phase.base <= |s.frames|)
    ensures Suspended(Step(m, env, s))
  {
    hide CallStep, Invoke, Fetch, Local, Jump, BranchTarget;
    if Live(s) {
      var i := Fetch(m, Top(s));
      if i.Some? && i.value.Call? {
        CallSuspended(m, env, s, i.value);
      }
    } else if AtExitBase(s) && s.handlers != [] {
      var n := |s.handlers| - 1;
      InvokeSuspended(m, env, s.(handlers := s.handlers[..n]), "", s.handlers[n], [], None);
    }
  }

  lemma {:induction false} RunSuspended(m: Module, env: Env, args: seq<Val>, n: nat)
    requires ModuleOk(m) && ValsGood(m, args) && Defined(m, "main") && |Lookup(m, "main").value.sig.params| == |args|
    ensures Suspended(Run(m, env, Init(m, args), n))
  {
    hide Step, Suspended, Init, ModuleIn;
    if n == 0 {
      InitSuspended(m, args);
    } else {
      RunSuspended(m, env, args, n - 1);
      RunGood(m, m, env, args, n - 1);
      StepSuspended(m, env, Run(m, env, Init(m, args), n - 1));
    }
  }

  lemma InitSuspended(m: Module, args: seq<Val>)
    ensures Suspended(Init(m, args))
  {
  }

  lemma {:induction false} NoneWaiting(fs: seq<Frame>)
    requires forall i :: 0 <= i < |fs| ==> fs[i].ip > 0
    ensures Waiting(fs) == 0
  {
    if fs != [] {
      NoneWaiting(fs[..|fs|-1]);
    }
  }
}
