/** A program with a function of the handler's name and a body for it: over all runs, the reporting
    block is never entered. */
module DeadReport {
  import opened Wrappers
  import opened IR
  import opened Machine
  import opened CountBB
  import opened Pass

  /** The handler is not entered at block `n`, and no branch of it leads to `n` or beyond. */
  predicate Unreached(t: Module, n: nat) {
    n > 0 && Lookup(t, HANDLER).Some? && NoWayTo(Lookup(t, HANDLER).value, n)
  }

  /** No frame of the handler stands at block `n` or beyond, and none ever did. */
  predicate Dead(n: nat, s: State) {
    && (forall i :: 0 <= i < |s.frames| && s.frames[i].fn == HANDLER ==> s.frames[i].blk < n)
    && (HANDLER, n) !in s.log
  }

  lemma SetTopDead(n: nat, s: State, f: Frame)
    requires Dead(n, s) && s.frames != [] && f.fn == Top(s).fn && (f.fn == HANDLER ==> f.blk < n)
    ensures Dead(n, SetTop(s, f))
  {
  }

  lemma DeliverDead(n: nat, s: State, dest: Option<nat>, v: Val)
    requires Dead(n, s)
    ensures Dead(n, Deliver(s, dest, v))
  {
    if dest.Some? && s.frames != [] {
      SetTopDead(n, s, Top(s).(regs := Top(s).regs[dest.value := v]));
    }
  }

  lemma ExternalDead(env: Env, n: nat, s: State, caller: string, name: string, vals: seq<Val>, dest: Option<nat>)
    requires Dead(n, s)
    ensures Dead(n, External(env, s, caller, name, vals, dest))
  {
    hide Deliver;
    if name == "atexit" {
      if |vals| == 1 && vals[0].FnV? {
        DeliverDead(n, s.(handlers := s.handlers + [vals[0].fn]), dest, IntV(0));
      }
    } else if name != "exit" {
      var e := s.trace + [Event(caller, name, vals)];
      DeliverDead(n, s.(trace := e), dest, IntV(env.output(vals)));
      DeliverDead(n, s.(trace := e, inputs := s.inputs + 1), dest, IntV(env.input(s.inputs, name, vals)));
    }
  }

  lemma InvokeDead(m: Module, env: Env, n: nat, s: State, caller: string, name: string, vals: seq<Val>,
      dest: Option<nat>)
    requires Dead(n, s) && n > 0
    ensures Dead(n, Invoke(m, env, s, caller, name, vals, dest))
  {
    hide External;
    ExternalDead(env, n, s, caller, name, vals, dest);
  }

  lemma CallDead(m: Module, env: Env, n: nat, s: State, i: Instr)
    requires Dead(n, s) && n > 0 && s.frames != [] && i.Call?
    ensures Dead(n, CallStep(m, env, s, i))
  {
    hide Invoke, Dead;
    var f := Top(s);
    var c := Eval(f, i.callee);
    var vals := EvalAll(f, i.args);
    if c.Some? && c.value.FnV? && vals.Some? {
      var p := SetTop(s, f.(ip := f.ip + 1));
      assert Dead(n, p) by { AdvanceDead(n, s); }
      InvokeDead(m, env, n, p, f.fn, c.value.fn, vals.value, Some(i.id));
    }
    assert Dead(n, Stuck(s)) by { StuckDead(n, s); }
  }

  lemma StuckDead(n: nat, s: State)
    requires Dead(n, s)
    ensures Dead(n, Stuck(s))
  {
  }

  lemma AdvanceDead(n: nat, s: State)
    requires Dead(n, s) && s.frames != []
    ensures Dead(n, SetTop(s, Top(s).(ip := Top(s).ip + 1)))
  {
    SetTopDead(n, s, Top(s).(ip := Top(s).ip + 1));
  }

  lemma RetDead(n: nat, s: State, i: Instr)
    requires Dead(n, s) && s.frames != [] && i.Ret?
    ensures Dead(n, RetStep(s, i))
  {
    hide Deliver;
    var f := Top(s);
    if i.result.Some? && Eval(f, i.result.value).Some? {
      DeliverDead(n, s.(frames := s.frames[..|s.frames|-1]), f.dest, Eval(f, i.result.value).value);
    }
  }

  lemma LocalDead(n: nat, s: State, i: Instr)
    requires Dead(n, s) && s.frames != []
    ensures Dead(n, LocalStep(s, i))
  {
    hide Local;
    var e := Local(Top(s), s.mem, s.cells, i);
    if e.Some? {
      SetTopDead(n, s, Top(s).(ip := Top(s).ip + 1, regs := e.value.regs));
    }
  }

  lemma BranchDead(t: Module, n: nat, s: State, i: Instr)
    requires Unreached(t, n) && Dead(n, s) && s.frames != [] && Fetch(t, Top(s)) == Some(i)
    ensures Dead(n, BranchStep(t, s, i))
  {
    var f := Top(s);
    var b := BranchTarget(f, i);
    if b.Some? {
      var j := Jump(Lookup(t, f.fn).value, f, b.value);
      if j.Some? {
        assert f.fn == HANDLER ==> b.value < n;
        SetTopDead(n, s, j.value);
      }
    }
  }

  lemma StepDead(t: Module, env: Env, n: nat, s: State)
    requires Unreached(t, n) && Dead(n, s)
    ensures Dead(n, Step(t, env, s))
  {
    hide Invoke, CallStep, RetStep, BranchStep, LocalStep, Unreached, Dead;
    UnreachedPositive(t, n);
    if AtExitBase(s) {
      if s.handlers != [] {
        var p := s.(handlers := s.handlers[..|s.handlers| - 1]);
        assert Dead(n, p) by { PopDead(n, s); }
        InvokeDead(t, env, n, p, "", s.handlers[|s.handlers| - 1], [], None);
      } else {
        assert Dead(n, StepExit(t, env, s)) by { PopDead(n, s); }
      }
    } else if s.frames != [] && Fetch(t, Top(s)).Some? {
      var i := Fetch(t, Top(s)).value;
      if i.Call? {
        CallDead(t, env, n, s, i);
      } else if i.Ret? {
        RetDead(n, s, i);
      } else if IsTerm(i) {
        BranchDead(t, n, s, i);
      } else {
        LocalDead(n, s, i);
      }
    }
    StuckDead(n, s);
  }

  lemma PopDead(n: nat, s: State)
    requires Dead(n, s) && s.phase.Exiting?
    ensures s.handlers != [] ==> Dead(n, s.(handlers := s.handlers[..|s.handlers| - 1]))
    ensures Dead(n, s.(phase := Done(s.phase.code)))
  {
  }

  lemma UnreachedPositive(t: Module, n: nat)
    requires Unreached(t, n)
    ensures n > 0
  {
  }

  lemma {:induction false} RunDead(t: Module, env: Env, args: seq<Val>, n: nat, k: nat)
    requires Unreached(t, n)
    ensures Dead(n, Run(t, env, Init(t, args), k))
  {
    hide Step, Unreached, Dead, Init;
    if k == 0 {
      InitDead(t, args, n);
    } else {
      RunDead(t, env, args, n, k - 1);
      StepDead(t, env, n, Run(t, env, Init(t, args), k - 1));
    }
  }

  lemma InitDead(t: Module, args: seq<Val>, n: nat)
    requires Unreached(t, n)
    ensures Dead(n, Init(t, args))
  {
    hide NoWayTo;
  }

  /** A program that defines the handler itself never gets to the reporting block, whatever the
      environment, the arguments and the number of steps. */
  lemma NeverReported(m: Module, suffix: string, env: Env, args: seq<Val>, k: nat)
    requires ModuleOk(m) && Accepted(m) && Defined(m, HANDLER)
    ensures Instrument(m, suffix).Ok?
    ensures var t := Instrument(m, suffix).value;
      (HANDLER, ReportIndex(m)) !in Run(t, env, Init(t, args), k).log
  {
    hide Accepted, ModuleIn, NoWayTo, Instrument, Run, Init, HandlerBefore;
    TakenHandler(m, suffix);
    RunDead(Instrument(m, suffix).value, env, args, ReportIndex(m), k);
  }
}
