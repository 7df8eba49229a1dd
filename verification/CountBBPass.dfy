/** The block-counting pass on module objects, method by method, against its functional form. */
module CountBBPass {
  import opened Wrappers
  import opened IR
  import opened CountBB
  import opened Pass
  import opened Program

  /** The instructions that end a block. */
  predicate Terminates(i: Instr) {
    match i
    case Br(_) => true
    case CondBr(_, _, _) => true
    case Switch(_, _, _) => true
    case Ret(_) => true
    case Unreachable => true
    case _ => false
  }

  /** The new block, instruction by instruction: all that was there in its order, and directly before the
      terminator the three new instructions; a block that does not end in a terminator stays. */
  lemma InsertedLiterally(b: seq<Instr>, id: nat)
    ensures var e, n := InstrBlock(b, COUNTER, id), |b|;
      if n > 0 && Terminates(b[n - 1]) then
        && |e| == n + 3 && e[..n - 1] == b[..n - 1] && e[n + 2] == b[n - 1]
        && e[n - 1] == Load(id, Const(PtrV(GlobalA("bbCounter"))))
        && e[n] == Bin(id + 1, Add, Reg(id), Const(IntV(1)))
        && e[n + 1] == Store(Reg(id + 1), Const(PtrV(GlobalA("bbCounter"))))
      else e == b
  {
    if HasTerminator(b) {
      var n := |b|;
      assert InstrBlock(b, COUNTER, id)[..n - 1] == b[..n - 1];
    }
  }

  /** Insert the three counting instructions in front of the terminator. */
  method RunOnBasicBlock(bb: BasicBlock, f: Function, m: ModuleObject) returns (err: Option<Error>)
    requires bb.parent == f
    modifies bb`insts, f`next
    ensures err.Some? <==> !(COUNTER in m.globals && !m.globals[COUNTER].local)
    ensures err.Some? ==> err.value == NoCounter && bb.insts == old(bb.insts) && f.next == old(f.next)
    ensures err.None? ==> bb.insts == InstrBlock(old(bb.insts), COUNTER, old(f.next)) && f.next == old(f.next) + 2
  {
    if COUNTER !in m.globals || m.globals[COUNTER].local {
      return Some(NoCounter);
    }
    var oldCounter := f.next;
    var newCounter := f.next + 1;
    f.next := f.next + 2;
    var n := |bb.insts|;
    if n > 0 && IsTerm(bb.insts[n - 1]) {
      var pos := n - 1;
      bb.insts := bb.insts[..pos] + [Load(oldCounter, CounterRef(COUNTER))] + bb.insts[pos..];
      pos := pos + 1;
      bb.insts := bb.insts[..pos] + [Bin(newCounter, Add, Reg(oldCounter), Const(IntV(1)))] + bb.insts[pos..];
      pos := pos + 1;
      bb.insts := bb.insts[..pos] + [Store(Reg(newCounter), CounterRef(COUNTER))] + bb.insts[pos..];
    }
    return None;
  }

  /** The function with its first `n` blocks instrumented. */
  function InstrUpTo(f: Fn, n: nat): Fn
    requires n <= |f.blocks|
  {
    f.(blocks := seq(|f.blocks|, k requires 0 <= k < |f.blocks| =>
         if k < n then InstrBlock(f.blocks[k], COUNTER, f.next + 2 * k) else f.blocks[k]),
       next := f.next + 2 * n)
  }

  lemma UpToEnds(f: Fn)
    ensures InstrUpTo(f, 0) == f && InstrUpTo(f, |f.blocks|) == InstrFn(f, COUNTER)
  {
    hide InstrBlock;
    assert InstrUpTo(f, 0).blocks == f.blocks;
    assert InstrUpTo(f, |f.blocks|).blocks == InstrFn(f, COUNTER).blocks;
  }

  lemma UpToNext(f: Fn, n: nat)
    requires n < |f.blocks|
    ensures InstrUpTo(f, n).blocks[n] == f.blocks[n] && InstrUpTo(f, n).next == f.next + 2 * n
    ensures InstrUpTo(f, n + 1) == InstrUpTo(f, n).(
      blocks := InstrUpTo(f, n).blocks[n := InstrBlock(f.blocks[n], COUNTER, f.next + 2 * n)],
      next := f.next + 2 * (n + 1))
  {
    hide InstrBlock;
    assert InstrUpTo(f, n + 1).blocks
        == InstrUpTo(f, n).blocks[n := InstrBlock(f.blocks[n], COUNTER, f.next + 2 * n)];
  }

  predicate CounterSeen(m: ModuleObject)
    reads m
  {
    COUNTER in m.globals && !m.globals[COUNTER].local
  }

  /** One turn of the inner loop. */
  method VisitBlock(f: Function, m: ModuleObject, k: nat, ghost d: Fn) returns (err: Option<Error>)
    requires f.Owns() && k < |f.blocks| == |d.blocks| && f.View() == InstrUpTo(d, k)
    modifies f`next, f.blocks`insts
    ensures f.Owns()
    ensures err.Some? <==> !CounterSeen(m)
    ensures err.Some? ==> err.value == NoCounter
    ensures err.None? ==> f.View() == InstrUpTo(d, k + 1)
  {
    hide InstrBlock, InstrUpTo;
    ghost var before := f.View();
    UpToNext(d, k);
    assert f.blocks[k].insts == before.blocks[k] && f.next == before.next;
    err := RunOnBasicBlock(f.blocks[k], f, m);
    if err.None? {
      assert f.View().blocks == before.blocks[k := InstrBlock(before.blocks[k], COUNTER, before.next)];
    }
  }

  /** The inner loop: all blocks of one function. */
  method RunOnFunction(f: Function, m: ModuleObject) returns (err: Option<Error>)
    requires f.Owns()
    modifies f`next, f.blocks`insts
    ensures f.Owns()
    ensures err.Some? <==> f.blocks != [] && !(COUNTER in m.globals && !m.globals[COUNTER].local)
    ensures err.Some? ==> err.value == NoCounter
    ensures err.None? ==> f.View() == InstrFn(old(f.View()), COUNTER)
  {
    hide InstrUpTo, InstrFn;
    ghost var d := f.View();
    UpToEnds(d);
    var k := 0;
    while k < |f.blocks|
      invariant k <= |f.blocks| == |d.blocks| && f.Owns()
      invariant k > 0 ==> CounterSeen(m)
      invariant f.View() == InstrUpTo(d, k)
    {
      err := VisitBlock(f, m, k, d);
      if err.Some? {
        return;
      }
      k := k + 1;
    }
    return None;
  }

  // ---------- setup ----------

  /** The one function that changed. */
  lemma OneChanged(fs: seq<Fn>, fs': seq<Fn>, i: nat, g: Fn)
    requires i < |fs| == |fs'| && fs'[i] == g
    requires forall j :: 0 <= j < |fs| && j != i ==> fs'[j] == fs[j]
    ensures fs' == fs[i := g]
  {
  }

  lemma {:induction false} ReplaceAt(fs: seq<Fn>, n: string, i: nat, g: Fn)
    requires i < |fs| && fs[i].name == n && forall j :: 0 <= j < i ==> fs[j].name != n
    ensures ReplaceIn(fs, n, g) == fs[i := g]
  {
    if i > 0 {
      ReplaceAt(fs[1..], n, i - 1, g);
    }
  }

  method AddFunction(m: ModuleObject, n: string, sig: Sig)
    requires m.Valid()
    modifies m`funcs, m`Repr
    ensures m.Valid() && fresh(m.Repr - old(m.Repr)) && old(m.Repr) <= m.Repr
    ensures |m.funcs| == |old(m.funcs)| + 1 && old(m.funcs) <= m.funcs && m.funcs[|old(m.funcs)|].name == n
    ensures m.View() == old(m.View()).(funcs := old(m.View()).funcs + [Fn(n, sig, [], 0)])
  {
    var f := new Function(n, sig);
    m.funcs := m.funcs + [f];
    m.Repr := m.Repr + {f};
    assert BlockViews(f.blocks) == [];
    assert FnViews(m.funcs) == old(FnViews(m.funcs)) + [Fn(n, sig, [], 0)];
  }

  method GetOrInsertFunction(m: ModuleObject, n: string, sig: Sig) returns (i: nat, err: Option<Error>)
    requires m.Valid()
    modifies m`funcs, m`Repr
    ensures m.Valid() && fresh(m.Repr - old(m.Repr)) && old(m.Repr) <= m.Repr && old(m.funcs) <= m.funcs
    ensures err.Some? ==> GetOrInsert(old(m.View()), n, sig) == Err(err.value)
    ensures err.None? ==>
      && GetOrInsert(old(m.View()), n, sig) == Ok(m.View())
      && i < |m.funcs| && m.funcs[i].name == n && (forall j :: 0 <= j < i ==> m.funcs[j].name != n)
  {
    if n in m.globals {
      return 0, Some(NotAFunction(n));
    }
    ghost var v := m.View();
    i := m.FindFunction(n);
    assert m.View() == v;
    if i == |m.funcs| {
      AddFunction(m, n, sig);
      return i, None;
    }
    assert Lookup(v, n) == Some(m.funcs[i].View());
    assert m.funcs[i].View().sig == m.funcs[i].sig;
    assert n !in v.globals;
    assert m.funcs[i].sig == sig ==> GetOrInsert(v, n, sig) == Ok(v);
    assert m.funcs[i].sig != sig ==> GetOrInsert(v, n, sig) == Err(NotAFunction(n));
    if m.funcs[i].sig != sig {
      return i, Some(NotAFunction(n));
    }
    return i, None;
  }

  /** No other function has this block. */
  ghost predicate Apart(m: ModuleObject, i: nat, b: BasicBlock)
    reads m, m.funcs
  {
    forall j, k :: 0 <= j < |m.funcs| && j != i && 0 <= k < |m.funcs[j].blocks| ==> m.funcs[j].blocks[k] != b
  }

  lemma OwnedApart(m: ModuleObject, i: nat, b: BasicBlock)
    requires m.Valid() && i < |m.funcs| && b.parent == m.funcs[i]
    ensures Apart(m, i, b)
  {
    forall j, k | 0 <= j < |m.funcs| && j != i && 0 <= k < |m.funcs[j].blocks|
      ensures m.funcs[j].blocks[k] != b
    {
      assert m.funcs[j].Owns();
    }
  }

  /** The call in front of the first instruction of the function. */
  method InsertCall(main: Function, front: BasicBlock)
    requires main.Owns() && main.blocks != [] && main.blocks[0] == front
    modifies main`next, front`insts
    ensures main.View() == PrependCall(old(main.View()))
  {
    ghost var before := main.View();
    front.insts := [AtexitCall(main.next)] + front.insts;
    main.next := main.next + 1;
    assert main.View().blocks == PrependCall(before).blocks;
  }

  /** The reporting block, instruction by instruction. */
  method CreateAtexitCall(f: Function, c: string)
    requires f.Owns()
    modifies f`next, f`blocks
    ensures f.Owns()
    ensures f.View() == AppendReport(old(f.View()), c)
    ensures |f.blocks| == |old(f.blocks)| + 1 && old(f.blocks) <= f.blocks && fresh(f.blocks[|old(f.blocks)|])
  {
    ghost var before := f.View();
    var entry := ReportEntry(f, c);
    f.blocks := f.blocks + [entry];
    f.next := f.next + 2;
    assert f.View().blocks == before.blocks + [entry.insts];
  }

  method ReportEntry(f: Function, c: string) returns (entry: BasicBlock)
    ensures fresh(entry) && entry.parent == f && entry.insts == ReportBlock(c, f.next)
  {
    entry := new BasicBlock([], f);
    var bbValue := f.next;
    entry.insts := entry.insts + [Load(bbValue, CounterRef(c))];
    var printfArgs := [Const(StrV(FORMAT)), Reg(bbValue)];
    entry.insts := entry.insts + [Call(bbValue + 1, Const(FnV("printf")), printfArgs)];
    entry.insts := entry.insts + [Ret(None)];
  }

  predicate FirstNamed(m: ModuleObject, n: string, i: nat)
    reads m, m.funcs
  {
    i < |m.funcs| && m.funcs[i].name == n && forall j :: 0 <= j < i ==> m.funcs[j].name != n
  }

  method RegisterInMain(m: ModuleObject, i: nat, main: Function, front: BasicBlock)
    requires m.Valid() && FirstNamed(m, "main", i) && m.funcs[i] == main && main.blocks != [] && main.blocks[0] == front
    modifies main`next, front`insts
    ensures m.Valid()
    ensures m.View() == old(m.View()).(funcs := ReplaceIn(old(m.View()).funcs, "main", PrependCall(old(main.View()))))
  {
    ghost var before := FnViews(m.funcs);
    OwnedApart(m, i, front);
    InsertCall(main, front);
    ReplaceAt(before, "main", i, main.View());
    SameBlocks(m.funcs, before, i);
    OneChanged(before, FnViews(m.funcs), i, main.View());
  }

  method AddReportBlock(m: ModuleObject, i: nat, f: Function, c: string)
    requires m.Valid() && i < |m.funcs| && m.funcs[i] == f
    modifies f`next, f`blocks, m`Repr
    ensures m.Valid() && fresh(m.Repr - old(m.Repr)) && old(m.Repr) <= m.Repr
    ensures f.View() == AppendReport(old(f.View()), c)
  {
    CreateAtexitCall(f, c);
    m.Repr := m.Repr + {f.blocks[|f.blocks| - 1]};
    assert forall j :: 0 <= j < |m.funcs| && j != i ==> m.funcs[j].blocks == old(m.funcs[j].blocks);
  }

  method GiveReport(m: ModuleObject, i: nat, f: Function, c: string)
    requires m.Valid() && FirstNamed(m, HANDLER, i) && m.funcs[i] == f
    modifies f`next, f`blocks, m`Repr
    ensures m.Valid() && fresh(m.Repr - old(m.Repr)) && old(m.Repr) <= m.Repr
    ensures Lookup(old(m.View()), HANDLER).Some?
    ensures m.View() == old(m.View()).(funcs :=
      ReplaceIn(old(m.View()).funcs, HANDLER, AppendReport(Lookup(old(m.View()), HANDLER).value, c)))
  {
    ghost var before := FnViews(m.funcs);
    LookupIndex(before, HANDLER, i);
    AddReportBlock(m, i, f, c);
    ReplaceAt(before, HANDLER, i, f.View());
    SameBlocks(m.funcs, before, i);
    OneChanged(before, FnViews(m.funcs), i, f.View());
  }

  /** Functions whose fields and blocks read as before have the view of before. */
  lemma SameBlocks(fs: seq<Function>, before: seq<Fn>, i: nat)
    requires i < |fs| == |before|
    requires forall j :: 0 <= j < |fs| && j != i ==> SameFields(fs[j], before[j])
    ensures forall j :: 0 <= j < |fs| && j != i ==> FnViews(fs)[j] == before[j]
  {
    forall j | 0 <= j < |fs| && j != i
      ensures FnViews(fs)[j] == before[j]
    {
      assert BlockViews(fs[j].blocks) == before[j].blocks;
    }
  }

  ghost predicate SameFields(f: Function, d: Fn)
    reads f, f.blocks
  {
    && f.name == d.name && f.sig == d.sig && f.next == d.next && |f.blocks| == |d.blocks|
    && forall k :: 0 <= k < |f.blocks| ==> f.blocks[k].insts == d.blocks[k]
  }

  method CounterFor(m: ModuleObject, suffix: string) returns (c: string)
    ensures c == CounterName(m.View(), suffix)
  {
    var i := m.FindFunction(COUNTER);
    c := if COUNTER in m.globals || i < |m.funcs| then COUNTER + suffix else COUNTER;
  }

  lemma GlobalKeepsFuncs(m: Module, g: map<string, GlobalVar>, n: string)
    ensures Lookup(m.(globals := g), n) == Lookup(m, n)
  {
  }

  method DeclareNames(m: ModuleObject, c: string) returns (hi: nat, err: Option<Error>)
    requires m.Valid()
    modifies m
    ensures fresh(m.Repr - old(m.Repr)) && old(m.Repr) <= m.Repr && old(m.funcs) <= m.funcs
    ensures err.Some? ==> Declare(old(m.View()), c) == Err(err.value)
    ensures err.None? ==> m.Valid() && FirstNamed(m, HANDLER, hi) && Declare(old(m.View()), c) == Ok(m.View())
  {
    ghost var v0 := m.View();
    m.globals := m.globals[c := GlobalVar(IntV(0), false)];
    assert m.View() == v0.(globals := v0.globals[c := GlobalVar(IntV(0), false)]);
    hi, err := GetOrInsertFunction(m, HANDLER, HANDLER_SIG);
    if err.Some? {
      return;
    }
    var ai;
    ai, err := GetOrInsertFunction(m, "atexit", ATEXIT_SIG);
  }

  /** printf, and the handler's reporting block. */
  method AddReport(m: ModuleObject, hi: nat, c: string) returns (err: Option<Error>)
    requires m.Valid() && FirstNamed(m, HANDLER, hi)
    modifies m.Repr
    ensures fresh(m.Repr - old(m.Repr)) && old(m.Repr) <= m.Repr
    ensures err.Some? ==> Finish(old(m.View()), c) == Err(err.value)
    ensures err.None? ==> m.Valid() && Finish(old(m.View()), c) == Ok(m.View())
  {
    hide AppendReport, ReplaceIn, GetOrInsert;
    var pi;
    pi, err := GetOrInsertFunction(m, "printf", PRINTF_SIG);
    if err.Some? {
      return;
    }
    GiveReport(m, hi, m.funcs[hi], c);
  }

  method AttachHandler(m: ModuleObject, mi: nat, hi: nat, c: string) returns (err: Option<Error>)
    requires m.Valid() && FirstNamed(m, "main", mi) && FirstNamed(m, HANDLER, hi)
    modifies m.Repr
    ensures fresh(m.Repr - old(m.Repr)) && old(m.Repr) <= m.Repr
    ensures err.Some? ==> Attach(old(m.View()), old(m.funcs[mi].View()), c) == Err(err.value)
    ensures err.None? ==> m.Valid() && Attach(old(m.View()), old(m.funcs[mi].View()), c) == Ok(m.View())
  {
    hide PrependCall, Finish, ReplaceIn;
    var main := m.funcs[mi];
    if main.blocks == [] || main.blocks[0].insts == [] {
      return Some(NoFront);
    }
    RegisterInMain(m, mi, main, main.blocks[0]);
    err := AddReport(m, hi, c);
  }

  lemma SetupUnfold(v: Module, suffix: string, main: Fn)
    requires Lookup(v, "main") == Some(main)
    ensures CountBB.Setup(v, suffix) == SetupMain(v, main, CounterName(v, suffix))
  {
  }

  function SetupMain(v: Module, main: Fn, c: string): Result<Module, Error> {
    var d := Declare(v, c);
    if d.Err? then d else Attach(d.value, main, c)
  }

  method DeclareAndAttach(m: ModuleObject, mi: nat, c: string) returns (err: Option<Error>)
    requires m.Valid() && FirstNamed(m, "main", mi)
    modifies m.Repr
    ensures fresh(m.Repr - old(m.Repr)) && old(m.Repr) <= m.Repr
    ensures err.Some? ==> SetupMain(old(m.View()), old(m.funcs[mi].View()), c) == Err(err.value)
    ensures err.None? ==> m.Valid() && SetupMain(old(m.View()), old(m.funcs[mi].View()), c) == Ok(m.View())
  {
    hide Declare, Attach;
    ghost var main := m.funcs[mi].View();
    var hi;
    hi, err := DeclareNames(m, c);
    if err.Some? {
      return;
    }
    assert m.funcs[mi].View() == main && FirstNamed(m, "main", mi);
    err := AttachHandler(m, mi, hi, c);
  }

  method Setup(m: ModuleObject, suffix: string) returns (err: Option<Error>)
    requires m.Valid()
    modifies m.Repr
    ensures fresh(m.Repr - old(m.Repr)) && old(m.Repr) <= m.Repr
    ensures err.Some? ==> CountBB.Setup(old(m.View()), suffix) == Err(err.value)
    ensures err.None? ==> m.Valid() && CountBB.Setup(old(m.View()), suffix) == Ok(m.View())
  {
    hide SetupMain, CounterName;
    ghost var v := m.View();
    var mi := m.FindFunction("main");
    if mi == |m.funcs| {
      return Some(NoMain);
    }
    ghost var main := m.funcs[mi].View();
    assert m.View() == v;
    SetupUnfold(v, suffix, main);
    var c := CounterFor(m, suffix);
    assert m.View() == v && m.funcs[mi].View() == main;
    assert |m.funcs[mi].blocks| == |main.blocks|;
    err := DeclareAndAttach(m, mi, c);
  }

  /** One function of the module. */
  method RunOnFunctionAt(m: ModuleObject, i: nat, f: Function) returns (err: Option<Error>)
    requires m.Valid() && i < |m.funcs| && m.funcs[i] == f && f.name != HANDLER
    modifies f`next, f.blocks`insts
    ensures m.Valid()
    ensures err.Some? ==> err.value == NoCounter && !CounterVisible(old(m.View()))
    ensures err.None? ==> HasNone(old(f.View())) || CounterVisible(old(m.View()))
    ensures err.None? ==> FnViews(m.funcs) == old(FnViews(m.funcs))[i := InstrOne(old(FnViews(m.funcs))[i])]
  {
    ghost var before := FnViews(m.funcs);
    assert f.Owns();
    err := RunOnFunction(f, m);
    if err.None? {
      forall j | 0 <= j < |m.funcs| && j != i
        ensures SameFields(m.funcs[j], before[j])
      {
        forall k | 0 <= k < |m.funcs[j].blocks|
          ensures m.funcs[j].blocks[k] !in f.blocks
        {
          assert m.funcs[j].blocks[k].parent == m.funcs[j];
        }
      }
      SameBlocks(m.funcs, before, i);
      OneChanged(before, FnViews(m.funcs), i, f.View());
    }
  }

  /** One turn of the loop: the handler is passed over. */
  method VisitFunction(m: ModuleObject, i: nat, f: Function) returns (err: Option<Error>)
    requires m.Valid() && i < |m.funcs| && m.funcs[i] == f
    modifies f`next, f.blocks`insts
    ensures m.Valid()
    ensures err.Some? ==> err.value == NoCounter && !CounterVisible(old(m.View()))
    ensures err.None? ==> HasNone(old(f.View())) || CounterVisible(old(m.View()))
    ensures err.None? ==> FnViews(m.funcs) == old(FnViews(m.funcs))[i := InstrOne(old(FnViews(m.funcs))[i])]
  {
    hide InstrOne, HasNone, CounterVisible;
    if f.name == HANDLER {
      ghost var before := FnViews(m.funcs);
      HandlerStays(before[i]);
      HandlerNone(before[i]);
      return None;
    }
    err := RunOnFunctionAt(m, i, f);
  }

  /** One turn of the loop: function `i` gets its new form, the others stay. */
  method VisitNext(m: ModuleObject, i: nat, ghost v: Module) returns (err: Option<Error>)
    requires m.Valid() && i < |m.funcs| == |v.funcs| && m.View() == HalfWay(v, i)
    modifies m.Repr - {m}
    ensures m.Valid()
    ensures err.Some? ==> err.value == NoCounter && !CounterVisible(v)
    ensures err.None? ==> m.View() == HalfWay(v, i + 1) && (CounterFound(v, i) ==> CounterFound(v, i + 1))
  {
    hide InstrOne, InstrAll, HasNone, CounterVisible;
    ghost var before := m.View();
    Progress(v, i);
    assert m.funcs[i].View() == before.funcs[i];
    SameGlobals(v, before);
    err := VisitFunction(m, i, m.funcs[i]);
    if err.None? {
      assert m.View() == before.(funcs := before.funcs[i := InstrOne(before.funcs[i])]);
    }
  }

  /** The loop over all functions of the module. */
  method RunOnFunctions(m: ModuleObject) returns (err: Option<Error>)
    requires m.Valid()
    modifies m.Repr - {m}
    ensures m.Valid()
    ensures err.Some? ==> err.value == NoCounter && !CounterVisible(old(m.View()))
    ensures err.None? ==> m.View() == old(m.View()).(funcs := InstrAll(old(m.View()).funcs))
    ensures err.None? ==> CounterFound(old(m.View()), |m.funcs|)
  {
    hide InstrAll, CounterVisible, HalfWay, ModuleObject.Valid;
    ghost var v := m.View();
    HalfWayEnds(v);
    assert |v.funcs| == |m.funcs| && CounterFound(v, 0);
    hide CounterFound;
    hide ModuleObject.View, FnViews;
    var i := 0;
    while i < |m.funcs|
      invariant i <= |m.funcs| == |v.funcs| && m.Valid()
      invariant m.View() == HalfWay(v, i)
      invariant CounterFound(v, i)
    {
      err := VisitNext(m, i, v);
      if err.Some? {
        return;
      }
      i := i + 1;
    }
    return None;
  }

  /** The first `i` functions are instrumented. */
  ghost function HalfWay(v: Module, i: nat): Module
    requires i <= |v.funcs|
  {
    v.(funcs := InstrAll(v.funcs)[..i] + v.funcs[i..])
  }

  lemma HalfWayEnds(v: Module)
    ensures HalfWay(v, 0) == v
    ensures HalfWay(v, |v.funcs|) == v.(funcs := InstrAll(v.funcs))
  {
  }

  lemma Progress(v: Module, i: nat)
    requires i < |v.funcs|
    ensures var h := HalfWay(v, i);
      && |h.funcs| == |v.funcs| && h.funcs[i] == v.funcs[i] && h.globals == v.globals
      && HalfWay(v, i + 1) == h.(funcs := h.funcs[i := InstrOne(v.funcs[i])])
  {
  }

  /** Where the first `n` functions had anything to instrument, the counter was found. */
  predicate CounterFound(v: Module, n: nat)
    requires n <= |v.funcs|
  {
    forall j :: 0 <= j < n ==> HasNone(v.funcs[j]) || CounterVisible(v)
  }

  lemma SameGlobals(a: Module, b: Module)
    requires a.globals == b.globals
    ensures CounterVisible(a) <==> CounterVisible(b)
  {
  }

  lemma HandlerNone(f: Fn)
    ensures f.name == HANDLER || f.blocks == [] ==> HasNone(f)
  {
  }

  /** Nothing of this function is instrumented. */
  predicate HasNone(f: Fn) {
    f.name == HANDLER || f.blocks == []
  }

  lemma HandlerStays(f: Fn)
    requires f.name == HANDLER
    ensures InstrOne(f) == f
  {
  }

  /** After a setup there is a main to instrument. */
  lemma SetupHasMain(v: Module, suffix: string)
    requires CountBB.Setup(v, suffix).Ok?
    ensures var t := CountBB.Setup(v, suffix).value; CounterFound(t, |t.funcs|) ==> CounterVisible(t)
  {
    var main := Lookup(v, "main").value;
    var c := CounterName(v, suffix);
    var m1 := v.(globals := v.globals[c := GlobalVar(IntV(0), false)]);
    GlobalKeepsFuncs(v, m1.globals, "main");
    var m2 := GetOrInsert(m1, HANDLER, HANDLER_SIG).value;
    LookupGetOrInsert(m1, HANDLER, HANDLER_SIG, "main");
    var m3 := GetOrInsert(m2, "atexit", ATEXIT_SIG).value;
    LookupGetOrInsert(m2, "atexit", ATEXIT_SIG, "main");
    var m4 := m3.(funcs := ReplaceIn(m3.funcs, "main", PrependCall(main)));
    LookupReplace(m3.funcs, "main", PrependCall(main), "main");
    var m5 := GetOrInsert(m4, "printf", PRINTF_SIG).value;
    LookupGetOrInsert(m4, "printf", PRINTF_SIG, "main");
    LookupReplace(m5.funcs, HANDLER, AppendReport(Lookup(m5, HANDLER).value, c), "main");
    MainNeedsCounter(CountBB.Setup(v, suffix).value, PrependCall(main));
  }

  lemma MainNeedsCounter(t: Module, main: Fn)
    requires Lookup(t, "main") == Some(main) && main.name != HANDLER && main.blocks != []
    ensures CounterFound(t, |t.funcs|) ==> CounterVisible(t)
  {
    var j :| 0 <= j < |t.funcs| && t.funcs[j] == main;
    assert !HasNone(t.funcs[j]);
  }

  /** The whole pass: setup, then every block of every function but the handler. */
  method RunOnModule(m: ModuleObject, suffix: string) returns (err: Option<Error>)
    requires m.Valid()
    modifies m.Repr
    ensures fresh(m.Repr - old(m.Repr)) && old(m.Repr) <= m.Repr
    ensures err.Some? ==> Instrument(old(m.View()), suffix) == Err(err.value)
    ensures err.None? ==> m.Valid() && Instrument(old(m.View()), suffix) == Ok(m.View())
  {
    hide CountBB.Setup, InstrAll, CounterFound, CounterVisible;
    ghost var v := m.View();
    err := Setup(m, suffix);
    if err.Some? {
      return;
    }
    SetupHasMain(v, suffix);
    err := RunOnFunctions(m);
  }
}
