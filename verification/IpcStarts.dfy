/** Runs of a client by itself that show what the theorems about the message clients speak of: from any
    state in which the lock is free and the client's thread can run, its next allocation can succeed,
    and it can fail. */
module IpcStarts {
  import opened MsgRing
  import opened IpcProtocol
  import opened IpcSafety
  import opened IpcTheorems
  import opened IpcFanout

  predicate Makes(todo: seq<Stmt>) { todo != [] && todo[0].MakeMsg? && Fits(todo, 0) }

  /** The client on its way to the critical section of an allocation. */
  ghost predicate Making(f: Fan, pc: Pc, owner: Option<Tid>, todo: seq<Stmt>, calling: bool)
  {
    && FanInv(f) && OthersFit(f) && Shape(f.s) && Runnable(f.s, f.t) && Unused(f.s, f.p)
    && f.s.pc[f.t] == pc && f.s.owner == owner
    && f.todo == todo && f.held == 0 && f.calling == calling && !f.failed
  }

  /** The allocation made or failed. */
  ghost predicate Made(f: Fan, todo: seq<Stmt>, ok: bool)
  {
    && FanInv(f) && OthersFit(f) && Shape(f.s) && Runnable(f.s, f.t) && f.s.pc[f.t] == Leave(Done)
    && f.todo == todo && f.held == 0 && f.calling && f.failed == !ok
  }

  lemma InvHas(f: Fan)
    requires FanInv(f)
    ensures Shape(f.s) && f.t in f.s.pc
    ensures !f.calling && f.held == 0 ==> Unused(f.s, f.p)
  {
    if !f.calling && f.held == 0 {
      RestHolds(f);
    }
  }

  lemma FanCons(f: Fan, a: Action, run: seq<Action>) returns (r: seq<Action>)
    requires CanStep(f, a) && OthersFit(Next(f, a)) && FanRun(Next(f, a), run)
    ensures r == [a] + run && FanRun(f, r) && After(f, r) == After(Next(f, a), run)
  {
    r := [a] + run;
    assert r[1..] == run;
  }

  lemma SameOthersFit(f: Fan, g: Fan)
    requires OthersFit(f) && g.s.live == f.s.live && g.s.holders == f.s.holders && OwnPlaces(g) == OwnPlaces(f)
    ensures OthersFit(g)
  {
  }

  lemma BeginMake(f: Fan, todo: seq<Stmt>) returns (a: Action)
    requires Makes(todo) && Making(f, Home(f.t), None, todo, false)
    ensures CanStep(f, a) && Making(Next(f, a), Check(New(todo[0].kind)), None, todo, true)
    ensures Next(f, a).t == f.t && Next(f, a).p == f.p && !a.Create? && OthersFit(Next(f, a))
  {
    hide Fits;
    hide FanInv;
    a := Begin(f.t, New(todo[0].kind), f.p);
    SameOthersFit(f, Next(f, a));
    hide OthersFit;
    StepKeeps(f, a);
    InvHas(Next(f, a));
  }

  lemma CheckMake(f: Fan, todo: seq<Stmt>) returns (a: Action)
    requires Makes(todo) && Making(f, Check(New(todo[0].kind)), None, todo, true)
    ensures CanStep(f, a) && Making(Next(f, a), Passed(New(todo[0].kind)), None, todo, true)
    ensures Next(f, a).t == f.t && Next(f, a).p == f.p && !a.Create? && OthersFit(Next(f, a))
  {
    hide Fits;
    hide FanInv;
    a := PreCheck(f.t, f.p);
    SameOthersFit(f, Next(f, a));
    hide OthersFit;
    StepKeeps(f, a);
    InvHas(Next(f, a));
  }

  lemma DisableMake(f: Fan, todo: seq<Stmt>) returns (a: Action)
    requires Makes(todo) && Making(f, Passed(New(todo[0].kind)), None, todo, true)
    ensures CanStep(f, a) && Making(Next(f, a), Spin(New(todo[0].kind)), None, todo, true)
    ensures Next(f, a).t == f.t && Next(f, a).p == f.p && !a.Create? && OthersFit(Next(f, a))
  {
    hide Fits;
    hide FanInv;
    a := DisableIrq(f.t);
    SameOthersFit(f, Next(f, a));
    hide OthersFit;
    StepKeeps(f, a);
    InvHas(Next(f, a));
  }

  lemma LockMake(f: Fan, todo: seq<Stmt>) returns (a: Action)
    requires Makes(todo) && Making(f, Spin(New(todo[0].kind)), None, todo, true)
    ensures CanStep(f, a) && Making(Next(f, a), Crit(New(todo[0].kind)), Some(f.t), todo, true)
    ensures Next(f, a).t == f.t && Next(f, a).p == f.p && !a.Create? && OthersFit(Next(f, a))
  {
    hide Fits;
    hide FanInv;
    a := Acquire(f.t);
    SameOthersFit(f, Next(f, a));
    hide OthersFit;
    StepKeeps(f, a);
    InvHas(Next(f, a));
  }

  lemma FreshMsg(live: set<Msg>) returns (m: Msg)
    ensures m !in live
  {
    m := 0;
    var rest := live;
    while rest != {}
      invariant forall x :: x in live ==> x in rest || x < m
      decreases |rest|
    {
      var x :| x in rest;
      rest := rest - {x};
      m := if x >= m then x + 1 else m;
    }
  }

  lemma NewOutside(h: map<Place, Msg>, x: Place, m: Msg, k: Msg, own: set<Place>)
    requires x !in h && x in own && x.Pocket? && forall y :: y in h ==> h[y] != m
    ensures Outside(h[x := m], k) - own == if k == m then {} else Outside(h, k) - own
  {
    assert Outside(h[x := m], k) == if k == m then {x} else Outside(h, k);
  }

  /** A new message has no references but the client's. */
  lemma NewOthersFit(f: Fan, g: Fan, m: Msg)
    requires Inv(f.s) && OthersFit(f) && m !in f.s.live && OwnPlaces(g) == OwnPlaces(f)
    requires g.s.live == f.s.live + {m} && g.s.holders == f.s.holders[Pocket(f.p) := m] && Unused(f.s, f.p)
    ensures OthersFit(g)
  {
    NobodyHoldsNew(f.s, m);
    hide Inv;
    forall k | k in g.s.live ensures |Outside(g.s.holders, k) - OwnPlaces(g)| <= CLIENT_LIMIT - 4 {
      NewOutside(f.s.holders, Pocket(f.p), m, k, OwnPlaces(f));
      hide Outside;
    }
  }

  lemma NobodyHoldsNew(s: State, m: Msg)
    requires Inv(s) && m !in s.live
    ensures forall x :: x in s.holders ==> s.holders[x] != m
  {
  }

  lemma CreateEffect(f: Fan, todo: seq<Stmt>, a: Action)
    requires Makes(todo) && Making(f, Crit(New(todo[0].kind)), Some(f.t), todo, true)
    requires a.Create? && a.t == f.t && a.n == f.p && a.m !in f.s.live
    ensures CanStep(f, a)
    ensures var (g, m) := (Next(f, a), a.m);
      && g.t == f.t && g.p == f.p && g.todo == todo && g.held == 0 && g.calling && g.failed == !a.ok
      && Runnable(g.s, g.t) && g.s.pc[g.t] == Leave(Done)
      && g.s.live == (if a.ok then f.s.live + {m} else f.s.live)
      && g.s.holders == (if a.ok then f.s.holders[Pocket(f.p) := m] else f.s.holders)
  {
    hide Fits;
    hide FanInv;
    hide OthersFit;
  }

  lemma CreateFirst(f: Fan, todo: seq<Stmt>, ok: bool) returns (a: Action)
    requires Makes(todo) && Making(f, Crit(New(todo[0].kind)), Some(f.t), todo, true)
    ensures CanStep(f, a) && Made(Next(f, a), todo, ok) && OthersFit(Next(f, a)) && FailedMake(f, a) == !ok
    ensures Next(f, a).t == f.t && Next(f, a).p == f.p
  {
    hide Fits;
    hide Inv;
    hide Belief;
    var m := FreshMsg(f.s.live);
    a := Create(f.t, m, f.p, ok);
    CreateEffect(f, todo, a);
    hide Next;
    hide CanStep;
    hide Shape;
    if ok {
      NewOthersFit(f, Next(f, a), m);
    } else {
      SameOthersFit(f, Next(f, a));
    }
    hide OthersFit;
    StepKeeps(f, a);
    InvHas(Next(f, a));
  }

  /** What the client has left to do after its allocation. */
  function Rest(todo: seq<Stmt>, ok: bool): seq<Stmt>
    requires Makes(todo)
  {
    if ok then todo[1..] else if todo[0].checked then [] else [UseNull]
  }

  lemma LeaveMake(f: Fan, todo: seq<Stmt>, ok: bool) returns (a: Action)
    requires Makes(todo) && Made(f, todo, ok)
    ensures CanStep(f, a) && !a.Create? && OthersFit(Next(f, a))
    ensures Starts(Next(f, a), Rest(todo, ok), if ok then 1 else 0)
    ensures Next(f, a).t == f.t && Next(f, a).p == f.p
  {
    hide Fits;
    hide FanInv;
    a := Release(f.t);
    SameOthersFit(f, Next(f, a));
    hide OthersFit;
    StepKeeps(f, a);
  }

  lemma FirstSteps(f: Fan, todo: seq<Stmt>) returns (run: seq<Action>, g: Fan)
    requires Makes(todo) && Making(f, Home(f.t), None, todo, false)
    ensures FanRun(f, run) && g == After(f, run) && Making(g, Crit(New(todo[0].kind)), Some(f.t), todo, true)
    ensures g.t == f.t && g.p == f.p && !FailedRun(f, run)
  {
    hide Fits;
    hide CanStep;
    hide Next;
    hide Making;
    hide OthersFit;
    var a0 := BeginMake(f, todo);
    var f1 := Next(f, a0);
    var a1 := CheckMake(f1, todo);
    var f2 := Next(f1, a1);
    var a2 := DisableMake(f2, todo);
    var f3 := Next(f2, a2);
    var a3 := LockMake(f3, todo);
    g := Next(f3, a3);
    run := FanCons(f3, a3, []);
    run := FanCons(f2, a2, run);
    run := FanCons(f1, a1, run);
    run := FanCons(f, a0, run);
    assert run == [a0, a1, a2, a3];
  }

  lemma LastSteps(f: Fan, todo: seq<Stmt>, ok: bool) returns (run: seq<Action>, g: Fan)
    requires Makes(todo) && Making(f, Crit(New(todo[0].kind)), Some(f.t), todo, true)
    ensures FanRun(f, run) && g == After(f, run) && FailedRun(f, run) == !ok
    ensures Starts(g, Rest(todo, ok), if ok then 1 else 0)
  {
    hide Fits;
    hide CanStep;
    hide Next;
    hide Starts;
    hide Making;
    hide Made;
    hide OthersFit;
    var a0 := CreateFirst(f, todo, ok);
    var f1 := Next(f, a0);
    var a1 := LeaveMake(f1, todo, ok);
    g := Next(f1, a1);
    run := FanCons(f1, a1, []);
    run := FanCons(f, a0, run);
    assert run == [a0, a1];
    assert a0 in run;
  }

  lemma {:induction false} FanJoin(f: Fan, a: seq<Action>, b: seq<Action>)
    requires FanRun(f, a) && FanRun(After(f, a), b) && After(f, a).t == f.t
    ensures FanRun(f, a + b) && After(f, a + b) == After(After(f, a), b)
    ensures FailedRun(f, a + b) <==> FailedRun(f, a) || FailedRun(After(f, a), b)
    decreases |a|
  {
    FanJoinRuns(f, a, b);
    SameFailures(f, After(f, a));
    assert forall x :: x in a + b <==> x in a || x in b;
  }

  lemma {:induction false} FanJoinRuns(f: Fan, a: seq<Action>, b: seq<Action>)
    requires FanRun(f, a) && FanRun(After(f, a), b)
    ensures FanRun(f, a + b) && After(f, a + b) == After(After(f, a), b)
    decreases |a|
  {
    hide CanStep;
    hide Next;
    hide OthersFit;
    if a == [] {
      assert a + b == b;
    } else {
      FanJoinRuns(Next(f, a[0]), a[1..], b);
      assert (a + b)[1..] == a[1..] + b;
    }
  }

  /** From any state with the lock free and the client runnable, its allocation can succeed, and it can
      fail. */
  lemma NextMake(f: Fan, todo: seq<Stmt>, ok: bool) returns (run: seq<Action>, g: Fan)
    requires Makes(todo) && Starts(f, todo, 0) && !f.failed
    requires f.s.owner == None && |f.s.irqOff| == CORES && Runnable(f.s, f.t)
    ensures FanRun(f, run) && g == After(f, run) && FailedRun(f, run) == !ok
    ensures Starts(g, Rest(todo, ok), if ok then 1 else 0)
  {
    InvHas(f);
    assert Making(f, Home(f.t), None, todo, false);
    hide Makes;
    hide Starts;
    hide Making;
    hide FanRun;
    hide After;
    hide FailedRun;
    hide Rest;
    var r, run1;
    run, r := FirstSteps(f, todo);
    run1, g := LastSteps(r, todo, ok);
    FanJoin(f, run, run1);
    run := run + run1;
  }

  /** A task that makes a message and keeps it comes to hold its one reference, from boot, so that
      PersistentStays applies to all its sends. */
  lemma KeptMessage(tasks: set<Tid>, t: Tid, p: nat, dsts: seq<nat>) returns (run: seq<Action>)
    requires t in tasks && (forall u :: u in tasks ==> u.Task? && u.core < CORES) && ToCores(dsts)
    ensures var f := Fan(t, p, Boot(tasks), [MakeMsg(User, true)] + Persistent(dsts), 0, 0, false, false);
      FanRun(f, run) && Starts(After(f, run), Persistent(dsts), 1)
  {
    var todo := [MakeMsg(User, true)] + Persistent(dsts);
    assert todo[1..] == Persistent(dsts);
    PersistentFits(dsts);
    assert Fits(todo, 0) && Makes(todo) && Rest(todo, true) == Persistent(dsts);
    var f := Fan(t, p, Boot(tasks), todo, 0, 0, false, false);
    BootStarts(tasks, t, p, todo);
    assert f.s.owner == None && |f.s.irqOff| == CORES && Runnable(f.s, f.t);
    hide *;
    var g;
    run, g := NextMake(f, todo, true);
  }

  /** Wherever the SHARC may send its answer to a ping, a run leads it to go on with NULL. */
  lemma NullAnswer(f: Fan) returns (run: seq<Action>)
    requires Starts(f, PING_ANSWER, 0) && !f.failed
    requires f.s.owner == None && |f.s.irqOff| == CORES && Runnable(f.s, f.t)
    ensures FanRun(f, run) && FailedRun(f, run) && Starts(After(f, run), [UseNull], 0)
  {
    assert Makes(PING_ANSWER) && Rest(PING_ANSWER, false) == [UseNull];
    hide *;
    var g;
    run, g := NextMake(f, PING_ANSWER, false);
  }
}
