/** A run in which the 8-bit reference count wraps although both callers checked it. */
module IpcRace {
  import opened MsgRing
  import opened IpcProtocol
  import opened IpcSafety
  import opened IpcTheorems

  ghost predicate EnabledRun(s: State, run: seq<Action>)
    decreases |run|
  {
    run != [] ==> Enabled(s, run[0]) && EnabledRun(Do(s, run[0]), run[1..])
  }

  ghost function RunAll(s: State, run: seq<Action>): State
    requires EnabledRun(s, run)
    decreases |run|
  {
    if run == [] then s else RunAll(Do(s, run[0]), run[1..])
  }

  const T0: Tid := Task(0, 0)
  const T1: Tid := Task(1, 0)

  /** What the race needs of a state: the pcs and what makes the two tasks runnable. */
  ghost predicate RaceAt(s: State, p0: Pc, p1: Pc, owner: Option<Tid>, irq0: Option<Tid>, irq1: Option<Tid>, ref: int)
  {
    && Inv(s) && Shape(s) && T0 in s.pc && T1 in s.pc && s.pc[T0] == p0 && s.pc[T1] == p1 && s.owner == owner
    && s.irqOff[0] == irq0 && s.irqOff[1] == irq1
    && s.pc[Handler(0)] == Off && s.pc[Handler(1)] == Off && 0 in s.ref && s.ref[0] == ref
  }

  lemma RunCons(s: State, a: Action, run: seq<Action>) returns (r: seq<Action>)
    requires Enabled(s, a) && EnabledRun(Do(s, a), run)
    ensures EnabledRun(s, r) && RunAll(s, r) == RunAll(Do(s, a), run)
  {
    r := [a] + run;
    assert r[1..] == run;
  }

  lemma {:induction false} RunJoin(s: State, a: seq<Action>, b: seq<Action>)
    requires EnabledRun(s, a) && EnabledRun(RunAll(s, a), b)
    ensures EnabledRun(s, a + b) && RunAll(s, a + b) == RunAll(RunAll(s, a), b)
    decreases |a|
  {
    hide Do;
    hide Enabled;
    if a == [] {
      assert a + b == b;
    } else {
      RunJoin(Do(s, a[0]), a[1..], b);
      assert (a + b)[1..] == a[1..] + b;
    }
  }

  lemma InvShape(s: State)
    requires Inv(s)
    ensures Shape(s)
  {
  }

  /** Tasks T0 and T1 are idle, and T0 has n references to message 0 in its variables. */
  ghost predicate Stock(s: State, n: nat)
  {
    && RaceAt(s, Idle, Idle, None, None, None, n)
    && (forall x :: x in s.holders <==> x.Pocket? && x.n < n)
    && (forall x :: x in s.holders ==> s.holders[x] == 0)
  }

  // ---------------------------------------------------------------- getting the references

  ghost predicate Quiet(s: State, p0: Pc, owner: Option<Tid>, irq0: Option<Tid>)
  {
    && Inv(s) && Shape(s) && T0 in s.pc && T1 in s.pc && s.pc[T0] == p0 && s.pc[T1] == Idle && s.owner == owner
    && s.irqOff[0] == irq0 && s.irqOff[1] == None && s.pc[Handler(0)] == Off && s.pc[Handler(1)] == Off
    && s.live == {} && s.holders == map[]
  }

  lemma BootQuiet()
    ensures Quiet(Boot({T0, T1}), Idle, None, None)
  {
    BootInv({T0, T1});
    hide Inv;
  }

  lemma FirstCall(s: State) returns (run: seq<Action>, r: State)
    requires Quiet(s, Idle, None, None)
    ensures EnabledRun(s, run) && r == RunAll(s, run) && Quiet(r, Passed(New(User)), None, None)
  {
    hide Inv;
    var s1 := Do(s, Begin(T0, New(User), 0));
    DoKeeps(s, Begin(T0, New(User), 0));
    InvShape(s1);
    assert Quiet(s1, Check(New(User)), None, None);
    r := Do(s1, PreCheck(T0, 0));
    DoKeeps(s1, PreCheck(T0, 0));
    InvShape(r);
    assert Quiet(r, Passed(New(User)), None, None);
    hide Enabled;
    hide Do;
    hide Quiet;
    run := RunCons(s1, PreCheck(T0, 0), []);
    run := RunCons(s, Begin(T0, New(User), 0), run);
  }

  lemma FirstCreate(s: State) returns (run: seq<Action>, r: State)
    requires Quiet(s, Crit(New(User)), Some(T0), Some(T0))
    ensures EnabledRun(s, run) && r == RunAll(s, run) && r.holders == map[Pocket(0) := 0]
    ensures RaceAt(r, Leave(Done), Idle, Some(T0), Some(T0), None, 1)
  {
    hide Inv;
    r := Do(s, Create(T0, 0, 0, true));
    DoKeeps(s, Create(T0, 0, 0, true));
    InvShape(r);
    assert RaceAt(r, Leave(Done), Idle, Some(T0), Some(T0), None, 1);
    hide Enabled;
    hide Do;
    hide RaceAt;
    hide Quiet;
    run := RunCons(s, Create(T0, 0, 0, true), []);
  }

  lemma FirstLock(s: State) returns (run: seq<Action>, r: State)
    requires Quiet(s, Passed(New(User)), None, None)
    ensures EnabledRun(s, run) && r == RunAll(s, run) && Quiet(r, Crit(New(User)), Some(T0), Some(T0))
  {
    hide Inv;
    var s1 := Do(s, DisableIrq(T0));
    DoKeeps(s, DisableIrq(T0));
    InvShape(s1);
    assert Quiet(s1, Spin(New(User)), None, Some(T0));
    r := Do(s1, Acquire(T0));
    DoKeeps(s1, Acquire(T0));
    InvShape(r);
    assert Quiet(r, Crit(New(User)), Some(T0), Some(T0));
    hide Enabled;
    hide Do;
    hide Quiet;
    run := RunCons(s1, Acquire(T0), []);
    run := RunCons(s, DisableIrq(T0), run);
  }

  lemma FirstRef(s: State) returns (run: seq<Action>, r: State)
    requires Quiet(s, Idle, None, None)
    ensures EnabledRun(s, run) && r == RunAll(s, run) && Stock(r, 1)
  {
    hide Quiet;
    hide RaceAt;
    hide EnabledRun;
    hide RunAll;
    var r1, r2, r3, run1, run2, run3;
    run, r1 := FirstCall(s);
    run1, r2 := FirstLock(r1);
    run2, r3 := FirstCreate(r2);
    run3, r := RaceEnd(r3, Idle, 1);
    assert Stock(r, 1);
    hide Stock;
    RunJoin(s, run, run1);
    RunJoin(s, run + run1, run2);
    RunJoin(s, run + run1 + run2, run3);
    run := run + run1 + run2 + run3;
  }

  lemma MoreBegin(s: State, n: nat) returns (run: seq<Action>, r: State)
    requires Stock(s, n) && 0 < n < 255
    ensures EnabledRun(s, run) && r == RunAll(s, run) && r.holders == Move(s.holders, Pocket(0), Busy(T0))
    ensures RaceAt(r, Passed(Ref(0)), Idle, None, None, None, n)
  {
    hide Inv;
    var s1 := Do(s, Begin(T0, Ref(0), 0));
    DoKeeps(s, Begin(T0, Ref(0), 0));
    InvShape(s1);
    assert RaceAt(s1, Check(Ref(0)), Idle, None, None, None, n);
    r := Do(s1, PreCheck(T0, 0));
    DoKeeps(s1, PreCheck(T0, 0));
    InvShape(r);
    assert RaceAt(r, Passed(Ref(0)), Idle, None, None, None, n);
    hide Enabled;
    hide Do;
    hide RaceAt;
    run := RunCons(s1, PreCheck(T0, 0), []);
    run := RunCons(s, Begin(T0, Ref(0), 0), run);
  }

  /** One more reference. */
  lemma MoreRefs(s: State, n: nat) returns (run: seq<Action>, r: State)
    requires Stock(s, n) && 0 < n < 255
    ensures EnabledRun(s, run) && r == RunAll(s, run) && Stock(r, n + 1)
  {
    var r1, r2, r3, run1, run2, run3;
    hide Inv;
    hide RaceAt;
    hide EnabledRun;
    hide RunAll;
    run, r1 := MoreBegin(s, n);
    var h := Move(s.holders, Pocket(0), Busy(T0));
    assert Pocket(0) !in h && Pocket(n) !in h && Busy(T0) in h && h[Busy(T0)] == 0;
    run1, r2 := RaceTake(r1, Idle, n, 0);
    run2, r3 := RaceStore(r2, Idle, n, 0, n);
    run3, r := RaceEnd(r3, Idle, n + 1);
    MoreHolders(s.holders, n);
    assert Stock(r, n + 1);
    hide Stock;
    hide Move;
    RunJoin(s, run, run1);
    RunJoin(s, run + run1, run2);
    RunJoin(s, run + run1 + run2, run3);
    run := run + run1 + run2 + run3;
  }

  lemma MoreHolders(h: map<Place, Msg>, n: nat)
    requires n > 0 && (forall x :: x in h <==> x.Pocket? && x.n < n) && (forall x :: x in h ==> h[x] == 0)
    ensures var h' := Move(Move(h, Pocket(0), Busy(T0)), Busy(T0), Pocket(0))[Pocket(n) := 0];
      (forall x :: x in h' <==> x.Pocket? && x.n < n + 1) && (forall x :: x in h' ==> h'[x] == 0)
  {
  }

  /** Any number of references up to 255 can be had. */
  lemma {:induction false} StockRun(n: nat) returns (run: seq<Action>, r: State)
    requires 0 < n <= 255
    ensures EnabledRun(Boot({T0, T1}), run) && r == RunAll(Boot({T0, T1}), run) && Stock(r, n)
  {
    BootQuiet();
    hide Stock;
    hide Quiet;
    hide Boot;
    hide EnabledRun;
    hide RunAll;
    var s := Boot({T0, T1});
    if n == 1 {
      run, r := FirstRef(s);
    } else {
      var run1;
      run, r := StockRun(n - 1);
      run1, r := MoreRefs(r, n - 1);
      RunJoin(s, run, run1);
      run := run + run1;
    }
  }

  // ---------------------------------------------------------------- the race

  lemma RaceBegin(s: State) returns (run: seq<Action>, r: State)
    requires Stock(s, 254)
    ensures EnabledRun(s, run) && r == RunAll(s, run)
    ensures RaceAt(r, Check(Ref(0)), Check(Ref(0)), None, None, None, 254)
    ensures Unused(r, 252) && Unused(r, 253) && Unused(r, 254) && Unused(r, 255)
    ensures Lookup(r.holders, Busy(T0)) == Lookup(r.holders, Busy(T1)) == Some(0)
  {
    hide Inv;
    var s1 := Do(s, Begin(T0, Ref(0), 252));
    DoKeeps(s, Begin(T0, Ref(0), 252));
    InvShape(s1);
    assert RaceAt(s1, Check(Ref(0)), Idle, None, None, None, 254);
    r := Do(s1, Begin(T1, Ref(0), 253));
    DoKeeps(s1, Begin(T1, Ref(0), 253));
    InvShape(r);
    assert RaceAt(r, Check(Ref(0)), Check(Ref(0)), None, None, None, 254);
    assert r.holders == Move(Move(s.holders, Pocket(252), Busy(T0)), Pocket(253), Busy(T1));
    hide Enabled;
    hide Do;
    hide RaceAt;
    run := RunCons(s1, Begin(T1, Ref(0), 253), []);
    run := RunCons(s, Begin(T0, Ref(0), 252), run);
  }

  lemma RaceChecks(s: State) returns (run: seq<Action>, r: State)
    requires RaceAt(s, Check(Ref(0)), Check(Ref(0)), None, None, None, 254) && Unused(s, 252)
    ensures EnabledRun(s, run) && r == RunAll(s, run) && r.holders == s.holders
    ensures RaceAt(r, Passed(Ref(0)), Passed(Ref(0)), None, None, None, 254)
  {
    hide Inv;
    var s1 := Do(s, PreCheck(T0, 252));
    DoKeeps(s, PreCheck(T0, 252));
    InvShape(s1);
    assert RaceAt(s1, Passed(Ref(0)), Check(Ref(0)), None, None, None, 254);
    r := Do(s1, PreCheck(T1, 252));
    DoKeeps(s1, PreCheck(T1, 252));
    InvShape(r);
    assert RaceAt(r, Passed(Ref(0)), Passed(Ref(0)), None, None, None, 254);
    hide Enabled;
    hide Do;
    hide RaceAt;
    run := RunCons(s1, PreCheck(T1, 252), []);
    run := RunCons(s, PreCheck(T0, 252), run);
  }

  /** T0 disables its interrupts. */
  lemma RaceDisable(s: State, p1: Pc, ref: nat) returns (run: seq<Action>, r: State)
    requires RaceAt(s, Passed(Ref(0)), p1, None, None, None, ref)
    ensures EnabledRun(s, run) && r == RunAll(s, run) && r.holders == s.holders
    ensures RaceAt(r, Spin(Ref(0)), p1, None, Some(T0), None, ref)
  {
    hide Inv;
    r := Do(s, DisableIrq(T0));
    DoKeeps(s, DisableIrq(T0));
    InvShape(r);
    assert RaceAt(r, Spin(Ref(0)), p1, None, Some(T0), None, ref);
    hide Enabled;
    hide Do;
    hide RaceAt;
    run := RunCons(s, DisableIrq(T0), []);
  }

  /** T0 takes the lock and loads the count. */
  lemma RaceLoad(s: State, p1: Pc, ref: nat, n: nat) returns (run: seq<Action>, r: State)
    requires RaceAt(s, Spin(Ref(0)), p1, None, Some(T0), None, ref) && Unused(s, n)
    ensures EnabledRun(s, run) && r == RunAll(s, run) && r.holders == s.holders
    ensures RaceAt(r, Mid(Ref(0), ref), p1, Some(T0), Some(T0), None, ref)
  {
    hide Inv;
    assert |s.rings| == |s.irqOff| == CORES;
    hide Shape;
    hide PcFits;
    var s1 := Do(s, Acquire(T0));
    DoKeeps(s, Acquire(T0));
    InvShape(s1);
    assert RaceAt(s1, Crit(Ref(0)), p1, Some(T0), Some(T0), None, ref);
    r := Do(s1, Access(T0, n));
    DoKeeps(s1, Access(T0, n));
    InvShape(r);
    assert RaceAt(r, Mid(Ref(0), ref), p1, Some(T0), Some(T0), None, ref);
    hide Enabled;
    hide Do;
    hide RaceAt;
    run := RunCons(s1, Access(T0, n), []);
    run := RunCons(s, Acquire(T0), run);
  }

  lemma RaceTake(s: State, p1: Pc, ref: nat, n: nat) returns (run: seq<Action>, r: State)
    requires RaceAt(s, Passed(Ref(0)), p1, None, None, None, ref) && Unused(s, n)
    ensures EnabledRun(s, run) && r == RunAll(s, run) && r.holders == s.holders
    ensures RaceAt(r, Mid(Ref(0), ref), p1, Some(T0), Some(T0), None, ref)
  {
    hide RaceAt;
    hide EnabledRun;
    hide RunAll;
    var s1, run1;
    run, s1 := RaceDisable(s, p1, ref);
    run1, r := RaceLoad(s1, p1, ref, n);
    RunJoin(s, run, run1);
    run := run + run1;
  }

  lemma StoreFits(s: State, n: nat, n2: nat)
    requires Inv(s) && Enabled(s, Commit(T0, n, n2)) && s.pc[T0].op == Ref(0) && 0 in s.ref && s.ref[0] < 255
    requires Lookup(s.holders, Busy(T0)) == Some(0)
    ensures RefFits(s, Commit(T0, n, n2))
  {
    RefIsCount(s);
    hide Inv;
    hide Shape;
    CountMove(s.holders, Busy(T0), Pocket(n), 0);
    CountAdd(Move(s.holders, Busy(T0), Pocket(n)), Pocket(n2), 0, 0);
  }

  /** T0 stores the incremented count. */
  lemma RaceStore(s: State, p1: Pc, ref: nat, n: nat, n2: nat) returns (run: seq<Action>, r: State)
    requires RaceAt(s, Mid(Ref(0), ref), p1, Some(T0), Some(T0), None, ref) && ref < 255
    requires Unused(s, n) && Unused(s, n2) && n != n2 && Lookup(s.holders, Busy(T0)) == Some(0)
    ensures EnabledRun(s, run) && r == RunAll(s, run)
    ensures r.holders == Move(s.holders, Busy(T0), Pocket(n))[Pocket(n2) := 0]
    ensures RaceAt(r, Leave(Done), p1, Some(T0), Some(T0), None, ref + 1)
  {
    hide Inv;
    hide RefFits;
    hide Count;
    hide Move;
    var a := Commit(T0, n, n2);
    r := Do(s, a);
    StoreFits(s, n, n2);
    DoKeeps(s, a);
    InvShape(r);
    assert RaceAt(r, Leave(Done), p1, Some(T0), Some(T0), None, ref + 1);
    hide Enabled;
    hide Do;
    hide RaceAt;
    run := RunCons(s, a, []);
  }

  /** T0 gives the lock back. */
  lemma RaceEnd(s: State, p1: Pc, ref: nat) returns (run: seq<Action>, r: State)
    requires RaceAt(s, Leave(Done), p1, Some(T0), Some(T0), None, ref)
    ensures EnabledRun(s, run) && r == RunAll(s, run) && r.holders == s.holders
    ensures RaceAt(r, Idle, p1, None, None, None, ref)
  {
    hide Inv;
    r := Do(s, Release(T0));
    DoKeeps(s, Release(T0));
    InvShape(r);
    assert RaceAt(r, Idle, p1, None, None, None, ref);
    hide Enabled;
    hide Do;
    hide RaceAt;
    run := RunCons(s, Release(T0), []);
  }

  lemma RefIsCount(s: State)
    requires Inv(s) && 0 in s.ref
    ensures s.ref[0] == Count(s.holders, 0)
  {
  }

  lemma RaceSecond(s: State) returns (run: seq<Action>, r: State)
    requires RaceAt(s, Idle, Passed(Ref(0)), None, None, None, 255)
    ensures EnabledRun(s, run) && r == RunAll(s, run) && r.holders == s.holders
    ensures RaceAt(r, Idle, Crit(Ref(0)), Some(T1), None, Some(T1), 255)
  {
    hide Inv;
    var s1 := Do(s, DisableIrq(T1));
    DoKeeps(s, DisableIrq(T1));
    InvShape(s1);
    assert RaceAt(s1, Idle, Spin(Ref(0)), None, None, Some(T1), 255);
    r := Do(s1, Acquire(T1));
    DoKeeps(s1, Acquire(T1));
    InvShape(r);
    assert RaceAt(r, Idle, Crit(Ref(0)), Some(T1), None, Some(T1), 255);
    hide Enabled;
    hide Do;
    hide RaceAt;
    run := RunCons(s1, Acquire(T1), []);
    run := RunCons(s, DisableIrq(T1), run);
  }

  /** The second increment, to 0. */
  lemma RaceWrap(s: State) returns (run: seq<Action>, r: State)
    requires RaceAt(s, Idle, Crit(Ref(0)), Some(T1), None, Some(T1), 255)
    requires Unused(s, 254) && Unused(s, 255)
    ensures EnabledRun(s, run) && r == RunAll(s, run)
    ensures r.holders == Move(s.holders, Busy(T1), Pocket(254))[Pocket(255) := 0]
    ensures 0 in r.ref && r.ref[0] == 0
  {
    hide Inv;
    assert |s.rings| == |s.irqOff| == CORES;
    hide Shape;
    hide PcFits;
    hide Move;
    var s1 := Do(s, Access(T1, 254));
    DoKeeps(s, Access(T1, 254));
    InvShape(s1);
    assert RaceAt(s1, Idle, Mid(Ref(0), 255), Some(T1), None, Some(T1), 255) && s1.holders == s.holders;
    r := Do(s1, Commit(T1, 254, 255));
    assert 0 in r.ref && r.ref[0] == 0;
    hide Enabled;
    hide Do;
    hide RaceAt;
    run := RunCons(s1, Commit(T1, 254, 255), []);
    run := RunCons(s, Access(T1, 254), run);
  }

  lemma CountAt(s: State, n: nat)
    requires Inv(s) && 0 in s.ref && s.ref[0] == n
    ensures Count(s.holders, 0) == n
  {
  }

  /** T0's increment, after both have checked. */
  lemma RaceFirst(s: State) returns (run: seq<Action>, r: State)
    requires RaceAt(s, Check(Ref(0)), Check(Ref(0)), None, None, None, 254)
    requires Unused(s, 252) && Unused(s, 253) && Lookup(s.holders, Busy(T0)) == Some(0)
    ensures EnabledRun(s, run) && r == RunAll(s, run)
    ensures RaceAt(r, Idle, Passed(Ref(0)), None, None, None, 255)
    ensures r.holders == Move(s.holders, Busy(T0), Pocket(252))[Pocket(253) := 0]
  {
    hide RaceAt;
    hide EnabledRun;
    hide RunAll;
    hide Move;
    var s1, s2, s3, run1, run2, run3;
    run, s1 := RaceChecks(s);
    run1, s2 := RaceTake(s1, Passed(Ref(0)), 254, 252);
    run2, s3 := RaceStore(s2, Passed(Ref(0)), 254, 252, 253);
    run3, r := RaceEnd(s3, Passed(Ref(0)), 255);
    hide Unused;
    hide Lookup;
    RunJoin(s, run, run1);
    RunJoin(s, run + run1, run2);
    RunJoin(s, run + run1 + run2, run3);
    run := run + run1 + run2 + run3;
  }

  /** T1's increment. */
  lemma RaceLast(s: State) returns (run: seq<Action>, r: State)
    requires RaceAt(s, Idle, Passed(Ref(0)), None, None, None, 255) && Unused(s, 254) && Unused(s, 255)
    ensures EnabledRun(s, run) && r == RunAll(s, run)
    ensures r.holders == Move(s.holders, Busy(T1), Pocket(254))[Pocket(255) := 0]
    ensures 0 in r.ref && r.ref[0] == 0
  {
    hide RaceAt;
    hide EnabledRun;
    hide RunAll;
    hide Move;
    var s1, run1;
    run, s1 := RaceSecond(s);
    run1, r := RaceWrap(s1);
    RunJoin(s, run, run1);
    run := run + run1;
  }

  /** From 254 references on. */
  lemma Race(s: State) returns (run: seq<Action>)
    requires Stock(s, 254)
    ensures EnabledRun(s, run) && Wrapped(RunAll(s, run))
  {
    hide EnabledRun;
    hide RunAll;
    hide Stock;
    hide Inv;
    var s0, s1, r, run1, run2;
    run, s0 := RaceBegin(s);
    CountAt(s0, 254);
    hide RaceAt;
    hide Count;
    run1, s1 := RaceFirst(s0);
    run2, r := RaceLast(s1);
    RaceCounts(s0.holders);
    assert Wrapped(r);
    hide Wrapped;
    hide Unused;
    hide Move;
    hide Lookup;
    RunJoin(s, run, run1);
    RunJoin(s, run + run1, run2);
    run := run + run1 + run2;
  }

  /** Message 0 has 256 references and count 0. */
  ghost predicate Wrapped(s: State) { 0 in s.ref && s.ref[0] == 0 && Count(s.holders, 0) == 256 }

  /** The check before the lock does not keep the count from wrapping: there is a run from the start of
      the system in which two tasks both see 254, both increment, and the message with 256 references
      has count 0. */
  lemma CheckBeforeLockIsNotEnough()
    ensures exists run :: EnabledRun(Boot({T0, T1}), run) && Wrapped(RunAll(Boot({T0, T1}), run))
  {
    hide Stock;
    hide Wrapped;
    hide Boot;
    hide EnabledRun;
    hide RunAll;
    var run, r := StockRun(254);
    var run1 := Race(r);
    RunJoin(Boot({T0, T1}), run, run1);
    assert EnabledRun(Boot({T0, T1}), run + run1);
  }

  lemma RaceCounts(h: map<Place, Msg>)
    requires Busy(T0) in h && Busy(T1) in h && h[Busy(T0)] == h[Busy(T1)] == 0
    requires Pocket(252) !in h && Pocket(253) !in h && Pocket(254) !in h && Pocket(255) !in h
    ensures var h1 := Move(h, Busy(T0), Pocket(252))[Pocket(253) := 0];
      Count(Move(h1, Busy(T1), Pocket(254))[Pocket(255) := 0], 0) == Count(h, 0) + 2
  {
    hide Count;
    var h1 := Move(h, Busy(T0), Pocket(252))[Pocket(253) := 0];
    CountMove(h, Busy(T0), Pocket(252), 0);
    CountAdd(Move(h, Busy(T0), Pocket(252)), Pocket(253), 0, 0);
    CountMove(h1, Busy(T1), Pocket(254), 0);
    CountAdd(Move(h1, Busy(T1), Pocket(254)), Pocket(255), 0, 0);
  }
}
