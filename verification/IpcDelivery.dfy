/** Where the messages of the clients go: whatever the interleaving, a client that is done has had its
    message accepted by every core that it sends it to, unless its allocation failed or that core was
    not registered or had 15 messages waiting. */
module IpcDelivery {
  import opened MsgRing
  import opened IpcProtocol
  import opened IpcSafety
  import opened IpcTheorems
  import opened IpcFanout

  /** The call in progress has taken effect, or was refused. */
  predicate Resolved(f: Fan)
    requires f.t in f.s.pc
  {
    f.calling && (f.s.pc[f.t].Leave? || f.s.pc[f.t].Fire?)
  }

  /** The client is still to send to core d. */
  predicate Ahead(f: Fan, d: nat) {
    && f.t in f.s.pc && f.todo != []
    && ((f.todo[0] == SendTo(d) && !Resolved(f)) || SendTo(d) in f.todo[1..])
  }

  /** Nothing is allocated after the first statement. */
  predicate MakesFirst(todo: seq<Stmt>) { todo != [] ==> forall x :: x in todo[1..] ==> !x.MakeMsg? }

  predicate MakeLost(f: Fan) { f.calling && f.failed && f.todo != [] && f.todo[0].MakeMsg? }

  /** This step refuses the client's send to core d, and for one of two reasons. */
  ghost predicate Refused(f: Fan, a: Action, d: nat) {
    && a.Access? && a.t == f.t && Shape(f.s) && d < CORES
    && f.todo != [] && f.todo[0] == SendTo(d)
    && (f.s.trigger[d] == 0 || |f.s.logs[d]| - f.s.gots[d] == 15)
  }

  ghost predicate RefusedRun(f: Fan, run: seq<Action>, d: nat)
    requires FanRun(f, run)
    decreases |run|
  {
    run != [] && (Refused(f, run[0], d) || RefusedRun(Next(f, run[0]), run[1..], d))
  }

  /** Core d accepted the client's message, as one of those after the first n. */
  ghost predicate Accepted(f: Fan, d: nat, n: nat) {
    d < |f.s.logs| && exists i :: n <= i < |f.s.logs[d]| && f.s.logs[d][i] == f.m
  }

  // ---------------------------------------------------------------- one step

  lemma RestOf(rest: seq<Stmt>)
    ensures forall x :: x in rest ==> rest != [] && (x == rest[0] || x in rest[1..])
    ensures rest != [] ==> forall x :: x in rest[1..] ==> x in rest
    ensures ([DropRef] + rest)[1..] == rest
  {
  }

  lemma ForeignAhead(f: Fan, a: Action, d: nat)
    requires Belief(f) && CanStep(f, a) && !OwnAction(f, a) && Ahead(f, d)
    ensures Ahead(Next(f, a), d) && Next(f, a) == f.(s := Do(f.s, a))
  {
    DoFramed(f.s, a);
    hide Do;
    hide Fits;
    hide Pockets;
    hide Lookup;
  }

  /** The statement being run is the send to d. */
  lemma HeadStep(f: Fan, a: Action, d: nat)
    requires Inv(f.s) && Belief(f) && CanStep(f, a) && OwnAction(f, a) && d < CORES
    requires f.todo != [] && f.todo[0] == SendTo(d) && !Resolved(f)
    ensures var g := Next(f, a);
      && g.todo == f.todo && g.m == f.m
      && (Ahead(g, d) || Refused(f, a, d) || Sent(f, g, d))
  {
    match a
    case Access(t, n) => AccessAhead(f, n, d);
    case Commit(t, n, n2) => CommitAhead(f, n, n2, d);
    case _ => EnteringAhead(f, a, d);
  }

  lemma EnteringAhead(f: Fan, a: Action, d: nat)
    requires Belief(f) && CanStep(f, a) && OwnAction(f, a) && !a.Access? && !a.Commit?
    requires f.todo != [] && f.todo[0] == SendTo(d) && !Resolved(f)
    ensures var g := Next(f, a); g.todo == f.todo && g.m == f.m && Ahead(g, d)
  {
    hide Fits;
    hide Pockets;
    hide Shape;
    hide Runnable;
    hide Move;
    hide DoDispatch;
    hide DoCreate;
    hide DoRelease;
  }

  ghost predicate Sent(f: Fan, g: Fan, d: nat) {
    d < |f.s.logs| && |g.s.logs| == |f.s.logs| && g.s.logs[d] == f.s.logs[d] + [f.m]
  }

  lemma AccessAhead(f: Fan, n: nat, d: nat)
    requires Inv(f.s) && Belief(f) && CanStep(f, Access(f.t, n)) && OwnAction(f, Access(f.t, n)) && d < CORES
    requires f.todo != [] && f.todo[0] == SendTo(d) && !Resolved(f)
    ensures var g := Next(f, Access(f.t, n));
      g.todo == f.todo && g.m == f.m && (Ahead(g, d) || Refused(f, Access(f.t, n), d))
  {
    AccessNext(f, n);
    QueueLength(f.s, d);
    hide Inv;
    hide Belief;
    hide Holds;
    hide Next;
    hide CanStep;
  }

  lemma CommitAhead(f: Fan, n: nat, n2: nat, d: nat)
    requires Inv(f.s) && Belief(f) && CanStep(f, Commit(f.t, n, n2)) && OwnAction(f, Commit(f.t, n, n2)) && d < CORES
    requires f.todo != [] && f.todo[0] == SendTo(d) && !Resolved(f)
    ensures var g := Next(f, Commit(f.t, n, n2));
      g.todo == f.todo && g.m == f.m && Sent(f, g, d)
  {
    CommitNext(f, n, n2);
    CommitQueues(f.s, f.t, n, n2);
    hide Belief;
    hide Next;
    hide CanStep;
    hide DoCommit;
  }

  /** It is another one. */
  lemma TailStep(f: Fan, a: Action, d: nat)
    requires Belief(f) && CanStep(f, a) && OwnAction(f, a) && !FailedMake(f, a) && !MakeLost(f)
    requires f.todo != [] && SendTo(d) in f.todo[1..]
    ensures Ahead(Next(f, a), d)
  {
    hide Fits;
    hide Pockets;
    hide Shape;
    hide Do;
    hide Enabled;
    RestOf(f.todo[1..]);
  }

  /** Once allocated, the message stays the same; an allocation lost is one that failed. */
  lemma SameMsg(f: Fan, a: Action)
    requires Belief(f) && CanStep(f, a) && !FailedMake(f, a) && !MakeLost(f) && MakesFirst(f.todo)
    ensures var g := Next(f, a);
      && g.t == f.t && !MakeLost(g) && MakesFirst(g.todo)
      && (f.todo == [] || !f.todo[0].MakeMsg? ==> g.m == f.m && (g.todo == [] || !g.todo[0].MakeMsg?))
  {
    if OwnAction(f, a) && (a.Create? || a.Access?) {
      MakeNotOver(f, a);
    }
    hide Fits;
    hide Pockets;
    hide Shape;
    hide Do;
    hide Enabled;
    hide ForeignAction;
    if f.todo != [] {
      RestOf(f.todo[1..]);
    }
  }

  lemma AheadStep(f: Fan, a: Action, d: nat)
    requires FanInv(f) && CanStep(f, a) && Ahead(f, d) && !FailedMake(f, a) && !MakeLost(f) && d < CORES
    ensures var g := Next(f, a);
      || Ahead(g, d) || Refused(f, a, d)
      || (Sent(f, g, d) && g.m == f.m && g.todo == f.todo && !f.todo[0].MakeMsg?)
  {
    if !OwnAction(f, a) {
      ForeignAhead(f, a, d);
    } else if SendTo(d) in f.todo[1..] {
      TailStep(f, a, d);
    } else {
      HeadStep(f, a, d);
    }
  }

  /** A step only adds to what a core accepted. */
  lemma LogGrows(f: Fan, a: Action, d: nat)
    requires FanInv(f) && CanStep(f, a) && d < CORES
    ensures d < |f.s.logs| && d < |Next(f, a).s.logs| && f.s.logs[d] <= Next(f, a).s.logs[d]
  {
    NextKeepsName(f, a);
    hide Next;
    TakenOne(f.s, a, d);
    hide Inv;
    hide Do;
    hide Enabled;
  }

  // ---------------------------------------------------------------- whole runs

  /** What core d accepted of the client stays accepted. */
  lemma {:induction false} StaysAccepted(f: Fan, run: seq<Action>, d: nat, n: nat)
    requires FanInv(f) && OthersFit(f) && FanRun(f, run) && d < CORES && Accepted(f, d, n)
    requires MakesFirst(f.todo) && (f.todo == [] || !f.todo[0].MakeMsg?)
    ensures Accepted(After(f, run), d, n)
    decreases |run|
  {
    hide Inv;
    hide Belief;
    hide CanStep;
    hide OthersFit;
    hide Next;
    hide MakesFirst;
    if run != [] {
      var a, g := run[0], Next(f, run[0]);
      StepKeeps(f, a);
      LogGrows(f, a, d);
      NoMakeFails(f, a);
      SameMsg(f, a);
      var i :| n <= i < |f.s.logs[d]| && f.s.logs[d][i] == f.m;
      assert g.s.logs[d][i] == g.m;
      StaysAccepted(g, run[1..], d, n);
    }
  }

  lemma NoMakeFails(f: Fan, a: Action)
    requires Belief(f) && CanStep(f, a) && (f.todo == [] || !f.todo[0].MakeMsg?)
    ensures !FailedMake(f, a) && !MakeLost(f)
  {
    if OwnAction(f, a) && a.Create? {
      MakeNotOver(f, a);
    } else if !OwnAction(f, a) {
      ForeignNoMake(f, a);
    }
  }

  /** Over any run: a send to core d that is ahead stays ahead, or the message is accepted, or the send
      is refused, or the allocation has failed. */
  lemma {:induction false} SendsReach(f: Fan, run: seq<Action>, d: nat)
    requires FanInv(f) && OthersFit(f) && FanRun(f, run) && d < CORES && Ahead(f, d)
    requires MakesFirst(f.todo) && !MakeLost(f)
    ensures var g := After(f, run);
      d < |f.s.logs| && (Ahead(g, d) || FailedRun(f, run) || RefusedRun(f, run, d) || Accepted(g, d, |f.s.logs[d]|))
    decreases |run|
  {
    hide Inv;
    hide Belief;
    hide CanStep;
    hide OthersFit;
    hide Next;
    hide MakesFirst;
    hide MakeLost;
    hide FailedMake;
    hide Ahead;
    hide Refused;
    if run == [] {
      ShapeOf(f);
    } else {
      var a, g := run[0], Next(f, run[0]);
      assert a in run;
      StepKeeps(f, a);
      LogGrows(f, a, d);
      if !FailedMake(f, a) {
        SameMsg(f, a);
        AheadStep(f, a, d);
        if Ahead(g, d) {
          SendsReach(g, run[1..], d);
          FailsTogether(f, g, run);
        } else if !Refused(f, a, d) {
          assert g.s.logs[d][|f.s.logs[d]|] == g.m;
          StaysAccepted(g, run[1..], d, |f.s.logs[d]|);
        }
      }
    }
  }

  lemma ShapeOf(f: Fan)
    requires FanInv(f)
    ensures |f.s.logs| == CORES
  {
  }

  lemma FailsTogether(f: Fan, g: Fan, run: seq<Action>)
    requires run != [] && f.t == g.t
    ensures FailedRun(g, run[1..]) ==> FailedRun(f, run)
  {
    SameFailures(f, g);
    assert forall a :: a in run[1..] ==> a in run;
    hide FailedMake;
  }

  lemma InProgram(todo: seq<Stmt>, dst: nat, d: nat)
    requires || (todo == PING_BOTH && d in {1, 2}) || (todo == DOMAIN_FIRED && d in {1, 2})
             || (todo == BROADCAST && d in {0, 1, 2}) || (todo == Quick(dst) && d == dst) || (todo == PING_ANSWER && d == 0)
    ensures todo != [] && todo[0].MakeMsg? && SendTo(d) in todo[1..] && MakesFirst(todo)
  {
    var rest := todo[1..];
    assert todo == [todo[0]] + rest;
    assert todo == PING_BOTH ==> rest[1] == SendTo(1) && rest[2] == SendTo(2);
    assert todo == DOMAIN_FIRED ==> rest[1] == SendTo(1) && rest[3] == SendTo(2);
    assert todo == BROADCAST ==> rest[1] == SendTo(0) && rest[3] == SendTo(1) && rest[5] == SendTo(2);
    assert todo == Quick(dst) ==> rest[0] == SendTo(dst);
    assert todo == PING_ANSWER ==> rest[0] == SendTo(0);
  }

  /** Cores 1 and 2 get the two pings of housekeeping and the domain messages of processAudio, every
      core gets a broadcast, core dst a quick message, and core 0 the answer to its ping. */
  lemma Delivered(f: Fan, dst: nat, run: seq<Action>, d: nat)
    requires dst < CORES && FanRun(f, run) && Finished(After(f, run)) && !FailedRun(f, run)
    requires || (Starts(f, PING_BOTH, 0) && d in {1, 2})
             || (Starts(f, DOMAIN_FIRED, 0) && d in {1, 2})
             || (Starts(f, BROADCAST, 0) && d in {0, 1, 2})
             || (Starts(f, Quick(dst), 0) && d == dst)
             || (Starts(f, PING_ANSWER, 0) && d == 0)
    ensures d < |f.s.logs| && (RefusedRun(f, run, d) || Accepted(After(f, run), d, |f.s.logs[d]|))
  {
    InProgram(f.todo, dst, d);
    hide MakesFirst;
    hide Quick;
    assert !MakeLost(f) && Ahead(f, d);
    hide Ahead;
    SendsReach(f, run, d);
    NothingAhead(After(f, run), d);
  }

  lemma NothingAhead(f: Fan, d: nat)
    ensures Finished(f) ==> !Ahead(f, d)
  {
  }

  lemma {:induction false} InPersistent(dsts: seq<nat>, d: nat)
    ensures d in dsts ==> SendTo(d) in Persistent(dsts)
    ensures forall x :: x in Persistent(dsts) ==> !x.MakeMsg?
    ensures dsts != [] ==> Persistent(dsts)[0] == AddRef
    decreases |dsts|
  {
    if dsts != [] {
      InPersistent(dsts[1..], d);
      assert d in dsts ==> d == dsts[0] || d in dsts[1..];
    }
  }

  lemma {:induction false} NoneFails(f: Fan, run: seq<Action>)
    requires FanInv(f) && OthersFit(f) && FanRun(f, run) && MakesFirst(f.todo) && (f.todo == [] || !f.todo[0].MakeMsg?)
    ensures !FailedRun(f, run)
    decreases |run|
  {
    hide Inv;
    hide Belief;
    hide CanStep;
    hide OthersFit;
    hide Next;
    hide MakesFirst;
    hide MakeLost;
    hide FailedMake;
    if run != [] {
      StepKeeps(f, run[0]);
      NoMakeFails(f, run[0]);
      SameMsg(f, run[0]);
      NoneFails(Next(f, run[0]), run[1..]);
      SameFailures(f, Next(f, run[0]));
      assert forall a :: a in run ==> a == run[0] || a in run[1..];
    }
  }

  /** A message that is kept is accepted, or refused, by every core that it is sent to. */
  lemma DeliveredKept(f: Fan, dsts: seq<nat>, run: seq<Action>, d: nat)
    requires ToCores(dsts) && FanRun(f, run) && Starts(f, Persistent(dsts), 1) && Finished(After(f, run)) && d in dsts
    ensures d < |f.s.logs| && (RefusedRun(f, run, d) || Accepted(After(f, run), d, |f.s.logs[d]|))
  {
    InPersistent(dsts, d);
    var todo := f.todo;
    assert todo[0] == AddRef && SendTo(d) in todo[1..];
    assert forall x :: x in todo[1..] ==> x in todo;
    assert MakesFirst(todo) && !MakeLost(f) && Ahead(f, d);
    hide Ahead;
    hide MakesFirst;
    hide Persistent;
    SendsReach(f, run, d);
    NoneFails(f, run);
    NothingAhead(After(f, run), d);
  }
}
