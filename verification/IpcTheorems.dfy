/** What the invariant means for every run of the message protocol. */
module IpcTheorems {
  import Arithmetic
  import opened MsgRing
  import opened IpcProtocol
  import opened IpcSafety

  // ---------------------------------------------------------------- runs

  function Resting(t: Tid): Pc { if t.Task? then Idle else Off }

  ghost function AtRest(tasks: set<Tid>): map<Tid, Pc> {
    map t | t in tasks + {Handler(0), Handler(1), Handler(2)} :: Resting(t)
  }

  /** All rings empty, nothing allocated, nobody running. */
  ghost function Boot(tasks: set<Tid>): State {
    State(None, [None, None, None], [false, false, false], [false, false, false], [0, 0, 0],
          [EMPTY, EMPTY, EMPTY], [[], [], []], [0, 0, 0], [false, false, false], [false, false, false],
          {}, map[], map[], AtRest(tasks), map[])
  }

  lemma BootInv(tasks: set<Tid>)
    requires forall t :: t in tasks ==> t.Task? && t.core < CORES
    ensures Inv(Boot(tasks))
  {
    EmptyHolds();
    BootShape(tasks);
    hide Holds;
    hide Shape;
    forall t | t in Boot(tasks).pc ensures ThreadOk(Boot(tasks), t) { BootThread(tasks, t); }
    hide ThreadOk;
  }

  lemma BootShape(tasks: set<Tid>)
    requires forall t :: t in tasks ==> t.Task? && t.core < CORES
    ensures Shape(Boot(tasks))
  {
  }

  lemma BootThread(tasks: set<Tid>, t: Tid)
    requires Shape(Boot(tasks)) && t in Boot(tasks).pc && t.core < CORES
    ensures ThreadOk(Boot(tasks), t)
  {
    hide Shape;
  }

  /** References outside of the ring slots: clients, calls in progress, lost ones. */
  ghost function Outside(h: map<Place, Msg>, m: Msg): set<Place> { set p | p in h && h[p] == m && !p.Slot? }

  /** Three rings of at most 15 leave this many of the 255 references to everyone else. */
  const CLIENT_LIMIT: nat := 255 - CORES * (SLOTS - 1)

  ghost predicate ClientsFit(s: State) { forall m :: m in s.live ==> |Outside(s.holders, m)| <= CLIENT_LIMIT }

  ghost predicate LegalRun(s: State, run: seq<Action>)
    decreases |run|
  {
    run != [] ==> Enabled(s, run[0]) && ClientsFit(Do(s, run[0])) && LegalRun(Do(s, run[0]), run[1..])
  }

  ghost function Run(s: State, run: seq<Action>): State
    requires LegalRun(s, run)
    decreases |run|
  {
    if run == [] then s else Run(Do(s, run[0]), run[1..])
  }

  lemma {:induction false} SlotRange(c: nat, lo: nat, hi: nat)
    requires lo <= hi
    ensures |set i | lo <= i < hi :: Slot(c, i)| == hi - lo
    decreases hi
  {
    var all := set i | lo <= i < hi :: Slot(c, i);
    if lo < hi {
      SlotRange(c, lo, hi - 1);
      assert all == (set i | lo <= i < hi - 1 :: Slot(c, i)) + {Slot(c, hi - 1)};
    } else {
      assert all == {};
    }
  }

  /** The queued references to m, by position. */
  ghost function QueuedOn(s: State, m: Msg, c: nat): set<Place>
    requires Shape(s) && c < CORES
  {
    set i | s.gots[c] <= i < |s.logs[c]| && s.logs[c][i] == m :: Slot(c, i)
  }

  lemma PlacesSplit(s: State, m: Msg)
    requires Shape(s) && SlotsOk(s)
    ensures PlacesOf(s.holders, m) == QueuedOn(s, m, 0) + QueuedOn(s, m, 1) + QueuedOn(s, m, 2) + Outside(s.holders, m)
  {
    forall p | p in PlacesOf(s.holders, m)
      ensures p in QueuedOn(s, m, 0) + QueuedOn(s, m, 1) + QueuedOn(s, m, 2) + Outside(s.holders, m)
    {
      if p.Slot? {
        assert p.dst < CORES && s.gots[p.dst] <= p.seqno < |s.logs[p.dst]|;
        assert p in QueuedOn(s, m, p.dst);
      }
    }
  }

  /** The accounting: the count in a live message is the number of its occurrences in the three
      queues plus the number of references held outside of them. */
  lemma Accounting(s: State, m: Msg)
    requires Inv(s) && m in s.live
    ensures s.ref[m] == |QueuedOn(s, m, 0)| + |QueuedOn(s, m, 1)| + |QueuedOn(s, m, 2)| + |Outside(s.holders, m)|
  {
    PlacesSplit(s, m);
    var q0, q1, q2, o := QueuedOn(s, m, 0), QueuedOn(s, m, 1), QueuedOn(s, m, 2), Outside(s.holders, m);
    assert q0 !! q1 && (q0 + q1) !! q2 && (q0 + q1 + q2) !! o;
  }

  lemma QueuedBound(s: State, m: Msg, c: nat)
    requires Shape(s) && RingsOk(s) && c < CORES
    ensures |QueuedOn(s, m, c)| <= SLOTS - 1
  {
    QueueLength(s, c);
    SlotRange(c, s.gots[c], |s.logs[c]|);
    Arithmetic.SubsetSize(QueuedOn(s, m, c), set i | s.gots[c] <= i < |s.logs[c]| :: Slot(c, i));
  }

  /** With at most 210 references outside of the queues, an increment does not wrap. */
  lemma ClientsFitRefFits(s: State, a: Action)
    requires Inv(s) && Enabled(s, a) && ClientsFit(Do(s, a))
    ensures RefFits(s, a)
  {
    if a.Commit? && s.pc[a.t].op.Ref? {
      var s', m := Do(s, a), s.pc[a.t].op.m;
      StoreRefStep(s, a.t, a.n, a.n2);
      assert m in s'.live;
      QueuesKeep(s, s');
      PlacesSplit(s', m);
      QueuedBound(s', m, 0);
      QueuedBound(s', m, 1);
      QueuedBound(s', m, 2);
    }
  }

  /** The invariant holds in every state of every run whose clients keep within their limit. */
  lemma {:induction false} RunKeeps(s: State, run: seq<Action>)
    requires Inv(s) && LegalRun(s, run)
    ensures Inv(Run(s, run))
    decreases |run|
  {
    hide Inv;
    hide Enabled;
    hide Do;
    hide ClientsFit;
    if run != [] {
      ClientsFitRefFits(s, run[0]);
      DoKeeps(s, run[0]);
      RunKeeps(Do(s, run[0]), run[1..]);
    }
  }

  // ---------------------------------------------------------------- what every reachable state satisfies

  /** A message is freed exactly when its last reference goes: held messages are live, and a live
      message without references is in the hands of the one call that is freeing it. */
  lemma FreedWithLastReference(s: State)
    requires Inv(s)
    ensures forall p :: p in s.holders ==> s.holders[p] in s.live && s.ref[s.holders[p]] >= 1
    ensures forall c: nat, i: nat :: c < CORES && s.gots[c] <= i < |s.logs[c]| ==> s.logs[c][i] in s.live
    ensures forall m :: m in s.live && PlacesOf(s.holders, m) == {} ==>
              s.owner.Some? && s.pc[s.owner.value] == Freeing(m)
  {
    forall p | p in s.holders ensures s.ref[s.holders[p]] >= 1 {
      CountPositive(s.holders, p);
    }
    forall c: nat, i: nat | c < CORES && s.gots[c] <= i < |s.logs[c]| ensures s.logs[c][i] in s.live {
      assert Slot(c, i) in s.holders;
    }
  }

  /** No lost wakeup. */
  lemma NoLostWakeup(s: State, c: nat)
    requires Inv(s) && c < CORES && !s.rings[c].Empty() && !s.quiet[c]
    requires forall t :: t in s.pc ==> !Signals(s.pc[t], c)
    ensures s.latched[c] || Draining(s.pc[Handler(c)])
  {
    hide Holds;
    QueueLength(s, c);
    assert Awake(s, c);
  }

  /** When nothing is pending any more, every signalled message has been taken out. */
  lemma QuiescentIsEmpty(s: State)
    requires Inv(s) && s.quiet == [false, false, false] && s.latched == [false, false, false]
    requires forall t :: t in s.pc ==> s.pc[t] == Idle || s.pc[t] == Off
    ensures forall c :: 0 <= c < CORES ==> s.rings[c].Empty()
  {
    forall c | 0 <= c < CORES ensures s.rings[c].Empty() {
      WokenNow(s, c);
    }
  }

  /** No message is queued, or being queued, without a signal. */
  ghost predicate Signalled(s: State)
  {
    && (forall c :: 0 <= c < |s.quiet| ==> !s.quiet[c])
    && forall t :: t in s.pc ==> PcSignals(s.pc[t])
  }

  predicate PcSignals(p: Pc) {
    (p.Check? || p.Passed? || p.Spin? || p.Crit? || p.Mid?) && p.op.Send? ==> p.op.signal
  }

  predicate SignalsToo(a: Action) { a.Begin? && a.op.Send? ==> a.op.signal }

  /** Senders that always signal leave no queue marked. */
  lemma SignalledKept(s: State, a: Action)
    requires Enabled(s, a) && Signalled(s) && SignalsToo(a)
    ensures Signalled(Do(s, a))
  {
    hide Shape;
    hide Runnable;
    hide Move;
    match a
    case Access(t, n) => AccessSignalled(s, t, n);
    case PreCheck(t, n) => PreCheckSignalled(s, t, n);
    case Create(t, m, n, ok) => CreateSignalled(s, t, m, n, ok);
    case Commit(t, n, n2) => CommitSignalled(s, t, n, n2);
    case Release(t) => ReleaseSignalled(s, t);
    case Dispatch(t, n) => DispatchSignalled(s, t, n);
    case _ => OtherSignalled(s, a);
  }

  lemma AccessSignalled(s: State, t: Tid, n: nat)
    requires Enabled(s, Access(t, n)) && Signalled(s)
    ensures Signalled(DoAccess(s, t, n))
  {
    assert PcSignals(s.pc[t]);
    assert |s.rings| == |s.quiet| == CORES;
    hide Shape;
    hide Runnable;
    hide Move;
    hide RefOf;
    hide Ring.Full;
    hide Ring.Empty;
    hide Ring.Written;
    hide Ring.Front;
  }

  lemma PreCheckSignalled(s: State, t: Tid, n: nat)
    requires Enabled(s, PreCheck(t, n)) && Signalled(s)
    ensures Signalled(DoPreCheck(s, t, n))
  {
    assert PcSignals(s.pc[t]);
    hide Shape;
    hide Runnable;
    hide Move;
    hide RefOf;
  }

  lemma CreateSignalled(s: State, t: Tid, m: Msg, n: nat, ok: bool)
    requires Enabled(s, Create(t, m, n, ok)) && Signalled(s)
    ensures Signalled(DoCreate(s, t, m, n, ok))
  {
    hide Shape;
    hide Runnable;
  }

  lemma CommitSignalled(s: State, t: Tid, n: nat, n2: nat)
    requires Enabled(s, Commit(t, n, n2)) && Signalled(s)
    ensures Signalled(DoCommit(s, t, n, n2))
  {
    assert PcSignals(s.pc[t]);
    assert |s.rings| == |s.quiet| == |s.logs| == |s.gots| == CORES;
    hide Shape;
    hide Runnable;
    hide Move;
    hide Ring.Bumped;
    hide Ring.Dropped;
  }

  lemma ReleaseSignalled(s: State, t: Tid)
    requires Enabled(s, Release(t)) && Signalled(s)
    ensures Signalled(DoRelease(s, t))
  {
    hide Shape;
    hide Runnable;
  }

  lemma DispatchSignalled(s: State, t: Tid, n: nat)
    requires Enabled(s, Dispatch(t, n)) && Signalled(s)
    ensures Signalled(DoDispatch(s, t, n))
  {
    hide Shape;
    hide Runnable;
    hide Move;
  }

  lemma OtherSignalled(s: State, a: Action)
    requires Enabled(s, a) && Signalled(s) && SignalsToo(a)
    requires !a.Access? && !a.PreCheck? && !a.Create? && !a.Commit? && !a.Release? && !a.Dispatch?
    ensures Signalled(Do(s, a))
  {
    assert a.DisableIrq? || a.Acquire? ==> PcSignals(s.pc[a.t]);
    hide Shape;
    hide Runnable;
    hide Move;
  }

  lemma BootSignalled(tasks: set<Tid>)
    ensures Signalled(Boot(tasks))
  {
  }

  lemma WokenNow(s: State, c: nat)
    requires Inv(s) && Signalled(s) && c < CORES
    ensures Shape(s)
    ensures !s.rings[c].Empty() && (forall t :: t in s.pc ==> !Signals(s.pc[t], c)) ==>
              s.latched[c] || Draining(s.pc[Handler(c)])
  {
    hide Holds;
    QueueLength(s, c);
    assert !s.rings[c].Empty() ==> Awake(s, c);
  }

  /** In runs of senders that always signal, a queue that is not empty has its interrupt latched or its
      handler still to read, unless its sender is about to raise the interrupt. */
  lemma {:induction false} AlwaysWoken(s: State, run: seq<Action>, c: nat)
    requires Inv(s) && LegalRun(s, run) && Signalled(s) && (forall a :: a in run ==> SignalsToo(a)) && c < CORES
    ensures var r := Run(s, run);
      && Shape(r) && Signalled(r)
      && (!r.rings[c].Empty() && (forall t :: t in r.pc ==> !Signals(r.pc[t], c)) ==>
            r.latched[c] || Draining(r.pc[Handler(c)]))
    decreases |run|
  {
    hide Enabled;
    hide Do;
    hide ClientsFit;
    hide SignalsToo;
    hide Inv;
    hide Signalled;
    if run == [] {
      WokenNow(s, c);
    } else {
      assert run[0] in run;
      ClientsFitRefFits(s, run[0]);
      DoKeeps(s, run[0]);
      SignalledKept(s, run[0]);
      AlwaysWoken(Do(s, run[0]), run[1..], c);
    }
  }

  /** Nobody spins on a lock held by code that it has itself interrupted, or that its own core keeps
      from running: the owner is on another core and can go on. */
  lemma OwnerCanRun(s: State, t: Tid)
    requires Inv(s) && t in s.pc && s.pc[t].Spin? && s.owner.Some?
    ensures s.owner.value.core != t.core && Runnable(s, s.owner.value)
    ensures forall u :: u in s.pc && InLock(s.pc[u]) ==> u == s.owner.value
  {
    var u := s.owner.value;
    assert ThreadOk(s, t) && ThreadOk(s, u);
    assert ThreadOk(s, Handler(u.core));
  }

  /** An unref by a holder is never refused, and raising the interrupt after a send never fails:
      the error paths that would leak a reference, or release a queued one, are not taken. */
  lemma ErrorPathsNotTaken(s: State, t: Tid)
    requires Inv(s) && t in s.pc
    ensures s.pc[t].Check? && s.pc[t].op.Unref? ==> RefOf(s, s.pc[t].op.m) != 0
    ensures s.pc[t].Fire? ==> s.trigger[s.pc[t].dst] > 0
  {
    assert ThreadOk(s, t);
    if s.pc[t].Check? && s.pc[t].op.Unref? {
      CarriedIsLive(s, t, s.pc[t].op.m);
    }
  }

  /** The unlocked check refuses exactly a message with 255 references, and the reference is then the
      client's again. */
  lemma CheckRefuses(s: State, t: Tid, n: nat)
    requires Inv(s) && Enabled(s, PreCheck(t, n))
    ensures var (s', op) := (Do(s, PreCheck(t, n)), s.pc[t].op);
      && t in s'.pc && s'.ref == s.ref
      && if op.Ref? && Count(s.holders, op.m) == 255
         then s'.pc[t] == Home(t) && Lookup(s'.holders, Pocket(n)) == Some(op.m)
         else s'.pc[t] == Passed(op) && s'.holders == s.holders
  {
    assert ThreadOk(s, t);
    var op := s.pc[t].op;
    if op.Ref? || op.Unref? {
      CarriedIsLive(s, t, op.m);
    }
    hide Inv;
    hide Shape;
    hide ThreadOk;
    hide Count;
  }

  /** Where the reference goes that a handler has taken out: to the callback for the message's type; to
      nobody when there is none; a message of another type is released by the handler. */
  lemma DispatchTo(s: State, t: Tid, n: nat)
    requires Inv(s) && Enabled(s, Dispatch(t, n))
    ensures var (s', m, c) := (Do(s, Dispatch(t, n)), s.pc[t].m, t.core);
      && c < CORES && Shape(s) && m in s.kind && t in s'.pc
      && match s.kind[m]
         case User => s'.pc[t] == Loop && Lookup(s'.holders, if s.userCb[c] then Pocket(n) else Lost(n)) == Some(m)
         case Stream => s'.pc[t] == Loop && Lookup(s'.holders, if s.streamCb[c] then Pocket(n) else Lost(n)) == Some(m)
         case Other => s'.pc[t] == Check(Unref(m)) && Lookup(s'.holders, Busy(t)) == Some(m)
  {
    assert ThreadOk(s, t);
    CarriedIsLive(s, t, s.pc[t].m);
    assert |s.userCb| == |s.streamCb| == CORES;
    hide Inv;
    hide Shape;
    hide ThreadOk;
    hide Count;
  }

  /** A handler's final empty read leaves its queue unmarked. */
  lemma EmptyReadUnmarks(s: State, t: Tid, n: nat)
    requires Inv(s) && Enabled(s, Access(t, n)) && s.pc[t].op.Receive? && |s.logs[t.core]| == s.gots[t.core]
    ensures var s' := Do(s, Access(t, n)); s'.pc[t] == Leave(Drained) && t.core < |s'.quiet| && !s'.quiet[t.core]
  {
    ShapeHolds(s);
    QueueLength(s, t.core);
    hide Inv;
    hide Holds;
    hide Move;
    hide RefOf;
  }

  /** Once core c has registered the callback for its type, a message goes there. */
  lemma Registered(s: State, t: Tid, n: nat)
    requires Inv(s) && Enabled(s, Dispatch(t, n)) && t.core < CORES
    requires s.pc[t].m in s.kind && s.kind[s.pc[t].m] != Other
    ensures var a := SetCallback(t.core, s.kind[s.pc[t].m] == User);
      && Enabled(s, a) && Enabled(Do(s, a), Dispatch(t, n))
      && Lookup(Do(Do(s, a), Dispatch(t, n)).holders, Pocket(n)) == Some(s.pc[t].m)
  {
    var a := SetCallback(t.core, s.kind[s.pc[t].m] == User);
    var s1 := Do(s, a);
    ShapeHolds(s);
    SetupKeeps(s, a);
    ShapeHolds(s1);
    hide Inv;
    StillDispatches(s, a, t, n);
    DispatchTo(s1, t, n);
    hide Shape;
    hide Do;
    hide Enabled;
  }

  lemma StillDispatches(s: State, a: Action, t: Tid, n: nat)
    requires Enabled(s, Dispatch(t, n)) && a.SetCallback? && a.c == t.core && Enabled(s, a) && Shape(Do(s, a))
    requires |s.userCb| == |s.streamCb| == CORES
    ensures var s1 := Do(s, a);
      && Enabled(s1, Dispatch(t, n)) && s1.pc == s.pc && s1.kind == s.kind && |s1.userCb| == |s1.streamCb| == CORES
      && if a.user then s1.userCb[t.core] else s1.streamCb[t.core]
  {
    hide Shape;
  }

  lemma ShapeHolds(s: State)
    requires Inv(s)
    ensures Shape(s) && |s.userCb| == |s.streamCb| == CORES
  {
  }

  // ---------------------------------------------------------------- first in, first out

  ghost predicate TakesOut(s: State, a: Action, c: nat)
    requires Enabled(s, a)
  {
    a.Commit? && a.t == Handler(c) && s.pc[a.t].op.Receive?
  }

  /** A commit takes out the oldest message, or appends the one sent, or touches no queue. */
  lemma CommitQueues(s: State, t: Tid, n: nat, n2: nat)
    requires Inv(s) && Enabled(s, Commit(t, n, n2))
    ensures var (s', op) := (DoCommit(s, t, n, n2), s.pc[t].op);
      match op
      case Receive =>
        && t.Handler? && s.gots[t.core] < |s.logs[t.core]| && s.pc[t].v == s.logs[t.core][s.gots[t.core]]
        && s'.logs == s.logs && s'.gots == s.gots[t.core := s.gots[t.core] + 1] && s'.pc[t] == Leave(Took(s.pc[t].v))
      case Send(m, d, _) => d < CORES && s'.gots == s.gots && s'.logs == s.logs[d := s.logs[d] + [m]]
      case _ => s'.logs == s.logs && s'.gots == s.gots
  {
    hide RefsOk;
    hide WakeOk;
    hide SlotsOk;
    assert ThreadOk(s, t);
    if s.pc[t].op.Receive? {
      DroppedHolds(s.rings[t.core], s.logs[t.core], s.gots[t.core]);
      QueueLength(s, t.core);
    }
    hide Holds;
  }

  /** One action: logs only grow at the end, by the message sent; at most one message is taken out,
      by its core's handler, and it is the oldest one; a rejected send changes no queue. */
  lemma QueueStep(s: State, a: Action, c: nat)
    requires Inv(s) && Enabled(s, a) && c < CORES
    ensures var s' := Do(s, a);
      && |s'.logs| == |s'.gots| == CORES
      && s'.gots[c] == s.gots[c] + (if TakesOut(s, a, c) then 1 else 0)
      && (TakesOut(s, a, c) ==> s.gots[c] < |s.logs[c]| && s'.pc[Handler(c)] == Leave(Took(s.logs[c][s.gots[c]])))
      && s'.logs[c] == s.logs[c] + (if PutsIn(s, a, c) then [s.pc[a.t].op.m] else [])
      && (a.Access? && s'.pc[a.t] == Leave(Done) ==>
            s'.rings == s.rings && s'.logs == s.logs && s'.gots == s.gots)
  {
    hide Inv;
    QueuesShape(s);
    if a.Commit? {
      CommitQueues(s, a.t, a.n, a.n2);
      hide DoCommit;
    } else {
      OtherQueues(s, a);
      hide Do;
    }
  }

  lemma QueuesShape(s: State)
    requires Inv(s)
    ensures Shape(s) && |s.logs| == |s.gots| == CORES
  {
  }

  /** The queues of s' hold what those of s hold. */
  ghost predicate SameQueues(s: State, s': State) { s'.logs == s.logs && s'.gots == s.gots }

  lemma AccessQueues(s: State, t: Tid, n: nat)
    requires Enabled(s, Access(t, n))
    ensures var s' := DoAccess(s, t, n);
      SameQueues(s, s') && t in s'.pc && (s'.pc[t] == Leave(Done) ==> s'.rings == s.rings)
  {
    hide Shape;
    hide Runnable;
    hide Move;
    hide RefOf;
  }

  lemma PreCheckQueues(s: State, t: Tid, n: nat)
    requires Enabled(s, PreCheck(t, n))
    ensures SameQueues(s, DoPreCheck(s, t, n))
  {
    hide Shape;
    hide Runnable;
    hide Move;
    hide RefOf;
  }

  lemma CreateQueues(s: State, t: Tid, m: Msg, n: nat, ok: bool)
    requires Enabled(s, Create(t, m, n, ok))
    ensures SameQueues(s, DoCreate(s, t, m, n, ok))
  {
    hide Shape;
    hide Runnable;
  }

  lemma ReleaseQueues(s: State, t: Tid)
    requires Enabled(s, Release(t))
    ensures SameQueues(s, DoRelease(s, t))
  {
    hide Shape;
    hide Runnable;
  }

  lemma DispatchQueues(s: State, t: Tid, n: nat)
    requires Enabled(s, Dispatch(t, n))
    ensures SameQueues(s, DoDispatch(s, t, n))
  {
    hide Shape;
    hide Runnable;
    hide Move;
  }

  /** Nothing but a commit changes what the queues hold. */
  lemma OtherQueues(s: State, a: Action)
    requires Enabled(s, a) && !a.Commit?
    ensures SameQueues(s, Do(s, a))
    ensures a.Access? && a.t in Do(s, a).pc && Do(s, a).pc[a.t] == Leave(Done) ==> Do(s, a).rings == s.rings
  {
    hide Shape;
    hide Runnable;
    hide Move;
    match a
    case Access(t, n) => AccessQueues(s, t, n); hide DoAccess;
    case PreCheck(t, n) => PreCheckQueues(s, t, n); hide DoPreCheck;
    case Create(t, m, n, ok) => CreateQueues(s, t, m, n, ok); hide DoCreate;
    case Release(t) => ReleaseQueues(s, t); hide DoRelease;
    case Dispatch(t, n) => DispatchQueues(s, t, n); hide DoDispatch;
    case _ =>
  }

  ghost predicate PutsIn(s: State, a: Action, c: nat)
    requires Enabled(s, a)
  {
    a.Commit? && s.pc[a.t].op.Send? && s.pc[a.t].op.dst == c
  }

  /** The messages that core c's handler takes out along a run, in order. */
  ghost function Taken(s: State, run: seq<Action>, c: nat): seq<Msg>
    requires LegalRun(s, run)
    decreases |run|
  {
    if run == [] then []
    else
      (if TakesOut(s, run[0], c) then [s.pc[Handler(c)].v] else []) + Taken(Do(s, run[0]), run[1..], c)
  }

  /** Over any run, whatever the senders do, what core c takes out is exactly the next part of what
      its ring accepted: in order, nothing twice, nothing skipped. */
  lemma {:induction false} TakenInOrder(s: State, run: seq<Action>, c: nat)
    requires Inv(s) && LegalRun(s, run) && c < CORES
    ensures var r := Run(s, run);
      && Shape(r) && s.gots[c] <= r.gots[c] <= |r.logs[c]| && s.logs[c] <= r.logs[c]
      && Taken(s, run, c) == r.logs[c][s.gots[c]..r.gots[c]]
    decreases |run|
  {
    hide Enabled;
    hide Do;
    hide ClientsFit;
    hide Inv;
    if run == [] {
      TakenBase(s, c);
    } else {
      var a, s' := run[0], Do(s, run[0]);
      ClientsFitRefFits(s, a);
      DoKeeps(s, a);
      TakenInOrder(s', run[1..], c);
      TakenOne(s, a, c);
      var r := Run(s', run[1..]);
      assert Run(s, run) == r;
      Splice(s.logs[c], r.logs[c], s.gots[c], r.gots[c]);
      PrefixTrans(s.logs[c], s'.logs[c], r.logs[c]);
    }
  }

  lemma PrefixTrans(a: seq<Msg>, b: seq<Msg>, c: seq<Msg>)
    requires a <= b <= c
    ensures a <= c
  {
  }

  lemma Splice(l: seq<Msg>, r: seq<Msg>, g: nat, h: nat)
    ensures l <= r && g < |l| && g < h <= |r| ==> [l[g]] + r[g + 1..h] == r[g..h]
    ensures g <= h <= |r| ==> [] + r[g..h] == r[g..h]
  {
  }

  lemma TakenBase(s: State, c: nat)
    requires Inv(s) && c < CORES
    ensures Shape(s) && s.gots[c] <= |s.logs[c]|
  {
    QueueLength(s, c);
  }

  lemma TakenOne(s: State, a: Action, c: nat)
    requires Inv(s) && Enabled(s, a) && c < CORES
    ensures var s' := Do(s, a);
      && Shape(s) && |s'.logs| == |s'.gots| == CORES && s.logs[c] <= s'.logs[c] && s.gots[c] <= |s.logs[c]|
      && if TakesOut(s, a, c)
         then s'.gots[c] == s.gots[c] + 1 && s.gots[c] < |s.logs[c]| && s.pc[a.t].v == s.logs[c][s.gots[c]]
         else s'.gots[c] == s.gots[c]
  {
    hide Inv;
    QueueStep(s, a, c);
    TakenBase(s, c);
    if TakesOut(s, a, c) {
      CommitQueues(s, a.t, a.n, a.n2);
    }
  }

  // ---------------------------------------------------------------- the 8-bit count

  /** Exactly when the increment keeps the invariant: when the message had fewer than 255 references.
      At 255 the stored count is 0. */
  lemma WrapsExactly(s: State, t: Tid, n: nat, n2: nat)
    requires Inv(s) && Enabled(s, Commit(t, n, n2)) && s.pc[t].op.Ref?
    ensures var (s', m) := (Do(s, Commit(t, n, n2)), s.pc[t].op.m);
      && (Inv(s') <==> Count(s.holders, m) < 255)
      && m in s'.ref && (s'.ref[m] == 0 <==> Count(s.holders, m) == 255)
  {
    hide ThreadOk;
    hide RingsOk;
    hide SlotsOk;
    hide WakeOk;
    var s', m := Do(s, Commit(t, n, n2)), s.pc[t].op.m;
    StoreRefStep(s, t, n, n2);
    CarriedIsLive(s, t, m);
    var h := Move(s.holders, Busy(t), Pocket(n));
    CountMove(s.holders, Busy(t), Pocket(n), m);
    CountAdd(h, Pocket(n2), m, m);
    if Count(s.holders, m) < 255 {
      StoreRefKeeps(s, t, n, n2);
    }
  }
}
