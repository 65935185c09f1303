/** Every action of the message protocol keeps its invariant. */
module IpcSafety {
  import opened MsgRing
  import opened IpcProtocol

  /** A step of thread t: what it may change that other threads see. */
  ghost predicate StepOf(s: State, s': State, t: Tid)
  {
    && Shape(s) && Shape(s') && t in s.pc && s'.pc.Keys == s.pc.Keys
    && (forall u :: u in s.pc && u != t ==> s'.pc[u] == s.pc[u])
    && (s'.owner == s.owner || (s.owner in {None, Some(t)} && s'.owner in {None, Some(t)}))
    && (forall c :: 0 <= c < CORES ==>
          || s'.irqOff[c] == s.irqOff[c]
          || (&& c == t.core && s.irqOff[c] in {None, Some(t)} && s'.irqOff[c] in {None, Some(t)}
              && (t.Task? ==> s.pc[Handler(c)] == Off)))
    && (s.owner == Some(t) || (s'.ref == s.ref && s'.rings == s.rings))
    && (forall c :: 0 <= c < CORES && s.trigger[c] > 0 ==> s'.trigger[c] > 0)
    && (forall u :: u != t ==> Lookup(s'.holders, Busy(u)) == Lookup(s.holders, Busy(u)))
  }

  /** Mutual exclusion at work: a step of t leaves what the other threads rely on alone. */
  lemma OthersKeep(s: State, s': State, t: Tid)
    requires StepOf(s, s', t)
    requires forall u :: u in s.pc ==> ThreadOk(s, u)
    ensures forall u :: u in s'.pc && u != t ==> ThreadOk(s', u)
  {
    forall u | u in s'.pc && u != t ensures ThreadOk(s', u) {
      assert ThreadOk(s, u);
      assert s'.pc[u] == s.pc[u];
    }
  }

  /** Rings, logs and slot places unchanged. */
  ghost predicate SameQueues(s: State, s': State)
  {
    && Shape(s) && Shape(s')
    && s'.rings == s.rings && s'.logs == s.logs && s'.gots == s.gots
    && (forall c: nat, i: nat :: Lookup(s'.holders, Slot(c, i)) == Lookup(s.holders, Slot(c, i)))
    && (forall t :: Busy(t) in s'.holders ==> Busy(t) in s.holders || t in s'.pc)
    && s'.pc.Keys == s.pc.Keys
  }

  lemma QueuesKeep(s: State, s': State)
    requires SameQueues(s, s') && RingsOk(s) && SlotsOk(s)
    ensures RingsOk(s') && SlotsOk(s')
  {
    forall c: nat, i: nat
      ensures Slot(c, i) in s'.holders <==> c < CORES && s'.gots[c] <= i < |s'.logs[c]|
    {
      assert Lookup(s'.holders, Slot(c, i)) == Lookup(s.holders, Slot(c, i));
    }
    forall c: nat, i: nat | Slot(c, i) in s'.holders && c < CORES && i < |s'.logs[c]|
      ensures s'.holders[Slot(c, i)] == s'.logs[c][i]
    {
      assert Lookup(s'.holders, Slot(c, i)) == Lookup(s.holders, Slot(c, i));
    }
  }

  /** References only moved from one place to another. */
  lemma MovedRefsKeep(s: State, s': State, t: Tid, p: Place, q: Place)
    requires StepOf(s, s', t) && RefsOk(s) && !s.pc[t].Freeing?
    requires s'.live == s.live && s'.ref == s.ref
    requires q !in s.holders && s'.holders == Move(s.holders, p, q)
    ensures RefsOk(s')
  {
    forall m | m in s'.live ensures s'.ref[m] == Count(s'.holders, m) <= 255 {
      if p in s.holders { CountMove(s.holders, p, q, m); }
    }
  }

  lemma SameRefsKeep(s: State, s': State, t: Tid)
    requires StepOf(s, s', t) && RefsOk(s) && !s.pc[t].Freeing?
    requires s'.live == s.live && s'.ref == s.ref && s'.holders == s.holders
    ensures RefsOk(s')
  {
    hide Count;
  }

  /** A step of t that keeps pending interrupts, its own promise to raise one, and its own draining. */
  ghost predicate Wakeful(s: State, s': State, t: Tid)
    requires Shape(s) && Shape(s') && t in s.pc && t in s'.pc
  {
    forall c :: 0 <= c < CORES ==>
      && (s.latched[c] ==> s'.latched[c]) && (s.quiet[c] ==> s'.quiet[c])
      && (t == Handler(c) && Draining(s.pc[t]) ==> Draining(s'.pc[t]))
      && (Signals(s.pc[t], c) ==> Signals(s'.pc[t], c) || s'.latched[c])
  }

  lemma AwakeKeeps(s: State, s': State, t: Tid, c: nat)
    requires StepOf(s, s', t) && Wakeful(s, s', t) && c < CORES && Awake(s, c)
    ensures Awake(s', c)
  {
    if u :| u in s.pc && Signals(s.pc[u], c) {
      assert u in s'.pc;
      assert u == t ==> Signals(s'.pc[t], c) || s'.latched[c];
      assert u != t ==> Signals(s'.pc[u], c);
    }
  }

  lemma WakeKeep(s: State, s': State, t: Tid)
    requires StepOf(s, s', t) && SameQueues(s, s') && Wakeful(s, s', t) && WakeOk(s)
    ensures WakeOk(s')
  {
    forall c | 0 <= c < CORES && |s'.logs[c]| > s'.gots[c] ensures Awake(s', c) {
      AwakeKeeps(s, s', t, c);
    }
  }

  /** A step that touches no queue. */
  ghost predicate LocalStep(s: State, s': State, t: Tid)
  {
    StepOf(s, s', t) && ThreadOk(s', t) && SameQueues(s, s') && Wakeful(s, s', t)
  }

  lemma LocalStepKeeps(s: State, s': State, t: Tid)
    requires Inv(s) && LocalStep(s, s', t) && RefsOk(s')
    ensures Inv(s')
  {
    hide RefsOk;
    hide ThreadOk;
    hide RingsOk;
    hide SlotsOk;
    hide WakeOk;
    OthersKeep(s, s', t);
    QueuesKeep(s, s');
    WakeKeep(s, s', t);
  }

  // ---------------------------------------------------------------- steps outside of the shared data

  /** Thread t goes on to p, perhaps taking or leaving the lock, disabling or enabling interrupts,
      raising an interrupt, or carrying a reference from one of its places to another. */
  ghost function Jump(s: State, t: Tid, owner: Option<Tid>, irq: Option<Tid>, latched: seq<bool>,
                      h: map<Place, Msg>, p: Pc): State
    requires Shape(s) && t in s.pc
  {
    State(owner, s.irqOff[t.core := irq], latched, s.quiet, s.trigger, s.rings, s.logs, s.gots,
          s.userCb, s.streamCb, s.live, s.ref, s.kind, s.pc[t := p], h)
  }

  ghost predicate Own(t: Tid, x: Place) { x.Pocket? || x.Lost? || x == Busy(t) }

  /** Between places that are neither ring slots nor other calls in progress. */
  ghost predicate Carries(s: State, h: map<Place, Msg>, t: Tid)
  {
    h == s.holders || exists x, y :: Own(t, x) && Own(t, y) && y !in s.holders && h == Move(s.holders, x, y)
  }

  lemma JumpStep(s: State, t: Tid, owner: Option<Tid>, irq: Option<Tid>, latched: seq<bool>,
                 h: map<Place, Msg>, p: Pc)
    requires Shape(s) && Runnable(s, t) && ThreadOk(s, t) && PcFits(t, p)
    requires owner == s.owner || (owner in {None, Some(t)} && s.owner in {None, Some(t)})
    requires irq in {None, Some(t)}
    requires |latched| == CORES && (forall c :: 0 <= c < CORES && s.latched[c] ==> latched[c])
    requires Carries(s, h, t)
    ensures var s' := Jump(s, t, owner, irq, latched, h, p); StepOf(s, s', t) && SameQueues(s, s')
  {
    hide MidOk;
    hide TriggerOk;
    var s' := Jump(s, t, owner, irq, latched, h, p);
    forall x | !Own(t, x) ensures Lookup(h, x) == Lookup(s.holders, x) { }
    assert forall u :: u != t ==> !Own(t, Busy(u));
    assert forall c: nat, i: nat :: !Own(t, Slot(c, i));
    assert Shape(s');
  }

  lemma JumpKeeps(s: State, t: Tid, owner: Option<Tid>, irq: Option<Tid>, latched: seq<bool>,
                  h: map<Place, Msg>, p: Pc)
    requires Inv(s) && Runnable(s, t) && PcFits(t, p) && !s.pc[t].Freeing?
    requires owner == s.owner || (owner in {None, Some(t)} && s.owner in {None, Some(t)})
    requires irq in {None, Some(t)}
    requires |latched| == CORES && (forall c :: 0 <= c < CORES && s.latched[c] ==> latched[c])
    requires Carries(s, h, t)
    requires (InLock(p) <==> owner == Some(t)) && (NoIrq(p) <==> irq == Some(t))
    requires Lookup(h, Busy(t)) == Carried(p) && MidOk(s, t, p) && TriggerOk(s, p)
    requires Draining(s.pc[t]) ==> Draining(p)
    requires forall c :: 0 <= c < CORES && Signals(s.pc[t], c) ==> Signals(p, c) || latched[c]
    ensures Inv(Jump(s, t, owner, irq, latched, h, p))
  {
    hide RefsOk;
    hide RingsOk;
    hide SlotsOk;
    hide WakeOk;
    hide Carries;
    hide StepOf;
    hide SameQueues;
    var s' := Jump(s, t, owner, irq, latched, h, p);
    assert ThreadOk(s, t);
    JumpStep(s, t, owner, irq, latched, h, p);
    JumpRefs(s, s', t);
    StepShape(s, s', t);
    JumpThread(s, t, owner, irq, latched, h, p);
    hide Inv;
    hide Shape;
    hide ThreadOk;
    hide Wakeful;
    hide Jump;
    LocalStepKeeps(s, s', t);
  }

  lemma JumpThread(s: State, t: Tid, owner: Option<Tid>, irq: Option<Tid>, latched: seq<bool>,
                   h: map<Place, Msg>, p: Pc)
    requires Shape(s) && t in s.pc && ThreadOk(s, t) && t.core < CORES && PcFits(t, p)
    requires Shape(Jump(s, t, owner, irq, latched, h, p)) && irq in {None, Some(t)}
    requires |latched| == CORES && (forall c :: 0 <= c < CORES && s.latched[c] ==> latched[c])
    requires (InLock(p) <==> owner == Some(t)) && (NoIrq(p) <==> irq == Some(t))
    requires Lookup(h, Busy(t)) == Carried(p) && MidOk(s, t, p) && TriggerOk(s, p)
    requires Draining(s.pc[t]) ==> Draining(p)
    requires forall c :: 0 <= c < CORES && Signals(s.pc[t], c) ==> Signals(p, c) || latched[c]
    ensures var s' := Jump(s, t, owner, irq, latched, h, p);
      t in s'.pc && ThreadOk(s', t) && Wakeful(s, s', t)
  {
    assert |s.irqOff| == |s.latched| == CORES;
    hide Shape;
    hide InLock;
    hide NoIrq;
    hide Carried;
    hide Signals;
    hide Draining;
    hide PcFits;
  }

  lemma StepShape(s: State, s': State, t: Tid)
    requires StepOf(s, s', t)
    ensures Shape(s')
  {
  }

  lemma JumpRefs(s: State, s': State, t: Tid)
    requires StepOf(s, s', t) && RefsOk(s) && !s.pc[t].Freeing?
    requires s'.live == s.live && s'.ref == s.ref && Carries(s, s'.holders, t)
    ensures RefsOk(s')
  {
    if s'.holders == s.holders {
      SameRefsKeep(s, s', t);
    } else {
      var x, y :| Own(t, x) && Own(t, y) && y !in s.holders && s'.holders == Move(s.holders, x, y);
      MovedRefsKeep(s, s', t, x, y);
    }
  }

  lemma MoveCarries(s: State, t: Tid, x: Place, y: Place)
    requires Own(t, x) && Own(t, y) && y !in s.holders
    ensures Carries(s, Move(s.holders, x, y), t)
  {
  }

  /** What the invariant says of one thread. */
  lemma ThreadFacts(s: State, t: Tid)
    requires Inv(s) && t in s.pc
    ensures Shape(s) && ThreadOk(s, t) && t.core < CORES && PcFits(t, s.pc[t])
    ensures |s.irqOff| == |s.latched| == CORES && Handler(t.core) in s.pc
    ensures (InLock(s.pc[t]) <==> s.owner == Some(t)) && (NoIrq(s.pc[t]) <==> s.irqOff[t.core] == Some(t))
    ensures Lookup(s.holders, Busy(t)) == Carried(s.pc[t]) && MidOk(s, t, s.pc[t]) && TriggerOk(s, s.pc[t])
  {
  }

  lemma BeginIsJump(s: State, t: Tid, op: Op, n: nat)
    requires Enabled(s, Begin(t, op, n))
    ensures var h := if About(op).Some? then Move(s.holders, Pocket(n), Busy(t)) else s.holders;
      Do(s, Begin(t, op, n)) == Jump(s, t, s.owner, s.irqOff[t.core], s.latched, h, Check(op))
  {
    hide Inv;
    hide PcFits;
  }

  lemma BeginKeeps(s: State, t: Tid, op: Op, n: nat)
    requires Inv(s) && Enabled(s, Begin(t, op, n))
    ensures Inv(Do(s, Begin(t, op, n)))
  {
    hide RefsOk;
    hide RingsOk;
    hide SlotsOk;
    hide WakeOk;
    hide Carries;
    var h := if About(op).Some? then Move(s.holders, Pocket(n), Busy(t)) else s.holders;
    ThreadFacts(s, t);
    hide Inv;
    hide Shape;
    hide ThreadOk;
    MoveCarries(s, t, Pocket(n), Busy(t));
    SameCarries(s, t);
    BeginIsJump(s, t, op, n);
    hide Jump;
    hide Do;
    JumpKeeps(s, t, s.owner, s.irqOff[t.core], s.latched, h, Check(op));
  }

  lemma SameCarries(s: State, t: Tid)
    ensures Carries(s, s.holders, t)
  {
  }

  lemma PreCheckIsJump(s: State, t: Tid, n: nat)
    requires Enabled(s, PreCheck(t, n))
    ensures var (s', op, h) := (DoPreCheck(s, t, n), s.pc[t].op, Move(s.holders, Busy(t), Pocket(n)));
      || s' == Jump(s, t, s.owner, s.irqOff[t.core], s.latched, s.holders, Passed(op))
      || (About(op).Some? && s' == Jump(s, t, s.owner, s.irqOff[t.core], s.latched, h, Home(t)))
  {
    hide PcFits;
  }

  lemma PreCheckKeeps(s: State, t: Tid, n: nat)
    requires Inv(s) && Enabled(s, PreCheck(t, n))
    ensures Inv(Do(s, PreCheck(t, n)))
  {
    hide RefsOk;
    hide RingsOk;
    hide SlotsOk;
    hide WakeOk;
    hide Carries;
    var op, h := s.pc[t].op, Move(s.holders, Busy(t), Pocket(n));
    ThreadFacts(s, t);
    hide Inv;
    hide Shape;
    hide ThreadOk;
    MoveCarries(s, t, Busy(t), Pocket(n));
    SameCarries(s, t);
    PreCheckIsJump(s, t, n);
    hide Jump;
    hide DoPreCheck;
    if DoPreCheck(s, t, n) == Jump(s, t, s.owner, s.irqOff[t.core], s.latched, s.holders, Passed(op)) {
      JumpKeeps(s, t, s.owner, s.irqOff[t.core], s.latched, s.holders, Passed(op));
    } else {
      JumpKeeps(s, t, s.owner, s.irqOff[t.core], s.latched, h, Home(t));
    }
  }

  lemma DisableKeeps(s: State, t: Tid)
    requires Inv(s) && Enabled(s, DisableIrq(t))
    ensures Inv(Do(s, DisableIrq(t)))
  {
    hide RefsOk;
    hide RingsOk;
    hide SlotsOk;
    hide WakeOk;
    hide Carries;
    ThreadFacts(s, t);
    hide Inv;
    hide Shape;
    hide ThreadOk;
    SameCarries(s, t);
    var p := Spin(s.pc[t].op);
    assert Do(s, DisableIrq(t)) == Jump(s, t, s.owner, Some(t), s.latched, s.holders, p);
    hide Jump;
    hide Do;
    JumpKeeps(s, t, s.owner, Some(t), s.latched, s.holders, p);
  }

  lemma AcquireIsJump(s: State, t: Tid)
    requires Enabled(s, Acquire(t))
    ensures Do(s, Acquire(t)) == Jump(s, t, Some(t), s.irqOff[t.core], s.latched, s.holders, Crit(s.pc[t].op))
  {
    hide PcFits;
  }

  lemma AcquireKeeps(s: State, t: Tid)
    requires Inv(s) && Enabled(s, Acquire(t))
    ensures Inv(Do(s, Acquire(t)))
  {
    hide RefsOk;
    hide RingsOk;
    hide SlotsOk;
    hide WakeOk;
    hide Carries;
    ThreadFacts(s, t);
    hide Inv;
    hide Shape;
    hide ThreadOk;
    SameCarries(s, t);
    AcquireIsJump(s, t);
    hide Do;
    hide Jump;
    JumpKeeps(s, t, Some(t), s.irqOff[t.core], s.latched, s.holders, Crit(s.pc[t].op));
  }

  function AfterRelease(t: Tid, next: Then): Pc {
    match next
    case Done => Home(t)
    case Signal(d) => Fire(d)
    case Took(m) => Got(m)
    case Drained => Off
  }

  lemma ReleaseIsJump(s: State, t: Tid)
    requires Enabled(s, Release(t))
    ensures DoRelease(s, t) == Jump(s, t, None, None, s.latched, s.holders, AfterRelease(t, s.pc[t].next))
  {
    hide PcFits;
  }

  lemma AfterReleaseOk(s: State, t: Tid)
    requires Enabled(s, Release(t)) && Shape(s) && PcFits(t, s.pc[t]) && TriggerOk(s, s.pc[t])
    ensures var p := AfterRelease(t, s.pc[t].next);
      && PcFits(t, p) && !InLock(p) && !NoIrq(p) && MidOk(s, t, p) && TriggerOk(s, p)
      && Carried(p) == Carried(s.pc[t]) && (Draining(s.pc[t]) ==> Draining(p))
      && (forall c: nat :: Signals(s.pc[t], c) ==> Signals(p, c))
  {
    hide Shape;
    match s.pc[t].next
    case Done =>
    case Signal(d) =>
    case Took(m) =>
    case Drained =>
  }

  lemma ReleaseKeeps(s: State, t: Tid)
    requires Inv(s) && Enabled(s, Release(t))
    ensures Inv(Do(s, Release(t)))
  {
    ThreadFacts(s, t);
    AfterReleaseOk(s, t);
    SameCarries(s, t);
    ReleaseIsJump(s, t);
    hide Inv;
    hide Shape;
    hide ThreadOk;
    hide Carries;
    hide Jump;
    hide DoRelease;
    hide AfterRelease;
    hide MidOk;
    hide TriggerOk;
    hide Carried;
    hide PcFits;
    hide Signals;
    JumpKeeps(s, t, None, None, s.latched, s.holders, AfterRelease(t, s.pc[t].next));
  }

  lemma RaiseIsJump(s: State, t: Tid)
    requires Enabled(s, Raise(t)) && s.pc[t].dst < CORES
    ensures var latched := s.latched[s.pc[t].dst := true];
      Do(s, Raise(t)) == Jump(s, t, s.owner, s.irqOff[t.core], latched, s.holders, Home(t))
  {
    hide PcFits;
  }

  lemma RaiseKeeps(s: State, t: Tid)
    requires Inv(s) && Enabled(s, Raise(t))
    ensures Inv(Do(s, Raise(t)))
  {
    hide RefsOk;
    hide RingsOk;
    hide SlotsOk;
    hide WakeOk;
    hide Carries;
    ThreadFacts(s, t);
    hide Inv;
    hide Shape;
    hide ThreadOk;
    SameCarries(s, t);
    var latched := s.latched[s.pc[t].dst := true];
    RaiseIsJump(s, t);
    hide Jump;
    hide Do;
    JumpKeeps(s, t, s.owner, s.irqOff[t.core], latched, s.holders, Home(t));
  }

  lemma DispatchIsJump(s: State, t: Tid, n: nat)
    requires Enabled(s, Dispatch(t, n))
    ensures var (s', m) := (DoDispatch(s, t, n), s.pc[t].m);
      && t in s'.pc && s' == Jump(s, t, s.owner, s.irqOff[t.core], s.latched, s'.holders, s'.pc[t])
      && ((s'.pc[t] == Check(Unref(m)) && s'.holders == s.holders)
          || (s'.pc[t] == Loop && s'.holders == Move(s.holders, Busy(t), Pocket(n)))
          || (s'.pc[t] == Loop && s'.holders == Move(s.holders, Busy(t), Lost(n))))
  {
    hide PcFits;
  }

  lemma DispatchKeeps(s: State, t: Tid, n: nat)
    requires Inv(s) && Enabled(s, Dispatch(t, n))
    ensures Inv(Do(s, Dispatch(t, n)))
  {
    hide RefsOk;
    hide RingsOk;
    hide SlotsOk;
    hide WakeOk;
    hide Carries;
    ThreadFacts(s, t);
    hide Inv;
    hide Shape;
    hide ThreadOk;
    var s' := DoDispatch(s, t, n);
    MoveCarries(s, t, Busy(t), Pocket(n));
    MoveCarries(s, t, Busy(t), Lost(n));
    SameCarries(s, t);
    DispatchIsJump(s, t, n);
    hide Jump;
    hide DoDispatch;
    JumpKeeps(s, t, s.owner, s.irqOff[t.core], s.latched, s'.holders, s'.pc[t]);
  }

  lemma CarriedIsLive(s: State, t: Tid, m: Msg)
    requires Shape(s) && RefsOk(s) && Lookup(s.holders, Busy(t)) == Some(m)
    ensures m in s.live && m in s.ref && 255 >= s.ref[m] == Count(s.holders, m) >= 1
  {
    CountPositive(s.holders, Busy(t));
  }

  lemma LoadIsJump(s: State, t: Tid, n: nat)
    requires Enabled(s, Access(t, n)) && (s.pc[t].op.Ref? || s.pc[t].op.Unref?)
    ensures var op := s.pc[t].op;
      DoAccess(s, t, n) == Jump(s, t, s.owner, s.irqOff[t.core], s.latched, s.holders, Mid(op, RefOf(s, op.m)))
  {
    hide PcFits;
  }

  lemma LoadKeeps(s: State, t: Tid, n: nat)
    requires Inv(s) && Enabled(s, Access(t, n)) && (s.pc[t].op.Ref? || s.pc[t].op.Unref?)
    ensures Inv(Do(s, Access(t, n)))
  {
    hide RefsOk;
    hide RingsOk;
    hide SlotsOk;
    hide WakeOk;
    hide Carries;
    ThreadFacts(s, t);
    hide Inv;
    hide Shape;
    hide ThreadOk;
    var op := s.pc[t].op;
    CarriedIsLive(s, t, op.m);
    SameCarries(s, t);
    LoadIsJump(s, t, n);
    hide DoAccess;
    hide Jump;
    JumpKeeps(s, t, s.owner, s.irqOff[t.core], s.latched, s.holders, Mid(op, RefOf(s, op.m)));
  }

  lemma RejectIsJump(s: State, t: Tid, n: nat)
    requires Enabled(s, Access(t, n)) && s.pc[t].op.Send?
    requires var d := s.pc[t].op.dst; d < CORES && (s.trigger[d] == 0 || s.rings[d].Full())
    ensures var h := Move(s.holders, Busy(t), Pocket(n));
      DoAccess(s, t, n) == Jump(s, t, s.owner, s.irqOff[t.core], s.latched, h, Leave(Done))
  {
    hide PcFits;
  }

  lemma RejectKeeps(s: State, t: Tid, n: nat)
    requires Inv(s) && Enabled(s, Access(t, n)) && s.pc[t].op.Send?
    requires var d := s.pc[t].op.dst; d < CORES && (s.trigger[d] == 0 || s.rings[d].Full())
    ensures Inv(Do(s, Access(t, n)))
  {
    hide RefsOk;
    hide RingsOk;
    hide SlotsOk;
    hide WakeOk;
    hide Carries;
    ThreadFacts(s, t);
    hide Inv;
    hide Shape;
    hide ThreadOk;
    var h := Move(s.holders, Busy(t), Pocket(n));
    MoveCarries(s, t, Busy(t), Pocket(n));
    RejectIsJump(s, t, n);
    hide DoAccess;
    hide Jump;
    JumpKeeps(s, t, s.owner, s.irqOff[t.core], s.latched, h, Leave(Done));
  }

  lemma ReadFrontIsJump(s: State, t: Tid, n: nat)
    requires Enabled(s, Access(t, n)) && s.pc[t].op.Receive? && !s.rings[t.core].Empty()
    ensures var p := Mid(Receive, s.rings[t.core].Front());
      DoAccess(s, t, n) == Jump(s, t, s.owner, s.irqOff[t.core], s.latched, s.holders, p)
  {
    hide PcFits;
  }

  lemma ReadFrontKeeps(s: State, t: Tid, n: nat)
    requires Inv(s) && Enabled(s, Access(t, n)) && s.pc[t].op.Receive? && !s.rings[t.core].Empty()
    ensures Inv(Do(s, Access(t, n)))
  {
    hide RefsOk;
    hide RingsOk;
    hide SlotsOk;
    hide WakeOk;
    hide Carries;
    ThreadFacts(s, t);
    hide Inv;
    hide Shape;
    hide ThreadOk;
    SameCarries(s, t);
    ReadFrontIsJump(s, t, n);
    hide DoAccess;
    hide Jump;
    JumpKeeps(s, t, s.owner, s.irqOff[t.core], s.latched, s.holders, Mid(Receive, s.rings[t.core].Front()));
  }

  // ---------------------------------------------------------------- steps of the lock's owner

  /** A step of the owner t from s to s': shared data may change, interrupts and the lock do not. */
  ghost predicate OwnerStep(s: State, s': State, t: Tid)
  {
    && Shape(s) && Shape(s') && s.owner == Some(t) && t in s.pc && t in s'.pc
    && s' == s.(quiet := s'.quiet, rings := s'.rings, logs := s'.logs, gots := s'.gots,
                live := s'.live, ref := s'.ref, kind := s'.kind, holders := s'.holders,
                pc := s.pc[t := s'.pc[t]])
    && (forall u :: u != t ==> Lookup(s'.holders, Busy(u)) == Lookup(s.holders, Busy(u)))
    && ThreadOk(s', t)
  }

  lemma OwnerThreads(s: State, s': State, t: Tid)
    requires OwnerStep(s, s', t) && (forall u :: u in s.pc ==> ThreadOk(s, u))
    ensures StepOf(s, s', t) && Shape(s') && forall u :: u in s'.pc ==> ThreadOk(s', u)
  {
    assert StepOf(s, s', t);
    OthersKeep(s, s', t);
  }

  lemma NotCreatedIsJump(s: State, t: Tid, m: Msg, n: nat)
    requires Enabled(s, Create(t, m, n, false))
    ensures DoCreate(s, t, m, n, false) == Jump(s, t, s.owner, s.irqOff[t.core], s.latched, s.holders, Leave(Done))
  {
    hide PcFits;
  }

  lemma NotCreatedKeeps(s: State, t: Tid, m: Msg, n: nat)
    requires Inv(s) && Enabled(s, Create(t, m, n, false))
    ensures Inv(DoCreate(s, t, m, n, false))
  {
    hide RefsOk;
    hide RingsOk;
    hide SlotsOk;
    hide WakeOk;
    hide Carries;
    ThreadFacts(s, t);
    hide Inv;
    hide Shape;
    hide ThreadOk;
    SameCarries(s, t);
    NotCreatedIsJump(s, t, m, n);
    hide DoCreate;
    hide Jump;
    JumpKeeps(s, t, s.owner, s.irqOff[t.core], s.latched, s.holders, Leave(Done));
  }

  lemma CreateKeeps(s: State, t: Tid, m: Msg, n: nat, ok: bool)
    requires Inv(s) && Enabled(s, Create(t, m, n, ok))
    ensures Inv(Do(s, Create(t, m, n, ok)))
  {
    hide Inv;
    hide DoCreate;
    hide Shape;
    if ok {
      CreatedKeeps(s, t, m, n);
    } else {
      NotCreatedKeeps(s, t, m, n);
    }
  }

  lemma CreatedShape(s: State, t: Tid, m: Msg, n: nat)
    requires Enabled(s, Create(t, m, n, true))
    ensures Shape(DoCreate(s, t, m, n, true))
  {
    hide Ring.Shape;
    hide OpFits;
  }

  lemma CreatedStep(s: State, t: Tid, m: Msg, n: nat)
    requires Enabled(s, Create(t, m, n, true)) && ThreadOk(s, t)
    ensures var s' := DoCreate(s, t, m, n, true);
      OwnerStep(s, s', t) && SameQueues(s, s') && Wakeful(s, s', t) && s.owner == Some(t) && s'.owner == s.owner
  {
    CreatedShape(s, t, m, n);
    assert Shape(s);
    hide Shape;
    hide OpFits;
    hide PcFits;
    hide NoIrq;
    hide InLock;
    hide TriggerOk;
    hide Runnable;
    hide Signals;
    hide Draining;
  }

  lemma CreatedKeeps(s: State, t: Tid, m: Msg, n: nat)
    requires Inv(s) && Enabled(s, Create(t, m, n, true))
    ensures Inv(DoCreate(s, t, m, n, true))
  {
    hide RefsOk;
    hide RingsOk;
    hide SlotsOk;
    hide WakeOk;
    hide ThreadOk;
    hide OwnerStep;
    hide StepOf;
    hide SameQueues;
    hide Wakeful;
    var s' := DoCreate(s, t, m, n, true);
    CreatedStep(s, t, m, n);
    OwnerThreads(s, s', t);
    QueuesKeep(s, s');
    WakeKeep(s, s', t);
    CreatedRefs(s, s', m, n);
  }

  lemma CreatedRefs(s: State, s': State, m: Msg, n: nat)
    requires Shape(s) && Shape(s') && RefsOk(s) && m !in s.live && Pocket(n) !in s.holders
    requires s'.live == s.live + {m} && s'.ref == s.ref[m := 1] && s'.holders == s.holders[Pocket(n) := m]
    requires s'.owner == s.owner && s.owner.Some? && !s.pc[s.owner.value].Freeing?
    ensures RefsOk(s')
  {
    NobodyHolds(s, m);
    forall k | k in s'.live ensures s'.ref[k] == Count(s'.holders, k) <= 255 {
      CountAdd(s.holders, Pocket(n), m, k);
    }
  }

  lemma NobodyHolds(s: State, m: Msg)
    requires Shape(s) && RefsOk(s) && m !in s.live
    ensures Count(s.holders, m) == 0
  {
    assert PlacesOf(s.holders, m) == {};
  }

  lemma QueueLength(s: State, c: nat)
    requires Shape(s) && RingsOk(s) && c < CORES
    ensures s.rings[c].Full() <==> |s.logs[c]| - s.gots[c] == SLOTS - 1
    ensures s.rings[c].Empty() <==> |s.logs[c]| == s.gots[c]
    ensures s.gots[c] <= |s.logs[c]| < s.gots[c] + SLOTS
  {
    FullEmpty(s.rings[c], s.logs[c], s.gots[c]);
  }

  lemma SendWriteStep(s: State, t: Tid, n: nat)
    requires Enabled(s, Access(t, n)) && s.pc[t].op.Send? && ThreadOk(s, t)
    requires var d := s.pc[t].op.dst; d < CORES && s.trigger[d] != 0 && !s.rings[d].Full()
    ensures var s' := DoAccess(s, t, n);
      OwnerStep(s, s', t) && Wakeful(s, s', t) && s.owner == Some(t)
  {
    assert Shape(s) && Shape(DoAccess(s, t, n)) && t.core < CORES;
    assert |s.rings| == CORES && s.rings[s.pc[t].op.dst].Shape();
    hide Shape;
    hide Runnable;
    hide Signals;
    hide Draining;
  }

  lemma SendWriteKeeps(s: State, t: Tid, n: nat)
    requires Inv(s) && Enabled(s, Access(t, n)) && s.pc[t].op.Send?
    requires var d := s.pc[t].op.dst; d < CORES && s.trigger[d] != 0 && !s.rings[d].Full()
    ensures Inv(Do(s, Access(t, n)))
  {
    hide RefsOk;
    hide RingsOk;
    hide SlotsOk;
    hide WakeOk;
    hide ThreadOk;
    hide OwnerStep;
    hide StepOf;
    hide SameQueues;
    hide Wakeful;
    var s', d, m := DoAccess(s, t, n), s.pc[t].op.dst, s.pc[t].op.m;
    SendWriteStep(s, t, n);
    OwnerThreads(s, s', t);
    RingChanged(s, s', d, m);
    SlotsUnmoved(s, s');
    SameRefsKeepOwner(s, s', t);
    WakeSameCounts(s, s', t);
  }

  lemma RingChanged(s: State, s': State, d: nat, m: Msg)
    requires Shape(s) && Shape(s') && RingsOk(s) && d < CORES && !s.rings[d].Full()
    requires s'.rings == s.rings[d := s.rings[d].Written(m)] && s'.logs == s.logs && s'.gots == s.gots
    ensures RingsOk(s')
  {
    WrittenHolds(s.rings[d], s.logs[d], s.gots[d], m);
    hide Holds;
  }

  lemma SlotsUnmoved(s: State, s': State)
    requires Shape(s) && Shape(s') && SlotsOk(s)
    requires s'.holders == s.holders && s'.logs == s.logs && s'.gots == s.gots && s'.pc.Keys == s.pc.Keys
    ensures SlotsOk(s')
  {
  }

  lemma SameRefsKeepOwner(s: State, s': State, t: Tid)
    requires Shape(s) && Shape(s') && RefsOk(s) && s.owner == Some(t) && !s.pc[t].Freeing?
    requires s'.live == s.live && s'.ref == s.ref && s'.holders == s.holders
    ensures RefsOk(s')
  {
    hide Count;
  }

  lemma WakeSameCounts(s: State, s': State, t: Tid)
    requires StepOf(s, s', t) && Wakeful(s, s', t) && WakeOk(s) && s'.logs == s.logs && s'.gots == s.gots
    ensures WakeOk(s')
  {
    forall c | 0 <= c < CORES && |s'.logs[c]| > s'.gots[c] ensures Awake(s', c) {
      AwakeKeeps(s, s', t, c);
    }
  }

  lemma EmptyReadStep(s: State, t: Tid, n: nat)
    requires Enabled(s, Access(t, n)) && s.pc[t].op.Receive? && s.rings[t.core].Empty() && ThreadOk(s, t)
    ensures var s' := DoAccess(s, t, n);
      OwnerStep(s, s', t) && SameQueues(s, s') && s.owner == Some(t) && t.Handler?
  {
  }

  /** The read that finds the queue empty, after which the handler ends. */
  lemma EmptyReadKeeps(s: State, t: Tid, n: nat)
    requires Inv(s) && Enabled(s, Access(t, n)) && s.pc[t].op.Receive? && s.rings[t.core].Empty()
    ensures Inv(Do(s, Access(t, n)))
  {
    hide RefsOk;
    hide RingsOk;
    hide SlotsOk;
    hide WakeOk;
    hide ThreadOk;
    hide OwnerStep;
    hide StepOf;
    hide SameQueues;
    hide Wakeful;
    var s' := DoAccess(s, t, n);
    EmptyReadStep(s, t, n);
    OwnerThreads(s, s', t);
    QueuesKeep(s, s');
    SameRefsKeepOwner(s, s', t);
    QueueLength(s, t.core);
    EmptyReadWake(s, s', t);
  }

  lemma EmptyReadWake(s: State, s': State, t: Tid)
    requires StepOf(s, s', t) && WakeOk(s) && s'.logs == s.logs && s'.gots == s.gots && t.Handler?
    requires s'.latched == s.latched && s'.quiet == s.quiet[t.core := false] && s.pc[t].Crit?
    requires t.core < CORES && |s.logs[t.core]| == s.gots[t.core]
    ensures WakeOk(s')
  {
    forall c | 0 <= c < CORES && |s'.logs[c]| > s'.gots[c] ensures Awake(s', c) {
      assert Awake(s, c) && c != t.core;
      if u :| u in s.pc && Signals(s.pc[u], c) {
        assert u in s'.pc && Signals(s'.pc[u], c);
      }
    }
  }

  lemma AccessKeeps(s: State, t: Tid, n: nat)
    requires Inv(s) && Enabled(s, Access(t, n))
    ensures Inv(Do(s, Access(t, n)))
  {
    hide RefsOk;
    hide RingsOk;
    hide SlotsOk;
    hide WakeOk;
    hide ThreadOk;
    var op := s.pc[t].op;
    match op
    case Ref(_) => LoadKeeps(s, t, n);
    case Unref(_) => LoadKeeps(s, t, n);
    case Send(_, d, _) =>
      if s.trigger[d] == 0 || s.rings[d].Full() { RejectKeeps(s, t, n); } else { SendWriteKeeps(s, t, n); }
    case Receive =>
      if s.rings[t.core].Empty() { EmptyReadKeeps(s, t, n); } else { ReadFrontKeeps(s, t, n); }
    case New(_) =>
  }

  // ---------------------------------------------------------------- the stores that take effect

  /** The owner of the lock changes only the shared data. */
  lemma SharedShape(s: State, s': State, t: Tid)
    requires Shape(s) && t in s.pc && t in s'.pc && t.core < CORES && PcFits(t, s'.pc[t])
    requires s' == s.(quiet := s'.quiet, rings := s'.rings, logs := s'.logs, gots := s'.gots,
                      ref := s'.ref, holders := s'.holders, pc := s.pc[t := s'.pc[t]])
    requires |s'.quiet| == |s'.rings| == |s'.logs| == |s'.gots| == CORES && s'.ref.Keys == s.ref.Keys
    requires forall c :: 0 <= c < CORES ==> s'.rings[c].Shape()
    ensures Shape(s')
  {
    hide PcFits;
    hide Ring.Shape;
  }

  lemma CommitShape(s: State, t: Tid, n: nat, n2: nat)
    requires Enabled(s, Commit(t, n, n2)) && ThreadOk(s, t)
    ensures Shape(DoCommit(s, t, n, n2)) && PcFits(t, s.pc[t])
  {
    assert PcFits(t, s.pc[t]) && MidOk(s, t, s.pc[t]) && Shape(s) && t.core < CORES;
    assert |s.quiet| == |s.rings| == |s.logs| == |s.gots| == CORES;
    assert forall c :: 0 <= c < CORES ==> s.rings[c].Shape();
    SharedShape(s, DoCommit(s, t, n, n2), t) by {
      hide Shape;
      hide ThreadOk;
      hide Runnable;
      hide Move;
      hide TriggerOk;
      match s.pc[t].op
      case Ref(m) =>
      case Unref(m) =>
      case Send(m, d, signal) =>
      case Receive =>
      case New(_) =>
    }
  }

  lemma StoreRefStep(s: State, t: Tid, n: nat, n2: nat)
    requires Enabled(s, Commit(t, n, n2)) && s.pc[t].op.Ref? && ThreadOk(s, t)
    ensures var (s', m) := (DoCommit(s, t, n, n2), s.pc[t].op.m);
      && OwnerStep(s, s', t) && SameQueues(s, s') && Wakeful(s, s', t) && s.owner == Some(t)
      && m in s.ref && s.pc[t].v == s.ref[m] && Lookup(s.holders, Busy(t)) == Some(m)
  {
    CommitShape(s, t, n, n2);
    assert Shape(s) && t.core < CORES;
    hide Shape;
    hide OpFits;
    hide PcFits;
    hide NoIrq;
    hide InLock;
    hide TriggerOk;
    hide Runnable;
    hide Signals;
    hide Draining;
  }

  lemma StoreRefKeeps(s: State, t: Tid, n: nat, n2: nat)
    requires Inv(s) && Enabled(s, Commit(t, n, n2)) && s.pc[t].op.Ref?
    requires Count(Do(s, Commit(t, n, n2)).holders, s.pc[t].op.m) <= 255
    ensures Inv(Do(s, Commit(t, n, n2)))
  {
    hide RefsOk;
    hide RingsOk;
    hide SlotsOk;
    hide WakeOk;
    hide ThreadOk;
    hide OwnerStep;
    hide StepOf;
    hide SameQueues;
    hide Wakeful;
    var s', m := DoCommit(s, t, n, n2), s.pc[t].op.m;
    StoreRefStep(s, t, n, n2);
    OwnerThreads(s, s', t);
    CarriedIsLive(s, t, m);
    StoreRefRefs(s, s', t, m, n, n2);
    QueuesKeep(s, s');
    WakeKeep(s, s', t);
  }

  lemma StoreRefRefs(s: State, s': State, t: Tid, m: Msg, n: nat, n2: nat)
    requires StepOf(s, s', t) && RefsOk(s) && s.owner == Some(t) && !s.pc[t].Freeing?
    requires m in s.ref && Lookup(s.holders, Busy(t)) == Some(m) && Unused(s, n) && Unused(s, n2) && n != n2
    requires s'.live == s.live && s'.ref == s.ref[m := (s.ref[m] + 1) % 256]
    requires s'.holders == Move(s.holders, Busy(t), Pocket(n))[Pocket(n2) := m]
    requires Count(s'.holders, m) <= 255
    ensures RefsOk(s')
  {
    hide Count;
    hide StepOf;
    var h := Move(s.holders, Busy(t), Pocket(n));
    forall k | k in s.live ensures Count(s'.holders, k) == Count(s.holders, k) + (if k == m then 1 else 0) {
      CountMove(s.holders, Busy(t), Pocket(n), k);
      CountAdd(h, Pocket(n2), m, k);
    }
    CountPositive(s'.holders, Pocket(n2));
  }

  lemma StoreUnrefStep(s: State, t: Tid, n: nat, n2: nat)
    requires Enabled(s, Commit(t, n, n2)) && s.pc[t].op.Unref? && ThreadOk(s, t)
    ensures var (s', m) := (DoCommit(s, t, n, n2), s.pc[t].op.m);
      && OwnerStep(s, s', t) && SameQueues(s, s') && Wakeful(s, s', t) && s.owner == Some(t)
      && m in s.ref && s.pc[t].v == s.ref[m] && Lookup(s.holders, Busy(t)) == Some(m)
  {
    CommitShape(s, t, n, n2);
    assert Shape(s) && t.core < CORES;
    hide Shape;
    hide OpFits;
    hide PcFits;
    hide NoIrq;
    hide InLock;
    hide TriggerOk;
    hide Runnable;
    hide Signals;
    hide Draining;
  }

  lemma StoreUnrefKeeps(s: State, t: Tid, n: nat, n2: nat)
    requires Inv(s) && Enabled(s, Commit(t, n, n2)) && s.pc[t].op.Unref?
    ensures Inv(Do(s, Commit(t, n, n2)))
  {
    hide RefsOk;
    hide RingsOk;
    hide SlotsOk;
    hide WakeOk;
    hide ThreadOk;
    hide OwnerStep;
    hide StepOf;
    hide SameQueues;
    hide Wakeful;
    var s', m := DoCommit(s, t, n, n2), s.pc[t].op.m;
    StoreUnrefStep(s, t, n, n2);
    OwnerThreads(s, s', t);
    CarriedIsLive(s, t, m);
    StoreUnrefRefs(s, s', t, m);
    QueuesKeep(s, s');
    WakeKeep(s, s', t);
  }

  lemma StoreUnrefRefs(s: State, s': State, t: Tid, m: Msg)
    requires StepOf(s, s', t) && RefsOk(s) && s.owner == Some(t) && !s.pc[t].Freeing? && s'.owner == Some(t)
    requires m in s.ref && Lookup(s.holders, Busy(t)) == Some(m) && 1 <= s.ref[m] <= 255
    requires s'.live == s.live && s'.ref == s.ref[m := (s.ref[m] + 255) % 256]
    requires s'.holders == s.holders - {Busy(t)}
    requires s'.ref[m] == 0 ==> s'.pc[t] == Freeing(m)
    ensures RefsOk(s')
  {
    hide Count;
    hide StepOf;
    forall k | k in s.live ensures Count(s'.holders, k) == Count(s.holders, k) - (if k == m then 1 else 0) {
      CountRemove(s.holders, Busy(t), k);
    }
  }

  lemma EnqueueStep(s: State, t: Tid, n: nat, n2: nat)
    requires Enabled(s, Commit(t, n, n2)) && s.pc[t].op.Send? && ThreadOk(s, t) && RingsOk(s) && SlotsOk(s)
    ensures var (s', m, d) := (DoCommit(s, t, n, n2), s.pc[t].op.m, s.pc[t].op.dst);
      && OwnerStep(s, s', t) && d < CORES && Lookup(s.holders, Busy(t)) == Some(m)
      && !s.rings[d].Full() && s.rings[d].slots[s.rings[d].head] == m
  {
    CommitShape(s, t, n, n2);
    hide Holds;
    assert Shape(s) && t.core < CORES;
    hide Shape;
    hide Runnable;
    hide Signals;
    hide Draining;
  }

  lemma EnqueueWakeful(s: State, t: Tid, n: nat, n2: nat)
    requires Enabled(s, Commit(t, n, n2)) && s.pc[t].op.Send? && ThreadOk(s, t)
    ensures Wakeful(s, DoCommit(s, t, n, n2), t)
  {
    hide Holds;
  }

  lemma EnqueueKeeps(s: State, t: Tid, n: nat, n2: nat)
    requires Inv(s) && Enabled(s, Commit(t, n, n2)) && s.pc[t].op.Send?
    ensures Inv(Do(s, Commit(t, n, n2)))
  {
    hide RefsOk;
    hide RingsOk;
    hide SlotsOk;
    hide WakeOk;
    hide ThreadOk;
    hide OwnerStep;
    hide StepOf;
    hide SameQueues;
    hide Wakeful;
    var s', d, m := DoCommit(s, t, n, n2), s.pc[t].op.dst, s.pc[t].op.m;
    EnqueueStep(s, t, n, n2);
    EnqueueWakeful(s, t, n, n2);
    OwnerThreads(s, s', t);
    EnqueueQueues(s, s', t, d, m);
    SlotUnused(s, d, |s.logs[d]|);
    MovedRefsKeep(s, s', t, Busy(t), Slot(d, |s.logs[d]|));
    EnqueueWake(s, s', t, d);
  }

  lemma SlotUnused(s: State, c: nat, i: nat)
    requires Shape(s) && SlotsOk(s) && c < CORES && !(s.gots[c] <= i < |s.logs[c]|)
    ensures Slot(c, i) !in s.holders
  {
  }

  lemma EnqueueQueues(s: State, s': State, t: Tid, d: nat, m: Msg)
    requires StepOf(s, s', t) && RingsOk(s) && SlotsOk(s) && d < CORES
    requires s.rings[d].Shape() && !s.rings[d].Full() && s.rings[d].slots[s.rings[d].head] == m
    requires Lookup(s.holders, Busy(t)) == Some(m)
    requires s'.rings == s.rings[d := s.rings[d].Bumped()] && s'.logs == s.logs[d := s.logs[d] + [m]] && s'.gots == s.gots
    requires s'.holders == Move(s.holders, Busy(t), Slot(d, |s.logs[d]|))
    ensures RingsOk(s') && SlotsOk(s')
  {
    BumpedHolds(s.rings[d], s.logs[d], s.gots[d]);
    QueueLength(s, d);
    hide Holds;
    assert RingsOk(s');
    forall c: nat, i: nat ensures Slot(c, i) in s'.holders <==> Slot(c, i) in s.holders || (c == d && i == |s.logs[d]|) { }
  }

  lemma EnqueueWake(s: State, s': State, t: Tid, d: nat)
    requires StepOf(s, s', t) && WakeOk(s) && Wakeful(s, s', t) && d < CORES && t in s'.pc
    requires |s.logs| == |s'.logs| && forall c :: 0 <= c < CORES && c != d ==> s'.logs[c] == s.logs[c]
    requires s'.gots == s.gots && (s'.quiet[d] || Signals(s'.pc[t], d))
    ensures WakeOk(s')
  {
    forall c | 0 <= c < CORES && |s'.logs[c]| > s'.gots[c] ensures Awake(s', c) {
      if c != d {
        AwakeKeeps(s, s', t, c);
      }
    }
  }

  lemma DequeueStep(s: State, t: Tid, n: nat, n2: nat)
    requires Enabled(s, Commit(t, n, n2)) && s.pc[t].op.Receive? && ThreadOk(s, t) && RingsOk(s) && SlotsOk(s)
    ensures OwnerStep(s, DoCommit(s, t, n, n2), t)
    ensures Slot(t.core, s.gots[t.core]) in s.holders && s.holders[Slot(t.core, s.gots[t.core])] == s.pc[t].v
    ensures Busy(t) !in s.holders && Wakeful(s, DoCommit(s, t, n, n2), t) && !s.rings[t.core].Empty()
  {
    CommitShape(s, t, n, n2);
    DroppedHolds(s.rings[t.core], s.logs[t.core], s.gots[t.core]);
    QueueLength(s, t.core);
    hide Holds;
    assert Shape(s) && t.core < CORES;
    hide Shape;
    hide Runnable;
    hide Signals;
    hide Draining;
  }

  lemma DequeueKeeps(s: State, t: Tid, n: nat, n2: nat)
    requires Inv(s) && Enabled(s, Commit(t, n, n2)) && s.pc[t].op.Receive?
    ensures Inv(Do(s, Commit(t, n, n2)))
  {
    hide RefsOk;
    hide RingsOk;
    hide SlotsOk;
    hide WakeOk;
    hide ThreadOk;
    hide OwnerStep;
    hide StepOf;
    hide SameQueues;
    hide Wakeful;
    var s', c := DoCommit(s, t, n, n2), t.core;
    DequeueStep(s, t, n, n2);
    OwnerThreads(s, s', t);
    DequeueQueues(s, s', t);
    MovedRefsKeep(s, s', t, Slot(c, s.gots[c]), Busy(t));
    DequeueWake(s, s', t, c);
  }

  lemma DequeueQueues(s: State, s': State, t: Tid)
    requires StepOf(s, s', t) && RingsOk(s) && SlotsOk(s) && t.core < CORES
    requires s.rings[t.core].Shape() && !s.rings[t.core].Empty()
    requires Slot(t.core, s.gots[t.core]) in s.holders
    requires s'.rings == s.rings[t.core := s.rings[t.core].Dropped()] && s'.logs == s.logs
    requires s'.gots == s.gots[t.core := s.gots[t.core] + 1]
    requires s'.holders == Move(s.holders, Slot(t.core, s.gots[t.core]), Busy(t))
    ensures RingsOk(s') && SlotsOk(s')
  {
    DroppedHolds(s.rings[t.core], s.logs[t.core], s.gots[t.core]);
    hide Holds;
    assert RingsOk(s');
    forall c: nat, i: nat
      ensures Slot(c, i) in s'.holders <==> Slot(c, i) in s.holders && !(c == t.core && i == s.gots[c]) { }
  }

  lemma DequeueWake(s: State, s': State, t: Tid, d: nat)
    requires StepOf(s, s', t) && WakeOk(s) && Wakeful(s, s', t) && s'.logs == s.logs
    requires forall c :: 0 <= c < CORES ==> s'.gots[c] >= s.gots[c]
    ensures WakeOk(s')
  {
    forall c | 0 <= c < CORES && |s'.logs[c]| > s'.gots[c] ensures Awake(s', c) {
      AwakeKeeps(s, s', t, c);
    }
  }

  lemma DisposeStep(s: State, t: Tid)
    requires Enabled(s, Dispose(t)) && ThreadOk(s, t)
    ensures var (s', m) := (Do(s, Dispose(t)), s.pc[t].m);
      && OwnerStep(s, s', t) && SameQueues(s, s') && Wakeful(s, s', t)
      && s.owner == Some(t) && m in s.live && s.ref[m] == 0
  {
    assert Shape(s) && Shape(Do(s, Dispose(t))) && t.core < CORES && s.ref.Keys == s.live;
    hide Shape;
    hide Runnable;
    hide Signals;
    hide Draining;
  }

  lemma DisposeKeeps(s: State, t: Tid)
    requires Inv(s) && Enabled(s, Dispose(t))
    ensures Inv(Do(s, Dispose(t)))
  {
    hide RefsOk;
    hide RingsOk;
    hide SlotsOk;
    hide WakeOk;
    hide ThreadOk;
    hide OwnerStep;
    hide StepOf;
    hide SameQueues;
    hide Wakeful;
    var s', m := Do(s, Dispose(t)), s.pc[t].m;
    DisposeStep(s, t);
    OwnerThreads(s, s', t);
    QueuesKeep(s, s');
    WakeKeep(s, s', t);
    DisposeRefs(s, s', m);
  }

  lemma DisposeRefs(s: State, s': State, m: Msg)
    requires Shape(s) && Shape(s') && RefsOk(s) && m in s.live && s.ref[m] == 0
    requires s'.holders == s.holders && s'.live == s.live - {m} && s'.ref == s.ref - {m}
    requires s.owner.Some? && s.pc[s.owner.value] == Freeing(m)
    ensures RefsOk(s')
  {
    forall p | p in s.holders ensures s.holders[p] != m {
      CountPositive(s.holders, p);
    }
  }

  lemma EnterHandlerStep(s: State, c: nat)
    requires Enabled(s, EnterHandler(c)) && ThreadOk(s, Handler(c))
    ensures var s' := Do(s, EnterHandler(c));
      StepOf(s, s', Handler(c)) && ThreadOk(s', Handler(c)) && SameQueues(s, s')
  {
  }

  lemma EnterHandlerKeeps(s: State, c: nat)
    requires Inv(s) && Enabled(s, EnterHandler(c))
    ensures Inv(Do(s, EnterHandler(c)))
  {
    hide RefsOk;
    hide RingsOk;
    hide SlotsOk;
    hide WakeOk;
    hide ThreadOk;
    hide OwnerStep;
    hide StepOf;
    hide SameQueues;
    hide Wakeful;
    var s', t := Do(s, EnterHandler(c)), Handler(c);
    EnterHandlerStep(s, c);
    StepShape(s, s', t);
    OthersKeep(s, s', t);
    QueuesKeep(s, s');
    SameRefsKeep(s, s', t);
    EnterWake(s, s', c);
  }

  lemma EnterWake(s: State, s': State, c: nat)
    requires StepOf(s, s', Handler(c)) && WakeOk(s) && s'.logs == s.logs && s'.gots == s.gots && c < CORES
    requires s'.latched == s.latched[c := false] && s'.quiet == s.quiet
    requires s.pc[Handler(c)] == Off && s'.pc[Handler(c)] == Loop
    ensures WakeOk(s')
  {
    forall d | 0 <= d < CORES && |s'.logs[d]| > s'.gots[d] ensures Awake(s', d) {
      assert Awake(s, d);
      if u :| u in s.pc && Signals(s.pc[u], d) {
        assert u in s'.pc && Signals(s'.pc[u], d);
      }
    }
  }

  lemma RegisterStep(s: State, a: Action)
    requires Enabled(s, a) && a.Register? && ThreadOk(s, Handler(a.c))
    ensures var (s', t) := (Do(s, a), Handler(a.c));
      StepOf(s, s', t) && ThreadOk(s', t) && SameQueues(s, s') && Wakeful(s, s', t)
  {
    assert Shape(s) && Shape(Do(s, a));
    hide Shape;
    hide Signals;
    hide Draining;
  }

  lemma SetCallbackStep(s: State, a: Action)
    requires Enabled(s, a) && a.SetCallback? && ThreadOk(s, Handler(a.c))
    ensures var (s', t) := (Do(s, a), Handler(a.c));
      StepOf(s, s', t) && ThreadOk(s', t) && SameQueues(s, s') && Wakeful(s, s', t)
  {
    assert Shape(s) && Shape(Do(s, a));
    hide Shape;
    hide Signals;
    hide Draining;
  }

  lemma SetupKeeps(s: State, a: Action)
    requires Inv(s) && Enabled(s, a) && (a.Register? || a.SetCallback?)
    ensures Inv(Do(s, a))
  {
    hide RefsOk;
    hide RingsOk;
    hide SlotsOk;
    hide WakeOk;
    hide ThreadOk;
    hide OwnerStep;
    hide StepOf;
    hide SameQueues;
    hide Wakeful;
    var s', t := Do(s, a), Handler(a.c);
    if a.Register? { RegisterStep(s, a); } else { SetCallbackStep(s, a); }
    StepShape(s, s', t);
    OthersKeep(s, s', t);
    QueuesKeep(s, s');
    SetupRefs(s, s');
    WakeKeep(s, s', t);
  }

  lemma SetupRefs(s: State, s': State)
    requires Shape(s) && Shape(s') && RefsOk(s)
    requires s'.live == s.live && s'.ref == s.ref && s'.holders == s.holders && s'.owner == s.owner && s'.pc == s.pc
    ensures RefsOk(s')
  {
    hide Count;
  }

  /** The store of an incremented count does not wrap. */
  ghost predicate RefFits(s: State, a: Action)
    requires Enabled(s, a)
  {
    a.Commit? && s.pc[a.t].op.Ref? ==> Count(Do(s, a).holders, s.pc[a.t].op.m) <= 255
  }

  lemma CommitKeeps(s: State, t: Tid, n: nat, n2: nat)
    requires Inv(s) && Enabled(s, Commit(t, n, n2)) && RefFits(s, Commit(t, n, n2))
    ensures Inv(Do(s, Commit(t, n, n2)))
  {
    hide RingsOk;
    hide SlotsOk;
    hide WakeOk;
    hide RefsOk;
    hide ThreadOk;
    match s.pc[t].op
    case Ref(_) => StoreRefKeeps(s, t, n, n2);
    case Unref(_) => StoreUnrefKeeps(s, t, n, n2);
    case Send(_, _, _) => EnqueueKeeps(s, t, n, n2);
    case Receive => DequeueKeeps(s, t, n, n2);
    case New(_) =>
  }

  /** Every action keeps the invariant, as long as no message gets more than 255 references. */
  lemma DoKeeps(s: State, a: Action)
    requires Inv(s) && Enabled(s, a) && RefFits(s, a)
    ensures Inv(Do(s, a))
  {
    hide Inv;
    hide Do;
    hide Enabled;
    hide RefFits;
    match a
    case Register(_, _) => SetupKeeps(s, a);
    case SetCallback(_, _) => SetupKeeps(s, a);
    case Begin(t, op, n) => BeginKeeps(s, t, op, n);
    case PreCheck(t, n) => PreCheckKeeps(s, t, n);
    case DisableIrq(t) => DisableKeeps(s, t);
    case Acquire(t) => AcquireKeeps(s, t);
    case Create(t, m, n, ok) => CreateKeeps(s, t, m, n, ok);
    case Access(t, n) => AccessKeeps(s, t, n);
    case Commit(t, n, n2) => CommitKeeps(s, t, n, n2);
    case Dispose(t) => DisposeKeeps(s, t);
    case Release(t) => ReleaseKeeps(s, t);
    case Raise(t) => RaiseKeeps(s, t);
    case EnterHandler(c) => EnterHandlerKeeps(s, c);
    case Dispatch(t, n) => DispatchKeeps(s, t, n);
  }
}
