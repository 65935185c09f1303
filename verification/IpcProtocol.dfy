/** The SAE message protocol between three cores: tasks and interrupt handlers that reference,
    send, receive and release messages under one lock, one memory access at a time. Every
    reference to a message sits in a place - a ring slot, a client's pocket, a call in progress,
    or lost because no callback was registered - and the places are what the 8-bit count in the
    message must agree with. */
module IpcProtocol {
  import opened MsgRing

  const CORES: nat := 3

  datatype Option<T> = None | Some(value: T)

  datatype Tid = Task(core: nat, n: nat) | Handler(core: nat)

  datatype Kind = User | Stream | Other

  datatype Place = Slot(dst: nat, seqno: nat) | Pocket(n: nat) | Busy(t: Tid) | Lost(n: nat)

  datatype Op =
    | Ref(m: Msg)
    | Unref(m: Msg)
    | Send(m: Msg, dst: nat, signal: bool)
    | New(kind: Kind)
    | Receive

  /** What a call does once it has left the critical section. */
  datatype Then = Done | Signal(dst: nat) | Took(m: Msg) | Drained

  datatype Pc =
    | Idle                  // task between calls
    | Off                   // handler not running
    | Loop                  // handler between reads of its queue, callbacks included
    | Check(op: Op)         // call entered, unlocked check of the count to come
    | Passed(op: Op)        // check passed, interrupts still enabled
    | Spin(op: Op)          // interrupts disabled, lock wanted
    | Crit(op: Op)          // lock held, nothing done yet
    | Mid(op: Op, v: nat)   // lock held, first access done
    | Freeing(m: Msg)       // lock held, count stored as 0, message to be freed
    | Leave(next: Then)     // lock held, unlock to come
    | Fire(dst: nat)        // interrupt to be raised
    | Got(m: Msg)           // handler: message taken out, to be dispatched

  datatype State = State(
    owner: Option<Tid>,          // who holds the lock; the lock word is 1 iff there is one
    irqOff: seq<Option<Tid>>,    // per core, who has its interrupts disabled
    latched: seq<bool>,          // per core, edge interrupt pending
    quiet: seq<bool>,            // per core, something was queued without a signal
    trigger: seq<int>,           // idx2trigger
    rings: seq<Ring>,
    logs: seq<seq<Msg>>,         // per core, all messages its ring ever accepted
    gots: seq<nat>,              // per core, how many of them were taken out
    userCb: seq<bool>,
    streamCb: seq<bool>,
    live: set<Msg>,
    ref: map<Msg, int>,
    kind: map<Msg, Kind>,
    pc: map<Tid, Pc>,
    holders: map<Place, Msg>)

  // ---------------------------------------------------------------- reading a program counter

  predicate InLock(p: Pc) { p.Crit? || p.Mid? || p.Freeing? || p.Leave? }

  predicate NoIrq(p: Pc) { p.Spin? || InLock(p) }

  function About(op: Op): Option<Msg> {
    match op
    case Ref(m) => Some(m)
    case Unref(m) => Some(m)
    case Send(m, _, _) => Some(m)
    case _ => None
  }

  /** The message whose reference the call in progress has in hand. */
  function Carried(p: Pc): Option<Msg> {
    match p
    case Check(op) => About(op)
    case Passed(op) => About(op)
    case Spin(op) => About(op)
    case Crit(op) => About(op)
    case Mid(op, _) => About(op)
    case Leave(Took(m)) => Some(m)
    case Got(m) => Some(m)
    case _ => None
  }

  function Home(t: Tid): Pc { if t.Task? then Idle else Loop }

  predicate OpFits(t: Tid, op: Op) {
    (op.Receive? ==> t.Handler?) && (op.Send? ==> op.dst < CORES)
  }

  predicate ThenFits(t: Tid, next: Then) {
    match next
    case Done => true
    case Signal(d) => d < CORES
    case Took(_) => t.Handler?
    case Drained => t.Handler?
  }

  predicate PcFits(t: Tid, p: Pc) {
    match p
    case Idle => t.Task?
    case Off => t.Handler?
    case Loop => t.Handler?
    case Check(op) => OpFits(t, op)
    case Passed(op) => OpFits(t, op)
    case Spin(op) => OpFits(t, op)
    case Crit(op) => OpFits(t, op)
    case Mid(op, _) => OpFits(t, op) && !op.New?
    case Freeing(_) => true
    case Leave(next) => ThenFits(t, next)
    case Fire(d) => d < CORES
    case Got(_) => t.Handler?
  }

  /** A running handler that will still read its queue. */
  predicate Draining(p: Pc) { p != Off && p != Leave(Drained) }

  predicate Signals(p: Pc, c: nat) { p == Leave(Signal(c)) || p == Fire(c) }

  // ---------------------------------------------------------------- references

  ghost function PlacesOf(h: map<Place, Msg>, m: Msg): set<Place> { set p | p in h && h[p] == m }

  ghost function Count(h: map<Place, Msg>, m: Msg): nat { |PlacesOf(h, m)| }

  /** The reference at p, if any, moves to q. */
  function Move(h: map<Place, Msg>, p: Place, q: Place): map<Place, Msg> {
    if p in h then (h - {p})[q := h[p]] else h
  }

  lemma CountMove(h: map<Place, Msg>, p: Place, q: Place, m: Msg)
    requires p in h && q !in h
    ensures Count(Move(h, p, q), m) == Count(h, m)
  {
    var h' := Move(h, p, q);
    if h[p] == m {
      assert PlacesOf(h', m) == PlacesOf(h, m) - {p} + {q};
    } else {
      assert PlacesOf(h', m) == PlacesOf(h, m);
    }
  }

  lemma CountAdd(h: map<Place, Msg>, q: Place, n: Msg, m: Msg)
    requires q !in h
    ensures Count(h[q := n], m) == Count(h, m) + (if m == n then 1 else 0)
  {
    assert PlacesOf(h[q := n], m) == PlacesOf(h, m) + (if m == n then {q} else {});
  }

  lemma CountRemove(h: map<Place, Msg>, p: Place, m: Msg)
    requires p in h
    ensures Count(h - {p}, m) == Count(h, m) - (if m == h[p] then 1 else 0)
  {
    assert PlacesOf(h - {p}, m) == PlacesOf(h, m) - (if m == h[p] then {p} else {});
  }

  lemma CountPositive(h: map<Place, Msg>, p: Place)
    requires p in h
    ensures Count(h, h[p]) >= 1
  {
    assert p in PlacesOf(h, h[p]);
  }

  // ---------------------------------------------------------------- the invariant

  ghost predicate Shape(s: State)
  {
    && |s.irqOff| == |s.latched| == |s.quiet| == |s.trigger| == CORES
    && |s.rings| == |s.logs| == |s.gots| == |s.userCb| == |s.streamCb| == CORES
    && (forall c :: 0 <= c < CORES ==> Handler(c) in s.pc)
    && (s.owner.Some? ==> s.owner.value in s.pc)
    && (forall c :: 0 <= c < CORES && s.irqOff[c].Some? ==> s.irqOff[c].value in s.pc && s.irqOff[c].value.core == c)
    && (forall c :: 0 <= c < CORES ==> s.trigger[c] >= 0)
    && (forall t :: t in s.pc ==> t.core < CORES && PcFits(t, s.pc[t]))
    && (forall c :: 0 <= c < CORES ==> s.rings[c].Shape())
    && s.ref.Keys == s.kind.Keys == s.live
  }

  /** What the owner of the lock may rely on between its two accesses. */
  ghost predicate MidOk(s: State, t: Tid, p: Pc)
    requires Shape(s) && t.core < CORES && PcFits(t, p)
  {
    match p
    case Mid(Ref(m), v) => m in s.ref && v == s.ref[m]
    case Mid(Unref(m), v) => m in s.ref && v == s.ref[m]
    case Mid(Send(m, d, _), _) =>
      var r := s.rings[d];
      r.Shape() && !r.Full() && r.slots[r.head] == m
    case Mid(Receive, v) =>
      var r := s.rings[t.core];
      r.Shape() && !r.Empty() && r.Front() == v
    case Freeing(m) => m in s.ref && s.ref[m] == 0
    case _ => true
  }

  ghost predicate TriggerOk(s: State, p: Pc)
    requires Shape(s)
  {
    match p
    case Mid(Send(_, d, _), _) => d < CORES && s.trigger[d] > 0
    case Leave(Signal(d)) => d < CORES && s.trigger[d] > 0
    case Fire(d) => d < CORES && s.trigger[d] > 0
    case _ => true
  }

  ghost function Lookup(h: map<Place, Msg>, p: Place): Option<Msg> { if p in h then Some(h[p]) else None }

  ghost predicate ThreadOk(s: State, t: Tid)
    requires Shape(s) && t in s.pc
  {
    var p := s.pc[t];
    && (InLock(p) <==> s.owner == Some(t))
    && (NoIrq(p) <==> s.irqOff[t.core] == Some(t))
    && (t.Handler? && p != Off ==> s.irqOff[t.core].None? || s.irqOff[t.core] == Some(t))
    && Lookup(s.holders, Busy(t)) == Carried(p)
    && MidOk(s, t, p)
    && TriggerOk(s, p)
  }

  ghost predicate RingsOk(s: State)
    requires Shape(s)
  {
    forall c :: 0 <= c < CORES ==> Holds(s.rings[c], s.logs[c], s.gots[c])
  }

  /** The ring slots in use are exactly the places of queued references. */
  ghost predicate SlotsOk(s: State)
    requires Shape(s)
  {
    && (forall c: nat, i: nat :: Slot(c, i) in s.holders <==> c < CORES && s.gots[c] <= i < |s.logs[c]|)
    && (forall c: nat, i: nat :: Slot(c, i) in s.holders && c < CORES && i < |s.logs[c]| ==>
          s.holders[Slot(c, i)] == s.logs[c][i])
    && (forall t :: Busy(t) in s.holders ==> t in s.pc)
  }

  /** The counts: every live message's 8-bit count is the number of places that hold it; only live
      messages are held; a message nobody holds is just being freed. */
  ghost predicate RefsOk(s: State)
    requires Shape(s)
  {
    && (forall p :: p in s.holders ==> s.holders[p] in s.live)
    && (forall m :: m in s.live ==> s.ref[m] == Count(s.holders, m) <= 255)
    && (forall m :: m in s.live && s.ref[m] == 0 ==> s.owner.Some? && s.pc[s.owner.value] == Freeing(m))
  }

  ghost predicate Awake(s: State, c: nat)
    requires Shape(s) && c < CORES
  {
    || s.latched[c] || s.quiet[c] || Draining(s.pc[Handler(c)])
    || exists t :: t in s.pc && Signals(s.pc[t], c)
  }

  /** No lost wakeup. */
  ghost predicate WakeOk(s: State)
    requires Shape(s)
  {
    forall c :: 0 <= c < CORES && |s.logs[c]| > s.gots[c] ==> Awake(s, c)
  }

  ghost predicate Inv(s: State)
  {
    && Shape(s)
    && (forall t :: t in s.pc ==> ThreadOk(s, t))
    && RingsOk(s) && SlotsOk(s) && RefsOk(s) && WakeOk(s)
  }

  // ---------------------------------------------------------------- actions

  datatype Action =
    | Register(c: nat, id: int)
    | SetCallback(c: nat, user: bool)
    | Begin(t: Tid, op: Op, n: nat)
    | PreCheck(t: Tid, n: nat)
    | DisableIrq(t: Tid)
    | Acquire(t: Tid)
    | Create(t: Tid, m: Msg, n: nat, ok: bool)
    | Access(t: Tid, n: nat)
    | Commit(t: Tid, n: nat, n2: nat)
    | Dispose(t: Tid)
    | Release(t: Tid)
    | Raise(t: Tid)
    | EnterHandler(c: nat)
    | Dispatch(t: Tid, n: nat)

  /** A core with its interrupts disabled runs only the thread that did so, and a running handler
      keeps the tasks of its core from running. */
  predicate Runnable(s: State, t: Tid)
    requires |s.irqOff| == CORES
  {
    && t in s.pc && t.core < CORES
    && (s.irqOff[t.core].None? || s.irqOff[t.core] == Some(t))
    && (t.Task? ==> Handler(t.core) in s.pc && s.pc[Handler(t.core)] == Off)
  }

  predicate Unused(s: State, n: nat) { Pocket(n) !in s.holders }

  ghost predicate Enabled(s: State, a: Action)
  {
    && Shape(s)
    && match a
       case Register(c, id) => c < CORES && id > 0
       case SetCallback(c, _) => c < CORES
       case Begin(t, op, n) =>
         Runnable(s, t) && s.pc[t] == Home(t) && OpFits(t, op)
         && (About(op).Some? ==> Lookup(s.holders, Pocket(n)) == About(op))
       case PreCheck(t, n) => Runnable(s, t) && s.pc[t].Check? && Unused(s, n)
       case DisableIrq(t) => Runnable(s, t) && s.pc[t].Passed?
       case Acquire(t) => Runnable(s, t) && s.pc[t].Spin? && s.owner.None?
       case Create(t, m, n, ok) =>
         Runnable(s, t) && s.pc[t].Crit? && s.pc[t].op.New? && Unused(s, n) && m !in s.live
       case Access(t, n) =>
         Runnable(s, t) && s.pc[t].Crit? && !s.pc[t].op.New? && Unused(s, n)
       case Commit(t, n, n2) => Runnable(s, t) && s.pc[t].Mid? && Unused(s, n) && Unused(s, n2) && n != n2
       case Dispose(t) => Runnable(s, t) && s.pc[t].Freeing?
       case Release(t) => Runnable(s, t) && s.pc[t].Leave?
       case Raise(t) => Runnable(s, t) && s.pc[t].Fire?
       case EnterHandler(c) =>
         c < CORES && s.latched[c] && s.irqOff[c].None? && s.pc[Handler(c)] == Off
       case Dispatch(t, n) => Runnable(s, t) && s.pc[t].Got? && Unused(s, n) && Lost(n) !in s.holders
  }

  function RefOf(s: State, m: Msg): nat { if m in s.ref && s.ref[m] >= 0 then s.ref[m] else 0 }

  function At(s: State, t: Tid, p: Pc): State { s.(pc := s.pc[t := p]) }

  /** The call gives its reference back to the client. */
  function Return(s: State, t: Tid, n: nat): State {
    s.(holders := Move(s.holders, Busy(t), Pocket(n)))
  }

  /** sae_refMsgBuffer and sae_unRefMsgBuffer look at the count before they lock. */
  function DoPreCheck(s: State, t: Tid, n: nat): State
    requires Enabled(s, PreCheck(t, n))
  {
    var op := s.pc[t].op;
    var refused := match op
      case Ref(m) => RefOf(s, m) == 0xFF
      case Unref(m) => RefOf(s, m) == 0
      case _ => false;
    if refused then At(Return(s, t, n), t, Home(t))
    else At(s, t, Passed(op))
  }

  function DoCreate(s: State, t: Tid, m: Msg, n: nat, ok: bool): State
    requires Enabled(s, Create(t, m, n, ok))
  {
    if !ok then At(s, t, Leave(Done))
    else
      At(s.(live := s.live + {m}, ref := s.ref[m := 1], kind := s.kind[m := s.pc[t].op.kind],
            holders := s.holders[Pocket(n) := m]), t, Leave(Done))
  }

  /** The first access inside of the critical section. */
  function DoAccess(s: State, t: Tid, n: nat): State
    requires Enabled(s, Access(t, n))
  {
    var op := s.pc[t].op;
    match op
    case Ref(m) => At(s, t, Mid(op, RefOf(s, m)))
    case Unref(m) => At(s, t, Mid(op, RefOf(s, m)))
    case Send(m, d, _) =>
      if d >= CORES || s.trigger[d] == 0 || s.rings[d].Full() then At(Return(s, t, n), t, Leave(Done))
      else At(s.(rings := s.rings[d := s.rings[d].Written(m)]), t, Mid(op, 0))
    case Receive =>
      var r := s.rings[t.core];
      if r.Empty() then At(s.(quiet := s.quiet[t.core := false]), t, Leave(Drained))
      else At(s, t, Mid(op, r.Front()))
    case New(_) => s
  }

  /** The second access: the store that makes the operation take effect. */
  function DoCommit(s: State, t: Tid, n: nat, n2: nat): State
    requires Enabled(s, Commit(t, n, n2))
  {
    var op, v := s.pc[t].op, s.pc[t].v;
    match op
    case Ref(m) =>
      At(s.(ref := s.ref[m := (v + 1) % 256], holders := Move(s.holders, Busy(t), Pocket(n))[Pocket(n2) := m]),
         t, Leave(Done))
    case Unref(m) =>
      var v' := (v + 255) % 256;
      At(s.(ref := s.ref[m := v'], holders := s.holders - {Busy(t)}), t, if v' == 0 then Freeing(m) else Leave(Done))
    case Send(m, d, signal) =>
      if d >= CORES then s
      else
        At(s.(rings := s.rings[d := s.rings[d].Bumped()],
              logs := s.logs[d := s.logs[d] + [m]],
              quiet := if signal then s.quiet else s.quiet[d := true],
              holders := Move(s.holders, Busy(t), Slot(d, |s.logs[d]|))),
           t, Leave(if signal then Signal(d) else Done))
    case Receive =>
      var c := t.core;
      At(s.(rings := s.rings[c := s.rings[c].Dropped()],
            gots := s.gots[c := s.gots[c] + 1],
            holders := Move(s.holders, Slot(c, s.gots[c]), Busy(t))),
         t, Leave(Took(v)))
    case New(_) => s
  }

  function DoRelease(s: State, t: Tid): State
    requires Enabled(s, Release(t))
  {
    var next := match s.pc[t].next
      case Done => Home(t)
      case Signal(d) => Fire(d)
      case Took(m) => Got(m)
      case Drained => Off;
    At(s.(owner := None, irqOff := s.irqOff[t.core := None]), t, next)
  }

  /** The handler hands the message to the callback for its type, drops it when there is none, and
      releases messages of unknown type itself. */
  function DoDispatch(s: State, t: Tid, n: nat): State
    requires Enabled(s, Dispatch(t, n))
  {
    var m := s.pc[t].m;
    var cb := match (if m in s.kind then s.kind[m] else Other)
      case User => Some(s.userCb[t.core])
      case Stream => Some(s.streamCb[t.core])
      case Other => None;
    if cb == None then At(s, t, Check(Unref(m)))
    else At(s.(holders := Move(s.holders, Busy(t), if cb.value then Pocket(n) else Lost(n))), t, Loop)
  }

  function Do(s: State, a: Action): State
    requires Enabled(s, a)
  {
    match a
    case Register(c, id) => s.(trigger := s.trigger[c := id])
    case SetCallback(c, user) =>
      if user then s.(userCb := s.userCb[c := true]) else s.(streamCb := s.streamCb[c := true])
    case Begin(t, op, n) =>
      At(if About(op).Some? then s.(holders := Move(s.holders, Pocket(n), Busy(t))) else s, t, Check(op))
    case PreCheck(t, n) => DoPreCheck(s, t, n)
    case DisableIrq(t) => At(s.(irqOff := s.irqOff[t.core := Some(t)]), t, Spin(s.pc[t].op))
    case Acquire(t) => At(s.(owner := Some(t)), t, Crit(s.pc[t].op))
    case Create(t, m, n, ok) => DoCreate(s, t, m, n, ok)
    case Access(t, n) => DoAccess(s, t, n)
    case Commit(t, n, n2) => DoCommit(s, t, n, n2)
    case Dispose(t) =>
      At(s.(live := s.live - {s.pc[t].m}, ref := s.ref - {s.pc[t].m}, kind := s.kind - {s.pc[t].m}), t, Leave(Done))
    case Release(t) => DoRelease(s, t)
    case Raise(t) => At(s.(latched := s.latched[s.pc[t].dst := true]), t, Home(t))
    case EnterHandler(c) => At(s.(latched := s.latched[c := false]), Handler(c), Loop)
    case Dispatch(t, n) => DoDispatch(s, t, n)
  }
}
