/** The clients that send one message to several cores, or keep sending the same one: the event
    broadcast of sae_util.c, the pings of the housekeeping task, quickIpcToCore, and the persistent
    messages of sharc_audio.c and of the SHARC's cyclesMsg. A client runs as one thread of the
    message protocol, interleaved with everybody else; it believes to hold a number of references,
    and the theorems say that the belief is right whichever of its sends fail. */
module IpcFanout {
  import Arithmetic
  import opened MsgRing
  import opened IpcProtocol
  import opened IpcSafety
  import opened IpcTheorems

  /** What these clients are made of. SendTo releases the reference itself when the send fails. After
      a failed allocation that is checked the client is done; after one that is not, it goes on with
      a NULL message, which is as far as the model follows it. */
  datatype Stmt = MakeMsg(kind: Kind, checked: bool) | AddRef | SendTo(dst: nat) | DropRef | UseNull

  /** sae_broadcastEvent. */
  const BROADCAST := [MakeMsg(Stream, true), AddRef, SendTo(0), AddRef, SendTo(1), AddRef, SendTo(2), DropRef]

  /** The two requests that housekeeping sends to both SHARCs. */
  const PING_BOTH := [MakeMsg(User, true), AddRef, SendTo(1), SendTo(2)]

  /** processAudio, to both SHARCs, when a clock domain fires. */
  const DOMAIN_FIRED := [MakeMsg(User, true), AddRef, SendTo(1), AddRef, SendTo(2), DropRef]

  /** The SHARC's answer to a ping of the ARM core. */
  const PING_ANSWER := [MakeMsg(User, false), SendTo(0)]

  /** quickIpcToCore. */
  function Quick(dst: nat): seq<Stmt> { [MakeMsg(User, true), SendTo(dst)] }

  /** sendMsg in sharc_audio.c and the cycles reply, again and again: the message itself is kept. */
  function Persistent(dsts: seq<nat>): seq<Stmt> {
    if dsts == [] then [] else [AddRef, SendTo(dsts[0])] + Persistent(dsts[1..])
  }

  /** A client in thread t: the references it believes to hold are in its variables p, p + 1. */
  datatype Fan = Fan(
    t: Tid,
    p: nat,
    s: State,
    todo: seq<Stmt>,
    held: nat,
    m: Msg,
    calling: bool,
    failed: bool)

  function OpOf(f: Fan): Op
    requires f.todo != []
  {
    match f.todo[0]
    case MakeMsg(k, _) => New(k)
    case AddRef => Op.Ref(f.m)
    case SendTo(d) => Op.Send(f.m, d, true)
    case DropRef => Op.Unref(f.m)
    case UseNull => Receive  // not begun
  }

  function Top(f: Fan): nat { if f.held == 0 then f.p else f.p + f.held - 1 }

  ghost function OwnPlaces(f: Fan): set<Place> { {Busy(f.t), Pocket(f.p), Pocket(f.p + 1), Pocket(f.p + 2)} }

  // ---------------------------------------------------------------- steps

  /** The client's own steps: the call for its next statement, then that call's steps. */
  predicate OwnAction(f: Fan, a: Action) {
    match a
    case Begin(t, op, n) =>
      t == f.t && !f.calling && f.todo != [] && !f.todo[0].UseNull? && op == OpOf(f) && (About(op).Some? ==> n == Top(f))
    case PreCheck(t, n) => t == f.t && f.calling && n == Top(f)
    case DisableIrq(t) => t == f.t && f.calling
    case Create(t, _, n, _) => t == f.t && f.calling && n == f.p
    case Access(t, n) => t == f.t && f.calling && n == Top(f)
    case Commit(t, n, n2) => t == f.t && f.calling && n == Top(f) && n2 == f.p + f.held
    case Acquire(t) => t == f.t && f.calling
    case Dispose(t) => t == f.t && f.calling
    case Release(t) => t == f.t && f.calling
    case Raise(t) => t == f.t && f.calling
    case _ => false
  }

  function Actor(a: Action): Option<Tid> {
    match a
    case Register(_, _) => None
    case SetCallback(_, _) => None
    case EnterHandler(c) => Some(Handler(c))
    case Begin(t, _, _) => Some(t)
    case PreCheck(t, _) => Some(t)
    case DisableIrq(t) => Some(t)
    case Acquire(t) => Some(t)
    case Create(t, _, _, _) => Some(t)
    case Access(t, _) => Some(t)
    case Commit(t, _, _) => Some(t)
    case Dispose(t) => Some(t)
    case Release(t) => Some(t)
    case Raise(t) => Some(t)
    case Dispatch(t, _) => Some(t)
  }

  /** The client variables an action may use. */
  predicate Names(a: Action, n: nat) {
    match a
    case Begin(_, _, k) => n == k
    case PreCheck(_, k) => n == k
    case Create(_, _, k, _) => n == k
    case Access(_, k) => n == k
    case Commit(_, k, k2) => n == k || n == k2
    case Dispatch(_, k) => n == k
    case _ => false
  }

  /** A step of anyone else, who does not use the client's variables. */
  predicate ForeignAction(f: Fan, a: Action) {
    Actor(a) != Some(f.t) && !Names(a, f.p) && !Names(a, f.p + 1) && !Names(a, f.p + 2)
  }

  /** The call is over: the client goes on, as the source does, without looking at the result of
      anything but an allocation and a send. */
  function Returned(f: Fan): Fan
    requires f.todo != []
  {
    var rest := f.todo[1..];
    var g := f.(calling := false, failed := false);
    match f.todo[0]
    case MakeMsg(_, checked) =>
      if f.failed then g.(todo := if checked then [] else [UseNull]) else g.(todo := rest, held := 1)
    case AddRef => g.(todo := rest, held := f.held + 1)
    case SendTo(_) =>
      if f.failed then g.(todo := [DropRef] + rest)
      else g.(todo := rest, held := if f.held == 0 then 0 else f.held - 1)
    case DropRef => g.(todo := rest, held := if f.held == 0 then 0 else f.held - 1)
    case UseNull => g
  }

  ghost predicate CanStep(f: Fan, a: Action) {
    && Enabled(f.s, a) && f.t in f.s.pc && f.t in Do(f.s, a).pc
    && (OwnAction(f, a) || ForeignAction(f, a))
  }

  function Next(f: Fan, a: Action): Fan
    requires CanStep(f, a)
  {
    var g := f.(s := Do(f.s, a));
    if !OwnAction(f, a) then g
    else if a.Begin? then g.(calling := true, failed := false)
    else
      var h := g.(failed := f.failed || (a.Access? && g.s.pc[f.t] == Leave(Done)) || (a.Create? && !a.ok),
                  m := if a.Create? && a.ok then a.m else f.m);
      if g.s.pc[f.t] == Home(f.t) && f.todo != [] then Returned(h) else h
  }

  /** What the others may hold at most, so that four more references still fit. */
  ghost predicate OthersFit(f: Fan) {
    forall m :: m in f.s.live ==> |Outside(f.s.holders, m) - OwnPlaces(f)| <= CLIENT_LIMIT - 4
  }

  ghost predicate FanRun(f: Fan, run: seq<Action>)
    decreases |run|
  {
    run != [] ==> CanStep(f, run[0]) && OthersFit(Next(f, run[0])) && FanRun(Next(f, run[0]), run[1..])
  }

  ghost function After(f: Fan, run: seq<Action>): Fan
    requires FanRun(f, run)
    decreases |run|
  {
    if run == [] then f else After(Next(f, run[0]), run[1..])
  }

  // ---------------------------------------------------------------- programs

  /** The statements never use a reference that the client does not hold, and two suffice. */
  predicate Fits(todo: seq<Stmt>, held: nat) {
    todo == [] ||
    match todo[0]
    case MakeMsg(_, _) => held == 0 && Fits(todo[1..], 1)
    case AddRef => held == 1 && Fits(todo[1..], 2)
    case SendTo(d) => 1 <= held <= 2 && d < CORES && Fits(todo[1..], held - 1)
    case DropRef => 1 <= held <= 2 && Fits(todo[1..], held - 1)
    case UseNull => held == 0
  }

  /** The references held after the last statement. */
  function Final(todo: seq<Stmt>, held: nat): nat
    requires Fits(todo, held)
  {
    if todo == [] then held
    else
      match todo[0]
      case MakeMsg(_, _) => Final(todo[1..], 1)
      case AddRef => Final(todo[1..], 2)
      case SendTo(_) => Final(todo[1..], held - 1)
      case DropRef => Final(todo[1..], held - 1)
      case UseNull => 0
  }

  /** The client keeps at least one reference all along. */
  predicate Floor(todo: seq<Stmt>, held: nat)
    requires Fits(todo, held)
  {
    && held >= 1
    && (todo == [] ||
        match todo[0]
        case MakeMsg(_, _) => false
        case AddRef => Floor(todo[1..], 2)
        case SendTo(_) => Floor(todo[1..], held - 1)
        case DropRef => Floor(todo[1..], held - 1)
        case UseNull => false)
  }

  // ---------------------------------------------------------------- the belief is right

  /** How many of the client's variables hold a reference right now. */
  function InPockets(f: Fan): int
    requires f.t in f.s.pc && (f.calling ==> f.todo != [])
  {
    var pc := f.s.pc[f.t];
    if !f.calling then f.held
    else
      match f.todo[0]
      case MakeMsg(_, _) => if pc.Leave? && !f.failed then 1 else 0
      case AddRef => if Carried(pc).Some? then f.held - 1 else f.held + 1
      case SendTo(_) => if f.failed then f.held else f.held - 1
      case DropRef => f.held - 1
      case UseNull => 0
  }

  predicate PcMatches(f: Fan)
    requires f.t in f.s.pc && f.todo != []
  {
    var pc := f.s.pc[f.t];
    || (!f.todo[0].UseNull? && (pc.Check? || pc.Passed? || pc.Spin? || pc.Crit? || pc.Mid?) && pc.op == OpOf(f) && !f.failed)
    || match f.todo[0]
       case MakeMsg(_, _) => pc == Leave(Done)
       case AddRef => pc == Leave(Done) && !f.failed
       case SendTo(d) => if f.failed then pc == Leave(Done) else pc == Leave(Signal(d)) || pc == Fire(d)
       case DropRef => (pc == Freeing(f.m) || pc == Leave(Done)) && !f.failed
       case UseNull => false
  }

  ghost predicate Pocketed(f: Fan, i: nat, k: int) {
    Lookup(f.s.holders, Pocket(f.p + i)) == if i < k then Some(f.m) else None
  }

  ghost predicate Pockets(f: Fan, k: int) { Pocketed(f, 0, k) && Pocketed(f, 1, k) && Pocketed(f, 2, k) }

  ghost predicate Belief(f: Fan) {
    && f.t in f.s.pc && f.held <= 2 && Fits(f.todo, f.held)
    && (if f.calling then f.todo != [] && PcMatches(f) else f.s.pc[f.t] == Home(f.t))
    && Pockets(f, InPockets(f))
  }

  ghost predicate FanInv(f: Fan) { Inv(f.s) && Belief(f) }

  ghost predicate Framed(s: State, s': State, a: Action) {
    && s'.pc.Keys == s.pc.Keys
    && (forall u :: u in s.pc && Some(u) != Actor(a) ==> s'.pc[u] == s.pc[u])
    && (forall n: nat :: !Names(a, n) ==> Lookup(s'.holders, Pocket(n)) == Lookup(s.holders, Pocket(n)))
  }

  /** A commit changes at most its own thread's program counter. */
  lemma CommitPc(s: State, t: Tid, n: nat, n2: nat)
    requires Enabled(s, Commit(t, n, n2)) && t in s.pc
    ensures var pc := DoCommit(s, t, n, n2).pc; t in pc && (pc == s.pc || pc == s.pc[t := pc[t]])
  {
    hide Shape;
    hide Move;
    match s.pc[t].op
    case Ref(_) =>
    case Unref(_) =>
    case Send(_, _, _) =>
    case Receive =>
    case New(_) =>
  }

  lemma CommitPcs(s: State, t: Tid, n: nat, n2: nat)
    requires Enabled(s, Commit(t, n, n2))
    ensures var s' := DoCommit(s, t, n, n2);
      s'.pc.Keys == s.pc.Keys && forall u :: u in s.pc && u != t ==> s'.pc[u] == s.pc[u]
  {
    assert t in s.pc;
    CommitPc(s, t, n, n2);
    hide *;
  }

  lemma CommitPockets(s: State, t: Tid, n: nat, n2: nat, k: nat)
    requires Enabled(s, Commit(t, n, n2)) && k != n && k != n2
    ensures Lookup(DoCommit(s, t, n, n2).holders, Pocket(k)) == Lookup(s.holders, Pocket(k))
  {
    hide OpFits;
    hide Ring.Full;
    hide Ring.Written;
    hide Ring.Empty;
    hide Ring.Front;
    hide Ring.Bumped;
    hide Ring.Dropped;
    hide Shape;
  }

  lemma CommitFramed(s: State, t: Tid, n: nat, n2: nat)
    requires Enabled(s, Commit(t, n, n2))
    ensures Framed(s, DoCommit(s, t, n, n2), Commit(t, n, n2))
  {
    CommitPcs(s, t, n, n2);
    forall k: nat | !Names(Commit(t, n, n2), k)
      ensures Lookup(DoCommit(s, t, n, n2).holders, Pocket(k)) == Lookup(s.holders, Pocket(k))
    {
      CommitPockets(s, t, n, n2, k);
    }
    hide Enabled;
    hide DoCommit;
    hide Lookup;
  }

  lemma CreateFramed(s: State, t: Tid, m: Msg, n: nat, ok: bool)
    requires Enabled(s, Create(t, m, n, ok))
    ensures Framed(s, DoCreate(s, t, m, n, ok), Create(t, m, n, ok))
  {
    hide Shape;
  }

  lemma AccessFramed(s: State, t: Tid, n: nat)
    requires Enabled(s, Access(t, n))
    ensures Framed(s, DoAccess(s, t, n), Access(t, n))
  {
    hide OpFits;
    hide Ring.Full;
    hide Ring.Written;
    hide Ring.Empty;
    hide Ring.Front;
    hide Ring.Bumped;
    hide Ring.Dropped;
    hide Shape;
  }

  lemma PreCheckFramed(s: State, t: Tid, n: nat)
    requires Enabled(s, PreCheck(t, n))
    ensures Framed(s, DoPreCheck(s, t, n), PreCheck(t, n))
  {
    hide Shape;
  }

  lemma DispatchFramed(s: State, t: Tid, n: nat)
    requires Enabled(s, Dispatch(t, n))
    ensures Framed(s, DoDispatch(s, t, n), Dispatch(t, n))
  {
    hide Shape;
  }

  lemma ReleaseFramed(s: State, t: Tid)
    requires Enabled(s, Release(t))
    ensures Framed(s, DoRelease(s, t), Release(t))
  {
    hide Shape;
  }

  lemma EnterFramed(s: State, c: nat)
    requires Enabled(s, EnterHandler(c)) && Shape(s)
    ensures Framed(s, Do(s, EnterHandler(c)), EnterHandler(c))
  {
  }

  /** The actions that change a program counter and no variable of any client. */
  lemma PlainFramed(s: State, a: Action)
    requires Enabled(s, a) && (a.DisableIrq? || a.Acquire? || a.Dispose? || a.Raise? || a.Register? || a.SetCallback?)
    ensures Framed(s, Do(s, a), a)
  {
    hide Shape;
  }

  lemma BeginFramed(s: State, t: Tid, op: Op, n: nat)
    requires Enabled(s, Begin(t, op, n))
    ensures Framed(s, Do(s, Begin(t, op, n)), Begin(t, op, n))
  {
    hide Shape;
    hide OpFits;
  }

  lemma DoFramed(s: State, a: Action)
    requires Enabled(s, a)
    ensures Framed(s, Do(s, a), a)
  {
    hide DoCommit;
    hide DoCreate;
    hide DoAccess;
    hide DoPreCheck;
    hide DoDispatch;
    hide DoRelease;
    hide Framed;
    hide Runnable;
    match a
    case Commit(t, n, n2) => CommitFramed(s, t, n, n2);
    case Create(t, m, n, ok) => CreateFramed(s, t, m, n, ok);
    case Access(t, n) => AccessFramed(s, t, n);
    case PreCheck(t, n) => PreCheckFramed(s, t, n);
    case Dispatch(t, n) => DispatchFramed(s, t, n);
    case Release(t) => ReleaseFramed(s, t);
    case EnterHandler(c) => EnterFramed(s, c);
    case Begin(t, op, n) => BeginFramed(s, t, op, n);
    case _ => PlainFramed(s, a);
  }

  /** Nobody else changes the client's program counter or its variables. */
  lemma ForeignKeeps(f: Fan, a: Action)
    requires Belief(f) && Enabled(f.s, a) && ForeignAction(f, a)
    ensures Belief(f.(s := Do(f.s, a)))
  {
    hide Enabled;
    hide Do;
    hide Fits;
    hide Lookup;
    DoFramed(f.s, a);
  }

  // ---------------------------------------------------------------- the client's own steps

  lemma BeginOwn(f: Fan, op: Op, n: nat)
    requires Belief(f) && CanStep(f, Begin(f.t, op, n)) && OwnAction(f, Begin(f.t, op, n))
    ensures Belief(Next(f, Begin(f.t, op, n)))
  {
    hide Shape;
    hide Runnable;
  }

  lemma PreCheckOwn(f: Fan, n: nat)
    requires Belief(f) && CanStep(f, PreCheck(f.t, n)) && OwnAction(f, PreCheck(f.t, n))
    requires Lookup(f.s.holders, Busy(f.t)) == Carried(f.s.pc[f.t])
    requires About(f.s.pc[f.t].op).Some? ==> 0 < RefOf(f.s, f.m) < 255
    ensures Belief(Next(f, PreCheck(f.t, n)))
  {
    hide Shape;
    hide Runnable;
  }

  lemma EnteringOwn(f: Fan, a: Action)
    requires Belief(f) && CanStep(f, a) && OwnAction(f, a) && (a.DisableIrq? || a.Acquire?)
    ensures Belief(Next(f, a))
  {
    hide Shape;
    hide Runnable;
  }

  lemma CreateOwn(f: Fan, m: Msg, n: nat, ok: bool)
    requires Belief(f) && CanStep(f, Create(f.t, m, n, ok)) && OwnAction(f, Create(f.t, m, n, ok))
    ensures Belief(Next(f, Create(f.t, m, n, ok)))
  {
    hide Shape;
    hide Runnable;
  }

  /** What a first access does to the caller: a rejected send gets its reference back. */
  lemma AccessEffect(s: State, t: Tid, n: nat)
    requires Enabled(s, Access(t, n)) && t in s.pc && !s.pc[t].op.Receive?
    ensures var (s', op) := (DoAccess(s, t, n), s.pc[t].op);
      && t in s'.pc
      && if op.Send? && s'.pc[t] == Leave(Done)
         then s'.holders == Move(s.holders, Busy(t), Pocket(n))
         else s'.holders == s.holders && s'.pc[t].Mid? && s'.pc[t].op == op
  {
    hide Shape;
    hide OpFits;
    hide Move;
  }

  lemma AccessNext(f: Fan, n: nat)
    requires Belief(f) && CanStep(f, Access(f.t, n)) && OwnAction(f, Access(f.t, n))
    ensures f.t in f.s.pc && f.s.pc[f.t].Crit? && f.s.pc[f.t].op == OpOf(f) && !f.failed && n == Top(f)
    ensures var s' := DoAccess(f.s, f.t, n);
      && f.t in s'.pc && s'.pc[f.t] != Home(f.t)
      && Next(f, Access(f.t, n)) == f.(s := s', failed := s'.pc[f.t] == Leave(Done))
  {
    hide Fits;
    hide Pockets;
    hide Returned;
    hide Shape;
    AccessEffect(f.s, f.t, n);
    hide DoAccess;
  }

  lemma AccessOwn(f: Fan, n: nat)
    requires Belief(f) && CanStep(f, Access(f.t, n)) && OwnAction(f, Access(f.t, n))
    requires Lookup(f.s.holders, Busy(f.t)) == Carried(f.s.pc[f.t])
    ensures Belief(Next(f, Access(f.t, n)))
  {
    AccessNext(f, n);
    AccessEffect(f.s, f.t, n);
    hide Next;
    hide DoAccess;
    hide CanStep;
    hide Shape;
  }

  /** What a commit does to the caller. */
  lemma CommitEffect(s: State, t: Tid, n: nat, n2: nat)
    requires Enabled(s, Commit(t, n, n2)) && Shape(s) && t in s.pc && !s.pc[t].op.Receive?
    ensures var (s', op) := (DoCommit(s, t, n, n2), s.pc[t].op);
      && t in s'.pc
      && match op
         case Ref(m) =>
           s'.pc[t] == Leave(Done) && s'.holders == Move(s.holders, Busy(t), Pocket(n))[Pocket(n2) := m]
         case Unref(m) =>
           s'.pc[t] in {Leave(Done), Freeing(m)} && s'.holders == s.holders - {Busy(t)}
         case Send(m, d, signal) =>
           && d < CORES && s'.pc[t] == Leave(if signal then Signal(d) else Done)
           && s'.holders == Move(s.holders, Busy(t), Slot(d, |s.logs[d]|))
         case _ => true
  {
    hide Move;
    assert PcFits(t, s.pc[t]);
  }

  lemma CommitNext(f: Fan, n: nat, n2: nat)
    requires Belief(f) && CanStep(f, Commit(f.t, n, n2)) && OwnAction(f, Commit(f.t, n, n2))
    ensures f.s.pc[f.t].Mid? && Shape(f.s) && f.s.pc[f.t].op == OpOf(f) && !f.failed
    ensures f.t in DoCommit(f.s, f.t, n, n2).pc && DoCommit(f.s, f.t, n, n2).pc[f.t] != Home(f.t)
    ensures Next(f, Commit(f.t, n, n2)) == f.(s := DoCommit(f.s, f.t, n, n2))
  {
    hide Fits;
    hide Pockets;
    hide Returned;
    CommitEffect(f.s, f.t, n, n2);
    hide DoCommit;
  }

  lemma CommitOwn(f: Fan, n: nat, n2: nat)
    requires Belief(f) && CanStep(f, Commit(f.t, n, n2)) && OwnAction(f, Commit(f.t, n, n2))
    requires Lookup(f.s.holders, Busy(f.t)) == Carried(f.s.pc[f.t])
    ensures Belief(Next(f, Commit(f.t, n, n2)))
  {
    CommitNext(f, n, n2);
    CommitEffect(f.s, f.t, n, n2);
    hide Next;
    hide DoCommit;
    hide CanStep;
    hide Shape;
  }

  lemma DisposeOwn(f: Fan)
    requires Belief(f) && CanStep(f, Dispose(f.t)) && OwnAction(f, Dispose(f.t))
    ensures Belief(Next(f, Dispose(f.t)))
  {
    hide Shape;
    hide Runnable;
  }

  lemma ReleaseOwn(f: Fan)
    requires Belief(f) && CanStep(f, Release(f.t)) && OwnAction(f, Release(f.t))
    ensures Belief(Next(f, Release(f.t)))
  {
    hide Shape;
    hide Runnable;
  }

  lemma RaiseOwn(f: Fan)
    requires Belief(f) && CanStep(f, Raise(f.t)) && OwnAction(f, Raise(f.t))
    ensures Belief(Next(f, Raise(f.t)))
  {
    hide Shape;
    hide Runnable;
  }

  lemma NextKeepsName(f: Fan, a: Action)
    requires CanStep(f, a)
    ensures Next(f, a).s == Do(f.s, a) && OwnPlaces(Next(f, a)) == OwnPlaces(f)
    ensures !OwnAction(f, a) ==> Next(f, a) == f.(s := Do(f.s, a))
  {
    hide Do;
    hide Enabled;
    hide OwnAction;
  }

  lemma CutSize(a: set<Place>, b: set<Place>)
    ensures |a| <= |a - b| + |b|
  {
    Arithmetic.SubsetSize(a, (a - b) + b);
  }

  /** If the others leave room for four more references, everybody keeps within the limit. */
  lemma OthersFitClientsFit(f: Fan)
    requires OthersFit(f)
    ensures ClientsFit(f.s)
  {
    forall m | m in f.s.live ensures |Outside(f.s.holders, m)| <= CLIENT_LIMIT {
      CutSize(Outside(f.s.holders, m), OwnPlaces(f));
    }
  }

  lemma QueuedAtMost(s: State, m: Msg)
    requires Inv(s)
    ensures Shape(s) && |QueuedOn(s, m, 0)| + |QueuedOn(s, m, 1)| + |QueuedOn(s, m, 2)| <= CORES * (SLOTS - 1)
  {
    QueuedBound(s, m, 0);
    QueuedBound(s, m, 1);
    QueuedBound(s, m, 2);
  }

  lemma RefKnown(s: State, m: Msg)
    requires Inv(s) && m in s.live
    ensures m in s.ref
  {
  }

  lemma ThreeMore(o: set<Place>, a: Place, b: Place, c: Place, d: Place)
    requires d !in o
    ensures |o| <= |o - {a, b, c, d}| + 3
  {
    var own := {a, b, c};
    assert o - {a, b, c, d} == o - own;
    CutSize(o, own);
    assert own == {a} + {b} + {c};
  }

  lemma OutsideRoom(f: Fan, m: Msg)
    requires OthersFit(f) && m in f.s.live && Pocket(f.p + 2) !in f.s.holders
    ensures |Outside(f.s.holders, m)| <= CLIENT_LIMIT - 1
  {
    var o := Outside(f.s.holders, m);
    assert Pocket(f.p + 2) !in o && |o - OwnPlaces(f)| <= CLIENT_LIMIT - 4;
    hide OthersFit;
    hide Outside;
    ThreeMore(o, Busy(f.t), Pocket(f.p), Pocket(f.p + 1), Pocket(f.p + 2));
  }

  lemma RoomForOne(f: Fan, m: Msg)
    requires Inv(f.s) && OthersFit(f) && m in f.s.live && Pocket(f.p + 2) !in f.s.holders
    ensures m in f.s.ref && f.s.ref[m] < 255
  {
    RefKnown(f.s, m);
    QueuedAtMost(f.s, m);
    Accounting(f.s, m);
    OutsideRoom(f, m);
    hide *;
  }

  lemma CheckedIsMine(f: Fan)
    requires Belief(f) && f.calling && f.s.pc[f.t].Check? && About(f.s.pc[f.t].op).Some?
    ensures Carried(f.s.pc[f.t]) == Some(f.m) && Pocket(f.p + 2) !in f.s.holders
  {
    hide Fits;
    assert Pocketed(f, 2, InPockets(f));
  }

  /** The unlocked check of the count lets the client's calls pass. */
  lemma CheckPasses(f: Fan)
    requires Inv(f.s) && Belief(f) && OthersFit(f)
    requires f.calling && f.s.pc[f.t].Check? && About(f.s.pc[f.t].op).Some?
    ensures 0 < RefOf(f.s, f.m) < 255
  {
    CheckedIsMine(f);
    assert f.t in f.s.pc;
    BusyCarries(f.s, f.t);
    hide Inv;
    hide Belief;
    hide RefsOk;
    hide Shape;
    hide OthersFit;
    CarriedIsLive(f.s, f.t, f.m);
    RoomForOne(f, f.m);
  }

  lemma BusyCarries(s: State, t: Tid)
    requires Inv(s) && t in s.pc
    ensures Shape(s) && s.ref.Keys == s.live && RefsOk(s)
    ensures Lookup(s.holders, Busy(t)) == Carried(s.pc[t])
  {
    assert ThreadOk(s, t);
  }

  lemma OwnKeeps(f: Fan, a: Action)
    requires Inv(f.s) && Belief(f) && OthersFit(f) && CanStep(f, a) && OwnAction(f, a)
    ensures Belief(Next(f, a))
  {
    hide Next;
    hide Do;
    hide Shape;
    hide Runnable;
    hide RingsOk;
    hide SlotsOk;
    hide RefsOk;
    hide WakeOk;
    hide OthersFit;
    hide Pockets;
    BusyCarries(f.s, f.t);
    match a
    case Begin(t, op, n) => BeginOwn(f, op, n);
    case PreCheck(t, n) =>
      if About(f.s.pc[f.t].op).Some? {
        CheckPasses(f);
      }
      PreCheckOwn(f, n);
    case Create(t, m, n, ok) => CreateOwn(f, m, n, ok);
    case Access(t, n) => AccessOwn(f, n);
    case Commit(t, n, n2) => CommitOwn(f, n, n2);
    case DisableIrq(t) => EnteringOwn(f, a);
    case Acquire(t) => EnteringOwn(f, a);
    case Dispose(t) => DisposeOwn(f);
    case Release(t) => ReleaseOwn(f);
    case Raise(t) => RaiseOwn(f);
  }

  lemma StepKeeps(f: Fan, a: Action)
    requires FanInv(f) && OthersFit(f) && CanStep(f, a) && OthersFit(Next(f, a))
    ensures FanInv(Next(f, a))
  {
    hide Inv;
    hide Belief;
    hide Do;
    hide Enabled;
    hide OwnAction;
    hide ForeignAction;
    hide OthersFit;
    hide Next;
    NextKeepsName(f, a);
    OthersFitClientsFit(Next(f, a));
    ClientsFitRefFits(f.s, a);
    DoKeeps(f.s, a);
    if OwnAction(f, a) {
      OwnKeeps(f, a);
    } else {
      ForeignKeeps(f, a);
    }
  }

  // ---------------------------------------------------------------- whole runs

  /** Nothing is left that the client will do. */
  predicate Over(todo: seq<Stmt>) { todo == [] || todo == [UseNull] }

  lemma NextFinal(f: Fan, a: Action)
    requires Belief(f) && CanStep(f, a) && Fits(Next(f, a).todo, Next(f, a).held)
    ensures var g := Next(f, a);
      && (Final(g.todo, g.held) == Final(f.todo, f.held) || (Over(g.todo) && g.held == 0))
      && (Over(f.todo) ==> g.todo == f.todo && g.held == f.held)
      && (Floor(f.todo, f.held) ==> Floor(g.todo, g.held) && g.m == f.m)
  {
    hide Do;
    hide Shape;
    hide Runnable;
    hide ForeignAction;
    hide Pockets;
  }

  /** Over any run: what the client believes to hold is what it holds, and it ends with what its
      program adds up to, or with nothing after a failed allocation. */
  lemma {:induction false} RunBelief(f: Fan, run: seq<Action>)
    requires FanInv(f) && OthersFit(f) && FanRun(f, run)
    ensures var g := After(f, run);
      && FanInv(g) && OthersFit(g)
      && (Final(g.todo, g.held) == Final(f.todo, f.held) || (Over(g.todo) && g.held == 0))
      && (Over(f.todo) ==> g.todo == f.todo && g.held == f.held)
      && (Floor(f.todo, f.held) ==> Floor(g.todo, g.held) && g.m == f.m)
    decreases |run|
  {
    hide Inv;
    hide CanStep;
    hide OthersFit;
    hide Next;
    if run != [] {
      StepKeeps(f, run[0]);
      NextFinal(f, run[0]);
      RunBelief(Next(f, run[0]), run[1..]);
    }
  }

  predicate Finished(f: Fan) { f.todo == [] && !f.calling }

  ghost predicate HoldsNothing(f: Fan) { forall x :: x in OwnPlaces(f) ==> x !in f.s.holders }

  /** The client, about to run a program with held references to m. */
  ghost predicate Starts(f: Fan, todo: seq<Stmt>, held: nat)
  {
    FanInv(f) && OthersFit(f) && f.todo == todo && f.held == held && !f.calling
  }

  /** Between calls, the variables are all a client has. */
  lemma RestHolds(f: Fan)
    requires FanInv(f) && !f.calling
    ensures Pocket(f.p) in f.s.holders <==> f.held >= 1
    ensures Pocket(f.p + 1) in f.s.holders <==> f.held == 2
    ensures Pocket(f.p + 2) !in f.s.holders && Busy(f.t) !in f.s.holders
  {
    BusyCarries(f.s, f.t);
    hide Inv;
    hide Fits;
    hide RefsOk;
    hide Shape;
    assert Pocketed(f, 0, f.held) && Pocketed(f, 1, f.held) && Pocketed(f, 2, f.held);
  }

  /** Nobody holds the message any more, unless somebody other than the client does. */
  ghost predicate GoneOrOthers(f: Fan) {
    f.m in f.s.live ==>
      || (exists x :: x in f.s.holders && f.s.holders[x] == f.m && x !in OwnPlaces(f))
      || (f.s.owner.Some? && f.s.owner.value in f.s.pc && f.s.pc[f.s.owner.value] == Freeing(f.m))
  }

  lemma EmptyHanded(f: Fan)
    requires FanInv(f) && !f.calling && f.held == 0
    ensures HoldsNothing(f) && GoneOrOthers(f)
  {
    RestHolds(f);
    FreedWithLastReference(f.s);
    OwnerKnown(f.s);
    hide Inv;
    hide Belief;
    if f.m in f.s.live && PlacesOf(f.s.holders, f.m) != {} {
      var x :| x in PlacesOf(f.s.holders, f.m);
      assert x in f.s.holders && f.s.holders[x] == f.m && x !in OwnPlaces(f);
    }
  }

  lemma OwnerKnown(s: State)
    requires Inv(s)
    ensures s.owner.Some? ==> s.owner.value in s.pc
  {
  }

  /** The broadcast, the pings and the quick messages, however many of their sends fail and whatever
      the rest of the system does meanwhile: at the end the sender holds no reference. So the
      message is gone, or being freed, unless somebody else holds or will receive it. */
  lemma TransientGivesUpAll(f: Fan, dst: nat, run: seq<Action>)
    requires dst < CORES && FanRun(f, run)
    requires Starts(f, BROADCAST, 0) || Starts(f, PING_BOTH, 0) || Starts(f, DOMAIN_FIRED, 0) || Starts(f, Quick(dst), 0)
    requires Finished(After(f, run))
    ensures HoldsNothing(After(f, run)) && GoneOrOthers(After(f, run))
  {
    ProgramsEndEmpty(dst);
    hide FanInv;
    hide FanRun;
    hide After;
    hide OthersFit;
    hide HoldsNothing;
    hide GoneOrOthers;
    hide Fits;
    RunBelief(f, run);
    FinalOfNothing(After(f, run).held);
    EmptyHanded(After(f, run));
  }

  lemma FinalOfNothing(held: nat)
    ensures Fits([], held) && Final([], held) == held
  {
  }

  /** Every idle task may start any of the transient senders at boot. */
  lemma BootStarts(tasks: set<Tid>, t: Tid, p: nat, todo: seq<Stmt>)
    requires t in tasks && forall u :: u in tasks ==> u.Task? && u.core < CORES
    requires Fits(todo, 0)
    ensures Starts(Fan(t, p, Boot(tasks), todo, 0, 0, false, false), todo, 0)
  {
    BootInv(tasks);
    hide Inv;
    hide Fits;
  }

  lemma ProgramsEndEmpty(dst: nat)
    requires dst < CORES
    ensures Fits(BROADCAST, 0) && Final(BROADCAST, 0) == 0
    ensures Fits(PING_BOTH, 0) && Final(PING_BOTH, 0) == 0
    ensures Fits(DOMAIN_FIRED, 0) && Final(DOMAIN_FIRED, 0) == 0
    ensures Fits(Quick(dst), 0) && Final(Quick(dst), 0) == 0
  {
  }

  predicate ToCores(dsts: seq<nat>) { forall d :: d in dsts ==> d < CORES }

  /** A persistent message: through any number of sends to any cores, failed or not, at every moment,
      it is live and referenced, and afterwards the sender has its one reference again. */
  lemma PersistentStays(f: Fan, dsts: seq<nat>, run: seq<Action>)
    requires ToCores(dsts) && FanRun(f, run) && Starts(f, Persistent(dsts), 1)
    ensures var g := After(f, run);
      && g.m == f.m && f.m in g.s.live && f.m in g.s.ref && g.s.ref[f.m] >= 1
      && (Finished(g) ==> g.held == 1 && Lookup(g.s.holders, Pocket(g.p)) == Some(f.m))
  {
    PersistentFits(dsts);
    hide Persistent;
    hide Floor;
    hide FanInv;
    hide FanRun;
    hide After;
    hide OthersFit;
    hide Fits;
    RunBelief(f, run);
    var g := After(f, run);
    FloorHolds(g);
    if Finished(g) {
      FinalOfNothing(g.held);
      RestIsMine(g);
    }
  }

  lemma {:induction false} PersistentFits(dsts: seq<nat>)
    requires ToCores(dsts)
    ensures var todo := Persistent(dsts); Fits(todo, 1) && Final(todo, 1) == 1 && Floor(todo, 1)
  {
    if dsts != [] {
      hide Fits;
      hide Final;
      hide Floor;
      RestToCores(dsts);
      hide ToCores;
      PersistentFits(dsts[1..]);
      SendFits(dsts[0], Persistent(dsts[1..]));
    }
  }

  lemma RestToCores(dsts: seq<nat>)
    requires ToCores(dsts) && dsts != []
    ensures dsts[0] < CORES && ToCores(dsts[1..])
  {
    assert dsts[0] in dsts && forall d :: d in dsts[1..] ==> d in dsts;
  }

  lemma SendFits(d: nat, rest: seq<Stmt>)
    requires d < CORES && Fits(rest, 1) && Floor(rest, 1)
    ensures var todo := [AddRef, SendTo(d)] + rest;
      Fits(todo, 1) && Final(todo, 1) == Final(rest, 1) && Floor(todo, 1)
  {
    var todo, todo1 := [AddRef, SendTo(d)] + rest, [SendTo(d)] + rest;
    assert todo1[1..] == rest && todo[1..] == todo1;
  }

  lemma RestIsMine(f: Fan)
    requires FanInv(f) && !f.calling && f.held >= 1
    ensures Lookup(f.s.holders, Pocket(f.p)) == Some(f.m)
  {
    hide Inv;
    hide Fits;
    assert Pocketed(f, 0, f.held);
  }

  lemma FloorHolds(f: Fan)
    requires FanInv(f) && Floor(f.todo, f.held)
    ensures f.m in f.s.live && f.m in f.s.ref && f.s.ref[f.m] >= 1
  {
    var x := if f.calling && Carried(f.s.pc[f.t]).Some? then Busy(f.t) else Pocket(f.p);
    BusyCarries(f.s, f.t);
    assert x in f.s.holders && f.s.holders[x] == f.m by {
      hide Inv;
      hide RefsOk;
      hide Shape;
      assert Pocketed(f, 0, InPockets(f));
    }
    FreedWithLastReference(f.s);
  }

  // ---------------------------------------------------------------- the answer to a ping

  /** The client's allocation has failed and it did not look. */
  predicate Doomed(f: Fan) {
    f.todo != [] && (f.todo[0].UseNull? || (f.todo[0].MakeMsg? && !f.todo[0].checked && f.calling && f.failed))
  }

  /** A program that looks at no allocation. */
  predicate Unchecked(todo: seq<Stmt>) {
    todo == [UseNull] || forall x :: x in todo ==> !x.UseNull? && (x.MakeMsg? ==> !x.checked)
  }

  predicate FailedMake(f: Fan, a: Action) { a.Create? && a.t == f.t && !a.ok }

  predicate FailedRun(f: Fan, run: seq<Action>) { exists a :: a in run && FailedMake(f, a) }

  lemma DoomStep(f: Fan, a: Action)
    requires Belief(f) && CanStep(f, a) && Unchecked(f.todo)
    ensures var g := Next(f, a);
      Unchecked(g.todo) && g.t == f.t && (Doomed(g) <==> Doomed(f) || FailedMake(f, a))
  {
    hide Shape;
    hide Runnable;
    hide Fits;
    hide Pockets;
    if !OwnAction(f, a) {
      ForeignNoMake(f, a);
      NextKeepsName(f, a);
      hide Do;
    } else {
      UncheckedRest(f.todo);
      if a.Create? || a.Access? {
        MakeNotOver(f, a);
      }
      hide Do;
      hide Unchecked;
      hide OpOf;
    }
  }

  lemma UncheckedRest(todo: seq<Stmt>)
    requires Unchecked(todo) && todo != []
    ensures Unchecked(todo[1..]) && Unchecked([]) && Unchecked([UseNull]) && Unchecked([DropRef] + todo[1..])
    ensures todo[0].MakeMsg? ==> !todo[0].checked
    ensures |todo| > 1 ==> !todo[1].UseNull?
  {
    assert todo[0] in todo;
    assert forall x :: x in todo[1..] ==> x in todo;
    assert |todo| > 1 ==> todo[1] in todo;
  }

  lemma MakeNotOver(f: Fan, a: Action)
    requires Belief(f) && CanStep(f, a) && OwnAction(f, a) && (a.Create? || a.Access?)
    ensures f.calling && f.todo != [] && (f.todo[0].MakeMsg? <==> a.Create?)
    ensures a.Create? ==> Do(f.s, a).pc[f.t] == Leave(Done)
  {
    hide Shape;
    hide Fits;
    hide Pockets;
  }

  lemma ForeignNoMake(f: Fan, a: Action)
    requires ForeignAction(f, a)
    ensures !FailedMake(f, a)
  {
  }

  lemma {:induction false} DoomRun(f: Fan, run: seq<Action>)
    requires FanInv(f) && OthersFit(f) && FanRun(f, run) && Unchecked(f.todo)
    ensures Doomed(After(f, run)) <==> Doomed(f) || FailedRun(f, run)
    decreases |run|
  {
    hide Inv;
    hide Belief;
    hide CanStep;
    hide OthersFit;
    hide Next;
    hide Doomed;
    hide FailedMake;
    if run != [] {
      var g := Next(f, run[0]);
      StepKeeps(f, run[0]);
      DoomStep(f, run[0]);
      DoomRun(g, run[1..]);
      SameFailures(f, g);
      assert forall a :: a in run <==> a == run[0] || a in run[1..];
    }
  }

  lemma SameFailures(f: Fan, g: Fan)
    requires f.t == g.t
    ensures forall a :: FailedMake(f, a) <==> FailedMake(g, a)
  {
  }

  /** The SHARC's answer to a ping: it goes on with a NULL message exactly in the runs in which its
      allocation fails; in all others it gives up everything it had. */
  lemma PingAnswer(f: Fan, run: seq<Action>)
    requires FanRun(f, run) && Starts(f, PING_ANSWER, 0)
    ensures var g := After(f, run);
      && (Doomed(g) <==> FailedRun(f, run))
      && (!g.calling && Over(g.todo) ==>
            if FailedRun(f, run) then g.todo == [UseNull] else g.todo == [] && HoldsNothing(g) && GoneOrOthers(g))
  {
    assert Fits(PING_ANSWER, 0) && Final(PING_ANSWER, 0) == 0;
    DoomRun(f, run);
    hide FanInv;
    hide FanRun;
    hide After;
    hide OthersFit;
    hide HoldsNothing;
    hide GoneOrOthers;
    hide FailedRun;
    var g := After(f, run);
    RunBelief(f, run);
    if !g.calling && g.todo == [] {
      hide Fits;
      FinalOfNothing(g.held);
      EmptyHanded(g);
    }
  }
}
