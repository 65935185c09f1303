/** Runs from the start of the system in which clients of the message protocol work undisturbed, up to
    the one in which a SHARC core answers a ping without a message: a task of the ARM core sends a
    message with a signal, the handler of the other core takes it out and is at its callback, where
    the answer is made. */
module IpcPing {
  import opened MsgRing
  import opened IpcProtocol
  import opened IpcSafety
  import opened IpcTheorems
  import opened IpcFanout
  import opened IpcRace
  import opened IpcStarts

  /** Some run from boot leads to s. */
  ghost predicate Reached(tasks: set<Tid>, s: State) {
    Inv(s) && exists run :: EnabledRun(Boot(tasks), run) && RunAll(Boot(tasks), run) == s
  }

  lemma Reach(tasks: set<Tid>, s: State, a: Action, s': State)
    requires Reached(tasks, s) && Enabled(s, a) && RefFits(s, a) && Do(s, a) == s'
    ensures Reached(tasks, s') && Shape(s')
  {
    hide Inv;
    hide Do;
    hide Enabled;
    hide RefFits;
    var run :| EnabledRun(Boot(tasks), run) && RunAll(Boot(tasks), run) == s;
    DoKeeps(s, a);
    InvShape(s');
    var one := RunCons(s, a, []);
    RunJoin(Boot(tasks), run, one);
    assert EnabledRun(Boot(tasks), run + one);
  }

  /** Lock and interrupts are free for t to call, and it can run. */
  predicate Ready(s: State, t: Tid) {
    |s.irqOff| == CORES && Runnable(s, t) && s.pc[t] == Home(t) && s.owner == None && s.irqOff[t.core] == None
  }

  /** t is alone in its critical section. */
  predicate Inside(s: State, t: Tid, p: Pc) {
    |s.irqOff| == CORES && Runnable(s, t) && s.pc[t] == p && s.owner == Some(t) && s.irqOff[t.core] == Some(t)
  }

  lemma Sizes(s: State)
    requires Shape(s)
    ensures |s.irqOff| == |s.trigger| == |s.rings| == |s.logs| == |s.gots| == |s.latched| == |s.userCb| == CORES
    ensures forall c :: 0 <= c < CORES ==> s.rings[c].Shape()
  {
  }

  lemma PcTwice(pc: map<Tid, Pc>, t: Tid, p: Pc, q: Pc)
    ensures pc[t := p][t := q] == pc[t := q]
  {
  }

  /** A call without a count to check, begun and past the check. */
  lemma Begins(tasks: set<Tid>, s: State, t: Tid, op: Op, p: nat) returns (r: State)
    requires Reached(tasks, s) && Shape(s) && Ready(s, t) && OpFits(t, op) && !op.Ref? && !op.Unref? && Unused(s, p + 1)
    requires About(op).Some? ==> Lookup(s.holders, Pocket(p)) == About(op)
    ensures Reached(tasks, r) && Shape(r) && |r.irqOff| == CORES && Runnable(r, t)
    ensures r == s.(pc := s.pc[t := Passed(op)],
                    holders := if About(op).Some? then Move(s.holders, Pocket(p), Busy(t)) else s.holders)
  {
    hide Reached;
    hide Shape;
    PcTwice(s.pc, t, Check(op), Passed(op));
    var s1 := Do(s, Begin(t, op, p));
    Reach(tasks, s, Begin(t, op, p), s1);
    assert Runnable(s1, t) && Unused(s1, p + 1) && s1.pc == s.pc[t := Check(op)];
    r := Do(s1, PreCheck(t, p + 1));
    Reach(tasks, s1, PreCheck(t, p + 1), r);
  }

  lemma Locks(tasks: set<Tid>, s: State, t: Tid, op: Op) returns (r: State)
    requires Reached(tasks, s) && Shape(s) && |s.irqOff| == CORES && Runnable(s, t) && s.pc[t] == Passed(op)
    requires s.owner == None
    ensures Reached(tasks, r) && Shape(r) && Inside(r, t, Crit(op))
    ensures r == s.(owner := Some(t), irqOff := s.irqOff[t.core := Some(t)], pc := s.pc[t := Crit(op)])
  {
    hide Reached;
    hide Shape;
    PcTwice(s.pc, t, Spin(op), Crit(op));
    var s1 := Do(s, DisableIrq(t));
    Reach(tasks, s, DisableIrq(t), s1);
    assert Runnable(s1, t) && s1.pc == s.pc[t := Spin(op)];
    r := Do(s1, Acquire(t));
    Reach(tasks, s1, Acquire(t), r);
  }

  /** A call other than a reference or a release, up to its critical section. */
  lemma Enters(tasks: set<Tid>, s: State, t: Tid, op: Op, p: nat) returns (r: State)
    requires Reached(tasks, s) && Shape(s) && Ready(s, t) && OpFits(t, op) && !op.Ref? && !op.Unref? && Unused(s, p + 1)
    requires About(op).Some? ==> Lookup(s.holders, Pocket(p)) == About(op)
    ensures Reached(tasks, r) && Shape(r) && Inside(r, t, Crit(op))
    ensures r == s.(owner := Some(t), irqOff := s.irqOff[t.core := Some(t)], pc := s.pc[t := Crit(op)],
                    holders := if About(op).Some? then Move(s.holders, Pocket(p), Busy(t)) else s.holders)
  {
    PcTwice(s.pc, t, Passed(op), Crit(op));
    hide Reached;
    hide Shape;
    hide Inside;
    hide Move;
    var s1 := Begins(tasks, s, t, op, p);
    r := Locks(tasks, s1, t, op);
  }

  /** The end of the critical section. */
  lemma Leaves(tasks: set<Tid>, s: State, t: Tid, next: Then) returns (r: State)
    requires Reached(tasks, s) && Shape(s) && Inside(s, t, Leave(next))
    ensures Reached(tasks, r) && Shape(r) && |r.irqOff| == CORES && Runnable(r, t)
    ensures r == s.(owner := None, irqOff := s.irqOff[t.core := None], pc := s.pc[t := AfterRelease(t, next)])
  {
    hide Reached;
    hide Shape;
    r := Do(s, Release(t));
    Reach(tasks, s, Release(t), r);
  }

  lemma Creates(tasks: set<Tid>, s: State, t: Tid, m: Msg, kind: Kind, p: nat) returns (r: State)
    requires Reached(tasks, s) && Shape(s) && Inside(s, t, Crit(New(kind))) && m !in s.live && Unused(s, p)
    ensures Reached(tasks, r) && Shape(r) && Inside(r, t, Leave(Done))
    ensures r == s.(live := s.live + {m}, ref := s.ref[m := 1], kind := s.kind[m := kind],
                    holders := s.holders[Pocket(p) := m], pc := s.pc[t := Leave(Done)])
  {
    hide Reached;
    hide Shape;
    r := Do(s, Create(t, m, p, true));
    Reach(tasks, s, Create(t, m, p, true), r);
  }

  lemma Back(s: State, t: Tid, p: Pc, q: Pc)
    requires |s.irqOff| == CORES && t.core < CORES && t in s.pc && s.irqOff[t.core] == None
    ensures s.irqOff[t.core := Some(t)][t.core := None] == s.irqOff
    ensures s.pc[t := p][t := q] == s.pc[t := q] && s.pc[t := s.pc[t]] == s.pc
  {
  }

  /** Undisturbed, an allocation succeeds and changes nothing else. */
  lemma Allocates(tasks: set<Tid>, s: State, t: Tid, m: Msg, kind: Kind, p: nat) returns (r: State)
    requires Reached(tasks, s) && Shape(s) && Ready(s, t) && t.Task? && m !in s.live
    requires Unused(s, p) && Unused(s, p + 1)
    ensures Reached(tasks, r) && Shape(r) && Ready(r, t)
    ensures r == s.(live := s.live + {m}, ref := s.ref[m := 1], kind := s.kind[m := kind],
                    holders := s.holders[Pocket(p) := m])
  {
    hide Reached;
    hide Shape;
    Back(s, t, Crit(New(kind)), Leave(Done));
    Back(s, t, Leave(Done), Idle);
    var s1 := Enters(tasks, s, t, New(kind), p);
    var s2 := Creates(tasks, s1, t, m, kind, p);
    r := Leaves(tasks, s2, t, Done);
    assert r.pc == s.pc;
  }

  lemma Writes(tasks: set<Tid>, s: State, t: Tid, op: Op, p: nat) returns (r: State)
    requires Reached(tasks, s) && Shape(s) && op.Send? && Inside(s, t, Crit(op)) && op.dst < CORES && Unused(s, p)
    requires |s.trigger| == |s.rings| == CORES && s.trigger[op.dst] > 0
    requires s.rings[op.dst].Shape() && !s.rings[op.dst].Full()
    ensures Reached(tasks, r) && Shape(r) && Inside(r, t, Mid(op, 0))
    ensures r == s.(rings := s.rings[op.dst := s.rings[op.dst].Written(op.m)], pc := s.pc[t := Mid(op, 0)])
  {
    hide Reached;
    hide Shape;
    r := Do(s, Access(t, p));
    Reach(tasks, s, Access(t, p), r);
  }

  lemma Enqueues(tasks: set<Tid>, s: State, t: Tid, op: Op, p: nat) returns (r: State)
    requires Reached(tasks, s) && Shape(s) && op.Send? && op.signal && Inside(s, t, Mid(op, 0)) && op.dst < CORES
    requires Unused(s, p) && Unused(s, p + 1) && |s.rings| == |s.logs| == CORES
    ensures Reached(tasks, r) && Shape(r) && Inside(r, t, Leave(Signal(op.dst)))
    ensures var d := op.dst;
      r == s.(rings := s.rings[d := s.rings[d].Bumped()], logs := s.logs[d := s.logs[d] + [op.m]],
              holders := Move(s.holders, Busy(t), Slot(d, |s.logs[d]|)), pc := s.pc[t := Leave(Signal(d))])
  {
    hide Reached;
    hide Shape;
    r := Do(s, Commit(t, p, p + 1));
    Reach(tasks, s, Commit(t, p, p + 1), r);
  }

  lemma FreesPocket(h: map<Place, Msg>, p: nat, t: Tid)
    requires Pocket(p + 1) !in h
    ensures Pocket(p) !in Move(h, Pocket(p), Busy(t)) && Pocket(p + 1) !in Move(h, Pocket(p), Busy(t))
  {
  }

  lemma MoveFrees(h: map<Place, Msg>, p: Place, q: Place)
    ensures p != q ==> p !in Move(h, p, q)
    ensures forall x :: x != q && x !in h ==> x !in Move(h, p, q)
  {
  }

  lemma Raises(tasks: set<Tid>, s: State, t: Tid, d: nat) returns (r: State)
    requires Reached(tasks, s) && Shape(s) && |s.irqOff| == |s.latched| == CORES && d < CORES
    requires Runnable(s, t) && s.pc[t] == Fire(d)
    ensures Reached(tasks, r) && Shape(r)
    ensures r == s.(latched := s.latched[d := true], pc := s.pc[t := Home(t)])
  {
    hide Reached;
    hide Shape;
    r := Do(s, Raise(t));
    Reach(tasks, s, Raise(t), r);
  }

  lemma RingTwice(rs: seq<Ring>, d: nat, a: Ring)
    requires d < |rs|
    ensures rs[d := a][d := rs[d := a][d].Bumped()] == rs[d := a.Bumped()]
  {
  }

  /** A send up to the move of the head index. */
  lemma FillsSlot(tasks: set<Tid>, s: State, t: Tid, op: Op, p: nat) returns (r: State)
    requires Reached(tasks, s) && Shape(s) && Ready(s, t) && op.Send? && op.dst < CORES
    requires Lookup(s.holders, Pocket(p)) == Some(op.m) && Unused(s, p + 1)
    requires s.trigger[op.dst] > 0 && !s.rings[op.dst].Full()
    ensures Reached(tasks, r) && Shape(r) && Inside(r, t, Mid(op, 0))
    ensures r.irqOff == s.irqOff[t.core := Some(t)] && r.pc == s.pc[t := Mid(op, 0)]
    ensures r.rings == s.rings[op.dst := s.rings[op.dst].Written(op.m)]
    ensures r.holders == Move(s.holders, Pocket(p), Busy(t))
    ensures r.logs == s.logs && r.latched == s.latched && r.live == s.live && r.kind == s.kind
    ensures r.userCb == s.userCb && r.gots == s.gots
  {
    Sizes(s);
    hide Reached;
    hide Shape;
    hide Ring.Full;
    hide Ring.Shape;
    hide Ring.Written;
    FreesPocket(s.holders, p, t);
    hide Move;
    Back(s, t, Crit(op), Mid(op, 0));
    hide Ready;
    hide Inside;
    var s1 := Enters(tasks, s, t, op, p);
    r := Writes(tasks, s1, t, op, p);
  }

  /** The rest of it. */
  lemma Completes(tasks: set<Tid>, s: State, t: Tid, op: Op, p: nat) returns (r: State)
    requires Reached(tasks, s) && Shape(s) && op.Send? && op.signal && Inside(s, t, Mid(op, 0)) && op.dst < CORES
    requires Unused(s, p) && Unused(s, p + 1) && t.Task? && |s.rings| == |s.logs| == |s.latched| == CORES
    ensures Reached(tasks, r) && Shape(r) && Ready(r, t)
    ensures r.rings == s.rings[op.dst := s.rings[op.dst].Bumped()] && r.latched == s.latched[op.dst := true]
    ensures r.holders == Move(s.holders, Busy(t), Slot(op.dst, |s.logs[op.dst]|))
    ensures r.pc == s.pc[t := Idle] && r.irqOff == s.irqOff[t.core := None] && r.live == s.live && r.kind == s.kind
    ensures r.userCb == s.userCb && r.gots == s.gots
  {
    hide Reached;
    hide Shape;
    hide Ring.Bumped;
    hide Move;
    var d := op.dst;
    var s1 := Enqueues(tasks, s, t, op, p);
    var s2 := Leaves(tasks, s1, t, Signal(d));
    r := Raises(tasks, s2, t, d);
  }

  /** Undisturbed, a send to a registered core with room in its queue succeeds. */
  lemma Sends(tasks: set<Tid>, s: State, t: Tid, m: Msg, d: nat, p: nat) returns (r: State)
    requires Reached(tasks, s) && Shape(s) && Ready(s, t) && t.Task? && d < CORES
    requires Lookup(s.holders, Pocket(p)) == Some(m) && Unused(s, p + 1)
    requires s.trigger[d] > 0 && !s.rings[d].Full()
    ensures Reached(tasks, r) && Shape(r) && Ready(r, t)
    ensures r.rings == s.rings[d := s.rings[d].Written(m).Bumped()] && r.latched == s.latched[d := true]
    ensures r.holders == Move(Move(s.holders, Pocket(p), Busy(t)), Busy(t), Slot(d, |s.logs[d]|))
    ensures r.pc == s.pc && r.irqOff == s.irqOff && r.live == s.live && r.kind == s.kind
    ensures r.userCb == s.userCb && r.gots == s.gots
  {
    Sizes(s);
    hide Reached;
    hide Shape;
    hide Ring.Full;
    hide Ring.Written;
    hide Ring.Bumped;
    FreesPocket(s.holders, p, t);
    hide Move;
    var op := Send(m, d, true);
    Back(s, t, Mid(op, 0), Idle);
    hide Ready;
    hide Inside;
    hide Runnable;
    RingTwice(s.rings, d, s.rings[d].Written(m));
    var s1 := FillsSlot(tasks, s, t, op, p);
    r := Completes(tasks, s1, t, op, p);
  }

  lemma Fronts(tasks: set<Tid>, s: State, t: Tid, p: nat) returns (r: State)
    requires Reached(tasks, s) && Shape(s) && Inside(s, t, Crit(Receive)) && |s.rings| == CORES
    requires t.core < CORES && s.rings[t.core].Shape() && !s.rings[t.core].Empty() && Unused(s, p)
    ensures Reached(tasks, r) && Shape(r) && Inside(r, t, Mid(Receive, s.rings[t.core].Front()))
    ensures r == s.(pc := s.pc[t := Mid(Receive, s.rings[t.core].Front())])
  {
    hide Reached;
    hide Shape;
    r := Do(s, Access(t, p));
    Reach(tasks, s, Access(t, p), r);
  }

  lemma Dequeues(tasks: set<Tid>, s: State, t: Tid, m: Msg, p: nat) returns (r: State)
    requires Reached(tasks, s) && Shape(s) && Inside(s, t, Mid(Receive, m)) && |s.rings| == |s.gots| == CORES
    requires t.core < CORES && Unused(s, p) && Unused(s, p + 1)
    ensures Reached(tasks, r) && Shape(r) && Inside(r, t, Leave(Took(m)))
    ensures var c := t.core;
      r == s.(rings := s.rings[c := s.rings[c].Dropped()], gots := s.gots[c := s.gots[c] + 1],
              holders := Move(s.holders, Slot(c, s.gots[c]), Busy(t)), pc := s.pc[t := Leave(Took(m))])
  {
    hide Reached;
    hide Shape;
    r := Do(s, Commit(t, p, p + 1));
    Reach(tasks, s, Commit(t, p, p + 1), r);
  }

  lemma Dispatches(tasks: set<Tid>, s: State, t: Tid, m: Msg, p: nat) returns (r: State)
    requires Reached(tasks, s) && Shape(s) && |s.irqOff| == |s.userCb| == CORES && Runnable(s, t) && s.pc[t] == Got(m)
    requires m in s.kind && s.kind[m] == User && s.userCb[t.core] && Unused(s, p) && Lost(p) !in s.holders
    ensures Reached(tasks, r) && Shape(r)
    ensures r == s.(holders := Move(s.holders, Busy(t), Pocket(p)), pc := s.pc[t := Loop])
  {
    hide Reached;
    hide Shape;
    r := Do(s, Dispatch(t, p));
    Reach(tasks, s, Dispatch(t, p), r);
  }

  lemma Wakes(tasks: set<Tid>, s: State, c: nat) returns (r: State)
    requires Reached(tasks, s) && Shape(s) && |s.irqOff| == |s.latched| == CORES && c < CORES && Handler(c) in s.pc
    requires s.latched[c] && s.irqOff[c] == None && s.pc[Handler(c)] == Off
    ensures Reached(tasks, r) && Shape(r) && (s.owner == None ==> Ready(r, Handler(c)))
    ensures r == s.(latched := s.latched[c := false], pc := s.pc[Handler(c) := Loop])
  {
    hide Reached;
    hide Shape;
    r := Do(s, EnterHandler(c));
    Reach(tasks, s, EnterHandler(c), r);
  }

  /** A signalled handler up to its first read of the queue. */
  lemma Serves(tasks: set<Tid>, s: State, c: nat, p: nat) returns (r: State)
    requires Reached(tasks, s) && Shape(s) && c < CORES && s.latched[c] && s.irqOff[c] == None && s.owner == None
    requires s.pc[Handler(c)] == Off && Unused(s, p + 1)
    ensures Reached(tasks, r) && Shape(r) && Inside(r, Handler(c), Crit(Receive))
    ensures r.rings == s.rings && r.gots == s.gots && r.live == s.live && r.kind == s.kind
    ensures r.userCb == s.userCb && r.holders == s.holders
  {
    Sizes(s);
    hide Reached;
    hide Shape;
    hide Inside;
    hide Ready;
    var s1 := Wakes(tasks, s, c);
    r := Enters(tasks, s1, Handler(c), Receive, p);
  }

  /** The handler takes out the oldest message. */
  lemma Pulls(tasks: set<Tid>, s: State, t: Tid, m: Msg, p: nat) returns (r: State)
    requires Reached(tasks, s) && Shape(s) && Inside(s, t, Crit(Receive)) && t.core < CORES
    requires s.rings[t.core].Shape() && !s.rings[t.core].Empty() && s.rings[t.core].Front() == m
    requires Unused(s, p) && Unused(s, p + 1)
    ensures Reached(tasks, r) && Shape(r) && Inside(r, t, Leave(Took(m)))
    ensures r.live == s.live && r.kind == s.kind && r.userCb == s.userCb
    ensures r.holders == Move(s.holders, Slot(t.core, s.gots[t.core]), Busy(t))
  {
    hide Reached;
    Sizes(s);
    hide Shape;
    hide Ring.Empty;
    hide Ring.Shape;
    hide Ring.Dropped;
    hide Ring.Front;
    hide Move;
    var s1 := Fronts(tasks, s, t, p);
    r := Dequeues(tasks, s1, t, m, p);
  }

  /** The handler hands it to its callback. */
  lemma Hands(tasks: set<Tid>, s: State, t: Tid, m: Msg, p: nat) returns (r: State)
    requires Reached(tasks, s) && Shape(s) && Inside(s, t, Leave(Took(m))) && t.Handler? && t.core < CORES
    requires m in s.kind && s.kind[m] == User && s.userCb[t.core] && Unused(s, p) && Lost(p) !in s.holders
    ensures Reached(tasks, r) && Shape(r) && Ready(r, t)
    ensures r.live == s.live && r.holders == Move(s.holders, Busy(t), Pocket(p))
  {
    hide Reached;
    Sizes(s);
    hide Shape;
    hide Move;
    var s1 := Leaves(tasks, s, t, Took(m));
    r := Dispatches(tasks, s1, t, m, p);
  }

  /** Undisturbed, a signalled core's handler takes out the oldest message and is at its callback. */
  lemma Receives(tasks: set<Tid>, s: State, c: nat, m: Msg, p: nat) returns (r: State)
    requires Reached(tasks, s) && Shape(s) && c < CORES && s.latched[c] && s.irqOff[c] == None && s.owner == None
    requires s.pc[Handler(c)] == Off && !s.rings[c].Empty() && s.rings[c].Front() == m
    requires m in s.kind && s.kind[m] == User && s.userCb[c]
    requires Unused(s, p) && Unused(s, p + 1) && Lost(p) !in s.holders
    ensures Reached(tasks, r) && Shape(r) && Ready(r, Handler(c)) && r.live == s.live
    ensures r.holders == Move(Move(s.holders, Slot(c, s.gots[c]), Busy(Handler(c))), Busy(Handler(c)), Pocket(p))
  {
    hide Reached;
    Sizes(s);
    MoveFrees(s.holders, Slot(c, s.gots[c]), Busy(Handler(c)));
    hide Shape;
    hide Ring.Empty;
    hide Ring.Front;
    hide Move;
    var s1 := Serves(tasks, s, c, p);
    var s2 := Pulls(tasks, s1, Handler(c), m, p);
    r := Hands(tasks, s2, Handler(c), m, p);
  }

  // ---------------------------------------------------------------- the run

  const ARM: Tid := Task(0, 0)
  const SHARC: Tid := Handler(1)

  lemma BootReached(tasks: set<Tid>)
    requires forall t :: t in tasks ==> t.Task? && t.core < CORES
    ensures Reached(tasks, Boot(tasks)) && Shape(Boot(tasks))
  {
    BootInv(tasks);
    InvShape(Boot(tasks));
    hide Inv;
    assert EnabledRun(Boot(tasks), []);
  }

  lemma Registers(tasks: set<Tid>, s: State, c: nat, id: int) returns (r: State)
    requires Reached(tasks, s) && Shape(s) && c < CORES && |s.trigger| == CORES && id > 0
    ensures Reached(tasks, r) && Shape(r) && r == s.(trigger := s.trigger[c := id])
  {
    hide Reached;
    hide Shape;
    r := Do(s, Register(c, id));
    Reach(tasks, s, Register(c, id), r);
  }

  lemma Listens(tasks: set<Tid>, s: State, c: nat) returns (r: State)
    requires Reached(tasks, s) && Shape(s) && c < CORES && |s.userCb| == CORES
    ensures Reached(tasks, r) && Shape(r) && r == s.(userCb := s.userCb[c := true])
  {
    hide Reached;
    hide Shape;
    r := Do(s, SetCallback(c, true));
    Reach(tasks, s, SetCallback(c, true), r);
  }

  /** Core 1 has registered its interrupt and its callback. */
  lemma Setup() returns (r: State)
    ensures Reached({ARM}, r) && Shape(r) && Ready(r, ARM)
    ensures var s := Boot({ARM}); r == s.(trigger := s.trigger[1 := 1], userCb := s.userCb[1 := true])
  {
    var s := Boot({ARM});
    BootReached({ARM});
    assert Ready(s, ARM) && |s.trigger| == |s.userCb| == CORES;
    hide Boot;
    hide Reached;
    hide Inv;
    hide Shape;
    var s1 := Registers({ARM}, s, 1, 1);
    r := Listens({ARM}, s1, 1);
  }

  /** The handler of core 1 at its callback for a message from core 0. */
  lemma Called() returns (r: State)
    ensures Reached({ARM}, r) && Shape(r) && Ready(r, SHARC)
    ensures r.live == {0} && r.holders == map[Pocket(0) := 0]
  {
    hide Reached;
    hide Shape;
    var s0 := Setup();
    var s1 := Allocates({ARM}, s0, ARM, 0, User, 0);
    var s2 := Sends({ARM}, s1, ARM, 0, 1, 0);
    r := Receives({ARM}, s2, 1, 0, 0);
  }

  /** From boot a run leads to the SHARC's handler answering a ping, and on to its use of NULL. */
  lemma PingFails() returns (run: seq<Action>, f: Fan, answer: seq<Action>)
    ensures EnabledRun(Boot({ARM}), run)
    ensures f == Fan(SHARC, 1, RunAll(Boot({ARM}), run), PING_ANSWER, 0, 0, false, false)
    ensures Starts(f, PING_ANSWER, 0) && FanRun(f, answer) && FailedRun(f, answer)
    ensures Starts(After(f, answer), [UseNull], 0)
  {
    var s := Called();
    run :| EnabledRun(Boot({ARM}), run) && RunAll(Boot({ARM}), run) == s;
    f := Fan(SHARC, 1, s, PING_ANSWER, 0, 0, false, false);
    CallbackStarts(f);
    answer := NullAnswer(f);
  }

  lemma CallbackStarts(f: Fan)
    requires f.t == SHARC && f.p == 1 && f.todo == PING_ANSWER && f.held == 0 && !f.calling && !f.failed
    requires Inv(f.s) && Shape(f.s) && Ready(f.s, SHARC) && f.s.live == {0} && f.s.holders == map[Pocket(0) := 0]
    ensures Starts(f, PING_ANSWER, 0)
  {
    hide Inv;
    hide Shape;
    assert Outside(f.s.holders, 0) == {Pocket(0)};
    assert Fits(PING_ANSWER, 0);
  }
}
