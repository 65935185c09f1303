/** The 16-slot message ring of one core (SAE_IPC_MSG_QUEUE): masked head and tail indexes over a
    fixed array, refining a first-in first-out queue of at most 15 messages. */
module MsgRing {
  import Arithmetic

  const SLOTS: nat := 16

  type Msg = nat

  datatype Ring = Ring(slots: seq<Msg>, head: nat, tail: nat) {
    predicate Shape() { |slots| == SLOTS && head < SLOTS && tail < SLOTS }

    predicate Full() { (head + 1) % SLOTS == tail }

    predicate Empty() { head == tail }

    /** First half of an enqueue: the slot at head is written. */
    function Written(m: Msg): Ring requires Shape() { this.(slots := slots[head := m]) }

    /** Second half: head moves on. */
    function Bumped(): Ring { this.(head := (head + 1) % SLOTS) }

    function Front(): Msg requires Shape() { slots[tail] }

    function Dropped(): Ring { this.(tail := (tail + 1) % SLOTS) }
  }

  const EMPTY := Ring([0, 0, 0, 0, 0, 0, 0, 0, 0, 0, 0, 0, 0, 0, 0, 0], 0, 0)

  /** Of all messages ever accepted, in order, the first got have been taken out; the ring holds
      the others. */
  ghost predicate Holds(r: Ring, log: seq<Msg>, got: nat)
  {
    && r.Shape()
    && got <= |log| < got + SLOTS
    && r.head == |log| % SLOTS && r.tail == got % SLOTS
    && forall i :: got <= i < |log| ==> r.slots[i % SLOTS] == log[i]
  }

  lemma EmptyHolds()
    ensures Holds(EMPTY, [], 0)
  {
  }

  /** The index tests say exactly whether the queue has 15 messages, or none. */
  lemma FullEmpty(r: Ring, log: seq<Msg>, got: nat)
    requires Holds(r, log, got)
    ensures r.Full() <==> |log| - got == SLOTS - 1
    ensures r.Empty() <==> |log| == got
  {
  }

  /** Writing the slot at head disturbs nothing that is queued. */
  lemma WrittenHolds(r: Ring, log: seq<Msg>, got: nat, m: Msg)
    requires Holds(r, log, got) && !r.Full()
    ensures Holds(r.Written(m), log, got)
    ensures Holds(r.Written(m).Bumped(), log + [m], got)
  {
    forall i | got <= i < |log| ensures i % SLOTS != |log| % SLOTS { Arithmetic.SlotsApart(i, |log|, SLOTS); }
  }

  lemma BumpedHolds(r: Ring, log: seq<Msg>, got: nat)
    requires Holds(r, log, got) && !r.Full()
    ensures Holds(r.Bumped(), log + [r.slots[r.head]], got)
  {
    WrittenHolds(r, log, got, r.slots[r.head]);
    assert r.Written(r.slots[r.head]) == r;
  }

  /** What comes out is the oldest message not taken yet. */
  lemma DroppedHolds(r: Ring, log: seq<Msg>, got: nat)
    requires Holds(r, log, got) && !r.Empty()
    ensures r.Front() == log[got] && Holds(r.Dropped(), log, got + 1)
  {
  }

  datatype Result = Ok | CoreNotReady | QueueFull | QueueEmpty

  class MsgQueue {
    const queue: array<Msg>
    var head: nat
    var tail: nat
    ghost var log: seq<Msg>
    ghost var got: nat

    ghost predicate Valid()
      reads this, queue
    {
      Holds(Ring(queue[..], head, tail), log, got)
    }

    /** The messages waiting, oldest first. */
    ghost function Waiting(): seq<Msg>
      requires Valid()
      reads this, queue
    {
      log[got..]
    }

    constructor ()
      ensures Valid() && Waiting() == [] && fresh(queue)
    {
      queue := new Msg[SLOTS];
      head, tail, log, got := 0, 0, [], 0;
    }

    predicate Full() reads this { (head + 1) % SLOTS == tail }

    predicate Empty() reads this { head == tail }

    /** sae_queueMsgBuffer; trigger is the destination's idx2trigger entry. */
    method QueueMsg(trigger: int, m: Msg) returns (result: Result)
      requires Valid()
      modifies this, queue
      ensures Valid()
      ensures result == if trigger == 0 then CoreNotReady
                        else if |old(Waiting())| == SLOTS - 1 then QueueFull else Ok
      ensures Waiting() == if result == Ok then old(Waiting()) + [m] else old(Waiting())
      ensures log == (if result == Ok then old(log) + [m] else old(log)) && got == old(got)
    {
      FullEmpty(Ring(queue[..], head, tail), log, got);
      if trigger == 0 {
        return CoreNotReady;
      }
      if Full() {
        return QueueFull;
      }
      WrittenHolds(Ring(queue[..], head, tail), log, got, m);
      queue[head] := m;
      head := (head + 1) % SLOTS;
      log := log + [m];
      return Ok;
    }

    /** sae_dequeueMsgBuffer; m means something only when the result is Ok. */
    method DequeueMsg() returns (result: Result, m: Msg)
      requires Valid()
      modifies this
      ensures Valid()
      ensures result == if old(Waiting()) == [] then QueueEmpty else Ok
      ensures result == Ok ==> old(Waiting()) == [m] + Waiting()
      ensures result != Ok ==> Waiting() == old(Waiting())
      ensures log == old(log) && got == old(got) + (if result == Ok then 1 else 0)
    {
      FullEmpty(Ring(queue[..], head, tail), log, got);
      if !Empty() {
        DroppedHolds(Ring(queue[..], head, tail), log, got);
        m := queue[tail];
        tail := (tail + 1) % SLOTS;
        got := got + 1;
        result := Ok;
      } else {
        m := 0;
        result := QueueEmpty;
      }
    }
  }
}
