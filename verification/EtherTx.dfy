/** The transmit ring of the Ethernet interface: one producer under the write lock, the EMAC driver,
    which completes frames in order and hands over the completed ones as a chain, and the worker
    thread, which walks the chains it is given and moves txPktTail. Every method of TxRing is one step
    of one of the three; the steps interleave in any order, and Valid holds between them. */
module EtherTx {
  import opened Arithmetic

  const BUFFS: nat := 64
  const NULL: int := -1
  const MBOX_EVENTS: nat := 20

  type Bytes = seq<bv8>

  /** A frame to send; stamped frames are reported to the PTP callback once they are out. */
  datatype Frame = Frame(bytes: Bytes, stamp: bool)

  // Frames are numbered in the order in which the driver accepted them; frame i uses slot i % 64.

  /** Slots of frames lo and later hold those frames. */
  ghost predicate Stored(bytes: seq<Bytes>, stamps: seq<bool>, log: seq<Frame>, lo: nat)
  {
    && |bytes| == |stamps| == BUFFS
    && forall i :: lo <= i < |log| ==> bytes[Slot(i, BUFFS)] == log[i].bytes && stamps[Slot(i, BUFFS)] == log[i].stamp
  }

  /** The buffers of frames lo up to hi are linked in order and end with NULL. */
  ghost predicate Chain(next: seq<int>, lo: nat, hi: nat)
  {
    && |next| == BUFFS
    && forall i {:trigger next[Slot(i, BUFFS)]} ::
         lo <= i < hi ==> next[Slot(i, BUFFS)] == if i + 1 < hi then Slot(i + 1, BUFFS) else NULL
  }

  lemma ChainKeeps(next: seq<int>, lo: nat, hi: nat, k: nat, v: int)
    requires Chain(next, lo, hi) && (hi <= k < lo + BUFFS)
    ensures Chain(next[Slot(k, BUFFS) := v], lo, hi)
  {
    forall i | lo <= i < hi ensures Slot(i, BUFFS) != Slot(k, BUFFS) { SlotsApart(i, k, BUFFS); }
    hide Slot;
  }

  lemma ChainAppend(next: seq<int>, lo: nat, hi: nat)
    requires Chain(next, lo, hi) && lo < hi < lo + BUFFS
    ensures Chain(next[Slot(hi, BUFFS) := NULL][Slot(hi - 1, BUFFS) := Slot(hi, BUFFS)], lo, hi + 1)
  {
    ChainKeeps(next, lo, hi, hi, NULL);
    forall i | lo <= i < hi - 1 ensures Slot(i, BUFFS) != Slot(hi - 1, BUFFS) { SlotsApart(i, hi - 1, BUFFS); }
    SlotsApart(hi - 1, hi, BUFFS);
    hide Slot;
  }

  /** One chain put behind another one. */
  lemma ChainJoin(next: seq<int>, lo: nat, mid: nat, hi: nat)
    requires Chain(next, lo, mid) && Chain(next, mid, hi) && lo < mid < hi < lo + BUFFS
    ensures Chain(next[Slot(mid - 1, BUFFS) := Slot(mid, BUFFS)], lo, hi)
  {
    forall i | lo <= i < hi && i != mid - 1 ensures Slot(i, BUFFS) != Slot(mid - 1, BUFFS) {
      if i < mid - 1 { SlotsApart(i, mid - 1, BUFFS); } else { SlotsApart(mid - 1, i, BUFFS); }
    }
    hide Slot;
  }

  lemma StoredKeeps(bytes: seq<Bytes>, stamps: seq<bool>, log: seq<Frame>, lo: nat, b: Bytes, st: bool)
    requires Stored(bytes, stamps, log, lo) && lo <= |log| < lo + BUFFS
    ensures Stored(bytes[Slot(|log|, BUFFS) := b], stamps[Slot(|log|, BUFFS) := st], log, lo)
    ensures Stored(bytes[Slot(|log|, BUFFS) := b], stamps, log, lo)
    ensures Stored(bytes, stamps[Slot(|log|, BUFFS) := st], log, lo)
  {
    forall i | lo <= i < |log| ensures Slot(i, BUFFS) != Slot(|log|, BUFFS) { SlotsApart(i, |log|, BUFFS); }
    hide Slot;
  }

  lemma StoredAt(bytes: seq<Bytes>, stamps: seq<bool>, log: seq<Frame>, lo: nat, i: nat)
    requires Stored(bytes, stamps, log, lo) && lo <= i < |log|
    ensures |bytes| == |stamps| == BUFFS
    ensures bytes[Slot(i, BUFFS)] == log[i].bytes && stamps[Slot(i, BUFFS)] == log[i].stamp
  {
  }

  lemma StoredAppend(bytes: seq<Bytes>, stamps: seq<bool>, log: seq<Frame>, lo: nat, f: Frame)
    requires Stored(bytes, stamps, log, lo) && bytes[Slot(|log|, BUFFS)] == f.bytes && stamps[Slot(|log|, BUFFS)] == f.stamp
    ensures Stored(bytes, stamps, log + [f], lo)
  {
    hide Slot;
  }

  lemma ChainShape(next: seq<int>, lo: nat, hi: nat)
    requires Chain(next, lo, hi)
    ensures |next| == BUFFS
  {
  }

  lemma ChainAt(next: seq<int>, lo: nat, hi: nat, k: nat)
    requires Chain(next, lo, hi) && lo <= k < hi
    ensures |next| == BUFFS && (next[Slot(k, BUFFS)] == NULL <==> k + 1 == hi)
    ensures k + 1 < hi ==> next[Slot(k, BUFFS)] == Slot(k + 1, BUFFS)
  {
    hide Slot;
    assert next[Slot(k, BUFFS)] == if k + 1 < hi then Slot(k + 1, BUFFS) else NULL;
  }

  lemma ChainEmpty(next: seq<int>, k: nat)
    requires |next| == BUFFS
    ensures Chain(next, k, k)
  {
  }

  lemma ChainOne(next: seq<int>, k: nat)
    requires |next| == BUFFS && next[Slot(k, BUFFS)] == NULL
    ensures Chain(next, k, k + 1)
  {
  }

  /** The stamped frames, in order. */
  function Stamped(fs: seq<Frame>): seq<Frame> {
    if fs == [] then []
    else Stamped(fs[..|fs| - 1]) + (if fs[|fs| - 1].stamp then [fs[|fs| - 1]] else [])
  }

  /** The reports so far are the stamped ones of the first n frames. */
  ghost predicate ReportsFit(reports: seq<Frame>, log: seq<Frame>, n: nat) {
    n <= |log| && reports == Stamped(log[..n])
  }

  lemma ReportsKeep(reports: seq<Frame>, log: seq<Frame>, n: nat, f: Frame)
    requires ReportsFit(reports, log, n)
    ensures ReportsFit(reports, log + [f], n)
  {
    assert (log + [f])[..n] == log[..n];
  }

  lemma ReportOne(reports: seq<Frame>, log: seq<Frame>, n: nat)
    requires ReportsFit(reports, log, n) && n < |log|
    ensures ReportsFit(if log[n].stamp then reports + [log[n]] else reports, log, n + 1)
  {
    StampedSnoc(log[..n], log[n]);
    assert log[..n + 1] == log[..n] + [log[n]];
  }

  lemma StampedSnoc(fs: seq<Frame>, f: Frame)
    ensures Stamped(fs + [f]) == Stamped(fs) + (if f.stamp then [f] else [])
  {
    assert (fs + [f])[..|fs|] == fs;
  }

  datatype Producer =
    | Idle
    | Checked(frame: Frame)   // the ring has a free slot
    | Filled(frame: Frame)    // payload copied
    | Prepared(frame: Frame)  // buffer reset and unlinked
    | Written                 // accepted by the driver, head not moved yet

  datatype Worker =
    | Waiting               // for a mailbox event
    | Woken                 // event fetched, list not taken yet
    | Walk(b: int)          // at a completed buffer, or at the end of the chain
    | Reported(b: int)      // PTP callback done if there was one to do
    | Advanced(b: int)      // tail moved, pNext still to be read
    | RxWoken               // receive event fetched, list of received buffers not taken yet
    | Receiving             // at the received buffers

  class TxRing {
    const bytes: array<Bytes>
    const stamps: array<bool>
    const next: array<int>
    var head: nat
    var tail: nat
    var linkUp: bool
    var list: int             // pktTransmittedBuffer
    var events: nat           // WORKER_PKT_TX events in the mailbox
    var others: nat           // other events in the mailbox
    var rxList: bool          // pktReceivedBuffer is not NULL
    var rxEvents: nat         // WORKER_PKT_RX events among the others
    var producer: Producer
    var worker: Worker

    var log: seq<Frame>             // all frames the driver accepted
    var out: nat                    // how many of them it completed
    ghost var taken: nat            // how many of those the worker took over
    ghost var passed: nat           // how many of these txPktTail went past
    ghost var lost: bool            // the mailbox refused an event
    ghost var rxLost: bool          // the same for a receive event
    ghost var reports: seq<Frame>   // frames given to the PTP callback

    /** The oldest frame whose buffer somebody may still read. */
    ghost function Oldest(): nat
      reads this
    {
      if worker.Advanced? && passed > 0 then passed - 1 else passed
    }

    ghost predicate WorkerOk()
      reads this
    {
      match worker
      case Waiting => passed == taken
      case Woken => passed == taken
      case Walk(b) => b == if passed < taken then Slot(passed, BUFFS) else NULL
      case Reported(b) => passed < taken && b == Slot(passed, BUFFS)
      case Advanced(b) => passed > 0 && b == Slot(passed - 1, BUFFS)
      case RxWoken => passed == taken
      case Receiving => passed == taken
    }

    ghost predicate ProducerOk()
      reads this, bytes, stamps, next
      requires bytes.Length == stamps.Length == next.Length == BUFFS
    {
      var h := Slot(|log|, BUFFS);
      && (if producer.Written? then |log| > 0 && head == Slot(|log| - 1, BUFFS) else head == h)
      && match producer
         case Checked(f) => |log| < passed + BUFFS - 1
         case Filled(f) => |log| < passed + BUFFS - 1 && bytes[h] == f.bytes
         case Prepared(f) =>
           |log| < passed + BUFFS - 1 && bytes[h] == f.bytes && stamps[h] == f.stamp && next[h] == NULL
         case _ => true
    }

    ghost predicate Counts()
      reads this
    {
      && passed <= taken <= out <= |log| <= passed + BUFFS - 1
      && tail == Slot(passed, BUFFS)
      && (list == if taken < out then Slot(taken, BUFFS) else NULL)
      && (lost ==> taken < out)
      && events + (if worker.Woken? then 1 else 0) == (if taken < out && !lost then 1 else 0)
      && events + others <= MBOX_EVENTS
      && rxEvents <= others && (rxLost ==> rxList)
      && rxEvents + (if worker.RxWoken? then 1 else 0) == (if rxList && !rxLost then 1 else 0)
    }

    ghost function ReportedUpTo(): nat
      reads this
    {
      if worker.Reported? then passed + 1 else passed
    }

    ghost predicate Valid()
      reads this, bytes, stamps, next
    {
      && bytes.Length == stamps.Length == next.Length == BUFFS
      && Counts() && WorkerOk() && ProducerOk() && ReportsFit(reports, log, ReportedUpTo())
      && Stored(bytes[..], stamps[..], log, Oldest())
      && Chain(next[..], Oldest(), taken)
      && Chain(next[..], taken, out)
    }

    constructor ()
      ensures Valid() && log == [] && out == taken == passed == 0 && !lost && events == others == 0 && list == NULL
      ensures !rxList && !rxLost && rxEvents == 0
      ensures producer == Idle && worker == Waiting
      ensures fresh(bytes) && fresh(stamps) && fresh(next)
    {
      bytes, stamps, next := new Bytes[BUFFS](_ => []), new bool[BUFFS], new int[BUFFS](_ => NULL);
      head, tail, linkUp, list, events, others := 0, 0, false, NULL, 0, 0;
      rxList, rxEvents, rxLost := false, 0, false;
      producer, worker := Idle, Waiting;
      log, out, taken, passed, lost, reports := [], 0, 0, 0, false, [];
    }

    // -------------------------------------------------------------- the producer

    /** The full test; a frame that finds the ring full is dropped. */
    method Check(f: Frame) returns (dropped: bool)
      requires Valid() && producer.Idle?
      modifies `producer
      ensures Valid() && producer == (if dropped then Idle else Checked(f))
      ensures dropped <==> |log| == passed + BUFFS - 1
    {
      hide Stored;
      hide Chain;
      hide ReportsFit;
      FullEmpty(|log|, passed, BUFFS);
      var txPktNext := Bump(head, BUFFS);
      dropped := txPktNext == tail;
      if !dropped {
        producer := Checked(f);
      }
    }

    /** Copying the payload: no buffer that the driver or the worker may still read is touched. */
    method Fill()
      requires Valid() && producer.Checked?
      modifies `producer, bytes
      ensures Valid() && producer == Filled(old(producer).frame)
      ensures forall i :: Oldest() <= i < |log| ==> bytes[Slot(i, BUFFS)] == old(bytes[Slot(i, BUFFS)])
    {
      hide Chain;
      hide ReportsFit;
      StoredKeeps(bytes[..], stamps[..], log, Oldest(), producer.frame.bytes, false);
      forall i | Oldest() <= i < |log| ensures Slot(i, BUFFS) != Slot(|log|, BUFFS) { SlotsApart(i, |log|, BUFFS); }
      bytes[head] := producer.frame.bytes;
      producer := Filled(producer.frame);
    }

    /** Unlinking and preparing the buffer: not the one whose pNext the worker is about to read. */
    method Prepare()
      requires Valid() && producer.Filled?
      modifies `producer, stamps, next
      ensures Valid() && producer == Prepared(old(producer).frame)
      ensures forall i :: Oldest() <= i < |log| ==>
                stamps[Slot(i, BUFFS)] == old(stamps[Slot(i, BUFFS)]) && next[Slot(i, BUFFS)] == old(next[Slot(i, BUFFS)])
    {
      hide ReportsFit;
      StoredKeeps(bytes[..], stamps[..], log, Oldest(), [], producer.frame.stamp);
      ChainKeeps(next[..], Oldest(), taken, |log|, NULL);
      ChainKeeps(next[..], taken, out, |log|, NULL);
      forall i | Oldest() <= i < |log| ensures Slot(i, BUFFS) != Slot(|log|, BUFFS) { SlotsApart(i, |log|, BUFFS); }
      hide Chain;
      hide Stored;
      hide Slot;
      next[head] := NULL;
      stamps[head] := producer.frame.stamp;
      producer := Prepared(producer.frame);
    }

    /** The driver accepts the buffer, or the write fails, or the link is down and the frame is
        dropped; either way only an accepted frame uses up the slot. */
    method Submit(success: bool) returns (accepted: bool)
      requires Valid() && producer.Prepared?
      modifies `producer, `log
      ensures Valid() && accepted == (linkUp && success)
      ensures log == if accepted then old(log) + [old(producer).frame] else old(log)
      ensures producer == if accepted then Written else Idle
    {
      accepted := linkUp && success;
      if accepted {
        StoredAppend(bytes[..], stamps[..], log, Oldest(), producer.frame);
        ReportsKeep(reports, log, ReportedUpTo(), producer.frame);
        hide ReportsFit;
        hide Stored;
        hide Chain;
        hide Slot;
        log := log + [producer.frame];
        producer := Written;
      } else {
        producer := Idle;
      }
    }

    /** The head moves on, possibly after the worker has already been past the frame. */
    method StoreHead()
      requires Valid() && producer.Written?
      modifies `producer, `head
      ensures Valid() && producer == Idle
    {
      hide Stored;
      hide Chain;
      hide ReportsFit;
      BumpSlot(|log| - 1, BUFFS);
      head := Bump(head, BUFFS);
      producer := Idle;
    }

    /** The steps of one call, with nobody in between. */
    method Send(f: Frame, success: bool) returns (accepted: bool)
      requires Valid() && producer.Idle?
      modifies `producer, `log, `head, bytes, stamps, next
      ensures Valid() && producer.Idle?
      ensures accepted <==> |old(log)| < passed + BUFFS - 1 && linkUp && success
      ensures log == if accepted then old(log) + [f] else old(log)
    {
      hide *;
      RoomBound();
      var dropped := Check(f);
      if dropped {
        return false;
      }
      Fill();
      Prepare();
      accepted := Submit(success);
      if accepted {
        StoreHead();
      }
    }

    lemma RoomBound()
      requires Valid()
      ensures |log| <= passed + BUFFS - 1
    {
      hide Stored;
      hide Chain;
      hide ReportsFit;
    }

    // -------------------------------------------------------------- interrupts

    /** sys_mbox_trypost. */
    method PostEvent(tx: bool)
      modifies `events, `others
      ensures var full := old(events) + old(others) >= MBOX_EVENTS;
        && events == old(events) + (if tx && !full then 1 else 0)
        && others == old(others) + (if !tx && !full then 1 else 0)
    {
      if events + others < MBOX_EVENTS {
        if tx {
          events := events + 1;
        } else {
          others := others + 1;
        }
      }
    }

    /** A link interrupt. */
    method LinkChange(up: bool)
      requires Valid()
      modifies `linkUp, `events, `others
      ensures Valid() && linkUp == up && events == old(events)
      ensures others == old(others) + (if old(events) + old(others) < MBOX_EVENTS then 1 else 0)
    {
      hide Stored;
      hide Chain;
      hide ReportsFit;
      linkUp := up;
      PostEvent(false);
    }

    /** A reception: the frame goes behind those received before, or starts a list and an event is
        posted. The event is lost exactly when it is due and the mailbox is full. */
    method Received()
      requires Valid()
      modifies `events, `others, `rxList, `rxEvents, `rxLost
      ensures Valid() && events == old(events) && rxList
      ensures rxLost <==> old(rxLost) || (!old(rxList) && old(events) + old(others) == MBOX_EVENTS)
      ensures others == old(others) + (if old(rxList) || rxLost then 0 else 1)
    {
      hide Stored;
      hide Chain;
      hide ReportsFit;
      if !rxList {
        if events + others >= MBOX_EVENTS {
          rxLost := true;
        } else {
          rxEvents := 1;
        }
        rxList := true;
        PostEvent(false);
      }
    }

    /** The driver links the buffers that it has in queues of its own. */
    method DriverLinks(i: nat, v: int)
      requires Valid() && out <= i < |log|
      modifies next
      ensures Valid()
      ensures forall j :: Oldest() <= j < out ==> next[Slot(j, BUFFS)] == old(next[Slot(j, BUFFS)])
    {
      hide ReportsFit;
      hide Stored;
      ChainKeeps(next[..], Oldest(), taken, i, v);
      ChainKeeps(next[..], taken, out, i, v);
      SlotsApart(i, |log|, BUFFS);
      forall j | Oldest() <= j < out ensures Slot(j, BUFFS) != Slot(i, BUFFS) { SlotsApart(j, i, BUFFS); }
      hide Chain;
      hide Slot;
      next[Slot(i, BUFFS)] := v;
    }

    /** The walk to the last buffer of the list. */
    method LastInList() returns (append: int)
      requires next.Length == BUFFS && taken < out && list == Slot(taken, BUFFS) && Chain(next[..], taken, out)
      ensures append == Slot(out - 1, BUFFS)
    {
      append := list;
      ghost var k := taken;
      hide Slot;
      while next[append] != NULL
        invariant taken <= k < out && append == Slot(k, BUFFS)
        decreases out - k
      {
        ChainAt(next[..], taken, out, k);
        append := next[append];
        k := k + 1;
      }
      ChainAt(next[..], taken, out, k);
    }

    /** process_int: the driver takes its k oldest frames, which are out, one after the other off its
        queue and chains them. What was sent are the frames that were accepted. */
    method Collect(buffer: nat, k: nat, ghost lo: nat) returns (sent: seq<Frame>)
      requires bytes.Length == stamps.Length == next.Length == BUFFS
      requires lo <= taken <= out && 0 < k && out + k <= |log| <= lo + BUFFS && buffer == Slot(out, BUFFS)
      requires Stored(bytes[..], stamps[..], log, lo)
      requires Chain(next[..], lo, taken) && Chain(next[..], taken, out)
      modifies next
      ensures sent == log[out..out + k]
      ensures Chain(next[..], lo, taken) && Chain(next[..], taken, out) && Chain(next[..], out, out + k)
      ensures |log| < lo + BUFFS ==> next[Slot(|log|, BUFFS)] == old(next[Slot(|log|, BUFFS)])
    {
      var b, last := buffer, NULL;
      sent := [];
      hide Chain;
      hide Slot;
      hide Stored;
      ChainEmpty(next[..], out);
      for i := 0 to k
        invariant b == Slot(out + i, BUFFS) && (if i == 0 then last == NULL else last == Slot(out + i - 1, BUFFS))
        invariant sent == log[out..out + i]
        invariant Chain(next[..], lo, taken) && Chain(next[..], taken, out) && Chain(next[..], out, out + i)
        invariant |log| < lo + BUFFS ==> next[Slot(|log|, BUFFS)] == old(next[Slot(|log|, BUFFS)])
      {
        ghost var was := next[..];
        CollectOne(was, lo, i);
        StoredAt(bytes[..], stamps[..], log, lo, out + i);
        sent := sent + [Frame(bytes[b], stamps[b])];
        assert log[out..out + i + 1] == log[out..out + i] + [log[out + i]];
        next[b] := NULL;
        assert next[..] == was[Slot(out + i, BUFFS) := NULL];
        if i > 0 {
          next[last] := b;
          assert next[..] == was[Slot(out + i, BUFFS) := NULL][Slot(out + i - 1, BUFFS) := Slot(out + i, BUFFS)];
        }
        BumpSlot(out + i, BUFFS);
        last := b;
        b := Bump(b, BUFFS);
      }
    }

    lemma CollectOne(was: seq<int>, lo: nat, i: nat)
      requires lo <= taken <= out && out + i < |log| <= lo + BUFFS
      requires Chain(was, lo, taken) && Chain(was, taken, out) && Chain(was, out, out + i)
      ensures var one := was[Slot(out + i, BUFFS) := NULL];
        var two := if i == 0 then one else one[Slot(out + i - 1, BUFFS) := Slot(out + i, BUFFS)];
        && Chain(two, lo, taken) && Chain(two, taken, out) && Chain(two, out, out + i + 1)
        && (|log| < lo + BUFFS ==> two[Slot(|log|, BUFFS)] == was[Slot(|log|, BUFFS)])
    {
      hide Slot;
      hide Chain;
      ChainShape(was, out, out + i);
      var one := was[Slot(out + i, BUFFS) := NULL];
      ChainKeeps(was, lo, taken, out + i, NULL);
      ChainKeeps(was, taken, out, out + i, NULL);
      if |log| < lo + BUFFS {
        SlotsApart(out + i, |log|, BUFFS);
      }
      if i == 0 {
        ChainOne(one, out);
      } else {
        ChainAppend(was, out, out + i);
        ChainKeeps(one, lo, taken, out + i - 1, Slot(out + i, BUFFS));
        ChainKeeps(one, taken, out, out + i - 1, Slot(out + i, BUFFS));
        if |log| < lo + BUFFS {
          SlotsApart(out + i - 1, |log|, BUFFS);
        }
      }
    }

    /** The callback: the chain handed over goes behind the last buffer of the list, or starts a list
        and an event is posted. */
    method Link(buffer: nat, k: nat, ghost lo: nat)
      requires next.Length == BUFFS && lo <= taken <= out <= lo + BUFFS && out < out + k < taken + BUFFS
      requires buffer == Slot(out, BUFFS)
      requires list == if taken < out then Slot(taken, BUFFS) else NULL
      requires Chain(next[..], lo, taken) && Chain(next[..], taken, out) && Chain(next[..], out, out + k)
      modifies `list, `events, `others, `lost, next
      ensures Chain(next[..], lo, taken) && Chain(next[..], taken, out + k)
      ensures forall j :: 0 <= j < BUFFS && (taken < out ==> j != Slot(out - 1, BUFFS)) ==> next[j] == old(next[j])
      ensures list == Slot(taken, BUFFS) && others == old(others)
      ensures if taken < out then events == old(events) && lost == old(lost)
              else
                var full := old(events) + old(others) >= MBOX_EVENTS;
                lost == (old(lost) || full) && events == old(events) + (if full then 0 else 1)
    {
      hide Slot;
      hide Chain;
      ghost var was := next[..];
      if list != NULL {
        var append := LastInList();
        ChainJoin(was, taken, out, out + k);
        ChainKeeps(was, lo, taken, out - 1, Slot(out, BUFFS));
        next[append] := buffer;
        assert next[..] == was[Slot(out - 1, BUFFS) := Slot(out, BUFFS)];
      } else {
        lost := lost || events + others >= MBOX_EVENTS;
        list := buffer;
        PostEvent(true);
        assert next[..] == was;
      }
    }

    /** The k oldest frames in the driver are out. The event for the worker is lost exactly when it is
        due, the list having been empty, and 20 other events are waiting. */
    method Complete(buffer: nat, k: nat) returns (sent: seq<Frame>)
      requires Valid() && 0 < k && out + k <= |log| && buffer == Slot(out, BUFFS)
      modifies `list, `events, `others, `out, `lost, next
      ensures Valid() && out == old(out) + k && sent == log[old(out)..out] && others == old(others)
      ensures lost <==> old(lost) || (old(list) == NULL && old(others) == MBOX_EVENTS)
    {
      hide Slot;
      hide ReportsFit;
      hide Chain;
      hide Stored;
      sent := Collect(buffer, k, Oldest());
      if taken < out {
        SlotsApart(out - 1, |log|, BUFFS);
      }
      Link(buffer, k, Oldest());
      out := out + k;
    }

    // -------------------------------------------------------------- the worker

    /** A link event, handled before the worker waits again. */
    method FetchLink()
      requires Valid() && worker.Waiting? && others > rxEvents
      modifies `others
      ensures Valid() && others == old(others) - 1
    {
      hide Stored;
      hide Chain;
      hide ReportsFit;
      others := others - 1;
    }

    method FetchRx()
      requires Valid() && worker.Waiting? && rxEvents > 0
      modifies `others, `rxEvents, `worker
      ensures Valid() && worker == RxWoken && others == old(others) - 1 && rxEvents == old(rxEvents) - 1
    {
      hide Stored;
      hide Chain;
      hide ReportsFit;
      others, rxEvents, worker := others - 1, rxEvents - 1, RxWoken;
    }

    /** The worker takes all received buffers over, atomically. */
    method TakeReceived()
      requires Valid() && worker.RxWoken?
      modifies `rxList, `worker
      ensures Valid() && old(rxList) && !rxList && !rxLost && worker == Receiving
    {
      hide Stored;
      hide Chain;
      hide ReportsFit;
      rxList, worker := false, Receiving;
    }

    method EndReceive()
      requires Valid() && worker.Receiving?
      modifies `worker
      ensures Valid() && worker == Waiting
    {
      hide Stored;
      hide Chain;
      hide ReportsFit;
      worker := Waiting;
    }

    method FetchEvent()
      requires Valid() && worker.Waiting? && events > 0
      modifies `events, `worker
      ensures Valid() && worker == Woken
    {
      hide Slot;
      hide Stored;
      hide Chain;
      hide ReportsFit;
      events := events - 1;
      worker := Woken;
    }

    /** The worker takes the whole list over, atomically. */
    method TakeList()
      requires Valid() && worker.Woken?
      modifies `list, `worker, `taken
      ensures Valid() && taken == out && worker == Walk(old(list))
    {
      hide Slot;
      hide Stored;
      hide ReportsFit;
      worker := Walk(list);
      list := NULL;
      taken := out;
    }

    /** The buffer the worker looks at holds the oldest frame it has not gone past. */
    lemma FrameAtWorker()
      requires Valid() && worker.Walk? && worker.b != NULL
      ensures passed < |log| && worker.b == Slot(passed, BUFFS)
      ensures Frame(bytes[worker.b], stamps[worker.b]) == log[passed]
    {
      hide Slot;
      hide Chain;
      hide ReportsFit;
      assert stamps[..][Slot(passed, BUFFS)] == log[passed].stamp && bytes[..][Slot(passed, BUFFS)] == log[passed].bytes;
    }

    /** The PTP callback of a stamped frame; it gets the frame that was accepted. */
    method Report() returns (reported: bool)
      requires Valid() && worker.Walk? && worker.b != NULL
      modifies `worker, `reports
      ensures Valid() && worker == Reported(old(worker).b)
      ensures passed < |log| && reported == log[passed].stamp
      ensures reports == if reported then old(reports) + [log[passed]] else old(reports)
    {
      hide Slot;
      hide Chain;
      hide Stored;
      hide ReportsFit;
      FrameAtWorker();
      ReportOne(reports, log, passed);
      var b := worker.b;
      reported := stamps[b];
      if reported {
        reports := reports + [Frame(bytes[b], stamps[b])];
      }
      worker := Reported(b);
    }

    /** txPktTail goes past the buffer. */
    method Advance()
      requires Valid() && worker.Reported?
      modifies `worker, `tail, `passed
      ensures Valid() && passed == old(passed) + 1 && worker == Advanced(old(worker).b)
    {
      BumpSlot(passed, BUFFS);
      hide Slot;
      hide Bump;
      hide Stored;
      hide Chain;
      hide ReportsFit;
      tail := Bump(tail, BUFFS);
      passed := passed + 1;
      worker := Advanced(worker.b);
    }

    /** Only now is pNext read; it still leads to the next buffer of the list the worker took. */
    method ReadNext()
      requires Valid() && worker.Advanced?
      modifies `worker
      ensures Valid() && worker == Walk(if passed < taken then Slot(passed, BUFFS) else NULL)
    {
      hide Slot;
      hide ReportsFit;
      assert next[..][Slot(passed - 1, BUFFS)] == if passed < taken then Slot(passed, BUFFS) else NULL;
      worker := Walk(next[worker.b]);
    }

    method EndWalk()
      requires Valid() && worker == Walk(NULL)
      modifies `worker
      ensures Valid() && worker == Waiting && passed == taken
    {
      hide Stored;
      hide Chain;
      hide ReportsFit;
      worker := Waiting;
    }

    // -------------------------------------------------------------- what Valid means

    /** The producer's target is no buffer that the driver still has, no completed one that the
        worker has yet to go past, and not the one whose pNext it is about to read. */
    lemma TargetFree()
      requires Valid() && !producer.Idle? && !producer.Written?
      ensures forall i :: Oldest() <= i < |log| ==> head != Slot(i, BUFFS)
      ensures worker.Reported? || worker.Advanced? || worker.Walk? ==> head != worker.b
      ensures passed > 0 ==> head != Slot(passed - 1, BUFFS)
    {
      forall i | Oldest() <= i < |log| ensures head != Slot(i, BUFFS) { SlotsApart(i, |log|, BUFFS); }
      if passed > 0 {
        SlotsApart(passed - 1, |log|, BUFFS);
      }
      hide Slot;
    }

    /** Everything accepted is out, the worker waits and no event is for it. If and only if no event
        was ever lost, all of it has been processed, in order and once: the ring is empty, and the
        reports are the stamped frames. */
    lemma Drained()
      requires Valid() && worker.Waiting? && events == 0 && producer.Idle? && out == |log|
      ensures passed == |log| <==> !lost
      ensures !lost ==> list == NULL && head == tail && reports == Stamped(log)
    {
      assert log[..|log|] == log;
    }

    /** Once an event is lost the worker is never told again: none is waiting or being handled, though
        the list is not empty. */
    lemma LostMeans()
      requires Valid() && lost
      ensures events == 0 && !worker.Woken? && list != NULL && |log| <= taken + BUFFS - 1
    {
      hide Stored;
      hide Chain;
      hide ReportsFit;
    }

    /** Received frames lie in the list if and only if the worker has been told and is still to take
        them, or an event was lost; then it is never told again. */
    lemma Reception()
      requires Valid()
      ensures rxList <==> rxEvents == 1 || worker.RxWoken? || rxLost
      ensures rxLost ==> rxEvents == 0 && !worker.RxWoken?
    {
      hide Stored;
      hide Chain;
      hide ReportsFit;
    }

    /** One step of the producer, an interrupt or the worker. */
    method Step()
      requires Valid()
      modifies this, bytes, stamps, next
      ensures Valid() && old(log) <= log && old(reports) <= reports
      ensures old(passed) <= passed && old(taken) <= taken && old(out) <= out
      ensures (old(lost) ==> lost && taken == old(taken)) && (old(rxLost) ==> rxLost)
    {
      hide Stored;
      hide Chain;
      hide ReportsFit;
      hide Slot;
      hide ProducerOk;
      hide WorkerOk;
      var what: int := *;
      if what == 0 {
        ProducerStep();
      } else if what == 1 {
        InterruptStep();
      } else {
        WorkerStep();
      }
    }

    method ProducerStep()
      requires Valid()
      modifies `producer, `log, `head, bytes, stamps, next
      ensures Valid() && old(log) <= log
    {
      hide Valid;
      var success: bool := *;
      match producer
      case Idle =>
        var f: Frame := *;
        var dropped := Check(f);
      case Checked(_) => Fill();
      case Filled(_) => Prepare();
      case Prepared(_) => var accepted := Submit(success);
      case Written => StoreHead();
    }

    method InterruptStep()
      requires Valid()
      modifies `list, `events, `others, `out, `lost, `linkUp, `rxList, `rxEvents, `rxLost, next
      ensures Valid() && old(out) <= out && (old(lost) ==> lost) && (old(rxLost) ==> rxLost)
    {
      hide Valid;
      hide Slot;
      var what: int := *;
      var k: int := *;
      var v: int := *;
      if what == 0 {
        LinkChange(v == 0);
      } else if what == 1 {
        Received();
      } else if what == 2 && out <= k < |log| {
        DriverLinks(k, v);
      } else if 0 < k && out + k <= |log| {
        var sent := Complete(Slot(out, BUFFS), k);
      }
    }

    method WorkerStep()
      requires Valid()
      modifies `list, `events, `others, `rxList, `rxEvents, `worker, `tail, `taken, `passed, `reports
      ensures Valid() && old(reports) <= reports && old(passed) <= passed && old(taken) <= taken
      ensures lost ==> taken == old(taken)
    {
      TakenOut();
      if lost {
        LostMeans();
      }
      hide Valid;
      var what: int := *;
      match worker
      case Waiting =>
        if what == 0 && others > rxEvents {
          FetchLink();
        } else if what == 1 && rxEvents > 0 {
          FetchRx();
        } else if events > 0 {
          FetchEvent();
        }
      case Woken => TakeList();
      case RxWoken => TakeReceived();
      case Receiving => EndReceive();
      case Walk(b) =>
        if b == NULL {
          EndWalk();
        } else {
          var reported := Report();
        }
      case Reported(_) => Advance();
      case Advanced(_) => ReadNext();
    }

    lemma TakenOut()
      requires Valid()
      ensures taken <= out
    {
      hide Stored;
      hide Chain;
      hide ReportsFit;
    }

    /** Any number of steps of anybody, in any order. Accepted frames and reports are only ever added.
        Once an event is lost the worker takes nothing over any more, so at most 63 more frames are
        accepted than it had taken; once a receive event is lost it takes no received frame any more. */
    method Run()
      requires Valid()
      modifies this, bytes, stamps, next
      ensures Valid() && old(log) <= log && old(reports) <= reports
      ensures old(passed) <= passed && old(taken) <= taken && old(out) <= out
      ensures old(lost) ==> lost && taken == old(taken) && events == 0 && |log| <= old(taken) + BUFFS - 1
      ensures old(rxLost) ==> rxLost && rxList && rxEvents == 0
    {
      hide Counts;
      hide WorkerOk;
      hide ProducerOk;
      hide Stored;
      hide Chain;
      hide ReportsFit;
      hide Slot;
      var n: int := *;
      while n > 0
        invariant Valid() && old(log) <= log && old(reports) <= reports
        invariant old(passed) <= passed && old(taken) <= taken && old(out) <= out
        invariant (old(lost) ==> lost && taken == old(taken)) && (old(rxLost) ==> rxLost)
      {
        Step();
        n := n - 1;
      }
      if lost {
        LostMeans();
      }
      Reception();
    }
  }

  /** A fresh ring whose worker is at a received frame while 20 link interrupts fill the mailbox. */
  method FullMailbox() returns (r: TxRing)
    ensures fresh(r) && fresh(r.bytes) && fresh(r.stamps) && fresh(r.next) && r.Valid()
    ensures r.worker == Receiving && r.others == MBOX_EVENTS && r.events == 0 && r.list == NULL && !r.rxList
    ensures r.producer == Idle && r.log == [] && r.out == r.passed == 0 && r.linkUp
  {
    hide TxRing.Valid;
    r := new TxRing();
    r.Received();
    r.Reception();
    r.FetchRx();
    r.TakeReceived();
    for i := 0 to MBOX_EVENTS
      invariant fresh(r) && fresh(r.bytes) && fresh(r.stamps) && fresh(r.next) && r.Valid()
      invariant r.others == i && r.events == 0 && (i > 0 ==> r.linkUp) && !r.rxList && r.worker == Receiving
      invariant r.producer == Idle && r.log == [] && r.out == r.passed == 0 && r.list == NULL
    {
      r.LinkChange(true);
    }
  }

  /** Events can be lost: with the mailbox full, the first frame goes out and the next one comes in. */
  method MailboxFills(f: Frame) returns (r: TxRing)
    ensures fresh(r) && r.Valid() && r.lost && r.rxLost
  {
    hide TxRing.Valid;
    assert Slot(0, BUFFS) == 0;
    hide Slot;
    r := FullMailbox();
    var accepted := r.Send(f, true);
    var sent := r.Complete(0, 1);
    r.LostMeans();
    r.Received();
  }
}
