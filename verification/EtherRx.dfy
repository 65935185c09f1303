/** The zero-copy receive pool of the Ethernet interface: 128 buffers that travel between the EMAC
    driver, the worker thread, the PTP and 1722 callbacks and lwIP, and 128 pbuf containers, one of
    which has to be found for every frame handed to lwIP. */
module EtherRx {
  import opened Arithmetic

  const BUFFS: nat := 128

  /** Who has a receive buffer. Back: taken off its container, not given to the driver yet. */
  datatype Owner = Driver | Worker | Avb | Pbuf(j: nat) | Back | Lost

  /** Busy containers and the buffers they hold name each other. */
  ghost predicate Attached(busy: seq<bool>, packet: seq<nat>, owner: seq<Owner>)
  {
    && |busy| == |packet| == |owner| == BUFFS
    && (forall j :: 0 <= j < BUFFS && busy[j] ==> packet[j] < BUFFS && owner[packet[j]] == Pbuf(j))
    && forall b :: 0 <= b < BUFFS && owner[b].Pbuf? ==>
         owner[b].j < BUFFS && busy[owner[b].j] && packet[owner[b].j] == b
  }

  ghost function BusyOnes(busy: seq<bool>): set<nat> { set j: nat | j < |busy| && busy[j] }

  ghost function Outside(owner: seq<Owner>): set<nat> { set b: nat | b < |owner| && owner[b] != Driver }

  lemma {:induction false} InjectionSize(s: set<nat>, packet: seq<nat>, owner: seq<Owner>, t: set<nat>)
    requires forall j :: j in s ==> j < |packet| && packet[j] < |owner| && packet[j] in t
    requires forall j :: j in s ==> owner[packet[j]] == Pbuf(j)
    ensures |s| <= |t|
    decreases |s|
  {
    if s != {} {
      var j :| j in s;
      InjectionSize(s - {j}, packet, owner, t - {packet[j]});
    }
  }

  /** Busy pbufs never outnumber the buffers outside of the driver. */
  lemma BusyBound(busy: seq<bool>, packet: seq<nat>, owner: seq<Owner>)
    requires Attached(busy, packet, owner)
    ensures |BusyOnes(busy)| <= |Outside(owner)|
  {
    InjectionSize(BusyOnes(busy), packet, owner, Outside(owner));
  }

  ghost function Below(n: nat): (s: set<nat>)
    ensures |s| == n && forall j: nat :: j in s <==> j < n
  {
    if n == 0 then {} else Below(n - 1) + {n - 1}
  }

  lemma FewerBusy(busy: seq<bool>, packet: seq<nat>, owner: seq<Owner>, b: nat)
    requires Attached(busy, packet, owner) && b < BUFFS && !owner[b].Pbuf?
    ensures |BusyOnes(busy)| < BUFFS
  {
    var all := Below(BUFFS);
    OtherPackets(busy, packet, owner, b, all);
    hide *;
    InjectionSize(BusyOnes(busy), packet, owner, all - {b});
    assert b in all && |all| == BUFFS;
  }

  lemma OtherPackets(busy: seq<bool>, packet: seq<nat>, owner: seq<Owner>, b: nat, all: set<nat>)
    requires Attached(busy, packet, owner) && b < BUFFS && !owner[b].Pbuf?
    requires forall i: nat :: i in all <==> i < BUFFS
    ensures forall j :: j in BusyOnes(busy) ==>
              j < |packet| && packet[j] < |owner| && packet[j] in all - {b} && owner[packet[j]] == Pbuf(j)
  {
  }

  lemma SmallSetMisses(s: set<nat>, n: nat) returns (j: nat)
    requires |s| < n
    ensures j < n && j !in s
  {
    SubsetSize(Below(n), s);
    j :| j in Below(n) && j !in s;
  }

  /** While any buffer is with somebody other than a container, some container is not busy. */
  lemma FreeContainer(busy: seq<bool>, packet: seq<nat>, owner: seq<Owner>, b: nat) returns (j: nat)
    requires Attached(busy, packet, owner) && b < BUFFS && !owner[b].Pbuf?
    ensures j < BUFFS && !busy[j]
  {
    FewerBusy(busy, packet, owner, b);
    j := SmallSetMisses(BusyOnes(busy), BUFFS);
  }

  /** Steps that the scan needs from h to j. */
  function Distance(h: nat, j: nat): nat
    requires h < BUFFS && j < BUFFS
  {
    if h <= j then j - h else j + BUFFS - h
  }

  class RxPool {
    const busy: array<bool>
    const packet: array<nat>
    var aePbufHead: nat
    ghost var owner: seq<Owner>
    var held: set<nat>           // containers whose pbuf lwIP has to free

    ghost predicate Valid()
      reads this, busy, packet
    {
      && busy.Length == packet.Length == BUFFS && aePbufHead < BUFFS
      && Attached(busy[..], packet[..], owner)
      && forall j :: j in held ==> j < BUFFS && busy[j]
    }

    constructor ()
      ensures Valid() && held == {} && fresh(busy) && fresh(packet)
      ensures forall b :: 0 <= b < BUFFS ==> owner[b] == Driver
    {
      busy, packet := new bool[BUFFS](_ => false), new nat[BUFFS];
      aePbufHead, owner, held := 0, seq(BUFFS, _ => Driver), {};
    }

    /** The driver completed a frame in buffer b. */
    ghost method Receive(b: nat)
      requires Valid() && b < BUFFS && owner[b] == Driver
      modifies `owner
      ensures Valid() && owner == old(owner)[b := Worker]
    {
      owner := owner[b := Worker];
    }

    /** A 1722 frame goes to its callback, or nowhere when there is none. */
    ghost method P1722(b: nat, registered: bool)
      requires Valid() && b < BUFFS && owner[b] == Worker
      modifies `owner
      ensures Valid() && owner == old(owner)[b := if registered then Avb else Lost]
    {
      owner := owner[b := if registered then Avb else Lost];
    }

    /** adi_ether_Read: PTP frames, freed 1722 frames and freed pbufs go back to the driver, unless it
        refuses them. */
    ghost method Read(b: nat, success: bool)
      requires Valid() && b < BUFFS && owner[b] in {Worker, Avb, Back}
      modifies `owner
      ensures Valid() && owner == old(owner)[b := if success then Driver else Lost]
    {
      owner := owner[b := if success then Driver else Lost];
    }

    /** First half of freeing a pbuf: the container is free before its buffer goes back. */
    method Detach(j: nat) returns (b: nat)
      requires Valid() && j in held
      modifies `owner, `held, busy
      ensures Valid() && b == packet[j] && b < BUFFS && old(owner)[b] == Pbuf(j) && owner == old(owner)[b := Back]
      ensures held == old(held) - {j}
      ensures busy[..] == old(busy[..])[j := false]
    {
      b := packet[j];
      busy[j] := false;
      owner := owner[b := Back];
      held := held - {j};
    }

    /** adi_ether_netif_pbuf_free. */
    method PbufFree(j: nat, success: bool) returns (b: nat)
      requires Valid() && j in held
      modifies `owner, `held, busy
      ensures Valid() && held == old(held) - {j} && busy[..] == old(busy[..])[j := false]
      ensures b == packet[j] && b < BUFFS && old(owner)[b] == Pbuf(j)
      ensures owner == old(owner)[b := if success then Driver else Lost]
    {
      b := Detach(j);
      Read(b, success);
    }

    /** Any number of steps of other threads: the two halves of freeing a pbuf, each by itself, buffers
        coming back from the 1722 callback, and frames coming in. */
    method OtherThreads(ghost mine: nat)
      requires Valid() && mine < BUFFS && owner[mine] == Worker
      modifies `owner, `held, busy
      ensures Valid() && owner[mine] == Worker && held <= old(held)
      ensures forall j :: 0 <= j < BUFFS && busy[j] ==> old(busy[j])
    {
      var n: int := *;
      while n > 0
        invariant Valid() && owner[mine] == Worker && held <= old(held)
        invariant forall j :: 0 <= j < BUFFS && busy[j] ==> old(busy[j])
      {
        var j: int := *;
        var free: bool := *;
        var success: bool := *;
        if free && j in held {
          var b := Detach(j);
        } else if 0 <= j < BUFFS && owner[j] in {Avb, Back} {
          Read(j, success);
        } else if 0 <= j < BUFFS && j != mine && owner[j] == Driver {
          Receive(j);
        }
        n := n - 1;
      }
    }

    /** One round of the scan: the head moves on, and the container it was at is taken if free. */
    method ScanStep(ghost goal: nat) returns (aep: nat)
      requires Valid() && goal < BUFFS && !busy[goal]
      modifies `aePbufHead
      ensures Valid() && aep < BUFFS && aep == old(aePbufHead)
      ensures busy[aep] ==> Distance(aePbufHead, goal) == Distance(aep, goal) - 1
    {
      aep := aePbufHead;
      aePbufHead := aePbufHead + 1;
      if aePbufHead == BUFFS {
        aePbufHead := 0;
      }
    }

    /** The scan for a container for buffer b, with the other threads at work before every round. It
        has no bound, yet ends within 128 rounds. */
    method Scan(ghost b: nat) returns (aep: nat, ghost rounds: nat)
      requires Valid() && b < BUFFS && owner[b] == Worker
      modifies `aePbufHead, `owner, `held, busy
      ensures Valid() && owner[b] == Worker && held <= old(held)
      ensures aep < BUFFS && !busy[aep] && rounds <= BUFFS
      ensures forall j :: 0 <= j < BUFFS && busy[j] ==> old(busy[j])
    {
      ghost var goal := FreeContainer(busy[..], packet[..], owner, b);
      rounds := 1;
      OtherThreads(b);
      ghost var start := Distance(aePbufHead, goal);
      aep := ScanStep(goal);
      while busy[aep]
        invariant Valid() && owner[b] == Worker && aep < BUFFS && held <= old(held)
        invariant !busy[goal] && forall j :: 0 <= j < BUFFS && busy[j] ==> old(busy[j])
        invariant busy[aep] ==> rounds + Distance(aePbufHead, goal) <= start
        invariant rounds <= start + 1
        decreases start - rounds
      {
        rounds := rounds + 1;
        OtherThreads(b);
        aep := ScanStep(goal);
      }
    }

    /** adi_ether_netif_lwip_rx_frame. Without memory for the pbuf the container stays busy, with
        nobody to free it; a pbuf that lwIP refuses is freed. */
    method LwipRxFrame(b: nat, memory: bool, accepted: bool, success: bool)
      returns (aep: nat, ghost rounds: nat)
      requires Valid() && b < BUFFS && owner[b] == Worker
      modifies `aePbufHead, `owner, `held, busy, packet
      ensures Valid() && aep < BUFFS && rounds <= BUFFS
      ensures busy[aep] == !(memory && !accepted)
      ensures aep in held <==> memory && accepted
      ensures owner[b] == if busy[aep] then Pbuf(aep) else if success then Driver else Lost
      ensures busy[aep] ==> packet[aep] == b
    {
      aep, rounds := Scan(b);
      packet[aep] := b;
      busy[aep] := true;
      owner := owner[b := Pbuf(aep)];
      if memory {
        held := held + {aep};
        if !accepted {
          var freed := PbufFree(aep, success);
        }
      }
    }

    /** The worker's handling of one received frame: time-stamped frames go to the PTP callback and
        straight back to the driver, 1722 frames to their callback, all others to lwIP. Only a frame of
        the last kind takes a container, and only one that lwIP accepts, or that finds no memory, keeps
        it. */
    method HandleFrame(b: nat, stamped: bool, avtp: bool, registered: bool, memory: bool, accepted: bool, success: bool)
      requires Valid() && b < BUFFS && owner[b] == Worker
      modifies `aePbufHead, `owner, `held, busy, packet
      ensures Valid() && owner[b] != Worker
      ensures stamped || avtp ==>
                && busy[..] == old(busy[..]) && held == old(held)
                && owner == old(owner)[b :=
                     if stamped then (if success then Driver else Lost) else if registered then Avb else Lost]
      ensures !stamped && !avtp ==>
                if memory && !accepted then owner[b] == (if success then Driver else Lost)
                else owner[b].Pbuf? && packet[owner[b].j] == b && (owner[b].j in held <==> memory)
    {
      assert |owner| == BUFFS;
      hide Attached;
      if stamped {
        Read(b, success);
      } else if avtp {
        P1722(b, registered);
      } else {
        var aep, rounds := LwipRxFrame(b, memory, accepted, success);
      }
    }
  }
}
