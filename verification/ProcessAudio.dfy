/** processAudio for a source or sink with its own clock: report for the domain, register the stream,
    and run the domain's routes if this was the last member that the domain waited for. All callers
    are SPORT interrupts, which have one priority, on one core, so that calls do not interleave; the
    tasks that set domains or the routing table run before or after a call. */
module ProcessAudio {
  import opened ClockDomain
  import RouteAudio

  lemma OneBit(a: bv32, b: bv32)
    requires Bit(a) && Bit(b)
    ensures Has(a, b) <==> a == b
  {
  }

  /** With member m's report, the domain is ready if all others had reported before. */
  lemma LastReport(k: Clk, d: nat, m: bv32)
    requires Shape(k) && d < MAX && Bit(m) && Has(k.mask[d], m)
    ensures (forall b :: Bit(b) && Has(k.mask[d], b) ==> Has(Do(k, Report(d, m)).active[d], b))
       <==> AllOthers(k, d, m)
  {
    hide Bit;
    hide Has;
    hide With;
    forall b | Bit(b)
      ensures Has(With(k.active[d], m), b) <==> Has(k.active[d], b) || b == m
    {
      OneBit(m, b);
      HasWith(k.active[d], m, b);
    }
  }

  /** The rendezvous after m's report, made when the clocks were at k0. */
  method Rendezvous(clocks: ClockDomains, ghost k0: Clk, cd: nat, m: bv32) returns (fired: bool)
    requires clocks.Valid() && Shape(k0) && cd < MAX && Bit(m) && Has(k0.mask[cd], m)
    requires clocks.State() == Do(k0, Report(cd, m))
    modifies clocks.clockDomainActive
    ensures clocks.Valid() && clocks.State().mask == k0.mask
    ensures fired <==> AllOthers(k0, cd, m)
    ensures fired ==> clocks.State() == Do(Do(k0, Report(cd, m)), Poll(cd)) && clocks.State().active[cd] == 0
    ensures !fired ==> clocks.State() == Do(k0, Report(cd, m))
    ensures forall d :: 0 <= d < MAX && d != cd ==> clocks.State().active[d] == k0.active[d]
  {
    LastReport(k0, cd, m);
    hide Bit;
    hide Has;
    hide Within;
    fired := clocks.TakeReady(cd);
  }

  /** All members of the domain but m are active. */
  ghost predicate AllOthers(k: Clk, d: nat, m: bv32)
    requires Shape(k) && d < MAX
  {
    forall b :: Bit(b) && Has(k.mask[d], b) && b != m ==> Has(k.active[d], b)
  }

  lemma Masks(k: Clk, d: nat, m: bv32)
    requires Shape(k) && d < MAX
    ensures Do(k, Report(d, m)).mask == k.mask
  {
  }

  method Process(clocks: ClockDomains, router: RouteAudio.Router, mask: bv32, streamID: nat, numChannels: nat,
                 numFrames: nat, wordSize: nat, data: int, flush: bool)
    returns (cd: nat, fired: bool)
    requires clocks.Footprint() !! router.Footprint()
    requires clocks.Valid() && router.Valid() && Disjoint(clocks.State()) && Bit(mask)
    requires exists i :: 0 <= i < MAX && Has(clocks.State().mask[i], mask)
    requires RouteAudio.UNKNOWN < streamID < RouteAudio.STREAMS
    requires data != RouteAudio.NULL ==> data >= 0 && data + numFrames * numChannels <= router.mem.Length
    modifies clocks.clockDomainActive, router, router.mem, router.streams
    ensures clocks.Valid() && router.Valid() && cd < MAX && Has(clocks.State().mask[cd], mask)
    ensures clocks.State().mask == old(clocks.State().mask) && router.routes == old(router.routes)
    ensures fired <==> AllOthers(old(clocks.State()), cd, mask)
    ensures fired ==> clocks.State() == Do(Do(old(clocks.State()), Report(cd, mask)), Poll(cd))
    ensures !fired ==> clocks.State() == Do(old(clocks.State()), Report(cd, mask))
    ensures forall d :: 0 <= d < MAX && d != cd ==> clocks.State().active[d] == old(clocks.State()).active[d]
    ensures var streams := old(router.streams[..])[streamID :=
                RouteAudio.Stream(streamID, numChannels, numFrames, wordSize, cd, flush, data)];
              if fired then
                && router.mem[..] == RouteAudio.RouteAll(old(router.mem[..]), router.routes, streams, cd)
                && (forall i :: 0 <= i < |streams| ==> router.streams[i] == RouteAudio.Dropped(streams[i], cd))
                && clocks.State().active[cd] == 0
              else
                router.mem[..] == old(router.mem[..]) && router.streams[..] == streams
  {
    hide Bit;
    hide Has;
    hide Disjoint;
    hide Do;
    hide AllOthers;
    hide RouteAudio.RouteAll;
    hide RouteAudio.InMemory;
    ghost var k0 := clocks.State();
    cd := clocks.ReportTo(mask);
    Masks(k0, cd, mask);
    router.SetStreamInfo(streamID, numChannels, numFrames, wordSize, cd, data, flush);
    fired := Rendezvous(clocks, k0, cd, mask);
    if fired {
      router.RouteDomain(cd);
    }
  }
}
