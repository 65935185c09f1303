/** The routing of process_audio.c: when a clock domain fires, every route between two of its streams
    copies or mixes a range of channels, sample by sample, and then all streams of the domain are
    dropped. Sample memory is one array of cells, each holding one 16- or 32-bit sample; a stream's
    data is the index of its first cell. */
module RouteAudio {
  import opened Arithmetic

  const UNKNOWN: nat := 0
  const STREAMS: nat := 22
  const NULL: int := -1
  const UINTS: int := 0x1_0000_0000

  datatype Stream = Stream(
    streamID: nat,
    numChannels: nat,
    numFrames: nat,
    wordSize: nat,
    clockDomain: nat,
    flush: bool,
    data: int)

  datatype Route = Route(
    srcID: nat,
    sinkID: nat,
    srcOffset: nat,
    sinkOffset: nat,
    channels: nat,
    attenuation: nat,
    mix: bool)

  // ---------------------------------------------------------------- arithmetic of the samples

  function Wrap32(x: int): int { (x + 0x8000_0000) % 0x1_0000_0000 - 0x8000_0000 }

  function Wrap16(x: int): int { (x + 0x8000) % 0x1_0000 - 0x8000 }

  function Pow2(n: nat): (p: int) ensures p > 0 { if n == 0 then 1 else 2 * Pow2(n - 1) }

  /** Arithmetic shift right: division rounded down. */
  function Shr(x: int, n: nat): int { x / Pow2(n) }

  /** A sample as the 32-bit value the route works on. */
  function Widen(cell: int, wordSize: nat): int { if wordSize == 4 then cell else cell * 0x1_0000 }

  /** What a sink cell becomes. */
  function Put(cell: int, sample: int, wordSize: nat, mix: bool): int {
    if mix then
      if wordSize == 4 then Wrap32(cell + sample) else Wrap16(cell + Shr(sample, 16))
    else
      if wordSize == 4 then sample else Wrap16(Shr(sample, 16))
  }

  lemma Wrap32Adds(x: int, y: int)
    ensures Wrap32(Wrap32(x) + y) == Wrap32(x + y)
  {
    var q := (x + 0x8000_0000) / 0x1_0000_0000;
    assert Wrap32(x) == x - q * 0x1_0000_0000;
  }

  lemma Wrap16Adds(x: int, y: int)
    ensures Wrap16(Wrap16(x) + y) == Wrap16(x + y)
  {
    var q := (x + 0x8000) / 0x1_0000;
    assert Wrap16(x) == x - q * 0x1_0000;
  }

  /** Two contributions to one cell may come in either order. */
  lemma MixCommutes(cell: int, a: int, b: int, wordSize: nat)
    ensures Put(Put(cell, a, wordSize, true), b, wordSize, true)
         == Put(Put(cell, b, wordSize, true), a, wordSize, true)
  {
    hide Wrap32;
    hide Wrap16;
    hide Shr;
    var (x, y) := if wordSize == 4 then (a, b) else (Shr(a, 16), Shr(b, 16));
    Wrap32Adds(cell + x, y);
    Wrap32Adds(cell + y, x);
    Wrap16Adds(cell + x, y);
    Wrap16Adds(cell + y, x);
    assert cell + x + y == cell + y + x;
  }

  // ---------------------------------------------------------------- one route

  function CellOf(s: Stream, frame: nat, channel: nat): int { s.data + (frame * s.numChannels + channel) }

  predicate InStream(s: Stream, x: int) {
    s.numChannels > 0 && s.data <= x < s.data + s.numFrames * s.numChannels
  }

  function FrameOf(s: Stream, x: int): nat
    requires InStream(s, x)
  {
    (x - s.data) / s.numChannels
  }

  function ChannelOf(s: Stream, x: int): nat
    requires InStream(s, x)
  {
    (x - s.data) % s.numChannels
  }

  lemma CellInStream(s: Stream, f: nat, ch: nat)
    requires f < s.numFrames && ch < s.numChannels
    ensures InStream(s, CellOf(s, f, ch))
    ensures FrameOf(s, CellOf(s, f, ch)) == f && ChannelOf(s, CellOf(s, f, ch)) == ch
  {
    MulLe(f + 1, s.numFrames, s.numChannels);
    assert (f + 1) * s.numChannels == f * s.numChannels + s.numChannels;
    Remainder(f * s.numChannels + ch, s.numChannels, f, ch);
  }

  lemma CellFrom(s: Stream, x: int)
    requires InStream(s, x)
    ensures FrameOf(s, x) < s.numFrames && ChannelOf(s, x) < s.numChannels
    ensures CellOf(s, FrameOf(s, x), ChannelOf(s, x)) == x
  {
    var q, n := FrameOf(s, x), s.numChannels;
    assert q * n + ChannelOf(s, x) == x - s.data;
    if q >= s.numFrames {
      MulLe(s.numFrames, q, n);
    }
  }

  predicate InMemory(s: Stream, size: nat) {
    s.data >= 0 && s.data + s.numFrames * s.numChannels <= size
  }

  /** The route's checks on its two streams. */
  predicate Runs(r: Route, streams: seq<Stream>, cd: nat) {
    && r.srcID != UNKNOWN && r.sinkID != UNKNOWN
    && r.srcID < |streams| && r.sinkID < |streams|
    && var (src, sink) := (streams[r.srcID], streams[r.sinkID]);
    && src.data != NULL && sink.data != NULL
    && src.clockDomain == cd && sink.clockDomain == cd
    && src.numFrames == sink.numFrames
    && src.wordSize in {2, 4} && sink.wordSize in {2, 4}
    && r.srcOffset < src.numChannels && r.sinkOffset < sink.numChannels
  }

  /** The streams a route works on, after its checks. */
  ghost predicate Ready(r: Route, src: Stream, sink: Stream, size: nat) {
    && InMemory(src, size) && InMemory(sink, size) && src.numFrames == sink.numFrames
    && r.srcOffset < src.numChannels && r.sinkOffset < sink.numChannels
  }

  lemma CellInMemory(s: Stream, f: nat, ch: nat, size: nat)
    requires InMemory(s, size) && f < s.numFrames && ch < s.numChannels
    ensures 0 <= CellOf(s, f, ch) < size
  {
    CellInStream(s, f, ch);
  }

  /** What channel c of the route reads in frame f: silence beyond the source's channels. */
  ghost function Sample(mem: seq<int>, r: Route, src: Stream, f: nat, c: nat): int
    requires InMemory(src, |mem|) && f < src.numFrames
  {
    var sample :=
      if r.srcOffset + c < src.numChannels then
        CellInMemory(src, f, r.srcOffset + c, |mem|);
        Widen(mem[CellOf(src, f, r.srcOffset + c)], src.wordSize)
      else 0;
    Shr(sample, r.attenuation / 6)
  }

  /** One turn of the inner loop. */
  ghost function Step(mem: seq<int>, r: Route, src: Stream, sink: Stream, f: nat, c: nat): (m: seq<int>)
    requires Ready(r, src, sink, |mem|) && f < src.numFrames
    ensures |m| == |mem|
  {
    if r.sinkOffset + c < sink.numChannels then
      CellInMemory(sink, f, r.sinkOffset + c, |mem|);
      var x := CellOf(sink, f, r.sinkOffset + c);
      mem[x := Put(mem[x], Sample(mem, r, src, f, c), sink.wordSize, r.mix)]
    else mem
  }

  ghost function Channels(mem: seq<int>, r: Route, src: Stream, sink: Stream, f: nat, c: nat): (m: seq<int>)
    requires Ready(r, src, sink, |mem|) && f < src.numFrames
    ensures |m| == |mem|
  {
    if c == 0 then mem else Step(Channels(mem, r, src, sink, f, c - 1), r, src, sink, f, c - 1)
  }

  ghost function Frames(mem: seq<int>, r: Route, src: Stream, sink: Stream, f: nat): (m: seq<int>)
    requires Ready(r, src, sink, |mem|) && f <= src.numFrames
    ensures |m| == |mem|
  {
    if f == 0 then mem else Channels(Frames(mem, r, src, sink, f - 1), r, src, sink, f - 1, r.channels)
  }

  // ---------------------------------------------------------------- the same, sample by sample

  /** The cells a route writes. */
  predicate Hit(r: Route, sink: Stream, x: int) {
    InStream(sink, x) && r.sinkOffset <= ChannelOf(sink, x) < r.sinkOffset + r.channels
  }

  ghost function RoutedCell(mem: seq<int>, r: Route, src: Stream, sink: Stream, x: nat): int
    requires Ready(r, src, sink, |mem|) && x < |mem|
  {
    if Hit(r, sink, x) then
      CellFrom(sink, x);
      Put(mem[x], Sample(mem, r, src, FrameOf(sink, x), ChannelOf(sink, x) - r.sinkOffset), sink.wordSize, r.mix)
    else mem[x]
  }

  predicate Apart(a: Stream, b: Stream) {
    || a.data + a.numFrames * a.numChannels <= b.data
    || b.data + b.numFrames * b.numChannels <= a.data
  }

  /** The cells hit before frame f, channel c are done, all others are as they were. */
  ghost predicate Done(mem0: seq<int>, mem: seq<int>, r: Route, src: Stream, sink: Stream, f: nat, c: nat)
    requires Ready(r, src, sink, |mem0|)
  {
    && |mem| == |mem0|
    && forall x: nat :: x < |mem| ==>
         mem[x] == if Before(r, sink, x, f, c) then RoutedCell(mem0, r, src, sink, x) else mem0[x]
  }

  predicate Before(r: Route, sink: Stream, x: int, f: nat, c: nat) {
    Hit(r, sink, x) && (FrameOf(sink, x) < f || (FrameOf(sink, x) == f && ChannelOf(sink, x) < r.sinkOffset + c))
  }

  /** A source cell is no sink cell. */
  lemma SampleSame(mem0: seq<int>, mem: seq<int>, r: Route, src: Stream, sink: Stream, f: nat, c: nat, f': nat, c': nat)
    requires Ready(r, src, sink, |mem0|) && Apart(src, sink) && Done(mem0, mem, r, src, sink, f, c) && f' < src.numFrames
    ensures Sample(mem, r, src, f', c') == Sample(mem0, r, src, f', c')
  {
    if r.srcOffset + c' < src.numChannels {
      CellInStream(src, f', r.srcOffset + c');
      CellInMemory(src, f', r.srcOffset + c', |mem|);
      var x := CellOf(src, f', r.srcOffset + c');
      assert !InStream(sink, x);
      assert !Before(r, sink, x, f, c);
    }
  }

  lemma DoneStep(mem0: seq<int>, mem: seq<int>, r: Route, src: Stream, sink: Stream, f: nat, c: nat)
    requires Ready(r, src, sink, |mem0|) && Apart(src, sink) && Done(mem0, mem, r, src, sink, f, c)
    requires f < src.numFrames && c < r.channels
    ensures Done(mem0, Step(mem, r, src, sink, f, c), r, src, sink, f, c + 1)
  {
    var ch := r.sinkOffset + c;
    SampleSame(mem0, mem, r, src, sink, f, c, f, c);
    if ch < sink.numChannels {
      CellInStream(sink, f, ch);
      CellInMemory(sink, f, ch, |mem|);
    }
    forall x: nat | x < |mem|
      ensures Step(mem, r, src, sink, f, c)[x]
           == if Before(r, sink, x, f, c + 1) then RoutedCell(mem0, r, src, sink, x) else mem0[x]
    {
      DoneCell(mem0, mem, r, src, sink, f, c, x);
    }
  }

  lemma DoneCell(mem0: seq<int>, mem: seq<int>, r: Route, src: Stream, sink: Stream, f: nat, c: nat, x: nat)
    requires Ready(r, src, sink, |mem0|) && Apart(src, sink) && Done(mem0, mem, r, src, sink, f, c)
    requires f < src.numFrames && c < r.channels && x < |mem|
    requires Sample(mem, r, src, f, c) == Sample(mem0, r, src, f, c)
    ensures Step(mem, r, src, sink, f, c)[x]
         == if Before(r, sink, x, f, c + 1) then RoutedCell(mem0, r, src, sink, x) else mem0[x]
  {
    var ch := r.sinkOffset + c;
    if InStream(sink, x) {
      CellFrom(sink, x);
    }
    if ch < sink.numChannels {
      CellInStream(sink, f, ch);
      CellInMemory(sink, f, ch, |mem|);
    }
    hide CellOf;
    hide FrameOf;
    hide ChannelOf;
    hide InStream;
    hide Put;
    hide Sample;
  }

  lemma {:induction false} ChannelsDone(mem0: seq<int>, mem: seq<int>, r: Route, src: Stream, sink: Stream, f: nat, c: nat)
    requires Ready(r, src, sink, |mem0|) && Apart(src, sink) && Done(mem0, mem, r, src, sink, f, 0)
    requires f < src.numFrames && c <= r.channels
    ensures Done(mem0, Channels(mem, r, src, sink, f, c), r, src, sink, f, c)
  {
    if c > 0 {
      ChannelsDone(mem0, mem, r, src, sink, f, c - 1);
      DoneStep(mem0, Channels(mem, r, src, sink, f, c - 1), r, src, sink, f, c - 1);
    }
  }

  lemma NextFrame(mem0: seq<int>, mem: seq<int>, r: Route, src: Stream, sink: Stream, f: nat)
    requires Ready(r, src, sink, |mem0|) && Done(mem0, mem, r, src, sink, f, r.channels)
    ensures Done(mem0, mem, r, src, sink, f + 1, 0)
  {
    forall x: nat | x < |mem| ensures Before(r, sink, x, f, r.channels) <==> Before(r, sink, x, f + 1, 0) { }
    hide Before;
    hide RoutedCell;
  }

  lemma {:induction false} FramesDone(mem: seq<int>, r: Route, src: Stream, sink: Stream, f: nat)
    requires Ready(r, src, sink, |mem|) && Apart(src, sink) && f <= src.numFrames
    ensures Done(mem, Frames(mem, r, src, sink, f), r, src, sink, f, 0)
  {
    hide Before;
    hide RoutedCell;
    hide Ready;
    hide Apart;
    hide Done;
    if f > 0 {
      FramesDone(mem, r, src, sink, f - 1);
      ChannelsDone(mem, Frames(mem, r, src, sink, f - 1), r, src, sink, f - 1, r.channels);
      NextFrame(mem, Frames(mem, r, src, sink, f), r, src, sink, f - 1);
    } else {
      NothingDone(mem, r, src, sink);
    }
  }

  lemma NothingDone(mem: seq<int>, r: Route, src: Stream, sink: Stream)
    requires Ready(r, src, sink, |mem|)
    ensures Done(mem, mem, r, src, sink, 0, 0)
  {
    forall x: nat | x < |mem| ensures !Before(r, sink, x, 0, 0) { }
    hide Before;
    hide RoutedCell;
  }

  /** When source and sink do not overlap, a route does this to every sample: a cell it hits gets the
      source's sample of the same frame, attenuated, and all other cells keep their values. */
  lemma SampleBySample(mem: seq<int>, r: Route, src: Stream, sink: Stream, x: nat)
    requires Ready(r, src, sink, |mem|) && Apart(src, sink) && x < |mem|
    ensures Frames(mem, r, src, sink, src.numFrames)[x] == RoutedCell(mem, r, src, sink, x)
  {
    FramesDone(mem, r, src, sink, src.numFrames);
    if Hit(r, sink, x) {
      CellFrom(sink, x);
      assert Before(r, sink, x, src.numFrames, 0);
    }
    hide Frames;
    hide RoutedCell;
  }

  /** Whatever overlaps, a cell that the route does not hit keeps its value. */
  lemma {:induction false} ChannelsUntouched(mem: seq<int>, r: Route, src: Stream, sink: Stream, f: nat, c: nat, x: nat)
    requires Ready(r, src, sink, |mem|) && f < src.numFrames && c <= r.channels && x < |mem| && !Hit(r, sink, x)
    ensures Channels(mem, r, src, sink, f, c)[x] == mem[x]
  {
    if c > 0 {
      ChannelsUntouched(mem, r, src, sink, f, c - 1, x);
      if r.sinkOffset + c - 1 < sink.numChannels {
        CellInStream(sink, f, r.sinkOffset + c - 1);
      }
      hide CellOf;
      hide FrameOf;
      hide ChannelOf;
      hide InStream;
    }
  }

  lemma {:induction false} Untouched(mem: seq<int>, r: Route, src: Stream, sink: Stream, f: nat, x: nat)
    requires Ready(r, src, sink, |mem|) && f <= src.numFrames && x < |mem| && !Hit(r, sink, x)
    ensures Frames(mem, r, src, sink, f)[x] == mem[x]
  {
    if f > 0 {
      Untouched(mem, r, src, sink, f - 1, x);
      ChannelsUntouched(Frames(mem, r, src, sink, f - 1), r, src, sink, f - 1, r.channels, x);
    }
  }

  // ---------------------------------------------------------------- all routes

  ghost predicate Known(streams: seq<Stream>, size: nat) {
    && |streams| == STREAMS
    && forall i :: 0 <= i < STREAMS && streams[i].data != NULL ==> InMemory(streams[i], size)
  }

  ghost function After(mem: seq<int>, r: Route, streams: seq<Stream>, cd: nat): (m: seq<int>)
    requires Known(streams, |mem|)
    ensures |m| == |mem|
  {
    if Runs(r, streams, cd) then
      Frames(mem, r, streams[r.srcID], streams[r.sinkID], streams[r.srcID].numFrames)
    else mem
  }

  ghost function RouteAll(mem: seq<int>, routes: seq<Route>, streams: seq<Stream>, cd: nat): (m: seq<int>)
    requires Known(streams, |mem|)
    ensures |m| == |mem|
    decreases |routes|
  {
    if routes == [] then mem else RouteAll(After(mem, routes[0], streams, cd), routes[1..], streams, cd)
  }

  predicate Hits(r: Route, streams: seq<Stream>, cd: nat, x: int) {
    Runs(r, streams, cd) && Hit(r, streams[r.sinkID], x)
  }

  /** Both routes add to the cells they have in common. */
  ghost predicate Compatible(a: Route, b: Route, streams: seq<Stream>, cd: nat) {
    forall x: nat :: Hits(a, streams, cd, x) && Hits(b, streams, cd, x) ==>
      a.mix && b.mix && streams[a.sinkID].wordSize == streams[b.sinkID].wordSize
  }

  ghost predicate NoFeedback(a: Route, b: Route, streams: seq<Stream>, cd: nat) {
    Runs(a, streams, cd) && Runs(b, streams, cd) ==> Apart(streams[a.srcID], streams[b.sinkID])
  }

  /** No source of a running route overlaps a sink, and different routes to a cell all mix. */
  ghost predicate Mixing(routes: seq<Route>, streams: seq<Stream>, cd: nat) {
    && (forall a, b :: a in routes && b in routes ==> NoFeedback(a, b, streams, cd))
    && (forall a, b :: a in routes && b in routes && a != b ==> Compatible(a, b, streams, cd))
  }

  /** What route b reads is not changed by route a. */
  lemma SampleAfter(mem: seq<int>, a: Route, b: Route, streams: seq<Stream>, cd: nat, f: nat, c: nat)
    requires Known(streams, |mem|) && NoFeedback(b, a, streams, cd)
    requires Runs(b, streams, cd) && f < streams[b.srcID].numFrames
    ensures Sample(After(mem, a, streams, cd), b, streams[b.srcID], f, c) == Sample(mem, b, streams[b.srcID], f, c)
  {
    var src := streams[b.srcID];
    if Runs(a, streams, cd) && b.srcOffset + c < src.numChannels {
      CellInStream(src, f, b.srcOffset + c);
      CellInMemory(src, f, b.srcOffset + c, |mem|);
      var x := CellOf(src, f, b.srcOffset + c);
      assert !InStream(streams[a.sinkID], x);
      Untouched(mem, a, streams[a.srcID], streams[a.sinkID], streams[a.srcID].numFrames, x);
    }
  }

  /** What b puts into cell x. */
  ghost function Contribution(mem: seq<int>, r: Route, streams: seq<Stream>, cd: nat, x: nat): int
    requires Known(streams, |mem|) && Hits(r, streams, cd, x)
  {
    var (src, sink) := (streams[r.srcID], streams[r.sinkID]);
    CellFrom(sink, x);
    Sample(mem, r, src, FrameOf(sink, x), ChannelOf(sink, x) - r.sinkOffset)
  }

  lemma AfterCell(mem: seq<int>, r: Route, streams: seq<Stream>, cd: nat, x: nat)
    requires Known(streams, |mem|) && NoFeedback(r, r, streams, cd) && x < |mem|
    ensures After(mem, r, streams, cd)[x]
         == if Hits(r, streams, cd, x)
            then Put(mem[x], Contribution(mem, r, streams, cd, x), streams[r.sinkID].wordSize, r.mix)
            else mem[x]
  {
    if Runs(r, streams, cd) {
      SampleBySample(mem, r, streams[r.srcID], streams[r.sinkID], x);
    }
  }

  lemma ContributionAfter(mem: seq<int>, a: Route, b: Route, streams: seq<Stream>, cd: nat, x: nat)
    requires Known(streams, |mem|) && NoFeedback(b, a, streams, cd) && Hits(b, streams, cd, x)
    ensures Contribution(After(mem, a, streams, cd), b, streams, cd, x) == Contribution(mem, b, streams, cd, x)
  {
    var sink := streams[b.sinkID];
    CellFrom(sink, x);
    SampleAfter(mem, a, b, streams, cd, FrameOf(sink, x), ChannelOf(sink, x) - b.sinkOffset);
  }

  lemma TwoCells(mem: seq<int>, a: Route, b: Route, streams: seq<Stream>, cd: nat, x: nat)
    requires Known(streams, |mem|) && Mixing([a, b], streams, cd) && a != b && x < |mem|
    ensures After(After(mem, a, streams, cd), b, streams, cd)[x] == After(After(mem, b, streams, cd), a, streams, cd)[x]
  {
    assert a in [a, b] && b in [a, b];
    AfterCell(mem, a, streams, cd, x);
    AfterCell(mem, b, streams, cd, x);
    AfterCell(After(mem, a, streams, cd), b, streams, cd, x);
    AfterCell(After(mem, b, streams, cd), a, streams, cd, x);
    if Hits(a, streams, cd, x) {
      ContributionAfter(mem, b, a, streams, cd, x);
    }
    if Hits(b, streams, cd, x) {
      ContributionAfter(mem, a, b, streams, cd, x);
    }
    hide After;
    hide Contribution;
    hide Hits;
    hide Put;
    if Hits(a, streams, cd, x) && Hits(b, streams, cd, x) {
      assert Compatible(a, b, streams, cd);
      MixCommutes(mem[x], Contribution(mem, a, streams, cd, x), Contribution(mem, b, streams, cd, x),
                  streams[a.sinkID].wordSize);
    }
  }

  lemma TwoRoutes(mem: seq<int>, a: Route, b: Route, streams: seq<Stream>, cd: nat)
    requires Known(streams, |mem|) && Mixing([a, b], streams, cd)
    ensures After(After(mem, a, streams, cd), b, streams, cd) == After(After(mem, b, streams, cd), a, streams, cd)
  {
    hide After;
    hide Mixing;
    if a != b {
      forall x: nat | x < |mem|
        ensures After(After(mem, a, streams, cd), b, streams, cd)[x] == After(After(mem, b, streams, cd), a, streams, cd)[x]
      {
        TwoCells(mem, a, b, streams, cd, x);
      }
    }
  }

  lemma {:induction false} RouteFirst(mem: seq<int>, pre: seq<Route>, a: Route, post: seq<Route>,
                                      streams: seq<Stream>, cd: nat)
    requires Known(streams, |mem|) && Mixing(pre + [a], streams, cd)
    ensures RouteAll(mem, pre + [a] + post, streams, cd) == RouteAll(After(mem, a, streams, cd), pre + post, streams, cd)
    decreases |pre|
  {
    hide After;
    if pre == [] {
      assert pre + [a] + post == [a] + post && ([a] + post)[1..] == post && pre + post == post;
    } else {
      var h, t := pre[0], pre[1..];
      assert (pre + [a] + post)[1..] == t + [a] + post && (pre + post)[1..] == t + post;
      assert Mixing(t + [a], streams, cd) by { assert forall r :: r in t + [a] ==> r in pre + [a]; }
      assert Mixing([h, a], streams, cd) by { assert h in pre + [a] && a in pre + [a]; }
      RouteFirst(After(mem, h, streams, cd), t, a, post, streams, cd);
      TwoRoutes(mem, h, a, streams, cd);
    }
  }

  lemma SamePart(a: Route, p: seq<Route>, q: seq<Route>, pre: seq<Route>, post: seq<Route>)
    requires multiset(p) == multiset(q) && p != [] && p[0] == a && q == pre + [a] + post
    ensures multiset(p[1..]) == multiset(pre + post)
  {
    assert p == [a] + p[1..];
    assert multiset(p) == multiset{a} + multiset(p[1..]);
    assert multiset(q) == multiset(pre) + multiset{a} + multiset(post);
    assert multiset(pre + post) == multiset(q) - multiset{a};
    assert multiset(p[1..]) == multiset(p) - multiset{a};
  }

  /** The mix does not depend on the order of the routes. */
  lemma {:induction false} OrderDoesNotMatter(mem: seq<int>, p: seq<Route>, q: seq<Route>, streams: seq<Stream>, cd: nat)
    requires Known(streams, |mem|) && Mixing(p, streams, cd) && multiset(p) == multiset(q)
    ensures RouteAll(mem, p, streams, cd) == RouteAll(mem, q, streams, cd)
    decreases |p|
  {
    if p == [] {
      assert |multiset(q)| == 0;
    } else {
      var a := p[0];
      assert a in multiset(q);
      var i :| 0 <= i < |q| && q[i] == a;
      var pre, post := q[..i], q[i + 1..];
      assert q == pre + [a] + post;
      assert p == [a] + p[1..];
      SamePart(a, p, q, pre, post);
      assert forall r :: r in q ==> r in p by { assert forall r :: r in q ==> r in multiset(p); }
      assert Mixing(pre + [a], streams, cd) by { assert forall r :: r in pre + [a] ==> r in q; }
      assert Mixing(p[1..], streams, cd) by { assert forall r :: r in p[1..] ==> r in p; }
      hide Mixing;
      hide After;
      OrderDoesNotMatter(After(mem, a, streams, cd), p[1..], pre + post, streams, cd);
      RouteFirst(mem, pre, a, post, streams, cd);
    }
  }

  // ---------------------------------------------------------------- what is heard

  /** The values that a cell of this word size can hold. */
  predicate InWord(x: int, wordSize: nat) {
    if wordSize == 4 then -0x8000_0000 <= x < 0x8000_0000 else -0x8000 <= x < 0x8000
  }

  lemma Pow2Of16()
    ensures Pow2(16) == 0x1_0000
  {
    assert Pow2(8) == 256;
    assert Pow2(12) == 4096;
  }

  lemma HalfOfQuotient(x: int, p: int)
    requires p > 0
    ensures x / (2 * p) == x / p / 2
  {
    var q := x / p;
    assert q * p <= x < q * p + p;
    var h := q / 2;
    assert h * (2 * p) == 2 * (h * p);
    assert q == 2 * h || q == 2 * h + 1;
    assert (2 * h) * p == 2 * (h * p);
    assert (2 * h + 1) * p == 2 * (h * p) + p;
    Floor(x, 2 * p, h);
  }

  /** The quotient rounded down is the only one that fits. */
  lemma Floor(x: int, p: int, q: int)
    requires p > 0 && q * p <= x < q * p + p
    ensures x / p == q
  {
    var t := x / p;
    assert t * p <= x < t * p + p;
    if t < q {
      MulLe(t + 1, q, p);
      assert false;
    } else if q < t {
      MulLe(q + 1, t, p);
      assert false;
    }
  }

  lemma ShrHalves(x: int, n: nat)
    ensures Shr(x, n + 1) == Shr(x, n) / 2
  {
    HalfOfQuotient(x, Pow2(n));
  }

  lemma {:induction false} ShrInWord(x: int, n: nat)
    requires InWord(x, 4)
    ensures InWord(Shr(x, n), 4)
  {
    if n > 0 {
      ShrInWord(x, n - 1);
      ShrHalves(x, n - 1);
      hide Shr;
    }
  }

  /** Without attenuation and mix: the same value, or the one scaled to the other word size. */
  lemma PutPlain(cell: int, s: int, from: nat, to: nat)
    requires from in {2, 4} && to in {2, 4} && InWord(s, from)
    ensures var v := Put(cell, Shr(Widen(s, from), 0), to, false);
      if from == to then v == s
      else if from == 2 then v == s * 0x1_0000
      else v * 0x1_0000 <= s < (v + 1) * 0x1_0000
  {
    Pow2Of16();
    assert Pow2(0) == 1;
    hide Pow2;
  }

  /** Every 6 dB halve it, rounded down. */
  lemma PutHalves(cell: int, s: int, from: nat, to: nat, n: nat)
    requires from in {2, 4} && to in {2, 4} && InWord(s, from)
    ensures var w := Widen(s, from);
      Put(cell, Shr(w, n + 1), to, false) == Put(cell, Shr(w, n), to, false) / 2
  {
    var w := Widen(s, from);
    ShrHalves(w, n);
    ShrInWord(w, n);
    var q := Shr(w, n);
    Shr16(q);
    Shr16(q / 2);
    hide Shr;
    HighHalf(q);
    hide Wrap16;
  }

  lemma HighHalf(q: int)
    requires InWord(q, 4)
    ensures Wrap16(q / 0x1_0000) == q / 0x1_0000 && Wrap16(q / 2 / 0x1_0000) == q / 0x1_0000 / 2
  {
    var h := q / 0x1_0000;
    assert -0x8000 <= h < 0x8000;
    assert q / 2 / 0x1_0000 == h / 2;
  }

  lemma Shr16(x: int)
    ensures Shr(x, 16) == x / 0x1_0000
  {
    Pow2Of16();
  }

  /** A mix adds the same contribution, in the arithmetic of the word. */
  lemma PutMixes(cell: int, s: int, to: nat)
    requires InWord(s, 4) && to in {2, 4}
    ensures var (v, p) := (Put(cell, s, to, true), Put(cell, s, to, false));
      InWord(v, to) && (v - cell - p) % (if to == 4 then 0x1_0000_0000 else 0x1_0000) == 0
  {
    var v, p := Put(cell, s, to, true), Put(cell, s, to, false);
    Shr16(s);
    hide Shr;
    if to == 4 {
      Wrapped32(cell + s);
      assert v - cell - p == v - (cell + s);
    } else {
      var q := s / 0x1_0000;
      Wrapped16(cell + q);
      HighHalf(s);
      assert v == Wrap16(cell + q) && p == q;
      assert v - cell - p == v - (cell + q);
    }
    hide *;
  }

  lemma Wrapped16(x: int)
    ensures InWord(Wrap16(x), 2) && (Wrap16(x) - x) % 0x1_0000 == 0
  {
    assert (x + 0x8000) % 0x1_0000 == x + 0x8000 - (x + 0x8000) / 0x1_0000 * 0x1_0000;
  }

  lemma Wrapped32(x: int)
    ensures InWord(Wrap32(x), 4) && (Wrap32(x) - x) % 0x1_0000_0000 == 0
  {
    assert (x + 0x8000_0000) % 0x1_0000_0000 == x + 0x8000_0000 - (x + 0x8000_0000) / 0x1_0000_0000 * 0x1_0000_0000;
  }

  /** All cells of the stream hold values of its word size. */
  ghost predicate Samples(mem: seq<int>, s: Stream) {
    forall y: nat :: y < |mem| && InStream(s, y) ==> InWord(mem[y], s.wordSize)
  }

  /** What the firing of a domain does to channel c of a route in frame f, when the route has two
      streams of this domain with data, equally many frames, and a word size of two or four bytes. */
  lemma Delivered(mem: seq<int>, r: Route, streams: seq<Stream>, cd: nat, f: nat, c: nat)
    requires Known(streams, |mem|) && 0 < r.srcID < STREAMS && 0 < r.sinkID < STREAMS
    requires var (src, sink) := (streams[r.srcID], streams[r.sinkID]);
      && src.data >= 0 && sink.data >= 0 && src.clockDomain == sink.clockDomain == cd
      && src.numFrames == sink.numFrames && src.wordSize in {2, 4} && sink.wordSize in {2, 4}
      && r.srcOffset < src.numChannels && Apart(src, sink) && Samples(mem, src)
      && f < src.numFrames && c < r.channels && r.sinkOffset + c < sink.numChannels
    ensures var (src, sink) := (streams[r.srcID], streams[r.sinkID]);
      var x := sink.data + f * sink.numChannels + r.sinkOffset + c;
      var y := src.data + f * src.numChannels + r.srcOffset + c;
      && 0 <= x < |mem| && (r.srcOffset + c < src.numChannels ==> 0 <= y < |mem|)
      && Hits(r, streams, cd, x)
      && (r.attenuation < 6 && !r.mix ==>
            var s := if r.srcOffset + c < src.numChannels then mem[y] else 0;
            var v := After(mem, r, streams, cd)[x];
            if src.wordSize == sink.wordSize then v == s
            else if src.wordSize == 2 then v == s * 0x1_0000
            else v * 0x1_0000 <= s < (v + 1) * 0x1_0000)
  {
    var src, sink := streams[r.srcID], streams[r.sinkID];
    var s := DeliveredCells(mem, r, streams, cd, f, c);
    var x := CellOf(sink, f, r.sinkOffset + c);
    AfterCell(mem, r, streams, cd, x);
    PutPlain(mem[x], s, src.wordSize, sink.wordSize);
    hide After;
    hide Put;
    hide Shr;
    hide Contribution;
    hide Hits;
    hide Samples;
  }

  lemma DeliveredCells(mem: seq<int>, r: Route, streams: seq<Stream>, cd: nat, f: nat, c: nat) returns (s: int)
    requires Known(streams, |mem|) && r.srcID < STREAMS && r.sinkID < STREAMS && Runs(r, streams, cd)
    requires var (src, sink) := (streams[r.srcID], streams[r.sinkID]);
      Samples(mem, src) && f < src.numFrames && c < r.channels && r.sinkOffset + c < sink.numChannels
    ensures var (src, sink) := (streams[r.srcID], streams[r.sinkID]);
      var (x, y) := (CellOf(sink, f, r.sinkOffset + c), CellOf(src, f, r.srcOffset + c));
      && 0 <= x < |mem| && Hits(r, streams, cd, x) && InWord(s, src.wordSize)
      && (r.srcOffset + c < src.numChannels ==> 0 <= y < |mem|)
      && s == (if r.srcOffset + c < src.numChannels then mem[y] else 0)
      && Contribution(mem, r, streams, cd, x) == Shr(Widen(s, src.wordSize), r.attenuation / 6)
  {
    var src, sink := streams[r.srcID], streams[r.sinkID];
    CellInStream(sink, f, r.sinkOffset + c);
    CellInMemory(sink, f, r.sinkOffset + c, |mem|);
    s := 0;
    if r.srcOffset + c < src.numChannels {
      CellInStream(src, f, r.srcOffset + c);
      CellInMemory(src, f, r.srcOffset + c, |mem|);
      s := mem[CellOf(src, f, r.srcOffset + c)];
    }
    hide Shr;
  }

  /** The source's cell for cell x of the sink, silence beyond its channels. */
  ghost function Heard(mem: seq<int>, r: Route, streams: seq<Stream>, cd: nat, x: nat): int
    requires Known(streams, |mem|) && Hits(r, streams, cd, x)
  {
    var (src, sink) := (streams[r.srcID], streams[r.sinkID]);
    CellFrom(sink, x);
    var c := ChannelOf(sink, x) - r.sinkOffset;
    if r.srcOffset + c < src.numChannels then
      CellInMemory(src, FrameOf(sink, x), r.srcOffset + c, |mem|);
      mem[CellOf(src, FrameOf(sink, x), r.srcOffset + c)]
    else 0
  }

  lemma HeardCell(mem: seq<int>, r: Route, streams: seq<Stream>, cd: nat, x: nat)
    requires Known(streams, |mem|) && Hits(r, streams, cd, x) && Samples(mem, streams[r.srcID])
    ensures var (s, src) := (Heard(mem, r, streams, cd, x), streams[r.srcID]);
      && InWord(s, src.wordSize) && src.wordSize in {2, 4} && streams[r.sinkID].wordSize in {2, 4}
      && Contribution(mem, r, streams, cd, x) == Shr(Widen(s, src.wordSize), r.attenuation / 6)
      && InWord(Contribution(mem, r, streams, cd, x), 4)
  {
    var (src, sink) := (streams[r.srcID], streams[r.sinkID]);
    CellFrom(sink, x);
    var c := ChannelOf(sink, x) - r.sinkOffset;
    if r.srcOffset + c < src.numChannels {
      CellInStream(src, FrameOf(sink, x), r.srcOffset + c);
    }
    ShrInWord(Widen(Heard(mem, r, streams, cd, x), src.wordSize), r.attenuation / 6);
    hide Shr;
  }

  /** Each further 6 dB of attenuation halve what is written, rounded down. */
  lemma SixDecibels(mem: seq<int>, r: Route, streams: seq<Stream>, cd: nat, x: nat)
    requires Known(streams, |mem|) && x < |mem| && Hits(r, streams, cd, x) && NoFeedback(r, r, streams, cd) && !r.mix
    requires Samples(mem, streams[r.srcID])
    ensures After(mem, r.(attenuation := r.attenuation + 6), streams, cd)[x] == After(mem, r, streams, cd)[x] / 2
  {
    var r2 := r.(attenuation := r.attenuation + 6);
    HeardCell(mem, r, streams, cd, x);
    HeardCell(mem, r2, streams, cd, x);
    AfterCell(mem, r, streams, cd, x);
    AfterCell(mem, r2, streams, cd, x);
    assert Heard(mem, r2, streams, cd, x) == Heard(mem, r, streams, cd, x);
    assert r2.attenuation / 6 == r.attenuation / 6 + 1;
    var (src, sink) := (streams[r.srcID], streams[r.sinkID]);
    PutHalves(mem[x], Heard(mem, r, streams, cd, x), src.wordSize, sink.wordSize, r.attenuation / 6);
    hide *;
  }

  /** A mix adds what would have been written, modulo the range of the sink's word. */
  lemma MixAdds(mem: seq<int>, r: Route, streams: seq<Stream>, cd: nat, x: nat)
    requires Known(streams, |mem|) && x < |mem| && Hits(r, streams, cd, x) && NoFeedback(r, r, streams, cd) && r.mix
    requires Samples(mem, streams[r.srcID])
    ensures var (v, p) := (After(mem, r, streams, cd)[x], After(mem, r.(mix := false), streams, cd)[x]);
      var word := streams[r.sinkID].wordSize;
      InWord(v, word) && (v - mem[x] - p) % (if word == 4 then 0x1_0000_0000 else 0x1_0000) == 0
  {
    var r2 := r.(mix := false);
    HeardCell(mem, r, streams, cd, x);
    AfterCell(mem, r, streams, cd, x);
    AfterCell(mem, r2, streams, cd, x);
    assert Contribution(mem, r2, streams, cd, x) == Contribution(mem, r, streams, cd, x);
    PutMixes(mem[x], Contribution(mem, r, streams, cd, x), streams[r.sinkID].wordSize);
    hide *;
  }

  /** A firing changes only sinks that belong to its domain and have data. */
  lemma {:induction false} OtherDomainsKept(mem: seq<int>, routes: seq<Route>, streams: seq<Stream>, cd: nat, x: nat)
    requires Known(streams, |mem|) && x < |mem|
    requires forall i :: 0 < i < STREAMS && streams[i].clockDomain == cd && streams[i].data != NULL ==> !InStream(streams[i], x)
    ensures RouteAll(mem, routes, streams, cd)[x] == mem[x]
    decreases |routes|
  {
    if routes != [] {
      var r := routes[0];
      if Runs(r, streams, cd) {
        Untouched(mem, r, streams[r.srcID], streams[r.sinkID], streams[r.srcID].numFrames, x);
      }
      OtherDomainsKept(After(mem, r, streams, cd), routes[1..], streams, cd, x);
    }
  }

  /** A route of two streams that do not fit together, or one of which has no data or another domain,
      does nothing. */
  lemma Skipped(mem: seq<int>, r: Route, streams: seq<Stream>, cd: nat)
    requires Known(streams, |mem|) && r.srcID < STREAMS && r.sinkID < STREAMS
    requires var (src, sink) := (streams[r.srcID], streams[r.sinkID]);
      || r.srcID == 0 || r.sinkID == 0 || src.data == NULL || sink.data == NULL
      || src.clockDomain != cd || sink.clockDomain != cd || src.numFrames != sink.numFrames
      || src.wordSize !in {2, 4} || sink.wordSize !in {2, 4}
      || r.srcOffset >= src.numChannels || r.sinkOffset >= sink.numChannels
    ensures After(mem, r, streams, cd) == mem
  {
  }

  // ---------------------------------------------------------------- the routing pass

  lemma {:induction false} RouteLast(mem: seq<int>, p: seq<Route>, r: Route, streams: seq<Stream>, cd: nat)
    requires Known(streams, |mem|)
    ensures RouteAll(mem, p + [r], streams, cd) == After(RouteAll(mem, p, streams, cd), r, streams, cd)
    decreases |p|
  {
    hide After;
    if p == [] {
      assert p + [r] == [r] && [r][1..] == [];
    } else {
      assert (p + [r])[1..] == p[1..] + [r];
      RouteLast(After(mem, p[0], streams, cd), p[1..], r, streams, cd);
    }
  }

  predicate InDomain(s: Stream, cd: nat) { s.streamID != UNKNOWN && s.clockDomain == cd }

  function Dropped(s: Stream, cd: nat): Stream {
    if InDomain(s, cd) then s.(streamID := UNKNOWN, data := NULL) else s
  }

  class Router {
    const mem: array<int>
    const streams: array<Stream>
    var routes: seq<Route>

    // Registrations are numbered; the last one of stream i is serial[i].
    ghost var serial: seq<nat>
    ghost var issued: nat
    ghost var routed: set<nat>    // registrations that some firing has used

    ghost function Footprint(): set<object> { {this, mem, streams} }

    ghost predicate Valid()
      reads this, mem, streams
    {
      && Known(streams[..], mem.Length)
      && (forall i :: 0 <= i < |routes| ==>
           && routes[i].srcID < STREAMS && routes[i].sinkID < STREAMS
           && routes[i].srcOffset + routes[i].channels <= UINTS && routes[i].sinkOffset + routes[i].channels <= UINTS)
      && |serial| == STREAMS
      && (forall i :: 0 <= i < STREAMS ==> serial[i] <= issued)
      && (forall n :: n in routed ==> n <= issued)
      && (forall i :: 0 <= i < STREAMS && streams[i].data != NULL ==>
           streams[i].streamID != UNKNOWN && 0 < serial[i] && serial[i] !in routed)
      && (forall i, j :: 0 <= i < j < STREAMS && streams[i].data != NULL && streams[j].data != NULL ==>
           serial[i] != serial[j])
    }

    /** The registrations that a firing of cd may use. */
    ghost function InUse(cd: nat): set<nat>
      requires Valid()
      reads this, mem, streams
    {
      set i | 0 <= i < STREAMS && streams[i].data != NULL && streams[i].clockDomain == cd :: serial[i]
    }

    constructor (cells: nat)
      ensures Valid() && routes == [] && mem.Length == cells && fresh(mem) && fresh(streams)
    {
      mem, streams := new int[cells](_ => 0), new Stream[STREAMS](_ => Stream(UNKNOWN, 0, 0, 0, 0, false, NULL));
      routes, serial, issued, routed := [], seq(STREAMS, _ => 0), 0, {};
    }

    /** setStreamInfo. */
    method SetStreamInfo(streamID: nat, numChannels: nat, numFrames: nat, wordSize: nat, cd: nat, data: int, flush: bool)
      requires Valid() && UNKNOWN < streamID < STREAMS
      requires data != NULL ==> data >= 0 && data + numFrames * numChannels <= mem.Length
      modifies `serial, `issued, streams
      ensures Valid() && issued == old(issued) + 1 && serial == old(serial)[streamID := issued]
      ensures streams[..] ==
              old(streams[..])[streamID := Stream(streamID, numChannels, numFrames, wordSize, cd, flush, data)]
    {
      issued := issued + 1;
      serial := serial[streamID := issued];
      streams[streamID] := Stream(streamID, numChannels, numFrames, wordSize, cd, flush, data);
    }

    /** The two inner loops. */
    method RouteOne(r: Route, src: Stream, sink: Stream)
      requires Ready(r, src, sink, mem.Length)
      requires r.srcOffset + r.channels <= UINTS && r.sinkOffset + r.channels <= UINTS
      modifies mem
      ensures mem[..] == Frames(old(mem[..]), r, src, sink, src.numFrames)
    {
      var inCell, outCell := src.data + r.srcOffset, sink.data + r.sinkOffset;
      var attenuationShift := r.attenuation / 6;
      for frame := 0 to src.numFrames
        invariant inCell == CellOf(src, frame, r.srcOffset) && outCell == CellOf(sink, frame, r.sinkOffset)
        invariant mem[..] == Frames(old(mem[..]), r, src, sink, frame)
      {
        ghost var start := mem[..];
        for channel := 0 to r.channels
          invariant mem[..] == Channels(start, r, src, sink, frame, channel)
        {
          Turn(r, src, sink, frame, channel, inCell, outCell, attenuationShift);
        }
        NextCell(src, frame, r.srcOffset);
        NextCell(sink, frame, r.sinkOffset);
        inCell := inCell + src.numChannels;
        outCell := outCell + sink.numChannels;
      }
    }

    /** The body of the inner loop. */
    method Turn(r: Route, src: Stream, sink: Stream, ghost frame: nat, channel: nat, inCell: int, outCell: int, shift: nat)
      requires Ready(r, src, sink, mem.Length) && frame < src.numFrames && channel < r.channels
      requires r.srcOffset + r.channels <= UINTS && r.sinkOffset + r.channels <= UINTS
      requires inCell == CellOf(src, frame, r.srcOffset) && outCell == CellOf(sink, frame, r.sinkOffset)
      requires shift == r.attenuation / 6
      modifies mem
      ensures mem[..] == Step(old(mem[..]), r, src, sink, frame, channel)
    {
      hide Wrap32;
      hide Wrap16;
      hide Shr;
      hide InStream;
      if (r.sinkOffset + channel) % UINTS < sink.numChannels {
        ghost var m0 := mem[..];
        var sample := 0;
        if (r.srcOffset + channel) % UINTS < src.numChannels {
          CellInMemory(src, frame, r.srcOffset + channel, mem.Length);
          sample := if src.wordSize == 4 then mem[inCell + channel] else mem[inCell + channel] * 0x1_0000;
        }
        sample := Shr(sample, shift);
        assert sample == Sample(m0, r, src, frame, channel);
        hide Sample;
        CellInMemory(sink, frame, r.sinkOffset + channel, mem.Length);
        var x := outCell + channel;
        if r.mix {
          if sink.wordSize == 4 {
            mem[x] := Wrap32(mem[x] + sample);
          } else {
            mem[x] := Wrap16(mem[x] + Shr(sample, 16));
          }
        } else {
          if sink.wordSize == 4 {
            mem[x] := sample;
          } else {
            mem[x] := Wrap16(Shr(sample, 16));
          }
        }
        assert mem[..] == m0[x := Put(m0[x], sample, sink.wordSize, r.mix)];
        hide Put;
      }
    }

    lemma NextCell(s: Stream, f: nat, ch: nat)
      ensures CellOf(s, f + 1, ch) == CellOf(s, f, ch) + s.numChannels
    {
    }

    /** routeAudio: the domain's routes in order, then its streams dropped. No registration is used
        that an earlier firing has already used. */
    method RouteDomain(cd: nat)
      requires Valid()
      modifies mem, streams, `routed
      ensures Valid()
      ensures mem[..] == RouteAll(old(mem[..]), routes, old(streams[..]), cd)
      ensures forall i :: 0 <= i < STREAMS ==> streams[i] == Dropped(old(streams[i]), cd)
      ensures forall i :: 0 <= i < STREAMS && old(streams[i]).clockDomain != cd ==> streams[i] == old(streams[i])
      ensures forall i :: 0 <= i < STREAMS && streams[i].clockDomain == cd ==>
                streams[i].data == NULL && streams[i].streamID == UNKNOWN
      ensures routed == old(routed) + old(InUse(cd)) && old(InUse(cd)) !! old(routed)
      ensures InUse(cd) == {}
    {
      hide RouteAll;
      hide InMemory;
      RunRoutes(cd);
      routed := routed + InUse(cd);
      Invalidate(cd);
    }

    method RunRoutes(cd: nat)
      requires Valid()
      modifies mem
      ensures Valid() && mem[..] == RouteAll(old(mem[..]), routes, streams[..], cd)
    {
      ghost var mem0 := mem[..];
      for i := 0 to |routes|
        invariant mem[..] == RouteAll(mem0, routes[..i], streams[..], cd)
      {
        var route := routes[i];
        RouteLast(mem0, routes[..i], route, streams[..], cd);
        assert routes[..i + 1] == routes[..i] + [route];
        if Runs(route, streams[..], cd) {
          RouteOne(route, streams[route.srcID], streams[route.sinkID]);
        }
      }
      assert routes[..|routes|] == routes;
    }

    method Invalidate(cd: nat)
      requires streams.Length == STREAMS
      modifies streams
      ensures forall i :: 0 <= i < STREAMS ==> streams[i] == Dropped(old(streams[i]), cd)
      ensures forall i :: 0 <= i < STREAMS && old(streams[i]).clockDomain != cd ==> streams[i] == old(streams[i])
      ensures forall i :: 0 <= i < STREAMS && streams[i].clockDomain == cd ==> streams[i].streamID == UNKNOWN
    {
      for i := 0 to STREAMS
        invariant forall j :: 0 <= j < i ==> streams[j] == Dropped(old(streams[j]), cd)
        invariant forall j :: i <= j < STREAMS ==> streams[j] == old(streams[j])
      {
        if streams[i].streamID != UNKNOWN && streams[i].clockDomain == cd {
          streams[i] := streams[i].(streamID := UNKNOWN, data := NULL);
        }
      }
    }
  }
}
