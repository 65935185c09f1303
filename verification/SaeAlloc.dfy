/** The SAE shared heap as its code sees it: tags and the hint word overwritten in place in an
    array of 32-bit words, refining the block list of HeapBlocks.

    A pointer p is the index of the word it points at. Its header is word p - 1 and the footer
    of a block of size words is word p + size - 2. */
module SaeAlloc {
  import opened HeapBlocks

  function Tag(size: nat, free: bool): (w: Word)
    requires size % 2 == 0 && 4 * size < 0x1_0000_0000
    ensures SizeOf(w) == size && IsFree(w) == free
  {
    var half := size / 2;
    assert size == 2 * half;
    8 * half + (if free then 0 else 1)
  }

  ghost predicate Tagged(m: seq<Word>, b: Block)
  {
    && 1 <= b.addr && 2 <= b.size && b.End() <= |m|
    && b.size % 2 == 0 && 4 * b.size < 0x1_0000_0000
    && m[b.addr - 1] == Tag(b.size, b.free)
    && m[b.End() - 2] == Tag(b.size, b.free)
  }

  /** The memory after MARK_BLK. */
  function Marked(m: seq<Word>, b: Block): seq<Word>
    requires 1 <= b.addr && 2 <= b.size && b.End() <= |m|
    requires b.size % 2 == 0 && 4 * b.size < 0x1_0000_0000
  {
    m[b.addr - 1 := Tag(b.size, b.free)][b.End() - 2 := Tag(b.size, b.free)]
  }

  ghost predicate AllTagged(m: seq<Word>, bs: seq<Block>)
  {
    forall i :: 0 <= i < |bs| ==> Tagged(m, bs[i])
  }

  /** The word at LAST_FREE is a byte offset from the heap start; NULL - start wraps. */
  function HintWord(hint: Hint, start: nat): int
  {
    match hint
    case Names(a) => 4 * (a - start)
    case Null => 0x1_0000_0000 - 4 * start
  }

  ghost predicate Fence(m: seq<Word>, start: nat, end: nat)
  {
    && 4 <= start && start % 2 == 0 && end % 2 == 0 && start < end <= |m|
    && 4 * |m| < 0x1_0000_0000
    && m[start - 3] == m[start - 2] == Tag(2, false)
    && m[end - 1] == Tag(0, false)
  }

  /** The words m hold the heap h in [start, end): prologue, epilogue, every header and footer,
      and the hint. */
  ghost predicate Encodes(m: seq<Word>, start: nat, end: nat, h: Heap)
  {
    && Fence(m, start, end)
    && WellFormed(h, start, end)
    && AllTagged(m, h.blocks)
    && m[start - 4] == HintWord(h.hint, start)
  }

  /** ptr - sae_heap_start as the 32-bit word that is stored; ptr 0 is NULL. */
  function OffsetWord(ptr: nat, start: nat): (w: Word)
    requires 4 <= start && 4 * start < 0x1_0000_0000 && 4 * ptr <= 0x1_0000_0000
    requires ptr == 0 || start <= ptr
    ensures w == HintWord(if ptr == 0 then Null else Names(ptr), start)
  {
    (4 * (ptr - start)) % 0x1_0000_0000
  }

  /** The words of a block that belong to its owner. */
  ghost predicate InPayload(x: Block, k: int) { x.addr <= k < x.End() - 2 }

  ghost predicate PayloadKept(m: seq<Word>, m': seq<Word>, live: set<Block>)
    requires |m| == |m'|
  {
    forall x, k :: x in live && InPayload(x, k) && 0 <= k < |m| ==> m'[k] == m[k]
  }

  /** m' differs from m only in the tags and inside of [lo, hi), and in the hint word. */
  ghost predicate OnlyWithin(m: seq<Word>, m': seq<Word>, start: nat, lo: nat, hi: nat)
  {
    && |m| == |m'|
    && forall k :: 0 <= k < |m| && k != start - 4 && !(lo - 1 <= k < hi - 1) ==> m'[k] == m[k]
  }

  /** Following sizes from p reaches an epilogue without leaving the memory. */
  ghost predicate WalkInside(m: seq<Word>, p: nat)
    decreases |m| - p
  {
    && 1 <= p <= |m|
    && (SizeOf(m[p - 1]) > 0 ==> p + SizeOf(m[p - 1]) <= |m| && WalkInside(m, p + SizeOf(m[p - 1])))
  }

  /** Every block met from p on is aligned and has equal header and footer words, and the epilogue
      is marked allocated. */
  ghost predicate WalkOk(m: seq<Word>, p: nat)
    requires WalkInside(m, p)
    decreases |m| - p
  {
    var tag := m[p - 1];
    if SizeOf(tag) == 0 then !IsFree(tag)
    else p % 2 == 0 && m[p + SizeOf(tag) - 2] == tag && WalkOk(m, p + SizeOf(tag))
  }

  ghost predicate Intact(m: seq<Word>, start: nat)
    requires 4 <= start && WalkInside(m, start) && SizeOf(m[start - 2]) < start
  {
    && SizeOf(m[start - SizeOf(m[start - 2]) - 1]) == 2 && !IsFree(m[start - SizeOf(m[start - 2]) - 1])
    && WalkOk(m, start)
  }

  lemma {:induction false} TiledWalk(m: seq<Word>, bs: seq<Block>, p: nat, end: nat)
    requires Tiles(bs, p, end) && AllTagged(m, bs) && 1 <= p && p % 2 == 0
    requires 1 <= end <= |m| && m[end - 1] == Tag(0, false)
    ensures WalkInside(m, p) && WalkOk(m, p)
    decreases |bs|
  {
    TilesOrder(bs, p, end);
    if bs != [] {
      assert Tagged(m, bs[0]);
      TiledWalk(m, bs[1..], bs[0].End(), end);
    }
  }

  /** Every heap that malloc and free produce passes the heap check. */
  lemma EncodedIsIntact(m: seq<Word>, start: nat, end: nat, h: Heap)
    requires Encodes(m, start, end, h)
    ensures 4 <= start && WalkInside(m, start) && SizeOf(m[start - 2]) < start && Intact(m, start)
  {
    TiledWalk(m, h.blocks, start, end);
  }

  /** at[i] is a block whose size leads to at[i + 1]. */
  ghost predicate Next(m: seq<Word>, at: seq<nat>, i: nat)
    requires i + 1 < |at|
  {
    1 <= at[i] < at[i + 1] <= |m| && at[i + 1] == at[i] + SizeOf(m[at[i] - 1])
  }

  /** at are the addresses that following sizes leads to, the epilogue last. */
  ghost predicate LeadsTo(m: seq<Word>, at: seq<nat>)
  {
    && |at| > 0 && (forall i: nat :: i < |at| ==> 1 <= at[i] <= |m|) && (forall i: nat :: i + 1 < |at| ==> Next(m, at, i))
    && SizeOf(m[at[|at| - 1] - 1]) == 0
  }

  ghost predicate Sound(m: seq<Word>, at: seq<nat>, i: nat)
    requires i + 1 < |at| && Next(m, at, i)
  {
    at[i] % 2 == 0 && m[at[i + 1] - 2] == m[at[i] - 1]
  }

  lemma {:induction false} WalkMeans(m: seq<Word>, at: seq<nat>, k: nat)
    requires LeadsTo(m, at) && k < |at|
    ensures WalkInside(m, at[k])
    ensures WalkOk(m, at[k]) <==>
      (forall i: nat :: k <= i && i + 1 < |at| ==> Sound(m, at, i)) && !IsFree(m[at[|at| - 1] - 1])
    decreases |at| - k
  {
    if k + 1 < |at| {
      WalkMeans(m, at, k + 1);
      assert Next(m, at, k);
      WalkOne(m, at[k]);
      assert WalkOk(m, at[k]) <==> Sound(m, at, k) && WalkOk(m, at[k + 1]);
      hide SizeOf;
      hide IsFree;
      hide WalkOk;
      hide WalkInside;
    } else {
      assert at[k] == at[|at| - 1];
    }
  }

  lemma WalkOne(m: seq<Word>, p: nat)
    requires 1 <= p <= |m| && SizeOf(m[p - 1]) > 0
    requires p + SizeOf(m[p - 1]) <= |m| && WalkInside(m, p + SizeOf(m[p - 1]))
    ensures WalkInside(m, p)
    ensures var q := p + SizeOf(m[p - 1]); WalkOk(m, p) <==> p % 2 == 0 && m[q - 2] == m[p - 1] && WalkOk(m, q)
  {
  }

  /** The check finds every damage to the tags but one that leads the walk out of the memory: it
      succeeds exactly if the prologue is in place, every block aligned, every header equal to its
      footer, and the epilogue marked allocated. */
  lemma IntactMeans(m: seq<Word>, at: seq<nat>)
    requires LeadsTo(m, at) && 4 <= at[0] && SizeOf(m[at[0] - 2]) < at[0]
    ensures WalkInside(m, at[0])
    ensures Intact(m, at[0]) <==>
      && SizeOf(m[at[0] - SizeOf(m[at[0] - 2]) - 1]) == 2 && m[at[0] - SizeOf(m[at[0] - 2]) - 1] % 2 == 1
      && (forall i: nat :: i + 1 < |at| ==> Sound(m, at, i))
      && m[at[|at| - 1] - 1] % 2 == 1
  {
    WalkMeans(m, at, 0);
    hide WalkOk;
  }

  lemma TaggedFrame(m: seq<Word>, m': seq<Word>, bs: seq<Block>, lo: nat, hi: nat)
    requires Tiles(bs, lo, hi) && AllTagged(m, bs) && |m| == |m'|
    requires forall k :: 0 <= k < |m| && lo - 1 <= k < hi - 1 ==> m'[k] == m[k]
    ensures AllTagged(m', bs)
  {
    forall i | 0 <= i < |bs| ensures Tagged(m', bs[i]) {
      TilesInside(bs, lo, hi, i);
      assert Tagged(m, bs[i]);
    }
  }

  /** Replacing the middle of a tagged block list. */
  lemma TaggedReplace(m: seq<Word>, m': seq<Word>, start: nat, end: nat,
                      left: seq<Block>, mid: seq<Block>, right: seq<Block>, lo: nat, hi: nat)
    requires 4 <= start <= lo <= hi && OnlyWithin(m, m', start, lo, hi)
    requires Tiles(left, start, lo) && Tiles(right, hi, end)
    requires AllTagged(m, left) && AllTagged(m, right) && AllTagged(m', mid)
    ensures AllTagged(m', left + mid + right)
  {
    TaggedFrame(m, m', left, start, lo);
    TaggedFrame(m, m', right, hi, end);
  }

  lemma OutsideKeepsPayload(m: seq<Word>, m': seq<Word>, start: nat, lo: nat, hi: nat, live: set<Block>)
    requires OnlyWithin(m, m', start, lo, hi)
    requires forall x :: x in live ==> start <= x.addr && (x.End() <= lo || hi <= x.addr)
    ensures PayloadKept(m, m', live)
  {
  }

  /** Live blocks other than lo to hi lie outside of what those occupy. */
  lemma LiveAround(bs: seq<Block>, start: nat, end: nat, lo: nat, hi: nat, x: Block)
    requires Tiles(bs, start, end) && lo < hi <= |bs| && x in Live(bs) && x !in Live(bs[lo..hi])
    ensures start <= x.addr && (x.End() <= bs[lo].addr || bs[hi - 1].End() <= x.addr)
  {
    var j :| 0 <= j < |bs| && !bs[j].free && bs[j] == x;
    TilesInside(bs, start, end, j);
    if j < lo {
      BlocksDisjoint(bs, start, end, j, lo);
    } else if j >= hi {
      BlocksDisjoint(bs, start, end, hi - 1, j);
    } else {
      assert false;
    }
  }

  /** Re-tagging blocks lo to hi as mid, writing nowhere else but in the hint. */
  lemma Retagged(m: seq<Word>, m': seq<Word>, start: nat, end: nat,
                 bs: seq<Block>, lo: nat, hi: nat, mid: seq<Block>)
    requires Fence(m, start, end) && Tiles(bs, start, end) && AllTagged(m, bs) && lo < hi <= |bs|
    requires OnlyWithin(m, m', start, bs[lo].addr, bs[hi - 1].End())
    requires AllTagged(m', mid)
    ensures Fence(m', start, end)
    ensures AllTagged(m', bs[..lo] + mid + bs[hi..])
    ensures PayloadKept(m, m', Live(bs) - Live(bs[lo..hi]))
  {
    hide Live;
    hide Tagged;
    var u, v := bs[lo].addr, bs[hi - 1].End();
    TilesSplit(bs, start, end, lo);
    TilesSplit(bs, start, end, hi);
    TilesOrder(bs[..lo], start, u);
    TilesOrder(bs[hi..], v, end);
    if lo < hi - 1 { BlocksDisjoint(bs, start, end, lo, hi - 1); }
    TaggedReplace(m, m', start, end, bs[..lo], mid, bs[hi..], u, v);
    forall x | x in Live(bs) - Live(bs[lo..hi]) ensures start <= x.addr && (x.End() <= u || v <= x.addr) {
      LiveAround(bs, start, end, lo, hi, x);
    }
    OutsideKeepsPayload(m, m', start, u, v, Live(bs) - Live(bs[lo..hi]));
  }

  lemma LiveOne(b: Block)
    ensures b.free ==> Live([b]) == {}
  {
  }

  /** The tag writes of an allocation turn an encoding of h into one of the placed heap. */
  lemma TakeEncodes(m: seq<Word>, m': seq<Word>, start: nat, end: nat, h: Heap, i: nat, need: nat)
    requires Encodes(m, start, end, h) && i < |h.blocks| && h.blocks[i].Fits(need)
    requires need >= 4 && need % 2 == 0
    requires var b := h.blocks[i];
      && OnlyWithin(m, m', start, b.addr, b.End())
      && Tagged(m', Placed(h.blocks, i, need))
      && (b.size >= need + 4 ==> Tagged(m', Block(b.addr + need, b.size - need, true)))
      && m'[start - 4] == HintWord(if b.size >= need + 4 then Names(b.addr + need) else Null, start)
    ensures var b := h.blocks[i];
      Encodes(m', start, end,
              Heap(Place(h.blocks, i, need), if b.size >= need + 4 then Names(b.addr + need) else Null))
    ensures PayloadKept(m, m', Live(h.blocks))
  {
    var bs, b := h.blocks, h.blocks[i];
    var mid := PlaceMiddle(bs, i, need);
    PlacedWellFormed(bs, start, end, i, need);
    LiveOne(b);
    hide WellFormed;
    hide Tiles;
    hide Place;
    hide Live;
    hide Tagged;
    hide OnlyWithin;
    hide PayloadKept;
    Retagged(m, m', start, end, bs, i, i + 1, mid);
  }

  /** What takes the place of block i. */
  function PlaceMiddle(bs: seq<Block>, i: nat, need: nat): seq<Block>
    requires i < |bs|
  {
    var b := bs[i];
    if b.size >= need + 4 then [Placed(bs, i, need), Block(b.addr + need, b.size - need, true)]
    else [Placed(bs, i, need)]
  }

  lemma PlacedWellFormed(bs: seq<Block>, start: nat, end: nat, i: nat, need: nat)
    requires Tiles(bs, start, end) && i < |bs| && bs[i].Fits(need) && need >= 4 && need % 2 == 0
    ensures Place(bs, i, need) == bs[..i] + PlaceMiddle(bs, i, need) + bs[i + 1..] && bs[i..i + 1] == [bs[i]]
    ensures var b := bs[i];
      WellFormed(Heap(Place(bs, i, need), if b.size >= need + 4 then Names(b.addr + need) else Null), start, end)
  {
    PlaceKeeps(bs, start, end, i, need);
    TilesInside(bs, start, end, i);
    hide Tiles;
    if bs[i].size >= need + 4 {
      assert IsBlock(Place(bs, i, need), i + 1, bs[i].addr + need);
    }
  }

  function SplitTags(m: seq<Word>, start: nat, b: Block, need: nat): seq<Word>
    requires 4 <= start <= b.addr && need < b.size && b.End() <= |m| && need >= 2
    requires 4 * |m| < 0x1_0000_0000 && need % 2 == 0 && b.size % 2 == 0 && 2 <= b.size - need
  {
    Marked(Marked(m, Block(b.addr, need, false)), Block(b.addr + need, b.size - need, true))
      [start - 4 := OffsetWord(b.addr + need, start)]
  }

  function WholeTags(m: seq<Word>, start: nat, b: Block): seq<Word>
    requires 4 <= start <= b.addr && 2 <= b.size && b.End() <= |m|
    requires 4 * |m| < 0x1_0000_0000 && b.size % 2 == 0
  {
    Marked(m, b.(free := false))[start - 4 := OffsetWord(0, start)]
  }

  lemma WholeWrites(m: seq<Word>, start: nat, b: Block)
    requires 4 <= start <= b.addr && 4 <= b.size && b.End() <= |m|
    requires 4 * |m| < 0x1_0000_0000 && b.size % 2 == 0
    ensures var m' := WholeTags(m, start, b);
      && OnlyWithin(m, m', start, b.addr, b.End())
      && Tagged(m', b.(free := false))
      && m'[start - 4] == HintWord(Null, start)
  {
  }

  lemma SplitWrites(m: seq<Word>, start: nat, b: Block, need: nat)
    requires 4 <= start <= b.addr && 4 <= need && need + 4 <= b.size && b.End() <= |m|
    requires 4 * |m| < 0x1_0000_0000 && need % 2 == 0 && b.size % 2 == 0
    ensures var m' := SplitTags(m, start, b, need);
      && OnlyWithin(m, m', start, b.addr, b.End())
      && Tagged(m', Block(b.addr, need, false))
      && Tagged(m', Block(b.addr + need, b.size - need, true))
      && m'[start - 4] == HintWord(Names(b.addr + need), start)
  {
  }

  /** The memory after free has marked the tags of block b. */
  function Flagged(m: seq<Word>, b: Block): seq<Word>
    requires 1 <= b.addr && 2 <= b.size && b.End() <= |m|
    requires b.size % 2 == 0 && 4 * b.size < 0x1_0000_0000
  {
    Marked(m, b.(free := true))
  }

  /** A live block i of an encoded heap. */
  ghost predicate LiveAt(m: seq<Word>, start: nat, end: nat, h: Heap, i: nat)
  {
    Encodes(m, start, end, h) && i < |h.blocks| && !h.blocks[i].free
  }

  lemma BlockTagged(m: seq<Word>, start: nat, end: nat, h: Heap, i: nat)
    requires Encodes(m, start, end, h) && i < |h.blocks|
    ensures Tagged(m, h.blocks[i]) && start <= h.blocks[i].addr && h.blocks[i].End() <= end
    ensures h.blocks[i].size >= 4 && h.blocks[i].addr % 2 == 0
    ensures 4 <= start < end <= |m| && 4 * |m| < 0x1_0000_0000
  {
    TilesInside(h.blocks, start, end, i);
  }

  /** What coalescing reads below block i: the footer of its left neighbour, or the prologue. */
  lemma LeftNeighbour(m: seq<Word>, start: nat, end: nat, h: Heap, i: nat)
    requires LiveAt(m, start, end, h, i)
    ensures var (bs, p) := (h.blocks, h.blocks[i].addr);
      && 4 <= start <= p <= |m|
      && if i > 0 then
           && p - SizeOf(m[p - 2]) == bs[i - 1].addr >= start && m[bs[i - 1].addr - 1] == m[p - 2]
           && SizeOf(m[p - 2]) == bs[i - 1].size >= 4 && IsFree(m[p - 2]) == bs[i - 1].free
         else
           p - SizeOf(m[p - 2]) == start - 2 && !IsFree(m[start - 3])
  {
    hide Tiles;
    BlockTagged(m, start, end, h, i);
    TilesInside(h.blocks, start, end, i);
    if i > 0 {
      TilesSplit(h.blocks, start, end, i);
      TilesInside(h.blocks, start, end, i - 1);
      assert Tagged(m, h.blocks[i - 1]);
    }
  }

  /** What coalescing reads above block i: the header of its right neighbour, or the epilogue. */
  lemma RightNeighbour(m: seq<Word>, start: nat, end: nat, h: Heap, i: nat)
    requires LiveAt(m, start, end, h, i)
    ensures var (bs, q) := (h.blocks, h.blocks[i].End());
      && 4 <= q <= end <= |m|
      && if i + 1 < |bs| then
           && q == bs[i + 1].addr && q + bs[i + 1].size <= end && bs[i + 1].size >= 4
           && SizeOf(m[q - 1]) == bs[i + 1].size && IsFree(m[q - 1]) == bs[i + 1].free
         else !IsFree(m[q - 1])
  {
    hide Tiles;
    BlockTagged(m, start, end, h, i);
    TilesSplit(h.blocks, start, end, i + 1);
    if i + 1 < |h.blocks| {
      TilesInside(h.blocks, start, end, i + 1);
      assert Tagged(m, h.blocks[i + 1]);
    }
  }

  /** The tags of the merged block are in place in m', and nothing else below or above it changed. */
  ghost predicate MergeWritten(m: seq<Word>, m': seq<Word>, start: nat, h: Heap, i: nat)
    requires i < |h.blocks|
  {
    var f := Merged(h.blocks, i);
    && OnlyWithin(m, m', start, f.addr, f.End()) && Tagged(m', f)
    && 4 <= start <= |m| && m'[start - 4] == m[start - 4]
    // stale header of an absorbed right neighbour
    && (Hi(h.blocks, i) > i + 1 ==>
          var k := h.blocks[i].End() - 1; 0 <= k < |m| && m'[k] == m[k])
  }

  /** Where the merged block lies, and that its tags do not overwrite the right neighbour's header. */
  lemma MergedBounds(m: seq<Word>, start: nat, end: nat, h: Heap, i: nat)
    requires LiveAt(m, start, end, h, i)
    ensures var (b, f) := (h.blocks[i], Merged(h.blocks, i));
      && 4 <= start <= f.addr <= b.addr && b.End() <= f.End() <= end <= |m| && 4 * |m| < 0x1_0000_0000
      && b.size >= 4 && b.size % 2 == 0 && f.size % 2 == 0 && f.free
      && (Hi(h.blocks, i) > i + 1 ==> b.End() + 4 <= f.End())
      && (Lo(h.blocks, i) == i && Hi(h.blocks, i) == i + 1 ==> f == b.(free := true))
  {
    BlockTagged(m, start, end, h, i);
    MergedBlock(h.blocks, start, end, i);
    hide Encodes;
    hide Merged;
  }

  lemma MergedBlock(bs: seq<Block>, start: nat, end: nat, i: nat)
    requires Tiles(bs, start, end) && i < |bs| && !bs[i].free
    ensures var (b, f) := (bs[i], Merged(bs, i));
      && start <= f.addr <= b.addr && b.End() <= f.End() <= end
      && b.size % 2 == 0 && f.size % 2 == 0 && f.free
      && (Hi(bs, i) > i + 1 ==> b.End() + 4 <= f.End())
      && (Lo(bs, i) == i && Hi(bs, i) == i + 1 ==> f == b.(free := true))
  {
    MergedSpan(bs, start, end, i);
    TilesInside(bs, start, end, i);
    TilesOrder(bs[..Lo(bs, i)], start, Merged(bs, i).addr);
    TilesOrder(bs[Hi(bs, i)..], Merged(bs, i).End(), end);
    if Hi(bs, i) > i + 1 {
      TilesInside(bs, start, end, i + 1);
      BlocksDisjoint(bs, start, end, i, i + 1);
    }
    hide Tiles;
  }

  /** What coalescing reads after free's first mark. */
  lemma Neighbours(m: seq<Word>, start: nat, end: nat, h: Heap, i: nat)
    requires LiveAt(m, start, end, h, i)
    ensures var (bs, b, f) := (h.blocks, h.blocks[i], Merged(h.blocks, i));
      && 4 <= start <= b.addr && 4 <= b.size && b.size % 2 == 0 && b.End() <= end <= |m| && 4 * |m| < 0x1_0000_0000
      && var m' := Flagged(m, b);
         var prev, next := b.addr - SizeOf(m'[b.addr - 2]), b.End();
      && SizeOf(m'[b.addr - 1]) == b.size
      && 0 < prev < b.addr && IsFree(m'[prev - 1]) == (Lo(bs, i) < i) && IsFree(m'[next - 1]) == (Hi(bs, i) > i + 1)
      && f.addr == (if Lo(bs, i) < i then prev else b.addr)
      && f.size == (if Lo(bs, i) < i then SizeOf(m'[prev - 1]) else 0) + b.size
                   + (if Hi(bs, i) > i + 1 then SizeOf(m'[next - 1]) else 0)
      && f.free && f.End() <= |m| && f.size % 2 == 0
  {
    hide Encodes;
    BlockTagged(m, start, end, h, i);
    LeftNeighbour(m, start, end, h, i);
    RightNeighbour(m, start, end, h, i);
    MergedBounds(m, start, end, h, i);
  }

  /** free's two marks, of the block and of what it merged into, leave MergeWritten memory. */
  lemma MarksMerge(m: seq<Word>, start: nat, end: nat, h: Heap, i: nat)
    requires LiveAt(m, start, end, h, i)
    ensures var (b, f) := (h.blocks[i], Merged(h.blocks, i));
      && 4 <= start <= f.addr <= b.addr && b.End() <= f.End() <= |m| && 4 * |m| < 0x1_0000_0000
      && b.size >= 4 && b.size % 2 == 0 && f.size % 2 == 0
      && MergeWritten(m, Flagged(Flagged(m, b), f), start, h, i)
      && (Lo(h.blocks, i) == i && Hi(h.blocks, i) == i + 1 ==> MergeWritten(m, Flagged(m, b), start, h, i))
  {
    hide Encodes;
    hide Merged;
    MergedBounds(m, start, end, h, i);
  }

  /** The header of a free block k after block i was merged: unchanged, even when k was absorbed
      from the right, unless k is the block that now starts the merged one. */
  lemma HeaderAfterMerge(m: seq<Word>, m': seq<Word>, start: nat, end: nat, h: Heap, i: nat, k: nat)
    requires LiveAt(m, start, end, h, i) && MergeWritten(m, m', start, h, i)
    requires k < |h.blocks| && h.blocks[k].free
    ensures var (a, f) := (h.blocks[k].addr, Merged(h.blocks, i));
      && start <= a <= |m|
      && IsFree(m'[a - 1])
      && SizeOf(m'[a - 1]) == (if a == f.addr then f.size else h.blocks[k].size)
      && (a == f.addr ==> h.blocks[k].size < f.size)
  {
    if k + 1 < i || k > i + 1 {
      FarHeader(m, m', start, end, h, i, k);
    } else {
      NearHeader(m, m', start, end, h, i, k);
    }
  }

  lemma FarFromMerged(bs: seq<Block>, start: nat, end: nat, i: nat, k: nat)
    requires Tiles(bs, start, end) && i < |bs| && !bs[i].free && k < |bs| && (k + 1 < i || k > i + 1)
    ensures bs[k].size > 0 && (bs[k].End() <= Merged(bs, i).addr || Merged(bs, i).End() <= bs[k].addr)
    ensures Merged(bs, i).addr < Merged(bs, i).End()
  {
    MergedSpan(bs, start, end, i);
    TilesInside(bs, start, end, k);
    if k + 1 < i {
      BlocksDisjoint(bs, start, end, k, Lo(bs, i));
    } else {
      BlocksDisjoint(bs, start, end, Hi(bs, i) - 1, k);
    }
    hide Tiles;
  }

  lemma FarHeader(m: seq<Word>, m': seq<Word>, start: nat, end: nat, h: Heap, i: nat, k: nat)
    requires LiveAt(m, start, end, h, i) && MergeWritten(m, m', start, h, i)
    requires k < |h.blocks| && h.blocks[k].free && (k + 1 < i || k > i + 1)
    ensures var (a, f) := (h.blocks[k].addr, Merged(h.blocks, i));
      start <= a <= |m| && a != f.addr && m'[a - 1] == m[a - 1] && m[a - 1] == Tag(h.blocks[k].size, true)
  {
    FarFromMerged(h.blocks, start, end, i, k);
    BlockTagged(m, start, end, h, k);
    hide Encodes;
    hide Merged;
  }

  lemma NearHeader(m: seq<Word>, m': seq<Word>, start: nat, end: nat, h: Heap, i: nat, k: nat)
    requires LiveAt(m, start, end, h, i) && MergeWritten(m, m', start, h, i)
    requires k < |h.blocks| && h.blocks[k].free && (k + 1 == i || k == i + 1)
    ensures var (a, f) := (h.blocks[k].addr, Merged(h.blocks, i));
      && start <= a <= |m|
      && (if k < i then a == f.addr else a > f.addr && m'[a - 1] == m[a - 1])
      && m[a - 1] == Tag(h.blocks[k].size, true) && h.blocks[k].size < f.size && m'[f.addr - 1] == Tag(f.size, true)
  {
    hide Encodes;
    BlockTagged(m, start, end, h, k);
    MergedBounds(m, start, end, h, i);
    LeftNeighbour(m, start, end, h, i);
    RightNeighbour(m, start, end, h, i);
  }

  lemma BelowAbove(m: seq<Word>, start: nat, end: nat, h: Heap, i: nat, j: nat)
    requires Encodes(m, start, end, h) && i < j < |h.blocks|
    ensures h.blocks[i].End() <= h.blocks[j].addr
  {
    BlocksDisjoint(h.blocks, start, end, i, j);
  }

  lemma HintedBlock(m: seq<Word>, start: nat, end: nat, h: Heap)
    requires Encodes(m, start, end, h) && h.hint.Names?
    ensures var k := Find(h.blocks, h.hint.addr);
      k < |h.blocks| && h.blocks[k].addr == h.hint.addr && h.blocks[k].free
    ensures 4 <= start < |m| && 4 * |m| < 0x1_0000_0000 && m[start - 4] == 4 * (h.hint.addr - start)
    ensures start <= h.hint.addr < |m|
  {
    var k :| IsBlock(h.blocks, k, h.hint.addr) && h.blocks[k].free;
    FindBlock(h.blocks, start, end, k);
    TilesInside(h.blocks, start, end, k);
  }

  lemma NullHint(m: seq<Word>, start: nat, end: nat, h: Heap)
    requires Encodes(m, start, end, h) && h.hint.Null?
    ensures 4 <= start < |m| && 4 * |m| < 0x1_0000_0000 && m[start - 4] == 0x1_0000_0000 - 4 * start
  {
  }

  lemma MergedHeader(m: seq<Word>, m': seq<Word>, start: nat, end: nat, h: Heap, i: nat)
    requires LiveAt(m, start, end, h, i) && MergeWritten(m, m', start, h, i)
    ensures var f := Merged(h.blocks, i);
      4 <= start <= f.addr < |m'| && 4 * |m'| < 0x1_0000_0000 && SizeOf(m'[f.addr - 1]) == f.size
  {
    hide Encodes;
    hide Merged;
    MergedBounds(m, start, end, h, i);
  }

  /** The hint moves exactly when the merged block's header is larger than the hinted one's. */
  lemma NamedHint(m: seq<Word>, m': seq<Word>, start: nat, end: nat, h: Heap, i: nat, below: Word)
    requires LiveAt(m, start, end, h, i) && MergeWritten(m, m', start, h, i) && h.hint.Names?
    ensures var (a, f) := (h.hint.addr, Merged(h.blocks, i));
      && |m'| == |m| && 4 <= start <= a < |m| && 4 * |m| < 0x1_0000_0000 && m'[start - 4] == 4 * (a - start)
      && IsFree(m'[a - 1])
      && (if f.size > SizeOf(m'[a - 1]) then Free(h, i, below).hint == Names(f.addr)
          else Free(h, i, below).hint == Names(a))
  {
    hide Merged;
    HintedBlock(m, start, end, h);
    hide Encodes;
    hide Tagged;
    hide Lo;
    hide Hi;
    hide Release;
    HeaderAfterMerge(m, m', start, end, h, i, Find(h.blocks, h.hint.addr));
  }

  /** The same with no hint, where the word below address 0 stands for the hinted header. */
  lemma NullMoves(m: seq<Word>, m': seq<Word>, start: nat, h: Heap, i: nat, below: Word)
    requires i < |h.blocks| && MergeWritten(m, m', start, h, i) && h.hint.Null?
    ensures var f := Merged(h.blocks, i);
      && |m'| == |m| && 4 <= start <= |m| && m'[start - 4] == m[start - 4]
      && Free(h, i, below).hint == if f.size > SizeOf(below) || !IsFree(below) then Names(f.addr) else Null
  {
    hide Merged;
    hide Release;
    hide Tagged;
  }

  lemma MergedHint(m: seq<Word>, m': seq<Word>, start: nat, end: nat, h: Heap, i: nat, below: Word)
    requires LiveAt(m, start, end, h, i) && MergeWritten(m, m', start, h, i)
    ensures var (f, hint) := (Merged(h.blocks, i), h.hint);
      && 4 <= start <= f.addr < |m'| && 4 * |m'| < 0x1_0000_0000 && m'[start - 4] == HintWord(hint, start)
      && (hint.Names? ==> start <= hint.addr < |m'|)
      && var l := if hint.Names? then m'[hint.addr - 1] else below;
         HintWord(Free(h, i, below).hint, start)
           == if SizeOf(m'[f.addr - 1]) > SizeOf(l) || !IsFree(l) then OffsetWord(f.addr, start) else m'[start - 4]
  {
    MergedHeader(m, m', start, end, h, i);
    if h.hint.Names? {
      NamedHint(m, m', start, end, h, i, below);
    } else {
      NullHint(m, start, end, h);
      NullMoves(m, m', start, h, i, below);
    }
    hide LiveAt;
    hide MergeWritten;
    hide Free;
    hide Merged;
    hide SizeOf;
    hide IsFree;
  }

  /** Any hint written after a merge leaves the tags of the merged block as they are. */
  lemma HintKeeps(m: seq<Word>, m': seq<Word>, start: nat, end: nat, h: Heap, i: nat, w: Word)
    requires LiveAt(m, start, end, h, i) && MergeWritten(m, m', start, h, i)
    ensures var f := Merged(h.blocks, i);
      4 <= start <= |m'| && var m'' := m'[start - 4 := w]; OnlyWithin(m, m'', start, f.addr, f.End()) && Tagged(m'', f)
  {
    hide Encodes;
    hide Merged;
    MergedBounds(m, start, end, h, i);
  }

  /** The words w after the last step of coalescing: the hint is stored, the merged block tagged. */
  ghost predicate Rehinted(m: seq<Word>, w: seq<Word>, start: nat, h: Heap, i: nat, below: Word)
    requires i < |h.blocks|
  {
    var f := Merged(h.blocks, i);
    && 4 <= start <= |w| && w[start - 4] == HintWord(Free(h, i, below).hint, start)
    && OnlyWithin(m, w, start, f.addr, f.End()) && Tagged(w, f)
  }

  /** The memory after the last step of coalescing. */
  lemma HintOutcome(m: seq<Word>, m': seq<Word>, start: nat, end: nat, h: Heap, i: nat, below: Word)
    requires LiveAt(m, start, end, h, i) && MergeWritten(m, m', start, h, i)
    ensures var (f, hint) := (Merged(h.blocks, i), h.hint);
      && 4 <= start <= f.addr < |m'| && 4 * |m'| < 0x1_0000_0000 && m'[start - 4] == HintWord(hint, start)
      && (hint.Names? ==> start <= hint.addr < |m'|)
      && var l := if hint.Names? then m'[hint.addr - 1] else below;
         var w := if SizeOf(m'[f.addr - 1]) > SizeOf(l) || !IsFree(l)
           then m'[start - 4 := OffsetWord(f.addr, start)] else m';
         Rehinted(m, w, start, h, i, below)
  {
    MergedHint(m, m', start, end, h, i, below);
    HintKeeps(m, m', start, end, h, i, OffsetWord(Merged(h.blocks, i).addr, start));
    HintKeeps(m, m', start, end, h, i, m'[start - 4]);
    assert m'[start - 4 := m'[start - 4]] == m';
    hide LiveAt;
    hide MergeWritten;
    hide OnlyWithin;
    hide Tagged;
    hide Free;
    hide Merged;
    hide SizeOf;
    hide IsFree;
    hide HintWord;
  }

  /** The tag writes of a release turn an encoding of h into one of the freed heap. */
  lemma FreeEncodes(m: seq<Word>, m': seq<Word>, start: nat, end: nat, h: Heap, i: nat, below: Word)
    requires LiveAt(m, start, end, h, i)
    requires OnlyWithin(m, m', start, Merged(h.blocks, i).addr, Merged(h.blocks, i).End())
    requires Tagged(m', Merged(h.blocks, i))
    requires m'[start - 4] == HintWord(Free(h, i, below).hint, start)
    ensures Encodes(m', start, end, Free(h, i, below))
    ensures PayloadKept(m, m', Live(h.blocks) - {h.blocks[i]})
  {
    hide Tiles;
    hide Tagged;
    var bs, lo, hi, f := h.blocks, Lo(h.blocks, i), Hi(h.blocks, i), Merged(h.blocks, i);
    MergedSpan(bs, start, end, i);
    Retagged(m, m', start, end, bs, lo, hi, [f]);
    LiveMiddle(bs, i);
    FreeKeeps(h, i, below, start, end);
  }

  /** Clients own their payloads: writing there touches no tag and no hint. */
  lemma ClientWriteKeeps(m: seq<Word>, start: nat, end: nat, h: Heap, x: Block, k: nat, w: Word)
    requires Encodes(m, start, end, h) && x in Live(h.blocks) && InPayload(x, k)
    ensures k < |m| && Encodes(m[k := w], start, end, h)
  {
    var bs := h.blocks;
    var i :| 0 <= i < |bs| && !bs[i].free && bs[i] == x;
    TilesInside(bs, start, end, i);
    forall j | 0 <= j < |bs| ensures Tagged(m[k := w], bs[j]) {
      assert Tagged(m, bs[j]);
      TilesInside(bs, start, end, j);
      if i < j { BlocksDisjoint(bs, start, end, i, j); }
      if j < i { BlocksDisjoint(bs, start, end, j, i); }
    }
  }

  /** The words that initialisation writes are those of one free block. */
  lemma InitialEncodes(m: seq<Word>, start: nat, end: nat)
    requires 4 <= start && start % 2 == 0 && end % 2 == 0 && start + 4 <= end <= |m| && 4 * |m| < 0x1_0000_0000
    requires m[start - 4] == 0 && m[start - 3] == m[start - 2] == Tag(2, false) && m[end - 1] == Tag(0, false)
    requires Tagged(m, Block(start, end - start, true))
    ensures Encodes(m, start, end, Initial(start, end))
  {
    InitialWellFormed(start, end);
    hide Tagged;
    hide WellFormed;
  }

  lemma InfoStep(bs: seq<Block>, k: nat)
    requires k < |bs|
    ensures InfoOf(bs[..k + 1]) == Tally(InfoOf(bs[..k]), bs[k])
  {
    assert bs[..k + 1][..k] == bs[..k];
  }

  class SaeHeap {
    const mem: array<Word>
    const below: Word        // what the machine reads in the word below address 0
    var start: nat           // sae_heap_start
    ghost var end: nat
    ghost var heap: Heap

    ghost predicate Valid()
      reads this, mem
    {
      Encodes(mem[..], start, end, heap)
    }

    constructor (mem: array<Word>, below: Word)
      ensures this.mem == mem && this.below == below && start == 0
    {
      this.mem, this.below := mem, below;
      start, end, heap := 0, 0, Heap([], Null);
    }

    /** Header word of the block at p. */
    function HeaderOf(p: nat): Word
      requires p <= mem.Length
      reads mem
    {
      if p == 0 then below else mem[p - 1]
    }

    /** sae_heap_start + GET(LAST_FREE(sae_heap_start)), in 32-bit address arithmetic. */
    function LastFree(): nat
      requires 4 <= start <= mem.Length
      reads this, mem
    {
      (start + mem[start - 4] / 4) % 0x4000_0000
    }

    method MarkBlk(p: nat, size: nat, free: bool)
      requires 1 <= p && 2 <= size && p + size <= mem.Length
      requires size % 2 == 0 && 4 * size < 0x1_0000_0000
      modifies mem
      ensures Tagged(mem[..], Block(p, size, free))
      ensures mem[..] == Marked(old(mem[..]), Block(p, size, free))
      ensures mem[p - 1] == mem[p + size - 2] == 4 * size + if free then 0 else 1
    {
      mem[p - 1] := Tag(size, free);
      mem[p + SizeOf(mem[p - 1]) - 2] := Tag(size, free);
    }

    /** memory and size are byte counts; size 0 is a core that only joins the heap. */
    method Init(memory: nat, size: nat)
      requires 4 * mem.Length < 0x1_0000_0000
      requires size > 0 ==>
        (memory + 7) / 8 * 8 + 32 <= (memory + size) / 8 * 8 <= 4 * mem.Length
      modifies this, mem
      ensures start == (memory + 7) / 8 * 2 + 4
      ensures size == 0 ==> mem[..] == old(mem[..]) && heap == old(heap) && end == old(end)
      ensures size > 0 ==> Valid() && end == (memory + size) / 8 * 2 && heap == Initial(start, end)
      ensures size > 0 ==>
        && mem[start - 4] == 0 && mem[start - 3] == mem[start - 2] == 8 + 1 && mem[end - 1] == 1
        && mem[start - 1] == mem[end - 2] == 4 * (end - start)
    {
      var p := (memory + 7) / 8 * 2 + 4;
      if size == 0 {
        start := p;
        return;
      }
      var e := (memory + size) / 8 * 2;
      mem[p - 2] := Tag(2, false);
      mem[p - SizeOf(mem[p - 2]) - 1] := Tag(2, false);
      mem[e - 1] := Tag(0, false);
      MarkBlk(p, e - p, true);
      mem[p - 4] := 0;
      start, end, heap := p, e, Initial(p, e);
      InitialEncodes(mem[..], p, e);
      hide Encodes;
      hide Tagged;
    }

    /** What the walk finds at the k-th block, or at the epilogue. */
    lemma Visit(k: nat)
      requires Valid() && k <= |heap.blocks|
      ensures 4 <= start < end <= mem.Length && 4 * mem.Length < 0x1_0000_0000
      ensures k < |heap.blocks| ==> heap.blocks[k].size >= 4 && heap.blocks[k].size % 2 == 0
      ensures var p := Cut(heap.blocks, k, end);
        && start <= p <= mem.Length && p % 2 == 0 && (k == 0 ==> p == start)
        && HeaderOf(p) == (if k < |heap.blocks| then Tag(heap.blocks[k].size, heap.blocks[k].free) else Tag(0, false))
        && (k < |heap.blocks| ==>
              && p + SizeOf(HeaderOf(p)) == Cut(heap.blocks, k + 1, end)
              && SizeOf(HeaderOf(p)) >= 4
              && p + SizeOf(HeaderOf(p)) <= end
              && mem[p + SizeOf(HeaderOf(p)) - 2] == HeaderOf(p))
    {
      hide Tiles;
      TilesSplit(heap.blocks, start, end, k);
      if k < |heap.blocks| {
        assert Tagged(mem[..], heap.blocks[k]);
        TilesInside(heap.blocks, start, end, k);
        TilesSplit(heap.blocks, start, end, k + 1);
      } else {
        TilesOrder(heap.blocks, start, end);
      }
    }

    lemma HintDecodes()
      requires Valid()
      ensures LastFree() <= mem.Length
      ensures heap.hint.Null? ==> LastFree() == 0
      ensures heap.hint.Names? ==>
        && LastFree() == heap.hint.addr >= start
        && var i := Find(heap.blocks, heap.hint.addr);
           i < |heap.blocks| && heap.blocks[i].free
             && SizeOf(HeaderOf(LastFree())) == heap.blocks[i].size && IsFree(HeaderOf(LastFree()))
    {
      hide Tiles;
      hide AllTagged;
      if heap.hint.Names? {
        var i :| IsBlock(heap.blocks, i, heap.hint.addr) && heap.blocks[i].free;
        FindBlock(heap.blocks, start, end, i);
        Visit(i);
      }
    }

    /** sae_alloc_set_last_free as malloc calls it, with a split pointer that is never NULL. */
    method StoreLastFree(ptr: nat)
      requires 4 <= start < mem.Length && 4 * mem.Length < 0x1_0000_0000
      requires ptr == 0 || start <= ptr < mem.Length
      modifies mem
      ensures mem[..] == old(mem[..])[start - 4 := OffsetWord(ptr, start)]
    {
      mem[start - 4] := OffsetWord(ptr, start);
    }

    /** ptr 0 is NULL. */
    method SetLastFree(split: bool, ptr: nat)
      requires 4 <= start < mem.Length && 4 * mem.Length < 0x1_0000_0000 && LastFree() <= mem.Length
      requires ptr == 0 || start <= ptr < mem.Length
      modifies mem
      ensures var l := old(HeaderOf(LastFree()));
        mem[..] == if split || SizeOf(old(HeaderOf(ptr))) > SizeOf(l) || !IsFree(l)
          then old(mem[..])[start - 4 := OffsetWord(ptr, start)]
          else old(mem[..])
    {
      var lfree := LastFree();
      if split || SizeOf(HeaderOf(ptr)) > SizeOf(HeaderOf(lfree)) || !IsFree(HeaderOf(lfree)) {
        mem[start - 4] := OffsetWord(ptr, start);
      }
    }

    /** The walk of sae_alloc_malloc: the first block that fits, or the epilogue. */
    method FirstFitWalk(need: nat) returns (ptr: nat)
      requires Valid() && need > 0
      ensures ptr == Cut(heap.blocks, FirstFit(heap.blocks, need), end)
    {
      hide Encodes;
      ptr := start;
      ghost var k := 0;
      Visit(0);
      while SizeOf(HeaderOf(ptr)) > 0
        invariant k <= |heap.blocks| && ptr == Cut(heap.blocks, k, end) && ptr <= mem.Length
        invariant forall j :: 0 <= j < k ==> !heap.blocks[j].Fits(need)
        decreases |heap.blocks| - k
      {
        Visit(k);
        if IsFree(HeaderOf(ptr)) && SizeOf(HeaderOf(ptr)) >= need {
          break;
        }
        ptr := ptr + SizeOf(HeaderOf(ptr));
        k := k + 1;
        Visit(k);
      }
      Visit(k);
    }

    /** sae_alloc_malloc. On Wild the code would go on to write tags around NULL; the model stops. */
    method Malloc(n: nat) returns (r: Outcome)
      requires Valid() && n <= MAX_REQUEST
      modifies this`heap, mem
      ensures Valid()
      ensures (heap, r) == HeapBlocks.Malloc(old(heap), n, below)
      ensures PayloadKept(old(mem[..]), mem[..], Live(old(heap.blocks)))
    {
      hide Tiles;
      hide AllTagged;
      hide Live;
      hide WellFormed;
      hide Place;
      hide HintWord;
      hide SizeOf;
      hide IsFree;
      if n == 0 {
        return NoMemory;
      }
      var need := Need(n);
      var ptr := LastFree();
      HintDecodes();
      if IsFree(HeaderOf(ptr)) && SizeOf(HeaderOf(ptr)) >= need {
        if ptr == 0 {
          return Wild;
        }
      } else {
        ptr := FirstFitWalk(need);
      }
      ghost var k := Choose(heap, need);
      assert ptr == Cut(heap.blocks, k, end);
      Visit(k);
      if SizeOf(HeaderOf(ptr)) == 0 {
        return NoMemory;
      }
      r := Allocated(ptr);
      Take(ptr, need, k);
    }

    /** Marks ptr allocated and the rest of its block free; next becomes the hint. */
    method MarkSplit(ptr: nat, need: nat)
      requires 4 <= start <= ptr <= mem.Length && start < mem.Length && 4 * mem.Length < 0x1_0000_0000
      requires ptr + SizeOf(HeaderOf(ptr)) <= mem.Length
      requires 4 <= need && need % 2 == 0 && need + 4 <= SizeOf(HeaderOf(ptr))
      modifies mem
      ensures mem[..] == SplitTags(old(mem[..]), start, Block(ptr, SizeOf(old(HeaderOf(ptr))), true), need)
    {
      var osize := SizeOf(HeaderOf(ptr));
      MarkBlk(ptr, need, false);
      var next := ptr + SizeOf(HeaderOf(ptr));
      MarkBlk(next, osize - SizeOf(HeaderOf(ptr)), true);
      StoreLastFree(next);
    }

    /** Marks the whole of ptr's block allocated; NULL becomes the hint. */
    method MarkWhole(ptr: nat)
      requires 4 <= start <= ptr <= mem.Length && start < mem.Length && 4 * mem.Length < 0x1_0000_0000
      requires 4 <= SizeOf(HeaderOf(ptr)) && ptr + SizeOf(HeaderOf(ptr)) <= mem.Length
      modifies mem
      ensures mem[..] == WholeTags(old(mem[..]), start, Block(ptr, SizeOf(old(HeaderOf(ptr))), true))
    {
      MarkBlk(ptr, SizeOf(HeaderOf(ptr)), false);
      StoreLastFree(0);
    }

    /** Marks the chosen block, splitting off what is left when that makes a block of its own. */
    method Take(ptr: nat, need: nat, ghost i: nat)
      requires Valid() && i < |heap.blocks| && heap.blocks[i].Fits(need)
      requires ptr == heap.blocks[i].addr && need >= 4 && need % 2 == 0
      modifies this`heap, mem
      ensures Valid()
      ensures heap.blocks == Place(old(heap.blocks), i, need)
      ensures heap.hint == if old(heap.blocks)[i].size >= need + 4 then Names(ptr + need) else Null
      ensures PayloadKept(old(mem[..]), mem[..], Live(old(heap.blocks)))
    {
      hide Encodes;
      hide Live;
      hide PayloadKept;
      hide OnlyWithin;
      hide Place;
      hide Tagged;
      hide SplitTags;
      hide WholeTags;
      ghost var h, m0, b := heap, mem[..], heap.blocks[i];
      Visit(i);
      if 4 * SizeOf(HeaderOf(ptr)) >= (4 * need + 16) % 0x1_0000_0000 {
        MarkSplit(ptr, need);
        SplitWrites(m0, start, b, need);
        heap := Heap(Place(h.blocks, i, need), Names(ptr + need));
      } else {
        MarkWhole(ptr);
        WholeWrites(m0, start, b);
        heap := Heap(Place(h.blocks, i, need), Null);
      }
      TakeEncodes(m0, mem[..], start, end, h, i, need);
    }

    /** sae_alloc_free, for a pointer to a live block. */
    method Free(ptr: nat)
      requires Valid() && Legal(heap, DoFree(ptr))
      modifies this`heap, mem
      ensures Valid()
      ensures heap == HeapBlocks.Free(old(heap), Find(old(heap.blocks), ptr), below)
      ensures PayloadKept(old(mem[..]), mem[..],
                          Live(old(heap.blocks)) - {old(heap.blocks)[Find(old(heap.blocks), ptr)]})
    {
      ghost var m0, i := mem[..], Find(heap.blocks, ptr);
      BlockTagged(m0, start, end, heap, i);
      MarkBlk(ptr, SizeOf(HeaderOf(ptr)), true);
      Coalesce(ptr, m0, i);
    }

    /** sae_alloc_coalesce: merges the block just marked free with its free neighbours. */
    method Coalesce(ptr: nat, ghost m0: seq<Word>, ghost i: nat)
      requires LiveAt(m0, start, end, heap, i) && ptr == heap.blocks[i].addr && |m0| == mem.Length
      requires Tagged(m0, heap.blocks[i]) && 4 * |m0| < 0x1_0000_0000
      requires mem[..] == Flagged(m0, heap.blocks[i])
      modifies this`heap, mem
      ensures Valid()
      ensures heap == HeapBlocks.Free(old(heap), i, below)
      ensures PayloadKept(m0, mem[..], Live(old(heap.blocks)) - {old(heap.blocks)[i]})
    {
      hide Encodes;
      hide PayloadKept;
      ghost var h := heap;
      var merged := Merge(ptr, m0, i);
      Rehint(merged, m0, i);
      heap := HeapBlocks.Free(h, i, below);
      FreeEncodes(m0, mem[..], start, end, h, i, below);
    }

    method Merge(ptr: nat, ghost m0: seq<Word>, ghost i: nat) returns (merged: nat)
      requires LiveAt(m0, start, end, heap, i) && ptr == heap.blocks[i].addr && |m0| == mem.Length
      requires Tagged(m0, heap.blocks[i]) && 4 * |m0| < 0x1_0000_0000
      requires mem[..] == Flagged(m0, heap.blocks[i])
      modifies mem
      ensures merged == Merged(heap.blocks, i).addr
      ensures MergeWritten(m0, mem[..], start, heap, i)
    {
      hide Encodes;
      hide MergeWritten;
      hide Merged;
      hide Marked;
      Neighbours(m0, start, end, heap, i);
      MarksMerge(m0, start, end, heap, i);
      var size := SizeOf(HeaderOf(ptr));
      var prev := ptr - SizeOf(mem[ptr - 2]);
      var pfree := IsFree(HeaderOf(prev));
      var next := ptr + size;
      var nfree := IsFree(HeaderOf(next));
      merged := ptr;
      if !pfree && !nfree {
        return;
      }
      if !pfree && nfree {
        size := size + SizeOf(HeaderOf(next));
      } else if pfree && !nfree {
        size := size + SizeOf(HeaderOf(prev));
        merged := prev;
      } else {
        size := size + SizeOf(HeaderOf(prev)) + SizeOf(HeaderOf(next));
        merged := prev;
      }
      assert Merged(heap.blocks, i) == Block(merged, size, true);
      MarkBlk(merged, size, true);
    }

    lemma LastFreeIs(hint: Hint)
      requires 4 <= start < mem.Length && 4 * mem.Length < 0x1_0000_0000 && mem[start - 4] == HintWord(hint, start)
      requires hint.Names? ==> start <= hint.addr < mem.Length
      ensures LastFree() == if hint.Names? then hint.addr else 0
    {
    }

    /** What the last step of coalescing leaves behind. */
    lemma AfterHint(ptr: nat, m0: seq<Word>, i: nat)
      requires LiveAt(m0, start, end, heap, i) && ptr == Merged(heap.blocks, i).addr
      requires MergeWritten(m0, mem[..], start, heap, i)
      ensures 4 <= start <= ptr < mem.Length && 4 * mem.Length < 0x1_0000_0000 && LastFree() <= mem.Length
      ensures var l := HeaderOf(LastFree());
        var w := if SizeOf(HeaderOf(ptr)) > SizeOf(l) || !IsFree(l)
          then mem[..][start - 4 := OffsetWord(ptr, start)] else mem[..];
        Rehinted(m0, w, start, heap, i, below)
    {
      HintOutcome(m0, mem[..], start, end, heap, i, below);
      hide *;
      LastFreeIs(heap.hint);
      HeadersAre(heap.hint, ptr);
    }

    lemma HeadersAre(hint: Hint, ptr: nat)
      requires hint.Names? ==> 0 < hint.addr < mem.Length
      requires 0 < ptr < mem.Length
      ensures HeaderOf(ptr) == mem[..][ptr - 1]
      ensures HeaderOf(if hint.Names? then hint.addr else 0) == if hint.Names? then mem[..][hint.addr - 1] else below
    {
    }

    /** The last step of coalescing: the hint after a merge. */
    method Rehint(ptr: nat, ghost m0: seq<Word>, ghost i: nat)
      requires LiveAt(m0, start, end, heap, i) && ptr == Merged(heap.blocks, i).addr
      requires MergeWritten(m0, mem[..], start, heap, i)
      modifies mem
      ensures mem[start - 4] == HintWord(HeapBlocks.Free(heap, i, below).hint, start)
      ensures var f := Merged(heap.blocks, i);
        OnlyWithin(m0, mem[..], start, f.addr, f.End()) && Tagged(mem[..], f)
    {
      AfterHint(ptr, m0, i);
      hide LiveAt;
      hide MergeWritten;
      hide OnlyWithin;
      hide Tagged;
      hide HeapBlocks.Free;
      hide Merged;
      hide HintWord;
      hide OffsetWord;
      hide LastFree;
      hide HeaderOf;
      hide SizeOf;
      hide IsFree;
      SetLastFree(false, ptr);
      assert mem[..][start - 4] == mem[start - 4];
    }

    /** sae_alloc_checkheap, on any words whose walk stays inside of the memory. */
    method CheckHeap() returns (ok: bool)
      requires 4 <= start && WalkInside(mem[..], start) && SizeOf(mem[start - 2]) < start
      ensures ok == Intact(mem[..], start)
    {
      var ptr := start;
      var prev := start - SizeOf(mem[start - 2]);
      if SizeOf(HeaderOf(prev)) != 2 || IsFree(HeaderOf(prev)) {
        return false;
      }
      while SizeOf(HeaderOf(ptr)) > 0
        invariant WalkInside(mem[..], ptr)
        invariant WalkOk(mem[..], start) == WalkOk(mem[..], ptr)
        decreases mem.Length - ptr
      {
        if ptr % 2 != 0 {
          return false;
        }
        if HeaderOf(ptr) != mem[ptr + SizeOf(HeaderOf(ptr)) - 2] {
          return false;
        }
        ptr := ptr + SizeOf(HeaderOf(ptr));
      }
      if SizeOf(HeaderOf(ptr)) != 0 || IsFree(HeaderOf(ptr)) {
        return false;
      }
      return true;
    }

    /** sae_safeHeapInfo, inside its lock. */
    method HeapInfo() returns (ok: bool, info: Info)
      requires Valid()
      ensures ok && info == InfoOf(heap.blocks)
      ensures info.alloc == |Live(heap.blocks)| && info.allocSize == 4 * Words(Live(heap.blocks))
      ensures info.free == |heap.blocks| - info.alloc && info.freeSize == 4 * (end - start) - info.allocSize
    {
      hide Encodes;
      info := Info(0, 0, 0, 0, 0, 0);
      EncodedIsIntact(mem[..], start, end, heap);
      ok := CheckHeap();
      if ok {
        var ptr := start;
        ghost var k := 0;
        Visit(0);
        hide Words;
        hide Live;
        hide Intact;
        hide WalkInside;
        while SizeOf(HeaderOf(ptr)) > 0
          invariant k <= |heap.blocks| && ptr == Cut(heap.blocks, k, end) && ptr <= mem.Length
          invariant info == InfoOf(heap.blocks[..k])
          decreases |heap.blocks| - k
        {
          Visit(k);
          InfoStep(heap.blocks, k);
          hide InfoOf;
          ghost var was := info;
          var size := 4 * SizeOf(HeaderOf(ptr));
          if IsFree(HeaderOf(ptr)) {
            info := info.(free := info.free + 1, freeSize := info.freeSize + size);
            if size > info.maxFree {
              info := info.(maxFree := size);
            }
          } else {
            info := info.(alloc := info.alloc + 1, allocSize := info.allocSize + size);
          }
          info := info.(total := info.total + 1);
          assert info == Tally(was, heap.blocks[k]);
          hide Tally;
          ptr := ptr + SizeOf(HeaderOf(ptr));
          k := k + 1;
          Visit(k);
        }
        Visit(k);
        assert heap.blocks[..k] == heap.blocks;
        Figures();
      }
    }

    lemma Figures()
      requires Valid()
      ensures var info := InfoOf(heap.blocks);
        && info.alloc == |Live(heap.blocks)| && info.allocSize == 4 * Words(Live(heap.blocks))
        && info.free == |heap.blocks| - info.alloc && info.freeSize == 4 * (end - start) - info.allocSize
    {
      InfoMeans(heap.blocks, start, end);
    }

    /** A client storing into a block it was given. */
    method ClientWrite(ghost x: Block, k: nat, w: Word)
      requires Valid() && x in Live(heap.blocks) && InPayload(x, k) && k < mem.Length
      modifies mem
      ensures Valid()
      ensures PayloadKept(old(mem[..]), mem[..], Live(heap.blocks) - {x})
    {
      ClientWriteKeeps(mem[..], start, end, heap, x, k, w);
      forall y | y in Live(heap.blocks) - {x} ensures !InPayload(y, k) {
        LiveDisjoint(heap.blocks, start, end, x, y);
      }
      mem[k] := w;
      assert mem[..] == old(mem[..])[k := w];
    }
  }
}
