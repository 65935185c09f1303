/** The block list that the words of the SAE shared heap stand for: what malloc and free do
    to it, and the laws that hold of every run.

    Addresses and sizes are counted in 32-bit words, so ALIGNMENT and BOOK_KEEPING are 2
    and the smallest block is 4. */
module HeapBlocks {

  /** A 32-bit memory word. */
  type Word = w: int | 0 <= w < 0x1_0000_0000

  /** Tag fields: the low three bits of a tag are flags, bit 0 set meaning allocated. */
  function SizeOf(tag: Word): nat { tag / 8 * 2 }

  predicate IsFree(tag: Word) { tag % 2 == 0 }

  const MAX_REQUEST: nat := 0xFFFF_FFF0

  /** ALIGN_UP(n + 8, 8) bytes, in words. */
  function Need(n: nat): nat { (n + 15) / 8 * 2 }

  /** The same with the 32-bit arithmetic of size_t, in bytes. */
  function NeedBytes32(n: Word): Word { (n + 15) % 0x1_0000_0000 / 8 * 8 }

  /** MAX_REQUEST is exactly where the request computation starts to wrap. */
  lemma RequestWraps(n: Word)
    ensures NeedBytes32(n) >= n + 8 <==> n <= MAX_REQUEST
    ensures n <= MAX_REQUEST ==> NeedBytes32(n) == 4 * Need(n) && NeedBytes32(n) <= n + 15 && NeedBytes32(n) % 8 == 0
  {
    assert n <= MAX_REQUEST ==> (n + 15) % 0x1_0000_0000 == n + 15;
    assert n > MAX_REQUEST ==> (n + 15) % 0x1_0000_0000 == n + 15 - 0x1_0000_0000;
  }

  datatype Block = Block(addr: nat, size: nat, free: bool) {
    function End(): nat { addr + size }
    predicate Fits(need: nat) { free && need <= size }
  }

  /** What the word at LAST_FREE names: a block, or NULL once a free block was taken whole. */
  datatype Hint = Names(addr: nat) | Null

  datatype Heap = Heap(blocks: seq<Block>, hint: Hint)

  /** Wild: the hint is NULL and the word below address 0 looks like a large enough free block,
      so malloc takes NULL for a block. */
  datatype Outcome = NoMemory | Allocated(addr: nat) | Wild

  /** The blocks tile [start, end), sizes are aligned, and no two neighbours are free. */
  ghost predicate Tiles(bs: seq<Block>, start: nat, end: nat)
  {
    if bs == [] then start == end
    else
      && bs[0].addr == start && bs[0].size >= 4 && bs[0].size % 2 == 0
      && (|bs| > 1 && bs[0].free ==> !bs[1].free)
      && Tiles(bs[1..], start + bs[0].size, end)
  }

  ghost predicate IsBlock(bs: seq<Block>, i: int, addr: nat)
  {
    0 <= i < |bs| && bs[i].addr == addr
  }

  ghost predicate WellFormed(h: Heap, start: nat, end: nat)
  {
    && start < end
    && Tiles(h.blocks, start, end)
    && (h.hint.Names? ==> exists i :: IsBlock(h.blocks, i, h.hint.addr) && h.blocks[i].free)
  }

  ghost function Live(bs: seq<Block>): set<Block>
  {
    set i | 0 <= i < |bs| && !bs[i].free :: bs[i]
  }

  // ---------------------------------------------------------------- malloc and free

  /** Index of the block at addr, |bs| if there is none. */
  function Find(bs: seq<Block>, addr: nat): (i: nat)
    ensures i <= |bs|
    ensures i < |bs| ==> bs[i].addr == addr
    ensures forall j :: 0 <= j < i ==> bs[j].addr != addr
  {
    if bs == [] || bs[0].addr == addr then 0 else 1 + Find(bs[1..], addr)
  }

  /** Index of the first free block of at least need words, |bs| if there is none. */
  function FirstFit(bs: seq<Block>, need: nat): (i: nat)
    ensures i <= |bs|
    ensures i < |bs| ==> bs[i].Fits(need)
    ensures forall j :: 0 <= j < i ==> !bs[j].Fits(need)
  {
    if bs == [] || bs[0].Fits(need) then 0 else 1 + FirstFit(bs[1..], need)
  }

  /** The first block at the hinted address is free and large enough. */
  predicate HintFits(h: Heap, need: nat) {
    h.hint.Names? && exists k | 0 <= k < |h.blocks| ::
      h.blocks[k].addr == h.hint.addr && h.blocks[k].Fits(need) && forall j | 0 <= j < k :: h.blocks[j].addr != h.hint.addr
  }

  /** The hinted block when it fits, the first fit otherwise. */
  function Choose(h: Heap, need: nat): (i: nat)
    ensures i <= |h.blocks|
    ensures i < |h.blocks| ==> h.blocks[i].Fits(need)
    ensures i == |h.blocks| ==> forall b :: b in h.blocks ==> !b.Fits(need)
    ensures HintFits(h, need) ==> i < |h.blocks| && h.hint == Names(h.blocks[i].addr)
    ensures !HintFits(h, need) ==> forall j :: 0 <= j < i ==> !h.blocks[j].Fits(need)
  {
    var k := if h.hint.Names? then Find(h.blocks, h.hint.addr) else |h.blocks|;
    if k < |h.blocks| && h.blocks[k].Fits(need) then k else FirstFit(h.blocks, need)
  }

  function Place(bs: seq<Block>, i: nat, need: nat): seq<Block>
    requires i < |bs| && need <= bs[i].size
  {
    var b := bs[i];
    if b.size >= need + 4 then
      bs[..i] + [Block(b.addr, need, false), Block(b.addr + need, b.size - need, true)] + bs[i + 1..]
    else
      bs[..i] + [b.(free := false)] + bs[i + 1..]
  }

  function Malloc(h: Heap, n: nat, below: Word): (Heap, Outcome)
  {
    if n == 0 then (h, NoMemory)
    else if h.hint.Null? && IsFree(below) && Need(n) <= SizeOf(below) then (h, Wild)
    else
      var i := Choose(h, Need(n));
      if i == |h.blocks| then (h, NoMemory)
      else
        var b := h.blocks[i];
        var hint := if b.size >= Need(n) + 4 then Names(b.addr + Need(n)) else Null;
        (Heap(Place(h.blocks, i, Need(n)), hint), Allocated(b.addr))
  }

  function Lo(bs: seq<Block>, i: nat): (lo: nat)
    requires i < |bs|
    ensures lo <= i
  {
    if i > 0 && bs[i - 1].free then i - 1 else i
  }

  function Hi(bs: seq<Block>, i: nat): (hi: nat)
    requires i < |bs|
    ensures i < hi <= |bs|
  {
    if i + 1 < |bs| && bs[i + 1].free then i + 2 else i + 1
  }

  /** The free block that block i becomes, merged with its free neighbours. */
  function Merged(bs: seq<Block>, i: nat): Block
    requires i < |bs|
  {
    var left := if Lo(bs, i) < i then bs[i - 1].size else 0;
    var right := if Hi(bs, i) > i + 1 then bs[i + 1].size else 0;
    Block(bs[Lo(bs, i)].addr, left + bs[i].size + right, true)
  }

  function Release(bs: seq<Block>, i: nat): seq<Block>
    requires i < |bs|
  {
    bs[..Lo(bs, i)] + [Merged(bs, i)] + bs[Hi(bs, i)..]
  }

  /** The hint moves to the merged block when that is larger than the block hinted before. */
  function Free(h: Heap, i: nat, below: Word): Heap
    requires i < |h.blocks|
  {
    var m := Merged(h.blocks, i);
    var hint := match h.hint
      case Names(a) =>
        var k := Find(h.blocks, a);
        if k < |h.blocks| && m.size <= h.blocks[k].size then h.hint else Names(m.addr)
      case Null =>
        if IsFree(below) && m.size <= SizeOf(below) then Null else Names(m.addr);
    Heap(Release(h.blocks, i), hint)
  }

  // ---------------------------------------------------------------- what each step keeps

  ghost function Cut(bs: seq<Block>, k: nat, end: nat): nat
    requires k <= |bs|
  {
    if k < |bs| then bs[k].addr else end
  }

  /** A tiling is cut at any block into two tilings. */
  lemma {:induction false} TilesSplit(bs: seq<Block>, start: nat, end: nat, k: nat)
    requires Tiles(bs, start, end) && k <= |bs|
    ensures Tiles(bs[..k], start, Cut(bs, k, end)) && Tiles(bs[k..], Cut(bs, k, end), end)
    ensures 0 < k < |bs| ==> !(bs[k - 1].free && bs[k].free)
    ensures 0 < k ==> bs[k - 1].End() == Cut(bs, k, end)
  {
    if k > 0 {
      TilesSplit(bs[1..], start + bs[0].size, end, k - 1);
      assert bs[..k][1..] == bs[1..][..k - 1];
      assert bs[k..] == bs[1..][k - 1..];
    } else {
      assert bs[..k] == [] && bs[k..] == bs;
    }
  }

  /** Two tilings join when the blocks that meet are not both free. */
  lemma {:induction false} TilesJoin(a: seq<Block>, b: seq<Block>, start: nat, mid: nat, end: nat)
    requires Tiles(a, start, mid) && Tiles(b, mid, end)
    requires a != [] && b != [] ==> !(a[|a| - 1].free && b[0].free)
    ensures Tiles(a + b, start, end)
  {
    if a == [] {
      assert a + b == b;
    } else {
      TilesJoin(a[1..], b, start + a[0].size, mid, end);
      assert (a + b)[1..] == a[1..] + b;
    }
  }

  lemma {:induction false} TilesInside(bs: seq<Block>, start: nat, end: nat, i: nat)
    requires Tiles(bs, start, end) && i < |bs|
    ensures start <= bs[i].addr && bs[i].End() <= end && bs[i].size >= 4 && bs[i].size % 2 == 0
    ensures i > 0 ==> start + 4 <= bs[i].addr
    ensures i == 0 ==> start == bs[i].addr
    ensures start % 2 == 0 ==> bs[i].addr % 2 == 0
    decreases i
  {
    TilesOrder(bs, start, end);
    if i > 0 {
      TilesInside(bs[1..], start + bs[0].size, end, i - 1);
    }
  }

  lemma {:induction false} TilesOrder(bs: seq<Block>, start: nat, end: nat)
    requires Tiles(bs, start, end)
    ensures start <= end && (bs != [] ==> bs[0].End() <= end)
  {
    if bs != [] {
      TilesOrder(bs[1..], start + bs[0].size, end);
    }
  }

  /** Distinct blocks occupy disjoint ranges. */
  lemma BlocksDisjoint(bs: seq<Block>, start: nat, end: nat, i: nat, j: nat)
    requires Tiles(bs, start, end) && i < j < |bs|
    ensures bs[i].End() <= bs[j].addr
  {
    TilesSplit(bs, start, end, j);
    assert bs[..j][i] == bs[i];
    TilesInside(bs[..j], start, bs[j].addr, i);
  }

  lemma FindBlock(bs: seq<Block>, start: nat, end: nat, i: nat)
    requires Tiles(bs, start, end) && i < |bs|
    ensures Find(bs, bs[i].addr) == i
  {
    var k := Find(bs, bs[i].addr);
    if k < i {
      BlocksDisjoint(bs, start, end, k, i);
      TilesInside(bs, start, end, k);
    }
  }

  /** Block i of a tiling may be replaced by blocks that tile its range and begin allocated. */
  lemma TilesReplace(bs: seq<Block>, start: nat, end: nat, i: nat, mid: seq<Block>)
    requires Tiles(bs, start, end) && i < |bs| && bs[i].free
    requires mid != [] && !mid[0].free && Tiles(mid, bs[i].addr, bs[i].End())
    ensures Tiles(bs[..i] + mid + bs[i + 1..], start, end)
  {
    TilesSplit(bs, start, end, i);
    TilesSplit(bs, start, end, i + 1);
    TilesJoin(bs[..i], mid, start, bs[i].addr, bs[i].End());
    TilesJoin(bs[..i] + mid, bs[i + 1..], start, bs[i].End(), end);
  }

  lemma PlaceKeeps(bs: seq<Block>, start: nat, end: nat, i: nat, need: nat)
    requires Tiles(bs, start, end) && i < |bs| && bs[i].Fits(need) && need >= 4 && need % 2 == 0
    ensures Tiles(Place(bs, i, need), start, end)
  {
    var b := bs[i];
    TilesInside(bs, start, end, i);
    if b.size >= need + 4 {
      var rest := [Block(b.addr + need, b.size - need, true)];
      assert Tiles(rest, b.addr + need, b.End());
      TilesJoin([Block(b.addr, need, false)], rest, b.addr, b.addr + need, b.End());
      TilesReplace(bs, start, end, i, [Block(b.addr, need, false)] + rest);
      assert Place(bs, i, need) == bs[..i] + ([Block(b.addr, need, false)] + rest) + bs[i + 1..];
    } else {
      TilesReplace(bs, start, end, i, [b.(free := false)]);
    }
  }

  lemma MergedLeft(bs: seq<Block>, start: nat, end: nat, i: nat)
    requires Tiles(bs, start, end) && i < |bs| && !bs[i].free
    ensures Tiles(bs[..Lo(bs, i)], start, Merged(bs, i).addr)
    ensures Lo(bs, i) > 0 ==> !bs[Lo(bs, i) - 1].free
    ensures Lo(bs, i) < i ==> bs[i - 1].End() == bs[i].addr && bs[i - 1].size >= 4 && bs[i - 1].size % 2 == 0
  {
    TilesSplit(bs, start, end, Lo(bs, i));
    if Lo(bs, i) < i {
      TilesSplit(bs, start, end, i);
      TilesInside(bs, start, end, i - 1);
    }
  }

  lemma MergedRight(bs: seq<Block>, start: nat, end: nat, i: nat)
    requires Tiles(bs, start, end) && i < |bs| && !bs[i].free
    ensures Tiles(bs[Hi(bs, i)..], Cut(bs, Hi(bs, i), end), end)
    ensures Cut(bs, Hi(bs, i), end) == bs[i].End() + (if Hi(bs, i) > i + 1 then bs[i + 1].size else 0)
    ensures Hi(bs, i) < |bs| ==> !bs[Hi(bs, i)].free
    ensures Hi(bs, i) > i + 1 ==> bs[i + 1].addr == bs[i].End() && bs[i + 1].size >= 4 && bs[i + 1].size % 2 == 0
  {
    TilesSplit(bs, start, end, Hi(bs, i));
    TilesSplit(bs, start, end, i + 1);
    if Hi(bs, i) > i + 1 {
      TilesInside(bs, start, end, i + 1);
    }
  }

  lemma MergedSpan(bs: seq<Block>, start: nat, end: nat, i: nat)
    requires Tiles(bs, start, end) && i < |bs| && !bs[i].free
    ensures Tiles(bs[..Lo(bs, i)], start, Merged(bs, i).addr)
    ensures Tiles(bs[Hi(bs, i)..], Merged(bs, i).End(), end)
    ensures Merged(bs, i).End() == Cut(bs, Hi(bs, i), end) == bs[Hi(bs, i) - 1].End()
    ensures Merged(bs, i).addr <= bs[i].addr && bs[i].End() <= Merged(bs, i).End()
    ensures bs[i].size >= 4 && Merged(bs, i).size % 2 == 0
    ensures Lo(bs, i) > 0 ==> !bs[Lo(bs, i) - 1].free
    ensures Hi(bs, i) < |bs| ==> !bs[Hi(bs, i)].free
  {
    MergedLeft(bs, start, end, i);
    MergedRight(bs, start, end, i);
    TilesInside(bs, start, end, i);
  }

  lemma ReleaseKeeps(bs: seq<Block>, start: nat, end: nat, i: nat)
    requires Tiles(bs, start, end) && i < |bs| && !bs[i].free
    ensures Tiles(Release(bs, i), start, end)
  {
    var lo, hi, m := Lo(bs, i), Hi(bs, i), Merged(bs, i);
    MergedSpan(bs, start, end, i);
    assert Tiles([m], m.addr, m.End());
    hide Merged;
    TilesJoin([m], bs[hi..], m.addr, m.End(), end);
    TilesJoin(bs[..lo], [m] + bs[hi..], start, m.addr, end);
    hide Tiles;
    assert Release(bs, i) == bs[..lo] + ([m] + bs[hi..]);
  }

  lemma LiveJoin(a: seq<Block>, b: seq<Block>)
    ensures Live(a + b) == Live(a) + Live(b)
  {
    forall x | x in Live(a) + Live(b) ensures x in Live(a + b) {
      if x in Live(a) {
        var i :| 0 <= i < |a| && !a[i].free && a[i] == x;
        assert (a + b)[i] == x;
      } else {
        var i :| 0 <= i < |b| && !b[i].free && b[i] == x;
        assert (a + b)[|a| + i] == x;
      }
    }
  }

  lemma LiveInside(bs: seq<Block>, start: nat, end: nat, x: Block)
    requires Tiles(bs, start, end) && x in Live(bs)
    ensures start <= x.addr && x.End() <= end && x.size >= 4
  {
    var i :| 0 <= i < |bs| && !bs[i].free && bs[i] == x;
    TilesInside(bs, start, end, i);
  }

  /** Live blocks are pairwise disjoint. */
  lemma LiveDisjoint(bs: seq<Block>, start: nat, end: nat, x: Block, y: Block)
    requires Tiles(bs, start, end) && x in Live(bs) && y in Live(bs) && x != y
    ensures x.End() <= y.addr || y.End() <= x.addr
  {
    var i :| 0 <= i < |bs| && bs[i] == x;
    var j :| 0 <= j < |bs| && bs[j] == y;
    if i < j { BlocksDisjoint(bs, start, end, i, j); } else { BlocksDisjoint(bs, start, end, j, i); }
  }

  /** The block that Place allocates at index i. */
  function Placed(bs: seq<Block>, i: nat, need: nat): Block
    requires i < |bs|
  {
    Block(bs[i].addr, if bs[i].size >= need + 4 then need else bs[i].size, false)
  }

  lemma PlaceLive(bs: seq<Block>, i: nat, need: nat)
    requires i < |bs| && bs[i].Fits(need)
    ensures Live(Place(bs, i, need)) == Live(bs) + {Placed(bs, i, need)}
  {
    var b, x := bs[i], Placed(bs, i, need);
    var mid := if b.size >= need + 4 then [x, Block(b.addr + need, b.size - need, true)] else [x];
    assert Live(mid) == {x} by { assert mid[0] == x; }
    assert Live([b]) == {};
    assert Place(bs, i, need) == bs[..i] + mid + bs[i + 1..];
    assert bs == bs[..i] + [b] + bs[i + 1..];
    LiveJoin(bs[..i], mid);
    LiveJoin(bs[..i] + mid, bs[i + 1..]);
    LiveJoin(bs[..i], [b]);
    LiveJoin(bs[..i] + [b], bs[i + 1..]);
  }

  lemma PlacedIsNew(bs: seq<Block>, start: nat, end: nat, i: nat, x: Block)
    requires Tiles(bs, start, end) && i < |bs| && bs[i].free && x.addr == bs[i].addr
    ensures x !in Live(bs)
  {
    FindBlock(bs, start, end, i);
    forall j | 0 <= j < |bs| && bs[j] == x ensures bs[j].free {
      FindBlock(bs, start, end, j);
    }
  }

  ghost predicate LiveGrew(bs: seq<Block>, bs': seq<Block>, n: nat, x: Block)
  {
    n <= 4 * (x.size - 2) <= n + 15 && x !in Live(bs) && Live(bs') == Live(bs) + {x}
  }

  /** malloc keeps the heap well formed and adds one live block whose payload holds at least the
      bytes asked for, and at most 15 more. */
  lemma MallocKeeps(h: Heap, n: nat, below: Word, start: nat, end: nat)
    requires WellFormed(h, start, end) && Malloc(h, n, below).1.Allocated?
    ensures WellFormed(Malloc(h, n, below).0, start, end)
    ensures exists size ::
      LiveGrew(h.blocks, Malloc(h, n, below).0.blocks, n, Block(Malloc(h, n, below).1.addr, size, false))
  {
    var (h', r) := Malloc(h, n, below);
    var bs, need, i := h.blocks, Need(n), Choose(h, Need(n));
    PlaceKeeps(bs, start, end, i, need);
    PlaceLive(bs, i, need);
    PlacedIsNew(bs, start, end, i, Placed(bs, i, need));
    TilesInside(bs, start, end, i);
    assert need <= Placed(bs, i, need).size <= need + 2;
    assert LiveGrew(bs, h'.blocks, n, Block(r.addr, Placed(bs, i, need).size, false));
    if h'.hint.Names? {
      assert IsBlock(h'.blocks, i + 1, h'.hint.addr);
    }
  }

  /** free keeps the heap well formed, the hint included, and removes exactly the freed block. */
  lemma FreeKeeps(h: Heap, i: nat, below: Word, start: nat, end: nat)
    requires WellFormed(h, start, end) && i < |h.blocks| && !h.blocks[i].free
    ensures WellFormed(Free(h, i, below), start, end)
    ensures Live(Free(h, i, below).blocks) == Live(h.blocks) - {h.blocks[i]}
  {
    var bs, lo, hi, m := h.blocks, Lo(h.blocks, i), Hi(h.blocks, i), Merged(h.blocks, i);
    var bs', hint' := Free(h, i, below).blocks, Free(h, i, below).hint;
    ReleaseKeeps(bs, start, end, i);
    ReleaseLive(bs, start, end, i);
    assert bs'[lo] == m;
    if hint'.Names? {
      if hint'.addr == m.addr {
        assert IsBlock(bs', lo, m.addr);
      } else {
        var k :| IsBlock(bs, k, h.hint.addr) && bs[k].free;
        FindBlock(bs, start, end, k);
        UnmergedStays(bs, start, end, i, k);
      }
    }
  }

  /** free keeps the hint at the larger one of the block hinted before and the merged one. */
  lemma FreeHint(h: Heap, i: nat, below: Word, start: nat, end: nat)
    requires WellFormed(h, start, end) && i < |h.blocks| && !h.blocks[i].free && h.hint.Names?
    ensures Free(h, i, below).hint.Names?
    ensures var (h', m) := (Free(h, i, below), Merged(h.blocks, i));
      var (k, j) := (Find(h.blocks, h.hint.addr), Find(h'.blocks, h'.hint.addr));
      && k < |h.blocks| && j < |h'.blocks| && h'.blocks[j].free
      && h'.blocks[j].size >= h.blocks[k].size && h'.blocks[j].size >= m.size
      && (h'.hint == h.hint || (h'.hint == Names(m.addr) && m.size > h.blocks[k].size))
  {
    var h', m, bs := Free(h, i, below), Merged(h.blocks, i), h.blocks;
    var k :| IsBlock(bs, k, h.hint.addr) && bs[k].free;
    FindBlock(bs, start, end, k);
    ReleaseKeeps(bs, start, end, i);
    assert h'.blocks[Lo(bs, i)] == m;
    if m.size > bs[k].size {
      FindBlock(h'.blocks, start, end, Lo(bs, i));
    } else {
      UnmergedStays(bs, start, end, i, k);
      hide Tiles;
      var j :| IsBlock(Release(bs, i), j, bs[k].addr) && Release(bs, i)[j] == bs[k];
      FindBlock(h'.blocks, start, end, j);
    }
    hide Release;
    hide Merged;
  }

  /** A free block at least as large as the merged one was not merged, so it is still there. */
  lemma UnmergedStays(bs: seq<Block>, start: nat, end: nat, i: nat, k: nat)
    requires Tiles(bs, start, end) && i < |bs| && !bs[i].free && k < |bs| && bs[k].free
    requires Merged(bs, i).size <= bs[k].size
    ensures exists j :: IsBlock(Release(bs, i), j, bs[k].addr) && Release(bs, i)[j] == bs[k]
  {
    MergedSpan(bs, start, end, i);
    TilesInside(bs, start, end, i);
    var lo, hi := Lo(bs, i), Hi(bs, i);
    if k < lo {
      assert IsBlock(Release(bs, i), k, bs[k].addr);
    } else {
      assert k >= hi;
      assert Release(bs, i)[k - (hi - lo - 1)] == bs[k];
      assert IsBlock(Release(bs, i), k - (hi - lo - 1), bs[k].addr);
    }
  }

  lemma ReleaseLive(bs: seq<Block>, start: nat, end: nat, i: nat)
    requires Tiles(bs, start, end) && i < |bs| && !bs[i].free
    ensures Live(Release(bs, i)) == Live(bs) - {bs[i]}
  {
    var lo, hi, m := Lo(bs, i), Hi(bs, i), Merged(bs, i);
    var left, right := Live(bs[..lo]), Live(bs[hi..]);
    assert Live(Release(bs, i)) == left + right by {
      LiveJoin(bs[..lo], [m]);
      LiveJoin(bs[..lo] + [m], bs[hi..]);
      assert Live([m]) == {};
    }
    assert Live(bs) == left + {bs[i]} + right by {
      assert bs == bs[..lo] + bs[lo..hi] + bs[hi..];
      LiveJoin(bs[..lo], bs[lo..hi]);
      LiveJoin(bs[..lo] + bs[lo..hi], bs[hi..]);
      LiveMiddle(bs, i);
    }
    LiveOutside(bs, start, end, i);
  }

  lemma LiveMiddle(bs: seq<Block>, i: nat)
    requires i < |bs| && !bs[i].free
    ensures Live(bs[Lo(bs, i)..Hi(bs, i)]) == {bs[i]}
  {
    assert bs[Lo(bs, i)..Hi(bs, i)][i - Lo(bs, i)] == bs[i];
  }

  lemma LiveOutside(bs: seq<Block>, start: nat, end: nat, i: nat)
    requires Tiles(bs, start, end) && i < |bs| && !bs[i].free
    ensures bs[i] !in Live(bs[..Lo(bs, i)]) && bs[i] !in Live(bs[Hi(bs, i)..])
  {
    MergedSpan(bs, start, end, i);
    TilesInside(bs, start, end, i);
    if bs[i] in Live(bs[..Lo(bs, i)]) { LiveInside(bs[..Lo(bs, i)], start, Merged(bs, i).addr, bs[i]); }
    if bs[i] in Live(bs[Hi(bs, i)..]) { LiveInside(bs[Hi(bs, i)..], Merged(bs, i).End(), end, bs[i]); }
  }

  // ---------------------------------------------------------------- the block list is canonical

  lemma FirstSame(a: seq<Block>, b: seq<Block>, start: nat, end: nat)
    requires Tiles(a, start, end) && Tiles(b, start, end) && a != [] && b != []
    requires Live(a) == Live(b) && a[0].size <= b[0].size
    ensures a[0] == b[0]
  {
    if a[0].free && b[0].free {
      if a[0].size < b[0].size {
        NoShorterFirst(a, b, start, end);
      }
    } else {
      var x := if a[0].free then b[0] else a[0];
      assert x in Live(a) && x in Live(b);
      hide Live;
      LiveFirst(a, start, end, x);
      LiveFirst(b, start, end, x);
    }
  }

  /** A live block at the start is the first one. */
  lemma LiveFirst(bs: seq<Block>, start: nat, end: nat, x: Block)
    requires Tiles(bs, start, end) && bs != [] && x in Live(bs) && x.addr == start
    ensures bs[0] == x
  {
    var i :| 0 <= i < |bs| && bs[i] == x;
    TilesInside(bs, start, end, i);
  }

  lemma NoShorterFirst(a: seq<Block>, b: seq<Block>, start: nat, end: nat)
    requires Tiles(a, start, end) && Tiles(b, start, end) && a != [] && b != [] && Live(a) == Live(b)
    requires a[0].free && b[0].free
    ensures a[0].size >= b[0].size
  {
    if a[0].size < b[0].size {
      TilesOrder(b, start, end);
      TilesOrder(a[1..], start + a[0].size, end);
      var x := a[1..][0];
      assert x == a[1] && x in Live(a) && x.addr == start + a[0].size;
      var j :| 0 <= j < |b| && !b[j].free && b[j] == x;
      hide Live;
      TilesSplit(b, start, end, 1);
      TilesInside(b[1..], start + b[0].size, end, j - 1);
      assert false;
    }
  }

  /** Since no two neighbours are free, the live blocks alone determine the whole block list. */
  lemma {:induction false} Canonical(a: seq<Block>, b: seq<Block>, start: nat, end: nat)
    requires Tiles(a, start, end) && Tiles(b, start, end) && Live(a) == Live(b)
    ensures a == b
  {
    TilesOrder(a, start, end);
    TilesOrder(b, start, end);
    if a == [] || b == [] {
    } else {
      if a[0].size <= b[0].size { FirstSame(a, b, start, end); } else { FirstSame(b, a, start, end); }
      var x := a[0];
      assert a == [x] + a[1..] && b == [x] + b[1..];
      LiveJoin([x], a[1..]);
      LiveJoin([x], b[1..]);
      if x in Live(a[1..]) { LiveInside(a[1..], start + x.size, end, x); }
      if x in Live(b[1..]) { LiveInside(b[1..], start + x.size, end, x); }
      assert Live([x]) == (if x.free then {} else {x}) by { assert [x][0] == x; }
      assert Live(a[1..]) == Live(b[1..]);
      Canonical(a[1..], b[1..], start + x.size, end);
    }
  }

  /** Freeing a block straight after allocating it restores the block list. */
  lemma MallocThenFree(h: Heap, n: nat, below: Word, start: nat, end: nat)
    requires WellFormed(h, start, end) && Malloc(h, n, below).1.Allocated?
    ensures var (h', r) := Malloc(h, n, below);
      var i := Find(h'.blocks, r.addr);
      i < |h'.blocks| && !h'.blocks[i].free && Free(h', i, below).blocks == h.blocks
  {
    var (h', r) := Malloc(h, n, below);
    MallocKeeps(h, n, below, start, end);
    var size :| LiveGrew(h.blocks, h'.blocks, n, Block(r.addr, size, false));
    assert Block(r.addr, size, false) in Live(h'.blocks);
    var i :| 0 <= i < |h'.blocks| && h'.blocks[i] == Block(r.addr, size, false);
    FindBlock(h'.blocks, start, end, i);
    FreeKeeps(h', i, below, start, end);
    Canonical(Free(h', i, below).blocks, h.blocks, start, end);
  }

  // ---------------------------------------------------------------- statistics

  /** SAE_HEAP_INFO; sizes in bytes. */
  datatype Info = Info(total: nat, alloc: nat, free: nat, allocSize: nat, freeSize: nat, maxFree: nat)

  function Tally(s: Info, b: Block): Info {
    if b.free then
      s.(total := s.total + 1, free := s.free + 1, freeSize := s.freeSize + 4 * b.size,
         maxFree := if 4 * b.size > s.maxFree then 4 * b.size else s.maxFree)
    else
      s.(total := s.total + 1, alloc := s.alloc + 1, allocSize := s.allocSize + 4 * b.size)
  }

  function InfoOf(bs: seq<Block>): Info {
    if bs == [] then Info(0, 0, 0, 0, 0, 0) else Tally(InfoOf(bs[..|bs| - 1]), bs[|bs| - 1])
  }

  /** Nothing is lost: allocated and free bytes always add up to the heap. */
  lemma {:induction false} InfoConserves(bs: seq<Block>, start: nat, end: nat)
    requires Tiles(bs, start, end)
    ensures InfoOf(bs).allocSize + InfoOf(bs).freeSize == 4 * (end - start)
    ensures InfoOf(bs).alloc + InfoOf(bs).free == InfoOf(bs).total == |bs|
  {
    if bs != [] {
      var k := |bs| - 1;
      TilesSplit(bs, start, end, k);
      TilesSplit(bs, start, end, |bs|);
      InfoConserves(bs[..k], start, bs[k].addr);
      TilesInside(bs, start, end, k);
    }
  }

  /** The words of all blocks in s. */
  ghost function Words(s: set<Block>): nat {
    if s == {} then 0 else var b :| b in s; b.size + Words(s - {b})
  }

  lemma {:induction false} WordsAdd(s: set<Block>, b: Block)
    requires b !in s
    ensures Words(s + {b}) == Words(s) + b.size
    decreases |s|
  {
    var t := s + {b};
    var c :| c in t && Words(t) == c.size + Words(t - {c});
    if c == b {
      assert t - {b} == s;
    } else {
      WordsAdd(s - {c}, b);
      assert t - {c} == (s - {c}) + {b};
      WordsAdd(s - {c}, c);
      assert (s - {c}) + {c} == s;
    }
  }

  /** What the figures mean for the clients: the allocated blocks are the live ones. */
  lemma {:induction false} InfoMeans(bs: seq<Block>, start: nat, end: nat)
    requires Tiles(bs, start, end)
    ensures InfoOf(bs).alloc == |Live(bs)| && InfoOf(bs).allocSize == 4 * Words(Live(bs))
    ensures InfoOf(bs).free == |bs| - |Live(bs)| && InfoOf(bs).freeSize == 4 * (end - start) - 4 * Words(Live(bs))
    ensures InfoOf(bs).allocSize == 0 <==> Live(bs) == {}
  {
    if bs == [] {
      assert Live(bs) == {};
    } else {
      var k := |bs| - 1;
      var x, rest := bs[k], bs[..k];
      TilesSplit(bs, start, end, k);
      InfoMeans(rest, start, x.addr);
      TilesInside(bs, start, end, k);
      LiveLast(bs, start, end);
      if !x.free {
        WordsAdd(Live(rest), x);
      }
      InfoConserves(bs, start, end);
    }
  }

  lemma LiveLast(bs: seq<Block>, start: nat, end: nat)
    requires Tiles(bs, start, end) && bs != []
    ensures var (x, rest) := (bs[|bs| - 1], bs[..|bs| - 1]);
      x !in Live(rest) && Live(bs) == if x.free then Live(rest) else Live(rest) + {x}
  {
    var x, rest := bs[|bs| - 1], bs[..|bs| - 1];
    FindBlock(bs, start, end, |bs| - 1);
    assert forall j :: 0 <= j < |rest| ==> rest[j] == bs[j] && bs[j].addr != x.addr;
    LiveJoin(rest, [x]);
    assert bs == rest + [x];
    assert [x][0] == x;
    assert Live([x]) == if x.free then {} else {x};
  }

  /** A malloc moves the words of the new block from the free ones to the allocated ones. */
  lemma MallocInfo(h: Heap, n: nat, below: Word, start: nat, end: nat) returns (x: Block)
    requires WellFormed(h, start, end) && Malloc(h, n, below).1.Allocated?
    ensures var (h', r) := Malloc(h, n, below);
      && x.addr == r.addr && LiveGrew(h.blocks, h'.blocks, n, x)
      && var (a, b) := (InfoOf(h.blocks), InfoOf(h'.blocks));
         b.alloc == a.alloc + 1 && b.allocSize == a.allocSize + 4 * x.size && b.freeSize == a.freeSize - 4 * x.size
  {
    var (h', r) := Malloc(h, n, below);
    MallocKeeps(h, n, below, start, end);
    var size :| LiveGrew(h.blocks, h'.blocks, n, Block(r.addr, size, false));
    x := Block(r.addr, size, false);
    hide Malloc;
    WordsAdd(Live(h.blocks), x);
    InfoMeans(h.blocks, start, end);
    InfoMeans(h'.blocks, start, end);
  }

  /** A free moves them back. */
  lemma FreeInfo(h: Heap, i: nat, below: Word, start: nat, end: nat)
    requires WellFormed(h, start, end) && i < |h.blocks| && !h.blocks[i].free
    ensures var (a, b, x) := (InfoOf(h.blocks), InfoOf(Free(h, i, below).blocks), h.blocks[i]);
      b.alloc == a.alloc - 1 && b.allocSize == a.allocSize - 4 * x.size && b.freeSize == a.freeSize + 4 * x.size
  {
    var x, h' := h.blocks[i], Free(h, i, below);
    FreeKeeps(h, i, below, start, end);
    hide Free;
    assert x in Live(h.blocks);
    assert Live(h'.blocks) + {x} == Live(h.blocks);
    WordsAdd(Live(h'.blocks), x);
    InfoMeans(h.blocks, start, end);
    InfoMeans(h'.blocks, start, end);
  }

  lemma {:induction false} MaxFreeIsMax(bs: seq<Block>)
    ensures forall i :: 0 <= i < |bs| && bs[i].free ==> 4 * bs[i].size <= InfoOf(bs).maxFree
    ensures InfoOf(bs).maxFree > 0 ==> exists i :: 0 <= i < |bs| && bs[i].free && 4 * bs[i].size == InfoOf(bs).maxFree
  {
    if bs != [] {
      var k := |bs| - 1;
      MaxFreeIsMax(bs[..k]);
      if InfoOf(bs).maxFree > 0 && !(bs[k].free && 4 * bs[k].size == InfoOf(bs).maxFree) {
        var i :| 0 <= i < k && bs[..k][i].free && 4 * bs[..k][i].size == InfoOf(bs[..k]).maxFree;
        assert bs[i].free && 4 * bs[i].size == InfoOf(bs).maxFree;
      }
      forall i | 0 <= i < |bs| && bs[i].free ensures 4 * bs[i].size <= InfoOf(bs).maxFree {
        if i < k { assert bs[..k][i] == bs[i]; }
      }
    }
  }

  /** malloc fails exactly when it is asked for nothing or no free block is large enough, whatever the
      hint names, and then changes nothing. */
  lemma MallocComplete(h: Heap, n: nat, below: Word)
    requires Malloc(h, n, below).1 != Wild
    ensures Malloc(h, n, below).1 == NoMemory <==> n == 0 || 4 * Need(n) > InfoOf(h.blocks).maxFree
    ensures Malloc(h, n, below).1 == NoMemory ==> Malloc(h, n, below).0 == h
  {
    var bs := h.blocks;
    MaxFreeIsMax(bs);
    if 4 * Need(n) <= InfoOf(bs).maxFree {
      var i :| 0 <= i < |bs| && bs[i].free && 4 * bs[i].size == InfoOf(bs).maxFree;
      assert bs[i].Fits(Need(n));
    }
  }

  // ---------------------------------------------------------------- runs

  datatype Op = DoMalloc(n: nat) | DoFree(addr: nat)

  function Initial(start: nat, end: nat): Heap
    requires start <= end
  {
    Heap([Block(start, end - start, true)], Names(start))
  }

  /** What callers owe: requests that do not wrap, and free only of a live block. */
  predicate Legal(h: Heap, op: Op) {
    match op
    case DoMalloc(n) => n <= MAX_REQUEST
    case DoFree(a) => var i := Find(h.blocks, a); i < |h.blocks| && !h.blocks[i].free
  }

  predicate GoesWild(h: Heap, op: Op, below: Word) {
    op.DoMalloc? && Malloc(h, op.n, below).1 == Wild
  }

  function After(h: Heap, op: Op, below: Word): Heap
    requires Legal(h, op)
  {
    match op
    case DoMalloc(n) => Malloc(h, n, below).0
    case DoFree(a) => Free(h, Find(h.blocks, a), below)
  }

  predicate LegalRun(h: Heap, ops: seq<Op>, below: Word)
    decreases |ops|
  {
    ops != [] ==>
      Legal(h, ops[0]) && !GoesWild(h, ops[0], below) && LegalRun(After(h, ops[0], below), ops[1..], below)
  }

  function Run(h: Heap, ops: seq<Op>, below: Word): Heap
    requires LegalRun(h, ops, below)
    decreases |ops|
  {
    if ops == [] then h else Run(After(h, ops[0], below), ops[1..], below)
  }

  lemma {:induction false} RunKeeps(h: Heap, ops: seq<Op>, below: Word, start: nat, end: nat)
    requires WellFormed(h, start, end) && LegalRun(h, ops, below)
    ensures WellFormed(Run(h, ops, below), start, end)
    decreases |ops|
  {
    if ops != [] {
      var h' := After(h, ops[0], below);
      if ops[0].DoFree? {
        FreeKeeps(h, Find(h.blocks, ops[0].addr), below, start, end);
      } else if Malloc(h, ops[0].n, below).1.Allocated? {
        MallocKeeps(h, ops[0].n, below, start, end);
      }
      RunKeeps(h', ops[1..], below, start, end);
    }
  }

  lemma InitialWellFormed(start: nat, end: nat)
    requires start + 4 <= end && (end - start) % 2 == 0
    ensures WellFormed(Initial(start, end), start, end) && Live(Initial(start, end).blocks) == {}
  {
    assert IsBlock(Initial(start, end).blocks, 0, start);
  }

  /** Every run that ends with nothing live ends with the initial single free block. */
  lemma AllFreedIsInitial(ops: seq<Op>, below: Word, start: nat, end: nat)
    requires start + 4 <= end && (end - start) % 2 == 0
    requires LegalRun(Initial(start, end), ops, below)
    requires Live(Run(Initial(start, end), ops, below).blocks) == {}
    ensures Run(Initial(start, end), ops, below).blocks == Initial(start, end).blocks
  {
    InitialWellFormed(start, end);
    RunKeeps(Initial(start, end), ops, below, start, end);
    Canonical(Run(Initial(start, end), ops, below).blocks, Initial(start, end).blocks, start, end);
  }

  /** The first of several frees is legal and leaves the others to be freed. */
  lemma FirstFree(h: Heap, order: seq<Block>, below: Word, start: nat, end: nat)
    requires WellFormed(h, start, end) && order != []
    requires forall x :: x in order <==> x in Live(h.blocks)
    requires forall i, j :: 0 <= i < j < |order| ==> order[i] != order[j]
    ensures var op := DoFree(order[0].addr);
      && Legal(h, op) && WellFormed(After(h, op, below), start, end)
      && forall x :: x in order[1..] <==> x in Live(After(h, op, below).blocks)
  {
    var x, rest := order[0], order[1..];
    assert x in order;
    var i :| 0 <= i < |h.blocks| && !h.blocks[i].free && h.blocks[i] == x;
    FindBlock(h.blocks, start, end, i);
    FreeKeeps(h, i, below, start, end);
    hide Free;
    hide Live;
    hide WellFormed;
    forall y ensures y in rest <==> y in Live(h.blocks) - {x} {
      assert y in order <==> y == x || y in rest;
    }
  }

  /** Freeing all live blocks, in any order, is legal and leaves one free block. */
  lemma {:induction false} FreeAllAnyOrder(h: Heap, order: seq<Block>, below: Word, start: nat, end: nat)
    requires WellFormed(h, start, end)
    requires forall x :: x in order <==> x in Live(h.blocks)
    requires forall i, j :: 0 <= i < j < |order| ==> order[i] != order[j]
    ensures var ops := seq(|order|, i requires 0 <= i < |order| => DoFree(order[i].addr));
      LegalRun(h, ops, below) && Run(h, ops, below).blocks == [Block(start, end - start, true)]
    decreases |order|
  {
    var ops := seq(|order|, i requires 0 <= i < |order| => DoFree(order[i].addr));
    if order == [] {
      NothingLive(h, order, start, end);
    } else {
      var rest := order[1..];
      FirstFree(h, order, below, start, end);
      FreeAllAnyOrder(After(h, ops[0], below), rest, below, start, end);
      hide WellFormed;
      hide Live;
      hide Legal;
      hide After;
      assert ops[1..] == seq(|rest|, i requires 0 <= i < |rest| => DoFree(rest[i].addr));
    }
  }

  lemma NothingLive(h: Heap, order: seq<Block>, start: nat, end: nat)
    requires WellFormed(h, start, end) && order == [] && forall x :: x in order <==> x in Live(h.blocks)
    ensures h.blocks == [Block(start, end - start, true)]
  {
    assert Live(h.blocks) == {};
    TilesOrder(h.blocks, start, end);
    TilesSingle(h.blocks, start, end);
  }

  lemma TilesSingle(bs: seq<Block>, start: nat, end: nat)
    requires Tiles(bs, start, end) && start < end && Live(bs) == {}
    ensures bs == [Block(start, end - start, true)]
  {
    assert forall i :: 0 <= i < |bs| && !bs[i].free ==> bs[i] in Live(bs);
  }

  // ---------------------------------------------------------------- the NULL hint

  ghost predicate ReachesWild(ops: seq<Op>, n: nat, below: Word, start: nat, end: nat)
    requires start <= end
  {
    && LegalRun(Initial(start, end), ops, below)
    && Legal(Run(Initial(start, end), ops, below), DoMalloc(n))
    && GoesWild(Run(Initial(start, end), ops, below), DoMalloc(n), below)
  }

  /** After taking a free block whole, malloc stores NULL as the hint. Some run then makes malloc
      take NULL for a block exactly when the word below address 0 reads as a free block of at
      least 16 bytes. */
  lemma WildReachable(below: Word, start: nat, end: nat)
    requires 4 <= start && start + 4 <= end && (end - start) % 2 == 0 && 4 * end <= 0x1_0000_0000
    ensures (exists ops, n :: ReachesWild(ops, n, below, start, end))
              <==> IsFree(below) && SizeOf(below) >= 4
  {
    if IsFree(below) && SizeOf(below) >= 4 {
      var h, n := Initial(start, end), 4 * (end - start) - 8;
      var ops := [DoMalloc(n)];
      assert Need(n) == end - start;
      assert Find(h.blocks, start) == 0;
      var h1 := After(h, ops[0], below);
      assert h1.hint == Null;
      assert ops[1..] == [];
      assert Run(h, ops, below) == h1;
      assert ReachesWild(ops, 1, below, start, end);
    }
  }
}
