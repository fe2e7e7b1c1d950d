/** The memory-heap allocator (src/memheap.c): one pool cut into blocks that form a
    ring in address order, and a ring of the free ones. */
module MemHeap {
  import opened Ring
  import opened BlockLayout
  import opened Lists

  const H := 24     // RT_MEMHEAP_SIZE: the item header, 4-byte words
  const MINI := 12  // RT_MEMHEAP_MINIALLOC
  const FREE := -1  // the address of the free list header

  // --------------------------------------------------------------- request sizes

  const WORD := 0x1_0000_0000

  /** The size a request is rounded to, in 32-bit arithmetic. */
  function Rounded(size: nat): (n: nat)
    ensures n >= MINI && n % ALIGN == 0
  {
    var n := (size + ALIGN - 1) / ALIGN * ALIGN % WORD;
    if n < MINI then MINI else n
  }

  /** The rounded size covers the request unless rounding up wraps round zero. */
  lemma RoundedCovers(size: nat)
    requires size < WORD
    ensures Rounded(size) >= size <==> size <= WORD - ALIGN
    ensures size <= WORD - ALIGN ==> Rounded(size) < size + ALIGN || Rounded(size) == MINI
  {
  }

  lemma RoundedTwice(size: nat)
    ensures Rounded(Rounded(size)) == Rounded(size)
  {
    var n := Rounded(size);
    assert (n + ALIGN - 1) / ALIGN * ALIGN == n;
  }

  /** A block can grow in place: the test of lines 340-350, in 32-bit arithmetic. */
  predicate CanGrow(nextSize: nat, oldSize: nat, n: nat) { nextSize + oldSize > (n + MINI) % WORD }

  /** For every block, free block behind it and size, the test is right exactly when its
      sum does not wrap; when it wraps it accepts what cannot fit. */
  lemma CanGrowIsRight(nextSize: nat, oldSize: nat, n: nat)
    requires n < WORD && oldSize >= MINI && nextSize + oldSize < WORD
    ensures (CanGrow(nextSize, oldSize, n) <==> nextSize + oldSize > n + MINI) <==> n + MINI < WORD
    ensures n + MINI >= WORD ==> CanGrow(nextSize, oldSize, n) && nextSize + oldSize <= n + MINI
  {
  }

  // -------------------------------------------------------------------- the heap

  /** The free list holds exactly the unused blocks. */
  ghost predicate FreeIs(free: seq<int>, b: seq<int>, used: set<int>)
  {
    forall x :: x in free <==> x in b && x !in used
  }

  /** There is no room for `n` bytes: not that many are free, or not in one block. */
  ghost predicate Short(available: int, free: seq<int>, next: map<int, int>, n: int)
  {
    n >= available || forall x :: x in free ==> x in next && next[x] - x - H < n
  }

  /** The block at `a`, with `have` bytes, is kept for `n` bytes: it has them, or the free
      block behind it has them and more than a smallest block on top. */
  ghost predicate InPlace(next: map<int, int>, used: set<int>, have: int, a: int, n: int)
  {
    || n <= have
    || (a in next && next[a] in next && next[a] !in used && next[next[a]] - a - 2 * H > n + MINI)
  }

  /** `a` is the first block of the free list with `n` bytes. */
  ghost predicate IsFirstFit(free: seq<int>, next: map<int, int>, n: int, a: int)
  {
    exists k :: FitsFirst(free, next, n, a, k)
  }

  predicate FitsFirst(free: seq<int>, next: map<int, int>, n: int, a: int, k: int)
  {
    && 0 <= k < |free| && free[k] == a && a in next && next[a] - a - H >= n
    && forall j :: 0 <= j < k ==> free[j] in next && next[free[j]] - free[j] - H < n
  }

  lemma FreePush(free: seq<int>, b: seq<int>, used: set<int>, x: int, b': seq<int>, used': set<int>)
    requires FreeIs(free, b, used)
    requires forall y :: y in b' && y !in used' <==> (y in b && y !in used) || y == x
    ensures FreeIs([x] + free, b', used')
  {
  }

  lemma FreeDrop(free: seq<int>, b: seq<int>, used: set<int>, k: nat, b': seq<int>, used': set<int>)
    requires FreeIs(free, b, used) && k < |free| && Distinct(free)
    requires forall y :: y in b' && y !in used' <==> y in b && y !in used && y != free[k]
    ensures FreeIs(Remove(free, k), b', used')
  {
    RemoveMembers(free, k);
  }

  lemma FreeInBlocks(free: seq<int>, b: seq<int>, used: set<int>)
    requires FreeIs(free, b, used)
    ensures forall x :: x in free ==> x in b && x !in used
  {
  }

  /** The front of a free block is taken, and the rest goes to the free list. */
  lemma SplitOff(b: seq<int>, used: set<int>, live: Live, free: seq<int>, start: int, tail: int, i: nat, k: nat, x: int)
    requires Layout(H, b, used, live, start, tail) && FreeIs(free, b, used) && Distinct(free)
    requires i + 1 < |b| && k < |free| && free[k] == b[i]
    requires b[i] + H <= x && x + H <= b[i + 1] && x % ALIGN == 0
    ensures x !in b && x !in Remove(free, k) && b[i] + H !in live
    ensures Layout(H, Insert(b, i, x), used + {b[i]}, live[b[i] + H := x - b[i] - H], start, tail)
    ensures FreeSum(H, Insert(b, i, x), used + {b[i]}) == FreeSum(H, b, used) - (x - b[i])
    ensures FreeIs([x] + Remove(free, k), Insert(b, i, x), used + {b[i]})
  {
    hide Tiles, Held, Merged, FreeIs, FreeSum, Insert, Remove;
    FreeInBlocks(free, b, used);
    Neighbour(b, used, i, i + 1);
    Take(H, H, b, used, live, start, tail, i);
    Cut(H, H, b, used + {b[i]}, live[b[i] + H := b[i + 1] - b[i] - H], start, tail, i, x);
    assert live[b[i] + H := b[i + 1] - b[i] - H][b[i] + H := x - b[i] - H] == live[b[i] + H := x - b[i] - H];
    FreeDrop(free, b, used, k, b, used + {b[i]});
    FreeInBlocks(Remove(free, k), b, used + {b[i]});
    InsertMembers(b, i, x);
    FreePush(Remove(free, k), b, used + {b[i]}, x, Insert(b, i, x), used + {b[i]});
  }

  /** The free list that goes with it; k is the place of the right neighbour. */
  lemma GiveBackFree(b: seq<int>, used: set<int>, free: seq<int>, i: nat, k: nat)
    requires FreeIs(free, b, used) && Distinct(free) && Distinct(b) && i + 1 < |b| && b[i] in used
    requires b[i + 1] !in used ==> k < |free| && free[k] == b[i + 1] && i + 2 < |b|
    ensures var left := i > 0 && b[i - 1] !in used;
            var rest := if b[i + 1] in used then free else Remove(free, k);
            b[i] !in rest && FreeIs(if left then rest else [b[i]] + rest, FreedBlocks(b, used, i), used - {b[i]})
  {
    hide Remove, Distinct, FreeIs;
    FreeInBlocks(free, b, used);
    var rest := if b[i + 1] in used then free else Remove(free, k);
    var c := if b[i + 1] in used then b else Remove(b, i + 1);
    if b[i + 1] !in used {
      RemoveMembers(b, i + 1);
      RemoveAt(b, i + 1);
      FreeDrop(free, b, used, k, c, used);
      DistinctRemove(b, i + 1);
    }
    FreeInBlocks(rest, c, used);
    if i > 0 && b[i - 1] !in used {
      RemoveMembers(c, i);
      FreeSame(rest, c, used, Remove(c, i), used - {b[i]});
    } else {
      FreePush(rest, c, used, b[i], c, used - {b[i]});
    }
  }

  lemma FreeSame(free: seq<int>, b: seq<int>, used: set<int>, b': seq<int>, used': set<int>)
    requires FreeIs(free, b, used)
    requires forall y :: y in b' && y !in used' <==> y in b && y !in used
    ensures FreeIs(free, b', used')
  {
  }

  lemma CutOffFree(b: seq<int>, used: set<int>, free: seq<int>, i: nat, k: nat, x: int)
    requires FreeIs(free, b, used) && Distinct(free) && Distinct(b) && i + 1 < |b| && b[i] in used && x !in used
    requires b[i + 1] !in used ==> k < |free| && free[k] == b[i + 1] && x !in Remove(b, i + 1)
    requires b[i + 1] in used ==> x !in b
    ensures var rest := if b[i + 1] in used then free else Remove(free, k);
            x !in rest && FreeIs([x] + rest, CutBlocks(b, used, i, x), used)
  {
    hide Insert, Remove, Distinct, FreeIs;
    var c := if b[i + 1] in used then b else Remove(b, i + 1);
    var rest := if b[i + 1] in used then free else Remove(free, k);
    if b[i + 1] !in used {
      RemoveMembers(b, i + 1);
      RemoveAt(b, i + 1);
      FreeDrop(free, b, used, k, c, used);
    }
    FreeInBlocks(rest, c, used);
    InsertMembers(c, i, x);
    FreePush(rest, c, used, x, Insert(c, i, x), used);
  }

  ghost predicate FreeRing(nextFree: map<int, int>, prevFree: map<int, int>, free: seq<int>)
  {
    IsRing(nextFree, prevFree, [FREE] + free)
  }

  function Behind(free: seq<int>, k: nat): int { if k + 1 < |free| then free[k + 1] else FREE }

  lemma FreeRingFacts(nextFree: map<int, int>, prevFree: map<int, int>, free: seq<int>)
    requires FreeRing(nextFree, prevFree, free)
    ensures Distinct(free) && FREE !in free
    ensures FREE in nextFree && FREE in prevFree
    ensures forall x :: x in free ==> x in nextFree && x in prevFree
    ensures nextFree[FREE] == if free == [] then FREE else free[0]
    ensures forall k :: 0 <= k < |free| ==> free[k] in nextFree && nextFree[free[k]] == Behind(free, k)
  {
    var s := [FREE] + free;
    assert s[0] == FREE;
    assert forall k :: 0 <= k < |free| ==> free[k] == s[k + 1];
    assert Adj(0, if free == [] then 0 else 1, |s|);
    forall k | 0 <= k < |free| ensures nextFree[free[k]] == Behind(free, k) {
      assert Adj(k + 1, if k + 1 < |free| then k + 2 else 0, |s|);
    }
  }

  lemma FreeDistinct(nextFree: map<int, int>, prevFree: map<int, int>, free: seq<int>)
    requires FreeRing(nextFree, prevFree, free)
    ensures Distinct(free)
  {
    FreeRingFacts(nextFree, prevFree, free);
  }

  lemma BlocksDistinct(next: map<int, int>, prev: map<int, int>, s: seq<int>)
    requires IsRing(next, prev, s)
    ensures Distinct(s)
  {
  }

  lemma NextAt(next: map<int, int>, prev: map<int, int>, s: seq<int>, i: nat)
    requires IsRing(next, prev, s) && i + 1 < |s|
    ensures s[i] in next && next[s[i]] == s[i + 1] && s[i + 1] in next
  {
    assert Adj(i, i + 1, |s|);
  }

  /** The bytes of a block of `found` that a request of `n` gets: those it needs, or all if
      the rest could not hold a header and MINI bytes. */
  function Given(found: int, n: int): int { if found >= n + H + MINI then n else found }

  /** The bytes of a block of `was` that is resized to `n` in place: those it had, if it is
      neither too small nor large enough to cut. */
  function Kept(was: int, n: int): int { if n <= was <= n + H + MINI then was else n }

  class Pool {
    const start: int
    const pool: int
    var next: map<int, int>
    var prev: map<int, int>
    var nextFree: map<int, int>
    var prevFree: map<int, int>
    var used: set<int>
    var available: int
    var maxUsed: int
    ghost var blocks: seq<int>
    ghost var free: seq<int>
    ghost var live: Live

    ghost predicate Valid()
      reads this
    {
      && start >= 0
      && IsRing(next, prev, blocks) && FreeRing(nextFree, prevFree, free)
      && Layout(H, blocks, used, live, start, start + pool - H) && FreeIs(free, blocks, used)
      && available == FreeSum(H, blocks, used) && pool - available <= maxUsed
    }

    /** The block behind `a` is free. */
    predicate FreeBehind(a: int)
      reads this
    {
      a in next && next[a] !in used
    }

    constructor (startAddr: nat, size: nat)
      requires startAddr % ALIGN == 0 && size / ALIGN * ALIGN >= 2 * H
      ensures Valid() && start == startAddr && pool == size / ALIGN * ALIGN
      ensures live == map[] && available == pool - 2 * H && maxUsed == 2 * H
      ensures free == [start] && start in next && next[start] == start + pool - H
    {
      hide Layout, FreeSum;
      var tail := startAddr + size / ALIGN * ALIGN - H;
      start, pool := startAddr, size / ALIGN * ALIGN;
      available, maxUsed := size / ALIGN * ALIGN - 2 * H, 2 * H;
      next, prev := map[startAddr := tail, tail := startAddr], map[startAddr := tail, tail := startAddr];
      nextFree, prevFree := map[FREE := startAddr, startAddr := FREE], map[FREE := startAddr, startAddr := FREE];
      used := {tail};
      blocks, free, live := [startAddr, tail], [startAddr], map[];
      Fresh(H, H, startAddr, tail);
      assert [FREE] + [startAddr] == [FREE, startAddr];
    }

    /** Insert x behind the free list header. */
    method PushFree(x: int)
      requires FreeRing(nextFree, prevFree, free) && x !in free && x != FREE
      modifies `nextFree, `prevFree, `free
      ensures FreeRing(nextFree, prevFree, free) && free == [x] + old(free)
    {
      ghost var s := [FREE] + free;
      assert s[0] == FREE;
      InsertRing(nextFree, prevFree, s, 0, x);
      assert Insert(s, 0, x) == [FREE] + ([x] + free);
      var first := nextFree[FREE];
      nextFree := nextFree[x := first];
      prevFree := prevFree[x := FREE];
      prevFree := prevFree[first := x];
      nextFree := nextFree[FREE := x];
      free := [x] + free;
    }

    /** Unlink x from the free list. */
    method DropFree(x: int, ghost k: nat)
      requires FreeRing(nextFree, prevFree, free) && k < |free| && free[k] == x
      modifies `nextFree, `prevFree, `free
      ensures FreeRing(nextFree, prevFree, free) && free == Remove(old(free), k)
    {
      ghost var s := [FREE] + free;
      assert s[k + 1] == x;
      RemoveRing(nextFree, prevFree, s, k + 1);
      assert Remove(s, k + 1) == [FREE] + Remove(free, k);
      var before, behind := prevFree[x], nextFree[x];
      prevFree := prevFree[behind := before];
      nextFree := nextFree[before := behind];
      free := Remove(free, k);
    }

    /** Link a new block x behind the block a. */
    method LinkBlock(a: int, x: int, ghost i: nat)
      requires IsRing(next, prev, blocks) && i < |blocks| && blocks[i] == a && x !in blocks
      modifies `next, `prev, `blocks
      ensures IsRing(next, prev, blocks) && blocks == Insert(old(blocks), i, x)
    {
      InsertRing(next, prev, blocks, i, x);
      var behind := next[a];
      prev := prev[x := a];
      next := next[x := behind];
      prev := prev[behind := x];
      next := next[a := x];
      blocks := Insert(blocks, i, x);
    }

    /** Take the block x off the ring. */
    method UnlinkBlock(x: int, ghost i: nat)
      requires IsRing(next, prev, blocks) && i < |blocks| && blocks[i] == x && |blocks| > 1
      modifies `next, `prev, `blocks
      ensures IsRing(next, prev, blocks) && blocks == Remove(old(blocks), i)
    {
      RemoveRing(next, prev, blocks, i);
      var before, behind := prev[x], next[x];
      next := next[before := behind];
      prev := prev[behind := before];
      blocks := Remove(blocks, i);
    }

    /** The block h takes in the free one behind it. */
    method JoinRight(h: int, ghost j: nat, ghost k: nat)
      requires IsRing(next, prev, blocks) && FreeRing(nextFree, prevFree, free)
      requires j + 1 < |blocks| && blocks[j] == h && k < |free| && free[k] == blocks[j + 1]
      modifies `next, `prev, `blocks, `nextFree, `prevFree, `free
      ensures IsRing(next, prev, blocks) && FreeRing(nextFree, prevFree, free)
      ensures blocks == Remove(old(blocks), j + 1) && free == Remove(old(free), k)
    {
      hide IsRing, FreeRing, Remove;
      NextAt(next, prev, blocks, j);
      var x := next[h];
      UnlinkBlock(x, j + 1);
      DropFree(x, k);
    }

    /** MEMITEM_SIZE */
    function SizeOf(a: int): int
      requires a in next
      reads this
    {
      next[a] - a - H
    }

    /** What the ring says about the block at index i. */
    lemma BlockFacts(i: nat)
      requires Valid() && i + 1 < |blocks|
      ensures blocks[i] in next && next[blocks[i]] == blocks[i + 1] && blocks[i + 1] in next && blocks[i + 1] in prev
      ensures blocks[i] in prev && (blocks[i] in used || blocks[i + 1] in used)
      ensures i > 0 ==> prev[blocks[i]] == blocks[i - 1] && blocks[i - 1] in next && blocks[i - 1] in prev
      ensures i == 0 ==> prev[blocks[i]] in used && prev[blocks[i]] != blocks[i]
      ensures blocks[i] + H <= blocks[i + 1] && blocks[i] % ALIGN == 0 && blocks[i] >= 0
      ensures i + 2 == |blocks| ==> blocks[i + 1] in used
    {
      assert Adj(i, i + 1, |blocks|) && Adj(|blocks| - 1, 0, |blocks|);
      assert i > 0 ==> Adj(i - 1, i, |blocks|);
      assert i > 0 ==> blocks[0] + H <= blocks[i];
    }

    /** A block that is not the tail has its place in the ring. */
    lemma BlockIndex(a: int) returns (i: nat)
      requires Valid() && a in blocks && (a !in used || a + H in live)
      ensures i + 1 < |blocks| && blocks[i] == a
    {
      i :| 0 <= i < |blocks| && blocks[i] == a;
    }

    lemma FreeFacts(a: int)
      requires Valid() && a in free
      ensures a in next && a in blocks && a !in used && a != FREE
    {
      FreeRingFacts(nextFree, prevFree, free);
    }

    lemma LiveIndex(a: int) returns (i: nat)
      requires Valid() && a + H in live
      ensures i + 1 < |blocks| && blocks[i] == a && a in used
    {
      assert a + H - H in used;
      i := BlockIndex(a);
    }

    lemma FreeIndex(i: nat) returns (k: nat)
      requires Valid() && i + 1 < |blocks|
      ensures blocks[i + 1] !in used ==> k < |free| && free[k] == blocks[i + 1] && i + 2 < |blocks|
    {
      k := 0;
      BlockFacts(i);
      if blocks[i + 1] !in used {
        k :| 0 <= k < |free| && free[k] == blocks[i + 1];
      }
    }

    /** The first block of the free list that has n bytes. */
    method FirstFit(n: nat) returns (a: int, size: int, ghost k: nat)
      requires Valid() && n > 0
      ensures size >= n ==> k < |free| && free[k] == a && a in next && size == SizeOf(a)
      ensures size >= n ==> forall j :: 0 <= j < k ==> free[j] in next && SizeOf(free[j]) < n
      ensures size < n ==> forall x :: x in free ==> x in next && SizeOf(x) < n
    {
      forall x | x in free ensures x in next { FreeFacts(x); }
      FreeRingFacts(nextFree, prevFree, free);
      hide IsRing, FreeRing, Layout, FreeIs, FreeSum;
      a, size, k := nextFree[FREE], 0, 0;
      while a != FREE && size < n
        invariant k <= |free| && a == (if k < |free| then free[k] else FREE)
        invariant size >= n ==> k < |free| && size == SizeOf(a)
        invariant forall j :: 0 <= j < k ==> SizeOf(free[j]) < n
        decreases |free| - k, n - size
      {
        size := next[a] - a - H;
        if size < n {
          a := nextFree[a];
          k := k + 1;
        }
      }
    }

    /** The most that has been in use, headers and all. */
    ghost predicate Peak(before: int)
      reads this
    {
      maxUsed == if pool - available > before then pool - available else before
    }

    method TakeWhole(a: int, size: int, ghost i: nat, ghost k: nat)
      requires Valid() && i + 1 < |blocks| && blocks[i] == a && k < |free| && free[k] == a
      requires a in next && size == SizeOf(a)
      modifies this
      ensures Valid() && a + H !in old(live) && live == old(live)[a + H := size] && Peak(old(maxUsed))
    {
      hide Distinct, IsRing, FreeRing, Layout, FreeIs, FreeSum, Insert, Remove;
      FreeFacts(a);
      BlockFacts(i);
      FreeDistinct(nextFree, prevFree, free);
      Take(H, H, blocks, used, live, start, start + pool - H, i);
      FreeDrop(free, blocks, used, k, blocks, used + {a});
      available := available - size;
      maxUsed := if pool - available > maxUsed then pool - available else maxUsed;
      DropFree(a, k);
      used := used + {a};
      live := live[a + H := size];
    }

    method TakePart(a: int, n: nat, ghost i: nat, ghost k: nat)
      requires Valid() && i + 1 < |blocks| && blocks[i] == a && k < |free| && free[k] == a
      requires a in next && n + H + MINI <= SizeOf(a) && n % ALIGN == 0
      modifies this
      ensures Valid() && a + H !in old(live) && live == old(live)[a + H := n] && Peak(old(maxUsed))
      ensures free != [] && free[0] == a + H + n
    {
      hide Distinct, IsRing, FreeRing, Layout, FreeIs, FreeSum, Insert, Remove;
      BlockFacts(i);
      FreeDistinct(nextFree, prevFree, free);
      var x := a + n + H;
      SplitOff(blocks, used, live, free, start, start + pool - H, i, k, x);
      LinkBlock(a, x, i);
      DropFree(a, k);
      PushFree(x);
      available := available - n - H;
      maxUsed := if pool - available > maxUsed then pool - available else maxUsed;
      used := used + {a};
      live := live[a + H := n];
    }

    /** A block of the rounded size, or of one too small to split off the rest. Nothing
        is handed out exactly when no free block has the room, or the rounded size is
        not below the free bytes. */
    method Alloc(size: nat) returns (p: Option<int>)
      requires Valid() && size < WORD
      modifies this
      ensures Valid()
      ensures p.None? ==> unchanged(this)
      ensures p.None? <==> Short(old(available), old(free), old(next), Rounded(size))
      ensures p.Some? ==> p.value !in old(live) && p.value in live && live == old(live)[p.value := live[p.value]]
      ensures p.Some? ==> p.value % ALIGN == 0 && Rounded(size) <= live[p.value] < Rounded(size) + H + MINI
      ensures p.Some? ==> IsFirstFit(old(free), old(next), Rounded(size), p.value - H)
      ensures p.Some? ==> p.value - H in old(next) && live[p.value] == Given(old(next)[p.value - H] - p.value, Rounded(size))
      ensures p.Some? ==> Peak(old(maxUsed))
      ensures p.Some? && old(next)[p.value - H] - p.value > live[p.value] ==> free != [] && free[0] == p.value + live[p.value]
    {
      var n := Rounded(size);
      if n < available {
        var a, found, k := FirstFit(n);
        if found >= n {
          assert FitsFirst(free, next, n, a, k);
          FreeFacts(a);
          ghost var i := BlockIndex(a);
          BlockFacts(i);
          if found >= n + H + MINI {
            TakePart(a, n, i, k);
          } else {
            TakeWhole(a, found, i, k);
          }
          return Some(a + H);
        }
      }
      return None;
    }

    /** A block just given back goes to the one before it, if that is free. */
    method MergeLeft(a: int, ghost i: nat) returns (h: int, left: bool)
      requires IsRing(next, prev, blocks) && i + 1 < |blocks| && blocks[i] == a && a in prev
      requires if i == 0 then prev[a] in used else prev[a] == blocks[i - 1]
      modifies `next, `prev, `blocks, `available
      ensures IsRing(next, prev, blocks) && left == (i > 0 && old(blocks)[i - 1] !in used)
      ensures left ==> h == old(blocks)[i - 1] && blocks == Remove(old(blocks), i) && available == old(available) + H
      ensures !left ==> h == a && blocks == old(blocks) && available == old(available)
      ensures h in next && next[h] == old(blocks)[i + 1]
      ensures left ==> |blocks| == |old(blocks)| - 1 && blocks[i - 1] == h && blocks[i] == old(blocks)[i + 1]
    {
      hide IsRing, Remove;
      NextAt(next, prev, blocks, i);
      h, left := a, false;
      if prev[a] !in used {
        available := available + H;
        h, left := prev[a], true;
        RemoveAt(blocks, i);
        UnlinkBlock(a, i);
        NextAt(next, prev, blocks, i - 1);
      }
    }

    method Free(p: Option<int>)
      requires Valid() && (p.Some? ==> p.value in live)
      modifies this
      ensures Valid() && live == (if p.Some? then old(live) - {p.value} else old(live)) && maxUsed == old(maxUsed)
      ensures p.Some? && p.value - H in old(prev) && old(prev)[p.value - H] in old(used) ==> free != [] && free[0] == p.value - H
    {
      hide IsRing, FreeRing, Layout, FreeIs, FreeSum, Insert, Remove, Distinct;
      if p.None? { return; }
      var a := p.value - H;
      ghost var i := LiveIndex(a);
      BlockFacts(i);
      ghost var k := FreeIndex(i);
      GiveBack(H, H, blocks, used, live, start, start + pool - H, i);
      BlocksDistinct(next, prev, blocks);
      FreeDistinct(nextFree, prevFree, free);
      GiveBackFree(blocks, used, free, i, k);
      ghost var b, u := blocks, used;
      used := used - {a};
      available := available + SizeOf(a);
      var h, left := MergeLeft(a, i);
      if next[h] !in used {
        available := available + H;
        JoinRight(h, if left then i - 1 else i, k);
        if left { RemoveTwo(b, i); }
      }
      if !left {
        PushFree(h);
      }
      live := live - {a + H};
    }

    /** The block grows into the free one behind it. */
    method Grow(a: int, n: nat, ghost i: nat, ghost k: nat)
      requires Valid() && i + 1 < |blocks| && blocks[i] == a && a in used && n % ALIGN == 0
      requires blocks[i + 1] !in used && i + 2 < |blocks| && k < |free| && free[k] == blocks[i + 1]
      requires a + 2 * H + n <= blocks[i + 2]
      modifies this
      ensures Valid() && a + H in old(live) && live == old(live)[a + H := n]
    {
      hide IsRing, FreeRing, Layout, FreeIs, FreeSum, Insert, Remove, Distinct;
      BlockFacts(i);
      BlocksDistinct(next, prev, blocks);
      FreeDistinct(nextFree, prevFree, free);
      var x := a + H + n;
      CutOff(H, H, blocks, used, live, start, start + pool - H, i, x);
      CutOffFree(blocks, used, free, i, k, x);
      RemoveAt(blocks, i + 1);
      available := available - (n - SizeOf(a));
      maxUsed := if pool - available > maxUsed then pool - available else maxUsed;
      var behind := next[a];
      DropFree(behind, k);
      UnlinkBlock(behind, i + 1);
      LinkBlock(a, x, i);
      PushFree(x);
      live := live[a + H := n];
    }

    /** The end of the block is cut off. */
    method Shrink(a: int, n: nat, ghost i: nat, ghost k: nat)
      requires Valid() && i + 1 < |blocks| && blocks[i] == a && a in used && n % ALIGN == 0
      requires blocks[i + 1] !in used ==> i + 2 < |blocks| && k < |free| && free[k] == blocks[i + 1]
      requires a + 2 * H + n <= blocks[i + 1]
      modifies this
      ensures Valid() && a + H in old(live) && live == old(live)[a + H := n]
    {
      hide IsRing, FreeRing, Layout, FreeIs, FreeSum, Insert, Remove, Distinct;
      BlockFacts(i);
      if blocks[i + 1] !in used { BlockFacts(i + 1); }
      BlocksDistinct(next, prev, blocks);
      FreeDistinct(nextFree, prevFree, free);
      var x := a + n + H;
      CutOff(H, H, blocks, used, live, start, start + pool - H, i, x);
      CutOffFree(blocks, used, free, i, k, x);
      Between(H, blocks, used, live, start, start + pool - H, i, x);
      InsertAt(blocks, i, x);
      ghost var b := blocks;
      LinkBlock(a, x, i);
      NextAt(next, prev, blocks, i + 1);
      if next[x] !in used {
        NextAt(next, prev, blocks, i + 2);
        available := available - SizeOf(next[x]);
        JoinRight(x, i + 1, k);
        InsertRemove(b, i, x);
        RemoveAt(b, i + 1);
        InsertAt(Remove(b, i + 1), i, x);
        NextAt(next, prev, blocks, i + 1);
      }
      PushFree(x);
      available := available + SizeOf(x);
      live := live[a + H := n];
    }

    /** Size zero frees; no pointer allocates; a live block is resized in place, moved, or
        left as it was when there is no room. */
    method Realloc(p: Option<int>, newSize: nat) returns (r: Option<int>)
      requires Valid() && newSize < WORD && (p.Some? ==> p.value in live)
      requires newSize > 0 && p.Some? && FreeBehind(p.value - H) ==> Rounded(newSize) + MINI < WORD
      modifies this
      ensures Valid()
      ensures newSize == 0 ==> r.None? && live == if p.Some? then old(live) - {p.value} else old(live)
      ensures newSize > 0 && r.None? ==> unchanged(this)
      ensures newSize > 0 && p.None? ==> (r.None? <==> Short(old(available), old(free), old(next), Rounded(newSize)))
      ensures newSize > 0 && p.Some? ==>
                (r.None? <==> !InPlace(old(next), old(used), old(live)[p.value], p.value - H, Rounded(newSize))
                              && Short(old(available), old(free), old(next), Rounded(newSize)))
      ensures newSize > 0 && p.Some? && InPlace(old(next), old(used), old(live)[p.value], p.value - H, Rounded(newSize)) ==> r == p
      ensures newSize > 0 && r.Some? ==> r.value in live && Rounded(newSize) <= live[r.value] <= Rounded(newSize) + H + MINI
      ensures newSize > 0 && r.Some? && r == p ==> live == old(live)[r.value := live[r.value]] && live[r.value] == Kept(old(live)[r.value], Rounded(newSize))
      ensures newSize > 0 && r.Some? && r != p ==> r.value !in old(live)
      ensures newSize > 0 && r.Some? && r != p && p.None? ==> live == old(live)[r.value := live[r.value]]
      ensures newSize > 0 && r.Some? && r != p && p.Some? ==> live == (old(live) - {p.value})[r.value := live[r.value]] && old(live)[p.value] < Rounded(newSize)
    {
      if newSize == 0 {
        Free(p);
        return None;
      }
      var n := Rounded(newSize);
      RoundedTwice(newSize);
      if p.None? {
        r := Alloc(n);
        return;
      }
      r := Resize(p.value, n);
    }

    method Resize(q: int, n: nat) returns (r: Option<int>)
      requires Valid() && MINI <= n < WORD && n % ALIGN == 0 && Rounded(n) == n && q in live
      requires FreeBehind(q - H) ==> n + MINI < WORD
      modifies this
      ensures Valid()
      ensures r.None? ==> unchanged(this)
      ensures r.None? <==> !InPlace(old(next), old(used), old(live)[q], q - H, n) && Short(old(available), old(free), old(next), n)
      ensures InPlace(old(next), old(used), old(live)[q], q - H, n) ==> r == Some(q)
      ensures r.Some? ==> r.value in live && n <= live[r.value] <= n + H + MINI
      ensures r == Some(q) ==> live == old(live)[q := live[q]] && live[q] == Kept(old(live)[q], n)
      ensures r.Some? && r.value != q ==>
                r.value !in old(live) && live == (old(live) - {q})[r.value := live[r.value]] && old(live)[q] < n
    {
      hide IsRing, FreeRing, Layout, FreeIs, FreeSum, Distinct, Rounded;
      var a := q - H;
      ghost var i := LiveIndex(a);
      BlockFacts(i);
      ghost var k := FreeIndex(i);
      GiveBack(H, H, blocks, used, live, start, start + pool - H, i);
      var oldSize := SizeOf(a);
      if n > oldSize {
        var behind := next[a];
        if behind !in used {
          BlockFacts(i + 1);
          if CanGrow(SizeOf(behind), oldSize, n) {
            Grow(a, n, i, k);
            return Some(q);
          }
        }
        r := Alloc(n);
        if r.Some? {
          Free(Some(q));
        }
        return;
      }
      if n + H + MINI >= oldSize {
        return Some(q);
      }
      Shrink(a, n, i, k);
      return Some(q);
    }
  }

  /** In a fresh pool one allocation has the rest of the pool free behind it. */
  lemma RestBehind(pool: Pool, size: int)
    requires pool.Valid() && pool.live == map[pool.start + H := size] && 0 <= size && size + 3 * H <= pool.pool
    ensures pool.FreeBehind(pool.start) && pool.next[pool.start] == pool.start + H + size && pool.next[pool.start] in pool.next
    ensures pool.next[pool.next[pool.start]] == pool.start + pool.pool - H
  {
    var b, used, live := pool.blocks, pool.used, pool.live;
    var tail := pool.start + pool.pool - H;
    NextAt(pool.next, pool.prev, b, 0);
    assert pool.start in used by { assert pool.start + H in live; }
    assert Adj(0, 1, |b|);
    assert live[b[0] + H] == b[1] - b[0] - H;
    assert b[1] !in used by { assert b[1] + H !in live && b[1] + H - H == b[1]; }
    assert Adj(1, 2, |b|);
    assert b[2] == tail by { assert b[2] + H !in live && b[2] + H - H == b[2]; }
    NextAt(pool.next, pool.prev, b, 1);
  }

  /** Two calls reach a heap where the wrapped test goes wrong: behind an allocation of
      twelve bytes in a pool of 256 it would let the block grow to any size within twelve
      of 2^32, though both blocks together have far less. */
  method WrappedTestAccepts(n: nat) returns (nextSize: nat, oldSize: nat)
    requires WORD - MINI <= n < WORD && n % ALIGN == 0
    ensures CanGrow(nextSize, oldSize, n) && nextSize + oldSize < 256 < n
  {
    var pool := new Pool(0, 256);
    ghost var free, next := pool.free, pool.next;
    var p := pool.Alloc(12);
    assert Rounded(12) == 12;
    assert !Short(256 - 2 * H, free, next, 12) by { assert free[0] in free; }
    assert p.value == H by {
      var k :| FitsFirst(free, next, 12, p.value - H, k);
    }
    hide Layout, IsRing, FreeRing, FreeSum, FreeIs;
    assert pool.live == map[H := pool.live[H]];
    RestBehind(pool, pool.live[H]);
    var behind := pool.next[0];
    nextSize, oldSize := pool.next[behind] - behind - H, behind - H;
    CanGrowIsRight(nextSize, oldSize, n);
  }
}
