/** Heaps cut into blocks in address order, each with a header of h bytes: what a
    layout is, what splitting and joining blocks does to it, and that it depends on
    the live allocations alone. Sums are taken with g bytes of each free block left
    out. */
module BlockLayout {
  import opened Lists
  import opened Ring

  const ALIGN := 4  // RT_ALIGN_SIZE

  // -------------------------------------------------------------------- layout

  /** Blocks in address order with room for their headers; the last one is the
      tail, which is always in use. */
  ghost predicate Tiles(h: nat, blocks: seq<int>, start: int, tail: int)
  {
    && h > 0 && |blocks| >= 2 && blocks[0] == start && blocks[|blocks| - 1] == tail
    && (forall i, j :: 0 <= i < j < |blocks| ==> blocks[i] + h <= blocks[j])
    && (forall x :: x in blocks ==> x % ALIGN == 0)
  }

  /** No two neighbours are both free. */
  ghost predicate Merged(blocks: seq<int>, used: set<int>)
  {
    forall i, j {:trigger Adj(i, j, |blocks|)} :: Adj(i, j, |blocks|) ==> blocks[i] in used || blocks[j] in used
  }

  /** The free bytes of the block at `a` that ends at `c`. */
  function Term(g: nat, used: set<int>, a: int, c: int): int { if a in used then 0 else c - a - g }

  function FreeSum(g: nat, blocks: seq<int>, used: set<int>): int
  {
    if |blocks| < 2 then 0 else Term(g, used, blocks[0], blocks[1]) + FreeSum(g, blocks[1..], used)
  }

  lemma {:induction false} SumSplit(g: nat, b: seq<int>, used: set<int>, i: nat)
    requires i < |b|
    ensures FreeSum(g, b, used) == FreeSum(g, b[..i + 1], used) + FreeSum(g, b[i..], used)
  {
    if i > 0 {
      SumSplit(g, b[1..], used, i - 1);
      assert b[1..][..i] == b[..i + 1][1..] && b[1..][i - 1..] == b[i..];
    } else {
      assert b[0..] == b;
    }
  }

  lemma {:induction false} SumSame(g: nat, b: seq<int>, used: set<int>, used': set<int>)
    requires forall i :: 0 <= i < |b| - 1 ==> (b[i] in used <==> b[i] in used')
    ensures FreeSum(g, b, used) == FreeSum(g, b, used')
  {
    if |b| >= 2 {
      SumSame(g, b[1..], used, used');
    }
  }

  /** The effect on the sum of a new block behind b[i]. */
  lemma SumInsert(g: nat, b: seq<int>, used: set<int>, i: nat, x: int)
    requires i + 1 < |b|
    ensures FreeSum(g, Insert(b, i, x), used) ==
            FreeSum(g, b, used) - Term(g, used, b[i], b[i + 1]) + Term(g, used, b[i], x) + Term(g, used, x, b[i + 1])
  {
    var r := Insert(b, i, x);
    SumSplit(g, b, used, i);
    SumSplit(g, r, used, i);
    assert r[..i + 1] == b[..i + 1];
    var t, u := b[i..], r[i..];
    assert t[1..] == b[i + 1..] && u[1..][1..] == b[i + 1..];
  }

  /** The effect of taking block b[i] into or out of use. */
  lemma SumMark(g: nat, b: seq<int>, used: set<int>, used': set<int>, i: nat)
    requires i + 1 < |b| && Distinct(b) && forall x :: x != b[i] ==> (x in used <==> x in used')
    ensures FreeSum(g, b, used') == FreeSum(g, b, used) - Term(g, used, b[i], b[i + 1]) + Term(g, used', b[i], b[i + 1])
  {
    SumSplit(g, b, used, i);
    SumSplit(g, b, used', i);
    var p, t := b[..i + 1], b[i..];
    assert p[i] == b[i];
    SumSame(g, p, used, used');
    assert t[1..] == b[i + 1..];
    SumSame(g, b[i + 1..], used, used');
  }

  /** The effect of taking block b[i] off the ring: the inverse of SumInsert. */
  lemma SumRemove(g: nat, b: seq<int>, used: set<int>, i: nat)
    requires 0 < i && i + 1 < |b|
    ensures FreeSum(g, Remove(b, i), used) ==
            FreeSum(g, b, used) + Term(g, used, b[i - 1], b[i + 1]) - Term(g, used, b[i - 1], b[i]) - Term(g, used, b[i], b[i + 1])
  {
    var r := Remove(b, i);
    assert Insert(r, i - 1, b[i]) == b;
    SumInsert(g, r, used, i - 1, b[i]);
  }

  lemma TilesInsert(h: nat, b: seq<int>, start: int, tail: int, i: nat, x: int)
    requires Tiles(h, b, start, tail) && i + 1 < |b|
    requires b[i] + h <= x && x + h <= b[i + 1] && x % ALIGN == 0
    ensures x !in b && Tiles(h, Insert(b, i, x), start, tail)
  {
    hide Insert;
    var r := Insert(b, i, x);
    InsertMembers(b, i, x);
    InsertAt(b, i, x);
    forall j, k | 0 <= j < k < |r| ensures r[j] + h <= r[k] {
      if k == i + 1 { assert j < i ==> b[j] + h <= b[i]; }
      if j == i + 1 { assert k > i + 2 ==> b[i + 1] + h <= b[k - 1]; }
    }
  }

  lemma TilesRemove(h: nat, b: seq<int>, start: int, tail: int, i: nat)
    requires Tiles(h, b, start, tail) && 0 < i && i + 1 < |b|
    ensures Tiles(h, Remove(b, i), start, tail)
  {
    hide Remove;
    RemoveMembers(b, i);
    RemoveAt(b, i);
  }

  // ---------------------------------------------------------- who holds a block

  type Live = map<int, int>

  /** Callers hold the used blocks except the tail, by the address behind the header. */
  ghost predicate Owned(h: nat, used: set<int>, live: Live, tail: int)
  {
    tail in used && forall p :: p in live <==> p - h in used && p - h != tail
  }

  /** A live allocation has the rest of its block. */
  ghost predicate Sizes(h: nat, b: seq<int>, used: set<int>, live: Live)
  {
    forall i, j {:trigger Adj(i, j, |b|)} :: Adj(i, j, |b|) && i < j && b[i] in used ==>
      b[i] + h in live && live[b[i] + h] == b[j] - b[i] - h
  }

  ghost predicate Held(h: nat, b: seq<int>, used: set<int>, live: Live, tail: int)
  {
    (forall x :: x in used ==> x in b) && Owned(h, used, live, tail) && Sizes(h, b, used, live)
  }

  /** What callers hold once the block at `a`, if it is used, has `size` bytes. */
  function Resized(h: nat, live: Live, used: set<int>, a: int, size: int): Live
  {
    if a in used then live[a + h := size] else live
  }

  lemma OwnedResized(h: nat, used: set<int>, live: Live, tail: int, a: int, size: int)
    requires Owned(h, used, live, tail) && a != tail
    ensures Owned(h, used, Resized(h, live, used, a, size), tail)
  {
    assert a + h - h == a;
  }

  /** A new free block is cut off the end of b[i]. */
  lemma HeldInsert(h: nat, b: seq<int>, used: set<int>, live: Live, tail: int, i: nat, x: int)
    requires Held(h, b, used, live, tail) && Distinct(b) && i + 1 < |b| && x !in b && b[|b| - 1] == tail
    ensures Held(h, Insert(b, i, x), used, Resized(h, live, used, b[i], x - b[i] - h), tail)
  {
    hide Insert, Owned, Sizes, Distinct, Resized;
    InsertMembers(b, i, x);
    Differ(b, i, |b| - 1);
    OwnedResized(h, used, live, tail, b[i], x - b[i] - h);
    SizesInsert(h, b, used, live, i, x);
  }

  lemma SizesInsert(h: nat, b: seq<int>, used: set<int>, live: Live, i: nat, x: int)
    requires Sizes(h, b, used, live) && Distinct(b) && i + 1 < |b| && x !in used
    ensures Sizes(h, Insert(b, i, x), used, Resized(h, live, used, b[i], x - b[i] - h))
  {
    var r, live' := Insert(b, i, x), Resized(h, live, used, b[i], x - b[i] - h);
    assert |r| == |b| + 1;
    hide Insert, Distinct, Resized;
    forall j, k | Adj(j, k, |r|) && j < k && r[j] in used
      ensures r[j] + h in live' && live'[r[j] + h] == r[k] - r[j] - h
    {
      SizeAfterInsert(h, b, used, live, i, x, j);
    }
  }

  lemma Differ(b: seq<int>, i: nat, j: nat)
    requires Distinct(b) && i < |b| && j < |b|
    ensures b[i] == b[j] <==> i == j
  {
  }

  lemma SizeAt(h: nat, b: seq<int>, used: set<int>, live: Live, i: nat)
    requires Sizes(h, b, used, live) && i + 1 < |b| && b[i] in used
    ensures b[i] + h in live && live[b[i] + h] == b[i + 1] - b[i] - h
  {
    assert Adj(i, i + 1, |b|);
  }

  lemma SizeAfterInsert(h: nat, b: seq<int>, used: set<int>, live: Live, i: nat, x: int, j: nat)
    requires Sizes(h, b, used, live) && Distinct(b) && i + 1 < |b| && x !in used
    requires |Insert(b, i, x)| == |b| + 1 && j < |b| && Insert(b, i, x)[j] in used
    ensures var r, live' := Insert(b, i, x), Resized(h, live, used, b[i], x - b[i] - h);
            r[j] + h in live' && live'[r[j] + h] == r[j + 1] - r[j] - h
  {
    hide Sizes, Distinct;
    if j < i {
      SizeAt(h, b, used, live, j);
      Differ(b, i, j);
    } else if j > i {
      SizeAt(h, b, used, live, j - 1);
      Differ(b, i, j - 1);
    }
  }

  /** The free block b[i] goes to the block before it. */
  lemma HeldRemove(h: nat, b: seq<int>, used: set<int>, live: Live, tail: int, i: nat)
    requires Held(h, b, used, live, tail) && Distinct(b) && 0 < i && i + 1 < |b| && b[i] !in used && b[|b| - 1] == tail
    ensures Held(h, Remove(b, i), used, Resized(h, live, used, b[i - 1], b[i + 1] - b[i - 1] - h), tail)
  {
    hide Remove, Owned, Sizes, Distinct, Resized;
    RemoveMembers(b, i);
    Differ(b, i - 1, |b| - 1);
    OwnedResized(h, used, live, tail, b[i - 1], b[i + 1] - b[i - 1] - h);
    SizesRemove(h, b, used, live, i);
  }

  lemma SizesRemove(h: nat, b: seq<int>, used: set<int>, live: Live, i: nat)
    requires Sizes(h, b, used, live) && Distinct(b) && 0 < i && i + 1 < |b|
    ensures Sizes(h, Remove(b, i), used, Resized(h, live, used, b[i - 1], b[i + 1] - b[i - 1] - h))
  {
    var r, live' := Remove(b, i), Resized(h, live, used, b[i - 1], b[i + 1] - b[i - 1] - h);
    assert |r| == |b| - 1;
    hide Remove, Distinct, Resized;
    forall j, k | Adj(j, k, |r|) && j < k && r[j] in used
      ensures r[j] + h in live' && live'[r[j] + h] == r[k] - r[j] - h
    {
      SizeAfterRemove(h, b, used, live, i, j);
    }
  }

  lemma SizeAfterRemove(h: nat, b: seq<int>, used: set<int>, live: Live, i: nat, j: nat)
    requires Sizes(h, b, used, live) && Distinct(b) && 0 < i && i + 1 < |b|
    requires |Remove(b, i)| == |b| - 1 && j + 2 < |b| && Remove(b, i)[j] in used
    ensures var r, live' := Remove(b, i), Resized(h, live, used, b[i - 1], b[i + 1] - b[i - 1] - h);
            r[j] + h in live' && live'[r[j] + h] == r[j + 1] - r[j] - h
  {
    hide Sizes, Distinct;
    if j < i - 1 {
      SizeAt(h, b, used, live, j);
      Differ(b, i - 1, j);
    } else if j >= i {
      SizeAt(h, b, used, live, j + 1);
      Differ(b, i - 1, j + 1);
    }
  }

  lemma OwnedMark(h: nat, used: set<int>, live: Live, tail: int, a: int, size: int)
    requires Owned(h, used, live, tail) && a !in used
    ensures a + h !in live && Owned(h, used + {a}, live[a + h := size], tail)
  {
    assert a + h - h == a;
  }

  lemma HeldMark(h: nat, b: seq<int>, used: set<int>, live: Live, tail: int, i: nat)
    requires Held(h, b, used, live, tail) && Distinct(b) && i + 1 < |b| && b[i] !in used
    ensures b[i] + h !in live && Held(h, b, used + {b[i]}, live[b[i] + h := b[i + 1] - b[i] - h], tail)
  {
    hide Owned;
    var used', live' := used + {b[i]}, live[b[i] + h := b[i + 1] - b[i] - h];
    OwnedMark(h, used, live, tail, b[i], b[i + 1] - b[i] - h);
    forall j, k | Adj(j, k, |b|) && j < k && b[j] in used'
      ensures b[j] + h in live' && live'[b[j] + h] == b[k] - b[j] - h
    {
    }
  }

  lemma OwnedUnmark(h: nat, used: set<int>, live: Live, tail: int, a: int)
    requires Owned(h, used, live, tail) && a in used && a != tail
    ensures a + h in live && Owned(h, used - {a}, live - {a + h}, tail)
  {
    assert a + h - h == a;
  }

  lemma HeldUnmark(h: nat, b: seq<int>, used: set<int>, live: Live, tail: int, i: nat)
    requires Held(h, b, used, live, tail) && Distinct(b) && i + 1 < |b| && b[i] in used && b[|b| - 1] == tail
    ensures b[i] + h in live && live[b[i] + h] == b[i + 1] - b[i] - h
    ensures Held(h, b, used - {b[i]}, live - {b[i] + h}, tail)
  {
    hide Owned;
    assert Adj(i, i + 1, |b|);
    OwnedUnmark(h, used, live, tail, b[i]);
    var used', live' := used - {b[i]}, live - {b[i] + h};
    forall j, k | Adj(j, k, |b|) && j < k && b[j] in used'
      ensures b[j] + h in live' && live'[b[j] + h] == b[k] - b[j] - h
    {
    }
  }

  // ------------------------------------------------------- free neighbours merge

  /** A block between two used ones may become free. */
  lemma MergedUnmark(b: seq<int>, used: set<int>, i: nat)
    requires Merged(b, used) && Distinct(b) && i + 1 < |b| && b[i + 1] in used
    requires b[if i == 0 then |b| - 1 else i - 1] in used
    ensures Merged(b, used - {b[i]})
  {
    var used' := used - {b[i]};
    forall j, k | Adj(j, k, |b|) ensures b[j] in used' || b[k] in used' {
      assert b[j] in used || b[k] in used;
    }
  }

  lemma MergedMark(b: seq<int>, used: set<int>, x: int)
    requires Merged(b, used)
    ensures Merged(b, used + {x})
  {
    forall j, k | Adj(j, k, |b|) ensures b[j] in used + {x} || b[k] in used + {x} {
      assert b[j] in used || b[k] in used;
    }
  }

  /** A free block may stand between two used ones. */
  lemma MergedInsert(b: seq<int>, used: set<int>, i: nat, x: int)
    requires Merged(b, used) && i + 1 < |b| && b[i] in used && b[i + 1] in used
    ensures Merged(Insert(b, i, x), used)
  {
    var r := Insert(b, i, x);
    forall j, k | Adj(j, k, |r|) ensures r[j] in used || r[k] in used {
      if j != i && k != i + 1 && j != i + 1 {
        assert Adj(if j <= i then j else j - 1, if k <= i then k else k - 1, |b|);
      }
    }
  }

  /** A free block goes away, and what it stood between stays apart. */
  lemma MergedRemove(b: seq<int>, used: set<int>, i: nat)
    requires Merged(b, used) && 0 < i && i + 1 < |b| && b[i] !in used
    ensures Merged(Remove(b, i), used)
  {
    var r := Remove(b, i);
    assert Adj(i - 1, i, |b|);
    forall j, k | Adj(j, k, |r|) ensures r[j] in used || r[k] in used {
      if j != i - 1 { assert Adj(if j < i then j else j + 1, if k < i then k else k + 1, |b|); }
    }
  }

  /** Two free blocks in the middle become one. */
  lemma MergedJoin(b: seq<int>, used: set<int>, i: nat)
    requires Distinct(b) && 0 < i && i + 1 < |b| && b[i] in used && b[i + 1] in used && Merged(b, used)
    ensures Merged(Remove(b, i), used - {b[i]})
  {
    var r, used' := Remove(b, i), used - {b[i]};
    forall j, k | Adj(j, k, |r|) ensures r[j] in used' || r[k] in used' {
      if j != i - 1 { assert Adj(if j < i then j else j + 1, if k < i then k else k + 1, |b|); }
    }
  }

  // -------------------------------------------------------------- whole layouts

  ghost predicate Layout(h: nat, b: seq<int>, used: set<int>, live: Live, start: int, tail: int)
  {
    Tiles(h, b, start, tail) && Merged(b, used) && Held(h, b, used, live, tail)
  }

  lemma TilesEnds(h: nat, b: seq<int>, start: int, tail: int)
    requires Tiles(h, b, start, tail)
    ensures |b| >= 2 && b[0] == start && b[|b| - 1] == tail && Distinct(b)
  {
  }

  lemma InOrder(h: nat, b: seq<int>, start: int, tail: int, i: nat, j: nat)
    requires Tiles(h, b, start, tail) && i < |b| && j < |b|
    ensures i <= j ==> b[i] <= b[j]
    ensures i < j ==> b[i] + h <= b[j]
  {
  }

  lemma TailUsed(h: nat, b: seq<int>, used: set<int>, live: Live, tail: int)
    requires Held(h, b, used, live, tail)
    ensures tail in used
  {
  }

  lemma Neighbour(b: seq<int>, used: set<int>, i: nat, j: nat)
    requires Merged(b, used) && i + 1 == j < |b|
    ensures b[i] in used || b[j] in used
  {
    assert Adj(i, j, |b|);
  }

  /** A whole free block is taken. */
  lemma Take(h: nat, g: nat, b: seq<int>, used: set<int>, live: Live, start: int, tail: int, i: nat)
    requires Layout(h, b, used, live, start, tail) && i + 1 < |b| && b[i] !in used
    ensures b[i] + h !in live
    ensures Layout(h, b, used + {b[i]}, live[b[i] + h := b[i + 1] - b[i] - h], start, tail)
    ensures FreeSum(g, b, used + {b[i]}) == FreeSum(g, b, used) - (b[i + 1] - b[i] - g)
  {
    hide Tiles, Merged, Held, FreeSum;
    TilesEnds(h, b, start, tail);
    HeldMark(h, b, used, live, tail, i);
    MergedMark(b, used, b[i]);
    SumMark(g, b, used, used + {b[i]}, i);
  }

  /** The end of a used block, from x on, becomes a free block; what follows is used. */
  lemma Cut(h: nat, g: nat, b: seq<int>, used: set<int>, live: Live, start: int, tail: int, i: nat, x: int)
    requires Layout(h, b, used, live, start, tail) && i + 1 < |b| && b[i] in used && b[i + 1] in used
    requires b[i] + h <= x && x + h <= b[i + 1] && x % ALIGN == 0
    ensures x !in b && x !in used
    ensures Layout(h, Insert(b, i, x), used, live[b[i] + h := x - b[i] - h], start, tail)
    ensures FreeSum(g, Insert(b, i, x), used) == FreeSum(g, b, used) + (b[i + 1] - x - g)
  {
    hide Tiles, Merged, FreeSum, Insert;
    TilesEnds(h, b, start, tail);
    TilesInsert(h, b, start, tail, i, x);
    HeldInsert(h, b, used, live, tail, i, x);
    MergedInsert(b, used, i, x);
    SumInsert(g, b, used, i, x);
  }

  /** A used block takes in the free one behind it. */
  lemma AbsorbRight(h: nat, g: nat, b: seq<int>, used: set<int>, live: Live, start: int, tail: int, i: nat)
    requires Layout(h, b, used, live, start, tail) && i + 1 < |b| && b[i] in used && b[i + 1] !in used
    ensures i + 2 < |b| && b[i + 2] in used
    ensures Layout(h, Remove(b, i + 1), used, live[b[i] + h := b[i + 2] - b[i] - h], start, tail)
    ensures FreeSum(g, Remove(b, i + 1), used) == FreeSum(g, b, used) - (b[i + 2] - b[i + 1] - g)
  {
    hide Tiles, Merged, Held, FreeSum, Remove;
    TilesEnds(h, b, start, tail);
    TailUsed(h, b, used, live, tail);
    Neighbour(b, used, i + 1, i + 2);
    TilesRemove(h, b, start, tail, i + 1);
    HeldRemove(h, b, used, live, tail, i + 1);
    MergedRemove(b, used, i + 1);
    SumRemove(g, b, used, i + 1);
  }

  /** A used block between used ones is given back. */
  lemma Release(h: nat, g: nat, b: seq<int>, used: set<int>, live: Live, start: int, tail: int, i: nat)
    requires Layout(h, b, used, live, start, tail) && i + 1 < |b| && b[i] in used && b[i + 1] in used
    requires i > 0 ==> b[i - 1] in used
    ensures b[i] + h in live && live[b[i] + h] == b[i + 1] - b[i] - h
    ensures Layout(h, b, used - {b[i]}, live - {b[i] + h}, start, tail)
    ensures FreeSum(g, b, used - {b[i]}) == FreeSum(g, b, used) + (b[i + 1] - b[i] - g)
  {
    hide Tiles, Merged, Held, FreeSum;
    TilesEnds(h, b, start, tail);
    TailUsed(h, b, used, live, tail);
    HeldUnmark(h, b, used, live, tail, i);
    MergedUnmark(b, used, i);
    SumMark(g, b, used, used - {b[i]}, i);
  }

  /** A used block goes to the free one before it; what follows is used. */
  lemma ReleaseLeft(h: nat, g: nat, b: seq<int>, used: set<int>, live: Live, start: int, tail: int, i: nat)
    requires Layout(h, b, used, live, start, tail) && 0 < i && i + 1 < |b| && b[i] in used && b[i + 1] in used && b[i - 1] !in used
    ensures b[i] + h in live && live[b[i] + h] == b[i + 1] - b[i] - h
    ensures Layout(h, Remove(b, i), used - {b[i]}, live - {b[i] + h}, start, tail)
    ensures FreeSum(g, Remove(b, i), used - {b[i]}) == FreeSum(g, b, used) + (b[i + 1] - b[i] - g) + g
  {
    hide Tiles, Merged, Held, FreeSum, Remove;
    TilesEnds(h, b, start, tail);
    var used' := used - {b[i]};
    HeldUnmark(h, b, used, live, tail, i);
    HeldRemove(h, b, used', live - {b[i] + h}, tail, i);
    TilesRemove(h, b, start, tail, i);
    MergedJoin(b, used, i);
    SumMark(g, b, used, used', i);
    SumRemove(g, b, used', i);
  }

  /** The layout depends on the live allocations alone, whatever calls led to it: so
      freeing what was just allocated puts every block back. */
  lemma LayoutUnique(h: nat, b: seq<int>, c: seq<int>, used: set<int>, used': set<int>, live: Live, start: int, tail: int)
    requires Layout(h, b, used, live, start, tail) && Layout(h, c, used', live, start, tail)
    ensures b == c && used == used'
  {
    forall x ensures x in used <==> x in used' {
      UsedFromLive(h, b, used, live, tail, x);
      UsedFromLive(h, c, used', live, tail, x);
    }
    var k := 1;
    while k < |b| && k < |c|
      invariant 1 <= k <= |b| && k <= |c|
      invariant forall j :: 0 <= j < k ==> b[j] == c[j]
    {
      SameNext(h, b, c, used, live, start, tail, k - 1);
      k := k + 1;
    }
  }

  lemma UsedFromLive(h: nat, b: seq<int>, used: set<int>, live: Live, tail: int, x: int)
    requires Held(h, b, used, live, tail)
    ensures x in used <==> x == tail || x + h in live
  {
    assert x + h - h == x;
  }

  lemma SameNext(h: nat, b: seq<int>, c: seq<int>, used: set<int>, live: Live, start: int, tail: int, i: nat)
    requires Layout(h, b, used, live, start, tail) && Layout(h, c, used, live, start, tail)
    requires i + 1 < |b| && i + 1 < |c| && b[i] == c[i]
    ensures b[i + 1] == c[i + 1]
  {
    assert Adj(i, i + 1, |b|) && Adj(i, i + 1, |c|);
    if b[i] !in used {
      NotInside(h, b, i, c[i + 1]);
      NotInside(h, c, i, b[i + 1]);
    }
  }

  lemma NotInside(h: nat, b: seq<int>, i: nat, x: int)
    requires (forall j, k :: 0 <= j < k < |b| ==> b[j] + h <= b[k]) && i + 1 < |b| && x in b && b[i] < x
    ensures b[i + 1] <= x
  {
    var k :| 0 <= k < |b| && b[k] == x;
  }

  /** Every byte of the pool is a header, free, or held by a caller. */
  function UsedSum(g: nat, b: seq<int>, used: set<int>): int
  {
    if |b| < 2 then 0 else (if b[0] in used then b[1] - b[0] - g else 0) + UsedSum(g, b[1..], used)
  }

  lemma {:induction false} PoolAccounted(g: nat, b: seq<int>, used: set<int>)
    requires |b| >= 1
    ensures FreeSum(g, b, used) + UsedSum(g, b, used) + g * (|b| - 1) == b[|b| - 1] - b[0]
  {
    if |b| >= 2 {
      PoolAccounted(g, b[1..], used);
    }
  }

  lemma IndexOfLive(h: nat, b: seq<int>, used: set<int>, live: Live, tail: int, p: int) returns (i: nat)
    requires Held(h, b, used, live, tail) && p in live && |b| > 0 && b[|b| - 1] == tail
    ensures i + 1 < |b| && b[i] == p - h && b[i] in used && live[p] == b[i + 1] - p
  {
    i :| 0 <= i < |b| && b[i] == p - h;
    hide Sizes;
    SizeAt(h, b, used, live, i);
  }

  /** Two live allocations never overlap, and they lie between the first header and
      the tail. */
  lemma LiveApart(h: nat, b: seq<int>, used: set<int>, live: Live, start: int, tail: int, p: int, q: int)
    requires Layout(h, b, used, live, start, tail) && p in live && q in live && p < q
    ensures start + h <= p && p + live[p] + h <= q && q + live[q] <= tail
  {
    hide Tiles, Merged, Sizes;
    TilesEnds(h, b, start, tail);
    var i := IndexOfLive(h, b, used, live, tail, p);
    var j := IndexOfLive(h, b, used, live, tail, q);
    hide Held;
    InOrder(h, b, start, tail, 0, i);
    InOrder(h, b, start, tail, j, i);
    InOrder(h, b, start, tail, i + 1, j);
    InOrder(h, b, start, tail, j + 1, |b| - 1);
  }

  /** The effect of freeing the block b[i] on the layout, for each pair of neighbours:
      the blocks, and whether b[i] itself goes to the free list. */
  ghost function FreedBlocks(b: seq<int>, used: set<int>, i: nat): seq<int>
    requires i + 1 < |b|
  {
    var c := if b[i + 1] in used then b else Remove(b, i + 1);
    if i > 0 && b[i - 1] !in used then Remove(c, i) else c
  }

  lemma GiveBack(h: nat, g: nat, b: seq<int>, used: set<int>, live: Live, start: int, tail: int, i: nat)
    requires Layout(h, b, used, live, start, tail) && i + 1 < |b| && b[i] in used
    ensures b[i] + h in live && live[b[i] + h] == b[i + 1] - b[i] - h
    ensures Layout(h, FreedBlocks(b, used, i), used - {b[i]}, live - {b[i] + h}, start, tail)
    ensures FreeSum(g, FreedBlocks(b, used, i), used - {b[i]}) == FreeSum(g, b, used) + (b[i + 1] - b[i] - g)
            + (if b[i + 1] in used then 0 else g) + (if i > 0 && b[i - 1] !in used then g else 0)
  {
    hide Tiles, Held, Merged, FreeSum, Remove;
    TilesEnds(h, b, start, tail);
    HeldUnmark(h, b, used, live, tail, i);
    if b[i + 1] in used {
      if i > 0 && b[i - 1] !in used { ReleaseLeft(h, g, b, used, live, start, tail, i); }
      else { Release(h, g, b, used, live, start, tail, i); }
    } else {
      AbsorbRight(h, g, b, used, live, start, tail, i);
      var c, live1 := Remove(b, i + 1), live[b[i] + h := b[i + 2] - b[i] - h];
      RemoveAt(b, i + 1);
      if i > 0 && b[i - 1] !in used { ReleaseLeft(h, g, c, used, live1, start, tail, i); }
      else { Release(h, g, c, used, live1, start, tail, i); }
      assert live1 - {b[i] + h} == live - {b[i] + h};
    }
  }

  /** A used block is cut at x, and the rest, with the free block behind if there is
      one, becomes free. */
  ghost function CutBlocks(b: seq<int>, used: set<int>, i: nat, x: int): seq<int>
    requires i + 1 < |b|
  {
    if b[i + 1] in used then Insert(b, i, x) else Insert(Remove(b, i + 1), i, x)
  }

  lemma CutOff(h: nat, g: nat, b: seq<int>, used: set<int>, live: Live, start: int, tail: int, i: nat, x: int)
    requires Layout(h, b, used, live, start, tail) && i + 1 < |b| && b[i] in used && x % ALIGN == 0 && b[i] + h <= x
    requires b[i + 1] !in used ==> i + 2 < |b|
    requires x + h <= if b[i + 1] in used then b[i + 1] else b[i + 2]
    ensures b[i] + h in live && live[b[i] + h] == b[i + 1] - b[i] - h
    ensures x !in used && (b[i + 1] in used ==> x !in b) && (b[i + 1] !in used ==> x !in Remove(b, i + 1))
    ensures Layout(h, CutBlocks(b, used, i, x), used, live[b[i] + h := x - b[i] - h], start, tail)
    ensures b[i + 1] in used ==> FreeSum(g, CutBlocks(b, used, i, x), used) == FreeSum(g, b, used) + (b[i + 1] - x - g)
    ensures b[i + 1] !in used ==> FreeSum(g, CutBlocks(b, used, i, x), used) == FreeSum(g, b, used) + (b[i + 1] - x)
  {
    hide Tiles, Held, Merged, FreeSum, Insert, Remove;
    TilesEnds(h, b, start, tail);
    HeldUnmark(h, b, used, live, tail, i);
    if b[i + 1] in used {
      Cut(h, g, b, used, live, start, tail, i, x);
    } else {
      AbsorbRight(h, g, b, used, live, start, tail, i);
      RemoveAt(b, i + 1);
      var live1 := live[b[i] + h := b[i + 2] - b[i] - h];
      Cut(h, g, Remove(b, i + 1), used, live1, start, tail, i, x);
      assert live1[b[i] + h := x - b[i] - h] == live[b[i] + h := x - b[i] - h];
    }
  }

  /** One free block up to the tail. */
  lemma Fresh(h: nat, g: nat, start: int, tail: int)
    requires 0 < h && start + h <= tail && start % ALIGN == 0 && tail % ALIGN == 0
    ensures Layout(h, [start, tail], {tail}, map[], start, tail)
    ensures FreeSum(g, [start, tail], {tail}) == tail - start - g
  {
    assert [start, tail][1..] == [tail];
    assert FreeSum(g, [tail], {tail}) == 0;
  }

  lemma Between(h: nat, b: seq<int>, used: set<int>, live: Live, start: int, tail: int, i: nat, x: int)
    requires Layout(h, b, used, live, start, tail) && i + 1 < |b| && b[i] < x < b[i + 1]
    ensures x !in b
  {
    if x in b { NotInside(h, b, i, x); }
  }
}
