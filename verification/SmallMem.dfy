/** The small-memory heap (src/mem.c): headers and data share one byte buffer, a
    pointer keeps the lowest free block, and freed neighbours are plugged together. */
module SmallMem {
  import opened Ring
  import opened BlockLayout
  import opened Lists

  const S := 12    // SIZEOF_STRUCT_MEM on a 32-bit machine
  const MIN := 12  // MIN_SIZE_ALIGNED
  const WORD := 0x1_0000_0000

  datatype Header = Header(next: int, prev: int, used: bool)

  type Headers = map<int, Header>

  // ------------------------------------------------------------ bytes of the heap

  function Le(n: int): seq<int> { [n % 256, n / 256 % 256, n / 256 / 256 % 256, n / 256 / 256 / 256 % 256] }

  /** A header as it lies in memory: magic, used flag, next, prev. */
  function Image(h: Header): (s: seq<int>)
    ensures |s| == S
  {
    [0xa0, 0x1e, if h.used then 1 else 0, 0] + Le(h.next) + Le(h.prev)
  }

  function Word(s: seq<int>, o: nat): int
    requires o + 4 <= |s|
  {
    s[o] + 256 * s[o + 1] + 65536 * s[o + 2] + 16777216 * s[o + 3]
  }

  lemma WordReadable(n: int)
    requires 0 <= n < WORD
    ensures |Le(n)| == 4 && Word(Le(n), 0) == n
  {
    var a, b, c := n / 256, n / 256 / 256, n / 256 / 256 / 256;
    assert n == n % 256 + 256 * a && a == a % 256 + 256 * b && b == b % 256 + 256 * c;
    assert 0 <= c < 256;
  }

  /** The header can be read back from its bytes. */
  lemma HeaderReadable(h: Header)
    requires 0 <= h.next < WORD && 0 <= h.prev < WORD
    ensures Word(Image(h), 4) == h.next && Word(Image(h), 8) == h.prev && (Image(h)[2] == 1 <==> h.used)
  {
    hide Le;
    WordReadable(h.next);
    WordReadable(h.prev);
    var s := Image(h);
    assert s[4..8] == Le(h.next) && s[8..12] == Le(h.prev);
    assert forall k :: 0 <= k < 4 ==> s[4 + k] == s[4..8][k] && s[8 + k] == s[8..12][k];
  }

  function Overwrite(bytes: seq<int>, o: nat, s: seq<int>): (r: seq<int>)
    requires o + |s| <= |bytes|
  {
    bytes[..o] + s + bytes[o + |s|..]
  }

  /** Nothing outside [o, o + n) changed. */
  ghost predicate OnlyIn(bytes: seq<int>, bytes': seq<int>, o: int, n: int)
  {
    |bytes'| == |bytes| && forall k :: 0 <= k < |bytes| && !(o <= k < o + n) ==> bytes'[k] == bytes[k]
  }

  lemma OverwriteOnly(bytes: seq<int>, o: nat, s: seq<int>)
    requires o + |s| <= |bytes|
    ensures OnlyIn(bytes, Overwrite(bytes, o, s), o, |s|)
    ensures Overwrite(bytes, o, s)[o..o + |s|] == s
  {
  }

  /** Every block starts with the bytes of its header. */
  ghost predicate Images(bytes: seq<int>, hdr: Headers, b: seq<int>)
  {
    forall x :: x in b ==> x in hdr && 0 <= x && x + S <= |bytes| && bytes[x..x + S] == Image(hdr[x])
  }

  predicate SameAt(bytes: seq<int>, bytes': seq<int>, p: int, n: int)
  {
    0 <= p && 0 <= n && p + n <= |bytes| && p + n <= |bytes'| && bytes'[p..p + n] == bytes[p..p + n]
  }

  lemma SamePrefix(x: seq<int>, y: seq<int>, p: int, n: int, m: int)
    requires SameAt(x, y, p, n) && 0 <= m <= n
    ensures SameAt(x, y, p, m)
  {
    assert x[p..p + m] == x[p..p + n][..m];
    assert y[p..p + m] == y[p..p + n][..m];
  }

  /** The bytes of every allocation are as they were. */
  ghost predicate Same(bytes: seq<int>, bytes': seq<int>, live: Live)
  {
    |bytes'| == |bytes| && forall p :: p in live ==> SameAt(bytes, bytes', p, live[p])
  }

  lemma SliceKept(bytes: seq<int>, bytes': seq<int>, o: int, n: int, a: int, c: int)
    requires OnlyIn(bytes, bytes', o, n) && 0 <= a <= c <= |bytes| && (c <= o || o + n <= a)
    ensures bytes'[a..c] == bytes[a..c]
  {
  }

  /** A write over the header of a block reaches no allocation. */
  lemma HeaderWriteKeeps(b: seq<int>, used: set<int>, live: Live, end: int, o: int, bytes: seq<int>, bytes': seq<int>)
    requires Layout(S, b, used, live, 0, end) && o in b && OnlyIn(bytes, bytes', o, S) && |bytes| == end + S
    ensures Same(bytes, bytes', live)
  {
    var j :| 0 <= j < |b| && b[j] == o;
    TilesEnds(S, b, 0, end);
    forall p | p in live
      ensures SameAt(bytes, bytes', p, live[p])
    {
      ApartFromHeader(b, used, live, end, j, p);
      SliceKept(bytes, bytes', o, S, p, p + live[p]);
    }
  }

  lemma ApartFromHeader(b: seq<int>, used: set<int>, live: Live, end: int, j: nat, p: int)
    requires Layout(S, b, used, live, 0, end) && j < |b| && p in live
    ensures 0 <= p && 0 <= live[p] && p + live[p] <= end && (b[j] + S <= p || p + live[p] <= b[j])
  {
    hide Tiles, Merged, Sizes;
    TilesEnds(S, b, 0, end);
    var i := IndexOfLive(S, b, used, live, end, p);
    hide Held;
    InOrder(S, b, 0, end, 0, i);
    InOrder(S, b, 0, end, i, i + 1);
    InOrder(S, b, 0, end, i + 1, |b| - 1);
    InOrder(S, b, 0, end, j, i);
    InOrder(S, b, 0, end, i + 1, j);
  }

  /** A new or changed header at o keeps the other headers. */
  lemma ImagesPut(bytes: seq<int>, bytes': seq<int>, hdr: Headers, b: seq<int>, b': seq<int>, end: int, o: int, h: Header)
    requires Images(bytes, hdr, b) && Tiles(S, b', 0, end) && o in b' && |bytes| == end + S
    requires forall x :: x in b' ==> x == o || x in b
    requires 0 <= o && o + S <= |bytes| && bytes' == Overwrite(bytes, o, Image(h))
    ensures Images(bytes', hdr[o := h], b')
  {
    hide Image;
    OverwriteOnly(bytes, o, Image(h));
    forall x | x in b' && x != o
      ensures x in hdr && 0 <= x && x + S <= |bytes'| && bytes'[x..x + S] == Image(hdr[x])
    {
      BlocksApart(b', end, o, x);
      SliceKept(bytes, bytes', o, S, x, x + S);
    }
  }

  lemma BlocksApart(b: seq<int>, end: int, x: int, y: int)
    requires Tiles(S, b, 0, end) && x in b && y in b && x != y
    ensures x + S <= y || y + S <= x
  {
    var i :| 0 <= i < |b| && b[i] == x;
    var j :| 0 <= j < |b| && b[j] == y;
    hide Tiles;
    InOrder(S, b, 0, end, i, j);
    InOrder(S, b, 0, end, j, i);
  }

  /** A write into an allocation keeps every header and every other allocation. */
  lemma DataWriteKeeps(b: seq<int>, used: set<int>, live: Live, end: int, hdr: Headers, bytes: seq<int>, bytes': seq<int>, p: int)
    requires Layout(S, b, used, live, 0, end) && Images(bytes, hdr, b) && p in live && |bytes| == end + S
    requires OnlyIn(bytes, bytes', p, live[p])
    ensures Images(bytes', hdr, b) && Same(bytes, bytes', live - {p})
  {
    assert |bytes'| == |bytes|;
    hide Layout, Image, OnlyIn;
    forall x | x in b ensures bytes'[x..x + S] == Image(hdr[x]) {
      var j :| 0 <= j < |b| && b[j] == x;
      ApartFromHeader(b, used, live, end, j, p);
      SliceKept(bytes, bytes', p, live[p], x, x + S);
    }
    forall q | q in live - {p}
      ensures SameAt(bytes, bytes', q, live[q])
    {
      OtherKept(b, used, live, end, bytes, bytes', p, q);
    }
  }

  lemma OtherKept(b: seq<int>, used: set<int>, live: Live, end: int, bytes: seq<int>, bytes': seq<int>, p: int, q: int)
    requires Layout(S, b, used, live, 0, end) && p in live && q in live && p != q && |bytes| == end + S
    requires OnlyIn(bytes, bytes', p, live[p])
    ensures SameAt(bytes, bytes', q, live[q])
  {
    assert |bytes'| == |bytes|;
    LayoutTiles(b, used, live, end);
    TilesEnds(S, b, 0, end);
    hide Layout, OnlyIn, Tiles;
    if p < q { LiveApart(S, b, used, live, 0, end, p, q); } else { LiveApart(S, b, used, live, 0, end, q, p); }
    ApartFromHeader(b, used, live, end, 0, q);
    SliceKept(bytes, bytes', p, live[p], q, q + live[q]);
  }

  // ---------------------------------------------------------------------- links

  /** The header of b[i] links it to its neighbours. The end block's prev is not kept
      up, its next is itself. */
  predicate LinkOk(hdr: Headers, b: seq<int>, used: set<int>, i: int)
  {
    && 0 <= i < |b| && b[i] in hdr && (hdr[b[i]].used <==> b[i] in used)
    && (i + 1 < |b| ==> hdr[b[i]].next == b[i + 1] && hdr[b[i]].prev == if i == 0 then b[0] else b[i - 1])
    && (i + 1 == |b| ==> hdr[b[i]].next == b[i])
  }

  ghost predicate Chain(hdr: Headers, b: seq<int>, used: set<int>)
  {
    forall i {:trigger LinkOk(hdr, b, used, i)} :: 0 <= i < |b| ==> LinkOk(hdr, b, used, i)
  }

  /** The headers after x is put in behind the block a, which is or becomes used. */
  function LinkedIn(hdr: Headers, a: int, x: int, end: int): Headers
    requires a in hdr && hdr[a].next in hdr
  {
    var n := hdr[a].next;
    var m := hdr[x := Header(n, a, false)][a := Header(x, hdr[a].prev, true)];
    if n != end then m[n := m[n].(prev := x)] else m
  }

  lemma ChainInsert(hdr: Headers, b: seq<int>, used: set<int>, i: nat, x: int)
    requires Chain(hdr, b, used) && Distinct(b) && i + 1 < |b| && x !in b && x !in used
    ensures b[i] in hdr && hdr[b[i]].next in hdr
    ensures Chain(LinkedIn(hdr, b[i], x, b[|b| - 1]), Insert(b, i, x), used + {b[i]})
  {
    assert LinkOk(hdr, b, used, i) && LinkOk(hdr, b, used, i + 1);
    var hdr', r := LinkedIn(hdr, b[i], x, b[|b| - 1]), Insert(b, i, x);
    forall j | 0 <= j < |r| ensures LinkOk(hdr', r, used + {b[i]}, j) {
      LinkAfterInsert(hdr, b, used, i, x, j);
    }
  }

  lemma LinkAfterInsert(hdr: Headers, b: seq<int>, used: set<int>, i: nat, x: int, j: nat)
    requires Chain(hdr, b, used) && Distinct(b) && i + 1 < |b| && x !in b && x !in used && j <= |b|
    requires b[i] in hdr && hdr[b[i]].next in hdr
    ensures LinkOk(LinkedIn(hdr, b[i], x, b[|b| - 1]), Insert(b, i, x), used + {b[i]}, j)
  {
    hide Distinct;
    assert LinkOk(hdr, b, used, i) && LinkOk(hdr, b, used, i + 1);
    var k := if j <= i then j else if j == i + 1 then i else j - 1;
    assert LinkOk(hdr, b, used, k);
    Differ(b, i, k);
    Differ(b, i + 1, k);
    Differ(b, i + 1, |b| - 1);
    Differ(b, i, i + 1);
  }

  /** The headers after the block behind a is taken off. */
  function LinkedOut(hdr: Headers, a: int): Headers
    requires a in hdr && hdr[a].next in hdr && hdr[hdr[a].next].next in hdr
  {
    var n := hdr[hdr[a].next].next;
    var m := hdr[a := hdr[a].(next := n)];
    m[n := m[n].(prev := a)]
  }

  lemma ChainRemove(hdr: Headers, b: seq<int>, used: set<int>, i: nat)
    requires Chain(hdr, b, used) && Distinct(b) && i + 2 < |b|
    ensures b[i] in hdr && hdr[b[i]].next in hdr && hdr[hdr[b[i]].next].next in hdr
    ensures Chain(LinkedOut(hdr, b[i]), Remove(b, i + 1), used)
  {
    assert LinkOk(hdr, b, used, i) && LinkOk(hdr, b, used, i + 1) && LinkOk(hdr, b, used, i + 2);
    var hdr', r := LinkedOut(hdr, b[i]), Remove(b, i + 1);
    forall j | 0 <= j < |r| ensures LinkOk(hdr', r, used, j) {
      LinkAfterRemove(hdr, b, used, i, j);
    }
  }

  lemma LinkAfterRemove(hdr: Headers, b: seq<int>, used: set<int>, i: nat, j: nat)
    requires Chain(hdr, b, used) && Distinct(b) && i + 2 < |b| && j + 1 < |b|
    requires b[i] in hdr && hdr[b[i]].next in hdr && hdr[hdr[b[i]].next].next in hdr
    ensures LinkOk(LinkedOut(hdr, b[i]), Remove(b, i + 1), used, j)
  {
    hide Distinct;
    assert LinkOk(hdr, b, used, i) && LinkOk(hdr, b, used, i + 1) && LinkOk(hdr, b, used, i + 2);
    var k := if j <= i then j else j + 1;
    assert LinkOk(hdr, b, used, k);
    Differ(b, i, k);
    Differ(b, i + 2, k);
    Differ(b, i, i + 2);
  }

  lemma ChainMark(hdr: Headers, b: seq<int>, used: set<int>, i: nat, u: bool)
    requires Chain(hdr, b, used) && Distinct(b) && i < |b|
    ensures b[i] in hdr
    ensures Chain(hdr[b[i] := hdr[b[i]].(used := u)], b, if u then used + {b[i]} else used - {b[i]})
  {
    assert LinkOk(hdr, b, used, i);
    var hdr', used' := hdr[b[i] := hdr[b[i]].(used := u)], if u then used + {b[i]} else used - {b[i]};
    forall j | 0 <= j < |b| ensures LinkOk(hdr', b, used', j) {
      hide Distinct;
      assert LinkOk(hdr, b, used, j);
      Differ(b, i, j);
    }
  }

  // ---------------------------------------------------------- the lowest free block

  ghost predicate Lowest(b: seq<int>, used: set<int>, end: int, lfree: int)
  {
    lfree in b && (lfree == end || lfree !in used) && forall x :: x in b && x < lfree ==> x in used
  }

  // --------------------------------------------------------------- request sizes

  /** RT_ALIGN in 32-bit arithmetic. */
  function Aligned(size: nat): (n: nat)
    ensures n % ALIGN == 0
    ensures size <= WORD - ALIGN ==> size <= n < size + ALIGN
  {
    (size + ALIGN - 1) / ALIGN * ALIGN % WORD
  }

  /** The bytes a block must have for a request. */
  function Need(size: nat): nat { if Aligned(size) < MIN then MIN else Aligned(size) }

  /** The block covers the request exactly when rounding up does not wrap round zero; when
      it does, the request is taken for the smallest one. */
  lemma NeedCovers(size: nat)
    requires 0 < size < WORD
    ensures Need(size) >= size <==> size <= WORD - ALIGN
    ensures size > WORD - ALIGN ==> Need(size) == MIN
  {
  }

  /** The search stops below mem_size_aligned - size, in 32-bit arithmetic. */
  function Bound(heapSize: nat, n: nat): nat { (heapSize - n) % WORD }

  /** rt_malloc looks for a block for this request. */
  predicate Accepted(heapSize: nat, size: nat) { size > 0 && Aligned(size) <= heapSize }

  /** The search for an accepted request stops before the end block exactly in a heap
      that can hold the smallest block. */
  lemma SearchStops(heapSize: nat, size: nat)
    requires heapSize + 2 * S < WORD && heapSize % ALIGN == 0 && size < WORD && Accepted(heapSize, size)
    ensures Bound(heapSize, Need(size)) <= heapSize + S <==> heapSize >= MIN
  {
  }

  /** In a smaller heap it does not stop at all: no block will do, and the bound is above
      every block, also the end block, whose next is itself. */
  lemma SearchNeverEnds(b: seq<int>, used: set<int>, live: Live, heapSize: nat, size: nat, i: nat)
    requires heapSize < MIN && size < WORD && Accepted(heapSize, size)
    requires Layout(S, b, used, live, 0, heapSize + S) && i < |b|
    ensures b[i] < Bound(heapSize, Need(size)) && Unfit(b, used, Need(size), i)
  {
    var end := heapSize + S;
    LayoutTiles(b, used, live, end);
    TilesEnds(S, b, 0, end);
    hide Layout, Tiles;
    InOrder(S, b, 0, end, i, |b| - 1);
    InOrder(S, b, 0, end, 0, i);
    if i + 1 < |b| { InOrder(S, b, 0, end, i + 1, |b| - 1); }
  }

  /** A request of exactly the size of the heap is refused in every state. */
  lemma WholeHeapRefused(b: seq<int>, used: set<int>, live: Live, heapSize: nat)
    requires Layout(S, b, used, live, 0, heapSize + S) && heapSize >= MIN && heapSize % ALIGN == 0 && heapSize < WORD
    ensures Need(heapSize) == heapSize && Refused(b, used, Need(heapSize))
  {
    var end := heapSize + S;
    LayoutTiles(b, used, live, end);
    TilesEnds(S, b, 0, end);
    hide Layout, Tiles;
    forall i | 0 <= i < |b| - 1 ensures Unfit(b, used, heapSize, i) || (i == |b| - 2 && b[i + 1] - b[i] - S == heapSize) {
      InOrder(S, b, 0, end, 0, i);
      InOrder(S, b, 0, end, i + 1, |b| - 1);
    }
  }

  /** The room between two addresses, less two headers: what the heap is given. */
  function HeapSize(begin: nat, end: nat): (r: Option<nat>)
    requires begin < WORD && end < WORD
    ensures r.None? <==> end - end % ALIGN < Aligned(begin) + 2 * S || end - end % ALIGN == 2 * S
    ensures r.Some? ==> Aligned(begin) + 2 * S + r.value <= end < Aligned(begin) + 2 * S + r.value + ALIGN && r.value % ALIGN == 0
  {
    var beginAlign, endAlign := Aligned(begin), end / ALIGN * ALIGN;
    if endAlign > 2 * S && endAlign - 2 * S >= beginAlign then
      Some(endAlign - beginAlign - 2 * S)
    else None
  }

  // -------------------------------------------------------------------- the heap

  /** Block sizes are taken with their headers here, as used_mem counts them. */
  ghost function Taken(b: seq<int>, used: set<int>, end: int): int { end - FreeSum(0, b, used) }

  lemma InHeap(b: seq<int>, used: set<int>, live: Live, end: int, o: int)
    requires Layout(S, b, used, live, 0, end) && o in b
    ensures 0 <= o <= end
  {
    var j :| 0 <= j < |b| && b[j] == o;
    TilesEnds(S, b, 0, end);
    InOrder(S, b, 0, end, 0, j);
    InOrder(S, b, 0, end, j, |b| - 1);
  }

  lemma PutKeeps(bytes: seq<int>, hdr: Headers, b: seq<int>, b': seq<int>, used: set<int>, live: Live, end: int, o: int, h: Header)
    requires Images(bytes, hdr, b) && Layout(S, b', used, live, 0, end) && o in b' && |bytes| == end + S
    requires forall x :: x in b' ==> x == o || x in b
    requires 0 <= o && o + S <= |bytes|
    ensures Images(Overwrite(bytes, o, Image(h)), hdr[o := h], b')
    ensures Same(bytes, Overwrite(bytes, o, Image(h)), live)
  {
    hide Images, Same, Overwrite, Image, OnlyIn;
    OverwriteOnly(bytes, o, Image(h));
    ImagesPut(bytes, Overwrite(bytes, o, Image(h)), hdr, b, b', end, o, h);
    HeaderWriteKeeps(b', used, live, end, o, bytes, Overwrite(bytes, o, Image(h)));
  }

  /** The front of a free block is taken, the rest stays free. */
  lemma SplitLayout(b: seq<int>, used: set<int>, live: Live, end: int, i: nat, x: int)
    requires Layout(S, b, used, live, 0, end) && i + 1 < |b| && b[i] !in used
    requires b[i] + S <= x && x + S <= b[i + 1] && x % ALIGN == 0
    ensures x !in b && x !in used && b[i] + S !in live
    ensures Layout(S, Insert(b, i, x), used + {b[i]}, live[b[i] + S := x - b[i] - S], 0, end)
    ensures Taken(Insert(b, i, x), used + {b[i]}, end) == Taken(b, used, end) + (x - b[i])
  {
    hide Tiles, Held, Merged, FreeSum, Insert;
    Neighbour(b, used, i, i + 1);
    Take(S, 0, b, used, live, 0, end, i);
    Cut(S, 0, b, used + {b[i]}, live[b[i] + S := b[i + 1] - b[i] - S], 0, end, i, x);
    assert live[b[i] + S := b[i + 1] - b[i] - S][b[i] + S := x - b[i] - S] == live[b[i] + S := x - b[i] - S];
  }

  /** The block b[i] is used or has fewer than n bytes. */
  predicate Unfit(b: seq<int>, used: set<int>, n: nat, i: int)
  {
    0 <= i < |b| - 1 ==> b[i] in used || b[i + 1] - b[i] - S < n
  }

  ghost predicate UnfitBelow(b: seq<int>, used: set<int>, n: nat, j: int)
  {
    forall i {:trigger Unfit(b, used, n, i)} :: 0 <= i < j ==> Unfit(b, used, n, i)
  }

  /** No block will do: every one is unfit, except that an exact fit that ends at the
      end of the heap is not found. */
  ghost predicate Refused(b: seq<int>, used: set<int>, n: nat)
  {
    forall i {:trigger Unfit(b, used, n, i)} :: 0 <= i < |b| - 1 ==>
      Unfit(b, used, n, i) || (i == |b| - 2 && b[i + 1] - b[i] - S == n)
  }

  lemma UsedBelow(b: seq<int>, used: set<int>, end: int, lfree: int, n: nat) returns (j: nat)
    requires Lowest(b, used, end, lfree) && Tiles(S, b, 0, end)
    ensures j < |b| && b[j] == lfree && UnfitBelow(b, used, n, j)
  {
    j :| 0 <= j < |b| && b[j] == lfree;
    forall i | 0 <= i < j ensures Unfit(b, used, n, i) {
      InOrder(S, b, 0, end, i, j);
    }
  }

  lemma RefusedFrom(b: seq<int>, used: set<int>, heapSize: nat, n: nat, j: nat)
    requires Tiles(S, b, 0, heapSize + S) && UnfitBelow(b, used, n, j) && j < |b| && b[j] >= heapSize - n
    ensures Refused(b, used, n)
  {
    hide Tiles;
    TilesEnds(S, b, 0, heapSize + S);
    forall i | 0 <= i < |b| - 1 ensures Unfit(b, used, n, i) || (i == |b| - 2 && b[i + 1] - b[i] - S == n) {
      if i >= j {
        InOrder(S, b, 0, heapSize + S, j, i);
        InOrder(S, b, 0, heapSize + S, i + 1, |b| - 1);
      } else {
        assert Unfit(b, used, n, i);
      }
    }
  }

  lemma UnfitIs(b: seq<int>, used: set<int>, n: nat, i: nat)
    requires i + 1 < |b|
    ensures Unfit(b, used, n, i) <==> b[i] in used || b[i + 1] - b[i] - S < n
  {
  }

  lemma UnfitMore(b: seq<int>, used: set<int>, n: nat, j: nat)
    requires UnfitBelow(b, used, n, j) && Unfit(b, used, n, j)
    ensures UnfitBelow(b, used, n, j + 1)
  {
  }

  lemma LayoutTiles(b: seq<int>, used: set<int>, live: Live, end: int)
    requires Layout(S, b, used, live, 0, end)
    ensures Tiles(S, b, 0, end)
  {
  }

  lemma SameChain(x: seq<int>, y: seq<int>, z: seq<int>, live: Live)
    requires Same(x, y, live) && Same(y, z, live)
    ensures Same(x, z, live)
  {
    forall p | p in live ensures SameAt(x, z, p, live[p]) {
      assert SameAt(x, y, p, live[p]) && SameAt(y, z, p, live[p]);
    }
  }

  /** No block lies between neighbours. */
  lemma NextAbove(b: seq<int>, end: int, j: nat)
    requires Tiles(S, b, 0, end) && j + 1 < |b|
    ensures forall x :: x in b && x < b[j + 1] ==> x <= b[j]
  {
    forall x | x in b && x < b[j + 1] ensures x <= b[j] {
      var k :| 0 <= k < |b| && b[k] == x;
      hide Tiles;
      InOrder(S, b, 0, end, j + 1, k);
      InOrder(S, b, 0, end, k, j);
    }
  }

  /** Every block below a is unfit. */
  ghost predicate FirstFit(b: seq<int>, used: set<int>, n: nat, a: int)
  {
    forall i {:trigger Unfit(b, used, n, i)} :: 0 <= i < |b| && b[i] < a ==> Unfit(b, used, n, i)
  }

  lemma FoundFirst(b: seq<int>, used: set<int>, end: int, n: nat, j: nat)
    requires Tiles(S, b, 0, end) && UnfitBelow(b, used, n, j) && j < |b|
    ensures FirstFit(b, used, n, b[j])
  {
    hide Tiles;
    forall i | 0 <= i < |b| && b[i] < b[j] ensures Unfit(b, used, n, i) {
      InOrder(S, b, 0, end, j, i);
    }
  }

  /** What the search finds is not refused. */
  lemma FoundOne(b: seq<int>, used: set<int>, heapSize: nat, n: nat, j: nat)
    requires j + 1 < |b| && !Unfit(b, used, n, j) && b[j] < heapSize - n && b[|b| - 1] == heapSize + S
    ensures !Refused(b, used, n)
  {
  }

  /** The block a is taken, and perhaps a free one appears behind it. */
  lemma LowestAfterTake(b: seq<int>, used: set<int>, end: int, lfree: int, a: int, b': seq<int>, used': set<int>)
    requires Lowest(b, used, end, lfree) && a in b && a !in used && a != end && used' == used + {a}
    requires (forall x :: x in b ==> x in b') && forall x :: x in b' && x !in b ==> x > a
    ensures lfree <= a && lfree in b' && forall x :: x in b' && x < lfree ==> x in used'
    ensures a != lfree ==> Lowest(b', used', end, lfree)
  {
  }

  // --------------------------------------------------------------- plugging holes

  ghost function JoinedRight(b: seq<int>, used: set<int>, i: nat): seq<int>
    requires i + 1 < |b|
  {
    if b[i + 1] in used then b else Remove(b, i + 1)
  }

  ghost function JoinedLeft(c: seq<int>, used: set<int>, i: nat): seq<int>
    requires i < |c|
  {
    if i > 0 && c[i - 1] !in used then Remove(c, i) else c
  }

  ghost predicate Ascending(b: seq<int>) { forall j, k :: 0 <= j < k < |b| ==> b[j] < b[k] }

  lemma JoinedFacts(b: seq<int>, used: set<int>, i: nat)
    requires i + 1 < |b| && Distinct(b) && b[|b| - 1] in used
    ensures var c := JoinedRight(b, used, i);
            && Distinct(c) && i + 1 < |c| && c[i] == b[i] && c[|c| - 1] == b[|b| - 1] && (i > 0 ==> c[i - 1] == b[i - 1])
            && JoinedLeft(c, used, i) == FreedBlocks(b, used, i)
  {
    if b[i + 1] !in used { DistinctRemove(b, i + 1); }
  }

  /** The lowest free block stays where it is: it is neither of those that go away. */
  lemma PluggedLowest(b: seq<int>, used: set<int>, end: int, lfree: int, i: nat)
    requires Lowest(b, used, end, lfree) && Distinct(b) && Ascending(b) && i + 1 < |b| && b[i] !in used && b[|b| - 1] == end && end in used
    ensures Lowest(FreedBlocks(b, used, i), used, end, lfree)
    ensures lfree <= b[i] && lfree != b[i + 1] && (i > 0 && b[i - 1] !in used ==> lfree != b[i])
  {
    assert lfree <= b[i] < b[i + 1];
    assert i > 0 && b[i - 1] !in used ==> lfree <= b[i - 1] < b[i];
    hide Ascending;
    RemoveMembers(b, i + 1);
    var c := JoinedRight(b, used, i);
    JoinedFacts(b, used, i);
    RemoveMembers(c, i);
    hide Remove, Distinct;
  }

  ghost predicate Within(live: Live, live': Live)
  {
    forall p :: p in live ==> p in live' && 0 <= live[p] <= live'[p]
  }

  lemma SameWithin(x: seq<int>, y: seq<int>, live: Live, live': Live)
    requires Same(x, y, live) && Within(live', live)
    ensures Same(x, y, live')
  {
    forall p | p in live' ensures SameAt(x, y, p, live'[p]) {
      SamePrefix(x, y, p, live[p], live'[p]);
    }
  }

  lemma SameFewer(x: seq<int>, y: seq<int>, live: Live, p: int)
    requires Same(x, y, live)
    ensures Same(x, y, live - {p})
  {
  }

  lemma SameRefl(bytes: seq<int>, b: seq<int>, used: set<int>, live: Live, end: int)
    requires Layout(S, b, used, live, 0, end) && |bytes| == end + S
    ensures Same(bytes, bytes, live)
  {
    TilesEnds(S, b, 0, end);
    forall p | p in live ensures SameAt(bytes, bytes, p, live[p]) {
      ApartFromHeader(b, used, live, end, 0, p);
    }
  }

  /** What callers hold while the block behind b[i], if free, has gone to it. */
  ghost function HeldJoined(b: seq<int>, used: set<int>, live: Live, i: nat): Live
    requires i + 1 < |b| && (b[i + 1] !in used ==> i + 2 < |b|)
  {
    if b[i + 1] in used then live else live[b[i] + S := b[i + 2] - b[i] - S]
  }

  lemma SizesNonNegative(b: seq<int>, used: set<int>, live: Live, end: int)
    requires Layout(S, b, used, live, 0, end)
    ensures forall p :: p in live ==> 0 <= live[p]
  {
    TilesEnds(S, b, 0, end);
    forall p | p in live ensures 0 <= live[p] { ApartFromHeader(b, used, live, end, 0, p); }
  }

  lemma LayoutOrder(b: seq<int>, used: set<int>, live: Live, end: int)
    requires Layout(S, b, used, live, 0, end)
    ensures Distinct(b) && Ascending(b)
  {
  }

  /** Whether b[i] itself is in use plays no part in joining its neighbours. */
  lemma SameJoins(b: seq<int>, used: set<int>, i: nat)
    requires Distinct(b) && i + 1 < |b|
    ensures FreedBlocks(b, used - {b[i]}, i) == FreedBlocks(b, used, i)
    ensures JoinedRight(b, used - {b[i]}, i) == if b[i + 1] in used then b else Remove(b, i + 1)
  {
    hide Distinct, Remove;
    Differ(b, i, i + 1);
    if i > 0 { Differ(b, i - 1, i); }
  }

  lemma JoinedHeld(b: seq<int>, used: set<int>, live: Live, i: nat)
    requires i + 1 < |b| && (b[i + 1] !in used ==> i + 2 < |b|) && forall p :: p in live ==> 0 <= live[p]
    ensures Within(live - {b[i] + S}, HeldJoined(b, used, live, i))
  {
  }

  /** The layouts on the way of freeing b[i]. */
  lemma FreeLayout(b: seq<int>, used: set<int>, live: Live, end: int, i: nat)
    requires Layout(S, b, used, live, 0, end) && i + 1 < |b| && b[i] in used
    ensures b[i + 1] !in used ==> i + 2 < |b|
    ensures var u, p := used - {b[i]}, b[i] + S;
            && p in live && live[p] == b[i + 1] - p && Distinct(b) && Ascending(b)
            && Layout(S, JoinedRight(b, u, i), used, HeldJoined(b, used, live, i), 0, end)
            && Layout(S, FreedBlocks(b, u, i), u, live - {p}, 0, end)
            && Within(live - {p}, HeldJoined(b, used, live, i))
            && Taken(FreedBlocks(b, u, i), u, end) == Taken(b, used, end) - (b[i + 1] - b[i])
  {
    hide Layout, FreeSum, Remove, Ascending, Distinct, Within, FreedBlocks, JoinedRight;
    LayoutOrder(b, used, live, end);
    GiveBack(S, 0, b, used, live, 0, end, i);
    SameJoins(b, used, i);
    if b[i + 1] !in used { AbsorbRight(S, 0, b, used, live, 0, end, i); }
    SizesNonNegative(b, used, live, end);
    JoinedHeld(b, used, live, i);
  }

  lemma LowestFreed(b: seq<int>, used: set<int>, end: int, lfree: int, a: int)
    requires Lowest(b, used, end, lfree) && a in b && a in used && a != end
    ensures Lowest(b, used - {a}, end, if a < lfree then a else lfree)
  {
  }

  /** A layout to write headers under while b[i] is cut at x: the rest counts as taken. */
  lemma CutWitness(b: seq<int>, used: set<int>, live: Live, end: int, i: nat, x: int)
    requires Layout(S, b, used, live, 0, end) && i + 1 < |b| && b[i] in used
    requires b[i] + S <= x && x + S <= b[i + 1] && x % ALIGN == 0
    ensures x !in b && x !in used && x + S !in live[b[i] + S := x - b[i] - S]
    ensures Layout(S, Insert(b, i, x), used + {x}, live[b[i] + S := x - b[i] - S][x + S := b[i + 1] - x - S], 0, end)
  {
    hide Tiles, Merged, Insert, Distinct;
    TilesEnds(S, b, 0, end);
    TilesInsert(S, b, 0, end, i, x);
    TilesEnds(S, Insert(b, i, x), 0, end);
    HeldInsert(S, b, used, live, end, i, x);
    InsertAt(b, i, x);
    hide Held;
    HeldMark(S, Insert(b, i, x), used, live[b[i] + S := x - b[i] - S], end, i + 1);
    MergedWitness(b, used, i, x);
  }

  lemma MergedWitness(b: seq<int>, used: set<int>, i: nat, x: int)
    requires Merged(b, used) && i + 1 < |b| && b[i] in used
    ensures Merged(Insert(b, i, x), used + {x})
  {
    var r := Insert(b, i, x);
    forall j, k | Adj(j, k, |r|) ensures r[j] in used + {x} || r[k] in used + {x} {
      if j != i && k != i + 1 && j != i + 1 {
        assert Adj(if j <= i then j else j - 1, if k <= i then k else k - 1, |b|);
      }
    }
  }

  /** Plugging the cut-off rest gives the layout of a cut. */
  lemma CutPlugged(b: seq<int>, used: set<int>, i: nat, x: int)
    requires i + 1 < |b| && b[i] in used && b[|b| - 1] in used
    ensures |Insert(b, i, x)| == |b| + 1
    ensures JoinedRight(Insert(b, i, x), used, i + 1) == CutBlocks(b, used, i, x)
    ensures FreedBlocks(Insert(b, i, x), used, i + 1) == CutBlocks(b, used, i, x)
  {
    InsertAt(b, i, x);
    InsertRemove(b, i, x);
    hide Insert, Remove;
  }

  /** The layout after the block b[i] is cut at x. */
  lemma CutLayout(b: seq<int>, used: set<int>, live: Live, end: int, i: nat, x: int)
    requires Layout(S, b, used, live, 0, end) && i + 1 < |b| && b[i] in used
    requires b[i] + S <= x && x + S <= b[i + 1] && x % ALIGN == 0
    ensures Layout(S, CutBlocks(b, used, i, x), used, live[b[i] + S := x - b[i] - S], 0, end)
    ensures Taken(CutBlocks(b, used, i, x), used, end) == Taken(b, used, end) - (b[i + 1] - x)
    ensures |Insert(b, i, x)| == |b| + 1 && Distinct(Insert(b, i, x)) && Ascending(Insert(b, i, x))
    ensures Within(live[b[i] + S := x - b[i] - S], live[b[i] + S := x - b[i] - S])
    ensures Within(live[b[i] + S := x - b[i] - S], live[b[i] + S := x - b[i] - S][x + S := b[i + 1] - x - S])
  {
    hide Layout, FreeSum, Insert, Remove, CutBlocks, Distinct, Ascending;
    CutWitness(b, used, live, end, i, x);
    LayoutOrder(Insert(b, i, x), used + {x}, live[b[i] + S := x - b[i] - S][x + S := b[i + 1] - x - S], end);
    InsertAt(b, i, x);
    if b[i + 1] !in used { AbsorbRight(S, 0, b, used, live, 0, end, i); }
    LayoutTiles(b, used, live, end);
    if b[i + 1] !in used { InOrder(S, b, 0, end, i + 1, i + 2); }
    hide Tiles;
    CutOff(S, 0, b, used, live, 0, end, i, x);
    SizesNonNegative(CutBlocks(b, used, i, x), used, live[b[i] + S := x - b[i] - S], end);
    WithinMore(live[b[i] + S := x - b[i] - S], x + S, b[i + 1] - x - S);
  }

  lemma WithinMore(held: Live, q: int, n: int)
    requires (forall p :: p in held ==> 0 <= held[p]) && q !in held
    ensures Within(held, held) && Within(held, held[q := n])
  {
  }

  lemma LowestCut(b: seq<int>, used: set<int>, end: int, lfree: int, i: nat, x: int)
    requires Lowest(b, used, end, lfree) && i < |b| && x !in used
    ensures Lowest(Insert(b, i, x), used, end, if x < lfree then x else lfree)
  {
    hide Insert;
    InsertMembers(b, i, x);
  }

  /** A block of `have` bytes is kept for `n` bytes: it has them, or enough more for another block. */
  predicate InPlace(have: int, n: nat) { have == n || n + S + MIN < have }

  /** The allocation at p is now at q, with at least n bytes and its first ones; nobody
      else's bytes changed. */
  ghost predicate Moved(live: Live, live': Live, bytes: seq<int>, bytes': seq<int>, p: int, q: int, n: nat)
  {
    && p in live && (q == p || q !in live) && q in live' && n <= live'[q] && live' == (live - {p})[q := live'[q]]
    && Same(bytes, bytes', live - {p})
    && var m := if live[p] < n then live[p] else n;
       0 <= p && 0 <= q && 0 <= m && p + m <= |bytes| && q + m <= |bytes'| && bytes'[q..q + m] == bytes[p..p + m]
  }

  lemma MovedNot(live: Live, bytes: seq<int>, p: int, n: nat)
    requires p in live && live[p] == n && Same(bytes, bytes, live)
    ensures Moved(live, live, bytes, bytes, p, p, n)
  {
    assert SameAt(bytes, bytes, p, live[p]);
    SameFewer(bytes, bytes, live, p);
  }

  lemma MovedCut(live: Live, bytes: seq<int>, bytes': seq<int>, p: int, n: nat)
    requires p in live && n <= live[p] && Same(bytes, bytes', live[p := n])
    ensures Moved(live, live[p := n], bytes, bytes', p, p, n)
  {
    assert SameAt(bytes, bytes', p, live[p := n][p]);
    SameFewer(bytes, bytes', live[p := n], p);
    assert live[p := n] - {p} == live - {p};
  }

  lemma MovedCopied(live: Live, x: seq<int>, y: seq<int>, z: seq<int>, w: seq<int>, p: int, q: int, s: nat, n: nat)
    requires p in live && q !in live && n <= s && Same(x, y, live[q := s]) && Same(y, z, live[q := s] - {q})
    requires Same(z, w, live[q := s] - {p})
    requires var m := if live[p] < n then live[p] else n;
             0 <= m && 0 <= p && 0 <= q && p + m <= |y| && q + m <= |z| && z[q..q + m] == y[p..p + m]
    ensures Moved(live, live[q := s] - {p}, x, w, p, q, n)
  {
    var m := if live[p] < n then live[p] else n;
    assert live[q := s] - {p} == (live - {p})[q := s];
    assert SameAt(x, y, p, live[q := s][p]) && SameAt(z, w, q, (live[q := s] - {p})[q]);
    SamePrefix(x, y, p, live[p], m);
    SamePrefix(z, w, q, s, m);
    forall k | k in live - {p} ensures SameAt(x, w, k, live[k]) {
      assert SameAt(x, y, k, live[q := s][k]) && SameAt(y, z, k, (live[q := s] - {q})[k]);
      assert SameAt(z, w, k, (live[q := s] - {p})[k]);
    }
  }

  lemma AlignedTwice(size: nat)
    ensures Aligned(Aligned(size)) == Aligned(size) && Aligned(size) < WORD
  {
    var n := Aligned(size);
    assert (n + ALIGN - 1) / ALIGN * ALIGN == n;
  }

  ghost predicate Positive(live: Live) { forall p :: p in live ==> live[p] > 0 }

  /** What holds with one allocation more holds of those before. */
  lemma SameBefore(x: seq<int>, y: seq<int>, live: Live, live': Live, p: int)
    requires Same(x, y, live') && p !in live && p in live' && live' == live[p := live'[p]]
    ensures Same(x, y, live)
  {
    forall q | q in live ensures SameAt(x, y, q, live[q]) { assert SameAt(x, y, q, live'[q]); }
  }

  lemma StillPositive(live: Live, live': Live, p: int)
    requires Positive(live) && p in live' && live' == live[p := live'[p]] && live'[p] > 0
    ensures Positive(live')
  {
  }

  /** The bytes of a block of `found` that a request of `n` gets: those it needs, or all if
      the rest could not hold a header and MIN bytes. */
  function Given(found: int, n: int): int { if found >= n + S + MIN then n else found }

  class Heap {
    const size: nat  // mem_size_aligned
    var bytes: seq<int>
    var hdr: Headers
    var lfree: int
    var usedMem: int
    var maxMem: int
    ghost var blocks: seq<int>
    ghost var used: set<int>
    ghost var live: Live

    /** Everything but the lowest-free pointer. */
    ghost predicate Sound()
      reads this
    {
      && size % ALIGN == 0 && size + 2 * S < WORD && |bytes| == size + 2 * S
      && Layout(S, blocks, used, live, 0, size + S)
      && Chain(hdr, blocks, used) && Images(bytes, hdr, blocks)
      && usedMem == Taken(blocks, used, size + S) && usedMem <= maxMem
    }

    ghost predicate Valid()
      reads this
    {
      Sound() && Lowest(blocks, used, size + S, lfree) && Positive(live)
    }

    /** rt_system_heap_init, for addresses that leave room for two headers. */
    constructor (beginAddr: nat, endAddr: nat, memory: seq<int>)
      requires beginAddr < WORD && endAddr < WORD && HeapSize(beginAddr, endAddr).Some?
      requires |memory| == HeapSize(beginAddr, endAddr).value + 2 * S
      ensures Valid() && size == HeapSize(beginAddr, endAddr).value && live == map[] && usedMem == 0
    {
      var heapSize := HeapSize(beginAddr, endAddr).value;
      hide HeapSize;
      var end := heapSize + S;
      var first, last := Header(end, 0, false), Header(end, end, true);
      size := heapSize;
      hdr := map[0 := first, end := last];
      bytes := Overwrite(Overwrite(memory, 0, Image(first)), end, Image(last));
      lfree, usedMem, maxMem := 0, 0, 0;
      blocks, used, live := [0, end], {end}, map[];
      Fresh(S, 0, 0, end);
      OverwriteOnly(memory, 0, Image(first));
      var one := Overwrite(memory, 0, Image(first));
      OverwriteOnly(one, end, Image(last));
      SliceKept(one, Overwrite(one, end, Image(last)), end, S, 0, S);
      hide FreeSum, Layout, Image, Overwrite;
    }

    /** Write the header of the block at o. b and held describe a layout that has it. */
    method Put(o: int, h: Header, ghost before: seq<int>, ghost b: seq<int>, ghost u: set<int>, ghost held: Live)
      requires |bytes| == size + 2 * S && Images(bytes, hdr, before)
      requires Layout(S, b, u, held, 0, size + S) && o in b && forall x :: x in b ==> x == o || x in before
      modifies `bytes, `hdr
      ensures hdr == old(hdr)[o := h] && Images(bytes, hdr, b) && Same(old(bytes), bytes, held)
      ensures |bytes| == size + 2 * S
    {
      InHeap(b, u, held, size + S, o);
      hide Layout, Images, Image, Overwrite, Same;
      OverwriteOnly(bytes, o, Image(h));
      PutKeeps(bytes, hdr, before, b, u, held, size + S, o, h);
      bytes := Overwrite(bytes, o, Image(h));
      hdr := hdr[o := h];
    }

    /** What the headers say about the block at index i. */
    lemma BlockFacts(i: nat)
      requires Sound() && i < |blocks|
      ensures blocks[i] in hdr && (hdr[blocks[i]].used <==> blocks[i] in used)
      ensures i + 1 < |blocks| ==> hdr[blocks[i]].next == blocks[i + 1] && blocks[i] + S <= blocks[i + 1]
      ensures i + 1 < |blocks| ==> hdr[blocks[i]].prev == if i == 0 then blocks[0] else blocks[i - 1]
      ensures blocks[i] % ALIGN == 0 && 0 <= blocks[i] <= size + S && (blocks[i] == size + S <==> i + 1 == |blocks|)
      ensures blocks[|blocks| - 1] == size + S && Distinct(blocks) && size + S in used
    {
      assert LinkOk(hdr, blocks, used, i);
      assert blocks[i] in blocks;
      TilesEnds(S, blocks, 0, size + S);
      InOrder(S, blocks, 0, size + S, 0, i);
      InOrder(S, blocks, 0, size + S, i, |blocks| - 1);
    }

    /** The first free block with n bytes, from the lowest free one on. */
    method Search(n: nat) returns (found: bool, ptr: int, ghost j: nat)
      requires Valid() && MIN <= n <= size
      ensures found ==> j + 1 < |blocks| && blocks[j] == ptr && ptr < size - n
      ensures found ==> !Unfit(blocks, used, n, j) && UnfitBelow(blocks, used, n, j)
      ensures !found ==> Refused(blocks, used, n)
    {
      hide Layout, Chain, Images, Lowest, Taken, Refused, UnfitBelow, Distinct;
      LayoutTiles(blocks, used, live, size + S);
      j := UsedBelow(blocks, used, size + S, lfree, n);
      assert Sound() && Bound(size, n) == size - n;
      hide Tiles, Bound, Sound, Unfit;
      ptr := lfree;
      while ptr < Bound(size, n)
        invariant j < |blocks| && blocks[j] == ptr && UnfitBelow(blocks, used, n, j)
        decreases |blocks| - j
      {
        BlockFacts(j);
        UnfitIs(blocks, used, n, j);
        if !hdr[ptr].used && hdr[ptr].next - (ptr + S) >= n {
          return true, ptr, j;
        }
        ptr := hdr[ptr].next;
        UnfitMore(blocks, used, n, j);
        j := j + 1;
      }
      RefusedFrom(blocks, used, size, n, j);
      return false, ptr, j;
    }

    /** max_mem is the most that has been in use. */
    ghost predicate Peak(before: int)
      reads this
    {
      maxMem == if usedMem > before then usedMem else before
    }

    method TakeWhole(a: int, ghost i: nat)
      requires Sound() && i + 1 < |blocks| && blocks[i] == a && a !in used
      modifies this
      ensures Sound() && lfree == old(lfree) && blocks == old(blocks) && used == old(used) + {a}
      ensures a + S !in old(live) && live == old(live)[a + S := blocks[i + 1] - a - S] && Same(old(bytes), bytes, live)
      ensures Peak(old(maxMem))
    {
      hide Layout, Chain, Images, Lowest, Same, Distinct, FreeSum;
      BlockFacts(i);
      Take(S, 0, blocks, used, live, 0, size + S, i);
      ChainMark(hdr, blocks, used, i, true);
      ghost var u, held := used + {a}, live[a + S := blocks[i + 1] - a - S];
      Put(a, hdr[a].(used := true), blocks, blocks, u, held);
      usedMem := usedMem + (hdr[a].next - a);
      maxMem := if maxMem < usedMem then usedMem else maxMem;
      used, live := u, held;
    }

    method TakePart(a: int, n: nat, ghost i: nat)
      requires Sound() && i + 1 < |blocks| && blocks[i] == a && a !in used
      requires n % ALIGN == 0 && a + n + 2 * S <= blocks[i + 1]
      modifies this
      ensures Sound() && lfree == old(lfree) && blocks == Insert(old(blocks), i, a + S + n) && used == old(used) + {a}
      ensures a + S !in old(live) && live == old(live)[a + S := n] && Same(old(bytes), bytes, live) && Peak(old(maxMem))
    {
      hide Layout, Chain, Images, Lowest, Same, Distinct, FreeSum, Insert;
      BlockFacts(i);
      BlockFacts(i + 1);
      var x := a + S + n;
      SplitLayout(blocks, used, live, size + S, i, x);
      ChainInsert(hdr, blocks, used, i, x);
      PutLinkIn(a, x, i, used + {a}, live[a + S := n]);
      usedMem := usedMem + (n + S);
      maxMem := if maxMem < usedMem then usedMem else maxMem;
      used, live, blocks := used + {a}, live[a + S := n], Insert(blocks, i, x);
    }

    /** Write the headers that put x in behind a. */
    method PutLinkIn(a: int, x: int, ghost i: nat, ghost u: set<int>, ghost held: Live)
      requires |bytes| == size + 2 * S && Images(bytes, hdr, blocks)
      requires i + 1 < |blocks| && blocks[i] == a && x !in blocks && a in hdr && hdr[a].next == blocks[i + 1] && blocks[i + 1] in hdr
      requires Layout(S, Insert(blocks, i, x), u, held, 0, size + S) && blocks[|blocks| - 1] == size + S
      modifies `bytes, `hdr
      ensures |bytes| == size + 2 * S && hdr == LinkedIn(old(hdr), a, x, size + S)
      ensures Images(bytes, hdr, Insert(blocks, i, x)) && Same(old(bytes), bytes, held)
    {
      hide Layout, Images, Same, Insert;
      ghost var b := Insert(blocks, i, x);
      InsertMembers(blocks, i, x);
      ghost var b0 := bytes;
      Put(x, Header(hdr[a].next, a, false), blocks, b, u, held);
      ghost var b1 := bytes;
      Put(a, Header(x, hdr[a].prev, true), b, b, u, held);
      SameChain(b0, b1, bytes, held);
      var n := hdr[x].next;
      if n != size + S {
        ghost var b2 := bytes;
        Put(n, hdr[n].(prev := x), b, b, u, held);
        SameChain(b0, b2, bytes, held);
      }
    }

    /** Move the lowest-free pointer up to a free block or the end. */
    method AdvanceFree()
      requires Sound() && Positive(live) && lfree in blocks && forall x :: x in blocks && x < lfree ==> x in used
      modifies `lfree
      ensures Valid()
    {
      hide Layout, Tiles, Chain, Images, Distinct, Taken, Positive;
      ghost var j :| 0 <= j < |blocks| && blocks[j] == lfree;
      BlockFacts(j);
      while hdr[lfree].used && lfree != size + S
        invariant j < |blocks| && blocks[j] == lfree && lfree in hdr && (hdr[lfree].used <==> lfree in used)
        invariant forall x :: x in blocks && x < lfree ==> x in used
        decreases |blocks| - j
      {
        BlockFacts(j);
        LayoutTiles(blocks, used, live, size + S);
        NextAbove(blocks, size + S, j);
        lfree := hdr[lfree].next;
        j := j + 1;
        BlockFacts(j);
      }
    }

    /** A block of the needed size, or of one too small to split off the rest: the lowest
        free block that fits. */
    method Malloc(request: nat) returns (p: Option<int>)
      requires Valid() && request < WORD && (Accepted(size, request) ==> MIN <= size)
      modifies this
      ensures Valid()
      ensures p.None? <==> request == 0 || Aligned(request) > size || Refused(old(blocks), old(used), Need(request))
      ensures p.None? ==> unchanged(this)
      ensures p.Some? ==> p.value !in old(live) && p.value in live && live == old(live)[p.value := live[p.value]]
      ensures p.Some? ==> p.value % ALIGN == 0 && Need(request) <= live[p.value] < Need(request) + S + MIN
      ensures p.Some? ==> FirstFit(old(blocks), old(used), Need(request), p.value - S)
      ensures p.Some? ==> 0 <= p.value && p.value + live[p.value] <= size + S && Same(old(bytes), bytes, live)
      ensures p.Some? ==> p.value - S in old(hdr) && live[p.value] == Given(old(hdr)[p.value - S].next - p.value, Need(request)) && Peak(old(maxMem))
    {
      hide Layout, Tiles, Chain, Images, Lowest, Same, Refused, FirstFit, UnfitBelow, Distinct, Taken, Insert, Positive;
      if request == 0 { return None; }
      var n := Aligned(request);
      if n > size { return None; }
      if n < MIN { n := MIN; }
      var found, a, j := Search(n);
      if !found { return None; }
      BlockFacts(j);
      BlockFacts(j + 1);
      FoundOne(blocks, used, size, n, j);
      LayoutTiles(blocks, used, live, size + S);
      FoundFirst(blocks, used, size + S, n, j);
      TakeFound(a, n, j);
      return Some(a + S);
    }

    /** Hand out the free block a, or its front, and keep lfree the lowest. */
    method TakeFound(a: int, n: nat, ghost j: nat)
      requires Valid() && j + 1 < |blocks| && blocks[j] == a && !Unfit(blocks, used, n, j) && 0 < n && n % ALIGN == 0
      modifies this
      ensures Valid() && a + S !in old(live) && a + S in live && live == old(live)[a + S := live[a + S]]
      ensures n <= live[a + S] < n + S + MIN && a + S + live[a + S] <= size + S && Same(old(bytes), bytes, live)
      ensures live[a + S] == Given(old(blocks)[j + 1] - a - S, n) && Peak(old(maxMem))
    {
      hide Layout, Tiles, Chain, Images, Lowest, Same, Distinct, Taken, Insert, Positive;
      BlockFacts(j);
      BlockFacts(j + 1);
      ghost var b, u, heldBefore := blocks, used, live;
      var low := lfree;
      if hdr[a].next - (a + S) >= n + S + MIN {
        TakePart(a, n, j);
        InsertMembers(b, j, a + S + n);
      } else {
        TakeWhole(a, j);
      }
      LowestAfterTake(b, u, size + S, low, a, blocks, used);
      StillPositive(heldBefore, live, a + S);
      if a == lfree {
        AdvanceFree();
      }
    }

    /** Write the headers that take off the block behind a. */
    method PutLinkOut(a: int, ghost b: seq<int>, ghost i: nat, ghost used1: set<int>, ghost u: set<int>, ghost held: Live)
      requires |bytes| == size + 2 * S && Images(bytes, hdr, b) && Chain(hdr, b, used1) && Distinct(b)
      requires i + 2 < |b| && b[i] == a && Layout(S, Remove(b, i + 1), u, held, 0, size + S)
      modifies `bytes, `hdr
      ensures |bytes| == size + 2 * S && Images(bytes, hdr, Remove(b, i + 1)) && Same(old(bytes), bytes, held)
      ensures Chain(hdr, Remove(b, i + 1), used1)
    {
      ghost var c := Remove(b, i + 1);
      assert LinkOk(hdr, b, used1, i) && LinkOk(hdr, b, used1, i + 1) && LinkOk(hdr, b, used1, i + 2);
      ChainRemove(hdr, b, used1, i);
      RemoveMembers(b, i + 1);
      Differ(b, i, i + 1);
      Differ(b, i + 1, i + 2);
      hide Layout, Images, Same, Distinct, Remove, Chain;
      ghost var b0 := bytes;
      var n := hdr[hdr[a].next].next;
      Put(a, hdr[a].(next := n), b, c, u, held);
      ghost var b1 := bytes;
      Put(n, hdr[n].(prev := a), c, c, u, held);
      SameChain(b0, b1, bytes, held);
    }

    /** Join the free block mem with the free one behind it. */
    method PlugForward(mem: int, ghost b: seq<int>, ghost i: nat, ghost u: set<int>, ghost u1: set<int>, ghost held: Live)
      requires |bytes| == size + 2 * S && Images(bytes, hdr, b) && Chain(hdr, b, u) && Distinct(b)
      requires i + 1 < |b| && b[i] == mem && b[|b| - 1] == size + S && size + S in u
      requires Layout(S, JoinedRight(b, u, i), u1, held, 0, size + S)
      modifies `bytes, `hdr, `lfree
      ensures |bytes| == size + 2 * S && Images(bytes, hdr, JoinedRight(b, u, i)) && Same(old(bytes), bytes, held)
      ensures Chain(hdr, JoinedRight(b, u, i), u)
      ensures lfree == if b[i + 1] !in u && old(lfree) == b[i + 1] then mem else old(lfree)
    {
      assert LinkOk(hdr, b, u, i) && LinkOk(hdr, b, u, i + 1);
      Differ(b, i, i + 1);
      var nmem := hdr[mem].next;
      assert nmem == b[i + 1] && (hdr[nmem].used <==> b[i + 1] in u) && mem != nmem;
      hide Layout, Images, Same, Distinct, Remove, Chain, LinkOk;
      if mem != nmem && !hdr[nmem].used && nmem != size + S {
        if lfree == nmem { lfree := mem; }
        PutLinkOut(mem, b, i, u, u1, held);
      } else {
        SameRefl(bytes, JoinedRight(b, u, i), u1, held, size + S);
      }
    }

    /** Join the free block mem with the free one before it. */
    method PlugBackward(mem: int, ghost c: seq<int>, ghost i: nat, ghost u: set<int>, ghost u2: set<int>, ghost held: Live)
      requires |bytes| == size + 2 * S && Images(bytes, hdr, c) && Chain(hdr, c, u) && Distinct(c)
      requires i + 1 < |c| && c[i] == mem && c[|c| - 1] == size + S && size + S in u
      requires Layout(S, JoinedLeft(c, u, i), u2, held, 0, size + S)
      modifies `bytes, `hdr, `lfree
      ensures |bytes| == size + 2 * S && Images(bytes, hdr, JoinedLeft(c, u, i)) && Same(old(bytes), bytes, held)
      ensures Chain(hdr, JoinedLeft(c, u, i), u)
      ensures lfree == if i > 0 && c[i - 1] !in u && old(lfree) == mem then c[i - 1] else old(lfree)
    {
      assert LinkOk(hdr, c, u, i) && (i > 0 ==> LinkOk(hdr, c, u, i - 1));
      if i > 0 { Differ(c, i - 1, i); }
      var pmem := hdr[mem].prev;
      assert pmem == (if i == 0 then mem else c[i - 1]);
      assert pmem != mem && !hdr[pmem].used <==> i > 0 && c[i - 1] !in u;
      hide Layout, Images, Same, Distinct, Remove, Chain, LinkOk;
      if pmem != mem && !hdr[pmem].used {
        if lfree == mem { lfree := pmem; }
        PutLinkOut(pmem, c, i - 1, u, u2, held);
      } else {
        SameRefl(bytes, JoinedLeft(c, u, i), u2, held, size + S);
      }
    }

    /** Join the free block mem, b[i], with its free neighbours. The two layouts are of
        the chain without the block behind it, and of the result. */
    method PlugHoles(mem: int, ghost b: seq<int>, ghost i: nat, ghost u: set<int>, ghost u1: set<int>, ghost held1: Live, ghost u2: set<int>, ghost held2: Live)
      requires |bytes| == size + 2 * S && Images(bytes, hdr, b) && Chain(hdr, b, u) && Distinct(b) && Ascending(b)
      requires i + 1 < |b| && b[i] == mem && mem !in u && b[|b| - 1] == size + S && size + S in u
      requires Layout(S, JoinedRight(b, u, i), u1, held1, 0, size + S)
      requires Layout(S, FreedBlocks(b, u, i), u2, held2, 0, size + S)
      requires Lowest(b, u, size + S, lfree) && Within(held2, held1)
      modifies `bytes, `hdr, `lfree
      ensures |bytes| == size + 2 * S && Same(old(bytes), bytes, held2)
      ensures Images(bytes, hdr, FreedBlocks(b, u, i)) && Chain(hdr, FreedBlocks(b, u, i), u)
      ensures Lowest(FreedBlocks(b, u, i), u, size + S, lfree)
    {
      hide Layout, Images, Same, Distinct, Remove, Within, Lowest, Chain, FreedBlocks, JoinedRight, JoinedLeft, Ascending;
      ghost var c := JoinedRight(b, u, i);
      PluggedLowest(b, u, size + S, lfree, i);
      JoinedFacts(b, u, i);
      ghost var b0 := bytes;
      PlugForward(mem, b, i, u, u1, held1);
      ghost var b1 := bytes;
      SameWithin(b0, b1, held1, held2);
      PlugBackward(mem, c, i, u, u2, held2);
      SameChain(b0, b1, bytes, held2);
    }

    lemma LiveIndex(p: int) returns (i: nat)
      requires Sound() && p in live
      ensures i + 1 < |blocks| && blocks[i] == p - S && blocks[i] in used && live[p] == blocks[i + 1] - p
    {
      TilesEnds(S, blocks, 0, size + S);
      i := IndexOfLive(S, blocks, used, live, size + S, p);
    }

    lemma InRange(p: int)
      requires Valid()
      ensures p in live ==> 0 <= p < size + S
    {
      if p in live {
        var i := LiveIndex(p);
        BlockFacts(i);
        BlockFacts(i + 1);
      }
    }

    method Free(p: Option<int>)
      requires Valid() && (p.Some? ==> p.value in live)
      modifies this
      ensures Valid() && live == (if p.Some? then old(live) - {p.value} else old(live)) && Same(old(bytes), bytes, live)
      ensures maxMem == old(maxMem)
    {
      hide Layout, Images, Same, Distinct, Ascending, Remove, Within, Lowest, Chain, FreedBlocks, JoinedRight, Taken;
      if p.None? {
        SameRefl(bytes, blocks, used, live, size + S);
        return;
      }
      var a := p.value - S;
      ghost var i := LiveIndex(p.value);
      BlockFacts(i);
      FreeLayout(blocks, used, live, size + S, i);
      ChainMark(hdr, blocks, used, i, false);
      LowestFreed(blocks, used, size + S, lfree, a);
      ghost var b, u, held, b0 := blocks, used - {a}, live - {p.value}, bytes;
      Put(a, hdr[a].(used := false), blocks, blocks, used, live);
      SameFewer(b0, bytes, live, p.value);
      ghost var b1 := bytes;
      if a < lfree { lfree := a; }
      usedMem := usedMem - (hdr[a].next - a);
      PlugHoles(a, b, i, u, used, HeldJoined(b, used, live, i), u, held);
      SameChain(b0, b1, bytes, held);
      blocks, used, live := FreedBlocks(b, u, i), u, held;
    }

    /** Cut an allocation down to n bytes. */
    method Shrink(p: int, n: nat, ghost i: nat)
      requires Valid() && p in live && i + 1 < |blocks| && blocks[i] == p - S && blocks[i] in used
      requires n % ALIGN == 0 && 0 < n && p + n + S <= blocks[i + 1]
      modifies this
      ensures Valid() && live == old(live)[p := n] && Same(old(bytes), bytes, live)
    {
      hide Layout, Images, Same, Distinct, Ascending, Insert, Remove, Within, Lowest, Chain, FreedBlocks, CutBlocks, JoinedRight, Taken;
      var a, x := p - S, p + n;
      BlockFacts(i);
      BlockFacts(i + 1);
      ghost var end, held := size + S, live[p := n];
      CutWitness(blocks, used, live, end, i, x);
      CutLayout(blocks, used, live, end, i, x);
      CutPlugged(blocks, used, i, x);
      ChainInsert(hdr, blocks, used, i, x);
      assert used + {a} == used;
      LowestCut(blocks, used, end, lfree, i, x);
      InsertAt(blocks, i, x);
      ghost var b, b0 := Insert(blocks, i, x), bytes;
      usedMem := usedMem - (hdr[a].next - a - S - n);
      PutLinkIn(a, x, i, used + {x}, held[x + S := blocks[i + 1] - x - S]);
      SameWithin(b0, bytes, held[x + S := blocks[i + 1] - x - S], held);
      ghost var b1 := bytes;
      if x < lfree { lfree := x; }
      PlugHoles(x, b, i + 1, used, used, held, used, held);
      SameChain(b0, b1, bytes, held);
      blocks, live := CutBlocks(blocks, used, i, x), held;
    }

    /** A caller writes into its own allocation: no header and no other allocation sees it. */
    method Store(p: int, k: nat, v: int)
      requires Valid() && p in live && k < live[p]
      modifies `bytes
      ensures Valid() && Same(old(bytes), bytes, live - {p})
      ensures 0 <= p && p + k < |bytes| && bytes == old(bytes)[p + k := v]
    {
      hide Images, Same, Chain, Lowest, Taken;
      ghost var i := LiveIndex(p);
      BlockFacts(i);
      DataWriteKeeps(blocks, used, live, size + S, hdr, bytes, Written(p, k, v), p);
      hide Layout;
      bytes := bytes[p + k := v];
    }

    ghost function Written(p: int, k: nat, v: int): seq<int>
      requires 0 <= p && p + k < |bytes|
      reads this
    {
      bytes[p + k := v]
    }

    /** Copy the first n bytes of the allocation at q to the one at p. */
    method Copy(p: int, q: int, n: nat)
      requires Valid() && p in live && q in live && p != q && n <= live[p] && n <= live[q]
      modifies `bytes
      ensures Valid() && Same(old(bytes), bytes, live - {p})
      ensures 0 <= p && 0 <= q && p + n <= |bytes| && q + n <= |bytes| && bytes[p..p + n] == old(bytes)[q..q + n]
    {
      hide Images, Same, Chain, Lowest, Taken;
      ghost var i := LiveIndex(p);
      BlockFacts(i);
      BlockFacts(i + 1);
      ghost var j := LiveIndex(q);
      BlockFacts(j);
      BlockFacts(j + 1);
      var data := bytes[q..q + n];
      OverwriteOnly(bytes, p, data);
      DataWriteKeeps(blocks, used, live, size + S, hdr, bytes, Overwrite(bytes, p, data), p);
      hide Layout, Overwrite;
      bytes := Overwrite(bytes, p, data);
    }

    /** Size zero frees; no pointer allocates; a pointer outside the heap comes back as it
        is. Otherwise the result has the first bytes of the old block, and NULL means that
        nothing changed. */
    method Realloc(p: Option<int>, request: nat) returns (r: Option<int>)
      requires Valid() && request < WORD
      requires Accepted(size, Aligned(request)) && (p.None? || p.value in live) ==> MIN <= size
      requires p.Some? ==> p.value in live || (Aligned(request) > 0 && (p.value < 0 || p.value >= size + S))
      modifies this
      ensures Valid()
      ensures Aligned(request) > size ==> r.None? && unchanged(this)
      ensures Aligned(request) == 0 && p.None? ==> r.None? && live == old(live)
      ensures Aligned(request) == 0 && p.Some? && p.value in old(live) ==> r.None? && live == old(live) - {p.value}
      ensures Aligned(request) == 0 ==> Same(old(bytes), bytes, live)
      ensures p.None? ==> Same(old(bytes), bytes, old(live))
      ensures 0 < Aligned(request) && r.None? ==> unchanged(this)
      ensures 0 < Aligned(request) <= size && p.None? && r.Some? ==>
                r.value !in old(live) && r.value in live && live == old(live)[r.value := live[r.value]]
      ensures p.Some? && p.value !in old(live) && Aligned(request) <= size ==> unchanged(this) && r == p
      ensures 0 < Aligned(request) <= size && p.None? ==> (r.None? <==> Refused(old(blocks), old(used), Need(request)))
      ensures 0 < Aligned(request) <= size && p.Some? && p.value in old(live) ==>
                (r.None? <==> !InPlace(old(live)[p.value], Aligned(request)) && Refused(old(blocks), old(used), Need(request)))
      ensures 0 < Aligned(request) <= size && p.Some? && p.value in old(live) && InPlace(old(live)[p.value], Aligned(request)) ==>
                r == p && p.value in live && live[p.value] == Aligned(request)
      ensures 0 < Aligned(request) && r.Some? && p.Some? && p.value in old(live) ==>
                Moved(old(live), live, old(bytes), bytes, p.value, r.value, Aligned(request))
    {
      hide Layout, Chain, Images, Lowest, Same, Refused, FirstFit, Distinct, Taken, Moved;
      var n := Aligned(request);
      SameRefl(bytes, blocks, used, live, size + S);
      if n > size { return None; }
      if n == 0 {
        Free(p);
        return None;
      }
      AlignedTwice(request);
      if p.None? {
        ghost var held, b := live, bytes;
        r := Malloc(n);
        if r.Some? { SameBefore(b, bytes, held, live, r.value); }
        return;
      }
      InRange(p.value);
      if p.value < 0 || p.value >= size + S { return p; }
      r := Resize(p.value, n);
    }

    method Resize(p: int, n: nat) returns (r: Option<int>)
      requires Valid() && MIN <= size && 0 < n <= size && n % ALIGN == 0 && Aligned(n) == n && p in live
      modifies this
      ensures Valid()
      ensures r.None? ==> unchanged(this)
      ensures r.None? <==> !InPlace(old(live)[p], n) && Refused(old(blocks), old(used), Need(n))
      ensures InPlace(old(live)[p], n) ==> r == Some(p) && p in live && live[p] == n
      ensures r.Some? ==> Moved(old(live), live, old(bytes), bytes, p, r.value, n)
    {
      hide Layout, Chain, Images, Lowest, Same, Refused, FirstFit, Distinct, Taken, Moved, Aligned;
      ghost var i := LiveIndex(p);
      BlockFacts(i);
      ghost var b0, live0 := bytes, live;
      var have := hdr[p - S].next - (p - S) - S;
      if have == n {
        SameRefl(bytes, blocks, used, live, size + S);
        MovedNot(live, bytes, p, n);
        return Some(p);
      }
      if n + S + MIN < have {
        Shrink(p, n, i);
        MovedCut(live0, b0, bytes, p, n);
        return Some(p);
      }
      r := Malloc(n);
      if r.Some? {
        ghost var b1, s := bytes, live[r.value];
        Copy(r.value, p, if have < n then have else n);
        ghost var b2 := bytes;
        Free(Some(p));
        MovedCopied(live0, b0, b1, b2, bytes, p, r.value, s, n);
      }
    }
  }
}
