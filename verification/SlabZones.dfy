/** The slab allocator (src/slab.c): rt_malloc and rt_free on zones of equal
    chunks, above the page allocator. Addresses are byte addresses; a zone or a
    large block is named by the number of its first page. */
module SlabZones {
  import opened Lists
  import opened PageAllocator

  const PAGE := 4096
  const NZONES := 72
  const ZONE_RELEASE_THRESH := 2
  const ZALLOC_ZONE_LIMIT := 16384
  const HEADER := 36  // sizeof(slab_zone) with 4-byte words

  // --------------------------------------------------------------- size classes

  /** zoneindex: the index and the chunk size for a request. */
  function ZoneIndex(n: nat): (nat, nat)
    requires 0 < n < ZALLOC_ZONE_LIMIT
  {
    if n < 128 then var q := (n + 7) / 8; (q - 1, 8 * q)
    else if n < 256 then var q := (n + 15) / 16; (q + 7, 16 * q)
    else if n < 512 then var q := (n + 31) / 32; (q + 15, 32 * q)
    else if n < 1024 then var q := (n + 63) / 64; (q + 23, 64 * q)
    else if n < 2048 then var q := (n + 127) / 128; (q + 31, 128 * q)
    else if n < 4096 then var q := (n + 255) / 256; (q + 39, 256 * q)
    else if n < 8192 then var q := (n + 511) / 512; (q + 47, 512 * q)
    else var q := (n + 1023) / 1024; (q + 55, 1024 * q)
  }

  /** The chunk size that belongs to an index. */
  function ChunkSize(zi: int): int
  {
    if zi <= 15 then 8 * (zi + 1)
    else if zi <= 23 then 16 * (zi - 7)
    else if zi <= 31 then 32 * (zi - 15)
    else if zi <= 39 then 64 * (zi - 23)
    else if zi <= 47 then 128 * (zi - 31)
    else if zi <= 55 then 256 * (zi - 39)
    else if zi <= 63 then 512 * (zi - 47)
    else 1024 * (zi - 55)
  }

  /** The whole pages that hold a number of bytes: no page more than it takes. */
  function PagesFor(size: nat): (n: nat)
    ensures size <= n * PAGE < size + PAGE
  {
    (size + PAGE - 1) / PAGE
  }

  predicate BestFor(n: nat, zi: int, b: int)
  {
    0 <= zi < NZONES && b == ChunkSize(zi) && ChunkSize(zi - 1) < n <= b <= ZALLOC_ZONE_LIMIT
  }

  /** Every request gets the smallest chunk size that holds it, and two requests
      with the same index get the same chunk size. */
  lemma ZoneIndexBest(n: nat)
    requires 0 < n < ZALLOC_ZONE_LIMIT
    ensures BestFor(n, ZoneIndex(n).0, ZoneIndex(n).1)
  {
    hide BestFor;
    if n < 512 { SmallBands(n); } else if n < 2048 { MiddleBands(n); } else { LargeBands(n); }
  }

  lemma SmallBands(n: nat)
    requires 0 < n < 512
    ensures BestFor(n, ZoneIndex(n).0, ZoneIndex(n).1)
  {
  }

  lemma MiddleBands(n: nat)
    requires 512 <= n < 2048
    ensures BestFor(n, ZoneIndex(n).0, ZoneIndex(n).1)
  {
  }

  lemma LargeBands(n: nat)
    requires 2048 <= n < ZALLOC_ZONE_LIMIT
    ensures BestFor(n, ZoneIndex(n).0, ZoneIndex(n).1)
  {
  }

  /** A chunk is less than an eighth larger than the request, or than 64 bytes. */
  lemma LittleWaste(n: nat)
    requires 0 < n < ZALLOC_ZONE_LIMIT
    ensures 8 * (ZoneIndex(n).1 - n) < if n < 64 then 64 else n
  {
    if n < 512 { WasteBelow(n); } else { WasteAbove(n); }
  }

  lemma WasteBelow(n: nat)
    requires 0 < n < 512
    ensures 8 * (ZoneIndex(n).1 - n) < if n < 64 then 64 else n
  {
  }

  lemma WasteAbove(n: nat)
    requires 512 <= n < ZALLOC_ZONE_LIMIT
    ensures 8 * (ZoneIndex(n).1 - n) < n
  {
  }

  // --------------------------------------------------------------------- zones

  /** The zone header. Chunk k lies at base + k * chunk; `freeList` are the
      addresses of the chunks that were given back. */
  datatype Zone = Zone(nfree: int, nmax: int, base: nat, uindex: int, chunk: nat, zi: nat, freeList: seq<int>)

  function At(z: Zone, k: int): int { z.base + k * z.chunk }

  /** `a` is a chunk that has been handed out at some time. */
  ghost predicate Touched(z: Zone, a: int) { exists k :: 0 <= k <= z.uindex && a == At(z, k) }

  /** `a` is handed out now. */
  ghost predicate LiveIn(z: Zone, a: int) { Touched(z, a) && a !in z.freeList }

  /** The chunks begin less than a chunk behind the header and end less than a chunk before
      the end of the zone. */
  predicate Fills(zp: nat, zonePages: nat, z: Zone)
  {
    && zp * PAGE + HEADER <= z.base < zp * PAGE + HEADER + z.chunk
    && At(z, z.nmax) <= (zp + zonePages) * PAGE < At(z, z.nmax) + z.chunk
  }

  ghost predicate ZoneOk(zp: nat, zonePages: nat, z: Zone)
  {
    && z.zi < NZONES && z.chunk == ChunkSize(z.zi) && z.chunk >= 8
    && z.nmax >= 2 && 0 <= z.uindex < z.nmax
    && z.nfree == z.nmax - 1 - z.uindex + |z.freeList|
    && Fills(zp, zonePages, z)
    && Distinct(z.freeList) && (forall a :: a in z.freeList ==> Touched(z, a))
  }

  lemma Spacing(z: Zone, j: int, k: int)
    requires j < k
    ensures At(z, j) + z.chunk <= At(z, k)
  {
    assert (k - 1 - j) * z.chunk >= 0;
  }

  /** A touched chunk lies inside the zone, so its page is one of the zone's. */
  lemma TouchedInside(zp: nat, zonePages: nat, z: Zone, a: int)
    requires ZoneOk(zp, zonePages, z) && Touched(z, a)
    ensures zp * PAGE + HEADER <= a && a + z.chunk <= (zp + zonePages) * PAGE
    ensures zp <= a / PAGE < zp + zonePages
  {
    var k :| 0 <= k <= z.uindex && a == At(z, k);
    if k > 0 { Spacing(z, 0, k); }
    Spacing(z, k, z.nmax);
  }

  lemma TouchedApart(z: Zone, a: int, b: int)
    requires Touched(z, a) && Touched(z, b) && a != b
    ensures a + z.chunk <= b || b + z.chunk <= a
  {
    var j :| 0 <= j <= z.uindex && a == At(z, j);
    var k :| 0 <= k <= z.uindex && b == At(z, k);
    if j < k { Spacing(z, j, k); } else { Spacing(z, k, j); }
  }

  // --------------------------------------------- a full free list has no live chunk

  lemma DistinctSize<T>(l: seq<T>)
    requires Distinct(l)
    ensures |set x | x in l| == |l|
  {
    if l != [] {
      var init, last := l[..|l| - 1], l[|l| - 1];
      DistinctSize(init);
      assert l == init + [last];
      assert (set x | x in l) == (set x | x in init) + {last};
      assert last !in init;
    }
  }

  /** The addresses of the first n chunks. */
  function Chunks(z: Zone, n: nat): (s: set<int>)
    ensures forall a :: a in s <==> exists k :: 0 <= k < n && a == At(z, k)
  {
    if n == 0 then {} else Chunks(z, n - 1) + {At(z, n - 1)}
  }

  lemma {:induction false} ChunksSize(z: Zone, n: nat)
    requires z.chunk > 0
    ensures |Chunks(z, n)| == n
  {
    hide At;
    if n > 0 {
      ChunksSize(z, n - 1);
      if At(z, n - 1) in Chunks(z, n - 1) {
        var k :| 0 <= k < n - 1 && At(z, n - 1) == At(z, k);
        Spacing(z, k, n - 1);
      }
    }
  }

  lemma SubsetSameSize<T>(s: set<T>, t: set<T>)
    requires s <= t && |s| == |t|
    ensures s == t
  {
    assert |t - s| == |t| - |s|;
  }

  /** When z_nfree reaches z_nmax, every chunk that was ever handed out is back. */
  lemma AllFreeAgain(zp: nat, zonePages: nat, z: Zone, a: int)
    requires ZoneOk(zp, zonePages, z) && z.nfree == z.nmax
    ensures !LiveIn(z, a)
  {
    var given := set x | x in z.freeList;
    var chunks := Chunks(z, z.uindex + 1);
    DistinctSize(z.freeList);
    ChunksSize(z, z.uindex + 1);
    forall x | x in given ensures x in chunks {
      assert Touched(z, x);
      var k :| 0 <= k <= z.uindex && x == At(z, k);
      assert k < z.uindex + 1;
    }
    SubsetSameSize(given, chunks);
    if Touched(z, a) {
      var k :| 0 <= k <= z.uindex && a == At(z, k);
      assert k < z.uindex + 1 && a in chunks;
    }
  }

  /** Every chunk of the zone is held by a caller. */
  ghost predicate AllOut(z: Zone, live: map<int, int>)
  {
    forall k :: 0 <= k < z.nmax ==> At(z, k) in live && live[At(z, k)] == z.chunk
  }

  // ------------------------------------------------------- the allocator's state

  datatype Usage = Free | Small(offset: nat) | Large(pages: nat)

  /** The static variables of slab.c. A zone list linked through z_next is the
      sequence of its zones; `zones` are the headers of the zones in use. */
  datatype Slab = Slab(
    zones: map<nat, Zone>,
    zoneArray: seq<seq<nat>>,
    zoneFree: seq<nat>,
    zoneFreeCnt: int,
    usage: map<nat, Usage>,
    usedMem: int,
    maxMem: int)

  /** Which zone or large block a page belongs to. */
  datatype Owner = ZoneOwner(z: nat) | LargeOwner(p: nat)

  type Owners = map<nat, Owner>
  type Live = map<int, int>

  ghost predicate ZonesOk(zonePages: nat, s: Slab)
  {
    forall z :: z in s.zones ==> ZoneOk(z, zonePages, s.zones[z])
  }

  /** zone_array[i] holds exactly the zones in use of index i with free chunks. */
  ghost predicate ArrayOk(s: Slab)
  {
    && |s.zoneArray| == NZONES
    && (forall i :: 0 <= i < NZONES ==> Distinct(s.zoneArray[i]))
    && forall i, z :: 0 <= i < NZONES ==>
         (z in s.zoneArray[i] <==> z in s.zones && s.zones[z].zi == i && s.zones[z].nfree > 0)
  }

  ghost predicate FreeZonesOk(s: Slab)
  {
    && Distinct(s.zoneFree) && s.zoneFreeCnt == |s.zoneFree| <= ZONE_RELEASE_THRESH
    && forall z :: z in s.zoneFree ==> z !in s.zones
  }

  /** The pages of a zone belong to it, and the page table says which they are. */
  ghost predicate OwnsPages(zonePages: nat, s: Slab, owner: Owners, z: nat)
  {
    forall p :: z <= p < z + zonePages ==>
      p in owner && owner[p] == ZoneOwner(z) && p in s.usage && s.usage[p] == Small(p - z)
  }

  ghost predicate OwnsBlock(s: Slab, owner: Owners, q: nat)
  {
    && q in s.usage && s.usage[q].Large? && s.usage[q].pages > 0
    && forall p :: q <= p < q + s.usage[q].pages ==> p in owner && owner[p] == LargeOwner(q)
  }

  ghost predicate OwnerOk(zonePages: nat, s: Slab, owner: Owners, pages: seq<Run>)
  {
    && Canonical(pages)
    && (forall p :: p in owner ==> !Has(pages, p))
    && (forall z :: z in s.zones || z in s.zoneFree ==> OwnsPages(zonePages, s, owner, z))
    && (forall q :: q in owner && owner[q] == LargeOwner(q) ==> OwnsBlock(s, owner, q))
  }

  /** `a` is handed out, according to the headers and the page table. */
  ghost predicate LiveAt(s: Slab, owner: Owners, a: int)
  {
    var p := a / PAGE;
    && a >= 0 && p in owner
    && match owner[p]
       case ZoneOwner(z) => z in s.zones && LiveIn(s.zones[z], a)
       case LargeOwner(q) => q == p && a == p * PAGE
  }

  function SizeAt(s: Slab, owner: Owners, a: int): int
  {
    var p := a / PAGE;
    if a >= 0 && p in owner then
      match owner[p]
      case ZoneOwner(z) => if z in s.zones then s.zones[z].chunk else 0
      case LargeOwner(q) => if q in s.usage && s.usage[q].Large? then s.usage[q].pages * PAGE else 0
    else 0
  }

  /** The allocations that callers hold are those the allocator thinks are out. */
  ghost predicate LiveOk(s: Slab, owner: Owners, live: Live)
  {
    && (forall a :: a in live <==> LiveAt(s, owner, a))
    && (forall a :: a in live ==> live[a] == SizeAt(s, owner, a))
  }

  /** All but the zone lists and the byte counters. */
  ghost predicate Core(zonePages: nat, s: Slab, owner: Owners, live: Live, pages: seq<Run>)
  {
    ZonesOk(zonePages, s) && OwnerOk(zonePages, s, owner, pages) && LiveOk(s, owner, live)
  }

  ghost predicate Inv(zonePages: nat, s: Slab, owner: Owners, live: Live, pages: seq<Run>)
  {
    Core(zonePages, s, owner, live, pages) && ArrayOk(s) && FreeZonesOk(s) && s.usedMem == Sum(live) <= s.maxMem
  }

  // -------------------------------------------------------------- bytes in use

  lemma HasKey<K, V>(m: map<K, V>)
    requires |m| > 0
    ensures exists k :: k in m
  {
    assert |m.Keys| > 0;
    var k :| k in m.Keys;
  }

  ghost function Pick<K, V>(m: map<K, V>): (k: K)
    requires |m| > 0
    ensures k in m
  {
    HasKey(m);
    var k :| k in m; k
  }

  ghost function Sum(m: Live): int
  {
    if |m| == 0 then 0 else m[Pick(m)] + Sum(m - {Pick(m)})
  }

  lemma {:induction false} SumWithout(m: Live, k: int)
    requires k in m
    ensures Sum(m) == m[k] + Sum(m - {k})
    decreases |m|
  {
    var c := Pick(m);
    if c != k {
      SumWithout(m - {c}, k);
      SumWithout(m - {k}, c);
      assert m - {c} - {k} == m - {k} - {c};
    }
  }

  lemma SumWith(m: Live, k: int, v: int)
    requires k !in m
    ensures Sum(m[k := v]) == Sum(m) + v
  {
    SumWithout(m[k := v], k);
    assert m[k := v] - {k} == m;
  }

  /** max_mem is the most that has been in use. */
  ghost predicate Peak(s0: Slab, s: Slab)
  {
    s.maxMem == if s.usedMem > s0.maxMem then s.usedMem else s0.maxMem
  }

  lemma PeakNow(zonePages: nat, s: Slab, owner: Owners, live: Live, pages: seq<Run>)
    requires Inv(zonePages, s, owner, live, pages)
    ensures Peak(s, s)
  {
  }

  // ---------------------------------------------------------------- out of memory

  /** A zone that counts no free chunk has all its chunks out. */
  lemma FullIsOut(zonePages: nat, s: Slab, owner: Owners, live: Live, pages: seq<Run>, zp: nat)
    requires Core(zonePages, s, owner, live, pages) && zp in s.zones && s.zones[zp].nfree <= 0
    ensures AllOut(s.zones[zp], live) && Fills(zp, zonePages, s.zones[zp])
  {
    var z := s.zones[zp];
    assert ZoneOk(zp, zonePages, z);
    assert z.uindex == z.nmax - 1 && z.freeList == [];
    hide ZoneOk, At, OwnerOk;
    forall k | 0 <= k < z.nmax ensures At(z, k) in live && live[At(z, k)] == z.chunk {
      assert Touched(z, At(z, k)) && LiveIn(z, At(z, k));
      OwnerOfLive(zonePages, s, owner, pages, zp, z, At(z, k));
      assert LiveAt(s, owner, At(z, k));
    }
  }

  /** Nothing is left for a chunk of index `zi`: callers hold all the chunks of that size,
      which leave less than a chunk at either end of each zone, no empty zone is kept, and
      no `zonePages` free pages are in a row. */
  ghost predicate Exhausted(zonePages: nat, s: Slab, live: Live, pages: seq<Run>, zi: nat)
  {
    && (forall z :: z in s.zones && s.zones[z].zi == zi ==> AllOut(s.zones[z], live) && Fills(z, zonePages, s.zones[z]))
    && s.zoneFree == [] && forall p: nat :: !AllFree(pages, p, zonePages)
  }

  lemma NothingLeft(zonePages: nat, s: Slab, owner: Owners, live: Live, pages: seq<Run>, zi: nat)
    requires Inv(zonePages, s, owner, live, pages) && zi < NZONES && zonePages > 0
    requires s.zoneArray[zi] == [] && s.zoneFree == [] && Take(pages, zonePages).0.None?
    ensures Exhausted(zonePages, s, live, pages, zi)
  {
    TakeFits(pages, zonePages);
    hide Core, Take, AllOut, Fills;
    forall z | z in s.zones && s.zones[z].zi == zi ensures AllOut(s.zones[z], live) && Fills(z, zonePages, s.zones[z]) {
      assert z !in s.zoneArray[zi];
      FullIsOut(zonePages, s, owner, live, pages, z);
    }
  }

  // ------------------------------------------------------------------ isolation

  /** A live block lies in pages of its own zone or large block. */
  lemma LivePages(zonePages: nat, s: Slab, owner: Owners, live: Live, pages: seq<Run>, a: int, p: nat)
    requires Inv(zonePages, s, owner, live, pages) && a in live && a <= p * PAGE + PAGE - 1 && p * PAGE < a + live[a]
    ensures p in owner && a >= 0 && a / PAGE in owner && owner[p] == owner[a / PAGE]
  {
    assert LiveAt(s, owner, a);
    match owner[a / PAGE]
    case ZoneOwner(z) =>
      assert OwnsPages(zonePages, s, owner, z);
      TouchedInside(z, zonePages, s.zones[z], a);
    case LargeOwner(q) =>
      assert OwnsBlock(s, owner, q);
  }

  /** Main result: two live blocks never overlap. */
  lemma LiveBlocksApart(zonePages: nat, s: Slab, owner: Owners, live: Live, pages: seq<Run>, a: int, b: int)
    requires Inv(zonePages, s, owner, live, pages) && a in live && b in live && a != b
    ensures a + live[a] <= b || b + live[b] <= a
  {
    assert LiveAt(s, owner, a) && LiveAt(s, owner, b);
    if b < a + live[a] && a < b + live[b] {
      if a < b {
        LivePages(zonePages, s, owner, live, pages, a, b / PAGE);
      } else {
        LivePages(zonePages, s, owner, live, pages, b, a / PAGE);
      }
      assert owner[a / PAGE].ZoneOwner?;
      TouchedApart(s.zones[owner[a / PAGE].z], a, b);
    }
  }

  /** No page of a live block is free. */
  lemma LiveNotFree(zonePages: nat, s: Slab, owner: Owners, live: Live, pages: seq<Run>, a: int, p: nat)
    requires Inv(zonePages, s, owner, live, pages) && a in live && a <= p * PAGE + PAGE - 1 && p * PAGE < a + live[a]
    ensures !Has(pages, p)
  {
    LivePages(zonePages, s, owner, live, pages, a, p);
  }

  // ------------------------------------------------------------ one zone's steps

  /** rt_malloc on a zone with free chunks: never-used space first, then the
      free list. */
  function TakeChunk(z: Zone): (int, Zone)
  {
    if z.uindex + 1 != z.nmax then
      (At(z, z.uindex + 1), z.(nfree := z.nfree - 1, uindex := z.uindex + 1))
    else if z.freeList != [] then
      (z.freeList[0], z.(nfree := z.nfree - 1, freeList := z.freeList[1..]))
    else (0, z)
  }

  /** The parts of a zone that never change while it is in use. */
  predicate SameZone(z: Zone, z': Zone)
  {
    z'.nmax == z.nmax && z'.base == z.base && z'.chunk == z.chunk && z'.zi == z.zi
  }

  lemma TakeFresh(zp: nat, zonePages: nat, z: Zone)
    requires ZoneOk(zp, zonePages, z) && z.uindex + 1 != z.nmax
    ensures var (a, z') := TakeChunk(z);
      ZoneOk(zp, zonePages, z') && !Touched(z, a) && forall b :: Touched(z', b) <==> Touched(z, b) || b == a
  {
    var (a, z') := TakeChunk(z);
    hide At;
    forall k | 0 <= k <= z.uindex ensures At(z, k) != a { Spacing(z, k, z.uindex + 1); }
    assert forall k :: At(z', k) == At(z, k) by { AtSame(z, z'); }
    assert a == At(z', z'.uindex);
  }

  lemma TouchedSame(z: Zone, z': Zone)
    requires SameZone(z, z') && z'.uindex == z.uindex
    ensures forall b :: Touched(z', b) <==> Touched(z, b)
  {
    hide At;
    AtSame(z, z');
  }

  lemma AtSame(z: Zone, z': Zone)
    requires SameZone(z, z')
    ensures forall k :: At(z', k) == At(z, k)
  {
  }

  /** Taking a chunk: exactly that chunk, which was not handed out, is now out. */
  lemma TakeChunkOk(zp: nat, zonePages: nat, z: Zone)
    requires ZoneOk(zp, zonePages, z) && z.nfree > 0
    ensures var (a, z') := TakeChunk(z);
      && ZoneOk(zp, zonePages, z') && SameZone(z, z') && z'.nfree == z.nfree - 1
      && !LiveIn(z, a) && forall b :: LiveIn(z', b) <==> LiveIn(z, b) || b == a
  {
    var (a, z') := TakeChunk(z);
    if z.uindex + 1 != z.nmax {
      TakeFresh(zp, zonePages, z);
    } else {
      assert z.freeList == [a] + z'.freeList;
      TouchedSame(z, z');
      assert a in z.freeList;
    }
  }

  function PutChunk(z: Zone, a: int): Zone { z.(nfree := z.nfree + 1, freeList := [a] + z.freeList) }

  /** Chunks are used for the first time in the order of their addresses, and none a second
      time before all were used; then the last one to come back goes out first. */
  lemma ChunkOrder(zp: nat, zonePages: nat, z: Zone, a: int)
    requires ZoneOk(zp, zonePages, z)
    ensures z.uindex + 1 < z.nmax ==> !Touched(z, TakeChunk(z).0) && TakeChunk(PutChunk(z, a)).0 == TakeChunk(z).0
    ensures z.uindex + 1 < z.nmax ==> forall b :: Touched(z, b) ==> b < TakeChunk(z).0
    ensures z.uindex + 1 == z.nmax ==> TakeChunk(PutChunk(z, a)) == (a, z)
  {
    if z.uindex + 1 < z.nmax {
      TakeFresh(zp, zonePages, z);
      forall b | Touched(z, b) ensures b < TakeChunk(z).0 {
        var k :| 0 <= k <= z.uindex && b == At(z, k);
        Spacing(z, k, z.uindex + 1);
      }
    } else {
      assert ([a] + z.freeList)[1..] == z.freeList;
    }
  }

  lemma PutChunkOk(zp: nat, zonePages: nat, z: Zone, a: int)
    requires ZoneOk(zp, zonePages, z) && LiveIn(z, a)
    ensures ZoneOk(zp, zonePages, PutChunk(z, a))
    ensures forall b :: LiveIn(PutChunk(z, a), b) <==> LiveIn(z, b) && b != a
  {
    var z' := PutChunk(z, a);
    TouchedSame(z, z');
  }

  /** A new zone: power-of-two chunks start at a multiple of their size, others at
      a multiple of 8; the first chunk is already taken. */
  function NewZone(zp: nat, zonePages: nat, zi: nat, size: nat): Zone
    requires size > 0
  {
    var off := if IsPowerOfTwo(size) then AlignUp(HEADER, size) else AlignUp(HEADER, 8);
    var nmax := (zonePages * PAGE - off) / size;
    Zone(nmax - 1, nmax, zp * PAGE + off, 0, size, zi, [])
  }

  function AlignUp(n: nat, a: nat): nat
    requires a > 0
  {
    (n + a - 1) / a * a
  }

  predicate IsPowerOfTwo(n: nat) { n == 1 || (n > 1 && n % 2 == 0 && IsPowerOfTwo(n / 2)) }

  lemma AlignUpBounds(n: nat, a: nat)
    requires a > 0
    ensures n <= AlignUp(n, a) < n + a
  {
    var q, r := (n + a - 1) / a, (n + a - 1) % a;
    assert n + a - 1 == q * a + r;
  }

  lemma DivBounds(n: nat, d: nat)
    requires d > 0
    ensures n / d * d <= n < n / d * d + d
  {
    assert n == n / d * d + n % d;
  }

  lemma NewZoneOk(zp: nat, zonePages: nat, zi: nat, size: nat)
    requires zonePages >= 8 && zi < NZONES && size == ChunkSize(zi) && 8 <= size && 4 * size <= zonePages * PAGE
    ensures var z := NewZone(zp, zonePages, zi, size);
      ZoneOk(zp, zonePages, z) && z.zi == zi && z.chunk == size && z.nfree > 0 && forall b :: LiveIn(z, b) <==> b == z.base
  {
    var z := NewZone(zp, zonePages, zi, size);
    var off := z.base - zp * PAGE;
    AlignUpBounds(HEADER, size);
    AlignUpBounds(HEADER, 8);
    assert HEADER <= off < HEADER + size;
    DivBounds(zonePages * PAGE - off, size);
    NmaxAtLeastTwo(zonePages * PAGE - off, size, z.nmax);
    assert At(z, 0) == z.base;
  }

  lemma NmaxAtLeastTwo(room: nat, size: nat, n: int)
    requires size > 0 && n * size <= room < n * size + size && room >= 2 * size
    ensures n >= 2
  {
    assert n <= 1 ==> n * size <= size;
  }

  // ------------------------------------------------------------------ alignment

  lemma ModPlusMultiple(x: nat, m: nat, d: nat)
    requires d > 0
    ensures (x + m * d) % d == x % d
    decreases m
  {
    if m > 0 {
      ModPlusMultiple(x, m - 1, d);
      assert x + m * d == (x + (m - 1) * d) + d;
      ModPlusOne(x + (m - 1) * d, d);
    }
  }

  lemma ModPlusOne(x: nat, d: nat)
    requires d > 0
    ensures (x + d) % d == x % d
  {
    var q, r := x / d, x % d;
    assert x + d == (q + 1) * d + r;
    QuotientUnique(x + d, d, q + 1, r);
  }

  lemma QuotientUnique(x: nat, d: nat, q: nat, r: nat)
    requires d > 0 && x == q * d + r && r < d
    ensures x % d == r
  {
    var p, t := x / d, x % d;
    assert x == p * d + t;
    assert (q - p) * d == q * d - p * d;
    MultipleBetween(q - p, d);
  }

  lemma MultipleBetween(n: int, d: int)
    requires d > 0 && -d < n * d < d
    ensures n == 0
  {
    assert n >= 1 ==> n * d >= d;
    assert n <= -1 ==> n * d <= -d;
  }

  /** Where a chunk of a zone at page `zp` can lie: on a multiple of 8, and for a
      power-of-two size on a multiple of that exactly when the zone does. */
  ghost predicate Sits(zp: nat, chunk: nat, a: int)
  {
    && a >= 0 && a % 8 == 0
    && (IsPowerOfTwo(chunk) ==> (a % chunk == 0 <==> zp * PAGE % chunk == 0))
  }

  ghost predicate ZoneAligned(zp: nat, z: Zone) { z.chunk > 0 && forall k: nat :: Sits(zp, z.chunk, At(z, k)) }

  lemma PowerOfTwoAligned(zp: nat, zonePages: nat, zi: nat, size: nat, k: nat)
    requires IsPowerOfTwo(size)
    ensures At(NewZone(zp, zonePages, zi, size), k) % size == 0 <==> zp * PAGE % size == 0
  {
    var q := (HEADER + size - 1) / size;
    var z := NewZone(zp, zonePages, zi, size);
    var at := At(z, k);
    assert at == zp * PAGE + (q + k) * size by {
      hide IsPowerOfTwo;
      assert z.base == zp * PAGE + q * size && z.chunk == size;
      assert (q + k) * size == q * size + k * size;
    }
    ModPlusMultiple(zp * PAGE, q + k, size);
  }

  /** The larger of two powers of two is a multiple of the smaller. */
  lemma {:induction false} PowersDivide(a: nat, b: nat)
    requires IsPowerOfTwo(a) && IsPowerOfTwo(b) && a <= b
    ensures a > 0 && b % a == 0
    decreases a
  {
    if a > 1 {
      PowersDivide(a / 2, b / 2);
      var m := b / 2 / (a / 2);
      assert b / 2 == m * (a / 2);
      assert b == m * a;
      ModPlusMultiple(0, m, a);
    }
  }

  lemma EightIsPower()
    ensures IsPowerOfTwo(1) && IsPowerOfTwo(2) && IsPowerOfTwo(4) && IsPowerOfTwo(8) && IsPowerOfTwo(16) && IsPowerOfTwo(32)
    ensures IsPowerOfTwo(64) && IsPowerOfTwo(128) && IsPowerOfTwo(256) && IsPowerOfTwo(512) && IsPowerOfTwo(1024)
    ensures IsPowerOfTwo(2048) && IsPowerOfTwo(4096) && IsPowerOfTwo(8192)
  {
    assert IsPowerOfTwo(8);
    assert IsPowerOfTwo(64);
    assert IsPowerOfTwo(512);
    assert IsPowerOfTwo(2048);
  }

  /** Every chunk size is a multiple of 8. */
  lemma ChunkOfEights(zi: nat)
    ensures ChunkSize(zi) % 8 == 0
  {
  }

  lemma NewZoneAligned(zp: nat, zonePages: nat, zi: nat, size: nat)
    requires zi < NZONES && size == ChunkSize(zi) && size >= 8
    ensures ZoneAligned(zp, NewZone(zp, zonePages, zi, size)) && Sits(zp, size, NewZone(zp, zonePages, zi, size).base)
  {
    ChunkOfEights(zi);
    hide ChunkSize;
    var z := NewZone(zp, zonePages, zi, size);
    OffsetOfEights(size);
    BaseOfEights(zp, zonePages, zi, size);
    hide NewZone, IsPowerOfTwo;
    forall k: nat ensures Sits(zp, z.chunk, At(z, k)) {
      if IsPowerOfTwo(size) { PowerOfTwoAligned(zp, zonePages, zi, size, k); }
      EightsOn(z.base, k, size);
    }
    assert Sits(zp, z.chunk, At(z, 0)) && At(z, 0) == z.base;
  }

  lemma BaseOfEights(zp: nat, zonePages: nat, zi: nat, size: nat)
    requires size > 0 && AlignUp(HEADER, size) % 8 == 0 && AlignUp(HEADER, 8) % 8 == 0
    ensures NewZone(zp, zonePages, zi, size).base % 8 == 0 && NewZone(zp, zonePages, zi, size).chunk == size
  {
    hide AlignUp, IsPowerOfTwo;
  }

  lemma EightsOn(base: nat, k: nat, size: nat)
    requires base % 8 == 0 && size % 8 == 0
    ensures base + k * size >= 0 && (base + k * size) % 8 == 0
  {
    var m := size / 8;
    assert k * size == (k * m) * 8;
  }

  lemma OffsetOfEights(size: nat)
    requires size >= 8 && size % 8 == 0
    ensures AlignUp(HEADER, size) % 8 == 0 && AlignUp(HEADER, 8) % 8 == 0
  {
    var q, m := (HEADER + size - 1) / size, size / 8;
    assert q * size == (q * m) * 8;
  }

  lemma AlignedSame(zp: nat, z: Zone, z': Zone)
    requires ZoneAligned(zp, z) && SameZone(z, z')
    ensures ZoneAligned(zp, z')
  {
    AtSame(z, z');
    hide At, Sits;
    forall k: nat ensures Sits(zp, z'.chunk, At(z', k)) {
      assert Sits(zp, z.chunk, At(z, k));
    }
  }

  lemma TouchedSits(zp: nat, z: Zone, a: int)
    requires ZoneAligned(zp, z) && Touched(z, a)
    ensures Sits(zp, z.chunk, a)
  {
    hide Sits, At;
  }

  lemma RoundSame(n: nat, step: nat)
    requires step > 0 && n % step == 0
    ensures (n + step - 1) / step * step == n
  {
    var q := n / step;
    assert n == q * step;
    var m := (n + step - 1) / step;
    DivBounds(n + step - 1, step);
    assert (m - q) * step == m * step - q * step;
    MultipleBetween(m - q, step);
  }

  /** A request of a power of two gets a chunk of just that size, from 8 bytes on. */
  lemma ChunkOfPower(n: nat)
    requires IsPowerOfTwo(n) && 8 <= n < ZALLOC_ZONE_LIMIT
    ensures ZoneIndex(n).1 == n
  {
    EightIsPower();
    var step := if n < 128 then 8 else if n < 256 then 16 else if n < 512 then 32 else if n < 1024 then 64
                else if n < 2048 then 128 else if n < 4096 then 256 else if n < 8192 then 512 else 1024;
    PowersDivide(step, n);
    hide IsPowerOfTwo;
    RoundSame(n, step);
  }

  /** Every page starts on a multiple of each power of two up to its size. */
  lemma PageOnPower(p: nat, size: nat)
    requires IsPowerOfTwo(size) && size <= PAGE
    ensures p * PAGE % size == 0
  {
    EightIsPower();
    PowersDivide(size, PAGE);
    var m := PAGE / size;
    assert p * PAGE == 0 + (p * m) * size by { assert PAGE == m * size; }
    ModPlusMultiple(0, p * m, size);
  }

  lemma OnSmallPower(zp: nat, size: nat, a: int)
    requires (size == 1 || size == 2 || size == 4) && a >= 0 && a % 8 == 0
    ensures a % size == 0 && zp * PAGE % size == 0
  {
    var f := if size == 1 then 8 else if size == 2 then 4 else 2;
    assert f * size == 8;
    var m := a / 8;
    assert a == 0 + m * f * size by { assert m * f * size == m * (f * size); }
    ModPlusMultiple(0, m * f, size);
    assert zp * PAGE == 0 + zp * 512 * f * size by { assert zp * 512 * f * size == zp * 512 * (f * size); }
    ModPlusMultiple(0, zp * 512 * f, size);
  }

  /** What the request means for the place of its chunk. */
  lemma RequestSits(zp: nat, size: nat, a: int)
    requires 0 < size < ZALLOC_ZONE_LIMIT && Sits(zp, ZoneIndex(size).1, a) && IsPowerOfTwo(size)
    ensures a % size == 0 <==> zp * PAGE % size == 0
  {
    if size >= 8 {
      ChunkOfPower(size);
      hide ZoneIndex, IsPowerOfTwo;
    } else {
      assert !IsPowerOfTwo(3) && !IsPowerOfTwo(5) && !IsPowerOfTwo(6) && !IsPowerOfTwo(7);
      SitsOnEight(zp, ZoneIndex(size).1, a);
      hide *;
      OnSmallPower(zp, size, a);
    }
  }

  /** Every block lies on a multiple of 8. The block of a request of a power of two lies on
      a multiple of it exactly when the page it comes from does, and so always when it is
      no larger than a page. */
  ghost predicate Lies(from: nat, size: nat, a: int)
  {
    && a >= 0 && a % 8 == 0
    && (IsPowerOfTwo(size) ==> (a % size == 0 <==> from * PAGE % size == 0) && (size <= PAGE ==> a % size == 0))
  }

  lemma LiesSmall(zp: nat, size: nat, a: int)
    requires 0 < size < ZALLOC_ZONE_LIMIT && Sits(zp, ZoneIndex(size).1, a)
    ensures Lies(zp, size, a)
  {
    hide ZoneIndex, Sits, IsPowerOfTwo;
    SitsOnEight(zp, ZoneIndex(size).1, a);
    if IsPowerOfTwo(size) {
      RequestSits(zp, size, a);
      if size <= PAGE { PageOnPower(zp, size); }
    }
  }

  lemma LiesLarge(p: nat, size: nat)
    ensures Lies(p, size, p * PAGE)
  {
    hide IsPowerOfTwo;
    EightPages(p);
    if IsPowerOfTwo(size) && size <= PAGE { PageOnPower(p, size); }
  }

  lemma EightPages(p: nat)
    ensures p * PAGE % 8 == 0
  {
  }

  // ---------------------------------------------------- every page is accounted for

  /** The pages from `lo` to `hi` are the free ones and those that have an owner. */
  ghost predicate PagesOk(lo: nat, hi: nat, owner: Owners, pages: seq<Run>)
  {
    forall p: nat :: lo <= p < hi <==> Has(pages, p) || p in owner
  }

  /** The owner of a page is a zone in use, a kept one, or a large block that is out, and
      the page is one of its own. */
  predicate Owned(zonePages: nat, s: Slab, owner: Owners, p: nat)
    requires p in owner
  {
    match owner[p]
    case ZoneOwner(z) => (z in s.zones || z in s.zoneFree) && In(p, z, zonePages)
    case LargeOwner(q) => q in owner && owner[q] == LargeOwner(q) && q in s.usage && s.usage[q].Large? && In(p, q, s.usage[q].pages)
  }

  ghost predicate Whole(lo: nat, hi: nat, zonePages: nat, s: Slab, owner: Owners, pages: seq<Run>)
  {
    && PagesOk(lo, hi, owner, pages)
    && (forall p :: p in owner ==> Owned(zonePages, s, owner, p))
    && (forall z :: z in s.zones ==> ZoneAligned(z, s.zones[z]))
  }

  /** Pages taken from the page allocator get an owner. */
  lemma WholeIn(lo: nat, hi: nat, zonePages: nat, s: Slab, s': Slab, owner: Owners, o: Owner, pages: seq<Run>, pages': seq<Run>, z: nat, n: nat)
    requires Whole(lo, hi, zonePages, s, owner, pages) && OwnerOk(zonePages, s, owner, pages) && Removed(pages, pages', z, n) && n > 0
    requires s'.zones == s.zones && forall y :: y in s.zoneFree ==> y in s'.zoneFree
    requires forall p :: p in s.usage && !In(p, z, n) ==> p in s'.usage && s'.usage[p] == s.usage[p]
    requires (o == ZoneOwner(z) && n == zonePages && z in s'.zoneFree)
             || (o == LargeOwner(z) && z in s'.usage && s'.usage[z] == Large(n))
    ensures Whole(lo, hi, zonePages, s', Own(owner, o, z, n), pages')
  {
    hide Canonical, Has, ZoneAligned, OwnsPages, OwnsBlock;
    var owner' := Own(owner, o, z, n);
    assert In(z, z, n);
    assert forall p :: p in owner ==> !In(p, z, n);
    forall p | p in owner' ensures Owned(zonePages, s', owner', p) {
      if p in owner { assert Owned(zonePages, s, owner, p); }
    }
  }

  /** Pages given back have no owner. */
  lemma WholeOut(lo: nat, hi: nat, zonePages: nat, s: Slab, s': Slab, owner: Owners, o: Owner, pages: seq<Run>, pages': seq<Run>, z: nat, n: nat)
    requires Whole(lo, hi, zonePages, s, owner, pages) && Added(pages, pages', z, n) && n > 0
    requires s'.zones == s.zones && forall y :: y in s.zoneFree ==> y in s'.zoneFree || o == ZoneOwner(y)
    requires forall p :: p in s.usage && !In(p, z, n) ==> p in s'.usage && s'.usage[p] == s.usage[p]
    requires forall p :: In(p, z, n) ==> p in owner && owner[p] == o
    requires (o == ZoneOwner(z) && n == zonePages && z !in s.zones) || (o == LargeOwner(z) && z in s.usage && s.usage[z] == Large(n))
    ensures Whole(lo, hi, zonePages, s', Disown(owner, z, n), pages')
  {
    hide Canonical, Has, ZoneAligned;
    var owner' := Disown(owner, z, n);
    forall p | p in owner' ensures Owned(zonePages, s', owner', p) {
      assert Owned(zonePages, s, owner, p);
    }
  }

  lemma WholeLargeIn(lo: nat, hi: nat, zonePages: nat, s: Slab, owner: Owners, live: Live, pages: seq<Run>, pages': seq<Run>, q: nat, n: nat)
    requires Whole(lo, hi, zonePages, s, owner, pages) && Core(zonePages, s, owner, live, pages) && Removed(pages, pages', q, n) && n > 0
    ensures Whole(lo, hi, zonePages, s.(usage := s.usage[q := Large(n)]), Own(owner, LargeOwner(q), q, n), pages')
  {
    hide Whole, Removed, OwnerOk, LiveOk, ZonesOk;
    assert In(q, q, n);
    WholeIn(lo, hi, zonePages, s, s.(usage := s.usage[q := Large(n)]), owner, LargeOwner(q), pages, pages', q, n);
  }

  lemma WholeZoneIn(lo: nat, hi: nat, zonePages: nat, s: Slab, s': Slab, owner: Owners, live: Live, pages: seq<Run>, pages': seq<Run>, z: nat)
    requires Whole(lo, hi, zonePages, s, owner, pages) && Core(zonePages, s, owner, live, pages)
    requires Removed(pages, pages', z, zonePages) && zonePages > 0
    requires Marked(s.usage, s'.usage, z, zonePages, true) && s' == s.(usage := s'.usage, zoneFree := [z] + s.zoneFree)
    ensures Whole(lo, hi, zonePages, s', Own(owner, ZoneOwner(z), z, zonePages), pages')
  {
    hide Whole, Removed, OwnerOk, LiveOk, ZonesOk;
    WholeIn(lo, hi, zonePages, s, s', owner, ZoneOwner(z), pages, pages', z, zonePages);
  }

  lemma WholeZoneOut(lo: nat, hi: nat, zonePages: nat, s: Slab, s': Slab, owner: Owners, live: Live, pages: seq<Run>, pages': seq<Run>, z: nat)
    requires Whole(lo, hi, zonePages, s, owner, pages) && Core(zonePages, s, owner, live, pages)
    requires Added(pages, pages', z, zonePages) && zonePages > 0 && z !in s.zones && s.zoneFree != [] && s.zoneFree[0] == z
    requires Marked(s.usage, s'.usage, z, zonePages, false) && s' == s.(usage := s'.usage, zoneFree := s.zoneFree[1..])
    ensures Whole(lo, hi, zonePages, s', Disown(owner, z, zonePages), pages')
  {
    assert OwnsPages(zonePages, s, owner, z);
    hide Whole, Added, OwnerOk, LiveOk, ZonesOk;
    assert s.zoneFree == [z] + s.zoneFree[1..];
    WholeOut(lo, hi, zonePages, s, s', owner, ZoneOwner(z), pages, pages', z, zonePages);
  }

  lemma WholeLargeOut(lo: nat, hi: nat, zonePages: nat, s: Slab, owner: Owners, live: Live, pages: seq<Run>, pages': seq<Run>, q: nat, n: nat)
    requires Whole(lo, hi, zonePages, s, owner, pages) && Core(zonePages, s, owner, live, pages)
    requires Added(pages, pages', q, n) && n > 0 && q in owner && owner[q] == LargeOwner(q) && q in s.usage && s.usage[q] == Large(n)
    ensures Whole(lo, hi, zonePages, s.(usage := s.usage[q := Large(0)]), Disown(owner, q, n), pages')
  {
    assert OwnsBlock(s, owner, q);
    hide Whole, Added, OwnerOk, LiveOk, ZonesOk;
    assert In(q, q, n);
    WholeOut(lo, hi, zonePages, s, s.(usage := s.usage[q := Large(0)]), owner, LargeOwner(q), pages, pages', q, n);
  }

  /** Only zone lists and counters change. */
  lemma WholeCounted(lo: nat, hi: nat, zonePages: nat, s: Slab, s': Slab, owner: Owners, pages: seq<Run>)
    requires Whole(lo, hi, zonePages, s, owner, pages) && s'.usage == s.usage && s'.zones == s.zones
    requires forall z :: z in s.zoneFree ==> z in s'.zoneFree
    ensures Whole(lo, hi, zonePages, s', owner, pages)
  {
    hide ZoneAligned, PagesOk;
    WholeSame(lo, hi, zonePages, s, s', owner, pages);
  }

  /** Zone headers may change, and zones move between those in use and those kept. */
  lemma WholeSame(lo: nat, hi: nat, zonePages: nat, s: Slab, s': Slab, owner: Owners, pages: seq<Run>)
    requires Whole(lo, hi, zonePages, s, owner, pages) && s'.usage == s.usage
    requires forall z :: z in s.zones || z in s.zoneFree ==> z in s'.zones || z in s'.zoneFree
    requires forall z :: z in s'.zones ==> ZoneAligned(z, s'.zones[z])
    ensures Whole(lo, hi, zonePages, s', owner, pages)
  {
    hide ZoneAligned, PagesOk;
    forall p | p in owner ensures Owned(zonePages, s', owner, p) {
      assert Owned(zonePages, s, owner, p);
    }
  }

  /** The header of one zone changes, but not its place and size. */
  lemma WholeHeader(lo: nat, hi: nat, zonePages: nat, s: Slab, s': Slab, owner: Owners, pages: seq<Run>, zp: nat, z': Zone)
    requires Whole(lo, hi, zonePages, s, owner, pages) && s'.usage == s.usage && s'.zoneFree == s.zoneFree
    requires zp in s.zones && SameZone(s.zones[zp], z') && s'.zones == s.zones[zp := z']
    ensures Whole(lo, hi, zonePages, s', owner, pages)
  {
    AlignedSame(zp, s.zones[zp], z');
    hide ZoneAligned, PagesOk, SameZone;
    WholeSame(lo, hi, zonePages, s, s', owner, pages);
  }

  /** A kept zone is put to use. */
  lemma WholeUse(lo: nat, hi: nat, zonePages: nat, s: Slab, s': Slab, owner: Owners, pages: seq<Run>, zp: nat, z: Zone)
    requires Whole(lo, hi, zonePages, s, owner, pages) && s'.usage == s.usage && s'.zones == s.zones[zp := z] && ZoneAligned(zp, z)
    requires forall y :: y in s.zoneFree ==> y in s'.zoneFree || y == zp
    ensures Whole(lo, hi, zonePages, s', owner, pages)
  {
    hide ZoneAligned, PagesOk;
    WholeSame(lo, hi, zonePages, s, s', owner, pages);
  }

  lemma WholeRetire(lo: nat, hi: nat, zonePages: nat, s: Slab, s': Slab, owner: Owners, pages: seq<Run>, zp: nat)
    requires Whole(lo, hi, zonePages, s, owner, pages) && s'.usage == s.usage && s'.zones == s.zones - {zp} && s'.zoneFree == [zp] + s.zoneFree
    ensures Whole(lo, hi, zonePages, s', owner, pages)
  {
    hide ZoneAligned, PagesOk;
    WholeSame(lo, hi, zonePages, s, s', owner, pages);
  }

  lemma ChunkSits(lo: nat, hi: nat, zonePages: nat, s: Slab, owner: Owners, pages: seq<Run>, zp: nat, z': Zone, a: int)
    requires Whole(lo, hi, zonePages, s, owner, pages) && zp in s.zones && SameZone(s.zones[zp], z') && LiveIn(z', a)
    ensures Sits(zp, z'.chunk, a)
  {
    AlignedSame(zp, s.zones[zp], z');
    TouchedSits(zp, z', a);
  }

  /** Live blocks lie in the heap behind the page table. */
  lemma LiveInHeap(lo: nat, hi: nat, zonePages: nat, s: Slab, owner: Owners, live: Live, pages: seq<Run>, a: int)
    requires Inv(zonePages, s, owner, live, pages) && Whole(lo, hi, zonePages, s, owner, pages) && a in live && live[a] > 0
    ensures lo * PAGE <= a && a + live[a] <= hi * PAGE
  {
    assert LiveAt(s, owner, a);
    var last := (a + live[a] - 1) / PAGE;
    hide Inv, Whole, LiveAt;
    LivePages(zonePages, s, owner, live, pages, a, a / PAGE);
    LivePages(zonePages, s, owner, live, pages, a, last);
    InHeap(lo, hi, zonePages, s, owner, pages, a / PAGE);
    InHeap(lo, hi, zonePages, s, owner, pages, last);
  }

  lemma InHeap(lo: nat, hi: nat, zonePages: nat, s: Slab, owner: Owners, pages: seq<Run>, p: nat)
    requires Whole(lo, hi, zonePages, s, owner, pages) && (p in owner || Has(pages, p))
    ensures lo <= p < hi
  {
  }

  /** No page is lost or counted twice: each page of the heap is free, or one of exactly one
      zone in use, kept zone or large block that is out; other pages are none of these. */
  lemma PagesConserved(lo: nat, hi: nat, zonePages: nat, s: Slab, owner: Owners, live: Live, pages: seq<Run>, p: nat)
    requires Inv(zonePages, s, owner, live, pages) && Whole(lo, hi, zonePages, s, owner, pages)
    ensures lo <= p < hi <==> Has(pages, p) || InZone(zonePages, s, p) || InBlock(s, live, p)
    ensures !(Has(pages, p) && InZone(zonePages, s, p)) && !(Has(pages, p) && InBlock(s, live, p)) && !(InZone(zonePages, s, p) && InBlock(s, live, p))
    ensures forall y, z :: (y in s.zones || y in s.zoneFree) && (z in s.zones || z in s.zoneFree) && In(p, y, zonePages) && In(p, z, zonePages) ==> y == z
  {
    hide LiveOk, ZonesOk, ArrayOk, FreeZonesOk, Sum, ZoneAligned;
    forall z | (z in s.zones || z in s.zoneFree) && In(p, z, zonePages) ensures p in owner && owner[p] == ZoneOwner(z) {
      assert OwnsPages(zonePages, s, owner, z);
    }
    forall q: nat | IsBlock(s, live, q) && In(p, q, s.usage[q].pages) ensures p in owner && owner[p] == LargeOwner(q) {
      BlockOwner(zonePages, s, owner, live, pages, q);
    }
    hide OwnerOk, Inv;
    if p in owner {
      assert Owned(zonePages, s, owner, p);
      match owner[p]
      case ZoneOwner(z) => assert InZone(zonePages, s, p);
      case LargeOwner(q) =>
        BlockIsOut(zonePages, s, owner, live, pages, q);
        assert IsBlock(s, live, q) && In(p, q, s.usage[q].pages);
    }
  }

  lemma BlockOwner(zonePages: nat, s: Slab, owner: Owners, live: Live, pages: seq<Run>, q: nat)
    requires Inv(zonePages, s, owner, live, pages) && IsBlock(s, live, q)
    ensures q in owner && owner[q] == LargeOwner(q) && OwnsBlock(s, owner, q)
  {
    assert q * PAGE / PAGE == q;
    ZoneOfLive(zonePages, s, owner, live, pages, q * PAGE);
  }

  lemma BlockIsOut(zonePages: nat, s: Slab, owner: Owners, live: Live, pages: seq<Run>, q: nat)
    requires Inv(zonePages, s, owner, live, pages) && q in owner && owner[q] == LargeOwner(q)
    ensures q * PAGE in live
  {
    assert q * PAGE / PAGE == q;
    assert LiveAt(s, owner, q * PAGE);
  }

  ghost predicate InZone(zonePages: nat, s: Slab, p: nat)
  {
    exists z :: (z in s.zones || z in s.zoneFree) && In(p, z, zonePages)
  }

  /** `p` is a page of a large block that is out. */
  ghost predicate InBlock(s: Slab, live: Live, p: nat)
  {
    exists q: nat :: IsBlock(s, live, q) && In(p, q, s.usage[q].pages)
  }

  predicate IsBlock(s: Slab, live: Live, q: nat) { q in s.usage && s.usage[q].Large? && q * PAGE in live }

  // ------------------------------------------------------- steps of the whole state

  /** Replacing the header of one zone in use. */
  function WithZone(s: Slab, zp: nat, z: Zone): Slab { s.(zones := s.zones[zp := z]) }

  lemma OwnerOfLive(zonePages: nat, s: Slab, owner: Owners, pages: seq<Run>, zp: nat, z: Zone, a: int)
    requires OwnerOk(zonePages, s, owner, pages) && (zp in s.zones || zp in s.zoneFree) && ZoneOk(zp, zonePages, z) && LiveIn(z, a)
    ensures a >= 0 && a / PAGE in owner && owner[a / PAGE] == ZoneOwner(zp)
  {
    TouchedInside(zp, zonePages, z, a);
    assert OwnsPages(zonePages, s, owner, zp);
  }

  /** The page table and the ownership do not depend on the zone headers. */
  lemma OwnerKept(zonePages: nat, s: Slab, s': Slab, owner: Owners, pages: seq<Run>)
    requires OwnerOk(zonePages, s, owner, pages) && s'.usage == s.usage
    requires forall z :: z in s'.zones || z in s'.zoneFree ==> z in s.zones || z in s.zoneFree
    ensures OwnerOk(zonePages, s', owner, pages)
  {
    hide Canonical, Has;
    assert forall q :: OwnsBlock(s, owner, q) ==> OwnsBlock(s', owner, q);
    assert forall q :: OwnsPages(zonePages, s, owner, q) ==> OwnsPages(zonePages, s', owner, q);
  }

  /** One more chunk of a zone is out. */
  lemma ChunkGoesOut(zonePages: nat, s: Slab, owner: Owners, live: Live, pages: seq<Run>, zp: nat, z': Zone, a: int)
    requires Core(zonePages, s, owner, live, pages) && zp in s.zones && ZoneOk(zp, zonePages, z') && SameZone(s.zones[zp], z')
    requires !LiveIn(s.zones[zp], a) && forall b :: LiveIn(z', b) <==> LiveIn(s.zones[zp], b) || b == a
    ensures a !in live && Core(zonePages, WithZone(s, zp, z'), owner, live[a := z'.chunk], pages)
  {
    hide LiveIn, ZoneOk, OwnerOk;
    var s' := WithZone(s, zp, z');
    assert LiveIn(z', a);
    OwnerOfLive(zonePages, s, owner, pages, zp, z', a);
    OwnerKept(zonePages, s, s', owner, pages);
    forall b ensures b in live[a := z'.chunk] <==> LiveAt(s', owner, b) {
      assert b in live <==> LiveAt(s, owner, b);
      if LiveIn(z', b) { OwnerOfLive(zonePages, s, owner, pages, zp, z', b); }
    }
  }

  /** A chunk of a zone comes back. */
  lemma ChunkComesBack(zonePages: nat, s: Slab, owner: Owners, live: Live, pages: seq<Run>, zp: nat, z': Zone, a: int)
    requires Core(zonePages, s, owner, live, pages) && zp in s.zones && ZoneOk(zp, zonePages, z') && SameZone(s.zones[zp], z')
    requires LiveIn(s.zones[zp], a) && forall b :: LiveIn(z', b) <==> LiveIn(s.zones[zp], b) && b != a
    ensures a in live && live[a] == z'.chunk && Core(zonePages, WithZone(s, zp, z'), owner, live - {a}, pages)
  {
    hide LiveIn, ZoneOk, OwnerOk;
    var s' := WithZone(s, zp, z');
    OwnerOfLive(zonePages, s, owner, pages, zp, s.zones[zp], a);
    assert LiveAt(s, owner, a);
    OwnerKept(zonePages, s, s', owner, pages);
    forall b ensures b in live - {a} <==> LiveAt(s', owner, b) {
      assert b in live <==> LiveAt(s, owner, b);
    }
  }

  /** A kept empty zone is put to use for chunks of some size. */
  lemma ZoneGoesInUse(zonePages: nat, s: Slab, owner: Owners, live: Live, pages: seq<Run>, zp: nat, z: Zone, rest: seq<nat>)
    requires Core(zonePages, s, owner, live, pages) && zp in s.zoneFree && zp !in s.zones && ZoneOk(zp, zonePages, z)
    requires (forall b :: LiveIn(z, b) <==> b == z.base) && (forall y :: y in rest ==> y in s.zoneFree)
    ensures z.base !in live
    ensures Core(zonePages, WithZone(s, zp, z).(zoneFree := rest), owner, live[z.base as int := z.chunk], pages)
  {
    hide LiveIn, ZoneOk, OwnerOk;
    var s' := WithZone(s, zp, z).(zoneFree := rest);
    assert LiveIn(z, z.base);
    OwnerOfLive(zonePages, s, owner, pages, zp, z, z.base);
    OwnerKept(zonePages, s, s', owner, pages);
    assert z.base !in live by { assert !LiveAt(s, owner, z.base); }
    forall b ensures b in live[z.base as int := z.chunk] <==> LiveAt(s', owner, b) {
      assert b in live <==> LiveAt(s, owner, b);
    }
  }

  /** A zone without live chunks is taken out of use and kept. */
  lemma ZoneRetires(zonePages: nat, s: Slab, owner: Owners, live: Live, pages: seq<Run>, zp: nat)
    requires Core(zonePages, s, owner, live, pages) && zp in s.zones && forall a :: !LiveIn(s.zones[zp], a)
    ensures Core(zonePages, s.(zones := s.zones - {zp}, zoneFree := [zp] + s.zoneFree), owner, live, pages)
  {
    hide LiveIn, ZoneOk, OwnerOk;
    var s' := s.(zones := s.zones - {zp}, zoneFree := [zp] + s.zoneFree);
    OwnerKept(zonePages, s, s', owner, pages);
    forall b ensures b in live <==> LiveAt(s', owner, b) {
      assert b in live <==> LiveAt(s, owner, b);
    }
    forall b | b in live ensures live[b] == SizeAt(s', owner, b) {
      assert LiveAt(s, owner, b);
    }
  }

  // ---------------------------------------------- pages that come in and go out

  ghost function Own(owner: Owners, o: Owner, z: nat, n: nat): (r: Owners)
    ensures forall p :: p in r <==> p in owner || In(p, z, n)
    ensures forall p :: p in r ==> r[p] == if In(p, z, n) then o else owner[p]
  {
    if n == 0 then owner else Own(owner, o, z, n - 1)[z + n - 1 := o]
  }

  ghost function Disown(owner: Owners, z: nat, n: nat): (r: Owners)
    ensures forall p :: p in r <==> p in owner && !In(p, z, n)
    ensures forall p :: p in r ==> r[p] == owner[p]
  {
    if n == 0 then owner else Disown(owner, z, n - 1) - {z + n - 1}
  }

  /** The page table entries of `n` pages from `z` on have been written. */
  ghost predicate Marked(usage: map<nat, Usage>, usage': map<nat, Usage>, z: nat, n: nat, small: bool)
  {
    && (forall p: nat :: In(p, z, n) ==> p in usage' && usage'[p] == if small then Small(p - z) else Free)
    && (forall p: nat :: !In(p, z, n) ==> (p in usage <==> p in usage') && (p in usage ==> usage'[p] == usage[p]))
  }

  /** The pages of `m` are those of `l` without `n` pages from `z` on. */
  ghost predicate Removed(l: seq<Run>, m: seq<Run>, z: nat, n: nat)
  {
    Canonical(m) && AllFree(l, z, n) && forall p: nat :: Has(m, p) <==> Has(l, p) && !In(p, z, n)
  }

  ghost predicate Added(l: seq<Run>, m: seq<Run>, z: nat, n: nat)
  {
    Canonical(m) && forall p: nat :: Has(m, p) <==> Has(l, p) || In(p, z, n)
  }

  /** New owners for free pages leave the other owners alone. */
  lemma OthersKept(zonePages: nat, s: Slab, s': Slab, owner: Owners, o: Owner, pages: seq<Run>, z: nat, n: nat)
    requires OwnerOk(zonePages, s, owner, pages) && AllFree(pages, z, n)
    requires forall p :: p in owner && p in s.usage ==> p in s'.usage && s'.usage[p] == s.usage[p]
    ensures forall p :: In(p, z, n) ==> p !in owner
    ensures forall y :: y in s.zones || y in s.zoneFree ==> OwnsPages(zonePages, s', Own(owner, o, z, n), y)
    ensures forall q :: q in owner && owner[q] == LargeOwner(q) ==> OwnsBlock(s', Own(owner, o, z, n), q)
  {
    hide Canonical, Has;
    var owner' := Own(owner, o, z, n);
    assert forall p :: In(p, z, n) ==> p !in owner;
    forall y | y in s.zones || y in s.zoneFree ensures OwnsPages(zonePages, s', owner', y) {
      assert OwnsPages(zonePages, s, owner, y);
    }
    forall q | q in owner && owner[q] == LargeOwner(q) ensures OwnsBlock(s', owner', q) {
      assert OwnsBlock(s, owner, q);
    }
  }

  lemma OwnerAfterZone(zonePages: nat, s: Slab, s': Slab, owner: Owners, pages: seq<Run>, pages': seq<Run>, z: nat)
    requires OwnerOk(zonePages, s, owner, pages) && Removed(pages, pages', z, zonePages)
    requires Marked(s.usage, s'.usage, z, zonePages, true) && s'.zones == s.zones && s'.zoneFree == [z] + s.zoneFree
    ensures OwnerOk(zonePages, s', Own(owner, ZoneOwner(z), z, zonePages), pages')
  {
    hide Canonical, Has, OwnsBlock;
    var owner' := Own(owner, ZoneOwner(z), z, zonePages);
    assert forall p :: p in owner ==> !In(p, z, zonePages);
    OthersKept(zonePages, s, s', owner, ZoneOwner(z), pages, z, zonePages);
    assert OwnsPages(zonePages, s', owner', z) by { assert forall p :: z <= p < z + zonePages ==> In(p, z, zonePages); }
  }

  lemma OwnerAfterLarge(zonePages: nat, s: Slab, owner: Owners, pages: seq<Run>, pages': seq<Run>, q: nat, n: nat)
    requires OwnerOk(zonePages, s, owner, pages) && Removed(pages, pages', q, n) && n > 0
    ensures OwnerOk(zonePages, s.(usage := s.usage[q := Large(n)]), Own(owner, LargeOwner(q), q, n), pages')
  {
    hide Canonical, Has, OwnsPages;
    var s', owner' := s.(usage := s.usage[q := Large(n)]), Own(owner, LargeOwner(q), q, n);
    assert In(q, q, n);
    assert forall p :: p in owner ==> !In(p, q, n);
    OthersKept(zonePages, s, s', owner, LargeOwner(q), pages, q, n);
    assert OwnsBlock(s', owner', q) by { assert forall p :: q <= p < q + n ==> In(p, q, n); }
  }

  /** Pages from the page allocator become an empty zone. */
  lemma ZonePagesIn(zonePages: nat, s: Slab, s': Slab, owner: Owners, live: Live, pages: seq<Run>, pages': seq<Run>, z: nat)
    requires Core(zonePages, s, owner, live, pages) && Removed(pages, pages', z, zonePages) && zonePages > 0
    requires Marked(s.usage, s'.usage, z, zonePages, true) && s' == s.(usage := s'.usage, zoneFree := [z] + s.zoneFree)
    ensures z !in s.zones && z !in s.zoneFree
    ensures Core(zonePages, s', Own(owner, ZoneOwner(z), z, zonePages), live, pages')
  {
    hide LiveIn, ZoneOk, Canonical, Has;
    var owner' := Own(owner, ZoneOwner(z), z, zonePages);
    assert forall p :: p in owner ==> !In(p, z, zonePages);
    OwnerAfterZone(zonePages, s, s', owner, pages, pages', z);
    assert In(z, z, zonePages);
    assert forall y :: OwnsPages(zonePages, s, owner, y) ==> y in owner;
    LiveKept(zonePages, s, s', owner, owner', live, pages);
  }

  /** Live blocks stay live when other pages change hands. */
  lemma LiveKept(zonePages: nat, s: Slab, s': Slab, owner: Owners, owner': Owners, live: Live, pages: seq<Run>)
    requires OwnerOk(zonePages, s, owner, pages) && LiveOk(s, owner, live) && s'.zones == s.zones
    requires forall p :: p in owner ==> p in owner' && owner'[p] == owner[p]
    requires forall p :: p in owner' && p !in owner ==> owner'[p].ZoneOwner? && owner'[p].z !in s.zones
    requires forall p :: p in owner && p in s.usage ==> p in s'.usage && s'.usage[p] == s.usage[p]
    ensures LiveOk(s', owner', live)
  {
    hide LiveIn, Canonical, Has;
    forall a ensures a in live <==> LiveAt(s', owner', a) {
      assert a in live <==> LiveAt(s, owner, a);
    }
    forall a | a in live ensures live[a] == SizeAt(s', owner', a) {
      assert LiveAt(s, owner, a);
      var p := a / PAGE;
      if owner[p].LargeOwner? { assert OwnsBlock(s, owner, p); }
    }
  }

  /** Pages from the page allocator become a large block. */
  lemma LargeIn(zonePages: nat, s: Slab, owner: Owners, live: Live, pages: seq<Run>, pages': seq<Run>, q: nat, n: nat)
    requires Core(zonePages, s, owner, live, pages) && Removed(pages, pages', q, n) && n > 0 && zonePages > 0
    ensures q * PAGE !in live
    ensures Core(zonePages, s.(usage := s.usage[q := Large(n)]), Own(owner, LargeOwner(q), q, n), live[q * PAGE := n * PAGE], pages')
  {
    hide LiveIn, ZoneOk, Canonical, Has;
    var owner', s' := Own(owner, LargeOwner(q), q, n), s.(usage := s.usage[q := Large(n)]);
    assert forall p :: p in owner ==> !In(p, q, n);
    OwnerAfterLarge(zonePages, s, owner, pages, pages', q, n);
    assert In(q, q, n);
    assert q * PAGE / PAGE == q;
    assert q * PAGE !in live by { assert !LiveAt(s, owner, q * PAGE); }
    var live' := live[q * PAGE := n * PAGE];
    forall a ensures a in live' <==> LiveAt(s', owner', a) {
      assert a in live <==> LiveAt(s, owner, a);
    }
    forall a | a in live' ensures live'[a] == SizeAt(s', owner', a) {
      if a != q * PAGE {
        assert LiveAt(s, owner, a);
        if owner[a / PAGE].LargeOwner? { assert OwnsBlock(s, owner, a / PAGE); }
      }
    }
  }

  lemma OwnerAfterOut(zonePages: nat, s: Slab, s': Slab, owner: Owners, o: Owner, pages: seq<Run>, pages': seq<Run>, z: nat, n: nat)
    requires OwnerOk(zonePages, s, owner, pages) && Added(pages, pages', z, n) && zonePages > 0 && n > 0
    requires forall p :: In(p, z, n) ==> p in owner && owner[p] == o
    requires forall p :: p in s.usage && !In(p, z, n) ==> p in s'.usage && s'.usage[p] == s.usage[p]
    requires s'.zones == s.zones && (forall y :: y in s'.zoneFree ==> y in s.zoneFree) && o in {ZoneOwner(z), LargeOwner(z)}
    requires o == ZoneOwner(z) ==> z !in s.zones && z !in s'.zoneFree
    requires o == LargeOwner(z) ==> s'.zoneFree == s.zoneFree
    ensures OwnerOk(zonePages, s', Disown(owner, z, n), pages')
  {
    hide Canonical, Has;
    var owner' := Disown(owner, z, n);
    forall y | y in s'.zones || y in s'.zoneFree ensures OwnsPages(zonePages, s', owner', y) {
      assert OwnsPages(zonePages, s, owner, y);
    }
    forall q | q in owner' && owner'[q] == LargeOwner(q) ensures OwnsBlock(s', owner', q) {
      assert OwnsBlock(s, owner, q);
    }
  }

  /** An empty zone goes back to the page allocator. */
  lemma ZonePagesOut(zonePages: nat, s: Slab, s': Slab, owner: Owners, live: Live, pages: seq<Run>, pages': seq<Run>, z: nat)
    requires Core(zonePages, s, owner, live, pages) && Added(pages, pages', z, zonePages) && zonePages > 0
    requires z in s.zoneFree && z !in s.zones && z !in s'.zoneFree
    requires Marked(s.usage, s'.usage, z, zonePages, false) && s' == s.(usage := s'.usage, zoneFree := s'.zoneFree)
    requires forall y :: y in s'.zoneFree ==> y in s.zoneFree
    ensures Core(zonePages, s', Disown(owner, z, zonePages), live, pages')
  {
    hide LiveIn, ZoneOk, Canonical, Has;
    var owner' := Disown(owner, z, zonePages);
    assert OwnsPages(zonePages, s, owner, z);
    OwnerAfterOut(zonePages, s, s', owner, ZoneOwner(z), pages, pages', z, zonePages);
    forall a ensures a in live <==> LiveAt(s', owner', a) {
      assert a in live <==> LiveAt(s, owner, a);
    }
    forall a | a in live ensures live[a] == SizeAt(s', owner', a) {
      assert LiveAt(s, owner, a);
      if owner[a / PAGE].LargeOwner? { assert OwnsBlock(s, owner, a / PAGE); }
    }
  }

  /** A large block goes back to the page allocator. */
  lemma LargeOut(zonePages: nat, s: Slab, owner: Owners, live: Live, pages: seq<Run>, pages': seq<Run>, q: nat, n: nat)
    requires Core(zonePages, s, owner, live, pages) && zonePages > 0 && q in owner && owner[q] == LargeOwner(q)
    requires q in s.usage && s.usage[q] == Large(n) && Added(pages, pages', q, n) && n > 0
    ensures q * PAGE in live && live[q * PAGE] == n * PAGE
    ensures Core(zonePages, s.(usage := s.usage[q := Large(0)]), Disown(owner, q, n), live - {q * PAGE}, pages')
  {
    hide LiveIn, ZoneOk, Canonical, Has;
    var s', owner' := s.(usage := s.usage[q := Large(0)]), Disown(owner, q, n);
    assert OwnsBlock(s, owner, q) && In(q, q, n);
    OwnerAfterOut(zonePages, s, s', owner, LargeOwner(q), pages, pages', q, n);
    assert q * PAGE / PAGE == q;
    assert LiveAt(s, owner, q * PAGE);
    forall a ensures a in live - {q * PAGE} <==> LiveAt(s', owner', a) {
      assert a in live <==> LiveAt(s, owner, a);
    }
    forall a | a in live - {q * PAGE} ensures live[a] == SizeAt(s', owner', a) {
      assert LiveAt(s, owner, a);
      if owner[a / PAGE].LargeOwner? { assert OwnsBlock(s, owner, a / PAGE); }
    }
  }

  /** The zone lists and the byte counters do not matter for the rest. */
  lemma CoreSame(zonePages: nat, s: Slab, s': Slab, owner: Owners, live: Live, pages: seq<Run>)
    requires Core(zonePages, s, owner, live, pages)
    requires s'.zones == s.zones && s'.usage == s.usage && s'.zoneFree == s.zoneFree
    ensures Core(zonePages, s', owner, live, pages)
  {
    hide LiveIn, ZoneOk, OwnerOk;
    OwnerKept(zonePages, s, s', owner, pages);
    assert forall a :: LiveAt(s', owner, a) <==> LiveAt(s, owner, a);
  }

  // ----------------------------------------------------------------- zone lists

  /** `z` is listed under index i. */
  predicate Listed(s: Slab, i: int, z: nat) { z in s.zones && s.zones[z].zi == i && s.zones[z].nfree > 0 }

  lemma ListUpdated(s: Slab, s': Slab, i: nat, l: seq<nat>)
    requires ArrayOk(s) && i < NZONES && s'.zoneArray == s.zoneArray[i := l] && Distinct(l)
    requires forall z :: z in l <==> Listed(s', i, z)
    requires forall j, z :: j != i ==> (Listed(s, j, z) <==> Listed(s', j, z))
    ensures ArrayOk(s')
  {
    forall j, z | 0 <= j < NZONES ensures z in s'.zoneArray[j] <==> Listed(s', j, z) {
      if j != i { assert z in s.zoneArray[j] <==> Listed(s, j, z); }
    }
    forall j | 0 <= j < NZONES ensures Distinct(s'.zoneArray[j]) {
      if j != i { assert s'.zoneArray[j] == s.zoneArray[j]; }
    }
  }

  lemma RemovedAt<T>(l: seq<T>, k: nat)
    requires Distinct(l) && k < |l|
    ensures Distinct(l[..k] + l[k + 1..]) && forall x :: x in l[..k] + l[k + 1..] <==> x in l && x != l[k]
  {
    var m := l[..k] + l[k + 1..];
    assert forall i :: 0 <= i < |m| ==> m[i] == if i < k then l[i] else l[i + 1];
    forall x | x in l && x != l[k] ensures x in m {
      var i :| 0 <= i < |l| && l[i] == x;
      assert m[if i < k then i else i - 1] == x;
    }
  }

  lemma SmallRequestSmallChunk(n: nat)
    requires 0 < n < 8192
    ensures ZoneIndex(n).1 <= 8192
  {
  }

  /** The pages of the page table, four bytes for each page. */
  function TablePages(n: nat): nat { PagesFor(n * 4) }

  lemma FreshPages(start: nat, n: nat)
    requires n > 0
    ensures 0 < TablePages(n) <= n
    ensures Take([Run(start, n)], TablePages(n)) ==
            (Some(start), if TablePages(n) < n then [Run(start + TablePages(n), n - TablePages(n))] else [])
  {
    TakeOne(Run(start, n), TablePages(n));
  }

  /** Pages taken from a single run. */
  lemma TakeOne(r: Run, n: nat)
    ensures r.count > n ==> Take([r], n) == (Some(r.start), [Run(r.start + n, r.count - n)])
    ensures r.count == n ==> Take([r], n) == (Some(r.start), [])
    ensures r.count < n ==> Take([r], n).0 == None
  {
    var l := [r];
    assert l[0] == r && l[1..] == [];
    assert Take([], n) == (None, []);
    if r.count > n {
      assert [Run(r.start + n, r.count - n)] + l[1..] == [Run(r.start + n, r.count - n)];
    }
  }

  lemma FreshOk(start: nat, n: nat, zonePages: nat, s: Slab, pages: seq<Run>)
    requires 0 < TablePages(n) <= n && s == Slab(map[], seq(NZONES, _ => []), [], 0, map[], 0, 0)
    requires pages == if TablePages(n) < n then [Run(start + TablePages(n), n - TablePages(n))] else []
    ensures Inv(zonePages, s, map[], map[], pages) && Whole(start + TablePages(n), start + n, zonePages, s, map[], pages)
  {
    hide TablePages;
    assert forall p: nat :: Has(pages, p) <==> start + TablePages(n) <= p < start + n;
  }

  // -------------------------------------------------------------- the allocator

  class Allocator {
    const zonePages: nat
    const zoneLimit: nat
    const first: nat
    const limit: nat
    const heap: PageHeap
    var s: Slab
    ghost var owner: Owners
    ghost var live: Live

    ghost predicate Valid()
      reads this, heap
    {
      && (zonePages == 8 || zonePages == 16 || zonePages == 32)
      && zoneLimit == (if zonePages == 8 then 8192 else 16384)
      && Inv(zonePages, s, owner, live, heap.list) && Whole(first, limit, zonePages, s, owner, heap.list)
    }

    /** rt_system_heap_init: one run of `n` pages, of which the page table takes
        four bytes per page; larger heaps have larger zones. */
    constructor (start: nat, n: nat)
      requires n > 0
      ensures Valid() && live == map[] && fresh(heap) && s.zoneFree == [] && (forall l :: l in s.zoneArray ==> l == [])
      ensures first == start + TablePages(n) && limit == start + n
      ensures heap.list == if TablePages(n) < n then [Run(start + TablePages(n), n - TablePages(n))] else []
      ensures zonePages == 8 <==> n <= 16384
    {
      hide Inv, Whole, Take, TablePages;
      var pages := ZonePagesFor(n);
      zonePages := pages;
      zoneLimit := if pages == 8 then 8192 else 16384;
      first, limit := start + TablePages(n), start + n;
      heap := new PageHeap(start, n);
      s := Slab(map[], seq(NZONES, _ => []), [], 0, map[], 0, 0);
      owner := map[];
      live := map[];
      new;
      FreshPages(start, n);
      var table := heap.Alloc(TablePages(n));
      FreshOk(start, n, zonePages, s, heap.list);
    }

    static method ZonePagesFor(n: nat) returns (pages: nat)
      ensures (pages == 8 || pages == 16 || pages == 32) && (pages == 8 <==> n <= 16384)
      ensures pages > 8 ==> pages * PAGE < n * PAGE / 1024
      ensures pages < 32 ==> 2 * pages * PAGE >= n * PAGE / 1024
    {
      var size := 32768;
      while size < 131072 && size * 2 < n * PAGE / 1024
        invariant size == 32768 || size == 65536 || size == 131072
        invariant size > 32768 ==> size < n * PAGE / 1024
        decreases 131072 - size
      {
        size := size * 2;
      }
      pages := size / PAGE;
    }

    /** A request of `size` bytes led to `r`. */
    ghost predicate Answered(live0: Live, size: nat, r: Option<int>)
      reads this
    {
      match r
      case None => live == live0
      case Some(a) => a !in live0 && a in live && live[a] >= size && live == live0[a := live[a]]
    }

    /** The bytes of the block that a request gets: whole pages, or a chunk of the
        smallest size that holds it. */
    function BlockFor(size: nat): int
    {
      if size >= zoneLimit || size == 0 || size >= ZALLOC_ZONE_LIMIT then PagesFor(size) * PAGE else ZoneIndex(size).1
    }

    /** A large request finds no pages in a row; or a small one finds no zone with a free
        chunk, no empty zone, and no pages for a new one. */
    ghost predicate NoRoom(s: Slab, pages: seq<Run>, size: nat)
    {
      if size >= zoneLimit || size == 0 || size >= ZALLOC_ZONE_LIMIT then Take(pages, PagesFor(size)).0.None?
      else
        var zi := ZoneIndex(size).0;
        (zi < |s.zoneArray| ==> s.zoneArray[zi] == []) && s.zoneFree == [] && Take(pages, zonePages).0.None?
    }

    /** The page that the block of a request will be on or, for a chunk, that its zone will
        start on: the lowest pages in a row for a large block; for a chunk the first zone
        listed with free chunks, else the first kept zone, else the lowest pages for one. */
    ghost function From(s: Slab, pages: seq<Run>, size: nat): nat
    {
      if size >= zoneLimit || size == 0 || size >= ZALLOC_ZONE_LIMIT then Lowest(pages, PagesFor(size))
      else
        var zi := ZoneIndex(size).0;
        if zi < |s.zoneArray| && s.zoneArray[zi] != [] then s.zoneArray[zi][0]
        else if s.zoneFree != [] then s.zoneFree[0]
        else Lowest(pages, zonePages)
    }

    /** rt_malloc */
    method Malloc(size: nat) returns (r: Option<int>)
      requires Valid()
      modifies this, heap
      ensures Valid() && Answered(old(live), size, r)
      ensures r.None? <==> size == 0 || NoRoom(old(s), old(heap.list), size)
      ensures r.None? ==> s == old(s) && heap.list == old(heap.list)
      ensures r.None? && 0 < size < zoneLimit ==> Exhausted(zonePages, s, live, heap.list, ZoneIndex(size).0)
      ensures r.None? && size >= zoneLimit ==> forall p: nat :: !AllFree(heap.list, p, PagesFor(size))
      ensures r.Some? && size >= zoneLimit ==> live[r.value] < size + PAGE
      ensures r.Some? && size < zoneLimit ==> 8 * (live[r.value] - size) < if size < 64 then 64 else size
      ensures Peak(old(s), s)
      ensures r.Some? ==> live[r.value] == BlockFor(size)
      ensures r.Some? ==> first * PAGE <= r.value && r.value + live[r.value] <= limit * PAGE
      ensures r.Some? ==> Lies(From(old(s), old(heap.list), size), size, r.value)
      ensures r.Some? && size >= zoneLimit ==> r.value == From(old(s), old(heap.list), size) * PAGE
    {
      hide Take, Inv, ChunkSize, Sits, Whole, Lowest, Exhausted, AllFree, Lies;
      if size == 0 {
        PeakNow(zonePages, s, owner, live, heap.list);
        return None;
      }
      if size >= zoneLimit {
        r := MallocLarge(size);
        if r.Some? {
          LiveInHeap(first, limit, zonePages, s, owner, live, heap.list, r.value);
          LiesLarge(r.value / PAGE, size);
        }
        return;
      }
      LittleWaste(size);
      ghost var from := From(s, heap.list, size);
      hide ZoneIndex;
      r := MallocSmall(size);
      if r.Some? {
        LiveInHeap(first, limit, zonePages, s, owner, live, heap.list, r.value);
        LiesSmall(from, size, r.value);
      }
    }

    /** A request below zone_limit: a chunk of a zone that has one, or of a new zone. */
    method MallocSmall(size: nat) returns (r: Option<int>)
      requires Valid() && 0 < size < zoneLimit
      modifies this, heap
      ensures Valid() && Answered(old(live), size, r) && (r.Some? ==> live[r.value] == ZoneIndex(size).1)
      ensures r.None? <==> NoRoom(old(s), old(heap.list), size)
      ensures r.None? ==> s == old(s) && heap.list == old(heap.list) && Exhausted(zonePages, s, live, heap.list, ZoneIndex(size).0)
      ensures r.Some? ==> Sits(From(old(s), old(heap.list), size), ZoneIndex(size).1, r.value)
      ensures Peak(old(s), s)
    {
      hide Take, Core, FreeZonesOk, ChunkSize, Sits, Whole, Lowest, Exhausted, AllFree;
      ZoneIndexBest(size);
      if size < 8192 { SmallRequestSmallChunk(size); }
      var (zi, chunk) := ZoneIndex(size);
      if s.zoneArray[zi] != [] {
        r := MallocFromZone(zi, chunk);
      } else {
        r := MallocNewZone(zi, chunk);
      }
    }

    method CountUsed(bytes: int)
      modifies this`s
      ensures s == old(s).(usedMem := old(s).usedMem + bytes,
                           maxMem := if old(s).usedMem + bytes > old(s).maxMem then old(s).usedMem + bytes else old(s).maxMem)
    {
      s := s.(usedMem := s.usedMem + bytes);
      if s.usedMem > s.maxMem { s := s.(maxMem := s.usedMem); }
    }

    /** rt_page_alloc, and what it did to the free pages. */
    method TakePages(n: nat) returns (q: Option<nat>)
      requires Valid() && n > 0
      modifies heap
      ensures q == Take(old(heap.list), n).0
      ensures q.None? ==> heap.list == old(heap.list) && forall p: nat :: !AllFree(heap.list, p, n)
      ensures q.Some? ==> Removed(old(heap.list), heap.list, q.value, n)
    {
      hide Core, Removed, ArrayOk, FreeZonesOk, AllFree, Whole;
      ghost var l := heap.list;
      PagesCanonical(zonePages, s, owner, live, l);
      if Take(l, n).0.Some? { TakeRemoves(l, n); }
      hide Take;
      q := heap.Alloc(n);
    }

    method MallocLarge(size: nat) returns (r: Option<int>)
      requires Valid() && size > 0
      modifies this, heap
      ensures Valid() && Answered(old(live), size, r)
      ensures r.None? <==> Take(old(heap.list), PagesFor(size)).0.None?
      ensures r.Some? ==> live[r.value] == PagesFor(size) * PAGE && r.value == Lowest(old(heap.list), PagesFor(size)) * PAGE
      ensures r.None? ==> s == old(s) && heap.list == old(heap.list) && forall p: nat :: !AllFree(heap.list, p, PagesFor(size))
      ensures Peak(old(s), s)
    {
      hide Core, Removed, Whole;
      hide Take;
      var n := PagesFor(size);
      ghost var l := heap.list;
      var q := TakePages(n);
      if q.None? { return None; }
      var a := q.value * PAGE;
      LargeIn(zonePages, s, owner, live, l, heap.list, q.value, n);
      WholeLargeIn(first, limit, zonePages, s, owner, live, l, heap.list, q.value, n);
      SumWith(live, a, n * PAGE);
      s := s.(usage := s.usage[q.value := Large(n)]);
      owner := Own(owner, LargeOwner(q.value), q.value, n);
      live := live[a := n * PAGE];
      CountUsed(n * PAGE);
      CoreSame(zonePages, old(s).(usage := s.usage), s, owner, live, heap.list);
      WholeCounted(first, limit, zonePages, old(s).(usage := s.usage), s, owner, heap.list);
      r := Some(a);
    }

    method MallocFromZone(zi: nat, chunk: nat) returns (r: Option<int>)
      requires Valid() && zi < NZONES && s.zoneArray[zi] != [] && chunk == ChunkSize(zi)
      modifies this
      ensures Valid() && r.Some? && Answered(old(live), chunk, r) && live[r.value] == chunk
      ensures Sits(old(s).zoneArray[zi][0], chunk, r.value) && Peak(old(s), s)
    {
      hide Core, LiveIn, ArrayOk, FreeZonesOk, ZoneOk, TakeChunk, Sum, SameZone, Whole, Sits;
      ghost var s0 := s;
      HeadListed(s, zi);
      var zp := s.zoneArray[zi][0];
      var z := s.zones[zp];
      ZoneIsOk(zonePages, s, owner, live, heap.list, zp);
      TakeChunkOk(zp, zonePages, z);
      var (a, z') := TakeChunk(z);
      SameChunk(z, z');
      ChunkSits(first, limit, zonePages, s, owner, heap.list, zp, z', a);
      ChunkGoesOut(zonePages, s, owner, live, heap.list, zp, z', a);
      SumWith(live, a, chunk);
      s := WithZone(s, zp, z');
      if z'.nfree == 0 {
        s := s.(zoneArray := s.zoneArray[zi := s.zoneArray[zi][1..]]);
      }
      ListAfterTake(s0, s, zi, zp, z');
      live := live[a := chunk];
      ghost var s1 := s;
      CountUsed(chunk);
      ArraySame(s1, s);
      FreeZonesSame(s0, s);
      CoreSame(zonePages, WithZone(s0, zp, z'), s, owner, live, heap.list);
      WholeHeader(first, limit, zonePages, s0, s, owner, heap.list, zp, z');
      r := Some(a);
    }

    /** Takes a kept empty zone, or a new one from the page allocator. */
    method MallocNewZone(zi: nat, chunk: nat) returns (r: Option<int>)
      requires Valid() && zi < NZONES && s.zoneArray[zi] == [] && chunk == ChunkSize(zi)
      requires 8 <= chunk && 4 * chunk <= zonePages * PAGE
      modifies this, heap
      ensures Valid() && Answered(old(live), chunk, r) && (r.Some? ==> live[r.value] == chunk)
      ensures r.None? <==> old(s).zoneFree == [] && Take(old(heap.list), zonePages).0.None?
      ensures r.None? ==> s == old(s) && heap.list == old(heap.list) && Exhausted(zonePages, s, live, heap.list, zi)
      ensures Peak(old(s), s)
      ensures r.Some? ==> Sits(if old(s).zoneFree != [] then old(s).zoneFree[0] else Lowest(old(heap.list), zonePages), chunk, r.value)
    {
      hide Core, Removed, Take, ArrayOk, FreeZonesOk, Sum, Whole, Sits;
      ghost var s0 := s;
      var zp: nat;
      ghost var before := s;
      if s.zoneFree != [] {
        zp := s.zoneFree[0];
        PopFreeZone(s);
        s := s.(zoneFree := s.zoneFree[1..], zoneFreeCnt := s.zoneFreeCnt - 1);
        before := s.(zoneFree := s0.zoneFree);
        CoreSame(zonePages, s0, before, owner, live, heap.list);
        WholeCounted(first, limit, zonePages, s0, before, owner, heap.list);
      } else {
        ghost var l := heap.list;
        var got := TakePages(zonePages);
        if got.None? {
          NothingLeft(zonePages, s, owner, live, heap.list, zi);
          return None;
        }
        zp := got.value;
        MarkZone(zp);
        before := s.(zoneFree := [zp] + s.zoneFree);
        ZonePagesIn(zonePages, s0, before, owner, live, l, heap.list, zp);
        WholeZoneIn(first, limit, zonePages, s0, before, owner, live, l, heap.list, zp);
        owner := Own(owner, ZoneOwner(zp), zp, zonePages);
        FreeZonesSame(s0, s);
      }
      ArraySame(s0, s);
      r := UseZone(zp, zi, chunk, before);
    }

    /** Writes the header of an empty zone and hands out its first chunk. */
    method UseZone(zp: nat, zi: nat, chunk: nat, ghost before: Slab) returns (r: Option<int>)
      requires zonePages >= 8 && zi < NZONES && chunk == ChunkSize(zi) && 8 <= chunk && 4 * chunk <= zonePages * PAGE
      requires Core(zonePages, before, owner, live, heap.list) && before == s.(zoneFree := before.zoneFree)
      requires zp in before.zoneFree && zp !in s.zones && zp !in s.zoneFree && (forall y :: y in s.zoneFree ==> y in before.zoneFree)
      requires ArrayOk(s) && s.zoneArray[zi] == [] && FreeZonesOk(s) && s.usedMem == Sum(live) <= s.maxMem
      requires Whole(first, limit, zonePages, before, owner, heap.list) && (forall y :: y in before.zoneFree ==> y in s.zoneFree || y == zp)
      modifies this
      ensures Inv(zonePages, s, owner, live, heap.list) && r.Some? && Answered(old(live), chunk, r) && live[r.value] == chunk
      ensures Whole(first, limit, zonePages, s, owner, heap.list) && Sits(zp, chunk, r.value) && Peak(old(s), s)
    {
      hide Core, Whole, Sits, ZoneAligned, NewZone, Sum, ChunkSize;
      ghost var s0 := s;
      var z := NewZone(zp, zonePages, zi, chunk);
      NewZoneOk(zp, zonePages, zi, chunk);
      ZoneGoesInUse(zonePages, before, owner, live, heap.list, zp, z, s.zoneFree);
      SumWith(live, z.base, chunk);
      s := WithZone(s, zp, z).(zoneArray := s.zoneArray[zi := [zp] + s.zoneArray[zi]]);
      ListUpdated(s0, s, zi, s.zoneArray[zi]);
      live := live[z.base as int := chunk];
      CountUsed(chunk);
      CoreSame(zonePages, WithZone(before, zp, z).(zoneFree := s0.zoneFree), s, owner, live, heap.list);
      NewZoneAligned(zp, zonePages, zi, chunk);
      WholeUse(first, limit, zonePages, before, s, owner, heap.list, zp, z);
      r := Some(z.base);
    }

    method MarkZone(zp: nat)
      modifies this`s
      ensures s == old(s).(usage := s.usage) && Marked(old(s).usage, s.usage, zp, zonePages, true)
    {
      var off := 0;
      while off < zonePages
        invariant 0 <= off <= zonePages && s == old(s).(usage := s.usage)
        invariant Marked(old(s).usage, s.usage, zp, off, true)
      {
        s := s.(usage := s.usage[zp + off := Small(off)]);
        off := off + 1;
      }
    }

    method UnmarkZone(zp: nat)
      modifies this`s
      ensures s == old(s).(usage := s.usage) && Marked(old(s).usage, s.usage, zp, zonePages, false)
    {
      var off := 0;
      while off < zonePages
        invariant 0 <= off <= zonePages && s == old(s).(usage := s.usage)
        invariant Marked(old(s).usage, s.usage, zp, off, false)
      {
        s := s.(usage := s.usage[zp + off := Usage.Free]);
        off := off + 1;
      }
    }

    /** rt_free: of no address, or of one that rt_malloc returned and is still held. */
    method Free(ptr: Option<int>)
      requires Valid() && (ptr.Some? ==> ptr.value in live)
      modifies this, heap
      ensures Valid() && live == (if ptr.Some? then old(live) - {ptr.value} else old(live)) && s.maxMem == old(s).maxMem
    {
      if ptr.None? { return; }
      hide Core;
      var a := ptr.value;
      ZoneOfLive(zonePages, s, owner, live, heap.list, a);
      var page := a / PAGE;
      var kup := s.usage[page];
      if kup.Large? {
        ReleaseLarge(page, kup.pages);
      } else {
        var zp := page - kup.offset;
        ReleaseChunk(zp, a);
      }
    }

    method ReleaseLarge(q: nat, n: nat)
      requires Valid() && q in owner && owner[q] == LargeOwner(q) && q in s.usage && s.usage[q] == Large(n)
      modifies this, heap
      ensures Valid() && live == old(live) - {q * PAGE} && s.maxMem == old(s).maxMem
    {
      hide Core, Added, Whole, ArrayOk, FreeZonesOk, Sum, Canonical, NoneFree, Has;
      BlockNotFree(zonePages, s, owner, live, heap.list, q);
      ghost var l := heap.list;
      s := s.(usage := s.usage[q := Large(0)], usedMem := s.usedMem - n * PAGE);
      GiveAdds(l, q, n);
      heap.Free(q, n);
      LargeOut(zonePages, old(s), owner, live, l, heap.list, q, n);
      WholeLargeOut(first, limit, zonePages, old(s), owner, live, l, heap.list, q, n);
      SumWithout(live, q * PAGE);
      owner := Disown(owner, q, n);
      live := live - {q * PAGE};
      ArraySame(old(s), s);
      FreeZonesSame(old(s), s);
      CoreSame(zonePages, old(s).(usage := old(s).usage[q := Large(0)]), s, owner, live, heap.list);
      WholeCounted(first, limit, zonePages, old(s).(usage := old(s).usage[q := Large(0)]), s, owner, heap.list);
    }

    /** A chunk comes back, and its zone goes when it is wholly free and not the only one listed. */
    method ReleaseChunk(zp: nat, a: int)
      requires Valid() && zp in s.zones && LiveIn(s.zones[zp], a)
      modifies this, heap
      ensures Valid() && live == old(live) - {a} && old(s).zones[zp].zi < |old(s).zoneArray| && s.maxMem == old(s).maxMem
      ensures zp !in s.zones <==> old(s).zones[zp].nfree + 1 == old(s).zones[zp].nmax && Others(old(s), old(s).zones[zp].zi, zp)
    {
      hide Core, LiveIn, Others, Inv, Added, Distinct, Whole;
      ghost var s0 := s;
      PutBack(zp, a);
      var z := s.zones[zp];
      var list := s.zoneArray[z.zi];
      NotAlone(s0, s, z.zi, zp);
      if z.nfree == z.nmax && (list[|list| - 1] != zp || list[0] != zp) {
        Retire(zp);
      }
    }

    method PutBack(zp: nat, a: int)
      requires Valid() && zp in s.zones && LiveIn(s.zones[zp], a)
      modifies this`s, this`live
      ensures Valid() && live == old(live) - {a} && zp in s.zones && SameZone(old(s).zones[zp], s.zones[zp])
      ensures s.zones[zp].nfree == old(s).zones[zp].nfree + 1 && s.maxMem == old(s).maxMem
      ensures var zi := s.zones[zp].zi;
              && zi < |old(s).zoneArray| && zi < |s.zoneArray| && Distinct(s.zoneArray[zi]) && zp in s.zoneArray[zi]
              && (s.zoneArray[zi] == old(s).zoneArray[zi] || s.zoneArray[zi] == [zp] + old(s).zoneArray[zi])
    {
      hide Core, LiveIn, Whole;
      ghost var s0 := s;
      var z := s.zones[zp];
      ZoneIsOk(zonePages, s, owner, live, heap.list, zp);
      PutChunkOk(zp, zonePages, z, a);
      var z' := PutChunk(z, a);
      ChunkComesBack(zonePages, s, owner, live, heap.list, zp, z', a);
      SumWithout(live, a);
      s := WithZone(s, zp, z').(usedMem := s.usedMem - z.chunk);
      if z.nfree == 0 {
        s := s.(zoneArray := s.zoneArray[z.zi := [zp] + s.zoneArray[z.zi]]);
      }
      ListAfterPut(s0, s, zp, z');
      live := live - {a};
      CoreSame(zonePages, WithZone(s0, zp, z'), s, owner, live, heap.list);
      WholeHeader(first, limit, zonePages, s0, s, owner, heap.list, zp, z');
    }

    /** A zone that is wholly free is kept, or given back when enough are kept. */
    method Retire(zp: nat)
      requires Valid() && zp in s.zones && s.zones[zp].nfree == s.zones[zp].nmax && zp in s.zoneArray[s.zones[zp].zi]
      modifies this, heap
      ensures Valid() && live == old(live) && s.zones == old(s).zones - {zp} && s.maxMem == old(s).maxMem
      ensures |old(s).zoneFree| < ZONE_RELEASE_THRESH ==> s.zoneFree == [zp] + old(s).zoneFree && heap.list == old(heap.list)
      ensures |old(s).zoneFree| >= ZONE_RELEASE_THRESH ==>
                s.zoneFree == old(s).zoneFree && Added(old(heap.list), heap.list, zp, zonePages)
    {
      hide Core, LiveIn, ZoneOk, Added, Whole;
      ghost var s0 := s;
      ZoneIsOk(zonePages, s, owner, live, heap.list, zp);
      forall a ensures !LiveIn(s.zones[zp], a) { AllFreeAgain(zp, zonePages, s.zones[zp], a); }
      ZoneRetires(zonePages, s, owner, live, heap.list, zp);
      var zi := s.zones[zp].zi;
      IndexInRange(zp, zonePages, s.zones[zp]);
      var list := Unlisted(s.zoneArray[zi], zp);
      s := s.(zoneArray := s.zoneArray[zi := list], zones := s.zones - {zp},
              zoneFree := [zp] + s.zoneFree, zoneFreeCnt := s.zoneFreeCnt + 1);
      ListAfterRetire(s0, s, zi, zp, list);
      CoreSame(zonePages, s0.(zones := s0.zones - {zp}, zoneFree := [zp] + s0.zoneFree), s, owner, live, heap.list);
      WholeRetire(first, limit, zonePages, s0, s, owner, heap.list, zp);
      if s.zoneFreeCnt > ZONE_RELEASE_THRESH {
        GiveBackZone();
      }
    }

    /** The walk to the place of `zp` in its list, and the list without it. */
    static method Unlisted(l: seq<nat>, zp: nat) returns (m: seq<nat>)
      requires Distinct(l) && zp in l
      ensures Distinct(m) && forall x :: x in m <==> x in l && x != zp
    {
      var k := 0;
      while l[k] != zp
        invariant 0 <= k < |l| && forall i :: 0 <= i < k ==> l[i] != zp
        decreases |l| - k
      {
        k := k + 1;
      }
      RemovedAt(l, k);
      m := l[..k] + l[k + 1..];
    }

    method GiveBackZone()
      requires zonePages > 0 && Core(zonePages, s, owner, live, heap.list) && ArrayOk(s) && s.usedMem == Sum(live) <= s.maxMem
      requires Distinct(s.zoneFree) && s.zoneFreeCnt == |s.zoneFree| == ZONE_RELEASE_THRESH + 1
      requires (forall z :: z in s.zoneFree ==> z !in s.zones) && Whole(first, limit, zonePages, s, owner, heap.list)
      modifies this, heap
      ensures Inv(zonePages, s, owner, live, heap.list) && live == old(live) && Whole(first, limit, zonePages, s, owner, heap.list)
      ensures s.zones == old(s).zones && s.zoneFree == old(s).zoneFree[1..] && s.maxMem == old(s).maxMem
      ensures Added(old(heap.list), heap.list, old(s).zoneFree[0], zonePages)
    {
      hide Core, Added, ArrayOk, Marked, NoneFree, Canonical, Has, Whole, Sum, Disown, OwnsPages;
      ghost var l := heap.list;
      var z := s.zoneFree[0];
      s := s.(zoneFree := s.zoneFree[1..], zoneFreeCnt := s.zoneFreeCnt - 1);
      UnmarkZone(z);
      ArraySame(old(s), s);
      ZoneNotFree(zonePages, old(s), owner, live, heap.list, z);
      GiveAdds(l, z, zonePages);
      heap.Free(z, zonePages);
      ghost var s' := old(s).(usage := s.usage, zoneFree := s.zoneFree);
      ZonePagesOut(zonePages, old(s), s', owner, live, l, heap.list, z);
      WholeZoneOut(first, limit, zonePages, old(s), s', owner, live, l, heap.list, z);
      owner := Disown(owner, z, zonePages);
      CoreSame(zonePages, s', s, owner, live, heap.list);
      WholeCounted(first, limit, zonePages, s', s, owner, heap.list);
    }
  }

  /** The first request of 8192 bytes in a fresh heap: its block is on a multiple of 8192
      exactly when the page behind the page table is on an even page. A heap of 3 to 1024
      pages that starts on an even page has one table page, and the block follows it. */
  method FirstBigBlock(start: nat, n: nat) returns (r: Option<int>)
    requires n > 0
    ensures r.Some? ==> (r.value % 8192 == 0 <==> (start + TablePages(n)) % 2 == 0)
    ensures 3 <= n <= 1024 ==> r == Some((start + 1) * PAGE) && (start % 2 == 0 ==> r.value % 8192 != 0)
  {
    hide *;
    var slab := new Allocator(start, n);
    FirstFrom(start, n, slab.zonePages);
    FromFresh(slab);
    EightIsPower();
    r := slab.Malloc(8192);
    if r.Some? { BigOnPage(start + TablePages(n), r.value); }
    OddPage(start + TablePages(n));
  }

  /** What a request of 8192 bytes asks the page allocator for while there is no zone. */
  lemma FromFresh(slab: Allocator)
    requires slab.Valid() && slab.s.zoneFree == [] && forall l :: l in slab.s.zoneArray ==> l == []
    ensures var k := if slab.zonePages == 8 then 2 else slab.zonePages;
            && slab.From(slab.s, slab.heap.list, 8192) == Lowest(slab.heap.list, k)
            && (slab.NoRoom(slab.s, slab.heap.list, 8192) <==> Take(slab.heap.list, k).0.None?)
            && (slab.zonePages == 8 ==> slab.zoneLimit == 8192)
  {
    BigIndex();
    assert PagesFor(8192) == 2;
    hide Whole, Take, Lowest, Core, ZoneIndex, PagesFor;
    assert slab.s.zoneArray[63] in slab.s.zoneArray;
  }

  lemma BigIndex()
    ensures ZoneIndex(8192) == (63, 8192)
  {
  }

  /** Where the first pages come from. */
  lemma FirstFrom(start: nat, n: nat, zonePages: nat)
    requires n > 0
    ensures var list := if TablePages(n) < n then [Run(start + TablePages(n), n - TablePages(n))] else [];
            && (Take(list, zonePages).0.Some? ==> Lowest(list, zonePages) == start + TablePages(n))
            && (Take(list, 2).0.Some? ==> Lowest(list, 2) == start + TablePages(n))
            && (3 <= n <= 1024 ==> Take(list, 2).0.Some? && TablePages(n) == 1)
  {
    if TablePages(n) < n {
      var r := Run(start + TablePages(n), n - TablePages(n));
      TakeOne(r, zonePages);
      TakeOne(r, 2);
    }
  }

  lemma BigOnPage(from: nat, a: int)
    requires Lies(from, 8192, a) && IsPowerOfTwo(8192)
    ensures a % 8192 == 0 <==> from * PAGE % 8192 == 0
  {
    hide IsPowerOfTwo;
  }

  lemma OddPage(p: nat)
    ensures p * PAGE % 8192 == 0 <==> p % 2 == 0
  {
  }

  // ------------------------------------------------- facts for the methods above

  function Lowest(pages: seq<Run>, n: nat): nat
  {
    var a := Take(pages, n).0; if a.Some? then a.value else 0
  }

  lemma SitsOnEight(zp: nat, chunk: nat, a: int)
    requires Sits(zp, chunk, a)
    ensures a >= 0 && a % 8 == 0
  {
  }

  lemma HeadListed(s: Slab, zi: nat)
    requires ArrayOk(s) && zi < NZONES
    ensures zi < |s.zoneArray| && (s.zoneArray[zi] != [] ==> Listed(s, zi, s.zoneArray[zi][0]))
  {
  }

  /** The list of index `zi` has another zone than `zp`. */
  ghost predicate Others(s: Slab, zi: nat, zp: nat)
    requires zi < |s.zoneArray|
  {
    exists y :: y in s.zoneArray[zi] && y != zp
  }

  /** A list without repetition that holds `zp` has others when `zp` is not both first and last. */
  lemma NotAlone(s: Slab, s': Slab, zi: nat, zp: nat)
    requires zi < |s.zoneArray| && zi < |s'.zoneArray| && Distinct(s'.zoneArray[zi]) && zp in s'.zoneArray[zi]
    requires s'.zoneArray[zi] == s.zoneArray[zi] || s'.zoneArray[zi] == [zp] + s.zoneArray[zi]
    ensures var l := s'.zoneArray[zi]; l[|l| - 1] != zp || l[0] != zp <==> Others(s, zi, zp)
  {
    var l, m := s'.zoneArray[zi], s.zoneArray[zi];
    assert forall y :: y != zp ==> (y in l <==> y in m);
    if l[0] != zp {
      assert l[0] in m;
    } else if l[|l| - 1] != zp {
      assert l[|l| - 1] in m;
    } else {
      assert l == [zp];
    }
  }

  lemma SameChunk(z: Zone, z': Zone)
    requires SameZone(z, z')
    ensures z'.chunk == z.chunk && z'.zi == z.zi
  {
  }

  lemma PopFreeZone(s: Slab)
    requires FreeZonesOk(s) && s.zoneFree != []
    ensures var z, s' := s.zoneFree[0], s.(zoneFree := s.zoneFree[1..], zoneFreeCnt := s.zoneFreeCnt - 1);
            FreeZonesOk(s') && z !in s'.zoneFree && z !in s.zones && forall y :: y in s'.zoneFree ==> y in s.zoneFree
  {
  }

  lemma FreeZonesSame(s: Slab, s': Slab)
    requires FreeZonesOk(s) && s'.zoneFree == s.zoneFree && s'.zoneFreeCnt == s.zoneFreeCnt && s'.zones.Keys == s.zones.Keys
    ensures FreeZonesOk(s')
  {
  }

  lemma ArraySame(s: Slab, s': Slab)
    requires ArrayOk(s) && s'.zoneArray == s.zoneArray && s'.zones == s.zones
    ensures ArrayOk(s')
  {
  }

  lemma IndexInRange(zp: nat, zonePages: nat, z: Zone)
    requires ZoneOk(zp, zonePages, z)
    ensures z.zi < NZONES
  {
  }

  lemma ListAfterRetire(s: Slab, s': Slab, zi: nat, zp: nat, list: seq<nat>)
    requires ArrayOk(s) && zi < NZONES && zp in s.zones && s.zones[zp].zi == zi && s'.zones == s.zones - {zp}
    requires s'.zoneArray == s.zoneArray[zi := list] && Distinct(list)
    requires forall x :: x in list <==> x in s.zoneArray[zi] && x != zp
    ensures ArrayOk(s')
  {
    assert forall z :: z in s.zoneArray[zi] <==> Listed(s, zi, z);
    ListUpdated(s, s', zi, list);
  }

  lemma PagesCanonical(zonePages: nat, s: Slab, owner: Owners, live: Live, pages: seq<Run>)
    requires Core(zonePages, s, owner, live, pages)
    ensures Canonical(pages)
  {
  }

  lemma TakeRemoves(l: seq<Run>, n: nat)
    requires Canonical(l) && n > 0 && Take(l, n).0.Some?
    ensures Removed(l, Take(l, n).1, Take(l, n).0.value, n)
  {
    TakeEffect(l, n);
  }

  lemma GiveAdds(l: seq<Run>, a: nat, n: nat)
    requires Canonical(l) && n > 0 && NoneFree(l, a, n)
    ensures Added(l, Give(l, a, n), a, n)
  {
    GiveEffect(l, a, n);
  }

  /** After a chunk was taken, its zone is listed only if chunks are left. */
  lemma ListAfterTake(s: Slab, s': Slab, zi: nat, zp: nat, z': Zone)
    requires ArrayOk(s) && zi < NZONES && s.zoneArray[zi] != [] && s.zoneArray[zi][0] == zp && zp in s.zones
    requires SameZone(s.zones[zp], z') && z'.nfree == s.zones[zp].nfree - 1 && s'.zones == s.zones[zp := z']
    requires s'.zoneArray == if z'.nfree == 0 then s.zoneArray[zi := s.zoneArray[zi][1..]] else s.zoneArray
    ensures ArrayOk(s')
  {
    var l := s.zoneArray[zi];
    assert Listed(s, zi, zp);
    assert forall z :: z in l <==> Listed(s, zi, z);
    RemovedAt(l, 0);
    assert l[..0] + l[1..] == l[1..];
    assert s'.zoneArray == s.zoneArray[zi := s'.zoneArray[zi]];
    ListUpdated(s, s', zi, s'.zoneArray[zi]);
  }

  lemma ZoneIsOk(zonePages: nat, s: Slab, owner: Owners, live: Live, pages: seq<Run>, zp: nat)
    requires Core(zonePages, s, owner, live, pages) && zp in s.zones
    ensures ZoneOk(zp, zonePages, s.zones[zp])
  {
  }

  /** The page table leads from a live chunk back to its zone. */
  lemma ZoneOfLive(zonePages: nat, s: Slab, owner: Owners, live: Live, pages: seq<Run>, a: int)
    requires Core(zonePages, s, owner, live, pages) && a in live
    ensures a >= 0 && a / PAGE in owner && a / PAGE in s.usage
    ensures match owner[a / PAGE]
            case ZoneOwner(z) => z <= a / PAGE && s.usage[a / PAGE] == Small(a / PAGE - z) && z in s.zones && LiveIn(s.zones[z], a)
            case LargeOwner(q) => q == a / PAGE && a == q * PAGE && s.usage[q].Large?
  {
    assert LiveAt(s, owner, a);
    match owner[a / PAGE]
    case ZoneOwner(z) =>
      assert OwnsPages(zonePages, s, owner, z);
      TouchedInside(z, zonePages, s.zones[z], a);
    case LargeOwner(q) =>
      assert OwnsBlock(s, owner, q);
  }

  lemma BlockNotFree(zonePages: nat, s: Slab, owner: Owners, live: Live, pages: seq<Run>, q: nat)
    requires Core(zonePages, s, owner, live, pages) && q in owner && owner[q] == LargeOwner(q)
    ensures q in s.usage && s.usage[q].Large? && s.usage[q].pages > 0
    ensures NoneFree(pages, q, s.usage[q].pages) && Canonical(pages)
  {
    assert OwnsBlock(s, owner, q);
  }

  lemma ZoneNotFree(zonePages: nat, s: Slab, owner: Owners, live: Live, pages: seq<Run>, z: nat)
    requires Core(zonePages, s, owner, live, pages) && z in s.zoneFree
    ensures NoneFree(pages, z, zonePages) && Canonical(pages)
  {
    assert OwnsPages(zonePages, s, owner, z);
  }

  /** After a chunk came back, its zone is listed. */
  lemma ListAfterPut(s: Slab, s': Slab, zp: nat, z': Zone)
    requires ArrayOk(s) && zp in s.zones && s.zones[zp].nfree >= 0 && s.zones[zp].zi < NZONES
    requires SameZone(s.zones[zp], z') && z'.nfree == s.zones[zp].nfree + 1 && s'.zones == s.zones[zp := z']
    requires s'.zoneArray == if s.zones[zp].nfree == 0 then s.zoneArray[z'.zi := [zp] + s.zoneArray[z'.zi]] else s.zoneArray
    ensures ArrayOk(s') && zp in s'.zoneArray[z'.zi]
  {
    var l := s'.zoneArray[z'.zi];
    assert forall z :: z in s.zoneArray[z'.zi] <==> Listed(s, z'.zi, z);
    assert s'.zoneArray == s.zoneArray[z'.zi := l];
    ListUpdated(s, s', z'.zi, l);
  }
}
