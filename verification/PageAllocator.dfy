/** The page allocator (src/slab.c): rt_page_alloc, rt_page_free, rt_page_init on
    the address-ordered list of free page runs. Addresses count pages. */
module PageAllocator {
  import opened Lists

  /** A free run: its first page and its number of pages. */
  datatype Run = Run(start: nat, count: nat)

  function End(r: Run): nat { r.start + r.count }

  predicate In(p: nat, a: nat, n: nat) { a <= p < a + n }

  /** Page `p` is on the list. */
  predicate Has(l: seq<Run>, p: nat)
  {
    l != [] && (In(p, l[0].start, l[0].count) || Has(l[1..], p))
  }

  /** The number of pages on the list. */
  function Count(l: seq<Run>): nat
  {
    if l == [] then 0 else l[0].count + Count(l[1..])
  }

  /** Sorted by address, no empty run, and no two runs touch. */
  predicate Canonical(l: seq<Run>)
  {
    && (forall i :: 0 <= i < |l| ==> l[i].count > 0)
    && (forall i :: 0 <= i < |l| - 1 ==> End(l[i]) < l[i + 1].start)
  }

  /** Takes the first `n` pages of the first run that has so many. */
  function Take(l: seq<Run>, n: nat): (Option<nat>, seq<Run>)
  {
    if l == [] then (None, [])
    else if l[0].count > n then (Some(l[0].start), [Run(l[0].start + n, l[0].count - n)] + l[1..])
    else if l[0].count == n then (Some(l[0].start), l[1..])
    else var (a, rest) := Take(l[1..], n); (a, [l[0]] + rest)
  }

  /** Puts a run back, joining it with the runs it touches. */
  function Give(l: seq<Run>, a: nat, n: nat): seq<Run>
  {
    if l == [] then [Run(a, n)]
    else
      var b := l[0];
      if End(b) == a then
        if |l| > 1 && a + n == l[1].start then [Run(b.start, b.count + n + l[1].count)] + l[2..]
        else [Run(b.start, b.count + n)] + l[1..]
      else if b.start == a + n then [Run(a, n + b.count)] + l[1..]
      else if b.start > a + n then [Run(a, n)] + l
      else [b] + Give(l[1..], a, n)
  }

  // ------------------------------------------------------------ canonical form

  lemma {:induction false} HasAbove(l: seq<Run>, p: nat)
    requires Canonical(l) && Has(l, p)
    ensures l[0].start <= p
  {
    if !In(p, l[0].start, l[0].count) { HasAbove(l[1..], p); }
  }

  lemma TailAbove(l: seq<Run>, p: nat)
    requires Canonical(l) && l != []
    ensures Canonical(l[1..])
    ensures Has(l[1..], p) ==> End(l[0]) < p
  {
    if Has(l[1..], p) { HasAbove(l[1..], p); }
  }

  lemma HeadAgrees(l: seq<Run>, m: seq<Run>)
    requires Canonical(l) && Canonical(m) && l != [] && m != []
    requires forall p: nat :: Has(l, p) <==> Has(m, p)
    ensures l[0] == m[0]
  {
    assert Has(l, l[0].start) && Has(m, m[0].start);
    HasAbove(l, m[0].start);
    HasAbove(m, l[0].start);
    TailAbove(l, End(l[0]));
    TailAbove(m, End(m[0]));
    assert !Has(l, End(l[0])) && !Has(m, End(m[0]));
  }

  /** Main result: a set of free pages has only one canonical list. */
  lemma {:induction false} CanonicalUnique(l: seq<Run>, m: seq<Run>)
    requires Canonical(l) && Canonical(m)
    requires forall p: nat :: Has(l, p) <==> Has(m, p)
    ensures l == m
  {
    if l != [] && m != [] {
      HeadAgrees(l, m);
      forall p: nat ensures Has(l[1..], p) <==> Has(m[1..], p) {
        TailAbove(l, p);
        TailAbove(m, p);
        assert Has(l, p) <==> Has(m, p);
      }
      CanonicalUnique(l[1..], m[1..]);
      assert l == [l[0]] + l[1..] && m == [m[0]] + m[1..];
    } else if l != [] {
      assert Has(l, l[0].start);
    } else if m != [] {
      assert Has(m, m[0].start);
    }
  }

  // -------------------------------------------------------------- allocation

  /** All of the `n` pages from `a` on are free. */
  ghost predicate AllFree(l: seq<Run>, a: nat, n: nat)
  {
    forall p :: In(p, a, n) ==> Has(l, p)
  }

  ghost predicate NoneFree(l: seq<Run>, a: nat, n: nat)
  {
    forall p :: In(p, a, n) ==> !Has(l, p)
  }

  lemma HasCons(r: Run, l: seq<Run>, p: nat)
    ensures Has([r] + l, p) <==> In(p, r.start, r.count) || Has(l, p)
  {
    assert ([r] + l)[1..] == l;
  }

  lemma CanonicalCons(r: Run, l: seq<Run>)
    requires r.count > 0 && Canonical(l) && (l != [] ==> End(r) < l[0].start)
    ensures Canonical([r] + l)
  {
  }

  lemma CountCons(r: Run, l: seq<Run>)
    ensures Count([r] + l) == r.count + Count(l)
  {
    assert ([r] + l)[1..] == l;
  }

  /** What taking pages does to the list: it stays canonical, loses exactly the
      pages handed out, and does not start earlier than before. */
  lemma {:induction false} TakeEffect(l: seq<Run>, n: nat)
    requires Canonical(l) && n > 0
    ensures var (a, m) := Take(l, n);
      && Canonical(m) && (m != [] ==> l != [] && l[0].start <= m[0].start)
      && (a.None? ==> m == l)
      && (a.Some? ==> AllFree(l, a.value, n) && Count(m) + n == Count(l))
      && (a.Some? ==> forall p: nat :: Has(m, p) <==> Has(l, p) && !In(p, a.value, n))
  {
    if l == [] { return; }
    var rest := l[1..];
    var (a, m) := Take(l, n);
    assert l == [l[0]] + rest;
    forall p: nat ensures Has(rest, p) ==> End(l[0]) < p { TailAbove(l, p); }
    if l[0].count > n {
      var r := Run(l[0].start + n, l[0].count - n);
      CanonicalCons(r, rest);
      CountCons(r, rest);
      forall p: nat ensures Has(m, p) <==> Has(l, p) && !In(p, l[0].start, n) { HasCons(r, rest, p); }
    } else if l[0].count < n {
      TakeEffect(rest, n);
      var (b, rest') := Take(rest, n);
      CanonicalCons(l[0], rest');
      CountCons(l[0], rest');
      if b.Some? {
        forall p: nat ensures Has(m, p) <==> Has(l, p) && !In(p, b.value, n) {
          HasCons(l[0], rest', p);
          assert In(p, b.value, n) ==> Has(rest, p);
        }
      }
    }
  }

  /** First fit is lowest fit: no `n` free pages in a row start below the result,
      and none exist at all when there is no result. */
  lemma {:induction false} TakeLowest(l: seq<Run>, n: nat, a: nat)
    requires Canonical(l) && n > 0 && AllFree(l, a, n)
    ensures Take(l, n).0.Some? && Take(l, n).0.value <= a
  {
    assert In(a, a, n);
    HasAbove(l, a);
    if l[0].count < n {
      var rest := l[1..];
      TailAbove(l, End(l[0]));
      assert !In(End(l[0]), a, n);
      forall p | In(p, a, n) ensures Has(rest, p) { assert In(a + n - 1, a, n) && Has(l, p) && Has(l, a + n - 1); TailAbove(l, a + n - 1); }
      TakeLowest(rest, n, a);
    }
  }

  lemma TakeLowestAll(l: seq<Run>, n: nat)
    requires Canonical(l) && n > 0
    ensures forall a :: AllFree(l, a, n) ==> Take(l, n).0.Some? && Take(l, n).0.value <= a
  {
    forall a | AllFree(l, a, n) ensures Take(l, n).0.Some? && Take(l, n).0.value <= a { TakeLowest(l, n, a); }
  }

  /** What rt_page_alloc promises: the lowest fit and its count of pages, or that there is
      no fit and nothing changes. */
  lemma TakeFits(l: seq<Run>, n: nat)
    requires Canonical(l) && n > 0
    ensures var (r, m) := Take(l, n);
      && Canonical(m)
      && (r.None? ==> m == l && forall a :: !AllFree(l, a, n))
      && (r.Some? ==> AllFree(l, r.value, n) && (forall a :: AllFree(l, a, n) ==> r.value <= a) && Count(m) + n == Count(l))
  {
    TakeEffect(l, n);
    TakeLowestAll(l, n);
    hide *;
  }

  // ----------------------------------------------------------------- release

  /** `m` is canonical and holds the pages of `l` and those from `a` on. */
  ghost predicate Given(l: seq<Run>, a: nat, n: nat, m: seq<Run>)
  {
    && Canonical(m) && Count(m) == Count(l) + n
    && m != [] && m[0].start == (if l != [] && l[0].start < a then l[0].start else a)
    && forall p: nat :: Has(m, p) <==> Has(l, p) || In(p, a, n)
  }

  /** A run that takes the place of the head, and of the new pages. */
  lemma JoinHead(l: seq<Run>, a: nat, n: nat, r: Run)
    requires Canonical(l) && l != [] && n > 0 && r.count == l[0].count + n
    requires (End(l[0]) == a && r.start == l[0].start) || (l[0].start == a + n && r.start == a)
    requires |l| > 1 ==> End(r) < l[1].start
    ensures Given(l, a, n, [r] + l[1..])
  {
    CanonicalCons(r, l[1..]);
    CountCons(r, l[1..]);
    forall p: nat ensures Has([r] + l[1..], p) <==> Has(l, p) || In(p, a, n) { HasCons(r, l[1..], p); }
  }

  /** A run that closes the gap between the first two. */
  lemma JoinTwo(l: seq<Run>, a: nat, n: nat)
    requires Canonical(l) && |l| > 1 && n > 0 && End(l[0]) == a && a + n == l[1].start
    ensures Given(l, a, n, [Run(l[0].start, l[0].count + n + l[1].count)] + l[2..])
  {
    var r := Run(l[0].start, l[0].count + n + l[1].count);
    var t := l[1..];
    assert t[1..] == l[2..] && t[0] == l[1];
    assert Count(t) == l[1].count + Count(l[2..]);
    assert l[2..] != [] ==> l[2..][0] == l[2];
    CanonicalCons(r, l[2..]);
    CountCons(r, l[2..]);
    forall p: nat ensures Has([r] + l[2..], p) <==> Has(l, p) || In(p, a, n) {
      HasCons(r, l[2..], p);
      assert Has(t, p) <==> In(p, l[1].start, l[1].count) || Has(l[2..], p);
    }
  }

  lemma PutFirst(l: seq<Run>, a: nat, n: nat)
    requires Canonical(l) && n > 0 && (l != [] ==> a + n < l[0].start)
    ensures Given(l, a, n, [Run(a, n)] + l)
  {
    CanonicalCons(Run(a, n), l);
    CountCons(Run(a, n), l);
    forall p: nat ensures Has([Run(a, n)] + l, p) <==> Has(l, p) || In(p, a, n) { HasCons(Run(a, n), l, p); }
  }

  lemma KeepHead(l: seq<Run>, a: nat, n: nat, m: seq<Run>)
    requires Canonical(l) && l != [] && End(l[0]) < a && Given(l[1..], a, n, m)
    ensures Given(l, a, n, [l[0]] + m)
  {
    CanonicalCons(l[0], m);
    CountCons(l[0], m);
    forall p: nat ensures Has([l[0]] + m, p) <==> Has(l, p) || In(p, a, n) { HasCons(l[0], m, p); }
  }

  /** Pages that are not on the list lie to one side of each run. */
  lemma Apart(l: seq<Run>, a: nat, n: nat)
    requires Canonical(l) && l != [] && n > 0 && NoneFree(l, a, n)
    ensures End(l[0]) <= a || a + n <= l[0].start
    ensures |l| > 1 ==> End(l[1]) <= a || a + n <= l[1].start
    ensures NoneFree(l[1..], a, n)
  {
    assert In(a, a, n) && Has(l, l[0].start);
    if |l| > 1 {
      var t := l[1..];
      assert t[0] == l[1];
      assert forall p :: Has(t, p) ==> Has(l, p);
      assert Has(t, l[1].start);
      assert In(a, l[1].start, l[1].count) ==> Has(t, a);
    }
  }

  lemma TailCanonical(l: seq<Run>)
    requires Canonical(l) && l != []
    ensures Canonical(l[1..]) && l[0].count > 0
    ensures |l| > 1 ==> End(l[0]) < l[1].start && l[1].count > 0
  {
  }

  lemma {:induction false} GiveEffect(l: seq<Run>, a: nat, n: nat)
    requires Canonical(l) && n > 0 && NoneFree(l, a, n)
    ensures Given(l, a, n, Give(l, a, n))
  {
    hide Has, Count, Canonical, Given, NoneFree;
    if l == [] {
      PutFirst(l, a, n);
      assert [Run(a, n)] + l == [Run(a, n)];
      return;
    }
    var b := l[0];
    TailCanonical(l);
    Apart(l, a, n);
    if End(b) == a && |l| > 1 && a + n == l[1].start {
      JoinTwo(l, a, n);
    } else if End(b) == a {
      JoinHead(l, a, n, Run(b.start, b.count + n));
    } else if b.start == a + n {
      JoinHead(l, a, n, Run(a, n + b.count));
    } else if b.start > a + n {
      PutFirst(l, a, n);
    } else {
      GiveEffect(l[1..], a, n);
      KeepHead(l, a, n, Give(l[1..], a, n));
    }
  }

  /** Main result: freeing what was allocated gives back exactly the earlier list. */
  lemma GiveUndoesTake(l: seq<Run>, n: nat)
    requires Canonical(l) && n > 0 && Take(l, n).0.Some?
    ensures Give(Take(l, n).1, Take(l, n).0.value, n) == l
  {
    var (a, m) := Take(l, n);
    TakeEffect(l, n);
    GiveEffect(m, a.value, n);
    CanonicalUnique(Give(m, a.value, n), l);
  }

  /** The order in which two runs are freed does not matter. */
  lemma GiveCommutes(l: seq<Run>, a: nat, n: nat, b: nat, k: nat)
    requires Canonical(l) && n > 0 && k > 0 && NoneFree(l, a, n) && NoneFree(l, b, k)
    requires a + n <= b || b + k <= a
    ensures Give(Give(l, a, n), b, k) == Give(Give(l, b, k), a, n)
  {
    GiveEffect(l, a, n);
    GiveEffect(l, b, k);
    GiveEffect(Give(l, a, n), b, k);
    GiveEffect(Give(l, b, k), a, n);
    CanonicalUnique(Give(Give(l, a, n), b, k), Give(Give(l, b, k), a, n));
  }

  // --------------------------------------------------------------- the object

  class PageHeap {
    var list: seq<Run>

    ghost predicate Valid()
      reads this
    {
      Canonical(list)
    }

    /** rt_page_init: one run holds everything. */
    constructor (a: nat, n: nat)
      requires n > 0
      ensures Valid() && list == [Run(a, n)]
    {
      list := [Run(a, n)];
    }

    /** rt_page_alloc. */
    method Alloc(n: nat) returns (r: Option<nat>)
      requires Valid()
      modifies this
      ensures Valid() && (n > 0 ==> r == Take(old(list), n).0 && list == Take(old(list), n).1)
      ensures n == 0 ==> r.None? && list == old(list)
      ensures r.None? ==> list == old(list) && (n > 0 ==> forall a :: !AllFree(list, a, n))
      ensures r.Some? ==> AllFree(old(list), r.value, n) && forall a :: AllFree(old(list), a, n) ==> r.value <= a
      ensures r.Some? ==> Count(list) + n == Count(old(list))
    {
      if n == 0 { return None; }
      TakeFits(list, n);
      hide Canonical, Has, Count, AllFree, Take;
      r := TakeFirst(n);
    }

    /** The first run that is large enough is cut, or taken off the list. */
    method TakeFirst(n: nat) returns (r: Option<nat>)
      requires n > 0
      modifies this
      ensures r == Take(old(list), n).0 && list == Take(old(list), n).1
    {
      hide Take;
      var i := FirstFit(n);
      if i == |list| { return None; }
      var b := list[i];
      r := Some(b.start);
      if b.count > n {
        list := list[..i] + [Run(b.start + n, b.count - n)] + list[i + 1..];
      } else {
        list := list[..i] + list[i + 1..];
      }
    }

    /** The walk of rt_page_alloc to the first run that is large enough. */
    method FirstFit(n: nat) returns (i: nat)
      ensures i <= |list| && (i < |list| ==> list[i].count >= n)
      ensures Take(list, n).0 == if i == |list| then None else Some(list[i].start)
      ensures Take(list, n).1 ==
        if i == |list| then list
        else if list[i].count > n then list[..i] + [Run(list[i].start + n, list[i].count - n)] + list[i + 1..]
        else list[..i] + list[i + 1..]
    {
      hide Take;
      var l := list;
      i := 0;
      assert l[0..] == l && l[..0] + Take(l, n).1 == Take(l, n).1;
      while i < |l| && l[i].count < n
        invariant 0 <= i <= |l|
        invariant Take(l, n).0 == Take(l[i..], n).0 && Take(l, n).1 == l[..i] + Take(l[i..], n).1
      {
        TakeNext(l, i, n);
        i := i + 1;
      }
      TakeStep(l, i, n);
    }

    /** The walk of rt_page_free to the place of the pages. */
    method FindPlace(a: nat, n: nat) returns (i: nat)
      ensures i <= |list| && Give(list, a, n) == list[..i] + Give(list[i..], a, n)
      ensures i < |list| ==> list[i].start > a + n || End(list[i]) == a || list[i].start == a + n
    {
      hide Give;
      i := 0;
      assert list[0..] == list;
      while i < |list| && list[i].start <= a + n && End(list[i]) != a && list[i].start != a + n
        invariant 0 <= i <= |list|
        invariant Give(list, a, n) == list[..i] + Give(list[i..], a, n)
      {
        GiveNext(list, i, a, n);
        i := i + 1;
      }
    }

    /** rt_page_free: the caller hands back pages that are not on the list. */
    method Free(a: nat, n: nat)
      requires Valid() && n > 0 && NoneFree(list, a, n)
      modifies this
      ensures Valid() && list == Give(old(list), a, n)
      ensures Count(list) == Count(old(list)) + n
      ensures forall p: nat :: Has(list, p) <==> Has(old(list), p) || In(p, a, n)
    {
      hide Canonical, Has, Count;
      ghost var l := list;
      GiveEffect(l, a, n);
      var i := FindPlace(a, n);
      hide Give;
      GiveStep(l, i, a, n);
      if i < |list| && End(list[i]) == a {
        var b := list[i];
        if i + 1 < |list| && a + n == list[i + 1].start {
          list := list[..i] + [Run(b.start, b.count + n + list[i + 1].count)] + list[i + 2..];
        } else {
          list := list[..i] + [Run(b.start, b.count + n)] + list[i + 1..];
        }
      } else if i < |list| && list[i].start == a + n {
        list := list[..i] + [Run(a, n + list[i].count)] + list[i + 1..];
      } else {
        list := list[..i] + [Run(a, n)] + list[i..];
      }
    }
  }

  lemma TakeNext(l: seq<Run>, i: nat, n: nat)
    requires i < |l| && l[i].count < n
    ensures Take(l[i..], n).0 == Take(l[i + 1..], n).0
    ensures l[..i] + Take(l[i..], n).1 == l[..i + 1] + Take(l[i + 1..], n).1
  {
    assert l[i..][0] == l[i] && l[i..][1..] == l[i + 1..];
    assert l[..i] + ([l[i]] + Take(l[i + 1..], n).1) == l[..i + 1] + Take(l[i + 1..], n).1;
  }

  lemma GiveNext(l: seq<Run>, i: nat, a: nat, n: nat)
    requires i < |l| && l[i].start <= a + n && End(l[i]) != a && l[i].start != a + n
    ensures l[..i] + Give(l[i..], a, n) == l[..i + 1] + Give(l[i + 1..], a, n)
  {
    assert l[i..][0] == l[i] && l[i..][1..] == l[i + 1..];
    assert l[..i] + ([l[i]] + Give(l[i + 1..], a, n)) == l[..i + 1] + Give(l[i + 1..], a, n);
  }

  lemma TakeStep(l: seq<Run>, i: nat, n: nat)
    requires i <= |l| && (i < |l| ==> l[i].count >= n)
    ensures Take(l[i..], n).0 == if i == |l| then None else Some(l[i].start)
    ensures l[..i] + Take(l[i..], n).1 ==
      if i == |l| then l
      else if l[i].count > n then l[..i] + [Run(l[i].start + n, l[i].count - n)] + l[i + 1..]
      else l[..i] + l[i + 1..]
  {
    if i < |l| {
      assert l[i..][0] == l[i] && l[i..][1..] == l[i + 1..];
    } else {
      assert l[..i] + [] == l;
    }
  }

  /** The place where the walk over the list ends decides what is joined. */
  lemma GiveStep(l: seq<Run>, i: nat, a: nat, n: nat)
    requires i <= |l|
    requires i < |l| ==> l[i].start > a + n || End(l[i]) == a || l[i].start == a + n
    ensures l[..i] + Give(l[i..], a, n) ==
      if i < |l| && End(l[i]) == a then
        if i + 1 < |l| && a + n == l[i + 1].start
        then l[..i] + [Run(l[i].start, l[i].count + n + l[i + 1].count)] + l[i + 2..]
        else l[..i] + [Run(l[i].start, l[i].count + n)] + l[i + 1..]
      else if i < |l| && l[i].start == a + n then l[..i] + [Run(a, n + l[i].count)] + l[i + 1..]
      else l[..i] + [Run(a, n)] + l[i..]
  {
    var t := l[i..];
    if i < |l| {
      assert t[0] == l[i] && t[1..] == l[i + 1..];
      if i + 1 < |l| { assert t[1] == l[i + 1] && t[2..] == l[i + 2..]; }
    }
  }
}
