/** Circular doubly linked lists as two pointer maps, and the sequence of their
    nodes in order. */
module Ring {
  import opened Lists

  /** In a ring of n nodes, j comes right behind i. */
  predicate Adj(i: int, j: int, n: int) { 0 <= i < n && 0 <= j < n && (j == i + 1 || (i == n - 1 && j == 0)) }

  /** Following `next` from s[0] visits s in order and comes back; `prev` goes the
      other way. */
  ghost predicate IsRing(next: map<int, int>, prev: map<int, int>, s: seq<int>)
  {
    && |s| > 0 && Distinct(s)
    && (forall x :: x in s ==> x in next && x in prev)
    && (forall i, j {:trigger Adj(i, j, |s|)} :: Adj(i, j, |s|) ==> next[s[i]] == s[j] && prev[s[j]] == s[i])
  }

  function Insert(s: seq<int>, i: nat, x: int): seq<int>
    requires i < |s|
  {
    s[..i + 1] + [x] + s[i + 1..]
  }

  function Remove(s: seq<int>, i: nat): seq<int>
    requires i < |s|
  {
    s[..i] + s[i + 1..]
  }

  lemma InsertAt(s: seq<int>, i: nat, x: int)
    requires i < |s|
    ensures |Insert(s, i, x)| == |s| + 1
    ensures forall k :: 0 <= k <= i ==> Insert(s, i, x)[k] == s[k]
    ensures Insert(s, i, x)[i + 1] == x
    ensures forall k :: i + 2 <= k <= |s| ==> Insert(s, i, x)[k] == s[k - 1]
  {
  }

  lemma RemoveAt(s: seq<int>, i: nat)
    requires i < |s|
    ensures |Remove(s, i)| == |s| - 1
    ensures forall k :: 0 <= k < i ==> Remove(s, i)[k] == s[k]
    ensures forall k :: i <= k < |s| - 1 ==> Remove(s, i)[k] == s[k + 1]
  {
  }

  lemma RemoveTwo(s: seq<int>, i: nat)
    requires i + 1 < |s|
    ensures Remove(Remove(s, i), i) == Remove(Remove(s, i + 1), i)
  {
  }

  lemma InsertRemove(s: seq<int>, i: nat, x: int)
    requires i + 1 < |s|
    ensures |Insert(s, i, x)| == |s| + 1 && Remove(Insert(s, i, x), i + 2) == Insert(Remove(s, i + 1), i, x)
  {
  }

  lemma DistinctRemove(s: seq<int>, i: nat)
    requires i < |s| && Distinct(s)
    ensures Distinct(Remove(s, i))
  {
  }

  lemma InsertMembers(s: seq<int>, i: nat, x: int)
    requires i < |s|
    ensures forall y :: y in Insert(s, i, x) <==> y in s || y == x
  {
    assert s == s[..i + 1] + s[i + 1..];
  }

  lemma RemoveMembers(s: seq<int>, i: nat)
    requires i < |s| && Distinct(s)
    ensures forall y :: y in Remove(s, i) <==> y in s && y != s[i]
  {
    var r := Remove(s, i);
    forall y | y in s && y != s[i] ensures y in r {
      var k :| 0 <= k < |s| && s[k] == y;
      assert r[if k < i then k else k - 1] == y;
    }
    assert forall k :: 0 <= k < |r| ==> r[k] == if k < i then s[k] else s[k + 1];
  }

  /** Linking a new node x between s[i] and the node behind it. */
  lemma InsertRing(next: map<int, int>, prev: map<int, int>, s: seq<int>, i: nat, x: int)
    requires IsRing(next, prev, s) && i < |s| && x !in s
    ensures s[i] in next && next[s[i]] in s
    ensures IsRing(next[x := next[s[i]]][s[i] := x], prev[x := s[i]][next[s[i]] := x], Insert(s, i, x))
  {
    var n, r := |s|, Insert(s, i, x);
    var e := if i + 1 == n then 0 else i + 1;
    assert Adj(i, e, n);
    var next', prev' := next[x := s[e]][s[i] := x], prev[x := s[i]][s[e] := x];
    InsertMembers(s, i, x);
    assert forall y :: y in r ==> y in next' && y in prev';
    forall j, k | Adj(j, k, n + 1) ensures r[j] in r && r[k] in r && next'[r[j]] == r[k] && prev'[r[k]] == r[j] {
      if j != i && k != i + 1 && j != i + 1 {
        var j0, k0 := if j <= i then j else j - 1, if k <= i then k else k - 1;
        assert Adj(j0, k0, n);
      }
    }
  }

  /** Unlinking s[i]. */
  lemma RemoveRing(next: map<int, int>, prev: map<int, int>, s: seq<int>, i: nat)
    requires IsRing(next, prev, s) && i < |s| && |s| > 1
    ensures s[i] in next && s[i] in prev && next[s[i]] in s && prev[s[i]] in s
    ensures IsRing(next[prev[s[i]] := next[s[i]]], prev[next[s[i]] := prev[s[i]]], Remove(s, i))
  {
    var n, r := |s|, Remove(s, i);
    var b, e := if i == 0 then n - 1 else i - 1, if i + 1 == n then 0 else i + 1;
    assert Adj(b, i, n) && Adj(i, e, n);
    var next', prev' := next[s[b] := s[e]], prev[s[e] := s[b]];
    RemoveMembers(s, i);
    RemoveAt(s, i);
    assert forall x :: x in r ==> x in next' && x in prev';
    forall j, k | Adj(j, k, n - 1) ensures r[j] in r && r[k] in r && next'[r[j]] == r[k] && prev'[r[k]] == r[j] {
      var j0, k0 := if j < i then j else j + 1, if k < i then k else k + 1;
      if j0 != b { assert Adj(j0, k0, n); }
    }
  }
}
