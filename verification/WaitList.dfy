/** Lists of threads that wait at an IPC object (src/ipc.c), and what it takes for no
    wake-up to get lost: the threads waiting for one kind of resource, and those
    resumed for it that have not run since. */
module WaitList {
  import opened Lists

  type Tid = nat

  datatype Err = OK | ERROR | TIMEOUT | FULL

  // ------------------------------------------------------------- order of waiting

  function Prio(prio: map<Tid, int>, t: Tid): int { if t in prio then prio[t] else 0 }

  /** The time that is left of a timeout, after part of it has gone by. */
  function Rest(timeout: int, elapsed: nat): int
  {
    if timeout > 0 then (if timeout > elapsed then timeout - elapsed else 0) else timeout
  }

  /** Passes that take time one after the other leave what they leave together, never more
      than there was; a wait for ever stays one. */
  lemma RestAdds(timeout: int, a: nat, b: nat)
    ensures Rest(Rest(timeout, a), b) == Rest(timeout, a + b) <= timeout
    ensures timeout >= 0 ==> (Rest(timeout, a) == 0 <==> timeout <= a)
    ensures timeout < 0 ==> Rest(timeout, a) == timeout
    ensures 0 < a < timeout ==> Rest(timeout, a) + a == timeout
  {
  }

  /** Where a thread of priority p goes: before the first waiter that is less urgent. */
  function Place(list: seq<Tid>, prio: map<Tid, int>, p: int): (i: nat)
    ensures i <= |list|
    ensures forall k :: 0 <= k < i ==> Prio(prio, list[k]) <= p
    ensures i < |list| ==> p < Prio(prio, list[i])
  {
    if list == [] then 0
    else if p < Prio(prio, list[0]) then 0
    else
      var r := Place(list[1..], prio, p);
      assert forall k :: 0 < k < 1 + r ==> list[k] == list[1..][k - 1];
      1 + r
  }

  function Enqueue(list: seq<Tid>, t: Tid, prio: map<Tid, int>, fifo: bool): seq<Tid>
  {
    var i := if fifo then |list| else Place(list, prio, Prio(prio, t));
    list[..i] + [t] + list[i..]
  }

  /** Most urgent first. */
  predicate Sorted(list: seq<Tid>, prio: map<Tid, int>)
  {
    forall i, j :: 0 <= i < j < |list| ==> Prio(prio, list[i]) <= Prio(prio, list[j])
  }

  lemma EnqueueSorted(list: seq<Tid>, t: Tid, prio: map<Tid, int>)
    requires Sorted(list, prio)
    ensures Sorted(Enqueue(list, t, prio, false), prio)
  {
    var i := Place(list, prio, Prio(prio, t));
    var r := Enqueue(list, t, prio, false);
    forall a, b | 0 <= a < b < |r| ensures Prio(prio, r[a]) <= Prio(prio, r[b]) {
      if a < i && b > i { assert r[a] == list[a] && r[b] == list[b - 1]; }
      if a == i && b > i + 1 { assert r[b] == list[b - 1] && Prio(prio, list[i]) <= Prio(prio, list[b - 1]); }
    }
  }

  /** The newcomer overtakes nobody with the FIFO flag, and with the PRIO flag exactly those
      that are less urgent; the others keep their order. */
  lemma EnqueueOvertakes(list: seq<Tid>, t: Tid, prio: map<Tid, int>, fifo: bool) returns (i: nat)
    requires t !in list
    ensures i <= |list| && Enqueue(list, t, prio, fifo) == list[..i] + [t] + list[i..]
    ensures fifo ==> i == |list|
    ensures !fifo && Sorted(list, prio) ==> forall k :: 0 <= k < |list| ==> (k < i <==> Prio(prio, list[k]) <= Prio(prio, t))
  {
    i := if fifo then |list| else Place(list, prio, Prio(prio, t));
  }

  lemma EnqueueMembers(list: seq<Tid>, t: Tid, prio: map<Tid, int>, fifo: bool)
    ensures forall x :: x in Enqueue(list, t, prio, fifo) <==> x == t || x in list
    ensures Distinct(list) && t !in list ==> Distinct(Enqueue(list, t, prio, fifo))
    ensures Enqueue(list, t, prio, fifo) != []
  {
    var i := if fifo then |list| else Place(list, prio, Prio(prio, t));
    assert list == list[..i] + list[i..];
  }

  /** The search loop of rt_ipc_list_suspend. */
  method Suspend(list: seq<Tid>, t: Tid, prio: map<Tid, int>, fifo: bool) returns (r: seq<Tid>)
    ensures r == Enqueue(list, t, prio, fifo)
  {
    if fifo {
      return list + [t];
    }
    var n := 0;
    while n < |list| && !(Prio(prio, t) < Prio(prio, list[n]))
      invariant n <= |list| && forall k :: 0 <= k < n ==> Prio(prio, list[k]) <= Prio(prio, t)
    {
      n := n + 1;
    }
    PlaceIs(list, prio, Prio(prio, t), n);
    return list[..n] + [t] + list[n..];
  }

  lemma PlaceIs(list: seq<Tid>, prio: map<Tid, int>, p: int, n: nat)
    requires n <= |list| && forall k :: 0 <= k < n ==> Prio(prio, list[k]) <= p
    requires n < |list| ==> p < Prio(prio, list[n])
    ensures Place(list, prio, p) == n
  {
  }

  lemma {:induction false} WithoutDistinct(list: seq<Tid>, t: Tid)
    requires Distinct(list)
    ensures Distinct(Without(list, t))
  {
    if list != [] {
      WithoutDistinct(list[1..], t);
      var r, rest := Without(list, t), Without(list[1..], t);
      assert list[0] !in list[1..];
      if list[0] != t {
        forall i, j | 0 <= i < j < |r| ensures r[i] != r[j] {
          assert r[j] == rest[j - 1] && rest[j - 1] in rest;
        }
      }
    }
  }

  // ----------------------------------------------------------------- lost wake-ups

  /** One side of a channel: who waits, and who was resumed and has not run since. */
  datatype Side = Side(waiting: seq<Tid>, woken: set<Tid>)

  /** As long as anybody waits, what is there to take has been promised to somebody
      already resumed. */
  ghost predicate NoLost(avail: int, s: Side)
  {
    && Distinct(s.waiting) && (forall t :: t in s.waiting ==> t !in s.woken)
    && (s.waiting != [] ==> avail <= |s.woken|)
  }

  /** Resume the first waiter, if there is one. */
  function Wake(s: Side): Side
  {
    if s.waiting == [] then s else Side(s.waiting[1..], s.woken + {s.waiting[0]})
  }

  function Ran(s: Side, t: Tid): Side { s.(woken := s.woken - {t}) }

  lemma GiveKeeps(avail: int, s: Side)
    requires NoLost(avail, s)
    ensures NoLost(avail + 1, Wake(s))
  {
  }

  lemma TakeKeeps(avail: int, s: Side, t: Tid)
    requires NoLost(avail, s)
    ensures NoLost(avail - 1, Ran(s, t))
  {
  }

  /** A thread that finds nothing gives up. */
  lemma LeaveKeeps(s: Side, t: Tid)
    requires NoLost(0, s)
    ensures NoLost(0, Ran(s, t))
  {
  }

  /** A thread that finds nothing waits, perhaps again. */
  lemma WaitKeeps(s: Side, t: Tid, prio: map<Tid, int>, fifo: bool)
    requires NoLost(0, s) && t !in s.waiting
    ensures NoLost(0, Side(Enqueue(s.waiting, t, prio, fifo), s.woken - {t}))
  {
    EnqueueMembers(s.waiting, t, prio, fifo);
  }

  lemma ExpireKeeps(avail: int, s: Side, t: Tid)
    requires NoLost(avail, s)
    ensures NoLost(avail, s.(waiting := Without(s.waiting, t)))
  {
    WithoutDistinct(s.waiting, t);
  }

  lemma DrainKeeps(avail: int, s: Side)
    ensures NoLost(avail, s.(waiting := []))
  {
  }

  // -------------------------------------------------------- a thread is in one place

  predicate In(s: Side, t: Tid) { t in s.waiting || t in s.woken }

  ghost predicate Apart(a: Side, b: Side) { forall t {:trigger In(a, t)} {:trigger In(b, t)} :: !(In(a, t) && In(b, t)) }

  ghost predicate OutOf(a: Side, failed: map<Tid, Err>) { forall t {:trigger In(a, t)} :: In(a, t) ==> t !in failed }

  /** Nobody new but perhaps t. */
  ghost predicate Joined(s: Side, s': Side, t: Tid)
  {
    forall x {:trigger In(s', x)} :: In(s', x) ==> In(s, x) || x == t
  }

  ghost predicate Shrunk(s: Side, s': Side) { forall x {:trigger In(s', x)} :: In(s', x) ==> In(s, x) }

  lemma WakeShrinks(s: Side)
    ensures Shrunk(s, Wake(s))
  {
  }

  lemma RanShrinks(s: Side, t: Tid)
    ensures Shrunk(s, Ran(s, t))
  {
  }

  lemma WaitJoins(s: Side, t: Tid, prio: map<Tid, int>, fifo: bool)
    ensures Joined(s, Side(Enqueue(s.waiting, t, prio, fifo), s.woken - {t}), t)
  {
    EnqueueMembers(s.waiting, t, prio, fifo);
    hide Enqueue;
  }

  lemma DropShrinks(s: Side, w: seq<Tid>)
    requires forall t :: t in w ==> t in s.waiting
    ensures Shrunk(s, s.(waiting := w))
  {
  }

  lemma ShrunkSelf(s: Side)
    ensures Shrunk(s, s)
  {
  }

  lemma ApartShrunk(a: Side, b: Side, a': Side, b': Side)
    requires Apart(a, b) && Shrunk(a, a') && Shrunk(b, b')
    ensures Apart(a', b')
  {
  }

  lemma ApartJoined(a: Side, b: Side, a': Side, t: Tid)
    requires Apart(a, b) && Joined(a, a', t) && !In(b, t)
    ensures Apart(a', b) && Apart(b, a')
  {
  }

  lemma ApartSwap(a: Side, b: Side)
    requires Apart(a, b)
    ensures Apart(b, a)
  {
  }

  lemma OutShrunk(a: Side, a': Side, failed: map<Tid, Err>)
    requires OutOf(a, failed) && Shrunk(a, a')
    ensures OutOf(a', failed)
  {
  }

  lemma OutJoined(a: Side, a': Side, failed: map<Tid, Err>, t: Tid)
    requires OutOf(a, failed) && Joined(a, a', t) && t !in failed
    ensures OutOf(a', failed)
  {
  }

  // ----------------------------------------------------------------- error codes

  /** thread->error of everybody who waits, or was resumed in order, is RT_EOK. */
  ghost predicate AllOk(error: map<Tid, Err>, s: Side)
  {
    forall t {:trigger In(s, t)} :: In(s, t) ==> t in error && error[t] == OK
  }

  /** A thread that timed out or was thrown out finds that in thread->error. */
  ghost predicate Fails(error: map<Tid, Err>, failed: map<Tid, Err>)
  {
    forall t :: t in failed ==> t in error && error[t] == failed[t] && error[t] != OK
  }

  lemma OkWake(error: map<Tid, Err>, s: Side)
    requires AllOk(error, s)
    ensures AllOk(error, Wake(s))
  {
    WakeShrinks(s);
  }

  lemma OkRan(error: map<Tid, Err>, s: Side, t: Tid)
    requires AllOk(error, s)
    ensures AllOk(error, Ran(s, t))
  {
    RanShrinks(s, t);
  }

  lemma OkSet(error: map<Tid, Err>, s: Side, t: Tid)
    requires AllOk(error, s)
    ensures AllOk(error[t := OK], s)
  {
  }

  lemma OkWait(error: map<Tid, Err>, s: Side, t: Tid, prio: map<Tid, int>, fifo: bool)
    requires AllOk(error, s)
    ensures AllOk(error[t := OK], Side(Enqueue(s.waiting, t, prio, fifo), s.woken - {t}))
  {
    WaitJoins(s, t, prio, fifo);
    hide Enqueue, In;
  }

  lemma OkOther(error: map<Tid, Err>, s: Side, t: Tid, err: Err)
    requires AllOk(error, s) && !In(s, t)
    ensures AllOk(error[t := err], s)
  {
  }

  /** Nobody of a list waits any more. */
  lemma OkDropped(error: map<Tid, Err>, s: Side, w: seq<Tid>)
    requires AllOk(error, s) && forall t :: t in w ==> t in s.waiting
    ensures AllOk(error, s.(waiting := w))
  {
    DropShrinks(s, w);
  }

  lemma FailsOther(error: map<Tid, Err>, failed: map<Tid, Err>, t: Tid, err: Err)
    requires Fails(error, failed) && t !in failed
    ensures Fails(error[t := err], failed)
  {
  }

  /** Everybody on the list is resumed with an error. */
  function Failing(failed: map<Tid, Err>, list: seq<Tid>, err: Err): map<Tid, Err>
  {
    failed + map t | t in list :: err
  }

  lemma FailingOk(error: map<Tid, Err>, s: Side, list: seq<Tid>)
    requires AllOk(error, s) && forall t :: t in list ==> !In(s, t)
    ensures AllOk(Failing(error, list, ERROR), s)
  {
  }

  lemma FailingFails(error: map<Tid, Err>, failed: map<Tid, Err>, list: seq<Tid>)
    requires Fails(error, failed)
    ensures Fails(Failing(error, list, ERROR), Failing(failed, list, ERROR))
  {
  }

  function Left(s: Side, t: Tid): Side { s.(waiting := Without(s.waiting, t)) }

  function Drained(s: Side): Side { s.(waiting := []) }

  /** A thread whose timer fires waited on one side, and is then on neither. */
  lemma ExpirePlaces(a: Side, b: Side, failed: map<Tid, Err>, t: Tid, n: int, m: int)
    requires Apart(a, b) && OutOf(a, failed) && OutOf(b, failed) && NoLost(n, a) && NoLost(m, b)
    requires t in a.waiting || t in b.waiting
    ensures !In(Left(a, t), t) && !In(Left(b, t), t) && Apart(Left(a, t), Left(b, t))
    ensures OutOf(Left(a, t), failed[t := TIMEOUT]) && OutOf(Left(b, t), failed[t := TIMEOUT])
    ensures NoLost(n, Left(a, t)) && NoLost(m, Left(b, t))
  {
    assert In(a, t) || In(b, t);
    ExpireKeeps(n, a, t);
    ExpireKeeps(m, b, t);
    DropShrinks(a, Without(a.waiting, t));
    DropShrinks(b, Without(b.waiting, t));
    assert !In(Left(a, t), t) && !In(Left(b, t), t);
    hide NoLost, In, Left;
    ApartShrunk(a, b, Left(a, t), Left(b, t));
    OutShrunk(a, Left(a, t), failed);
    OutShrunk(b, Left(b, t), failed);
  }

  /** Everybody who waited is resumed with an error and is then on neither side. */
  lemma DrainPlaces(a: Side, b: Side, failed: map<Tid, Err>, n: int, m: int)
    requires Apart(a, b) && OutOf(a, failed) && OutOf(b, failed) && NoLost(n, a) && NoLost(m, b)
    ensures forall t :: t in a.waiting || t in b.waiting ==> !In(Drained(a), t) && !In(Drained(b), t)
    ensures Apart(Drained(a), Drained(b))
    ensures OutOf(Drained(a), Failing(Failing(failed, b.waiting, ERROR), a.waiting, ERROR))
    ensures OutOf(Drained(b), Failing(Failing(failed, b.waiting, ERROR), a.waiting, ERROR))
  {
    DropShrinks(a, []);
    DropShrinks(b, []);
    forall t | t in a.waiting || t in b.waiting ensures !In(Drained(a), t) && !In(Drained(b), t) {
      assert In(a, t) || In(b, t);
      assert In(a, t) ==> !In(b, t);
    }
    hide NoLost, Drained;
    ApartShrunk(a, b, Drained(a), Drained(b)) by { hide *; }
  }

  lemma OkExpire(error: map<Tid, Err>, a: Side, t: Tid)
    requires AllOk(error, a) && !In(Left(a, t), t)
    ensures AllOk(error[t := TIMEOUT], Left(a, t))
  {
    OkDropped(error, a, Without(a.waiting, t));
    OkOther(error, Left(a, t), t, TIMEOUT);
  }

  lemma OkDrain(error: map<Tid, Err>, a: Side, v: seq<Tid>, w: seq<Tid>)
    requires AllOk(error, a) && (forall t :: t in v || t in w ==> !In(Drained(a), t))
    ensures AllOk(Failing(Failing(error, v, ERROR), w, ERROR), Drained(a))
  {
    OkDropped(error, a, []);
    hide AllOk, In, Failing;
    FailingOk(error, Drained(a), v);
    FailingOk(Failing(error, v, ERROR), Drained(a), w);
  }

  /** rt_ipc_list_resume_all: everybody on the list gets an error and leaves it. */
  method ResumeAll(error: map<Tid, Err>, list: seq<Tid>) returns (r: map<Tid, Err>)
    ensures r == Failing(error, list, ERROR)
  {
    r := error;
    var i := 0;
    assert r == Failing(error, list[..0], ERROR);
    hide Failing;
    while i < |list|
      invariant i <= |list|
      invariant r == Failing(error, list[..i], ERROR)
    {
      FailingOne(error, list, i);
      r := r[list[i] := ERROR];
      i := i + 1;
    }
    assert list[..i] == list;
  }

  lemma FailingOne(error: map<Tid, Err>, list: seq<Tid>, i: nat)
    requires i < |list|
    ensures Failing(error, list[..i + 1], ERROR) == Failing(error, list[..i], ERROR)[list[i] := ERROR]
  {
    assert forall t :: t in list[..i + 1] <==> t in list[..i] || t == list[i];
  }
}
