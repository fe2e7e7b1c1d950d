/** Recursive mutexes with priority inheritance (src/ipc.c). Each region with
    interrupts disabled is one step. */
module Mutex {
  import opened Lists
  import opened WaitList

  const HOLD_MAX := 255    // RT_MUTEX_HOLD_MAX
  const VALUE_MAX := 65535 // RT_MUTEX_VALUE_MAX
  const NONE := -1
  const NO_PRIORITY := 255

  datatype Outcome = Return(err: Err) | Blocked

  /** prio: the current priority of every thread; lower numbers are more urgent. */
  datatype State = State(fifo: bool, value: nat, owner: int, hold: nat, original: int, waiting: seq<Tid>,
                         prio: map<Tid, int>, failed: map<Tid, Err>)

  datatype Event =
    | Take(t: Tid, time: int)
    | Release(t: Tid)
    | Expire(t: Tid)
    | Leave(t: Tid)

  predicate Enabled(s: State, e: Event)
  {
    match e
    case Take(t, _) => t !in s.waiting && t !in s.failed && t in s.prio
    case Release(t) => t !in s.waiting && t in s.prio
    case Expire(t) => t in s.waiting
    case Leave(t) => t in s.failed
  }

  /** The owner is raised to the priority of a more urgent thread that starts to wait. */
  function Boost(s: State, t: Tid): map<Tid, int>
  {
    if s.owner >= 0 && Prio(s.prio, t) < Prio(s.prio, s.owner) then s.prio[s.owner := Prio(s.prio, t)] else s.prio
  }

  function TakeStep(s: State, t: Tid, time: int): State
  {
    if s.owner == t then (if s.hold < HOLD_MAX then s.(hold := s.hold + 1) else s)
    else if s.value > 0 then s.(value := s.value - 1, owner := t, original := Prio(s.prio, t), hold := s.hold + 1)
    else if time == 0 then s
    else s.(prio := Boost(s, t), waiting := Enqueue(s.waiting, t, Boost(s, t), s.fifo))
  }

  function TakeReply(s: State, t: Tid, time: int): Outcome
  {
    if s.owner == t then Return(if s.hold < HOLD_MAX then OK else FULL)
    else if s.value > 0 then Return(OK)
    else if time == 0 then Return(TIMEOUT)
    else Blocked
  }

  /** The last release gives the owner its old priority back, and the mutex to the first
      waiter, if there is one. */
  function ReleaseStep(s: State, t: Tid): State
  {
    if s.owner != t || s.hold == 0 then s
    else if s.hold > 1 then s.(hold := s.hold - 1)
    else
      var r := s.(prio := s.prio[t := s.original]);
      if s.waiting != [] then
        r.(owner := s.waiting[0], original := Prio(r.prio, s.waiting[0]), hold := 1, waiting := s.waiting[1..])
      else r.(value := s.value + 1, owner := NONE, original := NO_PRIORITY, hold := 0)
  }

  function Apply(s: State, e: Event): State
  {
    match e
    case Take(t, time) => TakeStep(s, t, time)
    case Release(t) => ReleaseStep(s, t)
    case Expire(t) => s.(waiting := Without(s.waiting, t), failed := s.failed[t := TIMEOUT])
    case Leave(t) => s.(failed := s.failed - {t})
  }

  // --------------------------------------------------------------------- ownership

  /** Free with nobody waiting, or held by one thread, one to 255 deep. */
  ghost predicate Owned(s: State)
  {
    && ((s.value == 1 && s.owner == NONE && s.hold == 0 && s.waiting == [])
        || (s.value == 0 && s.owner >= 0 && 1 <= s.hold <= HOLD_MAX))
    && Distinct(s.waiting) && (s.owner >= 0 ==> s.owner !in s.waiting && s.owner in s.prio)
    && (forall t :: t in s.waiting ==> t in s.prio && t !in s.failed)
  }

  lemma StepOwned(s: State, e: Event)
    requires Owned(s) && Enabled(s, e)
    ensures Owned(Apply(s, e))
  {
    match e
    case Take(t, time) => TakeOwned(s, t, time);
    case Release(t) =>
      hide Distinct;
      if s.waiting != [] { RestDistinct(s.waiting); }
    case Expire(t) =>
      WithoutDistinct(s.waiting, t);
      hide Distinct;
    case Leave(t) =>
  }

  lemma RestDistinct(list: seq<Tid>)
    requires Distinct(list) && list != []
    ensures Distinct(list[1..]) && list[0] !in list[1..]
  {
  }

  lemma TakeOwned(s: State, t: Tid, time: int)
    requires Owned(s) && Enabled(s, Take(t, time))
    ensures Owned(TakeStep(s, t, time))
  {
    EnqueueMembers(s.waiting, t, Boost(s, t), s.fifo);
    hide Enqueue, Distinct;
    if s.owner == t {
    } else if s.value > 0 {
    } else if time == 0 {
    } else {
    }
  }

  // -------------------------------------------------------------------- inheritance

  /** base: the priorities threads have when the mutex does not raise them. Only the
      owner's is changed, and only raised; the waiters stand in order of urgency and none
      is more urgent than the owner. */
  ghost predicate Inherits(s: State, base: map<Tid, int>)
  {
    && !s.fifo && Sorted(s.waiting, s.prio)
    && (forall t {:trigger Prio(s.prio, t)} :: t != s.owner ==> Prio(s.prio, t) == Prio(base, t))
    && (s.owner >= 0 ==> s.original == Prio(base, s.owner) && Prio(s.prio, s.owner) <= s.original)
    && (forall t :: t in s.waiting && s.owner >= 0 ==> Prio(s.prio, s.owner) <= Prio(s.prio, t))
  }

  /** Raising the owner does not touch the order of the waiters. */
  lemma SortedBoost(list: seq<Tid>, prio: map<Tid, int>, x: Tid, p: int)
    requires Sorted(list, prio) && x !in list
    ensures Sorted(list, prio[x := p])
  {
    forall i, j | 0 <= i < j < |list| ensures Prio(prio[x := p], list[i]) <= Prio(prio[x := p], list[j]) {
      assert Prio(prio[x := p], list[i]) == Prio(prio, list[i]);
      assert Prio(prio[x := p], list[j]) == Prio(prio, list[j]);
    }
  }

  lemma WaitInherits(s: State, base: map<Tid, int>, t: Tid)
    requires Inherits(s, base) && Owned(s) && s.value == 0 && t != s.owner && t !in s.waiting
    ensures Inherits(s.(prio := Boost(s, t), waiting := Enqueue(s.waiting, t, Boost(s, t), s.fifo)), base)
  {
    var prio := Boost(s, t);
    SortedBoost(s.waiting, s.prio, s.owner, Prio(s.prio, t));
    EnqueueSorted(s.waiting, t, prio);
    EnqueueMembers(s.waiting, t, prio, false);
    hide Enqueue, Sorted;
    assert forall x {:trigger Prio(prio, x)} :: x != s.owner ==> Prio(prio, x) == Prio(s.prio, x);
  }

  lemma ReleaseInherits(s: State, base: map<Tid, int>, t: Tid)
    requires Inherits(s, base) && Owned(s) && s.owner == t && s.hold == 1
    ensures Inherits(ReleaseStep(s, t), base)
    ensures forall x {:trigger Prio(base, x)} :: Prio(ReleaseStep(s, t).prio, x) == Prio(base, x)
  {
    var prio := s.prio[t := s.original];
    SortedBoost(s.waiting, s.prio, t, s.original);
    forall x ensures Prio(prio, x) == Prio(base, x) {
      assert x != t ==> Prio(prio, x) == Prio(s.prio, x);
    }
  }

  lemma ExpireInherits(s: State, base: map<Tid, int>, t: Tid)
    requires Inherits(s, base)
    ensures Inherits(Apply(s, Expire(t)), base)
  {
    WithoutSorted(s.waiting, t, s.prio);
  }

  lemma {:induction false} WithoutSorted(list: seq<Tid>, t: Tid, prio: map<Tid, int>)
    requires Sorted(list, prio)
    ensures Sorted(Without(list, t), prio)
  {
    if list != [] {
      WithoutSorted(list[1..], t, prio);
      var r, rest := Without(list, t), Without(list[1..], t);
      if list[0] != t {
        forall i, j | 0 <= i < j < |r| ensures Prio(prio, r[i]) <= Prio(prio, r[j]) {
          assert r[j] == rest[j - 1] && rest[j - 1] in list[1..];
          var k :| 0 <= k < |list[1..]| && list[1..][k] == rest[j - 1];
          assert list[k + 1] == r[j];
        }
      }
    }
  }

  lemma StepInherits(s: State, base: map<Tid, int>, e: Event)
    requires Inherits(s, base) && Owned(s) && Enabled(s, e)
    ensures Inherits(Apply(s, e), base)
  {
    match e
    case Take(t, time) =>
      if s.owner != t && s.value == 0 && time != 0 { WaitInherits(s, base, t); }
    case Release(t) =>
      if s.owner == t && s.hold == 1 { ReleaseInherits(s, base, t); }
    case Expire(t) => ExpireInherits(s, base, t);
    case Leave(t) =>
  }

  // ------------------------------------------------------------------- every run

  function Start(fifo: bool, prio: map<Tid, int>): State
  {
    State(fifo, 1, NONE, 0, NO_PRIORITY, [], prio, map[])
  }

  predicate CanRun(s: State, es: seq<Event>)
    decreases es
  {
    es == [] || (Enabled(s, es[0]) && CanRun(Apply(s, es[0]), es[1..]))
  }

  function Run(s: State, es: seq<Event>): State
    requires CanRun(s, es)
    decreases es
  {
    if es == [] then s else Run(Apply(s, es[0]), es[1..])
  }

  lemma {:induction false} RunOwned(s: State, es: seq<Event>)
    requires Owned(s) && CanRun(s, es)
    ensures Owned(Run(s, es))
    decreases es
  {
    if es != [] {
      hide Owned, Apply;
      StepOwned(s, es[0]);
      RunOwned(Apply(s, es[0]), es[1..]);
    }
  }

  lemma {:induction false} RunInherits(s: State, base: map<Tid, int>, es: seq<Event>)
    requires Owned(s) && Inherits(s, base) && CanRun(s, es)
    ensures Inherits(Run(s, es), base)
    decreases es
  {
    if es != [] {
      hide Owned, Inherits, Apply;
      StepOwned(s, es[0]);
      StepInherits(s, base, es[0]);
      RunInherits(Apply(s, es[0]), base, es[1..]);
    }
  }

  /** In every state that any run of takes, releases and timeouts reaches, the mutex is
      free with nobody waiting or held by one thread. */
  lemma OwnershipInEveryRun(fifo: bool, prio: map<Tid, int>, es: seq<Event>)
    requires CanRun(Start(fifo, prio), es)
    ensures var s := Run(Start(fifo, prio), es);
            || (s.value == 1 && s.owner == NONE && s.hold == 0 && s.waiting == [])
            || (s.value == 0 && s.owner >= 0 && 1 <= s.hold <= HOLD_MAX)
  {
    RunOwned(Start(fifo, prio), es);
  }

  /** With the PRIO flag, and priorities that only this mutex changes: the waiters are
      sorted, the owner is at least as urgent as each, every other thread has the priority
      it began with, and so has everybody once the mutex is free. */
  lemma InheritanceInEveryRun(prio: map<Tid, int>, es: seq<Event>, t: Tid)
    requires CanRun(Start(false, prio), es)
    ensures var s := Run(Start(false, prio), es);
            && Sorted(s.waiting, s.prio)
            && (t in s.waiting && s.owner >= 0 ==> Prio(s.prio, s.owner) <= Prio(s.prio, t))
            && (t != s.owner ==> Prio(s.prio, t) == Prio(prio, t))
            && (s.owner == t ==> Prio(s.prio, t) <= Prio(prio, t) && s.original == Prio(prio, t))
  {
    assert Inherits(Start(false, prio), prio);
    RunInherits(Start(false, prio), prio, es);
  }

  // ------------------------------------------------------------- what answers mean

  function ReleaseReply(s: State, t: Tid): Outcome { Return(if s.owner == t then OK else ERROR) }

  /** What a thread that takes the mutex learns from the answer. OK: it was free or the
      caller's own, and the caller now owns it one deeper. FULL: it is the caller's own,
      255 deep, and nothing changed. TIMEOUT: it is somebody else's, the caller would not
      wait, and nothing changed. No answer: it is somebody else's, and the caller waits. */
  lemma TakeMeans(s: State, t: Tid, time: int)
    requires Owned(s) && Enabled(s, Take(t, time))
    ensures var s', r := TakeStep(s, t, time), TakeReply(s, t, time);
            && (r == Return(OK) ==> (s.owner == t || s.owner == NONE) && s'.owner == t && s'.hold == s.hold + 1)
            && (r == Return(FULL) ==> s' == s && s.owner == t && s.hold == 255)
            && (r == Return(TIMEOUT) ==> s' == s && s.owner >= 0 && s.owner != t && time == 0)
            && (r == Blocked ==> s'.owner == s.owner >= 0 && s.owner != t && s'.hold == s.hold && time != 0)
            && (r == Blocked <==> t in s'.waiting) && (r != Blocked ==> s'.waiting == s.waiting && s'.prio == s.prio)
            && (r == Return(OK) <==> s'.owner == t && s'.hold > if s.owner == t then s.hold else 0)
            && s'.failed == s.failed
  {
    EnqueueMembers(s.waiting, t, Boost(s, t), s.fifo);
    hide Enqueue, Distinct;
  }

  /** OK exactly if the caller owns the mutex, one deeper than before; FULL and TIMEOUT
      leave everything as it was; no answer exactly if the caller waits. */
  ghost predicate Answered(s: State, s': State, t: Tid, r: Outcome)
  {
    && (r == Return(OK) <==> s'.owner == t && s'.hold == (if s.owner == t then s.hold else 0) + 1)
    && (r == Return(FULL) || r == Return(TIMEOUT) ==> s' == s) && (r == Blocked <==> t in s'.waiting)
  }

  lemma TakeTells(s: State, t: Tid, time: int)
    requires Owned(s) && Enabled(s, Take(t, time))
    ensures Answered(s, TakeStep(s, t, time), t, TakeReply(s, t, time))
  {
    TakeMeans(s, t, time);
    hide TakeStep, TakeReply, Distinct;
  }

  /** A waiting thread lends the owner its priority if that is the more urgent one, and
      changes no other priority. */
  lemma WaitLends(s: State, t: Tid, time: int, x: Tid)
    requires Owned(s) && Enabled(s, Take(t, time)) && TakeReply(s, t, time) == Blocked
    ensures var p := Prio(TakeStep(s, t, time).prio, x);
            && (x != s.owner ==> p == Prio(s.prio, x))
            && (x == s.owner ==> p <= Prio(s.prio, x) && p <= Prio(s.prio, t) && (p == Prio(s.prio, x) || p == Prio(s.prio, t)))
  {
  }

  /** OK: the mutex was the caller's, which is one less deep; after the last release it is
      the first waiter's, or free. ERROR: it was not the caller's, and nothing changed. */
  lemma ReleaseMeans(s: State, t: Tid)
    requires Owned(s) && Enabled(s, Release(t))
    ensures var s', r := ReleaseStep(s, t), ReleaseReply(s, t);
            && (r == Return(OK) <==> s.owner == t) && (r != Return(OK) ==> s' == s && r == Return(ERROR))
            && (s.owner == t && s.hold > 1 ==> s' == s.(hold := s.hold - 1))
            && (s.owner == t && s.hold == 1 ==> Prio(s'.prio, t) == s.original)
            && (s.owner == t && s.hold == 1 && s.waiting != [] ==>
                  s'.owner == s.waiting[0] && s'.hold == 1 && s'.waiting == s.waiting[1..] && s'.original == Prio(s'.prio, s'.owner))
            && (s.owner == t && s.hold == 1 && s.waiting == [] ==> s'.owner == NONE && s'.hold == 0 && s'.value == 1)
            && s'.failed == s.failed
  {
  }

  /** A thread whose timer fires is off the list and resumed with TIMEOUT; the owner keeps
      the mutex and the priority it was lent. */
  lemma ExpireMeans(s: State, t: Tid, x: Tid)
    requires Owned(s) && Enabled(s, Expire(t))
    ensures var s' := Apply(s, Expire(t));
            && (x in s'.waiting <==> x in s.waiting && x != t) && t in s'.failed && s'.failed[t] == TIMEOUT
            && s'.owner == s.owner && s'.hold == s.hold && s'.prio == s.prio && s'.value == s.value
  {
  }

  // ------------------------------------------------------------------- counting takes

  /** A waiting thread has been let in: it has left the list, and not by its timer. */
  predicate LetIn(s: State, s': State, t: Tid) { t in s.waiting && t !in s'.waiting && t !in s'.failed }

  /** By how much the step changes what `t` has taken and not released: one more for a take
      answered OK or for being let in, one less for a release answered OK. */
  function Change(s: State, e: Event, t: Tid): int
  {
    (if e.Take? && e.t == t && TakeReply(s, t, e.time) == Return(OK) then 1 else 0) -
    (if e.Release? && e.t == t && ReleaseReply(s, t) == Return(OK) then 1 else 0) +
    (if LetIn(s, Apply(s, e), t) then 1 else 0)
  }

  /** The takes of `t` in the run, less its releases. */
  function Taken(s: State, es: seq<Event>, t: Tid): int
    requires CanRun(s, es)
    decreases es
  {
    if es == [] then 0 else Change(s, es[0], t) + Taken(Apply(s, es[0]), es[1..], t)
  }

  function Depth(s: State, t: Tid): nat { if s.owner == t then s.hold else 0 }

  lemma StepCounts(s: State, e: Event, t: Tid)
    requires Owned(s) && Enabled(s, e)
    ensures Depth(Apply(s, e), t) == Depth(s, t) + Change(s, e, t)
  {
    match e
    case Take(x, time) =>
      TakeMeans(s, x, time);
      NobodyLetIn(s, x, time, t);
      hide Enqueue, Distinct, TakeStep, TakeReply;
    case Release(x) =>
      if s.owner == x && s.hold == 1 && s.waiting != [] {
        RestDistinct(s.waiting);
        hide Distinct;
        assert s.waiting == [s.waiting[0]] + s.waiting[1..];
      }
    case Expire(x) =>
    case Leave(x) =>
  }

  lemma NobodyLetIn(s: State, x: Tid, time: int, t: Tid)
    requires Owned(s) && Enabled(s, Take(x, time))
    ensures !LetIn(s, TakeStep(s, x, time), t)
  {
    EnqueueMembers(s.waiting, x, Boost(s, x), s.fifo);
    hide Enqueue, Distinct;
  }

  lemma {:induction false} CountsFrom(s: State, es: seq<Event>, t: Tid)
    requires Owned(s) && CanRun(s, es)
    ensures Depth(Run(s, es), t) == Depth(s, t) + Taken(s, es, t)
    decreases es
  {
    if es != [] {
      hide Owned, Apply, Change;
      StepOwned(s, es[0]);
      StepCounts(s, es[0], t);
      CountsFrom(Apply(s, es[0]), es[1..], t);
    }
  }

  /** In every run, with either flag: the depth of the mutex is what its owner has taken and
      not released, and nobody else has anything of it. */
  lemma HoldCountsTakes(fifo: bool, prio: map<Tid, int>, es: seq<Event>, t: Tid)
    requires CanRun(Start(fifo, prio), es)
    ensures var s, n := Run(Start(fifo, prio), es), Taken(Start(fifo, prio), es, t);
            n == (if s.owner == t then s.hold else 0) && 0 <= n <= 255
  {
    RunOwned(Start(fifo, prio), es);
    CountsFrom(Start(fifo, prio), es, t);
    hide Run, CanRun, Taken;
  }

  /** So no two threads are inside at once, and a thread that asks is answered OK, other than
      for a mutex of its own, exactly when nobody is inside. */
  lemma OneInside(fifo: bool, prio: map<Tid, int>, es: seq<Event>, t: Tid, u: Tid, time: int)
    requires CanRun(Start(fifo, prio), es) && t != u
    ensures var s0 := Start(fifo, prio); var s := Run(s0, es);
            && (Taken(s0, es, t) == 0 || Taken(s0, es, u) == 0)
            && (Enabled(s, Take(u, time)) && TakeReply(s, u, time) == Return(OK) ==> Taken(s0, es, t) == 0)
            && (Enabled(s, Take(u, time)) && (forall x :: Taken(s0, es, x) == 0) ==> TakeReply(s, u, time) == Return(OK))
  {
    var s0 := Start(fifo, prio);
    HoldCountsTakes(fifo, prio, es, t);
    HoldCountsTakes(fifo, prio, es, u);
    RunOwned(s0, es);
    var s := Run(s0, es);
    if s.owner >= 0 { HoldCountsTakes(fifo, prio, es, s.owner); }
    if Enabled(s, Take(u, time)) { TakeMeans(s, u, time); }
    hide Run, CanRun, Taken, Distinct;
  }

  // --------------------------------------------------------------- priorities, exactly

  /** The most urgent of the owner and of those who have begun to wait since it became the
      owner, after one step more. */
  function LentNext(s: State, base: map<Tid, int>, lent: int, e: Event): int
  {
    var s' := Apply(s, e);
    if s'.owner >= 0 && s'.owner != s.owner then Prio(base, s'.owner)
    else if e.Take? && TakeReply(s, e.t, e.time) == Blocked && Prio(base, e.t) < lent then Prio(base, e.t)
    else lent
  }

  function Lent(s: State, base: map<Tid, int>, lent: int, es: seq<Event>): int
    requires CanRun(s, es)
    decreases es
  {
    if es == [] then lent else Lent(Apply(s, es[0]), base, LentNext(s, base, lent, es[0]), es[1..])
  }

  ghost predicate Lends(s: State, base: map<Tid, int>, lent: int)
  {
    && (forall t {:trigger Prio(s.prio, t)} :: t != s.owner ==> Prio(s.prio, t) == Prio(base, t))
    && (s.owner >= 0 ==> s.original == Prio(base, s.owner) && Prio(s.prio, s.owner) == lent)
  }

  lemma StepLends(s: State, base: map<Tid, int>, lent: int, e: Event)
    requires Owned(s) && Lends(s, base, lent) && Enabled(s, e)
    ensures Lends(Apply(s, e), base, LentNext(s, base, lent, e))
  {
    match e
    case Take(t, time) =>
      hide Enqueue, Distinct;
      var p := Apply(s, e).prio;
      forall x | x != s.owner ensures Prio(p, x) == Prio(base, x) { assert Prio(p, x) == Prio(s.prio, x); }
    case Release(t) =>
      hide Distinct;
      if s.owner == t && s.hold == 1 {
        var prio := s.prio[t := s.original];
        forall x ensures Prio(prio, x) == Prio(base, x) { assert x != t ==> Prio(prio, x) == Prio(s.prio, x); }
      }
    case Expire(t) => hide Distinct;
    case Leave(t) => hide Distinct;
  }

  lemma {:induction false} LendsFrom(s: State, base: map<Tid, int>, lent: int, es: seq<Event>)
    requires Owned(s) && Lends(s, base, lent) && CanRun(s, es)
    ensures Lends(Run(s, es), base, Lent(s, base, lent, es))
    decreases es
  {
    if es != [] {
      hide Owned, Apply, Lends, LentNext;
      StepOwned(s, es[0]);
      StepLends(s, base, lent, es[0]);
      LendsFrom(Apply(s, es[0]), base, LentNext(s, base, lent, es[0]), es[1..]);
    }
  }

  /** In every run, with either flag and priorities that only this mutex changes: the owner
      is exactly as urgent as the most urgent of itself and of those who have begun to wait
      since it became the owner, also those who have given up; everybody else is as urgent
      as they began. */
  lemma PriorityExactly(fifo: bool, prio: map<Tid, int>, es: seq<Event>, t: Tid)
    requires CanRun(Start(fifo, prio), es)
    ensures var s := Run(Start(fifo, prio), es);
            Prio(s.prio, t) == if t == s.owner then Lent(Start(fifo, prio), prio, NO_PRIORITY, es) else Prio(prio, t)
  {
    LendsFrom(Start(fifo, prio), prio, NO_PRIORITY, es);
    hide Run, CanRun, Lent;
  }

  // -------------------------------------------------------------------- the object

  lemma OwnedFacts(s: State)
    requires Owned(s)
    ensures s.owner >= 0 ==> s.owner in s.prio
    ensures s.hold <= HOLD_MAX && (s.value > 0 ==> s.hold == 0 && s.owner == NONE) && (s.value == 0 ==> s.owner >= 0 && s.hold >= 1)
    ensures s.waiting != [] ==> s.waiting[0] in s.prio && s.waiting[0] != s.owner
    ensures s.value <= 1
  {
  }

  lemma ErrorsTake(error: map<Tid, Err>, waiting: seq<Tid>, failed: map<Tid, Err>, t: Tid, prio: map<Tid, int>, fifo: bool)
    requires AllOk(error, Side(waiting, {})) && Fails(error, failed) && t !in failed && t !in waiting
    ensures Fails(error[t := OK], failed) && AllOk(error[t := OK], Side(waiting, {}))
    ensures Fails(error[t := TIMEOUT], failed) && AllOk(error[t := TIMEOUT], Side(waiting, {}))
    ensures AllOk(error[t := OK], Side(Enqueue(waiting, t, prio, fifo), {}))
  {
    hide AllOk, Fails, Enqueue;
    OkSet(error, Side(waiting, {}), t);
    OkOther(error, Side(waiting, {}), t, TIMEOUT);
    OkWait(error, Side(waiting, {}), t, prio, fifo);
    var none: set<Tid> := {};
    assert none - {t} == none;
    FailsOther(error, failed, t, OK);
    FailsOther(error, failed, t, TIMEOUT);
  }

  lemma ErrorsRelease(error: map<Tid, Err>, waiting: seq<Tid>, failed: map<Tid, Err>, t: Tid)
    requires AllOk(error, Side(waiting, {})) && Fails(error, failed) && t !in failed && t !in waiting
    ensures Fails(error[t := ERROR], failed) && AllOk(error[t := ERROR], Side(waiting, {}))
    ensures waiting != [] ==> AllOk(error, Side(waiting[1..], {}))
  {
    OkOther(error, Side(waiting, {}), t, ERROR);
    FailsOther(error, failed, t, ERROR);
    if waiting != [] { OkDropped(error, Side(waiting, {}), waiting[1..]); }
  }

  lemma ErrorsExpire(error: map<Tid, Err>, waiting: seq<Tid>, failed: map<Tid, Err>, t: Tid)
    requires AllOk(error, Side(waiting, {})) && Fails(error, failed)
    ensures Fails(error[t := TIMEOUT], failed[t := TIMEOUT]) && AllOk(error[t := TIMEOUT], Side(Without(waiting, t), {}))
  {
    OkDropped(error, Side(waiting, {}), Without(waiting, t));
    OkOther(error, Side(Without(waiting, t), {}), t, TIMEOUT);
  }

  class Lock {
    const fifo: bool
    var value: nat
    var owner: int
    var hold: nat
    var original: int
    var waiting: seq<Tid>
    var prio: map<Tid, int>
    var error: map<Tid, Err>  // thread->error
    ghost var failed: map<Tid, Err>

    ghost function V(): State
      reads this
    {
      State(fifo, value, owner, hold, original, waiting, prio, failed)
    }

    ghost predicate Valid()
      reads this
    {
      && Owned(V())
      && AllOk(error, Side(waiting, {})) && Fails(error, failed)
    }

    constructor (fifo: bool, prio: map<Tid, int>)
      ensures Valid() && V() == Start(fifo, prio)
    {
      this.fifo, this.prio := fifo, prio;
      value, owner, original, hold, waiting := 1, NONE, NO_PRIORITY, 0, [];
      error, failed := map[], map[];
    }

    /** rt_mutex_take up to the point where the thread waits. */
    method Take(t: Tid, time: int) returns (r: Outcome)
      requires Valid() && Enabled(V(), Event.Take(t, time))
      modifies this
      ensures Valid() && V() == Apply(old(V()), Event.Take(t, time)) && r == TakeReply(old(V()), t, time)
      ensures Answered(old(V()), V(), t, r)
    {
      hide Owned, Enqueue, AllOk, Fails, Answered;
      TakeOwned(V(), t, time);
      OwnedFacts(V());
      ErrorsTake(error, waiting, failed, t, Boost(V(), t), fifo);
      error := error[t := OK];
      if owner == t {
        if hold < HOLD_MAX {
          hold := hold + 1;
          r := Return(OK);
        } else {
          r := Return(FULL);
        }
      } else if value > 0 {
        value := value - 1;
        owner := t;
        original := prio[t];
        assert hold < HOLD_MAX;
        hold := hold + 1;
        r := Return(OK);
      } else if time == 0 {
        assert error[t := TIMEOUT] == old(error)[t := TIMEOUT];
        error := error[t := TIMEOUT];
        r := Return(TIMEOUT);
      } else {
        if prio[t] < prio[owner] {
          prio := prio[owner := prio[t]];
        }
        waiting := Suspend(waiting, t, prio, fifo);
        r := Blocked;
      }
      TakeTells(old(V()), t, time);
    }

    /** The thread runs again: it was made the owner, or its timer fired. */
    method TakeAgain(t: Tid) returns (r: Outcome)
      requires Valid() && (owner == t || t in failed) && t in error && (t !in failed ==> error[t] == OK)
      modifies `failed
      ensures Valid() && V() == (if t in old(failed) then Apply(old(V()), Leave(t)) else old(V()))
      ensures r == Return(if t in old(failed) then old(failed)[t] else OK)
    {
      r := Return(error[t]);
      failed := failed - {t};
    }

    /** rt_mutex_release */
    method Release(t: Tid) returns (r: Outcome)
      requires Valid() && Enabled(V(), Event.Release(t)) && t !in failed
      modifies this
      ensures Valid() && V() == Apply(old(V()), Event.Release(t))
      ensures r == Return(if old(owner) == t then OK else ERROR)
      ensures old(owner) == t && old(hold) == 1 && old(waiting) != [] ==> owner == old(waiting)[0] && hold == 1
    {
      hide Owned, AllOk, Fails;
      StepOwned(V(), Event.Release(t));
      OwnedFacts(V());
      ErrorsRelease(error, waiting, failed, t);
      if t != owner {
        error := error[t := ERROR];
        return Return(ERROR);
      }
      hold := hold - 1;
      if hold == 0 {
        if original != prio[owner] {
          prio := prio[owner := original];
        }
        assert prio == old(prio)[t := original];
        if waiting != [] {
          var next := waiting[0];
          owner := next;
          original := prio[next];
          assert hold < HOLD_MAX;
          hold := hold + 1;
          waiting := waiting[1..];
        } else {
          assert value < VALUE_MAX;
          value := value + 1;
          owner, original := NONE, NO_PRIORITY;
        }
      }
      return Return(OK);
    }

    /** The timer of a waiting thread fires. */
    method Expire(t: Tid)
      requires Valid() && Enabled(V(), Event.Expire(t))
      modifies this
      ensures Valid() && V() == Apply(old(V()), Event.Expire(t))
    {
      hide Owned, AllOk, Fails;
      StepOwned(V(), Event.Expire(t));
      ErrorsExpire(error, waiting, failed, t);
      error := error[t := TIMEOUT];
      failed := failed[t := TIMEOUT];
      waiting := Without(waiting, t);
    }
  }
}
