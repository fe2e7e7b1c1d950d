/** What the thread calls do (src/thread.c, src/scheduler.c), told by the fields of the
    threads and by the lists, for every state in which each thread is where it belongs. */
module ThreadEffects {
  import opened Lists
  import opened WaitList
  import opened Scheduler
  import opened ThreadCalls

  // ------------------------------------------------------------------------- frames

  /** Nothing but `t` has changed: the others have their fields, their places and their
      order. */
  ghost predicate OthersStay(v: View, w: View, t: Tid)
  {
    && w.max == v.max && w.lock == v.lock && w.calls == v.calls && |w.ready| == |v.ready| && w.threads.Keys == v.threads.Keys
    && (forall x :: x in v.threads && x != t ==> w.threads[x] == v.threads[x])
    && (forall p :: 0 <= p < |v.ready| ==> Without(w.ready[p], t) == Without(v.ready[p], t))
    && w.waiting - {t} == v.waiting - {t} && Without(w.defunct, t) == Without(v.defunct, t) && w.out - {t} == v.out - {t}
  }

  ghost predicate InNoList(v: View, t: Tid)
  {
    (forall p :: 0 <= p < |v.ready| ==> t !in v.ready[p]) && t !in v.waiting && t !in v.defunct
  }

  lemma {:induction false} WithoutLast(l: seq<Tid>, t: Tid)
    ensures Without(l + [t], t) == Without(l, t)
  {
    if l == [] {
      assert [] + [t] == [t];
    } else {
      WithoutLast(l[1..], t);
      assert (l + [t])[0] == l[0] && (l + [t])[1..] == l[1..] + [t];
    }
  }

  lemma WithoutTwice(l: seq<Tid>, t: Tid)
    ensures Without(Without(l, t), t) == Without(l, t)
  {
    WithoutAbsent(Without(l, t), t);
  }

  lemma OutIs(v: View, t: Tid)
    requires Placed(v) && t in v.threads
    ensures v.threads[t].prio < |v.ready| == v.max && OthersStay(v, Out(v, t), t) && InNoList(Out(v, t), t)
    ensures !Listed(v, t) ==> Out(v, t).ready == v.ready
  {
    assert OkAt(v, t);
    var p, o := v.threads[t].prio, Out(v, t);
    WithoutTwice(v.ready[p], t);
    WithoutTwice(v.defunct, t);
    forall q | 0 <= q < |v.ready| ensures t !in o.ready[q] { assert InList(v.ready, q, t) ==> q == p; }
    if !Listed(v, t) { WithoutAbsent(v.ready[p], t); }
    hide Placed, Without;
  }

  // ------------------------------------------------------------- suspend and resume

  lemma SuspendMeans(v: View, t: Tid)
    requires Placed(v) && t in v.threads
    ensures Shaped(v)
    ensures var w, th := Apply(v, Suspend(t)), v.threads[t];
            if th.stat == READY || th.stat == RUNNING then
              && w.threads[t] == Thread(SUSPEND, th.yielding, th.prio, th.initPrio, false)
              && InNoList(w, t) && OthersStay(v, w, t) && w.current == v.current
            else w == v
  {
    PlacedShape(v);
    OutIs(v, t);
    hide Placed, Out, Without;
  }

  /** A suspended thread is made ready behind those of its priority. */
  lemma ResumeMeans(v: View, t: Tid)
    requires Placed(v) && t in v.threads
    ensures Shaped(v)
    ensures var w, th := Apply(v, Resume(t)), v.threads[t];
            if th.stat == SUSPEND then
              && w.threads[t] == Thread(if t == v.current then RUNNING else READY, th.yielding, th.prio, th.initPrio, false)
              && w.ready == (if t == v.current then v.ready else v.ready[th.prio := v.ready[th.prio] + [t]])
              && t !in w.waiting && OthersStay(v, w, t) && w.current == v.current
            else w == v
  {
    PlacedShape(v);
    OutIs(v, t);
    assert OkAt(v, t);
    if v.threads[t].stat == SUSPEND {
      WithoutLast(v.ready[v.threads[t].prio], t);
      hide Placed, Without;
    }
  }

  lemma StartupMeans(v: View, t: Tid)
    requires Placed(v) && Callable(v, Startup(t))
    ensures Shaped(v)
    ensures var w, th := Apply(v, Startup(t)), v.threads[t];
            && w.threads[t] == Thread(READY, false, th.initPrio, th.initPrio, false)
            && w.ready == v.ready[th.initPrio := v.ready[th.initPrio] + [t]] && OthersStay(v, w, t) && w.current == v.current
  {
    PlacedShape(v);
    assert OkAt(v, t);
    var u := With(v, t, Prepared(v.threads[t]));
    PreparedKeeps(v, t);
    ResumeMeans(u, t);
    hide Placed, Without, ResumeStep;
  }

  lemma SleepMeans(v: View)
    requires Placed(v) && Callable(v, Sleep) && v.threads[v.current].stat == RUNNING
    ensures Shaped(v)
    ensures var w, t, th := Apply(v, Sleep), v.current, v.threads[v.current];
            && w.threads[t] == Thread(SUSPEND, th.yielding, th.prio, th.initPrio, true)
            && InNoList(w, t) && OthersStay(v, w, t) && w.current == t
  {
    SuspendMeans(v, v.current);
    hide Placed, Without, SuspendStep;
  }

  lemma BlockMeans(v: View, timed: bool)
    requires Placed(v) && Callable(v, Block(timed)) && v.threads[v.current].stat == RUNNING
    ensures Shaped(v)
    ensures var w, t, th := Apply(v, Block(timed)), v.current, v.threads[v.current];
            && w.threads[t] == Thread(SUSPEND, th.yielding, th.prio, th.initPrio, timed)
            && t in w.waiting && (forall p :: 0 <= p < |w.ready| ==> t !in w.ready[p]) && OthersStay(v, w, t) && w.current == t
  {
    SuspendMeans(v, v.current);
    hide Placed, Without, SuspendStep;
  }

  // ------------------------------------------------------------------------ priority

  /** The priority changes and nothing else of the thread; a ready one goes behind those of
      its new priority, also if that is its old one. */
  lemma PriorityMeans(v: View, t: Tid, prio: nat)
    requires Placed(v) && t in v.threads && prio < v.max
    ensures Shaped(v)
    ensures var w, th := Apply(v, SetPriority(t, prio)), v.threads[t];
            && w.threads[t] == Thread(th.stat, th.yielding, prio, th.initPrio, th.timer)
            && (th.stat != READY ==> w.ready == v.ready)
            && (th.stat == READY ==> w.ready[prio] == Without(v.ready[prio], t) + [t])
            && (th.stat == READY && th.prio != prio ==> t !in w.ready[th.prio])
            && w.current == v.current && OthersStay(v, w, t)
  {
    hide Placed, Without, SetPriorityStep, OthersStay, CallsOk;
    PlacedShape(v);
    if v.threads[t].stat == READY { ReadyPriority(v, t, prio); } else { OtherPriority(v, t, prio); }
  }

  lemma OtherPriority(v: View, t: Tid, prio: nat)
    requires Placed(v) && t in v.threads && prio < v.max && v.threads[t].stat != READY
    ensures Shaped(v)
    ensures var w := SetPriorityStep(v, t, prio);
            w.threads[t] == v.threads[t].(prio := prio) && w.ready == v.ready && w.current == v.current && OthersStay(v, w, t)
  {
    hide Placed, Without;
    PlacedShape(v);
  }

  lemma ReadyPriority(v: View, t: Tid, prio: nat)
    requires Placed(v) && t in v.threads && prio < v.max && v.threads[t].stat == READY
    ensures Shaped(v)
    ensures var w, th := SetPriorityStep(v, t, prio), v.threads[t];
            && w.threads[t] == th.(prio := prio) && w.current == v.current && OthersStay(v, w, t)
            && w.ready[prio] == Without(v.ready[prio], t) + [t] && (th.prio != prio ==> t !in w.ready[th.prio])
  {
    PlacedShape(v);
    OutIs(v, t);
    var o := Out(v, t);
    OutAt(v, t, prio);
    hide Placed, Without, Out;
    WithoutLast(o.ready[prio], t);
  }

  lemma OutAt(v: View, t: Tid, p: nat)
    requires Placed(v) && t in v.threads && p < |v.ready|
    ensures v.threads[t].prio < |v.ready| && Out(v, t).ready[p] == Without(v.ready[p], t)
  {
    assert OkAt(v, t);
    if p != v.threads[t].prio {
      assert !InList(v.ready, p, t);
      WithoutAbsent(v.ready[p], t);
    }
  }

  // ---------------------------------------------------------------------- scheduling

  /** Who takes over: the first thread of the most urgent list, if the current one does not
      run any more, or is less urgent, or as urgent and yields. A thread that gives way
      while it runs goes behind those of its priority. */
  ghost predicate GivesWay(v: View, w: View, hi: nat)
    requires v.current in v.threads && hi < |v.ready| && v.ready[hi] != []
  {
    var cur, th := v.current, v.threads[v.current];
    && w.current == v.ready[hi][0] && w.current in w.threads && w.threads[w.current].stat == RUNNING && |w.ready| == |v.ready|
    && (forall p :: 0 <= p < |v.ready| ==>
          w.ready[p] == (if p == hi then v.ready[p][1..] else v.ready[p]) + (if th.stat == RUNNING && p == th.prio then [cur] else []))
    && cur in w.threads && w.threads[cur] == (if th.stat == RUNNING then th.(stat := READY, yielding := false) else th)
    && (forall x :: x in v.threads && x != cur && x != w.current ==> x in w.threads && w.threads[x] == v.threads[x])
  }

  lemma ScheduleMeans(v: View)
    requires Placed(v) && v.current in v.threads
    ensures Shaped(v)
    ensures var w, th, hi := Apply(v, Reschedule), v.threads[v.current], FirstReady(v.ready, 0);
            && (v.lock > 0 || hi == v.max ==> w == v)
            && (v.lock == 0 && hi < v.max ==>
                  if th.stat == RUNNING && (th.prio < hi || (th.prio == hi && !th.yielding)) then
                    w == v.(threads := v.threads[v.current := th.(yielding := false)])
                  else GivesWay(v, w, hi) && w.lock == 0 && w.max == v.max && w.calls == v.calls)
  {
    PlacedShape(v);
    var hi := FirstReady(v.ready, 0);
    if v.lock == 0 && hi < v.max && !Stays(v) { SwitchMeans(v, hi); }
    hide Placed, GivesWay, Without, Requeue, SwitchTo;
  }

  lemma FirstAway(l: seq<Tid>)
    requires l != [] && Distinct(l)
    ensures Without(l, l[0]) == l[1..]
  {
    assert l[0] !in l[1..];
    WithoutAbsent(l[1..], l[0]);
  }

  lemma SwitchMeans(v: View, hi: nat)
    requires Placed(v) && v.current in v.threads && hi < v.max && hi == FirstReady(v.ready, 0)
    ensures Shaped(v) && v.ready[hi] != []
    ensures var w := SwitchTo(Requeue(v), hi); GivesWay(v, w, hi) && w.lock == v.lock && w.max == v.max && w.calls == v.calls
  {
    RequeueKeeps(v);
    var u, cur := Requeue(v), v.current;
    var to := v.ready[hi][0];
    assert u.ready[hi][0] == to && InList(u.ready, hi, to) && InList(v.ready, hi, to);
    assert OkAt(v, to) && OkAt(v, cur);
    assert to != cur;
    FirstAway(u.ready[hi]);
    assert u.ready[hi][1..] == v.ready[hi][1..] + u.ready[hi][|v.ready[hi]|..];
    hide Placed, Without;
  }

  /** A thread that yields gives way to the first thread that is as urgent or more, and to
      no other; it goes behind those of its own priority. */
  lemma YieldMeans(v: View)
    requires Placed(v) && Callable(v, Yield) && v.threads[v.current].stat == RUNNING && v.lock == 0
    ensures Shaped(v)
    ensures var w, cur, th, hi := Apply(v, Yield), v.current, v.threads[v.current], FirstReady(v.ready, 0);
            && w.lock == 0 && w.max == v.max && w.calls == v.calls
            && (hi <= th.prio ==> GivesWay(v, w, hi))
            && (hi > th.prio ==> w.current == cur && w.ready == v.ready)
            && w.threads[cur].prio == th.prio
  {
    hide Placed, Without, ScheduleStep;
    PlacedShape(v);
    CurrentUnlisted(v);
    var u := With(v, v.current, v.threads[v.current].(yielding := true));
    YieldKeeps(v, v.current);
    ScheduleMeans(u);
  }

  // --------------------------------------------------------------------- round robin

  function Yields(k: nat): seq<Event> { if k == 0 then [] else [Yield] + Yields(k - 1) }

  /** The running thread and those behind it at its priority, in the order of their turns. */
  function Turns(v: View): seq<Tid>
    requires v.current in v.threads && v.threads[v.current].prio < |v.ready|
  {
    [v.current] + v.ready[v.threads[v.current].prio]
  }

  /** An unlocked state whose running thread is as urgent as any ready one. */
  ghost predicate Ruling(v: View, p: nat)
  {
    && Placed(v) && v.current in v.threads && v.threads[v.current].stat == RUNNING && v.threads[v.current].prio == p < |v.ready|
    && v.lock == 0 && v.calls == map[] && p <= FirstReady(v.ready, 0)
  }

  lemma YieldTurns(v: View, p: nat)
    requires Ruling(v, p)
    ensures Shaped(v) && Callable(v, Yield)
    ensures var w := Apply(v, Yield); Ruling(w, p) && Turns(w) == Turns(v)[1..] + [v.current]
  {
    PlacedShape(v);
    assert Idle(v);
    StepKeeps(v, Yield);
    YieldMeans(v);
    var w, hi := Apply(v, Yield), FirstReady(v.ready, 0);
    hide Placed, Apply;
    if hi == p {
      HeadPrio(v, p);
      assert w.ready[p] == v.ready[p][1..] + [v.current];
      assert Turns(v)[1..] == v.ready[p];
      assert v.ready[p] == [w.current] + v.ready[p][1..];
      forall q | 0 <= q < p ensures w.ready[q] == [] { }
      assert FirstReady(w.ready, 0) >= p;
    } else {
      assert v.ready[p] == [];
      assert Turns(w) == Turns(v)[1..] + [v.current];
    }
  }

  lemma HeadPrio(v: View, p: nat)
    requires Ruling(v, p) && v.ready[p] != []
    ensures var t := v.ready[p][0]; t in v.threads && v.threads[t].prio == p && t != v.current
  {
    assert InList(v.ready, p, v.ready[p][0]);
    assert OkAt(v, v.ready[p][0]);
  }

  /** Round robin: as long as the threads of the most urgent priority only yield, each runs
      in its turn, and after as many yields as there are of them the first runs again. */
  lemma {:induction false} RoundRobin(v: View, p: nat, k: nat)
    requires Ruling(v, p) && k <= |Turns(v)|
    ensures CanCall(v, Yields(k)) && Ruling(Run(v, Yields(k)), p)
    ensures Turns(Run(v, Yields(k))) == Turns(v)[k..] + Turns(v)[..k]
    ensures k < |Turns(v)| ==> Run(v, Yields(k)).current == Turns(v)[k]
    ensures k == |Turns(v)| ==> Run(v, Yields(k)).current == v.current
    decreases k
  {
    RotateYields(v, p, k);
    hide Ruling, Run, CanCall;
    var w := Run(v, Yields(k));
    assert Turns(w)[0] == w.current;
  }

  lemma {:induction false} RotateYields(v: View, p: nat, k: nat)
    requires Ruling(v, p) && k <= |Turns(v)|
    ensures CanCall(v, Yields(k)) && Ruling(Run(v, Yields(k)), p)
    ensures Turns(Run(v, Yields(k))) == Turns(v)[k..] + Turns(v)[..k]
    decreases k
  {
    RulingShape(v, p);
    hide Ruling, Turns, Apply, Callable, Shaped;
    if k == 0 {
      assert Turns(v)[0..] + Turns(v)[..0] == Turns(v);
    } else {
      YieldTurns(v, p);
      var w := Apply(v, Yield);
      RulingShape(v, p);
      RulingShape(w, p);
      hide *;
      TurnsLength(v, w);
      RotateYields(w, p, k - 1);
      YieldFirst(v, k);
      RulingShape(Run(w, Yields(k - 1)), p);
      Rotated(Turns(v), Turns(w), k);
    }
  }

  lemma TurnsLength(v: View, w: View)
    requires v.current in v.threads && v.threads[v.current].prio < |v.ready| && w.current in w.threads && w.threads[w.current].prio < |w.ready|
    requires Turns(w) == Turns(v)[1..] + [v.current]
    ensures |Turns(w)| == |Turns(v)|
  {
  }

  lemma YieldFirst(v: View, k: nat)
    requires k > 0 && Shaped(v) && Callable(v, Yield) && CanCall(Apply(v, Yield), Yields(k - 1))
    ensures CanCall(v, Yields(k)) && Run(v, Yields(k)) == Run(Apply(v, Yield), Yields(k - 1))
  {
    assert Yields(k)[0] == Yield && Yields(k)[1..] == Yields(k - 1);
    hide Apply, Callable, Shaped;
  }

  lemma RulingShape(v: View, p: nat)
    requires Ruling(v, p)
    ensures v.current in v.threads && v.threads[v.current].prio < |v.ready| && Turns(v) != [] && Turns(v)[0] == v.current
  {
  }

  lemma Rotated(a: seq<Tid>, b: seq<Tid>, k: nat)
    requires 0 < k <= |a| && b == a[1..] + [a[0]]
    ensures b[k - 1..] + b[..k - 1] == a[k..] + a[..k]
  {
    assert a[..k] == [a[0]] + a[1..k];
    assert b[..k - 1] == a[1..k];
  }

  // ----------------------------------------------------------------------- the lock

  /** Between rt_enter_critical and the rt_exit_critical that belongs to it nobody is
      switched to. */
  lemma LockMeans(v: View, e: Event)
    requires Placed(v) && Callable(v, e) && v.lock > 0 && e != Begin
    ensures Shaped(v) && Apply(v, e).current == v.current
    ensures e != EnterCritical && e != ExitCritical ==> Apply(v, e).lock == v.lock
  {
    hide Placed, Without, FirstReady, CallsOk, GoOnStep, SuspendStep, ResumeStep, StartupStep, TimeoutStep, Closed, SetPriorityStep;
    PlacedShape(v);
    match e
    case GoOn => GoOnLock(v);
    case Startup(t) => StepsLock(v, t);
    case Suspend(t) => StepsLock(v, t);
    case Resume(t) => StepsLock(v, t);
    case Timeout(t) => StepsLock(v, t);
    case Sleep => StepsLock(v, v.current);
    case Block(_) => StepsLock(v, v.current);
    case SetPriority(t, prio) => PriorityLock(v, t, prio);
    case Exit(kept) => ClosedLock(v, v.current, kept);
    case Delete(t, kept) => ClosedLock(v, t, kept);
    case _ =>
  }

  lemma LockNests(v: View)
    requires Placed(v)
    ensures Shaped(v) && Shaped(Apply(v, EnterCritical)) && Apply(Apply(v, EnterCritical), ExitCritical) == v
  {
    PlacedShape(v);
    hide Placed;
  }

  lemma StepsLock(v: View, t: Tid)
    requires Shaped(v) && t in v.threads
    ensures SuspendStep(v, t).current == v.current && SuspendStep(v, t).lock == v.lock
    ensures ResumeStep(v, t).current == v.current && ResumeStep(v, t).lock == v.lock
    ensures StartupStep(v, t).current == v.current && StartupStep(v, t).lock == v.lock
    ensures TimeoutStep(v, t).current == v.current && TimeoutStep(v, t).lock == v.lock
  {
    hide Without, CallsOk;
  }

  lemma PriorityLock(v: View, t: Tid, prio: nat)
    requires Shaped(v) && t in v.threads && prio < v.max
    ensures SetPriorityStep(v, t, prio).current == v.current && SetPriorityStep(v, t, prio).lock == v.lock
  {
    hide Without, CallsOk;
  }

  lemma ClosedLock(v: View, t: Tid, kept: bool)
    requires Shaped(v) && t in v.threads
    ensures Closed(v, t, kept).current == v.current && Closed(v, t, kept).lock == v.lock
  {
    hide Without, CallsOk;
  }

  lemma GoOnLock(v: View)
    requires Placed(v) && v.current in v.calls
    ensures Shaped(v) && GoOnStep(v).current == v.current && GoOnStep(v).lock == v.lock
  {
    PlacedShape(v);
    hide Placed, Without, FirstReady;
  }

  // ----------------------------------------------------------------- closing a thread

  lemma DeleteMeans(v: View, t: Tid, kept: bool)
    requires Placed(v) && t in v.threads
    ensures Shaped(v)
    ensures var w, th := Apply(v, Delete(t, kept)), v.threads[t];
            if th.stat != CLOSE then
              && w.threads[t] == Thread(CLOSE, false, th.prio, th.initPrio, false) && w.current == v.current
              && (forall p :: 0 <= p < |w.ready| ==> t !in w.ready[p]) && t !in w.waiting && OthersStay(v, w, t)
              && (if kept then w.defunct != [] && w.defunct[0] == t else t !in w.defunct)
            else w == v
  {
    PlacedShape(v);
    ClosedIs(v, t, kept);
    hide Placed, Without, Closed, OthersStay;
  }

  lemma ClosedIs(v: View, t: Tid, kept: bool)
    requires Placed(v) && t in v.threads
    ensures Shaped(v)
    ensures var w, th := Closed(v, t, kept), v.threads[t];
            && w.threads[t] == Thread(CLOSE, false, th.prio, th.initPrio, false) && w.current == v.current
            && (forall p :: 0 <= p < |w.ready| ==> t !in w.ready[p]) && t !in w.waiting && OthersStay(v, w, t)
            && (if kept then w.defunct != [] && w.defunct[0] == t else t !in w.defunct)
            && (!Listed(v, t) ==> w.ready == v.ready)
  {
    PlacedShape(v);
    OutIs(v, t);
    var o := Out(v, t);
    assert ([t] + o.defunct)[1..] == o.defunct;
    hide Placed, Out;
  }

  /** A thread that exits is closed and does not come back; the first thread of the most
      urgent list takes over. */
  lemma ExitMeans(v: View, kept: bool)
    requires Placed(v) && Callable(v, Exit(kept))
    ensures Shaped(v)
    ensures var w, t, hi := Apply(v, Exit(kept)), v.current, FirstReady(v.ready, 0);
            && t in w.threads && w.threads[t].stat == CLOSE && !w.threads[t].timer && (kept ==> t in w.defunct)
            && (v.lock == 0 && hi < v.max ==> w.current == v.ready[hi][0] && w.current in w.threads && w.threads[w.current].stat == RUNNING)
            && (v.lock > 0 || hi == v.max ==> w.current == t)
  {
    hide Placed, Without, Closed, ScheduleStep;
    PlacedShape(v);
    var t := v.current;
    CurrentUnlisted(v);
    ClosedIs(v, t, kept);
    CloseKeeps(v, t, kept);
    var u := Closed(v, t, kept);
    ScheduleMeans(u);
    if kept { ScheduledDefunct(u, t); }
  }

  lemma CurrentUnlisted(v: View)
    requires Placed(v) && v.current in v.threads
    ensures !Listed(v, v.current) && v.threads[v.current].stat != READY && v.threads[v.current].prio < |v.ready|
    ensures v.threads[v.current].stat == RUNNING ==> !v.threads[v.current].timer
  {
    assert OkAt(v, v.current);
  }

  /** Whoever is switched to was READY, so the defunct list stays. */
  lemma ScheduledDefunct(v: View, t: Tid)
    requires Placed(v) && v.current in v.threads && t in v.threads && v.threads[t].stat == CLOSE && t in v.defunct
    ensures Shaped(v) && t in ScheduleStep(v).defunct
  {
    PlacedShape(v);
    var hi := FirstReady(v.ready, 0);
    if v.lock == 0 && hi < v.max && !Stays(v) {
      RequeueKeeps(v);
      var to := Requeue(v).ready[hi][0];
      assert Requeue(v).ready[hi] != [] && InList(Requeue(v).ready, hi, to);
      assert OkAt(Requeue(v), to);
    }
  }

  // ------------------------------------------------------------------------- timeouts

  /** A thread whose time is up is ready again, off the wait list, and behind those of its
      priority; if it is more urgent than the running thread and all ready ones, it runs
      at once. */
  lemma TimeoutMeans(v: View, t: Tid)
    requires Placed(v) && Callable(v, Timeout(t)) && t != v.current
    ensures Shaped(v)
    ensures var w, th := Apply(v, Timeout(t)), v.threads[t];
            && t in w.threads && !w.threads[t].timer && w.threads[t].prio == th.prio
            && (v.lock > 0 ==> w.threads[t].stat == READY && w.ready == v.ready[th.prio := v.ready[th.prio] + [t]])
            && (v.lock == 0 && th.prio < FirstReady(v.ready, 0) && (v.threads[v.current].stat == RUNNING ==> th.prio < v.threads[v.current].prio) ==>
                  w.current == t && w.threads[t].stat == RUNNING)
  {
    hide Placed, Without, OthersStay, ScheduleStep;
    PlacedShape(v);
    CurrentIn(v);
    TimerMeansSuspended(v, t);
    TimeoutKeeps(v, t);
    var u, p := TimeoutStep(v, t), v.threads[t].prio;
    ResumeMeans(v, t);
    assert u == Apply(v, Resume(t));
    hide TimeoutStep, ResumeStep;
    assert u.ready == v.ready[p := v.ready[p] + [t]] && u.lock == v.lock;
    ScheduleMeans(u);
    if p < FirstReady(v.ready, 0) {
      assert u.ready[p] != [] && forall q :: 0 <= q < p ==> u.ready[q] == [];
      FirstIs(u.ready, p);
    }
    TimedOut(u, t);
  }

  lemma FirstIs(ready: Ready, p: nat)
    requires p < |ready| && ready[p] != [] && forall q :: 0 <= q < p ==> ready[q] == []
    ensures FirstReady(ready, 0) == p
  {
  }

  lemma TimedOut(u: View, t: Tid)
    requires Placed(u) && u.current in u.threads && t in u.threads && u.threads[t].stat == READY && t != u.current
    ensures Shaped(u) && t in ScheduleStep(u).threads
    ensures ScheduleStep(u).threads[t] == u.threads[t] || ScheduleStep(u).threads[t] == u.threads[t].(stat := RUNNING)
  {
    PlacedShape(u);
    hide Placed, Without;
  }
}
