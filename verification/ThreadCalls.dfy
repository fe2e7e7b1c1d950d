/** The calls of src/thread.c as steps. A call made with interrupts disabled, as from an
    interrupt handler, at start-up or by the IPC objects, is one step. A thread that calls
    with interrupts enabled makes a step for each region that disables them, and one to
    look at the state before; anything can happen in between. Handlers do not nest. */
module ThreadCalls {
  import opened Lists
  import opened WaitList
  import opened Scheduler

  /** The Call events are calls with interrupts enabled, and GoOn is the next step of the
      one the current thread has under way. An rt_schedule that ends a call with
      interrupts enabled is a Reschedule of its own. */
  datatype Event =
    | Create(t: Tid, prio: nat)
    | Startup(t: Tid)
    | Begin
    | Suspend(t: Tid)
    | Resume(t: Tid)
    | Timeout(t: Tid)
    | Sleep
    | Block(timed: bool)
    | Yield
    | SetPriority(t: Tid, prio: nat)
    | Exit(kept: bool)
    | Delete(t: Tid, kept: bool)
    | Reschedule
    | EnterCritical
    | ExitCritical
    | CallSuspend(t: Tid)
    | CallResume(t: Tid)
    | CallStartup(t: Tid)
    | CallDelete(t: Tid, kept: bool)
    | GoOn

  /** The current thread is at liberty to make a call. */
  predicate Idle(v: View) { v.current != NONE && v.current in v.threads && v.current !in v.calls }

  /** What the calls ask for: a thread made new, started once, a timer that is running,
      a current thread where the call is about it. */
  predicate Callable(v: View, e: Event)
  {
    match e
    case Create(t, prio) => t !in v.threads && prio < v.max
    case Startup(t) => t in v.threads && v.threads[t].stat == INIT
    case Begin => v.current == NONE && FirstReady(v.ready, 0) < |v.ready|
    case Suspend(t) => t in v.threads
    case Resume(t) => t in v.threads
    case Timeout(t) => t in v.threads && v.threads[t].timer && v.current != NONE
    case Sleep => Idle(v)
    case Block(_) => Idle(v)
    case Yield => Idle(v)
    case SetPriority(t, prio) => t in v.threads && prio < v.max
    case Exit(_) => Idle(v)
    case Delete(t, _) => t in v.threads
    case Reschedule => v.current != NONE
    case EnterCritical => true
    case ExitCritical => true
    case CallSuspend(t) => Idle(v) && t in v.threads
    case CallResume(t) => Idle(v) && t in v.threads
    case CallStartup(t) => Idle(v) && t in v.threads && v.threads[t].stat == INIT
    case CallDelete(t, _) => Idle(v) && t in v.threads
    case GoOn => v.current in v.calls
  }

  // ------------------------------------------------------------------------- steps

  function Scheduled(v: View): View
    requires Shaped(v)
  {
    if v.current in v.threads then ScheduleStep(v) else v
  }

  function Closed(v: View, t: Tid, kept: bool): (w: View)
    requires Shaped(v) && t in v.threads
    ensures Shaped(w)
  {
    var o := With(Out(v, t), t, v.threads[t].(stat := CLOSE, yielding := false, timer := false));
    if kept then o.(defunct := [t] + o.defunct) else o
  }

  /** rt_thread_suspend, then the timer is set whatever that returned. */
  function SleepStep(v: View, t: Tid): View
    requires Shaped(v) && t in v.threads
  {
    var s := SuspendStep(v, t);
    if t in s.threads then With(s, t, s.threads[t].(timer := true)) else s
  }

  function BlockStep(v: View, t: Tid, timed: bool): View
    requires Shaped(v) && t in v.threads
  {
    var s := SuspendStep(v, t);
    if t in s.threads then With(s, t, s.threads[t].(timer := timed || s.threads[t].timer)).(waiting := s.waiting + {t}) else s
  }

  function SetPriorityStep(v: View, t: Tid, prio: nat): View
    requires Shaped(v) && t in v.threads && prio < v.max
  {
    var th := v.threads[t];
    if th.stat == READY then With(Out(v, t), t, th.(prio := prio)).(ready := Out(v, t).ready[prio := Out(v, t).ready[prio] + [t]])
    else With(v, t, th.(prio := prio))
  }

  /** A thread that was made new is as good as suspended, at the priority it began with. */
  function Prepared(th: Thread): Thread { th.(prio := th.initPrio, stat := SUSPEND, yielding := false) }

  function StartupStep(v: View, t: Tid): View
    requires Shaped(v) && t in v.threads
  {
    if v.threads[t].initPrio < v.max then ResumeStep(With(v, t, Prepared(v.threads[t])), t) else v
  }

  function TimeoutStep(v: View, t: Tid): (w: View)
    requires Shaped(v) && t in v.threads
    ensures Shaped(w)
  {
    InsertStep(With(Out(v, t), t, v.threads[t].(timer := false)), t)
  }

  // The regions of rt_thread_resume and rt_thread_delete.

  /** rt_list_remove and rt_timer_stop; the bits of the ready lists are left alone. */
  function UnlinkStep(v: View, t: Tid): View
    requires Shaped(v) && t in v.threads
  {
    With(Unlinked(v, t), t, v.threads[t].(timer := false))
  }

  /** rt_schedule_remove_thread with the state of t left as it is. */
  function RemoveStep(v: View, t: Tid): View
    requires Shaped(v) && t in v.threads
  {
    Unlinked(v, t).(out := if v.threads[t].stat == READY then v.out + {t} else v.out - {t})
  }

  function CloseStep(v: View, t: Tid, kept: bool): View
    requires Shaped(v) && t in v.threads
  {
    With(v, t, v.threads[t].(stat := CLOSE, yielding := false)).(defunct := if kept then [t] + v.defunct else v.defunct, out := v.out - {t})
  }

  function Calling(v: View, c: Call): View
    requires v.current in v.threads
  {
    v.(calls := v.calls[v.current := c])
  }

  function Returned(v: View): View { v.(calls := map a | a in v.calls && a != v.current :: v.calls[a]) }

  function GoOnStep(v: View): View
    requires Shaped(v) && v.current in v.calls
  {
    match v.calls[v.current]
    case Suspending(t) => Suspended(Returned(v), t)
    case Resuming(t) => if v.threads[t].stat == SUSPEND then Calling(v, Unlinking(t)) else Returned(v)
    case Unlinking(t) => Calling(UnlinkStep(v, t), Inserting(t))
    case Inserting(t) => InsertStep(Returned(v), t)
    case Removing(t, kept) => Calling(RemoveStep(v, t), Stopping(t, kept))
    case Stopping(t, kept) => Calling(With(v, t, v.threads[t].(timer := false)), Closing(t, kept))
    case Closing(t, kept) => CloseStep(Returned(v), t, kept)
  }

  function Apply(v: View, e: Event): View
    requires Shaped(v) && Callable(v, e)
  {
    match e
    case Create(t, prio) => With(v, t, Thread(INIT, false, prio, prio, false))
    case Startup(t) => StartupStep(v, t)
    case Begin => BeginStep(v, FirstReady(v.ready, 0))
    case Suspend(t) => SuspendStep(v, t)
    case Resume(t) => ResumeStep(v, t)
    case Timeout(t) => Scheduled(TimeoutStep(v, t))
    case Sleep => SleepStep(v, v.current)
    case Block(timed) => BlockStep(v, v.current, timed)
    case Yield => Scheduled(With(v, v.current, v.threads[v.current].(yielding := true)))
    case SetPriority(t, prio) => SetPriorityStep(v, t, prio)
    case Exit(kept) => Scheduled(Closed(v, v.current, kept))
    case Delete(t, kept) => if v.threads[t].stat == CLOSE then v else Closed(v, t, kept)
    case Reschedule => Scheduled(v)
    case EnterCritical => v.(lock := v.lock + 1)
    case ExitCritical => v.(lock := if v.lock <= 1 then 0 else v.lock - 1)
    case CallSuspend(t) => if v.threads[t].stat == READY || v.threads[t].stat == RUNNING then Calling(v, Suspending(t)) else v
    case CallResume(t) => if v.threads[t].stat == SUSPEND then Calling(v, Unlinking(t)) else v
    case CallStartup(t) => Calling(With(v, t, Prepared(v.threads[t])), Resuming(t))
    case CallDelete(t, kept) =>
      if v.threads[t].stat == CLOSE then v
      else if v.threads[t].stat == INIT then Calling(v, Stopping(t, kept))
      else Calling(v, Removing(t, kept))
    case GoOn => GoOnStep(v)
  }

  // ------------------------------------------------------ what goes wrong, and when

  predicate Listed(v: View, t: Tid) { t in v.threads && InList(v.ready, v.threads[t].prio, t) }

  /** The region of a call finds t not as the call's first look at it promised: made ready
      before it is unlinked, or in a list or with its timer running before it is made ready
      or closed. */
  predicate Surprised(v: View, c: Call)
  {
    match c
    case Suspending(_) => false
    case Resuming(_) => false
    case Unlinking(t) => Listed(v, t)
    case Inserting(t) => Listed(v, t) || t in v.waiting || t in v.defunct || (t in v.threads && v.threads[t].timer)
    case Removing(_, _) => false
    case Stopping(_, _) => false
    case Closing(t, kept) => Listed(v, t) || t in v.waiting || (kept && t in v.defunct) || (t in v.threads && v.threads[t].timer)
  }

  /** The step does harm: a thread that has been closed goes to sleep or waits, or a call
      goes on with a thread that has been moved. */
  predicate Spoils(v: View, e: Event)
  {
    match e
    case Sleep => v.current in v.threads && v.threads[v.current].stat == CLOSE
    case Block(_) => v.current in v.threads && v.threads[v.current].stat == CLOSE
    case GoOn => v.current in v.calls && Surprised(v, v.calls[v.current])
    case _ => false
  }

  predicate Enabled(v: View, e: Event) { Callable(v, e) && !Spoils(v, e) }

  lemma TimerMeansSuspended(v: View, t: Tid)
    requires Placed(v) && t in v.threads && v.threads[t].timer
    ensures v.threads[t].stat == SUSPEND
  {
    assert OkAt(v, t);
  }

  /** What going to sleep does to the thread itself: an active timer means suspended
      afterwards exactly when the thread had not been closed before. */
  lemma SleepTimer(v: View, t: Tid)
    requires Placed(v) && t in v.threads
    ensures Shaped(v) && t in SleepStep(v, t).threads && SleepStep(v, t).threads[t].timer
    ensures SleepStep(v, t).threads[t].stat == SUSPEND <==> v.threads[t].stat != CLOSE && v.threads[t].stat != INIT
  {
    PlacedShape(v);
  }

  /** The same for a wait: rt_ipc_list_suspend does not look at what rt_thread_suspend
      returned, and puts a closed thread on the wait list too. */
  lemma BlockTimer(v: View, t: Tid, timed: bool)
    requires Placed(v) && t in v.threads
    ensures Shaped(v) && t in BlockStep(v, t, timed).threads && t in BlockStep(v, t, timed).waiting
    ensures timed ==> BlockStep(v, t, timed).threads[t].timer
    ensures BlockStep(v, t, timed).threads[t].stat == SUSPEND <==> v.threads[t].stat != CLOSE && v.threads[t].stat != INIT
    ensures BlockStep(v, t, timed).threads[t].timer && BlockStep(v, t, timed).threads[t].stat != SUSPEND <==>
            timed && (v.threads[t].stat == CLOSE || v.threads[t].stat == INIT)
    ensures v.threads[t].stat == CLOSE && t in v.defunct ==> t in BlockStep(v, t, timed).defunct
  {
    PlacedShape(v);
    assert OkAt(v, t);
  }

  // ------------------------------------------------------------------ every step keeps

  lemma CloseKeeps(v: View, t: Tid, kept: bool)
    requires Placed(v) && t in v.threads
    ensures Shaped(v) && Placed(Closed(v, t, kept))
  {
    PlacedShape(v);
    assert OkAt(v, t);
    var th := v.threads[t].(stat := CLOSE, yielding := false, timer := false);
    var o := With(Out(v, t), t, th);
    PlacedOut(v, t, th, v.current);
    if kept {
      var v' := o.(defunct := [t] + o.defunct);
      assert Distinct(v'.defunct);
      assert SameBut(o, v', t);
      NotListed(o, t);
      assert OkAt(v', t);
      PlacedAgain(o, v', t);
    }
  }

  lemma ScheduledKeeps(v: View)
    requires Placed(v)
    ensures Shaped(v) && Placed(Scheduled(v))
  {
    PlacedShape(v);
    if v.current in v.threads { ScheduleKeeps(v); }
  }

  lemma SleepKeeps(v: View, t: Tid)
    requires Placed(v) && t in v.threads && v.threads[t].stat != CLOSE && v.threads[t].stat != INIT
    ensures Shaped(v) && Placed(SleepStep(v, t))
  {
    PlacedShape(v);
    assert OkAt(v, t);
    SuspendKeeps(v, t);
    hide Placed;
    SleepTimer(v, t);
    var s := SuspendStep(v, t);
    Bounds(s, t);
    PlacedStay(s, t, s.threads[t].(timer := true));
  }

  lemma Bounds(v: View, t: Tid)
    requires Placed(v) && t in v.threads
    ensures v.threads[t].prio < v.max && v.threads[t].initPrio < v.max
    ensures v.threads[t].stat == SUSPEND ==> t !in v.defunct
    ensures v.threads[t].stat == INIT ==> t !in v.defunct && t !in v.waiting && t != v.current && !v.threads[t].timer
  {
    assert OkAt(v, t);
  }

  lemma BlockKeeps(v: View, t: Tid, timed: bool)
    requires Placed(v) && t in v.threads && v.threads[t].stat != INIT && v.threads[t].stat != CLOSE
    ensures Shaped(v) && Placed(BlockStep(v, t, timed))
  {
    PlacedShape(v);
    SuspendKeeps(v, t);
    var s := SuspendStep(v, t);
    Bounds(s, t);
    assert OkAt(s, t);
    var th := s.threads[t].(timer := timed || s.threads[t].timer);
    var w := With(s, t, th);
    PlacedStay(s, t, th);
    var v' := w.(waiting := w.waiting + {t});
    NotListed(w, t);
    assert SameBut(w, v', t);
    assert OkAt(w, t);
    assert OkAt(v', t);
    hide Placed, SameBut;
    PlacedAgain(w, v', t);
  }

  lemma SetPriorityKeeps(v: View, t: Tid, prio: nat)
    requires Placed(v) && t in v.threads && prio < v.max
    ensures Shaped(v) && Placed(SetPriorityStep(v, t, prio))
  {
    PlacedShape(v);
    assert OkAt(v, t);
    var th := v.threads[t];
    if th.stat == READY {
      var w := With(Out(v, t), t, th.(stat := SUSPEND));
      PlacedOut(v, t, th.(stat := SUSPEND), v.current);
      NotListed(w, t);
      PlacedIn(w, t, th.(prio := prio), v.current);
      assert w.threads[t := th.(prio := prio)] == v.threads[t := th.(prio := prio)];
      assert w.out - {t} == w.out;
    } else {
      PlacedStay(v, t, th.(prio := prio));
    }
  }

  lemma PreparedKeeps(v: View, t: Tid)
    requires Placed(v) && t in v.threads && v.threads[t].stat == INIT
    ensures Placed(With(v, t, Prepared(v.threads[t])))
  {
    Bounds(v, t);
    hide Placed;
    PlacedStay(v, t, Prepared(v.threads[t]));
  }

  lemma StartupKeeps(v: View, t: Tid)
    requires Placed(v) && t in v.threads && v.threads[t].stat == INIT
    ensures Shaped(v) && Placed(StartupStep(v, t))
  {
    PlacedShape(v);
    Bounds(v, t);
    hide Placed;
    PreparedKeeps(v, t);
    ResumeKeeps(With(v, t, Prepared(v.threads[t])), t);
  }

  lemma TimeoutKeeps(v: View, t: Tid)
    requires Placed(v) && t in v.threads && v.threads[t].timer
    ensures Shaped(v) && Placed(TimeoutStep(v, t))
  {
    PlacedShape(v);
    TimerMeansSuspended(v, t);
    DetachKeeps(v, t);
    var w := With(Out(v, t), t, v.threads[t].(timer := false));
    NotListed(w, t);
    assert !InList(w.ready, w.threads[t].prio, t);
    hide Placed;
    InsertKeeps(w, t);
  }

  lemma CreateKeeps(v: View, t: Tid, prio: nat)
    requires Placed(v) && t !in v.threads && prio < v.max && t != v.current
    ensures Placed(With(v, t, Thread(INIT, false, prio, prio, false)))
  {
    var v' := With(v, t, Thread(INIT, false, prio, prio, false));
    assert forall p {:trigger InList(v.ready, p, t)} :: !InList(v.ready, p, t);
    assert SameBut(v, v', t);
    assert OkAt(v', t);
    hide SameBut;
    PlacedAgain(v, v', t);
  }

  lemma LockKeeps(v: View, lock: nat)
    requires Placed(v)
    ensures Placed(v.(lock := lock))
  {
    var v' := v.(lock := lock);
    forall t ensures OkAt(v', t) { assert OkAt(v, t); }
  }

  lemma YieldKeeps(v: View, t: Tid)
    requires Placed(v) && t in v.threads
    ensures Placed(With(v, t, v.threads[t].(yielding := true)))
  {
    var v' := With(v, t, v.threads[t].(yielding := true));
    assert OkAt(v, t);
    assert SameBut(v, v', t);
    assert OkAt(v', t);
    hide SameBut;
    PlacedAgain(v, v', t);
  }

  /** Who has a call under way does not matter for where threads are. */
  lemma CallsKeep(v: View, calls: map<Tid, Call>)
    requires Placed(v) && CallsOk(v.(calls := calls))
    ensures Placed(v.(calls := calls))
  {
    var v' := v.(calls := calls);
    forall t ensures OkAt(v', t) { assert OkAt(v, t); }
  }

  lemma CallingKeeps(v: View, c: Call)
    requires Placed(v) && v.current in v.threads && c.t in v.threads
    ensures Placed(Calling(v, c))
  {
    CallsKeep(v, v.calls[v.current := c]);
  }

  lemma ReturnedKeeps(v: View)
    requires Placed(v)
    ensures Placed(Returned(v))
  {
    CallsKeep(v, Returned(v).calls);
  }

  lemma UnlinkKeeps(v: View, t: Tid)
    requires Placed(v) && t in v.threads && !Listed(v, t)
    ensures Shaped(v) && Placed(UnlinkStep(v, t))
  {
    PlacedShape(v);
    assert OkAt(v, t);
    NotInOther(v, t);
    var p := v.threads[t].prio;
    WithoutAbsent(v.ready[p], t);
    WithoutDistinct(v.defunct, t);
    var v' := UnlinkStep(v, t);
    assert v'.ready == v.ready;
    assert SameBut(v, v', t);
    assert OkAt(v', t);
    hide SameBut, Placed;
    PlacedAgain(v, v', t);
  }

  lemma {:induction false} WithoutAbsent(a: seq<Tid>, t: Tid)
    requires t !in a
    ensures Without(a, t) == a
  {
    if a != [] { WithoutAbsent(a[1..], t); }
  }

  lemma RemoveKeeps(v: View, t: Tid)
    requires Placed(v) && t in v.threads
    ensures Shaped(v) && Placed(RemoveStep(v, t))
  {
    PlacedShape(v);
    assert OkAt(v, t);
    OutFacts(v, t);
    var o, v' := Out(v, t), RemoveStep(v, t);
    assert v'.ready == o.ready;
    assert forall p {:trigger InList(v'.ready, p, t)} :: !InList(v'.ready, p, t) by {
      forall p ensures !InList(v'.ready, p, t) { assert !InList(o.ready, p, t); }
    }
    assert SameBut(v, v', t) by {
      forall p, x | x != t ensures InList(v'.ready, p, x) <==> InList(v.ready, p, x) {
        assert InList(o.ready, p, x) <==> InList(v.ready, p, x);
      }
    }
    assert OkAt(v', t);
    hide SameBut, Placed, Out;
    PlacedAgain(v, v', t);
  }

  lemma StopKeeps(v: View, t: Tid)
    requires Placed(v) && t in v.threads
    ensures Placed(With(v, t, v.threads[t].(timer := false)))
  {
    var v' := With(v, t, v.threads[t].(timer := false));
    assert OkAt(v, t);
    assert SameBut(v, v', t);
    assert OkAt(v', t);
    hide SameBut;
    PlacedAgain(v, v', t);
  }

  lemma CloseStepKeeps(v: View, t: Tid, kept: bool)
    requires Placed(v) && t in v.threads && !Surprised(v, Closing(t, kept))
    ensures Shaped(v) && Placed(CloseStep(v, t, kept))
  {
    PlacedShape(v);
    assert OkAt(v, t);
    NotInOther(v, t);
    var v' := CloseStep(v, t, kept);
    assert Distinct(v'.defunct);
    assert SameBut(v, v', t);
    assert OkAt(v', t);
    hide SameBut, Placed;
    PlacedAgain(v, v', t);
  }

  lemma GoOnKeeps(v: View)
    requires Placed(v) && v.current in v.calls && !Surprised(v, v.calls[v.current])
    ensures Shaped(v) && Placed(GoOnStep(v))
  {
    PlacedShape(v);
    ReturnedKeeps(v);
    PlacedShape(Returned(v));
    CallThreads(v);
    hide Placed, Shaped, UnlinkStep, RemoveStep, CloseStep, Suspended, InsertStep, CallsOk;
    match v.calls[v.current]
    case Suspending(t) => SuspendedKeeps(Returned(v), t);
    case Resuming(t) => CallingKeeps(v, Unlinking(t));
    case Unlinking(t) => UnlinkKeeps(v, t); CallingKeeps(UnlinkStep(v, t), Inserting(t));
    case Inserting(t) => InsertKeeps(Returned(v), t);
    case Removing(t, kept) => RemoveKeeps(v, t); CallingKeeps(RemoveStep(v, t), Stopping(t, kept));
    case Stopping(t, kept) => StopKeeps(v, t); CallingKeeps(With(v, t, v.threads[t].(timer := false)), Closing(t, kept));
    case Closing(t, kept) => CloseStepKeeps(Returned(v), t, kept);
  }

  lemma CallThreads(v: View)
    requires Shaped(v) && v.current in v.calls
    ensures var t := v.calls[v.current].t;
            && v.current in v.threads && t in v.threads
            && UnlinkStep(v, t).threads.Keys == v.threads.Keys && UnlinkStep(v, t).current == v.current
            && RemoveStep(v, t).threads == v.threads && RemoveStep(v, t).current == v.current
  {
  }

  /** Whatever happens between the steps of other calls, every step that does no harm
      keeps every thread where it belongs. */
  lemma StepKeeps(v: View, e: Event)
    requires Placed(v) && Enabled(v, e)
    ensures Shaped(v) && Placed(Apply(v, e))
  {
    PlacedShape(v);
    CurrentIn(v);
    hide Placed, Shaped, With, StartupStep, SuspendStep, ResumeStep, TimeoutStep, SleepStep, BlockStep, SetPriorityStep, Closed, Scheduled, BeginStep, GoOnStep, Surprised, Calling, Prepared;
    match e
    case Create(t, prio) => CreateKeeps(v, t, prio);
    case Startup(t) => StartupKeeps(v, t);
    case Begin => BeginKeeps(v, FirstReady(v.ready, 0));
    case Suspend(t) => SuspendKeeps(v, t);
    case Resume(t) => ResumeKeeps(v, t);
    case Timeout(t) => TimeoutKeeps(v, t); ScheduledKeeps(TimeoutStep(v, t));
    case Sleep => SleepKeeps(v, v.current);
    case Block(timed) => BlockKeeps(v, v.current, timed);
    case Yield =>
      YieldKeeps(v, v.current);
      ScheduledKeeps(With(v, v.current, v.threads[v.current].(yielding := true)));
    case SetPriority(t, prio) => SetPriorityKeeps(v, t, prio);
    case Exit(kept) => CloseKeeps(v, v.current, kept); ScheduledKeeps(Closed(v, v.current, kept));
    case Delete(t, kept) => CloseKeeps(v, t, kept);
    case Reschedule => ScheduledKeeps(v);
    case EnterCritical => LockKeeps(v, v.lock + 1);
    case ExitCritical => LockKeeps(v, if v.lock <= 1 then 0 else v.lock - 1);
    case CallSuspend(t) => CallKeeps(v, e);
    case CallResume(t) => CallKeeps(v, e);
    case CallStartup(t) => CallKeeps(v, e);
    case CallDelete(t, kept) => CallKeeps(v, e);
    case GoOn => GoOnKeeps(v);
  }

  /** The first step of a call is to look. */
  lemma CallKeeps(v: View, e: Event)
    requires Placed(v) && Callable(v, e) && (e.CallSuspend? || e.CallResume? || e.CallStartup? || e.CallDelete?)
    ensures Shaped(v) && Placed(Apply(v, e))
  {
    PlacedShape(v);
    hide Placed, Calling, Shaped, Prepared;
    match e
    case CallSuspend(t) => CallingKeeps(v, Suspending(t));
    case CallResume(t) => CallingKeeps(v, Unlinking(t));
    case CallStartup(t) => CallStartupKeeps(v, t);
    case CallDelete(t, kept) => CallingKeeps(v, Stopping(t, kept)); CallingKeeps(v, Removing(t, kept));
  }

  lemma CallStartupKeeps(v: View, t: Tid)
    requires Placed(v) && v.current in v.threads && t in v.threads && v.threads[t].stat == INIT
    ensures Placed(Calling(With(v, t, Prepared(v.threads[t])), Resuming(t)))
  {
    hide Placed;
    PreparedKeeps(v, t);
    CallingKeeps(With(v, t, Prepared(v.threads[t])), Resuming(t));
  }

  /** The current thread exists and is past its start. */
  lemma CurrentIn(v: View)
    requires Placed(v)
    ensures v.current != NONE ==> v.current in v.threads && v.threads[v.current].stat != INIT
    ensures |v.ready| == v.max
  {
    if v.current != NONE { assert OkAt(v, v.current); }
  }

  // ------------------------------------------------------------ and only those do

  /** A step that does harm leaves some thread where it does not belong. */
  lemma SpoilsBreaks(v: View, e: Event)
    requires Placed(v) && Callable(v, e) && Spoils(v, e)
    ensures Shaped(v) && !Placed(Apply(v, e))
  {
    PlacedShape(v);
    assert OkAt(v, v.current);
    match e
    case Sleep => assert !OkAt(SleepStep(v, v.current), v.current);
    case Block(timed) => assert !OkAt(BlockStep(v, v.current, timed), v.current);
    case GoOn =>
      hide Apply;
      SurpriseBreaks(v);
  }

  lemma SurpriseBreaks(v: View)
    requires Placed(v) && v.current in v.calls && Surprised(v, v.calls[v.current])
    ensures Shaped(v) && !Placed(GoOnStep(v))
  {
    PlacedShape(v);
    var t := v.calls[v.current].t;
    assert OkAt(v, t);
    var w := GoOnStep(v);
    match v.calls[v.current]
    case Unlinking(t) =>
      assert !InList(w.ready, v.threads[t].prio, t);
      assert !OkAt(w, t);
    case Inserting(t) =>
      if Listed(v, t) {
        var l := v.ready[v.threads[t].prio];
        assert w.ready[v.threads[t].prio] == l + [t];
        TwiceIn(l, t);
      } else {
        assert !OkAt(w, t);
      }
    case Closing(t, kept) =>
      if kept && t in v.defunct {
        var i :| 0 <= i < |v.defunct| && v.defunct[i] == t;
        assert w.defunct[0] == w.defunct[i + 1];
      } else {
        assert !OkAt(w, t);
      }
  }

  lemma TwiceIn(l: seq<Tid>, t: Tid)
    requires t in l
    ensures !Distinct(l + [t])
  {
    var i :| 0 <= i < |l| && l[i] == t;
    assert (l + [t])[i] == (l + [t])[|l|];
  }

  // ------------------------------------------------------------------- every run

  function Start(max: nat): View { View(max, map[], seq(max, _ => []), NONE, {}, [], 0, map[], {}) }

  lemma StartPlaced(max: nat)
    ensures Placed(Start(max))
  {
  }

  /** The steps can follow each other. */
  predicate CanCall(v: View, es: seq<Event>)
    decreases es
  {
    es == [] || (Shaped(v) && Callable(v, es[0]) && CanCall(Apply(v, es[0]), es[1..]))
  }

  /** And none does harm. */
  predicate CanRun(v: View, es: seq<Event>)
    decreases es
  {
    es == [] || (Shaped(v) && Enabled(v, es[0]) && CanRun(Apply(v, es[0]), es[1..]))
  }

  function Run(v: View, es: seq<Event>): View
    requires CanCall(v, es)
    decreases es
  {
    if es == [] then v else Run(Apply(v, es[0]), es[1..])
  }

  /** Every thread is where it belongs in every state of the run. */
  ghost predicate AlwaysPlaced(v: View, es: seq<Event>)
    requires CanCall(v, es)
    decreases es
  {
    Placed(v) && (es == [] || AlwaysPlaced(Apply(v, es[0]), es[1..]))
  }

  lemma {:induction false} RunIsCall(v: View, es: seq<Event>)
    requires CanRun(v, es)
    ensures CanCall(v, es)
    decreases es
  {
    if es != [] {
      hide Apply, Callable;
      RunIsCall(Apply(v, es[0]), es[1..]);
    }
  }

  lemma {:induction false} RunKeeps(v: View, es: seq<Event>)
    requires Placed(v) && CanRun(v, es)
    ensures CanCall(v, es) && Placed(Run(v, es))
    decreases es
  {
    RunIsCall(v, es);
    if es != [] {
      hide Placed, Apply, Enabled;
      StepKeeps(v, es[0]);
      RunKeeps(Apply(v, es[0]), es[1..]);
    }
  }

  lemma {:induction false} PlacedFrom(v: View, es: seq<Event>)
    requires Placed(v) && CanCall(v, es)
    ensures AlwaysPlaced(v, es) <==> CanRun(v, es)
    decreases es
  {
    if es != [] {
      hide Placed, Apply, Callable, Spoils;
      if Spoils(v, es[0]) {
        SpoilsBreaks(v, es[0]);
      } else {
        StepKeeps(v, es[0]);
        PlacedFrom(Apply(v, es[0]), es[1..]);
      }
    }
  }

  /** Main result. Over all interleavings of the regions of all calls, every thread is
      where it belongs in every state, exactly when no closed thread goes to sleep or
      waits, and no resume or delete goes on with a thread that has been put into a list,
      or has had its timer started, since the call took it out. */
  lemma PlacedExactly(max: nat, es: seq<Event>)
    requires CanCall(Start(max), es)
    ensures AlwaysPlaced(Start(max), es) <==> CanRun(Start(max), es)
  {
    StartPlaced(max);
    PlacedFrom(Start(max), es);
  }

  // -------------------------------------------------- what that means for a thread

  /** A delete has taken t out of its list and not yet closed it. */
  predicate DeleteUnderWay(v: View, t: Tid)
  {
    exists a :: a in v.calls && (v.calls[a].Stopping? || v.calls[a].Closing?) && v.calls[a].t == t
  }

  predicate OutIsDelete(v: View) { forall t :: t in v.out ==> DeleteUnderWay(v, t) }

  /** Only a delete takes a thread out and leaves it READY. */
  lemma OutKeeps(v: View, e: Event)
    requires Shaped(v) && Callable(v, e) && OutIsDelete(v)
    ensures OutIsDelete(Apply(v, e))
  {
    if e.GoOn? {
      OutGoesOn(v);
    } else {
      OutShrinks(v, e);
      var w := Apply(v, e);
      hide Apply, Callable;
      forall t | t in w.out ensures DeleteUnderWay(w, t) {
        var a :| a in v.calls && (v.calls[a].Stopping? || v.calls[a].Closing?) && v.calls[a].t == t;
        assert a in w.calls && w.calls[a] == v.calls[a];
      }
    }
  }

  lemma OutShrinks(v: View, e: Event)
    requires Shaped(v) && Callable(v, e) && !e.GoOn?
    ensures Apply(v, e).out <= v.out && forall a :: a in v.calls ==> a in Apply(v, e).calls && Apply(v, e).calls[a] == v.calls[a]
  {
    hide SuspendStep, ResumeStep, StartupStep, SleepStep, BlockStep, SetPriorityStep, TimeoutStep, Closed, BeginStep, Scheduled;
    match e
    case Startup(t) => StepsOut(v, t);
    case Begin => BeginOut(v, FirstReady(v.ready, 0));
    case Suspend(t) => StepsOut(v, t);
    case Resume(t) => StepsOut(v, t);
    case Timeout(t) => StepsOut(v, t); ScheduledOut(TimeoutStep(v, t));
    case Sleep => WaitsOut(v, v.current, false);
    case Block(timed) => WaitsOut(v, v.current, timed);
    case Yield => ScheduledOut(With(v, v.current, v.threads[v.current].(yielding := true)));
    case SetPriority(t, prio) => PriorityOut(v, t, prio);
    case Exit(kept) => ClosedOut(v, v.current, kept); ScheduledOut(Closed(v, v.current, kept));
    case Delete(t, kept) => ClosedOut(v, t, kept);
    case Reschedule => ScheduledOut(v);
    case _ =>
  }

  predicate NoMoreOut(v: View, w: View) { w.out <= v.out && w.calls == v.calls }

  lemma StepsOut(v: View, t: Tid)
    requires Shaped(v) && t in v.threads
    ensures NoMoreOut(v, SuspendStep(v, t)) && NoMoreOut(v, ResumeStep(v, t)) && NoMoreOut(v, TimeoutStep(v, t))
    ensures NoMoreOut(v, StartupStep(v, t))
  {
  }

  lemma BeginOut(v: View, hi: nat)
    requires Shaped(v) && hi < v.max
    ensures NoMoreOut(v, BeginStep(v, hi))
  {
  }

  lemma WaitsOut(v: View, t: Tid, timed: bool)
    requires Shaped(v) && t in v.threads
    ensures NoMoreOut(v, SleepStep(v, t)) && NoMoreOut(v, BlockStep(v, t, timed))
  {
    StepsOut(v, t);
    hide SuspendStep;
  }

  lemma PriorityOut(v: View, t: Tid, prio: nat)
    requires Shaped(v) && t in v.threads && prio < v.max
    ensures NoMoreOut(v, SetPriorityStep(v, t, prio))
  {
  }

  lemma ClosedOut(v: View, t: Tid, kept: bool)
    requires Shaped(v) && t in v.threads
    ensures NoMoreOut(v, Closed(v, t, kept))
  {
  }

  lemma ScheduledOut(v: View)
    requires Shaped(v)
    ensures NoMoreOut(v, Scheduled(v))
  {
  }

  lemma OutGoesOn(v: View)
    requires Shaped(v) && v.current in v.calls && OutIsDelete(v)
    ensures OutIsDelete(GoOnStep(v))
  {
    var w, c := GoOnStep(v), v.calls[v.current];
    forall t | t in w.out ensures DeleteUnderWay(w, t) {
      if c.t == t && (c.Removing? || c.Stopping?) {
        assert v.current in w.calls && w.calls[v.current].t == t;
      } else {
        var a :| a in v.calls && (v.calls[a].Stopping? || v.calls[a].Closing?) && v.calls[a].t == t;
        assert a != v.current ==> a in w.calls && w.calls[a] == v.calls[a];
        assert a == v.current ==> c.Closing? && t !in w.out;
      }
    }
  }

  lemma {:induction false} RunOut(v: View, es: seq<Event>)
    requires CanCall(v, es) && OutIsDelete(v)
    ensures OutIsDelete(Run(v, es))
    decreases es
  {
    if es != [] {
      hide Apply, Callable, OutIsDelete;
      OutKeeps(v, es[0]);
      RunOut(Apply(v, es[0]), es[1..]);
    }
  }

  /** In every state of such a run, a READY thread is in exactly the list of its priority
      and not current, unless a delete of it is under way; a RUNNING thread is the current
      one and in no list; a thread timer runs only while its thread is suspended; and a
      thread is in no two lists, nor twice in one. */
  lemma EveryRun(max: nat, es: seq<Event>, t: Tid)
    requires CanRun(Start(max), es)
    ensures CanCall(Start(max), es)
    ensures var v := Run(Start(max), es);
            t in v.threads ==>
              && (v.threads[t].stat == READY ==> Listed(v, t) || DeleteUnderWay(v, t))
              && (forall p :: 0 <= p < |v.ready| && t in v.ready[p] ==> v.threads[t].stat == READY && p == v.threads[t].prio && t != v.current)
              && (v.threads[t].stat == RUNNING ==>
                    t == v.current && t !in v.waiting && t !in v.defunct && forall p :: 0 <= p < |v.ready| ==> t !in v.ready[p])
              && (v.threads[t].timer ==> v.threads[t].stat == SUSPEND)
              && !(Listed(v, t) && t in v.waiting) && !(Listed(v, t) && t in v.defunct) && !(t in v.waiting && t in v.defunct)
    ensures var v := Run(Start(max), es); Distinct(v.defunct) && forall p :: 0 <= p < |v.ready| ==> Distinct(v.ready[p])
  {
    StartPlaced(max);
    RunKeeps(Start(max), es);
    RunOut(Start(max), es);
    var v := Run(Start(max), es);
    hide Run, CanRun, CanCall, Start, DeleteUnderWay;
    assert OkAt(v, t);
    forall p | 0 <= p < |v.ready| && t in v.ready[p] ensures t in v.threads && v.threads[t].stat == READY && p == v.threads[t].prio && t != v.current {
      assert InList(v.ready, p, t);
    }
  }

  // ------------------------------------------------- when a timer means suspended

  predicate TimersOk(v: View) { forall t :: t in v.threads && v.threads[t].timer ==> v.threads[t].stat == SUSPEND }

  /** A closed thread starts its timer, or a thread whose timer runs is made ready or
      closed by a call that had stopped it. */
  predicate SpoilsTimer(v: View, e: Event)
  {
    match e
    case Sleep => Spoils(v, e)
    case Block(timed) => timed && Spoils(v, e)
    case GoOn =>
      v.current in v.calls && var c := v.calls[v.current];
      (c.Inserting? || c.Closing?) && c.t in v.threads && v.threads[c.t].timer
    case _ => false
  }

  lemma PlacedTimersOk(v: View)
    requires Placed(v)
    ensures TimersOk(v)
  {
    forall t | t in v.threads && v.threads[t].timer ensures v.threads[t].stat == SUSPEND { assert OkAt(v, t); }
  }

  lemma TimersStep(v: View, e: Event)
    requires Placed(v) && Callable(v, e)
    ensures Shaped(v) && (TimersOk(Apply(v, e)) <==> !SpoilsTimer(v, e))
  {
    PlacedShape(v);
    PlacedTimersOk(v);
    if !Spoils(v, e) {
      StepKeeps(v, e);
      hide Placed, Apply;
      PlacedTimersOk(Apply(v, e));
    } else {
      hide Placed;
      match e
      case Sleep => assert SleepStep(v, v.current).threads[v.current].timer;
      case Block(timed) => assert BlockStep(v, v.current, timed).threads[v.current].stat == CLOSE;
      case GoOn => TimersGoOn(v);
    }
  }

  lemma TimersGoOn(v: View)
    requires Shaped(v) && v.current in v.calls && TimersOk(v) && Surprised(v, v.calls[v.current])
    ensures TimersOk(GoOnStep(v)) <==> !SpoilsTimer(v, GoOn)
  {
    var t, w := v.calls[v.current].t, GoOnStep(v);
    OneThread(v);
    hide GoOnStep, Surprised;
    assert TimersOk(w) <==> (w.threads[t].timer ==> w.threads[t].stat == SUSPEND);
  }

  /** The region changes nobody but t, whose timer it starts in no case. */
  lemma OneThread(v: View)
    requires Shaped(v) && v.current in v.calls && Surprised(v, v.calls[v.current])
    ensures var c, w := v.calls[v.current], GoOnStep(v);
            && c.t in v.threads && w.threads == v.threads[c.t := w.threads[c.t]]
            && (c.Unlinking? ==> !w.threads[c.t].timer)
            && (c.Inserting? || c.Closing? ==> w.threads[c.t].timer == v.threads[c.t].timer && w.threads[c.t].stat != SUSPEND)
            && (c.Unlinking? || c.Inserting? || c.Closing?)
  {
    var c, w := v.calls[v.current], GoOnStep(v);
    assert w.threads == v.threads[c.t := w.threads[c.t]];
  }

  /** After any run without harm and any further step: an active thread timer means that
      its thread is suspended, exactly unless that step starts the timer of a closed
      thread, or goes on with a thread whose timer has been started again. */
  lemma TimersExactly(max: nat, es: seq<Event>, e: Event)
    requires CanRun(Start(max), es)
    ensures CanCall(Start(max), es) && Shaped(Run(Start(max), es))
    ensures Callable(Run(Start(max), es), e) ==>
              (TimersOk(Apply(Run(Start(max), es), e)) <==> !SpoilsTimer(Run(Start(max), es), e))
  {
    StartPlaced(max);
    RunKeeps(Start(max), es);
    var v := Run(Start(max), es);
    PlacedShape(v);
    hide Placed, Apply, Callable, SpoilsTimer, TimersOk, Run;
    if Callable(v, e) { TimersStep(v, e); }
  }

  // --------------------------------------------------- regions make up the whole call

  lemma GoesOn(v: View)
    requires Shaped(v) && v.current in v.calls
    ensures Callable(v, GoOn) && Apply(v, GoOn) == GoOnStep(v)
  {
    hide GoOnStep, Shaped;
  }

  /** Entering a call changes nothing else, and leaving it undoes that. */
  lemma CallAndReturn(v: View, w: View, c: Call, d: Call)
    requires Shaped(v) && Idle(v) && c.t in v.threads && w.current == v.current && w.calls == v.calls[v.current := c]
    requires w.threads.Keys == v.threads.Keys
    ensures Shaped(Calling(v, c)) && Calling(v, c).calls[v.current] == c
    ensures w.calls[w.current := d] == v.calls[v.current := d] && Returned(w).calls == v.calls
  {
  }

  /** A delete whose steps follow each other does what the call does in one step. */
  lemma DeleteInSteps(v: View, t: Tid, kept: bool)
    requires Placed(v) && Idle(v) && t in v.threads && v.threads[t].stat != CLOSE && v.threads[t].stat != INIT
    ensures Shaped(v)
    ensures CanCall(v, [CallDelete(t, kept), GoOn, GoOn, GoOn])
    ensures Run(v, [CallDelete(t, kept), GoOn, GoOn, GoOn]) == Apply(v, Delete(t, kept))
  {
    hide *;
    PlacedShape(v);
    DeleteStarts(v, t, kept);
    RemoveGoesOn(v, t, kept);
    StopAndClose(v, RemoveStep(v, t), t, kept);
    Steps4(v, CallDelete(t, kept), GoOn, GoOn, GoOn);
  }

  /** A thread that was never started is not taken out of a list. */
  lemma DeleteNewInSteps(v: View, t: Tid, kept: bool)
    requires Placed(v) && Idle(v) && t in v.threads && v.threads[t].stat == INIT
    ensures Shaped(v)
    ensures CanCall(v, [CallDelete(t, kept), GoOn, GoOn])
    ensures Run(v, [CallDelete(t, kept), GoOn, GoOn]) == Apply(v, Delete(t, kept))
  {
    hide *;
    PlacedShape(v);
    DeleteStarts(v, t, kept);
    InitOut(v, t);
    StopAndClose(v, v, t, kept);
    Steps3(v, CallDelete(t, kept), GoOn, GoOn);
  }

  lemma DeleteStarts(v: View, t: Tid, kept: bool)
    requires Shaped(v) && Idle(v) && t in v.threads && v.threads[t].stat != CLOSE
    ensures var c := Calling(v, if v.threads[t].stat == INIT then Stopping(t, kept) else Removing(t, kept));
            Callable(v, CallDelete(t, kept)) && Apply(v, CallDelete(t, kept)) == c && Shaped(c)
    ensures Apply(v, Delete(t, kept)) == Closed(v, t, kept)
  {
    hide Closed;
  }

  lemma RemoveGoesOn(v: View, t: Tid, kept: bool)
    requires Shaped(v) && Idle(v) && t in v.threads
    ensures var c, r := Calling(v, Removing(t, kept)), RemoveStep(v, t);
            && Shaped(c) && Shaped(r) && r == Unlinked(v, t).(out := r.out) && r.out - {t} == v.out - {t}
            && Callable(c, GoOn) && Apply(c, GoOn) == Calling(r, Stopping(t, kept))
  {
    var c, r := Calling(v, Removing(t, kept)), RemoveStep(v, t);
    CallAndReturn(v, c, Removing(t, kept), Stopping(t, kept));
    GoesOn(c);
    hide Apply;
    assert RemoveStep(c, t) == r.(calls := c.calls);
  }

  /** The last two steps, from a state where t has been taken out. */
  lemma StopAndClose(v: View, r: View, t: Tid, kept: bool)
    requires Shaped(v) && Idle(v) && t in v.threads && Shaped(r) && r == Unlinked(v, t).(out := r.out) && r.out - {t} == v.out - {t}
    ensures var c := Calling(r, Stopping(t, kept));
            && Shaped(c) && Callable(c, GoOn) && Shaped(Apply(c, GoOn)) && Callable(Apply(c, GoOn), GoOn)
            && Apply(Apply(c, GoOn), GoOn) == Closed(v, t, kept)
  {
    var c := Calling(r, Stopping(t, kept));
    var s := With(r, t, r.threads[t].(timer := false));
    var d := Calling(s, Closing(t, kept));
    CallAndReturn(r, c, Stopping(t, kept), Closing(t, kept));
    GoesOn(c);
    hide Apply, Callable;
    assert With(c, t, c.threads[t].(timer := false)) == s.(calls := c.calls);
    assert GoOnStep(c) == d;
    CallAndReturn(s, d, Closing(t, kept), Closing(t, kept));
    GoesOn(d);
    ClosesAlike(v, r, s, t, kept);
    assert Returned(d) == s;
  }

  lemma ClosesAlike(v: View, r: View, s: View, t: Tid, kept: bool)
    requires Shaped(v) && t in v.threads && Shaped(r) && r == Unlinked(v, t).(out := r.out) && r.out - {t} == v.out - {t}
    requires s == With(r, t, r.threads[t].(timer := false)) && Shaped(s)
    ensures CloseStep(s, t, kept) == Closed(v, t, kept)
  {
    assert CloseStep(s, t, kept).threads == Closed(v, t, kept).threads;
  }

  lemma InitOut(v: View, t: Tid)
    requires Placed(v) && t in v.threads && v.threads[t].stat == INIT
    ensures v.threads[t].prio < |v.ready| && v == Unlinked(v, t)
  {
    assert OkAt(v, t);
    NotListed(v, t);
    assert !InList(v.ready, v.threads[t].prio, t);
    WithoutAbsent(v.ready[v.threads[t].prio], t);
    WithoutAbsent(v.defunct, t);
    assert v.waiting - {t} == v.waiting;
  }

  lemma Steps3(v: View, a: Event, b: Event, c: Event)
    requires Shaped(v) && Callable(v, a) && Shaped(Apply(v, a)) && Callable(Apply(v, a), b)
    requires Shaped(Apply(Apply(v, a), b)) && Callable(Apply(Apply(v, a), b), c)
    ensures CanCall(v, [a, b, c]) && Run(v, [a, b, c]) == Apply(Apply(Apply(v, a), b), c)
  {
    hide Apply, Callable, Shaped;
    var es := [a, b, c];
    assert es[1..] == [b, c] && [b, c][1..] == [c] && [c][1..] == [];
    var w := Apply(Apply(v, a), b);
    assert CanCall(Apply(w, c), []) && Run(Apply(w, c), []) == Apply(w, c);
    assert CanCall(w, [c]) && Run(w, [c]) == Apply(w, c);
    assert CanCall(Apply(v, a), [b, c]) && Run(Apply(v, a), [b, c]) == Apply(w, c);
  }

  lemma Steps4(v: View, a: Event, b: Event, c: Event, d: Event)
    requires Shaped(v) && Callable(v, a) && Shaped(Apply(v, a)) && Callable(Apply(v, a), b)
    requires Shaped(Apply(Apply(v, a), b)) && Callable(Apply(Apply(v, a), b), c)
    requires Shaped(Apply(Apply(Apply(v, a), b), c)) && Callable(Apply(Apply(Apply(v, a), b), c), d)
    ensures CanCall(v, [a, b, c, d]) && Run(v, [a, b, c, d]) == Apply(Apply(Apply(Apply(v, a), b), c), d)
  {
    hide Apply, Callable, Shaped;
    Steps3(Apply(v, a), b, c, d);
    assert [a, b, c, d][1..] == [b, c, d];
  }

  /** So does a resume. */
  lemma ResumeInSteps(v: View, t: Tid)
    requires Placed(v) && Idle(v) && t in v.threads && v.threads[t].stat == SUSPEND
    ensures Shaped(v)
    ensures CanCall(v, [CallResume(t), GoOn, GoOn]) && Run(v, [CallResume(t), GoOn, GoOn]) == Apply(v, Resume(t))
  {
    PlacedShape(v);
    assert OkAt(v, t);
    ResumeStarts(v, t);
    assert v.out - {t} == v.out;
    hide *;
    UnlinkGoesOn(v, t);
    InsertGoesOn(v, t);
    Steps3(v, CallResume(t), GoOn, GoOn);
  }

  lemma ResumeStarts(v: View, t: Tid)
    requires Shaped(v) && Idle(v) && t in v.threads && v.threads[t].stat == SUSPEND
    ensures var c := Calling(v, Unlinking(t)); Callable(v, CallResume(t)) && Apply(v, CallResume(t)) == c && Shaped(c)
    ensures Apply(v, Resume(t)) == InsertStep(With(Out(v, t), t, v.threads[t].(timer := false)), t)
  {
    hide InsertStep, Out;
  }

  lemma UnlinkGoesOn(v: View, t: Tid)
    requires Shaped(v) && Idle(v) && t in v.threads
    ensures var c, u := Calling(v, Unlinking(t)), UnlinkStep(v, t);
            Shaped(c) && Shaped(u) && Idle(u) && Callable(c, GoOn) && Apply(c, GoOn) == Calling(u, Inserting(t)) && Shaped(Calling(u, Inserting(t)))
  {
    var c, u := Calling(v, Unlinking(t)), UnlinkStep(v, t);
    CallAndReturn(v, c, Unlinking(t), Inserting(t));
    GoesOn(c);
    hide Apply;
    assert UnlinkStep(c, t) == u.(calls := c.calls);
    CallAndReturn(u, Calling(u, Inserting(t)), Inserting(t), Inserting(t));
  }

  lemma InsertGoesOn(v: View, t: Tid)
    requires Shaped(v) && Idle(v) && t in v.threads && v.out - {t} == v.out
    ensures var u := UnlinkStep(v, t); var d := Calling(u, Inserting(t));
            && Shaped(u) && u.current in u.threads && Shaped(d) && Callable(d, GoOn)
            && Apply(d, GoOn) == InsertStep(With(Out(v, t), t, v.threads[t].(timer := false)), t)
  {
    UnlinkGoesOn(v, t);
    var u := UnlinkStep(v, t);
    var d := Calling(u, Inserting(t));
    CallAndReturn(u, d, Inserting(t), Inserting(t));
    GoesOn(d);
    hide Apply, InsertStep;
    assert Returned(d) == u == With(Out(v, t), t, v.threads[t].(timer := false));
  }
}
