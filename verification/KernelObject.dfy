/** The kernel's thread calls in place (src/thread.c, src/scheduler.c): thread fields,
    ready lists with their bitmap, and the lists of waiting and defunct threads. Each
    method is a step of ThreadCalls. */
module KernelObject {
  import opened Bitmap
  import opened Lists
  import opened WaitList
  import opened Scheduler
  import opened ThreadCalls
  import opened QueueOrder

  /** A thread in no ready list that is not waiting and not defunct is in no list. */
  lemma OutNothing(v: View, t: Tid)
    requires Placed(v) && Shaped(v) && t in v.threads && v.threads[t].stat == RUNNING
    ensures Out(v, t) == v
  {
    OutSame(v, t);
    assert OkAt(v, t);
    WithoutAbsent(v.defunct, t);
    assert v.waiting - {t} == v.waiting && v.out - {t} == v.out;
  }

  class Kernel {
    const max: nat
    const two: bool
    var threads: map<Tid, Thread>
    var ready: Ready
    var index: Index
    var current: int
    var waiting: set<Tid>
    var defunct: seq<Tid>
    var lock: nat
    ghost var calls: map<Tid, Call>
    ghost var out: set<Tid>

    ghost function V(): View
      reads this
    {
      View(max, threads, ready, current, waiting, defunct, lock, calls, out)
    }

    ghost predicate Valid()
      reads this
    {
      Placed(V()) && IndexOk(index, two, ready) && two == (max > 32)
    }

    constructor (max: nat)
      requires max <= 256
      ensures Valid() && V() == Start(max)
    {
      this.max, two := max, max > 32;
      threads, ready, index := map[], seq(max, _ => []), Index({}, seq(32, _ => {}));
      current, waiting, defunct, lock, calls, out := NONE, {}, [], 0, map[], {};
      new;
      assert two ==> TwoLevel(index, ready) by {
        if two {
          forall p: nat | p < 256 ensures BitOk(index.table, ready, p) {
          }
        }
      }
    }

    /** rt_schedule_insert_thread */
    method InsertThread(t: Tid)
      requires Shaped(V()) && t in threads && IndexOk(index, two, ready)
      modifies `threads, `ready, `index, `out
      ensures V() == InsertStep(old(V()), t) && IndexOk(index, two, ready)
    {
      hide IndexOk, SetBit;
      if t == current {
        threads := threads[t := threads[t].(stat := RUNNING)];
        return;
      }
      var p := threads[t].prio;
      IndexInsert(index, two, ready, p, ready[p] + [t]);
      threads := threads[t := threads[t].(stat := READY)];
      ready := ready[p := ready[p] + [t]];
      index := SetBit(index, two, p);
      out := out - {t};
    }

    /** rt_schedule_remove_thread */
    method RemoveThread(t: Tid)
      requires Shaped(V()) && t in threads && IndexOk(index, two, ready)
      modifies `ready, `index, `waiting, `defunct, `out
      ensures V() == Out(old(V()), t) && IndexOk(index, two, ready)
    {
      hide IndexOk, ClearBit;
      var p := threads[t].prio;
      IndexRemove(index, two, ready, p, Without(ready[p], t));
      ready := ready[p := Without(ready[p], t)];
      waiting, defunct, out := waiting - {t}, Without(defunct, t), out - {t};
      if ready[p] == [] {
        index := ClearBit(index, two, p);
      }
    }

    /** Let `to`, the head of the list hi, run instead of the current thread. */
    method Switch(to: Tid, insertFrom: bool, ghost hi: nat)
      requires Valid() && current in threads && hi < |ready| && ready[hi] != [] && ready[hi][0] == to && to in threads && to != current
      requires threads[to].prio == hi && (insertFrom <==> threads[current].stat == RUNNING)
      requires insertFrom ==> !threads[current].yielding
      modifies this
      ensures Shaped(old(V())) && Shaped(Requeue(old(V()))) && V() == SwitchTo(Requeue(old(V())), hi) && IndexOk(index, two, ready)
    {
      ghost var v := V();
      hide Placed, IndexOk;
      RequeueKeeps(v);
      var from := current;
      current := to;
      if insertFrom {
        InsertThread(from);
      }
      ghost var w := Requeue(v);
      assert w.ready[hi][0] == to;
      assert w.threads[to] == v.threads[to];
      assert V() == w.(current := to);
      RemoveThread(to);
      threads := threads[to := threads[to].(stat := RUNNING)];
    }

    method Schedule()
      requires Valid() && current in threads
      modifies this
      ensures Valid() && Shaped(old(V())) && V() == ScheduleStep(old(V()))
    {
      ghost var v := V();
      hide Placed, IndexOk, Highest;
      PlacedShape(v);
      ScheduleKeeps(v);
      SearchIsScan(index, two, ready);
      if lock == 0 {
        if index.group != {} {
          var hi := Highest(index, two);
          Head(v, hi);
          var to, insertFrom := ready[hi][0], false;
          if threads[current].stat == RUNNING {
            NotDead(v);
            PlacedStay(v, current, threads[current].(yielding := false));
            RequeueSame(v);
            if threads[current].prio < hi {
              to := current;
            } else if threads[current].prio == hi && !threads[current].yielding {
              to := current;
            } else {
              insertFrom := true;
            }
            threads := threads[current := threads[current].(yielding := false)];
          }
          if to != current {
            Switch(to, insertFrom, hi);
          } else {
            OutNothing(V(), current);
            RemoveThread(current);
            threads := threads[current := threads[current].(stat := RUNNING)];
            assert threads == v.threads[current := v.threads[current].(yielding := false)];
          }
        }
      }
    }

    /** The calls of src/thread.c, each one step of the state machine. */
    method Create(t: Tid, prio: nat)
      requires Valid() && Enabled(V(), Event.Create(t, prio))
      modifies this
      ensures Valid() && Shaped(old(V())) && V() == Apply(old(V()), Event.Create(t, prio))
    {
      hide Placed, IndexOk;
      StepKeeps(V(), Event.Create(t, prio));
      threads := threads[t := Thread(INIT, false, prio, prio, false)];
    }

    /** rt_system_scheduler_start */
    method Begin()
      requires Valid() && Enabled(V(), Event.Begin)
      modifies this
      ensures Valid() && Shaped(old(V())) && V() == Apply(old(V()), Event.Begin)
    {
      ghost var v := V();
      PlacedShape(v);
      hide Placed, IndexOk, Highest, BeginStep, Shaped;
      SearchIsScan(index, two, ready);
      var hi := Highest(index, two);
      Head(v, hi);
      BeginKeeps(v, hi);
      Launch(ready[hi][0], hi);
    }

    /** The head of the list hi is the first thread to run. */
    method Launch(to: Tid, ghost hi: nat)
      requires Shaped(V()) && IndexOk(index, two, ready) && hi < max && ready[hi] != [] && ready[hi][0] == to && to in threads
      modifies this
      ensures V() == BeginStep(old(V()), hi) && IndexOk(index, two, ready)
    {
      BeginIs(V(), hi);
      hide IndexOk, BeginStep;
      current := to;
      RemoveThread(to);
      threads := threads[to := threads[to].(stat := RUNNING, yielding := false)];
    }

    /** rt_thread_suspend */
    method SuspendThread(t: Tid) returns (ok: bool)
      requires Valid() && t in threads
      modifies this
      ensures Valid() && Shaped(old(V())) && V() == SuspendStep(old(V()), t) && current == old(current)
      ensures ok <==> old(threads)[t].stat == READY || old(threads)[t].stat == RUNNING
    {
      hide Placed, IndexOk, Out;
      ghost var v := V();
      SuspendKeeps(v, t);
      var stat := threads[t].stat;
      if stat != READY && stat != RUNNING { return false; }
      if stat == RUNNING { SelfOnly(v, t); }
      assert stat == RUNNING ==> t == current;
      RemoveThread(t);
      threads := threads[t := threads[t].(stat := SUSPEND)];
      threads := threads[t := threads[t].(timer := false)];
      assert threads == v.threads[t := v.threads[t].(stat := SUSPEND, timer := false)];
      return true;
    }

    /** rt_thread_resume */
    method ResumeThread(t: Tid) returns (ok: bool)
      requires Valid() && t in threads
      modifies this
      ensures Valid() && Shaped(old(V())) && V() == ResumeStep(old(V()), t) && current == old(current)
      ensures ok <==> old(threads)[t].stat == SUSPEND
    {
      hide Placed, IndexOk;
      ghost var v := V();
      ResumeKeeps(v, t);
      if threads[t].stat != SUSPEND { return false; }
      OutSame(v, t);
      waiting, defunct, out := waiting - {t}, Without(defunct, t), out - {t};
      threads := threads[t := threads[t].(timer := false)];
      InsertThread(t);
      return true;
    }

    /** rt_thread_startup */
    method Startup(t: Tid)
      requires Valid() && Enabled(V(), Event.Startup(t))
      modifies this
      ensures Valid() && Shaped(old(V())) && Shaped(Apply(old(V()), Event.Startup(t)))
      ensures V() == Scheduled(Apply(old(V()), Event.Startup(t)))
    {
      hide Placed, IndexOk, Scheduled, ScheduleStep, Shaped;
      ghost var v := V();
      StartupKeeps(v, t);
      Bounds(v, t);
      PlacedShape(StartupStep(v, t));
      PreparedKeeps(v, t);
      threads := threads[t := threads[t].(prio := threads[t].initPrio, yielding := false)];
      threads := threads[t := threads[t].(stat := SUSPEND)];
      assert threads == v.threads[t := Prepared(v.threads[t])];
      var _ := ResumeThread(t);
      ScheduleIfStarted();
    }

    method ScheduleIfStarted()
      requires Valid()
      modifies this
      ensures Valid() && Shaped(old(V())) && V() == Scheduled(old(V()))
    {
      PlacedShape(V());
      CurrentIn(V());
      hide Placed, IndexOk, ScheduleStep;
      if current != NONE {
        Schedule();
      }
    }

    /** rt_thread_timeout: the assertion that the thread is suspended holds. */
    method TimeoutThread(t: Tid)
      requires Valid() && Enabled(V(), Event.Timeout(t))
      modifies this
      ensures Valid() && Shaped(old(V())) && V() == Apply(old(V()), Event.Timeout(t))
    {
      hide Placed, IndexOk, Scheduled;
      ghost var v := V();
      TimerMeansSuspended(v, t);
      assert threads[t].stat == SUSPEND;
      TimeoutKeeps(v, t);
      PlacedShape(TimeoutStep(v, t));
      OutSame(v, t);
      threads := threads[t := threads[t].(timer := false)];
      waiting, defunct, out := waiting - {t}, Without(defunct, t), out - {t};
      InsertThread(t);
      ScheduleIfStarted();
    }

    /** rt_thread_sleep, if nothing comes before its rt_schedule */
    method SleepThread()
      requires Valid() && Enabled(V(), Event.Sleep)
      modifies this
      ensures Valid() && Shaped(old(V())) && Shaped(Apply(old(V()), Event.Sleep))
      ensures V() == Scheduled(Apply(old(V()), Event.Sleep))
    {
      CurrentIn(V());
      hide Placed, IndexOk, Scheduled, SuspendStep;
      ghost var v := V();
      SleepKeeps(v, current);
      SleepTimer(v, current);
      PlacedShape(SleepStep(v, current));
      var _ := SuspendThread(current);
      SuspendStill(v, current);
      threads := threads[current := threads[current].(timer := true)];
      ScheduleIfStarted();
    }

    /** rt_ipc_list_suspend on the current thread, with a timer for a timed wait. */
    method BlockThread(timed: bool)
      requires Valid() && Enabled(V(), Event.Block(timed))
      modifies this
      ensures Valid() && Shaped(old(V())) && V() == Apply(old(V()), Event.Block(timed))
    {
      CurrentIn(V());
      hide Placed, IndexOk, SuspendStep;
      ghost var v := V();
      BlockKeeps(v, current, timed);
      var _ := SuspendThread(current);
      SuspendStill(v, current);
      if timed {
        threads := threads[current := threads[current].(timer := true)];
      } else {
        assert threads == threads[current := threads[current].(timer := threads[current].timer)];
      }
      waiting := waiting + {current};
    }

    method YieldThread()
      requires Valid() && Enabled(V(), Event.Yield)
      modifies this
      ensures Valid() && Shaped(old(V())) && V() == Apply(old(V()), Event.Yield)
    {
      CurrentIn(V());
      hide Placed, IndexOk, Scheduled;
      ghost var v := V();
      PlacedShape(v);
      YieldKeeps(v, current);
      threads := threads[current := threads[current].(yielding := true)];
      PlacedShape(V());
      ScheduleIfStarted();
    }

    /** RT_THREAD_CTRL_CHANGE_PRIORITY */
    method ChangePriority(t: Tid, prio: nat)
      requires Valid() && Enabled(V(), Event.SetPriority(t, prio))
      modifies this
      ensures Valid() && Shaped(old(V())) && V() == Apply(old(V()), Event.SetPriority(t, prio))
    {
      ghost var v := V();
      if threads[t].stat == READY { ListedNotCurrent(v, t); }
      hide Placed, IndexOk;
      SetPriorityKeeps(v, t, prio);
      if threads[t].stat == READY {
        RemoveThread(t);
        threads := threads[t := threads[t].(prio := prio)];
        assert out - {t} == out;
        InsertThread(t);
        assert threads == v.threads[t := v.threads[t].(prio := prio)];
      } else {
        threads := threads[t := threads[t].(prio := prio)];
      }
    }

    /** rt_thread_exit */
    method ExitThread(kept: bool)
      requires Valid() && Enabled(V(), Event.Exit(kept))
      modifies this
      ensures Valid() && Shaped(old(V())) && V() == Apply(old(V()), Event.Exit(kept))
    {
      hide Placed, IndexOk, Scheduled;
      ghost var v := V();
      CloseKeeps(v, current, kept);
      PlacedShape(Closed(v, current, kept));
      CloseThread(current, kept);
      ScheduleIfStarted();
    }

    method CloseThread(t: Tid, kept: bool)
      requires Valid() && t in threads
      modifies this
      ensures Valid() && Shaped(old(V())) && V() == Closed(old(V()), t, kept)
    {
      hide Placed, IndexOk;
      ghost var v := V();
      CloseKeeps(v, t, kept);
      RemoveThread(t);
      threads := threads[t := threads[t].(stat := CLOSE, yielding := false)];
      threads := threads[t := threads[t].(timer := false)];
      assert threads == v.threads[t := v.threads[t].(stat := CLOSE, yielding := false, timer := false)];
      if kept {
        defunct := [t] + defunct;
      }
    }

    /** rt_thread_delete and rt_thread_detach */
    method DeleteThread(t: Tid, kept: bool)
      requires Valid() && t in threads
      modifies this
      ensures Valid() && Shaped(old(V())) && V() == Apply(old(V()), Event.Delete(t, kept))
    {
      PlacedShape(V());
      hide Placed, IndexOk, Closed;
      if threads[t].stat == CLOSE { return; }
      CloseThread(t, kept);
    }

    // What a thread that calls with interrupts enabled does, step by step.

    /** rt_thread_suspend looks at the state, outside its region. */
    method LookToSuspend(t: Tid) returns (ok: bool)
      requires Valid() && Enabled(V(), CallSuspend(t))
      modifies `calls
      ensures Valid() && Shaped(old(V())) && V() == Apply(old(V()), CallSuspend(t))
      ensures ok <==> old(V()).current in calls
    {
      hide Placed, IndexOk;
      StepKeeps(V(), CallSuspend(t));
      ok := threads[t].stat == READY || threads[t].stat == RUNNING;
      if ok { calls := calls[current := Suspending(t)]; }
    }

    /** Its region, whatever the state is by then. */
    method SuspendRegion(t: Tid)
      requires Valid() && current in calls && calls[current] == Suspending(t)
      modifies this
      ensures Valid() && Shaped(old(V())) && V() == GoOnStep(old(V()))
    {
      ghost var v := V();
      GoOnKeeps(v);
      CallThreads(v);
      hide Placed, IndexOk, Unlinked;
      calls := Returned(v).calls;
      RemoveThread(t);
      threads := threads[t := threads[t].(stat := SUSPEND)];
      threads := threads[t := threads[t].(timer := false)];
      assert threads == v.threads[t := v.threads[t].(stat := SUSPEND, timer := false)];
    }

    /** rt_thread_resume looks at the state, outside its regions. */
    method LookToResume(t: Tid) returns (ok: bool)
      requires Valid() && Enabled(V(), CallResume(t))
      modifies `calls
      ensures Valid() && Shaped(old(V())) && V() == Apply(old(V()), CallResume(t))
      ensures ok <==> old(V()).current in calls
    {
      hide Placed, IndexOk;
      StepKeeps(V(), CallResume(t));
      ok := threads[t].stat == SUSPEND;
      if ok { calls := calls[current := Unlinking(t)]; }
    }

    /** Its first region. The bits of the ready lists are not looked at, and need not be
        unless t is in one of them. */
    method UnlinkRegion(t: Tid)
      requires Valid() && current in calls && calls[current] == Unlinking(t) && !Surprised(V(), calls[current])
      modifies this
      ensures Valid() && Shaped(old(V())) && V() == GoOnStep(old(V()))
    {
      ghost var v := V();
      GoOnKeeps(v);
      CallThreads(v);
      NotTaken(v, t);
      hide Placed, IndexOk;
      waiting, defunct := waiting - {t}, Without(defunct, t);
      threads := threads[t := threads[t].(timer := false)];
      calls := calls[current := Inserting(t)];
    }

    /** Its second region: rt_schedule_insert_thread. */
    method InsertRegion(t: Tid)
      requires Valid() && current in calls && calls[current] == Inserting(t) && !Surprised(V(), calls[current])
      modifies this
      ensures Valid() && Shaped(old(V())) && V() == GoOnStep(old(V()))
    {
      ghost var v := V();
      GoOnKeeps(v);
      CallThreads(v);
      ReturnedKeeps(v);
      PlacedShape(Returned(v));
      hide Placed, IndexOk;
      calls := Returned(v).calls;
      InsertThread(t);
    }

    /** rt_thread_delete and rt_thread_detach look at the state, outside their regions. */
    method LookToDelete(t: Tid, kept: bool) returns (ok: bool)
      requires Valid() && Enabled(V(), CallDelete(t, kept))
      modifies `calls
      ensures Valid() && Shaped(old(V())) && V() == Apply(old(V()), CallDelete(t, kept))
      ensures ok <==> old(V()).current in calls
    {
      hide Placed, IndexOk;
      StepKeeps(V(), CallDelete(t, kept));
      ok := threads[t].stat != CLOSE;
      if ok { calls := calls[current := if threads[t].stat == INIT then Stopping(t, kept) else Removing(t, kept)]; }
    }

    /** Their first region: rt_schedule_remove_thread. */
    method RemoveRegion(t: Tid, kept: bool)
      requires Valid() && current in calls && calls[current] == Removing(t, kept)
      modifies this
      ensures Valid() && Shaped(old(V())) && V() == GoOnStep(old(V()))
    {
      ghost var v := V();
      GoOnKeeps(v);
      CallThreads(v);
      hide Placed, IndexOk;
      RemoveThread(t);
      calls := calls[current := Stopping(t, kept)];
      out := if threads[t].stat == READY then v.out + {t} else v.out - {t};
    }

    /** Their second region: rt_timer_detach. */
    method StopRegion(t: Tid, kept: bool)
      requires Valid() && current in calls && calls[current] == Stopping(t, kept)
      modifies this
      ensures Valid() && Shaped(old(V())) && V() == GoOnStep(old(V()))
    {
      ghost var v := V();
      GoOnKeeps(v);
      CallThreads(v);
      hide Placed, IndexOk;
      threads := threads[t := threads[t].(timer := false)];
      calls := calls[current := Closing(t, kept)];
    }

    /** Their last region: the thread is closed and linked into the defunct list. */
    method CloseRegion(t: Tid, kept: bool)
      requires Valid() && current in calls && calls[current] == Closing(t, kept) && !Surprised(V(), calls[current])
      modifies this
      ensures Valid() && Shaped(old(V())) && V() == GoOnStep(old(V()))
    {
      ghost var v := V();
      GoOnKeeps(v);
      CallThreads(v);
      hide Placed, IndexOk;
      threads := threads[t := threads[t].(stat := CLOSE, yielding := false)];
      if kept { defunct := [t] + defunct; }
      calls, out := Returned(v).calls, out - {t};
    }

    /** rt_enter_critical and rt_exit_critical */
    method Lock()
      requires Valid()
      modifies this
      ensures Valid() && Shaped(old(V())) && V() == Apply(old(V()), Event.EnterCritical)
    {
      PlacedShape(V());
      hide Placed, IndexOk;
      LockKeeps(V(), lock + 1);
      lock := lock + 1;
    }

    method Unlock()
      requires Valid()
      modifies this
      ensures Valid() && Shaped(old(V())) && Shaped(Apply(old(V()), Event.ExitCritical))
      ensures var v := Apply(old(V()), Event.ExitCritical); V() == if v.lock == 0 then Scheduled(v) else v
    {
      PlacedShape(V());
      hide Placed, IndexOk, Scheduled;
      var depth := lock - 1;
      if depth <= 0 {
        LockKeeps(V(), 0);
        lock := 0;
        PlacedShape(V());
        ScheduleIfStarted();
      } else {
        LockKeeps(V(), depth);
        lock := depth;
      }
    }
  }

  lemma BeginIs(v: View, hi: nat)
    requires Shaped(v) && hi < v.max && v.ready[hi] != [] && v.ready[hi][0] in v.threads
    ensures var to := v.ready[hi][0];
            BeginStep(v, hi) == Out(v, to).(threads := v.threads[to := v.threads[to].(stat := RUNNING, yielding := false)], current := to)
  {
    var to := v.ready[hi][0];
    assert BeginStep(v, hi).threads == v.threads[to := v.threads[to].(stat := RUNNING, yielding := false)];
  }

  lemma RequeueSame(v: View)
    requires Shaped(v) && v.current in v.threads && v.threads[v.current].stat == RUNNING
    ensures var w := With(v, v.current, v.threads[v.current].(yielding := false)); Shaped(w) && Requeue(w) == Requeue(v)
  {
    var w := With(v, v.current, v.threads[v.current].(yielding := false));
    assert Requeue(w).threads == Requeue(v).threads;
  }

  lemma SelfOnly(v: View, t: Tid)
    requires Placed(v) && t in v.threads && v.threads[t].stat == RUNNING
    ensures t == v.current
  {
    assert OkAt(v, t);
  }

  lemma ListedNotCurrent(v: View, t: Tid)
    requires Placed(v) && t in v.threads && v.threads[t].stat == READY
    ensures t != v.current
  {
    assert OkAt(v, t);
  }

  lemma SuspendStill(v: View, t: Tid)
    requires Shaped(v) && t in v.threads
    ensures t in SuspendStep(v, t).threads
  {
  }

  /** The first thread of the list the search gives. */
  lemma Head(v: View, hi: int)
    requires Placed(v) && hi == FirstReady(v.ready, 0) < |v.ready|
    ensures v.ready[hi] != [] && v.ready[hi][0] in v.threads && v.ready[hi][0] != v.current
    ensures v.threads[v.ready[hi][0]].prio == hi
  {
    assert InList(v.ready, hi, v.ready[hi][0]);
    assert OkAt(v, v.ready[hi][0]);
  }

  lemma NotTaken(v: View, t: Tid)
    requires Placed(v) && t in v.threads && !Listed(v, t)
    ensures v.threads[t].prio < |v.ready| && v.ready[v.threads[t].prio := Without(v.ready[v.threads[t].prio], t)] == v.ready
  {
    assert OkAt(v, t);
    WithoutAbsent(v.ready[v.threads[t].prio], t);
  }
}
