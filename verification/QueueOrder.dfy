/** The order within a ready queue: first in, first out. */
module QueueOrder {
  import opened Lists
  import opened WaitList
  import opened Scheduler
  import opened ThreadCalls

  function Pos(list: seq<Tid>, t: Tid): (i: nat)
    requires t in list
    ensures i < |list| && list[i] == t && forall k :: 0 <= k < i ==> list[k] != t
  {
    if list[0] == t then 0 else
      assert list == [list[0]] + list[1..];
      1 + Pos(list[1..], t)
  }

  /** Nobody who stays, but perhaps x, is further back. */
  ghost predicate Forward(a: seq<Tid>, b: seq<Tid>, x: int)
  {
    forall t :: t in a && t in b && t != x ==> Pos(b, t) <= Pos(a, t)
  }

  lemma {:induction false} ForwardWithout(a: seq<Tid>, y: Tid)
    ensures Forward(a, Without(a, y), NONE)
  {
    if a != [] {
      ForwardWithout(a[1..], y);
      assert a == [a[0]] + a[1..];
      var b, c := Without(a, y), Without(a[1..], y);
      forall t | t in a && t in b ensures Pos(b, t) <= Pos(a, t) {
        if t != a[0] {
          assert t in a[1..] && t in c;
          assert a[0] != y ==> b[0] == a[0] && b[1..] == c;
        }
      }
    }
  }

  lemma ForwardAppend(a: seq<Tid>, y: Tid, x: int)
    requires y !in a || x == y
    ensures Forward(a, a + [y], x)
  {
    forall t | t in a && t != x ensures Pos(a + [y], t) <= Pos(a, t) {
      var i := Pos(a, t);
      assert (a + [y])[i] == t;
    }
  }

  lemma ForwardTrans(a: seq<Tid>, b: seq<Tid>, c: seq<Tid>, x: int)
    requires Forward(a, b, x) && Forward(b, c, x)
    requires forall t :: t in a && t in c && t != x ==> t in b
    ensures Forward(a, c, x)
  {
  }

  lemma OutForward(v: View, t: Tid, p: nat)
    requires Shaped(v) && t in v.threads && p < v.max
    ensures Forward(v.ready[p], Out(v, t).ready[p], NONE) && Unlinked(v, t).ready == Out(v, t).ready
    ensures forall x :: x in Out(v, t).ready[p] ==> x in v.ready[p]
    ensures forall x :: x in v.ready[p] && x != t ==> x in Out(v, t).ready[p]
  {
    ForwardWithout(v.ready[p], t);
    ForwardSelf(v.ready[p]);
    hide Forward;
  }

  lemma ForwardSelf(a: seq<Tid>)
    ensures Forward(a, a, NONE)
  {
  }

  /** A thread that is in no list is taken out of its wait list and made ready. */
  lemma ReadyForward(v: View, w: View, t: Tid, p: nat)
    requires Placed(v) && Shaped(v) && t in v.threads && v.threads[t].stat != READY && p < v.max && Shaped(w) && t in w.threads
    requires w.max == v.max && (w.ready == v.ready || w.ready == Out(v, t).ready)
    ensures Forward(v.ready[p], InsertStep(w, t).ready[p], NONE)
    ensures forall x :: x in v.ready[p] ==> x in InsertStep(w, t).ready[p]
  {
    PlacedShape(v);
    NotListed(v, t);
    assert !InList(v.ready, p, t);
    OutForward(v, t, p);
    OutSame(v, t);
    ForwardAppend(v.ready[p], t, NONE);
    ForwardSelf(v.ready[p]);
    hide Forward, Placed, Out;
  }

  lemma OutSame(v: View, t: Tid)
    requires Placed(v) && Shaped(v) && t in v.threads && v.threads[t].stat != READY
    ensures Out(v, t).ready == v.ready
  {
    NotListed(v, t);
    var p := v.threads[t].prio;
    assert !InList(v.ready, p, t);
    WithoutAbsent(v.ready[p], t);
  }

  lemma ScheduledForward(v: View, p: nat)
    requires Placed(v) && Shaped(v) && p < v.max
    ensures Scheduled(v).max == v.max && |Scheduled(v).ready| == v.max
    ensures Forward(v.ready[p], Scheduled(v).ready[p], NONE)
    ensures forall x :: x in Scheduled(v).ready[p] ==> x in v.ready[p] || x == v.current
  {
    ForwardSelf(v.ready[p]);
    var hi := FirstReady(v.ready, 0);
    if v.current in v.threads && v.lock == 0 && hi < v.max && !Stays(v) {
      RequeueKeeps(v);
      var w := Requeue(v);
      assert w.ready[hi] != [];
      SwitchKeeps(w, hi);
      assert OkAt(v, v.current);
      if v.threads[v.current].stat == RUNNING {
        NotListed(v, v.current);
        assert !InList(v.ready, p, v.current);
        ForwardAppend(v.ready[p], v.current, NONE);
      }
      var to := w.ready[hi][0];
      OutForward(w, to, p);
      ForwardTrans(v.ready[p], w.ready[p], Out(w, to).ready[p], NONE);
    }
  }

  /** A first part that moves nobody back, then rt_schedule. */
  lemma ThenScheduled(v: View, w: View, p: nat)
    requires Placed(v) && Placed(w) && Shaped(w) && w.max == v.max && p < v.max && w.current == v.current
    requires Forward(v.ready[p], w.ready[p], NONE)
    ensures Scheduled(w).max == v.max && |Scheduled(w).ready| == v.max
    ensures Forward(v.ready[p], Scheduled(w).ready[p], NONE)
  {
    ScheduledForward(w, p);
    CurrentOut(v, p);
    hide Scheduled, Placed, Forward;
    ForwardTrans(v.ready[p], w.ready[p], Scheduled(w).ready[p], NONE);
  }

  lemma CurrentOut(v: View, p: nat)
    requires Placed(v) && p < v.max
    ensures forall x :: x in v.ready[p] ==> x != v.current
  {
    forall x | x in v.ready[p] ensures x != v.current {
      assert InList(v.ready, p, x);
      assert OkAt(v, x);
    }
  }

  /** A thread that stays ready at one priority never moves back in its queue; only a
      change of its own priority puts it at the end again. */
  lemma NeverBack(v: View, e: Event, p: nat)
    requires Placed(v) && Enabled(v, e) && p < v.max
    ensures Shaped(v) && |Apply(v, e).ready| == v.max
    ensures Forward(v.ready[p], Apply(v, e).ready[p], if e.SetPriority? then e.t else NONE)
  {
    PlacedShape(v);
    CurrentIn(v);
    ForwardSelf(v.ready[p]);
    hide Placed, Forward, Scheduled, Shaped, StartupStep, SuspendStep, ResumeStep, TimeoutStep, SleepStep, BlockStep, SetPriorityStep, Closed, BeginStep, GoOnStep, Surprised;
    match e
    case Startup(t) => StartForward(v, t, p);
    case Begin => SwitchForward(v, FirstReady(v.ready, 0), p);
    case Suspend(t) => SuspendForward(v, t, p);
    case Resume(t) => ResumeForward(v, t, p);
    case Timeout(t) => TimeoutForward(v, t, p);
    case Sleep => SuspendForward(v, v.current, p); SleepReady(v, v.current);
    case Block(timed) => SuspendForward(v, v.current, p); BlockReady(v, v.current, timed);
    case Yield => YieldForward(v, v.current, p);
    case SetPriority(t, prio) => PriorityForward(v, t, prio, p);
    case Exit(kept) => ExitForward(v, v.current, kept, p);
    case Delete(t, kept) => CloseForward(v, t, kept, p);
    case Reschedule => ScheduledForward(v, p);
    case GoOn => GoOnForward(v, p);
    case Create(t, prio) =>
    case EnterCritical =>
    case ExitCritical =>
    case CallSuspend(t) =>
    case CallResume(t) =>
    case CallStartup(t) =>
    case CallDelete(t, kept) =>
  }

  /** t is in the list p in every state of the run, and nobody sets its priority. */
  predicate StaysReady(v: View, es: seq<Event>, t: Tid, p: nat)
    requires CanRun(v, es)
    decreases es
  {
    InList(v.ready, p, t) && (es == [] || (!(es[0].SetPriority? && es[0].t == t) && StaysReady(Apply(v, es[0]), es[1..], t, p)))
  }

  /** In every run a thread that stays ready at one priority only moves forward. */
  lemma {:induction false} NeverBackInRun(v: View, es: seq<Event>, t: Tid, p: nat)
    requires Placed(v) && CanRun(v, es) && StaysReady(v, es, t, p)
    ensures CanCall(v, es)
    ensures InList(v.ready, p, t) && InList(Run(v, es).ready, p, t) && Pos(Run(v, es).ready[p], t) <= Pos(v.ready[p], t)
    decreases es
  {
    RunIsCall(v, es);
    if es != [] {
      var w := Apply(v, es[0]);
      ListCount(v);
      hide Placed, Apply, Enabled;
      StepKeeps(v, es[0]);
      NeverBack(v, es[0], p);
      NeverBackInRun(w, es[1..], t, p);
    }
  }

  lemma ListCount(v: View)
    requires Placed(v)
    ensures |v.ready| == v.max
  {
  }

  lemma SuspendForward(v: View, t: Tid, p: nat)
    requires Placed(v) && Shaped(v) && t in v.threads && p < v.max
    ensures |SuspendStep(v, t).ready| == v.max && Forward(v.ready[p], SuspendStep(v, t).ready[p], NONE)
  {
    OutForward(v, t, p);
    ForwardSelf(v.ready[p]);
    hide Forward;
  }

  lemma BlockReady(v: View, t: Tid, timed: bool)
    requires Shaped(v) && t in v.threads
    ensures BlockStep(v, t, timed).ready == SuspendStep(v, t).ready
  {
  }

  lemma ResumeForward(v: View, t: Tid, p: nat)
    requires Placed(v) && Shaped(v) && t in v.threads && p < v.max
    ensures |ResumeStep(v, t).ready| == v.max && Forward(v.ready[p], ResumeStep(v, t).ready[p], NONE)
  {
    ForwardSelf(v.ready[p]);
    hide Forward;
    if v.threads[t].stat == SUSPEND { ReadyForward(v, With(Out(v, t), t, v.threads[t].(timer := false)), t, p); }
  }

  lemma TimeoutForward(v: View, t: Tid, p: nat)
    requires Placed(v) && Shaped(v) && t in v.threads && v.threads[t].timer && p < v.max
    ensures var w := TimeoutStep(v, t);
            Shaped(w) && |Scheduled(w).ready| == v.max && Forward(v.ready[p], Scheduled(w).ready[p], NONE)
  {
    TimerMeansSuspended(v, t);
    TimeoutKeeps(v, t);
    PlacedShape(TimeoutStep(v, t));
    ReadyForward(v, With(Out(v, t), t, v.threads[t].(timer := false)), t, p);
    hide Forward, Scheduled;
    ThenScheduled(v, TimeoutStep(v, t), p);
  }

  lemma SleepReady(v: View, t: Tid)
    requires Shaped(v) && t in v.threads
    ensures SleepStep(v, t).ready == SuspendStep(v, t).ready
  {
  }

  /** The regions of a call: a thread is taken out, or put behind all that are there. */
  lemma GoOnForward(v: View, p: nat)
    requires Placed(v) && Shaped(v) && v.current in v.calls && !Surprised(v, v.calls[v.current]) && p < v.max
    ensures |GoOnStep(v).ready| == v.max && Forward(v.ready[p], GoOnStep(v).ready[p], NONE)
  {
    var t := v.calls[v.current].t;
    OutForward(v, t, p);
    ForwardSelf(v.ready[p]);
    assert Returned(v).ready == v.ready;
    if v.calls[v.current].Inserting? {
      var q := v.threads[t].prio;
      assert !InList(v.ready, q, t);
      if p == q { ForwardAppend(v.ready[p], t, NONE); }
    }
    hide Forward, Placed, Surprised;
  }

  lemma YieldForward(v: View, t: Tid, p: nat)
    requires Placed(v) && Shaped(v) && t in v.threads && p < v.max
    ensures var w := With(v, t, v.threads[t].(yielding := true));
            Shaped(w) && |Scheduled(w).ready| == v.max && Forward(v.ready[p], Scheduled(w).ready[p], NONE)
  {
    YieldKeeps(v, t);
    var w := With(v, t, v.threads[t].(yielding := true));
    PlacedShape(w);
    ForwardSelf(v.ready[p]);
    hide Forward, Scheduled;
    ThenScheduled(v, w, p);
  }

  lemma CloseForward(v: View, t: Tid, kept: bool, p: nat)
    requires Placed(v) && Shaped(v) && t in v.threads && p < v.max
    ensures |Closed(v, t, kept).ready| == v.max && Forward(v.ready[p], Closed(v, t, kept).ready[p], NONE)
  {
    OutForward(v, t, p);
    hide Forward;
  }

  lemma ExitForward(v: View, t: Tid, kept: bool, p: nat)
    requires Placed(v) && Shaped(v) && t in v.threads && p < v.max
    ensures var w := Closed(v, t, kept);
            Shaped(w) && |Scheduled(w).ready| == v.max && Forward(v.ready[p], Scheduled(w).ready[p], NONE)
  {
    CloseForward(v, t, kept, p);
    CloseKeeps(v, t, kept);
    PlacedShape(Closed(v, t, kept));
    hide Forward, Scheduled;
    ThenScheduled(v, Closed(v, t, kept), p);
  }

  lemma StartForward(v: View, t: Tid, p: nat)
    requires Placed(v) && Shaped(v) && t in v.threads && v.threads[t].stat == INIT && p < v.max
    ensures |StartupStep(v, t).ready| == v.max && Forward(v.ready[p], StartupStep(v, t).ready[p], NONE)
  {
    Bounds(v, t);
    PreparedKeeps(v, t);
    var w := With(v, t, Prepared(v.threads[t]));
    PlacedShape(w);
    hide Forward, Placed;
    ResumeForward(w, t, p);
  }

  lemma SwitchForward(v: View, hi: nat, p: nat)
    requires Placed(v) && Shaped(v) && v.current == NONE && hi < v.max && v.ready[hi] != [] && p < v.max
    ensures |BeginStep(v, hi).ready| == v.max && Forward(v.ready[p], BeginStep(v, hi).ready[p], NONE)
  {
    SwitchKeeps(v, hi);
    OutForward(v, v.ready[hi][0], p);
  }

  lemma PriorityForward(v: View, t: Tid, prio: nat, p: nat)
    requires Placed(v) && Shaped(v) && t in v.threads && prio < v.max && p < v.max
    ensures |SetPriorityStep(v, t, prio).ready| == v.max && Forward(v.ready[p], SetPriorityStep(v, t, prio).ready[p], t)
  {
    OutForward(v, t, p);
    var o := Out(v, t).ready[p];
    ForwardAppend(o, t, t);
    ForwardSelf(v.ready[p]);
    ForwardTrans(v.ready[p], o, o + [t], t);
  }
}
