/** Ready queues, the running thread and thread states (src/scheduler.c, src/thread.c)
    on one processor. Each call is one step. */
module Scheduler {
  import opened Bitmap
  import opened Lists
  import opened WaitList

  // ------------------------------------------------------------ the ready-queue index

  /** rt_thread_ready_priority_group and rt_thread_ready_table, as sets of bits. */
  datatype Index = Index(group: Bits, table: seq<Bits>)

  type Ready = seq<seq<Tid>>

  /** One level up to 32 priorities: a bit for each. */
  ghost predicate OneLevel(ix: Index, ready: Ready)
  {
    && |ready| <= 32
    && (forall p :: p in ix.group ==> p < |ready| && ready[p] != [])
    && (forall p :: 0 <= p < |ready| && ready[p] != [] ==> p in ix.group)
  }

  predicate Busy(ready: Ready, p: nat) { p < |ready| && ready[p] != [] }

  /** The bit of priority p tells whether its list has a thread. */
  predicate BitOk(table: seq<Bits>, ready: Ready, p: nat)
  {
    p / 8 < |table| && (p % 8 in table[p / 8] <==> Busy(ready, p))
  }

  /** Two levels up to 256: a bit for each eight, and a byte of bits for each of those. */
  ghost predicate TwoLevel(ix: Index, ready: Ready)
  {
    && |ready| <= 256 && |ix.table| == 32
    && (forall n: nat :: n in ix.group <==> n < 32 && ix.table[n] != {})
    && (forall n, b :: 0 <= n < 32 && b in ix.table[n] ==> b < 8)
    && (forall p: nat {:trigger BitOk(ix.table, ready, p)} :: p < 256 ==> BitOk(ix.table, ready, p))
  }

  ghost predicate IndexOk(ix: Index, two: bool, ready: Ready) { if two then TwoLevel(ix, ready) else OneLevel(ix, ready) }

  function SetBit(ix: Index, two: bool, p: nat): Index
    requires two ==> p / 8 < |ix.table|
  {
    if two then Index(ix.group + {p / 8}, ix.table[p / 8 := ix.table[p / 8] + {p % 8}])
    else ix.(group := ix.group + {p})
  }

  function ClearBit(ix: Index, two: bool, p: nat): Index
    requires two ==> p / 8 < |ix.table|
  {
    if two then
      var t := ix.table[p / 8] - {p % 8};
      Index(if t == {} then ix.group - {p / 8} else ix.group, ix.table[p / 8 := t])
    else ix.(group := ix.group - {p})
  }

  /** The search of _get_highest_priority_thread. */
  function Highest(ix: Index, two: bool): int
    requires forall k :: k in ix.group ==> k < 32
    requires two ==> |ix.table| == 32 && forall n, b :: 0 <= n < 32 && b in ix.table[n] ==> b < 8
  {
    if two then
      var number := Ffs(Word(ix.group)) - 1;
      if 0 <= number < 32 then 8 * number + Ffs(Word(ix.table[number])) - 1 else -1
    else Ffs(Word(ix.group)) - 1
  }

  /** The linear scan it stands for: the first list that is not empty. */
  function FirstReady(ready: Ready, p: nat): (r: nat)
    requires p <= |ready|
    ensures p <= r <= |ready| && (r < |ready| ==> ready[r] != [])
    ensures forall q :: p <= q < r ==> ready[q] == []
    decreases |ready| - p
  {
    if p == |ready| || ready[p] != [] then p else FirstReady(ready, p + 1)
  }

  /** The bitmap search is the linear scan, and the group is zero exactly when no
      thread is ready. */
  lemma SearchIsScan(ix: Index, two: bool, ready: Ready)
    requires IndexOk(ix, two, ready)
    ensures forall k :: k in ix.group ==> k < 32
    ensures two ==> |ix.table| == 32 && forall n, b :: 0 <= n < 32 && b in ix.table[n] ==> b < 8
    ensures ix.group == {} <==> FirstReady(ready, 0) == |ready|
    ensures ix.group != {} ==> Highest(ix, two) == FirstReady(ready, 0) < |ready|
  {
    var r := FirstReady(ready, 0);
    if two {
      SearchTwo(ix, ready);
    } else {
      SearchOne(ix, ready);
    }
  }

  lemma SearchOne(ix: Index, ready: Ready)
    requires OneLevel(ix, ready)
    ensures ix.group == {} <==> FirstReady(ready, 0) == |ready|
    ensures ix.group != {} ==> Ffs(Word(ix.group)) - 1 == FirstReady(ready, 0) < |ready|
  {
    var r := FirstReady(ready, 0);
    if ix.group != {} {
      hide Word, Ffs;
      FfsFirst(ix.group);
      assert r < |ready| ==> r in ix.group;
    } else {
      assert r < |ready| ==> r in ix.group;
    }
  }

  lemma SearchTwo(ix: Index, ready: Ready)
    requires TwoLevel(ix, ready)
    ensures ix.group == {} <==> FirstReady(ready, 0) == |ready|
    ensures ix.group != {} ==>
              var n := Ffs(Word(ix.group)) - 1;
              0 <= n < 32 && 8 * n + Ffs(Word(ix.table[n])) - 1 == FirstReady(ready, 0) < |ready|
  {
    hide Word, Ffs;
    var r := FirstReady(ready, 0);
    if r < |ready| {
      assert BitOk(ix.table, ready, r);
      assert r / 8 in ix.group;
    }
    if ix.group != {} {
      FfsFirst(ix.group);
      var n := Ffs(Word(ix.group)) - 1;
      FfsFirst(ix.table[n]);
      LeastOfTwo(ix, ready, n, Ffs(Word(ix.table[n])) - 1);
    }
  }

  lemma LeastOfTwo(ix: Index, ready: Ready, n: nat, b: nat)
    requires TwoLevel(ix, ready) && IsFirst(ix.group, 0, 32, n) && IsFirst(ix.table[n], 0, 32, b)
    ensures 8 * n + b == FirstReady(ready, 0) < |ready|
  {
    var p, r := 8 * n + b, FirstReady(ready, 0);
    DivMod(p, n, b);
    assert BitOk(ix.table, ready, p);
    assert r <= p && r < |ready|;
    assert BitOk(ix.table, ready, r);
    assert r / 8 in ix.group;
  }

  lemma DivMod(p: nat, n: nat, b: nat)
    requires b < 8
    ensures p == 8 * n + b <==> p / 8 == n && p % 8 == b
  {
  }

  /** A thread joins the list of priority p. */
  lemma IndexInsert(ix: Index, two: bool, ready: Ready, p: nat, list: seq<Tid>)
    requires IndexOk(ix, two, ready) && p < |ready| && list != []
    ensures two ==> p / 8 < |ix.table|
    ensures IndexOk(SetBit(ix, two, p), two, ready[p := list])
  {
    if two {
      var ix', ready' := SetBit(ix, two, p), ready[p := list];
      forall q: nat | q < 256 ensures BitOk(ix'.table, ready', q) {
        assert BitOk(ix.table, ready, q);
        DivMod(q, p / 8, p % 8);
      }
      hide BitOk;
      assert TwoLevel(ix', ready');
    }
  }

  /** A thread leaves the list of priority p; the bit goes when the list is empty. */
  lemma IndexRemove(ix: Index, two: bool, ready: Ready, p: nat, list: seq<Tid>)
    requires IndexOk(ix, two, ready) && p < |ready| && (ready[p] == [] ==> list == [])
    ensures two ==> p / 8 < |ix.table|
    ensures IndexOk(if list == [] then ClearBit(ix, two, p) else ix, two, ready[p := list])
  {
    if two {
      var ix', ready' := if list == [] then ClearBit(ix, two, p) else ix, ready[p := list];
      forall q: nat | q < 256 ensures BitOk(ix'.table, ready', q) {
        assert BitOk(ix.table, ready, q);
        DivMod(q, p / 8, p % 8);
      }
      hide BitOk;
      assert TwoLevel(ix', ready');
    }
  }

  // ---------------------------------------------------------------- thread placement

  datatype Stat = INIT | READY | RUNNING | SUSPEND | CLOSE

  /** timer: the thread's own timer is active. */
  datatype Thread = Thread(stat: Stat, yielding: bool, prio: nat, initPrio: nat, timer: bool)

  const NONE := -1

  predicate InList(ready: Ready, p: int, t: Tid) { 0 <= p < |ready| && t in ready[p] }

  /** Where a thread may be: READY in the list of its priority and not current, unless a
      delete has taken it out; RUNNING as the current thread and in no list; only a
      suspended thread is in a list of an IPC object or has its timer running, and only a
      closed one is in the defunct list. */
  predicate ThreadOk(max: nat, th: Thread, listed: bool, isCurrent: bool, waits: bool, dead: bool, out: bool)
  {
    && th.prio < max && th.initPrio < max
    && (listed ==> th.stat == READY) && (th.stat == READY ==> listed || out) && (out ==> th.stat == READY && !listed)
    && (isCurrent ==> th.stat != READY && th.stat != INIT) && (th.stat == RUNNING ==> isCurrent)
    && (th.timer ==> th.stat == SUSPEND) && (waits ==> th.stat == SUSPEND) && (dead ==> th.stat == CLOSE)
  }

  /** What a thread that called with interrupts enabled has still to do: rt_thread_suspend
      has looked at the state of t; rt_thread_resume will look at it, has looked, or has
      unlinked t; rt_thread_delete has looked, has taken t out of its list, or has released
      its timer as well. */
  datatype Call =
    | Suspending(t: Tid)
    | Resuming(t: Tid)
    | Unlinking(t: Tid)
    | Inserting(t: Tid)
    | Removing(t: Tid, kept: bool)
    | Stopping(t: Tid, kept: bool)
    | Closing(t: Tid, kept: bool)

  /** A kernel state: threads, ready lists, the current thread, who waits in a list of an
      IPC object, the defunct list, the depth of rt_enter_critical, the calls under way by
      caller, and the READY threads that a delete has taken out of their list. */
  datatype View = View(max: nat, threads: map<Tid, Thread>, ready: Ready, current: int, waiting: set<Tid>, defunct: seq<Tid>, lock: nat,
                       calls: map<Tid, Call>, out: set<Tid>)

  ghost predicate OkAt(v: View, t: Tid)
  {
    t in v.threads ==>
      ThreadOk(v.max, v.threads[t], InList(v.ready, v.threads[t].prio, t), t == v.current, t in v.waiting, t in v.defunct, t in v.out)
  }

  predicate CallsOk(v: View) { forall a :: a in v.calls ==> a in v.threads && v.calls[a].t in v.threads }

  ghost predicate Placed(v: View)
  {
    && |v.ready| == v.max && (v.current == NONE || v.current in v.threads)
    && (forall t {:trigger OkAt(v, t)} :: OkAt(v, t))
    && (forall p, t {:trigger InList(v.ready, p, t)} :: InList(v.ready, p, t) ==> t in v.threads && v.threads[t].prio == p)
    && (forall p :: 0 <= p < |v.ready| ==> Distinct(v.ready[p]))
    && (forall t :: t in v.waiting || t in v.defunct || t in v.out ==> t in v.threads) && Distinct(v.defunct) && CallsOk(v)
  }

  /** v' differs from v in the thread t, where it is, and who is current. */
  ghost predicate SameBut(v: View, v': View, t: Tid)
  {
    && v'.max == v.max && |v'.ready| == |v.ready| && t in v'.threads && v'.calls == v.calls && Distinct(v'.defunct)
    && (forall x :: x != t ==> (x in v.threads <==> x in v'.threads) && (x in v.threads ==> v'.threads[x] == v.threads[x]))
    && (forall p, x {:trigger InList(v'.ready, p, x)} :: x != t ==> (InList(v'.ready, p, x) <==> InList(v.ready, p, x)))
    && (forall x :: x != t ==> (x in v.waiting <==> x in v'.waiting) && (x in v.defunct <==> x in v'.defunct) && (x in v.out <==> x in v'.out))
    && (forall p :: 0 <= p < |v'.ready| ==> Distinct(v'.ready[p]))
  }

  /** It is enough to look at the thread that moves and at the change of current. */
  lemma PlacedAgain(v: View, v': View, t: Tid)
    requires Placed(v) && SameBut(v, v', t) && OkAt(v', t)
    requires forall p {:trigger InList(v'.ready, p, t)} :: InList(v'.ready, p, t) ==> p == v'.threads[t].prio
    requires v'.current == v.current || v'.current == NONE || v'.current == t
    requires v'.current != v.current ==> v.current == t || v.current == NONE || (v.current in v.threads && v.threads[v.current].stat != RUNNING)
    ensures Placed(v')
  {
    forall x ensures OkAt(v', x) {
      assert OkAt(v, x);
      if x != t && x in v.threads {
        assert InList(v'.ready, v.threads[x].prio, x) <==> InList(v.ready, v.threads[x].prio, x);
      }
    }
    forall p, x | InList(v'.ready, p, x) ensures x in v'.threads && v'.threads[x].prio == p {
      assert x != t ==> InList(v.ready, p, x);
    }
  }

  /** The node of t taken out of whatever list it is in. */
  function Unlinked(v: View, t: Tid): View
    requires t in v.threads && v.threads[t].prio < |v.ready|
  {
    var p := v.threads[t].prio;
    v.(ready := v.ready[p := Without(v.ready[p], t)], waiting := v.waiting - {t}, defunct := Without(v.defunct, t))
  }

  /** t taken out of every list, for a new state. */
  function Out(v: View, t: Tid): View
    requires t in v.threads && v.threads[t].prio < |v.ready|
  {
    Unlinked(v, t).(out := v.out - {t})
  }

  lemma OutFacts(v: View, t: Tid)
    requires Placed(v) && t in v.threads
    ensures v.threads[t].prio < |v.ready|
    ensures SameBut(v, Out(v, t), t)
    ensures forall p {:trigger InList(Out(v, t).ready, p, t)} :: !InList(Out(v, t).ready, p, t)
  {
    assert OkAt(v, t);
    var p := v.threads[t].prio;
    WithoutDistinct(v.ready[p], t);
    WithoutDistinct(v.defunct, t);
    var v' := Out(v, t);
    forall q, x | x != t ensures InList(v'.ready, q, x) <==> InList(v.ready, q, x) {
    }
    forall q ensures !InList(v'.ready, q, t) {
      assert InList(v'.ready, q, t) && q != p ==> InList(v.ready, q, t);
    }
  }

  /** t leaves every list and gets the fields th; it is not ready. */
  lemma PlacedOut(v: View, t: Tid, th: Thread, current: int)
    requires Placed(v) && t in v.threads && th.prio < v.max && th.initPrio < v.max
    requires th.stat != READY && th.stat != INIT && (th.timer ==> th.stat == SUSPEND) && (th.stat == RUNNING ==> t == current)
    requires current == v.current || current == t
    requires current != v.current ==> v.current == NONE || (v.current in v.threads && v.threads[v.current].stat != RUNNING)
    ensures v.threads[t].prio < |v.ready| && Placed(Out(v, t).(threads := v.threads[t := th], current := current))
  {
    OutFacts(v, t);
    var o := Out(v, t);
    var v' := o.(threads := v.threads[t := th], current := current);
    assert forall p {:trigger InList(v'.ready, p, t)} :: !InList(v'.ready, p, t) by {
      forall p ensures !InList(v'.ready, p, t) { assert !InList(o.ready, p, t); }
    }
    assert SameBut(v, v', t) by {
      forall p, x | x != t ensures InList(v'.ready, p, x) <==> InList(v.ready, p, x) {
        assert InList(o.ready, p, x) <==> InList(v.ready, p, x);
      }
    }
    hide Out, SameBut, Placed;
    PlacedAgain(v, v', t);
  }

  /** t, in no list, goes to the end of the list of its priority. */
  lemma PlacedIn(v: View, t: Tid, th: Thread, current: int)
    requires Placed(v) && t in v.threads && th.prio < v.max && th.initPrio < v.max && th.stat == READY && !th.timer
    requires (forall p {:trigger InList(v.ready, p, t)} :: !InList(v.ready, p, t)) && t !in v.waiting && t !in v.defunct && t != current
    requires current == v.current || (current == NONE && v.current == t)
    ensures th.prio < |v.ready|
    ensures Placed(v.(threads := v.threads[t := th], ready := v.ready[th.prio := v.ready[th.prio] + [t]], current := current, out := v.out - {t}))
  {
    var v' := v.(threads := v.threads[t := th], ready := v.ready[th.prio := v.ready[th.prio] + [t]], current := current, out := v.out - {t});
    assert !InList(v.ready, th.prio, t);
    forall p, x | x != t ensures InList(v'.ready, p, x) <==> InList(v.ready, p, x) {
    }
    forall p | InList(v'.ready, p, t) ensures p == th.prio {
      assert !InList(v.ready, p, t);
    }
    assert SameBut(v, v', t);
    assert InList(v'.ready, th.prio, t);
    hide SameBut, Placed;
    PlacedAgain(v, v', t);
  }

  // ------------------------------------------------------------------------- steps

  function With(v: View, t: Tid, th: Thread): View { v.(threads := v.threads[t := th]) }

  /** Every thread's list exists. */
  predicate Shaped(v: View) { |v.ready| == v.max && (forall t :: t in v.threads ==> v.threads[t].prio < v.max) && CallsOk(v) }

  lemma PlacedShape(v: View)
    requires Placed(v)
    ensures Shaped(v)
  {
    forall t | t in v.threads ensures v.threads[t].prio < v.max { assert OkAt(v, t); }
  }

  /** rt_schedule_insert_thread */
  function InsertStep(v: View, t: Tid): (w: View)
    requires Shaped(v) && t in v.threads
    ensures Shaped(w)
  {
    var th := v.threads[t];
    if t == v.current then With(v, t, th.(stat := RUNNING))
    else With(v, t, th.(stat := READY)).(ready := v.ready[th.prio := v.ready[th.prio] + [t]], out := v.out - {t})
  }

  /** The region of rt_thread_suspend, whatever the state of t is by then. */
  function Suspended(v: View, t: Tid): View
    requires Shaped(v) && t in v.threads
  {
    With(Out(v, t), t, v.threads[t].(stat := SUSPEND, timer := false))
  }

  function SuspendStep(v: View, t: Tid): View
    requires Shaped(v) && t in v.threads
  {
    if v.threads[t].stat == READY || v.threads[t].stat == RUNNING then Suspended(v, t) else v
  }

  function ResumeStep(v: View, t: Tid): View
    requires Shaped(v) && t in v.threads
  {
    var th := v.threads[t];
    if th.stat == SUSPEND then InsertStep(With(Out(v, t), t, th.(timer := false)), t) else v
  }

  /** rt_schedule picks this thread: the current one stays while it runs and is more
      urgent than every ready thread, or as urgent and does not yield. */
  predicate Stays(v: View)
    requires |v.ready| == v.max && v.current in v.threads
  {
    var th, hi := v.threads[v.current], FirstReady(v.ready, 0);
    th.stat == RUNNING && (th.prio < hi || (th.prio == hi && !th.yielding))
  }

  function ScheduleStep(v: View): View
    requires Shaped(v) && v.current in v.threads
  {
    var hi := FirstReady(v.ready, 0);
    if v.lock != 0 || hi == v.max then v
    else
      var cur, th := v.current, v.threads[v.current];
      if Stays(v) then With(v, cur, th.(yielding := false))
      else SwitchTo(Requeue(v), hi)
  }

  /** The current thread, if it was running, goes back to its list. */
  function Requeue(v: View): View
    requires Shaped(v) && v.current in v.threads
  {
    var cur, th := v.current, v.threads[v.current];
    if th.stat == RUNNING then
      With(v, cur, th.(stat := READY, yielding := false)).(ready := v.ready[th.prio := v.ready[th.prio] + [cur]], current := NONE, out := v.out - {cur})
    else v.(current := NONE)
  }

  /** The first thread of the list hi runs. */
  function SwitchTo(v: View, hi: nat): View
    requires Shaped(v) && hi < v.max
  {
    if v.ready[hi] == [] || v.ready[hi][0] !in v.threads then v
    else
      var to := v.ready[hi][0];
      With(Out(v, to), to, v.threads[to].(stat := RUNNING)).(current := to)
  }

  lemma NotListed(v: View, t: Tid)
    requires Placed(v) && t in v.threads && v.threads[t].stat != READY
    ensures forall p {:trigger InList(v.ready, p, t)} :: !InList(v.ready, p, t)
  {
    assert OkAt(v, t);
  }

  /** The first thread of all: its flags are cleared. */
  function BeginStep(v: View, hi: nat): View
    requires Shaped(v) && hi < v.max
  {
    var w := SwitchTo(v, hi);
    if w.current in w.threads then With(w, w.current, w.threads[w.current].(yielding := false)) else w
  }

  /** A thread in no list, with its timer stopped, can be made ready. */
  lemma InsertKeeps(v: View, t: Tid)
    requires Placed(v) && t in v.threads && !InList(v.ready, v.threads[t].prio, t) && !v.threads[t].timer
    requires t !in v.waiting && t !in v.defunct
    ensures Shaped(v) && Placed(InsertStep(v, t))
  {
    PlacedShape(v);
    assert OkAt(v, t);
    NotInOther(v, t);
    hide Placed;
    if t == v.current {
      PlacedStay(v, t, v.threads[t].(stat := RUNNING));
    } else {
      PlacedIn(v, t, v.threads[t].(stat := READY), v.current);
    }
  }

  lemma NotInOther(v: View, t: Tid)
    requires Placed(v) && t in v.threads && !InList(v.ready, v.threads[t].prio, t)
    ensures forall p {:trigger InList(v.ready, p, t)} :: !InList(v.ready, p, t)
  {
  }

  /** A thread in no list changes state and stays in none. */
  lemma PlacedStay(v: View, t: Tid, th: Thread)
    requires Placed(v) && t in v.threads && th.prio < v.max && th.initPrio < v.max
    requires v.threads[t].stat != READY && th.stat != READY && (th.timer ==> th.stat == SUSPEND) && (th.stat == RUNNING ==> t == v.current)
    requires th.stat == INIT ==> v.threads[t].stat == INIT
    requires t in v.waiting ==> th.stat == SUSPEND
    requires t in v.defunct ==> th.stat == CLOSE
    ensures Placed(With(v, t, th))
  {
    var v' := With(v, t, th);
    NotListed(v, t);
    assert SameBut(v, v', t);
    assert OkAt(v, t);
    assert OkAt(v', t);
    hide SameBut, Placed;
    PlacedAgain(v, v', t);
  }

  lemma SuspendedKeeps(v: View, t: Tid)
    requires Placed(v) && t in v.threads
    ensures Shaped(v) && Placed(Suspended(v, t))
  {
    PlacedShape(v);
    assert OkAt(v, t);
    hide Placed;
    PlacedOut(v, t, v.threads[t].(stat := SUSPEND, timer := false), v.current);
  }

  lemma SuspendKeeps(v: View, t: Tid)
    requires Placed(v) && t in v.threads
    ensures Shaped(v) && Placed(SuspendStep(v, t))
  {
    hide Placed;
    SuspendedKeeps(v, t);
  }

  /** A suspended thread taken out of its wait list, its timer stopped. */
  lemma DetachKeeps(v: View, t: Tid)
    requires Placed(v) && t in v.threads && v.threads[t].stat == SUSPEND
    ensures Shaped(v)
    ensures var v' := With(Out(v, t), t, v.threads[t].(timer := false)); Placed(v') && t !in v'.waiting && t !in v'.defunct
  {
    PlacedShape(v);
    assert OkAt(v, t);
    hide Placed;
    PlacedOut(v, t, v.threads[t].(timer := false), v.current);
  }

  lemma ResumeKeeps(v: View, t: Tid)
    requires Placed(v) && t in v.threads
    ensures Shaped(v) && Placed(ResumeStep(v, t))
  {
    PlacedShape(v);
    hide Placed;
    if v.threads[t].stat == SUSPEND {
      DetachKeeps(v, t);
      InsertKeeps(With(Out(v, t), t, v.threads[t].(timer := false)), t);
    }
  }

  lemma RequeueKeeps(v: View)
    requires Placed(v) && v.current in v.threads
    ensures Shaped(v) && Placed(Requeue(v)) && Shaped(Requeue(v))
    ensures forall p :: 0 <= p < v.max ==> v.ready[p] <= Requeue(v).ready[p]
  {
    PlacedShape(v);
    var cur, th := v.current, v.threads[v.current];
    assert OkAt(v, cur);
    if th.stat == RUNNING {
      NotListed(v, cur);
      PlacedIn(v, cur, th.(stat := READY, yielding := false), NONE);
    } else {
      var v' := v.(current := NONE);
      assert SameBut(v, v', cur);
      assert OkAt(v', cur);
      PlacedAgain(v, v', cur);
    }
    PlacedShape(Requeue(v));
  }

  lemma SwitchKeeps(v: View, hi: nat)
    requires Placed(v) && v.current == NONE && hi < v.max && v.ready[hi] != []
    ensures Shaped(v) && v.ready[hi][0] in v.threads && Placed(SwitchTo(v, hi))
  {
    PlacedShape(v);
    var to := v.ready[hi][0];
    assert InList(v.ready, hi, to);
    assert OkAt(v, to);
    PlacedOut(v, to, v.threads[to].(stat := RUNNING), to);
  }

  lemma BeginKeeps(v: View, hi: nat)
    requires Placed(v) && v.current == NONE && hi < v.max && v.ready[hi] != []
    ensures Shaped(v) && v.ready[hi][0] in v.threads && Placed(BeginStep(v, hi))
  {
    SwitchKeeps(v, hi);
    var w := SwitchTo(v, hi);
    NotDead(w);
    PlacedStay(w, w.current, w.threads[w.current].(yielding := false));
  }

  lemma ScheduleKeeps(v: View)
    requires Placed(v) && v.current in v.threads
    ensures Shaped(v) && Placed(ScheduleStep(v))
  {
    PlacedShape(v);
    assert OkAt(v, v.current);
    var hi := FirstReady(v.ready, 0);
    hide Placed;
    if v.lock == 0 && hi < v.max {
      if Stays(v) {
        NotDead(v);
        PlacedStay(v, v.current, v.threads[v.current].(yielding := false));
      } else {
        RequeueKeeps(v);
        SwitchKeeps(Requeue(v), hi);
      }
    }
  }

  lemma NotDead(v: View)
    requires Placed(v) && v.current in v.threads && v.threads[v.current].stat == RUNNING
    ensures v.current !in v.waiting && v.current !in v.defunct && v.threads[v.current].prio < v.max
    ensures v.threads[v.current].initPrio < v.max && !v.threads[v.current].timer
  {
    assert OkAt(v, v.current);
  }

  /** After an unlocked rt_schedule with a ready thread, the current thread runs and no
      ready thread in a list is more urgent; it changed only for a thread more urgent, or
      as urgent after a yield, or because the old one no longer runs. */
  lemma ScheduleIsUrgent(v: View, t: Tid)
    requires Placed(v) && v.current in v.threads && v.lock == 0 && FirstReady(v.ready, 0) < v.max
    ensures Shaped(v)
    ensures var v' := ScheduleStep(v);
            && v'.current in v'.threads && v'.threads[v'.current].stat == RUNNING
            && (t in v'.threads && v'.threads[t].stat == READY && t !in v'.out ==> v'.threads[v'.current].prio <= v'.threads[t].prio)
            && (v'.current != v.current && v.threads[v.current].stat == RUNNING ==>
                  v'.threads[v'.current].prio < v.threads[v.current].prio
                  || (v'.threads[v'.current].prio == v.threads[v.current].prio && v.threads[v.current].yielding))
  {
    PlacedShape(v);
    ScheduleKeeps(v);
    var v', hi := ScheduleStep(v), FirstReady(v.ready, 0);
    assert OkAt(v, v.current);
    if t in v'.threads && v'.threads[t].stat == READY && t !in v'.out {
      assert OkAt(v', t);
      assert InList(v'.ready, v'.threads[t].prio, t);
    }
    if Stays(v) {
      assert OkAt(v, t);
    } else {
      RequeueKeeps(v);
      var w := Requeue(v);
      var to := w.ready[hi][0];
      assert w.ready[hi][0] == v.ready[hi][0];
      assert InList(w.ready, hi, to);
      FirstBelow(v, t);
    }
  }

  /** No ready thread is above the first list that is not empty. */
  lemma FirstBelow(v: View, t: Tid)
    requires Placed(v) && v.current in v.threads && !Stays(v) && FirstReady(v.ready, 0) < v.max
    ensures Shaped(v)
    ensures var w := Requeue(v); t in w.threads && w.threads[t].stat == READY && t !in w.out ==> FirstReady(v.ready, 0) <= w.threads[t].prio
  {
    PlacedShape(v);
    assert OkAt(v, t) && OkAt(v, v.current);
    if t in v.threads && t != v.current && v.threads[t].stat == READY && t !in v.out {
      assert InList(v.ready, v.threads[t].prio, t);
    }
  }
}
