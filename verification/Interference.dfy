/** What can come between the regions of rt_thread_resume and rt_thread_delete
    (src/thread.c): runs in which it does harm, and the runs in which it cannot. */
module Interference {
  import opened Lists
  import opened WaitList
  import opened Scheduler
  import opened ThreadCalls

  // ------------------------------------------------------------------- runs in parts

  lemma {:induction false} CallsJoin(v: View, es: seq<Event>, fs: seq<Event>)
    requires CanCall(v, es) && CanCall(Run(v, es), fs)
    ensures CanCall(v, es + fs) && Run(v, es + fs) == Run(Run(v, es), fs)
    decreases es
  {
    if es == [] {
      assert es + fs == fs;
    } else {
      hide Apply, Callable, Shaped;
      CallsJoin(Apply(v, es[0]), es[1..], fs);
      assert (es + fs)[0] == es[0] && (es + fs)[1..] == es[1..] + fs;
    }
  }

  lemma OneStep(v: View, e: Event)
    requires Shaped(v) && Callable(v, e)
    ensures CanCall(v, [e]) && Run(v, [e]) == Apply(v, e)
  {
    hide Apply, Callable, Shaped;
    assert [e][1..] == [];
    assert CanCall(Apply(v, e), []) && Run(Apply(v, e), []) == Apply(v, e);
  }

  lemma AddStep(v: View, es: seq<Event>, e: Event)
    requires CanCall(v, es) && Shaped(Run(v, es)) && Callable(Run(v, es), e)
    ensures CanCall(v, es + [e]) && Run(v, es + [e]) == Apply(Run(v, es), e)
  {
    hide *;
    OneStep(Run(v, es), e);
    CallsJoin(v, es, [e]);
  }

  /** A run that ends badly is not placed throughout. */
  lemma {:induction false} EndsBadly(v: View, es: seq<Event>)
    requires CanCall(v, es) && !Placed(Run(v, es))
    ensures !AlwaysPlaced(v, es)
    decreases es
  {
    if es != [] {
      hide Apply, Callable, Shaped, Placed;
      EndsBadly(Apply(v, es[0]), es[1..]);
    }
  }

  // ------------------------------------------------------------- runs that end badly

  /** Two threads: 1 waits with its timer running, 0 is more urgent and runs. */
  function Scene(): View
  {
    View(2, map[0 := Thread(RUNNING, false, 0, 0, false), 1 := Thread(SUSPEND, false, 1, 1, true)], [[], []], 0, {1}, [], 0, map[], {})
  }

  function Opening(): seq<Event> { [Create(1, 1), Startup(1), Begin, Block(true), Create(0, 0), Startup(0), Reschedule] }

  /** Thread 1, alone. */
  function Lone(stat: Stat, timer: bool, ready: Ready, current: int, waiting: set<Tid>): View
  {
    View(2, map[1 := Thread(stat, false, 1, 1, timer)], ready, current, waiting, [], 0, map[], {})
  }

  /** Both, while 1 is current and waits. */
  function Pair(stat: Stat, ready: Ready): View
  {
    View(2, map[1 := Thread(SUSPEND, false, 1, 1, true), 0 := Thread(stat, false, 0, 0, false)], ready, 1, {1}, [], 0, map[], {})
  }

  lemma CreateOne()
    ensures Shaped(Start(2)) && Callable(Start(2), Create(1, 1)) && Apply(Start(2), Create(1, 1)) == Lone(INIT, false, [[], []], NONE, {})
  {
    assert Start(2).ready == [[], []];
  }

  lemma StartOne()
    ensures var v := Lone(INIT, false, [[], []], NONE, {});
            Shaped(v) && Callable(v, Startup(1)) && Apply(v, Startup(1)) == Lone(READY, false, [[], [1]], NONE, {})
  {
    var v, s := Lone(INIT, false, [[], []], NONE, {}), Lone(SUSPEND, false, [[], []], NONE, {});
    assert With(v, 1, Prepared(v.threads[1])) == s;
    assert Out(s, 1) == s by { assert Out(s, 1).ready == s.ready; }
    assert With(s, 1, s.threads[1].(timer := false)) == s;
    var w := InsertStep(s, 1);
    assert w.threads == Lone(READY, false, [[], [1]], NONE, {}).threads;
    assert w.ready[1] == [1];
    assert w.ready == [[], [1]];
  }

  lemma BeginOne()
    ensures var v := Lone(READY, false, [[], [1]], NONE, {});
            Shaped(v) && Callable(v, Begin) && Apply(v, Begin) == Lone(RUNNING, false, [[], []], 1, {})
  {
    var v := Lone(READY, false, [[], [1]], NONE, {});
    assert FirstReady(v.ready, 0) == 1;
    var w := SwitchTo(v, 1);
    assert Without([1], 1) == [];
    assert w.ready == [[], []];
    assert w.threads == Lone(RUNNING, false, [[], []], 1, {}).threads;
    assert BeginStep(v, 1).threads == w.threads;
  }

  lemma BlockOne()
    ensures var v := Lone(RUNNING, false, [[], []], 1, {});
            Shaped(v) && Callable(v, Block(true)) && Apply(v, Block(true)) == Lone(SUSPEND, true, [[], []], 1, {1})
  {
    var v := Lone(RUNNING, false, [[], []], 1, {});
    var s := SuspendStep(v, 1);
    assert s.ready == [[], []];
    assert BlockStep(v, 1, true).threads == Lone(SUSPEND, true, [[], []], 1, {1}).threads;
  }

  lemma CreateTwo()
    ensures var v := Lone(SUSPEND, true, [[], []], 1, {1});
            Shaped(v) && Callable(v, Create(0, 0)) && Apply(v, Create(0, 0)) == Pair(INIT, [[], []])
  {
  }

  lemma StartTwo()
    ensures var v := Pair(INIT, [[], []]); Shaped(v) && Callable(v, Startup(0)) && Apply(v, Startup(0)) == Pair(READY, [[0], []])
  {
    var v, s := Pair(INIT, [[], []]), Pair(SUSPEND, [[], []]);
    assert With(v, 0, Prepared(v.threads[0])) == s;
    assert Out(s, 0) == s by { assert Out(s, 0).ready == s.ready && s.waiting - {0} == s.waiting; }
    assert With(s, 0, s.threads[0].(timer := false)) == s;
    var w := InsertStep(s, 0);
    assert w.threads == Pair(READY, [[0], []]).threads;
    assert w.ready[0] == [0];
    assert w.ready == [[0], []];
  }

  lemma SwitchTwo()
    ensures var v := Pair(READY, [[0], []]); Shaped(v) && Callable(v, Reschedule) && Apply(v, Reschedule) == Scene()
  {
    var v := Pair(READY, [[0], []]);
    assert FirstReady(v.ready, 0) == 0;
    var r := Requeue(v);
    assert r == v.(current := NONE);
    var w := SwitchTo(r, 0);
    assert Without([0], 0) == [];
    assert w.ready == [[], []];
    assert w.waiting == {1};
    assert w.threads == Scene().threads;
  }

  /** The kernel gets there. */
  lemma SceneReached()
    ensures CanCall(Start(2), Opening()) && Run(Start(2), Opening()) == Scene() && Placed(Scene())
  {
    ScenePlaced();
    NoStep(Start(2));
    OpeningIs();
    hide *;
    CreateOne();
    AddStep(Start(2), [], Create(1, 1));
    var a := [] + [Create(1, 1)];
    StartOne();
    AddStep(Start(2), a, Startup(1));
    var b := a + [Startup(1)];
    BeginOne();
    AddStep(Start(2), b, Begin);
    var c := b + [Begin];
    BlockOne();
    AddStep(Start(2), c, Block(true));
    var d := c + [Block(true)];
    CreateTwo();
    AddStep(Start(2), d, Create(0, 0));
    var e := d + [Create(0, 0)];
    StartTwo();
    AddStep(Start(2), e, Startup(0));
    SwitchTwo();
    AddStep(Start(2), e + [Startup(0)], Reschedule);
  }

  lemma NoStep(v: View)
    ensures CanCall(v, []) && Run(v, []) == v
  {
  }

  lemma OpeningIs()
    ensures Opening() == [] + [Create(1, 1)] + [Startup(1)] + [Begin] + [Block(true)] + [Create(0, 0)] + [Startup(0)] + [Reschedule]
  {
  }

  lemma ScenePlaced()
    ensures Placed(Scene())
  {
    var v := Scene();
    forall t ensures OkAt(v, t) { }
  }

  /** The steps of a delete of thread 1 by thread 0, and a timeout after the first region. */
  function TimeoutInDelete(): seq<Event> { [CallDelete(1, true), GoOn, Timeout(1), GoOn, GoOn] }

  /** A resume of thread 1 by thread 0, and another one, from an interrupt handler, between
      its regions. */
  function ResumeInResume(): seq<Event> { [CallResume(1), GoOn, Resume(1), GoOn] }

  /** The scene with 1 changed and 0 in a call. */
  function Later(stat: Stat, timer: bool, list: seq<Tid>, waiting: set<Tid>, defunct: seq<Tid>, calls: map<Tid, Call>): View
  {
    View(2, map[0 := Thread(RUNNING, false, 0, 0, false), 1 := Thread(stat, false, 1, 1, timer)], [[], list], 0, waiting, defunct, 0, calls, {})
  }

  lemma Delete1()
    ensures Callable(Scene(), CallDelete(1, true)) && Shaped(Scene())
    ensures Apply(Scene(), CallDelete(1, true)) == Later(SUSPEND, true, [], {1}, [], map[0 := Removing(1, true)])
  {
  }

  lemma Delete2()
    ensures var v := Later(SUSPEND, true, [], {1}, [], map[0 := Removing(1, true)]);
            Shaped(v) && Callable(v, GoOn) && Apply(v, GoOn) == Later(SUSPEND, true, [], {}, [], map[0 := Stopping(1, true)])
  {
    var v := Later(SUSPEND, true, [], {1}, [], map[0 := Removing(1, true)]);
    GoesOn(v);
    hide Apply;
    var r := RemoveStep(v, 1);
    assert r.ready == v.ready && r.waiting == {} && r.out == {};
    assert v.calls[0 := Stopping(1, true)] == map[0 := Stopping(1, true)];
  }

  lemma Delete3()
    ensures var v := Later(SUSPEND, true, [], {}, [], map[0 := Stopping(1, true)]);
            Shaped(v) && Callable(v, Timeout(1)) && Apply(v, Timeout(1)) == Later(READY, false, [1], {}, [], map[0 := Stopping(1, true)])
  {
    TimesOut();
    Stays0();
    hide TimeoutStep, Scheduled;
  }

  lemma TimesOut()
    ensures var v := Later(SUSPEND, true, [], {}, [], map[0 := Stopping(1, true)]);
            Shaped(v) && TimeoutStep(v, 1) == Later(READY, false, [1], {}, [], map[0 := Stopping(1, true)])
  {
    var v := Later(SUSPEND, true, [], {}, [], map[0 := Stopping(1, true)]);
    var o := With(Out(v, 1), 1, v.threads[1].(timer := false));
    assert o.ready == v.ready && o.waiting == {} && o.out == {};
    var w := InsertStep(o, 1);
    assert w.ready[1] == [1];
    assert w.ready == [[], [1]];
    assert w.threads == Later(READY, false, [1], {}, [], map[0 := Stopping(1, true)]).threads;
  }

  /** Thread 0 is the more urgent one. */
  lemma Stays0()
    ensures var w := Later(READY, false, [1], {}, [], map[0 := Stopping(1, true)]); Shaped(w) && Scheduled(w) == w
  {
    var w := Later(READY, false, [1], {}, [], map[0 := Stopping(1, true)]);
    assert FirstReady(w.ready, 0) == 1;
    assert Scheduled(w).threads == w.threads;
  }

  lemma Delete4()
    ensures var v := Later(READY, false, [1], {}, [], map[0 := Stopping(1, true)]);
            Shaped(v) && Callable(v, GoOn) && Apply(v, GoOn) == Later(READY, false, [1], {}, [], map[0 := Closing(1, true)])
  {
    var v := Later(READY, false, [1], {}, [], map[0 := Stopping(1, true)]);
    GoesOn(v);
    hide Apply;
    assert With(v, 1, v.threads[1].(timer := false)) == v;
    assert v.calls[0 := Closing(1, true)] == map[0 := Closing(1, true)];
  }

  lemma Delete5()
    ensures var v := Later(READY, false, [1], {}, [], map[0 := Closing(1, true)]);
            && Shaped(v) && Callable(v, GoOn) && Spoils(v, GoOn)
            && Apply(v, GoOn) == Later(CLOSE, false, [1], {}, [1], map[])
  {
    var v := Later(READY, false, [1], {}, [], map[0 := Closing(1, true)]);
    GoesOn(v);
    hide Apply;
    assert v.ready[1] == [1];
    assert Returned(v).calls == map[];
    assert CloseStep(Returned(v), 1, true).threads == Later(CLOSE, false, [1], {}, [1], map[]).threads;
  }

  /** Thread 1 waits for a limited time, and 0 deletes it. The tick comes after the region
      that takes 1 off its wait list, and before the one that stops its timer: 1 is made
      ready, and then closed and linked into the defunct list while it is in a ready list. */
  lemma TimeoutBreaksDelete()
    ensures var es := Opening() + TimeoutInDelete();
            && CanCall(Start(2), es) && !AlwaysPlaced(Start(2), es)
            && Run(Start(2), es) == Later(CLOSE, false, [1], {}, [1], map[])
  {
    SceneReached();
    NoStep(Scene());
    Delete1();
    DeleteEvents();
    LateBad();
    hide *;
    AddStep(Scene(), [], CallDelete(1, true));
    var a := [] + [CallDelete(1, true)];
    Delete2();
    AddStep(Scene(), a, GoOn);
    var b := a + [GoOn];
    Delete3();
    AddStep(Scene(), b, Timeout(1));
    var c := b + [Timeout(1)];
    Delete4();
    AddStep(Scene(), c, GoOn);
    var d := c + [GoOn];
    Delete5();
    AddStep(Scene(), d, GoOn);
    CallsJoin(Start(2), Opening(), TimeoutInDelete());
    EndsBadly(Start(2), Opening() + TimeoutInDelete());
  }

  lemma DeleteEvents()
    ensures TimeoutInDelete() == [] + [CallDelete(1, true)] + [GoOn] + [Timeout(1)] + [GoOn] + [GoOn]
    ensures ResumeInResume() == [] + [CallResume(1)] + [GoOn] + [Resume(1)] + [GoOn]
  {
  }

  lemma LateBad()
    ensures !Placed(Later(CLOSE, false, [1], {}, [1], map[])) && !Placed(Later(READY, false, [1, 1], {}, [], map[]))
  {
    var v, w := Later(CLOSE, false, [1], {}, [1], map[]), Later(READY, false, [1, 1], {}, [], map[]);
    assert InList(v.ready, 1, 1);
    assert !OkAt(v, 1);
    assert w.ready[1][0] == w.ready[1][1];
  }

  lemma Resume1()
    ensures Callable(Scene(), CallResume(1)) && Shaped(Scene())
    ensures Apply(Scene(), CallResume(1)) == Later(SUSPEND, true, [], {1}, [], map[0 := Unlinking(1)])
  {
  }

  lemma Resume2()
    ensures var v := Later(SUSPEND, true, [], {1}, [], map[0 := Unlinking(1)]);
            Shaped(v) && Callable(v, GoOn) && Apply(v, GoOn) == Later(SUSPEND, false, [], {}, [], map[0 := Inserting(1)])
  {
    var v := Later(SUSPEND, true, [], {1}, [], map[0 := Unlinking(1)]);
    GoesOn(v);
    hide Apply;
    var u := UnlinkStep(v, 1);
    assert u.ready == v.ready && u.waiting == {};
    assert u.threads == Later(SUSPEND, false, [], {}, [], map[]).threads;
    assert v.calls[0 := Inserting(1)] == map[0 := Inserting(1)];
  }

  lemma Resume3()
    ensures var v := Later(SUSPEND, false, [], {}, [], map[0 := Inserting(1)]);
            Shaped(v) && Callable(v, Resume(1)) && Apply(v, Resume(1)) == Later(READY, false, [1], {}, [], map[0 := Inserting(1)])
  {
    var v := Later(SUSPEND, false, [], {}, [], map[0 := Inserting(1)]);
    var o := With(Out(v, 1), 1, v.threads[1].(timer := false));
    assert o == v by { assert o.ready == v.ready && o.threads == v.threads; }
    var w := InsertStep(v, 1);
    assert w.ready[1] == [1];
    assert w.ready == [[], [1]];
    assert w.threads == Later(READY, false, [1], {}, [], map[]).threads;
  }

  lemma Resume4()
    ensures var v := Later(READY, false, [1], {}, [], map[0 := Inserting(1)]);
            && Shaped(v) && Callable(v, GoOn) && Spoils(v, GoOn) && Apply(v, GoOn) == Later(READY, false, [1, 1], {}, [], map[])
  {
    var v := Later(READY, false, [1], {}, [], map[0 := Inserting(1)]);
    GoesOn(v);
    hide Apply;
    assert v.ready[1] == [1];
    assert Returned(v).calls == map[];
    var w := InsertStep(Returned(v), 1);
    assert w.ready[1] == [1, 1];
    assert w.ready == [[], [1, 1]];
    assert w.threads == Later(READY, false, [1, 1], {}, [], map[]).threads;
  }

  /** A second resume between the regions of the first puts the thread into its ready list
      twice. */
  lemma ResumeBreaksResume()
    ensures var es := Opening() + ResumeInResume();
            && CanCall(Start(2), es) && !AlwaysPlaced(Start(2), es)
            && Run(Start(2), es) == Later(READY, false, [1, 1], {}, [], map[])
  {
    SceneReached();
    NoStep(Scene());
    Resume1();
    DeleteEvents();
    LateBad();
    hide *;
    AddStep(Scene(), [], CallResume(1));
    var a := [] + [CallResume(1)];
    Resume2();
    AddStep(Scene(), a, GoOn);
    var b := a + [GoOn];
    Resume3();
    AddStep(Scene(), b, Resume(1));
    var c := b + [Resume(1)];
    Resume4();
    AddStep(Scene(), c, GoOn);
    CallsJoin(Start(2), Opening(), ResumeInResume());
    EndsBadly(Start(2), Opening() + ResumeInResume());
  }

  // ------------------------------------------------------------ a thread deletes itself

  /** Thread 0, alone. */
  function Only(stat: Stat, timer: bool, ready: Ready, current: int, waiting: set<Tid>, defunct: seq<Tid>): View
  {
    View(1, map[0 := Thread(stat, false, 0, 0, timer)], ready, current, waiting, defunct, 0, map[], {})
  }

  lemma OnlyStarts()
    ensures var v := Only(INIT, false, [[]], NONE, {}, []);
            Shaped(v) && Callable(v, Startup(0)) && Apply(v, Startup(0)) == Only(READY, false, [[0]], NONE, {}, [])
  {
    var v, s := Only(INIT, false, [[]], NONE, {}, []), Only(SUSPEND, false, [[]], NONE, {}, []);
    assert With(v, 0, Prepared(v.threads[0])) == s;
    assert Out(s, 0) == s by { assert Out(s, 0).ready == s.ready; }
    assert With(s, 0, s.threads[0].(timer := false)) == s;
    var w := InsertStep(s, 0);
    assert w.threads == Only(READY, false, [[0]], NONE, {}, []).threads;
    assert w.ready[0] == [0];
    assert w.ready == [[0]];
  }

  lemma OnlyBegins()
    ensures var v := Only(READY, false, [[0]], NONE, {}, []);
            Shaped(v) && Callable(v, Begin) && Apply(v, Begin) == Only(RUNNING, false, [[]], 0, {}, [])
  {
    var v := Only(READY, false, [[0]], NONE, {}, []);
    assert FirstReady(v.ready, 0) == 0;
    var w := SwitchTo(v, 0);
    assert Without([0], 0) == [];
    assert w.ready == [[]];
    assert w.threads == Only(RUNNING, false, [[]], 0, {}, []).threads;
    assert BeginStep(v, 0).threads == w.threads;
  }

  lemma OnlyDeleted()
    ensures var v := Only(RUNNING, false, [[]], 0, {}, []);
            Placed(v) && Idle(v) && Shaped(v) && Apply(v, Delete(0, true)) == Only(CLOSE, false, [[]], 0, {}, [0])
  {
    var v := Only(RUNNING, false, [[]], 0, {}, []);
    assert Placed(v) by { forall t ensures OkAt(v, t) { } }
    assert Out(v, 0).ready == [[]];
    assert Closed(v, 0, true).threads == Only(CLOSE, false, [[]], 0, {}, [0]).threads;
  }

  lemma OnlySleeps()
    ensures var v := Only(CLOSE, false, [[]], 0, {}, [0]);
            Shaped(v) && Callable(v, Sleep) && Spoils(v, Sleep) && Apply(v, Sleep) == Only(CLOSE, true, [[]], 0, {}, [0])
  {
    var v, w := Only(CLOSE, false, [[]], 0, {}, [0]), Only(CLOSE, true, [[]], 0, {}, [0]);
    assert SuspendStep(v, 0) == v;
    assert SleepStep(v, 0).threads == w.threads;
  }

  lemma OnlyBlocks()
    ensures var v := Only(CLOSE, false, [[]], 0, {}, [0]);
            Shaped(v) && Callable(v, Block(true)) && Spoils(v, Block(true)) && Apply(v, Block(true)) == Only(CLOSE, true, [[]], 0, {0}, [0])
  {
    var v, w := Only(CLOSE, false, [[]], 0, {}, [0]), Only(CLOSE, true, [[]], 0, {0}, [0]);
    assert SuspendStep(v, 0) == v;
    assert BlockStep(v, 0, true).threads == w.threads;
  }

  lemma OnlyTimesOut(waiting: set<Tid>)
    requires waiting <= {0}
    ensures var w := Only(CLOSE, true, [[]], 0, waiting, [0]);
            Shaped(w) && Callable(w, Timeout(0)) && Apply(w, Timeout(0)) == Only(RUNNING, false, [[]], 0, {}, []) && !Placed(w)
  {
    var w, r := Only(CLOSE, true, [[]], 0, waiting, [0]), Only(RUNNING, false, [[]], 0, {}, []);
    assert !OkAt(w, 0);
    var o := With(Out(w, 0), 0, w.threads[0].(timer := false));
    assert o == Only(CLOSE, false, [[]], 0, {}, []) by {
      assert Without([0], 0) == [] && o.ready == [[]] && o.waiting == {} && o.out == {};
      assert o.threads == Only(CLOSE, false, [[]], 0, {}, []).threads;
    }
    assert InsertStep(o, 0) == r by { assert InsertStep(o, 0).threads == r.threads; }
    assert FirstReady([[]], 0) == 1;
    assert Scheduled(r) == r;
  }

  /** A thread that deletes itself and then sleeps, or waits for a limited time, has its
      timer running though it is closed. When that fires the thread is put back: it leaves
      the defunct list and runs again. */
  lemma ClosedSleeper(e: Event)
    requires e == Sleep || e == Block(true)
    ensures var es := [Create(0, 0), Startup(0), Begin] + [CallDelete(0, true), GoOn, GoOn, GoOn];
            && CanCall(Start(1), es) && CanCall(Start(1), es + [e]) && !AlwaysPlaced(Start(1), es + [e])
            && Run(Start(1), es) == Only(CLOSE, false, [[]], 0, {}, [0])
            && Run(Start(1), es + [e]) == Only(CLOSE, true, [[]], 0, if e == Sleep then {} else {0}, [0])
            && CanCall(Start(1), es + [e] + [Timeout(0)]) && Run(Start(1), es + [e] + [Timeout(0)]) == Only(RUNNING, false, [[]], 0, {}, [])
  {
    DeletesItself();
    var es := [Create(0, 0), Startup(0), Begin] + [CallDelete(0, true), GoOn, GoOn, GoOn];
    hide *;
    if e == Sleep {
      OnlySleeps();
      OnlyTimesOut({});
    } else {
      OnlyBlocks();
      OnlyTimesOut({0});
    }
    AddStep(Start(1), es, e);
    EndsBadly(Start(1), es + [e]);
    AddStep(Start(1), es + [e], Timeout(0));
  }

  lemma DeletesItself()
    ensures var es := [Create(0, 0), Startup(0), Begin] + [CallDelete(0, true), GoOn, GoOn, GoOn];
            CanCall(Start(1), es) && Run(Start(1), es) == Only(CLOSE, false, [[]], 0, {}, [0])
  {
    OnlyDeleted();
    var v := Only(RUNNING, false, [[]], 0, {}, []);
    assert v.threads[0].stat == RUNNING;
    hide *;
    OnlyCreated();
    OnlyStarts();
    OnlyBegins();
    Steps3(Start(1), Create(0, 0), Startup(0), Begin);
    DeleteInSteps(v, 0, true);
    CallsJoin(Start(1), [Create(0, 0), Startup(0), Begin], [CallDelete(0, true), GoOn, GoOn, GoOn]);
  }

  lemma OnlyCreated()
    ensures Shaped(Start(1)) && Callable(Start(1), Create(0, 0)) && Apply(Start(1), Create(0, 0)) == Only(INIT, false, [[]], NONE, {}, [])
  {
    assert Start(1).ready == [[]];
  }

  // ------------------------------------------------------- runs without interference

  /** The step is about t: somebody else's call or timeout, or its own doing. */
  predicate Touches(v: View, e: Event, t: Tid)
  {
    match e
    case Create(x, _) => x == t
    case Startup(x) => x == t
    case Suspend(x) => x == t
    case Resume(x) => x == t
    case Timeout(x) => x == t
    case SetPriority(x, _) => x == t
    case Delete(x, _) => x == t
    case CallStartup(x) => x == t
    case Sleep => v.current == t
    case Block(_) => v.current == t
    case Exit(_) => v.current == t
    case GoOn => v.current in v.calls && v.calls[v.current].t == t
    case _ => false
  }

  /** The call has found its thread as it wants it, and is not done with it. */
  predicate Engaged(c: Call) { c.Unlinking? || c.Inserting? || c.Stopping? || c.Closing? }

  /** Nobody touches a thread that another call is engaged with. */
  predicate LeavesAlone(v: View, e: Event)
  {
    forall a :: a in v.calls && Engaged(v.calls[a]) && !(e.GoOn? && a == v.current) ==> !Touches(v, e, v.calls[a].t)
  }

  predicate ClosedWaits(v: View, e: Event)
  {
    (e.Sleep? || e.Block?) && v.current in v.threads && v.threads[v.current].stat == CLOSE
  }

  predicate Undisturbed(v: View, es: seq<Event>)
    requires CanCall(v, es)
    decreases es
  {
    es == [] || (LeavesAlone(v, es[0]) && !ClosedWaits(v, es[0]) && Undisturbed(Apply(v, es[0]), es[1..]))
  }

  /** t is as far from every list, from its timer and from running as it was. */
  predicate Still(v: View, w: View, t: Tid)
  {
    && t in v.threads && t in w.threads
    && (t in w.waiting ==> t in v.waiting) && (t in w.defunct ==> t in v.defunct)
    && (w.threads[t].timer ==> v.threads[t].timer)
    && (!Listed(v, t) && t != v.current ==> !Listed(w, t) && t != w.current)
  }

  /** The step changes at most x. */
  ghost predicate OnlyAbout(v: View, w: View, x: Tid)
  {
    && w.current == v.current
    && (forall y :: y != x && y in v.threads ==> y in w.threads && w.threads[y] == v.threads[y])
    && (forall p, y {:trigger InList(w.ready, p, y)} :: y != x && InList(w.ready, p, y) ==> InList(v.ready, p, y))
    && (forall y :: y != x ==> (y in w.waiting ==> y in v.waiting) && (y in w.defunct ==> y in v.defunct))
  }

  lemma AboutStill(v: View, w: View, x: Tid, t: Tid)
    requires OnlyAbout(v, w, x) && t != x && t in v.threads
    ensures Still(v, w, t)
  {
  }

  lemma StillThen(u: View, v: View, w: View, t: Tid)
    requires Still(u, v, t) && Still(v, w, t)
    ensures Still(u, w, t)
  {
  }

  lemma StillSelf(v: View, w: View, t: Tid)
    requires t in v.threads && t in w.threads && w.threads[t] == v.threads[t] && w.ready == v.ready && w.current == v.current
    requires w.waiting == v.waiting && w.defunct == v.defunct
    ensures Still(v, w, t)
  {
  }

  lemma ScheduledStill(v: View, t: Tid)
    requires Placed(v) && Shaped(v) && t in v.threads
    ensures Still(v, Scheduled(v), t)
  {
    assert OkAt(v, t);
    if v.current in v.threads && v.lock == 0 && FirstReady(v.ready, 0) < v.max && !Stays(v) {
      assert OkAt(v, v.current);
      RequeueKeeps(v);
      var hi := FirstReady(v.ready, 0);
      var r := Requeue(v);
      SwitchStill(r, hi, t);
      RequeueStill(v, t);
      if !Listed(v, t) && t != v.current {
        assert !Listed(r, t) && r.threads[t] == v.threads[t];
        assert InList(r.ready, hi, r.ready[hi][0]);
      }
    }
  }

  lemma RequeueStill(v: View, t: Tid)
    requires Shaped(v) && v.current in v.threads && t in v.threads
    ensures var r := Requeue(v);
            && t in r.threads && r.waiting == v.waiting && r.defunct == v.defunct && r.threads[t].timer == v.threads[t].timer
            && (t != v.current ==> r.threads[t] == v.threads[t] && (Listed(r, t) <==> Listed(v, t)))
  {
  }

  lemma SwitchStill(v: View, hi: nat, t: Tid)
    requires Shaped(v) && hi < v.max && t in v.threads
    ensures var w := SwitchTo(v, hi);
            && t in w.threads && w.waiting <= v.waiting && (t in w.defunct ==> t in v.defunct) && w.threads[t].timer == v.threads[t].timer
            && (w.current == v.current || (v.ready[hi] != [] && w.current == v.ready[hi][0])) && (Listed(w, t) ==> Listed(v, t))
  {
  }

  lemma UnlinkedAbout(v: View, x: Tid)
    requires Shaped(v) && x in v.threads
    ensures OnlyAbout(v, Unlinked(v, x), x)
  {
  }

  lemma InsertAbout(v: View, x: Tid)
    requires Shaped(v) && x in v.threads
    ensures OnlyAbout(v, InsertStep(v, x), x)
  {
  }

  /** x gets other fields; who calls and who is out does not matter. */
  lemma AboutWith(v: View, w: View, x: Tid, th: Thread, w': View)
    requires OnlyAbout(v, w, x) && w'.threads == w.threads[x := th] && w'.ready == w.ready && w'.current == w.current
    requires forall y :: y != x ==> (y in w'.waiting ==> y in w.waiting) && (y in w'.defunct ==> y in w.defunct)
    ensures OnlyAbout(v, w', x)
  {
  }

  lemma AboutSame(v: View, w: View, w': View, x: Tid)
    requires OnlyAbout(v, w, x) && w'.threads == w.threads && w'.ready == w.ready && w'.current == w.current
    requires w'.waiting == w.waiting && w'.defunct == w.defunct
    ensures OnlyAbout(v, w', x)
  {
  }

  lemma AboutThen(u: View, v: View, w: View, x: Tid)
    requires OnlyAbout(u, v, x) && OnlyAbout(v, w, x)
    ensures OnlyAbout(u, w, x)
  {
  }

  lemma AboutSelf(v: View, x: Tid)
    ensures OnlyAbout(v, v, x)
  {
  }

  /** x leaves its list and gets other fields. */
  lemma OutAbout(v: View, x: Tid, th: Thread)
    requires Shaped(v) && x in v.threads
    ensures OnlyAbout(v, With(Out(v, x), x, th), x) && OnlyAbout(v, With(Unlinked(v, x), x, th), x) && OnlyAbout(v, RemoveStep(v, x), x)
  {
    UnlinkedAbout(v, x);
    var u := Unlinked(v, x);
    AboutWith(v, u, x, th, With(Out(v, x), x, th));
    AboutWith(v, u, x, th, With(u, x, th));
    AboutSame(v, u, RemoveStep(v, x), x);
    hide OnlyAbout, Unlinked;
  }

  lemma SuspendAbout(v: View, x: Tid)
    requires Shaped(v) && x in v.threads
    ensures OnlyAbout(v, Suspended(v, x), x) && OnlyAbout(v, SuspendStep(v, x), x)
  {
    hide OnlyAbout, Out;
    AboutSelf(v, x);
    OutAbout(v, x, v.threads[x].(stat := SUSPEND, timer := false));
  }

  lemma TimeoutAbout(v: View, x: Tid)
    requires Shaped(v) && x in v.threads
    ensures OnlyAbout(v, TimeoutStep(v, x), x) && OnlyAbout(v, ResumeStep(v, x), x)
  {
    var o := With(Out(v, x), x, v.threads[x].(timer := false));
    OutAbout(v, x, v.threads[x].(timer := false));
    AboutSelf(v, x);
    InsertAbout(o, x);
    hide OnlyAbout, InsertStep, Out;
    AboutThen(v, o, InsertStep(o, x), x);
  }

  lemma PriorityAbout(v: View, x: Tid, prio: nat)
    requires Shaped(v) && x in v.threads && prio < v.max
    ensures OnlyAbout(v, SetPriorityStep(v, x, prio), x)
  {
    UnlinkedAbout(v, x);
  }

  lemma ClosedAbout(v: View, x: Tid, kept: bool)
    requires Shaped(v) && x in v.threads
    ensures OnlyAbout(v, Closed(v, x, kept), x) && OnlyAbout(v, CloseStep(v, x, kept), x)
  {
    var th := v.threads[x].(stat := CLOSE, yielding := false, timer := false);
    OutAbout(v, x, th);
    AboutSelf(v, x);
    var o := With(Out(v, x), x, th);
    assert Closed(v, x, kept).threads == o.threads[x := th];
    hide OnlyAbout, Out;
    AboutWith(v, o, x, th, Closed(v, x, kept));
    AboutWith(v, v, x, v.threads[x].(stat := CLOSE, yielding := false), CloseStep(v, x, kept));
  }

  lemma WaitAbout(v: View, x: Tid, timed: bool)
    requires Shaped(v) && x in v.threads
    ensures OnlyAbout(v, SleepStep(v, x), x) && OnlyAbout(v, BlockStep(v, x, timed), x)
  {
    SuspendAbout(v, x);
    SuspendStays(v, x);
    var s := SuspendStep(v, x);
    hide OnlyAbout, SuspendStep;
    AboutWith(v, s, x, s.threads[x].(timer := true), SleepStep(v, x));
    AboutWith(v, s, x, s.threads[x].(timer := timed || s.threads[x].timer), BlockStep(v, x, timed));
  }

  lemma SuspendStays(v: View, t: Tid)
    requires Shaped(v) && t in v.threads
    ensures t in SuspendStep(v, t).threads
  {
  }

  lemma StartAbout(v: View, x: Tid)
    requires Shaped(v) && x in v.threads
    ensures OnlyAbout(v, StartupStep(v, x), x)
  {
    AboutSelf(v, x);
    if v.threads[x].initPrio < v.max {
      var w := With(v, x, Prepared(v.threads[x]));
      AboutWith(v, v, x, Prepared(v.threads[x]), w);
      TimeoutAbout(w, x);
      hide OnlyAbout, ResumeStep;
      AboutThen(v, w, ResumeStep(w, x), x);
    }
  }

  lemma GoOnAbout(v: View)
    requires Shaped(v) && v.current in v.calls
    ensures OnlyAbout(v, GoOnStep(v), v.calls[v.current].t)
  {
    var x, r := v.calls[v.current].t, Returned(v);
    AboutSelf(v, x);
    AboutSame(v, v, r, x);
    hide OnlyAbout;
    match v.calls[v.current]
    case Suspending(t) => SuspendAbout(r, t); AboutThen(v, r, Suspended(r, t), t);
    case Resuming(t) => AboutSame(v, v, GoOnStep(v), t);
    case Unlinking(t) => OutAbout(v, t, v.threads[t].(timer := false)); AboutSame(v, UnlinkStep(v, t), GoOnStep(v), t);
    case Inserting(t) => InsertAbout(r, t); AboutThen(v, r, InsertStep(r, t), t);
    case Removing(t, kept) => OutAbout(v, t, v.threads[t]); AboutSame(v, RemoveStep(v, t), GoOnStep(v), t);
    case Stopping(t, kept) => AboutWith(v, v, t, v.threads[t].(timer := false), GoOnStep(v));
    case Closing(t, kept) => ClosedAbout(r, t, kept); AboutThen(v, r, CloseStep(r, t, kept), t);
  }

  /** Who is not touched stays as it is. */
  lemma Untouched(v: View, e: Event, t: Tid)
    requires Placed(v) && Shaped(v) && Enabled(v, e) && t in v.threads && !Touches(v, e, t)
    ensures Still(v, Apply(v, e), t)
  {
    CurrentIn(v);
    hide Placed, Shaped, Still, OnlyAbout, SuspendStep, ResumeStep, StartupStep, TimeoutStep, SetPriorityStep, Closed, SleepStep, BlockStep, BeginStep, Scheduled, GoOnStep, Surprised;
    match e
    case Startup(x) => StartAbout(v, x); AboutStill(v, StartupStep(v, x), x, t);
    case Begin => BeginStill(v, FirstReady(v.ready, 0), t);
    case Suspend(x) => SuspendAbout(v, x); AboutStill(v, SuspendStep(v, x), x, t);
    case Resume(x) => TimeoutAbout(v, x); AboutStill(v, ResumeStep(v, x), x, t);
    case Timeout(x) =>
      TimeoutAbout(v, x);
      AboutStill(v, TimeoutStep(v, x), x, t);
      TimeoutKeeps(v, x);
      ThenScheduledStill(v, TimeoutStep(v, x), t);
    case Sleep => CurrentAbout(v, t, false);
    case Block(timed) => CurrentAbout(v, t, timed);
    case Yield => YieldStill(v, t);
    case SetPriority(x, prio) => PriorityAbout(v, x, prio); AboutStill(v, SetPriorityStep(v, x, prio), x, t);
    case Exit(kept) => ExitStill(v, t, kept);
    case Delete(x, kept) => DeleteStill(v, x, kept, t);
    case Reschedule => ScheduledStill(v, t);
    case GoOn => GoOnAbout(v); AboutStill(v, GoOnStep(v), v.calls[v.current].t, t);
    case Create(x, prio) => StillSelf(v, Apply(v, e), t);
    case EnterCritical => StillSelf(v, Apply(v, e), t);
    case ExitCritical => StillSelf(v, Apply(v, e), t);
    case CallSuspend(x) => StillSelf(v, Apply(v, e), t);
    case CallResume(x) => StillSelf(v, Apply(v, e), t);
    case CallStartup(x) => StillSelf(v, Apply(v, e), t);
    case CallDelete(x, kept) => StillSelf(v, Apply(v, e), t);
  }

  lemma ThenScheduledStill(v: View, w: View, t: Tid)
    requires Placed(w) && Shaped(w) && Still(v, w, t)
    ensures Still(v, Scheduled(w), t)
  {
    ScheduledStill(w, t);
    hide *;
    StillInside(v, w, t);
    StillThen(v, w, Scheduled(w), t);
  }

  lemma StillInside(v: View, w: View, t: Tid)
    requires Still(v, w, t)
    ensures t in w.threads
  {
  }

  lemma CurrentAbout(v: View, t: Tid, timed: bool)
    requires Shaped(v) && v.current in v.threads && t in v.threads && v.current != t
    ensures Still(v, SleepStep(v, v.current), t) && Still(v, BlockStep(v, v.current, timed), t)
  {
    WaitAbout(v, v.current, timed);
    hide OnlyAbout, SleepStep, BlockStep, Still;
    AboutStill(v, SleepStep(v, v.current), v.current, t);
    AboutStill(v, BlockStep(v, v.current, timed), v.current, t);
  }

  lemma YieldStill(v: View, t: Tid)
    requires Placed(v) && Shaped(v) && v.current in v.threads && t in v.threads
    ensures var w := With(v, v.current, v.threads[v.current].(yielding := true)); Shaped(w) && Still(v, Scheduled(w), t)
  {
    var w := With(v, v.current, v.threads[v.current].(yielding := true));
    YieldKeeps(v, v.current);
    PlacedShape(w);
    assert Still(v, w, t);
    hide Still, Scheduled, Placed, Shaped;
    ThenScheduledStill(v, w, t);
  }

  lemma ExitStill(v: View, t: Tid, kept: bool)
    requires Placed(v) && Shaped(v) && v.current in v.threads && t in v.threads && t != v.current
    ensures Still(v, Scheduled(Closed(v, v.current, kept)), t)
  {
    hide Still, Scheduled, Placed, Closed;
    DeleteStill(v, v.current, kept, t);
    CloseKeeps(v, v.current, kept);
    ThenScheduledStill(v, Closed(v, v.current, kept), t);
  }

  lemma DeleteStill(v: View, x: Tid, kept: bool, t: Tid)
    requires Shaped(v) && x in v.threads && t in v.threads && t != x
    ensures Still(v, Closed(v, x, kept), t) && Still(v, v, t)
  {
    ClosedAbout(v, x, kept);
    hide OnlyAbout, Closed;
    AboutStill(v, Closed(v, x, kept), x, t);
  }

  lemma BeginStill(v: View, hi: nat, t: Tid)
    requires Placed(v) && Shaped(v) && v.current == NONE && hi < v.max && v.ready[hi] != [] && t in v.threads
    ensures Still(v, BeginStep(v, hi), t)
  {
    SwitchStill(v, hi, t);
    assert InList(v.ready, hi, v.ready[hi][0]);
  }

  /** t is out of the ready lists and does not run, or is the caller itself. */
  predicate Off(v: View, a: Tid, t: Tid) { t == a || (!Listed(v, t) && t != v.current) }

  /** What the call of a has seen to, and what must still hold when it goes on. */
  predicate HeldBy(v: View, a: Tid, c: Call)
  {
    match c
    case Suspending(_) => true
    case Resuming(_) => true
    case Removing(_, _) => true
    case Unlinking(t) => Off(v, a, t)
    case Inserting(t) => Off(v, a, t) && t !in v.waiting && t !in v.defunct && t in v.threads && !v.threads[t].timer
    case Stopping(t, _) => Off(v, a, t) && t !in v.waiting && t !in v.defunct
    case Closing(t, _) => Off(v, a, t) && t !in v.waiting && t !in v.defunct && t in v.threads && !v.threads[t].timer
  }

  predicate Held(v: View) { forall a :: a in v.calls ==> HeldBy(v, a, v.calls[a]) }

  lemma StillHeld(v: View, w: View, a: Tid, c: Call)
    requires HeldBy(v, a, c) && (Engaged(c) ==> Still(v, w, c.t))
    ensures HeldBy(w, a, c)
  {
  }

  /** With its thread as it left it, no call meets a surprise. */
  lemma HeldIsCalm(v: View)
    requires Placed(v) && Held(v) && v.current in v.calls
    ensures !Surprised(v, v.calls[v.current])
  {
    var c := v.calls[v.current];
    assert HeldBy(v, v.current, c);
    assert OkAt(v, c.t) && OkAt(v, v.current);
  }

  /** The state of the call of the current thread after its next step. */
  lemma GoOnHeld(v: View)
    requires Placed(v) && Shaped(v) && Held(v) && v.current in v.calls
    ensures var w := GoOnStep(v);
            && (forall a :: a in w.calls && a != v.current ==> a in v.calls && w.calls[a] == v.calls[a])
            && (v.current in w.calls ==> HeldBy(w, v.current, w.calls[v.current]))
  {
    var c, w := v.calls[v.current], GoOnStep(v);
    assert HeldBy(v, v.current, c);
    assert OkAt(v, c.t) && OkAt(v, v.current);
    match c
    case Suspending(t) =>
    case Resuming(t) => assert v.threads[t].stat == SUSPEND ==> !Listed(v, t);
    case Unlinking(t) => assert w.threads[t].prio == v.threads[t].prio && !InList(w.ready, v.threads[t].prio, t);
    case Inserting(t) =>
    case Removing(t, kept) => assert !InList(w.ready, v.threads[t].prio, t);
    case Stopping(t, kept) =>
    case Closing(t, kept) =>
  }

  lemma CallHeld(v: View, e: Event)
    requires Placed(v) && Shaped(v) && Callable(v, e) && !e.GoOn?
    ensures var w := Apply(v, e);
            && (forall a :: a in w.calls && a != v.current ==> a in v.calls && w.calls[a] == v.calls[a])
            && (v.current in w.calls && v.current !in v.calls ==> HeldBy(w, v.current, w.calls[v.current]))
            && (v.current in v.calls && v.current in w.calls ==> w.calls[v.current] == v.calls[v.current])
  {
    if e.CallSuspend? || e.CallResume? || e.CallStartup? || e.CallDelete? {
      assert OkAt(v, e.t) && OkAt(v, v.current);
    } else {
      CallsStay(v, e);
      hide Apply;
    }
  }

  lemma CallsStay(v: View, e: Event)
    requires Shaped(v) && Callable(v, e) && !e.GoOn? && !e.CallSuspend? && !e.CallResume? && !e.CallStartup? && !e.CallDelete?
    ensures Apply(v, e).calls == v.calls
  {
    hide SuspendStep, ResumeStep, StartupStep, SleepStep, BlockStep, SetPriorityStep, TimeoutStep, Closed, BeginStep, Scheduled;
    match e
    case Startup(t) => StepsOut(v, t);
    case Begin => BeginOut(v, FirstReady(v.ready, 0));
    case Suspend(t) => StepsOut(v, t);
    case Resume(t) => StepsOut(v, t);
    case Timeout(t) => StepsOut(v, t); ScheduledOut(TimeoutStep(v, t));
    case Sleep => WaitsOut(v, v.current, false);
    case Block(timed) => WaitsOut(v, v.current, timed);
    case Yield => ScheduledOut(With(v, v.current, v.threads[v.current].(yielding := true)));
    case SetPriority(t, prio) => PriorityOut(v, t, prio);
    case Exit(kept) => ClosedOut(v, v.current, kept); ScheduledOut(Closed(v, v.current, kept));
    case Delete(t, kept) => ClosedOut(v, t, kept);
    case Reschedule => ScheduledOut(v);
    case _ =>
  }

  /** Held threads stay held when nobody else touches them. */
  lemma HeldKeeps(v: View, e: Event)
    requires Placed(v) && Held(v) && Enabled(v, e) && LeavesAlone(v, e)
    ensures Shaped(v) && Held(Apply(v, e))
  {
    PlacedShape(v);
    var w := Apply(v, e);
    if e.GoOn? { GoOnHeld(v); } else { CallHeld(v, e); }
    forall a | a in w.calls ensures HeldBy(w, a, w.calls[a]) {
      if a in v.calls && !(e.GoOn? && a == v.current) {
        HeldStep(v, e, a);
      }
    }
  }

  lemma HeldStep(v: View, e: Event, a: Tid)
    requires Placed(v) && Shaped(v) && Held(v) && Enabled(v, e) && LeavesAlone(v, e) && a in v.calls && !(e.GoOn? && a == v.current)
    ensures HeldBy(Apply(v, e), a, v.calls[a])
  {
    var c := v.calls[a];
    assert HeldBy(v, a, c);
    assert c.t in v.threads;
    hide HeldBy, Placed, Shaped, Apply, Enabled, Touches, Held;
    if Engaged(c) { Untouched(v, e, c.t); }
    StillHeld(v, Apply(v, e), a, c);
  }

  lemma CalmStep(v: View, e: Event)
    requires Placed(v) && Held(v) && Callable(v, e) && !ClosedWaits(v, e)
    ensures Enabled(v, e)
  {
    if e.GoOn? { HeldIsCalm(v); }
  }

  lemma {:induction false} UndisturbedFrom(v: View, es: seq<Event>)
    requires Placed(v) && Held(v) && CanCall(v, es) && Undisturbed(v, es)
    ensures CanRun(v, es)
    decreases es
  {
    if es != [] {
      hide Placed, Held, Apply, Callable, LeavesAlone, ClosedWaits, Spoils;
      CalmStep(v, es[0]);
      StepKeeps(v, es[0]);
      HeldKeeps(v, es[0]);
      UndisturbedFrom(Apply(v, es[0]), es[1..]);
    }
  }

  /** Every thread is where it belongs throughout a run in which no call and no timeout
      touches a thread that a resume or a delete is engaged with, and no closed thread
      goes to sleep or waits. */
  lemma UndisturbedRuns(max: nat, es: seq<Event>)
    requires CanCall(Start(max), es) && Undisturbed(Start(max), es)
    ensures CanRun(Start(max), es) && AlwaysPlaced(Start(max), es)
  {
    StartPlaced(max);
    UndisturbedFrom(Start(max), es);
    hide Undisturbed, CanRun, AlwaysPlaced;
    PlacedExactly(max, es);
  }

  // -------------------------------------------- interference that does no harm

  /** Thread 0 begins to resume thread 1; before its first region others resume and suspend
      that thread. */
  function MovedAndBack(): seq<Event> { [CallResume(1), Resume(1), Suspend(1), GoOn, GoOn] }

  lemma Moved()
    ensures var v := Later(SUSPEND, true, [], {1}, [], map[0 := Unlinking(1)]);
            Shaped(v) && Enabled(v, Resume(1)) && Apply(v, Resume(1)) == Later(READY, false, [1], {}, [], map[0 := Unlinking(1)])
    ensures !LeavesAlone(Later(SUSPEND, true, [], {1}, [], map[0 := Unlinking(1)]), Resume(1))
  {
    var v := Later(SUSPEND, true, [], {1}, [], map[0 := Unlinking(1)]);
    assert Touches(v, Resume(1), 1) && Engaged(v.calls[0]);
    var o := With(Out(v, 1), 1, v.threads[1].(timer := false));
    assert o.ready == v.ready && o.waiting == {} && o.out == {};
    var w := InsertStep(o, 1);
    assert w.ready[1] == [1];
    assert w.ready == [[], [1]];
    assert w.threads == Later(READY, false, [1], {}, [], map[]).threads;
  }

  lemma AndBack()
    ensures var v := Later(READY, false, [1], {}, [], map[0 := Unlinking(1)]);
            Shaped(v) && Enabled(v, Suspend(1)) && Apply(v, Suspend(1)) == Later(SUSPEND, false, [], {}, [], map[0 := Unlinking(1)])
  {
    var v := Later(READY, false, [1], {}, [], map[0 := Unlinking(1)]);
    var w := Suspended(v, 1);
    assert Without([1], 1) == [];
    assert w.ready == [[], []];
    assert w.threads == Later(SUSPEND, false, [], {}, [], map[]).threads;
  }

  lemma ThenUnlinked()
    ensures var v := Later(SUSPEND, false, [], {}, [], map[0 := Unlinking(1)]);
            Shaped(v) && Enabled(v, GoOn) && Apply(v, GoOn) == Later(SUSPEND, false, [], {}, [], map[0 := Inserting(1)])
  {
    var v := Later(SUSPEND, false, [], {}, [], map[0 := Unlinking(1)]);
    GoesOn(v);
    hide Apply;
    var u := UnlinkStep(v, 1);
    assert u.ready == v.ready && u.waiting == {};
    assert u.threads == v.threads;
    assert v.calls[0 := Inserting(1)] == map[0 := Inserting(1)];
  }

  lemma ThenInserted()
    ensures var v := Later(SUSPEND, false, [], {}, [], map[0 := Inserting(1)]); Shaped(v) && Enabled(v, GoOn)
  {
  }

  /** So that nobody touches the thread is not needed: here it is moved and put back
      between the look and the first region, and every thread is where it belongs in every
      state. */
  lemma TouchMayBeHarmless()
    ensures CanCall(Scene(), MovedAndBack()) && !Undisturbed(Scene(), MovedAndBack())
    ensures CanRun(Scene(), MovedAndBack()) && AlwaysPlaced(Scene(), MovedAndBack())
  {
    var es := MovedAndBack();
    var v1, v2 := Later(SUSPEND, true, [], {1}, [], map[0 := Unlinking(1)]), Later(READY, false, [1], {}, [], map[0 := Unlinking(1)]);
    var v3, v4 := Later(SUSPEND, false, [], {}, [], map[0 := Unlinking(1)]), Later(SUSPEND, false, [], {}, [], map[0 := Inserting(1)]);
    ScenePlaced();
    Resume1();
    assert !Spoils(Scene(), CallResume(1));
    Moved();
    AndBack();
    ThenUnlinked();
    ThenInserted();
    var es1, es2, es3, es4 := es[1..], es[2..], es[3..], es[4..];
    assert es1[1..] == es2 && es2[1..] == es3 && es3[1..] == es4 && es4[1..] == [];
    assert es[0] == CallResume(1) && es1[0] == Resume(1) && es2[0] == Suspend(1) && es3[0] == GoOn && es4[0] == GoOn;
    hide Apply, Callable, Spoils, Shaped, Later, Placed, LeavesAlone, ClosedWaits, Scene, MovedAndBack;
    assert CanRun(Apply(v4, GoOn), []);
    assert CanRun(v4, es4);
    assert CanRun(v3, es3);
    assert CanRun(v2, es2);
    assert CanRun(v1, es1);
    assert CanRun(Scene(), es);
    RunIsCall(Scene(), es);
    PlacedFrom(Scene(), es);
    RunIsCall(v1, es1);
    assert !Undisturbed(v1, es1);
  }
}
