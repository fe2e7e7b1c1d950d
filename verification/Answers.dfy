/** What the callers of a mailbox learn from its answers (src/ipc.c), told by the mails, the
    room and the wait lists. */
module MailAnswers {
  import opened Lists
  import opened WaitList
  import opened Mailbox

  /** The first of those who wait is let go. */
  ghost predicate FirstGoes(side: Side, side': Side)
  {
    if side.waiting == [] then side' == side
    else side'.waiting == side.waiting[1..] && side'.woken == side.woken + {side.waiting[0]}
  }

  /** OK: there was room, and the mail is the last one now; the first receiver that waits
      is woken. FULL: there was no room and no time to wait. No answer: there was no room,
      and the sender waits. */
  lemma SendMeans(s: State, t: Tid, value: int, timeout: int)
    requires Inv(s) && Idle(s, t)
    ensures var s', r := Apply(s, Send(t, value, timeout)), Reply(s, Send(t, value, timeout));
            && (r == Return(OK) <==> |s.queue| < s.size)
            && (r == Return(OK) ==> s'.queue == s.queue + [value] && s'.send == s.send && FirstGoes(s.recv, s'.recv))
            && (r == Return(FULL) <==> |s.queue| == s.size && timeout == 0) && (r == Return(FULL) ==> s' == s)
            && (r == Blocked <==> t in s'.send.waiting) && (r == Blocked <==> |s.queue| == s.size && timeout != 0)
            && (r == Blocked ==> s'.queue == s.queue && s'.recv == s.recv) && s'.failed == s.failed
  {
    Runner(s, t);
    assert Ran(s.send, t) == s.send;
    EnqueueMembers(s.send.waiting, t, s.prio, s.fifo);
    hide Enqueue, NoLost, Apart, OutOf, In;
  }

  /** OK: there was a mail, and the oldest is gone; the first sender that waits is woken.
      TIMEOUT: there was none and no time to wait. No answer: there was none, and the
      receiver waits. */
  lemma RecvMeans(s: State, t: Tid, timeout: int)
    requires Inv(s) && Idle(s, t)
    ensures var s', r := Apply(s, Recv(t, timeout)), Reply(s, Recv(t, timeout));
            && (r == Return(OK) <==> s.queue != [])
            && (r == Return(OK) ==> s'.queue == s.queue[1..] && s'.recv == s.recv && FirstGoes(s.send, s'.send))
            && (r == Return(TIMEOUT) <==> s.queue == [] && timeout == 0) && (r == Return(TIMEOUT) ==> s' == s)
            && (r == Blocked <==> t in s'.recv.waiting) && (r == Blocked <==> s.queue == [] && timeout != 0)
            && (r == Blocked ==> s'.queue == s.queue && s'.send == s.send) && s'.failed == s.failed
  {
    Runner(s, t);
    assert Ran(s.recv, t) == s.recv;
    EnqueueMembers(s.recv.waiting, t, s.prio, s.fifo);
    hide Enqueue, NoLost, Apart, OutOf, In;
  }

  /** A thread that runs again ends with the error it was resumed with, and nothing else
      changes; without one it is answered as if it called now with the time it has left,
      and one that waits for ever is never answered that time is up. */
  lemma AgainMeans(s: State, t: Tid, value: int, timeout: int, elapsed: nat)
    requires Inv(s)
    ensures Enabled(s, SendAgain(t, value, timeout, elapsed)) ==>
              var e := SendAgain(t, value, timeout, elapsed);
              && (t in s.failed ==> Reply(s, e) == Return(s.failed[t]) && Apply(s, e) == s.(failed := s.failed - {t}))
              && (t !in s.failed ==> var free := s.(send := s.send.(woken := s.send.woken - {t}));
                    Idle(free, t) && Reply(s, e) == Reply(free, Send(t, value, Rest(timeout, elapsed)))
                    && Apply(s, e) == Apply(free, Send(t, value, Rest(timeout, elapsed))))
              && (t !in s.failed && timeout < 0 ==> Reply(s, e) == Return(OK) || Reply(s, e) == Blocked)
    ensures Enabled(s, RecvAgain(t, timeout, elapsed)) ==>
              var e := RecvAgain(t, timeout, elapsed);
              && (t in s.failed ==> Reply(s, e) == Return(s.failed[t]) && Apply(s, e) == s.(failed := s.failed - {t}))
              && (t !in s.failed ==> var free := s.(recv := s.recv.(woken := s.recv.woken - {t}));
                    Idle(free, t) && Reply(s, e) == Reply(free, Recv(t, Rest(timeout, elapsed)))
                    && Apply(s, e) == Apply(free, Recv(t, Rest(timeout, elapsed))))
              && (t !in s.failed && timeout < 0 ==> Reply(s, e) == Return(OK) || Reply(s, e) == Blocked)
  {
    if t in s.send.woken || t in s.recv.woken { Runner(s, t); }
    assert s.send.woken - {t} - {t} == s.send.woken - {t};
    assert s.recv.woken - {t} - {t} == s.recv.woken - {t};
    hide Enqueue, NoLost, Apart, OutOf;
  }

  /** A thread whose timer fires is off the wait lists and will be answered TIMEOUT; all who
      wait when the box is reset will be answered ERROR, and the box is empty. */
  lemma EndMeans(s: State, t: Tid, value: int, timeout: int, elapsed: nat)
    requires Inv(s) && (t in s.send.waiting || t in s.recv.waiting)
    ensures var s' := Apply(s, Expire(t));
            && t !in s'.send.waiting && t !in s'.recv.waiting && s'.queue == s.queue
            && Reply(s', SendAgain(t, value, timeout, elapsed)) == Return(TIMEOUT) == Reply(s', RecvAgain(t, timeout, elapsed))
    ensures var s' := Apply(s, Reset);
            && s'.send.waiting == [] == s'.recv.waiting && s'.queue == []
            && Reply(s', SendAgain(t, value, timeout, elapsed)) == Return(ERROR) == Reply(s', RecvAgain(t, timeout, elapsed))
  {
    hide Inv, NoLost;
  }

  // --------------------------------------------------------------------- over whole runs

  /** The mails of the sends that were answered OK, in order. */
  function Accepted(s: State, es: seq<Event>): seq<int>
    requires CanRun(s, es)
    decreases es
  {
    if es == [] then [] else AcceptedBy(s, es[0]) + Accepted(Apply(s, es[0]), es[1..])
  }

  function AcceptedBy(s: State, e: Event): seq<int>
  {
    if (e.Send? || e.SendAgain?) && Reply(s, e) == Return(OK) then [e.value] else []
  }

  /** The mails that left the box: each receive that was answered OK took the first there
      was, and a reset dropped all. */
  function Gone(s: State, es: seq<Event>): seq<int>
    requires CanRun(s, es)
    decreases es
  {
    if es == [] then [] else GoneBy(s, es[0]) + Gone(Apply(s, es[0]), es[1..])
  }

  function GoneBy(s: State, e: Event): seq<int>
  {
    if e.Reset? then s.queue
    else if (e.Recv? || e.RecvAgain?) && Reply(s, e) == Return(OK) && s.queue != [] then [s.queue[0]]
    else []
  }

  /** Nobody was resumed with the error code OK. */
  predicate Errs(s: State) { forall t :: t in s.failed ==> s.failed[t] != OK }

  lemma StepErrs(s: State, e: Event)
    requires Errs(s)
    ensures Errs(Apply(s, e))
  {
    hide Enqueue, Wake;
  }

  lemma StepPasses(s: State, e: Event)
    requires Inv(s) && Enabled(s, e) && Errs(s)
    ensures s.queue + AcceptedBy(s, e) == GoneBy(s, e) + Apply(s, e).queue
  {
    hide Enqueue, Wake, Inv, NoLost;
    assert s.queue != [] ==> s.queue == [s.queue[0]] + s.queue[1..];
  }

  lemma {:induction false} PassesFrom(s: State, es: seq<Event>)
    requires Inv(s) && Errs(s) && CanRun(s, es)
    ensures s.queue + Accepted(s, es) == Gone(s, es) + Run(s, es).queue
    decreases es
  {
    if es != [] {
      hide Inv, Errs, Apply, AcceptedBy, GoneBy, Enabled;
      var s1, a, h := Apply(s, es[0]), AcceptedBy(s, es[0]), GoneBy(s, es[0]);
      StepKeeps(s, es[0]);
      StepErrs(s, es[0]);
      StepPasses(s, es[0]);
      PassesFrom(s1, es[1..]);
      Joins(s.queue, a, h, s1.queue, Accepted(s1, es[1..]), Gone(s1, es[1..]), Run(s1, es[1..]).queue);
    }
  }

  lemma Joins(q: seq<int>, a: seq<int>, h: seq<int>, q1: seq<int>, a1: seq<int>, h1: seq<int>, q2: seq<int>)
    requires q + a == h + q1 && q1 + a1 == h1 + q2
    ensures q + (a + a1) == (h + h1) + q2
  {
    assert q + (a + a1) == (q + a) + a1;
    assert (h + q1) + a1 == h + (q1 + a1);
    assert h + (h1 + q2) == (h + h1) + q2;
  }

  /** First in, first out: in every run the mails that left the box, to receivers or dropped
      by a reset, and then those that lie in it are what the senders were told was
      accepted, each once and in that order. */
  lemma FirstInFirstOut(size: nat, prio: map<Tid, int>, fifo: bool, es: seq<Event>)
    requires CanRun(Start(size, prio, fifo), es)
    ensures var s := Start(size, prio, fifo); Accepted(s, es) == Gone(s, es) + Run(s, es).queue
  {
    hide Run, CanRun, Accepted, Gone, Inv, Errs, Start;
    var s := Start(size, prio, fifo);
    StartEmpty(size, prio, fifo);
    PassesFrom(s, es);
    assert [] + Accepted(s, es) == Accepted(s, es);
  }

  lemma StartEmpty(size: nat, prio: map<Tid, int>, fifo: bool)
    ensures var s := Start(size, prio, fifo); Inv(s) && Errs(s) && s.queue == []
  {
  }
}

/** The same for message queues. */
module MessageAnswers {
  import opened Lists
  import opened WaitList
  import opened MessageQueue

  /** The sender holds the first free node, for exactly the message it passed. */
  ghost predicate Drafted(s: State, s': State, t: Tid, data: Body, urgent: bool)
  {
    && s.free != [] && s'.free == s.free[1..]
    && s'.sending == s.sending[s.free[0] := Draft(t, data, urgent, false)] && s'.queue == s.queue && s'.body == s.body
  }

  /** ERROR: the message is too long, and nothing changed. OK: the sender has a node for it.
      FULL: there is none and no time to wait. No answer: there is none, and the sender
      waits. */
  lemma SendMeans(s: State, t: Tid, data: Body, timeout: int)
    requires Inv(s) && Enabled(s, Send(t, data, timeout))
    ensures var s', r := Apply(s, Send(t, data, timeout)), Reply(s, Send(t, data, timeout));
            && (r == Return(ERROR) <==> |data| > s.msgSize) && (r == Return(ERROR) || r == Return(FULL) ==> s' == s)
            && (r == Return(OK) <==> |data| <= s.msgSize && s.free != []) && (r == Return(OK) ==> Drafted(s, s', t, data, false) && s'.send == s.send)
            && (r == Return(FULL) ==> s.free == [] && timeout == 0)
            && (r == Blocked <==> t in s'.send.waiting) && (r == Blocked ==> s.free == [] && timeout != 0 && s' == s.(send := s'.send))
  {
    InvRunner(s, t);
    assert Ran(s.send, t) == s.send;
    EnqueueMembers(s.send.waiting, t, s.prio, s.fifo);
    hide Enqueue, Inv, In;
  }

  /** An urgent message never waits. */
  lemma UrgentMeans(s: State, t: Tid, data: Body)
    requires Enabled(s, Urgent(t, data))
    ensures var s', r := Apply(s, Urgent(t, data)), Reply(s, Urgent(t, data));
            && (r == Return(ERROR) <==> |data| > s.msgSize) && (r == Return(FULL) <==> |data| <= s.msgSize && s.free == [])
            && (r == Return(ERROR) || r == Return(FULL) ==> s' == s) && (r == Return(OK) ==> Drafted(s, s', t, data, true) && s'.send == s.send)
            && r != Blocked
  {
  }

  /** OK: there was a message, and the receiver holds the first one's node. TIMEOUT: there
      was none and no time to wait. No answer: there was none, and the receiver waits. */
  lemma RecvMeans(s: State, t: Tid, size: nat, timeout: int)
    requires Inv(s) && Enabled(s, Recv(t, size, timeout))
    ensures var s', r := Apply(s, Recv(t, size, timeout)), Reply(s, Recv(t, size, timeout));
            && (r == Return(OK) <==> s.queue != [])
            && (r == Return(OK) ==> s'.queue == s.queue[1..] && s'.receiving == s.receiving[s.queue[0] := Pick(t, size, false, [])] && s'.recv == s.recv)
            && (r == Return(TIMEOUT) <==> s.queue == [] && timeout == 0) && (r == Return(TIMEOUT) ==> s' == s)
            && (r == Blocked <==> t in s'.recv.waiting) && (r == Blocked <==> s.queue == [] && timeout != 0)
            && (r == Blocked ==> s' == s.(recv := s'.recv)) && s'.body == s.body
  {
    InvRunner(s, t);
    assert Ran(s.recv, t) == s.recv;
    EnqueueMembers(s.recv.waiting, t, s.prio, s.fifo);
    hide Enqueue, Inv, In;
  }

  lemma EndMeans(s: State, t: Tid, data: Body, size: nat, timeout: int, elapsed: nat)
    requires Inv(s) && (t in s.send.waiting || t in s.recv.waiting)
    ensures var s' := Apply(s, Expire(t));
            && t !in s'.send.waiting && t !in s'.recv.waiting && s'.queue == s.queue && s'.free == s.free
            && Reply(s', SendAgain(t, data, timeout, elapsed)) == Return(TIMEOUT) == Reply(s', RecvAgain(t, size, timeout, elapsed))
    ensures var s' := Apply(s, Reset);
            && s'.send.waiting == [] == s'.recv.waiting && s'.queue == [] && (forall n :: n in s'.free <==> n in s.free || n in s.queue)
            && Reply(s', SendAgain(t, data, timeout, elapsed)) == Return(ERROR) == Reply(s', RecvAgain(t, size, timeout, elapsed))
  {
    hide Inv;
  }

  // --------------------------------------------------------------------- over whole runs

  /** The message that a step accepts for the queue. */
  function AcceptedBy(s: State, e: Event): seq<Body>
  {
    if (e.Send? || e.SendAgain? || e.Urgent?) && Reply(s, e) == Return(OK) then [e.data] else []
  }

  function Accepted(s: State, es: seq<Event>): seq<Body>
    requires CanRun(s, es)
    decreases es
  {
    if es == [] then [] else AcceptedBy(s, es[0]) + Accepted(Apply(s, es[0]), es[1..])
  }

  predicate Errs(s: State) { forall t :: t in s.failed ==> s.failed[t] != OK }

  ghost function SomeNode(m: map<Node, Draft>): (n: Node)
    requires m != map[]
    ensures n in m
  {
    var n :| n in m; n
  }

  lemma OneLess(m: map<Node, Draft>, n: Node)
    requires n in m
    ensures |m - {n}| < |m|
  {
    assert (m - {n})[n := m[n]] == m;
  }

  lemma EitherFirst(m: map<Node, Draft>, a: Node, b: Node)
    ensures m - {a} - {b} == m - {b} - {a}
  {
  }

  lemma PutBack(m: map<Node, Draft>, n: Node, d: Draft)
    ensures m[n := d] - {n} == m - {n}
  {
  }

  /** The messages in the hands of their senders. */
  ghost function Held(m: map<Node, Draft>): multiset<Body>
    decreases |m|
  {
    if m == map[] then multiset{}
    else
      var n := SomeNode(m);
      OneLess(m, n);
      multiset{m[n].data} + Held(m - {n})
  }

  lemma {:induction false} HeldWithout(m: map<Node, Draft>, n: Node)
    requires n in m
    ensures Held(m) == multiset{m[n].data} + Held(m - {n})
    decreases |m|
  {
    var c := SomeNode(m);
    if c != n {
      OneLess(m, c);
      OneLess(m, n);
      EitherFirst(m, c, n);
      var a, b, rest := multiset{m[c].data}, multiset{m[n].data}, Held(m - {c} - {n});
      HeldWithout(m - {c}, n);
      HeldWithout(m - {n}, c);
      assert Held(m) == a + Held(m - {c});
      hide Held, SomeNode;
      assert a + (b + rest) == b + (a + rest);
    }
  }

  lemma HeldWith(m: map<Node, Draft>, n: Node, d: Draft)
    requires n !in m
    ensures Held(m[n := d]) == Held(m) + multiset{d.data}
  {
    HeldWithout(m[n := d], n);
    hide Held;
    PutBack(m, n, d);
    assert m - {n} == m;
  }

  /** All that is linked or about to be was accepted, and nothing that was is missing. */
  ghost predicate AllFrom(s: State, was: seq<Body>) { multiset(s.sent) + Held(s.sending) == multiset(was) }

  lemma FreeNotSending(s: State)
    requires Inv(s) && s.free != []
    ensures s.free[0] !in s.sending
  {
  }

  lemma StepErrs(s: State, e: Event)
    requires Errs(s) && Enabled(s, e)
    ensures Errs(Apply(s, e))
  {
    hide SendPass, RecvPass, TakeFree, FillStep, LinkStep, CopyStep, GiveBackStep, Reverse;
    match e
    case Send(t, data, timeout) => SenderFields(s, t, data, timeout);
    case SendAgain(t, data, timeout, elapsed) => SenderFields(s, t, data, Rest(timeout, elapsed));
    case Recv(t, size, timeout) => ReceiverFields(s, t, size, timeout);
    case RecvAgain(t, size, timeout, elapsed) => ReceiverFields(s, t, size, Rest(timeout, elapsed));
    case Urgent(t, data) => if s.free != [] { TakeFields(s, t, data); }
    case Fill(n) => NodeFields(s, n);
    case Link(n) => NodeFields(s, n);
    case Copy(n) => NodeFields(s, n);
    case GiveBack(n) => NodeFields(s, n);
    case Expire(t) =>
    case Reset =>
  }

  lemma SenderFields(s: State, t: Tid, data: Body, timeout: int)
    ensures var r := SendPass(s, t, data, timeout);
            && r.failed == s.failed && r.sent == s.sent
            && r.sending == if s.free != [] then s.sending[s.free[0] := Draft(t, data, false, false)] else s.sending
  {
    hide Enqueue, Ran;
    if s.free != [] {
    } else if timeout == 0 {
    } else {
    }
  }

  lemma ReceiverFields(s: State, t: Tid, size: nat, timeout: int)
    ensures var r := RecvPass(s, t, size, timeout); r.failed == s.failed && r.sent == s.sent && r.sending == s.sending
  {
    hide Enqueue, Ran, TagOf;
    if s.queue != [] {
    } else if timeout == 0 {
    } else {
    }
  }

  lemma TakeFields(s: State, t: Tid, data: Body)
    requires s.free != []
    ensures var r := TakeFree(s, t, data, true);
            r.failed == s.failed && r.sent == s.sent && r.sending == s.sending[s.free[0] := Draft(t, data, true, false)]
  {
  }

  lemma NodeFields(s: State, n: Node)
    ensures n in s.sending ==> FillStep(s, n).failed == s.failed && LinkStep(s, n).failed == s.failed && FillStep(s, n).sent == s.sent
    ensures n in s.sending ==> FillStep(s, n).sending == s.sending[n := s.sending[n].(filled := true)]
    ensures n in s.receiving ==> var r := CopyStep(s, n); r.failed == s.failed && r.sent == s.sent && r.sending == s.sending
    ensures n in s.receiving ==> var r := GiveBackStep(s, n); r.failed == s.failed && r.sent == s.sent && r.sending == s.sending
  {
    hide Wake, Filled, Cut;
  }

  lemma StepAllFrom(s: State, e: Event, was: seq<Body>)
    requires Inv(s) && Errs(s) && Enabled(s, e) && AllFrom(s, was)
    ensures AllFrom(Apply(s, e), was + AcceptedBy(s, e))
  {
    if e.Send? || e.SendAgain? || e.Urgent? {
      SenderAllFrom(s, e, was);
    } else {
      OtherAllFrom(s, e, was);
      assert was + [] == was;
    }
    hide Inv, Errs, Enabled, AllFrom, Apply;
  }

  lemma SenderAllFrom(s: State, e: Event, was: seq<Body>)
    requires Inv(s) && Errs(s) && Enabled(s, e) && AllFrom(s, was) && (e.Send? || e.SendAgain? || e.Urgent?)
    ensures AllFrom(Apply(s, e), was + AcceptedBy(s, e))
  {
    hide Inv, SendPass, TakeFree, In, AllFrom;
    if s.free != [] { FreeNotSending(s); }
    match e
    case Send(t, data, timeout) =>
      SenderFields(s, t, data, timeout);
      MoreOf(s, Apply(s, e), e, was, false);
    case SendAgain(t, data, timeout, elapsed) =>
      SenderFields(s, t, data, Rest(timeout, elapsed));
      MoreOf(s, Apply(s, e), e, was, false);
    case Urgent(t, data) =>
      if s.free != [] { TakeFields(s, t, data); }
      MoreOf(s, Apply(s, e), e, was, true);
  }

  lemma OtherAllFrom(s: State, e: Event, was: seq<Body>)
    requires Enabled(s, e) && AllFrom(s, was) && !(e.Send? || e.SendAgain? || e.Urgent?)
    ensures AllFrom(Apply(s, e), was)
  {
    hide RecvPass, FillStep, LinkStep, CopyStep, GiveBackStep, Reverse, In, AllFrom;
    var s' := Apply(s, e);
    match e
    case Recv(t, size, timeout) => ReceiverFields(s, t, size, timeout); SameOf(s, s', was);
    case RecvAgain(t, size, timeout, elapsed) => ReceiverFields(s, t, size, Rest(timeout, elapsed)); SameOf(s, s', was);
    case Fill(n) => NodeFields(s, n); FilledOf(s, s', n, was);
    case Link(n) => LinkAllFrom(s, n, was);
    case Copy(n) => NodeFields(s, n); SameOf(s, s', was);
    case GiveBack(n) => NodeFields(s, n); SameOf(s, s', was);
    case Expire(t) => SameOf(s, s', was);
    case Reset => SameOf(s, s', was);
  }

  lemma SameOf(s: State, s': State, was: seq<Body>)
    requires AllFrom(s, was) && s'.sent == s.sent && s'.sending == s.sending
    ensures AllFrom(s', was)
  {
  }

  lemma FilledOf(s: State, s': State, n: Node, was: seq<Body>)
    requires AllFrom(s, was) && s'.sent == s.sent && n in s.sending && s'.sending == s.sending[n := s.sending[n].(filled := true)]
    ensures AllFrom(s', was)
  {
    hide Held;
    HeldWithout(s.sending, n);
    HeldWithout(s'.sending, n);
    PutBack(s.sending, n, s.sending[n].(filled := true));
  }

  /** A step of a sender: if it is accepted there is one draft more, with its message. */
  lemma MoreOf(s: State, s': State, e: Event, was: seq<Body>, urgent: bool)
    requires AllFrom(s, was) && (e.Send? || e.SendAgain? || e.Urgent?) && s'.sent == s.sent
    requires AcceptedBy(s, e) == [] ==> s'.sending == s.sending
    requires AcceptedBy(s, e) != [] ==>
               s.free != [] && s.free[0] !in s.sending && s'.sending == s.sending[s.free[0] := Draft(e.t, e.data, urgent, false)]
    ensures AllFrom(s', was + AcceptedBy(s, e))
  {
    hide Reply;
    if AcceptedBy(s, e) == [] {
      assert was + AcceptedBy(s, e) == was;
    } else {
      HeldWith(s.sending, s.free[0], Draft(e.t, e.data, urgent, false));
    }
  }

  lemma LinkAllFrom(s: State, n: Node, was: seq<Body>)
    requires n in s.sending && AllFrom(s, was)
    ensures AllFrom(LinkStep(s, n), was)
  {
    hide Wake, Held;
    HeldWithout(s.sending, n);
  }

  lemma {:induction false} AllFromRun(s: State, es: seq<Event>, was: seq<Body>)
    requires Inv(s) && Errs(s) && CanRun(s, es) && AllFrom(s, was)
    ensures AllFrom(Run(s, es), was + Accepted(s, es))
    decreases es
  {
    if es == [] {
      assert was + [] == was;
    } else {
      hide Inv, Errs, Apply, AcceptedBy, Enabled, AllFrom;
      StepKeeps(s, es[0]);
      StepErrs(s, es[0]);
      StepAllFrom(s, es[0], was);
      AllFromRun(Apply(s, es[0]), es[1..], was + AcceptedBy(s, es[0]));
      Associates(was, AcceptedBy(s, es[0]), Accepted(Apply(s, es[0]), es[1..]));
    }
  }

  lemma Associates(a: seq<Body>, b: seq<Body>, c: seq<Body>)
    ensures (a + b) + c == a + (b + c)
  {
  }

  /** In every run, the messages linked and those still in the hands of their senders are
      the ones that callers passed and were told were accepted, each as often. */
  lemma SentWasAccepted(max: nat, msgSize: nat, prio: map<Tid, int>, fifo: bool, body: map<Node, Body>, es: seq<Event>)
    requires Pool(max, msgSize, body) && CanRun(Start(max, msgSize, prio, fifo, body), es)
    ensures var s0 := Start(max, msgSize, prio, fifo, body); var s := Run(s0, es);
            multiset(s.sent) + Held(s.sending) == multiset(Accepted(s0, es))
  {
    var s0 := Start(max, msgSize, prio, fifo, body);
    assert AllFrom(s0, []) && Errs(s0);
    hide Run, CanRun, Accepted, Inv, Pool, Start, Errs;
    StartKeeps(max, msgSize, prio, fifo, body);
    AllFromRun(s0, es, []);
    assert [] + Accepted(s0, es) == Accepted(s0, es);
  }
}
