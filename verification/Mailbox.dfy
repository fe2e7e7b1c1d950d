/** Mailboxes (src/ipc.c): a ring of words with threads waiting on both sides. The
    protocol is a state machine whose steps are the regions that run with interrupts
    disabled; the class does those steps on the ring buffer. */
module Mailbox {
  import opened Lists
  import opened WaitList

  const ENTRY_MAX := 65535  // RT_MB_ENTRY_MAX

  /** What one region ends with: the call returns, or the thread is suspended. */
  datatype Outcome = Return(err: Err) | Blocked

  /** queue: the mails that wait. sent: every mail accepted and not dropped by a reset.
      received: every mail handed out. failed: threads resumed with an error that have
      not run since. */
  datatype State = State(size: nat, prio: map<Tid, int>, fifo: bool, queue: seq<int>, send: Side, recv: Side,
                         failed: map<Tid, Err>, sent: seq<int>, received: seq<int>)

  datatype Event =
    | Send(t: Tid, value: int, timeout: int)
    | SendAgain(t: Tid, value: int, timeout: int, elapsed: nat)
    | Recv(t: Tid, timeout: int)
    | RecvAgain(t: Tid, timeout: int, elapsed: nat)
    | Expire(t: Tid)
    | Reset

  /** t is in no call. */
  predicate Idle(s: State, t: Tid)
  {
    !In(s.send, t) && !In(s.recv, t) && t !in s.failed
  }

  /** A thread calls only when it is in no call; it goes on in a call once it has been
      resumed; a timer fires only while its thread waits. */
  predicate Enabled(s: State, e: Event)
  {
    match e
    case Send(t, _, _) => Idle(s, t)
    case Recv(t, _) => Idle(s, t)
    case SendAgain(t, _, _, _) => t in s.send.woken || t in s.failed
    case RecvAgain(t, _, _) => t in s.recv.woken || t in s.failed
    case Expire(t) => t in s.send.waiting || t in s.recv.waiting
    case Reset => true
  }

  /** One pass of the sending loop. */
  function SendPass(s: State, t: Tid, value: int, timeout: int): State
  {
    if |s.queue| < s.size then
      s.(queue := s.queue + [value], sent := s.sent + [value], send := Ran(s.send, t), recv := Wake(s.recv))
    else if timeout == 0 then s.(send := Ran(s.send, t))
    else s.(send := Side(Enqueue(s.send.waiting, t, s.prio, s.fifo), s.send.woken - {t}))
  }

  /** One pass of the receiving loop. */
  function RecvPass(s: State, t: Tid, timeout: int): State
  {
    if |s.queue| > 0 then
      s.(queue := s.queue[1..], received := s.received + [s.queue[0]], recv := Ran(s.recv, t), send := Wake(s.send))
    else if timeout == 0 then s.(recv := Ran(s.recv, t))
    else s.(recv := Side(Enqueue(s.recv.waiting, t, s.prio, s.fifo), s.recv.woken - {t}))
  }

  function Apply(s: State, e: Event): State
  {
    match e
    case Send(t, value, timeout) => SendPass(s, t, value, timeout)
    case Recv(t, timeout) => RecvPass(s, t, timeout)
    case SendAgain(t, value, timeout, elapsed) =>
      if t in s.failed then s.(failed := s.failed - {t}) else SendPass(s, t, value, Rest(timeout, elapsed))
    case RecvAgain(t, timeout, elapsed) =>
      if t in s.failed then s.(failed := s.failed - {t}) else RecvPass(s, t, Rest(timeout, elapsed))
    case Expire(t) =>
      s.(send := Left(s.send, t), recv := Left(s.recv, t), failed := s.failed[t := TIMEOUT])
    case Reset =>
      s.(queue := [], sent := s.received, send := Drained(s.send), recv := Drained(s.recv),
         failed := Failing(Failing(s.failed, s.recv.waiting, ERROR), s.send.waiting, ERROR))
  }

  /** What the step's caller sees. */
  function Reply(s: State, e: Event): Outcome
  {
    match e
    case Send(_, _, timeout) => SendReply(s, timeout)
    case Recv(_, timeout) => RecvReply(s, timeout)
    case SendAgain(t, _, timeout, elapsed) =>
      if t in s.failed then Return(s.failed[t]) else SendReply(s, Rest(timeout, elapsed))
    case RecvAgain(t, timeout, elapsed) =>
      if t in s.failed then Return(s.failed[t]) else RecvReply(s, Rest(timeout, elapsed))
    case Expire(_) => Return(OK)
    case Reset => Return(OK)
  }

  function SendReply(s: State, timeout: int): Outcome
  {
    if |s.queue| < s.size then Return(OK) else if timeout == 0 then Return(FULL) else Blocked
  }

  function RecvReply(s: State, timeout: int): Outcome
  {
    if |s.queue| > 0 then Return(OK) else if timeout == 0 then Return(TIMEOUT) else Blocked
  }

  // ------------------------------------------------------------------- every run

  /** While senders wait, the free slots are promised to woken senders; while receivers
      wait, the mails are promised to woken receivers. Mails come out in the order
      they went in, each once. A thread is in one place. */
  ghost predicate Inv(s: State)
  {
    && |s.queue| <= s.size && s.sent == s.received + s.queue
    && NoLost(s.size - |s.queue|, s.send) && NoLost(|s.queue|, s.recv)
    && Apart(s.send, s.recv) && OutOf(s.send, s.failed) && OutOf(s.recv, s.failed)
  }

  /** What is known of a thread about to make a pass. */
  lemma Runner(s: State, t: Tid)
    requires Inv(s) && (Idle(s, t) || t in s.send.woken || t in s.recv.woken)
    ensures t !in s.failed && t !in s.send.waiting && t !in s.recv.waiting
    ensures Idle(s, t) || t in s.recv.woken ==> !In(s.send, t)
    ensures Idle(s, t) || t in s.send.woken ==> !In(s.recv, t)
  {
    assert In(s.send, t) || In(s.recv, t) || Idle(s, t);
  }

  lemma SendPassKeeps(s: State, t: Tid, value: int, timeout: int)
    requires Inv(s) && (Idle(s, t) || t in s.send.woken)
    ensures Inv(SendPass(s, t, value, timeout))
  {
    Runner(s, t);
    assert s.received + s.queue + [value] == s.received + (s.queue + [value]);
    hide NoLost, Apart, OutOf, Shrunk, Joined, In, Enqueue, Wake;
    RanShrinks(s.send, t);
    WakeShrinks(s.recv);
    OutShrunk(s.send, Ran(s.send, t), s.failed);
    if |s.queue| < s.size {
      TakeKeeps(s.size - |s.queue|, s.send, t);
      GiveKeeps(|s.queue|, s.recv);
      ApartShrunk(s.send, s.recv, Ran(s.send, t), Wake(s.recv));
      OutShrunk(s.recv, Wake(s.recv), s.failed);
    } else if timeout == 0 {
      LeaveKeeps(s.send, t);
      ApartShrunk(s.send, s.recv, Ran(s.send, t), s.recv) by { ShrunkSelf(s.recv); }
    } else {
      var side := Side(Enqueue(s.send.waiting, t, s.prio, s.fifo), s.send.woken - {t});
      WaitKeeps(s.send, t, s.prio, s.fifo);
      WaitJoins(s.send, t, s.prio, s.fifo);
      ApartJoined(s.send, s.recv, side, t);
      OutJoined(s.send, side, s.failed, t);
    }
  }

  lemma RecvPassKeeps(s: State, t: Tid, timeout: int)
    requires Inv(s) && (Idle(s, t) || t in s.recv.woken)
    ensures Inv(RecvPass(s, t, timeout))
  {
    Runner(s, t);
    hide NoLost, Apart, OutOf, Shrunk, Joined, In, Enqueue, Wake;
    RanShrinks(s.recv, t);
    WakeShrinks(s.send);
    OutShrunk(s.recv, Ran(s.recv, t), s.failed);
    if |s.queue| > 0 {
      TakeKeeps(|s.queue|, s.recv, t);
      GiveKeeps(s.size - |s.queue|, s.send);
      ApartShrunk(s.send, s.recv, Wake(s.send), Ran(s.recv, t));
      OutShrunk(s.send, Wake(s.send), s.failed);
      assert s.received + s.queue == s.received + [s.queue[0]] + s.queue[1..];
    } else if timeout == 0 {
      LeaveKeeps(s.recv, t);
      ApartShrunk(s.send, s.recv, s.send, Ran(s.recv, t)) by { ShrunkSelf(s.send); }
    } else {
      var side := Side(Enqueue(s.recv.waiting, t, s.prio, s.fifo), s.recv.woken - {t});
      WaitKeeps(s.recv, t, s.prio, s.fifo);
      WaitJoins(s.recv, t, s.prio, s.fifo);
      ApartSwap(s.send, s.recv);
      ApartJoined(s.recv, s.send, side, t);
      OutJoined(s.recv, side, s.failed, t);
    }
  }

  lemma StepKeeps(s: State, e: Event)
    requires Inv(s) && Enabled(s, e)
    ensures Inv(Apply(s, e))
  {
    hide NoLost, Apart, In, Wake, Failing;
    match e
    case Send(t, value, timeout) => SendPassKeeps(s, t, value, timeout);
    case Recv(t, timeout) => RecvPassKeeps(s, t, timeout);
    case SendAgain(t, value, timeout, elapsed) =>
      if t !in s.failed { SendPassKeeps(s, t, value, Rest(timeout, elapsed)); }
    case RecvAgain(t, timeout, elapsed) =>
      if t !in s.failed { RecvPassKeeps(s, t, Rest(timeout, elapsed)); }
    case Expire(t) =>
      ExpirePlaces(s.send, s.recv, s.failed, t, s.size - |s.queue|, |s.queue|);
    case Reset =>
      DrainPlaces(s.send, s.recv, s.failed, s.size - |s.queue|, |s.queue|);
      DrainKeeps(s.size, s.send);
      DrainKeeps(0, s.recv);
  }

  function Start(size: nat, prio: map<Tid, int>, fifo: bool): State
  {
    State(size, prio, fifo, [], Side([], {}), Side([], {}), map[], [], [])
  }

  predicate CanRun(s: State, es: seq<Event>)
    decreases es
  {
    es == [] || (Enabled(s, es[0]) && CanRun(Apply(s, es[0]), es[1..]))
  }

  function Run(s: State, es: seq<Event>): State
    requires CanRun(s, es)
    decreases es
  {
    if es == [] then s else Run(Apply(s, es[0]), es[1..])
  }

  lemma {:induction false} RunKeeps(s: State, es: seq<Event>)
    requires Inv(s) && CanRun(s, es)
    ensures Inv(Run(s, es))
    decreases es
  {
    if es != [] {
      StepKeeps(s, es[0]);
      RunKeeps(Apply(s, es[0]), es[1..]);
    }
  }

  /** No lost wake-up: in every state any interleaving reaches, a thread waits beside
      something to take only while a thread resumed for it has yet to run. */
  lemma NoLostWakeUp(size: nat, prio: map<Tid, int>, fifo: bool, es: seq<Event>)
    requires CanRun(Start(size, prio, fifo), es)
    ensures var s := Run(Start(size, prio, fifo), es);
            && (s.send.waiting != [] ==> size - |s.queue| <= |s.send.woken|)
            && (s.recv.waiting != [] ==> |s.queue| <= |s.recv.woken|)
            && s.sent == s.received + s.queue
  {
    RunKeeps(Start(size, prio, fifo), es);
    RunSize(Start(size, prio, fifo), es);
  }

  lemma {:induction false} RunSize(s: State, es: seq<Event>)
    requires CanRun(s, es)
    ensures Run(s, es).size == s.size
    decreases es
  {
    if es != [] { RunSize(Apply(s, es[0]), es[1..]); }
  }

  /** Once everybody resumed has run, senders wait only at a full mailbox and receivers
      only at an empty one; so with room for any mail they do not wait at once. */
  lemma Settled(s: State)
    requires Inv(s) && s.send.woken == {} && s.recv.woken == {}
    ensures s.send.waiting != [] ==> |s.queue| == s.size
    ensures s.recv.waiting != [] ==> s.queue == []
    ensures s.size > 0 ==> s.send.waiting == [] || s.recv.waiting == []
  {
  }

  // -------------------------------------------------------------- the ring buffer

  /** The k-th place from `from` on, in a ring of n. */
  function At(from: nat, k: nat, n: nat): nat { if from + k >= n then from + k - n else from + k }

  /** The queue lies in the ring from outOffset on, and inOffset is behind it. */
  ghost predicate InRing(pool: seq<int>, entry: nat, inOffset: nat, outOffset: nat, queue: seq<int>)
  {
    var size := |pool|;
    && entry == |queue| <= size
    && (size == 0 ==> inOffset == 0 && outOffset == 0) && (size > 0 ==> outOffset < size && inOffset == At(outOffset, entry, size))
    && (forall k :: 0 <= k < entry ==> pool[At(outOffset, k, size)] == queue[k])
  }

  lemma RingEntry(pool: seq<int>, entry: nat, inOffset: nat, outOffset: nat, queue: seq<int>)
    requires InRing(pool, entry, inOffset, outOffset, queue)
    ensures entry == |queue| <= |pool|
  {
  }

  ghost predicate Errors(error: map<Tid, Err>, s: State)
  {
    AllOk(error, s.send) && AllOk(error, s.recv) && Fails(error, s.failed)
  }

  lemma ErrorsSend(error: map<Tid, Err>, s: State, t: Tid, value: int, timeout: int)
    requires Errors(error, s) && t !in s.failed
    ensures |s.queue| < s.size ==> Errors(error, SendPass(s, t, value, timeout))
    ensures |s.queue| >= s.size ==> Errors(error[t := OK], SendPass(s, t, value, timeout))
  {
    hide AllOk, Fails, Enqueue;
    OkRan(error, s.send, t);
    OkWake(error, s.recv);
    OkSet(error, Ran(s.send, t), t);
    OkSet(error, s.recv, t);
    OkWait(error, s.send, t, s.prio, s.fifo);
    FailsOther(error, s.failed, t, OK);
  }

  lemma ErrorsRecv(error: map<Tid, Err>, s: State, t: Tid, timeout: int)
    requires Errors(error, s) && t !in s.failed && !In(s.send, t) && t !in s.recv.waiting
    ensures |s.queue| > 0 ==> Errors(error, RecvPass(s, t, timeout))
    ensures |s.queue| == 0 && timeout != 0 ==> Errors(error[t := OK], RecvPass(s, t, timeout))
    ensures |s.queue| == 0 && timeout == 0 ==> Errors(error[t := TIMEOUT], RecvPass(s, t, timeout))
  {
    assert !In(Ran(s.recv, t), t);
    hide AllOk, Fails, Enqueue, In;
    OkRan(error, s.recv, t);
    OkWake(error, s.send);
    OkSet(error, s.send, t);
    OkWait(error, s.recv, t, s.prio, s.fifo);
    FailsOther(error, s.failed, t, OK);
    FailsOther(error, s.failed, t, TIMEOUT);
    OkOther(error, s.send, t, TIMEOUT);
    OkOther(error, Ran(s.recv, t), t, TIMEOUT);
  }

  lemma SendFields(s: State, t: Tid, value: int, timeout: int)
    ensures var s' := SendPass(s, t, value, timeout);
            && s'.size == s.size && s'.prio == s.prio && s'.fifo == s.fifo
            && s'.queue == (if |s.queue| < s.size then s.queue + [value] else s.queue)
            && s'.recv.waiting == (if |s.queue| < s.size && s.recv.waiting != [] then s.recv.waiting[1..] else s.recv.waiting)
            && s'.send.waiting == if |s.queue| < s.size || timeout == 0 then s.send.waiting else Enqueue(s.send.waiting, t, s.prio, s.fifo)
  {
  }

  lemma RecvFields(s: State, t: Tid, timeout: int)
    ensures var s' := RecvPass(s, t, timeout);
            && s'.size == s.size && s'.prio == s.prio && s'.fifo == s.fifo
            && s'.queue == (if |s.queue| > 0 then s.queue[1..] else s.queue)
            && s'.send.waiting == (if |s.queue| > 0 && s.send.waiting != [] then s.send.waiting[1..] else s.send.waiting)
            && s'.recv.waiting == if |s.queue| > 0 || timeout == 0 then s.recv.waiting else Enqueue(s.recv.waiting, t, s.prio, s.fifo)
  {
  }

  lemma ErrorsExpire(error: map<Tid, Err>, s: State, t: Tid)
    requires Errors(error, s) && Inv(s) && Enabled(s, Expire(t))
    ensures Errors(error[t := TIMEOUT], Apply(s, Expire(t)))
  {
    ExpirePlaces(s.send, s.recv, s.failed, t, s.size - |s.queue|, |s.queue|);
    hide In, AllOk, Inv;
    OkExpire(error, s.send, t);
    OkExpire(error, s.recv, t);
  }

  lemma ErrorsReset(error: map<Tid, Err>, s: State)
    requires Errors(error, s) && Inv(s)
    ensures Errors(Failing(Failing(error, s.recv.waiting, ERROR), s.send.waiting, ERROR), Apply(s, Reset))
  {
    DrainPlaces(s.send, s.recv, s.failed, s.size - |s.queue|, |s.queue|);
    hide Inv, AllOk, Fails, Failing, In;
    OkDrain(error, s.send, s.recv.waiting, s.send.waiting);
    OkDrain(error, s.recv, s.recv.waiting, s.send.waiting);
    FailingFails(error, s.failed, s.recv.waiting);
    FailingFails(Failing(error, s.recv.waiting, ERROR), Failing(s.failed, s.recv.waiting, ERROR), s.send.waiting);
  }

  class Box {
    const size: nat
    const prio: map<Tid, int>
    const fifo: bool
    const pool: array<int>
    var entry: nat
    var inOffset: nat
    var outOffset: nat
    var senders: seq<Tid>
    var receivers: seq<Tid>
    var error: map<Tid, Err>  // thread->error
    ghost var view: State

    ghost predicate Valid()
      reads this, pool
    {
      && Inv(view) && size <= ENTRY_MAX && pool.Length == size
      && view.size == size && view.prio == prio && view.fifo == fifo
      && view.send.waiting == senders && view.recv.waiting == receivers
      && InRing(pool[..], entry, inOffset, outOffset, view.queue) && Errors(error, view)
    }

    constructor (size: nat, prio: map<Tid, int>, fifo: bool)
      requires size <= ENTRY_MAX
      ensures Valid() && view == Start(size, prio, fifo) && fresh(pool)
    {
      this.size, this.prio, this.fifo := size, prio, fifo;
      pool := new int[size];
      entry, inOffset, outOffset := 0, 0, 0;
      senders, receivers, error := [], [], map[];
      view := Start(size, prio, fifo);
    }

    /** One pass of the sending loop. */
    method PassSend(t: Tid, value: int, timeout: int) returns (r: Outcome)
      requires Valid() && (Idle(view, t) || t in view.send.woken)
      modifies this, pool
      ensures Valid() && view == SendPass(old(view), t, value, timeout) && r == SendReply(old(view), timeout)
    {
      hide Inv, InRing, Errors, Enqueue, Idle, SendPass;
      SendPassKeeps(view, t, value, timeout);
      SendFields(view, t, value, timeout);
      Runner(view, t);
      ErrorsSend(error, view, t, value, timeout);
      RingEntry(pool[..], entry, inOffset, outOffset, view.queue);
      if entry == size {
        error := error[t := OK];
        if timeout == 0 {
          view := SendPass(view, t, value, timeout);
          return Return(FULL);
        }
        senders := Suspend(senders, t, prio, fifo);
        view := SendPass(view, t, value, timeout);
        return Blocked;
      }
      Put(value);
      if receivers != [] {
        receivers := receivers[1..];
      }
      view := SendPass(view, t, value, timeout);
      return Return(OK);
    }

    /** Store a mail and move the input offset; the counter never overflows. */
    method Put(value: int)
      requires entry < size <= ENTRY_MAX && pool.Length == size && InRing(pool[..], entry, inOffset, outOffset, view.queue)
      modifies `entry, `inOffset, pool
      ensures InRing(pool[..], entry, inOffset, outOffset, view.queue + [value])
    {
      pool[inOffset] := value;
      inOffset := inOffset + 1;
      if inOffset >= size { inOffset := 0; }
      assert entry < ENTRY_MAX;
      entry := entry + 1;
    }

    method PassRecv(t: Tid, timeout: int) returns (r: Outcome, value: int)
      requires Valid() && (Idle(view, t) || t in view.recv.woken)
      modifies this
      ensures Valid() && view == RecvPass(old(view), t, timeout) && r == RecvReply(old(view), timeout)
      ensures r == Return(OK) ==> old(view).queue != [] && value == old(view).queue[0]
    {
      hide Inv, InRing, Errors, Enqueue, Idle, RecvPass;
      RecvPassKeeps(view, t, timeout);
      RecvFields(view, t, timeout);
      Runner(view, t);
      ErrorsRecv(error, view, t, timeout);
      RingEntry(pool[..], entry, inOffset, outOffset, view.queue);
      value := 0;
      if entry == 0 {
        error := error[t := OK];
        if timeout == 0 {
          assert error[t := TIMEOUT] == old(error)[t := TIMEOUT];
          error := error[t := TIMEOUT];
          view := RecvPass(view, t, timeout);
          return Return(TIMEOUT), 0;
        }
        receivers := Suspend(receivers, t, prio, fifo);
        view := RecvPass(view, t, timeout);
        return Blocked, 0;
      }
      value := Fetch();
      if senders != [] {
        senders := senders[1..];
      }
      view := RecvPass(view, t, timeout);
      return Return(OK), value;
    }

    /** Read the oldest mail and move the output offset. */
    method Fetch() returns (value: int)
      requires 0 < entry && pool.Length == size && InRing(pool[..], entry, inOffset, outOffset, view.queue)
      modifies `entry, `outOffset
      ensures view.queue != [] && value == view.queue[0]
      ensures InRing(pool[..], entry, inOffset, outOffset, view.queue[1..])
    {
      assert At(outOffset, 0, size) == outOffset;
      value := pool[outOffset];
      outOffset := outOffset + 1;
      if outOffset >= size { outOffset := 0; }
      entry := entry - 1;
      assert forall k :: 0 <= k < entry ==> At(outOffset, k, size) == At(old(outOffset), k + 1, size);
    }

    /** The first region of rt_mb_send_wait. */
    method Send(t: Tid, value: int, timeout: int) returns (r: Outcome)
      requires Valid() && Enabled(view, Event.Send(t, value, timeout))
      modifies this, pool
      ensures Valid() && view == Apply(old(view), Event.Send(t, value, timeout)) && r == Reply(old(view), Event.Send(t, value, timeout))
    {
      RingEntry(pool[..], entry, inOffset, outOffset, view.queue);
      if entry == size && timeout == 0 {
        assert Ran(view.send, t) == view.send;
        return Return(FULL);
      }
      r := PassSend(t, value, timeout);
    }

    /** The sender runs again after rt_schedule. */
    method SendAgain(t: Tid, value: int, timeout: int, elapsed: nat) returns (r: Outcome)
      requires Valid() && Enabled(view, Event.SendAgain(t, value, timeout, elapsed))
      modifies this, pool
      ensures Valid() && view == Apply(old(view), Event.SendAgain(t, value, timeout, elapsed))
      ensures r == Reply(old(view), Event.SendAgain(t, value, timeout, elapsed))
    {
      Woken(t);
      if error[t] != OK {
        StepKeeps(view, Event.SendAgain(t, value, timeout, elapsed));
        view := view.(failed := view.failed - {t});
        return Return(error[t]);
      }
      var left := timeout;
      if timeout > 0 {
        left := timeout - elapsed;
        if left < 0 { left := 0; }
      }
      r := PassSend(t, value, left);
    }

    method Recv(t: Tid, timeout: int) returns (r: Outcome, value: int)
      requires Valid() && Enabled(view, Event.Recv(t, timeout))
      modifies this
      ensures Valid() && view == Apply(old(view), Event.Recv(t, timeout)) && r == Reply(old(view), Event.Recv(t, timeout))
      ensures r == Return(OK) ==> view.received == old(view).received + [value]
    {
      RingEntry(pool[..], entry, inOffset, outOffset, view.queue);
      if entry == 0 && timeout == 0 {
        assert Ran(view.recv, t) == view.recv;
        return Return(TIMEOUT), 0;
      }
      r, value := PassRecv(t, timeout);
    }

    method RecvAgain(t: Tid, timeout: int, elapsed: nat) returns (r: Outcome, value: int)
      requires Valid() && Enabled(view, Event.RecvAgain(t, timeout, elapsed))
      modifies this
      ensures Valid() && view == Apply(old(view), Event.RecvAgain(t, timeout, elapsed))
      ensures r == Reply(old(view), Event.RecvAgain(t, timeout, elapsed))
      ensures r == Return(OK) ==> view.received == old(view).received + [value]
    {
      Woken(t);
      if error[t] != OK {
        StepKeeps(view, Event.RecvAgain(t, timeout, elapsed));
        view := view.(failed := view.failed - {t});
        return Return(error[t]), 0;
      }
      var left := timeout;
      if timeout > 0 {
        left := timeout - elapsed;
        if left < 0 { left := 0; }
      }
      r, value := PassRecv(t, left);
    }

    /** A thread that runs again knows from its error code how it was resumed. */
    lemma Woken(t: Tid)
      requires Valid() && (t in view.send.woken || t in view.recv.woken || t in view.failed)
      ensures t in error && (error[t] != OK <==> t in view.failed)
      ensures t in view.failed ==> error[t] == view.failed[t]
    {
      assert t in view.send.woken ==> In(view.send, t);
      assert t in view.recv.woken ==> In(view.recv, t);
    }

    /** The timer of a waiting thread fires: rt_thread_timeout takes it off its list. */
    method Expire(t: Tid)
      requires Valid() && Enabled(view, Event.Expire(t))
      modifies this
      ensures Valid() && view == Apply(old(view), Event.Expire(t))
    {
      StepKeeps(view, Event.Expire(t));
      ErrorsExpire(error, view, t);
      hide Inv, InRing, Errors;
      error := error[t := TIMEOUT];
      senders, receivers := Without(senders, t), Without(receivers, t);
      view := Apply(view, Event.Expire(t));
    }

    /** RT_IPC_CMD_RESET. */
    method Reset()
      requires Valid()
      modifies this
      ensures Valid() && view == Apply(old(view), Event.Reset)
    {
      StepKeeps(view, Event.Reset);
      ErrorsReset(error, view);
      hide Inv, InRing, Errors;
      ghost var s := view;
      error := ResumeAll(error, receivers);
      error := ResumeAll(error, senders);
      senders, receivers := [], [];
      entry, inOffset, outOffset := 0, 0, 0;
      view := Apply(s, Event.Reset);
      EmptyRing(pool[..]);
    }
  }

  lemma EmptyRing(pool: seq<int>)
    ensures InRing(pool, 0, 0, 0, [])
  {
  }
}
