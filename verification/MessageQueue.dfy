/** Message queues (src/ipc.c). Sending and receiving each run in two regions with
    interrupts disabled, with the copying between them open to interleaving. The
    protocol is a state machine over those steps. */
module MessageQueue {
  import opened Lists
  import opened WaitList

  type Node = nat
  type Body = seq<int>

  const ENTRY_MAX := 65535  // RT_MQ_ENTRY_MAX

  /** A node in the hands of a sender: what it writes, where it will go, and whether
      it has been written. */
  datatype Draft = Draft(who: Tid, data: Body, urgent: bool, filled: bool)

  /** A node in the hands of a receiver: the bytes it asked for, and what it copied. */
  datatype Pick = Pick(who: Tid, size: nat, copied: bool, got: Body)

  datatype Outcome = Return(err: Err) | Blocked

  /** By serial number, sent: what the sender of every linked message passed, and log: the
      body of its node when it was linked. delivered: the serial numbers handed out so far. */
  datatype State = State(
    max: nat, msgSize: nat, prio: map<Tid, int>, fifo: bool,
    free: seq<Node>, queue: seq<Node>, sending: map<Node, Draft>, receiving: map<Node, Pick>,
    body: map<Node, Body>, send: Side, recv: Side, failed: map<Tid, Err>,
    sent: seq<Body>, log: seq<Body>, urgent: set<nat>, tag: map<Node, nat>, delivered: seq<nat>)

  datatype Event =
    | Send(t: Tid, data: Body, timeout: int)
    | SendAgain(t: Tid, data: Body, timeout: int, elapsed: nat)
    | Urgent(t: Tid, data: Body)
    | Fill(n: Node)
    | Link(n: Node)
    | Recv(t: Tid, size: nat, timeout: int)
    | RecvAgain(t: Tid, size: nat, timeout: int, elapsed: nat)
    | Copy(n: Node)
    | GiveBack(n: Node)
    | Expire(t: Tid)
    | Reset

  predicate Idle(s: State, t: Tid)
  {
    !In(s.send, t) && !In(s.recv, t) && t !in s.failed
  }

  predicate Enabled(s: State, e: Event)
  {
    match e
    case Send(t, data, _) => Idle(s, t) && data != []
    case Urgent(_, data) => data != []
    case Recv(t, size, _) => Idle(s, t) && size > 0
    case SendAgain(t, data, _, _) => (t in s.send.woken || t in s.failed) && 0 < |data| <= s.msgSize
    case RecvAgain(t, size, _, _) => (t in s.recv.woken || t in s.failed) && size > 0
    case Fill(n) => n in s.sending && !s.sending[n].filled
    case Link(n) => n in s.sending && s.sending[n].filled
    case Copy(n) => n in s.receiving && !s.receiving[n].copied
    case GiveBack(n) => n in s.receiving && s.receiving[n].copied
    case Expire(t) => t in s.send.waiting || t in s.recv.waiting
    case Reset => true
  }

  /** The message as it lies in the node: bytes behind a short message stay. */
  function Filled(was: Body, data: Body): Body { if |data| <= |was| then data + was[|data|..] else data }

  function TakeFree(s: State, t: Tid, data: Body, urgent: bool): State
    requires s.free != []
  {
    s.(free := s.free[1..], sending := s.sending[s.free[0] := Draft(t, data, urgent, false)])
  }

  function SendPass(s: State, t: Tid, data: Body, timeout: int): State
  {
    if s.free != [] then TakeFree(s, t, data, false).(send := Ran(s.send, t))
    else if timeout == 0 then s.(send := Ran(s.send, t))
    else s.(send := Side(Enqueue(s.send.waiting, t, s.prio, s.fifo), s.send.woken - {t}))
  }

  function FillStep(s: State, n: Node): State
    requires n in s.sending
  {
    var d := s.sending[n];
    s.(body := s.body[n := Filled(if n in s.body then s.body[n] else [], d.data)], sending := s.sending[n := d.(filled := true)])
  }

  function LinkStep(s: State, n: Node): State
    requires n in s.sending
  {
    var d, k := s.sending[n], |s.log|;
    s.(sending := s.sending - {n}, queue := if d.urgent then [n] + s.queue else s.queue + [n],
       sent := s.sent + [d.data], log := s.log + [if n in s.body then s.body[n] else []], urgent := if d.urgent then s.urgent + {k} else s.urgent,
       tag := s.tag[n := k], recv := Wake(s.recv))
  }

  function RecvPass(s: State, t: Tid, size: nat, timeout: int): State
  {
    if s.queue != [] then
      var n := s.queue[0];
      s.(queue := s.queue[1..], receiving := s.receiving[n := Pick(t, size, false, [])],
         delivered := s.delivered + [TagOf(s.tag, n)], recv := Ran(s.recv, t))
    else if timeout == 0 then s.(recv := Ran(s.recv, t))
    else s.(recv := Side(Enqueue(s.recv.waiting, t, s.prio, s.fifo), s.recv.woken - {t}))
  }

  function TagOf(tag: map<Node, nat>, n: Node): nat { if n in tag then tag[n] else 0 }

  /** The bytes a receiver gets of a message. */
  function Cut(b: Body, size: nat, msgSize: nat): Body
  {
    var k := if size > msgSize then msgSize else size;
    if k <= |b| then b[..k] else b
  }

  function CopyStep(s: State, n: Node): State
    requires n in s.receiving
  {
    var p := s.receiving[n];
    s.(receiving := s.receiving[n := p.(copied := true, got := Cut(if n in s.body then s.body[n] else [], p.size, s.msgSize))])
  }

  function GiveBackStep(s: State, n: Node): State
    requires n in s.receiving
  {
    s.(receiving := s.receiving - {n}, free := [n] + s.free, send := Wake(s.send))
  }

  function Reverse(s: seq<Node>): (r: seq<Node>)
    ensures |r| == |s|
    ensures forall n :: n in r <==> n in s
  {
    if s == [] then [] else
      assert s == [s[0]] + s[1..];
      Reverse(s[1..]) + [s[0]]
  }

  function ResetStep(s: State): State
  {
    s.(queue := [], free := Reverse(s.queue) + s.free, send := Drained(s.send), recv := Drained(s.recv),
       failed := Failing(Failing(s.failed, s.recv.waiting, ERROR), s.send.waiting, ERROR))
  }

  /** What one step returns to the caller of the queue. */
  function Reply(s: State, e: Event): Outcome
  {
    match e
    case Send(t, data, timeout) => if |data| > s.msgSize then Return(ERROR) else SendReply(s, timeout)
    case Urgent(t, data) => if |data| > s.msgSize then Return(ERROR) else SendReply(s, 0)
    case SendAgain(t, data, timeout, elapsed) =>
      if t in s.failed then Return(s.failed[t]) else SendReply(s, Rest(timeout, elapsed))
    case Recv(t, size, timeout) => RecvReply(s, timeout)
    case RecvAgain(t, size, timeout, elapsed) =>
      if t in s.failed then Return(s.failed[t]) else RecvReply(s, Rest(timeout, elapsed))
    case Fill(_) => Return(OK)
    case Link(_) => Return(OK)
    case Copy(_) => Return(OK)
    case GiveBack(_) => Return(OK)
    case Expire(_) => Return(OK)
    case Reset => Return(OK)
  }

  function SendReply(s: State, timeout: int): Outcome
  {
    if s.free != [] then Return(OK) else if timeout == 0 then Return(FULL) else Blocked
  }

  function RecvReply(s: State, timeout: int): Outcome
  {
    if s.queue != [] then Return(OK) else if timeout == 0 then Return(TIMEOUT) else Blocked
  }

  function Apply(s: State, e: Event): State
    requires Enabled(s, e)
  {
    match e
    case Send(t, data, timeout) => if |data| > s.msgSize then s else SendPass(s, t, data, timeout)
    case Urgent(t, data) => if |data| > s.msgSize || s.free == [] then s else TakeFree(s, t, data, true)
    case SendAgain(t, data, timeout, elapsed) =>
      if t in s.failed then s.(failed := s.failed - {t}) else SendPass(s, t, data, Rest(timeout, elapsed))
    case Fill(n) => FillStep(s, n)
    case Link(n) => LinkStep(s, n)
    case Recv(t, size, timeout) => RecvPass(s, t, size, timeout)
    case RecvAgain(t, size, timeout, elapsed) =>
      if t in s.failed then s.(failed := s.failed - {t}) else RecvPass(s, t, size, Rest(timeout, elapsed))
    case Copy(n) => CopyStep(s, n)
    case GiveBack(n) => GiveBackStep(s, n)
    case Expire(t) =>
      s.(send := Left(s.send, t), recv := Left(s.recv, t), failed := s.failed[t := TIMEOUT])
    case Reset => ResetStep(s)
  }

  // ---------------------------------------------------------------- what is kept

  /** Every node of the pool is in exactly one place. */
  ghost predicate Partition(max: nat, free: seq<Node>, queue: seq<Node>, sending: set<Node>, receiving: set<Node>)
  {
    && Distinct(free) && Distinct(queue)
    && (forall n :: n in free ==> n < max && n !in queue && n !in sending && n !in receiving)
    && (forall n :: n in queue ==> n < max && n !in sending && n !in receiving)
    && (forall n :: n in sending ==> n < max && n !in receiving)
    && (forall n :: n in receiving ==> n < max)
    && (forall n: nat :: n < max ==> n in free || n in queue || n in sending || n in receiving)
  }

  /** A linked message stays as it was linked until it is given back, and what was
      copied of it is its front. */
  ghost predicate Stored(max: nat, msgSize: nat, queue: seq<Node>, sending: map<Node, Draft>, receiving: map<Node, Pick>,
                         body: map<Node, Body>, log: seq<Body>, tag: map<Node, nat>)
  {
    && Pool(max, msgSize, body)
    && (forall n :: n in queue || n in receiving ==> n in tag && tag[n] < |log| && n in body && body[n] == log[tag[n]])
    && (forall n :: n in receiving && receiving[n].copied ==> receiving[n].got == Cut(log[tag[n]], receiving[n].size, msgSize))
    && (forall n :: n in sending ==> |sending[n].data| <= msgSize)
    && (forall n :: n in sending && sending[n].filled ==> n in body && sending[n].data <= body[n])
  }

  function Tags(queue: seq<Node>, tag: map<Node, nat>): (r: seq<nat>)
    ensures |r| == |queue|
  {
    seq(|queue|, i requires 0 <= i < |queue| => TagOf(tag, queue[i]))
  }

  /** Serial numbers in the order messages are handed out: none twice, and those that
      are not urgent in the order they were linked. */
  ghost predicate LineOk(line: seq<nat>, urgent: set<nat>, top: nat)
  {
    && (forall i :: 0 <= i < |line| ==> line[i] < top)
    && (forall i, j :: 0 <= i < j < |line| ==> line[i] != line[j])
    && (forall i, j :: 0 <= i < j < |line| && line[i] !in urgent && line[j] !in urgent ==> line[i] < line[j])
    && (forall k :: k in urgent ==> k < top)
  }

  function Line(delivered: seq<nat>, queue: seq<Node>, tag: map<Node, nat>): seq<nat> { delivered + Tags(queue, tag) }

  /** While senders wait, the free nodes are promised to woken senders; while receivers
      wait, the messages are promised to woken receivers. A thread is in one place. */
  ghost predicate Wakes(free: int, queued: int, send: Side, recv: Side, failed: map<Tid, Err>)
  {
    NoLost(free, send) && NoLost(queued, recv) && Apart(send, recv) && OutOf(send, failed) && OutOf(recv, failed)
  }

  /** Urgent messages stand before all others, the newest first. */
  ghost predicate FrontOk(tags: seq<nat>, urgent: set<nat>)
  {
    forall i, j :: 0 <= i < j < |tags| && tags[j] in urgent ==> tags[i] in urgent && tags[i] > tags[j]
  }

  /** A linked message begins with what its sender passed. */
  ghost predicate SentOk(sent: seq<Body>, log: seq<Body>)
  {
    |sent| == |log| && forall k :: 0 <= k < |log| ==> sent[k] <= log[k]
  }

  ghost predicate Inv(s: State)
  {
    && Wakes(|s.free|, |s.queue|, s.send, s.recv, s.failed)
    && Partition(s.max, s.free, s.queue, s.sending.Keys, s.receiving.Keys)
    && Stored(s.max, s.msgSize, s.queue, s.sending, s.receiving, s.body, s.log, s.tag)
    && LineOk(Line(s.delivered, s.queue, s.tag), s.urgent, |s.log|)
    && FrontOk(Tags(s.queue, s.tag), s.urgent) && SentOk(s.sent, s.log)
  }

  lemma FirstApart(s: seq<Node>)
    requires Distinct(s) && s != []
    ensures Distinct(s[1..]) && forall n :: n in s[1..] <==> n in s && n != s[0]
  {
    var r := s[1..];
    assert s == [s[0]] + r;
    forall n | n in r ensures n != s[0] {
      var k :| 0 <= k < |r| && r[k] == n;
      assert s[k + 1] == n;
    }
  }

  lemma PartitionTake(max: nat, free: seq<Node>, queue: seq<Node>, sending: set<Node>, receiving: set<Node>)
    requires Partition(max, free, queue, sending, receiving) && free != []
    ensures Partition(max, free[1..], queue, sending + {free[0]}, receiving)
  {
    FirstApart(free);
    hide Distinct;
  }

  lemma PartitionLink(max: nat, free: seq<Node>, queue: seq<Node>, sending: set<Node>, receiving: set<Node>, n: Node, urgent: bool)
    requires Partition(max, free, queue, sending, receiving) && n in sending
    ensures Partition(max, free, if urgent then [n] + queue else queue + [n], sending - {n}, receiving)
  {
  }

  lemma PartitionPick(max: nat, free: seq<Node>, queue: seq<Node>, sending: set<Node>, receiving: set<Node>)
    requires Partition(max, free, queue, sending, receiving) && queue != []
    ensures Partition(max, free, queue[1..], sending, receiving + {queue[0]})
  {
    FirstApart(queue);
    hide Distinct;
  }

  lemma PartitionBack(max: nat, free: seq<Node>, queue: seq<Node>, sending: set<Node>, receiving: set<Node>, n: Node)
    requires Partition(max, free, queue, sending, receiving) && n in receiving
    ensures Partition(max, [n] + free, queue, sending, receiving - {n})
  {
  }

  lemma PartitionReset(max: nat, free: seq<Node>, queue: seq<Node>, sending: set<Node>, receiving: set<Node>)
    requires Partition(max, free, queue, sending, receiving)
    ensures Partition(max, Reverse(queue) + free, [], sending, receiving)
  {
    ReverseDistinct(queue);
    var r := Reverse(queue) + free;
    forall i, j | 0 <= i < j < |r| ensures r[i] != r[j] {
      if i < |queue| <= j { assert r[i] in Reverse(queue) && r[j] in free; }
    }
  }

  lemma {:induction false} ReverseDistinct(s: seq<Node>)
    requires Distinct(s)
    ensures Distinct(Reverse(s))
  {
    if s != [] {
      ReverseDistinct(s[1..]);
      var r := Reverse(s[1..]);
      assert s[0] !in s[1..];
      forall i, j | 0 <= i < j < |s| ensures Reverse(s)[i] != Reverse(s)[j] {
        if j == |s| - 1 { assert r[i] in r; }
      }
    }
  }

  lemma LineTail(line: seq<nat>, urgent: set<nat>, top: nat)
    requires LineOk(line, urgent, top)
    ensures LineOk(line + [top], urgent, top + 1)
  {
  }

  lemma LineFront(a: seq<nat>, b: seq<nat>, urgent: set<nat>, top: nat)
    requires LineOk(a + b, urgent, top)
    ensures LineOk(a + [top] + b, urgent + {top}, top + 1)
  {
    var l, r := a + b, a + [top] + b;
    forall i, j | 0 <= i < j < |r|
      ensures r[i] < top + 1 && r[j] < top + 1 && r[i] != r[j]
      ensures r[i] !in urgent + {top} && r[j] !in urgent + {top} ==> r[i] < r[j]
    {
      var i0, j0 := if i < |a| then i else i - 1, if j < |a| then j else j - 1;
      if i != |a| { assert r[i] == l[i0]; }
      if j != |a| { assert r[j] == l[j0]; }
    }
    assert r[|a|] == top;
    forall i | 0 <= i < |r| ensures r[i] < top + 1 {
      if i != |a| { assert r[i] == l[if i < |a| then i else i - 1]; }
    }
  }

  lemma LinePrefix(a: seq<nat>, b: seq<nat>, urgent: set<nat>, top: nat)
    requires LineOk(a + b, urgent, top)
    ensures LineOk(a, urgent, top)
  {
    assert forall i :: 0 <= i < |a| ==> a[i] == (a + b)[i];
  }

  // ------------------------------------------------------------------ every step

  lemma WakesTake(free: int, queued: int, send: Side, recv: Side, failed: map<Tid, Err>, t: Tid)
    requires Wakes(free, queued, send, recv, failed)
    ensures Wakes(free - 1, queued, Ran(send, t), recv, failed) && Wakes(free, queued - 1, send, Ran(recv, t), failed)
  {
    hide NoLost, Apart, OutOf, In, Ran;
    TakeKeeps(free, send, t);
    TakeKeeps(queued, recv, t);
    RanShrinks(send, t);
    RanShrinks(recv, t);
    ShrunkSelf(send);
    ShrunkSelf(recv);
    ApartShrunk(send, recv, Ran(send, t), recv);
    ApartShrunk(send, recv, send, Ran(recv, t));
    OutShrunk(send, Ran(send, t), failed);
    OutShrunk(recv, Ran(recv, t), failed);
  }

  /** A node is taken out of turn. */
  lemma WakesSteal(free: int, queued: int, send: Side, recv: Side, failed: map<Tid, Err>)
    requires Wakes(free, queued, send, recv, failed)
    ensures Wakes(free - 1, queued, send, recv, failed)
  {
  }

  lemma WakesGive(free: int, queued: int, send: Side, recv: Side, failed: map<Tid, Err>)
    requires Wakes(free, queued, send, recv, failed)
    ensures Wakes(free + 1, queued, Wake(send), recv, failed) && Wakes(free, queued + 1, send, Wake(recv), failed)
  {
    hide NoLost, Apart, OutOf, In, Wake;
    GiveKeeps(free, send);
    GiveKeeps(queued, recv);
    WakeShrinks(send);
    WakeShrinks(recv);
    ShrunkSelf(send);
    ShrunkSelf(recv);
    ApartShrunk(send, recv, Wake(send), recv);
    ApartShrunk(send, recv, send, Wake(recv));
    OutShrunk(send, Wake(send), failed);
    OutShrunk(recv, Wake(recv), failed);
  }

  /** A sender finds no free node: it gives up, or waits. */
  lemma WakesNoNode(queued: int, send: Side, recv: Side, failed: map<Tid, Err>, t: Tid, prio: map<Tid, int>, fifo: bool)
    requires Wakes(0, queued, send, recv, failed) && t !in send.waiting && !In(recv, t) && t !in failed
    ensures Wakes(0, queued, Ran(send, t), recv, failed)
    ensures Wakes(0, queued, Side(Enqueue(send.waiting, t, prio, fifo), send.woken - {t}), recv, failed)
  {
    hide NoLost, Apart, OutOf, In, Enqueue;
    WakesTake(0, queued, send, recv, failed, t);
    LeaveKeeps(send, t);
    WaitKeeps(send, t, prio, fifo);
    WaitJoins(send, t, prio, fifo);
    var side := Side(Enqueue(send.waiting, t, prio, fifo), send.woken - {t});
    ApartJoined(send, recv, side, t);
    OutJoined(send, side, failed, t);
  }

  /** A receiver finds no message: it gives up, or waits. */
  lemma WakesNoMessage(free: int, send: Side, recv: Side, failed: map<Tid, Err>, t: Tid, prio: map<Tid, int>, fifo: bool)
    requires Wakes(free, 0, send, recv, failed) && t !in recv.waiting && !In(send, t) && t !in failed
    ensures Wakes(free, 0, send, Ran(recv, t), failed)
    ensures Wakes(free, 0, send, Side(Enqueue(recv.waiting, t, prio, fifo), recv.woken - {t}), failed)
  {
    hide NoLost, Apart, OutOf, In, Enqueue;
    WakesTake(free, 0, send, recv, failed, t);
    LeaveKeeps(recv, t);
    WaitKeeps(recv, t, prio, fifo);
    WaitJoins(recv, t, prio, fifo);
    var side := Side(Enqueue(recv.waiting, t, prio, fifo), recv.woken - {t});
    ApartSwap(send, recv);
    ApartJoined(recv, send, side, t);
    OutJoined(recv, side, failed, t);
  }

  /** What is known of a thread about to make a pass. */
  lemma Runner(s: State, t: Tid)
    requires Wakes(|s.free|, |s.queue|, s.send, s.recv, s.failed) && (Idle(s, t) || t in s.send.woken || t in s.recv.woken)
    ensures t !in s.failed && t !in s.send.waiting && t !in s.recv.waiting
    ensures Idle(s, t) || t in s.recv.woken ==> !In(s.send, t)
    ensures Idle(s, t) || t in s.send.woken ==> !In(s.recv, t)
  {
    assert In(s.send, t) || In(s.recv, t) || Idle(s, t);
  }

  lemma StoredTake(max: nat, msgSize: nat, queue: seq<Node>, sending: map<Node, Draft>, receiving: map<Node, Pick>,
                   body: map<Node, Body>, log: seq<Body>, tag: map<Node, nat>, n: Node, d: Draft)
    requires Stored(max, msgSize, queue, sending, receiving, body, log, tag) && |d.data| <= msgSize && !d.filled
    ensures Stored(max, msgSize, queue, sending[n := d], receiving, body, log, tag)
  {
  }

  lemma TakeFreeKeeps(s: State, t: Tid, data: Body, urgent: bool)
    requires Inv(s) && s.free != [] && |data| <= s.msgSize
    ensures Inv(TakeFree(s, t, data, urgent)) && Inv(TakeFree(s, t, data, urgent).(send := Ran(s.send, t)))
  {
    hide Partition, Wakes, LineOk, Line, Stored, FrontOk, SentOk, Ran;
    var n, d := s.free[0], Draft(t, data, urgent, false);
    PartitionTake(s.max, s.free, s.queue, s.sending.Keys, s.receiving.Keys);
    assert s.sending[n := d].Keys == s.sending.Keys + {n};
    StoredTake(s.max, s.msgSize, s.queue, s.sending, s.receiving, s.body, s.log, s.tag, n, d);
    WakesTake(|s.free|, |s.queue|, s.send, s.recv, s.failed, t);
    WakesSteal(|s.free|, |s.queue|, s.send, s.recv, s.failed);
  }

  /** A step that changes only who waits. */
  lemma SidesOnly(s: State, send: Side, recv: Side, failed: map<Tid, Err>)
    requires Inv(s) && Wakes(|s.free|, |s.queue|, send, recv, failed)
    ensures Inv(s.(send := send, recv := recv, failed := failed))
  {
    hide Partition, Wakes, LineOk, Line, Stored, FrontOk, SentOk;
  }

  lemma SendPassKeeps(s: State, t: Tid, data: Body, timeout: int)
    requires Inv(s) && (Idle(s, t) || t in s.send.woken) && |data| <= s.msgSize
    ensures Inv(SendPass(s, t, data, timeout))
  {
    if s.free != [] {
      hide Inv, TakeFree;
      TakeFreeKeeps(s, t, data, false);
    } else {
      hide Partition, Wakes, LineOk, Line, Stored, FrontOk, SentOk, In, Ran, Enqueue, Idle;
      Runner(s, t);
      WakesNoNode(|s.queue|, s.send, s.recv, s.failed, t, s.prio, s.fifo);
      SidesOnly(s, Ran(s.send, t), s.recv, s.failed);
      SidesOnly(s, Side(Enqueue(s.send.waiting, t, s.prio, s.fifo), s.send.woken - {t}), s.recv, s.failed);
      hide Inv;
    }
  }

  lemma FillKeeps(s: State, n: Node)
    requires Inv(s) && Enabled(s, Fill(n))
    ensures Inv(FillStep(s, n))
  {
    assert n < s.max && n !in s.queue && n !in s.receiving;
    hide Partition, Wakes, FrontOk, SentOk, LineOk, Line;
    assert s.sending.Keys == FillStep(s, n).sending.Keys;
  }

  lemma TagsSame(queue: seq<Node>, tag: map<Node, nat>, n: Node, k: nat)
    requires n !in queue
    ensures Tags(queue, tag[n := k]) == Tags(queue, tag)
    ensures Tags([n] + queue, tag[n := k]) == [k] + Tags(queue, tag)
    ensures Tags(queue + [n], tag[n := k]) == Tags(queue, tag) + [k]
  {
  }

  lemma LineLink(delivered: seq<nat>, queue: seq<Node>, tag: map<Node, nat>, urgent: set<nat>, top: nat, n: Node)
    requires LineOk(Line(delivered, queue, tag), urgent, top) && n !in queue
    ensures LineOk(Line(delivered, queue + [n], tag[n := top]), urgent, top + 1)
    ensures LineOk(Line(delivered, [n] + queue, tag[n := top]), urgent + {top}, top + 1)
  {
    hide LineOk, Tags;
    TagsSame(queue, tag, n, top);
    var q := Tags(queue, tag);
    LineTail(delivered + q, urgent, top);
    LineFront(delivered, q, urgent, top);
    assert delivered + q + [top] == delivered + (q + [top]);
    assert delivered + [top] + q == delivered + ([top] + q);
  }

  lemma FrontLink(delivered: seq<nat>, queue: seq<Node>, tag: map<Node, nat>, urgent: set<nat>, top: nat, n: Node)
    requires LineOk(Line(delivered, queue, tag), urgent, top) && FrontOk(Tags(queue, tag), urgent) && n !in queue
    ensures FrontOk(Tags(queue + [n], tag[n := top]), urgent)
    ensures FrontOk(Tags([n] + queue, tag[n := top]), urgent + {top})
  {
    TagsSame(queue, tag, n, top);
    var q := Tags(queue, tag);
    hide Tags;
    forall i | 0 <= i < |q| ensures q[i] < top {
      assert (delivered + q)[|delivered| + i] == q[i];
    }
  }

  lemma FrontPick(queue: seq<Node>, tag: map<Node, nat>, urgent: set<nat>)
    requires FrontOk(Tags(queue, tag), urgent) && queue != []
    ensures FrontOk(Tags(queue[1..], tag), urgent)
  {
    var q := Tags(queue, tag);
    assert Tags(queue[1..], tag) == q[1..];
  }

  lemma SentLink(sent: seq<Body>, log: seq<Body>, data: Body, body: Body)
    requires SentOk(sent, log) && data <= body
    ensures SentOk(sent + [data], log + [body])
  {
  }

  lemma StoredLink(max: nat, msgSize: nat, queue: seq<Node>, sending: map<Node, Draft>, receiving: map<Node, Pick>,
                   body: map<Node, Body>, log: seq<Body>, tag: map<Node, nat>, n: Node, queue': seq<Node>)
    requires Stored(max, msgSize, queue, sending, receiving, body, log, tag) && n in body && n !in queue && n !in receiving
    requires forall x :: x in queue' ==> x in queue || x == n
    ensures Stored(max, msgSize, queue', sending - {n}, receiving, body, log + [body[n]], tag[n := |log|])
  {
  }

  lemma LinkFields(s: State, n: Node)
    requires n in s.sending
    ensures var s' := LinkStep(s, n);
            && s'.max == s.max && s'.msgSize == s.msgSize && s'.prio == s.prio && s'.fifo == s.fifo && s'.body == s.body
            && s'.free == s.free && s'.send == s.send && s'.sending == s.sending - {n} && s'.recv == Wake(s.recv)
            && s'.receiving == s.receiving && s'.failed == s.failed && s'.delivered == s.delivered && s'.tag == s.tag[n := |s.log|]
            && s'.log == s.log + [if n in s.body then s.body[n] else []] && s'.sent == s.sent + [s.sending[n].data]
            && s'.urgent == (if s.sending[n].urgent then s.urgent + {|s.log|} else s.urgent)
            && s'.queue == if s.sending[n].urgent then [n] + s.queue else s.queue + [n]
  {
    hide Wake;
    if s.sending[n].urgent {
    } else {
    }
  }

  lemma LinkKeeps(s: State, n: Node)
    requires Inv(s) && Enabled(s, Link(n))
    ensures Inv(LinkStep(s, n))
  {
    InHand(s, n);
    LinkFields(s, n);
    hide Partition, Wakes, LineOk, Line, Stored, FrontOk, SentOk, Wake, LinkStep;
    assert (s.sending - {n}).Keys == s.sending.Keys - {n};
    LineLink(s.delivered, s.queue, s.tag, s.urgent, |s.log|, n);
    FrontLink(s.delivered, s.queue, s.tag, s.urgent, |s.log|, n);
    SentLink(s.sent, s.log, s.sending[n].data, s.body[n]);
    WakesGive(|s.free|, |s.queue|, s.send, s.recv, s.failed);
    if s.sending[n].urgent {
      PartitionLink(s.max, s.free, s.queue, s.sending.Keys, s.receiving.Keys, n, true);
      StoredLink(s.max, s.msgSize, s.queue, s.sending, s.receiving, s.body, s.log, s.tag, n, [n] + s.queue);
    } else {
      PartitionLink(s.max, s.free, s.queue, s.sending.Keys, s.receiving.Keys, n, false);
      StoredLink(s.max, s.msgSize, s.queue, s.sending, s.receiving, s.body, s.log, s.tag, n, s.queue + [n]);
    }
  }

  lemma InHand(s: State, n: Node)
    requires Inv(s) && n in s.sending
    ensures n < s.max && n in s.body && n !in s.queue && n !in s.receiving
    ensures s.sending[n].filled ==> s.sending[n].data <= s.body[n]
  {
    hide Wakes, LineOk, FrontOk, SentOk;
  }

  lemma StoredPick(max: nat, msgSize: nat, queue: seq<Node>, sending: map<Node, Draft>, receiving: map<Node, Pick>,
                   body: map<Node, Body>, log: seq<Body>, tag: map<Node, nat>, p: Pick)
    requires Stored(max, msgSize, queue, sending, receiving, body, log, tag) && queue != [] && !p.copied
    ensures Stored(max, msgSize, queue[1..], sending, receiving[queue[0] := p], body, log, tag)
  {
  }

  lemma LinePick(delivered: seq<nat>, queue: seq<Node>, tag: map<Node, nat>)
    requires queue != []
    ensures Line(delivered + [TagOf(tag, queue[0])], queue[1..], tag) == Line(delivered, queue, tag)
  {
    assert Tags(queue, tag) == [TagOf(tag, queue[0])] + Tags(queue[1..], tag);
  }

  lemma PickKeeps(s: State, t: Tid, size: nat)
    requires Inv(s) && s.queue != []
    ensures Inv(RecvPass(s, t, size, 0))
  {
    hide Partition, Wakes, LineOk, Line, Stored, FrontOk, SentOk, Ran, TagOf;
    var n, p := s.queue[0], Pick(t, size, false, []);
    PartitionPick(s.max, s.free, s.queue, s.sending.Keys, s.receiving.Keys);
    assert s.receiving[n := p].Keys == s.receiving.Keys + {n};
    StoredPick(s.max, s.msgSize, s.queue, s.sending, s.receiving, s.body, s.log, s.tag, p);
    LinePick(s.delivered, s.queue, s.tag);
    FrontPick(s.queue, s.tag, s.urgent);
    WakesTake(|s.free|, |s.queue|, s.send, s.recv, s.failed, t);
  }

  lemma RecvPassKeeps(s: State, t: Tid, size: nat, timeout: int)
    requires Inv(s) && (Idle(s, t) || t in s.recv.woken)
    ensures Inv(RecvPass(s, t, size, timeout))
  {
    if s.queue != [] {
      hide Inv;
      PickKeeps(s, t, size);
    } else {
      hide Partition, Wakes, LineOk, Line, Stored, FrontOk, SentOk, In, Ran, Enqueue, Idle, TagOf;
      Runner(s, t);
      WakesNoMessage(|s.free|, s.send, s.recv, s.failed, t, s.prio, s.fifo);
      SidesOnly(s, s.send, Ran(s.recv, t), s.failed);
      SidesOnly(s, s.send, Side(Enqueue(s.recv.waiting, t, s.prio, s.fifo), s.recv.woken - {t}), s.failed);
      hide Inv;
    }
  }

  lemma CopyKeeps(s: State, n: Node)
    requires Inv(s) && Enabled(s, Copy(n))
    ensures Inv(CopyStep(s, n))
  {
    hide Partition, Wakes, FrontOk, SentOk, LineOk, Line, Cut;
    assert s.receiving.Keys == CopyStep(s, n).receiving.Keys;
  }

  lemma GiveBackKeeps(s: State, n: Node)
    requires Inv(s) && Enabled(s, GiveBack(n))
    ensures Inv(GiveBackStep(s, n))
  {
    hide Partition, Wakes, FrontOk, SentOk, LineOk, Line, Wake, Cut;
    PartitionBack(s.max, s.free, s.queue, s.sending.Keys, s.receiving.Keys, n);
    assert (s.receiving - {n}).Keys == s.receiving.Keys - {n};
    WakesGive(|s.free|, |s.queue|, s.send, s.recv, s.failed);
  }

  lemma ResetKeeps(s: State)
    requires Inv(s)
    ensures Inv(ResetStep(s))
  {
    PartitionReset(s.max, s.free, s.queue, s.sending.Keys, s.receiving.Keys);
    LinePrefix(s.delivered, Tags(s.queue, s.tag), s.urgent, |s.log|);
    assert Line(s.delivered, [], s.tag) == s.delivered;
    DrainPlaces(s.send, s.recv, s.failed, |s.free|, |s.queue|);
    DrainKeeps(|s.queue| + |s.free|, s.send);
    DrainKeeps(0, s.recv);
    hide Partition, LineOk, Line, NoLost, Apart, OutOf, Failing, Drained, Cut;
  }

  lemma ExpireStepKeeps(s: State, t: Tid)
    requires Inv(s) && Enabled(s, Expire(t))
    ensures Inv(Apply(s, Expire(t)))
  {
    hide Partition, LineOk, Line, Stored, FrontOk, SentOk, NoLost, Apart, OutOf, Left;
    ExpirePlaces(s.send, s.recv, s.failed, t, |s.free|, |s.queue|);
  }

  lemma ErrorReturnKeeps(s: State, t: Tid)
    requires Inv(s)
    ensures Inv(s.(failed := s.failed - {t}))
  {
    hide Partition, LineOk, Line, Stored, FrontOk, SentOk, NoLost, Apart;
  }

  lemma StepKeeps(s: State, e: Event)
    requires Inv(s) && Enabled(s, e)
    ensures Inv(Apply(s, e))
  {
    hide Inv, Idle, SendPass, RecvPass, TakeFree, FillStep, LinkStep, CopyStep, GiveBackStep, ResetStep;
    match e
    case Send(t, data, timeout) => if |data| <= s.msgSize { SendPassKeeps(s, t, data, timeout); }
    case Urgent(t, data) => if |data| <= s.msgSize && s.free != [] { TakeFreeKeeps(s, t, data, true); }
    case SendAgain(t, data, timeout, elapsed) =>
      ErrorReturnKeeps(s, t);
      if t !in s.failed { SendPassKeeps(s, t, data, Rest(timeout, elapsed)); }
    case Fill(n) => FillKeeps(s, n);
    case Link(n) => LinkKeeps(s, n);
    case Recv(t, size, timeout) => RecvPassKeeps(s, t, size, timeout);
    case RecvAgain(t, size, timeout, elapsed) =>
      ErrorReturnKeeps(s, t);
      if t !in s.failed { RecvPassKeeps(s, t, size, Rest(timeout, elapsed)); }
    case Copy(n) => CopyKeeps(s, n);
    case GiveBack(n) => GiveBackKeeps(s, n);
    case Expire(t) => ExpireStepKeeps(s, t);
    case Reset => ResetKeeps(s);
  }

  // ------------------------------------------------------------------- every run

  /** k - 1, ..., 0: the free list as rt_mq_init builds it. */
  function Down(k: nat): (r: seq<Node>)
    ensures |r| == k && forall n: nat :: n in r <==> n < k
  {
    if k == 0 then [] else [k - 1] + Down(k - 1)
  }

  lemma {:induction false} DownDistinct(k: nat)
    ensures Distinct(Down(k))
  {
    if k > 0 {
      DownDistinct(k - 1);
      var r, d := Down(k), Down(k - 1);
      forall i, j | 0 <= i < j < |r| ensures r[i] != r[j] {
        assert r[j] == d[j - 1] && d[j - 1] in d;
      }
    }
  }

  predicate Pool(max: nat, msgSize: nat, body: map<Node, Body>)
  {
    forall n: nat :: n < max ==> n in body && |body[n]| == msgSize
  }

  function Start(max: nat, msgSize: nat, prio: map<Tid, int>, fifo: bool, body: map<Node, Body>): State
  {
    State(max, msgSize, prio, fifo, Down(max), [], map[], map[], body, Side([], {}), Side([], {}), map[], [], [], {}, map[], [])
  }

  lemma StartKeeps(max: nat, msgSize: nat, prio: map<Tid, int>, fifo: bool, body: map<Node, Body>)
    requires Pool(max, msgSize, body)
    ensures Inv(Start(max, msgSize, prio, fifo, body))
  {
    DownDistinct(max);
  }

  predicate CanRun(s: State, es: seq<Event>)
    decreases es
  {
    es == [] || (Enabled(s, es[0]) && CanRun(Apply(s, es[0]), es[1..]))
  }

  function Run(s: State, es: seq<Event>): State
    requires CanRun(s, es)
    decreases es
  {
    if es == [] then s else Run(Apply(s, es[0]), es[1..])
  }

  lemma {:induction false} RunKeeps(s: State, es: seq<Event>)
    requires Inv(s) && CanRun(s, es)
    ensures Inv(Run(s, es))
    decreases es
  {
    hide Inv, Apply;
    if es != [] {
      StepKeeps(s, es[0]);
      RunKeeps(Apply(s, es[0]), es[1..]);
    }
  }

  /** The message a receiver gets next: the newest of the urgent ones, or with none the
      oldest. */
  lemma NextInLine(s: State, n: Node)
    requires Inv(s) && n in s.queue
    ensures var first, k := TagOf(s.tag, s.queue[0]), TagOf(s.tag, n);
            if first in s.urgent then k in s.urgent ==> k <= first else k !in s.urgent && first <= k
  {
    var j :| 0 <= j < |s.queue| && s.queue[j] == n;
    var q := Tags(s.queue, s.tag);
    assert q[0] == TagOf(s.tag, s.queue[0]) && q[j] == TagOf(s.tag, n);
    var l := Line(s.delivered, s.queue, s.tag);
    assert l[|s.delivered|] == q[0] && l[|s.delivered| + j] == q[j];
  }

  /** `got` is as long as was asked for, but no longer than a message; it is the front of
      the message in node n as it was linked, and has byte for byte what was sent. */
  predicate Delivers(s: State, n: Node, size: nat, got: Body)
  {
    && n in s.tag && s.tag[n] < |s.log| && s.tag[n] < |s.sent|
    && |got| == (if size < s.msgSize then size else s.msgSize) && got <= s.log[s.tag[n]]
    && forall i :: 0 <= i < |got| && i < |s.sent[s.tag[n]]| ==> got[i] == s.sent[s.tag[n]][i]
  }

  lemma CutDelivers(s: State, n: Node, size: nat, got: Body)
    requires n in s.tag && s.tag[n] < |s.log| && s.tag[n] < |s.sent| && |s.log[s.tag[n]]| == s.msgSize
    requires s.sent[s.tag[n]] <= s.log[s.tag[n]] && got == Cut(s.log[s.tag[n]], size, s.msgSize)
    ensures Delivers(s, n, size, got)
  {
  }

  lemma LogSize(s: State, n: Node)
    requires Inv(s) && n in s.receiving
    ensures n in s.tag && s.tag[n] < |s.log| == |s.sent| && |s.log[s.tag[n]]| == s.msgSize && s.sent[s.tag[n]] <= s.log[s.tag[n]]
  {
    assert n < s.max;
  }

  /** In every state that any interleaving reaches: each node is in one place, no
      wake-up is lost, no message is handed out twice, messages that are not urgent
      come in the order they were linked, urgent ones stand before them with the newest
      first, and what a receiver copied is the front of the message as it was linked and
      begins with what was sent. */
  lemma EveryRun(max: nat, msgSize: nat, prio: map<Tid, int>, fifo: bool, body: map<Node, Body>, es: seq<Event>)
    requires Pool(max, msgSize, body) && CanRun(Start(max, msgSize, prio, fifo, body), es)
    ensures var s := Run(Start(max, msgSize, prio, fifo, body), es);
            && Partition(s.max, s.free, s.queue, s.sending.Keys, s.receiving.Keys)
            && (s.send.waiting != [] ==> |s.free| <= |s.send.woken|)
            && (s.recv.waiting != [] ==> |s.queue| <= |s.recv.woken|)
            && (forall i, j :: 0 <= i < j < |s.delivered| ==> s.delivered[i] != s.delivered[j])
            && (forall i, j :: 0 <= i < j < |s.delivered| && s.delivered[i] !in s.urgent && s.delivered[j] !in s.urgent ==>
                  s.delivered[i] < s.delivered[j])
            && (forall i, j :: 0 <= i < j < |s.queue| && TagOf(s.tag, s.queue[j]) in s.urgent ==>
                  TagOf(s.tag, s.queue[i]) in s.urgent && TagOf(s.tag, s.queue[i]) > TagOf(s.tag, s.queue[j]))
            && (forall i, j :: 0 <= i < j < |s.queue| && TagOf(s.tag, s.queue[i]) !in s.urgent ==>
                  TagOf(s.tag, s.queue[i]) < TagOf(s.tag, s.queue[j]))
            && (forall n :: n in s.receiving && s.receiving[n].copied ==> Delivers(s, n, s.receiving[n].size, s.receiving[n].got))
  {
    StartKeeps(max, msgSize, prio, fifo, body);
    RunKeeps(Start(max, msgSize, prio, fifo, body), es);
    var s := Run(Start(max, msgSize, prio, fifo, body), es);
    hide Run, CanRun, Start, Pool;
    LinePrefix(s.delivered, Tags(s.queue, s.tag), s.urgent, |s.log|);
    hide Partition, Cut;
    forall i, j | 0 <= i < j < |s.queue|
      ensures TagOf(s.tag, s.queue[j]) in s.urgent ==>
                TagOf(s.tag, s.queue[i]) in s.urgent && TagOf(s.tag, s.queue[i]) > TagOf(s.tag, s.queue[j])
      ensures TagOf(s.tag, s.queue[i]) !in s.urgent ==> TagOf(s.tag, s.queue[i]) < TagOf(s.tag, s.queue[j])
    {
      var q, l := Tags(s.queue, s.tag), Line(s.delivered, s.queue, s.tag);
      assert l[|s.delivered| + i] == q[i] && l[|s.delivered| + j] == q[j];
    }
    forall n | n in s.receiving && s.receiving[n].copied
      ensures Delivers(s, n, s.receiving[n].size, s.receiving[n].got)
    {
      LogSize(s, n);
      CutDelivers(s, n, s.receiving[n].size, s.receiving[n].got);
    }
  }

  lemma {:induction false} FewNodes(s: seq<Node>, max: nat)
    requires Distinct(s) && forall n :: n in s ==> n < max
    ensures |s| <= max
  {
    if s != [] {
      assert s[0] in s;
      if max - 1 in s {
        var k :| 0 <= k < |s| && s[k] == max - 1;
        var r := s[..k] + s[k + 1..];
        assert forall i :: 0 <= i < |r| ==> r[i] == s[if i < k then i else i + 1];
        forall n | n in r ensures n < max - 1 {
          var i :| 0 <= i < |r| && r[i] == n;
          assert s[if i < k then i else i + 1] in s;
        }
        FewNodes(r, max - 1);
      } else {
        FewNodes(s, max - 1);
      }
    }
  }

  /** While a node is in a sender's hands the queue is not at its greatest length: the
      counter has room for it. */
  lemma RoomForEntry(s: State, n: Node)
    requires Inv(s) && n in s.sending
    ensures |s.queue| < s.max
  {
    InHand(s, n);
    FewNodes(s.queue + [n], s.max);
  }

  // ------------------------------------------------------------------ linked lists

  const NIL := -1

  function First(s: seq<Node>): int { if s == [] then NIL else s[0] }

  function Last(s: seq<Node>): int { if s == [] then NIL else s[|s| - 1] }

  lemma LastPush(s: seq<Node>, n: Node)
    ensures Last([n] + s) == if Last(s) == NIL then n else Last(s)
  {
  }

  predicate NextOk(next: map<Node, int>, s: seq<Node>, i: int)
  {
    0 <= i < |s| && s[i] in next && next[s[i]] == if i + 1 < |s| then s[i + 1] else NIL
  }

  /** Following next from p visits s and ends. */
  ghost predicate IsList(next: map<Node, int>, p: int, s: seq<Node>)
  {
    p == First(s) && forall i {:trigger NextOk(next, s, i)} :: 0 <= i < |s| ==> NextOk(next, s, i)
  }

  lemma ListPop(next: map<Node, int>, p: int, s: seq<Node>)
    requires IsList(next, p, s) && s != []
    ensures p == s[0] && p >= 0 && s[0] in next && IsList(next, next[s[0]], s[1..])
  {
    assert NextOk(next, s, 0);
    forall i | 0 <= i < |s| - 1 ensures NextOk(next, s[1..], i) { assert NextOk(next, s, i + 1); }
  }

  lemma ListPush(next: map<Node, int>, p: int, s: seq<Node>, x: Node)
    requires IsList(next, p, s) && x !in s
    ensures IsList(next[x := p], x, [x] + s)
  {
    var r, next' := [x] + s, next[x := p];
    forall i | 0 <= i < |r| ensures NextOk(next', r, i) {
      if i > 0 { assert NextOk(next, s, i - 1); }
    }
  }

  lemma ListAppend(next: map<Node, int>, p: int, s: seq<Node>, x: Node)
    requires IsList(next, p, s) && s != [] && x !in s && x in next && next[x] == NIL && Distinct(s)
    ensures IsList(next[s[|s| - 1] := x], p, s + [x])
  {
    var r, next' := s + [x], next[s[|s| - 1] := x];
    forall i | 0 <= i < |r| ensures NextOk(next', r, i) {
      if i < |s| { assert NextOk(next, s, i); }
    }
  }

  lemma ListKept(next: map<Node, int>, p: int, s: seq<Node>, x: Node, y: int)
    requires IsList(next, p, s) && x !in s
    ensures IsList(next[x := y], p, s)
  {
    var next' := next[x := y];
    forall i | 0 <= i < |s| ensures NextOk(next', s, i) { assert NextOk(next, s, i); }
  }

  ghost predicate Errors(error: map<Tid, Err>, s: State)
  {
    AllOk(error, s.send) && AllOk(error, s.recv) && Fails(error, s.failed)
  }

  /** A message about to go to the tail already ends the list. */
  ghost predicate Ended(next: map<Node, int>, sending: map<Node, Draft>)
  {
    forall n :: n in sending && sending[n].filled && !sending[n].urgent ==> n in next && next[n] == NIL
  }

  lemma ErrorsSend(error: map<Tid, Err>, s: State, t: Tid, data: Body, timeout: int)
    requires Errors(error, s) && t !in s.failed
    ensures s.free != [] ==> Errors(error, SendPass(s, t, data, timeout))
    ensures s.free == [] ==> Errors(error[t := OK], SendPass(s, t, data, timeout))
  {
    hide AllOk, Fails, Enqueue;
    OkRan(error, s.send, t);
    OkSet(error, Ran(s.send, t), t);
    OkSet(error, s.recv, t);
    OkWait(error, s.send, t, s.prio, s.fifo);
    FailsOther(error, s.failed, t, OK);
  }

  lemma ErrorsRecv(error: map<Tid, Err>, s: State, t: Tid, size: nat, timeout: int)
    requires Errors(error, s) && t !in s.failed && !In(s.send, t) && t !in s.recv.waiting
    ensures s.queue != [] ==> Errors(error, RecvPass(s, t, size, timeout))
    ensures s.queue == [] && timeout != 0 ==> Errors(error[t := OK], RecvPass(s, t, size, timeout))
    ensures s.queue == [] && timeout == 0 ==> Errors(error[t := TIMEOUT], RecvPass(s, t, size, timeout))
  {
    assert !In(Ran(s.recv, t), t);
    hide AllOk, Fails, Enqueue, In;
    OkRan(error, s.recv, t);
    OkSet(error, s.send, t);
    OkWait(error, s.recv, t, s.prio, s.fifo);
    FailsOther(error, s.failed, t, OK);
    FailsOther(error, s.failed, t, TIMEOUT);
    OkOther(error, s.send, t, TIMEOUT);
    OkOther(error, Ran(s.recv, t), t, TIMEOUT);
  }

  lemma ErrorsExpire(error: map<Tid, Err>, s: State, t: Tid)
    requires Errors(error, s) && Inv(s) && Enabled(s, Expire(t))
    ensures Errors(error[t := TIMEOUT], Apply(s, Expire(t)))
  {
    ExpirePlaces(s.send, s.recv, s.failed, t, |s.free|, |s.queue|);
    hide In, AllOk, Inv;
    OkExpire(error, s.send, t);
    OkExpire(error, s.recv, t);
  }

  lemma ErrorsReset(error: map<Tid, Err>, s: State)
    requires Errors(error, s) && Inv(s)
    ensures Errors(Failing(Failing(error, s.recv.waiting, ERROR), s.send.waiting, ERROR), ResetStep(s))
  {
    DrainPlaces(s.send, s.recv, s.failed, |s.free|, |s.queue|);
    hide Inv, AllOk, Fails, Failing, In;
    OkDrain(error, s.send, s.recv.waiting, s.send.waiting);
    OkDrain(error, s.recv, s.recv.waiting, s.send.waiting);
    FailingFails(error, s.failed, s.recv.waiting);
    FailingFails(Failing(error, s.recv.waiting, ERROR), Failing(s.failed, s.recv.waiting, ERROR), s.send.waiting);
  }

  lemma ErrorsWake(error: map<Tid, Err>, s: State)
    requires Errors(error, s)
    ensures AllOk(error, Wake(s.send)) && AllOk(error, Wake(s.recv))
  {
    hide AllOk;
    OkWake(error, s.send);
    OkWake(error, s.recv);
  }

  lemma ListEmpty(next: map<Node, int>, p: int, s: seq<Node>)
    requires IsList(next, p, s)
    ensures p == NIL <==> s == []
  {
  }

  lemma EndedKept(next: map<Node, int>, sending: map<Node, Draft>, x: Node, y: int)
    requires Ended(next, sending) && x !in sending
    ensures Ended(next[x := y], sending)
  {
  }

  lemma EndedTaken(next: map<Node, int>, sending: map<Node, Draft>, n: Node, d: Draft)
    requires Ended(next, sending) && (d.filled && !d.urgent ==> n in next && next[n] == NIL)
    ensures Ended(next, sending[n := d]) && Ended(next, sending - {n})
  {
  }

  lemma QueueFacts(s: State, n: Node)
    requires Inv(s)
    ensures Distinct(s.queue) && Distinct(s.free)
    ensures n in s.queue ==> n < s.max && n !in s.free && n !in s.sending && n !in s.receiving
    ensures n in s.receiving ==> n < s.max && n !in s.free && n !in s.sending && n !in s.queue
    ensures n in s.sending ==> n < s.max && n !in s.free && n !in s.queue && n !in s.receiving
    ensures n < s.max ==> n in s.body && |s.body[n]| == s.msgSize
  {
  }

  lemma SendFields(s: State, t: Tid, data: Body, timeout: int)
    ensures var s' := SendPass(s, t, data, timeout);
            && s'.max == s.max && s'.msgSize == s.msgSize && s'.prio == s.prio && s'.fifo == s.fifo && s'.body == s.body
            && s'.queue == s.queue && s'.recv == s.recv
  {
    hide Enqueue, Ran;
    if s.free != [] {
    } else if timeout == 0 {
    } else {
    }
  }

  lemma SendTakes(s: State, t: Tid, data: Body, timeout: int)
    requires s.free != []
    ensures var s' := SendPass(s, t, data, timeout);
            && s'.free == s.free[1..] && s'.sending == s.sending[s.free[0] := Draft(t, data, false, false)]
            && s'.send.waiting == s.send.waiting
  {
  }

  lemma SendWaits(s: State, t: Tid, data: Body, timeout: int)
    requires s.free == []
    ensures var s' := SendPass(s, t, data, timeout);
            && s'.free == [] && s'.sending == s.sending
            && s'.send.waiting == if timeout == 0 then s.send.waiting else Enqueue(s.send.waiting, t, s.prio, s.fifo)
  {
    hide Enqueue;
    if timeout == 0 {
    } else {
    }
  }

  lemma RecvFields(s: State, t: Tid, size: nat, timeout: int)
    ensures var s' := RecvPass(s, t, size, timeout);
            && s'.max == s.max && s'.msgSize == s.msgSize && s'.prio == s.prio && s'.fifo == s.fifo && s'.body == s.body
            && s'.free == s.free && s'.sending == s.sending && s'.send == s.send
  {
    hide Enqueue, Ran, TagOf;
    if s.queue != [] {
    } else if timeout == 0 {
    } else {
    }
  }

  lemma RecvTakes(s: State, t: Tid, size: nat, timeout: int)
    requires s.queue != []
    ensures var s' := RecvPass(s, t, size, timeout); s'.queue == s.queue[1..] && s'.recv.waiting == s.recv.waiting
  {
    hide TagOf;
  }

  lemma RecvWaits(s: State, t: Tid, size: nat, timeout: int)
    requires s.queue == []
    ensures var s' := RecvPass(s, t, size, timeout);
            && s'.queue == []
            && s'.recv.waiting == if timeout == 0 then s.recv.waiting else Enqueue(s.recv.waiting, t, s.prio, s.fifo)
  {
    hide Enqueue, TagOf;
    if timeout == 0 {
    } else {
    }
  }

  lemma InvRunner(s: State, t: Tid)
    requires Inv(s) && (Idle(s, t) || t in s.send.woken || t in s.recv.woken)
    ensures t !in s.failed && t !in s.send.waiting && t !in s.recv.waiting
    ensures Idle(s, t) || t in s.recv.woken ==> !In(s.send, t)
  {
    hide Wakes;
    Runner(s, t);
  }

  lemma ErrorsSame(error: map<Tid, Err>, s: State, s': State)
    requires Errors(error, s) && s'.send == s.send && s'.recv == s.recv && s'.failed == s.failed
    ensures Errors(error, s')
  {
  }

  lemma ErrorsLink(error: map<Tid, Err>, s: State, n: Node)
    requires Errors(error, s) && n in s.sending
    ensures Errors(error, LinkStep(s, n))
  {
    ErrorsWake(error, s);
  }

  lemma EndedFilled(next: map<Node, int>, sending: map<Node, Draft>, n: Node)
    requires Ended(next, sending) && n in sending
    ensures sending[n].urgent ==> Ended(next, sending[n := sending[n].(filled := true)])
    ensures !sending[n].urgent ==> Ended(next[n := NIL], sending[n := sending[n].(filled := true)])
  {
  }

  lemma EndedNil(next: map<Node, int>, sending: map<Node, Draft>, n: Node)
    requires Ended(next, sending) && n in sending && sending[n].filled && !sending[n].urgent
    ensures n in next && next[n] == NIL
  {
  }

  lemma ListOne(next: map<Node, int>, n: Node)
    requires n in next && next[n] == NIL
    ensures IsList(next, n, [n])
  {
  }

  lemma WakeWaiting(s: Side)
    ensures Wake(s).waiting == if s.waiting == [] then [] else s.waiting[1..]
  {
  }

  lemma CopiedFront(s: State, n: Node)
    requires Inv(s) && n in s.receiving
    ensures n in s.tag && s.tag[n] < |s.log| == |s.sent| && n in s.body && s.body[n] == s.log[s.tag[n]]
    ensures s.sent[s.tag[n]] <= s.log[s.tag[n]]
    ensures |s.body[n]| == s.msgSize
    ensures forall size: nat :: Cut(s.body[n], size, s.msgSize) == s.body[n][..if size > s.msgSize then s.msgSize else size]
  {
    hide Wakes, LineOk;
  }

  /** The tail is the node taken only if it was the only one. */
  lemma LastOfRest(s: State)
    requires Inv(s) && s.queue != []
    ensures Last(s.queue[1..]) == if Last(s.queue) == s.queue[0] then NIL else Last(s.queue)
  {
    QueueFacts(s, 0);
    hide Inv;
  }

  /** The node at index k of a queue being emptied. */
  lemma RestFacts(s: State, k: nat)
    requires Inv(s) && k < |s.queue|
    ensures s.queue[k..][1..] == s.queue[k + 1..] && s.queue[k..][0] == s.queue[k]
    ensures s.queue[k] !in s.queue[k..][1..] && s.queue[k] !in Reverse(s.queue[..k]) + s.free && s.queue[k] !in s.sending
    ensures Last(s.queue[k + 1..]) == if Last(s.queue[k..]) == s.queue[k] then NIL else Last(s.queue[k..])
  {
    QueueFacts(s, s.queue[k]);
    hide Inv;
    var r := s.queue[k + 1..];
    assert forall i :: 0 <= i < |r| ==> r[i] == s.queue[k + 1 + i];
    assert s.queue[k] !in s.queue[..k];
  }

  lemma ReverseNone(queue: seq<Node>, free: seq<Node>)
    ensures queue[0..] == queue && Reverse(queue[..0]) + free == free
  {
  }

  lemma ReverseMore(queue: seq<Node>, free: seq<Node>, k: nat)
    requires k < |queue|
    ensures Reverse(queue[..k + 1]) + free == [queue[k]] + (Reverse(queue[..k]) + free)
  {
    ReverseSnoc(queue[..k], queue[k]);
    assert queue[..k + 1] == queue[..k] + [queue[k]];
  }

  lemma {:induction false} ReverseSnoc(s: seq<Node>, n: Node)
    ensures Reverse(s + [n]) == [n] + Reverse(s)
  {
    if s != [] {
      ReverseSnoc(s[1..], n);
      assert (s + [n])[1..] == s[1..] + [n];
    }
  }

  lemma ErrorsBack(error: map<Tid, Err>, s: State, n: Node)
    requires Errors(error, s) && n in s.receiving
    ensures Errors(error, GiveBackStep(s, n))
  {
    ErrorsWake(error, s);
  }

  class Queue {
    const max: nat
    const msgSize: nat
    const prio: map<Tid, int>
    const fifo: bool
    var next: map<Node, int>
    var head: int
    var tail: int
    var freeHead: int
    var entry: nat
    var body: map<Node, Body>
    var senders: seq<Tid>
    var receivers: seq<Tid>
    var error: map<Tid, Err>  // thread->error
    ghost var view: State

    ghost predicate Valid()
      reads this
    {
      && Inv(view) && max <= ENTRY_MAX
      && view.max == max && view.msgSize == msgSize && view.prio == prio && view.fifo == fifo && view.body == body
      && view.send.waiting == senders && view.recv.waiting == receivers && Errors(error, view)
      && entry == |view.queue| && IsList(next, head, view.queue) && tail == Last(view.queue)
      && IsList(next, freeHead, view.free) && Ended(next, view.sending)
    }

    constructor (max: nat, msgSize: nat, prio: map<Tid, int>, fifo: bool, body: map<Node, Body>)
      requires max <= ENTRY_MAX && Pool(max, msgSize, body)
      ensures Valid() && view == Start(max, msgSize, prio, fifo, body)
    {
      this.max, this.msgSize, this.prio, this.fifo, this.body := max, msgSize, prio, fifo, body;
      head, tail, entry := NIL, NIL, 0;
      senders, receivers, error := [], [], map[];
      StartKeeps(max, msgSize, prio, fifo, body);
      view := Start(max, msgSize, prio, fifo, body);
      var links: map<Node, int>, first: int, temp: nat := map[], NIL, 0;
      while temp < max
        invariant temp <= max && IsList(links, first, Down(temp))
      {
        ListPush(links, first, Down(temp), temp);
        links := links[temp := first];
        first := temp;
        temp := temp + 1;
      }
      next, freeHead := links, first;
      hide Inv, IsList;
    }

    /** One pass of the sending loop: on success, a node for the message. */
    method PassSend(t: Tid, data: Body, timeout: int) returns (r: Outcome, n: Node)
      requires Valid() && (Idle(view, t) || t in view.send.woken) && |data| <= msgSize
      modifies this
      ensures Valid() && view == SendPass(old(view), t, data, timeout) && r == SendReply(old(view), timeout)
      ensures r == Return(OK) ==> old(view).free != [] && n == old(view).free[0]
    {
      hide Inv, IsList, Enqueue, Ended, Errors, SendPass, Idle;
      SendPassKeeps(view, t, data, timeout);
      SendFields(view, t, data, timeout);
      InvRunner(view, t);
      ErrorsSend(error, view, t, data, timeout);
      ListEmpty(next, freeHead, view.free);
      if freeHead == NIL {
        SendWaits(view, t, data, timeout);
        error := error[t := OK];
        if timeout == 0 {
          view := SendPass(view, t, data, timeout);
          return Return(FULL), 0;
        }
        senders := Suspend(senders, t, prio, fifo);
        view := SendPass(view, t, data, timeout);
        return Blocked, 0;
      }
      SendTakes(view, t, data, timeout);
      ListPop(next, freeHead, view.free);
      EndedTaken(next, view.sending, view.free[0], Draft(t, data, false, false));
      n := freeHead;
      freeHead := next[n];
      view := SendPass(view, t, data, timeout);
      return Return(OK), n;
    }

    /** The first region of rt_mq_send_wait. */
    method Send(t: Tid, data: Body, timeout: int) returns (r: Outcome, n: Node)
      requires Valid() && Enabled(view, Event.Send(t, data, timeout))
      modifies this
      ensures Valid() && view == Apply(old(view), Event.Send(t, data, timeout)) && r == Reply(old(view), Event.Send(t, data, timeout))
      ensures r == Return(OK) ==> n in view.sending && view.sending[n] == Draft(t, data, false, false)
    {
      if |data| > msgSize { return Return(ERROR), 0; }
      ListEmpty(next, freeHead, view.free);
      if freeHead == NIL && timeout == 0 {
        assert Ran(view.send, t) == view.send;
        return Return(FULL), 0;
      }
      r, n := PassSend(t, data, timeout);
    }

    /** The sender runs again after rt_schedule. */
    method SendAgain(t: Tid, data: Body, timeout: int, elapsed: nat) returns (r: Outcome, n: Node)
      requires Valid() && Enabled(view, Event.SendAgain(t, data, timeout, elapsed))
      modifies this
      ensures Valid() && view == Apply(old(view), Event.SendAgain(t, data, timeout, elapsed))
      ensures r == Reply(old(view), Event.SendAgain(t, data, timeout, elapsed))
      ensures r == Return(OK) && t !in old(view).failed ==> n in view.sending && view.sending[n] == Draft(t, data, false, false)
    {
      Woken(t);
      if error[t] != OK {
        r := ErrorReturn(t);
        return r, 0;
      }
      var left := timeout;
      if timeout > 0 {
        left := timeout - elapsed;
        if left < 0 { left := 0; }
      }
      r, n := PassSend(t, data, left);
    }

    method ErrorReturn(t: Tid) returns (r: Outcome)
      requires Valid() && t in view.failed
      modifies this
      ensures Valid() && view == old(view).(failed := old(view).failed - {t}) && r == Return(old(view).failed[t])
    {
      hide Inv, IsList, Ended;
      ErrorReturnKeeps(view, t);
      r := Return(error[t]);
      view := view.(failed := view.failed - {t});
    }

    /** A thread that runs again knows from its error code how it was resumed. */
    lemma Woken(t: Tid)
      requires Valid() && (t in view.send.woken || t in view.recv.woken || t in view.failed)
      ensures t in error && (error[t] != OK <==> t in view.failed)
      ensures t in view.failed ==> error[t] == view.failed[t]
    {
      assert t in view.send.woken ==> In(view.send, t);
      assert t in view.recv.woken ==> In(view.recv, t);
    }

    /** The first region of rt_mq_urgent. */
    method Urgent(t: Tid, data: Body) returns (r: Outcome, n: Node)
      requires Valid() && Enabled(view, Event.Urgent(t, data))
      modifies this
      ensures Valid() && view == Apply(old(view), Event.Urgent(t, data)) && r == Reply(old(view), Event.Urgent(t, data))
      ensures r == Return(OK) ==> n in view.sending && view.sending[n] == Draft(t, data, true, false)
    {
      hide Inv, IsList, Ended, Errors;
      if |data| > msgSize { return Return(ERROR), 0; }
      ListEmpty(next, freeHead, view.free);
      if freeHead == NIL { return Return(FULL), 0; }
      TakeFreeKeeps(view, t, data, true);
      ErrorsSame(error, view, TakeFree(view, t, data, true));
      ListPop(next, freeHead, view.free);
      EndedTaken(next, view.sending, view.free[0], Draft(t, data, true, false));
      n := freeHead;
      freeHead := next[n];
      view := TakeFree(view, t, data, true);
      return Return(OK), n;
    }

    /** Between the regions: the message is written into the node. */
    method Fill(n: Node, data: Body, urgent: bool)
      requires Valid() && Enabled(view, Event.Fill(n)) && view.sending[n].data == data && view.sending[n].urgent == urgent
      modifies this
      ensures Valid() && view == Apply(old(view), Event.Fill(n))
    {
      hide Inv, IsList, Ended, Errors, Filled;
      FillKeeps(view, n);
      QueueFacts(view, n);
      ErrorsSame(error, view, FillStep(view, n));
      ListKept(next, head, view.queue, n, NIL);
      ListKept(next, freeHead, view.free, n, NIL);
      EndedFilled(next, view.sending, n);
      if !urgent {
        next := next[n := NIL];
      }
      body := body[n := Filled(body[n], data)];
      view := FillStep(view, n);
    }

    /** Put a filled node at the tail of the queue. */
    method Append(n: Node)
      requires Inv(view) && Enabled(view, Event.Link(n)) && !view.sending[n].urgent
      requires IsList(next, head, view.queue) && tail == Last(view.queue) && IsList(next, freeHead, view.free) && Ended(next, view.sending)
      modifies `next, `head, `tail
      ensures IsList(next, head, view.queue + [n]) && tail == Last(view.queue + [n])
      ensures IsList(next, freeHead, view.free) && Ended(next, view.sending - {n})
    {
      hide Inv, IsList, Ended;
      QueueFacts(view, n);
      EndedNil(next, view.sending, n);
      EndedTaken(next, view.sending, n, view.sending[n]);
      ListEmpty(next, head, view.queue);
      if tail != NIL {
        QueueFacts(view, tail);
        ListAppend(next, head, view.queue, n);
        ListKept(next, freeHead, view.free, tail, n);
        EndedKept(next, view.sending - {n}, tail, n);
        next := next[tail := n];
      } else {
        assert view.queue + [n] == [n];
        ListOne(next, n);
      }
      tail := n;
      if head == NIL { head := n; }
    }

    /** The second region of rt_mq_send_wait; the counter never overflows. */
    method LinkTail(n: Node)
      requires Valid() && Enabled(view, Event.Link(n)) && !view.sending[n].urgent
      modifies this
      ensures Valid() && view == Apply(old(view), Event.Link(n))
    {
      hide Inv, IsList, Ended, Errors, Wake, LinkStep;
      LinkKeeps(view, n);
      LinkFields(view, n);
      QueueFacts(view, n);
      RoomForEntry(view, n);
      ErrorsLink(error, view, n);
      Append(n);
      assert entry < ENTRY_MAX;
      entry := entry + 1;
      WakeWaiting(view.recv);
      if receivers != [] { receivers := receivers[1..]; }
      view := LinkStep(view, n);
    }

    /** The second region of rt_mq_urgent. */
    method LinkHead(n: Node)
      requires Valid() && Enabled(view, Event.Link(n)) && view.sending[n].urgent
      modifies this
      ensures Valid() && view == Apply(old(view), Event.Link(n))
    {
      hide Inv, IsList, Ended, Errors, Wake, LinkStep;
      LinkKeeps(view, n);
      LinkFields(view, n);
      QueueFacts(view, n);
      RoomForEntry(view, n);
      ErrorsLink(error, view, n);
      EndedTaken(next, view.sending, n, view.sending[n]);
      EndedKept(next, view.sending - {n}, n, head);
      ListEmpty(next, head, view.queue);
      ListPush(next, head, view.queue, n);
      ListKept(next, freeHead, view.free, n, head);
      LastPush(view.queue, n);
      hide Last, Idle, Enabled;
      next := next[n := head];
      head := n;
      if tail == NIL { tail := n; }
      assert entry < ENTRY_MAX;
      entry := entry + 1;
      WakeWaiting(view.recv);
      if receivers != [] { receivers := receivers[1..]; }
      view := LinkStep(view, n);
    }

    /** One pass of the receiving loop: on success, the first node of the queue. */
    method PassRecv(t: Tid, size: nat, timeout: int) returns (r: Outcome, n: Node)
      requires Valid() && (Idle(view, t) || t in view.recv.woken)
      modifies this
      ensures Valid() && view == RecvPass(old(view), t, size, timeout) && r == RecvReply(old(view), timeout)
      ensures r == Return(OK) ==> old(view).queue != [] && n == old(view).queue[0]
    {
      hide Inv, IsList, Enqueue, Ended, Errors, RecvPass, Idle;
      RecvPassKeeps(view, t, size, timeout);
      RecvFields(view, t, size, timeout);
      InvRunner(view, t);
      ErrorsRecv(error, view, t, size, timeout);
      if entry == 0 {
        RecvWaits(view, t, size, timeout);
        error := error[t := OK];
        if timeout == 0 {
          assert error[t := TIMEOUT] == old(error)[t := TIMEOUT];
          error := error[t := TIMEOUT];
          view := RecvPass(view, t, size, timeout);
          return Return(TIMEOUT), 0;
        }
        receivers := Suspend(receivers, t, prio, fifo);
        view := RecvPass(view, t, size, timeout);
        return Blocked, 0;
      }
      RecvTakes(view, t, size, timeout);
      ListPop(next, head, view.queue);
      LastOfRest(view);
      n := head;
      head := next[n];
      if tail == n { tail := NIL; }
      entry := entry - 1;
      view := RecvPass(view, t, size, timeout);
      return Return(OK), n;
    }

    method Recv(t: Tid, size: nat, timeout: int) returns (r: Outcome, n: Node)
      requires Valid() && Enabled(view, Event.Recv(t, size, timeout))
      modifies this
      ensures Valid() && view == Apply(old(view), Event.Recv(t, size, timeout)) && r == Reply(old(view), Event.Recv(t, size, timeout))
      ensures r == Return(OK) ==> n in view.receiving && view.receiving[n] == Pick(t, size, false, [])
    {
      if entry == 0 && timeout == 0 {
        assert Ran(view.recv, t) == view.recv;
        return Return(TIMEOUT), 0;
      }
      r, n := PassRecv(t, size, timeout);
    }

    method RecvAgain(t: Tid, size: nat, timeout: int, elapsed: nat) returns (r: Outcome, n: Node)
      requires Valid() && Enabled(view, Event.RecvAgain(t, size, timeout, elapsed))
      modifies this
      ensures Valid() && view == Apply(old(view), Event.RecvAgain(t, size, timeout, elapsed))
      ensures r == Reply(old(view), Event.RecvAgain(t, size, timeout, elapsed))
      ensures r == Return(OK) && t !in old(view).failed ==> n in view.receiving && view.receiving[n] == Pick(t, size, false, [])
    {
      Woken(t);
      if error[t] != OK {
        r := ErrorReturn(t);
        return r, 0;
      }
      var left := timeout;
      if timeout > 0 {
        left := timeout - elapsed;
        if left < 0 { left := 0; }
      }
      r, n := PassRecv(t, size, left);
    }

    /** Between the regions: the receiver copies the message. */
    method CopyOut(n: Node, size: nat) returns (got: Body)
      requires Valid() && Enabled(view, Event.Copy(n)) && view.receiving[n].size == size
      modifies this
      ensures Valid() && view == Apply(old(view), Event.Copy(n)) && got == view.receiving[n].got
      ensures Delivers(view, n, size, got)
    {
      hide Inv, IsList, Ended, Errors, Cut;
      CopyKeeps(view, n);
      QueueFacts(view, n);
      CopiedFront(view, n);
      LogSize(view, n);
      ErrorsSame(error, view, CopyStep(view, n));
      var k := if size > msgSize then msgSize else size;
      got := body[n][..k];
      view := CopyStep(view, n);
      CutDelivers(view, n, size, got);
    }

    /** The second region of rt_mq_recv. */
    method GiveBack(n: Node)
      requires Valid() && Enabled(view, Event.GiveBack(n))
      modifies this
      ensures Valid() && view == Apply(old(view), Event.GiveBack(n))
    {
      hide Inv, IsList, Ended, Errors, Wake;
      GiveBackKeeps(view, n);
      QueueFacts(view, n);
      ErrorsBack(error, view, n);
      ListPush(next, freeHead, view.free, n);
      ListKept(next, head, view.queue, n, freeHead);
      EndedKept(next, view.sending, n, freeHead);
      next := next[n := freeHead];
      freeHead := n;
      WakeWaiting(view.send);
      if senders != [] { senders := senders[1..]; }
      view := GiveBackStep(view, n);
    }

    /** The timer of a waiting thread fires: rt_thread_timeout takes it off its list. */
    method Expire(t: Tid)
      requires Valid() && Enabled(view, Event.Expire(t))
      modifies this
      ensures Valid() && view == Apply(old(view), Event.Expire(t))
    {
      hide Inv, IsList, Ended, Errors;
      ExpireStepKeeps(view, t);
      ErrorsExpire(error, view, t);
      error := error[t := TIMEOUT];
      senders, receivers := Without(senders, t), Without(receivers, t);
      view := Apply(view, Event.Expire(t));
    }

    /** Move every queued message to the free list. */
    method ReleaseAll()
      requires Inv(view) && IsList(next, head, view.queue) && tail == Last(view.queue)
      requires IsList(next, freeHead, view.free) && Ended(next, view.sending)
      modifies `next, `head, `tail, `freeHead
      ensures IsList(next, head, []) && tail == NIL
      ensures IsList(next, freeHead, Reverse(view.queue) + view.free) && Ended(next, view.sending)
    {
      hide Inv, IsList, Ended, Reverse;
      ghost var free, queue, k := view.free, view.queue, 0;
      ReverseNone(queue, free);
      while head != NIL
        invariant k <= |queue| && IsList(next, head, queue[k..]) && tail == Last(queue[k..])
        invariant IsList(next, freeHead, Reverse(queue[..k]) + free) && Ended(next, view.sending)
        decreases |queue| - k
      {
        ListEmpty(next, head, queue[k..]);
        RestFacts(view, k);
        ListPop(next, head, queue[k..]);
        var msg := head;
        ListKept(next, next[msg], queue[k..][1..], msg, freeHead);
        ListPush(next, freeHead, Reverse(queue[..k]) + free, msg);
        EndedKept(next, view.sending, msg, freeHead);
        ReverseMore(queue, free, k);
        head := next[msg];
        if tail == msg { tail := NIL; }
        next := next[msg := freeHead];
        freeHead := msg;
        k := k + 1;
      }
      ListEmpty(next, head, queue[k..]);
      assert queue[k..] == [] && queue[..k] == queue;
    }

    /** RT_IPC_CMD_RESET: waiting threads leave with an error, messages become free. */
    method Reset()
      requires Valid()
      modifies this
      ensures Valid() && view == Apply(old(view), Event.Reset)
    {
      hide Inv, IsList, Ended, Errors, Reverse;
      ResetKeeps(view);
      ErrorsReset(error, view);
      error := ResumeAll(error, receivers);
      error := ResumeAll(error, senders);
      senders, receivers := [], [];
      ReleaseAll();
      entry := 0;
      view := ResetStep(view);
    }
  }
}
