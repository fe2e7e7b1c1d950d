/** Event flags (src/ipc.c): a word of bits, and threads that wait for all or any of
    some of them. Each region with interrupts disabled is one step. A word is the set of
    the bits that are one in it. */
module EventFlags {
  import opened Lists
  import opened WaitList

  /** RT_EVENT_FLAG_AND, _OR and _CLEAR. */
  datatype Flag = Flag(all: bool, any: bool, clear: bool)

  /** thread->event_set and thread->event_info of a thread that waits. */
  datatype Want = Want(bits: Bits, opt: Flag)

  /** AND takes precedence when both are given. */
  predicate Met(on: Bits, w: Want) { if w.opt.all then w.bits <= on else exists k :: k in on && k in w.bits }

  /** The masks of the source: bits that are both on and wanted. */
  lemma MetByMask(on: Bits, w: Want)
    ensures Met(on, w) <==> if w.opt.all then on * w.bits == w.bits else on * w.bits != {}
  {
    if w.opt.all {
      assert on * w.bits == w.bits ==> forall k :: k in w.bits ==> k in on * w.bits;
    } else {
      assert forall k :: k in on && k in w.bits <==> k in on * w.bits;
    }
  }

  predicate ValidWant(w: Want) { (w.opt.all || w.opt.any) && w.bits != {} }

  /** What an immediate receive gets, and what it leaves. */
  function Got(on: Bits, w: Want): Bits { on * w.bits }

  function Kept(on: Bits, w: Want): Bits { if w.opt.clear then on - w.bits else on }

  // ---------------------------------------------------------------- serving the list

  datatype Served = Served(on: Bits, left: seq<Tid>, got: map<Tid, Bits>)

  /** Let the waiters receive in order, each as if it asked only then. */
  function Serve(on: Bits, list: seq<Tid>, want: map<Tid, Want>): Served
    requires forall t :: t in list ==> t in want
  {
    if list == [] then Served(on, [], map[])
    else
      var w := want[list[0]];
      if Met(on, w) then
        var r := Serve(Kept(on, w), list[1..], want);
        r.(got := r.got[list[0] := Got(on, w)])
      else
        var r := Serve(on, list[1..], want);
        r.(left := [list[0]] + r.left)
  }

  /** Fewer bits never meet what more bits did not. */
  lemma UnmetShrinks(a: Bits, b: Bits, w: Want)
    requires b <= a && !Met(a, w)
    ensures !Met(b, w)
  {
    if w.opt.all {
      var k :| k in w.bits && k !in a;
      assert k !in b;
    }
  }

  /** Afterwards nobody left in the list has what it waits for, whoever was served later;
      everybody else was served. */
  lemma {:induction false} ServeLeavesUnmet(on: Bits, list: seq<Tid>, want: map<Tid, Want>)
    requires (forall t :: t in list ==> t in want) && Distinct(list)
    ensures var r := Serve(on, list, want);
            && r.on <= on && Distinct(r.left)
            && (forall t :: t in r.left ==> t in list && !Met(r.on, want[t]) && t !in r.got)
            && (forall t :: t in r.got ==> t in list)
            && (forall t :: t in list ==> t in r.left || t in r.got)
  {
    if list != [] {
      var w := want[list[0]];
      assert list == [list[0]] + list[1..] && list[0] !in list[1..];
      if Met(on, w) {
        ServeLeavesUnmet(Kept(on, w), list[1..], want);
      } else {
        ServeLeavesUnmet(on, list[1..], want);
        UnmetShrinks(on, Serve(on, list[1..], want).on, w);
      }
    }
  }

  // ------------------------------------------------------------------ the protocol

  datatype Outcome = Return(err: Err, bits: Bits) | Blocked

  /** got: what threads resumed by a send will return with. */
  datatype State = State(on: Bits, waiting: seq<Tid>, want: map<Tid, Want>, got: map<Tid, Bits>, failed: map<Tid, Err>,
                         prio: map<Tid, int>, fifo: bool)

  datatype Event =
    | Send(bits: Bits)
    | Recv(t: Tid, w: Want, timeout: int)
    | RecvAgain(t: Tid)
    | Expire(t: Tid)
    | Reset

  /** A receive names AND or OR: the source asserts that. */
  predicate Enabled(s: State, e: Event)
  {
    match e
    case Send(_) => true
    case Recv(t, w, _) => t !in s.waiting && t !in s.got && t !in s.failed && (w.opt.all || w.opt.any)
    case RecvAgain(t) => t in s.got || t in s.failed
    case Expire(t) => t in s.waiting
    case Reset => true
  }

  predicate Listed(s: State) { forall t :: t in s.waiting ==> t in s.want }

  function SendStep(s: State, bits: Bits): State
    requires Listed(s)
  {
    if bits == {} then s
    else
      var r := Serve(s.on + bits, s.waiting, s.want);
      s.(on := r.on, waiting := r.left, got := s.got + r.got)
  }

  function RecvStep(s: State, t: Tid, w: Want, timeout: int): State
  {
    if w.bits == {} then s
    else if Met(s.on, w) then s.(on := Kept(s.on, w))
    else if timeout == 0 then s
    else s.(waiting := Enqueue(s.waiting, t, s.prio, s.fifo), want := s.want[t := w])
  }

  function RecvReply(s: State, w: Want, timeout: int): Outcome
  {
    if w.bits == {} then Return(ERROR, {})
    else if Met(s.on, w) then Return(OK, Got(s.on, w))
    else if timeout == 0 then Return(TIMEOUT, {})
    else Blocked
  }

  function Apply(s: State, e: Event): State
    requires Listed(s)
  {
    match e
    case Send(bits) => SendStep(s, bits)
    case Recv(t, w, timeout) => RecvStep(s, t, w, timeout)
    case RecvAgain(t) => s.(got := s.got - {t}, failed := s.failed - {t})
    case Expire(t) => s.(waiting := Without(s.waiting, t), failed := s.failed[t := TIMEOUT])
    case Reset => s.(on := {}, waiting := [], failed := Failing(s.failed, s.waiting, ERROR))
  }

  /** Nobody waits for what is there. */
  ghost predicate Inv(s: State)
  {
    && Distinct(s.waiting)
    && (forall t :: t in s.waiting ==> t in s.want && ValidWant(s.want[t]) && !Met(s.on, s.want[t]) && t !in s.got && t !in s.failed)
    && (forall t :: t in s.got ==> t !in s.failed)
  }

  lemma StepKeeps(s: State, e: Event)
    requires Inv(s) && Enabled(s, e)
    ensures Inv(Apply(s, e))
  {
    match e
    case Send(bits) => ServeLeavesUnmet(s.on + bits, s.waiting, s.want);
    case Recv(t, w, timeout) => RecvKeeps(s, t, w, timeout);
    case RecvAgain(t) =>
    case Expire(t) => WithoutDistinct(s.waiting, t);
    case Reset =>
  }

  lemma RecvKeeps(s: State, t: Tid, w: Want, timeout: int)
    requires Inv(s) && Enabled(s, Recv(t, w, timeout))
    ensures Inv(RecvStep(s, t, w, timeout))
  {
    EnqueueMembers(s.waiting, t, s.prio, s.fifo);
    hide Enqueue, Distinct;
    if Met(s.on, w) {
      forall x | x in s.waiting ensures !Met(Kept(s.on, w), s.want[x]) {
        UnmetShrinks(s.on, Kept(s.on, w), s.want[x]);
      }
    }
  }

  predicate CanRun(s: State, es: seq<Event>)
    decreases es
  {
    es == [] || (Listed(s) && Enabled(s, es[0]) && CanRun(Apply(s, es[0]), es[1..]))
  }

  function Run(s: State, es: seq<Event>): State
    requires CanRun(s, es)
    decreases es
  {
    if es == [] then s else Run(Apply(s, es[0]), es[1..])
  }

  lemma {:induction false} RunKeeps(s: State, es: seq<Event>)
    requires Inv(s) && CanRun(s, es)
    ensures Inv(Run(s, es))
    decreases es
  {
    if es != [] {
      StepKeeps(s, es[0]);
      hide Inv, Apply;
      RunKeeps(Apply(s, es[0]), es[1..]);
    }
  }

  function Start(prio: map<Tid, int>, fifo: bool): State { State({}, [], map[], map[], map[], prio, fifo) }

  /** In no state that any run reaches does a suspended thread wait for bits that are
      there. */
  lemma NobodyOverlooked(prio: map<Tid, int>, fifo: bool, es: seq<Event>, t: Tid)
    requires CanRun(Start(prio, fifo), es)
    ensures var s := Run(Start(prio, fifo), es); t in s.waiting ==> t in s.want && !Met(s.on, s.want[t])
  {
    RunKeeps(Start(prio, fifo), es);
  }

  // ----------------------------------------------------------------- what is received

  /** Every wanted bit is on, or with OR alone some wanted bit is. */
  predicate Enough(on: Bits, w: Want)
  {
    if w.opt.all then forall k :: k in w.bits ==> k in on else exists k :: k in w.bits && k in on
  }

  function OnAndWanted(on: Bits, w: Want): Bits { set k | k in on && k in w.bits }

  function OnNotWanted(on: Bits, w: Want): Bits { set k | k in on && k !in w.bits }

  /** One thread's turn while `on` is set: woken exactly if that is enough, with the bits
      that are on and wanted; if it asked to clear, the wanted bits go and no others. */
  ghost predicate Turn(on: Bits, after: Bits, w: Want, woken: bool, got: Bits)
  {
    && (woken <==> Enough(on, w)) && (woken ==> got == OnAndWanted(on, w))
    && after == if woken && w.opt.clear then OnNotWanted(on, w) else on
  }

  function NotIn(list: seq<Tid>, got: set<Tid>): seq<Tid>
  {
    if list == [] then [] else (if list[0] in got then [] else [list[0]]) + NotIn(list[1..], got)
  }

  /** now: the bits that are on before each turn, and after the last. */
  ghost predicate Turns(now: seq<Bits>, list: seq<Tid>, want: map<Tid, Want>, got: map<Tid, Bits>)
  {
    && |now| == |list| + 1
    && (forall i :: 0 <= i < |list| ==>
          list[i] in want && Turn(now[i], now[i + 1], want[list[i]], list[i] in got, if list[i] in got then got[list[i]] else {}))
  }

  lemma TurnIs(on: Bits, w: Want)
    ensures Turn(on, if Met(on, w) then Kept(on, w) else on, w, Met(on, w), Got(on, w))
  {
    assert Met(on, w) <==> Enough(on, w);
    assert Got(on, w) == OnAndWanted(on, w);
    assert on - w.bits == OnNotWanted(on, w);
  }

  lemma TurnsCons(now: seq<Bits>, list: seq<Tid>, want: map<Tid, Want>, got: map<Tid, Bits>, on: Bits, woken: bool, g: Bits)
    requires Distinct(list) && list != [] && list[0] in want && list[0] !in got
    requires Turns(now, list[1..], want, got) && Turn(on, now[0], want[list[0]], woken, g)
    ensures Turns([on] + now, list, want, if woken then got[list[0] := g] else got)
  {
    var now', got' := [on] + now, if woken then got[list[0] := g] else got;
    hide Turn;
    forall i | 0 <= i < |list|
      ensures list[i] in want && Turn(now'[i], now'[i + 1], want[list[i]], list[i] in got', if list[i] in got' then got'[list[i]] else {})
    {
      if i == 0 {
        TurnUnwoken(on, now[0], want[list[0]], woken, g);
      } else {
        assert list[i] == list[1..][i - 1] && list[i] != list[0];
      }
    }
  }

  lemma TurnUnwoken(on: Bits, after: Bits, w: Want, woken: bool, g: Bits)
    requires Turn(on, after, w, woken, g)
    ensures !woken ==> Turn(on, after, w, false, {})
  {
  }

  lemma NotInSame(list: seq<Tid>, a: set<Tid>, b: set<Tid>)
    requires forall t :: t in list ==> (t in a <==> t in b)
    ensures NotIn(list, a) == NotIn(list, b)
  {
  }

  lemma {:induction false} ServeTurns(on: Bits, list: seq<Tid>, want: map<Tid, Want>) returns (now: seq<Bits>)
    requires (forall t :: t in list ==> t in want) && Distinct(list)
    ensures var r := Serve(on, list, want);
            Turns(now, list, want, r.got) && now[0] == on && now[|list|] == r.on && r.left == NotIn(list, r.got.Keys)
  {
    if list == [] {
      now := [on];
    } else {
      var t, w, rest := list[0], want[list[0]], list[1..];
      hide Turn, Turns, Kept, Got, Met;
      assert Distinct(rest) && t !in rest;
      var on' := if Met(on, w) then Kept(on, w) else on;
      var r := Serve(on', rest, want);
      ServeLeavesUnmet(on', rest, want);
      TurnIs(on, w);
      var now' := ServeTurns(on', rest, want);
      TurnsSize(now', rest, want, r.got);
      TurnsCons(now', list, want, r.got, on, Met(on, w), Got(on, w));
      now := [on] + now';
      assert now[|list|] == now'[|rest|];
      NotInSame(rest, r.got.Keys, Serve(on, list, want).got.Keys);
    }
  }

  lemma TurnsSame(now: seq<Bits>, list: seq<Tid>, want: map<Tid, Want>, a: map<Tid, Bits>, b: map<Tid, Bits>)
    requires Turns(now, list, want, a)
    requires forall t :: t in list ==> (t in a <==> t in b) && (t in a ==> a[t] == b[t])
    ensures Turns(now, list, want, b)
  {
    hide Turn;
  }

  lemma TurnsSize(now: seq<Bits>, list: seq<Tid>, want: map<Tid, Want>, got: map<Tid, Bits>)
    requires Turns(now, list, want, got)
    ensures |now| == |list| + 1
  {
  }

  /** From the bits that are on, with the new ones, the waiting threads take turns in
      order; whoever is woken leaves the list with what its turn gave it. */
  ghost predicate InTurn(s: State, s': State, bits: Bits, now: seq<Bits>)
  {
    && Turns(now, s.waiting, s.want, s'.got) && now[0] == s.on + bits && now[|s.waiting|] == s'.on
    && s'.waiting == NotIn(s.waiting, s'.got.Keys)
    && (forall t :: t !in s.waiting ==> (t in s'.got <==> t in s.got) && (t in s.got ==> s'.got[t] == s.got[t]))
  }

  lemma SendServes(s: State, bits: Bits)
    requires Inv(s) && bits != {}
    ensures Listed(s) && exists now :: InTurn(s, SendStep(s, bits), bits, now)
  {
    var r, s' := Serve(s.on + bits, s.waiting, s.want), SendStep(s, bits);
    ServeLeavesUnmet(s.on + bits, s.waiting, s.want);
    var now := ServeTurns(s.on + bits, s.waiting, s.want);
    hide Turns, Serve, Distinct, Met;
    TurnsSame(now, s.waiting, s.want, r.got, s'.got);
    TurnsSize(now, s.waiting, s.want, r.got);
    NotInSame(s.waiting, r.got.Keys, s'.got.Keys);
    assert InTurn(s, s', bits, now);
  }

  /** A bit that is on goes exactly in the turn of a woken thread that wanted it and asked
      to clear. */
  lemma {:induction false} BitGoes(now: seq<Bits>, list: seq<Tid>, want: map<Tid, Want>, got: map<Tid, Bits>, n: nat, k: nat)
    requires Turns(now, list, want, got) && n <= |list|
    ensures k in now[n] <==> k in now[0] && forall i :: 0 <= i < n && list[i] in got ==> !(want[list[i]].opt.clear && k in want[list[i]].bits)
  {
    if n > 0 {
      BitGoes(now, list, want, got, n - 1, k);
      hide Enough;
      assert Turn(now[n - 1], now[n], want[list[n - 1]], list[n - 1] in got, if list[n - 1] in got then got[list[n - 1]] else {});
    }
  }

  /** What a send leaves on: the bits there were and the new ones, less what the threads it
      wakes asked to clear. Nothing else goes. */
  lemma SendLeaves(s: State, bits: Bits, k: nat)
    requires Inv(s) && bits != {}
    ensures Listed(s)
    ensures var s' := SendStep(s, bits);
            k in s'.on <==> (k in s.on || k in bits) && forall t :: t in s.waiting && t in s'.got ==> !(s.want[t].opt.clear && k in s.want[t].bits)
  {
    SendServes(s, bits);
    var s' := SendStep(s, bits);
    var now :| InTurn(s, s', bits, now);
    BitGoes(now, s.waiting, s.want, s'.got, |s.waiting|, k);
    hide SendStep, Turns;
  }

  // ------------------------------------------------------------------- over whole runs

  /** In the run from `s`, step `n` is a send that woke `t`; it wanted `w`, and `g` is what
      was on and wanted in its turn. */
  ghost predicate WokenAt(s: State, es: seq<Event>, n: nat, t: Tid, g: Bits)
    requires CanRun(s, es)
  {
    n < |es| && es[n].Send? && CanRun(s, es[..n])
    && var b := Run(s, es[..n]);
       t in b.waiting && t in b.want && exists on :: InItsTurn(b, es[n].bits, b.want[t], on, g)
  }

  ghost predicate InItsTurn(s: State, bits: Bits, w: Want, on: Bits, g: Bits)
  {
    on <= s.on + bits && Enough(on, w) && g == OnAndWanted(on, w)
  }

  lemma {:induction false} NowShrinks(now: seq<Bits>, list: seq<Tid>, want: map<Tid, Want>, got: map<Tid, Bits>, n: nat)
    requires Turns(now, list, want, got) && n <= |list|
    ensures now[n] <= now[0]
  {
    forall k | k in now[n] ensures k in now[0] { BitGoes(now, list, want, got, n, k); }
  }

  lemma WokenInTurn(s: State, bits: Bits, t: Tid)
    requires Inv(s) && bits != {} && Listed(s) && t in s.waiting && t in SendStep(s, bits).got
    ensures exists on :: InItsTurn(s, bits, s.want[t], on, SendStep(s, bits).got[t])
  {
    SendServes(s, bits);
    var s' := SendStep(s, bits);
    hide SendStep, Distinct, Enough;
    var now :| InTurn(s, s', bits, now);
    var i :| 0 <= i < |s.waiting| && s.waiting[i] == t;
    NowShrinks(now, s.waiting, s.want, s'.got, i);
    assert Turn(now[i], now[i + 1], s.want[t], t in s'.got, s'.got[t]);
    assert InItsTurn(s, bits, s.want[t], now[i], s'.got[t]);
  }

  /** A step other than a send that finds `t` waiting gives it nothing. */
  lemma GotBefore(s: State, e: Event, t: Tid)
    requires Inv(s) && Enabled(s, e)
    ensures Listed(s) && (t in Apply(s, e).got && !(e.Send? && e.bits != {} && t in s.waiting) ==> t in s.got && Apply(s, e).got[t] == s.got[t])
  {
    if e.Send? && e.bits != {} {
      ServeLeavesUnmet(s.on + e.bits, s.waiting, s.want);
      hide Serve, Distinct;
    } else {
      hide Serve, Distinct, Enqueue, Failing;
    }
  }

  lemma WokenLater(s: State, es: seq<Event>, n: nat, t: Tid, g: Bits)
    requires es != [] && CanRun(s, es) && WokenAt(Apply(s, es[0]), es[1..], n, t, g)
    ensures WokenAt(s, es, n + 1, t, g)
  {
    assert es[..n + 1][0] == es[0] && es[..n + 1][1..] == es[1..][..n];
    hide Apply, Enabled, InItsTurn;
  }

  lemma {:induction false} ResumedFrom(s: State, es: seq<Event>, t: Tid)
    requires Inv(s) && CanRun(s, es) && t in Run(s, es).got
    ensures (t in s.got && Run(s, es).got[t] == s.got[t]) || exists n :: WokenAt(s, es, n, t, Run(s, es).got[t])
    decreases es
  {
    if es != [] {
      hide Inv, Apply, Enabled, WokenAt, Turns, Serve;
      var s1, g := Apply(s, es[0]), Run(s, es).got[t];
      StepKeeps(s, es[0]);
      ResumedFrom(s1, es[1..], t);
      if n :| WokenAt(s1, es[1..], n, t, g) {
        WokenLater(s, es, n, t, g);
      } else {
        GotBefore(s, es[0], t);
        if es[0].Send? && es[0].bits != {} && t in s.waiting { WokenFirst(s, es, t); }
      }
    }
  }

  lemma WokenFirst(s: State, es: seq<Event>, t: Tid)
    requires Inv(s) && es != [] && CanRun(s, es) && es[0].Send? && es[0].bits != {} && t in s.waiting && t in Apply(s, es[0]).got
    ensures WokenAt(s, es, 0, t, Apply(s, es[0]).got[t])
  {
    WokenInTurn(s, es[0].bits, t);
    assert es[..0] == [];
    hide SendStep, InItsTurn;
  }

  /** In every run: a thread that was resumed returns with exactly the bits that it wanted
      and that were on in its turn of some earlier send, and they were enough for it. */
  lemma DelayedAnswer(prio: map<Tid, int>, fifo: bool, es: seq<Event>, t: Tid)
    requires CanRun(Start(prio, fifo), es) && t in Run(Start(prio, fifo), es).got
    ensures exists n :: WokenAt(Start(prio, fifo), es, n, t, Run(Start(prio, fifo), es).got[t])
  {
    ResumedFrom(Start(prio, fifo), es, t);
    hide Run, CanRun, WokenAt;
  }

  /** What a thread that receives learns from the answer. OK: there was enough, and it has
      the bits that were on and wanted; if it asked to clear, the wanted bits are off and
      no others. TIMEOUT and ERROR: nothing changed. No answer: it waits. */
  lemma RecvMeans(s: State, t: Tid, w: Want, timeout: int)
    requires Enabled(s, Recv(t, w, timeout))
    ensures var s', r := RecvStep(s, t, w, timeout), RecvReply(s, w, timeout);
            && (r.Return? && r.err == OK <==> w.bits != {} && Enough(s.on, w))
            && (r.Return? && r.err == OK ==> r.bits == OnAndWanted(s.on, w) && s'.waiting == s.waiting)
            && (r.Return? && r.err == OK ==> s'.on == if w.opt.clear then OnNotWanted(s.on, w) else s.on)
            && (r.Return? && r.err != OK ==> s' == s && r == if w.bits == {} then Return(ERROR, {}) else Return(TIMEOUT, {}))
            && (r == Blocked <==> t in s'.waiting) && (r == Blocked ==> s'.on == s.on && t in s'.want && s'.want[t] == w)
  {
    TurnIs(s.on, w);
    EnqueueMembers(s.waiting, t, s.prio, s.fifo);
    hide Enqueue, Kept, Got, Met, Distinct;
  }

  /** A thread whose timer fires is off the list and resumed with TIMEOUT; a reset turns all
      bits off and resumes everybody who waits with ERROR. Nobody else notices. */
  lemma EndMeans(s: State, t: Tid, x: Tid)
    requires Inv(s) && t in s.waiting
    ensures var s' := Apply(s, Expire(t));
            && (x in s'.waiting <==> x in s.waiting && x != t) && s'.on == s.on && s'.got == s.got
            && (x in s'.failed <==> x in s.failed || x == t) && s'.failed[t] == TIMEOUT
    ensures var s' := Apply(s, Reset);
            && s'.on == {} && s'.waiting == [] && s'.got == s.got
            && (x in s'.failed <==> x in s.failed || x in s.waiting) && (x in s.waiting ==> s'.failed[x] == ERROR)
  {
    hide Distinct, Met, Enough;
  }

  // -------------------------------------------------------------------- the object

  /** The waiting threads ask in order, each with a receive that does not wait: what the
      calls return, who gets nothing, and the bits that are left. */
  function Asked(s: State, on: Bits, list: seq<Tid>): Served
    requires forall t :: t in list ==> t in s.want
  {
    if list == [] then Served(on, [], map[])
    else
      var t, w, now := list[0], s.want[list[0]], s.(on := on);
      var r, reply := Asked(s, RecvStep(now, t, w, 0).on, list[1..]), RecvReply(now, w, 0);
      if reply.Return? && reply.err == OK then r.(got := r.got[t := reply.bits]) else r.(left := [t] + r.left)
  }

  /** A delayed receive is an immediate one: a send wakes exactly the threads whose receive
      would succeed, if all who wait asked again in order, with the same bits and the same
      bits cleared. */
  lemma DelayedIsImmediate(s: State, bits: Bits)
    requires Inv(s) && bits != {}
    ensures Listed(s)
    ensures var r := Asked(s, s.on + bits, s.waiting);
            && SendStep(s, bits).on == r.on && SendStep(s, bits).waiting == r.left && SendStep(s, bits).got == s.got + r.got
  {
    ServeIsAsking(s, s.on + bits, s.waiting);
  }

  lemma {:induction false} ServeIsAsking(s: State, on: Bits, list: seq<Tid>)
    requires forall t :: t in list ==> t in s.want && ValidWant(s.want[t])
    ensures Asked(s, on, list) == Serve(on, list, s.want)
  {
    if list != [] {
      var t, w := list[0], s.want[list[0]];
      var now := s.(on := on);
      assert RecvStep(now, t, w, 0).on == if Met(on, w) then Kept(on, w) else on;
      ServeIsAsking(s, RecvStep(now, t, w, 0).on, list[1..]);
    }
  }

  /** A thread that is resumed clears its saved bits: that is clearing all it asked for. */
  lemma SavedIsGot(on: Bits, w: Want)
    requires Met(on, w)
    ensures w.opt.all ==> w.bits == Got(on, w)
    ensures on - Got(on, w) == on - w.bits
  {
  }

  /** Each waiting thread has noted what it wants, each resumed one what it got. */
  ghost predicate Noted(s: State, eventSet: map<Tid, Bits>, eventInfo: map<Tid, Flag>)
  {
    && (forall t :: t in s.waiting ==> t in s.want && t in eventSet && eventSet[t] == s.want[t].bits && t in eventInfo && eventInfo[t] == s.want[t].opt)
    && (forall t :: t in s.got ==> t in eventSet && eventSet[t] == s.got[t])
  }

  /** What is done so far and what the rest will do make up the whole. */
  ghost predicate Rejoined(total: Served, rest: Served, left: seq<Tid>, gone: map<Tid, Bits>)
  {
    total.on == rest.on && total.left == left + rest.left && total.got == gone + rest.got
  }

  lemma RestDistinct(list: seq<Tid>, n: nat)
    requires Distinct(list) && n < |list|
    ensures Distinct(list[n + 1..]) && list[n] !in list[n + 1..]
  {
  }

  lemma ServeUnfold(on: Bits, list: seq<Tid>, n: nat, want: map<Tid, Want>)
    requires (forall t :: t in list ==> t in want) && n < |list|
    ensures var w, rest := want[list[n]], list[n + 1..];
            && (Met(on, w) ==> var r := Serve(Kept(on, w), rest, want); Serve(on, list[n..], want) == r.(got := r.got[list[n] := Got(on, w)]))
            && (!Met(on, w) ==> var r := Serve(on, rest, want); Serve(on, list[n..], want) == r.(left := [list[n]] + r.left))
  {
    assert list[n..][0] == list[n] && list[n..][1..] == list[n + 1..];
    hide Met, Kept, Got;
  }

  lemma ServeOne(on: Bits, list: seq<Tid>, n: nat, want: map<Tid, Want>, total: Served, left: seq<Tid>, gone: map<Tid, Bits>)
    requires (forall t :: t in list ==> t in want) && Distinct(list) && n < |list|
    requires Rejoined(total, Serve(on, list[n..], want), left, gone)
    ensures var w := want[list[n]];
            && (Met(on, w) ==> Rejoined(total, Serve(Kept(on, w), list[n + 1..], want), left, gone[list[n] := Got(on, w)]))
            && (!Met(on, w) ==> Rejoined(total, Serve(on, list[n + 1..], want), left + [list[n]], gone))
  {
    hide Distinct, Met, Kept, Got, Serve;
    var t, rest := list[n], list[n + 1..];
    RestDistinct(list, n);
    ServeUnfold(on, list, n, want);
    if Met(on, want[t]) {
      var r := Serve(Kept(on, want[t]), rest, want);
      ServeLeavesUnmet(Kept(on, want[t]), rest, want);
      assert gone + r.got[t := Got(on, want[t])] == gone[t := Got(on, want[t])] + r.got;
    } else {
      assert left + ([t] + Serve(on, rest, want).left) == left + [t] + Serve(on, rest, want).left;
    }
  }

  /** Half-way through the list: gone have what they got noted, the others what they
      want. */
  ghost predicate Tracked(s: State, eventSet: map<Tid, Bits>, gone: map<Tid, Bits>, n: nat)
  {
    && n <= |s.waiting|
    && (forall t :: t in gone ==> t in s.waiting[..n] && t in eventSet && eventSet[t] == gone[t])
    && (forall t :: t in s.waiting && t !in gone ==> t in eventSet && t in s.want && eventSet[t] == s.want[t].bits)
    && (forall t :: t in s.got ==> t in eventSet && eventSet[t] == s.got[t])
  }

  lemma InvDistinct(s: State)
    requires Inv(s)
    ensures Distinct(s.waiting) && Listed(s)
  {
  }

  lemma StartJoined(s: State, on: Bits, eventSet: map<Tid, Bits>, eventInfo: map<Tid, Flag>)
    requires Inv(s) && Noted(s, eventSet, eventInfo)
    ensures Listed(s) && s.waiting[0..] == s.waiting
    ensures Rejoined(Serve(on, s.waiting, s.want), Serve(on, s.waiting[0..], s.want), [], map[]) && Tracked(s, eventSet, map[], 0)
    ensures InfoOk(s, eventInfo) && Unserved(s, Serve(on, s.waiting, s.want))
  {
    assert s.waiting[0..] == s.waiting;
    ServeLeavesUnmet(on, s.waiting, s.want);
  }

  lemma TrackedAt(s: State, eventSet: map<Tid, Bits>, eventInfo: map<Tid, Flag>, gone: map<Tid, Bits>, n: nat)
    requires Inv(s) && Tracked(s, eventSet, gone, n) && n < |s.waiting| && InfoOk(s, eventInfo)
    ensures var t := s.waiting[n];
            && t in s.want && t in eventSet && eventSet[t] == s.want[t].bits && ValidWant(s.want[t])
            && t in eventInfo && eventInfo[t] == s.want[t].opt && t !in gone && t !in s.got
  {
  }

  ghost predicate InfoOk(s: State, eventInfo: map<Tid, Flag>)
  {
    forall t :: t in s.waiting ==> t in s.want && t in eventInfo && eventInfo[t] == s.want[t].opt
  }

  lemma TrackedNext(s: State, eventSet: map<Tid, Bits>, gone: map<Tid, Bits>, n: nat, g: Bits)
    requires Inv(s) && Tracked(s, eventSet, gone, n) && n < |s.waiting|
    ensures var t := s.waiting[n]; Tracked(s, eventSet[t := g], gone[t := g], n + 1)
    ensures Tracked(s, eventSet, gone, n + 1)
  {
    var t := s.waiting[n];
    assert s.waiting[..n + 1] == s.waiting[..n] + [t];
    assert t !in s.got;
  }

  lemma EndJoined(s: State, eventSet: map<Tid, Bits>, eventInfo: map<Tid, Flag>, gone: map<Tid, Bits>, total: Served, left: seq<Tid>, on: Bits)
    requires Inv(s) && Tracked(s, eventSet, gone, |s.waiting|) && InfoOk(s, eventInfo)
    requires total.left == left && total.got == gone && Unserved(s, total)
    ensures Noted(s.(waiting := left, got := s.got + gone), eventSet, eventInfo)
  {
  }

  /** Who is left was in the list and was not served. */
  ghost predicate Unserved(s: State, total: Served)
  {
    forall t :: t in total.left ==> t in s.waiting && t !in total.got
  }

  lemma RejoinedAll(total: Served, on: Bits, rest: seq<Tid>, want: map<Tid, Want>, left: seq<Tid>, gone: map<Tid, Bits>)
    requires rest == [] && Rejoined(total, Serve(on, rest, want), left, gone)
    ensures total.on == on && total.left == left && total.got == gone
  {
  }

  ghost predicate Errors(error: map<Tid, Err>, s: State)
  {
    AllOk(error, Side(s.waiting, s.got.Keys)) && Fails(error, s.failed)
  }

  /** Whoever a send resumes keeps the error code RT_EOK. */
  lemma ErrorsSend(error: map<Tid, Err>, s: State, bits: Bits)
    requires Inv(s) && Errors(error, s)
    ensures Listed(s) && Errors(error, SendStep(s, bits))
  {
    var s' := SendStep(s, bits);
    ServeLeavesUnmet(s.on + bits, s.waiting, s.want);
    forall t | In(Side(s'.waiting, s'.got.Keys), t) ensures t in error && error[t] == OK {
      assert In(Side(s.waiting, s.got.Keys), t);
    }
  }

  lemma ErrorsRecv(error: map<Tid, Err>, s: State, t: Tid, w: Want)
    requires Errors(error, s) && t !in s.failed && t !in s.waiting && t !in s.got
    ensures Fails(error[t := OK], s.failed) && AllOk(error[t := OK], Side(s.waiting, s.got.Keys))
    ensures Fails(error[t := TIMEOUT], s.failed) && AllOk(error[t := TIMEOUT], Side(s.waiting, s.got.Keys))
    ensures AllOk(error[t := OK], Side(Enqueue(s.waiting, t, s.prio, s.fifo), s.got.Keys))
  {
    var side := Side(s.waiting, s.got.Keys);
    assert !In(side, t);
    assert s.got.Keys - {t} == s.got.Keys;
    hide AllOk, Fails, Enqueue;
    OkSet(error, side, t);
    OkOther(error, side, t, TIMEOUT);
    OkWait(error, side, t, s.prio, s.fifo);
    FailsOther(error, s.failed, t, OK);
    FailsOther(error, s.failed, t, TIMEOUT);
  }

  lemma ErrorsAgain(error: map<Tid, Err>, s: State, t: Tid)
    requires Inv(s) && Errors(error, s) && (t in s.got || t in s.failed)
    ensures t in error && (error[t] != OK <==> t in s.failed) && (t in s.failed ==> error[t] == s.failed[t])
    ensures AllOk(error, Side(s.waiting, (s.got - {t}).Keys)) && Fails(error, s.failed - {t})
  {
    assert t in s.got ==> In(Side(s.waiting, s.got.Keys), t);
    forall x | In(Side(s.waiting, (s.got - {t}).Keys), x) ensures x in error && error[x] == OK {
      assert In(Side(s.waiting, s.got.Keys), x);
    }
  }

  lemma ErrorsExpire(error: map<Tid, Err>, s: State, t: Tid)
    requires Inv(s) && Errors(error, s) && t in s.waiting
    ensures AllOk(error[t := TIMEOUT], Side(Without(s.waiting, t), s.got.Keys)) && Fails(error[t := TIMEOUT], s.failed[t := TIMEOUT])
  {
    forall x | In(Side(Without(s.waiting, t), s.got.Keys), x) ensures x in error && error[x] == OK && x != t {
      assert In(Side(s.waiting, s.got.Keys), x);
    }
  }

  lemma ErrorsReset(error: map<Tid, Err>, s: State)
    requires Inv(s) && Errors(error, s)
    ensures AllOk(Failing(error, s.waiting, ERROR), Side([], s.got.Keys))
    ensures Fails(Failing(error, s.waiting, ERROR), Failing(s.failed, s.waiting, ERROR))
  {
    FailingFails(error, s.failed, s.waiting);
    forall x | In(Side([], s.got.Keys), x) ensures x in Failing(error, s.waiting, ERROR) && Failing(error, s.waiting, ERROR)[x] == OK {
      assert In(Side(s.waiting, s.got.Keys), x);
    }
  }

  lemma NobodyWaits(s: State, on: Bits, eventSet: map<Tid, Bits>, eventInfo: map<Tid, Flag>)
    requires s.waiting == [] && Noted(s, eventSet, eventInfo) && Listed(s)
    ensures Serve(on, s.waiting, s.want) == Served(on, [], map[]) && s.got + map[] == s.got
  {
  }

  lemma NotedGot(s: State, eventSet: map<Tid, Bits>, eventInfo: map<Tid, Flag>, t: Tid, w: Want, b: Bits)
    requires Noted(s, eventSet, eventInfo) && t !in s.waiting && t !in s.got && Met(s.on, w) && w.bits != {}
    ensures Noted(RecvStep(s, t, w, 0), eventSet[t := b], eventInfo[t := w.opt])
  {
  }

  lemma NotedWait(s: State, eventSet: map<Tid, Bits>, eventInfo: map<Tid, Flag>, t: Tid, w: Want, timeout: int)
    requires Noted(s, eventSet, eventInfo) && t !in s.waiting && t !in s.got && !Met(s.on, w) && w.bits != {} && timeout != 0
    ensures Noted(RecvStep(s, t, w, timeout), eventSet[t := w.bits], eventInfo[t := w.opt])
  {
    EnqueueMembers(s.waiting, t, s.prio, s.fifo);
    hide Enqueue;
  }

  lemma RecvFields(s: State, t: Tid, w: Want, timeout: int)
    requires w.bits != {}
    ensures var s' := RecvStep(s, t, w, timeout);
            && s'.prio == s.prio && s'.fifo == s.fifo && s'.got == s.got && s'.failed == s.failed
            && s'.on == (if Met(s.on, w) then Kept(s.on, w) else s.on)
            && s'.waiting == (if Met(s.on, w) || timeout == 0 then s.waiting else Enqueue(s.waiting, t, s.prio, s.fifo))
            && (!Met(s.on, w) && timeout == 0 ==> s' == s)
            && (Met(s.on, w) ==> s' == RecvStep(s, t, w, 0))
  {
    hide Enqueue, Met, Kept;
    if Met(s.on, w) {
    } else if timeout == 0 {
    } else {
    }
  }

  lemma SendFields(s: State, bits: Bits)
    requires Listed(s) && bits != {}
    ensures var s', r := SendStep(s, bits), Serve(s.on + bits, s.waiting, s.want);
            && s'.prio == s.prio && s'.fifo == s.fifo && s'.failed == s.failed
            && s'.on == r.on && s'.waiting == r.left && s'.got == s.got + r.got
            && s' == s.(waiting := r.left, got := s.got + r.got).(on := r.on)
  {
    hide Serve;
  }

  lemma NotedOn(s: State, on: Bits, eventSet: map<Tid, Bits>, eventInfo: map<Tid, Flag>)
    requires Noted(s, eventSet, eventInfo)
    ensures Noted(s.(on := on), eventSet, eventInfo)
  {
  }

  lemma SendNothing(s: State)
    requires Listed(s)
    ensures SendStep(s, {}) == s
  {
  }

  lemma RecvNothing(s: State, t: Tid, w: Want, timeout: int)
    requires w.bits == {}
    ensures RecvStep(s, t, w, timeout) == s
  {
  }

  class Flags {
    const prio: map<Tid, int>
    const fifo: bool
    var on: Bits
    var waiting: seq<Tid>
    var eventSet: map<Tid, Bits>     // thread->event_set
    var eventInfo: map<Tid, Flag>  // thread->event_info
    var error: map<Tid, Err>         // thread->error
    ghost var view: State

    ghost predicate Valid()
      reads this
    {
      && Inv(view) && view.on == on && view.waiting == waiting && view.prio == prio && view.fifo == fifo
      && Noted(view, eventSet, eventInfo) && AllOk(error, Side(waiting, view.got.Keys)) && Fails(error, view.failed)
    }

    constructor (prio: map<Tid, int>, fifo: bool)
      ensures Valid() && view == Start(prio, fifo)
    {
      this.prio, this.fifo := prio, fifo;
      on, waiting, eventSet, eventInfo, error := {}, [], map[], map[], map[];
      view := Start(prio, fifo);
    }

    /** One waiting thread in the search of rt_event_send. */
    method TryOne(t: Tid, ghost w: Want) returns (met: bool)
      requires t in eventSet && eventSet[t] == w.bits && t in eventInfo && eventInfo[t] == w.opt && ValidWant(w)
      modifies `on, `eventSet
      ensures met <==> Met(old(on), w)
      ensures met ==> on == Kept(old(on), w) && eventSet == old(eventSet)[t := Got(old(on), w)]
      ensures !met ==> on == old(on) && eventSet == old(eventSet)
    {
      met := false;
      MetByMask(on, w);
      assert w.bits * on == on * w.bits;
      if eventInfo[t].all {
        if eventSet[t] * on == eventSet[t] { met := true; }
      } else {
        assert eventInfo[t].any;
        if eventSet[t] * on != {} {
          eventSet := eventSet[t := eventSet[t] * on];
          met := true;
        }
      }
      if met {
        SavedIsGot(on, w);
        if eventInfo[t].clear { on := on - eventSet[t]; }
        assert eventSet == old(eventSet)[t := Got(old(on), w)];
      }
    }

    /** The search of rt_event_send over the suspended threads. */
    method Scan() returns (some: bool)
      requires Inv(view) && waiting == view.waiting && Noted(view, eventSet, eventInfo)
      modifies `on, `waiting, `eventSet
      ensures Listed(view)
      ensures var r := Serve(old(on), old(waiting), view.want);
              && on == r.on && waiting == r.left && (some <==> r.got != map[])
              && Noted(view.(waiting := waiting, got := view.got + r.got), eventSet, eventInfo)
    {
      hide Inv, Rejoined, Tracked, Noted, Met, Kept, Got, Serve, Distinct, InfoOk, Unserved;
      StartJoined(view, on, eventSet, eventInfo);
      ghost var list, total, gone := waiting, Serve(on, waiting, view.want), map[];
      hide Listed;
      var left, n := [], 0;
      some := false;
      while n < |waiting|
        invariant n <= |list| && waiting == list && (some <==> gone != map[])
        invariant Rejoined(total, Serve(on, list[n..], view.want), left, gone)
        invariant Tracked(view, eventSet, gone, n)
      {
        var t := waiting[n];
        ghost var w := view.want[t];
        InvDistinct(view);
        ServeOne(on, list, n, view.want, total, left, gone);
        TrackedAt(view, eventSet, eventInfo, gone, n);
        TrackedNext(view, eventSet, gone, n, Got(on, w));
        ghost var g := Got(on, w);
        var met := TryOne(t, w);
        if met {
          gone := gone[t := g];
          some := true;
        } else {
          left := left + [t];
        }
        n := n + 1;
      }
      RejoinedAll(total, on, list[n..], view.want, left, gone);
      EndJoined(view, eventSet, eventInfo, gone, total, left, on);
      waiting := left;
    }

    /** rt_event_send */
    method Send(bits: Bits) returns (r: Err)
      requires Valid()
      modifies this
      ensures Valid() && Listed(old(view)) && view == Apply(old(view), Event.Send(bits))
      ensures r == if bits == {} then ERROR else OK
      ensures bits != {} ==> exists now :: InTurn(old(view), view, bits, now)
    {
      InvDistinct(view);
      hide Inv, Noted, AllOk, Fails, Serve, Listed, SendStep, Distinct, InTurn;
      if bits == {} {
        SendNothing(view);
        return ERROR;
      }
      StepKeeps(view, Event.Send(bits));
      ErrorsSend(error, view, bits);
      SendFields(view, bits);
      on := on + bits;
      ghost var s := SendStep(view, bits);
      if waiting != [] {
        var _ := Scan();
      } else {
        NobodyWaits(view, on, eventSet, eventInfo);
      }
      NotedOn(view.(waiting := s.waiting, got := s.got), s.on, eventSet, eventInfo);
      view := s;
      SendServes(old(view), bits);
      return OK;
    }

    /** Whether the bits a receiver asks for are there. */
    method Check(w: Want) returns (met: bool)
      requires w.opt.all || w.opt.any
      ensures met <==> if w.opt.all then forall k :: k in w.bits ==> k in on else exists k :: k in w.bits && k in on
    {
      MetByMask(on, w);
      met := false;
      if w.opt.all {
        if on * w.bits == w.bits { met := true; }
      } else {
        assert w.opt.any;
        if on * w.bits != {} { met := true; }
      }
    }

    /** The bits are there: take them. */
    method ReceiveNow(t: Tid, w: Want)
      requires Valid() && Enabled(view, Event.Recv(t, w, 0)) && w.bits != {} && Met(on, w)
      modifies this
      ensures Valid() && view == RecvStep(old(view), t, w, 0)
    {
      hide Inv, Noted, AllOk, Fails, Enqueue, RecvStep, Distinct, Met;
      RecvKeeps(view, t, w, 0);
      RecvFields(view, t, w, 0);
      ErrorsRecv(error, view, t, w);
      NotedGot(view, eventSet, eventInfo, t, w, on * w.bits);
      error := error[t := OK];
      eventSet, eventInfo := eventSet[t := on * w.bits], eventInfo[t := w.opt];
      if w.opt.clear { on := on - w.bits; }
      view := RecvStep(view, t, w, 0);
    }

    /** They are not: wait. */
    method Wait(t: Tid, w: Want, timeout: int)
      requires Valid() && Enabled(view, Event.Recv(t, w, timeout)) && w.bits != {} && !Met(on, w) && timeout != 0
      modifies this
      ensures Valid() && view == RecvStep(old(view), t, w, timeout)
    {
      hide Inv, Noted, AllOk, Fails, Enqueue, RecvStep, Distinct, Met;
      RecvKeeps(view, t, w, timeout);
      RecvFields(view, t, w, timeout);
      ErrorsRecv(error, view, t, w);
      NotedWait(view, eventSet, eventInfo, t, w, timeout);
      error := error[t := OK];
      eventSet, eventInfo := eventSet[t := w.bits], eventInfo[t := w.opt];
      waiting := Suspend(waiting, t, prio, fifo);
      view := RecvStep(view, t, w, timeout);
    }

    /** rt_event_recv up to the point where the thread waits. */
    method Recv(t: Tid, w: Want, timeout: int) returns (r: Outcome)
      requires Valid() && Enabled(view, Event.Recv(t, w, timeout))
      modifies this
      ensures Valid() && Listed(old(view)) && view == Apply(old(view), Event.Recv(t, w, timeout)) && r == RecvReply(old(view), w, timeout)
      ensures r.Return? && r.err == OK ==> Enough(old(on), w) && r.bits == (set k | k in old(on) && k in w.bits)
      ensures r.Return? && r.err == OK ==> on == if w.opt.clear then (set k | k in old(on) && k !in w.bits) else old(on)
      ensures r == Blocked <==> t in waiting
    {
      InvDistinct(view);
      RecvMeans(view, t, w, timeout);
      hide Inv, Noted, AllOk, Fails, RecvStep, Listed, Met, Enough;
      if w.bits == {} {
        RecvNothing(view, t, w, timeout);
        return Return(ERROR, {});
      }
      RecvFields(view, t, w, timeout);
      var met := Check(w);
      if met {
        r := Return(OK, on * w.bits);
        ReceiveNow(t, w);
        return;
      }
      if timeout == 0 {
        ErrorsRecv(error, view, t, w);
        error := error[t := TIMEOUT];
        return Return(TIMEOUT, {});
      }
      Wait(t, w, timeout);
      return Blocked;
    }

    /** The thread runs again: with the bits a send found for it, or an error. */
    method RecvAgain(t: Tid) returns (r: Outcome)
      requires Valid() && Enabled(view, Event.RecvAgain(t))
      modifies `view
      ensures Valid() && Listed(old(view)) && view == Apply(old(view), Event.RecvAgain(t))
      ensures t in old(view).got ==> r == Return(OK, old(view).got[t])
      ensures t in old(view).failed ==> r == Return(old(view).failed[t], {})
    {
      InvDistinct(view);
      StepKeeps(view, Event.RecvAgain(t));
      ErrorsAgain(error, view, t);
      if error[t] != OK {
        r := Return(error[t], {});
      } else {
        r := Return(OK, eventSet[t]);
      }
      view := Apply(view, Event.RecvAgain(t));
      hide Inv, AllOk;
    }

    method Expire(t: Tid)
      requires Valid() && Enabled(view, Event.Expire(t))
      modifies this
      ensures Valid() && Listed(old(view)) && view == Apply(old(view), Event.Expire(t))
    {
      InvDistinct(view);
      StepKeeps(view, Event.Expire(t));
      ErrorsExpire(error, view, t);
      hide Inv, AllOk, Fails;
      error := error[t := TIMEOUT];
      waiting := Without(waiting, t);
      view := Apply(view, Event.Expire(t));
    }

    /** RT_IPC_CMD_RESET */
    method Reset()
      requires Valid()
      modifies this
      ensures Valid() && Listed(old(view)) && view == Apply(old(view), Event.Reset)
    {
      InvDistinct(view);
      StepKeeps(view, Event.Reset);
      ErrorsReset(error, view);
      hide Inv, AllOk, Fails, Failing;
      error := ResumeAll(error, waiting);
      waiting := [];
      on := {};
      view := Apply(view, Event.Reset);
    }
  }
}
