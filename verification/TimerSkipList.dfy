/** Timers (src/timer.c): the skip list of pending timers, rt_timer_start,
    rt_timer_stop, rt_timer_check and the next timeout. Ticks are 32-bit and
    wrap; `due` is the true time of a timeout. */
module TimerSkipList {
  import opened Lists

  type Tid = nat

  const TICKS := 0x1_0000_0000
  const RT_TICK_MAX := 0xffff_ffff
  const HALF := 0x7fff_ffff  // RT_TICK_MAX / 2

  type Due = map<Tid, int>
  type Order = map<Tid, nat>

  // ------------------------------------------------------------- wrapped ticks

  /** The unsigned difference of two ticks. */
  function TickDiff(a: nat, b: nat): nat { (a - b) % TICKS }

  /** A true time as the 32-bit counter shows it. */
  function Wrap(t: int): nat { t % TICKS }

  /** a is later than b by less than half the tick range, or earlier by hardly more. */
  ghost predicate Near(a: int, b: int) { -(HALF + 2) <= a - b < HALF }

  /** The comparison of timer.c orders near times correctly, across the wrap. */
  lemma DiffTellsOrder(a: int, b: int)
    requires Near(a, b)
    ensures TickDiff(Wrap(a), Wrap(b)) == 0 <==> a == b
    ensures TickDiff(Wrap(a), Wrap(b)) < HALF <==> a >= b
  {
    var d := TickDiff(Wrap(a), Wrap(b));
    assert d == (a - b) % TICKS;
  }

  /** Of times less than the tick range apart, it orders exactly the near ones correctly. */
  lemma OrderExactly(a: int, b: int)
    requires -TICKS < a - b < TICKS
    ensures (TickDiff(Wrap(a), Wrap(b)) < HALF <==> a >= b) <==> Near(a, b)
  {
    assert TickDiff(Wrap(a), Wrap(b)) == (a - b) % TICKS;
  }

  lemma WrapSum(now: int, i: nat)
    ensures (Wrap(now) + i) % TICKS == Wrap(now + i)
  {
  }

  // ---------------------------------------------------------------------- rows

  /** By true timeout; equal timeouts by the order of starting. */
  predicate Before(due: Due, order: Order, a: Tid, b: Tid)
    requires a in due && b in due && a in order && b in order
  {
    due[a] < due[b] || (due[a] == due[b] && order[a] < order[b])
  }

  predicate Known(row: seq<Tid>, due: Due, order: Order)
  {
    forall i :: 0 <= i < |row| ==> row[i] in due && row[i] in order
  }

  predicate Sorted(row: seq<Tid>, due: Due, order: Order)
  {
    Known(row, due, order) && forall i, j :: 0 <= i < j < |row| ==> Before(due, order, row[i], row[j])
  }

  predicate Sub(a: seq<Tid>, b: seq<Tid>) { forall t :: t in a ==> t in b }

  /** Rows are listed from the sparsest to the full one. */
  predicate Nested(rows: seq<seq<Tid>>)
  {
    forall l, m :: 0 <= l < m < |rows| ==> Sub(rows[l], rows[m])
  }

  /** The full row. */
  function Bottom(rows: seq<seq<Tid>>): seq<Tid> { if rows == [] then [] else rows[|rows| - 1] }

  predicate RowsOk(rows: seq<seq<Tid>>, due: Due, order: Order)
  {
    Nested(rows) && forall l :: 0 <= l < |rows| ==> Sorted(rows[l], due, order)
  }

  /** `k` is the place behind all timers of the row that are due no later than `d`. */
  predicate IsPlace(row: seq<Tid>, due: Due, d: int, k: nat)
    requires forall i :: 0 <= i < |row| ==> row[i] in due
  {
    k <= |row| && (forall i :: 0 <= i < k ==> due[row[i]] <= d) && (k < |row| ==> due[row[k]] > d)
  }

  function InsertAt(row: seq<Tid>, k: nat, t: Tid): seq<Tid>
    requires k <= |row|
  {
    row[..k] + [t] + row[k..]
  }

  lemma {:induction false} WithoutSorted(row: seq<Tid>, t: Tid, due: Due, order: Order)
    requires Sorted(row, due, order)
    ensures Sorted(Without(row, t), due, order)
  {
    if row != [] {
      WithoutSorted(row[1..], t, due, order);
      var rest := Without(row[1..], t);
      forall j | 0 <= j < |rest| ensures Before(due, order, row[0], rest[j]) {
        assert rest[j] in row[1..];
      }
    }
  }

  /** A timer not in the row leaves it alone. */
  lemma {:induction false} WithoutAbsent(row: seq<Tid>, t: Tid)
    requires t !in row
    ensures Without(row, t) == row
  {
    if row != [] { WithoutAbsent(row[1..], t); }
  }

  /** New timers get the highest order number. */
  lemma InsertSorted(row: seq<Tid>, k: nat, t: Tid, due: Due, order: Order)
    requires Sorted(row, due, order) && t in due && t in order && IsPlace(row, due, due[t], k)
    requires forall u :: u in row ==> order[u] < order[t]
    ensures Sorted(InsertAt(row, k, t), due, order)
  {
    var r := InsertAt(row, k, t);
    assert forall i :: 0 <= i < |r| ==> r[i] == if i < k then row[i] else if i == k then t else row[i - 1];
    forall i, j | 0 <= i < j < |r| ensures Before(due, order, r[i], r[j]) {
      if j == k {
        assert row[i] in row;
      } else if i == k && j > k {
        assert due[row[k]] > due[t];
        assert j - 1 > k ==> Before(due, order, row[k], row[j - 1]);
      }
    }
  }

  lemma InsertMembers(row: seq<Tid>, k: nat, t: Tid)
    requires k <= |row|
    ensures forall u :: u in InsertAt(row, k, t) <==> u in row || u == t
  {
    assert row == row[..k] + row[k..];
  }

  /** Main result: an upper row is a subsequence of each row below it: what comes
      later in the one comes later in the other. */
  lemma UpperIsSubsequence(rows: seq<seq<Tid>>, due: Due, order: Order, l: nat, m: nat, i: nat, j: nat)
    returns (p: nat, q: nat)
    requires RowsOk(rows, due, order) && l < m < |rows| && i < j < |rows[l]|
    ensures p < q < |rows[m]| && rows[m][p] == rows[l][i] && rows[m][q] == rows[l][j]
  {
    assert Sub(rows[l], rows[m]) && Sorted(rows[l], due, order) && Sorted(rows[m], due, order);
    assert rows[l][i] in rows[m] && rows[l][j] in rows[m];
    p :| 0 <= p < |rows[m]| && rows[m][p] == rows[l][i];
    q :| 0 <= q < |rows[m]| && rows[m][q] == rows[l][j];
    assert Before(due, order, rows[m][p], rows[m][q]);
  }

  // ------------------------------------------------------------------ the timers

  /** How many upper rows a timer joins: two bits of the counter per row. */
  function Height(tst: nat, n: nat): (h: nat)
    ensures h <= n
  {
    if n > 0 && tst % 4 == 0 then 1 + Height(tst / 4, n - 1) else 0
  }

  /** All rows without `t`. */
  function RowsWithout(rows: seq<seq<Tid>>, t: Tid): (r: seq<seq<Tid>>)
    ensures |r| == |rows| && forall l :: 0 <= l < |r| ==> r[l] == Without(rows[l], t)
  {
    seq(|rows|, l requires 0 <= l < |rows| => Without(rows[l], t))
  }

  lemma RowsWithoutOk(rows: seq<seq<Tid>>, t: Tid, due: Due, order: Order)
    requires RowsOk(rows, due, order)
    ensures RowsOk(RowsWithout(rows, t), due, order)
    ensures forall l, u :: 0 <= l < |rows| ==> (u in RowsWithout(rows, t)[l] <==> u in rows[l] && u != t)
  {
    var r := RowsWithout(rows, t);
    forall l | 0 <= l < |rows|
      ensures Sorted(r[l], due, order) && forall u :: u in r[l] <==> u in rows[l] && u != t
    {
      WithoutSorted(rows[l], t, due, order);
    }
    forall l, m | 0 <= l < m < |r| ensures Sub(r[l], r[m]) {
      assert Sub(rows[l], rows[m]);
    }
  }

  /** Rows from `from` on get `t` at the places found for it. */
  ghost predicate Inserted(rows: seq<seq<Tid>>, r: seq<seq<Tid>>, places: seq<nat>, t: Tid, from: nat)
  {
    && |r| == |rows| == |places|
    && (forall l :: 0 <= l < |rows| ==> places[l] <= |rows[l]|)
    && forall l :: 0 <= l < |rows| ==> r[l] == if l >= from then InsertAt(rows[l], places[l], t) else rows[l]
  }

  ghost predicate Places(rows: seq<seq<Tid>>, due: Due, order: Order, d: int, places: seq<nat>)
    requires RowsOk(rows, due, order)
  {
    |places| <= |rows| && forall l :: 0 <= l < |places| ==> Known(rows[l], due, order) && IsPlace(rows[l], due, d, places[l])
  }

  lemma NothingInserted(rows: seq<seq<Tid>>, places: seq<nat>, t: Tid)
    requires |rows| == |places| && forall l :: 0 <= l < |rows| ==> places[l] <= |rows[l]|
    ensures Inserted(rows, rows, places, t, |rows|)
  {
  }

  lemma InsertedStep(rows: seq<seq<Tid>>, r: seq<seq<Tid>>, places: seq<nat>, t: Tid, from: nat)
    requires Inserted(rows, r, places, t, from) && 0 < from <= |rows|
    ensures places[from - 1] <= |r[from - 1]|
    ensures var r' := r[from - 1 := InsertAt(r[from - 1], places[from - 1], t)];
            Inserted(rows, r', places, t, from - 1) && places[from - 1] <= |r'[from - 1]|
  {
  }

  lemma InsertedOk(rows: seq<seq<Tid>>, r: seq<seq<Tid>>, places: seq<nat>, t: Tid, from: nat, due: Due, order: Order)
    requires RowsOk(rows, due, order) && t in due && t in order && Places(rows, due, order, due[t], places)
    requires Inserted(rows, r, places, t, from)
    requires forall l, u :: 0 <= l < |rows| && u in rows[l] ==> u in order && order[u] < order[t]
    ensures RowsOk(r, due, order)
    ensures forall l, u :: 0 <= l < |r| ==> (u in r[l] <==> u in rows[l] || (u == t && l >= from))
  {
    forall l | 0 <= l < |rows|
      ensures Sorted(r[l], due, order) && forall u :: u in r[l] <==> u in rows[l] || (u == t && l >= from)
    {
      assert Sorted(rows[l], due, order);
      if l >= from {
        InsertSorted(rows[l], places[l], t, due, order);
        InsertMembers(rows[l], places[l], t);
      }
    }
    forall l, m | 0 <= l < m < |r| ensures Sub(r[l], r[m]) {
      assert Sub(rows[l], rows[m]);
    }
  }

  lemma PlacesInRange(rows: seq<seq<Tid>>, due: Due, order: Order, d: int, places: seq<nat>)
    requires RowsOk(rows, due, order) && Places(rows, due, order, d, places)
    ensures forall l :: 0 <= l < |places| ==> places[l] <= |rows[l]|
  {
  }

  lemma PendingKnown(rows: seq<seq<Tid>>, due: Due, order: Order)
    requires RowsOk(rows, due, order)
    ensures forall u :: u in Bottom(rows) ==> u in due && u in order
  {
    if rows != [] { assert Sorted(Bottom(rows), due, order); }
  }

  lemma PendingIsLargest(rows: seq<seq<Tid>>, t: Tid, due: Due, order: Order)
    requires RowsOk(rows, due, order) && rows != [] && t in order
    requires forall u :: u in Bottom(rows) ==> u in order && order[u] < order[t]
    ensures forall l, u :: 0 <= l < |rows| && u in rows[l] ==> u in order && order[u] < order[t]
  {
    forall l, u | 0 <= l < |rows| && u in rows[l] ensures u in order && order[u] < order[t] {
      if l < |rows| - 1 { assert Sub(rows[l], rows[|rows| - 1]); }
    }
  }

  /** No timer before `start` is due later than `d`. */
  predicate Entry(row: seq<Tid>, due: Due, d: int, start: nat)
  {
    start <= |row| && forall i :: 0 <= i < start ==> row[i] in due && due[row[i]] <= d
  }

  lemma RowFacts(rows: seq<seq<Tid>>, due: Due, order: Order, l: nat)
    requires RowsOk(rows, due, order) && l < |rows|
    ensures Sorted(rows[l], due, order) && forall u :: u in rows[l] ==> u in Bottom(rows)
  {
    if l < |rows| - 1 { assert Sub(rows[l], rows[|rows| - 1]); }
  }

  lemma PlacesMore(rows: seq<seq<Tid>>, due: Due, order: Order, d: int, places: seq<nat>, k: nat)
    requires RowsOk(rows, due, order) && Places(rows, due, order, d, places) && |places| < |rows|
    requires Known(rows[|places|], due, order) && IsPlace(rows[|places|], due, d, k)
    ensures Places(rows, due, order, d, places + [k])
  {
  }

  /** The last timer passed in one row is found in the row below. */
  lemma PassedBelow(rows: seq<seq<Tid>>, due: Due, order: Order, d: int, l: nat, k: nat)
    requires RowsOk(rows, due, order) && l + 1 < |rows| && Known(rows[l], due, order) && IsPlace(rows[l], due, d, k) && k > 0
    ensures rows[l][k - 1] in rows[l + 1] && due[rows[l][k - 1]] <= d
  {
    assert Sub(rows[l], rows[l + 1]) && rows[l][k - 1] in rows[l];
  }

  lemma EntryBelow(row: seq<Tid>, due: Due, order: Order, d: int, j: nat)
    requires Sorted(row, due, order) && j < |row| && due[row[j]] <= d
    ensures Entry(row, due, d, j + 1)
  {
    assert forall i :: 0 <= i < j ==> Before(due, order, row[i], row[j]);
  }

  /** Setting the time of a timer that is in no row disturbs no row. */
  lemma RetimeOk(rows: seq<seq<Tid>>, t: Tid, due: Due, order: Order, d: int, o: nat)
    requires RowsOk(rows, due, order) && forall l :: 0 <= l < |rows| ==> t !in rows[l]
    ensures RowsOk(rows, due[t := d], order[t := o])
  {
    forall l | 0 <= l < |rows| ensures Sorted(rows[l], due[t := d], order[t := o]) {
      assert Sorted(rows[l], due, order);
      assert forall i :: 0 <= i < |rows[l]| ==> rows[l][i] != t;
    }
  }

  class Timers {
    const levels: nat
    var rows: seq<seq<Tid>>
    var timeoutTick: map<Tid, nat>
    var initTick: map<Tid, nat>
    var active: set<Tid>
    var periodic: set<Tid>
    var randomNr: nat
    ghost var due: Due
    ghost var order: Order
    ghost var starts: nat

    /** Every row is sorted by true time with ties in starting order, every row
        holds the timers of the rows above, and the active timers are those of
        the full row. */
    ghost predicate Valid()
      reads this
    {
      && levels > 0 && |rows| == levels && RowsOk(rows, due, order)
      && due.Keys == order.Keys == timeoutTick.Keys <= initTick.Keys
      && (forall t :: t in due ==> timeoutTick[t] == Wrap(due[t]) && order[t] < starts)
      && (forall t :: t in active <==> t in Bottom(rows))
    }

    /** The full row: all pending timers. */
    ghost function Pending(): seq<Tid>
      requires Valid()
      reads this
    {
      Bottom(rows)
    }

    /** Every pending timer is still to come, and less than half the tick range away. */
    ghost predicate Timely(now: int)
      requires Valid()
      reads this
    {
      forall u :: u in Pending() ==> u in due && now <= due[u] < now + HALF
    }

    /** Delays are below half the tick range, as rt_timer_start asserts, and periods above
        zero. */
    ghost predicate Sane()
      reads this
    {
      forall t :: t in initTick ==> initTick[t] < HALF && (t in periodic ==> initTick[t] > 0)
    }

    constructor (levels: nat)
      requires levels > 0
      ensures Valid() && this.levels == levels && Pending() == [] && initTick == map[]
    {
      this.levels := levels;
      rows := seq(levels, _ => []);
      timeoutTick, initTick, active, periodic, randomNr := map[], map[], {}, {}, 0;
      due, order, starts := map[], map[], 0;
    }

    method Init(t: Tid, time: nat, isPeriodic: bool)
      requires Valid() && t !in initTick
      modifies this
      ensures Valid() && initTick == old(initTick)[t := time] && rows == old(rows) && due == old(due) && order == old(order)
      ensures periodic == if isPeriodic then old(periodic) + {t} else old(periodic) - {t}
      ensures active == old(active)
    {
      initTick := initTick[t := time];
      periodic := if isPeriodic then periodic + {t} else periodic - {t};
    }

    /** Unlinks a timer from every row. */
    method Remove(t: Tid)
      requires Valid()
      modifies this`rows, this`active
      ensures Valid() && active == old(active) - {t}
      ensures forall l :: 0 <= l < levels ==> rows[l] == Without(old(rows)[l], t)
      ensures forall l, u :: 0 <= l < levels ==> (u in rows[l] <==> u in old(rows)[l] && u != t)
    {
      RowsWithoutOk(rows, t, due, order);
      hide RowsOk, Without, RowsWithout;
      TakeOut(t);
      assert forall u :: u in Bottom(rows) <==> u in Bottom(old(rows)) && u != t;
      active := active - {t};
    }

    /** The loop over the rows. */
    method TakeOut(t: Tid)
      requires |rows| == levels
      modifies this`rows
      ensures rows == RowsWithout(old(rows), t)
    {
      hide Without;
      var i := 0;
      while i < levels
        invariant 0 <= i <= levels == |rows|
        invariant forall l :: 0 <= l < levels ==> rows[l] == if l < i then Without(old(rows)[l], t) else old(rows)[l]
      {
        rows := rows[i := Without(rows[i], t)];
        i := i + 1;
      }
    }

    /** rt_timer_stop: an error for a timer that is not active. */
    method Stop(t: Tid) returns (ok: bool)
      requires Valid()
      modifies this`rows, this`active
      ensures Valid() && ok == (t in old(active)) && active == old(active) - {t}
      ensures Pending() == Without(old(Pending()), t)
    {
      if t !in active {
        WithoutAbsent(rows[levels - 1], t);
        return false;
      }
      Remove(t);
      ok := true;
    }

    /** The walk along one row, from a place that is not too far. */
    method Scan(row: seq<Tid>, start: nat, tick: nat, ghost d: int) returns (k: nat)
      requires Sorted(row, due, order) && Entry(row, due, d, start) && tick == Wrap(d)
      requires forall u :: u in row ==> u in timeoutTick && timeoutTick[u] == Wrap(due[u]) && Near(due[u], d)
      ensures IsPlace(row, due, d, k)
    {
      k := start;
      while k < |row|
        invariant k <= |row| && forall i :: 0 <= i < k ==> due[row[i]] <= d
      {
        DiffTellsOrder(due[row[k]], d);
        var diff := TickDiff(timeoutTick[row[k]], tick);
        if diff != 0 && diff < HALF { break; }
        k := k + 1;
      }
    }

    /** The position of a timer in a row. */
    method Find(row: seq<Tid>, t: Tid) returns (k: nat)
      requires t in row
      ensures k < |row| && row[k] == t
    {
      k := 0;
      while row[k] != t
        invariant k < |row| && forall i :: 0 <= i < k ==> row[i] != t
        decreases |row| - k
      {
        k := k + 1;
      }
    }

    /** The search of rt_timer_start: each row is entered below the last timer
        passed in the row above it. */
    method Search(tick: nat, ghost d: int) returns (places: seq<nat>)
      requires Valid() && tick == Wrap(d) && forall u :: u in Pending() ==> u in due && Near(due[u], d)
      ensures |places| == levels && Places(rows, due, order, d, places)
    {
      places := [];
      var start: nat := 0;
      while |places| < levels
        invariant |places| <= levels && Places(rows, due, order, d, places)
        invariant |places| < levels ==> Entry(rows[|places|], due, d, start)
      {
        hide RowsOk, Places, IsPlace, Sub;
        var l := |places|;
        RowFacts(rows, due, order, l);
        var k := Scan(rows[l], start, tick, d);
        PlacesMore(rows, due, order, d, places, k);
        places := places + [k];
        start := 0;
        if l + 1 < levels && k > 0 {
          RowFacts(rows, due, order, l + 1);
          PassedBelow(rows, due, order, d, l, k);
          var j := Find(rows[l + 1], rows[l][k - 1]);
          EntryBelow(rows[l + 1], due, order, d, j);
          start := j + 1;
        }
      }
    }

    /** rt_timer_start. */
    method Start(t: Tid, tick: nat, ghost now: int)
      requires Valid() && t in initTick && initTick[t] < HALF && tick == Wrap(now)
      requires forall u :: u in Pending() && u != t ==> u in due && Near(due[u], now + initTick[t])
      modifies this
      ensures Valid() && initTick == old(initTick) && periodic == old(periodic)
      ensures active == old(active) + {t}
      ensures forall u :: u in Pending() <==> u in old(Pending()) || u == t
      ensures due == old(due)[t := now + initTick[t]] && order == old(order)[t := old(starts)] && starts == old(starts) + 1
    {
      hide RowsOk, Places;
      Remove(t);
      SetTime(t, tick, now);
      PendingKnown(rows, due, order);
      var places := Search(timeoutTick[t], due[t]);
      randomNr := (randomNr + 1) % TICKS;
      Link(t, places);
    }

    /** Gives a timer that is not linked its timeout. */
    method SetTime(t: Tid, tick: nat, ghost now: int)
      requires Valid() && t in initTick && tick == Wrap(now) && forall l :: 0 <= l < levels ==> t !in rows[l]
      modifies this`timeoutTick, this`due, this`order, this`starts
      ensures Valid() && timeoutTick == old(timeoutTick)[t := Wrap(now + initTick[t])]
      ensures due == old(due)[t := now + initTick[t]] && order == old(order)[t := old(starts)] && starts == old(starts) + 1
    {
      hide RowsOk;
      WrapSum(now, initTick[t]);
      RetimeOk(rows, t, due, order, now + initTick[t], starts);
      timeoutTick := timeoutTick[t := (tick + initTick[t]) % TICKS];
      due, order, starts := due[t := now + initTick[t]], order[t := starts], starts + 1;
    }

    /** Links a timer into the full row and, as the counter says, into rows above. */
    method Link(t: Tid, places: seq<nat>)
      requires Valid() && t in due && |places| == levels && Places(rows, due, order, due[t], places)
      requires forall l :: 0 <= l < levels ==> t !in rows[l]
      requires forall u :: u in Pending() ==> u in order && order[u] < order[t]
      modifies this`rows, this`active
      ensures Valid() && active == old(active) + {t}
      ensures forall u :: u in Pending() <==> u in old(Pending()) || u == t
      ensures forall l :: 0 <= l < levels ==> (t in rows[l] <==> l >= levels - 1 - Height(randomNr, levels - 1))
    {
      hide RowsOk, Places, Inserted, InsertAt;
      ghost var rows0 := rows;
      PlacesInRange(rows, due, order, due[t], places);
      PendingIsLargest(rows, t, due, order);
      NothingInserted(rows, places, t);
      var l, tst := levels - 1, randomNr;
      InsertedStep(rows0, rows, places, t, levels);
      rows := rows[l := InsertAt(rows[l], places[l], t)];
      ghost var h := 0;
      while l > 0 && tst % 4 == 0
        invariant 0 <= l < levels && h == levels - 1 - l && active == old(active)
        invariant |rows| == levels && places[l] <= |rows[l]| && Inserted(rows0, rows, places, t, l)
        invariant Height(randomNr, levels - 1) == h + Height(tst, l)
      {
        InsertedStep(rows0, rows, places, t, l);
        l := l - 1;
        rows := rows[l := InsertAt(rows[l], places[l], t)];
        tst, h := tst / 4, h + 1;
      }
      InsertedOk(rows0, rows, places, t, l, due, order);
      assert forall u :: u in Bottom(rows) <==> u in Bottom(rows0) || u == t;
      active := active + {t};
    }

    /** The next timeout is that of the first pending timer: no other is earlier. */
    method NextTimeout() returns (tick: nat)
      requires Valid()
      ensures Pending() == [] ==> tick == RT_TICK_MAX
      ensures Pending() != [] ==> exists t :: t in Pending() && tick == Wrap(due[t]) && forall u :: u in Pending() ==> due[t] <= due[u]
    {
      tick := RT_TICK_MAX;
      if rows[levels - 1] != [] {
        tick := timeoutTick[rows[levels - 1][0]];
        assert Sorted(rows[levels - 1], due, order) && rows[levels - 1][0] in Pending();
      }
    }

    /** rt_timer_check, for callbacks that do not touch timers. `fired` is the
        sequence of calls, `local` the function's own list when it returns.
        Main result: the timers that were due are called once each, in order of
        timeout with ties in starting order; periodic ones are pending again, and
        no timer that is due is left. */
    method Check(tick: nat, ghost now: int) returns (fired: seq<Tid>, local: seq<Tid>)
      requires Valid() && tick == Wrap(now) && Window(Pending(), due, now, periodic, initTick)
      modifies this
      ensures Valid() && initTick == old(initTick) && periodic == old(periodic)
      ensures fired == old(Pending())[..Leading(old(Pending()), old(due), now)]
      ensures Progress(old(Pending()), old(due), old(order), Pending(), due, order, |fired|, now, periodic, initTick)
      ensures forall u :: u in Pending() ==> u in due && due[u] > now
      ensures local == Leftover(fired, periodic) && forall u :: u in local <==> u in fired && u !in periodic
      ensures ExactlyDue(old(Pending()), old(due), old(order), now, fired)
    {
      hide RowsOk, Sorted, Progress, Window, IsPlace, Leading, Leftover, ExactlyDue;
      ghost var p0, due0, order0 := Pending(), due, order;
      ghost var k := Leading(p0, due0, now);
      RowFacts(rows, due, order, levels - 1);
      EntryRow(p0, due0, order0, now, periodic, initTick);
      fired, local := [], [];
      ghost var i := 0;
      while Bottom(rows) != []
        invariant Valid() && initTick == old(initTick) && periodic == old(periodic)
        invariant 0 <= i <= k && fired == p0[..i] && local == Leftover(fired, periodic)
        invariant Progress(p0, due0, order0, Pending(), due, order, i, now, periodic, initTick)
        decreases k - i
      {
        var t := Bottom(rows)[0];
        HeadIsNext(p0, due0, order0, rows, due, order, i, k, now, periodic, initTick);
        DiffTellsOrder(now, due[t]);
        if TickDiff(tick, timeoutTick[t]) >= HALF { break; }
        FireOne(t, tick, now, p0, due0, order0, i);
        local := [t] + local;
        if t in periodic { local := local[1..]; }
        LeftoverMore(fired, t, periodic);
        fired := fired + [t];
        i := i + 1;
      }
      NoneLeft(p0, due0, order0, rows, due, order, i, k, now, periodic, initTick);
      FiredAreDue(p0, due0, order0, now);
      LeftoverMembers(fired, periodic);
    }

    /** Takes the first timer off the rows and starts it again if it is periodic. */
    method FireOne(t: Tid, tick: nat, ghost now: int, ghost p0: seq<Tid>, ghost due0: Due, ghost order0: Order, ghost i: nat)
      requires Valid() && tick == Wrap(now) && i < |p0| && t == p0[i] && t in Pending()
      requires Progress(p0, due0, order0, Pending(), due, order, i, now, periodic, initTick)
      requires Window(p0, due0, now, periodic, initTick) && Sorted(p0, due0, order0) && due0[t] <= now && t in due
      modifies this
      ensures Valid() && initTick == old(initTick) && periodic == old(periodic)
      ensures Progress(p0, due0, order0, Pending(), due, order, i + 1, now, periodic, initTick)
    {
      hide RowsOk, Sorted, Window, Progress;
      RestartNear(p0, due0, order0, Pending(), due, order, i, now, periodic, initTick);
      Remove(t);
      if t in periodic {
        Start(t, tick, now);
      }
      AfterOne(p0, due0, order0, old(Pending()), old(due), old(order), Pending(), due, order, i, now, periodic, initTick);
    }
  }

  // --------------------------------------------------------------------- expiry

  /** How many timers at the front of a row are due. */
  function Leading(row: seq<Tid>, due: Due, now: int): (k: nat)
    ensures k <= |row|
  {
    if row != [] && row[0] in due && due[row[0]] <= now then 1 + Leading(row[1..], due, now) else 0
  }

  lemma {:induction false} LeadingIsPlace(row: seq<Tid>, due: Due, order: Order, now: int)
    requires Sorted(row, due, order)
    ensures IsPlace(row, due, now, Leading(row, due, now))
    ensures forall i :: Leading(row, due, now) <= i < |row| ==> due[row[i]] > now
  {
    if row != [] && due[row[0]] <= now {
      LeadingIsPlace(row[1..], due, order, now);
      assert forall i :: 1 <= i < |row| ==> row[i] == row[1..][i - 1];
    } else if row != [] {
      assert forall i :: 1 <= i < |row| ==> Before(due, order, row[0], row[i]);
    }
  }

  /** One-shot timers that fired stay on the function's own list. */
  function Leftover(fired: seq<Tid>, periodic: set<Tid>): seq<Tid>
  {
    if fired == [] then []
    else
      var n := |fired| - 1;
      if fired[n] in periodic then Leftover(fired[..n], periodic) else [fired[n]] + Leftover(fired[..n], periodic)
  }

  lemma {:induction false} LeftoverMembers(fired: seq<Tid>, periodic: set<Tid>)
    ensures forall u :: u in Leftover(fired, periodic) <==> u in fired && u !in periodic
  {
    if fired != [] {
      LeftoverMembers(fired[..|fired| - 1], periodic);
      assert fired == fired[..|fired| - 1] + [fired[|fired| - 1]];
    }
  }

  /** Of the timers that were pending, the ones called are those whose time has come, each
      once, earlier ones first and those of the same time in starting order. */
  ghost predicate ExactlyDue(p0: seq<Tid>, due0: Due, order0: Order, now: int, fired: seq<Tid>)
  {
    && (forall u :: u in p0 ==> u in due0 && (u in fired <==> due0[u] <= now)) && (forall u :: u in fired ==> u in p0)
    && Sorted(fired, due0, order0)
  }

  lemma FiredAreDue(p0: seq<Tid>, due0: Due, order0: Order, now: int)
    requires Sorted(p0, due0, order0)
    ensures ExactlyDue(p0, due0, order0, now, p0[..Leading(p0, due0, now)])
  {
    LeadingIsPlace(p0, due0, order0, now);
    var fired := p0[..Leading(p0, due0, now)];
    hide Leading;
    forall u | u in p0 ensures u in due0 && (u in fired <==> due0[u] <= now) {
      var j :| 0 <= j < |p0| && p0[j] == u;
      if due0[u] <= now { assert fired[j] == u; }
    }
  }

  lemma LeftoverMore(fired: seq<Tid>, t: Tid, periodic: set<Tid>)
    ensures Leftover(fired + [t], periodic) ==
            if t in periodic then Leftover(fired, periodic) else [t] + Leftover(fired, periodic)
  {
    assert (fired + [t])[..|fired|] == fired;
  }

  /** The times that rt_timer_check compares are near enough, and the periods of
      the timers that it starts again are neither zero nor too long. */
  ghost predicate Window(p0: seq<Tid>, due0: Due, now: int, periodic: set<Tid>, initTick: map<Tid, nat>)
  {
    && (forall u :: u in p0 ==> u in due0 && Near(now, due0[u]))
    && forall t :: t in p0 && t in due0 && due0[t] <= now && t in periodic ==>
         t in initTick && 0 < initTick[t] < HALF && forall u :: u in p0 && u in due0 ==> Near(due0[u], now + initTick[t])
  }

  /** After the first `i` timers of `p0` have fired: the others are pending as they
      were, and the periodic ones among the fired are pending for one period on. */
  ghost predicate Progress(p0: seq<Tid>, due0: Due, order0: Order, p: seq<Tid>, due: Due, order: Order, i: nat, now: int,
                           periodic: set<Tid>, initTick: map<Tid, nat>)
  {
    && i <= |p0|
    && (forall u :: u in p <==> u in p0[i..] || (u in p0[..i] && u in periodic))
    && (forall u :: u in p0[i..] ==> u in due && u in due0 && u in order && u in order0)
    && (forall u :: u in p0[i..] ==> due[u] == due0[u] && order[u] == order0[u])
    && (forall u :: u in p0[..i] && u in periodic ==> u in due && u in initTick && initTick[u] < HALF)
    && (forall u :: u in p0[..i] && u in periodic ==> due[u] == now + initTick[u] > now)
  }

  lemma EntryRow(p0: seq<Tid>, due0: Due, order0: Order, now: int, periodic: set<Tid>, initTick: map<Tid, nat>)
    requires Sorted(p0, due0, order0)
    ensures forall u :: u in p0 ==> u in due0 && u in order0
    ensures Progress(p0, due0, order0, p0, due0, order0, 0, now, periodic, initTick)
    ensures Leftover([], periodic) == [] && Leading(p0, due0, now) <= |p0|
    ensures forall j :: 0 <= j < |p0| ==> p0[j] in due0
    ensures forall j :: 0 <= j < Leading(p0, due0, now) ==> due0[p0[j]] <= now
    ensures forall j :: Leading(p0, due0, now) <= j < |p0| ==> due0[p0[j]] > now
  {
    assert p0[0..] == p0;
    LeadingIsPlace(p0, due0, order0, now);
  }

  /** The first pending timer is the next one of the entry row, as long as that one
      is due; after that nothing pending is due. */
  lemma HeadIsNext(p0: seq<Tid>, due0: Due, order0: Order, rows: seq<seq<Tid>>, due: Due, order: Order, i: nat, k: nat, now: int,
                   periodic: set<Tid>, initTick: map<Tid, nat>)
    requires RowsOk(rows, due, order) && Bottom(rows) != [] && Sorted(p0, due0, order0)
    requires i <= k <= |p0| && (forall j :: 0 <= j < k ==> due0[p0[j]] <= now) && (forall j :: k <= j < |p0| ==> due0[p0[j]] > now)
    requires Progress(p0, due0, order0, Bottom(rows), due, order, i, now, periodic, initTick)
    requires Window(p0, due0, now, periodic, initTick)
    ensures Bottom(rows)[0] in due && Near(now, due[Bottom(rows)[0]])
    ensures i < k ==> Bottom(rows)[0] == p0[i] && due[p0[i]] <= now
    ensures i == k ==> due[Bottom(rows)[0]] > now
  {
    var p := Bottom(rows);
    var t := p[0];
    assert Sorted(p, due, order) && t in p;
    assert forall u :: u in p0[i..] ==> u in p0;
    if i < k {
      assert p0[i] in p0[i..];
      FirstComesFirst(p0, due0, order0, i);
      FirstComesFirst(p, due, order, 0);
      assert p[0..] == p;
    } else {
      forall u | u in p0[i..] ensures due0[u] > now {
        var j :| i <= j < |p0| && p0[j] == u;
      }
    }
  }

  lemma FirstComesFirst(row: seq<Tid>, due: Due, order: Order, i: nat)
    requires Sorted(row, due, order) && i < |row|
    ensures forall u :: u in row[i..] && u != row[i] ==> u in due && u in order && Before(due, order, row[i], u)
  {
    forall u | u in row[i..] && u != row[i] ensures u in due && u in order && Before(due, order, row[i], u) {
      var j :| i <= j < |row| && row[j] == u;
    }
  }

  lemma NoneLeft(p0: seq<Tid>, due0: Due, order0: Order, rows: seq<seq<Tid>>, due: Due, order: Order, i: nat, k: nat, now: int,
                 periodic: set<Tid>, initTick: map<Tid, nat>)
    requires RowsOk(rows, due, order) && Sorted(p0, due0, order0)
    requires i <= k <= |p0| && (forall j :: 0 <= j < k ==> due0[p0[j]] <= now) && (forall j :: k <= j < |p0| ==> due0[p0[j]] > now)
    requires Progress(p0, due0, order0, Bottom(rows), due, order, i, now, periodic, initTick)
    requires Window(p0, due0, now, periodic, initTick)
    requires Bottom(rows) == [] || (Bottom(rows)[0] in due && due[Bottom(rows)[0]] > now)
    ensures i == k && forall u :: u in Bottom(rows) ==> u in due && due[u] > now
  {
    assert i < k ==> p0[i] in Bottom(rows) by { assert i < k ==> p0[i] in p0[i..]; }
    if Bottom(rows) != [] {
      HeadIsNext(p0, due0, order0, rows, due, order, i, k, now, periodic, initTick);
    }
    forall u | u in Bottom(rows) ensures u in due && due[u] > now {
      if u in p0[i..] {
        var j :| i <= j < |p0| && p0[j] == u;
      }
    }
  }

  /** A periodic timer that fires can be started again: its new time is near. */
  lemma RestartNear(p0: seq<Tid>, due0: Due, order0: Order, p: seq<Tid>, due: Due, order: Order, i: nat, now: int,
                    periodic: set<Tid>, initTick: map<Tid, nat>)
    requires Progress(p0, due0, order0, p, due, order, i, now, periodic, initTick) && i < |p0|
    requires Window(p0, due0, now, periodic, initTick) && due0[p0[i]] <= now
    ensures p0[i] in periodic ==> p0[i] in initTick && 0 < initTick[p0[i]] < HALF
    ensures p0[i] in periodic ==> forall u :: u in p && u != p0[i] ==> u in due && Near(due[u], now + initTick[p0[i]])
  {
    var t := p0[i];
    assert t in p0;
    if t in periodic {
      forall u | u in p && u != t ensures u in due && Near(due[u], now + initTick[t]) {
        if u in p0[i..] { assert u in p0; }
      }
    }
  }

  lemma AfterOne(p0: seq<Tid>, due0: Due, order0: Order, p: seq<Tid>, due: Due, order: Order,
                 p': seq<Tid>, due': Due, order': Order, i: nat, now: int, periodic: set<Tid>, initTick: map<Tid, nat>)
    requires Sorted(p0, due0, order0) && i < |p0| && due0[p0[i]] <= now && Window(p0, due0, now, periodic, initTick)
    requires Progress(p0, due0, order0, p, due, order, i, now, periodic, initTick)
    requires forall u :: u in p' <==> (u in p && u != p0[i]) || (u == p0[i] && u in periodic)
    requires p0[i] in periodic ==> p0[i] in initTick && p0[i] in due' && due'[p0[i]] == now + initTick[p0[i]]
    requires forall u :: u != p0[i] ==> (u in due <==> u in due') && (u in due ==> due'[u] == due[u])
    requires forall u :: u != p0[i] ==> (u in order <==> u in order') && (u in order ==> order'[u] == order[u])
    ensures Progress(p0, due0, order0, p', due', order', i + 1, now, periodic, initTick)
  {
    var t := p0[i];
    assert p0[i..] == [t] + p0[i + 1..] && p0[..i + 1] == p0[..i] + [t];
    assert t in p0;
    var later := p0[i + 1..];
    forall u | u in later ensures u != t {
      var j :| 0 <= j < |later| && later[j] == u;
      assert Before(due0, order0, p0[i], p0[i + 1 + j]);
    }
    forall u | u in p0[..i] ensures u != t {
      var j :| 0 <= j < i && p0[j] == u;
      assert Before(due0, order0, p0[j], p0[i]);
    }
  }

  // ------------------------------------------------------------------ runs of timers

  datatype Op = Made(t: Tid, time: nat, isPeriodic: bool) | Started(t: Tid) | Stopped(t: Tid) | Ticked

  predicate OpOk(op: Op) { op.Made? ==> op.time < HALF && (op.isPeriodic ==> op.time > 0) }

  function Ticks(ops: seq<Op>): nat { if ops == [] then 0 else Ticks(ops[..|ops| - 1]) + if ops[|ops| - 1].Ticked? then 1 else 0 }

  /** With a check at every tick, what a check finds is in its window. */
  lemma WindowAtTick(p: seq<Tid>, due: Due, now: int, periodic: set<Tid>, initTick: map<Tid, nat>)
    requires forall u :: u in p ==> u in due && u in initTick && now - 1 <= due[u] < now - 1 + HALF
    requires forall t :: t in initTick ==> initTick[t] < HALF && (t in periodic ==> initTick[t] > 0)
    ensures Window(p, due, now, periodic, initTick)
  {
  }

  /** And what it leaves is timely. */
  lemma TimelyAfter(p0: seq<Tid>, due0: Due, order0: Order, p: seq<Tid>, due: Due, order: Order, i: nat, now: int,
                    periodic: set<Tid>, initTick: map<Tid, nat>)
    requires Progress(p0, due0, order0, p, due, order, i, now, periodic, initTick)
    requires forall u :: u in p0 ==> u in due0 && due0[u] < now - 1 + HALF
    requires forall u :: u in p ==> u in due && due[u] > now
    ensures forall u :: u in p ==> now <= due[u] < now + HALF
  {
    forall u | u in p ensures due[u] < now + HALF {
      if u in p0[i..] { assert u in p0; }
    }
  }

  /** The tick comes, and rt_timer_check with it. */
  method Advance(timers: Timers, tick: nat, ghost now: int)
    requires timers.Valid() && timers.Timely(now - 1) && timers.Sane() && tick == Wrap(now)
    modifies timers
    ensures timers.Valid() && timers.Timely(now) && timers.Sane()
    ensures timers.initTick == old(timers.initTick) && timers.periodic == old(timers.periodic)
  {
    ghost var p0, due0, order0 := timers.Pending(), timers.due, timers.order;
    WindowAtTick(p0, due0, now, timers.periodic, timers.initTick);
    hide Window, RowsOk, Progress;
    var fired, local := timers.Check(tick, now);
    TimelyAfter(p0, due0, order0, timers.Pending(), timers.due, timers.order, |fired|, now, timers.periodic, timers.initTick);
  }

  /** One of the things that can happen; calls on timers that were not made are left out. */
  method Happen(timers: Timers, op: Op, tick: nat, ghost now: int) returns (last: nat)
    requires timers.Valid() && timers.Timely(now) && timers.Sane() && tick == Wrap(now) && OpOk(op)
    modifies timers
    ensures var later := now + Ticks([op]);
            timers.Valid() && timers.Timely(later) && timers.Sane() && last == Wrap(later)
  {
    hide RowsOk;
    assert Ticks([op]) == if op.Ticked? then 1 else 0;
    last := tick;
    match op
    case Made(t, time, isPeriodic) =>
      if t !in timers.initTick { timers.Init(t, time, isPeriodic); }
    case Started(t) =>
      if t in timers.initTick { timers.Start(t, tick, now); }
    case Stopped(t) =>
      var _ := timers.Stop(t);
    case Ticked =>
      WrapSum(now, 1);
      last := (tick + 1) % TICKS;
      Advance(timers, last, now + 1);
  }

  lemma TicksMore(ops: seq<Op>, op: Op)
    ensures Ticks(ops + [op]) == Ticks(ops) + Ticks([op])
  {
    assert (ops + [op])[..|ops|] == ops;
    assert [op][..0] == [];
  }

  /** In every run that makes, starts and stops timers and checks them at every tick, what
      rt_timer_start and rt_timer_check ask of the pending timeouts holds at each call. */
  method Drive(timers: Timers, ops: seq<Op>, tick: nat, ghost start: int) returns (last: nat)
    requires timers.Valid() && timers.Timely(start) && timers.Sane() && tick == Wrap(start)
    requires forall op :: op in ops ==> OpOk(op)
    modifies timers
    ensures timers.Valid() && timers.Timely(start + Ticks(ops)) && timers.Sane() && last == Wrap(start + Ticks(ops))
  {
    hide RowsOk, Wrap, OpOk, Ticks;
    last := tick;
    var i := 0;
    NoTicks(ops);
    while i < |ops|
      invariant 0 <= i <= |ops| && last == Wrap(start + Ticks(ops[..i]))
      invariant timers.Valid() && timers.Timely(start + Ticks(ops[..i])) && timers.Sane()
    {
      assert ops[i] in ops && ops[..i + 1] == ops[..i] + [ops[i]];
      TicksMore(ops[..i], ops[i]);
      last := Happen(timers, ops[i], last, start + Ticks(ops[..i]));
      i := i + 1;
    }
    assert ops[..|ops|] == ops;
  }

  lemma NoTicks(ops: seq<Op>)
    ensures Ticks(ops[..0]) == 0
  {
  }
}
