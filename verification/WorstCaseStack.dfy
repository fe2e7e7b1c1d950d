/** Worst-case stack analysis over a call graph (tools/WCS.py): a memoised
    depth-first search that marks recursion and pointer calls as unbounded. */
module WorstCaseStack {

  type Id = nat

  /** A function: its own stack use, whether it calls through a pointer, the
      functions it calls and the calls that could not be resolved. */
  datatype Fxn = Fxn(local: nat, hasPtr: bool, calls: seq<Id>, unresolved: set<string>)

  datatype Wcs = Unbounded | Bytes(n: nat)

  type Graph = map<Id, Fxn>

  predicate Closed(g: Graph)
  {
    forall f, i :: f in g && 0 <= i < |g[f].calls| ==> g[f].calls[i] in g
  }

  // -------------------------------------------------------------- call paths

  predicate Path(g: Graph, p: seq<Id>)
  {
    && p != []
    && (forall i :: 0 <= i < |p| ==> p[i] in g)
    && (forall i :: 0 <= i < |p| - 1 ==> p[i + 1] in g[p[i]].calls)
  }

  predicate From(g: Graph, f: Id, p: seq<Id>) { Path(g, p) && p[0] == f }

  function Last(p: seq<Id>): Id
    requires p != []
  {
    p[|p| - 1]
  }

  /** The stack used by a chain of calls. */
  function Weight(g: Graph, p: seq<Id>): nat
    requires forall i :: 0 <= i < |p| ==> p[i] in g
  {
    if p == [] then 0 else g[p[0]].local + Weight(g, p[1..])
  }

  /** The path goes round a cycle, or ends at a call through a pointer. */
  predicate Hopeless(g: Graph, p: seq<Id>)
    requires Path(g, p)
  {
    g[Last(p)].hasPtr || exists i, j :: 0 <= i < j < |p| && p[i] == p[j]
  }

  ghost predicate Endless(g: Graph, f: Id) { exists p :: From(g, f, p) && Hopeless(g, p) }

  /** `n` is the largest total over all call paths from `f`. */
  ghost predicate IsMax(g: Graph, f: Id, n: nat)
  {
    && (forall p :: From(g, f, p) ==> Weight(g, p) <= n)
    && (exists p :: From(g, f, p) && Weight(g, p) == n)
  }

  /** What the analysis should report for `f`. */
  ghost predicate Right(g: Graph, f: Id, w: Wcs)
  {
    match w
    case Unbounded => Endless(g, f)
    case Bytes(n) => !Endless(g, f) && IsMax(g, f, n)
  }

  /** Some function that `f` can reach has the unresolved call `u`. */
  ghost predicate ReachesCall(g: Graph, f: Id, u: string)
  {
    exists p :: From(g, f, p) && u in g[Last(p)].unresolved
  }

  lemma PathCons(g: Graph, f: Id, p: seq<Id>)
    requires f in g && Path(g, p) && p[0] in g[f].calls
    ensures From(g, f, [f] + p) && Last([f] + p) == Last(p)
    ensures Hopeless(g, p) ==> Hopeless(g, [f] + p)
    ensures Weight(g, [f] + p) == g[f].local + Weight(g, p)
  {
    var q := [f] + p;
    assert q[1..] == p;
    assert forall i :: 0 <= i < |p| ==> q[i + 1] == p[i];
    if i, j :| 0 <= i < j < |p| && p[i] == p[j] {
      assert q[i + 1] == q[j + 1];
    }
  }

  lemma PathTail(g: Graph, p: seq<Id>)
    requires Path(g, p) && |p| > 1
    ensures From(g, p[1], p[1..]) && p[1] in g[p[0]].calls && Last(p[1..]) == Last(p)
    ensures Weight(g, p) == g[p[0]].local + Weight(g, p[1..])
  {
  }

  /** A function that calls an endless one is endless. */
  lemma EndlessCallee(g: Graph, f: Id, c: Id)
    requires f in g && c in g[f].calls && Endless(g, c)
    ensures Endless(g, f)
  {
    var p :| From(g, c, p) && Hopeless(g, p);
    PathCons(g, f, p);
  }

  /** If `f` comes back to itself after its callee `c`, then so does `c`. */
  lemma CycleThroughCallee(g: Graph, f: Id, q: seq<Id>, j: nat)
    requires Path(g, q) && f in g && q[0] in g[f].calls && j < |q| && q[j] == f
    ensures Endless(g, q[0])
  {
    var r := q[..j + 1] + [q[0]];
    assert From(g, q[0], r) && r[0] == r[j + 1];
    assert Hopeless(g, r);
  }

  /** A function with no pointer call is bounded exactly when all its callees are. */
  lemma BoundedCallees(g: Graph, f: Id)
    requires f in g && Closed(g) && !g[f].hasPtr
    ensures !Endless(g, f) <==> forall c :: c in g[f].calls ==> !Endless(g, c)
  {
    if Endless(g, f) {
      var p :| From(g, f, p) && Hopeless(g, p);
      HopelessNeedsCallee(g, f, p);
    } else {
      forall c | c in g[f].calls ensures !Endless(g, c) {
        if Endless(g, c) { EndlessCallee(g, f, c); }
      }
    }
  }

  lemma HopelessNeedsCallee(g: Graph, f: Id, p: seq<Id>)
    requires From(g, f, p) && Hopeless(g, p) && !g[f].hasPtr
    ensures |p| > 1 && p[1] in g[f].calls && Endless(g, p[1])
  {
    PathTail(g, p);
    var q := p[1..];
    if !g[Last(p)].hasPtr {
      var i, j :| 0 <= i < j < |p| && p[i] == p[j];
      if i > 0 {
        assert q[i - 1] == q[j - 1];
        assert Hopeless(g, q);
      } else {
        CycleThroughCallee(g, f, q, j - 1);
      }
    }
  }

  /** The largest total of a function is its own use plus its largest callee's. */
  lemma MaxOfCallees(g: Graph, f: Id, callMax: nat)
    requires f in g && Closed(g)
    requires forall c, p :: c in g[f].calls && From(g, c, p) ==> Weight(g, p) <= callMax
    requires callMax == 0 || exists c :: c in g[f].calls && IsMax(g, c, callMax)
    ensures IsMax(g, f, callMax + g[f].local)
  {
    forall p | From(g, f, p) ensures Weight(g, p) <= callMax + g[f].local {
      if |p| > 1 { PathTail(g, p); }
    }
    if callMax == 0 {
      assert From(g, f, [f]) && Weight(g, [f]) == g[f].local;
    } else {
      var c :| c in g[f].calls && IsMax(g, c, callMax);
      var p :| From(g, c, p) && Weight(g, p) == callMax;
      PathCons(g, f, p);
    }
  }

  /** The result for a function, once all of its callees came out bounded. */
  lemma RightFromCallees(g: Graph, f: Id, wcs: map<Id, Wcs>, callMax: nat)
    requires f in g && Closed(g) && !g[f].hasPtr
    requires forall c :: c in g[f].calls ==> c in wcs && wcs[c].Bytes? && wcs[c].n <= callMax && Right(g, c, wcs[c])
    requires callMax == 0 || exists c :: c in g[f].calls && c in wcs && wcs[c] == Bytes(callMax)
    ensures Right(g, f, Bytes(callMax + g[f].local))
  {
    BoundedCallees(g, f);
    forall c, p | c in g[f].calls && From(g, c, p) ensures Weight(g, p) <= callMax {
      assert IsMax(g, c, wcs[c].n);
    }
    MaxOfCallees(g, f, callMax);
  }

  lemma UnboundedIsEndless(g: Graph, c: Id)
    requires Right(g, c, Unbounded)
    ensures Endless(g, c)
  {
  }

  /** There is only one right result, so the visiting order cannot matter. */
  lemma RightIsUnique(g: Graph, f: Id, v: Wcs, w: Wcs)
    requires Right(g, f, v) && Right(g, f, w)
    ensures v == w
  {
    if v.Bytes? && w.Bytes? {
      var p :| From(g, f, p) && Weight(g, p) == v.n;
      var q :| From(g, f, q) && Weight(g, q) == w.n;
    }
  }

  function Elements(p: seq<Id>): set<Id> { set f | f in p }

  lemma LoopsBack(g: Graph, f: Id, parents: seq<Id>)
    requires f in parents && Path(g, parents + [f])
    ensures Endless(g, f)
  {
    var i :| 0 <= i < |parents| && parents[i] == f;
    var chain := parents + [f];
    var r := chain[i..];
    assert From(g, f, r) && r[0] == r[|r| - 1];
    assert Hopeless(g, r);
  }

  lemma ChainGrows(g: Graph, parents: seq<Id>, f: Id, c: Id)
    requires Closed(g) && Path(g, parents + [f]) && f in g && c in g[f].calls && f !in parents
    ensures Path(g, (parents + [f]) + [c])
    ensures g.Keys - Elements(parents + [f]) < g.Keys - Elements(parents)
  {
    var chain := parents + [f];
    assert chain[|parents|] == f;
    assert f in Elements(chain) && Elements(parents) <= Elements(chain);
    assert f in g.Keys - Elements(parents);
  }

  /** A call that can be reached is one's own or can be reached from a callee. */
  lemma ReachedThroughCallee(g: Graph, f: Id, u: string)
    requires f in g && ReachesCall(g, f, u) && u !in g[f].unresolved
    ensures exists c :: c in g[f].calls && ReachesCall(g, c, u)
  {
    var p :| From(g, f, p) && u in g[Last(p)].unresolved;
    PathTail(g, p);
    assert ReachesCall(g, p[1], u);
  }

  lemma CalleeReaches(g: Graph, f: Id, c: Id, u: string)
    requires f in g && c in g[f].calls && ReachesCall(g, c, u)
    ensures ReachesCall(g, f, u)
  {
    var p :| From(g, c, p) && u in g[Last(p)].unresolved;
    PathCons(g, f, p);
  }

  /** Results already found stay, and the functions being worked on are only
      ever marked as unbounded. */
  ghost predicate Kept(wcs0: map<Id, Wcs>, unresolved0: map<Id, set<string>>, wcs: map<Id, Wcs>, unresolved: map<Id, set<string>>,
                       parents: seq<Id>)
  {
    && unresolved0.Keys == unresolved.Keys
    && (forall h :: h in wcs0 ==> h in wcs && wcs[h] == wcs0[h])
    && (forall h :: h in wcs0 && h in unresolved ==> unresolved[h] == unresolved0[h])
    && (forall h :: h in parents && h in unresolved ==> unresolved[h] == unresolved0[h])
    && (forall h :: h in parents && h in wcs && h !in wcs0 ==> wcs[h] == Unbounded)
  }

  lemma KeptOn(w0: map<Id, Wcs>, u0: map<Id, set<string>>, w1: map<Id, Wcs>, u1: map<Id, set<string>>,
               w2: map<Id, Wcs>, u2: map<Id, set<string>>, parents: seq<Id>, f: Id)
    requires Kept(w0, u0, w1, u1, parents) && Kept(w1 - {f}, u1, w2, u2, parents) && f !in w0 && f !in parents
    ensures Kept(w0, u0, w2, u2, parents)
  {
  }

  lemma KeptMark(w0: map<Id, Wcs>, u0: map<Id, set<string>>, w1: map<Id, Wcs>, u1: map<Id, set<string>>,
                 parents: seq<Id>, f: Id, v: Wcs)
    requires Kept(w0, u0, w1, u1, parents) && f !in w0 && f !in parents
    ensures Kept(w0, u0, w1[f := v], u1, parents)
  {
  }

  lemma KeptNothing(w0: map<Id, Wcs>, u0: map<Id, set<string>>, parents: seq<Id>)
    ensures Kept(w0, u0, w0, u0, parents)
  {
  }

  // ------------------------------------------------------------ the analysis

  class Analysis {
    const g: Graph
    var wcs: map<Id, Wcs>
    var unresolved: map<Id, set<string>>

    ghost predicate Valid()
      reads this
    {
      && Closed(g) && unresolved.Keys == g.Keys && wcs.Keys <= g.Keys
      && (forall f :: f in wcs ==> Right(g, f, wcs[f]))
      && (forall f :: f in g ==> Calls(f))
    }

    /** Unresolved calls are taken over from callees only, and a function that
        came out bounded has taken over all of them. */
    ghost predicate Calls(f: Id)
      requires f in g && f in unresolved
      reads this
    {
      && (forall u :: u in g[f].unresolved ==> u in unresolved[f])
      && (forall u :: u in unresolved[f] ==> ReachesCall(g, f, u))
      && (f in wcs && wcs[f].Bytes? ==> forall u :: ReachesCall(g, f, u) ==> u in unresolved[f])
    }

    ghost predicate Keeps(wcs0: map<Id, Wcs>, unresolved0: map<Id, set<string>>, parents: seq<Id>)
      reads this
    {
      Kept(wcs0, unresolved0, wcs, unresolved, parents)
    }

    /** All of `cs` came out bounded, with `callMax` the largest. */
    ghost predicate Bounded(cs: set<Id>, callMax: nat)
      reads this
    {
      && (forall c :: c in cs ==> c in wcs && wcs[c].Bytes? && wcs[c].n <= callMax)
      && (callMax == 0 || exists c :: c in cs && c in wcs && wcs[c] == Bytes(callMax))
    }

    /** The unresolved calls of `cs` have been added to those of `f`. */
    ghost predicate TakenOver(f: Id, cs: set<Id>)
      reads this
    {
      forall c :: c in cs && c in unresolved && f in unresolved ==> unresolved[c] <= unresolved[f]
    }

    constructor (g: Graph)
      requires Closed(g)
      ensures Valid() && this.g == g && wcs == map[]
    {
      this.g := g;
      wcs := map[];
      unresolved := map f | f in g :: g[f].unresolved;
      new;
      forall f, u | f in g && u in g[f].unresolved ensures ReachesCall(g, f, u) {
        assert From(g, f, [f]);
      }
    }

    /** Main result: every function gets "unbounded" exactly when a pointer call
        or a cycle can be reached from it, and otherwise the largest total of
        stack over all call paths. The result does not depend on the order of
        the visits: `Right` determines it. */
    method CalcAll()
      requires Valid()
      modifies this
      ensures Valid() && wcs.Keys == g.Keys
    {
      var todo := g.Keys;
      while todo != {}
        invariant Valid() && g.Keys - todo <= wcs.Keys && todo <= g.Keys
        decreases todo
      {
        var f :| f in todo;
        Calc(f, []);
        todo := todo - {f};
      }
    }

    /** `parents` is the chain of calls that led to `f`. */
    method Calc(f: Id, parents: seq<Id>)
      requires Valid() && Path(g, parents + [f])
      modifies this
      ensures Valid() && f in wcs && Keeps(old(wcs), old(unresolved), parents)
      decreases g.Keys - Elements(parents)
    {
      assert (parents + [f])[|parents|] == f;
      if f in wcs { return; }
      if g[f].hasPtr {
        assert Hopeless(g, [f]) && From(g, f, [f]);
        MarkUnbounded(f);
        return;
      }
      if f in parents {
        LoopsBack(g, f, parents);
        MarkUnbounded(f);
        return;
      }
      CalcCalls(f, parents);
    }

    /** The part of Calc that goes through the calls of `f`. */
    method CalcCalls(f: Id, parents: seq<Id>)
      requires Valid() && Path(g, parents + [f]) && f !in wcs && f in g && !g[f].hasPtr && f !in parents
      modifies this
      ensures Valid() && f in wcs && Keeps(old(wcs), old(unresolved), parents)
      decreases g.Keys - Elements(parents), 0, 1
    {
      hide Right, Calls, Path, Endless, Kept;
      KeptNothing(wcs, unresolved, parents);
      var callMax, i := 0, 0;
      ghost var done: set<Id> := {};
      var calls := g[f].calls;
      while i < |calls|
        invariant i <= |calls| && forall j :: 0 <= j < i ==> calls[j] in done
        invariant Valid() && Keeps(old(wcs), old(unresolved), parents)
        invariant Bounded(done, callMax) && (f in wcs ==> wcs[f] == Unbounded) && TakenOver(f, done)
        invariant done <= g.Keys && forall c :: c in done ==> c in calls
      {
        ghost var w, u := wcs, unresolved;
        var endless, n := CalcCall(f, calls[i], parents, done);
        KeptOn(old(wcs), old(unresolved), w, u, wcs, unresolved, parents, f);
        if endless { return; }
        if n > callMax { callMax := n; }
        done := done + {calls[i]};
        i := i + 1;
      }
      KeptMark(old(wcs), old(unresolved), wcs, unresolved, parents, f, Bytes(callMax + g[f].local));
      Finish(f, callMax, done);
    }

    /** One call of `f`: either it makes `f` unbounded, or its stack is returned. */
    method CalcCall(f: Id, c: Id, parents: seq<Id>, ghost done: set<Id>) returns (endless: bool, n: nat)
      requires Valid() && Path(g, parents + [f]) && f in g && c in g[f].calls && f !in parents
      requires (f in wcs ==> wcs[f] == Unbounded) && TakenOver(f, done) && done <= wcs.Keys
      modifies this
      ensures Valid() && Keeps(old(wcs) - {f}, old(unresolved), parents)
      ensures f in wcs ==> wcs[f] == Unbounded
      ensures endless ==> f in wcs
      ensures !endless ==> c in wcs && wcs[c] == Bytes(n) && TakenOver(f, done + {c})
      ensures forall h :: h in old(wcs) ==> h in wcs && wcs[h] == old(wcs)[h]
      decreases g.Keys - Elements(parents), 0, 0
    {
      hide Right, Calls, Path, Endless;
      ChainGrows(g, parents, f, c);
      Calc(c, parents + [f]);
      assert Right(g, c, wcs[c]);
      if wcs[c] == Unbounded {
        UnboundedIsEndless(g, c);
        EndlessCallee(g, f, c);
        MarkUnbounded(f);
        return true, 0;
      }
      TakeOver(f, c);
      return false, wcs[c].n;
    }

    method MarkUnbounded(f: Id)
      requires Valid() && f in g && Endless(g, f)
      modifies this`wcs
      ensures Valid() && wcs == old(wcs)[f := Unbounded]
    {
      hide ReachesCall, Endless;
      wcs := wcs[f := Unbounded];
      assert forall h :: h in g ==> old(Calls(h)) ==> Calls(h);
    }

    /** Propagates the unresolved calls of a callee. */
    method TakeOver(f: Id, c: Id)
      requires Valid() && f in g && c in g[f].calls && (f in wcs ==> wcs[f] == Unbounded)
      modifies this`unresolved
      ensures Valid() && unresolved == old(unresolved)[f := old(unresolved)[f] + old(unresolved)[c]]
    {
      hide Right, ReachesCall;
      forall u | u in unresolved[c] ensures ReachesCall(g, f, u) {
        assert Calls(c);
        CalleeReaches(g, f, c, u);
      }
      assert Calls(f);
      unresolved := unresolved[f := unresolved[f] + unresolved[c]];
      assert forall h :: h in g && h != f ==> old(Calls(h)) ==> Calls(h);
    }

    /** All callees are bounded: so is `f`. */
    method Finish(f: Id, callMax: nat, ghost done: set<Id>)
      requires Valid() && f in g && !g[f].hasPtr && Bounded(done, callMax) && TakenOver(f, done)
      requires forall c :: c in g[f].calls <==> c in done
      modifies this`wcs
      ensures Valid() && wcs == old(wcs)[f := Bytes(callMax + g[f].local)]
    {
      hide Right, ReachesCall;
      RightFromCallees(g, f, wcs, callMax);
      assert Calls(f);
      forall u | ReachesCall(g, f, u) ensures u in unresolved[f] {
        if u !in g[f].unresolved {
          ReachedThroughCallee(g, f, u);
          var c :| c in g[f].calls && ReachesCall(g, c, u);
          assert Calls(c);
        }
      }
      wcs := wcs[f := Bytes(callMax + g[f].local)];
      assert forall h :: h in g && h != f ==> old(Calls(h)) ==> Calls(h);
    }
  }
}
