/** What the values of Kconfig symbols mean (tools/kconfiglib.py): for the user of
    tri_value, str_value, visibility, assignable and set_value, said without the way they
    are computed. */
module KconfigMeaning {
  import opened KconfigModel
  import opened KconfigCache
  import opened Lists

  // ------------------------------------------------------------------- expressions

  /** The expression is at least `t`, in two-valued logic. */
  predicate AtLeast(cfg: Config, vals: Vals, e: Expr, t: nat)
    requires 1 <= t <= 2
  {
    match e
    case Leaf(s) => AsTri(Read(vals, s)) >= t
    case And(l, r) => AtLeast(cfg, vals, l, t) && AtLeast(cfg, vals, r, t)
    case Or(l, r) => AtLeast(cfg, vals, l, t) || AtLeast(cfg, vals, r, t)
    case Not(f) => !AtLeast(cfg, vals, f, 3 - t)
    case Relation(rel, a, b) => Holds(rel, Compare(cfg, vals, a, b))
  }

  /** An expression of n, m and y is two expressions of truth values. */
  lemma {:induction false} ValueByCuts(cfg: Config, vals: Vals, e: Expr, t: nat)
    requires 1 <= t <= 2
    ensures ExprValue(cfg, vals, e) >= t <==> AtLeast(cfg, vals, e, t)
  {
    match e
    case Leaf(_) =>
    case Relation(_, _, _) =>
    case Not(f) => ValueByCuts(cfg, vals, f, 3 - t);
    case _ => ValueByCuts(cfg, vals, e.l, t); ValueByCuts(cfg, vals, e.r, t);
  }

  /** `s` comes before `t` in a dictionary. */
  predicate Precedes(s: string, t: string)
  {
    exists k :: 0 <= k <= |s| && k <= |t| && PartAt(s, t, k)
  }

  /** They agree before position k, and there `s` ends or has the smaller character. */
  predicate PartAt(s: string, t: string, k: nat)
    requires k <= |s| && k <= |t|
  {
    s[..k] == t[..k] && k < |t| && (k == |s| || s[k] < t[k])
  }

  lemma {:induction false} StringsCompare(s: string, t: string)
    ensures StrCmp(s, t) == 0 <==> s == t
    ensures StrCmp(s, t) < 0 <==> Precedes(s, t)
    ensures StrCmp(s, t) > 0 <==> Precedes(t, s)
  {
    if s == [] || t == [] {
      if t != [] { assert PartAt(s, t, 0); }
      if s != [] { assert PartAt(t, s, 0); }
    } else if s[0] != t[0] {
      if s[0] < t[0] { assert PartAt(s, t, 0); } else { assert PartAt(t, s, 0); }
      assert forall k :: 0 < k <= |s| && k <= |t| ==> s[..k][0] != t[..k][0];
    } else {
      StringsCompare(s[1..], t[1..]);
      OneOn(s, t);
      OneOn(t, s);
    }
  }

  lemma OneOn(s: string, t: string)
    requires s != [] && t != [] && s[0] == t[0]
    ensures Precedes(s, t) <==> Precedes(s[1..], t[1..])
    ensures s == t <==> s[1..] == t[1..]
  {
    assert s == [s[0]] + s[1..] && t == [t[0]] + t[1..];
    if Precedes(s, t) {
      var k :| 0 <= k <= |s| && k <= |t| && PartAt(s, t, k);
      assert s[1..][..k - 1] == s[..k][1..] && t[1..][..k - 1] == t[..k][1..];
      assert PartAt(s[1..], t[1..], k - 1);
    }
    if Precedes(s[1..], t[1..]) {
      var k :| 0 <= k <= |s[1..]| && k <= |t[1..]| && PartAt(s[1..], t[1..], k);
      assert s[..k + 1] == [s[0]] + s[1..][..k] && t[..k + 1] == [t[0]] + t[1..][..k];
      assert PartAt(s, t, k + 1);
    }
  }

  // -------------------------------------------------------------------- visibility

  ghost function Now(cfg: Config, users: Users): Vals
    requires WF(cfg)
  {
    AllValues(cfg, users)
  }

  ghost function Of(cfg: Config, users: Users, e: Expr): Trit
    requires WF(cfg)
  {
    ExprValue(cfg, Now(cfg, users), e)
  }

  /** What the visibility property returns for `s`. */
  ghost function Visible(cfg: Config, users: Users, s: Sym): Trit
    requires WF(cfg) && s in cfg.defs
  {
    VisOf(cfg, cfg.defs[s], Now(cfg, users))
  }

  /** The symbol cannot be m: it is a bool, or MODULES is off. */
  ghost predicate NoModules(cfg: Config, users: Users, s: Sym)
    requires WF(cfg) && s in cfg.defs
  {
    cfg.defs[s].typ == Bool || (cfg.defs[s].typ == Tristate && Of(cfg, users, Leaf(cfg.modules)) == 0)
  }

  lemma {:induction false} PromptsBound(cfg: Config, prompts: seq<Expr>, vals: Vals, x: Trit)
    ensures MaxPrompt(cfg, prompts, vals) <= x <==> forall i :: 0 <= i < |prompts| ==> ExprValue(cfg, vals, prompts[i]) <= x
  {
    if prompts != [] { PromptsBound(cfg, prompts[..|prompts| - 1], vals, x); }
  }

  lemma ModulesOf(cfg: Config, users: Users, s: Sym)
    requires WF(cfg) && s in cfg.defs
    ensures NoModules(cfg, users, s) <==> EffectiveType(cfg, cfg.defs[s], Now(cfg, users)) == Bool
  {
    hide WF, AllValues;
  }

  /** A symbol is invisible exactly when no prompt's condition holds. A tristate symbol is
      as visible as its most visible prompt; any other is visible or it is not. */
  lemma VisibilityMeans(cfg: Config, users: Users, s: Sym, x: Trit)
    requires WF(cfg) && s in cfg.defs
    ensures var d, vis := cfg.defs[s], Visible(cfg, users, s);
            && (vis == 0 <==> forall i :: 0 <= i < |d.prompts| ==> Of(cfg, users, d.prompts[i]) == 0)
            && (d.typ == Tristate && !NoModules(cfg, users, s) ==>
                 (vis <= x <==> forall i :: 0 <= i < |d.prompts| ==> Of(cfg, users, d.prompts[i]) <= x))
            && (d.typ != Tristate || NoModules(cfg, users, s) ==> vis != 1)
  {
    hide WF, Value, AllValues, ExprValue, MaxPrompt;
    PromptsBound(cfg, cfg.defs[s].prompts, Now(cfg, users), 0);
    PromptsBound(cfg, cfg.defs[s].prompts, Now(cfg, users), x);
    ModulesOf(cfg, users, s);
  }

  // --------------------------------------------------------------- tristate values

  /** The symbol is one whose value is worked out. */
  predicate Worked(cfg: Config, s: Sym) { s in cfg.defs && IsTri(cfg.defs[s].typ) && !cfg.defs[s].isConstant }

  ghost function Tri(cfg: Config, users: Users, s: Sym): Trit
    requires WF(cfg) && s in cfg.defs
  {
    AsTri(Value(cfg, users, s))
  }

  /** `t` is `raw`, but y instead of m where the symbol cannot be m or an imply of y is in
      force. */
  ghost predicate Promoted(cfg: Config, users: Users, s: Sym, raw: Trit, t: Trit)
    requires WF(cfg) && s in cfg.defs
  {
    if raw == 1 && (NoModules(cfg, users, s) || Of(cfg, users, cfg.defs[s].weakRevDep) == 2) then t == 2 else t == raw
  }

  function Apart(a: int, b: int): nat { if a < b then b - a else a - b }

  /** A select is always honoured, a bool is never m, and neither is a symbol with an imply
      of y in force. */
  lemma SelectsForce(cfg: Config, users: Users, s: Sym)
    requires WF(cfg) && Worked(cfg, s)
    ensures Of(cfg, users, cfg.defs[s].revDep) <= Tri(cfg, users, s)
    ensures NoModules(cfg, users, s) || Of(cfg, users, cfg.defs[s].weakRevDep) == 2 ==> Tri(cfg, users, s) != 1
  {
    hide WF, Value, AllValues, ExprValue, VisOf, BaseTri;
    ScratchValue(cfg, users, s);
    ModulesOf(cfg, users, s);
  }

  /** A user value that can be set is followed as far as it can be: the value is the nearest
      to it of those from what is selected up to the visibility. */
  lemma UserIsFollowed(cfg: Config, users: Users, s: Sym) returns (raw: Trit)
    requires WF(cfg) && Worked(cfg, s) && Visible(cfg, users, s) != 0 && s in users && users[s].UserTri?
    ensures var rev, vis := Of(cfg, users, cfg.defs[s].revDep), Visible(cfg, users, s);
            && rev <= raw && (raw <= rev || raw <= vis)
            && forall x: Trit :: rev <= x && (x <= rev || x <= vis) ==> Apart(raw, users[s].t) <= Apart(x, users[s].t)
    ensures Promoted(cfg, users, s, raw, Tri(cfg, users, s))
  {
    hide WF, Value, AllValues, ExprValue, VisOf;
    ScratchValue(cfg, users, s);
    ModulesOf(cfg, users, s);
    var rev, low := Of(cfg, users, cfg.defs[s].revDep), Min(users[s].t, Visible(cfg, users, s));
    raw := Max(rev, low);
  }

  /** Entry i is the first whose condition holds, or there is none and i is past the end. */
  ghost predicate FirstHolding(cfg: Config, users: Users, conds: seq<Expr>, i: nat)
    requires WF(cfg)
  {
    && i <= |conds| && (forall j :: 0 <= j < i ==> Of(cfg, users, conds[j]) == 0)
    && (i < |conds| ==> Of(cfg, users, conds[i]) != 0)
  }

  function DefaultConds(ds: seq<Default>): (r: seq<Expr>)
    ensures |r| == |ds| && forall i :: 0 <= i < |ds| ==> r[i] == ds[i].cond
  {
    seq(|ds|, i requires 0 <= i < |ds| => ds[i].cond)
  }

  function RangeConds(rs: seq<Range>): (r: seq<Expr>)
    ensures |r| == |rs| && forall i :: 0 <= i < |rs| ==> r[i] == rs[i].cond
  {
    seq(|rs|, i requires 0 <= i < |rs| => rs[i].cond)
  }

  lemma {:induction false} FirstDefaultIs(cfg: Config, ds: seq<Default>, vals: Vals, i: nat)
    requires i <= |ds| && (forall j :: 0 <= j < i ==> ExprValue(cfg, vals, ds[j].cond) == 0)
    requires i < |ds| ==> ExprValue(cfg, vals, ds[i].cond) != 0
    ensures FirstDefault(cfg, ds, vals) == if i == |ds| then 0 else Min(ExprValue(cfg, vals, ds[i].value), ExprValue(cfg, vals, ds[i].cond))
    ensures FirstStr(cfg, ds, vals) == if i == |ds| then None else Some(DefaultStr(vals, ds[i].value))
  {
    if i > 0 { FirstDefaultIs(cfg, ds[1..], vals, i - 1); }
  }

  /** `x` is no less than what is selected, than default i, cut to its condition, and than
      what is implied if the direct dependencies hold. */
  ghost predicate Enough(cfg: Config, users: Users, s: Sym, i: nat, x: Trit)
    requires WF(cfg) && s in cfg.defs
  {
    var d := cfg.defs[s];
    && Of(cfg, users, d.revDep) <= x
    && (i < |d.defaults| ==> Of(cfg, users, d.defaults[i].value) <= x || Of(cfg, users, d.defaults[i].cond) <= x)
    && (Of(cfg, users, d.directDep) != 0 ==> Of(cfg, users, d.weakRevDep) <= x)
  }

  /** Without a user value, or invisible, the value is the least that is enough, with the
      first default that applies. */
  lemma DefaultIsTaken(cfg: Config, users: Users, s: Sym, i: nat) returns (raw: Trit)
    requires WF(cfg) && Worked(cfg, s) && (Visible(cfg, users, s) == 0 || s !in users)
    requires FirstHolding(cfg, users, DefaultConds(cfg.defs[s].defaults), i)
    ensures forall x: Trit :: Enough(cfg, users, s, i, x) <==> raw <= x
    ensures Promoted(cfg, users, s, raw, Tri(cfg, users, s))
  {
    hide WF, Value, AllValues, ExprValue, VisOf, SelectedTri, FirstDefault, FirstStr;
    ScratchValue(cfg, users, s);
    ModulesOf(cfg, users, s);
    var d, vals := cfg.defs[s], Now(cfg, users);
    assert forall j :: 0 <= j < i ==> DefaultConds(d.defaults)[j] == d.defaults[j].cond;
    FirstDefaultIs(cfg, d.defaults, vals, i);
    raw := SelectedTri(cfg, d, User(users, s), vals);
    forall x: Trit ensures Enough(cfg, users, s, i, x) <==> raw <= x { RawIs(cfg, d, User(users, s), vals, x); }
  }

  lemma RawIs(cfg: Config, d: SymDef, u: Option<UserVal>, vals: Vals, x: Trit)
    requires VisOf(cfg, d, vals) == 0 || u.None?
    ensures SelectedTri(cfg, d, u, vals) <= x <==>
            && ExprValue(cfg, vals, d.revDep) <= x && FirstDefault(cfg, d.defaults, vals) <= x
            && (ExprValue(cfg, vals, d.directDep) != 0 ==> ExprValue(cfg, vals, d.weakRevDep) <= x)
  {
    hide ExprValue, VisOf, FirstDefault;
  }

  /** Constants have the value they are made with, and undefined symbols their name. */
  lemma FixedValues(cfg: Config, users: Users, s: Sym)
    requires WF(cfg) && s in cfg.defs
    ensures IsTri(cfg.defs[s].typ) && cfg.defs[s].isConstant ==> Value(cfg, users, s) == TriVal(cfg.defs[s].fixed)
    ensures cfg.defs[s].typ == Unknown ==> Value(cfg, users, s) == StrVal(cfg.defs[s].name)
  {
    ScratchValue(cfg, users, s);
  }

  // --------------------------------------------------------------------- assignable

  /** The values of what `s` can depend on. */
  ghost function Lower(cfg: Config, users: Users, s: Sym): Vals
    requires WF(cfg) && s in cfg.defs
  {
    map y | y in cfg.defs && cfg.rank[y] < cfg.rank[s] :: Value(cfg, users, y)
  }

  lemma ByLower(cfg: Config, users: Users, s: Sym)
    requires WF(cfg) && s in cfg.defs
    ensures Value(cfg, users, s) == ValueOf(cfg, cfg.defs[s], User(users, s), Lower(cfg, users, s))
  {
    hide ValueOf;
  }

  lemma SameLower(cfg: Config, users: Users, users': Users, s: Sym)
    requires WF(cfg) && s in cfg.defs
    requires forall z :: z in cfg.defs && cfg.rank[z] < cfg.rank[s] ==> Value(cfg, users, z) == Value(cfg, users', z)
    ensures Lower(cfg, users, s) == Lower(cfg, users', s)
  {
    hide Value;
  }

  /** Two assignments that agree on the symbols up to the rank of `y` give it one value. */
  lemma {:induction false} RankDecides(cfg: Config, users: Users, users': Users, y: Sym)
    requires WF(cfg) && y in cfg.defs
    requires forall z :: z in cfg.defs && cfg.rank[z] <= cfg.rank[y] ==> User(users, z) == User(users', z)
    ensures Value(cfg, users, y) == Value(cfg, users', y)
    decreases cfg.rank[y]
  {
    hide Value, ValueOf, Lower, User;
    forall z | z in cfg.defs && cfg.rank[z] < cfg.rank[y] ensures Value(cfg, users, z) == Value(cfg, users', z) {
      RankDecides(cfg, users, users', z);
    }
    SameLower(cfg, users, users', y);
    ByLower(cfg, users, y);
    ByLower(cfg, users', y);
  }

  lemma LowerSame(cfg: Config, users: Users, s: Sym, v: UserVal)
    requires WF(cfg) && s in cfg.defs
    ensures Lower(cfg, users[s := v], s) == Lower(cfg, users, s)
  {
    hide Value, Lower;
    var users' := users[s := v];
    forall y | y in cfg.defs && cfg.rank[y] < cfg.rank[s] ensures Value(cfg, users, y) == Value(cfg, users', y) {
      RankDecides(cfg, users, users', y);
    }
    SameLower(cfg, users, users', s);
  }

  lemma LowerEnough(cfg: Config, users: Users, s: Sym, u: Option<UserVal>)
    requires WF(cfg) && s in cfg.defs
    ensures ValueOf(cfg, cfg.defs[s], u, Lower(cfg, users, s)) == ValueOf(cfg, cfg.defs[s], u, Now(cfg, users))
  {
    var lower := Lower(cfg, users, s);
    forall y | y in lower ensures Fits(cfg, y, Value(cfg, users, y)) { ScratchValue(cfg, users, y); }
    hide Value, ValueOf;
    LargerVals(cfg, cfg.defs[s], u, lower, Now(cfg, users));
  }

  /** What `s` would be with another user value, which nothing it depends on notices. */
  lemma ValueIfSet(cfg: Config, users: Users, s: Sym, v: UserVal)
    requires WF(cfg) && s in cfg.defs
    ensures Value(cfg, users[s := v], s) == ValueOf(cfg, cfg.defs[s], Some(v), Now(cfg, users))
  {
    assert User(users[s := v], s) == Some(v);
    hide *;
    ByLower(cfg, users[s := v], s);
    LowerSame(cfg, users, s, v);
    LowerEnough(cfg, users, s, Some(v));
  }

  ghost function CanAssign(cfg: Config, users: Users, s: Sym): seq<Trit>
    requires WF(cfg) && s in cfg.defs
  {
    AssignableOf(cfg, cfg.defs[s], Now(cfg, users))
  }

  /** The assignable values are those that would stick: a visible symbol set to `t` reads
      back as `t`. That is so exactly unless visibility and selects are m and an imply of y
      is in force: then (m) is returned, while every value set reads back as y. */
  lemma AssignableSticks(cfg: Config, users: Users, s: Sym, t: Trit)
    requires WF(cfg) && Worked(cfg, s)
    ensures var vis, d := Visible(cfg, users, s), cfg.defs[s];
            (t in CanAssign(cfg, users, s) <==> vis != 0 && Tri(cfg, users[s := UserTri(t)], s) == t)
            <==> !(vis == 1 && Of(cfg, users, d.revDep) == 1 && Of(cfg, users, d.weakRevDep) == 2 && t > 0)
  {
    ValueIfSet(cfg, users, s, UserTri(t));
    SticksAt(cfg, cfg.defs[s], Now(cfg, users), t);
    hide WF, Value, AllValues, AssignableOf, VisOf, ExprValue, TriOf;
  }

  lemma SticksAt(cfg: Config, d: SymDef, vals: Vals, t: Trit)
    requires IsTri(d.typ) && !d.isConstant
    ensures var vis := VisOf(cfg, d, vals);
            (t in AssignableOf(cfg, d, vals) <==> vis != 0 && AsTri(ValueOf(cfg, d, Some(UserTri(t)), vals)) == t)
            <==> !(vis == 1 && ExprValue(cfg, vals, d.revDep) == 1 && ExprValue(cfg, vals, d.weakRevDep) == 2 && t > 0)
  {
    BoolNeverHalf(cfg, d, vals);
    hide ExprValue, MaxPrompt, FirstDefault, EffectiveType, VisOf;
  }

  lemma BoolNeverHalf(cfg: Config, d: SymDef, vals: Vals)
    ensures EffectiveType(cfg, d, vals) != Tristate ==> VisOf(cfg, d, vals) != 1
    ensures IsTri(d.typ) ==> EffectiveType(cfg, d, vals) == Bool || EffectiveType(cfg, d, vals) == Tristate
  {
    hide MaxPrompt;
  }

  /** Symbols 0, 1 and 2 are n, m and y; MODULES is 3 and defaults to y; 4 is a tristate
      that m selects and lets be seen, and that y implies. */
  function Sample(): Config
  {
    var n := SymDef(Tristate, "n", true, false, 0, [], [], [], Leaf(0), Leaf(0), Leaf(0));
    Config(map[0 := n, 1 := n.(name := "m", fixed := 1), 2 := n.(name := "y", fixed := 2),
               3 := SymDef(Bool, "MODULES", false, true, 0, [], [Default(Leaf(2), Leaf(2))], [], Leaf(0), Leaf(0), Leaf(2)),
               4 := SymDef(Tristate, "S", false, true, 0, [Leaf(1)], [], [], Leaf(1), Leaf(2), Leaf(2))],
           3, map[0 := 0, 1 := 0, 2 := 0, 3 := 1, 4 := 2], (_, _) => None, (_, _) => "")
  }

  lemma SampleOk()
    ensures WF(Sample()) && Sample().defs.Keys == {0, 1, 2, 3, 4}
  {
    var cfg := Sample();
    assert cfg.rank.Keys == cfg.defs.Keys;
    ModulesDeps();
    SymbolDeps();
    hide Deps;
    forall s | s in cfg.defs && cfg.defs[s].isDefined ensures Below(cfg, cfg.rank[s], Deps(cfg, cfg.defs[s])) {
      assert s == 3 || s == 4;
    }
  }

  lemma ModulesDeps()
    ensures 3 in Sample().defs && Deps(Sample(), Sample().defs[3]) == {0, 2}
  {
    var d := Sample().defs[3];
    assert d.defaults[1..] == [];
    assert DefaultSyms(d.defaults) == {2};
  }

  lemma SymbolDeps()
    ensures 4 in Sample().defs && Deps(Sample(), Sample().defs[4]) == {1, 2, 3}
  {
    var d := Sample().defs[4];
    assert d.prompts[..0] == [];
    assert SymsOf(d.prompts) == {1};
  }

  lemma SampleConstants(users: Users)
    ensures WF(Sample()) && Of(Sample(), users, Leaf(0)) == 0 && Of(Sample(), users, Leaf(1)) == 1 && Of(Sample(), users, Leaf(2)) == 2
  {
    SampleOk();
    hide WF, Value;
    FixedValues(Sample(), users, 0);
    FixedValues(Sample(), users, 1);
    FixedValues(Sample(), users, 2);
  }

  lemma SampleModules(users: Users)
    ensures WF(Sample()) && Of(Sample(), users, Leaf(3)) == 2
  {
    SampleOk();
    SampleConstants(users);
    var cfg := Sample();
    hide WF, Value, VisOf;
    VisibilityMeans(cfg, users, 3, 0);
    var raw := DefaultIsTaken(cfg, users, 3, 0);
    assert !Enough(cfg, users, 3, 0, 1);
  }

  /** There the only value said to be assignable is m, and setting it gives y. */
  lemma AssignedMReadsY()
    ensures WF(Sample()) && 4 in Sample().defs
    ensures 1 in CanAssign(Sample(), map[], 4) && Tri(Sample(), map[4 := UserTri(1)], 4) == 2
  {
    var cfg, set1 := Sample(), map[4 := UserTri(1)];
    SampleOk();
    SampleConstants(map[]);
    SampleModules(map[]);
    SampleConstants(set1);
    SampleModules(set1);
    hide WF, Value, VisOf, AssignableOf, ExprValue, AllValues;
    VisibilityMeans(cfg, map[], 4, 1);
    VisibilityMeans(cfg, set1, 4, 1);
    AssignableSticks(cfg, map[], 4, 1);
    var raw := UserIsFollowed(cfg, set1, 4);
    assert map[][4 := UserTri(1)] == set1;
  }

  /** They are listed in order, each once. */
  lemma AssignableAscends(cfg: Config, users: Users, s: Sym)
    requires WF(cfg) && s in cfg.defs
    ensures var a := CanAssign(cfg, users, s); forall i, j :: 0 <= i < j < |a| ==> a[i] < a[j]
    ensures !IsTri(cfg.defs[s].typ) ==> CanAssign(cfg, users, s) == []
  {
    hide ExprValue, VisOf, EffectiveType, WF, AllValues;
  }

  // ------------------------------------------------------------------ string values

  ghost function Str(cfg: Config, users: Users, s: Sym): string
    requires WF(cfg) && s in cfg.defs
  {
    AsStr(Value(cfg, users, s))
  }

  /** The number a symbol's value stands for, 0 for none. */
  ghost function NumberOf(cfg: Config, users: Users, t: SymType, s: Sym): int
    requires WF(cfg)
  {
    NumOr0(cfg, t, AsStr(Read(Now(cfg, users), s)))
  }

  lemma {:induction false} ActiveRangeIs(cfg: Config, t: SymType, rs: seq<Range>, vals: Vals, j: nat)
    requires j <= |rs| && (forall k :: 0 <= k < j ==> ExprValue(cfg, vals, rs[k].cond) == 0)
    requires j < |rs| ==> ExprValue(cfg, vals, rs[j].cond) != 0
    ensures ActiveRange(cfg, t, rs, vals) ==
            if j == |rs| then None
            else Some((NumOr0(cfg, t, AsStr(Read(vals, rs[j].low))), NumOr0(cfg, t, AsStr(Read(vals, rs[j].high)))))
  {
    if j > 0 { ActiveRangeIs(cfg, t, rs[1..], vals, j - 1); }
  }

  /** The string of a symbol named as a default. */
  ghost function Named(cfg: Config, users: Users, e: Expr): string
    requires WF(cfg)
  {
    if e.Leaf? then AsStr(Read(Now(cfg, users), e.sym)) else ""
  }

  /** A string symbol has the user's string if it is visible, otherwise the first default
      that applies, or nothing. */
  lemma TextMeans(cfg: Config, users: Users, s: Sym, i: nat)
    requires WF(cfg) && s in cfg.defs && cfg.defs[s].typ == Text
    requires FirstHolding(cfg, users, DefaultConds(cfg.defs[s].defaults), i)
    ensures var ds := cfg.defs[s].defaults;
            if Visible(cfg, users, s) != 0 && s in users && users[s].UserStr? then Str(cfg, users, s) == users[s].s
            else Str(cfg, users, s) == if i < |ds| then Named(cfg, users, ds[i].value) else ""
  {
    hide WF, Value, AllValues, ExprValue, VisOf, FirstStr, FirstDefault;
    ScratchValue(cfg, users, s);
    var d := cfg.defs[s];
    assert forall j :: 0 <= j < i ==> DefaultConds(d.defaults)[j] == d.defaults[j].cond;
    FirstDefaultIs(cfg, d.defaults, Now(cfg, users), i);
  }

  /** Range j lets `n` pass; with no range everything passes. */
  ghost predicate Passes(cfg: Config, users: Users, s: Sym, j: nat, n: int)
    requires WF(cfg) && s in cfg.defs
  {
    var d := cfg.defs[s];
    j < |d.ranges| ==> NumberOf(cfg, users, d.typ, d.ranges[j].low) <= n <= NumberOf(cfg, users, d.typ, d.ranges[j].high)
  }

  /** The user's number is used: the symbol is visible and the range lets the number pass. */
  ghost predicate OwnNumber(cfg: Config, users: Users, s: Sym, j: nat)
    requires WF(cfg) && s in cfg.defs
  {
    && Visible(cfg, users, s) != 0 && s in users && users[s].UserStr? && users[s].s != ""
    && Passes(cfg, users, s, j, NumOr0(cfg, cfg.defs[s].typ, users[s].s))
  }

  /** Default i as it was written, or nothing. */
  ghost function AsDefault(cfg: Config, users: Users, s: Sym, i: nat): string
    requires WF(cfg) && s in cfg.defs
  {
    if i < |cfg.defs[s].defaults| then Named(cfg, users, cfg.defs[s].defaults[i].value) else ""
  }

  ghost function DefaultNumber(cfg: Config, users: Users, s: Sym, i: nat): int
    requires WF(cfg) && s in cfg.defs
  {
    if i < |cfg.defs[s].defaults| then NumOr0(cfg, cfg.defs[s].typ, AsDefault(cfg, users, s, i)) else 0
  }

  /** The user's number is kept as it was written if the symbol is visible and the range in
      force lets it pass. Otherwise the first default that applies is taken, or nothing;
      what that stands for is kept as it was written if it passes, and rewritten to the
      nearer end of the range if it does not. */
  lemma NumberMeans(cfg: Config, users: Users, s: Sym, i: nat, j: nat)
    requires WF(cfg) && s in cfg.defs && (cfg.defs[s].typ == Int || cfg.defs[s].typ == Hex)
    requires FirstHolding(cfg, users, DefaultConds(cfg.defs[s].defaults), i)
    requires FirstHolding(cfg, users, RangeConds(cfg.defs[s].ranges), j)
    ensures OwnNumber(cfg, users, s, j) ==> Str(cfg, users, s) == users[s].s
    ensures !OwnNumber(cfg, users, s, j) && Passes(cfg, users, s, j, DefaultNumber(cfg, users, s, i)) ==>
              Str(cfg, users, s) == AsDefault(cfg, users, s, i)
    ensures !OwnNumber(cfg, users, s, j) && j < |cfg.defs[s].ranges| ==>
              var d, n := cfg.defs[s], DefaultNumber(cfg, users, s, i);
              var low, high := NumberOf(cfg, users, d.typ, d.ranges[j].low), NumberOf(cfg, users, d.typ, d.ranges[j].high);
              && (n < low ==> Str(cfg, users, s) == cfg.fromInt(d.typ, low))
              && (low <= n && high < n ==> Str(cfg, users, s) == cfg.fromInt(d.typ, high))
  {
    hide WF, Value, AllValues, ExprValue, VisOf, FirstStr, FirstDefault, ActiveRange, NumOr0, ValueOf, UsesUserStr;
    ScratchValue(cfg, users, s);
    var d, vals := cfg.defs[s], Now(cfg, users);
    assert forall k :: 0 <= k < i ==> DefaultConds(d.defaults)[k] == d.defaults[k].cond;
    assert forall k :: 0 <= k < j ==> RangeConds(d.ranges)[k] == d.ranges[k].cond;
    FirstDefaultIs(cfg, d.defaults, vals, i);
    ActiveRangeIs(cfg, d.typ, d.ranges, vals, j);
    NumberAt(cfg, d, User(users, s), vals);
  }

  lemma NumberAt(cfg: Config, d: SymDef, u: Option<UserVal>, vals: Vals)
    requires d.typ == Int || d.typ == Hex
    ensures var range, def := ActiveRange(cfg, d.typ, d.ranges, vals), FirstStr(cfg, d.defaults, vals);
            var s := if def.Some? then def.value else "";
            var n := if def.Some? then NumOr0(cfg, d.typ, s) else 0;
            var v := AsStr(ValueOf(cfg, d, u, vals));
            && (UsesUserStr(cfg, d, u, vals) <==>
                 VisOf(cfg, d, vals) != 0 && u.Some? && u.value.UserStr? && u.value.s != "" && InRange(range, NumOr0(cfg, d.typ, u.value.s)))
            && (UsesUserStr(cfg, d, u, vals) ==> v == u.value.s)
            && (!UsesUserStr(cfg, d, u, vals) ==>
                 v == if range.Some? && n < range.value.0 then cfg.fromInt(d.typ, range.value.0)
                      else if range.Some? && n > range.value.1 then cfg.fromInt(d.typ, range.value.1) else s)
  {
    hide ExprValue, VisOf, FirstStr, ActiveRange, NumOr0;
  }

  /** int() reads what str() and hex() write, and nothing from an empty string. */
  ghost predicate Numerals(cfg: Config, t: SymType)
  {
    cfg.toInt(t, "").None? && forall n :: cfg.toInt(t, cfg.fromInt(t, n)) == Some(n)
  }

  lemma OwnPasses(cfg: Config, users: Users, s: Sym, j: nat)
    requires WF(cfg) && s in cfg.defs && OwnNumber(cfg, users, s, j)
    ensures s in users && users[s].UserStr? && Passes(cfg, users, s, j, NumOr0(cfg, cfg.defs[s].typ, users[s].s))
  {
  }

  /** So with a range in force every number read lies in it; a default is moved no further
      than it has to be. */
  lemma NumberInRange(cfg: Config, users: Users, s: Sym, i: nat, j: nat)
    requires WF(cfg) && s in cfg.defs && (cfg.defs[s].typ == Int || cfg.defs[s].typ == Hex) && Numerals(cfg, cfg.defs[s].typ)
    requires FirstHolding(cfg, users, DefaultConds(cfg.defs[s].defaults), i)
    requires FirstHolding(cfg, users, RangeConds(cfg.defs[s].ranges), j) && j < |cfg.defs[s].ranges|
    requires var d := cfg.defs[s]; NumberOf(cfg, users, d.typ, d.ranges[j].low) <= NumberOf(cfg, users, d.typ, d.ranges[j].high)
    ensures var d := cfg.defs[s];
            var low, high := NumberOf(cfg, users, d.typ, d.ranges[j].low), NumberOf(cfg, users, d.typ, d.ranges[j].high);
            var value, n := NumOr0(cfg, d.typ, Str(cfg, users, s)), DefaultNumber(cfg, users, s, i);
            && low <= value <= high
            && (!OwnNumber(cfg, users, s, j) ==> forall x :: low <= x <= high ==> Apart(value, n) <= Apart(x, n))
  {
    hide WF, Value, AllValues, VisOf, Str, ExprValue, OwnNumber, FirstHolding;
    NumberMeans(cfg, users, s, i, j);
    if OwnNumber(cfg, users, s, j) { OwnPasses(cfg, users, s, j); }
  }

  // ------------------------------------------------------------------- user values

  /** n, m and y may be given as numbers or as strings, and are stored as numbers. */
  lemma StoredForm(t: SymType, x: Trit, v: UserVal)
    ensures Normalized(t, UserTri(x)) == UserTri(x)
    ensures IsTri(t) ==> Normalized(t, UserStr(TriStr(x))) == UserTri(x)
    ensures !IsTri(t) ==> Normalized(t, v) == v
    ensures v.UserStr? && v.s != "n" && v.s != "m" && v.s != "y" ==> Normalized(t, v) == v
  {
  }

  /** What set_value() accepts: n and y for a bool, m as well for a tristate, any string for
      a string, numbers for int and hex, none below zero for hex, and nothing for a symbol
      without a type. */
  lemma FormsAccepted(cfg: Config, t: SymType, v: UserVal)
    ensures var w := Normalized(t, v);
            Acceptable(cfg, t, w) <==>
              || (t == Tristate && (Says(v, 0) || Says(v, 1) || Says(v, 2)))
              || (t == Bool && (Says(v, 0) || Says(v, 2)))
              || (t == Text && v.UserStr?)
              || ((t == Int || t == Hex) && v.UserStr? && cfg.toInt(t, v.s).Some? && (t == Hex ==> cfg.toInt(t, v.s).value >= 0))
  {
    StoredForm(t, 0, v);
    StoredForm(t, 1, v);
    StoredForm(t, 2, v);
    assert TriStr(0) == "n" && TriStr(1) == "m" && TriStr(2) == "y";
  }

  /** The value given is `x`, as a number or as a string. */
  predicate Says(v: UserVal, x: Trit) { v == UserTri(x) || v == UserStr(TriStr(x)) }
}
