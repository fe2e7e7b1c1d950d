/** Lazily cached symbol values with pruned invalidation (tools/kconfiglib.py):
    Symbol.tri_value, str_value, visibility, set_value, unset_value,
    _rec_invalidate and Kconfig._build_dep, for symbols outside choices. */
module KconfigCache {
  import opened KconfigModel
  import opened Lists

  datatype UserVal = UserTri(t: Trit) | UserStr(s: string)

  type Users = map<Sym, UserVal>
  type Vals = map<Sym, Val>

  function User(users: Users, s: Sym): Option<UserVal> { if s in users then Some(users[s]) else None }

  // ------------------------------------------------- values without any cache

  function EffectiveType(cfg: Config, d: SymDef, vals: Vals): SymType
  {
    if d.typ == Tristate && AsTri(Read(vals, cfg.modules)) == 0 then Bool else d.typ
  }

  function MaxPrompt(cfg: Config, prompts: seq<Expr>, vals: Vals): Trit
  {
    if prompts == [] then 0
    else Max(MaxPrompt(cfg, prompts[..|prompts| - 1], vals), ExprValue(cfg, vals, prompts[|prompts| - 1]))
  }

  /** The upper bound on what a user may set. */
  function VisOf(cfg: Config, d: SymDef, vals: Vals): Trit
  {
    var vis := MaxPrompt(cfg, d.prompts, vals);
    if vis == 1 && EffectiveType(cfg, d, vals) != Tristate then 2 else vis
  }

  function FirstDefault(cfg: Config, ds: seq<Default>, vals: Vals): Trit
  {
    if ds == [] then 0
    else
      var dep := ExprValue(cfg, vals, ds[0].cond);
      if dep != 0 then Min(ExprValue(cfg, vals, ds[0].value), dep) else FirstDefault(cfg, ds[1..], vals)
  }

  /** The user value cut down to the visibility, or defaults and implies. */
  function BaseTri(cfg: Config, d: SymDef, u: Option<UserVal>, vals: Vals): Trit
  {
    var vis := VisOf(cfg, d, vals);
    if vis != 0 && u.Some? then (if u.value.UserTri? then Min(u.value.t, vis) else 0)
    else
      var v := FirstDefault(cfg, d.defaults, vals);
      var weak := ExprValue(cfg, vals, d.weakRevDep);
      if weak != 0 && ExprValue(cfg, vals, d.directDep) != 0 then Max(weak, v) else v
  }

  /** Selects raise the value. */
  function SelectedTri(cfg: Config, d: SymDef, u: Option<UserVal>, vals: Vals): Trit
  {
    Max(ExprValue(cfg, vals, d.revDep), BaseTri(cfg, d, u, vals))
  }

  function TriOf(cfg: Config, d: SymDef, u: Option<UserVal>, vals: Vals): Trit
  {
    var v := SelectedTri(cfg, d, u, vals);
    if v == 1 && (EffectiveType(cfg, d, vals) == Bool || ExprValue(cfg, vals, d.weakRevDep) == 2) then 2 else v
  }

  function DefaultStr(vals: Vals, e: Expr): string { if e.Leaf? then AsStr(Read(vals, e.sym)) else "" }

  /** The first default whose condition holds, as a string. */
  function FirstStr(cfg: Config, ds: seq<Default>, vals: Vals): Option<string>
  {
    if ds == [] then None
    else if ExprValue(cfg, vals, ds[0].cond) != 0 then Some(DefaultStr(vals, ds[0].value))
    else FirstStr(cfg, ds[1..], vals)
  }

  function NumOr0(cfg: Config, t: SymType, s: string): int
  {
    var n := cfg.toInt(t, s);
    if n.Some? then n.value else 0
  }

  /** The first range whose condition holds. */
  function ActiveRange(cfg: Config, t: SymType, rs: seq<Range>, vals: Vals): Option<(int, int)>
  {
    if rs == [] then None
    else if ExprValue(cfg, vals, rs[0].cond) != 0 then
      Some((NumOr0(cfg, t, AsStr(Read(vals, rs[0].low))), NumOr0(cfg, t, AsStr(Read(vals, rs[0].high)))))
    else ActiveRange(cfg, t, rs[1..], vals)
  }

  predicate InRange(range: Option<(int, int)>, n: int) { range.Some? ==> range.value.0 <= n <= range.value.1 }

  /** A number outside the active range is moved to the nearer end of it. */
  function Clamped(cfg: Config, t: SymType, s: string, n: int, range: Option<(int, int)>): string
  {
    if range.Some? && n < range.value.0 then cfg.fromInt(t, range.value.0)
    else if range.Some? && n > range.value.1 then cfg.fromInt(t, range.value.1)
    else s
  }

  predicate UsesUserStr(cfg: Config, d: SymDef, u: Option<UserVal>, vals: Vals)
  {
    VisOf(cfg, d, vals) != 0 && u.Some? && u.value.UserStr? &&
    ((d.typ == Int || d.typ == Hex) ==>
      u.value.s != "" && InRange(ActiveRange(cfg, d.typ, d.ranges, vals), NumOr0(cfg, d.typ, u.value.s)))
  }

  function StrOf(cfg: Config, d: SymDef, u: Option<UserVal>, vals: Vals): string
  {
    if UsesUserStr(cfg, d, u, vals) then u.value.s
    else
      var def := FirstStr(cfg, d.defaults, vals);
      var s := if def.Some? then def.value else "";
      var n := if def.Some? then NumOr0(cfg, d.typ, s) else 0;
      if d.typ == Text then s else Clamped(cfg, d.typ, s, n, ActiveRange(cfg, d.typ, d.ranges, vals))
  }

  /** The value of one symbol, given the values of the symbols it refers to. */
  function ValueOf(cfg: Config, d: SymDef, u: Option<UserVal>, vals: Vals): Val
  {
    if IsTri(d.typ) then TriVal(if d.isConstant then d.fixed else TriOf(cfg, d, u, vals))
    else StrVal(if d.typ == Unknown then d.name else StrOf(cfg, d, u, vals))
  }

  /** The values a bool or tristate symbol can be given. */
  function AssignableOf(cfg: Config, d: SymDef, vals: Vals): seq<Trit>
  {
    var vis := VisOf(cfg, d, vals);
    if !IsTri(d.typ) || vis == 0 then []
    else
      var rev := ExprValue(cfg, vals, d.revDep);
      if rev == 2 then [2]
      else if vis == 2 then
        var noM := EffectiveType(cfg, d, vals) == Bool || ExprValue(cfg, vals, d.weakRevDep) == 2;
        if rev == 0 then (if noM then [0, 2] else [0, 1, 2]) else (if noM then [2] else [1, 2])
      else if rev == 0 then (if ExprValue(cfg, vals, d.weakRevDep) != 2 then [0, 1] else [0, 2])
      else [1]
  }

  // ------------------------------------------------------- well-formed configs

  function SymsOf(es: seq<Expr>): set<Sym>
  {
    if es == [] then {} else SymsOf(es[..|es| - 1]) + Syms(es[|es| - 1])
  }

  function DefaultSyms(ds: seq<Default>): set<Sym>
  {
    if ds == [] then {} else Syms(ds[0].value) + Syms(ds[0].cond) + DefaultSyms(ds[1..])
  }

  function RangeSyms(rs: seq<Range>): set<Sym>
  {
    if rs == [] then {} else {rs[0].low, rs[0].high} + Syms(rs[0].cond) + RangeSyms(rs[1..])
  }

  /** Every symbol that the properties of `d` mention. */
  function Mentions(d: SymDef): set<Sym>
  {
    SymsOf(d.prompts) + DefaultSyms(d.defaults) + RangeSyms(d.ranges) +
    Syms(d.revDep) + Syms(d.weakRevDep) + Syms(d.directDep)
  }

  /** What `d` can depend on: a tristate symbol also looks at MODULES. */
  function Deps(cfg: Config, d: SymDef): set<Sym>
  {
    Mentions(d) + (if d.typ == Tristate then {cfg.modules} else {})
  }

  /** Constants are n, m, y and quoted strings; they and the symbols that are
      mentioned but never defined have no prompt. */
  predicate ConstOk(d: SymDef)
  {
    && (d.isConstant ==> !d.isDefined && (d.typ == Tristate || d.typ == Unknown))
    && (!d.isDefined ==> d.prompts == [] && (d.isConstant || d.typ == Unknown))
  }

  /** Acyclic: every symbol depends on symbols of lower rank only. */
  ghost predicate WF(cfg: Config)
  {
    && cfg.rank.Keys == cfg.defs.Keys
    && cfg.modules in cfg.defs && !cfg.defs[cfg.modules].isConstant
    && (forall s :: s in cfg.defs ==> ConstOk(cfg.defs[s]))
    && (forall s :: s in cfg.defs && cfg.defs[s].isDefined ==> Below(cfg, cfg.rank[s], Deps(cfg, cfg.defs[s])))
  }

  ghost predicate Below(cfg: Config, r: nat, ss: set<Sym>)
  {
    forall y :: y in ss ==> y in cfg.defs && y in cfg.rank && cfg.rank[y] < r
  }

  /** The value of a symbol recomputed from scratch. */
  ghost function Value(cfg: Config, users: Users, s: Sym): Val
    requires WF(cfg) && s in cfg.defs
    decreases cfg.rank[s]
  {
    ValueOf(cfg, cfg.defs[s], User(users, s),
            map y | y in cfg.defs && cfg.rank[y] < cfg.rank[s] :: Value(cfg, users, y))
  }

  ghost function AllValues(cfg: Config, users: Users): Vals
    requires WF(cfg)
  {
    map s | s in cfg.defs :: Value(cfg, users, s)
  }

  // ------------------------------- the symbols whose values were looked at

  predicate Varies(cfg: Config, s: Sym)
  {
    s in cfg.defs && !cfg.defs[s].isConstant && cfg.defs[s].typ != Unknown
  }

  function TriRead(cfg: Config, s: Sym): set<Sym>
  {
    if Varies(cfg, s) && IsTri(cfg.defs[s].typ) then {s} else {}
  }

  function StrRead(cfg: Config, s: Sym): set<Sym> { if Varies(cfg, s) then {s} else {} }

  /** Evaluation stops early on n && and on y ||. */
  function Reads(cfg: Config, vals: Vals, e: Expr): set<Sym>
  {
    match e
    case Leaf(s) => TriRead(cfg, s)
    case And(l, r) => Reads(cfg, vals, l) + (if ExprValue(cfg, vals, l) == 0 then {} else Reads(cfg, vals, r))
    case Or(l, r) => Reads(cfg, vals, l) + (if ExprValue(cfg, vals, l) == 2 then {} else Reads(cfg, vals, r))
    case Not(f) => Reads(cfg, vals, f)
    case Relation(_, a, b) => StrRead(cfg, a) + StrRead(cfg, b)
  }

  function TypeReads(cfg: Config, d: SymDef): set<Sym>
  {
    if d.typ == Tristate then TriRead(cfg, cfg.modules) else {}
  }

  function PromptReads(cfg: Config, prompts: seq<Expr>, vals: Vals): set<Sym>
  {
    if prompts == [] then {}
    else PromptReads(cfg, prompts[..|prompts| - 1], vals) + Reads(cfg, vals, prompts[|prompts| - 1])
  }

  function VisReads(cfg: Config, d: SymDef, vals: Vals): set<Sym>
  {
    PromptReads(cfg, d.prompts, vals) + (if MaxPrompt(cfg, d.prompts, vals) == 1 then TypeReads(cfg, d) else {})
  }

  function DefaultReads(cfg: Config, ds: seq<Default>, vals: Vals): set<Sym>
  {
    if ds == [] then {}
    else Reads(cfg, vals, ds[0].cond) +
         (if ExprValue(cfg, vals, ds[0].cond) != 0 then Reads(cfg, vals, ds[0].value)
          else DefaultReads(cfg, ds[1..], vals))
  }

  function BaseReads(cfg: Config, d: SymDef, u: Option<UserVal>, vals: Vals): set<Sym>
  {
    if VisOf(cfg, d, vals) != 0 && u.Some? then {}
    else DefaultReads(cfg, d.defaults, vals) + Reads(cfg, vals, d.weakRevDep) +
         (if ExprValue(cfg, vals, d.weakRevDep) != 0 then Reads(cfg, vals, d.directDep) else {})
  }

  function SelectedReads(cfg: Config, d: SymDef, u: Option<UserVal>, vals: Vals): set<Sym>
  {
    VisReads(cfg, d, vals) + BaseReads(cfg, d, u, vals) + Reads(cfg, vals, d.revDep) +
    (if ExprValue(cfg, vals, d.revDep) != 0 then Reads(cfg, vals, d.directDep) else {})
  }

  function TriReads(cfg: Config, d: SymDef, u: Option<UserVal>, vals: Vals): set<Sym>
  {
    SelectedReads(cfg, d, u, vals) +
    (if SelectedTri(cfg, d, u, vals) != 1 then {}
     else TypeReads(cfg, d) +
          (if EffectiveType(cfg, d, vals) == Bool then {} else Reads(cfg, vals, d.weakRevDep)))
  }

  function FirstStrReads(cfg: Config, ds: seq<Default>, vals: Vals): set<Sym>
  {
    if ds == [] then {}
    else Reads(cfg, vals, ds[0].cond) +
         (if ExprValue(cfg, vals, ds[0].cond) != 0
          then (if ds[0].value.Leaf? then StrRead(cfg, ds[0].value.sym) else {})
          else FirstStrReads(cfg, ds[1..], vals))
  }

  function RangeReads(cfg: Config, rs: seq<Range>, vals: Vals): set<Sym>
  {
    if rs == [] then {}
    else Reads(cfg, vals, rs[0].cond) +
         (if ExprValue(cfg, vals, rs[0].cond) != 0 then StrRead(cfg, rs[0].low) + StrRead(cfg, rs[0].high)
          else RangeReads(cfg, rs[1..], vals))
  }

  function StrReads(cfg: Config, d: SymDef, u: Option<UserVal>, vals: Vals): set<Sym>
  {
    VisReads(cfg, d, vals) +
    (if d.typ == Text then {} else RangeReads(cfg, d.ranges, vals)) +
    (if UsesUserStr(cfg, d, u, vals) then {} else FirstStrReads(cfg, d.defaults, vals))
  }

  function ValueReads(cfg: Config, d: SymDef, u: Option<UserVal>, vals: Vals): set<Sym>
  {
    if d.isConstant || d.typ == Unknown then {}
    else if IsTri(d.typ) then TriReads(cfg, d, u, vals)
    else StrReads(cfg, d, u, vals)
  }

  function AssignableReads(cfg: Config, d: SymDef, vals: Vals): set<Sym>
  {
    if !IsTri(d.typ) then {} else
    VisReads(cfg, d, vals) + (if VisOf(cfg, d, vals) == 0 then {} else AssignableDepReads(cfg, d, vals))
  }

  function AssignableDepReads(cfg: Config, d: SymDef, vals: Vals): set<Sym>
  {
    var rev := ExprValue(cfg, vals, d.revDep);
    Reads(cfg, vals, d.revDep) +
    (if rev == 2 then {}
     else if VisOf(cfg, d, vals) == 2 && EffectiveType(cfg, d, vals) == Bool then TypeReads(cfg, d)
     else if VisOf(cfg, d, vals) == 2 then TypeReads(cfg, d) + Reads(cfg, vals, d.weakRevDep)
     else if rev == 0 then Reads(cfg, vals, d.weakRevDep)
     else {})
  }

  // ----------------------- a value depends only on the symbols looked at

  /** The type of value a symbol has, and the value of those that never vary. */
  predicate Fits(cfg: Config, s: Sym, v: Val)
    requires s in cfg.defs
  {
    var d := cfg.defs[s];
    && ConstOk(d)
    && v.TriVal? == IsTri(d.typ)
    && (IsTri(d.typ) && d.isConstant ==> v == TriVal(d.fixed))
    && (d.typ == Unknown ==> v == StrVal(d.name))
  }

  /** Two assignments that both fit the symbols in `ss`. */
  ghost predicate Both(cfg: Config, v: Vals, w: Vals, ss: set<Sym>)
  {
    forall y :: y in ss ==> y in cfg.defs && y in v && y in w && Fits(cfg, y, v[y]) && Fits(cfg, y, w[y])
  }

  ghost predicate SameOn(v: Vals, w: Vals, ss: set<Sym>)
  {
    forall y :: y in ss ==> Read(v, y) == Read(w, y)
  }

  lemma {:induction false} FrameExpr(cfg: Config, v: Vals, w: Vals, e: Expr)
    requires Both(cfg, v, w, Syms(e)) && SameOn(v, w, Reads(cfg, v, e))
    ensures ExprValue(cfg, v, e) == ExprValue(cfg, w, e)
    ensures Reads(cfg, v, e) == Reads(cfg, w, e)
  {
    match e
    case Leaf(s) =>
    case And(l, r) =>
      FrameExpr(cfg, v, w, l);
      if ExprValue(cfg, v, l) != 0 { FrameExpr(cfg, v, w, r); }
    case Or(l, r) =>
      FrameExpr(cfg, v, w, l);
      if ExprValue(cfg, v, l) != 2 { FrameExpr(cfg, v, w, r); }
    case Not(f) => FrameExpr(cfg, v, w, f);
    case Relation(_, a, b) => FrameStr(cfg, v, w, a); FrameStr(cfg, v, w, b);
  }

  lemma FrameStr(cfg: Config, v: Vals, w: Vals, s: Sym)
    requires Both(cfg, v, w, {s}) && SameOn(v, w, StrRead(cfg, s))
    ensures Read(v, s) == Read(w, s)
  {
  }

  lemma FrameType(cfg: Config, v: Vals, w: Vals, d: SymDef)
    requires Both(cfg, v, w, Deps(cfg, d)) && SameOn(v, w, TypeReads(cfg, d))
    ensures EffectiveType(cfg, d, v) == EffectiveType(cfg, d, w)
  {
    if d.typ == Tristate { FrameExpr(cfg, v, w, Leaf(cfg.modules)); }
  }

  lemma {:induction false} FramePrompts(cfg: Config, v: Vals, w: Vals, ps: seq<Expr>)
    requires Both(cfg, v, w, SymsOf(ps)) && SameOn(v, w, PromptReads(cfg, ps, v))
    ensures MaxPrompt(cfg, ps, v) == MaxPrompt(cfg, ps, w)
    ensures PromptReads(cfg, ps, v) == PromptReads(cfg, ps, w)
  {
    if ps != [] {
      FramePrompts(cfg, v, w, ps[..|ps| - 1]);
      FrameExpr(cfg, v, w, ps[|ps| - 1]);
    }
  }

  lemma FrameVis(cfg: Config, v: Vals, w: Vals, d: SymDef)
    requires Both(cfg, v, w, Deps(cfg, d)) && SameOn(v, w, VisReads(cfg, d, v))
    ensures VisOf(cfg, d, v) == VisOf(cfg, d, w)
    ensures VisReads(cfg, d, v) == VisReads(cfg, d, w)
  {
    FramePrompts(cfg, v, w, d.prompts);
    if MaxPrompt(cfg, d.prompts, v) == 1 { FrameType(cfg, v, w, d); }
  }

  lemma {:induction false} FrameDefaults(cfg: Config, v: Vals, w: Vals, ds: seq<Default>)
    requires Both(cfg, v, w, DefaultSyms(ds)) && SameOn(v, w, DefaultReads(cfg, ds, v))
    ensures FirstDefault(cfg, ds, v) == FirstDefault(cfg, ds, w)
    ensures DefaultReads(cfg, ds, v) == DefaultReads(cfg, ds, w)
  {
    if ds != [] {
      FrameExpr(cfg, v, w, ds[0].cond);
      if ExprValue(cfg, v, ds[0].cond) != 0 {
        FrameExpr(cfg, v, w, ds[0].value);
      } else {
        FrameDefaults(cfg, v, w, ds[1..]);
      }
    }
  }

  lemma FrameBase(cfg: Config, v: Vals, w: Vals, d: SymDef, u: Option<UserVal>)
    requires Both(cfg, v, w, Deps(cfg, d)) && SameOn(v, w, VisReads(cfg, d, v) + BaseReads(cfg, d, u, v))
    ensures BaseTri(cfg, d, u, v) == BaseTri(cfg, d, u, w)
    ensures BaseReads(cfg, d, u, v) == BaseReads(cfg, d, u, w)
  {
    FrameVis(cfg, v, w, d);
    if VisOf(cfg, d, v) == 0 || u.None? {
      FrameDefaults(cfg, v, w, d.defaults);
      FrameExpr(cfg, v, w, d.weakRevDep);
      if ExprValue(cfg, v, d.weakRevDep) != 0 { FrameExpr(cfg, v, w, d.directDep); }
    }
  }

  lemma FrameTri(cfg: Config, v: Vals, w: Vals, d: SymDef, u: Option<UserVal>)
    requires Both(cfg, v, w, Deps(cfg, d)) && SameOn(v, w, TriReads(cfg, d, u, v))
    ensures TriOf(cfg, d, u, v) == TriOf(cfg, d, u, w)
    ensures TriReads(cfg, d, u, v) == TriReads(cfg, d, u, w)
  {
    hide BaseTri, BaseReads, VisReads, VisOf, ExprValue, Reads, EffectiveType;
    FrameVis(cfg, v, w, d);
    FrameBase(cfg, v, w, d, u);
    FrameExpr(cfg, v, w, d.revDep);
    if ExprValue(cfg, v, d.revDep) != 0 { FrameExpr(cfg, v, w, d.directDep); }
    if SelectedTri(cfg, d, u, v) == 1 {
      FrameType(cfg, v, w, d);
      if EffectiveType(cfg, d, v) != Bool { FrameExpr(cfg, v, w, d.weakRevDep); }
    }
  }

  lemma {:induction false} FrameFirstStr(cfg: Config, v: Vals, w: Vals, ds: seq<Default>)
    requires Both(cfg, v, w, DefaultSyms(ds)) && SameOn(v, w, FirstStrReads(cfg, ds, v))
    ensures FirstStr(cfg, ds, v) == FirstStr(cfg, ds, w)
    ensures FirstStrReads(cfg, ds, v) == FirstStrReads(cfg, ds, w)
  {
    if ds != [] {
      FrameExpr(cfg, v, w, ds[0].cond);
      if ExprValue(cfg, v, ds[0].cond) != 0 {
        if ds[0].value.Leaf? { FrameStr(cfg, v, w, ds[0].value.sym); }
      } else {
        FrameFirstStr(cfg, v, w, ds[1..]);
      }
    }
  }

  lemma {:induction false} FrameRange(cfg: Config, t: SymType, v: Vals, w: Vals, rs: seq<Range>)
    requires Both(cfg, v, w, RangeSyms(rs)) && SameOn(v, w, RangeReads(cfg, rs, v))
    ensures ActiveRange(cfg, t, rs, v) == ActiveRange(cfg, t, rs, w)
    ensures RangeReads(cfg, rs, v) == RangeReads(cfg, rs, w)
  {
    if rs != [] {
      FrameExpr(cfg, v, w, rs[0].cond);
      if ExprValue(cfg, v, rs[0].cond) != 0 {
        FrameStr(cfg, v, w, rs[0].low);
        FrameStr(cfg, v, w, rs[0].high);
      } else {
        FrameRange(cfg, t, v, w, rs[1..]);
      }
    }
  }

  lemma FrameStrValue(cfg: Config, v: Vals, w: Vals, d: SymDef, u: Option<UserVal>)
    requires Both(cfg, v, w, Deps(cfg, d)) && SameOn(v, w, StrReads(cfg, d, u, v))
    ensures StrOf(cfg, d, u, v) == StrOf(cfg, d, u, w)
    ensures StrReads(cfg, d, u, v) == StrReads(cfg, d, u, w)
  {
    FrameVis(cfg, v, w, d);
    if d.typ != Text { FrameRange(cfg, d.typ, v, w, d.ranges); }
    if !UsesUserStr(cfg, d, u, v) { FrameFirstStr(cfg, v, w, d.defaults); }
  }

  /** The value of a symbol is the same under two assignments that agree on the
      symbols that evaluation under the first one looks at. */
  lemma FrameValue(cfg: Config, v: Vals, w: Vals, d: SymDef, u: Option<UserVal>)
    requires ConstOk(d) && (d.isDefined ==> Both(cfg, v, w, Deps(cfg, d)))
    requires SameOn(v, w, ValueReads(cfg, d, u, v))
    ensures ValueOf(cfg, d, u, v) == ValueOf(cfg, d, u, w)
    ensures ValueReads(cfg, d, u, v) == ValueReads(cfg, d, u, w)
  {
    if d.isDefined && d.typ != Unknown {
      if IsTri(d.typ) { FrameTri(cfg, v, w, d, u); } else { FrameStrValue(cfg, v, w, d, u); }
    }
  }

  lemma FrameAssignable(cfg: Config, v: Vals, w: Vals, d: SymDef)
    requires Both(cfg, v, w, Deps(cfg, d)) && SameOn(v, w, AssignableReads(cfg, d, v))
    ensures AssignableOf(cfg, d, v) == AssignableOf(cfg, d, w)
    ensures AssignableReads(cfg, d, v) == AssignableReads(cfg, d, w)
  {
    if IsTri(d.typ) {
      FrameVis(cfg, v, w, d);
      if VisOf(cfg, d, v) != 0 {
        FrameExpr(cfg, v, w, d.revDep);
        var rev := ExprValue(cfg, v, d.revDep);
        if rev != 2 && VisOf(cfg, d, v) == 2 {
          FrameType(cfg, v, w, d);
          if EffectiveType(cfg, d, v) != Bool { FrameExpr(cfg, v, w, d.weakRevDep); }
        } else if rev == 0 {
          FrameExpr(cfg, v, w, d.weakRevDep);
        }
      }
    }
  }

  // ------------------------ looked-at symbols are among the dependencies

  lemma {:induction false} ReadsInSyms(cfg: Config, v: Vals, e: Expr)
    ensures Reads(cfg, v, e) <= Syms(e)
  {
    match e
    case Leaf(_) =>
    case Relation(_, _, _) =>
    case Not(f) => ReadsInSyms(cfg, v, f);
    case _ => ReadsInSyms(cfg, v, e.l); ReadsInSyms(cfg, v, e.r);
  }

  lemma {:induction false} PromptReadsInSyms(cfg: Config, v: Vals, ps: seq<Expr>)
    ensures PromptReads(cfg, ps, v) <= SymsOf(ps)
  {
    if ps != [] { PromptReadsInSyms(cfg, v, ps[..|ps| - 1]); ReadsInSyms(cfg, v, ps[|ps| - 1]); }
  }

  lemma {:induction false} DefaultReadsInSyms(cfg: Config, v: Vals, ds: seq<Default>)
    ensures DefaultReads(cfg, ds, v) + FirstStrReads(cfg, ds, v) <= DefaultSyms(ds)
  {
    if ds != [] {
      ReadsInSyms(cfg, v, ds[0].cond);
      ReadsInSyms(cfg, v, ds[0].value);
      DefaultReadsInSyms(cfg, v, ds[1..]);
    }
  }

  lemma {:induction false} RangeReadsInSyms(cfg: Config, v: Vals, rs: seq<Range>)
    ensures RangeReads(cfg, rs, v) <= RangeSyms(rs)
  {
    if rs != [] { ReadsInSyms(cfg, v, rs[0].cond); RangeReadsInSyms(cfg, v, rs[1..]); }
  }

  lemma VisReadsAreDeps(cfg: Config, v: Vals, d: SymDef)
    ensures VisReads(cfg, d, v) <= Deps(cfg, d)
  {
    PromptReadsInSyms(cfg, v, d.prompts);
  }

  lemma AssignableReadsAreDeps(cfg: Config, v: Vals, d: SymDef)
    ensures AssignableReads(cfg, d, v) <= Deps(cfg, d)
  {
    VisReadsAreDeps(cfg, v, d);
    ReadsInSyms(cfg, v, d.revDep);
    ReadsInSyms(cfg, v, d.weakRevDep);
    assert AssignableDepReads(cfg, d, v) <= Deps(cfg, d);
  }

  lemma TriReadsAreDeps(cfg: Config, v: Vals, d: SymDef, u: Option<UserVal>)
    ensures TriReads(cfg, d, u, v) <= Deps(cfg, d)
  {
    VisReadsAreDeps(cfg, v, d);
    ReadsInSyms(cfg, v, d.revDep);
    ReadsInSyms(cfg, v, d.weakRevDep);
    ReadsInSyms(cfg, v, d.directDep);
    assert BaseReads(cfg, d, u, v) <= Deps(cfg, d) by { DefaultReadsInSyms(cfg, v, d.defaults); }
  }

  lemma StrReadsAreDeps(cfg: Config, v: Vals, d: SymDef, u: Option<UserVal>)
    ensures StrReads(cfg, d, u, v) <= Deps(cfg, d)
  {
    VisReadsAreDeps(cfg, v, d);
    DefaultReadsInSyms(cfg, v, d.defaults);
    RangeReadsInSyms(cfg, v, d.ranges);
  }

  /** Everything looked at is a registered dependency or MODULES. */
  lemma ReadsAreDeps(cfg: Config, v: Vals, d: SymDef, u: Option<UserVal>)
    ensures ValueReads(cfg, d, u, v) <= Deps(cfg, d)
  {
    if IsTri(d.typ) { TriReadsAreDeps(cfg, v, d, u); } else { StrReadsAreDeps(cfg, v, d, u); }
  }

  // ---------------------------------------------------------- solved values

  /** `vals` gives every symbol the value that its own definition yields. */
  ghost predicate Solves(cfg: Config, users: Users, vals: Vals)
  {
    && vals.Keys == cfg.defs.Keys
    && forall s :: s in cfg.defs ==>
         Fits(cfg, s, vals[s]) && vals[s] == ValueOf(cfg, cfg.defs[s], User(users, s), vals)
  }

  lemma ValueFits(cfg: Config, s: Sym, u: Option<UserVal>, vals: Vals)
    requires s in cfg.defs && ConstOk(cfg.defs[s])
    ensures Fits(cfg, s, ValueOf(cfg, cfg.defs[s], u, vals))
  {
  }

  /** Adding values that a symbol does not depend on leaves its value alone. */
  lemma LargerVals(cfg: Config, d: SymDef, u: Option<UserVal>, lower: Vals, vals: Vals)
    requires ConstOk(d) && (d.isDefined ==> Deps(cfg, d) <= lower.Keys)
    requires forall y :: y in lower ==> y in cfg.defs && y in vals && lower[y] == vals[y] && Fits(cfg, y, vals[y])
    ensures ValueOf(cfg, d, u, lower) == ValueOf(cfg, d, u, vals)
  {
    if d.isDefined { ReadsAreDeps(cfg, lower, d, u); }
    FrameValue(cfg, lower, vals, d, u);
  }

  lemma ScratchValue(cfg: Config, users: Users, s: Sym)
    requires WF(cfg) && s in cfg.defs
    ensures Fits(cfg, s, Value(cfg, users, s))
    ensures Value(cfg, users, s) == ValueOf(cfg, cfg.defs[s], User(users, s), AllValues(cfg, users))
    decreases cfg.rank[s]
  {
    var lower := map y | y in cfg.defs && cfg.rank[y] < cfg.rank[s] :: Value(cfg, users, y);
    forall y | y in lower ensures Fits(cfg, y, Value(cfg, users, y)) { ScratchValue(cfg, users, y); }
    LargerVals(cfg, cfg.defs[s], User(users, s), lower, AllValues(cfg, users));
    ValueFits(cfg, s, User(users, s), lower);
  }

  lemma ScratchSolves(cfg: Config, users: Users)
    requires WF(cfg)
    ensures Solves(cfg, users, AllValues(cfg, users))
  {
    var vals := AllValues(cfg, users);
    forall s | s in cfg.defs
      ensures Fits(cfg, s, vals[s]) && vals[s] == ValueOf(cfg, cfg.defs[s], User(users, s), vals)
    {
      ScratchValue(cfg, users, s);
    }
  }

  // ------------------------------------------------------------------ caches

  /** _cached_tri_val, _cached_str_val, _cached_vis and _cached_assignable; a
      missing key is None. */
  datatype Cache = Cache(tri: map<Sym, Trit>, str: map<Sym, string>, vis: map<Sym, Trit>, asg: map<Sym, seq<Trit>>)

  /** The value that others look at is cached. */
  predicate Main(cfg: Config, c: Cache, s: Sym)
  {
    Varies(cfg, s) && (if IsTri(cfg.defs[s].typ) then s in c.tri else s in c.str)
  }

  ghost predicate AllMain(cfg: Config, c: Cache, ss: set<Sym>)
  {
    forall y :: y in ss ==> Main(cfg, c, y)
  }

  // Every cached value of `s` is right, and everything looked at to find it is
  // cached too.

  ghost predicate VisSound(cfg: Config, vals: Vals, c: Cache, s: Sym)
    requires s in cfg.defs
  {
    var d := cfg.defs[s];
    s in c.vis ==> c.vis[s] == VisOf(cfg, d, vals) && AllMain(cfg, c, VisReads(cfg, d, vals))
  }

  ghost predicate MainSound(cfg: Config, users: Users, vals: Vals, c: Cache, s: Sym)
    requires s in cfg.defs
  {
    Main(cfg, c, s) ==> s in c.vis && AllMain(cfg, c, ValueReads(cfg, cfg.defs[s], User(users, s), vals))
  }

  ghost predicate ValSound(cfg: Config, vals: Vals, c: Cache, s: Sym)
    requires s in cfg.defs && s in vals
  {
    var d := cfg.defs[s];
    && (s in c.tri ==> c.tri[s] == AsTri(vals[s]))
    && (s in c.str ==> c.str[s] == AsStr(vals[s]) && (IsTri(d.typ) ==> s in c.tri))
    && (IsTri(d.typ) && d.isConstant ==> s in c.tri)
  }

  ghost predicate AsgSound(cfg: Config, vals: Vals, c: Cache, s: Sym)
    requires s in cfg.defs
  {
    var d := cfg.defs[s];
    s in c.asg ==> c.asg[s] == AssignableOf(cfg, d, vals) && AllMain(cfg, c, AssignableReads(cfg, d, vals))
                   && (IsTri(d.typ) ==> s in c.vis)
  }

  ghost predicate SoundAt(cfg: Config, users: Users, vals: Vals, c: Cache, s: Sym)
    requires s in cfg.defs && s in vals
  {
    VisSound(cfg, vals, c, s) && MainSound(cfg, users, vals, c, s) && ValSound(cfg, vals, c, s) && AsgSound(cfg, vals, c, s)
  }

  ghost predicate Sound(cfg: Config, users: Users, vals: Vals, c: Cache)
  {
    && vals.Keys == cfg.defs.Keys
    && c.tri.Keys + c.str.Keys + c.vis.Keys + c.asg.Keys <= cfg.defs.Keys
    && forall s :: s in cfg.defs ==> SoundAt(cfg, users, vals, c, s)
  }

  // ------------------------------------------------------------ invalidation

  function Uncached(c: Cache, w: set<Sym>): Cache
  {
    Cache(c.tri - w, c.str - w, c.vis - w, c.asg - w)
  }

  function Dependents(deps: map<Sym, set<Sym>>, y: Sym): set<Sym> { if y in deps then deps[y] else {} }

  /** `deps` records, for each symbol that is not constant, the defined symbols
      that mention it. */
  ghost predicate DependentsOk(cfg: Config, deps: map<Sym, set<Sym>>)
  {
    forall x, y :: x in Dependents(deps, y) <==>
      x in cfg.defs && cfg.defs[x].isDefined && y in cfg.defs && !cfg.defs[y].isConstant && y in Mentions(cfg.defs[x])
  }

  /** What one call of _rec_invalidate clears: with each symbol its dependents,
      except those that had no cached visibility. */
  ghost predicate Cleared(cfg: Config, deps: map<Sym, set<Sym>>, c: Cache, w: set<Sym>)
  {
    && (forall y :: y in w ==> y in cfg.defs && cfg.defs[y].isDefined)
    && (forall x, y :: y in w && x in Dependents(deps, y) && x in c.vis ==> x in w)
    && (cfg.modules in w ==> forall x :: x in cfg.defs && cfg.defs[x].isDefined ==> x in w)
  }

  /** Whatever is closed in that way and holds `s` holds all of `w`. */
  ghost predicate Least(cfg: Config, deps: map<Sym, set<Sym>>, c: Cache, s: Sym, w: set<Sym>)
  {
    forall v :: s in v && Cleared(cfg, deps, c, v) ==> w <= v
  }

  lemma NoPromptIgnoresUser(cfg: Config, d: SymDef, u: Option<UserVal>, u': Option<UserVal>, vals: Vals)
    requires d.prompts == []
    ensures ValueOf(cfg, d, u, vals) == ValueOf(cfg, d, u', vals)
    ensures ValueReads(cfg, d, u, vals) == ValueReads(cfg, d, u', vals)
  {
  }

  /** A change of the user value of `s` from `users` to `users'`. */
  ghost predicate ChangesOnly(users: Users, users': Users, s: Sym)
  {
    forall y :: y != s ==> User(users, y) == User(users', y)
  }

  /** What an invalidation starts from. */
  ghost predicate Change(cfg: Config, deps: map<Sym, set<Sym>>, users: Users, vals: Vals, users': Users, vals': Vals,
                         c: Cache, s: Sym, w: set<Sym>)
  {
    && WF(cfg) && DependentsOk(cfg, deps) && s in cfg.defs
    && Solves(cfg, users, vals) && Solves(cfg, users', vals') && Sound(cfg, users, vals, c)
    && ChangesOnly(users, users', s)
    && Cleared(cfg, deps, c, w) && (s in w || cfg.defs[s].prompts == [])
  }

  /** A symbol that was looked at by one that stays cached stays cached. */
  lemma ReadsKept(cfg: Config, deps: map<Sym, set<Sym>>, c: Cache, w: set<Sym>, x: Sym, seen: set<Sym>)
    requires WF(cfg) && DependentsOk(cfg, deps) && Cleared(cfg, deps, c, w)
    requires x in cfg.defs && x in c.vis && x !in w && (cfg.defs[x].isDefined || seen == {})
    requires AllMain(cfg, c, seen) && seen <= Deps(cfg, cfg.defs[x])
    ensures seen !! w && AllMain(cfg, Uncached(c, w), seen)
  {
    hide WF, Mentions, Below;
    forall y | y in seen ensures y !in w && Main(cfg, Uncached(c, w), y) {
      assert Main(cfg, c, y);
      if y in Mentions(cfg.defs[x]) {
        assert x in Dependents(deps, y);
      } else {
        assert y == cfg.modules;
      }
    }
  }

  /** The values that stay cached are not affected by the change. */
  lemma {:induction false} KeptValue(cfg: Config, deps: map<Sym, set<Sym>>, users: Users, vals: Vals,
                                     users': Users, vals': Vals, c: Cache, s: Sym, w: set<Sym>, x: Sym)
    requires Change(cfg, deps, users, vals, users', vals', c, s, w)
    requires Main(cfg, c, x) && x !in w
    ensures vals[x] == vals'[x]
    decreases cfg.rank[x]
  {
    var d, u := cfg.defs[x], User(users, x);
    var seen := ValueReads(cfg, d, u, vals);
    assert SoundAt(cfg, users, vals, c, x);
    ReadsAreDeps(cfg, vals, d, u);
    ReadsKept(cfg, deps, c, w, x, seen);
    forall y | y in seen ensures Read(vals, y) == Read(vals', y) {
      KeptValue(cfg, deps, users, vals, users', vals', c, s, w, y);
    }
    FrameValue(cfg, vals, vals', d, u);
    if x == s { NoPromptIgnoresUser(cfg, d, u, User(users', x), vals'); }
  }

  /** The reads of a kept symbol agree before and after. */
  lemma KeptReads(cfg: Config, deps: map<Sym, set<Sym>>, users: Users, vals: Vals,
                  users': Users, vals': Vals, c: Cache, s: Sym, w: set<Sym>, x: Sym, seen: set<Sym>)
    requires Change(cfg, deps, users, vals, users', vals', c, s, w)
    requires x in cfg.defs && x in c.vis && x !in w && (cfg.defs[x].isDefined || seen == {})
    requires AllMain(cfg, c, seen) && seen <= Deps(cfg, cfg.defs[x])
    ensures SameOn(vals, vals', seen) && AllMain(cfg, Uncached(c, w), seen)
  {
    ReadsKept(cfg, deps, c, w, x, seen);
    forall y | y in seen ensures Read(vals, y) == Read(vals', y) {
      KeptValue(cfg, deps, users, vals, users', vals', c, s, w, y);
    }
  }

  /** What a change tells about one symbol. */
  lemma ChangeFacts(cfg: Config, deps: map<Sym, set<Sym>>, users: Users, vals: Vals,
                    users': Users, vals': Vals, c: Cache, s: Sym, w: set<Sym>, x: Sym)
    requires Change(cfg, deps, users, vals, users', vals', c, s, w) && x in cfg.defs
    ensures x in vals && x in vals' && SoundAt(cfg, users, vals, c, x)
    ensures cfg.defs[x].isDefined ==> Both(cfg, vals, vals', Deps(cfg, cfg.defs[x]))
    ensures !cfg.defs[x].isDefined ==> cfg.defs[x].prompts == []
  {
  }

  lemma NoPromptNoVis(cfg: Config, d: SymDef, vals: Vals)
    requires d.prompts == []
    ensures VisOf(cfg, d, vals) == 0 && VisReads(cfg, d, vals) == {}
  {
  }

  lemma NothingMain(cfg: Config, c: Cache)
    ensures AllMain(cfg, c, {})
  {
  }

  lemma KeptVis(cfg: Config, deps: map<Sym, set<Sym>>, users: Users, vals: Vals,
                users': Users, vals': Vals, c: Cache, s: Sym, w: set<Sym>, x: Sym)
    requires Change(cfg, deps, users, vals, users', vals', c, s, w) && x in cfg.defs
    ensures VisSound(cfg, vals', Uncached(c, w), x)
  {
    hide Change, Deps, AllMain, Both, Main;
    ChangeFacts(cfg, deps, users, vals, users', vals', c, s, w, x);
    var d := cfg.defs[x];
    if !d.isDefined {
      NoPromptNoVis(cfg, d, vals);
      NoPromptNoVis(cfg, d, vals');
      NothingMain(cfg, Uncached(c, w));
    } else if x in c.vis && x !in w {
      hide VisOf, VisReads;
      VisReadsAreDeps(cfg, vals, d);
      KeptReads(cfg, deps, users, vals, users', vals', c, s, w, x, VisReads(cfg, d, vals));
      FrameVis(cfg, vals, vals', d);
    }
  }

  lemma KeptMain(cfg: Config, deps: map<Sym, set<Sym>>, users: Users, vals: Vals,
                 users': Users, vals': Vals, c: Cache, s: Sym, w: set<Sym>, x: Sym)
    requires Change(cfg, deps, users, vals, users', vals', c, s, w) && x in cfg.defs
    ensures MainSound(cfg, users', vals', Uncached(c, w), x)
  {
    var d, u := cfg.defs[x], User(users, x);
    ChangeFacts(cfg, deps, users, vals, users', vals', c, s, w, x);
    hide Cleared, DependentsOk, Sound, AllMain, ValueReads, Deps;
    if Main(cfg, c, x) && x !in w {
      ReadsAreDeps(cfg, vals, d, u);
      KeptReads(cfg, deps, users, vals, users', vals', c, s, w, x, ValueReads(cfg, d, u, vals));
      FrameValue(cfg, vals, vals', d, u);
      if x == s { NoPromptIgnoresUser(cfg, d, u, User(users', x), vals'); }
    }
  }

  lemma KeptVal(cfg: Config, deps: map<Sym, set<Sym>>, users: Users, vals: Vals,
                users': Users, vals': Vals, c: Cache, s: Sym, w: set<Sym>, x: Sym)
    requires Change(cfg, deps, users, vals, users', vals', c, s, w) && x in cfg.defs
    ensures ValSound(cfg, vals', Uncached(c, w), x)
  {
    assert SoundAt(cfg, users, vals, c, x) && Fits(cfg, x, vals[x]) && Fits(cfg, x, vals'[x]);
    if Main(cfg, c, x) && x !in w {
      KeptValue(cfg, deps, users, vals, users', vals', c, s, w, x);
    }
  }

  /** Without a prompt, or to a string or a number, no tristate can be assigned. */
  lemma NotAssignable(cfg: Config, d: SymDef, vals: Vals)
    requires d.prompts == [] || !IsTri(d.typ)
    ensures AssignableOf(cfg, d, vals) == [] && AssignableReads(cfg, d, vals) == {}
  {
  }

  lemma KeptAssignable(cfg: Config, deps: map<Sym, set<Sym>>, users: Users, vals: Vals,
                       users': Users, vals': Vals, c: Cache, s: Sym, w: set<Sym>, x: Sym)
    requires Change(cfg, deps, users, vals, users', vals', c, s, w) && x in cfg.defs
    ensures AsgSound(cfg, vals', Uncached(c, w), x)
  {
    hide Change, AssignableOf, AssignableReads, Deps, AllMain, Both, Main;
    ChangeFacts(cfg, deps, users, vals, users', vals', c, s, w, x);
    var d := cfg.defs[x];
    if !d.isDefined || !IsTri(d.typ) {
      NotAssignable(cfg, d, vals);
      NotAssignable(cfg, d, vals');
      NothingMain(cfg, Uncached(c, w));
    } else if x in c.asg && x !in w {
      AssignableReadsAreDeps(cfg, vals, d);
      KeptReads(cfg, deps, users, vals, users', vals', c, s, w, x, AssignableReads(cfg, d, vals));
      FrameAssignable(cfg, vals, vals', d);
    }
  }

  /** Main result: after a user value changes, clearing the symbol and, through
      dependents, only those that have a cached visibility leaves a cache whose
      every entry is the value recomputed from scratch. */
  lemma InvalidationSound(cfg: Config, deps: map<Sym, set<Sym>>, users: Users, vals: Vals,
                          users': Users, vals': Vals, c: Cache, s: Sym, w: set<Sym>)
    requires Change(cfg, deps, users, vals, users', vals', c, s, w)
    ensures Sound(cfg, users', vals', Uncached(c, w))
  {
    forall x | x in cfg.defs ensures SoundAt(cfg, users', vals', Uncached(c, w), x) {
      KeptVis(cfg, deps, users, vals, users', vals', c, s, w, x);
      KeptMain(cfg, deps, users, vals, users', vals', c, s, w, x);
      KeptVal(cfg, deps, users, vals, users', vals', c, s, w, x);
      KeptAssignable(cfg, deps, users, vals, users', vals', c, s, w, x);
    }
  }

  // ----------------------------------------------------------- growing caches

  ghost predicate Grows(c: Cache, c': Cache)
  {
    c.tri.Keys <= c'.tri.Keys && c.str.Keys <= c'.str.Keys && c.vis.Keys <= c'.vis.Keys && c.asg.Keys <= c'.asg.Keys
  }

  /** c' has, for `x`, what c has. */
  ghost predicate SameEntry(c: Cache, c': Cache, x: Sym)
  {
    && (x in c.tri <==> x in c'.tri) && (x in c.tri ==> c.tri[x] == c'.tri[x])
    && (x in c.str <==> x in c'.str) && (x in c.str ==> c.str[x] == c'.str[x])
    && (x in c.vis <==> x in c'.vis) && (x in c.vis ==> c.vis[x] == c'.vis[x])
    && (x in c.asg <==> x in c'.asg) && (x in c.asg ==> c.asg[x] == c'.asg[x])
  }

  lemma StillMain(cfg: Config, c: Cache, c': Cache, ss: set<Sym>)
    requires Grows(c, c') && AllMain(cfg, c, ss)
    ensures AllMain(cfg, c', ss)
  {
  }

  /** Filling in an entry of one symbol keeps all the others sound. */
  lemma EntryAdded(cfg: Config, users: Users, vals: Vals, c: Cache, c': Cache, s: Sym)
    requires Sound(cfg, users, vals, c) && Grows(c, c') && s in cfg.defs
    requires forall x :: x != s ==> SameEntry(c, c', x)
    requires SoundAt(cfg, users, vals, c', s)
    ensures Sound(cfg, users, vals, c')
  {
    forall x | x in cfg.defs && x != s ensures SoundAt(cfg, users, vals, c', x) {
      var d := cfg.defs[x];
      assert SoundAt(cfg, users, vals, c, x) && SameEntry(c, c', x);
      if x in c.vis { StillMain(cfg, c, c', VisReads(cfg, d, vals)); }
      if Main(cfg, c, x) { StillMain(cfg, c, c', ValueReads(cfg, d, User(users, x), vals)); }
      if x in c.asg { StillMain(cfg, c, c', AssignableReads(cfg, d, vals)); }
    }
    forall k | k in c'.tri.Keys + c'.str.Keys + c'.vis.Keys + c'.asg.Keys ensures k in cfg.defs {
      if k != s { assert SameEntry(c, c', k); }
    }
  }

  lemma VisAdded(cfg: Config, users: Users, vals: Vals, c: Cache, s: Sym, v: Trit)
    requires Sound(cfg, users, vals, c) && s in cfg.defs
    requires v == VisOf(cfg, cfg.defs[s], vals) && AllMain(cfg, c, VisReads(cfg, cfg.defs[s], vals))
    ensures Sound(cfg, users, vals, c.(vis := c.vis[s := v]))
  {
    hide VisOf, VisReads, AssignableOf, AssignableReads, ValueReads, AllMain;
    var c' := c.(vis := c.vis[s := v]);
    assert SoundAt(cfg, users, vals, c, s);
    hide Sound;
    StillMain(cfg, c, c', VisReads(cfg, cfg.defs[s], vals));
    if Main(cfg, c, s) { StillMain(cfg, c, c', ValueReads(cfg, cfg.defs[s], User(users, s), vals)); }
    if s in c.asg { StillMain(cfg, c, c', AssignableReads(cfg, cfg.defs[s], vals)); }
    EntryAdded(cfg, users, vals, c, c', s);
  }

  lemma TriAdded(cfg: Config, users: Users, vals: Vals, c: Cache, s: Sym, v: Trit)
    requires Sound(cfg, users, vals, c) && s in cfg.defs
    requires v == AsTri(vals[s])
    requires IsTri(cfg.defs[s].typ) ==>
               s in c.vis && AllMain(cfg, c, ValueReads(cfg, cfg.defs[s], User(users, s), vals))
    ensures Sound(cfg, users, vals, c.(tri := c.tri[s := v]))
  {
    hide VisOf, VisReads, AssignableOf, AssignableReads, ValueReads, AllMain;
    var c' := c.(tri := c.tri[s := v]);
    assert SoundAt(cfg, users, vals, c, s);
    hide Sound;
    if s in c.vis { StillMain(cfg, c, c', VisReads(cfg, cfg.defs[s], vals)); }
    if Main(cfg, c', s) { StillMain(cfg, c, c', ValueReads(cfg, cfg.defs[s], User(users, s), vals)); }
    if s in c.asg { StillMain(cfg, c, c', AssignableReads(cfg, cfg.defs[s], vals)); }
    EntryAdded(cfg, users, vals, c, c', s);
  }

  lemma StrAdded(cfg: Config, users: Users, vals: Vals, c: Cache, s: Sym, v: string)
    requires Sound(cfg, users, vals, c) && s in cfg.defs
    requires v == AsStr(vals[s]) && (IsTri(cfg.defs[s].typ) ==> s in c.tri)
    requires Varies(cfg, s) && !IsTri(cfg.defs[s].typ) ==>
               s in c.vis && AllMain(cfg, c, ValueReads(cfg, cfg.defs[s], User(users, s), vals))
    ensures Sound(cfg, users, vals, c.(str := c.str[s := v]))
  {
    hide VisOf, VisReads, AssignableOf, AssignableReads, ValueReads, AllMain;
    var c' := c.(str := c.str[s := v]);
    assert SoundAt(cfg, users, vals, c, s);
    hide Sound;
    if s in c.vis { StillMain(cfg, c, c', VisReads(cfg, cfg.defs[s], vals)); }
    if Main(cfg, c', s) { StillMain(cfg, c, c', ValueReads(cfg, cfg.defs[s], User(users, s), vals)); }
    if s in c.asg { StillMain(cfg, c, c', AssignableReads(cfg, cfg.defs[s], vals)); }
    EntryAdded(cfg, users, vals, c, c', s);
  }

  lemma AsgAdded(cfg: Config, users: Users, vals: Vals, c: Cache, s: Sym, v: seq<Trit>)
    requires Sound(cfg, users, vals, c) && s in cfg.defs
    requires v == AssignableOf(cfg, cfg.defs[s], vals) && AllMain(cfg, c, AssignableReads(cfg, cfg.defs[s], vals))
    requires IsTri(cfg.defs[s].typ) ==> s in c.vis
    ensures Sound(cfg, users, vals, c.(asg := c.asg[s := v]))
  {
    hide VisOf, VisReads, AssignableOf, AssignableReads, ValueReads, AllMain;
    var c' := c.(asg := c.asg[s := v]);
    assert SoundAt(cfg, users, vals, c, s);
    hide Sound;
    if s in c.vis { StillMain(cfg, c, c', VisReads(cfg, cfg.defs[s], vals)); }
    if Main(cfg, c, s) { StillMain(cfg, c, c', ValueReads(cfg, cfg.defs[s], User(users, s), vals)); }
    StillMain(cfg, c, c', AssignableReads(cfg, cfg.defs[s], vals));
    EntryAdded(cfg, users, vals, c, c', s);
  }

  // ------------------------------------------------------- the Kconfig object

  /** set_value() takes n, m, y as numbers or as strings. */
  function Normalized(t: SymType, v: UserVal): UserVal
  {
    if IsTri(t) && v.UserStr? then
      if v.s == "n" then UserTri(0) else if v.s == "m" then UserTri(1) else if v.s == "y" then UserTri(2) else v
    else v
  }

  /** The value has the form that the type asks for. */
  predicate Acceptable(cfg: Config, t: SymType, v: UserVal)
  {
    match t
    case Bool => v == UserTri(0) || v == UserTri(2)
    case Tristate => v.UserTri?
    case Text => v.UserStr?
    case Int => v.UserStr? && cfg.toInt(Int, v.s).Some?
    case Hex => v.UserStr? && cfg.toInt(Hex, v.s).Some? && cfg.toInt(Hex, v.s).value >= 0
    case Unknown => false
  }

  /** Everything that a defined symbol mentions has a lower rank. */
  lemma PartsBelow(cfg: Config, s: Sym)
    requires WF(cfg) && s in cfg.defs && cfg.defs[s].isDefined
    ensures s in cfg.rank && Below(cfg, cfg.rank[s], Deps(cfg, cfg.defs[s]))
    ensures Below(cfg, cfg.rank[s], DefaultSyms(cfg.defs[s].defaults))
    ensures Below(cfg, cfg.rank[s], RangeSyms(cfg.defs[s].ranges))
    ensures Below(cfg, cfg.rank[s], Syms(cfg.defs[s].revDep))
    ensures Below(cfg, cfg.rank[s], Syms(cfg.defs[s].weakRevDep))
    ensures Below(cfg, cfg.rank[s], Syms(cfg.defs[s].directDep))
  {
  }

  /** Part way through: the dependents of `s` in `todo` are still to be done. */
  ghost predicate ClearedBut(cfg: Config, deps: map<Sym, set<Sym>>, c: Cache, w: set<Sym>, s: Sym, todo: set<Sym>)
  {
    && (forall y :: y in w ==> y in cfg.defs && cfg.defs[y].isDefined)
    && (forall x, y :: y in w && x in Dependents(deps, y) && x in c.vis && !(y == s && x in todo) ==> x in w)
    && (cfg.modules in w ==> forall x :: x in cfg.defs && cfg.defs[x].isDefined ==> x in w)
  }

  lemma WithoutBoth(c: Cache, v: set<Sym>, w: set<Sym>)
    ensures Uncached(Uncached(c, v), w) == Uncached(c, v + w)
  {
  }

  lemma DependentsDefined(cfg: Config, deps: map<Sym, set<Sym>>, s: Sym)
    requires DependentsOk(cfg, deps)
    ensures forall x :: x in Dependents(deps, s) ==> x in cfg.defs && cfg.defs[x].isDefined
  {
  }

  lemma AllCleared(cfg: Config, deps: map<Sym, set<Sym>>, c: Cache, w: set<Sym>)
    requires DependentsOk(cfg, deps) && w == set x | x in cfg.defs && cfg.defs[x].isDefined
    ensures Cleared(cfg, deps, c, w)
  {
  }

  /** The effect of clearing one more dependent and what depends on it. */
  lemma ClearedMore(cfg: Config, deps: map<Sym, set<Sym>>, c: Cache, w: set<Sym>, w1: set<Sym>,
                    s: Sym, todo: set<Sym>, item: Sym)
    requires ClearedBut(cfg, deps, c, w, s, todo + {item}) && item in w1
    requires Cleared(cfg, deps, Uncached(c, w), w1)
    ensures ClearedBut(cfg, deps, c, w + w1, s, todo)
    ensures Uncached(Uncached(c, w), w1) == Uncached(c, w + w1)
  {
    forall x, y | y in w + w1 && x in Dependents(deps, y) && x in c.vis && !(y == s && x in todo)
      ensures x in w + w1
    {
      if y in w1 && x !in w { assert x in Uncached(c, w).vis; }
    }
  }

  /** Clearing a dependent that had a cached visibility clears nothing too much. */
  lemma LeastMore(cfg: Config, deps: map<Sym, set<Sym>>, c: Cache, w: set<Sym>, w1: set<Sym>, s: Sym, item: Sym)
    requires Least(cfg, deps, c, s, w) && Least(cfg, deps, Uncached(c, w), item, w1)
    requires item in Dependents(deps, s) && item in Uncached(c, w).vis
    ensures Least(cfg, deps, c, s, w + w1)
  {
    forall v | s in v && Cleared(cfg, deps, c, v) ensures w + w1 <= v {
      assert Cleared(cfg, deps, Uncached(c, w), v);
    }
  }

  predicate CanChange(cfg: Config, y: Sym) { y in cfg.defs && !cfg.defs[y].isConstant }

  /** `sc` has been entered as a dependent of the symbols in `ss`. */
  ghost predicate Registered(cfg: Config, deps: map<Sym, set<Sym>>, deps': map<Sym, set<Sym>>, sc: Sym, ss: set<Sym>)
  {
    forall y :: Dependents(deps', y) == Dependents(deps, y) + (if y in ss && CanChange(cfg, y) then {sc} else {})
  }

  lemma RegisteredBoth(cfg: Config, a: map<Sym, set<Sym>>, b: map<Sym, set<Sym>>, c: map<Sym, set<Sym>>,
                       sc: Sym, ss: set<Sym>, tt: set<Sym>)
    requires Registered(cfg, a, b, sc, ss) && Registered(cfg, b, c, sc, tt)
    ensures Registered(cfg, a, c, sc, ss + tt)
  {
    forall y ensures Dependents(c, y) == Dependents(a, y) + (if y in ss + tt && CanChange(cfg, y) then {sc} else {}) {
      assert Dependents(b, y) == Dependents(a, y) + (if y in ss && CanChange(cfg, y) then {sc} else {});
    }
  }

  lemma NoneRegistered(cfg: Config, deps: map<Sym, set<Sym>>, sc: Sym)
    ensures Registered(cfg, deps, deps, sc, {})
  {
  }

  /** The dependents after the symbols in `done` have been entered. */
  ghost predicate DependentsOf(cfg: Config, deps: map<Sym, set<Sym>>, done: set<Sym>)
  {
    forall x, y :: x in Dependents(deps, y) <==>
      x in done && x in cfg.defs && CanChange(cfg, y) && y in Mentions(cfg.defs[x])
  }

  lemma OneMoreRegistered(cfg: Config, deps: map<Sym, set<Sym>>, deps': map<Sym, set<Sym>>, done: set<Sym>, sc: Sym)
    requires sc in cfg.defs && DependentsOf(cfg, deps, done) && Registered(cfg, deps, deps', sc, Mentions(cfg.defs[sc]))
    ensures DependentsOf(cfg, deps', done + {sc})
  {
    forall x, y
      ensures x in Dependents(deps', y) <==>
                x in done + {sc} && x in cfg.defs && CanChange(cfg, y) && y in Mentions(cfg.defs[x])
    {
      assert Dependents(deps', y) == Dependents(deps, y) +
             (if y in Mentions(cfg.defs[sc]) && CanChange(cfg, y) then {sc} else {});
    }
  }

  lemma AllRegistered(cfg: Config, deps: map<Sym, set<Sym>>, done: set<Sym>)
    requires DependentsOf(cfg, deps, done) && done == set s | s in cfg.defs && cfg.defs[s].isDefined
    ensures DependentsOk(cfg, deps)
  {
  }

  class Kconfig {
    const cfg: Config
    var users: Users
    var cache: Cache
    var dependents: map<Sym, set<Sym>>

    /** Every cached value equals the value recomputed from scratch. */
    ghost predicate Valid()
      reads this
    {
      && WF(cfg) && DependentsOk(cfg, dependents)
      && (forall s :: s in users ==> s in cfg.defs && Acceptable(cfg, cfg.defs[s].typ, users[s]))
      && Sound(cfg, users, AllValues(cfg, users), cache)
    }

    /** What evaluation relies on: `vals` are the values from scratch. */
    ghost predicate Evaluating(vals: Vals)
      reads this
    {
      WF(cfg) && Solves(cfg, users, vals) && Sound(cfg, users, vals, cache)
    }

    /** A freshly parsed configuration: no user values, and only n, m and y have
        a cached value. */
    constructor (cfg: Config)
      requires WF(cfg)
      ensures Valid() && this.cfg == cfg && users == map[]
    {
      hide WF, Sound, DependentsOk, AllValues;
      this.cfg := cfg;
      users := map[];
      cache := Cache(map s | s in cfg.defs && IsTri(cfg.defs[s].typ) && cfg.defs[s].isConstant :: cfg.defs[s].fixed,
                     map[], map[], map[]);
      dependents := map[];
      new;
      BuildDep();
      FreshSound(cfg, cache);
    }

    // ---------------------------------------------------------- dependencies

    method MakeDependOn(sc: Sym, e: Expr)
      modifies this`dependents
      ensures Registered(cfg, old(dependents), dependents, sc, Syms(e))
      decreases e
    {
      match e
      case Leaf(y) => AddDependent(sc, y);
      case Not(f) => MakeDependOn(sc, f);
      case Relation(_, a, b) =>
        AddDependent(sc, a);
        ghost var mid := dependents;
        AddDependent(sc, b);
        RegisteredBoth(cfg, old(dependents), mid, dependents, sc, {a}, {b});
        assert {a} + {b} == Syms(e);
      case _ =>
        MakeDependOn(sc, e.l);
        ghost var mid := dependents;
        MakeDependOn(sc, e.r);
        RegisteredBoth(cfg, old(dependents), mid, dependents, sc, Syms(e.l), Syms(e.r));
    }

    method AddDependent(sc: Sym, y: Sym)
      modifies this`dependents
      ensures Registered(cfg, old(dependents), dependents, sc, {y})
    {
      if CanChange(cfg, y) {
        dependents := dependents[y := Dependents(dependents, y) + {sc}];
      }
    }

    method DependOnPrompts(sc: Sym, prompts: seq<Expr>)
      modifies this`dependents
      ensures Registered(cfg, old(dependents), dependents, sc, SymsOf(prompts))
    {
      for i := 0 to |prompts|
        invariant Registered(cfg, old(dependents), dependents, sc, SymsOf(prompts[..i]))
      {
        ghost var mid := dependents;
        MakeDependOn(sc, prompts[i]);
        RegisteredBoth(cfg, old(dependents), mid, dependents, sc, SymsOf(prompts[..i]), Syms(prompts[i]));
        assert prompts[..i + 1][..i] == prompts[..i];
      }
      assert prompts[..|prompts|] == prompts;
    }

    method DependOnDefaults(sc: Sym, ds: seq<Default>)
      modifies this`dependents
      ensures Registered(cfg, old(dependents), dependents, sc, DefaultSyms(ds))
    {
      hide Registered;
      NoneRegistered(cfg, dependents, sc);
      ghost var done: set<Sym> := {};
      for i := 0 to |ds|
        invariant Registered(cfg, old(dependents), dependents, sc, done)
        invariant DefaultSyms(ds) == done + DefaultSyms(ds[i..])
      {
        ghost var mid := dependents;
        MakeDependOn(sc, ds[i].value);
        RegisteredBoth(cfg, old(dependents), mid, dependents, sc, done, Syms(ds[i].value));
        done, mid := done + Syms(ds[i].value), dependents;
        MakeDependOn(sc, ds[i].cond);
        RegisteredBoth(cfg, old(dependents), mid, dependents, sc, done, Syms(ds[i].cond));
        done := done + Syms(ds[i].cond);
        assert ds[i..][1..] == ds[i + 1..] && ds[i..][0] == ds[i];
      }
      assert done == DefaultSyms(ds);
    }

    method DependOnRanges(sc: Sym, rs: seq<Range>)
      modifies this`dependents
      ensures Registered(cfg, old(dependents), dependents, sc, RangeSyms(rs))
    {
      hide Registered;
      NoneRegistered(cfg, dependents, sc);
      ghost var done: set<Sym> := {};
      for i := 0 to |rs|
        invariant Registered(cfg, old(dependents), dependents, sc, done)
        invariant RangeSyms(rs) == done + RangeSyms(rs[i..])
      {
        ghost var mid := dependents;
        // low, high and the condition, as one relation and one expression
        MakeDependOn(sc, Relation(Equal, rs[i].low, rs[i].high));
        RegisteredBoth(cfg, old(dependents), mid, dependents, sc, done, {rs[i].low, rs[i].high});
        done, mid := done + {rs[i].low, rs[i].high}, dependents;
        MakeDependOn(sc, rs[i].cond);
        RegisteredBoth(cfg, old(dependents), mid, dependents, sc, done, Syms(rs[i].cond));
        done := done + Syms(rs[i].cond);
        assert rs[i..][1..] == rs[i + 1..] && rs[i..][0] == rs[i];
      }
      assert done == RangeSyms(rs);
    }

    method DependOn(sc: Sym, e: Expr, ghost start: map<Sym, set<Sym>>, ghost done: set<Sym>)
      requires Registered(cfg, start, dependents, sc, done)
      modifies this`dependents
      ensures Registered(cfg, start, dependents, sc, done + Syms(e))
    {
      MakeDependOn(sc, e);
      RegisteredBoth(cfg, start, old(dependents), dependents, sc, done, Syms(e));
    }

    /** Enters `sc` as a dependent of everything its properties mention. */
    method DependOnAll(sc: Sym)
      requires sc in cfg.defs
      modifies this`dependents
      ensures Registered(cfg, old(dependents), dependents, sc, Mentions(cfg.defs[sc]))
    {
      var d := cfg.defs[sc];
      hide Registered;
      DependOnPrompts(sc, d.prompts);
      ghost var start, mid, done := old(dependents), dependents, SymsOf(d.prompts);
      DependOnDefaults(sc, d.defaults);
      RegisteredBoth(cfg, start, mid, dependents, sc, done, DefaultSyms(d.defaults));
      done := done + DefaultSyms(d.defaults);
      DependOn(sc, d.revDep, start, done);
      done := done + Syms(d.revDep);
      DependOn(sc, d.weakRevDep, start, done);
      done, mid := done + Syms(d.weakRevDep), dependents;
      DependOnRanges(sc, d.ranges);
      RegisteredBoth(cfg, start, mid, dependents, sc, done, RangeSyms(d.ranges));
      done := done + RangeSyms(d.ranges);
      DependOn(sc, d.directDep, start, done);
      assert done + Syms(d.directDep) == Mentions(d);
    }

    /** Fills in the dependents of every symbol. */
    method BuildDep()
      requires dependents == map[]
      modifies this`dependents
      ensures DependentsOk(cfg, dependents)
    {
      hide DependentsOk, Registered;
      var todo := set s | s in cfg.defs && cfg.defs[s].isDefined;
      ghost var all, done: set<Sym> := todo, {};
      while todo != {}
        invariant all == done + todo && all == set s | s in cfg.defs && cfg.defs[s].isDefined
        invariant DependentsOf(cfg, dependents, done)
        decreases todo
      {
        var sc :| sc in todo;
        ghost var before := dependents;
        DependOnAll(sc);
        OneMoreRegistered(cfg, before, dependents, done, sc);
        todo, done := todo - {sc}, done + {sc};
      }
      AllRegistered(cfg, dependents, done);
    }

    // ------------------------------------------------------------ evaluation

    method ExprVal(e: Expr, ghost vals: Vals, ghost r: nat) returns (v: Trit)
      requires Evaluating(vals) && Below(cfg, r, Syms(e))
      modifies this`cache
      ensures Evaluating(vals) && Grows(old(cache), cache)
      ensures v == ExprValue(cfg, vals, e) && AllMain(cfg, cache, Reads(cfg, vals, e))
      decreases r, 0, 1, e
    {
      hide WF, Sound, Solves;
      match e
      case Leaf(s) =>
        v := TriValue(s, vals);
      case And(l, f) =>
        var v1 := ExprVal(l, vals, r);
        if v1 == 0 { return 0; }
        ghost var c := cache;
        var v2 := ExprVal(f, vals, r);
        StillMain(cfg, c, cache, Reads(cfg, vals, l));
        v := Min(v1, v2);
      case Or(l, f) =>
        var v1 := ExprVal(l, vals, r);
        if v1 == 2 { return 2; }
        ghost var c := cache;
        var v2 := ExprVal(f, vals, r);
        StillMain(cfg, c, cache, Reads(cfg, vals, l));
        v := Max(v1, v2);
      case Not(f) =>
        var v1 := ExprVal(f, vals, r);
        v := 2 - v1;
      case Relation(rel, a, b) =>
        var comp := Comparison(a, b, vals, r);
        v := if Holds(rel, comp) then 2 else 0;
    }

    /** Compares as numbers when both operands read as numbers. */
    method Comparison(a: Sym, b: Sym, ghost vals: Vals, ghost r: nat) returns (comp: int)
      requires Evaluating(vals) && Below(cfg, r, {a, b})
      modifies this`cache
      ensures Evaluating(vals) && Grows(old(cache), cache)
      ensures comp == Compare(cfg, vals, a, b) && AllMain(cfg, cache, StrRead(cfg, a) + StrRead(cfg, b))
      decreases r, 0, 0
    {
      hide WF, Sound, Solves;
      assert a in {a, b} && b in {a, b};
      if cfg.defs[a].typ == Text && cfg.defs[b].typ == Text {
        comp := StrComparison(a, b, vals);
        return;
      }
      var x := Number(a, vals);
      if x.None? {
        comp := StrComparison(a, b, vals);
        return;
      }
      ghost var c := cache;
      var y := Number(b, vals);
      if y.None? {
        comp := StrComparison(a, b, vals);
        return;
      }
      StillMain(cfg, c, cache, StrRead(cfg, a));
      comp := x.value - y.value;
    }

    method StrComparison(a: Sym, b: Sym, ghost vals: Vals) returns (comp: int)
      requires Evaluating(vals) && a in cfg.defs && b in cfg.defs
      modifies this`cache
      ensures Evaluating(vals) && Grows(old(cache), cache)
      ensures comp == StrCmp(AsStr(Read(vals, a)), AsStr(Read(vals, b)))
      ensures AllMain(cfg, cache, StrRead(cfg, a) + StrRead(cfg, b))
      decreases if cfg.rank[a] < cfg.rank[b] then cfg.rank[b] else cfg.rank[a], 6
    {
      var s := StrValue(a, vals);
      ghost var c := cache;
      var t := StrValue(b, vals);
      StillMain(cfg, c, cache, StrRead(cfg, a));
      comp := StrCmp(s, t);
    }

    method Number(s: Sym, ghost vals: Vals) returns (n: Option<int>)
      requires Evaluating(vals) && s in cfg.defs
      modifies this`cache
      ensures Evaluating(vals) && Grows(old(cache), cache)
      ensures n == SymNum(cfg, vals, s) && AllMain(cfg, cache, StrRead(cfg, s))
      decreases cfg.rank[s], 5
    {
      if IsTri(cfg.defs[s].typ) {
        var t := TriValue(s, vals);
        n := Some(t);
      } else {
        var t := StrValue(s, vals);
        n := cfg.toInt(cfg.defs[s].typ, t);
      }
    }

    /** A tristate symbol acts as a bool while MODULES is n. */
    method TypeNow(d: SymDef, ghost vals: Vals, ghost r: nat) returns (t: SymType)
      requires Evaluating(vals) && Below(cfg, r, Deps(cfg, d))
      modifies this`cache
      ensures Evaluating(vals) && Grows(old(cache), cache)
      ensures t == EffectiveType(cfg, d, vals) && AllMain(cfg, cache, TypeReads(cfg, d))
      decreases r, 1, 0
    {
      t := d.typ;
      if d.typ == Tristate {
        var m := TriValue(cfg.modules, vals);
        if m == 0 { t := Bool; }
      }
    }

    method Visibility(s: Sym, ghost vals: Vals) returns (vis: Trit)
      requires Evaluating(vals) && s in cfg.defs
      modifies this`cache
      ensures Evaluating(vals) && Grows(old(cache), cache)
      ensures vis == VisOf(cfg, cfg.defs[s], vals) && s in cache.vis
      ensures AllMain(cfg, cache, VisReads(cfg, cfg.defs[s], vals))
      decreases cfg.rank[s], 2, 1
    {
      if s in cache.vis {
        assert SoundAt(cfg, users, vals, cache, s);
        return cache.vis[s];
      }
      var d := cfg.defs[s];
      vis := ComputeVisibility(d, vals, cfg.rank[s]);
      ghost var c := cache;
      VisAdded(cfg, users, vals, c, s, vis);
      cache := cache.(vis := cache.vis[s := vis]);
      StillMain(cfg, c, cache, VisReads(cfg, d, vals));
    }

    method TriValue(s: Sym, ghost vals: Vals) returns (v: Trit)
      requires Evaluating(vals) && s in cfg.defs
      modifies this`cache
      ensures Evaluating(vals) && Grows(old(cache), cache)
      ensures v == AsTri(Read(vals, s)) && AllMain(cfg, cache, TriRead(cfg, s)) && s in cache.tri
      decreases cfg.rank[s], 3
    {
      assert SoundAt(cfg, users, vals, cache, s) && Fits(cfg, s, vals[s]);
      if s in cache.tri { return cache.tri[s]; }
      var d := cfg.defs[s];
      if !IsTri(d.typ) {
        v := 0;
      } else {
        v := ComputeTri(s, vals);
      }
      TriAdded(cfg, users, vals, cache, s, v);
      cache := cache.(tri := cache.tri[s := v]);
    }

    method ComputeTri(s: Sym, ghost vals: Vals) returns (v: Trit)
      requires Evaluating(vals) && s in cfg.defs && IsTri(cfg.defs[s].typ) && cfg.defs[s].isDefined
      modifies this`cache
      ensures Evaluating(vals) && Grows(old(cache), cache)
      ensures v == TriOf(cfg, cfg.defs[s], User(users, s), vals) && s in cache.vis
      ensures AllMain(cfg, cache, TriReads(cfg, cfg.defs[s], User(users, s), vals))
      decreases cfg.rank[s], 2, 3
    {
      hide WF, Sound, Solves, SelectedTri, SelectedReads;
      PartsBelow(cfg, s);
      var d := cfg.defs[s];
      v := ComputeSelected(s, vals);
      ghost var c := cache;
      if v == 1 {
        var promote := PromoteM(d, vals, cfg.rank[s]);
        StillMain(cfg, c, cache, SelectedReads(cfg, d, User(users, s), vals));
        if promote { v := 2; }
      }
    }

    /** The value with selects, before m is promoted. */
    method ComputeSelected(s: Sym, ghost vals: Vals) returns (v: Trit)
      requires Evaluating(vals) && s in cfg.defs && IsTri(cfg.defs[s].typ) && cfg.defs[s].isDefined
      modifies this`cache
      ensures Evaluating(vals) && Grows(old(cache), cache)
      ensures v == SelectedTri(cfg, cfg.defs[s], User(users, s), vals) && s in cache.vis
      ensures AllMain(cfg, cache, SelectedReads(cfg, cfg.defs[s], User(users, s), vals))
      decreases cfg.rank[s], 2, 3, 0
    {
      hide WF, Sound, Solves;
      PartsBelow(cfg, s);
      var d := cfg.defs[s];
      ghost var u, r := User(users, s), cfg.rank[s];
      v := ComputeBase(s, vals);
      ghost var seen, c := VisReads(cfg, d, vals) + BaseReads(cfg, d, u, vals), cache;
      var dep := ExprVal(d.revDep, vals, r);
      StillMain(cfg, c, cache, seen);
      seen, c := seen + Reads(cfg, vals, d.revDep), cache;
      if dep != 0 {
        // the unsatisfied-dependency warning looks at the direct dependencies
        var direct := ExprVal(d.directDep, vals, r);
        StillMain(cfg, c, cache, seen);
        v := Max(dep, v);
      }
    }

    /** m counts as y for a bool, and when an imply of y is in force. */
    method PromoteM(d: SymDef, ghost vals: Vals, ghost r: nat) returns (p: bool)
      requires Evaluating(vals) && Below(cfg, r, Deps(cfg, d))
      modifies this`cache
      ensures Evaluating(vals) && Grows(old(cache), cache)
      ensures p == (EffectiveType(cfg, d, vals) == Bool || ExprValue(cfg, vals, d.weakRevDep) == 2)
      ensures AllMain(cfg, cache, TypeReads(cfg, d) +
                (if EffectiveType(cfg, d, vals) == Bool then {} else Reads(cfg, vals, d.weakRevDep)))
      decreases r, 1, 1
    {
      var t := TypeNow(d, vals, r);
      if t == Bool { return true; }
      ghost var c := cache;
      var weak := ExprVal(d.weakRevDep, vals, r);
      StillMain(cfg, c, cache, TypeReads(cfg, d));
      p := weak == 2;
    }

    method ComputeBase(s: Sym, ghost vals: Vals) returns (v: Trit)
      requires Evaluating(vals) && s in cfg.defs && IsTri(cfg.defs[s].typ) && cfg.defs[s].isDefined
      modifies this`cache
      ensures Evaluating(vals) && Grows(old(cache), cache)
      ensures v == BaseTri(cfg, cfg.defs[s], User(users, s), vals) && s in cache.vis
      ensures AllMain(cfg, cache, VisReads(cfg, cfg.defs[s], vals) + BaseReads(cfg, cfg.defs[s], User(users, s), vals))
      decreases cfg.rank[s], 2, 2
    {
      hide WF, Sound, Solves;
      PartsBelow(cfg, s);
      var d := cfg.defs[s];
      ghost var r := cfg.rank[s];
      var vis := Visibility(s, vals);
      if vis != 0 && s in users {
        return if users[s].UserTri? then Min(users[s].t, vis) else 0;
      }
      ghost var seen, c := VisReads(cfg, d, vals), cache;
      v := DefaultTri(d.defaults, vals, r);
      StillMain(cfg, c, cache, seen);
      seen, c := seen + DefaultReads(cfg, d.defaults, vals), cache;
      var weak := ExprVal(d.weakRevDep, vals, r);
      StillMain(cfg, c, cache, seen);
      seen, c := seen + Reads(cfg, vals, d.weakRevDep), cache;
      if weak != 0 {
        var direct := ExprVal(d.directDep, vals, r);
        StillMain(cfg, c, cache, seen);
        if direct != 0 { v := Max(weak, v); }
      }
    }

    method StrValue(s: Sym, ghost vals: Vals) returns (v: string)
      requires Evaluating(vals) && s in cfg.defs
      modifies this`cache
      ensures Evaluating(vals) && Grows(old(cache), cache)
      ensures v == AsStr(Read(vals, s)) && AllMain(cfg, cache, StrRead(cfg, s)) && s in cache.str
      decreases cfg.rank[s], 4
    {
      assert SoundAt(cfg, users, vals, cache, s) && Fits(cfg, s, vals[s]);
      if s in cache.str { return cache.str[s]; }
      var d := cfg.defs[s];
      if IsTri(d.typ) {
        var t := TriValue(s, vals);
        v := TriStr(t);
      } else if d.typ == Unknown {
        v := d.name;
      } else {
        v := ComputeStr(s, vals);
      }
      StrAdded(cfg, users, vals, cache, s, v);
      cache := cache.(str := cache.str[s := v]);
    }

    method ComputeStr(s: Sym, ghost vals: Vals) returns (v: string)
      requires Evaluating(vals) && s in cfg.defs && cfg.defs[s].isDefined
      requires !IsTri(cfg.defs[s].typ) && cfg.defs[s].typ != Unknown
      modifies this`cache
      ensures Evaluating(vals) && Grows(old(cache), cache)
      ensures v == StrOf(cfg, cfg.defs[s], User(users, s), vals) && s in cache.vis
      ensures AllMain(cfg, cache, StrReads(cfg, cfg.defs[s], User(users, s), vals))
      decreases cfg.rank[s], 2, 2
    {
      hide WF, Sound, Solves;
      PartsBelow(cfg, s);
      var d := cfg.defs[s];
      ghost var u, r := User(users, s), cfg.rank[s];
      var vis := Visibility(s, vals);
      ghost var seen, c := VisReads(cfg, d, vals), cache;
      var range: Option<(int, int)> := None;
      if d.typ != Text {
        range := RangeNow(d.typ, d.ranges, vals, r);
        StillMain(cfg, c, cache, seen);
        seen, c := seen + RangeReads(cfg, d.ranges, vals), cache;
      }
      if vis != 0 && s in users && users[s].UserStr? &&
         (d.typ == Text || (users[s].s != "" && InRange(range, NumOr0(cfg, d.typ, users[s].s)))) {
        return users[s].s;
      }
      assert !UsesUserStr(cfg, d, u, vals);
      v := StrFromDefaults(d, range, vals, r);
      StillMain(cfg, c, cache, seen);
    }

    method StrFromDefaults(d: SymDef, range: Option<(int, int)>, ghost vals: Vals, ghost r: nat) returns (v: string)
      requires Evaluating(vals) && Below(cfg, r, Deps(cfg, d))
      modifies this`cache
      ensures Evaluating(vals) && Grows(old(cache), cache)
      ensures AllMain(cfg, cache, FirstStrReads(cfg, d.defaults, vals))
      ensures v == var def := FirstStr(cfg, d.defaults, vals);
                   var t := if def.Some? then def.value else "";
                   var n := if def.Some? then NumOr0(cfg, d.typ, t) else 0;
                   if d.typ == Text then t else Clamped(cfg, d.typ, t, n, range)
      decreases r, 1, 1
    {
      hide WF, Sound, Solves;
      var def := DefaultText(d.defaults, vals, r);
      v := if def.Some? then def.value else "";
      if d.typ != Text {
        v := Clamped(cfg, d.typ, v, if def.Some? then NumOr0(cfg, d.typ, v) else 0, range);
      }
    }

    method RangeNow(t: SymType, rs: seq<Range>, ghost vals: Vals, ghost r: nat) returns (range: Option<(int, int)>)
      requires Evaluating(vals) && Below(cfg, r, RangeSyms(rs))
      modifies this`cache
      ensures Evaluating(vals) && Grows(old(cache), cache)
      ensures range == ActiveRange(cfg, t, rs, vals) && AllMain(cfg, cache, RangeReads(cfg, rs, vals))
      decreases r, 1
    {
      hide WF, Sound, Solves;
      ghost var seen: set<Sym> := {};
      for i := 0 to |rs|
        invariant Evaluating(vals) && Grows(old(cache), cache) && Below(cfg, r, RangeSyms(rs[i..]))
        invariant ActiveRange(cfg, t, rs, vals) == ActiveRange(cfg, t, rs[i..], vals)
        invariant AllMain(cfg, cache, seen) && RangeReads(cfg, rs, vals) == seen + RangeReads(cfg, rs[i..], vals)
      {
        assert rs[i..][1..] == rs[i + 1..] && rs[i..][0] == rs[i];
        ghost var c := cache;
        var dep := ExprVal(rs[i].cond, vals, r);
        StillMain(cfg, c, cache, seen);
        seen := seen + Reads(cfg, vals, rs[i].cond);
        if dep != 0 {
          c := cache;
          var low := StrValue(rs[i].low, vals);
          StillMain(cfg, c, cache, seen);
          seen, c := seen + StrRead(cfg, rs[i].low), cache;
          var high := StrValue(rs[i].high, vals);
          StillMain(cfg, c, cache, seen);
          range := Some((NumOr0(cfg, t, low), NumOr0(cfg, t, high)));
          return;
        }
      }
      range := None;
    }

    method DefaultText(ds: seq<Default>, ghost vals: Vals, ghost r: nat) returns (v: Option<string>)
      requires Evaluating(vals) && Below(cfg, r, DefaultSyms(ds))
      modifies this`cache
      ensures Evaluating(vals) && Grows(old(cache), cache)
      ensures v == FirstStr(cfg, ds, vals) && AllMain(cfg, cache, FirstStrReads(cfg, ds, vals))
      decreases r, 1, 0
    {
      hide WF, Sound, Solves;
      ghost var seen: set<Sym> := {};
      for i := 0 to |ds|
        invariant Evaluating(vals) && Grows(old(cache), cache) && Below(cfg, r, DefaultSyms(ds[i..]))
        invariant FirstStr(cfg, ds, vals) == FirstStr(cfg, ds[i..], vals)
        invariant AllMain(cfg, cache, seen) && FirstStrReads(cfg, ds, vals) == seen + FirstStrReads(cfg, ds[i..], vals)
      {
        assert ds[i..][1..] == ds[i + 1..] && ds[i..][0] == ds[i];
        ghost var c := cache;
        var dep := ExprVal(ds[i].cond, vals, r);
        StillMain(cfg, c, cache, seen);
        seen := seen + Reads(cfg, vals, ds[i].cond);
        if dep != 0 {
          if !ds[i].value.Leaf? { return Some(""); }
          c := cache;
          var t := StrValue(ds[i].value.sym, vals);
          StillMain(cfg, c, cache, seen);
          v := Some(t);
          return;
        }
      }
      v := None;
    }

    method ComputeVisibility(d: SymDef, ghost vals: Vals, ghost r: nat) returns (vis: Trit)
      requires Evaluating(vals) && ConstOk(d) && (d.isDefined ==> Below(cfg, r, Deps(cfg, d)))
      modifies this`cache
      ensures Evaluating(vals) && Grows(old(cache), cache)
      ensures vis == VisOf(cfg, d, vals) && AllMain(cfg, cache, VisReads(cfg, d, vals))
      decreases r, 1, 1
    {
      vis := PromptMax(d.prompts, vals, r);
      if vis == 1 {
        ghost var c := cache;
        var t := TypeNow(d, vals, r);
        StillMain(cfg, c, cache, PromptReads(cfg, d.prompts, vals));
        if t != Tristate { vis := 2; }
      }
    }

    method PromptMax(prompts: seq<Expr>, ghost vals: Vals, ghost r: nat) returns (vis: Trit)
      requires Evaluating(vals) && Below(cfg, r, SymsOf(prompts))
      modifies this`cache
      ensures Evaluating(vals) && Grows(old(cache), cache)
      ensures vis == MaxPrompt(cfg, prompts, vals) && AllMain(cfg, cache, PromptReads(cfg, prompts, vals))
      decreases r, 1, 0
    {
      hide WF, Sound, Solves;
      vis := 0;
      for i := 0 to |prompts|
        invariant Evaluating(vals) && Grows(old(cache), cache)
        invariant vis == MaxPrompt(cfg, prompts[..i], vals)
        invariant AllMain(cfg, cache, PromptReads(cfg, prompts[..i], vals))
      {
        assert prompts[..i + 1][..i] == prompts[..i];
        SymsOfPrefix(prompts, i + 1);
        ghost var c := cache;
        var v := ExprVal(prompts[i], vals, r);
        StillMain(cfg, c, cache, PromptReads(cfg, prompts[..i], vals));
        vis := Max(vis, v);
      }
      assert prompts[..|prompts|] == prompts;
    }

    method DefaultTri(ds: seq<Default>, ghost vals: Vals, ghost r: nat) returns (v: Trit)
      requires Evaluating(vals) && Below(cfg, r, DefaultSyms(ds))
      modifies this`cache
      ensures Evaluating(vals) && Grows(old(cache), cache)
      ensures v == FirstDefault(cfg, ds, vals) && AllMain(cfg, cache, DefaultReads(cfg, ds, vals))
      decreases r, 1
    {
      hide WF, Sound, Solves;
      ghost var seen: set<Sym> := {};
      for i := 0 to |ds|
        invariant Evaluating(vals) && Grows(old(cache), cache) && Below(cfg, r, DefaultSyms(ds[i..]))
        invariant FirstDefault(cfg, ds, vals) == FirstDefault(cfg, ds[i..], vals)
        invariant AllMain(cfg, cache, seen) && DefaultReads(cfg, ds, vals) == seen + DefaultReads(cfg, ds[i..], vals)
      {
        assert ds[i..][1..] == ds[i + 1..];
        ghost var c := cache;
        var dep := ExprVal(ds[i].cond, vals, r);
        StillMain(cfg, c, cache, seen);
        seen := seen + Reads(cfg, vals, ds[i].cond);
        if dep != 0 {
          c := cache;
          v := ExprVal(ds[i].value, vals, r);
          StillMain(cfg, c, cache, seen);
          v := Min(v, dep);
          return;
        }
      }
      v := 0;
    }

    method AssignableNow(s: Sym, ghost vals: Vals) returns (v: seq<Trit>)
      requires Evaluating(vals) && s in cfg.defs
      modifies this`cache
      ensures Evaluating(vals) && Grows(old(cache), cache)
      ensures v == AssignableOf(cfg, cfg.defs[s], vals)
    {
      assert SoundAt(cfg, users, vals, cache, s);
      if s in cache.asg { return cache.asg[s]; }
      var d := cfg.defs[s];
      v := [];
      if IsTri(d.typ) {
        var vis := Visibility(s, vals);
        if vis != 0 {
          ghost var c := cache;
          v := AssignableWhenVisible(s, vis, vals);
          StillMain(cfg, c, cache, VisReads(cfg, d, vals));
        }
      }
      AsgAdded(cfg, users, vals, cache, s, v);
      cache := cache.(asg := cache.asg[s := v]);
    }

    method AssignableWhenVisible(s: Sym, vis: Trit, ghost vals: Vals) returns (v: seq<Trit>)
      requires Evaluating(vals) && s in cfg.defs && cfg.defs[s].isDefined && IsTri(cfg.defs[s].typ)
      requires vis == VisOf(cfg, cfg.defs[s], vals) && vis != 0
      modifies this`cache
      ensures Evaluating(vals) && Grows(old(cache), cache)
      ensures v == AssignableOf(cfg, cfg.defs[s], vals)
      ensures AllMain(cfg, cache, AssignableDepReads(cfg, cfg.defs[s], vals))
    {
      hide WF, Sound, Solves, VisOf;
      PartsBelow(cfg, s);
      var d := cfg.defs[s];
      ghost var r := cfg.rank[s];
      var rev := ExprVal(d.revDep, vals, r);
      if rev == 2 { return [2]; }
      ghost var c := cache;
      if vis == 2 {
        var noM := PromoteM(d, vals, r);
        StillMain(cfg, c, cache, Reads(cfg, vals, d.revDep));
        if rev == 0 { return if noM then [0, 2] else [0, 1, 2]; }
        return if noM then [2] else [1, 2];
      }
      if rev == 0 {
        var weak := ExprVal(d.weakRevDep, vals, r);
        StillMain(cfg, c, cache, Reads(cfg, vals, d.revDep));
        return if weak != 2 then [0, 1] else [0, 2];
      }
      return [1];
    }

    // ---------------------------------------------------------- invalidation

    /** Invalidates a symbol and all symbols that possibly depend on it, stopping
        at those without a cached visibility. `w` is what was cleared. */
    method RecInvalidate(s: Sym) returns (ghost w: set<Sym>)
      requires WF(cfg) && DependentsOk(cfg, dependents) && s in cfg.defs && cfg.defs[s].isDefined
      modifies this`cache
      ensures cache == Uncached(old(cache), w) && s in w
      ensures Cleared(cfg, dependents, old(cache), w) && Least(cfg, dependents, old(cache), s, w)
      decreases cache.vis.Keys, if s in cache.vis then 0 else 1
    {
      hide WF, DependentsOk;
      DependentsDefined(cfg, dependents, s);
      if s == cfg.modules {
        w := InvalidateAll();
        AllCleared(cfg, dependents, old(cache), w);
        return;
      }
      w := {s};
      cache := Uncached(cache, {s});
      var todo := Dependents(dependents, s);
      while todo != {}
        invariant todo <= Dependents(dependents, s)
        invariant cache == Uncached(old(cache), w) && s in w
        invariant ClearedBut(cfg, dependents, old(cache), w, s, todo) && Least(cfg, dependents, old(cache), s, w)
        decreases todo
      {
        var item :| item in todo;
        todo := todo - {item};
        if item in cache.vis {
          ghost var c, w0 := cache, w;
          ghost var w1 := RecInvalidate(item);
          w := w + w1;
          ClearedMore(cfg, dependents, old(cache), w0, w1, s, todo, item);
          LeastMore(cfg, dependents, old(cache), w0, w1, s, item);
        }
      }
    }

    /** Invalidating MODULES clears every defined symbol. */
    method InvalidateAll() returns (ghost w: set<Sym>)
      requires WF(cfg) && DependentsOk(cfg, dependents)
      modifies this`cache
      ensures cache == Uncached(old(cache), w)
      ensures w == set x | x in cfg.defs && cfg.defs[x].isDefined
    {
      hide WF, DependentsOk;
      w := {};
      var todo := set x | x in cfg.defs && cfg.defs[x].isDefined;
      while todo != {}
        invariant cache == Uncached(old(cache), w)
        invariant w + todo == set x | x in cfg.defs && cfg.defs[x].isDefined
        decreases todo
      {
        var x :| x in todo;
        WithoutBoth(old(cache), w, {x});
        cache := Uncached(cache, {x});
        todo, w := todo - {x}, w + {x};
      }
    }

    method RecInvalidateIfHasPrompt(s: Sym) returns (ghost w: set<Sym>)
      requires WF(cfg) && DependentsOk(cfg, dependents) && s in cfg.defs
      modifies this`cache
      ensures cache == Uncached(old(cache), w) && (s in w || cfg.defs[s].prompts == [])
      ensures Cleared(cfg, dependents, old(cache), w)
    {
      if cfg.defs[s].prompts != [] {
        w := RecInvalidate(s);
      } else {
        w := {};
      }
    }

    // -------------------------------------------------------- public interface

    method TriVal(s: Sym) returns (v: Trit)
      requires Valid() && s in cfg.defs
      modifies this`cache
      ensures Valid() && v == AsTri(Value(cfg, users, s))
    {
      hide WF, Sound, Solves, Value, DependentsOk;
      ghost var vals := AllValues(cfg, users);
      ScratchSolves(cfg, users);
      v := TriValue(s, vals);
    }

    method StrVal(s: Sym) returns (v: string)
      requires Valid() && s in cfg.defs
      modifies this`cache
      ensures Valid() && v == AsStr(Value(cfg, users, s))
    {
      hide WF, Sound, Solves, Value, DependentsOk;
      ghost var vals := AllValues(cfg, users);
      ScratchSolves(cfg, users);
      v := StrValue(s, vals);
    }

    method Vis(s: Sym) returns (v: Trit)
      requires Valid() && s in cfg.defs
      modifies this`cache
      ensures Valid() && v == VisOf(cfg, cfg.defs[s], AllValues(cfg, users))
    {
      hide WF, Sound, Solves, Value, DependentsOk;
      ScratchSolves(cfg, users);
      v := Visibility(s, AllValues(cfg, users));
    }

    method Assignable(s: Sym) returns (v: seq<Trit>)
      requires Valid() && s in cfg.defs
      modifies this`cache
      ensures Valid() && v == AssignableOf(cfg, cfg.defs[s], AllValues(cfg, users))
    {
      hide WF, Sound, Solves, Value, DependentsOk;
      ScratchSolves(cfg, users);
      v := AssignableNow(s, AllValues(cfg, users));
    }

    method SetValue(s: Sym, value: UserVal) returns (ok: bool)
      requires Valid() && s in cfg.defs
      modifies this`cache, this`users
      ensures Valid()
      ensures ok == Acceptable(cfg, cfg.defs[s].typ, Normalized(cfg.defs[s].typ, value))
      ensures users == if ok then old(users)[s := Normalized(cfg.defs[s].typ, value)] else old(users)
    {
      hide WF, Sound, Solves, Value, DependentsOk, Cleared;
      var v := Normalized(cfg.defs[s].typ, value);
      if s in users && users[s] == v { return true; }
      if !Acceptable(cfg, cfg.defs[s].typ, v) { return false; }
      ghost var before, c := users, cache;
      users := users[s := v];
      ghost var w := RecInvalidateIfHasPrompt(s);
      ScratchSolves(cfg, before);
      ScratchSolves(cfg, users);
      InvalidationSound(cfg, dependents, before, AllValues(cfg, before), users, AllValues(cfg, users), c, s, w);
      ok := true;
    }

    method UnsetValue(s: Sym)
      requires Valid() && s in cfg.defs
      modifies this`cache, this`users
      ensures Valid() && users == old(users) - {s}
    {
      hide WF, Sound, Solves, Value, DependentsOk, Cleared;
      if s in users {
        ghost var before, c := users, cache;
        users := users - {s};
        ghost var w := RecInvalidateIfHasPrompt(s);
        ScratchSolves(cfg, before);
        ScratchSolves(cfg, users);
        InvalidationSound(cfg, dependents, before, AllValues(cfg, before), users, AllValues(cfg, users), c, s, w);
      }
    }
  }

  /** With nothing cached but the constants, everything cached is right. */
  lemma FreshSound(cfg: Config, c: Cache)
    requires WF(cfg) && c.str == map[] && c.vis == map[] && c.asg == map[]
    requires c.tri == map s | s in cfg.defs && IsTri(cfg.defs[s].typ) && cfg.defs[s].isConstant :: cfg.defs[s].fixed
    ensures Sound(cfg, map[], AllValues(cfg, map[]), c)
  {
    hide Value, WF;
    forall s | s in cfg.defs ensures SoundAt(cfg, map[], AllValues(cfg, map[]), c, s) {
      ScratchValue(cfg, map[], s);
    }
  }

  lemma {:induction false} SymsOfPrefix(es: seq<Expr>, n: nat)
    requires n <= |es|
    ensures SymsOf(es[..n]) <= SymsOf(es)
    decreases |es|
  {
    if n < |es| {
      SymsOfPrefix(es[..|es| - 1], n);
      assert es[..|es| - 1][..n] == es[..n];
    } else {
      assert es[..n] == es;
    }
  }
}
