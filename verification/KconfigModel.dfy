/** The Kconfig data model: symbols, expressions, and the tristate value of an
    expression under an assignment of values to symbols (tools/kconfiglib.py). */
module KconfigModel {
  import opened Lists

  type Sym = nat

  /** n, m, y are 0, 1, 2. */
  type Trit = n: nat | n <= 2

  datatype SymType = Unknown | Bool | Tristate | Text | Int | Hex

  datatype Rel = Equal | Unequal | Less | LessEqual | Greater | GreaterEqual

  datatype Expr =
    | Leaf(sym: Sym)
    | And(l: Expr, r: Expr)
    | Or(l: Expr, r: Expr)
    | Not(e: Expr)
    | Relation(rel: Rel, a: Sym, b: Sym)

  /** The value a symbol contributes to others: a tristate for bool and tristate
      symbols, a string for every other type. */
  datatype Val = TriVal(t: Trit) | StrVal(s: string)

  datatype Range = Range(low: Sym, high: Sym, cond: Expr)
  datatype Default = Default(value: Expr, cond: Expr)

  /** One symbol. Symbols that are only mentioned are not defined. `fixed` is the value of the constant symbols n, m and y, whose
      cached value is set when they are made and never cleared. */
  datatype SymDef = SymDef(
    typ: SymType,
    name: string,
    isConstant: bool,
    isDefined: bool,
    fixed: Trit,
    prompts: seq<Expr>,
    defaults: seq<Default>,
    ranges: seq<Range>,
    revDep: Expr,
    weakRevDep: Expr,
    directDep: Expr)

  /** The parsed configuration. `toInt` and `fromInt` are Python's int(s, base)
      and its inverse, for the base that belongs to a symbol type; `rank` orders
      the symbols so that each one only refers to symbols of lower rank. */
  datatype Config = Config(
    defs: map<Sym, SymDef>,
    modules: Sym,
    rank: map<Sym, nat>,
    toInt: (SymType, string) -> Option<int>,
    fromInt: (SymType, int) -> string)

  predicate IsTri(t: SymType) { t == Bool || t == Tristate }

  function TriStr(t: Trit): string { if t == 0 then "n" else if t == 1 then "m" else "y" }

  function AsTri(v: Val): Trit { match v case TriVal(t) => t case StrVal(_) => 0 }

  function AsStr(v: Val): string { match v case TriVal(t) => TriStr(t) case StrVal(s) => s }

  function Min(a: Trit, b: Trit): Trit { if a < b then a else b }
  function Max(a: Trit, b: Trit): Trit { if a < b then b else a }

  function Read(vals: map<Sym, Val>, s: Sym): Val { if s in vals then vals[s] else StrVal("") }

  function TypeOf(cfg: Config, s: Sym): SymType { if s in cfg.defs then cfg.defs[s].typ else Unknown }

  /** Three-way comparison of strings by code point. */
  function StrCmp(s: string, t: string): int
  {
    if s == [] then (if t == [] then 0 else -1)
    else if t == [] then 1
    else if s[0] != t[0] then (if s[0] < t[0] then -1 else 1)
    else StrCmp(s[1..], t[1..])
  }

  /** A symbol's number in a comparison, if its value reads as one. */
  function SymNum(cfg: Config, vals: map<Sym, Val>, s: Sym): Option<int>
  {
    var v := Read(vals, s);
    if IsTri(TypeOf(cfg, s)) then Some(AsTri(v)) else cfg.toInt(TypeOf(cfg, s), AsStr(v))
  }

  function Compare(cfg: Config, vals: map<Sym, Val>, a: Sym, b: Sym): int
  {
    var x, y := SymNum(cfg, vals, a), SymNum(cfg, vals, b);
    if (TypeOf(cfg, a) == Text && TypeOf(cfg, b) == Text) || x.None? || y.None?
    then StrCmp(AsStr(Read(vals, a)), AsStr(Read(vals, b)))
    else x.value - y.value
  }

  predicate Holds(rel: Rel, comp: int)
  {
    match rel
    case Equal => comp == 0
    case Unequal => comp != 0
    case Less => comp < 0
    case LessEqual => comp <= 0
    case Greater => comp > 0
    case GreaterEqual => comp >= 0
  }

  /** The tristate value of an expression. */
  function ExprValue(cfg: Config, vals: map<Sym, Val>, e: Expr): Trit
  {
    match e
    case Leaf(s) => AsTri(Read(vals, s))
    case And(l, r) => Min(ExprValue(cfg, vals, l), ExprValue(cfg, vals, r))
    case Or(l, r) => Max(ExprValue(cfg, vals, l), ExprValue(cfg, vals, r))
    case Not(f) => 2 - ExprValue(cfg, vals, f)
    case Relation(rel, a, b) => if Holds(rel, Compare(cfg, vals, a, b)) then 2 else 0
  }

  /** The symbols that occur in an expression. */
  function Syms(e: Expr): set<Sym>
  {
    match e
    case Leaf(s) => {s}
    case And(l, r) => Syms(l) + Syms(r)
    case Or(l, r) => Syms(l) + Syms(r)
    case Not(f) => Syms(f)
    case Relation(_, a, b) => {a, b}
  }
}
