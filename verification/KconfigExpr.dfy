/** Printing and parsing of Kconfig expressions (tools/kconfiglib.py): expr_str,
    _parenthesize and the recursive-descent parser over a token list. */
module KconfigExpr {
  import opened KconfigModel
  import opened Lists

  datatype Token = SymTok(sym: Sym) | AndTok | OrTok | NotTok | Open | Close | RelTok(rel: Rel) | End

  datatype Tokens = Nil | Cons(head: Token, tail: Tokens)

  // ---------------------------------------------------------------- printing

  /** The tokens of the printed form of `e`, followed by `rest`. */
  function Print(e: Expr, rest: Tokens): Tokens
    decreases e, 0
  {
    match e
    case Leaf(s) => Cons(SymTok(s), rest)
    case And(l, r) => AndOperand(l, Cons(AndTok, AndOperand(r, rest)))
    case Or(l, r) => OrOperand(l, Cons(OrTok, OrOperand(r, rest)))
    case Not(f) => if f.Leaf? then Cons(NotTok, Cons(SymTok(f.sym), rest)) else Cons(NotTok, Paren(f, rest))
    case Relation(rel, a, b) => Cons(SymTok(a), Cons(RelTok(rel), Cons(SymTok(b), rest)))
  }

  function Paren(e: Expr, rest: Tokens): Tokens
    decreases e, 1
  {
    Cons(Open, Print(e, Cons(Close, rest)))
  }

  /** An operand of AND is parenthesized when it is an OR. */
  function AndOperand(e: Expr, rest: Tokens): Tokens
    decreases e, 2
  {
    if e.Or? then Paren(e, rest) else Print(e, rest)
  }

  /** An operand of OR is parenthesized when it is an AND. */
  function OrOperand(e: Expr, rest: Tokens): Tokens
    decreases e, 2
  {
    if e.And? then Paren(e, rest) else Print(e, rest)
  }

  // ----------------------------------------------------------------- parsing

  datatype Parse = Ok(e: Expr, rest: Tokens) | Malformed

  /** The two symbols the m rewrite needs, or none when it is off. */
  datatype MRewrite = Off | On(m: Sym, modules: Sym)

  function Plain(mr: MRewrite, s: Sym): Expr
  {
    if mr.On? && s == mr.m then And(Leaf(s), Leaf(mr.modules)) else Leaf(s)
  }

  function Len(ts: Tokens): nat { if ts.Nil? then 0 else 1 + Len(ts.tail) }

  predicate Heads(t: Token, ts: Tokens) { ts.Cons? && ts.head == t }

  function ParseFactor(mr: MRewrite, ts: Tokens): (p: Parse)
    ensures p.Ok? ==> Len(p.rest) < Len(ts)
    decreases Len(ts), 0
  {
    match ts
    case Cons(SymTok(s), more) =>
      if more.Cons? && more.head.RelTok? then
        if more.tail.Cons? && more.tail.head.SymTok?
        then assert Len(more) == 2 + Len(more.tail.tail);
             Ok(Relation(more.head.rel, s, more.tail.head.sym), more.tail.tail)
        else Malformed
      else Ok(Plain(mr, s), more)
    case Cons(NotTok, more) =>
      var p := ParseFactor(mr, more);
      if p.Ok? then Ok(Not(p.e), p.rest) else Malformed
    case Cons(Open, more) =>
      var p := ParseExpr(mr, more);
      if p.Ok? && Heads(Close, p.rest) then Ok(p.e, p.rest.tail) else Malformed
    case _ => Malformed
  }

  function ParseAnd(mr: MRewrite, ts: Tokens): (p: Parse)
    ensures p.Ok? ==> Len(p.rest) < Len(ts)
    decreases Len(ts), 1
  {
    var p := ParseFactor(mr, ts);
    if p.Ok? && Heads(AndTok, p.rest) then
      var q := ParseAnd(mr, p.rest.tail);
      if q.Ok? then Ok(And(p.e, q.e), q.rest) else Malformed
    else p
  }

  function ParseExpr(mr: MRewrite, ts: Tokens): (p: Parse)
    ensures p.Ok? ==> Len(p.rest) < Len(ts)
    decreases Len(ts), 2
  {
    var p := ParseAnd(mr, ts);
    if p.Ok? && Heads(OrTok, p.rest) then
      var q := ParseExpr(mr, p.rest.tail);
      if q.Ok? then Ok(Or(p.e, q.e), q.rest) else Malformed
    else p
  }

  /** The parser object: a token list that ends in End, and a cursor that the
      parsing methods advance. */
  class Parser {
    const tokens: seq<Token>
    const mr: MRewrite
    var i: nat

    ghost predicate Valid()
      reads this
    {
      i <= |tokens| && |tokens| > 0 && tokens[|tokens| - 1] == End
    }

    /** The tokens from position `k` on. */
    ghost function From(k: nat): Tokens
      requires k <= |tokens|
      decreases |tokens| - k
    {
      if k == |tokens| then Nil else Cons(tokens[k], From(k + 1))
    }

    /** A method result matches a parse of the tokens it started from, and the
        cursor stands at what the parse left over. */
    ghost predicate Agrees(r: Option<Expr>, p: Parse)
      reads this
    {
      match p
      case Malformed => r.None?
      case Ok(e, rest) => r == Some(e) && i < |tokens| && rest == From(i)
    }

    constructor (tokens: seq<Token>, mr: MRewrite)
      requires |tokens| > 0 && tokens[|tokens| - 1] == End
      ensures Valid() && this.tokens == tokens && this.mr == mr && i == 0
    {
      this.tokens := tokens;
      this.mr := mr;
      i := 0;
    }

    /** If the next token is `t`, steps over it. */
    method CheckToken(t: Token) returns (found: bool)
      requires Valid() && i < |tokens| && t != End
      modifies this
      ensures Valid() && found == (tokens[old(i)] == t)
      ensures i == if found then old(i) + 1 else old(i)
      ensures i < |tokens|
    {
      found := tokens[i] == t;
      if found { i := i + 1; }
    }

    /** Each parsing method consumes exactly what the parse function on the
        remaining tokens consumes; a malformed input is a parse error. */
    method Factor() returns (r: Option<Expr>)
      requires Valid() && i < |tokens|
      modifies this
      ensures Valid() && old(i) <= i
      ensures Agrees(r, ParseFactor(mr, From(old(i))))
      decreases |tokens| - i, 0
    {
      var token := tokens[i];
      i := i + 1;
      assert From(old(i)) == Cons(token, From(i));
      match token {
        case SymTok(s) =>
          assert From(i) == Cons(tokens[i], From(i + 1));
          if !tokens[i].RelTok? { return Some(Plain(mr, s)); }
          assert From(i).tail == From(i + 1) && From(i + 1).tail == From(i + 2);
          i := i + 2;
          return if tokens[i - 1].SymTok? then Some(Relation(tokens[i - 2].rel, s, tokens[i - 1].sym)) else None;
        case NotTok =>
          r := Factor();
          if r.Some? { r := Some(Not(r.value)); }
        case Open =>
          r := Expression();
          if r.Some? {
            var closed := CheckToken(Close);
            if !closed { r := None; }
          }
        case _ => r := None;
      }
    }

    method AndExpression() returns (r: Option<Expr>)
      requires Valid() && i < |tokens|
      modifies this
      ensures Valid() && old(i) <= i
      ensures Agrees(r, ParseAnd(mr, From(old(i))))
      decreases |tokens| - i, 1
    {
      r := Factor();
      if r.None? { return; }
      var more := CheckToken(AndTok);
      if !more { return; }
      var q := AndExpression();
      r := if q.Some? then Some(And(r.value, q.value)) else None;
    }

    method Expression() returns (r: Option<Expr>)
      requires Valid() && i < |tokens|
      modifies this
      ensures Valid() && old(i) <= i
      ensures Agrees(r, ParseExpr(mr, From(old(i))))
      decreases |tokens| - i, 2
    {
      r := AndExpression();
      if r.None? { return; }
      var more := CheckToken(OrTok);
      if !more { return; }
      var q := Expression();
      r := if q.Some? then Some(Or(r.value, q.value)) else None;
    }
  }

  // -------------------------------------------------------------- round trip

  function OrJoin(e: Expr, f: Expr): Expr
  {
    match e
    case Or(l, r) => Or(l, OrJoin(r, f))
    case _ => Or(e, f)
  }

  function AndJoin(e: Expr, f: Expr): Expr
  {
    match e
    case And(l, r) => And(l, AndJoin(r, f))
    case _ => And(e, f)
  }

  /** The right-associated form: A op (B op (C op D)). */
  function RightAssoc(e: Expr): Expr
  {
    match e
    case And(l, r) => AndJoin(RightAssoc(l), RightAssoc(r))
    case Or(l, r) => OrJoin(RightAssoc(l), RightAssoc(r))
    case Not(f) => Not(RightAssoc(f))
    case _ => e
  }

  /** m becomes m && MODULES wherever it stands as a plain operand. */
  function RewriteM(mr: MRewrite, e: Expr): Expr
  {
    match e
    case Leaf(s) => Plain(mr, s)
    case And(l, r) => And(RewriteM(mr, l), RewriteM(mr, r))
    case Or(l, r) => Or(RewriteM(mr, l), RewriteM(mr, r))
    case Not(f) => Not(RewriteM(mr, f))
    case Relation(_, _, _) => e
  }

  /** What the parser should make of the printed form of `e`. */
  function Expected(mr: MRewrite, e: Expr): Expr { RewriteM(mr, RightAssoc(e)) }

  /** Tokens that end a factor, and that do not begin with one of `ops`. */
  predicate Stops(rest: Tokens, ops: set<Token>)
  {
    rest.Cons? && !rest.head.RelTok? && rest.head !in ops
  }

  lemma {:induction false} OrJoinAssoc(a: Expr, b: Expr, c: Expr)
    ensures OrJoin(OrJoin(a, b), c) == OrJoin(a, OrJoin(b, c))
  {
    if a.Or? { OrJoinAssoc(a.r, b, c); }
  }

  lemma {:induction false} AndJoinAssoc(a: Expr, b: Expr, c: Expr)
    ensures AndJoin(AndJoin(a, b), c) == AndJoin(a, AndJoin(b, c))
  {
    if a.And? { AndJoinAssoc(a.r, b, c); }
  }

  lemma RightAssocKind(e: Expr)
    ensures RightAssoc(e).Or? == e.Or? && RightAssoc(e).And? == e.And?
  {
  }

  // Each lemma below says what one parse function makes of a printed form that
  // is followed by `rest`. The "Left" lemmas parse a printed operand that stands
  // to the left of an operator, when the parse of what follows is known.

  lemma {:induction false} FactorParses(mr: MRewrite, e: Expr, rest: Tokens)
    requires !e.And? && !e.Or? && Stops(rest, {})
    ensures ParseFactor(mr, Print(e, rest)) == Ok(Expected(mr, e), rest)
    decreases e, 1
  {
    if e.Not? {
      if e.e.Leaf? { FactorParses(mr, e.e, rest); } else { ParenParses(mr, e.e, rest); }
    }
  }

  lemma {:induction false} ParenParses(mr: MRewrite, e: Expr, rest: Tokens)
    ensures ParseFactor(mr, Paren(e, rest)) == Ok(Expected(mr, e), rest)
    decreases e, 8
  {
    ExprParses(mr, e, Cons(Close, rest));
  }

  lemma {:induction false} AndFactorParses(mr: MRewrite, e: Expr, rest: Tokens)
    requires !e.And? && Stops(rest, {})
    ensures ParseFactor(mr, AndOperand(e, rest)) == Ok(Expected(mr, e), rest)
    decreases e, 9
  {
    if e.Or? { ParenParses(mr, e, rest); } else { FactorParses(mr, e, rest); }
  }

  lemma {:induction false} AndLeft(mr: MRewrite, a: Expr, ts: Tokens, z: Expr, rest: Tokens)
    requires ParseAnd(mr, ts) == Ok(RewriteM(mr, z), rest)
    ensures ParseAnd(mr, AndOperand(a, Cons(AndTok, ts))) == Ok(RewriteM(mr, AndJoin(RightAssoc(a), z)), rest)
    decreases a, 10
  {
    match a
    case And(l, r) =>
      AndLeft(mr, r, ts, z, rest);
      AndLeft(mr, l, AndOperand(r, Cons(AndTok, ts)), AndJoin(RightAssoc(r), z), rest);
      AndJoinAssoc(RightAssoc(l), RightAssoc(r), z);
    case _ =>
      RightAssocKind(a);
      AndFactorParses(mr, a, Cons(AndTok, ts));
  }

  lemma {:induction false} AndOperandParses(mr: MRewrite, e: Expr, rest: Tokens)
    requires Stops(rest, {AndTok})
    ensures ParseAnd(mr, AndOperand(e, rest)) == Ok(Expected(mr, e), rest)
    decreases e, 11
  {
    match e
    case And(l, r) =>
      AndOperandParses(mr, r, rest);
      AndLeft(mr, l, AndOperand(r, rest), RightAssoc(r), rest);
    case _ =>
      AndFactorParses(mr, e, rest);
  }

  /** An operand of an OR, parsed at the level of AND. */
  lemma {:induction false} OrAndParses(mr: MRewrite, e: Expr, rest: Tokens)
    requires !e.Or? && Stops(rest, {AndTok})
    ensures ParseAnd(mr, OrOperand(e, rest)) == Ok(Expected(mr, e), rest)
    decreases e, 9
  {
    if e.And? { ParenParses(mr, e, rest); } else { FactorParses(mr, e, rest); }
  }

  lemma {:induction false} OrLeft(mr: MRewrite, a: Expr, ts: Tokens, z: Expr, rest: Tokens)
    requires ParseExpr(mr, ts) == Ok(RewriteM(mr, z), rest)
    ensures ParseExpr(mr, OrOperand(a, Cons(OrTok, ts))) == Ok(RewriteM(mr, OrJoin(RightAssoc(a), z)), rest)
    decreases a, 10
  {
    match a
    case Or(l, r) =>
      OrLeft(mr, r, ts, z, rest);
      OrLeft(mr, l, OrOperand(r, Cons(OrTok, ts)), OrJoin(RightAssoc(r), z), rest);
      OrJoinAssoc(RightAssoc(l), RightAssoc(r), z);
    case _ =>
      RightAssocKind(a);
      OrAndParses(mr, a, Cons(OrTok, ts));
  }

  lemma {:induction false} OrOperandParses(mr: MRewrite, e: Expr, rest: Tokens)
    requires Stops(rest, {AndTok, OrTok})
    ensures ParseExpr(mr, OrOperand(e, rest)) == Ok(Expected(mr, e), rest)
    decreases e, 11
  {
    match e
    case Or(l, r) =>
      OrOperandParses(mr, r, rest);
      OrLeft(mr, l, OrOperand(r, rest), RightAssoc(r), rest);
    case _ =>
      OrAndParses(mr, e, rest);
  }

  lemma {:induction false} ExprParses(mr: MRewrite, e: Expr, rest: Tokens)
    requires Stops(rest, {AndTok, OrTok})
    ensures ParseExpr(mr, Print(e, rest)) == Ok(Expected(mr, e), rest)
    decreases e, 7
  {
    match e
    case And(l, r) =>
      AndOperandParses(mr, r, rest);
      AndLeft(mr, l, AndOperand(r, rest), RightAssoc(r), rest);
    case Or(l, r) =>
      OrOperandParses(mr, r, rest);
      OrLeft(mr, l, OrOperand(r, rest), RightAssoc(r), rest);
    case _ =>
      FactorParses(mr, e, rest);
  }

  const EOL := Cons(End, Nil)

  /** Main result: parsing the printed form consumes all of it and gives back the
      right-associated form of the same expression, with m rewritten or not. */
  lemma RoundTrip(mr: MRewrite, e: Expr)
    ensures ParseExpr(mr, Print(e, EOL)) == Ok(RewriteM(mr, RightAssoc(e)), EOL)
  {
    ExprParses(mr, e, EOL);
  }

  lemma {:induction false} JoinValue(cfg: Config, vals: map<Sym, Val>, a: Expr, b: Expr)
    ensures ExprValue(cfg, vals, OrJoin(a, b)) == ExprValue(cfg, vals, Or(a, b))
    ensures ExprValue(cfg, vals, AndJoin(a, b)) == ExprValue(cfg, vals, And(a, b))
  {
    if a.Or? || a.And? { JoinValue(cfg, vals, a.r, b); }
  }

  lemma {:induction false} RightAssocValue(cfg: Config, vals: map<Sym, Val>, e: Expr)
    ensures ExprValue(cfg, vals, RightAssoc(e)) == ExprValue(cfg, vals, e)
  {
    match e
    case Not(f) => RightAssocValue(cfg, vals, f);
    case Leaf(_) =>
    case Relation(_, _, _) =>
    case _ =>
      RightAssocValue(cfg, vals, e.l);
      RightAssocValue(cfg, vals, e.r);
      JoinValue(cfg, vals, RightAssoc(e.l), RightAssoc(e.r));
  }

  lemma {:induction false} RewriteOff(e: Expr)
    ensures RewriteM(Off, e) == e
  {
    match e
    case Not(f) => RewriteOff(f);
    case Leaf(_) =>
    case Relation(_, _, _) =>
    case _ => RewriteOff(e.l); RewriteOff(e.r);
  }

  /** Main result: the expression read back has the printed expression's value
      under every configuration and every assignment. */
  lemma RoundTripKeepsValue(cfg: Config, vals: map<Sym, Val>, e: Expr)
    ensures var p := ParseExpr(Off, Print(e, EOL));
            p.Ok? && p.rest == EOL && ExprValue(cfg, vals, p.e) == ExprValue(cfg, vals, e)
  {
    RoundTrip(Off, e);
    RewriteOff(RightAssoc(e));
    RightAssocValue(cfg, vals, e);
  }
}
