/** What the expression parser accepts (tools/kconfiglib.py): every way of writing an
    expression that respects precedence, with parentheses wherever one likes, and nothing
    else. */
module KconfigGrammar {
  import opened KconfigModel
  import opened KconfigExpr

  /** An expression as it is written. */
  datatype Written =
    | Name(s: Sym)
    | Compared(rel: Rel, a: Sym, b: Sym)
    | Negated(w: Written)
    | Grouped(w: Written)
    | Both(l: Written, r: Written)
    | Either(l: Written, r: Written)

  /** ! binds tightest, then &&, then ||. */
  predicate Proper(w: Written)
  {
    match w
    case Name(_) => true
    case Compared(_, _, _) => true
    case Negated(v) => Proper(v) && !v.Both? && !v.Either?
    case Grouped(v) => Proper(v)
    case Both(l, r) => Proper(l) && Proper(r) && !l.Either? && !r.Either?
    case Either(l, r) => Proper(l) && Proper(r)
  }

  function Spell(w: Written, rest: Tokens): Tokens
  {
    match w
    case Name(s) => Cons(SymTok(s), rest)
    case Compared(rel, a, b) => Cons(SymTok(a), Cons(RelTok(rel), Cons(SymTok(b), rest)))
    case Negated(v) => Cons(NotTok, Spell(v, rest))
    case Grouped(v) => Cons(Open, Spell(v, Cons(Close, rest)))
    case Both(l, r) => Spell(l, Cons(AndTok, Spell(r, rest)))
    case Either(l, r) => Spell(l, Cons(OrTok, Spell(r, rest)))
  }

  /** What is meant. */
  function Meaning(w: Written): Expr
  {
    match w
    case Name(s) => Leaf(s)
    case Compared(rel, a, b) => Relation(rel, a, b)
    case Negated(v) => Not(Meaning(v))
    case Grouped(v) => Meaning(v)
    case Both(l, r) => And(Meaning(l), Meaning(r))
    case Either(l, r) => Or(Meaning(l), Meaning(r))
  }

  /** Chains without parentheses grouped to the right. */
  function ToRight(w: Written): (v: Written)
    ensures Proper(w) ==> Proper(v)
    ensures v.Both? == w.Both? && v.Either? == w.Either?
  {
    match w
    case Negated(v) => Negated(ToRight(v))
    case Grouped(v) => Grouped(ToRight(v))
    case Both(l, r) => BothOf(ToRight(l), ToRight(r))
    case Either(l, r) => EitherOf(ToRight(l), ToRight(r))
    case _ => w
  }

  function BothOf(l: Written, r: Written): (w: Written)
    ensures w.Both? && (Proper(l) && Proper(r) && !l.Either? && !r.Either? ==> Proper(w))
  {
    if l.Both? then Both(l.l, BothOf(l.r, r)) else Both(l, r)
  }

  function EitherOf(l: Written, r: Written): (w: Written)
    ensures w.Either? && (Proper(l) && Proper(r) ==> Proper(w))
  {
    if l.Either? then Either(l.l, EitherOf(l.r, r)) else Either(l, r)
  }

  /** No chain leans to the left. */
  predicate Right(w: Written)
  {
    match w
    case Name(_) => true
    case Compared(_, _, _) => true
    case Negated(v) => Right(v)
    case Grouped(v) => Right(v)
    case Both(l, r) => !l.Both? && Right(l) && Right(r)
    case Either(l, r) => !l.Either? && Right(l) && Right(r)
  }

  // ------------------------------------------ grouping to the right changes nothing

  lemma {:induction false} BothSpells(l: Written, r: Written, rest: Tokens)
    ensures Spell(BothOf(l, r), rest) == Spell(Both(l, r), rest)
    ensures Right(l) && Right(r) ==> Right(BothOf(l, r))
  {
    if l.Both? { BothSpells(l.r, r, rest); }
  }

  lemma {:induction false} EitherSpells(l: Written, r: Written, rest: Tokens)
    ensures Spell(EitherOf(l, r), rest) == Spell(Either(l, r), rest)
    ensures Right(l) && Right(r) ==> Right(EitherOf(l, r))
  {
    if l.Either? { EitherSpells(l.r, r, rest); }
  }

  lemma {:induction false} RightSpells(w: Written, rest: Tokens)
    ensures Spell(ToRight(w), rest) == Spell(w, rest) && Right(ToRight(w))
  {
    match w
    case Negated(v) => RightSpells(v, rest);
    case Grouped(v) => RightSpells(v, Cons(Close, rest));
    case Both(l, r) =>
      RightSpells(r, rest);
      RightSpells(l, Cons(AndTok, Spell(r, rest)));
      BothSpells(ToRight(l), ToRight(r), rest);
    case Either(l, r) =>
      RightSpells(r, rest);
      RightSpells(l, Cons(OrTok, Spell(r, rest)));
      EitherSpells(ToRight(l), ToRight(r), rest);
    case _ =>
  }

  lemma {:induction false} BothMeans(l: Written, r: Written)
    ensures RightAssoc(Meaning(BothOf(l, r))) == AndJoin(RightAssoc(Meaning(l)), RightAssoc(Meaning(r)))
  {
    if l.Both? {
      BothMeans(l.r, r);
      AndJoinAssoc(RightAssoc(Meaning(l.l)), RightAssoc(Meaning(l.r)), RightAssoc(Meaning(r)));
    }
  }

  lemma {:induction false} EitherMeans(l: Written, r: Written)
    ensures RightAssoc(Meaning(EitherOf(l, r))) == OrJoin(RightAssoc(Meaning(l)), RightAssoc(Meaning(r)))
  {
    if l.Either? {
      EitherMeans(l.r, r);
      OrJoinAssoc(RightAssoc(Meaning(l.l)), RightAssoc(Meaning(l.r)), RightAssoc(Meaning(r)));
    }
  }

  /** The same expression, up to the grouping of && and of ||. */
  lemma {:induction false} RightMeans(w: Written)
    ensures RightAssoc(Meaning(ToRight(w))) == RightAssoc(Meaning(w))
  {
    match w
    case Negated(v) => RightMeans(v);
    case Grouped(v) => RightMeans(v);
    case Both(l, r) => RightMeans(l); RightMeans(r); BothMeans(ToRight(l), ToRight(r));
    case Either(l, r) => RightMeans(l); RightMeans(r); EitherMeans(ToRight(l), ToRight(r));
    case _ =>
  }

  // ------------------------------------------------------ what is written is parsed

  lemma {:induction false} FactorRead(mr: MRewrite, w: Written, rest: Tokens)
    requires Proper(w) && Right(w) && !w.Both? && !w.Either? && Stops(rest, {})
    ensures ParseFactor(mr, Spell(w, rest)) == Ok(RewriteM(mr, Meaning(w)), rest)
    decreases w, 0
  {
    match w
    case Negated(v) => FactorRead(mr, v, rest);
    case Grouped(v) => ExprRead(mr, v, Cons(Close, rest));
    case _ =>
  }

  lemma {:induction false} AndRead(mr: MRewrite, w: Written, rest: Tokens)
    requires Proper(w) && Right(w) && !w.Either? && Stops(rest, {AndTok})
    ensures ParseAnd(mr, Spell(w, rest)) == Ok(RewriteM(mr, Meaning(w)), rest)
    decreases w, 1
  {
    if w.Both? {
      AndRead(mr, w.r, rest);
      FactorRead(mr, w.l, Cons(AndTok, Spell(w.r, rest)));
    } else {
      FactorRead(mr, w, rest);
    }
  }

  lemma {:induction false} ExprRead(mr: MRewrite, w: Written, rest: Tokens)
    requires Proper(w) && Right(w) && Stops(rest, {AndTok, OrTok})
    ensures ParseExpr(mr, Spell(w, rest)) == Ok(RewriteM(mr, Meaning(w)), rest)
    decreases w, 2
  {
    if w.Either? {
      ExprRead(mr, w.r, rest);
      AndRead(mr, w.l, Cons(OrTok, Spell(w.r, rest)));
    } else {
      AndRead(mr, w, rest);
    }
  }

  // ------------------------------------------------- and what is parsed was written

  /** `w` is a way of writing the tokens of `ts` before `rest`, and the parse is what it
      means. */
  predicate Explains(mr: MRewrite, w: Written, ts: Tokens, p: Parse)
  {
    p.Ok? && Proper(w) && Right(w) && ts == Spell(w, p.rest) && p.e == RewriteM(mr, Meaning(w))
  }

  lemma {:induction false} FactorWritten(mr: MRewrite, ts: Tokens) returns (w: Written)
    requires ParseFactor(mr, ts).Ok?
    ensures Explains(mr, w, ts, ParseFactor(mr, ts)) && !w.Both? && !w.Either?
    decreases Len(ts), 0
  {
    match ts.head
    case SymTok(s) =>
      w := if ts.tail.Cons? && ts.tail.head.RelTok? then Compared(ts.tail.head.rel, s, ts.tail.tail.head.sym) else Name(s);
    case NotTok =>
      var v := FactorWritten(mr, ts.tail);
      w := Negated(v);
    case Open =>
      var v := ExprWritten(mr, ts.tail);
      w := Grouped(v);
  }

  lemma {:induction false} AndWritten(mr: MRewrite, ts: Tokens) returns (w: Written)
    requires ParseAnd(mr, ts).Ok?
    ensures Explains(mr, w, ts, ParseAnd(mr, ts)) && !w.Either?
    decreases Len(ts), 1
  {
    w := FactorWritten(mr, ts);
    var p := ParseFactor(mr, ts);
    if Heads(AndTok, p.rest) {
      var v := AndWritten(mr, p.rest.tail);
      w := Both(w, v);
    }
  }

  lemma {:induction false} ExprWritten(mr: MRewrite, ts: Tokens) returns (w: Written)
    requires ParseExpr(mr, ts).Ok?
    ensures Explains(mr, w, ts, ParseExpr(mr, ts))
    decreases Len(ts), 2
  {
    w := AndWritten(mr, ts);
    var p := ParseAnd(mr, ts);
    if Heads(OrTok, p.rest) {
      var v := ExprWritten(mr, p.rest.tail);
      w := Either(w, v);
    }
  }

  // ------------------------------------------------------------------ main results

  /** Every way of writing an expression is read as that expression, with chains of && and
      of || grouped to the right. */
  lemma EveryWriting(mr: MRewrite, w: Written)
    requires Proper(w)
    ensures ParseExpr(mr, Spell(w, EOL)) == Ok(RewriteM(mr, Meaning(ToRight(w))), EOL)
    ensures RightAssoc(Meaning(ToRight(w))) == RightAssoc(Meaning(w))
  {
    RightSpells(w, EOL);
    RightMeans(w);
    ExprRead(mr, ToRight(w), EOL);
  }

  /** `w` is a way of writing the whole line. */
  predicate WritesLine(w: Written, ts: Tokens) { Proper(w) && ts == Spell(w, EOL) }

  /** A line is read as a whole exactly when it is a way of writing an expression. */
  lemma AcceptsExactly(mr: MRewrite, ts: Tokens)
    ensures ParseExpr(mr, ts).Ok? && ParseExpr(mr, ts).rest == EOL <==> exists w :: WritesLine(w, ts)
  {
    if ParseExpr(mr, ts).Ok? && ParseExpr(mr, ts).rest == EOL {
      var w := ExprWritten(mr, ts);
      assert WritesLine(w, ts);
    } else if w :| WritesLine(w, ts) {
      EveryWriting(mr, w);
      assert false;
    }
  }

  /** A line means one thing: however it is taken to be written, the value is the same. */
  lemma OneMeaning(cfg: Config, vals: map<Sym, Val>, w: Written, v: Written)
    requires Proper(w) && Proper(v) && Spell(w, EOL) == Spell(v, EOL)
    ensures RightAssoc(Meaning(w)) == RightAssoc(Meaning(v))
    ensures ExprValue(cfg, vals, Meaning(w)) == ExprValue(cfg, vals, Meaning(v))
  {
    EveryWriting(Off, w);
    EveryWriting(Off, v);
    RewriteOff(Meaning(ToRight(w)));
    RewriteOff(Meaning(ToRight(v)));
    RightAssocValue(cfg, vals, Meaning(w));
    RightAssocValue(cfg, vals, Meaning(v));
  }

  /** What is read has the value of what was written. */
  lemma WritingKeepsValue(cfg: Config, vals: map<Sym, Val>, w: Written)
    requires Proper(w)
    ensures var p := ParseExpr(Off, Spell(w, EOL));
            p.Ok? && p.rest == EOL && ExprValue(cfg, vals, p.e) == ExprValue(cfg, vals, Meaning(w))
  {
    EveryWriting(Off, w);
    RewriteOff(Meaning(ToRight(w)));
    RightAssocValue(cfg, vals, Meaning(w));
    RightAssocValue(cfg, vals, Meaning(ToRight(w)));
  }

  // ---------------------------------------------------------------- the m rewrite

  /** No comparison mentions `m`. */
  predicate Uncompared(m: Sym, e: Expr)
  {
    match e
    case Leaf(_) => true
    case And(l, r) => Uncompared(m, l) && Uncompared(m, r)
    case Or(l, r) => Uncompared(m, l) && Uncompared(m, r)
    case Not(f) => Uncompared(m, f)
    case Relation(_, a, b) => a != m && b != m
  }

  /** An expression read with the rewrite has the value it would have if m were no more
      than MODULES; comparisons see m as it is. */
  lemma {:induction false} RewriteCuts(cfg: Config, vals: map<Sym, Val>, m: Sym, modules: Sym, e: Expr, cut: Trit)
    requires m in vals && Uncompared(m, e)
    requires cut <= AsTri(vals[m]) && cut <= AsTri(Read(vals, modules)) && (cut == AsTri(vals[m]) || cut == AsTri(Read(vals, modules)))
    ensures ExprValue(cfg, vals, RewriteM(On(m, modules), e)) == ExprValue(cfg, vals[m := TriVal(cut)], e)
  {
    match e
    case Leaf(s) =>
    case And(l, r) => RewriteCuts(cfg, vals, m, modules, l, cut); RewriteCuts(cfg, vals, m, modules, r, cut);
    case Or(l, r) => RewriteCuts(cfg, vals, m, modules, l, cut); RewriteCuts(cfg, vals, m, modules, r, cut);
    case Not(f) => RewriteCuts(cfg, vals, m, modules, f, cut);
    case Relation(rel, a, b) =>
  }
}
