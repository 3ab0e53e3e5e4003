/** Properties of the reference parser in Grammar: how expressions group
    (associativity, precedence, non-chaining comparisons, one prefix
    operator), how identifiers are classified, what assignments and
    function definitions do to the tables, and what a program keeps. */
module GrammarProps {

  import opened Options
  import opened Numerals
  import opened Ast
  import opened Grammar
  import L = Lexer

  /** The token `k` places after the look-ahead (0 is the look-ahead). */
  function At(s: PState, k: nat): L.Token
    requires Ready(s) && s.pulled + k <= |s.toks|
  {
    s.toks[s.pulled - 1 + k]
  }

  /** `s` after `n` more tokens have been pulled. */
  function Skip(s: PState, n: nat): PState {
    s.(pulled := s.pulled + n)
  }

  /** Pulling `m` tokens moves every later token `m` places closer. */
  lemma Shift(s: PState, m: nat)
    requires Ready(s) && s.pulled + m <= |s.toks|
    ensures Ready(Skip(s, m)) && Cur(Skip(s, m)) == At(s, m)
    ensures forall k :: s.pulled + m + k <= |s.toks| ==> At(Skip(s, m), k) == At(s, m + k)
    ensures forall n :: Skip(Skip(s, m), n) == Skip(s, m + n)
  {
  }

  /** The token `k` places after the look-ahead is an operand on its own:
      a declared variable or a literal, the primaries of one token. */
  predicate SimpleAt(s: PState, k: nat)
    requires Ready(s) && s.pulled + k <= |s.toks|
  {
    var t := At(s, k);
    (t.kind == L.Id && t.lexeme in s.vars) || LiteralType(t).Some?
  }

  /** The node `primary` builds for a one-token operand. */
  function TokenExpr(t: L.Token): Expr {
    match LiteralType(t)
    case Some(ty) => LitExpr(t.lexeme, ty)
    case None => IDExpr(t.lexeme)
  }

  /** The node for the operand `k` places on. */
  function SimpleExpr(s: PState, k: nat): Expr
    requires Ready(s) && s.pulled + k <= |s.toks|
  {
    TokenExpr(At(s, k))
  }

  // ---------------------------------------------------------------------
  // Where each level of the expression grammar stops

  /** A token of kind `k` ends a term: it is no `*`, `/` or `%`. */
  predicate EndsTerm(k: L.Kind) { k !in MulOps }

  /** ... and no `+` or `-` either: it ends an addition. */
  predicate EndsAddition(k: L.Kind) { EndsTerm(k) && k !in AddOps }

  /** ... and no comparison: it ends a relation. */
  predicate EndsRelation(k: L.Kind) { EndsAddition(k) && k !in RelOps }

  /** ... and no `==` or `!=`: it ends an equality. */
  predicate EndsEquality(k: L.Kind) { EndsRelation(k) && k !in EqOps }

  /** ... and no `&&`: it ends a conjunction. */
  predicate EndsConjunction(k: L.Kind) { EndsEquality(k) && k != L.And }

  /** ... and no `||`: it ends an expression. */
  predicate EndsExpression(k: L.Kind) { EndsConjunction(k) && k != L.Or }

  // ---------------------------------------------------------------------
  // Operands

  /** The look-ahead is a one-token operand and another token follows it. */
  predicate OperandAt(s: PState) {
    Ready(s) && s.pulled + 1 <= |s.toks| && SimpleAt(s, 0)
  }

  /** The result of parsing the one-token operand at the look-ahead. */
  function Atom(s: PState): Step<Expr>
    requires OperandAt(s)
  {
    Step(Ok(SimpleExpr(s, 0)), Skip(s, 1))
  }

  /** A declared variable or a literal is a primary, and a prefix-free factor. */
  lemma SimpleFact(s: PState)
    requires OperandAt(s)
    ensures Primary(s) == Atom(s) && Fact(s) == Atom(s)
  {
    if Cur(s).kind == L.Id {
      assert Identifier(s) == Atom(s);
    }
  }

  /** A one-token operand not followed by `*`, `/` or `%` is a whole term. */
  lemma SimpleTerm(s: PState)
    requires OperandAt(s) && EndsTerm(At(s, 1).kind)
    ensures Term(s) == Atom(s)
  {
    SimpleFact(s);
    assert Cur(Skip(s, 1)) == At(s, 1);
    TermPasses(s, SimpleExpr(s, 0), Skip(s, 1));
  }

  /** ... and, not followed by `+` or `-` either, a whole addition. */
  lemma SimpleAddition(s: PState)
    requires OperandAt(s) && EndsAddition(At(s, 1).kind)
    ensures Addition(s) == Atom(s)
  {
    SimpleTerm(s);
    assert Cur(Skip(s, 1)) == At(s, 1);
    AdditionPasses(s, SimpleExpr(s, 0), Skip(s, 1));
  }

  /** ... and, not followed by a comparison, a whole relation. */
  lemma SimpleRelation(s: PState)
    requires OperandAt(s) && EndsRelation(At(s, 1).kind)
    ensures Relation(s) == Atom(s)
  {
    SimpleAddition(s);
    assert Cur(Skip(s, 1)) == At(s, 1);
    RelationPasses(s, SimpleExpr(s, 0), Skip(s, 1));
  }

  /** ... and, not followed by `==` or `!=`, a whole equality. */
  lemma SimpleEquality(s: PState)
    requires OperandAt(s) && EndsEquality(At(s, 1).kind)
    ensures Equality(s) == Atom(s)
  {
    SimpleRelation(s);
    assert Cur(Skip(s, 1)) == At(s, 1);
    EqualityPasses(s, SimpleExpr(s, 0), Skip(s, 1));
  }

  /** ... and, not followed by `&&`, a whole conjunction. */
  lemma SimpleConjunction(s: PState)
    requires OperandAt(s) && EndsConjunction(At(s, 1).kind)
    ensures Conjunction(s) == Atom(s)
  {
    SimpleEquality(s);
    assert Cur(Skip(s, 1)) == At(s, 1);
    ConjunctionPasses(s, SimpleExpr(s, 0), Skip(s, 1));
  }

  /** ... and, not followed by `||`, a whole expression. */
  lemma SimpleExpression(s: PState)
    requires OperandAt(s) && EndsExpression(At(s, 1).kind)
    ensures Expression(s) == Atom(s)
  {
    SimpleEquality(s);
    assert Cur(Skip(s, 1)) == At(s, 1);
    ExpressionOfEquality(s, SimpleExpr(s, 0), Skip(s, 1));
  }

  // ---------------------------------------------------------------------
  // One level at a time

  /** Without a `*`, `/` or `%` after it, a factor is the whole term. */
  lemma TermPasses(s: PState, x: Expr, after: PState)
    requires Ready(s) && Fact(s) == Step(Ok(x), after) && Cur(after).kind !in MulOps
    ensures Term(s) == Step(Ok(x), after)
  {
  }

  /** Without a `+` or `-` after it, a term is the whole addition. */
  lemma AdditionPasses(s: PState, x: Expr, after: PState)
    requires Ready(s) && Term(s) == Step(Ok(x), after) && Cur(after).kind !in AddOps
    ensures Addition(s) == Step(Ok(x), after)
  {
  }

  /** Without a comparison after it, an addition is the whole relation. */
  lemma RelationPasses(s: PState, x: Expr, after: PState)
    requires Ready(s) && Addition(s) == Step(Ok(x), after) && Cur(after).kind !in RelOps
    ensures Relation(s) == Step(Ok(x), after)
  {
  }

  /** A comparison combines the two additions around it. */
  lemma RelationCombines(s: PState, x: Expr, mid: PState, y: Expr, after: PState)
    requires Ready(s) && Addition(s) == Step(Ok(x), mid)
    requires Cur(mid).kind in RelOps && CanPull(mid) && Addition(Pulled(mid)) == Step(Ok(y), after)
    ensures Relation(s) == Step(Ok(BinaryExpr(x, Cur(mid).lexeme, y)), after)
  {
  }

  /** Without `==` or `!=` after it, a relation is the whole equality. */
  lemma EqualityPasses(s: PState, x: Expr, after: PState)
    requires Ready(s) && Relation(s) == Step(Ok(x), after) && Cur(after).kind !in EqOps
    ensures Equality(s) == Step(Ok(x), after)
  {
  }

  /** `==` and `!=` combine the two relations around them. */
  lemma EqualityCombines(s: PState, x: Expr, mid: PState, y: Expr, after: PState)
    requires Ready(s) && Relation(s) == Step(Ok(x), mid)
    requires Cur(mid).kind in EqOps && CanPull(mid) && Relation(Pulled(mid)) == Step(Ok(y), after)
    ensures Equality(s) == Step(Ok(BinaryExpr(x, Cur(mid).lexeme, y)), after)
  {
  }

  /** Without `&&` after it, an equality is the whole conjunction. */
  lemma ConjunctionPasses(s: PState, x: Expr, after: PState)
    requires Ready(s) && Equality(s) == Step(Ok(x), after) && Cur(after).kind != L.And
    ensures Conjunction(s) == Step(Ok(x), after)
  {
  }

  /** Without `||` after it, a conjunction is the whole expression. */
  lemma ExpressionPasses(s: PState, x: Expr, after: PState)
    requires Ready(s) && Conjunction(s) == Step(Ok(x), after) && Cur(after).kind != L.Or
    ensures Expression(s) == Step(Ok(x), after)
  {
  }

  /** A relation that neither `==`, `!=`, `&&` nor `||` follows is the whole
      expression. */
  lemma ExpressionOfRelation(s: PState, x: Expr, after: PState)
    requires Ready(s) && Relation(s) == Step(Ok(x), after)
    requires Cur(after).kind !in EqOps && Cur(after).kind != L.And && Cur(after).kind != L.Or
    ensures Expression(s) == Step(Ok(x), after)
  {
    EqualityPasses(s, x, after);
    ConjunctionPasses(s, x, after);
    ExpressionPasses(s, x, after);
  }

  /** An equality that neither `&&` nor `||` follows is the whole expression. */
  lemma ExpressionOfEquality(s: PState, x: Expr, after: PState)
    requires Ready(s) && Equality(s) == Step(Ok(x), after)
    requires Cur(after).kind != L.And && Cur(after).kind != L.Or
    ensures Expression(s) == Step(Ok(x), after)
  {
    ConjunctionPasses(s, x, after);
    ExpressionPasses(s, x, after);
  }

  /** An error (or the end of the tokens) in the first factor ends every
      level above it with that same outcome. */
  lemma FactFailureEndsExpression(s: PState)
    requires Ready(s)
    ensures !Fact(s).out.Ok? ==> Expression(s) == Fact(s)
  {
    if !Fact(s).out.Ok? {
      assert Term(s) == Fact(s);
      assert Addition(s) == Fact(s);
      assert Relation(s) == Fact(s);
      assert Equality(s) == Fact(s);
      assert Conjunction(s) == Fact(s);
    }
  }

  // ---------------------------------------------------------------------
  // Left associativity of the four loop levels

  /** An operator token followed by a one-token operand. */
  datatype Link = Link(op: L.Token, operand: L.Token)

  /** The four levels whose operators repeat. */
  datatype Level = OrLevel | AndLevel | AddLevel | MulLevel

  /** The operator kinds of a level. */
  predicate IsOp(level: Level, k: L.Kind) {
    match level
    case OrLevel => k == L.Or
    case AndLevel => k == L.And
    case AddLevel => k in AddOps
    case MulLevel => k in MulOps
  }

  /** From the look-ahead on, the tokens are `op0 x0 op1 x1 ...` for `links`,
      every operator one of `level`, every operand a one-token operand, and
      one more token follows the last operand. */
  predicate ChainAt(s: PState, links: seq<Link>, level: Level)
    decreases |links|
  {
    Ready(s) && s.pulled + 2 * |links| <= |s.toks| &&
    (links != [] ==>
      At(s, 0) == links[0].op && IsOp(level, links[0].op.kind) &&
      SimpleAt(s, 1) && At(s, 1) == links[0].operand &&
      ChainAt(Skip(s, 2), links[1..], level))
  }

  /** The token after a chain. */
  function AfterChain(s: PState, links: seq<Link>, level: Level): L.Token
    requires ChainAt(s, links, level)
  {
    At(s, 2 * |links|)
  }

  /** Each operator combines everything to its left with the operand to its
      right: `((left op0 x0) op1 x1) ...`. */
  function FoldLeft(left: Expr, links: seq<Link>): Expr
    decreases |links|
  {
    if links == [] then left
    else FoldLeft(BinaryExpr(left, links[0].op.lexeme, TokenExpr(links[0].operand)), links[1..])
  }

  /** The first link of a chain: its operator is the look-ahead and its
      operand the token after it. */
  lemma FirstLink(s: PState, links: seq<Link>, level: Level)
    requires ChainAt(s, links, level) && links != []
    ensures CanPull(s) && Cur(s) == links[0].op && IsOp(level, Cur(s).kind)
    ensures Pulled(s) == Skip(s, 1) && OperandAt(Skip(s, 1)) && SimpleExpr(Skip(s, 1), 0) == TokenExpr(links[0].operand)
    ensures Skip(Skip(s, 1), 1) == Skip(s, 2)
  {
    Shift(s, 1);
  }

  /** The token after a chain's first link ends the chain or is the
      operator of its second link. */
  lemma RestOfChain(s: PState, links: seq<Link>, level: Level)
    requires ChainAt(s, links, level) && links != []
    ensures At(Skip(s, 1), 1) == (if |links| == 1 then AfterChain(s, links, level) else links[1].op)
    ensures |links| > 1 ==> IsOp(level, links[1].op.kind)
  {
    ChainTail(s, links, level);
    assert At(Skip(s, 1), 1) == At(s, 2);
    if |links| > 1 {
      assert links[1..][0] == links[1];
      assert At(Skip(s, 2), 0) == At(s, 2);
    }
  }

  /** What remains of a chain after its first link is a chain ending at the
      same token. */
  lemma ChainTail(s: PState, links: seq<Link>, level: Level)
    requires ChainAt(s, links, level) && links != []
    ensures ChainAt(Skip(s, 2), links[1..], level)
    ensures AfterChain(Skip(s, 2), links[1..], level) == AfterChain(s, links, level)
    ensures Skip(Skip(s, 2), 2 * |links[1..]|) == Skip(s, 2 * |links|)
  {
    Shift(s, 2);
  }

  /** `&&` ends an equality and `||` a conjunction. */
  lemma LogicalOpsEnd()
    ensures EndsEquality(L.And) && EndsConjunction(L.Or)
  {
  }

  /** `+` and `-` group to the left. */
  lemma {:induction false} AddTailChain(left: Expr, links: seq<Link>, s: PState)
    requires ChainAt(s, links, AddLevel)
    requires EndsAddition(AfterChain(s, links, AddLevel).kind)
    ensures AddTail(left, s) == Step(Ok(FoldLeft(left, links)), Skip(s, 2 * |links|))
    decreases |links|
  {
    if links == [] {
      assert Skip(s, 0) == s;
    } else {
      FirstLink(s, links, AddLevel);
      RestOfChain(s, links, AddLevel);
      ChainTail(s, links, AddLevel);
      if |links| > 1 { AddOpEndsTerm(links[1].op.kind); }
      SimpleTerm(Skip(s, 1));
      AddTailStep(left, s, TokenExpr(links[0].operand), Skip(s, 2));
      AddTailChain(BinaryExpr(left, links[0].op.lexeme, TokenExpr(links[0].operand)), links[1..], Skip(s, 2));
    }
  }

  /** `*`, `/` and `%` group to the left. */
  lemma {:induction false} MulTailChain(left: Expr, links: seq<Link>, s: PState)
    requires ChainAt(s, links, MulLevel)
    requires EndsTerm(AfterChain(s, links, MulLevel).kind)
    ensures MulTail(left, s) == Step(Ok(FoldLeft(left, links)), Skip(s, 2 * |links|))
    decreases |links|
  {
    if links == [] {
      assert Skip(s, 0) == s;
    } else {
      FirstLink(s, links, MulLevel);
      RestOfChain(s, links, MulLevel);
      ChainTail(s, links, MulLevel);
      SimpleFact(Skip(s, 1));
      MulTailStep(left, s, TokenExpr(links[0].operand), Skip(s, 2));
      MulTailChain(BinaryExpr(left, links[0].op.lexeme, TokenExpr(links[0].operand)), links[1..], Skip(s, 2));
    }
  }

  /** `&&` groups to the left. */
  lemma {:induction false} AndTailChain(left: Expr, links: seq<Link>, s: PState)
    requires ChainAt(s, links, AndLevel)
    requires EndsConjunction(AfterChain(s, links, AndLevel).kind)
    ensures AndTail(left, s) == Step(Ok(FoldLeft(left, links)), Skip(s, 2 * |links|))
    decreases |links|
  {
    if links == [] {
      assert Skip(s, 0) == s;
    } else {
      FirstLink(s, links, AndLevel);
      RestOfChain(s, links, AndLevel);
      ChainTail(s, links, AndLevel);
      LogicalOpsEnd();
      SimpleEquality(Skip(s, 1));
      AndTailStep(left, s, TokenExpr(links[0].operand), Skip(s, 2));
      AndTailChain(BinaryExpr(left, links[0].op.lexeme, TokenExpr(links[0].operand)), links[1..], Skip(s, 2));
    }
  }

  /** `||` groups to the left. */
  lemma {:induction false} OrTailChain(left: Expr, links: seq<Link>, s: PState)
    requires ChainAt(s, links, OrLevel)
    requires EndsExpression(AfterChain(s, links, OrLevel).kind)
    ensures OrTail(left, s) == Step(Ok(FoldLeft(left, links)), Skip(s, 2 * |links|))
    decreases |links|
  {
    if links == [] {
      assert Skip(s, 0) == s;
    } else {
      FirstLink(s, links, OrLevel);
      RestOfChain(s, links, OrLevel);
      ChainTail(s, links, OrLevel);
      LogicalOpsEnd();
      SimpleConjunction(Skip(s, 1));
      OrTailStep(left, s, TokenExpr(links[0].operand), Skip(s, 2));
      OrTailChain(BinaryExpr(left, links[0].op.lexeme, TokenExpr(links[0].operand)), links[1..], Skip(s, 2));
    }
  }

  /** One more `+` or `-` and term extend an addition's left operand. */
  lemma AddTailStep(left: Expr, s: PState, y: Expr, after: PState)
    requires Ready(s) && Cur(s).kind in AddOps && CanPull(s) && Term(Pulled(s)) == Step(Ok(y), after)
    ensures AddTail(left, s) == AddTail(BinaryExpr(left, Cur(s).lexeme, y), after)
  {
  }

  /** One more `*`, `/` or `%` and factor extend a term's left operand. */
  lemma MulTailStep(left: Expr, s: PState, y: Expr, after: PState)
    requires Ready(s) && Cur(s).kind in MulOps && CanPull(s) && Fact(Pulled(s)) == Step(Ok(y), after)
    ensures MulTail(left, s) == MulTail(BinaryExpr(left, Cur(s).lexeme, y), after)
  {
  }

  /** One more `&&` and equality extend a conjunction's left operand. */
  lemma AndTailStep(left: Expr, s: PState, y: Expr, after: PState)
    requires Ready(s) && Cur(s).kind == L.And && CanPull(s) && Equality(Pulled(s)) == Step(Ok(y), after)
    ensures AndTail(left, s) == AndTail(BinaryExpr(left, Cur(s).lexeme, y), after)
  {
  }

  /** One more `||` and conjunction extend an expression's left operand. */
  lemma OrTailStep(left: Expr, s: PState, y: Expr, after: PState)
    requires Ready(s) && Cur(s).kind == L.Or && CanPull(s) && Conjunction(Pulled(s)) == Step(Ok(y), after)
    ensures OrTail(left, s) == OrTail(BinaryExpr(left, Cur(s).lexeme, y), after)
  {
  }

  /** `x0 ± x1 ± ... ± xn` parses as the left fold: `a - b - c` is
      `((a - b) - c)`. */
  lemma AdditionGroupsLeft(s: PState, links: seq<Link>)
    requires Ready(s) && s.pulled + 1 <= |s.toks| && SimpleAt(s, 0)
    requires ChainAt(Skip(s, 1), links, AddLevel)
    requires EndsAddition(AfterChain(Skip(s, 1), links, AddLevel).kind)
    ensures Addition(s) == Step(Ok(FoldLeft(SimpleExpr(s, 0), links)), Skip(s, 1 + 2 * |links|))
  {
    var s1 := Skip(s, 1);
    assert At(s, 1) == At(s1, 0);
    if links != [] { assert At(s1, 0) == links[0].op; }
    SimpleTerm(s);
    AddTailChain(SimpleExpr(s, 0), links, s1);
    assert Skip(s1, 2 * |links|) == Skip(s, 1 + 2 * |links|);
  }

  /** `x0 * x1 / ... % xn` parses as the left fold. */
  lemma TermGroupsLeft(s: PState, links: seq<Link>)
    requires Ready(s) && s.pulled + 1 <= |s.toks| && SimpleAt(s, 0)
    requires ChainAt(Skip(s, 1), links, MulLevel)
    requires EndsTerm(AfterChain(Skip(s, 1), links, MulLevel).kind)
    ensures Term(s) == Step(Ok(FoldLeft(SimpleExpr(s, 0), links)), Skip(s, 1 + 2 * |links|))
  {
    var s1 := Skip(s, 1);
    assert At(s, 1) == At(s1, 0);
    SimpleFact(s);
    MulTailChain(SimpleExpr(s, 0), links, s1);
    assert Skip(s1, 2 * |links|) == Skip(s, 1 + 2 * |links|);
  }

  /** `x0 && x1 && ... && xn` parses as the left fold. */
  lemma ConjunctionGroupsLeft(s: PState, links: seq<Link>)
    requires Ready(s) && s.pulled + 1 <= |s.toks| && SimpleAt(s, 0)
    requires ChainAt(Skip(s, 1), links, AndLevel)
    requires EndsConjunction(AfterChain(Skip(s, 1), links, AndLevel).kind)
    ensures Conjunction(s) == Step(Ok(FoldLeft(SimpleExpr(s, 0), links)), Skip(s, 1 + 2 * |links|))
  {
    var s1 := Skip(s, 1);
    assert At(s, 1) == At(s1, 0);
    if links != [] { assert At(s1, 0) == links[0].op; }
    SimpleEquality(s);
    assert Equality(s) == Step(Ok(SimpleExpr(s, 0)), s1);
    AndTailChain(SimpleExpr(s, 0), links, s1);
    assert Skip(s1, 2 * |links|) == Skip(s, 1 + 2 * |links|);
  }

  /** `x0 || x1 || ... || xn` parses as the left fold. */
  lemma ExpressionGroupsLeft(s: PState, links: seq<Link>)
    requires Ready(s) && s.pulled + 1 <= |s.toks| && SimpleAt(s, 0)
    requires ChainAt(Skip(s, 1), links, OrLevel)
    requires EndsExpression(AfterChain(Skip(s, 1), links, OrLevel).kind)
    ensures Expression(s) == Step(Ok(FoldLeft(SimpleExpr(s, 0), links)), Skip(s, 1 + 2 * |links|))
  {
    var s1 := Skip(s, 1);
    assert At(s, 1) == At(s1, 0);
    if links != [] { assert At(s1, 0) == links[0].op; }
    SimpleConjunction(s);
    assert Conjunction(s) == Step(Ok(SimpleExpr(s, 0)), s1);
    OrTailChain(SimpleExpr(s, 0), links, s1);
    assert Skip(s1, 2 * |links|) == Skip(s, 1 + 2 * |links|);
  }

  /** The operator and operand at the look-ahead form a chain of one link. */
  lemma OneLink(s: PState, level: Level)
    requires Ready(s) && s.pulled + 2 <= |s.toks|
    requires IsOp(level, At(s, 0).kind) && SimpleAt(s, 1)
    ensures ChainAt(s, [Link(At(s, 0), At(s, 1))], level)
    ensures AfterChain(s, [Link(At(s, 0), At(s, 1))], level) == At(s, 2)
  {
  }

  /** A chain preceded by one more link is a chain. */
  lemma LinkThen(s: PState, links: seq<Link>, level: Level)
    requires Ready(s) && s.pulled + 2 <= |s.toks|
    requires IsOp(level, At(s, 0).kind) && SimpleAt(s, 1)
    requires ChainAt(Skip(s, 2), links, level)
    ensures ChainAt(s, [Link(At(s, 0), At(s, 1))] + links, level)
    ensures AfterChain(s, [Link(At(s, 0), At(s, 1))] + links, level) == AfterChain(Skip(s, 2), links, level)
  {
    assert ([Link(At(s, 0), At(s, 1))] + links)[1..] == links;
  }

  /** Two operator-and-operand pairs form a chain of two links. */
  lemma TwoLinks(s: PState, level: Level)
    requires Ready(s) && s.pulled + 4 <= |s.toks|
    requires IsOp(level, At(s, 0).kind) && SimpleAt(s, 1) && IsOp(level, At(s, 2).kind) && SimpleAt(s, 3)
    ensures ChainAt(s, [Link(At(s, 0), At(s, 1)), Link(At(s, 2), At(s, 3))], level)
    ensures AfterChain(s, [Link(At(s, 0), At(s, 1)), Link(At(s, 2), At(s, 3))], level) == At(s, 4)
  {
    Shift(s, 2);
    OneLink(Skip(s, 2), level);
    LinkThen(s, [Link(At(s, 2), At(s, 3))], level);
    assert [Link(At(s, 0), At(s, 1))] + [Link(At(s, 2), At(s, 3))]
      == [Link(At(s, 0), At(s, 1)), Link(At(s, 2), At(s, 3))];
  }

  // ---------------------------------------------------------------------
  // Precedence

  /** The tokens from `m` places on, seen from the state `m` tokens later. */
  lemma Ahead(s: PState, m: nat)
    requires Ready(s) && s.pulled + m + 3 <= |s.toks|
    ensures var t := Skip(s, m);
      Ready(t) && t.pulled + 3 <= |t.toks| && t.vars == s.vars && CanPull(t) && Pulled(t) == Skip(s, m + 1) &&
      At(t, 0) == At(s, m) && At(t, 1) == At(s, m + 1) && At(t, 2) == At(s, m + 2) && At(t, 3) == At(s, m + 3) &&
      Skip(t, 3) == Skip(s, m + 3) && Cur(Skip(s, m + 3)) == At(s, m + 3)
  {
  }

  /** `+` and `-` do not extend a term. */
  lemma AddOpEndsTerm(k: L.Kind)
    requires k in AddOps
    ensures EndsTerm(k)
  {
  }

  /** A term begins an addition: what follows it is the addition's tail. */
  lemma AdditionStart(s: PState, x: Expr, after: PState)
    requires Ready(s) && Term(s) == Step(Ok(x), after)
    ensures Addition(s) == AddTail(x, after)
  {
  }

  /** An addition's tail ends at a token that is no `+` or `-`. */
  lemma AddTailEnds(left: Expr, s: PState)
    requires Ready(s) && Cur(s).kind !in AddOps
    ensures AddTail(left, s) == Step(Ok(left), s)
  {
  }

  /** `x * y`, ended by a token that does not extend `y`, is one term. */
  lemma TermOfOperands(s: PState)
    requires Ready(s) && s.pulled + 3 <= |s.toks|
    requires SimpleAt(s, 0) && At(s, 1).kind in MulOps && SimpleAt(s, 2) && EndsTerm(At(s, 3).kind)
    ensures Term(s) == Step(Ok(BinaryExpr(SimpleExpr(s, 0), At(s, 1).lexeme, SimpleExpr(s, 2))), Skip(s, 3))
  {
    assert IsOp(MulLevel, At(s, 1).kind);
    Shift(s, 1);
    OneLink(Skip(s, 1), MulLevel);
    TermGroupsLeft(s, [Link(At(s, 1), At(s, 2))]);
  }

  /** `x + y * z` is `(x + (y * z))`: the operands of `+` are terms. */
  lemma ProductBindsTighter(s: PState)
    requires Ready(s) && s.pulled + 5 <= |s.toks|
    requires SimpleAt(s, 0) && At(s, 1).kind in AddOps && SimpleAt(s, 2) && At(s, 3).kind in MulOps && SimpleAt(s, 4)
    requires EndsAddition(At(s, 5).kind)
    ensures Addition(s) == Step(Ok(
      BinaryExpr(SimpleExpr(s, 0), At(s, 1).lexeme, BinaryExpr(SimpleExpr(s, 2), At(s, 3).lexeme, SimpleExpr(s, 4)))),
      Skip(s, 5))
  {
    var x, yz := SimpleExpr(s, 0), BinaryExpr(SimpleExpr(s, 2), At(s, 3).lexeme, SimpleExpr(s, 4));
    AddOpEndsTerm(At(s, 1).kind);
    SimpleTerm(s);
    AdditionStart(s, x, Skip(s, 1));
    Ahead(s, 1);
    Ahead(s, 2);
    TermOfOperands(Skip(s, 2));
    AddTailStep(x, Skip(s, 1), yz, Skip(s, 5));
    AddTailEnds(BinaryExpr(x, At(s, 1).lexeme, yz), Skip(s, 5));
  }
  /** `1 + 2 * 3 ;` parses as `(1 + (2 * 3))`, whatever the tables hold. */
  lemma LiteralProductBindsTighter(vars: map<string, VarEntry>, funcs: map<string, string>, line: nat)
    ensures var toks := [L.Token(L.IntLit, "1", line), L.Token(L.Plus, "+", line), L.Token(L.IntLit, "2", line),
                         L.Token(L.Mult, "*", line), L.Token(L.IntLit, "3", line), L.Token(L.Semi, ";", line)];
      var s := PState(toks, 1, vars, funcs);
      Addition(s) == Step(Ok(BinaryExpr(LitExpr("1", IntType), "+",
        BinaryExpr(LitExpr("2", IntType), "*", LitExpr("3", IntType)))), Skip(s, 5))
  {
    var toks := [L.Token(L.IntLit, "1", line), L.Token(L.Plus, "+", line), L.Token(L.IntLit, "2", line),
                 L.Token(L.Mult, "*", line), L.Token(L.IntLit, "3", line), L.Token(L.Semi, ";", line)];
    var s := PState(toks, 1, vars, funcs);
    assert At(s, 0) == toks[0] && At(s, 2) == toks[2] && At(s, 4) == toks[4];
    ProductBindsTighter(s);
  }


  // ---------------------------------------------------------------------
  // Comparisons do not chain

  /** `x op y` for a comparison `op`, ended by a token that does not extend
      `y`, is one relation. */
  lemma RelationOfOperands(s: PState)
    requires Ready(s) && s.pulled + 4 <= |s.toks|
    requires SimpleAt(s, 0) && At(s, 1).kind in RelOps && SimpleAt(s, 2) && EndsAddition(At(s, 3).kind)
    ensures Relation(s) == Step(Ok(BinaryExpr(SimpleExpr(s, 0), At(s, 1).lexeme, SimpleExpr(s, 2))), Skip(s, 3))
  {
    assert EndsAddition(At(s, 1).kind);
    SimpleAddition(s);
    OperatorThenOperand(s);
    SimpleAddition(Skip(s, 2));
    RelationCombines(s, SimpleExpr(s, 0), Skip(s, 1), SimpleExpr(s, 2), Skip(s, 3));
  }

  /** `x op y` for an equality operator `op`, ended by a token that does not
      extend `y`, is one equality. */
  lemma EqualityOfOperands(s: PState)
    requires Ready(s) && s.pulled + 4 <= |s.toks|
    requires SimpleAt(s, 0) && At(s, 1).kind in EqOps && SimpleAt(s, 2) && EndsRelation(At(s, 3).kind)
    ensures Equality(s) == Step(Ok(BinaryExpr(SimpleExpr(s, 0), At(s, 1).lexeme, SimpleExpr(s, 2))), Skip(s, 3))
  {
    assert EndsRelation(At(s, 1).kind);
    SimpleRelation(s);
    OperatorThenOperand(s);
    SimpleRelation(Skip(s, 2));
    EqualityCombines(s, SimpleExpr(s, 0), Skip(s, 1), SimpleExpr(s, 2), Skip(s, 3));
  }

  /** The state after `x op` looks at `op`; after `x op y`, at `y`. */
  lemma OperatorThenOperand(s: PState)
    requires Ready(s) && s.pulled + 4 <= |s.toks| && SimpleAt(s, 2)
    ensures var s1, s2 := Skip(s, 1), Skip(s, 2);
      Ready(s1) && Cur(s1) == At(s, 1) && CanPull(s1) && Pulled(s1) == s2 &&
      OperandAt(s2) && At(s2, 1) == At(s, 3) && SimpleExpr(s2, 0) == SimpleExpr(s, 2) && Skip(s2, 1) == Skip(s, 3)
  {
    Shift(s, 2);
  }

  /** After `x < y` a second comparison operator is left as the look-ahead:
      the whole expression is just `(x < y)`. */
  lemma ComparisonDoesNotChain(s: PState)
    requires Ready(s) && s.pulled + 4 <= |s.toks|
    requires SimpleAt(s, 0) && At(s, 1).kind in RelOps && SimpleAt(s, 2) && At(s, 3).kind in RelOps
    ensures Expression(s) == Step(Ok(BinaryExpr(SimpleExpr(s, 0), At(s, 1).lexeme, SimpleExpr(s, 2))), Skip(s, 3))
    ensures Cur(Skip(s, 3)) == At(s, 3)
  {
    var x := BinaryExpr(SimpleExpr(s, 0), At(s, 1).lexeme, SimpleExpr(s, 2));
    Shift(s, 3);
    ComparisonEndsAddition(At(s, 3).kind);
    RelationOfOperands(s);
    ExpressionOfRelation(s, x, Skip(s, 3));
  }

  /** A comparison operator is not an operator of a level above or below it. */
  lemma ComparisonEndsAddition(k: L.Kind)
    requires k in RelOps
    ensures EndsAddition(k) && k !in EqOps && k != L.And && k != L.Or
  {
  }

  /** `==` and `!=` are not operators of the levels below or above them. */
  lemma EqualityOpEndsRelation(k: L.Kind)
    requires k in EqOps
    ensures EndsRelation(k) && k != L.And && k != L.Or
  {
  }

  /** After `x == y` a second equality operator is left as the look-ahead. */
  lemma EqualityDoesNotChain(s: PState)
    requires Ready(s) && s.pulled + 4 <= |s.toks|
    requires SimpleAt(s, 0) && At(s, 1).kind in EqOps && SimpleAt(s, 2) && At(s, 3).kind in EqOps
    ensures Expression(s) == Step(Ok(BinaryExpr(SimpleExpr(s, 0), At(s, 1).lexeme, SimpleExpr(s, 2))), Skip(s, 3))
    ensures Cur(Skip(s, 3)) == At(s, 3)
  {
    var x := BinaryExpr(SimpleExpr(s, 0), At(s, 1).lexeme, SimpleExpr(s, 2));
    Shift(s, 3);
    EqualityOpEndsRelation(At(s, 3).kind);
    EqualityOfOperands(s);
    ExpressionOfEquality(s, x, Skip(s, 3));
  }

  /** A return statement whose expression parses is accepted only when a
      `;` follows the expression; otherwise it fails at the token found. */
  lemma ReturnNeedsSemicolon(s: PState, e: Expr, after: PState)
    requires Ready(s) && CanPull(s) && IsKeyword(Cur(s), "return")
    requires Expression(Pulled(s)) == Step(Ok(e), after)
    ensures Cur(after).kind != L.Semi ==> Statement(s) == Step(Fail(OnLine("Missing Semi-Colon", Cur(after))), after)
    ensures Cur(after).kind == L.Semi && CanPull(after) ==> Statement(s) == Step(Ok(Some(ReturnStmt(e))), Pulled(after))
  {
    ReturnBranch(s);
  }

  /** A statement that starts with `return` is a return statement. */
  lemma ReturnBranch(s: PState)
    requires Ready(s) && IsKeyword(Cur(s), "return")
    ensures var rs := ReturnStatement(s);
      (rs.out.Fail? ==> Statement(s) == Step(Fail(rs.out.err), rs.st)) &&
      (rs.out.Ok? ==> Statement(s) == Step(Ok(Some(rs.out.value)), rs.st))
  {
    assert !IsKeyword(Cur(s), "if") && !IsKeyword(Cur(s), "while") && !IsKeyword(Cur(s), "print");
  }

  /** After `x < y` the look-ahead is the second comparison, not a `;`. */
  lemma ComparisonThenNoSemicolon(s: PState)
    requires Ready(s) && s.pulled + 4 <= |s.toks|
    requires SimpleAt(s, 0) && At(s, 1).kind in RelOps && SimpleAt(s, 2) && At(s, 3).kind in RelOps
    ensures var e := Expression(s); e.out.Ok? && e.st == Skip(s, 3) && Cur(e.st) == At(s, 3) && Cur(e.st).kind != L.Semi
  {
    ComparisonDoesNotChain(s);
  }

  /** So `return x < y < z;` is rejected: the statement expects its `;`
      where the second `<` stands. */
  lemma ChainedComparisonRejected(s: PState)
    requires Ready(s) && s.pulled + 5 <= |s.toks|
    requires IsKeyword(Cur(s), "return")
    requires SimpleAt(s, 1) && At(s, 2).kind in RelOps && SimpleAt(s, 3) && At(s, 4).kind in RelOps
    ensures Statement(s) == Step(Fail(OnLine("Missing Semi-Colon", At(s, 4))), Skip(s, 4))
  {
    var s1 := Skip(s, 1);
    Ahead(s, 1);
    ComparisonThenNoSemicolon(s1);
    var e := Expression(s1);
    ReturnNeedsSemicolon(s, e.out.value, e.st);
  }

  // ---------------------------------------------------------------------
  // Prefix operators

  /** `-x` and `!x` wrap the one primary after the operator. */
  lemma PrefixWrapsPrimary(s: PState)
    requires Ready(s) && s.pulled + 2 <= |s.toks|
    requires Cur(s).kind in PrefixOps && SimpleAt(s, 1)
    ensures Fact(s) == Step(Ok(UnaryOp(SimpleExpr(s, 1), Cur(s).lexeme)), Skip(s, 2))
  {
    var s1 := Skip(s, 1);
    PrefixPulls(s);
    SimpleFact(s1);
    PrefixedOf(s, SimpleExpr(s1, 0), Skip(s1, 1));
  }

  /** The look-ahead of `s` moves to the token one place on. */
  lemma PrefixPulls(s: PState)
    requires Ready(s) && s.pulled + 2 <= |s.toks|
    ensures CanPull(s) && Pulled(s) == Skip(s, 1)
    ensures OperandAt(Skip(s, 1)) == SimpleAt(s, 1)
    ensures SimpleExpr(Skip(s, 1), 0) == SimpleExpr(s, 1) && Skip(Skip(s, 1), 1) == Skip(s, 2)
  {
    Shift(s, 1);
  }

  /** A prefix operator wraps the primary after it. */
  lemma PrefixedOf(s: PState, x: Expr, after: PState)
    requires Ready(s) && Cur(s).kind in PrefixOps && CanPull(s)
    requires Primary(Pulled(s)) == Step(Ok(x), after)
    ensures Fact(s) == Step(Ok(UnaryOp(x, Cur(s).lexeme)), after)
  {
    assert Fact(s) == Prefixed(s);
  }

  /** A second prefix operator is not a primary: `- - x` is rejected with
      "Unexpected token", and the error ends the whole expression. */
  lemma DoublePrefixRejected(s: PState)
    requires Ready(s) && s.pulled + 1 <= |s.toks|
    requires Cur(s).kind in PrefixOps && At(s, 1).kind in PrefixOps
    ensures var f := Step(Fail(Unexpected(At(s, 1))), Skip(s, 1));
      Fact(s) == f && Expression(s) == f
  {
    Shift(s, 1);
    assert Pulled(s) == Skip(s, 1);
    PrefixIsNoPrimary(Skip(s, 1));
    PrefixFailure(s);
    FactFailureEndsExpression(s);
  }

  /** A prefix operator cannot start a primary. */
  lemma PrefixIsNoPrimary(s: PState)
    requires Ready(s) && Cur(s).kind in PrefixOps
    ensures Primary(s) == Step(Fail(Unexpected(Cur(s))), s)
  {
    assert Cur(s).kind != L.Keyword;
  }

  /** A prefix operator passes on the failure of the primary after it. */
  lemma PrefixFailure(s: PState)
    requires Ready(s) && Cur(s).kind in PrefixOps && CanPull(s)
    ensures var p := Primary(Pulled(s)); p.out.Fail? ==> Fact(s) == p
  {
    assert Fact(s) == Prefixed(s);
  }

  // ---------------------------------------------------------------------
  // Identifiers in expressions

  /** An identifier is a variable if the variable table has it (even when
      the function table has it too), a call if only the function table has
      it, and otherwise an "Undefined variable" error. */
  lemma IdentifierClassified(s: PState)
    requires Ready(s) && Cur(s).kind == L.Id
    ensures var x := Cur(s).lexeme; var r := Primary(s);
      (x in s.vars && CanPull(s) ==> r == Step(Ok(IDExpr(x)), Pulled(s))) &&
      (x !in s.vars && x !in s.funcs ==>
        r == Step(Fail(SyntaxError("Undefined variable " + x + " on line " + IntString(Cur(s).line))), s)) &&
      (x !in s.vars && x in s.funcs && s.pulled + 1 <= |s.toks| && At(s, 1).kind != L.LParen ==>
        r == Step(Fail(SyntaxError("Invalid Function call")), Skip(s, 1))) &&
      (r.out.Ok? ==>
        r.out.value == IDExpr(x) || (r.out.value.FunctionExpr? && r.out.value.name == x))
  {
    var x := Cur(s).lexeme;
    assert Primary(s) == Identifier(s);
    if x in s.vars {
      VariableIdentifier(s);
    } else if x in s.funcs {
      FunctionIdentifier(s);
    } else {
      UndefinedIdentifier(s);
    }
  }

  /** A name the variable table has is a variable. */
  lemma VariableIdentifier(s: PState)
    requires Ready(s) && Cur(s).kind == L.Id && Cur(s).lexeme in s.vars
    ensures var r := Identifier(s);
      (CanPull(s) ==> r == Step(Ok(IDExpr(Cur(s).lexeme)), Pulled(s))) &&
      (r.out.Ok? ==> r.out.value == IDExpr(Cur(s).lexeme))
  {
  }

  /** A name neither table has is an error at that token. */
  lemma UndefinedIdentifier(s: PState)
    requires Ready(s) && Cur(s).kind == L.Id && Cur(s).lexeme !in s.vars && Cur(s).lexeme !in s.funcs
    ensures Identifier(s) == Step(Fail(SyntaxError("Undefined variable " + Cur(s).lexeme + " on line " + IntString(Cur(s).line))), s)
  {
  }

  /** A name only the function table has must be followed by `(`; after
      it the call's arguments are parsed. */
  lemma FunctionIdentifier(s: PState)
    requires Ready(s) && Cur(s).kind == L.Id
    requires Cur(s).lexeme !in s.vars && Cur(s).lexeme in s.funcs
    ensures var x := Cur(s).lexeme; var r := Identifier(s);
      (s.pulled + 1 <= |s.toks| && At(s, 1).kind != L.LParen ==> r == Step(Fail(SyntaxError("Invalid Function call")), Skip(s, 1))) &&
      (r.out.Ok? ==> r.out.value.FunctionExpr? && r.out.value.name == x)
  {
    if CanPull(s) {
      var s1 := Pulled(s);
      assert s1 == Skip(s, 1) && Cur(s1) == At(s, 1);
      if Cur(s1).kind == L.LParen && CanPull(s1) {
        assert Identifier(s) == Call(Cur(s).lexeme, Pulled(s1));
        CallNamed(Cur(s).lexeme, Pulled(s1));
      }
    }
  }

  /** A call that succeeds is a call of that name. */
  lemma CallNamed(name: string, s: PState)
    requires Ready(s)
    ensures var r := Call(name, s);
      r.out.Ok? ==> r.out.value.FunctionExpr? && r.out.value.name == name
  {
    if Cur(s).kind != L.RParen {
      var a := Expression(s);
      if a.out.Ok? {
        CallArgsNamed(name, [a.out.value], a.st);
      }
    }
  }

  lemma {:induction false} CallArgsNamed(name: string, args: seq<Expr>, s: PState)
    requires Ready(s)
    ensures var r := CallArgs(name, args, s);
      r.out.Ok? ==> r.out.value.FunctionExpr? && r.out.value.name == name && args <= r.out.value.args
    decreases |s.toks| - s.pulled
  {
    if Cur(s).kind == L.Comma && CanPull(s) {
      var a := Expression(Pulled(s));
      if a.out.Ok? {
        CallArgsNamed(name, args + [a.out.value], a.st);
      }
    }
  }

  /** A function name that is not a variable, followed by `(`, starts a
      call whose arguments begin after the `(`. */
  lemma CallAfterParen(s: PState)
    requires Ready(s) && s.pulled + 2 <= |s.toks|
    requires Cur(s).kind == L.Id && Cur(s).lexeme !in s.vars && Cur(s).lexeme in s.funcs
    requires At(s, 1).kind == L.LParen
    ensures Primary(s) == Call(Cur(s).lexeme, Skip(s, 2))
  {
    Shift(s, 1);
    assert Pulled(s) == Skip(s, 1) && Pulled(Skip(s, 1)) == Skip(s, 2);
    assert Primary(s) == Identifier(s);
  }

  /** `f()` yields the call with no arguments and leaves its `)` as the
      look-ahead. */
  lemma EmptyCallLeavesParen(s: PState)
    requires Ready(s) && s.pulled + 2 <= |s.toks|
    requires Cur(s).kind == L.Id && Cur(s).lexeme !in s.vars && Cur(s).lexeme in s.funcs
    requires At(s, 1).kind == L.LParen && At(s, 2).kind == L.RParen
    ensures Primary(s) == Step(Ok(FunctionExpr(Cur(s).lexeme, [])), Skip(s, 2))
    ensures Cur(Skip(s, 2)).kind == L.RParen
  {
    Shift(s, 2);
    CallAfterParen(s);
  }

  /** `f(x` followed by a token that is neither `,` nor `)` (nor an operator
      that would extend `x`) is rejected as an unexpected token. */
  lemma UnclosedCallRejected(s: PState)
    requires Ready(s) && s.pulled + 3 <= |s.toks|
    requires Cur(s).kind == L.Id && Cur(s).lexeme !in s.vars && Cur(s).lexeme in s.funcs
    requires At(s, 1).kind == L.LParen && SimpleAt(s, 2)
    requires EndsExpression(At(s, 3).kind) && At(s, 3).kind != L.Comma && At(s, 3).kind != L.RParen
    ensures var u := At(s, 3);
      Primary(s) == Step(Fail(Unexpected(u)), Skip(s, 3))
  {
    var s2 := Skip(s, 2);
    Shift(s, 2);
    CallAfterParen(s);
    SimpleExpression(s2);
    OperandIsNoParen(s2);
    Shift(s2, 1);
    CallOfOne(Cur(s).lexeme, s2, SimpleExpr(s2, 0), Skip(s2, 1));
  }

  /** A one-token operand is no `)`. */
  lemma OperandIsNoParen(s: PState)
    requires OperandAt(s)
    ensures Cur(s).kind != L.RParen
  {
    assert At(s, 0) == Cur(s);
  }

  /** A call whose first argument is followed by neither `,` nor `)` fails
      at the token after that argument. */
  lemma CallOfOne(name: string, s: PState, x: Expr, after: PState)
    requires Ready(s) && Cur(s).kind != L.RParen && Expression(s) == Step(Ok(x), after)
    requires Cur(after).kind != L.Comma && Cur(after).kind != L.RParen
    ensures var u := Cur(after);
      Call(name, s) == Step(Fail(Unexpected(u)), after)
  {
    assert Call(name, s) == CallArgs(name, [x], after);
  }
}
