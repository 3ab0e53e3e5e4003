/** The parser's behaviour as pure functions: one function per production of
    the recursive-descent parser, over the parser's whole state. Each takes
    the state before the production runs and gives the outcome and the state
    after it. The class in the SlucParser module is proved to compute exactly
    these functions; the lemmas in GrammarProps are stated about them.

    State: the token sequence, how many tokens have been pulled from it (the
    look-ahead token `currtok` is the last one pulled), the variable table
    and the function table. */
module Grammar {

  import opened Options
  import opened Numerals
  import opened Lexer
  import opened Ast

  /** A variable-table entry. The first parameter is stored as its bare type
      lexeme; later parameters and locals as a (type, value) pair whose value
      starts as None and is replaced by each assignment. */
  datatype VarEntry = Bare(t: string) | Slot(t: string, value: Expr)

  datatype PState = PState(toks: seq<Token>, pulled: nat, vars: map<string, VarEntry>, funcs: map<string, string>)

  datatype Error = SyntaxError(message: string) | IndexError

  /** How a production ends: a value; StopIteration from pulling past the
      last token; a raised error; or a block loop that would repeat the same
      iteration forever. */
  datatype Out<+T> = Ok(value: T) | Stop | Fail(err: Error) | Loops {
    predicate IsFailure() { !Ok? }
    function PropagateFailure<U>(): Out<U>
      requires !Ok?
    {
      match this
      case Stop => Stop
      case Fail(e) => Fail(e)
      case Loops => Loops
    }
    function Extract(): T requires Ok? { value }
  }

  datatype Step<+T> = Step(out: Out<T>, st: PState) {
    function Fwd<U>(): Step<U> requires !out.Ok? { Step(out.PropagateFailure(), st) }
  }

  /** At least one token has been pulled, so `currtok` exists. */
  predicate Ready(s: PState) { 1 <= s.pulled <= |s.toks| }

  function Cur(s: PState): Token
    requires Ready(s)
  {
    s.toks[s.pulled - 1]
  }

  /** `next(self.tg)` succeeds. */
  predicate CanPull(s: PState) { s.pulled < |s.toks| }

  /** The state after `self.currtok = next(self.tg)`. */
  function Pulled(s: PState): PState
    requires CanPull(s)
  {
    s.(pulled := s.pulled + 1)
  }

  /** `t` is a later state over the same tokens. */
  predicate Extends(s: PState, t: PState) {
    t.toks == s.toks && s.pulled <= t.pulled <= |t.toks|
  }

  /** A later state with both tables unchanged (expressions only read them). */
  predicate ReadsTables(s: PState, t: PState) {
    Extends(s, t) && t.vars == s.vars && t.funcs == s.funcs
  }

  /** A later state with the same function table and the same declared
      variables (statements only assign to declared variables). */
  predicate KeepsNames(s: PState, t: PState) {
    Extends(s, t) && t.vars.Keys == s.vars.Keys && t.funcs == s.funcs
  }

  predicate IsKeyword(t: Token, word: string) { t.kind == Keyword && t.lexeme == word }

  function OnLine(message: string, t: Token): Error {
    SyntaxError(message + " on line " + IntString(t.line))
  }

  /** The error at the end of `primary`, for a token no branch accepts. */
  function Unexpected(t: Token): Error {
    SyntaxError("ERROR: Unexpected token " + t.lexeme + " on line " + IntString(t.line))
  }

  /** `t` begins none of the statement forms, so `statement` returns None
      without consuming it. */
  predicate StartsNoStatement(t: Token) {
    t.kind !in {Semi, LBrace, Id} &&
    !(t.kind == Keyword && t.lexeme in {"if", "while", "print", "return"})
  }

  /** A block loop in this state would never end: the look-ahead is not the
      closing `}` and no statement can start with it. */
  predicate Stuck(s: PState) {
    Ready(s) && Cur(s).kind != RBrace && StartsNoStatement(Cur(s))
  }

  /** The operator kinds of each precedence level. */
  const MulOps: set<Kind> := {Mult, Div, Mod}
  const AddOps: set<Kind> := {Plus, Minus}
  const RelOps: set<Kind> := {Gt, Gte, Lt, Lte}
  const EqOps: set<Kind> := {Eq, Neq}
  const PrefixOps: set<Kind> := {Minus, Lexer.Fact}

  /** The type tag of a literal token, if it is one. */
  function LiteralType(t: Token): Option<LitType> {
    if t.kind == IntLit then Some(IntType)
    else if t.kind == FloatLit then Some(FloatType)
    else if t.kind == StringLit then Some(StrType)
    else if t.kind == Keyword && t.lexeme in {"true", "false"} then Some(BoolType)
    else None
  }

  /** Of the keywords only `true` and `false` are literals, and no literal
      token can also start any other kind of primary. */
  lemma LiteralTokens(t: Token)
    ensures t.kind == Keyword ==> (LiteralType(t).Some? <==> t.lexeme == "true" || t.lexeme == "false")
    ensures LiteralType(t).Some? ==> t.kind != Id && t.kind != LParen && t.kind !in PrefixOps
  {
  }

  // ---------------------------------------------------------------------
  // Expressions, lowest precedence first

  /** Expression -> Conjunction { || Conjunction } */
  function Expression(s: PState): (r: Step<Expr>)
    requires Ready(s)
    ensures ReadsTables(s, r.st) && !r.out.Loops?
    ensures r.out.Ok? ==> Cur(r.st).kind !in {Or, And} + AddOps + MulOps
    decreases |s.toks| - s.pulled, 16
  {
    var l := Conjunction(s);
    if !l.out.Ok? then l.Fwd() else OrTail(l.out.value, l.st)
  }

  function OrTail(left: Expr, s: PState): (r: Step<Expr>)
    requires Ready(s)
    ensures ReadsTables(s, r.st) && !r.out.Loops?
    ensures r.out.Ok? ==> Cur(r.st).kind != Or && (r.st == s || Cur(r.st).kind !in {And} + AddOps + MulOps)
    decreases |s.toks| - s.pulled, 15
  {
    if Cur(s).kind == Or then
      var op := Cur(s).lexeme;
      if !CanPull(s) then Step(Stop, s)
      else
        var rt := Conjunction(Pulled(s));
        if !rt.out.Ok? then rt.Fwd() else OrTail(BinaryExpr(left, op, rt.out.value), rt.st)
    else Step(Ok(left), s)
  }

  /** Conjunction -> Equality { && Equality } */
  function Conjunction(s: PState): (r: Step<Expr>)
    requires Ready(s)
    ensures ReadsTables(s, r.st) && !r.out.Loops?
    ensures r.out.Ok? ==> Cur(r.st).kind !in {And} + AddOps + MulOps
    decreases |s.toks| - s.pulled, 14
  {
    var l := Equality(s);
    if !l.out.Ok? then l.Fwd() else AndTail(l.out.value, l.st)
  }

  function AndTail(left: Expr, s: PState): (r: Step<Expr>)
    requires Ready(s)
    ensures ReadsTables(s, r.st) && !r.out.Loops?
    ensures r.out.Ok? ==> Cur(r.st).kind != And && (r.st == s || Cur(r.st).kind !in AddOps + MulOps)
    decreases |s.toks| - s.pulled, 13
  {
    if Cur(s).kind == And then
      var op := Cur(s).lexeme;
      if !CanPull(s) then Step(Stop, s)
      else
        var rt := Equality(Pulled(s));
        if !rt.out.Ok? then rt.Fwd() else AndTail(BinaryExpr(left, op, rt.out.value), rt.st)
    else Step(Ok(left), s)
  }

  /** Equality -> Relation [ (== | !=) Relation ]: at most one operator. */
  function Equality(s: PState): (r: Step<Expr>)
    requires Ready(s)
    ensures ReadsTables(s, r.st) && !r.out.Loops?
    ensures r.out.Ok? ==> Cur(r.st).kind !in AddOps + MulOps
    decreases |s.toks| - s.pulled, 12
  {
    var l := Relation(s);
    if !l.out.Ok? then l.Fwd()
    else if Cur(l.st).kind in EqOps then
      var op := Cur(l.st).lexeme;
      if !CanPull(l.st) then Step(Stop, l.st)
      else
        var rt := Relation(Pulled(l.st));
        if !rt.out.Ok? then rt.Fwd() else Step(Ok(BinaryExpr(l.out.value, op, rt.out.value)), rt.st)
    else l
  }

  /** Relation -> Addition [ (< | <= | > | >=) Addition ]: at most one operator. */
  function Relation(s: PState): (r: Step<Expr>)
    requires Ready(s)
    ensures ReadsTables(s, r.st) && !r.out.Loops?
    ensures r.out.Ok? ==> Cur(r.st).kind !in AddOps + MulOps
    decreases |s.toks| - s.pulled, 11
  {
    var l := Addition(s);
    if !l.out.Ok? then l.Fwd()
    else if Cur(l.st).kind in RelOps then
      var op := Cur(l.st).lexeme;
      if !CanPull(l.st) then Step(Stop, l.st)
      else
        var rt := Addition(Pulled(l.st));
        if !rt.out.Ok? then rt.Fwd() else Step(Ok(BinaryExpr(l.out.value, op, rt.out.value)), rt.st)
    else l
  }

  /** Addition -> Term { (+ | -) Term } */
  function Addition(s: PState): (r: Step<Expr>)
    requires Ready(s)
    ensures ReadsTables(s, r.st) && !r.out.Loops?
    ensures r.out.Ok? ==> Cur(r.st).kind !in AddOps + MulOps
    decreases |s.toks| - s.pulled, 10
  {
    var l := Term(s);
    if !l.out.Ok? then l.Fwd() else AddTail(l.out.value, l.st)
  }

  function AddTail(left: Expr, s: PState): (r: Step<Expr>)
    requires Ready(s)
    ensures ReadsTables(s, r.st) && !r.out.Loops?
    ensures r.out.Ok? ==> Cur(r.st).kind !in AddOps && (r.st == s || Cur(r.st).kind !in MulOps)
    decreases |s.toks| - s.pulled, 9
  {
    if Cur(s).kind in AddOps then
      var op := Cur(s).lexeme;
      if !CanPull(s) then Step(Stop, s)
      else
        var rt := Term(Pulled(s));
        if !rt.out.Ok? then rt.Fwd() else AddTail(BinaryExpr(left, op, rt.out.value), rt.st)
    else Step(Ok(left), s)
  }

  /** Term -> Fact { (* | / | %) Fact } */
  function Term(s: PState): (r: Step<Expr>)
    requires Ready(s)
    ensures ReadsTables(s, r.st) && !r.out.Loops?
    ensures r.out.Ok? ==> Cur(r.st).kind !in MulOps
    decreases |s.toks| - s.pulled, 8
  {
    var l := Fact(s);
    if !l.out.Ok? then l.Fwd() else MulTail(l.out.value, l.st)
  }

  function MulTail(left: Expr, s: PState): (r: Step<Expr>)
    requires Ready(s)
    ensures ReadsTables(s, r.st) && !r.out.Loops?
    ensures r.out.Ok? ==> Cur(r.st).kind !in MulOps
    decreases |s.toks| - s.pulled, 7
  {
    if Cur(s).kind in MulOps then
      var op := Cur(s).lexeme;
      if !CanPull(s) then Step(Stop, s)
      else
        var rt := Fact(Pulled(s));
        if !rt.out.Ok? then rt.Fwd() else MulTail(BinaryExpr(left, op, rt.out.value), rt.st)
    else Step(Ok(left), s)
  }

  /** Fact -> [ - | ! ] Primary: one prefix operator at most. */
  function Fact(s: PState): (r: Step<Expr>)
    requires Ready(s)
    ensures ReadsTables(s, r.st) && !r.out.Loops?
    decreases |s.toks| - s.pulled, 6
  {
    if Cur(s).kind in PrefixOps then Prefixed(s) else Primary(s)
  }

  /** A factor whose look-ahead is its prefix operator. */
  function Prefixed(s: PState): (r: Step<Expr>)
    requires Ready(s)
    ensures ReadsTables(s, r.st) && !r.out.Loops?
    decreases |s.toks| - s.pulled, 5
  {
    var op := Cur(s).lexeme;
    if !CanPull(s) then Step(Stop, s)
    else
      var p := Primary(Pulled(s));
      if !p.out.Ok? then p.Fwd() else Step(Ok(UnaryOp(p.out.value, op)), p.st)
  }

  /** Primary -> variable | call | literal | ( Expression ) */
  function Primary(s: PState): (r: Step<Expr>)
    requires Ready(s)
    ensures ReadsTables(s, r.st) && !r.out.Loops?
    decreases |s.toks| - s.pulled, 5
  {
    var tok := Cur(s);
    if tok.kind == Id then Identifier(s)
    else if LiteralType(tok).Some? then
      if !CanPull(s) then Step(Stop, s) else Step(Ok(LitExpr(tok.lexeme, LiteralType(tok).value)), Pulled(s))
    else if tok.kind == LParen then
      if !CanPull(s) then Step(Stop, s) else Parenthesized(Pulled(s))
    else Step(Fail(Unexpected(tok)), s)
  }

  /** A parenthesized expression after its `(`. */
  function Parenthesized(s: PState): (r: Step<Expr>)
    requires Ready(s)
    ensures ReadsTables(s, r.st) && !r.out.Loops?
    decreases |s.toks| - s.pulled, 17
  {
    var e := Expression(s);
    if !e.out.Ok? then e.Fwd()
    else if Cur(e.st).kind != RParen then Step(Fail(OnLine("Missing right paren", Cur(e.st))), e.st)
    else if !CanPull(e.st) then Step(Stop, e.st)
    else Step(Ok(e.out.value), Pulled(e.st))
  }

  /** An identifier in an expression: a variable if the variable table has
      it, else a call if the function table has it, else an error. */
  function Identifier(s: PState): (r: Step<Expr>)
    requires Ready(s) && Cur(s).kind == Id
    ensures ReadsTables(s, r.st) && !r.out.Loops?
    decreases |s.toks| - s.pulled, 4
  {
    var tok := Cur(s);
    if tok.lexeme in s.vars then
      if !CanPull(s) then Step(Stop, s) else Step(Ok(IDExpr(tok.lexeme)), Pulled(s))
    else if tok.lexeme in s.funcs then
      if !CanPull(s) then Step(Stop, s)
      else
        var s1 := Pulled(s);
        if Cur(s1).kind != LParen then Step(Fail(SyntaxError("Invalid Function call")), s1)
        else if !CanPull(s1) then Step(Stop, s1)
        else Call(tok.lexeme, Pulled(s1))
    else Step(Fail(SyntaxError("Undefined variable " + tok.lexeme + " on line " + IntString(tok.line))), s)
  }

  /** A call after its `(`. For `f()` the `)` is left as the look-ahead. */
  function Call(name: string, s: PState): (r: Step<Expr>)
    requires Ready(s)
    ensures ReadsTables(s, r.st) && !r.out.Loops?
    decreases |s.toks| - s.pulled, 17
  {
    if Cur(s).kind == RParen then Step(Ok(FunctionExpr(name, [])), s)
    else
      var a := Expression(s);
      if !a.out.Ok? then a.Fwd() else CallArgs(name, [a.out.value], a.st)
  }

  /** The rest of a call's argument list, after its first argument. When no
      `)` follows, control falls out of the identifier branch to the
      "Unexpected token" error at the end of `primary`. */
  function CallArgs(name: string, args: seq<Expr>, s: PState): (r: Step<Expr>)
    requires Ready(s)
    ensures ReadsTables(s, r.st) && !r.out.Loops?
    decreases |s.toks| - s.pulled, 2
  {
    if Cur(s).kind == Comma then
      if !CanPull(s) then Step(Stop, s)
      else
        var a := Expression(Pulled(s));
        if !a.out.Ok? then a.Fwd() else CallArgs(name, args + [a.out.value], a.st)
    else if Cur(s).kind == RParen then
      if !CanPull(s) then Step(Stop, s) else Step(Ok(FunctionExpr(name, args)), Pulled(s))
    else Step(Fail(Unexpected(Cur(s))), s)
  }

  // ---------------------------------------------------------------------
  // Statements

  /** Statements -> { Statement }: collects statements until one is None. */
  function Statements(s: PState): (r: Step<seq<Stmt>>)
    requires Ready(s)
    ensures KeepsNames(s, r.st) && (r.out.Loops? ==> Stuck(r.st))
    ensures r.out.Ok? && r.st.pulled == s.pulled ==> r == Step(Ok([]), s) && StartsNoStatement(Cur(s))
    decreases |s.toks| - s.pulled, 40
  {
    StatementsFrom([], s)
  }

  function StatementsFrom(acc: seq<Stmt>, s: PState): (r: Step<seq<Stmt>>)
    requires Ready(s)
    ensures KeepsNames(s, r.st) && (r.out.Loops? ==> Stuck(r.st))
    ensures r.out.Ok? && r.st.pulled == s.pulled ==> r == Step(Ok(acc), s) && StartsNoStatement(Cur(s))
    decreases |s.toks| - s.pulled, 39
  {
    var st := Statement(s);
    if !st.out.Ok? then st.Fwd()
    else match st.out.value
      case None => Step(Ok(acc), st.st)
      case Some(x) => StatementsFrom(acc + [x], st.st)
  }

  /** Statement -> ; | Block | Assignment | IfStatement | WhileStatement |
      PrintStmt | ReturnStmt. None when the look-ahead starts none of them. */
  function Statement(s: PState): (r: Step<Option<Stmt>>)
    requires Ready(s)
    ensures KeepsNames(s, r.st) && (r.out.Loops? ==> Stuck(r.st))
    ensures r.out.Ok? && r.st.pulled == s.pulled ==> r == Step(Ok(None), s) && StartsNoStatement(Cur(s))
    decreases |s.toks| - s.pulled, 38
  {
    var tok := Cur(s);
    if tok.kind == Semi then
      if !CanPull(s) then Step(Stop, s) else Step(Ok(Some(EmptyStmt(tok.lexeme))), Pulled(s))
    else if IsKeyword(tok, "if") then IfStatement(s)
    else if IsKeyword(tok, "while") then WhileStatement(s)
    else if IsKeyword(tok, "print") then PrintStatement(s)
    else if IsKeyword(tok, "return") then
      var rs := ReturnStatement(s);
      if !rs.out.Ok? then rs.Fwd() else Step(Ok(Some(rs.out.value)), rs.st)
    else if tok.kind == LBrace then
      var b := BlockStatement(s);
      if !b.out.Ok? then b.Fwd() else Step(Ok(Some(b.out.value)), b.st)
    else if tok.kind == Id then AssignmentStatement(s)
    else Step(Ok(None), s)
  }

  /** ReturnStmt -> return Expression ; */
  function ReturnStatement(s: PState): (r: Step<Stmt>)
    requires Ready(s)
    ensures KeepsNames(s, r.st) && (r.out.Loops? ==> Stuck(r.st))
    ensures r.out.Ok? ==> r.st.pulled > s.pulled
    decreases |s.toks| - s.pulled, 37
  {
    if !CanPull(s) then Step(Stop, s)
    else
      var e := Expression(Pulled(s));
      if !e.out.Ok? then e.Fwd()
      else if Cur(e.st).kind != Semi then Step(Fail(OnLine("Missing Semi-Colon", Cur(e.st))), e.st)
      else if !CanPull(e.st) then Step(Stop, e.st)
      else Step(Ok(ReturnStmt(e.out.value)), Pulled(e.st))
  }

  /** Block -> { Statements }: the loop collects whole statement lists until
      the look-ahead is `}`. */
  function BlockStatement(s: PState): (r: Step<Stmt>)
    requires Ready(s)
    ensures KeepsNames(s, r.st) && (r.out.Loops? ==> Stuck(r.st))
    ensures r.out.Ok? ==> r.st.pulled > s.pulled
    decreases |s.toks| - s.pulled, 37
  {
    if !CanPull(s) then Step(Stop, s) else BlockFrom([], Pulled(s))
  }

  /** One iteration of the block loop. When `statements` consumes nothing,
      the next iteration starts from the very same state, so the loop never
      ends: that is the Loops outcome. */
  function BlockFrom(groups: seq<seq<Stmt>>, s: PState): (r: Step<Stmt>)
    requires Ready(s)
    ensures KeepsNames(s, r.st) && (r.out.Loops? ==> Stuck(r.st))
    ensures r.out.Ok? ==> r.st.pulled > s.pulled
    decreases |s.toks| - s.pulled, 41
  {
    if Cur(s).kind == RBrace then
      if !CanPull(s) then Step(Stop, s) else Step(Ok(Block(groups)), Pulled(s))
    else
      var ss := Statements(s);
      if !ss.out.Ok? then ss.Fwd()
      else if ss.st.pulled == s.pulled then Step(Loops, s)
      else BlockFrom(groups + [ss.out.value], ss.st)
  }

  /** Assignment -> ID = Expression ; */
  function AssignmentStatement(s: PState): (r: Step<Option<Stmt>>)
    requires Ready(s)
    ensures KeepsNames(s, r.st) && (r.out.Loops? ==> Stuck(r.st))
    ensures r.out.Ok? ==> r.st.pulled > s.pulled
    decreases |s.toks| - s.pulled, 37
  {
    var id := Cur(s).lexeme;
    if id !in s.vars then Step(Fail(OnLine("Assignment of an undeclared variable", Cur(s))), s)
    else if !CanPull(s) then Step(Stop, s)
    else
      var s1 := Pulled(s);
      if Cur(s1).kind != Assign then Step(Ok(None), s1)
      else if !CanPull(s1) then Step(Stop, s1)
      else
        var e := Expression(Pulled(s1));
        if !e.out.Ok? then e.Fwd() else AssignTail(id, e.out.value, e.st)
  }

  /** The end of an assignment, after its expression: the `;`, then the
      variable's entry becomes (its type, the expression). */
  function AssignTail(id: string, value: Expr, s: PState): (r: Step<Option<Stmt>>)
    requires Ready(s) && id in s.vars
    ensures KeepsNames(s, r.st) && (r.out.Loops? ==> Stuck(r.st))
    ensures r.out.Ok? ==> r.st.pulled > s.pulled
  {
    if Cur(s).kind != Semi then Step(Fail(OnLine("Missing Semi-colon", Cur(s))), s)
    else match TypeOfEntry(s.vars[id])
      case None => Step(Fail(Error.IndexError), s)
      case Some(t) =>
        var s3 := s.(vars := s.vars[id := Slot(t, value)]);
        if !CanPull(s3) then Step(Stop, s3)
        else Step(Ok(Some(Assignment(IDExpr(id), value))), Pulled(s3))
  }

  /** `variableDict[id][0]`: the type of a pair; the first character of a
      bare type string, which raises IndexError when it is empty. */
  function TypeOfEntry(v: VarEntry): (r: Option<string>)
    ensures r.None? <==> v.Bare? && v.t == []
    ensures r.Some? ==> r.value <= v.t
    ensures r.Some? && v.Bare? ==> |r.value| == 1
  {
    match v
    case Slot(t, _) => Some(t)
    case Bare(t) => if t == [] then None else Some([t[0]])
  }

  /** IfStatement -> if ( Expression ) Statement { else Statement }.
      None when the look-ahead is not `if`, or when `(` is missing. */
  function IfStatement(s: PState): (r: Step<Option<Stmt>>)
    requires Ready(s)
    ensures KeepsNames(s, r.st) && (r.out.Loops? ==> Stuck(r.st))
    ensures r.out.Ok? && r.st.pulled == s.pulled ==> r == Step(Ok(None), s)
    decreases |s.toks| - s.pulled, 37
  {
    if !IsKeyword(Cur(s), "if") then Step(Ok(None), s)
    else if !CanPull(s) then Step(Stop, s)
    else
      var s1 := Pulled(s);
      if Cur(s1).kind != LParen then Step(Ok(None), s1)
      else if !CanPull(s1) then Step(Stop, s1)
      else IfAfterParen(Pulled(s1))
  }

  /** An if statement after its `(`: condition, `)`, then-branch, else chain. */
  function IfAfterParen(s: PState): (r: Step<Option<Stmt>>)
    requires Ready(s)
    ensures KeepsNames(s, r.st) && (r.out.Loops? ==> Stuck(r.st))
    ensures r.out.Ok? ==> r.out.value.Some?
    decreases |s.toks| - s.pulled, 37
  {
    var c := Expression(s);
    if !c.out.Ok? then c.Fwd()
    else if Cur(c.st).kind != RParen then Step(Fail(OnLine("Missing right paren", Cur(c.st))), c.st)
    else if !CanPull(c.st) then Step(Stop, c.st)
    else
      var t := Statement(Pulled(c.st));
      if !t.out.Ok? then t.Fwd() else ElseChain(c.out.value, t.out.value, [], t.st)
  }

  function ElseChain(cond: Expr, first: Option<Stmt>, elses: seq<Option<Stmt>>, s: PState): (r: Step<Option<Stmt>>)
    requires Ready(s)
    ensures KeepsNames(s, r.st) && (r.out.Loops? ==> Stuck(r.st))
    ensures r.out.Ok? ==> r.out.value.Some?
    decreases |s.toks| - s.pulled, 36
  {
    if IsKeyword(Cur(s), "else") then
      if !CanPull(s) then Step(Stop, s)
      else
        var e := Statement(Pulled(s));
        if !e.out.Ok? then e.Fwd() else ElseChain(cond, first, elses + [e.out.value], e.st)
    else Step(Ok(Some(IfStmt(cond, first, elses))), s)
  }

  /** WhileStatement -> while ( Expression ) Statement.
      None when the look-ahead is not `while`, or when `(` is missing. */
  function WhileStatement(s: PState): (r: Step<Option<Stmt>>)
    requires Ready(s)
    ensures KeepsNames(s, r.st) && (r.out.Loops? ==> Stuck(r.st))
    ensures r.out.Ok? && r.st.pulled == s.pulled ==> r == Step(Ok(None), s)
    decreases |s.toks| - s.pulled, 37
  {
    if !IsKeyword(Cur(s), "while") then Step(Ok(None), s)
    else if !CanPull(s) then Step(Stop, s)
    else
      var s1 := Pulled(s);
      if Cur(s1).kind != LParen then Step(Ok(None), s1)
      else if !CanPull(s1) then Step(Stop, s1)
      else WhileAfterParen(Pulled(s1))
  }

  /** The condition and the body of a while statement. */
  function WhileAfterParen(s: PState): (r: Step<Option<Stmt>>)
    requires Ready(s)
    ensures KeepsNames(s, r.st) && (r.out.Loops? ==> Stuck(r.st))
    ensures r.out.Ok? ==> r.out.value.Some?
    decreases |s.toks| - s.pulled, 37
  {
    var c := Expression(s);
    if !c.out.Ok? then c.Fwd()
    else if Cur(c.st).kind != RParen then Step(Fail(OnLine("Missing right paren", Cur(c.st))), c.st)
    else if !CanPull(c.st) then Step(Stop, c.st)
    else
      var b := Statement(Pulled(c.st));
      if !b.out.Ok? then b.Fwd() else Step(Ok(Some(WhileStmt(c.out.value, b.out.value))), b.st)
  }

  /** PrintStmt -> print ( PrintArg { , PrintArg } ), with no `;`.
      None when the look-ahead is not `print`, or when `(` is missing. */
  function PrintStatement(s: PState): (r: Step<Option<Stmt>>)
    requires Ready(s)
    ensures KeepsNames(s, r.st) && (r.out.Loops? ==> Stuck(r.st))
    ensures r.out.Ok? && r.st.pulled == s.pulled ==> r == Step(Ok(None), s)
    decreases |s.toks| - s.pulled, 37
  {
    if !IsKeyword(Cur(s), "print") then Step(Ok(None), s)
    else if !CanPull(s) then Step(Stop, s)
    else
      var s1 := Pulled(s);
      if Cur(s1).kind != LParen then Step(Ok(None), s1)
      else if !CanPull(s1) then Step(Stop, s1)
      else PrintAfterParen(Pulled(s1))
  }

  /** A print statement after its `(`: the first argument, then the rest. */
  function PrintAfterParen(s: PState): (r: Step<Option<Stmt>>)
    requires Ready(s)
    ensures KeepsNames(s, r.st) && (r.out.Loops? ==> Stuck(r.st))
    ensures r.out.Ok? ==> r.out.value.Some? && r.st.pulled > s.pulled
    decreases |s.toks| - s.pulled, 37
  {
    var a := PrintArg(s);
    if !a.out.Ok? then a.Fwd() else PrintTail(a.out.value, [], a.st)
  }

  function PrintTail(first: Expr, rest: seq<Expr>, s: PState): (r: Step<Option<Stmt>>)
    requires Ready(s)
    ensures KeepsNames(s, r.st) && (r.out.Loops? ==> Stuck(r.st))
    ensures r.out.Ok? ==> r.out.value.Some? && r.st.pulled > s.pulled
    decreases |s.toks| - s.pulled, 36
  {
    if Cur(s).kind == Comma then
      if !CanPull(s) then Step(Stop, s)
      else
        var a := PrintArg(Pulled(s));
        if !a.out.Ok? then a.Fwd() else PrintTail(first, rest + [a.out.value], a.st)
    else if Cur(s).kind == RParen then
      if !CanPull(s) then Step(Stop, s) else Step(Ok(Some(PrintStmt(first, rest))), Pulled(s))
    else Step(Fail(OnLine("Missing right paren", Cur(s))), s)
  }

  /** PrintArg -> stringlit | Expression */
  function PrintArg(s: PState): (r: Step<Expr>)
    requires Ready(s)
    ensures ReadsTables(s, r.st) && !r.out.Loops?
    decreases |s.toks| - s.pulled, 20
  {
    if Cur(s).kind == StringLit then
      if !CanPull(s) then Step(Stop, s) else Step(Ok(LitExpr(Cur(s).lexeme, StrType)), Pulled(s))
    else Expression(s)
  }

  // ---------------------------------------------------------------------
  // Functions and programs

  /** Declaration -> Type id ; (the `;` is checked here and consumed by the
      caller). The name is entered in the variable table before the check. */
  function Decl(s: PState): (r: Step<Ast.Declaration>)
    requires Ready(s)
    ensures Extends(s, r.st) && r.st.funcs == s.funcs && s.vars.Keys <= r.st.vars.Keys && !r.out.Loops?
    ensures r.out.Ok? ==> r.st.pulled == s.pulled + 2 && Cur(r.st).kind == Semi
  {
    var t := Cur(s).lexeme;
    if !CanPull(s) then Step(Stop, s)
    else
      var s1 := Pulled(s);
      var id := Cur(s1).lexeme;
      if !CanPull(s1) then Step(Stop, s1)
      else
        var s2 := Pulled(s1);
        var s3 := s2.(vars := s2.vars[id := Slot(t, NoneExpr)]);
        if Cur(s3).kind == Semi then Step(Ok(Ast.Declaration(t, id)), s3)
        else Step(Fail(OnLine("Error: Missing Semi-colon", Cur(s3))), s3)
  }

  /** Declarations -> { Declaration }, while the look-ahead's lexeme is a
      declarable type name. */
  function Decls(s: PState): (r: Step<seq<Ast.Declaration>>)
    requires Ready(s)
    ensures Extends(s, r.st) && r.st.funcs == s.funcs && s.vars.Keys <= r.st.vars.Keys && !r.out.Loops?
  {
    DeclsFrom([], s)
  }

  function DeclsFrom(acc: seq<Ast.Declaration>, s: PState): (r: Step<seq<Ast.Declaration>>)
    requires Ready(s)
    ensures Extends(s, r.st) && r.st.funcs == s.funcs && s.vars.Keys <= r.st.vars.Keys && !r.out.Loops?
    decreases |s.toks| - s.pulled
  {
    if Cur(s).lexeme in {"int", "bool", "float"} then
      var d := Decl(s);
      if !d.out.Ok? then d.Fwd()
      else if !CanPull(d.st) then Step(Stop, d.st)
      else DeclsFrom(acc + [d.out.value], Pulled(d.st))
    else Step(Ok(acc), s)
  }

  /** Params -> Type id { , Type id } | empty. The first name is stored with
      its bare type, the others with a (type, None) pair. */
  function ParamList(s: PState): (r: Step<Params>)
    requires Ready(s)
    ensures Extends(s, r.st) && r.st.funcs == s.funcs && s.vars.Keys <= r.st.vars.Keys && !r.out.Loops?
  {
    if Cur(s).kind == RParen then Step(Ok(Params([])), s)
    else
      var t := Cur(s).lexeme;
      if !CanPull(s) then Step(Stop, s)
      else
        var s1 := Pulled(s);
        var id := Cur(s1).lexeme;
        if !CanPull(s1) then Step(Stop, s1)
        else
          var s2 := Pulled(s1);
          ParamsFrom([(t, id)], s2.(vars := s2.vars[id := Bare(t)]))
  }

  function ParamsFrom(acc: seq<(string, string)>, s: PState): (r: Step<Params>)
    requires Ready(s)
    ensures Extends(s, r.st) && r.st.funcs == s.funcs && s.vars.Keys <= r.st.vars.Keys && !r.out.Loops?
    decreases |s.toks| - s.pulled
  {
    if Cur(s).kind == Comma then
      if !CanPull(s) then Step(Stop, s)
      else
        var s1 := Pulled(s);
        var t := Cur(s1).lexeme;
        if !CanPull(s1) then Step(Stop, s1)
        else
          var s2 := Pulled(s1);
          var id := Cur(s2).lexeme;
          if !CanPull(s2) then Step(Stop, s2)
          else
            var s3 := Pulled(s2);
            ParamsFrom(acc + [(t, id)], s3.(vars := s3.vars[id := Slot(t, NoneExpr)]))
    else Step(Ok(Params(acc)), s)
  }

  /** FunctionDef -> Type id ( Params ) { Declarations Statements }. The name
      is entered in the function table before the parameters and the body
      are parsed. The closing `}` is checked, not consumed. */
  function FunctionDefinition(s: PState): (r: Step<FunctionDef>)
    requires Ready(s)
    ensures Extends(s, r.st) && s.funcs.Keys <= r.st.funcs.Keys
    ensures r.out.Loops? ==> Stuck(r.st)
  {
    var t := Cur(s).lexeme;
    if !CanPull(s) then Step(Stop, s)
    else
      var s1 := Pulled(s);
      var id := Cur(s1).lexeme;
      if !CanPull(s1) then Step(Stop, s1)
      else
        var s2 := Pulled(s1);
        if id in s2.funcs then Step(Fail(SyntaxError("Function Already Declared")), s2)
        else
          var s3 := s2.(funcs := s2.funcs[id := t]);
          if Cur(s3).kind != LParen then Step(Fail(SyntaxError("Error")), s3)
          else if !CanPull(s3) then Step(Stop, s3)
          else FunctionAfterParen(t, id, Pulled(s3))
  }

  /** A function definition after the `(` of its parameter list. */
  function FunctionAfterParen(t: string, id: string, s: PState): (r: Step<FunctionDef>)
    requires Ready(s)
    ensures Extends(s, r.st) && s.funcs == r.st.funcs
    ensures r.out.Loops? ==> Stuck(r.st)
  {
    var p := ParamList(s);
    if !p.out.Ok? then p.Fwd()
    else if Cur(p.st).kind != RParen then Step(Fail(OnLine("Missing right paren", Cur(p.st))), p.st)
    else if !CanPull(p.st) then Step(Stop, p.st)
    else
      var s5 := Pulled(p.st);
      if Cur(s5).kind != LBrace then Step(Fail(SyntaxError("Error")), s5)
      else if !CanPull(s5) then Step(Stop, s5)
      else FunctionBody(t, id, p.out.value, Pulled(s5))
  }

  /** A function definition after the `{` of its body. */
  function FunctionBody(t: string, id: string, params: Params, s: PState): (r: Step<FunctionDef>)
    requires Ready(s)
    ensures Extends(s, r.st) && s.funcs == r.st.funcs
    ensures r.out.Loops? ==> Stuck(r.st)
  {
    var d := Decls(s);
    if !d.out.Ok? then d.Fwd()
    else
      var b := Statements(d.st);
      if !b.out.Ok? then b.Fwd()
      else if Cur(b.st).kind != RBrace then Step(Fail(OnLine("Missing Right Brace", Cur(b.st))), b.st)
      else Step(Ok(FunctionDef(Type(t), IDExpr(id), params, d.out.value, b.out.value)), b.st)
  }

  /** Program -> { FunctionDef }: one function per iteration, until pulling
      the next token (anywhere inside a function too) finds none left. */
  function ProgramFrom(funcs: seq<FunctionDef>, s: PState): (r: Step<Program>)
    requires s.pulled <= |s.toks|
    ensures Extends(s, r.st) && !r.out.Stop?
    ensures r.out.Loops? ==> Stuck(r.st)
    decreases |s.toks| - s.pulled
  {
    if !CanPull(s) then Step(Ok(Program(funcs)), s)
    else
      var f := FunctionDefinition(Pulled(s));
      match f.out
      case Ok(fd) => ProgramFrom(funcs + [fd], f.st)
      case Stop => Step(Ok(Program(funcs)), f.st)
      case Fail(e) => Step(Fail(e), f.st)
      case Loops => Step(Loops, f.st)
  }

  /** A fresh parser over `toks`: nothing pulled, both tables empty. */
  function Initial(toks: seq<Token>): PState { PState(toks, 0, map[], map[]) }

  /** `Parser(...).program()`: never the early stop of a statement; an
      empty token list is the empty program. */
  function Parse(toks: seq<Token>): (r: Step<Program>)
    ensures r.st.toks == toks && !r.out.Stop?
    ensures r.out.Loops? ==> Stuck(r.st)
    ensures toks == [] ==> r.out == Ok(Program([]))
  {
    ProgramFrom([], Initial(toks))
  }
}
