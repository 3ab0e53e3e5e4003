/** The syntax tree of SLU-C programs: the node classes of ast.py, plus the
    node constructors the parser builds but ast.py does not define (their
    fields are the arguments at the parser's call sites), with the pure
    `__str__` renderings and the two `eval`s that ast.py does define. */
module Ast {

  import opened Options
  import opened Numerals

  /** The Python classes the parser passes as a literal's type tag. */
  datatype LitType = IntType | FloatType | StrType | BoolType

  datatype Expr =
    | BinaryExpr(left: Expr, op: string, right: Expr)
    | UnaryOp(tree: Expr, op: string)
    | IDExpr(id: string)
    | IntLitExpr(intlit: int)
    /** Built by the parser for every literal: the lexeme and a type tag. */
    | LitExpr(lit: string, ty: LitType)
    /** Built by the parser for a call `f(args)`. */
    | FunctionExpr(name: string, args: seq<Expr>)
    /** Python's `None` where an expression is expected: the unset value
        of a variable slot. */
    | NoneExpr

  datatype Stmt =
    /** The empty statement is the raw `;` lexeme itself. */
    | EmptyStmt(lexeme: string)
    /** A missing branch (the statement parser returned None) is None. */
    | IfStmt(cond: Expr, truepart: Option<Stmt>, falsepart: seq<Option<Stmt>>)
    | WhileStmt(cond: Expr, body: Option<Stmt>)
    | PrintStmt(first: Expr, rest: seq<Expr>)
    | ReturnStmt(value: Expr)
    /** A block keeps each statement list its loop collected, as a list. */
    | Block(groups: seq<seq<Stmt>>)
    | Assignment(target: Expr, exp: Expr)

  datatype Type = Type(t: string)

  /** Parameters as `(type, name)` pairs of lexemes. */
  datatype Params = Params(prms: seq<(string, string)>)

  datatype Declaration = Declaration(ty: string, id: string)

  datatype FunctionDef = FunctionDef(t: Type, id: Expr, params: Params, decls: seq<Declaration>, stmts: seq<Stmt>)

  datatype Program = Program(funcs: seq<FunctionDef>)

  /** The outcome of `str(node)`: the text, or the name of a node class that
      has no `__str__` (Python then prints an address-dependent default), or
      the IndexError of rendering a program with no functions. */
  datatype Rendered = Text(text: string) | NoStr(node: string) | IndexError {
    predicate IsFailure() { !Text? }
    function PropagateFailure(): Rendered requires IsFailure() { this }
    function Extract(): string requires Text? { text }
  }

  /** `IntLitExpr(intlit)`: the constructor converts its text with `int()`;
      None stands for the ValueError `int()` raises. */
  function NewIntLit(intlit: string): (r: Option<Expr>)
    ensures r.Some? <==> ParseInt(intlit).Some?
    ensures r.Some? ==> r.value.IntLitExpr? && ParseInt(intlit) == Some(r.value.intlit)
  {
    match ParseInt(intlit)
    case None => None
    case Some(v) => Some(IntLitExpr(v))
  }

  /** Every node of the tree has a `__str__`: no literal and no call. */
  predicate Printable(e: Expr) {
    match e
    case BinaryExpr(l, _, r) => Printable(l) && Printable(r)
    case UnaryOp(t, _) => Printable(t)
    case LitExpr(_, _) => false
    case FunctionExpr(_, _) => false
    case _ => true
  }

  /** `str(e)`: text exactly for the printable trees; otherwise the first
      node class, left to right, that has no `__str__`. */
  function RenderExpr(e: Expr): (r: Rendered)
    ensures r.Text? <==> Printable(e)
    ensures r.NoStr? ==> r.node == "LitExpr" || r.node == "FunctionExpr"
    ensures !r.IndexError?
  {
    match e
    case BinaryExpr(l, op, r) =>
      var ls :- RenderExpr(l);
      var rs :- RenderExpr(r);
      Text("(" + ls + " " + op + " " + rs + ")")
    case UnaryOp(t, op) =>
      var ts :- RenderExpr(t);
      Text(op + ts)
    case IDExpr(id) => Text(id)
    case IntLitExpr(v) => Text(IntString(v))
    case NoneExpr => Text("None")
    case LitExpr(_, _) => NoStr("LitExpr")
    case FunctionExpr(_, _) => NoStr("FunctionExpr")
  }

  /** Statements: the raw `;` prints as itself, `IfStmt` prints "if ", and
      the other statement classes have no `__str__`. */
  function RenderStmt(s: Stmt): (r: Rendered)
    ensures r.Text? <==> s.EmptyStmt? || s.IfStmt?
    ensures !r.IndexError?
  {
    match s
    case EmptyStmt(lexeme) => Text(lexeme)
    case IfStmt(_, _, _) => Text("if ")
    case WhileStmt(_, _) => NoStr("WhileStmt")
    case PrintStmt(_, _) => NoStr("PrintStmt")
    case ReturnStmt(_) => NoStr("ReturnStmt")
    case Block(_) => NoStr("Block")
    case Assignment(_, _) => NoStr("Assignment")
  }

  function EntryText(p: (string, string)): string { p.0 + " " + p.1 }

  /** The parameter list's text, built left to right: the first entry, then
      ", " and the next entry for each further one. */
  function ParamsText(ps: seq<(string, string)>): (r: string)
    ensures r == "" <==> ps == []
    ensures ps != [] ==> EntryText(ps[0]) <= r
  {
    if |ps| == 0 then ""
    else if |ps| == 1 then EntryText(ps[0])
    else ParamsText(ps[..|ps| - 1]) + ", " + EntryText(ps[|ps| - 1])
  }

  function RenderParams(p: Params): string { ParamsText(p.prms) }

  /** A declaration prints as its type, a space, its name and `;`. */
  function RenderDecl(d: Declaration): (r: string)
    ensures |r| == |d.ty| + |d.id| + 2
    ensures d.ty + " " <= r && r[|r| - 1] == ';'
  {
    d.ty + " " + d.id + ";"
  }

  /** The layout of `"t id;"`: the type, one space, the name, and `;`. */
  lemma RenderDeclFields(d: Declaration)
    ensures var r := RenderDecl(d);
      r[..|d.ty|] == d.ty && r[|d.ty|] == ' ' && r[|d.ty| + 1 .. |r| - 1] == d.id && r[|r| - 1] == ';'
  {
  }

  function DeclsText(ds: seq<Declaration>): string {
    if ds == [] then "" else DeclsText(ds[..|ds| - 1]) + RenderDecl(ds[|ds| - 1])
  }

  /** The statements' texts in order, with no separator. Only empty
      statements and if statements have a `__str__`, so the list prints only
      when it holds nothing else. */
  function StmtsText(ss: seq<Stmt>): (r: Rendered)
    ensures r.Text? <==> forall i :: 0 <= i < |ss| ==> ss[i].EmptyStmt? || ss[i].IfStmt?
    ensures !r.IndexError?
  {
    if ss == [] then Text("")
    else
      var pre :- StmtsText(ss[..|ss| - 1]);
      var last :- RenderStmt(ss[|ss| - 1]);
      Text(pre + last)
  }

  /** `t id(params) {`; the type prints as its own text. */
  function Header(f: FunctionDef): (r: Rendered)
    ensures r.Text? <==> Printable(f.id)
    ensures r.Text? ==> f.t.t + " " <= r.text && r.text[|r.text| - 1] == '{'
    ensures !r.IndexError?
  {
    var id :- RenderExpr(f.id);
    Text(f.t.t + " " + id + "(" + RenderParams(f.params) + ") {")
  }

  /** The header `t id(params) {`, each declaration, each statement, and the
      closing brace. */
  function RenderFunctionDef(f: FunctionDef): (r: Rendered)
    ensures r.Text? <==> Printable(f.id) && forall i :: 0 <= i < |f.stmts| ==> f.stmts[i].EmptyStmt? || f.stmts[i].IfStmt?
    ensures r.Text? ==> f.t.t + " " <= r.text && r.text[|r.text| - 1] == '}'
    ensures !r.IndexError?
  {
    var h :- Header(f);
    var ss :- StmtsText(f.stmts);
    Text(h + DeclsText(f.decls) + ss + "}")
  }

  /** A program prints as its first function only. */
  function RenderProgram(p: Program): (r: Rendered)
    ensures r.IndexError? <==> p.funcs == []
  {
    if |p.funcs| == 0 then IndexError else RenderFunctionDef(p.funcs[0])
  }

  /** `eval()`: defined on integer literals and on `UnaryOp`, which multiplies
      its operand's value by -1 whatever its operator; None where the node
      has no usable `eval`. */
  function Eval(e: Expr): (r: Option<int>)
    ensures r == (if Core(e).IntLitExpr? then Some(if Negations(e) % 2 == 0 then Core(e).intlit else -Core(e).intlit) else None)
  {
    match e
    case IntLitExpr(v) => Some(v)
    case UnaryOp(t, _) =>
      (match Eval(t)
       case None => None
       case Some(v) => Some(v * -1))
    case _ => None
  }

  /** The number of prefix operators wrapped around a tree. */
  function Negations(e: Expr): nat {
    if e.UnaryOp? then Negations(e.tree) + 1 else 0
  }

  /** The tree inside all its prefix operators. */
  function Core(e: Expr): Expr {
    if e.UnaryOp? then Core(e.tree) else e
  }

  /** What `typeof` returns: the `int` class for an integer literal; the
      `Type` class itself (not an instance) for an identifier. */
  datatype PyClass = IntClass | TypeClass

  function TypeOf(e: Expr): (r: Option<PyClass>)
    ensures r.Some? <==> e.IntLitExpr? || e.IDExpr?
    ensures r == Some(IntClass) <==> e.IntLitExpr?
  {
    match e
    case IntLitExpr(_) => Some(IntClass)
    case IDExpr(_) => Some(TypeClass)
    case _ => None
  }

  // ---------------------------------------------------------------------
  // Counting characters and parenthesis depth

  function Count(c: char, s: string): nat {
    if s == [] then 0 else Count(c, s[..|s| - 1]) + (if s[|s| - 1] == c then 1 else 0)
  }

  lemma {:induction false} CountConcat(c: char, a: string, b: string)
    ensures Count(c, a + b) == Count(c, a) + Count(c, b)
    decreases |b|
  {
    if b == [] {
      assert a + b == a;
    } else {
      assert (a + b)[..|a + b| - 1] == a + b[..|b| - 1];
      CountConcat(c, a, b[..|b| - 1]);
    }
  }

  predicate Lacks(c: char, s: string) { forall k :: 0 <= k < |s| ==> s[k] != c }

  lemma {:induction false} CountLacks(c: char, s: string)
    requires Lacks(c, s)
    ensures Count(c, s) == 0
    decreases |s|
  {
    if s != [] { CountLacks(c, s[..|s| - 1]); }
  }

  /** Opening minus closing parentheses. */
  function Depth(s: string): int { Count('(', s) - Count(')', s) }

  lemma DepthConcat(a: string, b: string)
    ensures Depth(a + b) == Depth(a) + Depth(b)
  {
    CountConcat('(', a, b);
    CountConcat(')', a, b);
  }

  predicate ParenFree(s: string) { Lacks('(', s) && Lacks(')', s) }

  /** Every `(` is closed by a later `)` and no `)` comes before its `(`. */
  predicate Balanced(s: string) {
    Depth(s) == 0 && forall k :: 0 <= k <= |s| ==> Depth(s[..k]) >= 0
  }

  /** Balanced, and the first `(` is closed by the last character. */
  predicate Enclosed(s: string) {
    Balanced(s) && |s| >= 2 && s[0] == '(' && s[|s| - 1] == ')' &&
    forall k :: 1 <= k < |s| ==> Depth(s[..k]) > 0
  }

  lemma ParenFreeBalanced(s: string)
    requires ParenFree(s)
    ensures Balanced(s)
  {
    CountLacks('(', s);
    CountLacks(')', s);
    forall k | 0 <= k <= |s| ensures Depth(s[..k]) >= 0 {
      CountLacks('(', s[..k]);
      CountLacks(')', s[..k]);
    }
  }

  lemma BalancedConcat(a: string, b: string)
    requires Balanced(a) && Balanced(b)
    ensures Balanced(a + b)
  {
    DepthConcat(a, b);
    forall k | 0 <= k <= |a + b| ensures Depth((a + b)[..k]) >= 0 {
      if k <= |a| {
        assert (a + b)[..k] == a[..k];
      } else {
        assert (a + b)[..k] == a + b[..k - |a|];
        DepthConcat(a, b[..k - |a|]);
      }
    }
  }

  lemma Enclose(inner: string)
    requires Balanced(inner)
    ensures Enclosed("(" + inner + ")")
  {
    var s := "(" + inner + ")";
    DepthConcat("(" + inner, ")");
    DepthConcat("(", inner);
    assert Depth("(") == 1 by { assert "("[..0] == []; assert Count('(', "(") == 1; assert Count(')', "(") == 0; }
    assert Depth(")") == -1 by { assert ")"[..0] == []; assert Count('(', ")") == 0; assert Count(')', ")") == 1; }
    forall k | 1 <= k < |s| ensures Depth(s[..k]) > 0 {
      assert s[..k] == "(" + inner[..k - 1];
      DepthConcat("(", inner[..k - 1]);
    }
    forall k | 0 <= k <= |s| ensures Depth(s[..k]) >= 0 {
      if k == 0 {
        assert s[..k] == [];
      } else if k == |s| {
        assert s[..k] == s;
      }
    }
  }

  /** Every name and operator in the tree is free of parentheses. */
  predicate PlainText(e: Expr) {
    match e
    case BinaryExpr(l, op, r) => ParenFree(op) && PlainText(l) && PlainText(r)
    case UnaryOp(t, op) => ParenFree(op) && PlainText(t)
    case IDExpr(id) => ParenFree(id)
    case _ => true
  }

  lemma IntStringParenFree(i: int)
    ensures ParenFree(IntString(i))
  {
    NatStringDigits(if i < 0 then -i else i);
  }

  /** A rendered expression has balanced parentheses, and a rendered binary
      expression is wrapped in one pair that encloses all of it. */
  lemma EncloseBinary(ls: string, op: string, rs: string)
    requires Balanced(ls) && Balanced(rs) && ParenFree(op)
    ensures Enclosed("(" + ls + " " + op + " " + rs + ")")
  {
    var mid := " " + op + " ";
    assert ParenFree(mid);
    ParenFreeBalanced(mid);
    BalancedConcat(ls, mid);
    BalancedConcat(ls + mid, rs);
    Enclose(ls + mid + rs);
    assert "(" + ls + " " + op + " " + rs + ")" == "(" + (ls + mid + rs) + ")";
  }

  /** A rendered expression has balanced parentheses, and a rendered binary
      expression is wrapped in one pair that encloses all of it. */
  lemma {:induction false} RenderedParensBalanced(e: Expr)
    requires PlainText(e) && RenderExpr(e).Text?
    ensures Balanced(RenderExpr(e).text)
    ensures e.BinaryExpr? ==> Enclosed(RenderExpr(e).text)
  {
    match e
    case BinaryExpr(l, op, r) =>
      RenderedParensBalanced(l);
      RenderedParensBalanced(r);
      EncloseBinary(RenderExpr(l).text, op, RenderExpr(r).text);
    case UnaryOp(t, op) =>
      RenderedParensBalanced(t);
      ParenFreeBalanced(op);
      BalancedConcat(op, RenderExpr(t).text);
    case IDExpr(id) =>
      ParenFreeBalanced(id);
    case IntLitExpr(v) =>
      IntStringParenFree(v);
      ParenFreeBalanced(IntString(v));
    case NoneExpr =>
      ParenFreeBalanced("None");
    case LitExpr(_, _) =>
    case FunctionExpr(_, _) =>
  }

  // ---------------------------------------------------------------------
  // Parameter lists, declarations, programs and literals

  /** No type or name in the list contains a comma. */
  predicate CommaFreeEntries(ps: seq<(string, string)>) {
    forall i :: 0 <= i < |ps| ==> Lacks(',', ps[i].0) && Lacks(',', ps[i].1)
  }

  /** An empty list prints as "", and `n` entries print starting with the
      first one and with `n - 1` comma separators between them. */
  lemma {:induction false} ParamsSeparators(ps: seq<(string, string)>)
    requires CommaFreeEntries(ps)
    ensures ParamsText(ps) == "" <==> ps == []
    ensures Count(',', ParamsText(ps)) == if ps == [] then 0 else |ps| - 1
    ensures ps != [] ==> EntryText(ps[0]) <= ParamsText(ps)
    decreases |ps|
  {
    if |ps| == 1 {
      EntryCommaFree(ps[0]);
    } else if |ps| > 1 {
      var init := ps[..|ps| - 1];
      assert CommaFreeEntries(init) by {
        forall i | 0 <= i < |init| ensures Lacks(',', init[i].0) && Lacks(',', init[i].1) {
          assert init[i] == ps[i];
        }
      }
      ParamsSeparators(init);
      EntryCommaFree(ps[|ps| - 1]);
      assert Count(',', ", ") == 1 by { assert ", "[..1] == ","; assert ","[..0] == []; }
      CountConcat(',', ParamsText(init), ", ");
      CountConcat(',', ParamsText(init) + ", ", EntryText(ps[|ps| - 1]));
      assert init[0] == ps[0];
    }
  }

  lemma EntryCommaFree(p: (string, string))
    requires Lacks(',', p.0) && Lacks(',', p.1)
    ensures Count(',', EntryText(p)) == 0 && |EntryText(p)| > 0
  {
    assert Lacks(',', EntryText(p)) by {
      forall k | 0 <= k < |EntryText(p)| ensures EntryText(p)[k] != ',' {
        if k < |p.0| { assert EntryText(p)[k] == p.0[k]; }
        else if k > |p.0| { assert EntryText(p)[k] == p.1[k - |p.0| - 1]; }
      }
    }
    CountLacks(',', EntryText(p));
  }

  /** Declarations print one after another with no separator: the text of
      a list is the texts of its parts, in order. */
  lemma {:induction false} DeclsTextConcat(a: seq<Declaration>, b: seq<Declaration>)
    ensures DeclsText(a + b) == DeclsText(a) + DeclsText(b)
    decreases |b|
  {
    if b == [] {
      assert a + b == a;
    } else {
      var ab := a + b;
      var init := b[..|b| - 1];
      var last := b[|b| - 1];
      assert ab[..|ab| - 1] == a + init && ab[|ab| - 1] == last;
      DeclsTextConcat(a, init);
      calc {
        DeclsText(ab);
        DeclsText(a + init) + RenderDecl(last);
        DeclsText(a) + DeclsText(init) + RenderDecl(last);
        DeclsText(a) + (DeclsText(init) + RenderDecl(last));
      }
    }
  }

  /** A program prints as its first function: functions after the first
      never change the text. */
  lemma ProgramShowsFirst(p: Program, later: seq<FunctionDef>)
    requires p.funcs != []
    ensures RenderProgram(Program(p.funcs + later)) == RenderProgram(p)
  {
    assert (p.funcs + later)[0] == p.funcs[0];
  }

  /** An integer literal built from the text `str(i)` holds `i`, evaluates
      to `i`, has type `int` and prints as that same text. */
  lemma IntLitRoundTrip(i: int)
    ensures NewIntLit(IntString(i)) == Some(IntLitExpr(i))
    ensures Eval(IntLitExpr(i)) == Some(i) && TypeOf(IntLitExpr(i)) == Some(IntClass)
    ensures RenderExpr(IntLitExpr(i)) == Text(IntString(i))
  {
    ParseIntString(i);
  }
}
