/** The recursive-descent parser as the stateful object it is: the token
    generator (a token sequence and how many tokens have been pulled from
    it), the look-ahead token `currtok` (the last one pulled), and the two
    symbol tables, which the productions update in place. Every method is
    proved to compute exactly a Grammar function, from the state it starts
    in to the state it leaves: mostly the function of the same name, while
    `ParseProgram` computes `ProgramFrom` and `CloseCall` and `ClosePrint`
    compute the last step of `CallArgs` and `PrintTail`. */
module SlucParser {

  import opened Options
  import opened Lexer
  import opened Ast
  import G = Grammar

  class Parser {
    /** The tokens the generator yields, in order. */
    const tokens: seq<Token>
    /** How many tokens `next()` has taken from the generator. */
    var pulled: nat
    /** Parameters and locals, by name. Never reset between functions. */
    var variableDict: map<string, G.VarEntry>
    /** Return type lexeme of every function seen so far, by name. */
    var functionDict: map<string, string>

    function State(): G.PState
      reads this
    {
      G.PState(tokens, pulled, variableDict, functionDict)
    }

    constructor (tokens: seq<Token>)
      ensures State() == G.Initial(tokens)
    {
      this.tokens := tokens;
      pulled := 0;
      variableDict := map[];
      functionDict := map[];
    }

    function CurrTok(): Token
      reads this
      requires G.Ready(State())
    {
      tokens[pulled - 1]
    }

    /** `self.currtok = next(self.tg)`; false stands for StopIteration, which
        leaves everything as it was. */
    method Next() returns (ok: bool)
      modifies this
      ensures ok == G.CanPull(old(State()))
      ensures State() == if ok then G.Pulled(old(State())) else old(State())
    {
      if pulled < |tokens| {
        pulled := pulled + 1;
        ok := true;
      } else {
        ok := false;
      }
    }

    // -------------------------------------------------------------------
    // Expressions

    method Expression() returns (r: G.Out<Expr>)
      requires G.Ready(State())
      modifies this
      ensures G.Step(r, State()) == G.Expression(old(State()))
      decreases |tokens| - pulled, 16
    {
      var left :- Conjunction();
      while CurrTok().kind == Or
        invariant G.Ready(State()) && pulled >= old(pulled)
        invariant G.OrTail(left, State()) == G.Expression(old(State()))
        decreases |tokens| - pulled
      {
        var op := CurrTok().lexeme;
        var ok := Next();
        if !ok { return G.Stop; }
        var right :- Conjunction();
        left := BinaryExpr(left, op, right);
      }
      return G.Ok(left);
    }

    method Conjunction() returns (r: G.Out<Expr>)
      requires G.Ready(State())
      modifies this
      ensures G.Step(r, State()) == G.Conjunction(old(State()))
      decreases |tokens| - pulled, 14
    {
      var left :- Equality();
      while CurrTok().kind == And
        invariant G.Ready(State()) && pulled >= old(pulled)
        invariant G.AndTail(left, State()) == G.Conjunction(old(State()))
        decreases |tokens| - pulled
      {
        var op := CurrTok().lexeme;
        var ok := Next();
        if !ok { return G.Stop; }
        var right :- Equality();
        left := BinaryExpr(left, op, right);
      }
      return G.Ok(left);
    }

    method Equality() returns (r: G.Out<Expr>)
      requires G.Ready(State())
      modifies this
      ensures G.Step(r, State()) == G.Equality(old(State()))
      decreases |tokens| - pulled, 12
    {
      var left :- Relation();
      if CurrTok().kind in G.EqOps {
        var op := CurrTok().lexeme;
        var ok := Next();
        if !ok { return G.Stop; }
        var right :- Relation();
        left := BinaryExpr(left, op, right);
      }
      return G.Ok(left);
    }

    method Relation() returns (r: G.Out<Expr>)
      requires G.Ready(State())
      modifies this
      ensures G.Step(r, State()) == G.Relation(old(State()))
      decreases |tokens| - pulled, 11
    {
      var left :- Addition();
      if CurrTok().kind in G.RelOps {
        var op := CurrTok().lexeme;
        var ok := Next();
        if !ok { return G.Stop; }
        var right :- Addition();
        left := BinaryExpr(left, op, right);
      }
      return G.Ok(left);
    }

    method Addition() returns (r: G.Out<Expr>)
      requires G.Ready(State())
      modifies this
      ensures G.Step(r, State()) == G.Addition(old(State()))
      decreases |tokens| - pulled, 10
    {
      var left :- Term();
      while CurrTok().kind in G.AddOps
        invariant G.Ready(State()) && pulled >= old(pulled)
        invariant G.AddTail(left, State()) == G.Addition(old(State()))
        decreases |tokens| - pulled
      {
        var op := CurrTok().lexeme;
        var ok := Next();
        if !ok { return G.Stop; }
        var right :- Term();
        left := BinaryExpr(left, op, right);
      }
      return G.Ok(left);
    }

    method Term() returns (r: G.Out<Expr>)
      requires G.Ready(State())
      modifies this
      ensures G.Step(r, State()) == G.Term(old(State()))
      decreases |tokens| - pulled, 8
    {
      var left :- Fact();
      while CurrTok().kind in G.MulOps
        invariant G.Ready(State()) && pulled >= old(pulled)
        invariant G.MulTail(left, State()) == G.Term(old(State()))
        decreases |tokens| - pulled
      {
        var op := CurrTok().lexeme;
        var ok := Next();
        if !ok { return G.Stop; }
        var right :- Fact();
        left := BinaryExpr(left, op, right);
      }
      return G.Ok(left);
    }

    method Fact() returns (r: G.Out<Expr>)
      requires G.Ready(State())
      modifies this
      ensures G.Step(r, State()) == G.Fact(old(State()))
      decreases |tokens| - pulled, 6
    {
      if CurrTok().kind in G.PrefixOps {
        r := Prefixed();
      } else {
        r := Primary();
      }
    }

    /** The prefix-operator branch of `fact`. */
    method Prefixed() returns (r: G.Out<Expr>)
      requires G.Ready(State())
      modifies this
      ensures G.Step(r, State()) == G.Prefixed(old(State()))
      decreases |tokens| - pulled, 5
    {
      var op := CurrTok().lexeme;
      var ok := Next();
      if !ok { return G.Stop; }
      var tree :- Primary();
      return G.Ok(UnaryOp(tree, op));
    }

    method Primary() returns (r: G.Out<Expr>)
      requires G.Ready(State())
      modifies this
      ensures G.Step(r, State()) == G.Primary(old(State()))
      decreases |tokens| - pulled, 5
    {
      var tok := CurrTok();
      if tok.kind == Id {
        r := Identifier();
        return;
      } else if G.LiteralType(tok).Some? {
        var ok := Next();
        if !ok { return G.Stop; }
        return G.Ok(LitExpr(tok.lexeme, G.LiteralType(tok).value));
      } else if tok.kind == LParen {
        var ok := Next();
        if !ok { return G.Stop; }
        r := Parenthesized();
        return;
      }
      return G.Fail(G.Unexpected(tok));
    }

    /** The parenthesized branch of `primary`, after its `(`. */
    method Parenthesized() returns (r: G.Out<Expr>)
      requires G.Ready(State())
      modifies this
      ensures G.Step(r, State()) == G.Parenthesized(old(State()))
      decreases |tokens| - pulled, 17
    {
      var tree :- Expression();
      if CurrTok().kind != RParen { return G.Fail(G.OnLine("Missing right paren", CurrTok())); }
      var ok := Next();
      if !ok { return G.Stop; }
      return G.Ok(tree);
    }

    /** The identifier branch of `primary`: variable, call or error. */
    method Identifier() returns (r: G.Out<Expr>)
      requires G.Ready(State()) && CurrTok().kind == Id
      modifies this
      ensures G.Step(r, State()) == G.Identifier(old(State()))
      decreases |tokens| - pulled, 4
    {
      var tok := CurrTok();
      if tok.lexeme in variableDict {
        var ok := Next();
        if !ok { return G.Stop; }
        return G.Ok(IDExpr(tok.lexeme));
      } else if tok.lexeme in functionDict {
        var ok := Next();
        if !ok { return G.Stop; }
        if CurrTok().kind != LParen { return G.Fail(G.SyntaxError("Invalid Function call")); }
        ok := Next();
        if !ok { return G.Stop; }
        r := Call(tok.lexeme);
        return;
      }
      return G.Fail(G.SyntaxError("Undefined variable " + tok.lexeme + " on line " + Numerals.IntString(tok.line)));
    }

    /** The argument list of a call, after its `(`. */
    method Call(name: string) returns (r: G.Out<Expr>)
      requires G.Ready(State())
      modifies this
      ensures G.Step(r, State()) == G.Call(name, old(State()))
      decreases |tokens| - pulled, 17
    {
      if CurrTok().kind == RParen { return G.Ok(FunctionExpr(name, [])); }
      var first :- Expression();
      r := CallArgs(name, [first]);
    }

    /** The arguments after the first, while a `,` follows. */
    method CallArgs(name: string, args: seq<Expr>) returns (r: G.Out<Expr>)
      requires G.Ready(State())
      modifies this
      ensures G.Step(r, State()) == G.CallArgs(name, args, old(State()))
      decreases |tokens| - pulled, 2
    {
      var params := args;
      while CurrTok().kind == Comma
        invariant G.Ready(State()) && pulled >= old(pulled)
        invariant G.CallArgs(name, params, State()) == G.CallArgs(name, args, old(State()))
        decreases |tokens| - pulled
      {
        var ok := Next();
        if !ok { return G.Stop; }
        var arg :- Expression();
        params := params + [arg];
      }
      r := CloseCall(name, params);
    }

    /** The `)` that ends a call's arguments. */
    method CloseCall(name: string, params: seq<Expr>) returns (r: G.Out<Expr>)
      requires G.Ready(State()) && CurrTok().kind != Comma
      modifies this
      ensures G.Step(r, State()) == G.CallArgs(name, params, old(State()))
    {
      if CurrTok().kind == RParen {
        var ok := Next();
        if !ok { return G.Stop; }
        return G.Ok(FunctionExpr(name, params));
      }
      // no `)`: control reaches the error at the end of `primary`
      var tok := CurrTok();
      return G.Fail(G.Unexpected(tok));
    }

    // -------------------------------------------------------------------
    // Statements

    method Statements() returns (r: G.Out<seq<Stmt>>)
      requires G.Ready(State())
      modifies this
      ensures G.Step(r, State()) == G.Statements(old(State()))
      decreases |tokens| - pulled, 40
    {
      var stmts: seq<Stmt> := [];
      while true
        invariant G.Ready(State()) && pulled >= old(pulled)
        invariant G.StatementsFrom(stmts, State()) == G.Statements(old(State()))
        decreases |tokens| - pulled
      {
        var temp :- Statement();
        match temp
        case None => return G.Ok(stmts);
        case Some(x) => stmts := stmts + [x];
      }
    }

    method Statement() returns (r: G.Out<Option<Stmt>>)
      requires G.Ready(State())
      modifies this
      ensures G.Step(r, State()) == G.Statement(old(State()))
      decreases |tokens| - pulled, 38
    {
      var tok := CurrTok();
      if tok.kind == Semi {
        var ok := Next();
        if !ok { return G.Stop; }
        return G.Ok(Some(EmptyStmt(tok.lexeme)));
      } else if G.IsKeyword(tok, "if") {
        r := IfStatement();
      } else if G.IsKeyword(tok, "while") {
        r := WhileStatement();
      } else if G.IsKeyword(tok, "print") {
        r := PrintStatement();
      } else if G.IsKeyword(tok, "return") {
        var s :- ReturnStatement();
        return G.Ok(Some(s));
      } else if tok.kind == LBrace {
        var b :- BlockStatement();
        return G.Ok(Some(b));
      } else if tok.kind == Id {
        r := AssignmentStatement();
      } else {
        return G.Ok(None);
      }
    }

    method ReturnStatement() returns (r: G.Out<Stmt>)
      requires G.Ready(State())
      modifies this
      ensures G.Step(r, State()) == G.ReturnStatement(old(State()))
      decreases |tokens| - pulled, 37
    {
      var ok := Next();
      if !ok { return G.Stop; }
      var e :- Expression();
      if CurrTok().kind != Semi { return G.Fail(G.OnLine("Missing Semi-Colon", CurrTok())); }
      ok := Next();
      if !ok { return G.Stop; }
      return G.Ok(ReturnStmt(e));
    }

    /** The loop stops only at `}`; the statement lists it collects are never
        None, so its other exit and the error after it cannot be reached. */
    method BlockStatement() returns (r: G.Out<Stmt>)
      requires G.Ready(State())
      modifies this
      ensures G.Step(r, State()) == G.BlockStatement(old(State()))
      decreases |tokens| - pulled, 37
    {
      var ok := Next();
      if !ok { return G.Stop; }
      var block: seq<seq<Stmt>> := [];
      while CurrTok().kind != RBrace
        invariant G.Ready(State()) && pulled > old(pulled)
        invariant G.BlockFrom(block, State()) == G.BlockStatement(old(State()))
        decreases |tokens| - pulled
      {
        var before := pulled;
        var temp :- Statements();
        // nothing consumed: every later iteration would repeat this one
        if pulled == before { return G.Loops; }
        block := block + [temp];
      }
      ok := Next();
      if !ok { return G.Stop; }
      return G.Ok(Block(block));
    }

    method AssignmentStatement() returns (r: G.Out<Option<Stmt>>)
      requires G.Ready(State())
      modifies this
      ensures G.Step(r, State()) == G.AssignmentStatement(old(State()))
      decreases |tokens| - pulled, 37
    {
      var id := CurrTok().lexeme;
      if id !in variableDict {
        return G.Fail(G.OnLine("Assignment of an undeclared variable", CurrTok()));
      }
      var ok := Next();
      if !ok { return G.Stop; }
      if CurrTok().kind != Assign { return G.Ok(None); }
      ok := Next();
      if !ok { return G.Stop; }
      var exp :- Expression();
      r := AssignTail(id, exp);
    }

    /** The `;` of an assignment, and the update of the variable's entry. */
    method AssignTail(id: string, exp: Expr) returns (r: G.Out<Option<Stmt>>)
      requires G.Ready(State()) && id in variableDict
      modifies this
      ensures G.Step(r, State()) == G.AssignTail(id, exp, old(State()))
    {
      if CurrTok().kind != Semi { return G.Fail(G.OnLine("Missing Semi-colon", CurrTok())); }
      var t := G.TypeOfEntry(variableDict[id]);
      if t.None? { return G.Fail(G.Error.IndexError); }
      variableDict := variableDict[id := G.Slot(t.value, exp)];
      var ok := Next();
      if !ok { return G.Stop; }
      return G.Ok(Some(Assignment(IDExpr(id), exp)));
    }

    method IfStatement() returns (r: G.Out<Option<Stmt>>)
      requires G.Ready(State())
      modifies this
      ensures G.Step(r, State()) == G.IfStatement(old(State()))
      decreases |tokens| - pulled, 37
    {
      if !G.IsKeyword(CurrTok(), "if") { return G.Ok(None); }
      var ok := Next();
      if !ok { return G.Stop; }
      if CurrTok().kind != LParen { return G.Ok(None); }
      ok := Next();
      if !ok { return G.Stop; }
      r := IfAfterParen();
    }

    /** The condition, the then-branch and the else loop of an if statement. */
    method IfAfterParen() returns (r: G.Out<Option<Stmt>>)
      requires G.Ready(State())
      modifies this
      ensures G.Step(r, State()) == G.IfAfterParen(old(State()))
      decreases |tokens| - pulled, 37
    {
      var cond :- Expression();
      if CurrTok().kind != RParen { return G.Fail(G.OnLine("Missing right paren", CurrTok())); }
      var ok := Next();
      if !ok { return G.Stop; }
      var first :- Statement();
      var elses: seq<Option<Stmt>> := [];
      while G.IsKeyword(CurrTok(), "else")
        invariant G.Ready(State()) && pulled > old(pulled)
        invariant G.ElseChain(cond, first, elses, State()) == G.IfAfterParen(old(State()))
        decreases |tokens| - pulled
      {
        ok := Next();
        if !ok { return G.Stop; }
        var e :- Statement();
        elses := elses + [e];
      }
      return G.Ok(Some(IfStmt(cond, first, elses)));
    }

    method WhileStatement() returns (r: G.Out<Option<Stmt>>)
      requires G.Ready(State())
      modifies this
      ensures G.Step(r, State()) == G.WhileStatement(old(State()))
      decreases |tokens| - pulled, 37
    {
      if !G.IsKeyword(CurrTok(), "while") { return G.Ok(None); }
      var ok := Next();
      if !ok { return G.Stop; }
      if CurrTok().kind != LParen { return G.Ok(None); }
      ok := Next();
      if !ok { return G.Stop; }
      r := WhileAfterParen();
    }

    /** The condition and the body of a while statement. */
    method WhileAfterParen() returns (r: G.Out<Option<Stmt>>)
      requires G.Ready(State())
      modifies this
      ensures G.Step(r, State()) == G.WhileAfterParen(old(State()))
      decreases |tokens| - pulled, 37
    {
      var cond :- Expression();
      if CurrTok().kind != RParen { return G.Fail(G.OnLine("Missing right paren", CurrTok())); }
      var ok := Next();
      if !ok { return G.Stop; }
      var body :- Statement();
      return G.Ok(Some(WhileStmt(cond, body)));
    }

    method PrintStatement() returns (r: G.Out<Option<Stmt>>)
      requires G.Ready(State())
      modifies this
      ensures G.Step(r, State()) == G.PrintStatement(old(State()))
      decreases |tokens| - pulled, 37
    {
      if !G.IsKeyword(CurrTok(), "print") { return G.Ok(None); }
      var ok := Next();
      if !ok { return G.Stop; }
      if CurrTok().kind != LParen { return G.Ok(None); }
      ok := Next();
      if !ok { return G.Stop; }
      r := PrintAfterParen();
    }

    /** The comma-separated arguments of a print statement and its `)`. */
    method PrintAfterParen() returns (r: G.Out<Option<Stmt>>)
      requires G.Ready(State())
      modifies this
      ensures G.Step(r, State()) == G.PrintAfterParen(old(State()))
      decreases |tokens| - pulled, 37
    {
      var first :- PrintArg();
      r := PrintTail(first, []);
    }

    /** The arguments after the first, while a `,` follows. */
    method PrintTail(first: Expr, args: seq<Expr>) returns (r: G.Out<Option<Stmt>>)
      requires G.Ready(State())
      modifies this
      ensures G.Step(r, State()) == G.PrintTail(first, args, old(State()))
      decreases |tokens| - pulled, 36
    {
      var rest := args;
      while CurrTok().kind == Comma
        invariant G.Ready(State()) && pulled >= old(pulled)
        invariant G.PrintTail(first, rest, State()) == G.PrintTail(first, args, old(State()))
        decreases |tokens| - pulled
      {
        var ok := Next();
        if !ok { return G.Stop; }
        var arg :- PrintArg();
        rest := rest + [arg];
      }
      r := ClosePrint(first, rest);
    }

    /** The `)` that ends a print statement's arguments. */
    method ClosePrint(first: Expr, rest: seq<Expr>) returns (r: G.Out<Option<Stmt>>)
      requires G.Ready(State()) && CurrTok().kind != Comma
      modifies this
      ensures G.Step(r, State()) == G.PrintTail(first, rest, old(State()))
    {
      if CurrTok().kind != RParen { return G.Fail(G.OnLine("Missing right paren", CurrTok())); }
      var ok := Next();
      if !ok { return G.Stop; }
      return G.Ok(Some(PrintStmt(first, rest)));
    }

    method PrintArg() returns (r: G.Out<Expr>)
      requires G.Ready(State())
      modifies this
      ensures G.Step(r, State()) == G.PrintArg(old(State()))
      decreases |tokens| - pulled, 20
    {
      if CurrTok().kind == StringLit {
        var tok := CurrTok();
        var ok := Next();
        if !ok { return G.Stop; }
        return G.Ok(LitExpr(tok.lexeme, StrType));
      }
      r := Expression();
    }

    // -------------------------------------------------------------------
    // Functions and programs

    method Decl() returns (r: G.Out<Declaration>)
      requires G.Ready(State())
      modifies this
      ensures G.Step(r, State()) == G.Decl(old(State()))
    {
      var t := CurrTok().lexeme;
      var ok := Next();
      if !ok { return G.Stop; }
      var id := CurrTok().lexeme;
      ok := Next();
      if !ok { return G.Stop; }
      variableDict := variableDict[id := G.Slot(t, NoneExpr)];
      if CurrTok().kind == Semi { return G.Ok(Declaration(t, id)); }
      return G.Fail(G.OnLine("Error: Missing Semi-colon", CurrTok()));
    }

    method Decls() returns (r: G.Out<seq<Declaration>>)
      requires G.Ready(State())
      modifies this
      ensures G.Step(r, State()) == G.Decls(old(State()))
    {
      var decls: seq<Declaration> := [];
      while CurrTok().lexeme in {"int", "bool", "float"}
        invariant G.Ready(State()) && pulled >= old(pulled)
        invariant G.DeclsFrom(decls, State()) == G.Decls(old(State()))
        decreases |tokens| - pulled
      {
        var temp :- Decl();
        var ok := Next();
        if !ok { return G.Stop; }
        decls := decls + [temp];
      }
      return G.Ok(decls);
    }

    method ParamList() returns (r: G.Out<Params>)
      requires G.Ready(State())
      modifies this
      ensures G.Step(r, State()) == G.ParamList(old(State()))
    {
      if CurrTok().kind == RParen { return G.Ok(Params([])); }
      var t := CurrTok().lexeme;
      var ok := Next();
      if !ok { return G.Stop; }
      var id := CurrTok().lexeme;
      ok := Next();
      if !ok { return G.Stop; }
      variableDict := variableDict[id := G.Bare(t)];
      r := ParamsFrom([(t, id)]);
    }

    /** The `, Type id` entries after the first parameter. */
    method ParamsFrom(first: seq<(string, string)>) returns (r: G.Out<Params>)
      requires G.Ready(State())
      modifies this
      ensures G.Step(r, State()) == G.ParamsFrom(first, old(State()))
    {
      var params := first;
      while CurrTok().kind == Comma
        invariant G.Ready(State()) && pulled >= old(pulled)
        invariant G.ParamsFrom(params, State()) == G.ParamsFrom(first, old(State()))
        decreases |tokens| - pulled
      {
        var ok := Next();
        if !ok { return G.Stop; }
        var t := CurrTok().lexeme;
        ok := Next();
        if !ok { return G.Stop; }
        var id := CurrTok().lexeme;
        ok := Next();
        if !ok { return G.Stop; }
        variableDict := variableDict[id := G.Slot(t, NoneExpr)];
        params := params + [(t, id)];
      }
      return G.Ok(Params(params));
    }

    method FunctionDefinition() returns (r: G.Out<FunctionDef>)
      requires G.Ready(State())
      modifies this
      ensures G.Step(r, State()) == G.FunctionDefinition(old(State()))
    {
      var t := CurrTok().lexeme;
      var ok := Next();
      if !ok { return G.Stop; }
      var id := CurrTok().lexeme;
      ok := Next();
      if !ok { return G.Stop; }
      if id in functionDict { return G.Fail(G.SyntaxError("Function Already Declared")); }
      functionDict := functionDict[id := t];
      if CurrTok().kind != LParen { return G.Fail(G.SyntaxError("Error")); }
      ok := Next();
      if !ok { return G.Stop; }
      r := FunctionAfterParen(t, id);
    }

    /** The parameter list and the body of a function definition. */
    method FunctionAfterParen(t: string, id: string) returns (r: G.Out<FunctionDef>)
      requires G.Ready(State())
      modifies this
      ensures G.Step(r, State()) == G.FunctionAfterParen(t, id, old(State()))
    {
      var params :- ParamList();
      if CurrTok().kind != RParen { return G.Fail(G.OnLine("Missing right paren", CurrTok())); }
      var ok := Next();
      if !ok { return G.Stop; }
      if CurrTok().kind != LBrace { return G.Fail(G.SyntaxError("Error")); }
      ok := Next();
      if !ok { return G.Stop; }
      r := FunctionBody(t, id, params);
    }

    /** The declarations and statements of a function body, up to its `}`. */
    method FunctionBody(t: string, id: string, params: Params) returns (r: G.Out<FunctionDef>)
      requires G.Ready(State())
      modifies this
      ensures G.Step(r, State()) == G.FunctionBody(t, id, params, old(State()))
    {
      var decls :- Decls();
      var stmts :- Statements();
      if CurrTok().kind != RBrace { return G.Fail(G.OnLine("Missing Right Brace", CurrTok())); }
      return G.Ok(FunctionDef(Type(t), IDExpr(id), params, decls, stmts));
    }

    /** Parses function definitions until the tokens run out, and returns
        those completed; a function cut short by the end of the tokens is
        dropped. */
    method ParseProgram() returns (r: G.Out<Program>)
      requires pulled <= |tokens|
      modifies this
      ensures G.Step(r, State()) == G.ProgramFrom([], old(State()))
    {
      var funcs: seq<FunctionDef> := [];
      while true
        invariant pulled <= |tokens| && G.ProgramFrom(funcs, State()) == G.ProgramFrom([], old(State()))
        decreases |tokens| - pulled
      {
        var ok := Next();
        if !ok { return G.Ok(Program(funcs)); }
        var f := FunctionDefinition();
        match f
        case Ok(fd) => funcs := funcs + [fd];
        case Stop => return G.Ok(Program(funcs));
        case Fail(e) => return G.Fail(e);
        case Loops => return G.Loops;
      }
    }
  }
}
