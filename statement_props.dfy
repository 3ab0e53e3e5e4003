/** Properties of the reference parser above the expression level: what an
    assignment does to the variable table, when a statement list ends, how
    a block collects lists, how function names are registered, and what a
    whole program keeps. */
module StatementProps {

  import opened Options
  import opened Ast
  import opened Grammar
  import opened GrammarProps
  import L = Lexer

  // ---------------------------------------------------------------------
  // Assignment

  /** Assigning to a name the variable table lacks is an error reported on
      the name's line, before anything is consumed. */
  lemma AssignmentToUndeclared(s: PState)
    requires Ready(s) && Cur(s).kind == L.Id && Cur(s).lexeme !in s.vars
    ensures Statement(s) == Step(Fail(OnLine("Assignment of an undeclared variable", Cur(s))), s)
  {
    IdentifierStatement(s);
  }

  /** A declared name not followed by `=` is consumed, and the statement is
      None, which ends the statement list. */
  lemma AssignmentWithoutEquals(s: PState)
    requires Ready(s) && s.pulled + 1 <= |s.toks|
    requires Cur(s).kind == L.Id && Cur(s).lexeme in s.vars && At(s, 1).kind != L.Assign
    ensures Statement(s) == Step(Ok(None), Skip(s, 1))
  {
    Shift(s, 1);
    IdentifierStatement(s);
  }

  /** `id = e` reaches the end of the assignment with the state after `e`. */
  lemma AssignmentReachesTail(s: PState, e: Expr, after: PState)
    requires Ready(s) && s.pulled + 2 <= |s.toks|
    requires Cur(s).kind == L.Id && Cur(s).lexeme in s.vars && At(s, 1).kind == L.Assign
    requires Expression(Skip(s, 2)) == Step(Ok(e), after)
    ensures Ready(after) && after.vars == s.vars
    ensures Statement(s) == AssignTail(Cur(s).lexeme, e, after)
  {
    TwoAhead(s);
    AssignmentOpens(s, e, after);
  }

  /** A statement that starts with an identifier is an assignment. */
  lemma IdentifierStatement(s: PState)
    requires Ready(s) && Cur(s).kind == L.Id
    ensures Statement(s) == AssignmentStatement(s)
  {
  }

  /** The look-ahead one and two tokens on. */
  lemma TwoAhead(s: PState)
    requires Ready(s) && s.pulled + 2 <= |s.toks|
    ensures CanPull(s) && Pulled(s) == Skip(s, 1) && Cur(Pulled(s)) == At(s, 1)
    ensures CanPull(Pulled(s)) && Pulled(Pulled(s)) == Skip(s, 2)
  {
    Shift(s, 1);
  }

  lemma AssignmentOpens(s: PState, e: Expr, after: PState)
    requires Ready(s) && CanPull(s) && CanPull(Pulled(s))
    requires Cur(s).kind == L.Id && Cur(s).lexeme in s.vars && Cur(Pulled(s)).kind == L.Assign
    requires Expression(Pulled(Pulled(s))) == Step(Ok(e), after)
    ensures Statement(s) == AssignTail(Cur(s).lexeme, e, after)
  {
    IdentifierStatement(s);
  }

  /** The end of an assignment: a missing `;` is an error; otherwise the
      name's entry becomes (its type, the expression), where the type of
      the first parameter's bare entry is the first character of its type
      name, and an empty one raises IndexError. Nothing else in the tables
      changes. */
  lemma AssignTailCases(id: string, e: Expr, s: PState)
    requires Ready(s) && id in s.vars
    ensures var r := AssignTail(id, e, s); var ty := TypeOfEntry(s.vars[id]);
      (Cur(s).kind != L.Semi ==> r == Step(Fail(OnLine("Missing Semi-colon", Cur(s))), s)) &&
      (Cur(s).kind == L.Semi && ty.None? ==> r == Step(Fail(Error.IndexError), s)) &&
      (Cur(s).kind == L.Semi && ty.Some? && CanPull(s) ==>
        r == Step(Ok(Some(Assignment(IDExpr(id), e))), Pulled(s).(vars := s.vars[id := Slot(ty.value, e)])))
    ensures s.vars[id].Bare? ==> TypeOfEntry(s.vars[id]) == (if s.vars[id].t == [] then None else Some(s.vars[id].t[..1]))
  {
    if s.vars[id].Bare? && s.vars[id].t != [] {
      assert s.vars[id].t[..1] == [s.vars[id].t[0]];
    }
  }

  /** `id = e ;` for a declared `id`: the statement is the assignment, the
      `;` is consumed and the variable table records (type, e) for `id`. */
  lemma AssignmentRecords(s: PState, e: Expr, after: PState)
    requires Ready(s) && s.pulled + 2 <= |s.toks|
    requires Cur(s).kind == L.Id && Cur(s).lexeme in s.vars && At(s, 1).kind == L.Assign
    requires Expression(Skip(s, 2)) == Step(Ok(e), after)
    ensures Ready(after)
    ensures var id := Cur(s).lexeme; var ty := TypeOfEntry(s.vars[id]);
      Cur(after).kind == L.Semi && ty.Some? && CanPull(after) ==>
        Statement(s) == Step(Ok(Some(Assignment(IDExpr(id), e))), Pulled(after).(vars := s.vars[id := Slot(ty.value, e)]))
    ensures Cur(after).kind != L.Semi ==> Statement(s) == Step(Fail(OnLine("Missing Semi-colon", Cur(after))), after)
  {
    AssignmentReachesTail(s, e, after);
    AssignTailCases(Cur(s).lexeme, e, after);
  }

  // ---------------------------------------------------------------------
  // Statement lists and blocks

  /** A look-ahead that starts no statement ends the list at once; with the
      postcondition of Statements this is an if and only if. */
  lemma NoStatementEndsList(acc: seq<Stmt>, s: PState)
    requires Ready(s) && StartsNoStatement(Cur(s))
    ensures StatementsFrom(acc, s) == Step(Ok(acc), s)
  {
    assert Statement(s) == Step(Ok(None), s);
  }

  /** A block whose look-ahead is neither `}` nor the start of a statement
      never ends. */
  lemma BlockLoopsWhenStuck(groups: seq<seq<Stmt>>, s: PState)
    requires Stuck(s)
    ensures BlockFrom(groups, s) == Step(Loops, s)
  {
    NoStatementEndsList([], s);
  }

  /** One iteration of the block loop appends the whole statement list it
      collected as a single element, when that list consumed tokens. */
  lemma BlockAppendsList(groups: seq<seq<Stmt>>, s: PState, ss: seq<Stmt>, after: PState)
    requires Ready(s) && Cur(s).kind != L.RBrace
    requires Statements(s) == Step(Ok(ss), after) && after.pulled > s.pulled
    ensures BlockFrom(groups, s) == BlockFrom(groups + [ss], after)
  {
  }

  /** At `}` the block is the lists collected so far, and the `}` is
      consumed. */
  lemma BlockEnds(groups: seq<seq<Stmt>>, s: PState)
    requires Ready(s) && Cur(s).kind == L.RBrace && CanPull(s)
    ensures BlockFrom(groups, s) == Step(Ok(Block(groups)), Pulled(s))
  {
  }

  /** `if`, `while` or `print` without its `(` consumes the keyword and is
      None, so it ends the statement list it is in. */
  lemma MissingParenEndsList(acc: seq<Stmt>, s: PState)
    requires Ready(s) && s.pulled + 1 <= |s.toks| && At(s, 1).kind != L.LParen
    requires IsKeyword(Cur(s), "if") || IsKeyword(Cur(s), "while") || IsKeyword(Cur(s), "print")
    ensures Statement(s) == Step(Ok(None), Skip(s, 1))
    ensures StatementsFrom(acc, s) == Step(Ok(acc), Skip(s, 1))
  {
    Shift(s, 1);
    assert Pulled(s) == Skip(s, 1);
    if IsKeyword(Cur(s), "if") {
      assert Statement(s) == IfStatement(s);
    } else if IsKeyword(Cur(s), "while") {
      assert Statement(s) == WhileStatement(s);
    } else {
      assert Statement(s) == PrintStatement(s);
    }
  }

  /** `print(x)` ends at its `)`: the token after the `)`, such as a `;`,
      is not part of the print statement and is left as the look-ahead. */
  lemma PrintLeavesSemicolon(s: PState, x: Expr, after: PState)
    requires Ready(s) && s.pulled + 2 <= |s.toks| && IsKeyword(Cur(s), "print") && At(s, 1).kind == L.LParen
    requires PrintArg(Skip(s, 2)) == Step(Ok(x), after)
    requires Cur(after).kind == L.RParen && CanPull(after)
    ensures Statement(s) == Step(Ok(Some(PrintStmt(x, []))), Pulled(after))
  {
    var s2 := Skip(s, 2);
    PrintOpens(s);
    PrintOneArg(s2, x, after);
  }

  lemma PrintOpens(s: PState)
    requires Ready(s) && s.pulled + 2 <= |s.toks| && IsKeyword(Cur(s), "print") && At(s, 1).kind == L.LParen
    ensures Statement(s) == PrintAfterParen(Skip(s, 2))
  {
    TwoAhead(s);
    PrintOpensAt(s);
  }

  lemma PrintOpensAt(s: PState)
    requires Ready(s) && CanPull(s) && CanPull(Pulled(s))
    requires IsKeyword(Cur(s), "print") && Cur(Pulled(s)).kind == L.LParen
    ensures Statement(s) == PrintAfterParen(Pulled(Pulled(s)))
  {
    assert Statement(s) == PrintStatement(s);
  }

  lemma PrintOneArg(s: PState, x: Expr, after: PState)
    requires Ready(s) && PrintArg(s) == Step(Ok(x), after)
    requires Cur(after).kind == L.RParen && CanPull(after)
    ensures PrintAfterParen(s) == Step(Ok(Some(PrintStmt(x, []))), Pulled(after))
  {
    assert PrintAfterParen(s) == PrintTail(x, [], after);
  }

  // ---------------------------------------------------------------------
  // Function definitions

  /** The first parameter `t x` is entered in the variable table as its
      bare type name `t`; without a `,` after it the list ends there. */
  lemma FirstParamBare(s: PState)
    requires Ready(s) && s.pulled + 2 <= |s.toks| && Cur(s).kind != L.RParen && At(s, 2).kind != L.Comma
    ensures var t, x := Cur(s).lexeme, At(s, 1).lexeme;
      ParamList(s) == Step(Ok(Params([(t, x)])), Skip(s, 2).(vars := s.vars[x := Bare(t)]))
  {
    TwoAhead(s);
  }

  /** Each later parameter `, t x` is entered as the pair (t, None). */
  lemma LaterParamSlot(acc: seq<(string, string)>, s: PState)
    requires Ready(s) && s.pulled + 3 <= |s.toks| && Cur(s).kind == L.Comma
    ensures var t, x := At(s, 1).lexeme, At(s, 2).lexeme;
      ParamsFrom(acc, s) == ParamsFrom(acc + [(t, x)], Skip(s, 3).(vars := s.vars[x := Slot(t, NoneExpr)]))
  {
    TwoAhead(s);
    assert Pulled(Skip(s, 2)) == Skip(s, 3) && Cur(Skip(s, 2)) == At(s, 2);
  }

  /** A declaration `t x ;` is entered as the pair (t, None) and leaves its
      `;` as the look-ahead. */
  lemma DeclarationSlot(s: PState)
    requires Ready(s) && s.pulled + 2 <= |s.toks| && At(s, 2).kind == L.Semi
    ensures var t, x := Cur(s).lexeme, At(s, 1).lexeme;
      Decl(s) == Step(Ok(Declaration(t, x)), Skip(s, 2).(vars := s.vars[x := Slot(t, NoneExpr)]))
  {
    TwoAhead(s);
  }

  /** Defining a function whose name the function table already has is an
      error, raised after the type and the name are consumed. */
  lemma DuplicateFunctionRejected(s: PState)
    requires Ready(s) && s.pulled + 2 <= |s.toks| && At(s, 1).lexeme in s.funcs
    ensures FunctionDefinition(s) == Step(Fail(SyntaxError("Function Already Declared")), Skip(s, 2))
  {
    Shift(s, 1);
    assert Pulled(s) == Skip(s, 1) && Pulled(Skip(s, 1)) == Skip(s, 2);
  }

  /** A new name is entered in the function table, with its type, before
      the parameters and the body are parsed, so calls to the function
      inside its own body resolve. */
  lemma FunctionRegisteredFirst(s: PState)
    requires Ready(s) && s.pulled + 3 <= |s.toks|
    requires At(s, 1).lexeme !in s.funcs && At(s, 2).kind == L.LParen
    ensures var t := Cur(s).lexeme; var id := At(s, 1).lexeme;
      FunctionDefinition(s) == FunctionAfterParen(t, id, Skip(s, 3).(funcs := s.funcs[id := t]))
  {
    TwoAhead(s);
    DefinitionOpens(s);
  }

  /** A function body gives the definition of the name it was given. */
  lemma FunctionBodyNamed(t: string, id: string, params: Params, s: PState)
    requires Ready(s)
    ensures var r := FunctionBody(t, id, params, s);
      r.out.Ok? ==> r.out.value.t == Type(t) && r.out.value.id == IDExpr(id) && r.out.value.params == params
  {
  }

  lemma FunctionAfterParenNamed(t: string, id: string, s: PState)
    requires Ready(s)
    ensures var r := FunctionAfterParen(t, id, s);
      r.out.Ok? ==> r.out.value.t == Type(t) && r.out.value.id == IDExpr(id)
  {
    var p := ParamList(s);
    if p.out.Ok? && Cur(p.st).kind == L.RParen && CanPull(p.st) {
      var s5 := Pulled(p.st);
      if Cur(s5).kind == L.LBrace && CanPull(s5) {
        FunctionBodyNamed(t, id, p.out.value, Pulled(s5));
      }
    }
  }

  /** A parsed definition is named by an identifier that was not in the
      function table before and is in it after, and has the type it was
      opened with. */
  lemma FunctionDefinitionNamed(s: PState)
    requires Ready(s)
    ensures var r := FunctionDefinition(s);
      r.out.Ok? ==>
        r.out.value.t == Type(Cur(s).lexeme) && r.out.value.id.IDExpr? &&
        r.out.value.id.id !in s.funcs && r.out.value.id.id in r.st.funcs
  {
    if CanPull(s) && CanPull(Pulled(s)) {
      var id := Cur(Pulled(s)).lexeme;
      if id !in s.funcs {
        DefinitionOpens(s);
        var s3 := Pulled(Pulled(s)).(funcs := s.funcs[id := Cur(s).lexeme]);
        if Cur(s3).kind == L.LParen && CanPull(s3) {
          FunctionAfterParenNamed(Cur(s).lexeme, id, Pulled(s3));
        }
      }
    }
  }

  lemma DefinitionOpens(s: PState)
    requires Ready(s) && CanPull(s) && CanPull(Pulled(s)) && Cur(Pulled(s)).lexeme !in s.funcs
    ensures var t := Cur(s).lexeme; var id := Cur(Pulled(s)).lexeme;
      var s3 := Pulled(Pulled(s)).(funcs := s.funcs[id := t]);
      FunctionDefinition(s) ==
        if Cur(s3).kind != L.LParen then Step(Fail(SyntaxError("Error")), s3)
        else if !CanPull(s3) then Step(Stop, s3)
        else FunctionAfterParen(t, id, Pulled(s3))
  {
  }

  // ---------------------------------------------------------------------
  // Programs

  /** Every function of the list is named by an identifier the function
      table has. */
  predicate Registered(fs: seq<FunctionDef>, funcs: map<string, string>) {
    forall i :: 0 <= i < |fs| ==> fs[i].id.IDExpr? && fs[i].id.id in funcs
  }

  /** No two functions of the list have the same name. */
  predicate DistinctNames(fs: seq<FunctionDef>) {
    forall i, j :: 0 <= i < j < |fs| ==> fs[i].id != fs[j].id
  }

  /** Adding a function whose name is new to the table keeps the names
      distinct and registered in the grown table. */
  lemma AddFunction(funcs: seq<FunctionDef>, fd: FunctionDef, before: map<string, string>, after: map<string, string>)
    requires Registered(funcs, before) && DistinctNames(funcs) && before.Keys <= after.Keys
    requires fd.id.IDExpr? && fd.id.id !in before && fd.id.id in after
    ensures Registered(funcs + [fd], after) && DistinctNames(funcs + [fd])
  {
    var fs := funcs + [fd];
    forall i | 0 <= i < |fs| ensures fs[i].id.IDExpr? && fs[i].id.id in after {
      if i < |funcs| { assert fs[i] == funcs[i]; }
    }
    forall i, j | 0 <= i < j < |fs| ensures fs[i].id != fs[j].id {
      assert fs[i] == funcs[i];
      if j < |funcs| { assert fs[j] == funcs[j]; }
    }
  }

  /** The program loop keeps the functions it already has, in order, and
      never adds a second function of the same name. */
  lemma {:induction false} ProgramKeepsFunctions(funcs: seq<FunctionDef>, s: PState)
    requires s.pulled <= |s.toks| && Registered(funcs, s.funcs) && DistinctNames(funcs)
    ensures var r := ProgramFrom(funcs, s);
      r.out.Ok? ==> funcs <= r.out.value.funcs && DistinctNames(r.out.value.funcs)
    decreases |s.toks| - s.pulled
  {
    if CanPull(s) {
      var s1 := Pulled(s);
      var f := FunctionDefinition(s1);
      if f.out.Ok? {
        FunctionDefinitionNamed(s1);
        AddFunction(funcs, f.out.value, s1.funcs, f.st.funcs);
        ProgramKeepsFunctions(funcs + [f.out.value], f.st);
      }
    }
  }

  /** Running out of tokens ends the program loop with the functions
      completed so far, whether it happens between two functions or inside
      one, whose partial definition is then dropped. */
  lemma PartialFunctionDropped(funcs: seq<FunctionDef>, s: PState)
    requires s.pulled <= |s.toks|
    ensures !CanPull(s) ==> ProgramFrom(funcs, s) == Step(Ok(Program(funcs)), s)
    ensures CanPull(s) && FunctionDefinition(Pulled(s)).out.Stop? ==>
      ProgramFrom(funcs, s) == Step(Ok(Program(funcs)), FunctionDefinition(Pulled(s)).st)
  {
  }

  /** The functions of a parsed program have pairwise different names, and
      running out of tokens never escapes as StopIteration. */
  lemma ParseNamesDistinct(toks: seq<L.Token>)
    ensures var r := Parse(toks); !r.out.Stop? && (r.out.Ok? ==> DistinctNames(r.out.value.funcs))
  {
    ProgramKeepsFunctions([], Initial(toks));
  }
}
