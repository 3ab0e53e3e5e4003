# SLU-C parser, modelled and verified in Dafny

SLU-C is a small C-like teaching language. Its front end is a hand-written
recursive-descent parser (`parser.py`). The parser pulls `(kind, lexeme, line)`
tokens from a lexer's generator, keeps one token of look-ahead in `currtok`,
and grows two symbol tables as it goes:
- `variableDict` holds parameters and locals;
- `functionDict` holds the names of the functions defined so far.

It builds a syntax tree whose node classes print themselves with
`__str__`. Most node classes come from `ast.py`. Seven that the parser
builds are defined nowhere in it: `ReturnStmt`, `Block`, `Assignment`,
`WhileStmt`, `PrintStmt`, `LitExpr` and `FunctionExpr`.

This project models that parser and those tree nodes and proves properties
of both. The model has three layers:

- **`Grammar`** (grammar.dfy) is the parser as pure functions. There is one
  function per production over the parser's whole state: the tokens, how
  many have been pulled, and the two tables. Each function returns the
  outcome and the state after it.
  - An outcome is a value; `Stop`, the StopIteration of pulling past the
    last token; `Fail`, a raised error with its message; or `Loops`, the
    block loop that would repeat forever.
  - The contracts state the frame of each production. Expressions only
    read the tables and only move forward. Statements keep the set of
    declared names.
  - They also state when a production may consume nothing, and when the
    `Loops` outcome can arise.
- **`SlucParser.Parser`** (parser.dfy) is the parser as the stateful object
  it is. Its fields are the token sequence, the pull count, `variableDict`
  and `functionDict`. Its methods use `while` loops where the source does.
  Each method is proved to leave exactly the state and result of a
  `Grammar` function. Mostly that is the function of the same name.
  `CloseCall` and `ClosePrint` instead compute the last step of
  `Grammar.CallArgs` and `Grammar.PrintTail`.
- **`GrammarProps`** (grammar_props.dfy) and **`StatementProps`**
  (statement_props.dfy) hold the lemmas about the grammar:
  - associativity, precedence, non-chaining comparisons and prefix
    operators;
  - how an identifier is classified;
  - assignments, blocks and the statement lists;
  - function registration and the program loop.

**`Ast`** (ast.dfy) holds the node datatypes, their renderings, the two
`eval`s and `typeof`. It also proves balanced parentheses, separator
counts, the first-function-only rendering of a program and the integer
literal round trip. `Type.__str__` returns its field, so a type prints as
its own text. **`Numerals`** (numerals.dfy) gives Python's `str(int)`
and the literal subset of `int(str)`. **`Lexer`** (lexer.dfy) gives the
token kinds.

Where the language's design description and the code differ, the model
follows the code:
- `variableDict` is created once and never reset between functions.
- The first parameter is stored as a bare type string, so an assignment
  to it records only the first character of its type (`"int"[0]`).
- A block collects whole statement *lists* as its elements.
- The empty statement is the raw `;` lexeme.
- A missing `(` after `if`, `while` or `print` gives None (ending the
  statement list) rather than a syntax error.
- `print(...)` consumes no `;`.
- `f()` leaves its `)` unconsumed.
- Several error messages carry no line number.

## Model

| member | source | states |
|---|---|---|
| SlucParser.Parser.constructor | parser.py:7-12 | a new parser has pulled nothing and both tables are empty |
| SlucParser.Parser.Next | parser.py:22 | `next(self.tg)` succeeds exactly when a token is left, and then advances the look-ahead by one; otherwise (StopIteration) nothing changes |
| SlucParser.Parser.ParseProgram | parser.py:15-28 | the program loop leaves exactly the outcome and state of `Grammar.ProgramFrom` from the start state |
| SlucParser.Parser.FunctionDefinition | parser.py:30-58 | `functiondef` computes `Grammar.FunctionDefinition`: the duplicate-name error, registration of the name, the "Error" paths |
| SlucParser.Parser.FunctionAfterParen | parser.py:43-50 | the parameter list, `)` and `{` of a definition compute `Grammar.FunctionAfterParen` |
| SlucParser.Parser.FunctionBody | parser.py:51-57 | declarations, statements and the checked `}` compute `Grammar.FunctionBody` |
| SlucParser.Parser.ParamList | parser.py:60-73 | `params` up to its first entry computes `Grammar.ParamList` |
| SlucParser.Parser.ParamsFrom | parser.py:74-82 | the `,`-loop of `params` computes `Grammar.ParamsFrom` |
| SlucParser.Parser.Decls | parser.py:84-93 | the `declarations` loop computes `Grammar.Decls` |
| SlucParser.Parser.Decl | parser.py:95-109 | `declaration` computes `Grammar.Decl` |
| SlucParser.Parser.Statements | parser.py:111-119 | the `statements` loop computes `Grammar.Statements` |
| SlucParser.Parser.Statement | parser.py:121-142 | the dispatch of `statement` computes `Grammar.Statement` |
| SlucParser.Parser.ReturnStatement | parser.py:144-154 | `returnstmt` computes `Grammar.ReturnStatement` |
| SlucParser.Parser.BlockStatement | parser.py:157-173 | the `block` loop computes `Grammar.BlockStatement`, returning `Loops` exactly where the source loop would never end |
| SlucParser.Parser.AssignmentStatement | parser.py:176-185 | `assignment` up to its expression computes `Grammar.AssignmentStatement` |
| SlucParser.Parser.AssignTail | parser.py:186-194 | the `;` check and the table update of `assignment` compute `Grammar.AssignTail` |
| SlucParser.Parser.IfStatement | parser.py:196-204 | `ifstatement` up to its `(` computes `Grammar.IfStatement` |
| SlucParser.Parser.IfAfterParen | parser.py:205-217 | condition, `)`, first statement and the `else` loop compute `Grammar.IfAfterParen` |
| SlucParser.Parser.WhileStatement | parser.py:220-228 | `whilestatement` up to its `(` computes `Grammar.WhileStatement` |
| SlucParser.Parser.WhileAfterParen | parser.py:229-237 | condition, `)` and body compute `Grammar.WhileAfterParen` |
| SlucParser.Parser.PrintStatement | parser.py:239-248 | `printstmt` up to its `(` computes `Grammar.PrintStatement` |
| SlucParser.Parser.PrintAfterParen | parser.py:249-253 | the first argument and the rest compute `Grammar.PrintAfterParen` |
| SlucParser.Parser.PrintTail | parser.py:250-253 | the `,`-loop of `printstmt` computes `Grammar.PrintTail` |
| SlucParser.Parser.ClosePrint | parser.py:254-260 | the closing `)` of `printstmt` computes the last step of `Grammar.PrintTail` |
| SlucParser.Parser.PrintArg | parser.py:262-273 | `printarg` computes `Grammar.PrintArg` |
| SlucParser.Parser.Expression | parser.py:276-288 | the `||`-loop computes `Grammar.Expression` (loop invariant: the rest of the loop is `Grammar.OrTail`) |
| SlucParser.Parser.Conjunction | parser.py:290-303 | the `&&`-loop computes `Grammar.Conjunction` |
| SlucParser.Parser.Equality | parser.py:305-317 | the single optional `==`/`!=` computes `Grammar.Equality` |
| SlucParser.Parser.Relation | parser.py:319-332 | the single optional comparison computes `Grammar.Relation` |
| SlucParser.Parser.Addition | parser.py:334-346 | the `+`/`-` loop computes `Grammar.Addition` |
| SlucParser.Parser.Term | parser.py:348-360 | the `*`/`/`/`%` loop computes `Grammar.Term` |
| SlucParser.Parser.Fact | parser.py:362-374 | `fact` computes `Grammar.Fact` |
| SlucParser.Parser.Prefixed | parser.py:368-372 | the prefix branch of `fact` computes `Grammar.Prefixed` |
| SlucParser.Parser.Primary | parser.py:376-433 | `primary` computes `Grammar.Primary` |
| SlucParser.Parser.Identifier | parser.py:382-405 | the identifier branch of `primary` computes `Grammar.Identifier` |
| SlucParser.Parser.Call | parser.py:389-395 | a call after its `(` computes `Grammar.Call` |
| SlucParser.Parser.CallArgs | parser.py:396-398 | the `,`-loop over call arguments computes `Grammar.CallArgs` |
| SlucParser.Parser.CloseCall | parser.py:399-433 | the closing `)` of a call, or the "Unexpected token" error without it, computes the last step of `Grammar.CallArgs` |
| SlucParser.Parser.Parenthesized | parser.py:422-430 | a parenthesized expression computes `Grammar.Parenthesized` |
| Grammar.Expression | parser.py:276-288 | only reads the tables, moves forward, never loops; on success the look-ahead is no `\|\|`, `&&`, additive or multiplicative operator |
| Grammar.OrTail | parser.py:282-287 | the `\|\|` loop stops at a token that is not `\|\|` |
| Grammar.Conjunction | parser.py:290-303 | reads the tables only; on success the look-ahead is no `&&`, additive or multiplicative operator |
| Grammar.AndTail | parser.py:296-301 | the `&&` loop stops at a token that is not `&&` |
| Grammar.Equality | parser.py:305-317 | reads the tables only; on success the look-ahead is no additive or multiplicative operator |
| Grammar.Relation | parser.py:319-332 | reads the tables only; on success the look-ahead is no additive or multiplicative operator |
| Grammar.Addition | parser.py:334-346 | reads the tables only; on success the look-ahead is no `+`, `-`, `*`, `/` or `%` |
| Grammar.AddTail | parser.py:340-345 | the additive loop stops at a token that is not `+` or `-` |
| Grammar.Term | parser.py:348-360 | reads the tables only; on success the look-ahead is no `*`, `/` or `%` |
| Grammar.MulTail | parser.py:354-358 | the multiplicative loop stops at a token that is not `*`, `/` or `%` |
| Grammar.Fact | parser.py:362-374 | reads the tables only, moves forward, never loops |
| Grammar.Prefixed | parser.py:368-372 | reads the tables only, moves forward, never loops |
| Grammar.Primary | parser.py:376-433 | reads the tables only, moves forward, never loops |
| Grammar.Parenthesized | parser.py:422-430 | reads the tables only, moves forward, never loops |
| Grammar.Identifier | parser.py:382-405 | reads the tables only, moves forward, never loops |
| Grammar.Call | parser.py:389-395 | reads the tables only, moves forward, never loops |
| Grammar.CallArgs | parser.py:394-433 | reads the tables only, moves forward, never loops |
| Grammar.PrintArg | parser.py:262-273 | reads the tables only, moves forward, never loops |
| Grammar.Statements | parser.py:111-119 | keeps the declared names and the function table; `Loops` only at a stuck look-ahead; a list that consumes nothing is empty and its look-ahead starts no statement |
| Grammar.StatementsFrom | parser.py:113-118 | the same, for the loop with the statements collected so far |
| Grammar.Statement | parser.py:121-142 | keeps the declared names; a statement that consumes nothing is None and its look-ahead starts no statement |
| Grammar.ReturnStatement | parser.py:144-154 | keeps the declared names; a successful return statement consumes tokens |
| Grammar.BlockStatement | parser.py:157-173 | keeps the declared names; `Loops` only at a stuck look-ahead; a block consumes tokens |
| Grammar.BlockFrom | parser.py:163-171 | the same, for one iteration of the block loop |
| Grammar.AssignmentStatement | parser.py:176-194 | keeps the declared names (assignment never declares); success consumes tokens |
| Grammar.AssignTail | parser.py:186-192 | keeps the declared names; success consumes the `;` |
| Grammar.IfStatement | parser.py:196-217 | keeps the declared names; consuming nothing means None |
| Grammar.IfAfterParen | parser.py:205-217 | a parsed if statement is never None |
| Grammar.ElseChain | parser.py:209-214 | the `else` loop yields a statement, never None |
| Grammar.WhileStatement | parser.py:220-237 | keeps the declared names; consuming nothing means None |
| Grammar.WhileAfterParen | parser.py:229-237 | a parsed while statement is never None |
| Grammar.PrintStatement | parser.py:239-260 | keeps the declared names; consuming nothing means None |
| Grammar.PrintAfterParen | parser.py:249-260 | a parsed print statement is never None and consumes tokens |
| Grammar.PrintTail | parser.py:250-260 | the same, for the `,`-loop |
| Grammar.Decl | parser.py:95-109 | only adds names to the variable table; success consumes exactly the type and the name and stops at the `;` |
| Grammar.Decls | parser.py:84-93 | only adds variables, keeps the function table, never loops |
| Grammar.DeclsFrom | parser.py:89-92 | the same, for the loop |
| Grammar.ParamList | parser.py:60-82 | only adds variables, keeps the function table, never loops |
| Grammar.ParamsFrom | parser.py:74-81 | the same, for the `,`-loop |
| Grammar.FunctionDefinition | parser.py:30-58 | never removes a name from the function table; `Loops` only at a stuck look-ahead |
| Grammar.FunctionAfterParen | parser.py:43-50 | keeps the function table |
| Grammar.FunctionBody | parser.py:51-57 | keeps the function table |
| Grammar.LiteralTokens | parser.py:406-421 | of the keywords only `true` and `false` are literals; a literal token is never an identifier, `(` or prefix operator, so the branches of `primary` do not overlap |
| Grammar.TypeOfEntry | parser.py:187 | `variableDict[id][0]` fails (IndexError) exactly for an empty bare type string; otherwise it is a prefix of the stored type, one character long for a bare string |
| Grammar.Parse | parser.py:7-28 | parsing a token list never ends in StopIteration, `Loops` only at a stuck look-ahead, and no tokens give the empty program |
| Grammar.ProgramFrom | parser.py:15-28 | StopIteration never escapes the program loop; `Loops` only at a stuck look-ahead |
| GrammarProps.SimpleExpression | parser.py:276-433 | a one-token operand followed by a token that continues no level is the whole expression. The operand is a declared variable (an `IDExpr`) or a literal (a `LitExpr` of its lexeme and type) |
| GrammarProps.FactFailureEndsExpression | parser.py:276-374 | an error in the first factor is the error of the whole expression |
| GrammarProps.AdditionGroupsLeft | parser.py:334-346 | `x0 ± x1 ± … ± xn` is the left fold `((x0 ± x1) ± …) ± xn` and consumes exactly the chain. Each `xi` is a one-token operand: a declared variable or a literal |
| GrammarProps.TermGroupsLeft | parser.py:348-360 | `x0 * x1 / … % xn` over one-token operands is the left fold |
| GrammarProps.ConjunctionGroupsLeft | parser.py:290-303 | `x0 && … && xn` over one-token operands is the left fold |
| GrammarProps.ExpressionGroupsLeft | parser.py:276-288 | `x0 \|\| … \|\| xn` over one-token operands is the left fold |
| GrammarProps.AddTailChain | parser.py:340-345 | the additive loop over a chain of operator-operand links folds them to the left (by induction on the chain) |
| GrammarProps.MulTailChain | parser.py:354-358 | the same for the multiplicative loop |
| GrammarProps.AndTailChain | parser.py:296-301 | the same for the `&&` loop |
| GrammarProps.OrTailChain | parser.py:282-287 | the same for the `\|\|` loop |
| GrammarProps.ProductBindsTighter | parser.py:334-360 | `x + y * z` is `(x + (y * z))` when `x`, `y` and `z` are one-token operands (declared variables or literals): a product binds tighter than a sum |
| GrammarProps.LiteralProductBindsTighter | parser.py:334-421 | `1 + 2 * 3` parses as `(1 + (2 * 3))`, with each number an integer `LitExpr` |
| GrammarProps.RelationOfOperands | parser.py:319-332 | `x < y` over one-token operands is one relation node |
| GrammarProps.EqualityOfOperands | parser.py:305-317 | `x == y` over one-token operands is one equality node |
| GrammarProps.ComparisonDoesNotChain | parser.py:319-332 | after `x < y` a second comparison operator is left as the look-ahead and the expression is `(x < y)` |
| GrammarProps.EqualityDoesNotChain | parser.py:305-317 | after `x == y` a second `==`/`!=` is left as the look-ahead |
| GrammarProps.ReturnNeedsSemicolon | parser.py:144-154 | a return statement succeeds only with a `;` after its expression, else fails with "Missing Semi-Colon" at the token found |
| GrammarProps.ChainedComparisonRejected | parser.py:144-154 | `return x < y < z;` fails with "Missing Semi-Colon" on the second `<` |
| GrammarProps.PrefixWrapsPrimary | parser.py:362-374 | `-x` and `!x` wrap the one primary after the operator in a `UnaryOp` |
| GrammarProps.PrefixedOf | parser.py:368-372 | a prefix operator wraps whatever primary follows it |
| GrammarProps.DoublePrefixRejected | parser.py:362-374 | `- - x` fails with "Unexpected token" on the second operator, and that error is the whole expression's |
| GrammarProps.PrefixIsNoPrimary | parser.py:376-433 | a prefix operator cannot start a primary: "Unexpected token" with its line |
| GrammarProps.IdentifierClassified | parser.py:382-405 | an identifier is a variable if `variableDict` has it; otherwise a call if `functionDict` has it and `(` follows, else "Invalid Function call"; otherwise "Undefined variable" with its line |
| GrammarProps.VariableIdentifier | parser.py:384-386 | a name in the variable table is an `IDExpr` of that name |
| GrammarProps.UndefinedIdentifier | parser.py:404-405 | a name in neither table raises "Undefined variable" on its line |
| GrammarProps.FunctionIdentifier | parser.py:387-403 | a function name not followed by `(` raises "Invalid Function call"; a successful result is a call of that name |
| GrammarProps.CallNamed | parser.py:389-401 | a call that succeeds yields a `FunctionExpr` of that name |
| GrammarProps.CallArgsNamed | parser.py:394-401 | the argument loop yields a call of that name whose arguments begin with those collected so far, in order (by induction) |
| GrammarProps.CallAfterParen | parser.py:387-390 | a function name followed by `(` starts its argument list after the `(` |
| GrammarProps.EmptyCallLeavesParen | parser.py:392-393 | `f()` is the call with no arguments and leaves its `)` as the look-ahead |
| GrammarProps.UnclosedCallRejected | parser.py:394-433 | `f(x` followed by neither `,` nor `)` falls out of the identifier branch and raises "ERROR: Unexpected token" on that token |
| StatementProps.AssignmentToUndeclared | parser.py:176-194 | assigning to a name `variableDict` lacks raises "Assignment of an undeclared variable" on its line |
| StatementProps.AssignmentWithoutEquals | parser.py:180-183 | a declared name not followed by `=` is consumed and the statement is None |
| StatementProps.AssignmentRecords | parser.py:176-194 | `id = e ;` yields `Assignment(IDExpr(id), e)`, consumes the `;` and records (type, e) for `id` and nothing else; without the `;` it raises "Missing Semi-colon" |
| StatementProps.AssignTailCases | parser.py:186-192 | the recorded type is the pair's type, or the first character of a bare type string; an empty one raises IndexError |
| StatementProps.NoStatementEndsList | parser.py:111-142 | a look-ahead that starts no statement ends the list at once, consuming nothing (the converse is the contract of `Grammar.StatementsFrom`) |
| StatementProps.BlockLoopsWhenStuck | parser.py:163-168 | a block whose look-ahead is neither `}` nor a statement's start never ends (the converse is the contract of `Grammar.BlockFrom`) |
| StatementProps.BlockAppendsList | parser.py:163-166 | each block iteration appends the whole statement list as one element |
| StatementProps.BlockEnds | parser.py:169-171 | at `}` the block is the lists collected so far and the `}` is consumed |
| StatementProps.MissingParenEndsList | parser.py:196-260 | `if`, `while` or `print` without `(` consumes the keyword, is None and ends the statement list |
| StatementProps.PrintLeavesSemicolon | parser.py:239-260 | `print(x)` ends at its `)`: the token after it, such as `;`, is left as the look-ahead |
| StatementProps.FirstParamBare | parser.py:65-73 | the first parameter is entered as its bare type string |
| StatementProps.LaterParamSlot | parser.py:74-81 | each later parameter is entered as (type, None) |
| StatementProps.DeclarationSlot | parser.py:95-107 | a declaration is entered as (type, None) and stops at its `;` |
| StatementProps.DuplicateFunctionRejected | parser.py:34-39 | a name already in `functionDict` raises "Function Already Declared" after the type and name |
| StatementProps.FunctionRegisteredFirst | parser.py:38-44 | a new name is registered before the parameters and body are parsed, so the body can call it |
| StatementProps.FunctionDefinitionNamed | parser.py:30-55 | a parsed definition has its type and is named by an identifier absent from the function table before and present after |
| StatementProps.ProgramKeepsFunctions | parser.py:15-28 | the program loop keeps its earlier functions in order and never adds a second function of the same name (by induction) |
| StatementProps.PartialFunctionDropped | parser.py:19-28 | running out of tokens ends the loop with `Program(funcs)` of the functions completed so far, and drops a function cut off in the middle |
| StatementProps.ParseNamesDistinct | parser.py:15-28 | a parsed program's functions have pairwise different names and StopIteration never escapes |
| Ast.RenderExpr | ast.py:87-134 | `str(e)` is text exactly when the tree has no literal or call node; never IndexError |
| Ast.RenderedParensBalanced | ast.py:94-95 | every rendered expression whose names and operators contain no parentheses has balanced parentheses, and a rendered `BinaryExpr` is wrapped in one pair enclosing all of it |
| Ast.EncloseBinary | ast.py:94-95 | `"(" + l + " " + op + " " + r + ")"` of balanced parts is enclosed by its outer pair |
| Ast.ParamsText | ast.py:27-34 | the parameter text is empty exactly for no parameters, and otherwise starts with the first entry |
| Ast.ParamsSeparators | ast.py:27-34 | an empty list prints as `""`; `n` entries print beginning with the first and with `n - 1` comma separators |
| Ast.RenderDecl | ast.py:42-43 | a declaration's text is two characters longer than its type and name together, starts with the type and a space, and ends with `;` |
| Ast.RenderDeclFields | ast.py:42-43 | a declaration prints as `"t id;"`: the type, one space, the name, and `;` |
| Ast.DeclsTextConcat | ast.py:42-61 | declarations print one after another, in order, with no separator |
| Ast.RenderStmt | ast.py:68-75 | a statement prints exactly when it is an empty statement or an if (`IfStmt.__str__` gives "if "); never IndexError |
| Ast.StmtsText | ast.py:62-63 | a statement list prints exactly when every statement is an empty statement or an if |
| Ast.Header | ast.py:58-59 | the header prints exactly when the function's name prints; it starts with the type and a space and ends with `{` |
| Ast.RenderFunctionDef | ast.py:58-65 | a function prints exactly when its name and statements print; the text starts with `"t "` and ends with `}` |
| Ast.RenderProgram | ast.py:83-84 | printing a program fails with IndexError exactly when it has no function |
| Ast.ProgramShowsFirst | ast.py:83-84 | functions after the first never change a program's text |
| Ast.Eval | ast.py:106-137 | `eval` of a tree of prefix operators over an integer literal is the literal negated once per operator, whatever the operator |
| Ast.NewIntLit | ast.py:130-131 | the constructor succeeds exactly when `int()` accepts the text, and then holds the parsed value |
| Ast.TypeOf | ast.py:123-142 | `typeof` is defined exactly on identifiers and integer literals, and is `int` exactly for an integer literal |
| Ast.IntLitRoundTrip | ast.py:130-142 | an integer literal built from `str(i)` holds `i`, evaluates to `i`, has type `int` and prints as `str(i)` |
| Numerals.ParseIntString | ast.py:130-134 | `int(str(i)) == i` |

## Left out

- The lexer's token generator (lexer.py:55-115) is not modelled. The
  parser takes any finite token sequence. The generator as written never
  yields a `Keyword` token, but the parser's keyword branches are modelled
  as written.
- Opening the source file and `sys.exit` in the lexer's constructor, the
  `__main__` drivers of all three files, and `print("Done")` in `program`:
  console and file I/O. `program` returns its `Program`.
- Evaluation semantics: `IDExpr.eval` and `typeof` are stubs in the source.
  Only `IntLitExpr.eval`, `UnaryOp.eval` and the two `typeof` results are
  modelled.
- `FloatLitExpr` and float values: floating point. The parser keeps only a
  literal's lexeme and its type tag.
- `SLUCSyntaxError.__str__`: an error is its message.
- The default `repr` Python prints for a node class without `__str__`. It
  is address-dependent, so it is modelled by the class name (`NoStr`).
  One such node makes the whole enclosing rendering `NoStr`, since the
  surrounding text then depends on an address. For example, a function
  whose body holds `return f(x);` has no modelled text.
- `int()` on texts outside the decimal-literal form, such as whitespace or
  other bases: only a sign, digits and single underscores are read.
- The `None` half of the `(t, None)` pairs in `functionDict`: it is never
  read, so the table maps a name to its type.
- GrammarProps.ProductBindsTighter: states precedence for one-token
  operands (`SimpleAt`: declared variables and literals). Operands that
  are calls or parenthesized or prefixed expressions are not covered, here
  and in each lemma listed next.
- GrammarProps.AdditionGroupsLeft: needs one-token operands (`SimpleAt`), like ProductBindsTighter.
- GrammarProps.TermGroupsLeft: needs one-token operands (`SimpleAt`), like ProductBindsTighter.
- GrammarProps.ConjunctionGroupsLeft: needs one-token operands (`SimpleAt`), like ProductBindsTighter.
- GrammarProps.ExpressionGroupsLeft: needs one-token operands (`SimpleAt`), like ProductBindsTighter.
- GrammarProps.RelationOfOperands: needs one-token operands (`SimpleAt`), like ProductBindsTighter.
- GrammarProps.EqualityOfOperands: needs one-token operands (`SimpleAt`), like ProductBindsTighter.
- GrammarProps.ComparisonDoesNotChain: needs one-token operands (`SimpleAt`), like ProductBindsTighter.
- GrammarProps.EqualityDoesNotChain: needs one-token operands (`SimpleAt`), like ProductBindsTighter.
- GrammarProps.ChainedComparisonRejected: needs one-token operands
  (`SimpleAt`), like ProductBindsTighter.
- The node classes `ReturnStmt`, `Block`, `Assignment`, `WhileStmt`,
  `PrintStmt`, `LitExpr` and `FunctionExpr` are not defined in `ast.py`.
  The source as written therefore raises NameError the first time the
  parser builds one. The model treats them as plain constructors whose
  fields are the arguments at the parser's call sites.
- Python's recursion limit: deeply nested parentheses, calls,
  blocks or `if`/`while` bodies raise RecursionError in the source. The
  model has no depth bound and parses them.
- Ast.RenderedParensBalanced: requires that no identifier and no operator
  string in the tree contains a parenthesis. Parser-built trees meet this,
  but the model does not derive it from the lexer.
- Ast.ParamsSeparators: requires that no type or name lexeme contains a
  comma. The lexer's identifier and type tokens never do, but the model
  does not derive this from the lexer.
- StatementProps.PrintLeavesSemicolon: covers a print statement with one
  argument. Longer argument lists go through the same `,`-loop
  (`Grammar.PrintTail`).
