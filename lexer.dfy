/** The tokens the parser consumes: the token kinds of the SLU-C lexer and
    the `(kind, lexeme, line)` triple its generator yields. How the lexer
    splits source text into tokens is not part of this model. */
module Lexer {

  import opened Options

  /** One constructor per kind constant of the lexer class. */
  datatype Kind =
    | IntLit | FloatLit | StringLit | Id | Keyword
    | Or | And | Eq | Neq | Lt | Lte | Gt | Gte | Assign
    | Plus | Minus | Mult | Div | Mod | Fact
    | Semi | Comma | LBrace | RBrace | LParen | RParen

  datatype Token = Token(kind: Kind, lexeme: string, line: nat)
}
