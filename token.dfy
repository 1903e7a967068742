/** The token alphabet of the calculator language. */
module Tokens {

  /** The 36 lexical categories. Like the enumeration it models, a category is a small
      integer: the enumerators are numbered 0 to 35 in declaration order. */
  newtype TokenType = k: int | 0 <= k < 36

  const LeftParen: TokenType := 0
  const RightParen: TokenType := 1
  const LeftBrace: TokenType := 2
  const RightBrace: TokenType := 3
  const Equal: TokenType := 4
  const Comma: TokenType := 5
  const Minus: TokenType := 6
  const Plus: TokenType := 7
  const Slash: TokenType := 8
  const Star: TokenType := 9
  const Var: TokenType := 10
  const Show: TokenType := 11
  const Hide: TokenType := 12
  const Plot: TokenType := 13
  const Clear: TokenType := 14
  const Exit: TokenType := 15
  const Line: TokenType := 16
  const Clean: TokenType := 17
  const Graph: TokenType := 18
  const Print: TokenType := 19
  const Semicolon: TokenType := 20
  const Integ: TokenType := 21
  const Abs: TokenType := 22
  const Identifier: TokenType := 23
  const Number: TokenType := 24
  const Power: TokenType := 25
  const Int: TokenType := 26
  const Sin: TokenType := 27
  const Cos: TokenType := 28
  const Tan: TokenType := 29
  const Cosec: TokenType := 30
  const Sec: TokenType := 31
  const Cot: TokenType := 32
  const Log: TokenType := 33
  const Error: TokenType := 34
  const Eof: TokenType := 35

  /** A token is an immutable value: its category and the text it was cut from.
      Copies (the parser's `previous()`) are values too, so nothing done later can
      change a token once it exists. */
  datatype Token = Token(kind: TokenType, lexeme: string)

  /** The end-of-input token the lexer appends. */
  const EofToken: Token := Token(Eof, "")

  /** The token the lexer emits for a character it cannot classify. */
  const ErrorToken: Token := Token(Error, "err")
}
