/** The tokens the lexer emits and the parser consumes. Token.java is not
    part of this model; this is its minimal counterpart: a type, the literal
    text and the index of the literal's first character in the input. */
module Tokens {

  datatype TokenType = Identifier | Integer | Decimal | Character | String | Operator

  datatype Token = Token(kind: TokenType, literal: string, index: int)
}
