/** The abstract syntax tree the parser builds, the analyzer annotates and
    the interpreter and generator walk. The optional annotation fields are
    empty when the parser makes a node and are filled in by the analyzer
    (`setType`, `setVariable`, `setFunction`). */
module Ast {
  import opened Outcomes
  import opened Numbers
  import Env = Environment

  /** The value carried by a literal node: null (written NIL), a Boolean,
      a Character, a String, a BigInteger or a BigDecimal. */
  datatype Lit = Null | Bool(b: bool) | Char(c: char) | Str(s: string) | Int(i: int) | Dec(d: Decimal)

  datatype Expr =
    | Literal(literal: Lit, ty: Option<Env.Type> := None)
    | Group(expression: Expr, ty: Option<Env.Type> := None)
    | Binary(operator: string, left: Expr, right: Expr, ty: Option<Env.Type> := None)
    | Access(receiver: Option<Expr>, name: string)
    | Function(receiver: Option<Expr>, name: string, arguments: seq<Expr>)

  datatype Stmt =
    | Expression(expression: Expr)
    | Declaration(name: string, typeName: Option<string>, initializer: Option<Expr>,
                  variable: Option<Env.Variable> := None)
    | Assignment(receiver: Expr, value: Expr)
    | If(condition: Expr, thenStatements: seq<Stmt>, elseStatements: seq<Stmt>)
    | For(name: string, value: Expr, statements: seq<Stmt>)
    | While(condition: Expr, statements: seq<Stmt>)
    | Return(value: Expr)

  datatype Field = Field(name: string, typeName: Option<string>, value: Option<Expr>,
                         variable: Option<Env.Variable> := None)

  datatype Method = Method(name: string, parameters: seq<string>, parameterTypeNames: seq<string>,
                           returnTypeName: Option<string>, statements: seq<Stmt>,
                           signature: Option<Env.FunctionSig> := None)

  datatype Source = Source(fields: seq<Field>, methods: seq<Method>)
}
