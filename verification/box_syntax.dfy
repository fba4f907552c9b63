/**
 * Tokens and the boxed syntax tree of the older front end
 * (src/lang/parsing/parser.rs and src/lang/execution/interpreter.rs). The
 * token and tree declarations of that generation are not part of this
 * model; their shape is the one the parser builds and the interpreter
 * matches on.
 */
module BoxSyntax {
  import opened Wrappers

  /** The token kinds the parser and the interpreter of this generation use. */
  datatype TokenType =
    | LeftParen | RightParen | LeftBrace | RightBrace | Comma | Semicolon
    | Minus | Plus | Slash | Star
    | Bang | BangEqual | Equal | EqualEqual
    | Greater | GreaterEqual | Less | LessEqual
    | Identifier | Str | Num
    | And | Or | Else | False | True | Nil | Fun | For | If | While | Loop
    | Break | Continue | Return | Var
    | Eof

  /** A literal carried by a token; numbers are abstracted to `real`. */
  datatype LiteralValue = Str(s: string) | Num(n: real) | Bool(b: bool) | Nil

  /** A token: its kind, the source text, the literal it denotes and its line. */
  datatype Token = Token(tokType: TokenType, lexeme: Option<string>, literal: Option<LiteralValue>, line: nat)

  /** `Expr`; every `BExpr` box becomes a plain subtree. */
  datatype Expr =
    | Binary(op: Token, left: Expr, right: Expr)
    | Grouping(expr: Expr)
    | Literal(lit: LiteralValue)
    | Unary(op: Token, operand: Expr)
    | Variable(name: Token)
    | Assignment(name: Token, value: Expr)
    | Logical(left: Expr, op: Token, right: Expr)
    | Call(callee: Expr, paren: Token, args: seq<Expr>)

  /** `Stmt`; a function's body is the statement list of its block. */
  datatype Stmt =
    | Expression(expr: Expr)
    | Declaration(name: Token, init: Expr)
    | Block(stmts: seq<Stmt>)
    | If(condition: Expr, thenBranch: Stmt, elseBranch: Option<Stmt>)
    | Loop(guard: Option<Expr>, body: Stmt, post: Option<Stmt>)
    | Break(keyword: Token)
    | Continue(keyword: Token)
    | Return(keyword: Token, result: Option<Expr>)
    | Function(name: Token, params: seq<Token>, funBody: seq<Stmt>)
}
