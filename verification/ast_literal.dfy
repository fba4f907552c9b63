/** Literal values of the arena AST and the arena ids (server/src/lang/ast/mod.rs). */
module AstLiteral {
  import opened Wrappers

  /** Index of an expression in the parser arena. */
  type ExprId = nat

  /** Index of a statement in the parser arena. */
  type StmtId = nat

  /** A literal value; `Num` abstracts the source's `f64` to a real number. */
  datatype Literal =
    | Str(s: string)
    | Num(n: real)
    | Bool(b: bool)
    | Undefined
    | Object(fields: map<string, ExprId>)
    | Array(items: seq<ExprId>)
    | NaN
    | Null

  /** `Literal::as_str`: the text of a string literal, and nothing for every other literal. */
  function AsStr(l: Literal): (r: Option<string>)
    ensures r.Some? <==> l.Str?
    ensures r.Some? ==> l == Str(r.value)
  {
    match l
    case Str(s) => Some(s)
    case _ => None
  }
}
