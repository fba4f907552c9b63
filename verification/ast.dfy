/**
 * The arena AST of the SQL-ish language: expressions and statements refer to
 * each other through ids into a `ParserArena` (server/src/lang/ast/mod.rs,
 * stmt.rs and sql.rs). Source spans are not part of this model.
 */
module Ast {
  import opened Wrappers
  import opened Token
  import L = AstLiteral

  type ExprId = L.ExprId
  type StmtId = L.StmtId

  // ---------------------------------------------------------------------------
  // SQL (server/src/lang/ast/sql.rs)

  datatype SqlDistinct = All | Distinct

  datatype SqlJoinType = Left | LeftOuter | Right | Inner

  datatype SqlCompoundOperator = Union | UnionAll | Intersect | Except

  datatype SqlOrdering = Asc | Desc

  datatype SqlExpr = Default(expr: ExprId)

  datatype SqlFrom =
    | TableSubquery(subqueries: seq<SqlTableSubquery>)
    | JoinClause(join: SqlJoinClause)

  datatype SqlProjection =
    | All
    | Complex(expr: SqlExpr, alias: Option<Token>)

  datatype SqlJoinClause =
    | None(subquery: SqlTableSubquery)
    | Join(joins: seq<SqlJoin>)

  /** One `(join type, table, condition)` entry of a join clause. */
  datatype SqlJoin = SqlJoin(joinType: SqlJoinType, subquery: SqlTableSubquery, on: SqlExpr)

  datatype SqlTableSubquery =
    | Simple(namespace: Option<Token>, table: Token, alias: Option<Token>)
    | From(from: SqlFrom)
    | Select(stmt: SqlSelect, alias: Option<Token>)

  datatype SelectCore = SelectCore(
    distinct: SqlDistinct,
    projection: seq<SqlProjection>,
    from: Option<SqlFrom>,
    where: Option<SqlExpr>,
    groupBy: Option<seq<SqlExpr>>,
    having: Option<SqlExpr>)

  /** One `(operator, select core)` part of a compound select. */
  datatype SqlCompound = SqlCompound(op: SqlCompoundOperator, core: SelectCore)

  /** One `(expression, ordering)` entry of an ORDER BY list. */
  datatype SqlOrderItem = SqlOrderItem(expr: SqlExpr, ordering: SqlOrdering)

  datatype SqlSelect = SqlSelect(
    core: SelectCore,
    compound: seq<SqlCompound>,
    orderBy: Option<seq<SqlOrderItem>>,
    limit: Option<SqlExpr>,
    offset: Option<SqlExpr>)

  // ---------------------------------------------------------------------------
  // Expressions and statements

  datatype Expr =
    | Select(query: SqlSelect)
    | Variable(name: Token)
    | Grouping(expr: ExprId)
    | Literal(value: L.Literal, raw: string)
    | Function(fname: Option<Token>, parameters: seq<Token>, body: seq<StmtId>)
    | Binary(left: ExprId, symbol: TokenType, right: ExprId)
    | Unary(symbol: TokenType, expr: ExprId)
    | Assignment(dst: Token, expr: ExprId)
    | Logical(left: ExprId, symbol: TokenType, right: ExprId)
    | Call(callee: ExprId, args: seq<ExprId>)

  datatype Stmt =
    | Program(stmts: seq<StmtId>)
    | Expression(expr: ExprId)
    | Break
    | Continue
    | Block(stmts: seq<StmtId>)
    | Declaration(dst: Token, expr: ExprId)
    | If(condition: ExprId, body: StmtId, elseBranch: Option<StmtId>)
    | Loop(guard: Option<ExprId>, body: StmtId, post: Option<StmtId>)
    | Return(result: Option<ExprId>)

  // ---------------------------------------------------------------------------
  // The arena

  /** Two append-only stores; an id is the position of its node. */
  datatype ParserArena = ParserArena(expressions: seq<Expr>, statements: seq<Stmt>)

  /** `ParserArena::new`. */
  function NewArena(): (a: ParserArena)
    ensures |a.expressions| == 0 && |a.statements| == 0
  {
    ParserArena([], [])
  }

  /** `a` is a later state of `b`'s arena: both stores only grew at the end. */
  predicate Extends(b: ParserArena, a: ParserArena) {
    b.expressions <= a.expressions && b.statements <= a.statements
  }

  /**
   * `ParserArena::expression`: stores `e` under a fresh id. Every older id
   * keeps its node and the statement store is untouched.
   */
  function AddExpression(a: ParserArena, e: Expr): (r: (ParserArena, ExprId))
    ensures r.1 == |a.expressions| && |r.0.expressions| == r.1 + 1
    ensures r.0.expressions[r.1] == e
    ensures forall i | 0 <= i < |a.expressions| :: r.0.expressions[i] == a.expressions[i]
    ensures r.0.statements == a.statements
    ensures Extends(a, r.0)
  {
    (ParserArena(a.expressions + [e], a.statements), |a.expressions|)
  }

  /**
   * `ParserArena::statement`: stores `s` under a fresh id. Every older id
   * keeps its node and the expression store is untouched.
   */
  function AddStatement(a: ParserArena, s: Stmt): (r: (ParserArena, StmtId))
    ensures r.1 == |a.statements| && |r.0.statements| == r.1 + 1
    ensures r.0.statements[r.1] == s
    ensures forall i | 0 <= i < |a.statements| :: r.0.statements[i] == a.statements[i]
    ensures r.0.expressions == a.expressions
    ensures Extends(a, r.0)
  {
    (ParserArena(a.expressions, a.statements + [s]), |a.statements|)
  }

  /** `ParserArena::get_expression`; indexing with a foreign id panics in the source. */
  function GetExpression(a: ParserArena, id: ExprId): Expr
    requires id < |a.expressions|
  {
    a.expressions[id]
  }

  /** `ParserArena::get_statement`; indexing with a foreign id panics in the source. */
  function GetStatement(a: ParserArena, id: StmtId): Stmt
    requires id < |a.statements|
  {
    a.statements[id]
  }

  /** Storing a node and reading its id back gives the node. */
  lemma AddThenGet(a: ParserArena, e: Expr, s: Stmt)
    ensures var (a1, i) := AddExpression(a, e); GetExpression(a1, i) == e
    ensures var (a2, j) := AddStatement(a, s); GetStatement(a2, j) == s
  {
  }

  /** Extension is a preorder, so a chain of allocations keeps every earlier node. */
  lemma ExtendsTransitive(a: ParserArena, b: ParserArena, c: ParserArena)
    requires Extends(a, b) && Extends(b, c)
    ensures Extends(a, c)
  {
  }

  /** An id read in an older arena reads the same node in every extension. */
  lemma ExtendsKeepsNodes(b: ParserArena, a: ParserArena, i: nat, j: nat)
    requires Extends(b, a)
    ensures i < |b.expressions| ==> i < |a.expressions| && GetExpression(a, i) == GetExpression(b, i)
    ensures j < |b.statements| ==> j < |a.statements| && GetStatement(a, j) == GetStatement(b, j)
  {
    if i < |b.expressions| {
      assert b.expressions == a.expressions[..|b.expressions|];
    }
    if j < |b.statements| {
      assert b.statements == a.statements[..|b.statements|];
    }
  }

  // ---------------------------------------------------------------------------
  // Closed arenas: every stored id names an allocated node, and expressions
  // only point to older expressions.

  predicate SqlExprBelow(x: SqlExpr, bound: nat) {
    x.expr < bound
  }

  predicate OptSqlExprBelow(x: Option<SqlExpr>, bound: nat) {
    x.Some? ==> SqlExprBelow(x.value, bound)
  }

  predicate ProjectionBelow(p: SqlProjection, bound: nat) {
    p.Complex? ==> SqlExprBelow(p.expr, bound)
  }

  predicate SelectBelow(q: SqlSelect, bound: nat)
    decreases q, 3
  {
    && CoreBelow(q.core, bound)
    && (forall k | 0 <= k < |q.compound| :: CoreBelow(q.compound[k].core, bound))
    && (q.orderBy.Some? ==> forall k | 0 <= k < |q.orderBy.value| :: SqlExprBelow(q.orderBy.value[k].expr, bound))
    && OptSqlExprBelow(q.limit, bound)
    && OptSqlExprBelow(q.offset, bound)
  }

  predicate CoreBelow(c: SelectCore, bound: nat)
    decreases c, 2
  {
    && (forall k | 0 <= k < |c.projection| :: ProjectionBelow(c.projection[k], bound))
    && (c.from.Some? ==> FromBelow(c.from.value, bound))
    && OptSqlExprBelow(c.where, bound)
    && (c.groupBy.Some? ==> forall k | 0 <= k < |c.groupBy.value| :: SqlExprBelow(c.groupBy.value[k], bound))
    && OptSqlExprBelow(c.having, bound)
  }

  predicate FromBelow(f: SqlFrom, bound: nat)
    decreases f, 1
  {
    match f
    case TableSubquery(subs) => forall k | 0 <= k < |subs| :: SubqueryBelow(subs[k], bound)
    case JoinClause(j) =>
      match j
      case None(t) => SubqueryBelow(t, bound)
      case Join(joins) =>
        forall k | 0 <= k < |joins| :: SubqueryBelow(joins[k].subquery, bound) && SqlExprBelow(joins[k].on, bound)
  }

  predicate SubqueryBelow(t: SqlTableSubquery, bound: nat)
    decreases t, 0
  {
    match t
    case Simple(_, _, _) => true
    case From(f) => FromBelow(f, bound)
    case Select(q, _) => SelectBelow(q, bound)
  }

  /** Every expression id in `e` is below `bound` and every statement id below `stmtBound`. */
  predicate ExprBelow(e: Expr, bound: nat, stmtBound: nat) {
    match e
    case Select(q) => SelectBelow(q, bound)
    case Variable(_) => true
    case Grouping(x) => x < bound
    case Literal(_, _) => true
    case Function(_, _, body) => forall k | 0 <= k < |body| :: body[k] < stmtBound
    case Binary(l, _, r) => l < bound && r < bound
    case Unary(_, x) => x < bound
    case Assignment(_, x) => x < bound
    case Logical(l, _, r) => l < bound && r < bound
    case Call(c, args) => c < bound && forall k | 0 <= k < |args| :: args[k] < bound
  }

  /** Every statement id in `s` is below `bound` and every expression id below `exprBound`. */
  predicate StmtBelow(s: Stmt, bound: nat, exprBound: nat) {
    match s
    case Program(ss) => forall k | 0 <= k < |ss| :: ss[k] < bound
    case Expression(x) => x < exprBound
    case Break => true
    case Continue => true
    case Block(ss) => forall k | 0 <= k < |ss| :: ss[k] < bound
    case Declaration(_, x) => x < exprBound
    case If(c, b, e) => c < exprBound && b < bound && (e.Some? ==> e.value < bound)
    case Loop(c, b, p) => (c.Some? ==> c.value < exprBound) && b < bound && (p.Some? ==> p.value < bound)
    case Return(x) => x.Some? ==> x.value < exprBound
  }

  /**
   * A closed arena: reading any id stored in it never fails, and following
   * expression or statement ids always leads to an older node of the same kind.
   */
  predicate Closed(a: ParserArena) {
    && (forall i | 0 <= i < |a.expressions| :: ExprBelow(a.expressions[i], i, |a.statements|))
    && (forall j | 0 <= j < |a.statements| :: StmtBelow(a.statements[j], j, |a.expressions|))
  }

  lemma SelectBelowMono(q: SqlSelect, b: nat, b': nat)
    requires SelectBelow(q, b) && b <= b'
    ensures SelectBelow(q, b')
    decreases q, 3
  {
    CoreBelowMono(q.core, b, b');
    forall k | 0 <= k < |q.compound| ensures CoreBelow(q.compound[k].core, b') {
      CoreBelowMono(q.compound[k].core, b, b');
    }
  }

  lemma CoreBelowMono(c: SelectCore, b: nat, b': nat)
    requires CoreBelow(c, b) && b <= b'
    ensures CoreBelow(c, b')
    decreases c, 2
  {
    if c.from.Some? {
      FromBelowMono(c.from.value, b, b');
    }
  }

  lemma FromBelowMono(f: SqlFrom, b: nat, b': nat)
    requires FromBelow(f, b) && b <= b'
    ensures FromBelow(f, b')
    decreases f, 1
  {
    match f
    case TableSubquery(subs) =>
      forall k | 0 <= k < |subs| ensures SubqueryBelow(subs[k], b') {
        SubqueryBelowMono(subs[k], b, b');
      }
    case JoinClause(j) =>
      match j
      case None(t) => SubqueryBelowMono(t, b, b');
      case Join(joins) =>
        forall k | 0 <= k < |joins| ensures SubqueryBelow(joins[k].subquery, b') {
          SubqueryBelowMono(joins[k].subquery, b, b');
        }
  }

  lemma SubqueryBelowMono(t: SqlTableSubquery, b: nat, b': nat)
    requires SubqueryBelow(t, b) && b <= b'
    ensures SubqueryBelow(t, b')
    decreases t, 0
  {
    match t
    case Simple(_, _, _) =>
    case From(f) => FromBelowMono(f, b, b');
    case Select(q, _) => SelectBelowMono(q, b, b');
  }

  lemma ExprBelowMono(e: Expr, b: nat, sb: nat, b': nat, sb': nat)
    requires ExprBelow(e, b, sb) && b <= b' && sb <= sb'
    ensures ExprBelow(e, b', sb')
  {
    if e.Select? {
      SelectBelowMono(e.query, b, b');
    }
  }

  /** Appending a node whose ids are all allocated keeps the arena closed. */
  lemma AddExpressionClosed(a: ParserArena, e: Expr)
    requires Closed(a) && ExprBelow(e, |a.expressions|, |a.statements|)
    ensures Closed(AddExpression(a, e).0)
  {
    var a' := AddExpression(a, e).0;
    forall i | 0 <= i < |a'.expressions| ensures ExprBelow(a'.expressions[i], i, |a'.statements|) {
      if i < |a.expressions| {
        assert a'.expressions[i] == a.expressions[i];
      }
    }
    forall j | 0 <= j < |a'.statements| ensures StmtBelow(a'.statements[j], j, |a'.expressions|) {
      assert StmtBelow(a.statements[j], j, |a.expressions|);
    }
  }

  /** Appending a statement whose ids are all allocated keeps the arena closed. */
  lemma AddStatementClosed(a: ParserArena, s: Stmt)
    requires Closed(a) && StmtBelow(s, |a.statements|, |a.expressions|)
    ensures Closed(AddStatement(a, s).0)
  {
    var a' := AddStatement(a, s).0;
    forall i | 0 <= i < |a'.expressions| ensures ExprBelow(a'.expressions[i], i, |a'.statements|) {
      ExprBelowMono(a.expressions[i], i, |a.statements|, i, |a'.statements|);
    }
    forall j | 0 <= j < |a'.statements| ensures StmtBelow(a'.statements[j], j, |a'.expressions|) {
      if j < |a.statements| {
        assert a'.statements[j] == a.statements[j];
      }
    }
  }
}
