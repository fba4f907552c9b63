/**
 * The variable resolver (src/runtime/resolver.rs): a walk over the
 * arena-allocated syntax tree of its generation that keeps a stack of block
 * scopes, each mapping a name to whether its declaration has finished, and
 * records for each variable read or assignment the index of the scope that
 * binds the name.
 *
 * The arena of this generation (`crate::lang::ast`) is not part of this
 * model beyond what the resolver reads of it: the node kinds below, and the
 * ids that link them. The `println!` tracing is left out, but the `unwrap`
 * calls inside it are kept, since they can panic.
 */
module Resolver {
  import opened Wrappers
  import BoxSyntax

  /** The token of this generation: its lexeme and line are all the resolver reads. */
  type Token = BoxSyntax.Token

  type ExprId = nat
  type StmtId = nat

  /** The expression nodes, with the parts the resolver does not read left out. */
  datatype Expr =
    | Select
    | Variable(name: Token)
    | Grouping(expr: ExprId)
    | Literal
    | Binary(left: ExprId, right: ExprId)
    | Unary(expr: ExprId)
    | Assignment(name: Token, value: ExprId)
    | Logical(left: ExprId, right: ExprId)
    | Call(callee: ExprId, args: seq<ExprId>)

  /** The statement nodes, with the parts the resolver does not read left out. */
  datatype Stmt =
    | Break
    | Continue
    | Expression(expr: ExprId)
    | Declaration(name: Token, init: ExprId)
    | Block(stmts: seq<StmtId>)
    | If(condition: ExprId, body: StmtId, elseBranch: Option<StmtId>)
    | Loop(guard: Option<ExprId>, body: StmtId, post: Option<StmtId>)
    | Return(result: Option<ExprId>)
    | Function(name: Token, params: seq<Token>, funBody: seq<StmtId>)

  datatype Arena = Arena(exprs: seq<Expr>, stmts: seq<Stmt>)

  /** Every child id of an expression is an earlier expression. */
  predicate ExprNested(e: Expr, id: nat) {
    match e
    case Grouping(x) => x < id
    case Unary(x) => x < id
    case Binary(l, r) => l < id && r < id
    case Logical(l, r) => l < id && r < id
    case Assignment(_, v) => v < id
    case Call(c, args) => c < id && forall i | 0 <= i < |args| :: args[i] < id
    case _ => true
  }

  /** Every child id of a statement is an earlier statement or an existing expression. */
  predicate StmtNested(s: Stmt, id: nat, exprCount: nat) {
    match s
    case Expression(e) => e < exprCount
    case Declaration(_, e) => e < exprCount
    case Block(ss) => forall i | 0 <= i < |ss| :: ss[i] < id
    case If(c, b, e) => c < exprCount && b < id && (e.Some? ==> e.value < id)
    case Loop(c, b, p) => (c.Some? ==> c.value < exprCount) && b < id && (p.Some? ==> p.value < id)
    case Return(e) => e.Some? ==> e.value < exprCount
    case Function(_, _, body) => forall i | 0 <= i < |body| :: body[i] < id
    case _ => true
  }

  /**
   * The arena a parser builds: children are allocated before their parents,
   * so following ids always reaches a leaf.
   */
  predicate Nested(a: Arena) {
    && (forall i | 0 <= i < |a.exprs| :: ExprNested(a.exprs[i], i))
    && (forall j | 0 <= j < |a.stmts| :: StmtNested(a.stmts[j], j, |a.exprs|))
  }

  /** `AsWritten` follows the source; `Corrected` skips the `unwrap`s on absent parts. */
  datatype Mode = AsWritten | Corrected

  /** `runtime_err` followed by `exit(1)`, and the panics of `unwrap`. */
  datatype Failure = Fatal(message: string, line: nat) | Panicked

  /** The resolver's state: the scopes (the last one innermost) and the resolved locals. */
  datatype State = State(scopes: seq<map<string, bool>>, locals: map<ExprId, nat>)

  const OwnInitializerMessage := "Can't read local variable in its own initializer."

  // ---------------------------------------------------------------------------
  // Scopes (resolver.rs:15-77)

  /** `new`: no scope and no resolved local. */
  function NewState(): (s: State)
    ensures |s.scopes| == 0 && |s.locals| == 0
  {
    State([], map[])
  }

  /** `get_distance`: the scope index recorded for an expression, if any. */
  function GetDistance(s: State, id: ExprId): (r: Option<nat>)
    ensures r.Some? <==> id in s.locals
    ensures r.Some? ==> r.value == s.locals[id]
  {
    if id in s.locals then Some(s.locals[id]) else None
  }

  /** `begin_scope`: pushes an empty scope. */
  function BeginScope(s: State): (r: State)
    ensures r.scopes == s.scopes + [map[]] && r.locals == s.locals
  {
    s.(scopes := s.scopes + [map[]])
  }

  /** `end_scope`: pops the innermost scope; with no scope it does nothing. */
  function EndScope(s: State): (r: State)
    ensures |s.scopes| > 0 ==> r.scopes == s.scopes[..|s.scopes| - 1]
    ensures |s.scopes| == 0 ==> r == s
    ensures r.locals == s.locals
  {
    if |s.scopes| == 0 then s else s.(scopes := s.scopes[..|s.scopes| - 1])
  }

  /** Ending a scope undoes beginning one. */
  lemma EndUndoesBegin(s: State)
    ensures EndScope(BeginScope(s)) == s
  {
    assert (s.scopes + [map[]])[..|s.scopes|] == s.scopes;
  }

  /**
   * `declare` (`done == false`) and `define` (`done == true`): mark `name`
   * in the innermost scope. With no scope nothing happens and the name is
   * not read; otherwise an absent lexeme panics.
   */
  function Mark(s: State, name: Token, done: bool): (r: Result<State, Failure>)
    ensures |s.scopes| == 0 ==> r == Ok(s)
    ensures |s.scopes| > 0 ==> (r.Err? <==> name.lexeme.None?)
    ensures r.Err? ==> r.error == Panicked
    ensures r.Ok? && |s.scopes| > 0 ==>
      var n := |s.scopes|;
      && |r.value.scopes| == n
      && r.value.scopes[..n - 1] == s.scopes[..n - 1]
      && r.value.scopes[n - 1] == s.scopes[n - 1][name.lexeme.value := done]
      && r.value.locals == s.locals
  {
    if |s.scopes| == 0 then Ok(s)
    else if name.lexeme.None? then Err(Panicked)
    else
      var n := |s.scopes|;
      Ok(s.(scopes := s.scopes[n - 1 := s.scopes[n - 1][name.lexeme.value := done]]))
  }

  /** The innermost scope, searching from the last one down, that holds `name`. */
  function Innermost(scopes: seq<map<string, bool>>, name: string): (r: Option<nat>)
    ensures r.Some? ==> r.value < |scopes| && name in scopes[r.value]
    ensures r.Some? ==> forall j | r.value < j < |scopes| :: name !in scopes[j]
    ensures r.None? ==> forall j | 0 <= j < |scopes| :: name !in scopes[j]
    decreases |scopes|
  {
    if |scopes| == 0 then None
    else if name in scopes[|scopes| - 1] then Some(|scopes| - 1)
    else
      var r := Innermost(scopes[..|scopes| - 1], name);
      assert forall j | 0 <= j < |scopes| - 1 :: scopes[..|scopes| - 1][j] == scopes[j];
      r
  }

  /**
   * `resolve_local`: records for `id` the index of the innermost scope that
   * binds the name; when none does, the state is unchanged. The lexeme is
   * unwrapped in the loop, so it is read only when there is a scope.
   */
  function ResolveLocal(s: State, id: ExprId, name: Token): (r: Result<State, Failure>)
    ensures r.Err? <==> |s.scopes| > 0 && name.lexeme.None?
    ensures r.Err? ==> r.error == Panicked
    ensures r.Ok? ==> r.value.scopes == s.scopes
    ensures r.Ok? && |s.scopes| == 0 ==> r.value == s
    ensures r.Ok? && |s.scopes| > 0 ==>
      var i := Innermost(s.scopes, name.lexeme.value);
      r.value.locals == if i.Some? then s.locals[id := i.value] else s.locals
  {
    if |s.scopes| == 0 then Ok(s)
    else if name.lexeme.None? then Err(Panicked)
    else
      match Innermost(s.scopes, name.lexeme.value)
      case Some(i) => Ok(s.(locals := s.locals[id := i]))
      case None => Ok(s)
  }

  /** After resolving a read of a name bound in some scope, `get_distance` finds that scope. */
  lemma ResolvedDistance(s: State, id: ExprId, name: Token, i: nat)
    requires name.lexeme.Some? && i < |s.scopes| && name.lexeme.value in s.scopes[i]
    requires forall j | i < j < |s.scopes| :: name.lexeme.value !in s.scopes[j]
    ensures ResolveLocal(s, id, name).Ok?
    ensures GetDistance(ResolveLocal(s, id, name).value, id) == Some(i)
  {
  }

  // ---------------------------------------------------------------------------
  // The walk (resolver.rs:36-48, 79-173)

  /** What the walk may change: locals only by adding or updating entries. */
  predicate Grows(s: State, r: State) {
    s.locals.Keys <= r.locals.Keys
  }

  /** What a statement may change of the scopes: the innermost one only. */
  predicate OuterKept(s: State, r: State) {
    && |r.scopes| == |s.scopes|
    && (|s.scopes| > 0 ==> r.scopes[..|s.scopes| - 1] == s.scopes[..|s.scopes| - 1])
  }

  /**
   * `visit_expr`: subexpressions left to right; a variable read is checked
   * against its own initializer, then resolved, and so is an assignment
   * after its value.
   */
  function ResolveExpr(mode: Mode, a: Arena, s: State, id: ExprId): (r: Result<State, Failure>)
    requires Nested(a) && id < |a.exprs|
    ensures r.Ok? ==> r.value.scopes == s.scopes && Grows(s, r.value)
    decreases 0, id, 1, 0
  {
    match a.exprs[id]
    case Literal => Ok(s)
    case Select => Ok(s)
    case Grouping(x) => ResolveExpr(mode, a, s, x)
    case Unary(x) => ResolveExpr(mode, a, s, x)
    case Binary(l, r) =>
      var s1 :- ResolveExpr(mode, a, s, l);
      ResolveExpr(mode, a, s1, r)
    case Logical(l, r) =>
      var s1 :- ResolveExpr(mode, a, s, l);
      ResolveExpr(mode, a, s1, r)
    case Variable(name) => ResolveVariable(mode, s, id, name)
    case Assignment(name, v) =>
      var s1 :- ResolveExpr(mode, a, s, v);
      if name.lexeme.None? then Err(Panicked) else ResolveLocal(s1, id, name)
    case Call(callee, args) =>
      var s1 :- ResolveExpr(mode, a, s, callee);
      ResolveExprs(mode, a, s1, args, id, 0)
  }

  /**
   * The `Variable` case: `scopes.last().unwrap()` comes before the test
   * for an empty stack, so as written a read with no scope open panics;
   * `Corrected` skips the check there, and `resolve_local` then does
   * nothing. A name declared but not yet defined in the innermost scope is
   * a fatal error.
   */
  function ResolveVariable(mode: Mode, s: State, id: ExprId, name: Token): (r: Result<State, Failure>)
    ensures |s.scopes| == 0 ==> r == if mode == AsWritten then Err(Panicked) else Ok(s)
    ensures |s.scopes| > 0 && name.lexeme.None? ==> r == Err(Panicked)
    ensures |s.scopes| > 0 && name.lexeme.Some? ==>
      var top := s.scopes[|s.scopes| - 1];
      var own := name.lexeme.value in top && !top[name.lexeme.value];
      && (own ==> r == Err(Fatal(OwnInitializerMessage, name.line)))
      && (!own ==> r == ResolveLocal(s, id, name))
    ensures r.Ok? ==> r.value.scopes == s.scopes && Grows(s, r.value)
  {
    if |s.scopes| == 0 then
      if mode == AsWritten then Err(Panicked) else Ok(s)
    else if name.lexeme.None? then Err(Panicked)
    else
      var top := s.scopes[|s.scopes| - 1];
      if name.lexeme.value in top && !top[name.lexeme.value] then Err(Fatal(OwnInitializerMessage, name.line))
      else ResolveLocal(s, id, name)
  }

  /** The arguments of a call, from index `i` on, in order. */
  function ResolveExprs(mode: Mode, a: Arena, s: State, ids: seq<ExprId>, bound: nat, i: nat): (r: Result<State, Failure>)
    requires Nested(a) && bound <= |a.exprs| && i <= |ids|
    requires forall k | 0 <= k < |ids| :: ids[k] < bound
    ensures r.Ok? ==> r.value.scopes == s.scopes && Grows(s, r.value)
    decreases 0, bound, 0, |ids| - i
  {
    if i == |ids| then Ok(s)
    else
      var s1 :- ResolveExpr(mode, a, s, ids[i]);
      ResolveExprs(mode, a, s1, ids, bound, i + 1)
  }

  /** An optional part of a statement: as written it is unwrapped, so an absent one panics. */
  function Required(mode: Mode, part: Option<nat>): (r: Result<Option<nat>, Failure>)
    ensures part.Some? ==> r == Ok(part)
    ensures part.None? ==> r == if mode == AsWritten then Err(Panicked) else Ok(None)
  {
    if part.None? && mode == AsWritten then Err(Panicked) else Ok(part)
  }

  /**
   * `visit_stmt`. A declaration is declared, its initializer resolved, then
   * defined; a block and a function body get a scope of their own, the
   * function's name is bound outside it and its parameters inside it.
   */
  function ResolveStmt(mode: Mode, a: Arena, s: State, id: StmtId): (r: Result<State, Failure>)
    requires Nested(a) && id < |a.stmts|
    ensures r.Ok? ==> OuterKept(s, r.value) && Grows(s, r.value)
    decreases 1, id, 1, 0
  {
    match a.stmts[id]
    case Break => Ok(s)
    case Continue => Ok(s)
    case Expression(e) => ResolveExpr(mode, a, s, e)
    case Declaration(name, init) =>
      var s1 :- Mark(s, name, false);
      var s2 :- ResolveExpr(mode, a, s1, init);
      Mark(s2, name, true)
    case Block(stmts) => ResolveScoped(mode, a, s, [], stmts, id)
    case If(_, _, _) => ResolveIf(mode, a, s, id)
    case Loop(_, _, _) => ResolveLoop(mode, a, s, id)
    case Return(e) => if e.Some? then ResolveExpr(mode, a, s, e.value) else Ok(s)
    case Function(name, params, body) =>
      var s1 :- Mark(s, name, false);
      // `declare` succeeded, so the lexeme is there for `define`.
      var s2 := Mark(s1, name, true).value;
      ResolveScoped(mode, a, s2, params, body, id)
  }

  /** The `If` case: the condition, the branch, then the `else` branch, which as written is unwrapped. */
  function ResolveIf(mode: Mode, a: Arena, s: State, id: StmtId): (r: Result<State, Failure>)
    requires Nested(a) && id < |a.stmts| && a.stmts[id].If?
    ensures r.Ok? ==> OuterKept(s, r.value) && Grows(s, r.value)
    ensures mode == AsWritten && a.stmts[id].elseBranch.None? ==> r.Err?
    decreases 1, id, 0, 0
  {
    var st := a.stmts[id];
    var s1 :- ResolveExpr(mode, a, s, st.condition);
    var s2 :- ResolveStmt(mode, a, s1, st.body);
    var alt' :- Required(mode, st.elseBranch);
    if alt'.Some? then ResolveStmt(mode, a, s2, alt'.value) else Ok(s2)
  }

  /**
   * The `Loop` case: the condition, the body, then the post statement; as
   * written both optional parts are unwrapped.
   */
  function ResolveLoop(mode: Mode, a: Arena, s: State, id: StmtId): (r: Result<State, Failure>)
    requires Nested(a) && id < |a.stmts| && a.stmts[id].Loop?
    ensures r.Ok? ==> OuterKept(s, r.value) && Grows(s, r.value)
    ensures mode == AsWritten && (a.stmts[id].guard.None? || a.stmts[id].post.None?) ==> r.Err?
    decreases 1, id, 0, 0
  {
    var st := a.stmts[id];
    var c' :- Required(mode, st.guard);
    var s1 :- if c'.Some? then ResolveExpr(mode, a, s, c'.value) else Ok(s);
    var s2 :- ResolveStmt(mode, a, s1, st.body);
    var post' :- Required(mode, st.post);
    if post'.Some? then ResolveStmt(mode, a, s2, post'.value) else Ok(s2)
  }

  /**
   * A block or a function body: a scope of its own, holding the parameters
   * (declared, then defined) and what the statements declare; the scopes
   * outside it come back as they were.
   */
  function ResolveScoped(mode: Mode, a: Arena, s: State, params: seq<Token>, ids: seq<StmtId>, bound: nat): (r: Result<State, Failure>)
    requires Nested(a) && bound <= |a.stmts|
    requires forall k | 0 <= k < |ids| :: ids[k] < bound
    ensures r.Ok? ==> r.value.scopes == s.scopes && Grows(s, r.value)
    decreases 1, bound, 0, |ids| + 1
  {
    var s1 :- DeclareParams(BeginScope(s), params, 0);
    var inner :- ResolveStmts(mode, a, s1, ids, bound, 0);
    assert s1.scopes[..|s.scopes|] == s.scopes;
    Ok(EndScope(inner))
  }

  /** The innermost scope. */
  function TopScope(s: State): map<string, bool>
    requires |s.scopes| > 0
  {
    s.scopes[|s.scopes| - 1]
  }

  /** `name` is declared and defined in `scope`. */
  predicate Defined(scope: map<string, bool>, name: string) {
    name in scope && scope[name]
  }

  /** The parameters of a function, from index `i` on: each declared, then defined. */
  function DeclareParams(s: State, params: seq<Token>, i: nat): (r: Result<State, Failure>)
    requires |s.scopes| > 0 && i <= |params|
    ensures r.Ok? ==> |r.value.scopes| == |s.scopes| && r.value.locals == s.locals
    ensures r.Ok? ==> r.value.scopes[..|s.scopes| - 1] == s.scopes[..|s.scopes| - 1]
    ensures r.Ok? ==> forall x | x in TopScope(s) && TopScope(s)[x] :: Defined(TopScope(r.value), x)
    ensures r.Ok? ==> forall k | i <= k < |params| ::
      params[k].lexeme.Some? && Defined(TopScope(r.value), params[k].lexeme.value)
    ensures r.Err? <==> exists k | i <= k < |params| :: params[k].lexeme.None?
    decreases |params| - i
  {
    if i == |params| then Ok(s)
    else
      var s1 :- Mark(s, params[i], false);
      // `declare` succeeded, so the lexeme is there for `define`.
      var s2 := Mark(s1, params[i], true).value;
      DeclareParams(s2, params, i + 1)
  }

  /** `resolve_stmts`: the statements from index `i` on, in order. */
  function ResolveStmts(mode: Mode, a: Arena, s: State, ids: seq<StmtId>, bound: nat, i: nat): (r: Result<State, Failure>)
    requires Nested(a) && bound <= |a.stmts| && i <= |ids|
    requires forall k | 0 <= k < |ids| :: ids[k] < bound
    ensures r.Ok? ==> OuterKept(s, r.value) && Grows(s, r.value)
    decreases 1, bound, 0, |ids| - i
  {
    if i == |ids| then Ok(s)
    else
      var s1 :- ResolveStmt(mode, a, s, ids[i]);
      ResolveStmts(mode, a, s1, ids, bound, i + 1)
  }

  /** `resolve_stmts` on a whole program, from a fresh resolver. */
  function ResolveProgram(mode: Mode, a: Arena, program: seq<StmtId>): (r: Result<State, Failure>)
    requires Nested(a) && forall k | 0 <= k < |program| :: program[k] < |a.stmts|
    ensures r.Ok? ==> |r.value.scopes| == 0
  {
    ResolveStmts(mode, a, NewState(), program, |a.stmts|, 0)
  }

  // ---------------------------------------------------------------------------
  // Properties of the walk

  /** After a declaration resolves inside a scope, its name is defined in the innermost scope. */
  lemma DeclarationDefines(mode: Mode, a: Arena, s: State, id: StmtId)
    requires Nested(a) && id < |a.stmts| && a.stmts[id].Declaration? && |s.scopes| > 0
    requires ResolveStmt(mode, a, s, id).Ok?
    ensures a.stmts[id].name.lexeme.Some?
    ensures Defined(TopScope(ResolveStmt(mode, a, s, id).value), a.stmts[id].name.lexeme.value)
  {
    var name := a.stmts[id].name;
    var s1 := Mark(s, name, false).value;
    var s2 := ResolveExpr(mode, a, s1, a.stmts[id].init).value;
    assert |s2.scopes| == |s.scopes|;
  }

  /** After a function declaration resolves inside a scope, its name is defined in the innermost scope. */
  lemma FunctionDefines(mode: Mode, a: Arena, s: State, id: StmtId)
    requires Nested(a) && id < |a.stmts| && a.stmts[id].Function? && |s.scopes| > 0
    requires ResolveStmt(mode, a, s, id).Ok?
    ensures a.stmts[id].name.lexeme.Some?
    ensures Defined(TopScope(ResolveStmt(mode, a, s, id).value), a.stmts[id].name.lexeme.value)
  {
    var f := a.stmts[id];
    var s2 := Mark(Mark(s, f.name, false).value, f.name, true).value;
    assert ResolveStmt(mode, a, s, id) == ResolveScoped(mode, a, s2, f.params, f.funBody, id);
  }

  /** A variable read in its own initializer is a fatal error, reported at the read. */
  lemma OwnInitializerIsFatal(mode: Mode, a: Arena, s: State, id: StmtId)
    requires Nested(a) && id < |a.stmts| && a.stmts[id].Declaration? && |s.scopes| > 0
    requires a.stmts[id].name.lexeme.Some?
    requires a.exprs[a.stmts[id].init].Variable?
    requires a.exprs[a.stmts[id].init].name.lexeme == a.stmts[id].name.lexeme
    ensures ResolveStmt(mode, a, s, id) == Err(Fatal(OwnInitializerMessage, a.exprs[a.stmts[id].init].name.line))
  {
    var s1 := Mark(s, a.stmts[id].name, false).value;
    assert TopScope(s1)[a.stmts[id].name.lexeme.value] == false;
  }

  /** The arena of `x;`: a read of a global variable. */
  function GlobalRead(x: Token): (a: Arena)
    ensures Nested(a)
  {
    Arena([Variable(x)], [Expression(0)])
  }

  /** As written, reading a variable with no scope open panics, so a program reading a global does. */
  lemma GlobalReadAsWritten(x: Token)
    ensures ResolveProgram(AsWritten, GlobalRead(x), [0]) == Err(Panicked)
  {
    var a := GlobalRead(x);
    assert ResolveExpr(AsWritten, a, NewState(), 0) == Err(Panicked);
    assert ResolveStmt(AsWritten, a, NewState(), 0) == Err(Panicked);
  }

  /** In `Corrected` mode the read of a global is left to the interpreter. */
  lemma GlobalReadCorrected(x: Token)
    ensures ResolveProgram(Corrected, GlobalRead(x), [0]) == Ok(NewState())
  {
    var a := GlobalRead(x);
    assert ResolveExpr(Corrected, a, NewState(), 0) == Ok(NewState());
    assert ResolveStmt(Corrected, a, NewState(), 0) == Ok(NewState());
    assert ResolveStmts(Corrected, a, NewState(), [0], 1, 1) == Ok(NewState());
  }

  /** The arena of `while (true) break;` (statement 1) and of `if (true) break;` (statement 2). */
  function WhileAndIf(): (a: Arena)
    ensures Nested(a)
  {
    Arena([Literal], [Break, Loop(Some(0), 0, None), If(0, 0, None)])
  }

  /** As written, a `while` loop (no post statement) and an `if` without `else` panic. */
  lemma WhileAndIfAsWritten(s: State)
    ensures ResolveStmt(AsWritten, WhileAndIf(), s, 1) == Err(Panicked)
    ensures ResolveStmt(AsWritten, WhileAndIf(), s, 2) == Err(Panicked)
  {
  }

  /** In `Corrected` mode both resolve and change nothing. */
  lemma WhileAndIfCorrected(s: State)
    ensures ResolveStmt(Corrected, WhileAndIf(), s, 1) == Ok(s)
    ensures ResolveStmt(Corrected, WhileAndIf(), s, 2) == Ok(s)
  {
  }
}
