/**
 * The recursive-descent parser that builds the arena AST
 * (src/lang/parser.rs). Every rule takes the token sequence and a parser
 * state (cursor and arena) and returns the id it produced with the next
 * state, or the failure that stopped it.
 *
 * Two kinds of failure exist: the `ParseError` values the parser reports,
 * and `Panicked`, which stands for the places where the Rust code panics
 * (an `unwrap` on an error or a missing literal, or `peek_bw` stepping
 * before the first token).
 */
module ArenaParser {
  import opened Wrappers
  import opened Token
  import opened Ast
  import L = AstLiteral

  datatype ParseError =
    | UnexpectedToken(token: Token)
    | MissingToken(token: Token, expected: TokenType)
    | InvalidAssignmentTarget(left: Token)

  datatype Failure = Reported(error: ParseError) | Panicked

  /** The parser's mutable part: the cursor into the tokens and the arena. */
  datatype State = State(pos: nat, arena: ParserArena)

  /** The value a rule produced and the state after it. */
  datatype Step<T> = Step(value: T, st: State)

  /** A token returned by `expected` and the state after it. */
  datatype Matched = Matched(token: Token, st: State)

  type PResult<T> = Result<Step<T>, Failure>

  /** `Parsed`: the id of the program statement and the arena holding it. */
  datatype ParsedProgram = ParsedProgram(program: StmtId, arena: ParserArena)

  // ---------------------------------------------------------------------------
  // Tokens and states

  /** The scanner's output always ends with an end-of-file token. */
  predicate WellFormedTokens(ts: seq<Token>) {
    |ts| > 0 && ts[|ts| - 1].tokType == Eof
  }

  /** No end-of-file token lies before `pos`: the cursor never went past one. */
  predicate NoEofBefore(ts: seq<Token>, pos: nat)
    requires pos <= |ts|
  {
    forall i | 0 <= i < pos :: ts[i].tokType != Eof
  }

  predicate Valid(ts: seq<Token>, st: State) {
    && WellFormedTokens(ts)
    && st.pos < |ts|
    && NoEofBefore(ts, st.pos)
    && ArenaOk(st.arena)
  }

  /** `st'` is a valid later state of `st` whose cursor moved forward. */
  predicate Progress(ts: seq<Token>, st: State, st': State) {
    Valid(ts, st') && st.pos < st'.pos && Extends(st.arena, st'.arena)
  }

  /** `st'` is a valid later state of `st`; the cursor may not have moved. */
  predicate Stays(ts: seq<Token>, st: State, st': State) {
    Valid(ts, st') && st.pos <= st'.pos && Extends(st.arena, st'.arena)
  }

  /** A successful expression rule consumed tokens and produced a node of at least `rank`. */
  predicate ExprOut(ts: seq<Token>, st: State, r: PResult<ExprId>, rank: nat) {
    r.Ok? ==>
      && Progress(ts, st, r.value.st)
      && r.value.value < |r.value.st.arena.expressions|
      && NodeRank(r.value.st.arena.expressions[r.value.value]) >= rank
  }

  /** A successful statement rule consumed tokens and produced a stored statement. */
  predicate StmtOut(ts: seq<Token>, st: State, r: PResult<StmtId>) {
    r.Ok? ==>
      && Progress(ts, st, r.value.st)
      && r.value.value < |r.value.st.arena.statements|
  }

  // ---------------------------------------------------------------------------
  // Precedence ranks

  const AssignmentRank: nat := 0
  const OrRank: nat := 1
  const AndRank: nat := 2
  const EqualityRank: nat := 3
  const FactorRank: nat := 6
  const UnaryRank: nat := 7
  const CallRank: nat := 8
  const AtomRank: nat := 9

  /** The operators of the binary levels: equality, comparison, term, factor. */
  function BinaryOperators(level: nat): seq<TokenType>
    requires EqualityRank <= level <= FactorRank
  {
    if level == 3 then [Sym(BangEqual), Sym(EqualEqual)]
    else if level == 4 then [Sym(Greater), Sym(GreaterEqual), Sym(Less), Sym(LessEqual)]
    else if level == 5 then [Sym(Plus), Sym(Minus)]
    else [Sym(Star), Sym(Slash)]
  }

  /** The level a binary operator belongs to; 0 for any other token. */
  function OperatorRank(t: TokenType): nat {
    match t
    case Sym(BangEqual) | Sym(EqualEqual) => 3
    case Sym(Greater) | Sym(GreaterEqual) | Sym(Less) | Sym(LessEqual) => 4
    case Sym(Plus) | Sym(Minus) => 5
    case Sym(Star) | Sym(Slash) => 6
    case _ => 0
  }

  predicate IsBinaryOperator(t: TokenType) {
    OperatorRank(t) != 0
  }

  /** How tightly a node binds: the grammar level that produces it. */
  function NodeRank(e: Expr): nat {
    match e
    case Assignment(_, _) => AssignmentRank
    case Logical(_, op, _) => if op == Kw(Keyword.Or) then OrRank else AndRank
    case Binary(_, op, _) => OperatorRank(op)
    case Unary(_, _) => UnaryRank
    case Call(_, _) => CallRank
    case _ => AtomRank
  }

  lemma BinaryOperatorsRank(level: nat, t: TokenType)
    requires EqualityRank <= level <= FactorRank && t in BinaryOperators(level)
    ensures OperatorRank(t) == level && IsBinaryOperator(t) && t != Eof
  {
  }

  /**
   * The shape the grammar gives a node: binary operators are left
   * associative (the left operand binds at least as tightly, the right one
   * strictly more), `or` and `and` take operands of the next level only,
   * unary operators apply to unary-or-tighter operands, calls apply to
   * calls or atoms, and variables and assignment targets are identifiers.
   */
  predicate NodeNested(exprs: seq<Expr>, e: Expr) {
    match e
    case Variable(name) => name.tokType.Identifier?
    case Assignment(dst, _) => dst.tokType.Identifier?
    case Binary(l, op, r) =>
      && l < |exprs| && r < |exprs| && IsBinaryOperator(op)
      && NodeRank(exprs[l]) >= OperatorRank(op) && NodeRank(exprs[r]) > OperatorRank(op)
    case Logical(l, op, r) =>
      && l < |exprs| && r < |exprs| && (op == Kw(Keyword.Or) || op == Kw(Keyword.And))
      && NodeRank(exprs[l]) > NodeRank(e) && NodeRank(exprs[r]) > NodeRank(e)
    case Unary(op, x) =>
      x < |exprs| && (op == Sym(Minus) || op == Sym(Bang)) && NodeRank(exprs[x]) >= UnaryRank
    case Call(c, _) => c < |exprs| && NodeRank(exprs[c]) >= CallRank
    case _ => true
  }

  predicate WellNested(a: ParserArena) {
    forall i | 0 <= i < |a.expressions| :: NodeNested(a.expressions, a.expressions[i])
  }

  /** The invariant of every arena the parser builds. */
  predicate ArenaOk(a: ParserArena) {
    Closed(a) && WellNested(a)
  }

  lemma NodeNestedMono(exprs: seq<Expr>, exprs': seq<Expr>, e: Expr)
    requires NodeNested(exprs, e) && exprs <= exprs'
    ensures NodeNested(exprs', e)
  {
  }

  lemma AddExpressionOk(a: ParserArena, e: Expr)
    requires ArenaOk(a) && ExprBelow(e, |a.expressions|, |a.statements|) && NodeNested(a.expressions, e)
    ensures ArenaOk(AddExpression(a, e).0)
  {
    AddExpressionClosed(a, e);
    var a' := AddExpression(a, e).0;
    forall i | 0 <= i < |a'.expressions| ensures NodeNested(a'.expressions, a'.expressions[i]) {
      if i < |a.expressions| {
        NodeNestedMono(a.expressions, a'.expressions, a.expressions[i]);
      }
    }
  }

  lemma AddStatementOk(a: ParserArena, s: Stmt)
    requires ArenaOk(a) && StmtBelow(s, |a.statements|, |a.expressions|)
    ensures ArenaOk(AddStatement(a, s).0)
  {
    AddStatementClosed(a, s);
  }

  /** Stores an expression node; the cursor stays where it is. */
  function EmitExpr(ts: seq<Token>, st: State, e: Expr): (r: Step<ExprId>)
    requires Valid(ts, st)
    requires ExprBelow(e, |st.arena.expressions|, |st.arena.statements|) && NodeNested(st.arena.expressions, e)
    ensures Stays(ts, st, r.st) && r.st.pos == st.pos
    ensures r.value == |st.arena.expressions| && r.value < |r.st.arena.expressions|
    ensures r.st.arena.expressions[r.value] == e && r.st.arena.statements == st.arena.statements
  {
    AddExpressionOk(st.arena, e);
    var (a', id) := AddExpression(st.arena, e);
    Step(id, State(st.pos, a'))
  }

  /** Stores a statement node; the cursor stays where it is. */
  function EmitStmt(ts: seq<Token>, st: State, s: Stmt): (r: Step<StmtId>)
    requires Valid(ts, st) && StmtBelow(s, |st.arena.statements|, |st.arena.expressions|)
    ensures Stays(ts, st, r.st) && r.st.pos == st.pos
    ensures r.value == |st.arena.statements| && r.value < |r.st.arena.statements|
    ensures r.st.arena.statements[r.value] == s && r.st.arena.expressions == st.arena.expressions
  {
    AddStatementOk(st.arena, s);
    var (a', id) := AddStatement(st.arena, s);
    Step(id, State(st.pos, a'))
  }

  // ---------------------------------------------------------------------------
  // The cursor (parser.rs:720-767)

  /** `peek_bw(offset)`: the token `offset` places back; stepping before the first token panics. */
  function PeekBack(ts: seq<Token>, st: State, offset: nat): (r: Result<Token, Failure>)
    requires st.pos < |ts|
    ensures r.Ok? <==> offset <= st.pos
    ensures r.Ok? ==> r.value == ts[st.pos - offset]
  {
    if offset <= st.pos then Ok(ts[st.pos - offset]) else Err(Panicked)
  }

  /** `peek_bw(1)` just after a token was consumed, where it cannot step before the first token. */
  function Previous(ts: seq<Token>, st: State): (r: Token)
    requires 0 < st.pos < |ts|
    ensures PeekBack(ts, st, 1) == Ok(r)
  {
    ts[st.pos - 1]
  }

  /** `cmp_tok`. */
  predicate Check(ts: seq<Token>, st: State, t: TokenType)
    requires st.pos < |ts|
  {
    ts[st.pos].tokType == t
  }

  /** `is_at_end`. */
  predicate IsAtEnd(ts: seq<Token>, st: State)
    requires st.pos < |ts|
  {
    Check(ts, st, Eof)
  }

  /** The state after the current token, which is not the end-of-file token. */
  function Next(ts: seq<Token>, st: State): (r: State)
    requires Valid(ts, st) && !IsAtEnd(ts, st)
    ensures Progress(ts, st, r) && r.pos == st.pos + 1 && r.arena == st.arena
  {
    st.(pos := st.pos + 1)
  }

  /** `advance`: moves by one token unless the cursor is on the end-of-file token. */
  function Advance(ts: seq<Token>, st: State): (r: State)
    requires Valid(ts, st)
    ensures Stays(ts, st, r) && r.arena == st.arena
    ensures r.pos == st.pos <==> IsAtEnd(ts, st)
    ensures !IsAtEnd(ts, st) ==> r.pos == st.pos + 1
  {
    if !IsAtEnd(ts, st) then Next(ts, st) else st
  }

  /** `match_next`: consumes the current token when it has type `t`. */
  function MatchNext(ts: seq<Token>, st: State, t: TokenType): (r: (bool, State))
    requires Valid(ts, st)
    ensures Stays(ts, st, r.1) && r.1.arena == st.arena
    ensures r.0 <==> Check(ts, st, t)
    ensures r.0 && t != Eof ==> r.1.pos == st.pos + 1
    ensures !r.0 || t == Eof ==> r.1.pos == st.pos
  {
    if Check(ts, st, t) then (true, Advance(ts, st)) else (false, st)
  }

  /** `match_next_multi`: consumes the current token when its type is one of `types`. */
  function MatchAny(ts: seq<Token>, st: State, types: seq<TokenType>): (r: (bool, State))
    requires Valid(ts, st)
    ensures Stays(ts, st, r.1) && r.1.arena == st.arena
    ensures r.0 <==> ts[st.pos].tokType in types
    ensures r.0 && !IsAtEnd(ts, st) ==> r.1.pos == st.pos + 1
    ensures !r.0 || IsAtEnd(ts, st) ==> r.1.pos == st.pos
  {
    if |types| == 0 then (false, st)
    else if Check(ts, st, types[0]) then (true, Advance(ts, st))
    else
      var r := MatchAny(ts, st, types[1..]);
      assert types == [types[0]] + types[1..];
      r
  }

  /**
   * `expected`: consumes a token of type `t` and returns the token before
   * the new cursor, or reports `MissingToken` with the previous token.
   */
  function Expected(ts: seq<Token>, st: State, t: TokenType): (r: Result<Matched, Failure>)
    requires Valid(ts, st)
    ensures r.Ok? ==> Check(ts, st, t) && Stays(ts, st, r.value.st) && r.value.st.arena == st.arena
    ensures r.Ok? && t != Eof ==> r.value.st.pos == st.pos + 1 && r.value.token == ts[st.pos]
    ensures r.Ok? && t == Eof ==> r.value.st.pos == st.pos && 0 < st.pos && r.value.token == ts[st.pos - 1]
    ensures Check(ts, st, t) && (t != Eof || 0 < st.pos) ==> r.Ok?
    ensures !Check(ts, st, t) && 0 < st.pos ==> r == Err(Reported(MissingToken(ts[st.pos - 1], t)))
    ensures 0 == st.pos && (!Check(ts, st, t) || t == Eof) ==> r == Err(Panicked)
  {
    if Check(ts, st, t) then
      var after := Advance(ts, st);
      var tok :- PeekBack(ts, after, 1);
      Ok(Matched(tok, after))
    else
      var prev :- PeekBack(ts, st, 1);
      Err(Reported(MissingToken(prev, t)))
  }


  // ---------------------------------------------------------------------------
  // Program and statements (parser.rs:94-374)

  datatype Mode = AsWritten | Corrected

  /**
   * `Parser::parse` and `program`: declarations up to the end-of-file token,
   * then `expected(Eof)`, then the program statement. In `AsWritten` mode
   * the final `expected(Eof)` runs as in the source, and an empty program
   * panics; `Corrected` skips it, since the loop has already stopped on the
   * end-of-file token.
   */
  method ParseWith(ts: seq<Token>, mode: Mode) returns (r: Result<ParsedProgram, Failure>)
    requires WellFormedTokens(ts)
    ensures r.Ok? ==>
      && ArenaOk(r.value.arena)
      && r.value.program == |r.value.arena.statements| - 1
      && r.value.arena.statements[r.value.program].Program?
    ensures ts[0].tokType == Eof && mode == AsWritten ==> r == Err(Panicked)
    ensures ts[0].tokType == Eof && mode == Corrected ==>
      r.Ok? && r.value.arena.statements[r.value.program] == Stmt.Program([])
  {
    var start := State(0, NewArena());
    var body :- Declarations(ts, start);
    r := Finish(ts, body, mode);
  }

  /** The parser as it is evidently meant to work: an empty program parses. */
  method Parse(ts: seq<Token>) returns (r: Result<ParsedProgram, Failure>)
    requires WellFormedTokens(ts)
    ensures r.Ok? ==>
      && ArenaOk(r.value.arena)
      && r.value.program < |r.value.arena.statements|
      && r.value.arena.statements[r.value.program].Program?
    ensures ts[0].tokType == Eof ==>
      r.Ok? && r.value.arena.statements[r.value.program] == Stmt.Program([])
  {
    r := ParseWith(ts, Corrected);
  }

  /**
   * The end of `program`, once the cursor is on the end-of-file token. The
   * two modes agree except when no token was consumed: there `expected(Eof)`
   * steps back before the first token.
   */
  function Finish(ts: seq<Token>, body: Step<seq<StmtId>>, mode: Mode): (r: Result<ParsedProgram, Failure>)
    requires Valid(ts, body.st) && IsAtEnd(ts, body.st)
    requires forall k | 0 <= k < |body.value| :: body.value[k] < |body.st.arena.statements|
    ensures r.Err? <==> mode == AsWritten && body.st.pos == 0
    ensures r.Err? ==> r.error == Panicked
    ensures r.Ok? ==>
      && ArenaOk(r.value.arena)
      && Extends(body.st.arena, r.value.arena)
      && r.value.program == |r.value.arena.statements| - 1
      && r.value.arena.statements[r.value.program] == Stmt.Program(body.value)
  {
    var end :-
      if mode == AsWritten then Expected(ts, body.st, Eof)
      else Ok(Matched(ts[body.st.pos], body.st));
    var s := EmitStmt(ts, end.st, Stmt.Program(body.value));
    Ok(ParsedProgram(s.value, s.st.arena))
  }

  /** The `while !is_at_end()` loop of `program`. */
  method Declarations(ts: seq<Token>, st: State) returns (r: PResult<seq<StmtId>>)
    requires Valid(ts, st)
    ensures r.Ok? ==>
      && Stays(ts, st, r.value.st)
      && IsAtEnd(ts, r.value.st)
      && (forall k | 0 <= k < |r.value.value| :: r.value.value[k] < |r.value.st.arena.statements|)
    ensures IsAtEnd(ts, st) ==> r == Ok(Step([], st))
    decreases |ts| - st.pos, 100
  {
    var cur, stmts: seq<StmtId> := st, [];
    while !IsAtEnd(ts, cur)
      invariant Stays(ts, st, cur)
      invariant forall k | 0 <= k < |stmts| :: stmts[k] < |cur.arena.statements|
      invariant IsAtEnd(ts, st) ==> cur == st && stmts == []
      decreases |ts| - cur.pos
    {
      var d :- ParseDeclaration(ts, cur);
      stmts, cur := stmts + [d.value], d.st;
    }
    r := Ok(Step(stmts, cur));
  }

  /** `declaration`. */
  method ParseDeclaration(ts: seq<Token>, st: State) returns (r: PResult<StmtId>)
    requires Valid(ts, st)
    ensures StmtOut(ts, st, r)
    decreases |ts| - st.pos, 95
  {
    if Check(ts, st, Kw(Var)) {
      r := VarDeclaration(ts, Next(ts, st));
    } else {
      r := ParseStatement(ts, st);
    }
  }

  /** `statement`: the keyword or brace in front selects the rule. */
  method ParseStatement(ts: seq<Token>, st: State) returns (r: PResult<StmtId>)
    requires Valid(ts, st)
    ensures StmtOut(ts, st, r)
    decreases |ts| - st.pos, 94
  {
    match ts[st.pos].tokType
    case Kw(If) => r := IfStatement(ts, Next(ts, st));
    case Kw(While) => r := WhileStatement(ts, Next(ts, st));
    case Kw(For) => r := ForStatement(ts, Next(ts, st));
    case Kw(Loop) => r := LoopStatement(ts, Next(ts, st));
    case Kw(Break) => r := JumpStatement(ts, Next(ts, st), Stmt.Break);
    case Kw(Continue) => r := JumpStatement(ts, Next(ts, st), Stmt.Continue);
    case Kw(Return) => r := ReturnStatement(ts, Next(ts, st));
    case Sym(LeftBrace) => r := ParseBlock(ts, Next(ts, st));
    case _ => r := ExpressionStatement(ts, st);
  }

  /** `if_statement`, after `if`: both branches are statements, not declarations. */
  method IfStatement(ts: seq<Token>, st: State) returns (r: PResult<StmtId>)
    requires Valid(ts, st)
    ensures StmtOut(ts, st, r)
    ensures r.Ok? ==> r.value.st.arena.statements[r.value.value].If?
    decreases |ts| - st.pos, 2
  {
    var c :- ParenCondition(ts, st);
    r := IfBranches(ts, st, c);
  }

  /** The branches of `if_statement`, after the condition. */
  method IfBranches(ts: seq<Token>, from: State, c: Step<ExprId>) returns (r: PResult<StmtId>)
    requires Valid(ts, from) && Progress(ts, from, c.st) && c.value < |c.st.arena.expressions|
    ensures StmtOut(ts, from, r)
    ensures r.Ok? ==> r.value.st.arena.statements[r.value.value].If?
    decreases |ts| - c.st.pos, 95
  {
    var body :- ParseStatement(ts, c.st);
    var alt :- ElseBranch(ts, body.st);
    r := Ok(EmitStmt(ts, alt.st, Stmt.If(c.value, body.value, alt.value)));
  }

  /** The optional `else` statement of `if_statement`. */
  method ElseBranch(ts: seq<Token>, st: State) returns (r: PResult<Option<StmtId>>)
    requires Valid(ts, st)
    ensures r.Ok? ==>
      && Stays(ts, st, r.value.st)
      && (r.value.value.Some? <==> Check(ts, st, Kw(Else)))
      && (r.value.value.Some? ==> r.value.value.value < |r.value.st.arena.statements|)
    decreases |ts| - st.pos, 0
  {
    var (e, after) := MatchNext(ts, st, Kw(Else));
    if !e {
      return Ok(Step(Option.None, st));
    }
    var alt :- ParseStatement(ts, after);
    r := Ok(Step(Some(alt.value), alt.st));
  }

  /** The `( expression )` that follows `if` and `while`. */
  method ParenCondition(ts: seq<Token>, st: State) returns (r: PResult<ExprId>)
    requires Valid(ts, st)
    ensures ExprOut(ts, st, r, AssignmentRank)
    decreases |ts| - st.pos, 0
  {
    var lp :- Expected(ts, st, Sym(LeftParen));
    var c :- ParseExpression(ts, lp.st);
    var rp :- Expected(ts, c.st, Sym(RightParen));
    r := Ok(Step(c.value, rp.st));
  }

  /** `loop_statement`, after `loop`: a loop with neither condition nor post statement. */
  method LoopStatement(ts: seq<Token>, st: State) returns (r: PResult<StmtId>)
    requires Valid(ts, st)
    ensures StmtOut(ts, st, r)
    ensures r.Ok? ==> var s := r.value.st.arena.statements[r.value.value]; s.Loop? && s.guard.None? && s.post.None?
    decreases |ts| - st.pos, 96
  {
    var body :- ParseDeclaration(ts, st);
    r := Ok(EmitStmt(ts, body.st, Stmt.Loop(Option.None, body.value, Option.None)));
  }

  /** `while_statement`, after `while`: a loop with a condition and no post statement. */
  method WhileStatement(ts: seq<Token>, st: State) returns (r: PResult<StmtId>)
    requires Valid(ts, st)
    ensures StmtOut(ts, st, r)
    ensures r.Ok? ==> var s := r.value.st.arena.statements[r.value.value]; s.Loop? && s.guard.Some? && s.post.None?
    decreases |ts| - st.pos, 1
  {
    var c :- ParenCondition(ts, st);
    var body :- ParseDeclaration(ts, c.st);
    r := Ok(EmitStmt(ts, body.st, Stmt.Loop(Some(c.value), body.value, Option.None)));
  }

  /** `return_statement`, after `return`: an optional value, then `;`. */
  method ReturnStatement(ts: seq<Token>, st: State) returns (r: PResult<StmtId>)
    requires Valid(ts, st)
    ensures StmtOut(ts, st, r)
    ensures r.Ok? ==> var s := r.value.st.arena.statements[r.value.value];
      s.Return? && (s.result.None? <==> Check(ts, st, Sym(Semicolon)))
    decreases |ts| - st.pos, 96
  {
    var keyword :- PeekBack(ts, st, 1);
    var value :- ReturnValue(ts, st);
    var semi :- Expected(ts, value.st, Sym(Semicolon));
    r := Ok(EmitStmt(ts, semi.st, Stmt.Return(value.value)));
  }

  /** The optional value of `return_statement`: none when `;` follows directly. */
  method ReturnValue(ts: seq<Token>, st: State) returns (r: PResult<Option<ExprId>>)
    requires Valid(ts, st)
    ensures r.Ok? ==>
      && Stays(ts, st, r.value.st)
      && (r.value.value.None? <==> Check(ts, st, Sym(Semicolon)))
      && (r.value.value.Some? ==> r.value.value.value < |r.value.st.arena.expressions|)
    decreases |ts| - st.pos, 93
  {
    if Check(ts, st, Sym(Semicolon)) {
      return Ok(Step(Option.None, st));
    }
    var e :- ParseExpression(ts, st);
    r := Ok(Step(Some(e.value), e.st));
  }

  /** `break_statement` and `continue_statement`, after the keyword: a `;` must follow. */
  function JumpStatement(ts: seq<Token>, st: State, jump: Stmt): (r: PResult<StmtId>)
    requires Valid(ts, st) && (jump == Stmt.Break || jump == Stmt.Continue)
    ensures StmtOut(ts, st, r)
    ensures r.Ok? ==> r.value.st.arena.statements[r.value.value] == jump
    ensures r.Ok? <==> 0 < st.pos && Check(ts, st, Sym(Semicolon))
  {
    var keyword :- PeekBack(ts, st, 1);
    var semi :- Expected(ts, st, Sym(Semicolon));
    Ok(EmitStmt(ts, semi.st, jump))
  }

  /** A loop statement whose post statement, if any, is an expression statement. */
  predicate ForLoop(stmts: seq<Stmt>, id: StmtId) {
    && id < |stmts| && stmts[id].Loop?
    && (stmts[id].post.Some? ==> stmts[id].post.value < |stmts| && stmts[stmts[id].post.value].Expression?)
  }

  /**
   * `for_statement`, after `for`: desugared into a loop whose post
   * statement is the increment; an initializer wraps the loop in a block
   * `{ initializer; loop }`.
   */
  method ForStatement(ts: seq<Token>, st: State) returns (r: PResult<StmtId>)
    requires Valid(ts, st)
    ensures StmtOut(ts, st, r)
    ensures r.Ok? ==>
      var stmts := r.value.st.arena.statements;
      var s := stmts[r.value.value];
      && st.pos + 1 < |ts|
      && (ts[st.pos + 1].tokType == Sym(Semicolon) ==> ForLoop(stmts, r.value.value))
      && (ts[st.pos + 1].tokType != Sym(Semicolon) ==>
            s.Block? && |s.stmts| == 2 && s.stmts[0] < s.stmts[1] && ForLoop(stmts, s.stmts[1]))
    decreases |ts| - st.pos, 0
  {
    var lp :- Expected(ts, st, Sym(LeftParen));
    var clauses :- ForClauses(ts, lp.st);
    r := ForRest(ts, st, clauses);
  }

  /** The body of `for_statement`, after the clauses, and the desugared loop. */
  method ForRest(ts: seq<Token>, from: State, clauses: Step<(Option<StmtId>, Option<ExprId>, Option<StmtId>)>)
    returns (r: PResult<StmtId>)
    requires Valid(ts, from) && Progress(ts, from, clauses.st)
    requires var (init, cond, inc) := clauses.value; var a := clauses.st.arena;
      && (init.Some? ==> init.value < |a.statements|)
      && (cond.Some? ==> cond.value < |a.expressions|)
      && (inc.Some? ==> inc.value < |a.statements| && a.statements[inc.value].Expression?)
    ensures StmtOut(ts, from, r)
    ensures r.Ok? ==>
      var stmts := r.value.st.arena.statements;
      var s := stmts[r.value.value];
      && (clauses.value.0.None? ==> ForLoop(stmts, r.value.value))
      && (clauses.value.0.Some? ==> s.Block? && |s.stmts| == 2 && s.stmts[0] < s.stmts[1] && ForLoop(stmts, s.stmts[1]))
    decreases |ts| - clauses.st.pos, 96
  {
    var body :- ParseDeclaration(ts, clauses.st);
    if clauses.value.2.Some? {
      ExtendsKeepsNodes(clauses.st.arena, body.st.arena, 0, clauses.value.2.value);
    }
    r := Ok(ForBody(ts, clauses.value, body));
  }

  /** The end of `for_statement`: the loop, and the block around it when there is an initializer. */
  function ForBody(ts: seq<Token>, clauses: (Option<StmtId>, Option<ExprId>, Option<StmtId>), body: Step<StmtId>): (r: Step<StmtId>)
    requires Valid(ts, body.st)
    requires var (init, cond, inc) := clauses; var a := body.st.arena;
      && body.value < |a.statements|
      && (init.Some? ==> init.value < |a.statements|)
      && (cond.Some? ==> cond.value < |a.expressions|)
      && (inc.Some? ==> inc.value < |a.statements| && a.statements[inc.value].Expression?)
    ensures Stays(ts, body.st, r.st) && r.st.pos == body.st.pos
    ensures r.value < |r.st.arena.statements|
    ensures var stmts := r.st.arena.statements; var s := stmts[r.value];
      && (clauses.0.None? ==> ForLoop(stmts, r.value) && s == Stmt.Loop(clauses.1, body.value, clauses.2))
      && (clauses.0.Some? ==>
            && s.Block? && |s.stmts| == 2 && s.stmts[0] == clauses.0.value && s.stmts[0] < s.stmts[1]
            && ForLoop(stmts, s.stmts[1]) && stmts[s.stmts[1]] == Stmt.Loop(clauses.1, body.value, clauses.2))
  {
    var (init, cond, inc) := clauses;
    var loop := EmitStmt(ts, body.st, Stmt.Loop(cond, body.value, inc));
    if init.None? then loop
    else EmitStmt(ts, loop.st, Stmt.Block([init.value, loop.value]))
  }

  /** The three clauses of `for_statement` after `(`, up to and including `)`. */
  method ForClauses(ts: seq<Token>, st: State) returns (r: PResult<(Option<StmtId>, Option<ExprId>, Option<StmtId>)>)
    requires Valid(ts, st)
    ensures r.Ok? ==>
      var (init, cond, inc) := r.value.value;
      var a := r.value.st.arena;
      && Progress(ts, st, r.value.st)
      && (init.None? <==> Check(ts, st, Sym(Semicolon)))
      && (init.Some? ==> init.value < |a.statements|)
      && (cond.Some? ==> cond.value < |a.expressions|)
      && (inc.Some? ==> inc.value < |a.statements| && a.statements[inc.value].Expression?)
    decreases |ts| - st.pos, 97
  {
    var init :- ForInitializer(ts, st);
    var cond :- ForCondition(ts, init.st);
    var inc :- ForIncrement(ts, cond.st);
    r := Ok(Step((init.value, cond.value, inc.value), inc.st));
  }

  /** The initializer of `for_statement`: `;` alone, or a declaration. */
  method ForInitializer(ts: seq<Token>, st: State) returns (r: PResult<Option<StmtId>>)
    requires Valid(ts, st)
    ensures r.Ok? ==>
      && Progress(ts, st, r.value.st)
      && (r.value.value.None? <==> Check(ts, st, Sym(Semicolon)))
      && (r.value.value.Some? ==> r.value.value.value < |r.value.st.arena.statements|)
    decreases |ts| - st.pos, 96
  {
    var (empty, after) := MatchNext(ts, st, Sym(Semicolon));
    if empty {
      return Ok(Step(Option.None, after));
    }
    var d :- ParseDeclaration(ts, st);
    r := Ok(Step(Some(d.value), d.st));
  }

  /** The condition of `for_statement`: `;` alone, or an expression and `;`. */
  method ForCondition(ts: seq<Token>, st: State) returns (r: PResult<Option<ExprId>>)
    requires Valid(ts, st)
    ensures r.Ok? ==>
      && Progress(ts, st, r.value.st)
      && (r.value.value.None? <==> Check(ts, st, Sym(Semicolon)))
      && (r.value.value.Some? ==> r.value.value.value < |r.value.st.arena.expressions|)
    decreases |ts| - st.pos, 96
  {
    var (empty, after) := MatchNext(ts, st, Sym(Semicolon));
    if empty {
      return Ok(Step(Option.None, after));
    }
    var c :- ParseExpression(ts, st);
    var semi :- Expected(ts, c.st, Sym(Semicolon));
    r := Ok(Step(Some(c.value), semi.st));
  }

  /**
   * The increment of `for_statement`: `)` alone, or an expression and `)`;
   * the expression is stored as an expression statement.
   */
  method ForIncrement(ts: seq<Token>, st: State) returns (r: PResult<Option<StmtId>>)
    requires Valid(ts, st)
    ensures r.Ok? ==>
      && Progress(ts, st, r.value.st)
      && (r.value.value.None? <==> Check(ts, st, Sym(RightParen)))
      && (r.value.value.Some? ==>
            && r.value.value.value < |r.value.st.arena.statements|
            && r.value.st.arena.statements[r.value.value.value].Expression?)
    decreases |ts| - st.pos, 96
  {
    var (empty, after) := MatchNext(ts, st, Sym(RightParen));
    if empty {
      return Ok(Step(Option.None, after));
    }
    var e :- ParseExpression(ts, st);
    var rp :- Expected(ts, e.st, Sym(RightParen));
    var s := EmitStmt(ts, rp.st, Stmt.Expression(e.value));
    r := Ok(Step(Some(s.value), s.st));
  }

  /** `block`, after `{`: declarations up to `}` or the end of the tokens, then `}`. */
  method ParseBlock(ts: seq<Token>, st: State) returns (r: PResult<StmtId>)
    requires Valid(ts, st)
    ensures StmtOut(ts, st, r)
    ensures r.Ok? ==>
      var s := r.value.st.arena.statements[r.value.value];
      && s.Block?
      && (forall k | 0 <= k < |s.stmts| :: s.stmts[k] < r.value.value)
      && (Check(ts, st, Sym(RightBrace)) ==> s.stmts == [])
    decreases |ts| - st.pos, 99
  {
    var cur, stmts: seq<StmtId> := st, [];
    while !Check(ts, cur, Sym(RightBrace)) && !IsAtEnd(ts, cur)
      invariant Stays(ts, st, cur)
      invariant forall k | 0 <= k < |stmts| :: stmts[k] < |cur.arena.statements|
      invariant Check(ts, st, Sym(RightBrace)) ==> cur == st && stmts == []
      decreases |ts| - cur.pos
    {
      var d :- ParseDeclaration(ts, cur);
      stmts, cur := stmts + [d.value], d.st;
    }
    var close :- Expected(ts, cur, Sym(RightBrace));
    r := Ok(EmitStmt(ts, close.st, Stmt.Block(stmts)));
  }

  /** `expression_statement`. */
  method ExpressionStatement(ts: seq<Token>, st: State) returns (r: PResult<StmtId>)
    requires Valid(ts, st)
    ensures StmtOut(ts, st, r)
    ensures r.Ok? ==> r.value.st.arena.statements[r.value.value].Expression?
    decreases |ts| - st.pos, 93
  {
    var e :- ParseExpression(ts, st);
    var semi :- Expected(ts, e.st, Sym(Semicolon));
    r := Ok(EmitStmt(ts, semi.st, Stmt.Expression(e.value)));
  }

  /**
   * `var_declaration`, after `var`: a `$`-identifier, an optional
   * initializer, then `;`. Without an initializer the value is the literal
   * `undefined`.
   */
  method VarDeclaration(ts: seq<Token>, st: State) returns (r: PResult<StmtId>)
    requires Valid(ts, st)
    ensures StmtOut(ts, st, r)
    ensures r.Ok? ==>
      var a := r.value.st.arena;
      var s := a.statements[r.value.value];
      && st.pos + 1 < |ts|
      && s.Declaration? && s.dst == ts[st.pos] && s.dst.tokType == Identifier(true)
      && s.expr < |a.expressions|
      && (ts[st.pos + 1].tokType != Sym(Equal) ==> a.expressions[s.expr] == Literal(L.Undefined, "undefined"))
    decreases |ts| - st.pos, 0
  {
    var name :- Expected(ts, st, Identifier(true));
    var value :- Initializer(ts, name.st);
    var semi :- Expected(ts, value.st, Sym(Semicolon));
    r := Ok(EmitStmt(ts, semi.st, Declaration(name.token, value.value)));
  }

  /** The value of `var_declaration`: `= expression`, or the literal `undefined`. */
  method Initializer(ts: seq<Token>, st: State) returns (r: PResult<ExprId>)
    requires Valid(ts, st)
    ensures r.Ok? ==>
      && Stays(ts, st, r.value.st)
      && r.value.value < |r.value.st.arena.expressions|
      && (!Check(ts, st, Sym(Equal)) ==> r.value.st.arena.expressions[r.value.value] == Literal(L.Undefined, "undefined"))
    decreases |ts| - st.pos, 0
  {
    var (eq, after) := MatchNext(ts, st, Sym(Equal));
    if eq {
      r := ParseExpression(ts, after);
    } else {
      r := Ok(EmitExpr(ts, after, Literal(L.Undefined, "undefined")));
    }
  }

  // ---------------------------------------------------------------------------
  // Expressions (parser.rs:376-531)

  /** `expression`: a function expression after `fun`, an assignment otherwise. */
  method ParseExpression(ts: seq<Token>, st: State) returns (r: PResult<ExprId>)
    requires Valid(ts, st)
    ensures ExprOut(ts, st, r, AssignmentRank)
    ensures r.Ok? && Check(ts, st, Kw(Fun)) ==>
      var f := r.value.st.arena.expressions[r.value.value];
      && f.Function?
      && ParametersAt(ts, if f.fname.Some? then st.pos + 2 else st.pos + 1, f.parameters)
    decreases |ts| - st.pos, 92
  {
    if Check(ts, st, Kw(Fun)) {
      r := ParseFunction(ts, Next(ts, st));
    } else {
      r := ParseAssignment(ts, st);
    }
  }

  /** The result of `optional_with_expected!` and of the optional function name. */
  datatype MaybeToken = MaybeToken(token: Option<Token>, st: State)

  /**
   * `fun_declaration`, after `fun`: an optional name, the `$`-parameters in
   * parentheses, and a block whose statements become the body.
   */
  method ParseFunction(ts: seq<Token>, st: State) returns (r: PResult<ExprId>)
    requires Valid(ts, st)
    ensures ExprOut(ts, st, r, AtomRank)
    ensures r.Ok? ==>
      var f := r.value.st.arena.expressions[r.value.value];
      && f.Function?
      && ParametersAt(ts, if f.fname.Some? then st.pos + 1 else st.pos, f.parameters)
      && (f.fname.Some? <==> Check(ts, st, Identifier(false)))
      && (f.fname.Some? ==> f.fname.value == ts[st.pos])
    decreases |ts| - st.pos, 0
  {
    var name := FunctionName(ts, st);
    var params :- ParameterList(ts, name.st);
    r := FunctionBody(ts, st, name.token, params);
  }

  /** The block of `fun_declaration`, after the parameters. */
  method FunctionBody(ts: seq<Token>, from: State, name: Option<Token>, params: Step<seq<Token>>) returns (r: PResult<ExprId>)
    requires Valid(ts, from) && Progress(ts, from, params.st)
    ensures ExprOut(ts, from, r, AtomRank)
    ensures r.Ok? ==>
      var f := r.value.st.arena.expressions[r.value.value];
      f.Function? && f.fname == name && f.parameters == params.value
    decreases |ts| - params.st.pos, 0
  {
    var lb :- Expected(ts, params.st, Sym(LeftBrace));
    var block :- ParseBlock(ts, lb.st);
    r := Ok(FunctionNode(ts, name, params.value, block));
  }

  /** Stores the function expression; its body is the statements of the parsed block. */
  function FunctionNode(ts: seq<Token>, name: Option<Token>, params: seq<Token>, block: Step<StmtId>): (r: Step<ExprId>)
    requires Valid(ts, block.st) && block.value < |block.st.arena.statements|
    requires block.st.arena.statements[block.value].Block?
    ensures Stays(ts, block.st, r.st) && r.st.pos == block.st.pos
    ensures r.value < |r.st.arena.expressions|
    ensures r.st.arena.expressions[r.value] == Function(name, params, block.st.arena.statements[block.value].stmts)
  {
    var body := block.st.arena.statements[block.value].stmts;
    EmitExpr(ts, block.st, Function(name, params, body))
  }

  /** The optional name of `fun_declaration`: a plain identifier. */
  function FunctionName(ts: seq<Token>, st: State): (r: MaybeToken)
    requires Valid(ts, st)
    ensures Stays(ts, st, r.st) && r.st.arena == st.arena
    ensures r.token.Some? <==> Check(ts, st, Identifier(false))
    ensures r.token.Some? ==> r.token.value == ts[st.pos] && r.st.pos == st.pos + 1
    ensures r.token.None? ==> r.st == st
  {
    if Check(ts, st, Identifier(false)) then
      // `expected` cannot fail here: the identifier was just checked
      var m := Expected(ts, st, Identifier(false)).value;
      MaybeToken(Some(m.token), m.st)
    else MaybeToken(Option.None, st)
  }

  /** The tokens a parameter list of `n` names takes up after `(`, the `)` included. */
  function ListLength(n: nat): nat {
    if n == 0 then 1 else 2 * n
  }

  /**
   * `ps` are the tokens at every other position from `from` on: the
   * parameters of a list with one comma between neighbours, in source order.
   */
  predicate InSourceOrder(ts: seq<Token>, from: nat, ps: seq<Token>) {
    forall k | 0 <= k < |ps| :: from + 2 * k < |ts| && ps[k] == ts[from + 2 * k]
  }

  /**
   * `ps` is the parameter list that follows the `(` at `lp`: `$`-identifiers
   * in source order, and none exactly when `)` comes straight after `(`.
   */
  predicate ParametersAt(ts: seq<Token>, lp: nat, ps: seq<Token>) {
    && lp + 1 < |ts|
    && (|ps| == 0 <==> ts[lp + 1].tokType == Sym(RightParen))
    && (forall k | 0 <= k < |ps| :: ps[k].tokType == Identifier(true))
    && InSourceOrder(ts, lp + 1, ps)
  }

  /** The parameters of `fun_declaration`, from `(` up to and including `)`. */
  function ParameterList(ts: seq<Token>, st: State): (r: PResult<seq<Token>>)
    requires Valid(ts, st)
    ensures r.Ok? ==>
      && Progress(ts, st, r.value.st) && r.value.st.arena == st.arena
      && ParametersAt(ts, st.pos, r.value.value)
      && r.value.st.pos == st.pos + 1 + ListLength(|r.value.value|)
  {
    var lp :- Expected(ts, st, Sym(LeftParen));
    var params :-
      if Check(ts, lp.st, Sym(RightParen)) then Ok(Step([], lp.st))
      else Parameters(ts, lp.st, []);
    var rp :- Expected(ts, params.st, Sym(RightParen));
    Ok(Step(params.value, rp.st))
  }

  /** The loop over `$`-identifiers separated by commas in `fun_declaration`. */
  function Parameters(ts: seq<Token>, st: State, acc: seq<Token>): (r: PResult<seq<Token>>)
    requires Valid(ts, st)
    requires forall k | 0 <= k < |acc| :: acc[k].tokType == Identifier(true)
    ensures r.Ok? ==>
      && Progress(ts, st, r.value.st) && r.value.st.arena == st.arena
      && (forall k | 0 <= k < |r.value.value| :: r.value.value[k].tokType == Identifier(true))
      && ListedAfter(ts, st.pos, acc, r.value)
    decreases |ts| - st.pos
  {
    var p :- Expected(ts, st, Identifier(true));
    assert p.token == ts[st.pos] && p.st.pos == st.pos + 1;
    var comma := MatchNext(ts, p.st, Sym(Comma));
    if comma.0 then
      var rest :- Parameters(ts, comma.1, acc + [p.token]);
      ParametersCons(ts, st.pos, acc, rest);
      Ok(rest)
    else
      ParametersLast(ts, st.pos, acc, p.st);
      Ok(Step(acc + [p.token], p.st))
  }

  /**
   * The list `acc` was extended by the parameters from `from` on: one
   * identifier at every other token, a comma between neighbours, and the
   * cursor left just after the last identifier.
   */
  predicate ListedAfter(ts: seq<Token>, from: nat, acc: seq<Token>, r: Step<seq<Token>>) {
    && |acc| < |r.value| && r.value[..|acc|] == acc
    && InSourceOrder(ts, from, r.value[|acc|..])
    && r.st.pos == from + 2 * (|r.value| - |acc|) - 1 < |ts|
    && forall k | 0 <= k < |r.value| - |acc| - 1 :: ts[from + 2 * k + 1].tokType == Sym(Comma)
  }

  /** The last identifier of a parameter list ends it. */
  lemma ParametersLast(ts: seq<Token>, from: nat, acc: seq<Token>, st: State)
    requires from + 1 < |ts| && st.pos == from + 1
    ensures ListedAfter(ts, from, acc, Step(acc + [ts[from]], st))
  {
    assert (acc + [ts[from]])[|acc|..] == [ts[from]];
  }

  /** One identifier and a comma in front of a parameter list keep the order and the commas. */
  lemma ParametersCons(ts: seq<Token>, from: nat, acc: seq<Token>, rest: Step<seq<Token>>)
    requires from + 1 < |ts| && ts[from + 1].tokType == Sym(Comma)
    requires ListedAfter(ts, from + 2, acc + [ts[from]], rest)
    ensures ListedAfter(ts, from, acc, rest)
  {
    var ps := rest.value;
    assert ps[..|acc|] == (ps[..|acc| + 1])[..|acc|];
    forall k | 0 <= k < |ps| - |acc|
      ensures from + 2 * k < |ts| && ps[|acc|..][k] == ts[from + 2 * k]
    {
      if k == 0 {
        assert ps[|acc|..][0] == ps[..|acc| + 1][|acc|];
      } else {
        assert ps[|acc|..][k] == ps[|acc| + 1..][k - 1];
      }
    }
    forall k | 0 <= k < |ps| - |acc| - 1
      ensures ts[from + 2 * k + 1].tokType == Sym(Comma)
    {
      if k > 0 {
        assert from + 2 * k + 1 == from + 2 + 2 * (k - 1) + 1;
      }
    }
  }

  /**
   * `assignment`: the target is parsed as an `or` expression; after `=` the
   * value is parsed by this rule again, so assignment is right associative.
   */
  method ParseAssignment(ts: seq<Token>, st: State) returns (r: PResult<ExprId>)
    requires Valid(ts, st)
    ensures ExprOut(ts, st, r, AssignmentRank)
    ensures r.Ok? && r.value.st.arena.expressions[r.value.value].Assignment? ==>
      r.value.st.arena.expressions[r.value.st.arena.expressions[r.value.value].expr].Assignment?
      || NodeRank(r.value.st.arena.expressions[r.value.st.arena.expressions[r.value.value].expr]) >= OrRank
    decreases |ts| - st.pos, 91
  {
    var target :- ParseOr(ts, st);
    var (eq, after) := MatchNext(ts, target.st, Sym(Equal));
    if !eq {
      return Ok(target);
    }
    var value :- ParseAssignment(ts, after);
    r := AssignTo(ts, target.value, value);
  }

  /**
   * The end of `assignment`: only a variable can be assigned to. Any other
   * target is reported with the token three places before the cursor.
   */
  function AssignTo(ts: seq<Token>, target: ExprId, value: Step<ExprId>): (r: PResult<ExprId>)
    requires Valid(ts, value.st)
    requires target < |value.st.arena.expressions| && value.value < |value.st.arena.expressions|
    ensures r.Ok? <==> value.st.arena.expressions[target].Variable?
    ensures r.Ok? ==>
      && Stays(ts, value.st, r.value.st) && r.value.st.pos == value.st.pos
      && r.value.value < |r.value.st.arena.expressions|
      && r.value.st.arena.expressions[r.value.value]
         == Assignment(value.st.arena.expressions[target].name, value.value)
    ensures r.Err? ==>
      r.error == if value.st.pos >= 3 then Reported(InvalidAssignmentTarget(ts[value.st.pos - 3])) else Panicked
  {
    match value.st.arena.expressions[target]
    case Variable(name) =>
      Ok(EmitExpr(ts, value.st, Assignment(name, value.value)))
    case _ =>
      var left :- PeekBack(ts, value.st, 3);
      Err(Reported(InvalidAssignmentTarget(left)))
  }

  /** `or`: at most one `or`, between two `and` expressions. */
  method ParseOr(ts: seq<Token>, st: State) returns (r: PResult<ExprId>)
    requires Valid(ts, st)
    ensures ExprOut(ts, st, r, OrRank)
    decreases |ts| - st.pos, 90
  {
    var left :- ParseAnd(ts, st);
    r := LogicalTail(ts, st, left, Keyword.Or);
  }

  /** `and`: at most one `and`, between two equality expressions. */
  method ParseAnd(ts: seq<Token>, st: State) returns (r: PResult<ExprId>)
    requires Valid(ts, st)
    ensures ExprOut(ts, st, r, AndRank)
    decreases |ts| - st.pos, 89
  {
    var left :- BinaryLevel(ts, st, EqualityRank);
    r := LogicalTail(ts, st, left, Keyword.And);
  }

  /** The rank of the `or` or `and` level. */
  function LogicalRank(op: Keyword): nat
    requires op == Keyword.Or || op == Keyword.And
  {
    if op == Keyword.Or then OrRank else AndRank
  }

  /**
   * The optional second operand of `or` and `and`: one more operand of the
   * next level after the keyword; a second keyword is left to the caller.
   */
  method LogicalTail(ts: seq<Token>, from: State, left: Step<ExprId>, op: Keyword) returns (r: PResult<ExprId>)
    requires op == Keyword.Or || op == Keyword.And
    requires Valid(ts, from) && Progress(ts, from, left.st) && left.value < |left.st.arena.expressions|
    requires NodeRank(left.st.arena.expressions[left.value]) > LogicalRank(op)
    ensures ExprOut(ts, from, r, LogicalRank(op))
    ensures r.Ok? && !Check(ts, left.st, Kw(op)) ==> r == Ok(left)
    ensures r.Ok? && Check(ts, left.st, Kw(op)) ==>
      var e := r.value.st.arena.expressions[r.value.value];
      e.Logical? && e.left == left.value && e.symbol == Kw(op)
    decreases |ts| - left.st.pos, 0
  {
    var (m, after) := MatchNext(ts, left.st, Kw(op));
    if !m {
      return Ok(left);
    }
    var right :- LogicalOperand(ts, after, op);
    // The operator token is `previous()`, the keyword just matched.
    assert Previous(ts, after).tokType == Kw(op);
    r := Ok(JoinLogical(ts, from, left, right, op));
  }

  /** Stores `left op right` as a logical node after both operands. */
  function JoinLogical(ts: seq<Token>, from: State, left: Step<ExprId>, right: Step<ExprId>, op: Keyword): (r: Step<ExprId>)
    requires op == Keyword.Or || op == Keyword.And
    requires Valid(ts, from) && Progress(ts, from, left.st) && left.value < |left.st.arena.expressions|
    requires NodeRank(left.st.arena.expressions[left.value]) > LogicalRank(op)
    requires Progress(ts, left.st, right.st) && right.value < |right.st.arena.expressions|
    requires NodeRank(right.st.arena.expressions[right.value]) > LogicalRank(op)
    ensures ExprOut(ts, from, Ok(r), LogicalRank(op)) && r.st.pos == right.st.pos
    ensures var e := r.st.arena.expressions[r.value];
      e.Logical? && e.left == left.value && e.right == right.value && e.symbol == Kw(op)
  {
    assert right.st.arena.expressions[left.value] == left.st.arena.expressions[left.value];
    EmitExpr(ts, right.st, Logical(left.value, Kw(op), right.value))
  }

  /** The operand after `or` (an `and` expression) or after `and` (an equality expression). */
  method LogicalOperand(ts: seq<Token>, st: State, op: Keyword) returns (r: PResult<ExprId>)
    requires op == Keyword.Or || op == Keyword.And
    requires Valid(ts, st)
    ensures ExprOut(ts, st, r, LogicalRank(op) + 1)
    decreases |ts| - st.pos, 90
  {
    if op == Keyword.Or {
      r := ParseAnd(ts, st);
    } else {
      r := BinaryLevel(ts, st, EqualityRank);
    }
  }

  /**
   * The `binary!` macro behind `equality`, `comparison`, `term` and
   * `factor`: an operand of the next level, then any number of
   * `operator operand` pairs folded to the left.
   */
  method BinaryLevel(ts: seq<Token>, st: State, level: nat) returns (r: PResult<ExprId>)
    requires Valid(ts, st) && EqualityRank <= level <= FactorRank
    ensures ExprOut(ts, st, r, level)
    decreases |ts| - st.pos, 88 - 2 * (level - 3)
  {
    var left :- Operand(ts, st, level);
    r := BinaryTail(ts, st, left, level);
  }

  /** The operand of a binary level: the next level, or `unary` below `factor`. */
  method Operand(ts: seq<Token>, st: State, level: nat) returns (r: PResult<ExprId>)
    requires Valid(ts, st) && EqualityRank <= level <= FactorRank
    ensures ExprOut(ts, st, r, level + 1)
    decreases |ts| - st.pos, 87 - 2 * (level - 3)
  {
    if level == FactorRank {
      r := ParseUnary(ts, st);
    } else {
      r := BinaryLevel(ts, st, level + 1);
    }
  }

  /**
   * The `while match_next_multi(...)` loop of `binary!`, one operator and
   * operand at a time: the node built so far becomes the left operand of
   * the next one.
   */
  method BinaryTail(ts: seq<Token>, from: State, left: Step<ExprId>, level: nat) returns (r: PResult<ExprId>)
    requires Valid(ts, from) && EqualityRank <= level <= FactorRank
    requires Progress(ts, from, left.st)
    requires left.value < |left.st.arena.expressions| && NodeRank(left.st.arena.expressions[left.value]) >= level
    ensures ExprOut(ts, from, r, level)
    ensures r.Ok? && ts[left.st.pos].tokType !in BinaryOperators(level) ==> r == Ok(left)
    decreases |ts| - left.st.pos, 0
  {
    var (m, after) := MatchAny(ts, left.st, BinaryOperators(level));
    if !m {
      return Ok(left);
    }
    var op := ts[left.st.pos].tokType;
    BinaryOperatorsRank(level, op);
    var right :- Operand(ts, after, level);
    var node := BinaryNode(ts, left.value, op, right, level);
    r := BinaryTail(ts, from, node, level);
  }

  /** Stores `left op right` for one step of `binary!`. */
  function BinaryNode(ts: seq<Token>, left: ExprId, op: TokenType, right: Step<ExprId>, level: nat): (r: Step<ExprId>)
    requires Valid(ts, right.st) && EqualityRank <= level <= FactorRank && op in BinaryOperators(level)
    requires left < |right.st.arena.expressions| && NodeRank(right.st.arena.expressions[left]) >= level
    requires right.value < |right.st.arena.expressions| && NodeRank(right.st.arena.expressions[right.value]) > level
    ensures Stays(ts, right.st, r.st) && r.st.pos == right.st.pos
    ensures r.value < |r.st.arena.expressions| && r.st.arena.expressions[r.value] == Binary(left, op, right.value)
    ensures NodeRank(r.st.arena.expressions[r.value]) == level
  {
    BinaryOperatorsRank(level, op);
    EmitExpr(ts, right.st, Binary(left, op, right.value))
  }

  /** `unary`: any number of `-` and `!` in front of a select or call expression. */
  method ParseUnary(ts: seq<Token>, st: State) returns (r: PResult<ExprId>)
    requires Valid(ts, st)
    ensures ExprOut(ts, st, r, UnaryRank)
    ensures r.Ok? && ts[st.pos].tokType in [Sym(Minus), Sym(Bang)] ==>
      var e := r.value.st.arena.expressions[r.value.value];
      e.Unary? && e.symbol == ts[st.pos].tokType
    decreases |ts| - st.pos, 80
  {
    var (m, after) := MatchAny(ts, st, [Sym(Minus), Sym(Bang)]);
    if !m {
      r := ParseSelect(ts, st);
      return;
    }
    var operand :- ParseUnary(ts, after);
    r := Ok(EmitExpr(ts, operand.st, Unary(Previous(ts, after).tokType, operand.value)));
  }

  // ---------------------------------------------------------------------------
  // SELECT (parser.rs:533-637)

  /**
   * `select`: a select core, then compound parts in source order. ORDER BY,
   * LIMIT and OFFSET are not parsed and stay empty.
   */
  method ParseSelect(ts: seq<Token>, st: State) returns (r: PResult<ExprId>)
    requires Valid(ts, st)
    ensures ExprOut(ts, st, r, CallRank)
    ensures r.Ok? && Check(ts, st, Skw(SqlKeyword.Select)) ==>
      var e := r.value.st.arena.expressions[r.value.value];
      && e.Select?
      && e.query.orderBy.None? && e.query.limit.None? && e.query.offset.None?
      && st.pos + 1 < |ts|
      && (e.query.core.distinct == SqlDistinct.Distinct <==> ts[st.pos + 1].tokType == Skw(SqlKeyword.Distinct))
    decreases |ts| - st.pos, 79
  {
    if !Check(ts, st, Skw(SqlKeyword.Select)) {
      r := ParseCall(ts, st);
      return;
    }
    var core :- ParseSelectCore(ts, st);
    var parts :- Compounds(ts, core.st);
    r := Ok(SelectNode(ts, core, parts));
  }

  /** Stores the select expression built from a core and its compound parts. */
  function SelectNode(ts: seq<Token>, core: Step<SelectCore>, parts: Step<seq<SqlCompound>>): (r: Step<ExprId>)
    requires Valid(ts, parts.st) && Extends(core.st.arena, parts.st.arena)
    requires CoreBelow(core.value, |core.st.arena.expressions|) && CompoundsBelow(parts.value, |parts.st.arena.expressions|)
    ensures Stays(ts, parts.st, r.st) && r.st.pos == parts.st.pos
    ensures r.value < |r.st.arena.expressions|
    ensures r.st.arena.expressions[r.value]
      == Expr.Select(SqlSelect(core.value, parts.value, Option.None, Option.None, Option.None))
  {
    CoreBelowMono(core.value, |core.st.arena.expressions|, |parts.st.arena.expressions|);
    EmitExpr(ts, parts.st, Expr.Select(SqlSelect(core.value, parts.value, Option.None, Option.None, Option.None)))
  }

  /**
   * `select_core`: `SELECT`, an optional `DISTINCT` (its absence means
   * `All`), the projections, an optional FROM table and an optional WHERE
   * condition. GROUP BY and HAVING are not parsed and stay empty.
   */
  method ParseSelectCore(ts: seq<Token>, st: State) returns (r: PResult<SelectCore>)
    requires Valid(ts, st)
    ensures r.Ok? ==>
      && Progress(ts, st, r.value.st)
      && CoreBelow(r.value.value, |r.value.st.arena.expressions|)
      && Check(ts, st, Skw(SqlKeyword.Select))
      && st.pos + 1 < |ts|
      && (r.value.value.distinct == SqlDistinct.Distinct <==> ts[st.pos + 1].tokType == Skw(SqlKeyword.Distinct))
      && |r.value.value.projection| > 0
      && r.value.value.groupBy.None? && r.value.value.having.None?
    decreases |ts| - st.pos, 77
  {
    var sel :- Expected(ts, st, Skw(SqlKeyword.Select));
    var (distinct, after) := MatchNext(ts, sel.st, Skw(SqlKeyword.Distinct));
    r := SelectClauses(ts, after, if distinct then SqlDistinct.Distinct else SqlDistinct.All);
  }

  /** The clauses of `select_core` after `SELECT` and the optional `DISTINCT`. */
  method SelectClauses(ts: seq<Token>, st: State, distinct: SqlDistinct) returns (r: PResult<SelectCore>)
    requires Valid(ts, st)
    ensures r.Ok? ==>
      && Progress(ts, st, r.value.st)
      && CoreBelow(r.value.value, |r.value.st.arena.expressions|)
      && r.value.value.distinct == distinct
      && |r.value.value.projection| > 0
      && r.value.value.groupBy.None? && r.value.value.having.None?
    decreases |ts| - st.pos, 99
  {
    var proj :- Projections(ts, st);
    var from :- FromClause(ts, proj.st);
    var where :- WhereClause(ts, from.st);
    OptFromBelowMono(from.value, |from.st.arena.expressions|, |where.st.arena.expressions|);
    r := Ok(Step(SelectCore(distinct, proj.value, from.value, where.value, Option.None, Option.None), where.st));
  }

  lemma OptFromBelowMono(f: Option<SqlFrom>, b: nat, b': nat)
    requires (f.Some? ==> FromBelow(f.value, b)) && b <= b'
    ensures f.Some? ==> FromBelow(f.value, b')
  {
    if f.Some? {
      FromBelowMono(f.value, b, b');
    }
  }

  predicate ProjectionsBelow(ps: seq<SqlProjection>, bound: nat) {
    forall k | 0 <= k < |ps| :: ProjectionBelow(ps[k], bound)
  }

  /**
   * `sql_projection`: `*` or an expression with an optional alias, separated
   * by commas. It cannot report an error: a failing expression or a missing
   * alias after `AS` is unwrapped, which panics.
   */
  method Projections(ts: seq<Token>, st: State) returns (r: PResult<seq<SqlProjection>>)
    requires Valid(ts, st)
    ensures r.Ok? ==>
      && Progress(ts, st, r.value.st)
      && |r.value.value| > 0
      && ProjectionsBelow(r.value.value, |r.value.st.arena.expressions|)
    ensures r.Err? ==> r.error == Panicked
    decreases |ts| - st.pos, 98
  {
    var item :- Projection(ts, st);
    var cur, items := item.st, [item.value];
    while true
      invariant Progress(ts, st, cur)
      invariant |items| > 0 && ProjectionsBelow(items, |cur.arena.expressions|)
      decreases |ts| - cur.pos
    {
      var (more, after) := MatchNext(ts, cur, Sym(Comma));
      if !more {
        return Ok(Step(items, cur));
      }
      var next :- Projection(ts, after);
      items, cur := items + [next.value], next.st;
    }
  }

  /** One projection: `*`, or `expression().unwrap()` and the optional alias. */
  method Projection(ts: seq<Token>, st: State) returns (r: PResult<SqlProjection>)
    requires Valid(ts, st)
    ensures r.Ok? ==>
      && Progress(ts, st, r.value.st)
      && (r.value.value == SqlProjection.All <==> Check(ts, st, Sym(Star)))
      && ProjectionBelow(r.value.value, |r.value.st.arena.expressions|)
    ensures r.Err? ==> r.error == Panicked
    decreases |ts| - st.pos, 97
  {
    var (star, after) := MatchNext(ts, st, Sym(Star));
    if star {
      return Ok(Step(SqlProjection.All, after));
    }
    var e := ParseExpression(ts, st);
    if e.Err? {
      return Err(Panicked);
    }
    var alias :- OptionalAlias(ts, e.value.st);
    r := Ok(Step(Complex(SqlExpr.Default(e.value.value), alias.token), alias.st));
  }

  /**
   * `optional_with_expected!(As, Identifier)`: `AS name`, a bare `name`, or
   * nothing; `AS` without a name panics.
   */
  function OptionalAlias(ts: seq<Token>, st: State): (r: Result<MaybeToken, Failure>)
    requires Valid(ts, st)
    ensures r.Ok? ==> Stays(ts, st, r.value.st) && r.value.st.arena == st.arena
    ensures r.Ok? ==> (r.value.token.None? <==> r.value.st.pos == st.pos)
    ensures r.Ok? && r.value.token.Some? ==> r.value.token.value.tokType == Identifier(false)
    ensures r.Err? <==> Check(ts, st, Skw(SqlKeyword.As)) && ts[st.pos + 1].tokType != Identifier(false)
    ensures r.Err? ==> r.error == Panicked
  {
    var (as_, afterAs) := MatchNext(ts, st, Skw(SqlKeyword.As));
    if as_ then
      match Expected(ts, afterAs, Identifier(false))
      case Err(_) => Err(Panicked)
      case Ok(m) => Ok(MaybeToken(Some(m.token), m.st))
    else
      var (bare, after) := MatchNext(ts, st, Identifier(false));
      if bare then Ok(MaybeToken(Some(Previous(ts, after)), after))
      else Ok(MaybeToken(Option.None, st))
  }

  /** `sql_from`: `FROM table`; a missing table name is unwrapped, which panics. */
  function FromClause(ts: seq<Token>, st: State): (r: PResult<Option<SqlFrom>>)
    requires Valid(ts, st)
    ensures r.Ok? ==> Stays(ts, st, r.value.st) && r.value.st.arena == st.arena
    ensures r.Ok? ==> (r.value.value.Some? <==> Check(ts, st, Skw(SqlKeyword.From)))
    ensures r.Ok? && r.value.value.Some? ==>
      && r.value.value.value.TableSubquery? && |r.value.value.value.subqueries| == 1
      && r.value.value.value.subqueries[0] == Simple(Option.None, ts[st.pos + 1], Option.None)
      && FromBelow(r.value.value.value, |st.arena.expressions|)
    ensures r.Err? ==> r.error == Panicked
  {
    var (from, after) := MatchNext(ts, st, Skw(SqlKeyword.From));
    if from then
      match Expected(ts, after, Identifier(false))
      case Err(_) => Err(Panicked)
      case Ok(m) => Ok(Step(Some(TableSubquery([Simple(Option.None, m.token, Option.None)])), m.st))
    else Ok(Step(Option.None, st))
  }

  /** `sql_where`: `WHERE expression`. */
  method WhereClause(ts: seq<Token>, st: State) returns (r: PResult<Option<SqlExpr>>)
    requires Valid(ts, st)
    ensures r.Ok? ==> Stays(ts, st, r.value.st) && OptSqlExprBelow(r.value.value, |r.value.st.arena.expressions|)
    ensures r.Ok? ==> (r.value.value.Some? <==> Check(ts, st, Skw(SqlKeyword.Where)))
    decreases |ts| - st.pos, 0
  {
    var (where, after) := MatchNext(ts, st, Skw(SqlKeyword.Where));
    if !where {
      return Ok(Step(Option.None, st));
    }
    var e :- ParseExpression(ts, after);
    r := Ok(Step(Some(SqlExpr.Default(e.value)), e.st));
  }

  predicate CompoundsBelow(cs: seq<SqlCompound>, bound: nat) {
    forall k | 0 <= k < |cs| :: CoreBelow(cs[k].core, bound)
  }

  lemma CompoundsBelowMono(cs: seq<SqlCompound>, b: nat, b': nat)
    requires CompoundsBelow(cs, b) && b <= b'
    ensures CompoundsBelow(cs, b')
  {
    forall k | 0 <= k < |cs| ensures CoreBelow(cs[k].core, b') {
      CoreBelowMono(cs[k].core, b, b');
    }
  }

  lemma CompoundsCons(c: SqlCompound, cs: seq<SqlCompound>, bound: nat)
    requires CoreBelow(c.core, bound) && CompoundsBelow(cs, bound)
    ensures CompoundsBelow([c] + cs, bound)
  {
    assert forall k | 1 <= k < |cs| + 1 :: ([c] + cs)[k] == cs[k - 1];
  }

  const SetOperators: seq<TokenType> := [Skw(SqlKeyword.Union), Skw(SqlKeyword.Intersect), Skw(SqlKeyword.Except)]

  /**
   * The operator of a compound part, with the cursor just after `UNION`,
   * `INTERSECT` or `EXCEPT`: `UNION ALL` consumes the `ALL`.
   */
  function CompoundOperator(ts: seq<Token>, st: State): (r: Result<(SqlCompoundOperator, State), Failure>)
    requires Valid(ts, st)
    ensures r.Ok? ==> 0 < st.pos && Stays(ts, st, r.value.1) && r.value.1.arena == st.arena
    ensures r.Ok? ==>
      (r.value.0 == UnionAll <==> ts[st.pos - 1].tokType == Skw(SqlKeyword.Union) && Check(ts, st, Skw(SqlKeyword.All)))
    ensures r.Ok? ==>
      (r.value.0 == SqlCompoundOperator.Union <==>
         ts[st.pos - 1].tokType == Skw(SqlKeyword.Union) && !Check(ts, st, Skw(SqlKeyword.All)))
    ensures r.Ok? ==> (r.value.0 == SqlCompoundOperator.Intersect <==> ts[st.pos - 1].tokType == Skw(SqlKeyword.Intersect))
    ensures r.Ok? ==> (r.value.0 == SqlCompoundOperator.Except <==> ts[st.pos - 1].tokType == Skw(SqlKeyword.Except))
    ensures r.Ok? ==> r.value.1.pos == if r.value.0 == UnionAll then st.pos + 1 else st.pos
    ensures 0 < st.pos && ts[st.pos - 1].tokType in SetOperators ==> r.Ok?
  {
    var op :- PeekBack(ts, st, 1);
    var (all, after) :=
      if op.tokType == Skw(SqlKeyword.Union) then MatchNext(ts, st, Skw(SqlKeyword.All)) else (false, st);
    if all then Ok((UnionAll, after))
    else
      match op.tokType
      case Skw(Union) => Ok((SqlCompoundOperator.Union, after))
      case Skw(Intersect) => Ok((SqlCompoundOperator.Intersect, after))
      case Skw(Except) => Ok((SqlCompoundOperator.Except, after))
      case _ => Err(Reported(UnexpectedToken(op)))
  }

  /**
   * The operator a set-operator token at `p` stands for, read off the
   * tokens alone: `UNION` directly followed by `ALL` is `UNION ALL`.
   */
  function OperatorAt(ts: seq<Token>, p: nat): SqlCompoundOperator
    requires p + 1 < |ts| && ts[p].tokType in SetOperators
  {
    if ts[p].tokType == Skw(SqlKeyword.Union) then
      if ts[p + 1].tokType == Skw(SqlKeyword.All) then UnionAll else SqlCompoundOperator.Union
    else if ts[p].tokType == Skw(SqlKeyword.Intersect) then SqlCompoundOperator.Intersect
    else SqlCompoundOperator.Except
  }

  /**
   * Compound part `k` of `cs` was introduced by the set operator at
   * `at[k]`: the first one at `from`, the others at increasing positions
   * before `to`, each part carrying the operator its token stands for.
   */
  predicate PartsAt(ts: seq<Token>, from: nat, to: nat, cs: seq<SqlCompound>, at: seq<nat>) {
    && |at| == |cs|
    && (|at| > 0 ==> at[0] == from)
    && (forall k | 0 <= k < |at| ::
          && from <= at[k] < to && at[k] + 1 < |ts| && ts[at[k]].tokType in SetOperators
          && cs[k].op == OperatorAt(ts, at[k]))
    && (forall i, j | 0 <= i < j < |at| :: at[i] < at[j])
  }

  /** A part read at `from` in front of parts read from `to` on. */
  lemma PartsAtCons(ts: seq<Token>, from: nat, to: nat, end: nat, c: SqlCompound, cs: seq<SqlCompound>, at: seq<nat>)
    requires from < to <= end && from + 1 < |ts| && ts[from].tokType in SetOperators && c.op == OperatorAt(ts, from)
    requires PartsAt(ts, to, end, cs, at)
    ensures PartsAt(ts, from, end, [c] + cs, [from] + at)
  {
    var at', cs' := [from] + at, [c] + cs;
    forall k | 0 <= k < |at'|
      ensures from <= at'[k] < end && at'[k] + 1 < |ts| && ts[at'[k]].tokType in SetOperators
      ensures cs'[k].op == OperatorAt(ts, at'[k])
    {
      if k > 0 {
        assert at'[k] == at[k - 1] && cs'[k] == cs[k - 1];
      }
    }
    forall i, j | 0 <= i < j < |at'|
      ensures at'[i] < at'[j]
    {
      assert at'[j] == at[j - 1];
      if i > 0 {
        assert at'[i] == at[i - 1];
      }
    }
  }

  /** `CompoundOperator`, after a set-operator token, reads the operator that token stands for. */
  lemma OperatorAgrees(ts: seq<Token>, st: State)
    requires Valid(ts, st) && ts[st.pos].tokType in SetOperators
    ensures st.pos + 1 < |ts|
    ensures CompoundOperator(ts, Next(ts, st)).Ok?
    ensures CompoundOperator(ts, Next(ts, st)).value.0 == OperatorAt(ts, st.pos)
  {
  }

  /**
   * The `while match_next_multi([Union, Intersect, Except])` loop of
   * `select`, one iteration per call: each part is appended, so the parts
   * keep their source order.
   */
  method Compounds(ts: seq<Token>, st: State) returns (r: PResult<seq<SqlCompound>>)
    requires Valid(ts, st)
    ensures r.Ok? ==>
      && Stays(ts, st, r.value.st)
      && CompoundsBelow(r.value.value, |r.value.st.arena.expressions|)
    ensures r.Ok? && |r.value.value| > 0 ==>
      && ts[st.pos].tokType in SetOperators
      && CompoundOperator(ts, Next(ts, st)).Ok?
      && r.value.value[0].op == CompoundOperator(ts, Next(ts, st)).value.0
    ensures r.Ok? && ts[st.pos].tokType !in SetOperators ==> r.value.value == []
    ensures r.Ok? ==> exists at :: PartsAt(ts, st.pos, r.value.st.pos, r.value.value, at)
    decreases |ts| - st.pos, 0
  {
    var (m, after) := MatchAny(ts, st, SetOperators);
    if !m {
      assert PartsAt(ts, st.pos, st.pos, [], []);
      return Ok(Step([], st));
    }
    var part :- CompoundPart(ts, after);
    assert after == Next(ts, st);
    var rest :- Compounds(ts, part.st);
    CoreBelowMono(part.value.core, |part.st.arena.expressions|, |rest.st.arena.expressions|);
    CompoundsCons(part.value, rest.value, |rest.st.arena.expressions|);
    ghost var at :| PartsAt(ts, part.st.pos, rest.st.pos, rest.value, at);
    OperatorAgrees(ts, st);
    PartsAtCons(ts, st.pos, part.st.pos, rest.st.pos, part.value, rest.value, at);
    r := Ok(Step([part.value] + rest.value, rest.st));
  }

  /** One compound part, after its set operator: the operator and a select core. */
  method CompoundPart(ts: seq<Token>, st: State) returns (r: PResult<SqlCompound>)
    requires Valid(ts, st) && 0 < st.pos && ts[st.pos - 1].tokType in SetOperators
    ensures r.Ok? ==>
      && Progress(ts, st, r.value.st)
      && CoreBelow(r.value.value.core, |r.value.st.arena.expressions|)
      && CompoundOperator(ts, st).Ok?
      && r.value.value.op == CompoundOperator(ts, st).value.0
    decreases |ts| - st.pos, 78
  {
    var opr := CompoundOperator(ts, st).value;
    var core :- ParseSelectCore(ts, opr.1);
    r := Ok(Step(SqlCompound(opr.0, core.value), core.st));
  }

  // ---------------------------------------------------------------------------
  // Calls and atoms (parser.rs:639-718)

  /**
   * `call`: a primary expression followed by any number of argument lists;
   * each `(` wraps the expression so far into a call.
   */
  method ParseCall(ts: seq<Token>, st: State) returns (r: PResult<ExprId>)
    requires Valid(ts, st)
    ensures ExprOut(ts, st, r, CallRank)
    decreases |ts| - st.pos, 78
  {
    var callee :- ParsePrimary(ts, st);
    var acc := callee;
    while true
      invariant Progress(ts, st, acc.st)
      invariant acc.value < |acc.st.arena.expressions| && NodeRank(acc.st.arena.expressions[acc.value]) >= CallRank
      decreases |ts| - acc.st.pos
    {
      var (m, after) := MatchNext(ts, acc.st, Sym(LeftParen));
      if !m {
        return Ok(acc);
      }
      acc :- FinishCall(ts, after, acc.value);
    }
  }

  /** `finish_call`, after `(`: comma-separated arguments and `)`. */
  method FinishCall(ts: seq<Token>, st: State, callee: ExprId) returns (r: PResult<ExprId>)
    requires Valid(ts, st) && callee < |st.arena.expressions| && NodeRank(st.arena.expressions[callee]) >= CallRank
    ensures ExprOut(ts, st, r, CallRank)
    ensures r.Ok? ==>
      var e := r.value.st.arena.expressions[r.value.value];
      e.Call? && e.callee == callee && (|e.args| == 0 <==> Check(ts, st, Sym(RightParen)))
    decreases |ts| - st.pos, 97
  {
    var args: Step<seq<ExprId>>;
    if Check(ts, st, Sym(RightParen)) {
      args := Step([], st);
    } else {
      args :- Arguments(ts, st);
    }
    var paren :- Expected(ts, args.st, Sym(RightParen));
    r := Ok(EmitExpr(ts, paren.st, Call(callee, args.value)));
  }

  /** The argument list of `finish_call`: expressions separated by commas. */
  method Arguments(ts: seq<Token>, st: State) returns (r: PResult<seq<ExprId>>)
    requires Valid(ts, st)
    ensures r.Ok? ==>
      && Progress(ts, st, r.value.st)
      && |r.value.value| > 0
      && (forall k | 0 <= k < |r.value.value| :: r.value.value[k] < |r.value.st.arena.expressions|)
    decreases |ts| - st.pos, 96
  {
    var e :- ParseExpression(ts, st);
    var cur, args: seq<ExprId> := e.st, [e.value];
    while true
      invariant Progress(ts, st, cur)
      invariant |args| > 0 && forall k | 0 <= k < |args| :: args[k] < |cur.arena.expressions|
      decreases |ts| - cur.pos
    {
      var (more, after) := MatchNext(ts, cur, Sym(Comma));
      if !more {
        return Ok(Step(args, cur));
      }
      var next :- ParseExpression(ts, after);
      args, cur := args + [next.value], next.st;
    }
  }

  /**
   * `primary`: the cursor moves past the current token whatever it is; the
   * token then decides the node.
   */
  method ParsePrimary(ts: seq<Token>, st: State) returns (r: PResult<ExprId>)
    requires Valid(ts, st)
    ensures ExprOut(ts, st, r, AtomRank)
    ensures r.Ok? ==>
      var e := r.value.st.arena.expressions[r.value.value];
      && (ts[st.pos].tokType.Identifier? <==> e.Variable?)
      && (e.Variable? ==> e.name == ts[st.pos])
      && (Check(ts, st, Sym(LeftParen)) <==> e.Grouping?)
    ensures IsAtEnd(ts, st) ==> r == Err(Reported(UnexpectedToken(ts[st.pos])))
    decreases |ts| - st.pos, 76
  {
    var tok := ts[st.pos];
    if tok.tokType == Sym(LeftParen) {
      r := Grouping(ts, Next(ts, st));
      return;
    }
    var node :- AtomNode(tok);
    r := Ok(EmitExpr(ts, Next(ts, st), node));
  }

  /**
   * The node `primary` builds from a single token: a literal or a variable.
   * A string or number token without its literal or lexeme is unwrapped,
   * which panics; any other token is unexpected.
   */
  function AtomNode(tok: Token): (r: Result<Expr, Failure>)
    ensures r.Ok? ==> r.value.Literal? || r.value.Variable?
    ensures r.Ok? ==> (r.value.Variable? <==> tok.tokType.Identifier?) && (r.value.Variable? ==> r.value.name == tok)
    ensures r.Ok? <==>
      || tok.tokType in [True, False, TokenType.Null]
      || tok.tokType.Identifier?
      || (tok.tokType in [Str, Num] && tok.literal.Some? && tok.lexeme.Some?)
    ensures r.Err? ==> r.error == if tok.tokType in [Str, Num] then Panicked else Reported(UnexpectedToken(tok))
  {
    match tok.tokType
    case True => Ok(Literal(L.Bool(true), "true"))
    case False => Ok(Literal(L.Bool(false), "false"))
    case Null => Ok(Literal(L.Null, "null"))
    case Str | Num =>
      if tok.literal.None? || tok.lexeme.None? then Err(Panicked)
      else Ok(Literal(tok.literal.value, tok.lexeme.value))
    case Identifier(_) => Ok(Variable(tok))
    case _ => Err(Reported(UnexpectedToken(tok)))
  }

  /** The parenthesised case of `primary`, after `(`. */
  method Grouping(ts: seq<Token>, st: State) returns (r: PResult<ExprId>)
    requires Valid(ts, st)
    ensures ExprOut(ts, st, r, AtomRank)
    ensures r.Ok? ==> r.value.st.arena.expressions[r.value.value].Grouping?
    decreases |ts| - st.pos, 93
  {
    var e :- ParseExpression(ts, st);
    var rp :- Expected(ts, e.st, Sym(RightParen));
    r := Ok(EmitExpr(ts, rp.st, Expr.Grouping(e.value)));
  }

  // ---------------------------------------------------------------------------
  // Shapes of every tree the parser builds

  /**
   * Binary operators nest by precedence and to the left: an operand is
   * never an `or`, `and` or assignment node; the left operand is a binary
   * node of the same or a tighter level, the right one only of a tighter
   * level. So `a - b - c` can only be `(a - b) - c`, and `a * b + c` only
   * `(a * b) + c`.
   */
  lemma BinaryShape(a: ParserArena, i: ExprId)
    requires ArenaOk(a) && i < |a.expressions| && a.expressions[i].Binary?
    ensures var e := a.expressions[i];
      && e.left < |a.expressions| && e.right < |a.expressions|
      && IsBinaryOperator(e.symbol)
      && var l := a.expressions[e.left]; var r := a.expressions[e.right];
      && !l.Logical? && !l.Assignment? && !r.Logical? && !r.Assignment?
      && (l.Binary? ==> OperatorRank(l.symbol) >= OperatorRank(e.symbol))
      && (r.Binary? ==> OperatorRank(r.symbol) > OperatorRank(e.symbol))
  {
    assert NodeNested(a.expressions, a.expressions[i]);
  }

  /**
   * `or` and `and` take a single operator per level: an `or` node has no
   * `or` operand, and an `and` node has no logical operand at all.
   */
  lemma LogicalShape(a: ParserArena, i: ExprId)
    requires ArenaOk(a) && i < |a.expressions| && a.expressions[i].Logical?
    ensures var e := a.expressions[i];
      && e.left < |a.expressions| && e.right < |a.expressions|
      && (e.symbol == Kw(Keyword.Or) || e.symbol == Kw(Keyword.And))
      && var l := a.expressions[e.left]; var r := a.expressions[e.right];
      && !l.Assignment? && !r.Assignment?
      && (e.symbol == Kw(Keyword.Or) ==> !(l.Logical? && l.symbol == Kw(Keyword.Or)) && !(r.Logical? && r.symbol == Kw(Keyword.Or)))
      && (e.symbol == Kw(Keyword.And) ==> !l.Logical? && !r.Logical?)
  {
    assert NodeNested(a.expressions, a.expressions[i]);
  }

  /** A unary operator applies to a unary, call or atomic operand, never to a binary one. */
  lemma UnaryShape(a: ParserArena, i: ExprId)
    requires ArenaOk(a) && i < |a.expressions| && a.expressions[i].Unary?
    ensures var e := a.expressions[i];
      && (e.symbol == Sym(Minus) || e.symbol == Sym(Bang))
      && e.expr < |a.expressions|
      && var x := a.expressions[e.expr];
      && !x.Binary? && !x.Logical? && !x.Assignment?
  {
    assert NodeNested(a.expressions, a.expressions[i]);
  }

  /** Calls chain to the left: a callee is a call or an atom, so `f(a)(b)` calls `f(a)`. */
  lemma CallShape(a: ParserArena, i: ExprId)
    requires ArenaOk(a) && i < |a.expressions| && a.expressions[i].Call?
    ensures var e := a.expressions[i];
      && e.callee < |a.expressions|
      && var c := a.expressions[e.callee];
      && !c.Unary? && !c.Binary? && !c.Logical? && !c.Assignment?
  {
    assert NodeNested(a.expressions, a.expressions[i]);
  }

  /** Only an identifier is ever assigned to or read as a variable. */
  lemma IdentifierShape(a: ParserArena, i: ExprId)
    requires ArenaOk(a) && i < |a.expressions|
    ensures a.expressions[i].Assignment? ==> a.expressions[i].dst.tokType.Identifier?
    ensures a.expressions[i].Variable? ==> a.expressions[i].name.tokType.Identifier?
  {
    assert NodeNested(a.expressions, a.expressions[i]);
  }
}
