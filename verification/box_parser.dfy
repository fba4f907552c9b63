/**
 * The recursive-descent parser of the older front end
 * (src/lang/parsing/parser.rs), which builds boxed syntax trees. Every
 * rule takes the tokens and the cursor and returns the tree it built with
 * the next cursor, or the failure that stopped the parse.
 *
 * The Rust parser never returns an error: it prints a message and calls
 * `exit(1)`, which is `Fatal` here, or it panics (an `unwrap` on a missing
 * literal or lexeme, or `peek_bw(1)` before the first token), which is
 * `Panicked`.
 */
module BoxParser {
  import opened Wrappers
  import opened BoxSyntax

  datatype Failure = Fatal(message: string, line: nat) | Panicked

  /** The value a rule produced and the cursor after it. */
  datatype Step<T> = Step(value: T, pos: nat)

  /** The token `consume` returns and the cursor after it. */
  datatype Consumed = Consumed(token: Token, pos: nat)

  type PResult<T> = Result<Step<T>, Failure>

  // ---------------------------------------------------------------------------
  // Tokens and cursors

  /** The scanner's output always ends with an end-of-file token. */
  predicate WellFormedTokens(ts: seq<Token>) {
    |ts| > 0 && ts[|ts| - 1].tokType == Eof
  }

  /** The cursor is on a token, and no end-of-file token lies behind it. */
  predicate Valid(ts: seq<Token>, pos: nat) {
    && WellFormedTokens(ts)
    && pos < |ts|
    && forall i | 0 <= i < pos :: ts[i].tokType != Eof
  }

  /** `pos'` is a valid cursor strictly after `pos`. */
  predicate Progress(ts: seq<Token>, pos: nat, pos': nat) {
    Valid(ts, pos') && pos < pos'
  }

  /** `pos'` is a valid cursor at or after `pos`. */
  predicate Stays(ts: seq<Token>, pos: nat, pos': nat) {
    Valid(ts, pos') && pos <= pos'
  }

  /** `cmp_tok`. */
  predicate Check(ts: seq<Token>, pos: nat, t: TokenType)
    requires pos < |ts|
  {
    ts[pos].tokType == t
  }

  /** `is_at_end`. */
  predicate IsAtEnd(ts: seq<Token>, pos: nat)
    requires pos < |ts|
  {
    Check(ts, pos, Eof)
  }

  /** The cursor after a token that is not the end-of-file token. */
  function Next(ts: seq<Token>, pos: nat): (r: nat)
    requires Valid(ts, pos) && !IsAtEnd(ts, pos)
    ensures Progress(ts, pos, r) && r == pos + 1
  {
    pos + 1
  }

  /**
   * `advance`: moves the cursor unless it is on the end-of-file token, and
   * returns the token before the new cursor. At the end of a program with
   * no other token there is no such token, and the Rust code panics.
   */
  function Advance(ts: seq<Token>, pos: nat): (r: Result<Consumed, Failure>)
    requires Valid(ts, pos)
    ensures r.Ok? ==> Stays(ts, pos, r.value.pos) && r.value.pos > 0 && r.value.token == ts[r.value.pos - 1]
    ensures !IsAtEnd(ts, pos) ==> r == Ok(Consumed(ts[pos], pos + 1))
    ensures IsAtEnd(ts, pos) && 0 < pos ==> r == Ok(Consumed(ts[pos - 1], pos))
    ensures IsAtEnd(ts, pos) && pos == 0 ==> r == Err(Panicked)
  {
    var pos' := if IsAtEnd(ts, pos) then pos else pos + 1;
    if pos' == 0 then Err(Panicked) else Ok(Consumed(ts[pos' - 1], pos'))
  }

  /**
   * `match_next`: advances exactly one token when the current token has
   * type `t`, and leaves the cursor where it is otherwise. Every caller
   * asks for a type other than `Eof`.
   */
  function MatchNext(ts: seq<Token>, pos: nat, t: TokenType): (r: (bool, nat))
    requires Valid(ts, pos) && t != Eof
    ensures Stays(ts, pos, r.1)
    ensures r.0 <==> Check(ts, pos, t)
    ensures r.1 == if r.0 then pos + 1 else pos
  {
    if Check(ts, pos, t) then (true, Advance(ts, pos).value.pos) else (false, pos)
  }

  /** `match_next_multi`: the candidates are tried in list order. */
  function MatchAny(ts: seq<Token>, pos: nat, types: seq<TokenType>): (r: (bool, nat))
    requires Valid(ts, pos) && Eof !in types
    ensures Stays(ts, pos, r.1)
    ensures r.0 <==> ts[pos].tokType in types
    ensures r.1 == if r.0 then pos + 1 else pos
  {
    if |types| == 0 then (false, pos)
    else if Check(ts, pos, types[0]) then MatchNext(ts, pos, types[0])
    else
      var r := MatchAny(ts, pos, types[1..]);
      assert types == [types[0]] + types[1..];
      r
  }

  /**
   * `consume`: on a match it advances and returns the token it passed; on
   * a mismatch it reports `message` at the current line and exits.
   */
  function Consume(ts: seq<Token>, pos: nat, t: TokenType, message: string): (r: Result<Consumed, Failure>)
    requires Valid(ts, pos)
    ensures r.Ok? ==> Stays(ts, pos, r.value.pos)
    ensures Check(ts, pos, t) && t != Eof ==> r == Ok(Consumed(ts[pos], pos + 1))
    ensures Check(ts, pos, t) && t == Eof ==> r == (if pos == 0 then Err(Panicked) else Ok(Consumed(ts[pos - 1], pos)))
    ensures !Check(ts, pos, t) ==> r == Err(Fatal(message, ts[pos].line))
  {
    if Check(ts, pos, t) then Advance(ts, pos) else Err(Fatal(message, ts[pos].line))
  }

  // ---------------------------------------------------------------------------
  // The shape of the trees

  const AssignmentRank: nat := 0
  const OrRank: nat := 1
  const AndRank: nat := 2
  const EqualityRank: nat := 3
  const FactorRank: nat := 6
  const UnaryRank: nat := 7
  const CallRank: nat := 8
  const AtomRank: nat := 9

  /** The operators of the binary levels: equality, comparison, term, factor. */
  function BinaryOperators(level: nat): seq<TokenType>
    requires EqualityRank <= level <= FactorRank
  {
    if level == 3 then [BangEqual, EqualEqual]
    else if level == 4 then [Greater, GreaterEqual, Less, LessEqual]
    else if level == 5 then [Plus, Minus]
    else [Star, Slash]
  }

  /** The level a binary operator belongs to; 0 for any other token. */
  function OperatorRank(t: TokenType): nat {
    match t
    case BangEqual | EqualEqual => 3
    case Greater | GreaterEqual | Less | LessEqual => 4
    case Plus | Minus => 5
    case Star | Slash => 6
    case _ => 0
  }

  lemma BinaryOperatorsRank(level: nat, t: TokenType)
    requires EqualityRank <= level <= FactorRank && t in BinaryOperators(level)
    ensures OperatorRank(t) == level && t != Eof
  {
  }

  /** How tightly a node binds: the grammar level that produces it. */
  function Rank(e: Expr): nat {
    match e
    case Assignment(_, _) => AssignmentRank
    case Logical(_, op, _) => if op.tokType == Or then OrRank else AndRank
    case Binary(op, _, _) => OperatorRank(op.tokType)
    case Unary(_, _) => UnaryRank
    case Call(_, _, _) => CallRank
    case _ => AtomRank
  }

  /**
   * The shape the grammar gives an expression tree: binary operators nest
   * to the left (the left operand binds at least as tightly, the right one
   * strictly more), `or` and `and` take operands of the next level only,
   * unary operators apply to unary-or-tighter operands, calls apply to
   * calls or atoms and end with `)`, and only identifiers are read or
   * assigned.
   */
  predicate Shaped(e: Expr) {
    match e
    case Binary(op, l, r) =>
      && OperatorRank(op.tokType) != 0
      && Rank(l) >= OperatorRank(op.tokType) && Rank(r) > OperatorRank(op.tokType)
      && Shaped(l) && Shaped(r)
    case Logical(l, op, r) =>
      && (op.tokType == Or || op.tokType == And)
      && Rank(l) > Rank(e) && Rank(r) > Rank(e)
      && Shaped(l) && Shaped(r)
    case Unary(op, x) => (op.tokType == Minus || op.tokType == Bang) && Rank(x) >= UnaryRank && Shaped(x)
    case Call(c, paren, args) =>
      && paren.tokType == RightParen && Rank(c) >= CallRank && Shaped(c)
      && forall i | 0 <= i < |args| :: Shaped(args[i])
    case Grouping(x) => Shaped(x)
    case Assignment(name, v) => name.tokType == Identifier && Shaped(v)
    case Variable(name) => name.tokType == Identifier
    case Literal(_) => true
  }

  /**
   * The shape of a statement tree: its expressions are shaped, a loop's
   * post statement is an expression statement, and declared names and
   * parameters are identifiers.
   */
  predicate StmtShaped(s: Stmt) {
    match s
    case Expression(e) => Shaped(e)
    case Declaration(name, init) => name.tokType == Identifier && Shaped(init)
    case Block(ss) => forall i | 0 <= i < |ss| :: StmtShaped(ss[i])
    case If(c, t, e) => Shaped(c) && StmtShaped(t) && (e.Some? ==> StmtShaped(e.value))
    case Loop(c, b, p) =>
      && (c.Some? ==> Shaped(c.value)) && StmtShaped(b)
      && (p.Some? ==> p.value.Expression? && StmtShaped(p.value))
    case Break(_) => true
    case Continue(_) => true
    case Return(_, v) => v.Some? ==> Shaped(v.value)
    case Function(name, params, body) =>
      && name.tokType == Identifier
      && Identifiers(params)
      && (forall i | 0 <= i < |body| :: StmtShaped(body[i]))
  }

  predicate AllShaped(ss: seq<Stmt>) {
    forall i | 0 <= i < |ss| :: StmtShaped(ss[i])
  }

  /** A successful expression rule consumed tokens and built a shaped tree of at least `rank`. */
  predicate ExprOut(ts: seq<Token>, pos: nat, r: PResult<Expr>, rank: nat) {
    r.Ok? ==> Progress(ts, pos, r.value.pos) && Shaped(r.value.value) && Rank(r.value.value) >= rank
  }

  /** A successful statement rule consumed tokens and built a shaped statement. */
  predicate StmtOut(ts: seq<Token>, pos: nat, r: PResult<Stmt>) {
    r.Ok? ==> Progress(ts, pos, r.value.pos) && StmtShaped(r.value.value)
  }

  // ---------------------------------------------------------------------------
  // Program and statements (parser.rs:27-210)

  datatype Mode = AsWritten | Corrected

  /**
   * `parse` and `program`: declarations up to the end-of-file token, then
   * `consume(Eof)`. In `AsWritten` mode that final `consume` runs as in the
   * source, and an empty program panics; `Corrected` skips it, since the
   * loop has already stopped on the end-of-file token.
   */
  method ParseWith(ts: seq<Token>, mode: Mode) returns (r: Result<seq<Stmt>, Failure>)
    requires WellFormedTokens(ts)
    ensures r.Ok? ==> AllShaped(r.value)
    ensures ts[0].tokType == Eof && mode == AsWritten ==> r == Err(Panicked)
    ensures ts[0].tokType == Eof && mode == Corrected ==> r == Ok([])
  {
    var body :- Declarations(ts, 0);
    r := Finish(ts, body, mode);
  }

  /** The parser as it is evidently meant to work: an empty program parses. */
  method Parse(ts: seq<Token>) returns (r: Result<seq<Stmt>, Failure>)
    requires WellFormedTokens(ts)
    ensures r.Ok? ==> AllShaped(r.value)
    ensures ts[0].tokType == Eof ==> r == Ok([])
  {
    r := ParseWith(ts, Corrected);
  }

  /**
   * The end of `program`, once the cursor is on the end-of-file token. The
   * two modes agree except when no token was consumed: there `consume(Eof)`
   * looks for the token before the first one.
   */
  function Finish(ts: seq<Token>, body: Step<seq<Stmt>>, mode: Mode): (r: Result<seq<Stmt>, Failure>)
    requires Valid(ts, body.pos) && IsAtEnd(ts, body.pos)
    ensures r.Err? <==> mode == AsWritten && body.pos == 0
    ensures r.Err? ==> r.error == Panicked
    ensures r.Ok? ==> r.value == body.value
  {
    var end :-
      if mode == AsWritten then Consume(ts, body.pos, Eof, "Expected EOF char at the end of file")
      else Ok(Consumed(ts[body.pos], body.pos));
    Ok(body.value)
  }

  /** The `while !is_at_end()` loop of `program`. */
  method Declarations(ts: seq<Token>, pos: nat) returns (r: PResult<seq<Stmt>>)
    requires Valid(ts, pos)
    ensures r.Ok? ==> Stays(ts, pos, r.value.pos) && IsAtEnd(ts, r.value.pos) && AllShaped(r.value.value)
    ensures IsAtEnd(ts, pos) ==> r == Ok(Step([], pos))
    decreases |ts| - pos, 100
  {
    var cur, stmts: seq<Stmt> := pos, [];
    while !IsAtEnd(ts, cur)
      invariant Stays(ts, pos, cur) && AllShaped(stmts)
      invariant IsAtEnd(ts, pos) ==> cur == pos && stmts == []
      decreases |ts| - cur
    {
      var d :- ParseDeclaration(ts, cur);
      stmts, cur := stmts + [d.value], d.pos;
    }
    r := Ok(Step(stmts, cur));
  }

  /** `declaration`: `var` and `fun` declarations, or a statement. */
  method ParseDeclaration(ts: seq<Token>, pos: nat) returns (r: PResult<Stmt>)
    requires Valid(ts, pos)
    ensures StmtOut(ts, pos, r)
    ensures r.Ok? && Check(ts, pos, Var) ==> r.value.value.Declaration?
    ensures r.Ok? && Check(ts, pos, Fun) ==> r.value.value.Function?
    decreases |ts| - pos, 95
  {
    if Check(ts, pos, Var) {
      r := VarDeclaration(ts, Next(ts, pos));
    } else if Check(ts, pos, Fun) {
      r := FunDeclaration(ts, Next(ts, pos));
    } else {
      r := ParseStatement(ts, pos);
    }
  }

  /** `statement`: the keyword or brace in front selects the rule. */
  method ParseStatement(ts: seq<Token>, pos: nat) returns (r: PResult<Stmt>)
    requires Valid(ts, pos)
    ensures StmtOut(ts, pos, r)
    decreases |ts| - pos, 94
  {
    match ts[pos].tokType
    case If => r := IfStatement(ts, Next(ts, pos));
    case While => r := WhileStatement(ts, Next(ts, pos));
    case For => r := ForStatement(ts, Next(ts, pos));
    case Loop => r := LoopStatement(ts, Next(ts, pos));
    case Break => r := JumpStatement(ts, Next(ts, pos), false);
    case Continue => r := JumpStatement(ts, Next(ts, pos), true);
    case Return => r := ReturnStatement(ts, Next(ts, pos));
    case LeftBrace => r := ParseBlock(ts, Next(ts, pos));
    case _ => r := ExpressionStatement(ts, pos);
  }

  /** `if_statement`, after `if`: a parenthesised condition, then the branches. */
  method IfStatement(ts: seq<Token>, pos: nat) returns (r: PResult<Stmt>)
    requires Valid(ts, pos)
    ensures StmtOut(ts, pos, r)
    ensures r.Ok? ==> r.value.value.If?
    decreases |ts| - pos, 0
  {
    var lp :- Consume(ts, pos, LeftParen, "Expected '(' after if.");
    var c :- ParseExpression(ts, lp.pos);
    var rp :- Consume(ts, c.pos, RightParen, "Expected ')' after if condition.");
    r := IfBranches(ts, pos, c.value, rp.pos);
  }

  /** The branches of `if_statement`: a statement, then `else` and a statement, if present. */
  method IfBranches(ts: seq<Token>, from: nat, cond: Expr, pos: nat) returns (r: PResult<Stmt>)
    requires Progress(ts, from, pos) && Shaped(cond)
    ensures StmtOut(ts, from, r)
    ensures r.Ok? ==> r.value.value.If? && r.value.value.condition == cond
    decreases |ts| - pos, 95
  {
    var body :- ParseStatement(ts, pos);
    var (e, after) := MatchNext(ts, body.pos, Else);
    if !e {
      return Ok(Step(Stmt.If(cond, body.value, None), body.pos));
    }
    var alt :- ParseStatement(ts, after);
    r := Ok(Step(Stmt.If(cond, body.value, Some(alt.value)), alt.pos));
  }

  /** `loop_statement`, after `loop`: a loop with neither condition nor post statement. */
  method LoopStatement(ts: seq<Token>, pos: nat) returns (r: PResult<Stmt>)
    requires Valid(ts, pos)
    ensures StmtOut(ts, pos, r)
    ensures r.Ok? ==> r.value.value.Loop? && r.value.value.guard.None? && r.value.value.post.None?
    ensures r.Ok? && Check(ts, pos, Var) ==> r.value.value.body.Declaration?
    ensures r.Ok? && Check(ts, pos, Fun) ==> r.value.value.body.Function?
    decreases |ts| - pos, 96
  {
    var body :- ParseDeclaration(ts, pos);
    r := Ok(Step(Stmt.Loop(None, body.value, None), body.pos));
  }

  /** `while_statement`, after `while`: a loop with a condition and no post statement. */
  method WhileStatement(ts: seq<Token>, pos: nat) returns (r: PResult<Stmt>)
    requires Valid(ts, pos)
    ensures StmtOut(ts, pos, r)
    ensures r.Ok? ==> r.value.value.Loop? && r.value.value.guard.Some? && r.value.value.post.None?
    ensures r.Ok? ==> Check(ts, pos, LeftParen)
    ensures !Check(ts, pos, LeftParen) ==> r == Err(Fatal("Expected '(' after while.", ts[pos].line))
    decreases |ts| - pos, 0
  {
    var lp :- Consume(ts, pos, LeftParen, "Expected '(' after while.");
    var c :- ParseExpression(ts, lp.pos);
    var rp :- Consume(ts, c.pos, RightParen, "Expected ')' after while condition.");
    var body :- ParseDeclaration(ts, rp.pos);
    r := Ok(Step(Stmt.Loop(Some(c.value), body.value, None), body.pos));
  }

  /**
   * `return_statement`, after `return`: the keyword token, and a value
   * unless `;` follows directly.
   */
  method ReturnStatement(ts: seq<Token>, pos: nat) returns (r: PResult<Stmt>)
    requires Valid(ts, pos) && 0 < pos
    ensures StmtOut(ts, pos, r)
    ensures r.Ok? ==>
      && r.value.value.Return? && r.value.value.keyword == ts[pos - 1]
      && (r.value.value.result.None? <==> Check(ts, pos, Semicolon))
    decreases |ts| - pos, 96
  {
    var value: Step<Option<Expr>>;
    if Check(ts, pos, Semicolon) {
      value := Step(None, pos);
    } else {
      var e :- ParseExpression(ts, pos);
      value := Step(Some(e.value), e.pos);
    }
    var semi :- Consume(ts, value.pos, Semicolon, "Expected ';' after return value.");
    r := Ok(Step(Stmt.Return(ts[pos - 1], value.value), semi.pos));
  }

  /** `break_statement` and `continue_statement`, after the keyword: a `;` must follow. */
  function JumpStatement(ts: seq<Token>, pos: nat, isContinue: bool): (r: PResult<Stmt>)
    requires Valid(ts, pos) && 0 < pos
    ensures StmtOut(ts, pos, r)
    ensures r.Ok? <==> Check(ts, pos, Semicolon)
    ensures r.Ok? ==> r.value.value == if isContinue then Stmt.Continue(ts[pos - 1]) else Stmt.Break(ts[pos - 1])
  {
    var semi :- Consume(ts, pos, Semicolon, "Expected ';' after value");
    var keyword := ts[pos - 1];
    Ok(Step(if isContinue then Stmt.Continue(keyword) else Stmt.Break(keyword), semi.pos))
  }

  /** The three optional clauses of `for_statement`. */
  datatype ForClauses = ForClauses(init: Option<Stmt>, cond: Option<Expr>, inc: Option<Stmt>)

  predicate ClausesShaped(c: ForClauses) {
    && (c.init.Some? ==> StmtShaped(c.init.value))
    && (c.cond.Some? ==> Shaped(c.cond.value))
    && (c.inc.Some? ==> c.inc.value.Expression? && StmtShaped(c.inc.value))
  }

  /**
   * `for_statement`, after `for`: desugared into a loop whose post
   * statement is the increment; an initializer wraps the loop in a block
   * `{ initializer; loop }`.
   */
  method ForStatement(ts: seq<Token>, pos: nat) returns (r: PResult<Stmt>)
    requires Valid(ts, pos)
    ensures StmtOut(ts, pos, r)
    ensures r.Ok? ==>
      var s := r.value.value;
      && pos + 1 < |ts|
      && (ts[pos + 1].tokType == Semicolon ==> s.Loop?)
      && (ts[pos + 1].tokType != Semicolon ==> s.Block? && |s.stmts| == 2 && s.stmts[1].Loop?)
    decreases |ts| - pos, 0
  {
    var lp :- Consume(ts, pos, LeftParen, "Expected '(' after for.");
    assert lp.pos == pos + 1;
    var clauses :- ParseForClauses(ts, lp.pos);
    var body :- ParseDeclaration(ts, clauses.pos);
    var s := Desugar(clauses.value, body.value);
    assert ts[pos + 1].tokType == Semicolon <==> clauses.value.init.None?;
    r := Ok(Step(s, body.pos));
  }

  /**
   * The desugaring of `for_statement`: the condition and increment go into
   * a loop around the body, and the initializer, if any, runs first in a
   * block.
   */
  function Desugar(c: ForClauses, body: Stmt): (r: Stmt)
    requires ClausesShaped(c) && StmtShaped(body)
    ensures StmtShaped(r)
    ensures c.init.None? ==> r == Stmt.Loop(c.cond, body, c.inc)
    ensures c.init.Some? ==> r == Block([c.init.value, Stmt.Loop(c.cond, body, c.inc)])
  {
    var loop := Stmt.Loop(c.cond, body, c.inc);
    if c.init.None? then loop
    else
      var r := Block([c.init.value, loop]);
      assert forall i | 0 <= i < 2 :: StmtShaped(r.stmts[i]);
      r
  }

  /** The clauses of `for_statement` after `(`, up to and including `)`. */
  method ParseForClauses(ts: seq<Token>, pos: nat) returns (r: PResult<ForClauses>)
    requires Valid(ts, pos)
    ensures r.Ok? ==>
      && Progress(ts, pos, r.value.pos)
      && ClausesShaped(r.value.value)
      && (r.value.value.init.None? <==> Check(ts, pos, Semicolon))
    decreases |ts| - pos, 97
  {
    var init :- ForInitializer(ts, pos);
    var cond :- ForCondition(ts, init.pos);
    var inc :- ForIncrement(ts, cond.pos);
    r := Ok(Step(ForClauses(init.value, cond.value, inc.value), inc.pos));
  }

  /** The initializer of `for_statement`: `;` alone, or a declaration. */
  method ForInitializer(ts: seq<Token>, pos: nat) returns (r: PResult<Option<Stmt>>)
    requires Valid(ts, pos)
    ensures r.Ok? ==>
      && Progress(ts, pos, r.value.pos)
      && (r.value.value.None? <==> Check(ts, pos, Semicolon))
      && (r.value.value.Some? ==> StmtShaped(r.value.value.value))
    decreases |ts| - pos, 96
  {
    var (empty, after) := MatchNext(ts, pos, Semicolon);
    if empty {
      return Ok(Step(None, after));
    }
    var d :- ParseDeclaration(ts, pos);
    r := Ok(Step(Some(d.value), d.pos));
  }

  /** The condition of `for_statement`: `;` alone, or an expression and `;`. */
  method ForCondition(ts: seq<Token>, pos: nat) returns (r: PResult<Option<Expr>>)
    requires Valid(ts, pos)
    ensures r.Ok? ==>
      && Progress(ts, pos, r.value.pos)
      && (r.value.value.None? <==> Check(ts, pos, Semicolon))
      && (r.value.value.Some? ==> Shaped(r.value.value.value))
    decreases |ts| - pos, 96
  {
    var (empty, after) := MatchNext(ts, pos, Semicolon);
    if empty {
      return Ok(Step(None, after));
    }
    var c :- ParseExpression(ts, pos);
    var semi :- Consume(ts, c.pos, Semicolon, "Expected ';' after expression.");
    r := Ok(Step(Some(c.value), semi.pos));
  }

  /**
   * The increment of `for_statement`: `)` alone, or an expression and `)`;
   * the expression becomes an expression statement.
   */
  method ForIncrement(ts: seq<Token>, pos: nat) returns (r: PResult<Option<Stmt>>)
    requires Valid(ts, pos)
    ensures r.Ok? ==>
      && Progress(ts, pos, r.value.pos)
      && (r.value.value.None? <==> Check(ts, pos, RightParen))
      && (r.value.value.Some? ==> r.value.value.value.Expression? && StmtShaped(r.value.value.value))
    decreases |ts| - pos, 96
  {
    var (empty, after) := MatchNext(ts, pos, RightParen);
    if empty {
      return Ok(Step(None, after));
    }
    var e :- ParseExpression(ts, pos);
    var rp :- Consume(ts, e.pos, RightParen, "Expected ')' after body.");
    r := Ok(Step(Some(Expression(e.value)), rp.pos));
  }

  /** `block`, after `{`: declarations up to `}` or the end of the tokens, then `}`. */
  method ParseBlock(ts: seq<Token>, pos: nat) returns (r: PResult<Stmt>)
    requires Valid(ts, pos)
    ensures StmtOut(ts, pos, r)
    ensures r.Ok? ==> r.value.value.Block?
    ensures Check(ts, pos, RightBrace) ==> r == Ok(Step(Block([]), pos + 1))
    ensures r.Ok? && !Check(ts, pos, RightBrace) ==> |r.value.value.stmts| > 0
    ensures IsAtEnd(ts, pos) ==> r == Err(Fatal("Expected '}' after block.", ts[pos].line))
    decreases |ts| - pos, 99
  {
    var inner :- BlockDeclarations(ts, pos);
    var close :- Consume(ts, inner.pos, RightBrace, "Expected '}' after block.");
    r := Ok(Step(Block(inner.value), close.pos));
  }

  /** The declarations of `block`, up to `}` or the end of the tokens. */
  method BlockDeclarations(ts: seq<Token>, pos: nat) returns (r: PResult<seq<Stmt>>)
    requires Valid(ts, pos)
    ensures r.Ok? ==> Stays(ts, pos, r.value.pos) && AllShaped(r.value.value)
    ensures r.Ok? ==> (r.value.value == [] <==> r.value.pos == pos)
    ensures r.Ok? ==> Check(ts, r.value.pos, RightBrace) || IsAtEnd(ts, r.value.pos)
    ensures Check(ts, pos, RightBrace) || IsAtEnd(ts, pos) ==> r == Ok(Step([], pos))
    decreases |ts| - pos, 98
  {
    var cur, stmts: seq<Stmt> := pos, [];
    while !Check(ts, cur, RightBrace) && !IsAtEnd(ts, cur)
      invariant Stays(ts, pos, cur) && AllShaped(stmts)
      invariant Check(ts, pos, RightBrace) || IsAtEnd(ts, pos) ==> cur == pos
      invariant |stmts| == 0 <==> cur == pos
      decreases |ts| - cur
    {
      var d :- ParseDeclaration(ts, cur);
      stmts, cur := stmts + [d.value], d.pos;
    }
    r := Ok(Step(stmts, cur));
  }

  /** `expression_statement`: an expression and `;`. */
  method ExpressionStatement(ts: seq<Token>, pos: nat) returns (r: PResult<Stmt>)
    requires Valid(ts, pos)
    ensures StmtOut(ts, pos, r)
    ensures r.Ok? ==> r.value.value.Expression?
    decreases |ts| - pos, 93
  {
    var e :- ParseExpression(ts, pos);
    var semi :- Consume(ts, e.pos, Semicolon, "Expected ';' after expression");
    r := Ok(Step(Expression(e.value), semi.pos));
  }

  /**
   * `fun_declaration`, after `fun`: a name, the parameters in parentheses
   * and a block, whose statements become the body.
   */
  method FunDeclaration(ts: seq<Token>, pos: nat) returns (r: PResult<Stmt>)
    requires Valid(ts, pos)
    ensures StmtOut(ts, pos, r)
    ensures r.Ok? ==> DeclaredAt(ts, pos, r.value.value)
    decreases |ts| - pos, 0
  {
    var header :- FunctionHeader(ts, pos);
    r := FunctionRest(ts, pos, header);
  }

  /** The body after a parsed header, and the declaration they make. */
  method FunctionRest(ts: seq<Token>, pos: nat, header: Step<FunHeader>) returns (r: PResult<Stmt>)
    requires Valid(ts, header.pos) && pos < header.pos
    requires pos + 2 < |ts| && header.value.name == ts[pos] && ts[pos].tokType == Identifier
    requires |header.value.params| == 0 <==> Check(ts, pos + 2, RightParen)
    requires Identifiers(header.value.params) && InSourceOrder(ts, pos + 2, header.value.params)
    requires header.pos == pos + 2 + ListLength(|header.value.params|)
    ensures StmtOut(ts, pos, r)
    ensures r.Ok? ==> DeclaredAt(ts, pos, r.value.value)
    decreases |ts| - header.pos, 1
  {
    var body :- FunctionBody(ts, header.pos);
    FunctionAssembled(ts, pos, header.value, header.pos, body.value);
    r := Ok(Step(Stmt.Function(header.value.name, header.value.params, body.value), body.pos));
  }

  /**
   * `f` is the function declared from `pos` on: its name is the token at
   * `pos`; parameter `k` is the token `2k` after `(`, in source order, with
   * none exactly when `)` follows `(`; and its body is empty exactly when
   * `}` directly follows `{`.
   */
  predicate DeclaredAt(ts: seq<Token>, pos: nat, f: Stmt) {
    && f.Function? && pos + 2 < |ts| && f.name == ts[pos]
    && (|f.params| == 0 <==> ts[pos + 2].tokType == RightParen)
    && InSourceOrder(ts, pos + 2, f.params)
    && pos + 3 + ListLength(|f.params|) < |ts|
    && (f.funBody == [] <==> ts[pos + 3 + ListLength(|f.params|)].tokType == RightBrace)
  }

  /** A header ending at `hpos`, then a body read after the `{` at `hpos`, make a declaration. */
  lemma FunctionAssembled(ts: seq<Token>, pos: nat, h: FunHeader, hpos: nat, body: seq<Stmt>)
    requires pos + 2 < |ts| && h.name == ts[pos]
    requires |h.params| == 0 <==> ts[pos + 2].tokType == RightParen
    requires InSourceOrder(ts, pos + 2, h.params)
    requires hpos == pos + 2 + ListLength(|h.params|) && hpos + 1 < |ts|
    requires body == [] <==> ts[hpos + 1].tokType == RightBrace
    requires h.name.tokType == Identifier && Identifiers(h.params) && AllShaped(body)
    ensures DeclaredAt(ts, pos, Stmt.Function(h.name, h.params, body))
    ensures StmtShaped(Stmt.Function(h.name, h.params, body))
  {
  }


  /** `{` and a block, whose statements are the function body; `{}` gives the empty body. */
  method FunctionBody(ts: seq<Token>, pos: nat) returns (r: PResult<seq<Stmt>>)
    requires Valid(ts, pos)
    ensures r.Ok? ==>
      && Progress(ts, pos, r.value.pos) && AllShaped(r.value.value)
      && pos + 1 < |ts|
      && (r.value.value == [] <==> ts[pos + 1].tokType == RightBrace)
    decreases |ts| - pos, 0
  {
    var lb :- Consume(ts, pos, LeftBrace, "Expected '{' before function body");
    var block :- ParseBlock(ts, lb.pos);
    r := Ok(Step(block.value.stmts, block.pos));
  }

  /** The name and the parameters of a function declaration. */
  datatype FunHeader = FunHeader(name: Token, params: seq<Token>)

  predicate Identifiers(ps: seq<Token>) {
    forall i | 0 <= i < |ps| :: ps[i].tokType == Identifier
  }

  /** The tokens a parameter list of `n` names takes up after `(`, the `)` included. */
  function ListLength(n: nat): nat {
    if n == 0 then 1 else 2 * n
  }

  /**
   * `ps` are the tokens at every other position from `from` on: the
   * parameters of a list with one comma between neighbours, in source order.
   */
  predicate InSourceOrder(ts: seq<Token>, from: nat, ps: seq<Token>) {
    forall k | 0 <= k < |ps| :: from + 2 * k < |ts| && ps[k] == ts[from + 2 * k]
  }

  /** The name and the parameter list of `fun_declaration`, up to and including `)`. */
  function FunctionHeader(ts: seq<Token>, pos: nat): (r: PResult<FunHeader>)
    requires Valid(ts, pos)
    ensures r.Ok? ==>
      && Progress(ts, pos, r.value.pos)
      && r.value.value.name == ts[pos] && ts[pos].tokType == Identifier
      && pos + 2 < |ts|
      && (|r.value.value.params| == 0 <==> Check(ts, pos + 2, RightParen))
      && Identifiers(r.value.value.params)
      && InSourceOrder(ts, pos + 2, r.value.value.params)
      && r.value.pos == pos + 2 + ListLength(|r.value.value.params|)
  {
    var name :- Consume(ts, pos, Identifier, "Expected identifier after 'fun'");
    assert name == Consumed(ts[pos], pos + 1);
    var params :- ParenParameters(ts, pos + 1);
    Ok(Step(FunHeader(ts[pos], params.value), params.pos))
  }

  /** `(`, then the parameter list of `fun_declaration`. */
  function ParenParameters(ts: seq<Token>, pos: nat): (r: PResult<seq<Token>>)
    requires Valid(ts, pos)
    ensures r.Ok? ==>
      && Progress(ts, pos, r.value.pos)
      && pos + 1 < |ts|
      && (|r.value.value| == 0 <==> Check(ts, pos + 1, RightParen))
      && Identifiers(r.value.value)
      && InSourceOrder(ts, pos + 1, r.value.value)
      && r.value.pos == pos + 1 + ListLength(|r.value.value|)
  {
    var lp :- Consume(ts, pos, LeftParen, "Expected '(' after function name");
    ParameterList(ts, lp.pos)
  }

  /** The parameter list of `fun_declaration` after `(`, up to and including `)`. */
  function ParameterList(ts: seq<Token>, pos: nat): (r: PResult<seq<Token>>)
    requires Valid(ts, pos)
    ensures r.Ok? ==>
      && Progress(ts, pos, r.value.pos)
      && (|r.value.value| == 0 <==> Check(ts, pos, RightParen))
      && Identifiers(r.value.value)
      && InSourceOrder(ts, pos, r.value.value)
      && r.value.pos == pos + ListLength(|r.value.value|)
  {
    var params :-
      if Check(ts, pos, RightParen) then Ok(Step([], pos))
      else Parameters(ts, pos, []);
    var rp :- Consume(ts, params.pos, RightParen, "Expected ')' after parameter list");
    Ok(Step(params.value, rp.pos))
  }

  /** The parameters of `fun_declaration`: identifiers separated by commas, in source order. */
  function Parameters(ts: seq<Token>, pos: nat, acc: seq<Token>): (r: PResult<seq<Token>>)
    requires Valid(ts, pos)
    requires Identifiers(acc)
    ensures r.Ok? ==>
      && Progress(ts, pos, r.value.pos)
      && Identifiers(r.value.value)
      && ListedAfter(ts, pos, acc, r.value)
    decreases |ts| - pos
  {
    var p :- Consume(ts, pos, Identifier, "Identifier expected");
    assert p == Consumed(ts[pos], pos + 1);
    if MatchNext(ts, pos + 1, Comma).0 then
      var rest :- Parameters(ts, pos + 2, acc + [ts[pos]]);
      ParametersCons(ts, pos, acc, rest);
      Ok(rest)
    else
      ParametersLast(ts, pos, acc);
      Ok(Step(acc + [ts[pos]], pos + 1))
  }

  /** The last identifier of a parameter list ends it. */
  lemma ParametersLast(ts: seq<Token>, pos: nat, acc: seq<Token>)
    requires pos + 1 < |ts|
    ensures ListedAfter(ts, pos, acc, Step(acc + [ts[pos]], pos + 1))
  {
    assert (acc + [ts[pos]])[|acc|..] == [ts[pos]];
  }

  /**
   * The list `acc` was extended by the parameters from `pos` on: one
   * identifier at every other token, a comma between neighbours, and the
   * cursor left just after the last identifier.
   */
  predicate ListedAfter(ts: seq<Token>, pos: nat, acc: seq<Token>, r: Step<seq<Token>>) {
    && |acc| < |r.value| && r.value[..|acc|] == acc
    && InSourceOrder(ts, pos, r.value[|acc|..])
    && r.pos == pos + 2 * (|r.value| - |acc|) - 1 < |ts|
    && forall k | 0 <= k < |r.value| - |acc| - 1 :: ts[pos + 2 * k + 1].tokType == Comma
  }

  /** One identifier and a comma in front of a parameter list keep the order and the commas. */
  lemma ParametersCons(ts: seq<Token>, pos: nat, acc: seq<Token>, rest: Step<seq<Token>>)
    requires pos + 1 < |ts| && Check(ts, pos + 1, Comma)
    requires ListedAfter(ts, pos + 2, acc + [ts[pos]], rest)
    ensures ListedAfter(ts, pos, acc, rest)
  {
    var ps := rest.value;
    assert ps[..|acc|] == (ps[..|acc| + 1])[..|acc|];
    forall k | 0 <= k < |ps| - |acc|
      ensures pos + 2 * k < |ts| && ps[|acc|..][k] == ts[pos + 2 * k]
    {
      if k == 0 {
        assert ps[|acc|..][0] == ps[..|acc| + 1][|acc|];
      } else {
        assert ps[|acc|..][k] == ps[|acc| + 1..][k - 1];
      }
    }
    forall k | 0 <= k < |ps| - |acc| - 1
      ensures ts[pos + 2 * k + 1].tokType == Comma
    {
      if k > 0 {
        assert pos + 2 * k + 1 == pos + 2 + 2 * (k - 1) + 1;
      }
    }
  }

  /**
   * `var_declaration`, after `var`: an identifier, an optional `=`
   * initializer, then `;`. Without an initializer the value is `nil`.
   */
  method VarDeclaration(ts: seq<Token>, pos: nat) returns (r: PResult<Stmt>)
    requires Valid(ts, pos)
    ensures StmtOut(ts, pos, r)
    ensures r.Ok? ==>
      && r.value.value.Declaration? && r.value.value.name == ts[pos]
      && pos + 1 < |ts|
      && (ts[pos + 1].tokType != Equal ==> r.value.value.init == Literal(LiteralValue.Nil))
    decreases |ts| - pos, 0
  {
    var name :- Consume(ts, pos, Identifier, "Expected identifier after 'var'");
    var init :- Initializer(ts, name.pos);
    r := Ok(Step(Declaration(name.token, init.value), init.pos));
  }

  /** The rest of `var_declaration`: `= expression` or nothing, then `;`. */
  method Initializer(ts: seq<Token>, pos: nat) returns (r: PResult<Expr>)
    requires Valid(ts, pos)
    ensures r.Ok? ==> Progress(ts, pos, r.value.pos) && Shaped(r.value.value)
    ensures r.Ok? && !Check(ts, pos, Equal) ==> r.value.value == Literal(LiteralValue.Nil)
    decreases |ts| - pos, 96
  {
    var (eq, after) := MatchNext(ts, pos, Equal);
    var init: Step<Expr>;
    if eq {
      init :- ParseExpression(ts, after);
    } else {
      init := Step(Literal(LiteralValue.Nil), after);
    }
    var semi :- Consume(ts, init.pos, Semicolon, "Expected ';' after expression");
    r := Ok(Step(init.value, semi.pos));
  }

  // ---------------------------------------------------------------------------
  // Expressions (parser.rs:212-325)

  /** `expression`: an assignment. */
  method ParseExpression(ts: seq<Token>, pos: nat) returns (r: PResult<Expr>)
    requires Valid(ts, pos)
    ensures ExprOut(ts, pos, r, AssignmentRank)
    decreases |ts| - pos, 92
  {
    r := ParseAssignment(ts, pos);
  }

  /**
   * `assignment`: the target is parsed as an `or` expression; after `=`
   * the value is parsed by this rule again, so assignment is right
   * associative.
   */
  method ParseAssignment(ts: seq<Token>, pos: nat) returns (r: PResult<Expr>)
    requires Valid(ts, pos)
    ensures ExprOut(ts, pos, r, AssignmentRank)
    decreases |ts| - pos, 91
  {
    var target :- ParseOr(ts, pos);
    var (eq, after) := MatchNext(ts, target.pos, Equal);
    if !eq {
      return Ok(target);
    }
    var value :- ParseAssignment(ts, after);
    r := AssignTo(target.value, ts[target.pos], value);
  }

  /**
   * The end of `assignment`: only a variable can be assigned to. Any other
   * target is fatal, reported at the line of the `=` token.
   */
  function AssignTo(target: Expr, equals: Token, value: Step<Expr>): (r: PResult<Expr>)
    requires Shaped(target) && Shaped(value.value)
    ensures r.Ok? <==> target.Variable?
    ensures r.Ok? ==> r.value == Step(Assignment(target.name, value.value), value.pos) && Shaped(r.value.value)
    ensures r.Err? ==> r.error == Fatal("Invalid assignment target", equals.line)
  {
    match target
    case Variable(name) => Ok(Step(Assignment(name, value.value), value.pos))
    case _ => Err(Fatal("Invalid assignment target", equals.line))
  }

  /** `or`: at most one `or`, between two `and` expressions. */
  method ParseOr(ts: seq<Token>, pos: nat) returns (r: PResult<Expr>)
    requires Valid(ts, pos)
    ensures ExprOut(ts, pos, r, OrRank)
    decreases |ts| - pos, 90
  {
    var left :- ParseAnd(ts, pos);
    r := LogicalTail(ts, pos, left, Or);
  }

  /** `and`: at most one `and`, between two equality expressions. */
  method ParseAnd(ts: seq<Token>, pos: nat) returns (r: PResult<Expr>)
    requires Valid(ts, pos)
    ensures ExprOut(ts, pos, r, AndRank)
    decreases |ts| - pos, 89
  {
    var left :- BinaryLevel(ts, pos, EqualityRank);
    r := LogicalTail(ts, pos, left, And);
  }

  /** The rank of the `or` or `and` level. */
  function LogicalRank(op: TokenType): nat
    requires op == Or || op == And
  {
    if op == Or then OrRank else AndRank
  }

  /**
   * The optional second operand of `or` and `and`: one more operand of the
   * next level after the keyword; a second keyword is left to the caller.
   */
  method LogicalTail(ts: seq<Token>, from: nat, left: Step<Expr>, op: TokenType) returns (r: PResult<Expr>)
    requires op == Or || op == And
    requires Valid(ts, from) && Progress(ts, from, left.pos) && Shaped(left.value) && Rank(left.value) > LogicalRank(op)
    ensures ExprOut(ts, from, r, LogicalRank(op))
    ensures r.Ok? && !Check(ts, left.pos, op) ==> r == Ok(left)
    ensures r.Ok? && Check(ts, left.pos, op) ==>
      r.value.value.Logical? && r.value.value.left == left.value && r.value.value.op == ts[left.pos]
    decreases |ts| - left.pos, 0
  {
    var (m, after) := MatchNext(ts, left.pos, op);
    if !m {
      return Ok(left);
    }
    var right;
    if op == Or {
      right :- ParseAnd(ts, after);
    } else {
      right :- BinaryLevel(ts, after, EqualityRank);
    }
    r := Ok(Step(Logical(left.value, ts[left.pos], right.value), right.pos));
  }

  /**
   * The `binary!` macro behind `equality`, `comparison`, `term` and
   * `factor`: an operand of the next level, then any number of
   * `operator operand` pairs folded to the left.
   */
  method BinaryLevel(ts: seq<Token>, pos: nat, level: nat) returns (r: PResult<Expr>)
    requires Valid(ts, pos) && EqualityRank <= level <= FactorRank
    ensures ExprOut(ts, pos, r, level)
    decreases |ts| - pos, 88 - 2 * (level - 3)
  {
    var left :- Operand(ts, pos, level);
    r := BinaryTail(ts, pos, left, level);
  }

  /** The operand of a binary level: the next level, or `unary` below `factor`. */
  method Operand(ts: seq<Token>, pos: nat, level: nat) returns (r: PResult<Expr>)
    requires Valid(ts, pos) && EqualityRank <= level <= FactorRank
    ensures ExprOut(ts, pos, r, level + 1)
    decreases |ts| - pos, 87 - 2 * (level - 3)
  {
    if level == FactorRank {
      r := ParseUnary(ts, pos);
    } else {
      r := BinaryLevel(ts, pos, level + 1);
    }
  }

  /**
   * The `while match_next_multi(...)` loop of `binary!`, one operator and
   * operand at a time: the tree built so far becomes the left operand of
   * the next node.
   */
  method BinaryTail(ts: seq<Token>, from: nat, left: Step<Expr>, level: nat) returns (r: PResult<Expr>)
    requires Valid(ts, from) && EqualityRank <= level <= FactorRank
    requires Progress(ts, from, left.pos) && Shaped(left.value) && Rank(left.value) >= level
    ensures ExprOut(ts, from, r, level)
    ensures r.Ok? && ts[left.pos].tokType !in BinaryOperators(level) ==> r == Ok(left)
    ensures r.Ok? && ts[left.pos].tokType in BinaryOperators(level) ==>
      r.value.value.Binary? && OperatorRank(r.value.value.op.tokType) == level
    decreases |ts| - left.pos, 0
  {
    var (m, after) := MatchAny(ts, left.pos, BinaryOperators(level));
    if !m {
      return Ok(left);
    }
    var op := ts[left.pos];
    BinaryOperatorsRank(level, op.tokType);
    var right :- Operand(ts, after, level);
    r := BinaryTail(ts, from, Step(Binary(op, left.value, right.value), right.pos), level);
  }

  /** `unary`: any number of `-` and `!` in front of a call expression. */
  method ParseUnary(ts: seq<Token>, pos: nat) returns (r: PResult<Expr>)
    requires Valid(ts, pos)
    ensures ExprOut(ts, pos, r, UnaryRank)
    ensures r.Ok? && ts[pos].tokType in [Minus, Bang] ==> r.value.value.Unary? && r.value.value.op == ts[pos]
    decreases |ts| - pos, 80
  {
    var (m, after) := MatchAny(ts, pos, [Minus, Bang]);
    if !m {
      r := ParseCall(ts, pos);
      return;
    }
    var operand :- ParseUnary(ts, after);
    r := Ok(Step(Unary(ts[pos], operand.value), operand.pos));
  }

  /**
   * `call`: a primary expression followed by any number of argument lists;
   * each `(` wraps the expression so far into a call, so `f(a)(b)` calls
   * `f(a)`.
   */
  method ParseCall(ts: seq<Token>, pos: nat) returns (r: PResult<Expr>)
    requires Valid(ts, pos)
    ensures ExprOut(ts, pos, r, CallRank)
    decreases |ts| - pos, 78
  {
    var callee :- ParsePrimary(ts, pos);
    var acc := callee;
    while true
      invariant Progress(ts, pos, acc.pos) && Shaped(acc.value) && Rank(acc.value) >= CallRank
      decreases |ts| - acc.pos
    {
      var (m, after) := MatchNext(ts, acc.pos, LeftParen);
      if !m {
        return Ok(acc);
      }
      acc :- FinishCall(ts, after, acc.value);
    }
  }

  /**
   * `finish_call`, after `(`: comma-separated arguments in source order,
   * then `)`, whose token the call keeps.
   */
  method FinishCall(ts: seq<Token>, pos: nat, callee: Expr) returns (r: PResult<Expr>)
    requires Valid(ts, pos) && Shaped(callee) && Rank(callee) >= CallRank
    ensures ExprOut(ts, pos, r, CallRank)
    ensures r.Ok? ==>
      && r.value.value.Call? && r.value.value.callee == callee
      && (|r.value.value.args| == 0 <==> Check(ts, pos, RightParen))
    decreases |ts| - pos, 97
  {
    var args: Step<seq<Expr>>;
    if Check(ts, pos, RightParen) {
      args := Step([], pos);
    } else {
      args :- Arguments(ts, pos);
    }
    var paren :- Consume(ts, args.pos, RightParen, "Expected ')' after argument list.");
    r := Ok(Step(Call(callee, paren.token, args.value), paren.pos));
  }

  /** The argument list of `finish_call`: expressions separated by commas. */
  method Arguments(ts: seq<Token>, pos: nat) returns (r: PResult<seq<Expr>>)
    requires Valid(ts, pos)
    ensures r.Ok? ==>
      && Progress(ts, pos, r.value.pos)
      && |r.value.value| > 0
      && (forall i | 0 <= i < |r.value.value| :: Shaped(r.value.value[i]))
    decreases |ts| - pos, 96
  {
    var e :- ParseExpression(ts, pos);
    var cur, args: seq<Expr> := e.pos, [e.value];
    while true
      invariant Progress(ts, pos, cur)
      invariant |args| > 0 && forall i | 0 <= i < |args| :: Shaped(args[i])
      decreases |ts| - cur
    {
      var (more, after) := MatchNext(ts, cur, Comma);
      if !more {
        return Ok(Step(args, cur));
      }
      var next :- ParseExpression(ts, after);
      args, cur := args + [next.value], next.pos;
    }
  }

  /**
   * `primary`: the cursor moves past the current token whatever it is; the
   * token then decides the node, and `(` starts a grouping.
   */
  method ParsePrimary(ts: seq<Token>, pos: nat) returns (r: PResult<Expr>)
    requires Valid(ts, pos)
    ensures ExprOut(ts, pos, r, AtomRank)
    ensures r.Ok? ==>
      && (Check(ts, pos, Identifier) <==> r.value.value == Variable(ts[pos]))
      && (Check(ts, pos, LeftParen) <==> r.value.value.Grouping?)
    ensures IsAtEnd(ts, pos) ==> r.Err?
    decreases |ts| - pos, 76
  {
    var tok := ts[pos];
    if tok.tokType == LeftParen {
      r := Grouping(ts, Next(ts, pos));
      return;
    }
    var node :- AtomNode(tok);
    r := Ok(Step(node, Next(ts, pos)));
  }

  /**
   * The node `primary` builds from a single token: a literal or a variable.
   * A string or number token without its literal is unwrapped, which
   * panics; any other token is reported with its lexeme (unwrapped too)
   * and is fatal.
   */
  function AtomNode(tok: Token): (r: Result<Expr, Failure>)
    ensures r.Ok? ==> (r.value.Literal? || r.value.Variable?) && Shaped(r.value) && tok.tokType != Eof
    ensures r.Ok? ==> (r.value.Variable? <==> tok.tokType == Identifier) && (r.value.Variable? ==> r.value.name == tok)
    ensures r.Ok? <==>
      || tok.tokType in [True, False, TokenType.Nil, Identifier]
      || (tok.tokType in [TokenType.Str, TokenType.Num] && tok.literal.Some?)
    ensures r.Err? && tok.tokType in [TokenType.Str, TokenType.Num] ==> r.error == Panicked
    ensures r.Err? && tok.tokType !in [TokenType.Str, TokenType.Num] ==>
      r.error == if tok.lexeme.None? then Panicked else Fatal("Unexpected token '" + tok.lexeme.value + "'", tok.line)
  {
    match tok.tokType
    case True => Ok(Literal(LiteralValue.Bool(true)))
    case False => Ok(Literal(LiteralValue.Bool(false)))
    case Nil => Ok(Literal(LiteralValue.Nil))
    case Str | Num => if tok.literal.None? then Err(Panicked) else Ok(Literal(tok.literal.value))
    case Identifier => Ok(Variable(tok))
    case _ =>
      if tok.lexeme.None? then Err(Panicked)
      else Err(Fatal("Unexpected token '" + tok.lexeme.value + "'", tok.line))
  }

  /** The parenthesised case of `primary`, after `(`: an expression and `)`. */
  method Grouping(ts: seq<Token>, pos: nat) returns (r: PResult<Expr>)
    requires Valid(ts, pos)
    ensures ExprOut(ts, pos, r, AtomRank)
    ensures r.Ok? ==> r.value.value.Grouping?
    decreases |ts| - pos, 93
  {
    var e :- ParseExpression(ts, pos);
    var rp :- Consume(ts, e.pos, RightParen, "Expected ')' after expression");
    r := Ok(Step(Expr.Grouping(e.value), rp.pos));
  }
}
