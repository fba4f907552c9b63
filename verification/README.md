# A verified model of the LykiaDB language front end

LykiaDB's scripting language comes in two generations, and this project models both in Dafny.

**The arena generation.** A recursive-descent parser (`src/lang/parser.rs`) turns a token list into nodes. The nodes live in a `ParserArena` (`server/src/lang/ast/mod.rs`), two append-only stores of expressions and statements addressed by id. The language mixes scripting (`var`, `fun`, `if`, `loop`, `while`, `for`, `break`, `continue`, `return`) with SQL `SELECT` queries and compound selects. Tokens, spans and the keyword and symbol tables come from `server/src/lang/token.rs`.

**The boxed generation.** A parser (`src/lang/parsing/parser.rs`) builds a tree of boxed nodes. A tree-walking interpreter (`src/lang/execution/interpreter.rs`) executes that tree. It keeps a stack of environments and a stack of loop states (`Go`, `Broken`, `Continue`) for `break` and `continue`.

**The resolver** (`src/runtime/resolver.rs`) walks an arena program with a stack of scopes. A scope maps each name to "declared" (`false`) or "defined" (`true`). For each variable read or assignment, the resolver records the index of the scope that binds it.

## Modules

| file | module | what it holds |
|---|---|---|
| `wrappers.dfy` | `Wrappers` | `Option` and `Result` with the `:-` protocol |
| `ast_literal.dfy` | `AstLiteral` | the arena AST's literal values and `as_str` |
| `token.dfy` | `Token` | token kinds, spans and `merge`; the `SYMBOLS`, `CASE_SNS_KEYWORDS` and `CASE_INS_KEYWORDS` tables |
| `token_tables.dfy` | `TokenTables` | completeness and case of the SQL keyword table |
| `ast.dfy` | `Ast` | SQL, expression and statement nodes; the arena and its append-only operations |
| `arena_parser.dfy` | `ArenaParser` | the arena parser; every grammar rule is a method over an immutable parser state (cursor and arena) |
| `box_syntax.dfy` | `BoxSyntax` | the tokens and boxed tree of the older generation |
| `box_parser.dfy` | `BoxParser` | the Box parser |
| `interpreter.dfy` | `Interpreter` | the tree-walking interpreter |
| `resolver.dfy` | `Resolver` | the resolver, over an arena of its own |

### Conventions

**Failures.** The model tells apart two ways a run can fail:
- A source-level error: a `ParseError`, or a message printed before `exit(1)`. These are `Reported` in the arena parser and `Fatal` elsewhere.
- A panic from an `unwrap()` on `None`, or from an index below zero. This is `Panicked`.

**Modes.** Where the source misbehaves, the member takes a `mode` argument:
- `AsWritten` follows the code.
- `Corrected` follows the evident intent.

Every finding below is proved for both modes. The top-level `Parse` methods use `Corrected`.

**Ranks.** Each parser states the shape of what it builds through a precedence rank per node: assignment 0, `or` 1, `and` 2, equality 3, comparison 4, term 5, factor 6, unary 7, call 8, atom 9.
- In the arena parser, every arena it returns satisfies `ArenaOk`. The arena is closed (ids only point to earlier nodes) and every node is nested by rank.
- In the Box parser, every tree it returns is `Shaped`.

The `*Shape` lemmas read precedence and associativity off these invariants.

## Model

| member | source | states |
|---|---|---|
| AstLiteral.AsStr | server/src/lang/ast/mod.rs:28-33 | a literal has a string view exactly when it is a string literal, and the view is that string |
| Ast.NewArena | server/src/lang/ast/mod.rs:74-79 | a new arena holds no expression and no statement |
| Ast.AddExpression | server/src/lang/ast/mod.rs:81-83 | storing an expression returns the next fresh id; every older id keeps its node; the statement store is untouched |
| Ast.AddStatement | server/src/lang/ast/mod.rs:85-87 | storing a statement returns the next fresh id; every older id keeps its node; the expression store is untouched |
| Ast.AddThenGet | server/src/lang/ast/mod.rs:81-95 | reading back the id an allocation returned gives the stored node, for both stores |
| Ast.ExtendsTransitive | server/src/lang/ast/mod.rs:81-87 | a chain of allocations only ever appends |
| Ast.ExtendsKeepsNodes | server/src/lang/ast/mod.rs:81-95 | an id valid in an arena reads the same node in every later arena |
| Ast.AddExpressionClosed | server/src/lang/ast/mod.rs:81-83 | appending an expression whose ids are allocated keeps every stored id pointing to an allocated node |
| Ast.AddStatementClosed | server/src/lang/ast/mod.rs:85-87 | appending a statement whose ids are allocated keeps the arena closed |
| Token.Merge | server/src/lang/token.rs:296-303 | the merged span starts at the smaller start and ends at the larger end; both line fields take the smaller line |
| Token.MergeCommutative | server/src/lang/token.rs:296-303 | merging is independent of argument order |
| Token.MergeIdempotent | server/src/lang/token.rs:296-303 | merging a span with itself gives the span |
| Token.MergeAssociative | server/src/lang/token.rs:296-303 | merging three spans does not depend on grouping |
| Token.DefaultSpan | server/src/lang/token.rs:288-295 | the default span is an empty range that starts no later, and lies on no later line, than any span |
| Token.MergeWithDefault | server/src/lang/token.rs:288-303 | merging with the default span keeps only the end offset |
| Token.MergeCovers | server/src/lang/token.rs:296-303 | the merge of two well-formed ranges contains both |
| Token.SymbolOf | server/src/lang/token.rs:166-178 | the symbol table has a key for exactly the eleven single-character symbols, and each maps to the symbol spelled by that character |
| Token.SymbolTableComplete | server/src/lang/token.rs:166-178 | every one-character symbol that cannot begin a two-character symbol is in the table |
| Token.CaseSensitiveKeyword | server/src/lang/token.rs:180-200 | a hit is a keyword spelled by the looked-up word, or one of `null`, `false`, `true` for exactly those words |
| Token.KeywordTableComplete | server/src/lang/token.rs:180-200 | every language keyword is found under its lower-case name |
| Token.CaseInsensitiveKeyword | server/src/lang/token.rs:202-259 | a hit is an SQL keyword whose upper-case name is the looked-up word |
| TokenTables.SqlKeywordTableComplete | server/src/lang/token.rs:202-259 | every SQL keyword is found under its upper-case name |
| TokenTables.SqlKeywordTableUpperOnly | server/src/lang/token.rs:202-259 | a word starting with a lower-case letter is never an SQL keyword |
| ArenaParser.PeekBack | src/lang/parser.rs:742-744 | looking back succeeds exactly when the offset does not pass the start, and gives that token |
| ArenaParser.Advance | src/lang/parser.rs:731-736 | the cursor moves by one exactly when it is not on the end-of-file token |
| ArenaParser.MatchNext | src/lang/parser.rs:751-757 | a match happens exactly when the current token has the type; it consumes the token unless that is end-of-file |
| ArenaParser.MatchAny | src/lang/parser.rs:759-767 | a match happens exactly when the current type is in the list; it consumes one token unless at the end |
| ArenaParser.Expected | src/lang/parser.rs:720-729 | on the expected type it advances and returns the consumed token; otherwise it reports `MissingToken` with the previous token; at position 0 the look-back panics |
| ArenaParser.ParseWith | src/lang/parser.rs:94-120 | a result is a closed, nested arena whose last statement is the program; on an input holding only end-of-file, `AsWritten` panics and `Corrected` returns the empty program |
| ArenaParser.Parse | src/lang/parser.rs:94-120 | the corrected parse: an empty input gives the empty program |
| ArenaParser.Finish | src/lang/parser.rs:105-120 | the trailing `expected(Eof)` fails exactly when, as written, nothing was consumed; otherwise it stores the program of all declarations |
| ArenaParser.Declarations | src/lang/parser.rs:105-110 | declarations are parsed until the end-of-file token, and all their ids are stored |
| ArenaParser.ParseDeclaration | src/lang/parser.rs:122-125 | a declaration consumes tokens and stores a statement |
| ArenaParser.ParseStatement | src/lang/parser.rs:127-137 | a statement consumes tokens and stores a statement |
| ArenaParser.IfStatement | src/lang/parser.rs:139-170 | `if` builds an `If` statement |
| ArenaParser.ElseBranch | src/lang/parser.rs:139-170 | an else branch is present exactly when the next token is `else` |
| ArenaParser.ParenCondition | src/lang/parser.rs:139-170 | a parenthesised condition is a full expression |
| ArenaParser.LoopStatement | src/lang/parser.rs:172-185 | `loop` builds a loop with neither condition nor post statement |
| ArenaParser.WhileStatement | src/lang/parser.rs:187-204 | `while` builds a loop with a condition and no post statement |
| ArenaParser.ReturnStatement | src/lang/parser.rs:206-230 | `return` builds a `Return` whose value is absent exactly when `;` follows |
| ArenaParser.JumpStatement | src/lang/parser.rs:322-332 | `break` and `continue` succeed exactly when `;` follows, storing the jump |
| ArenaParser.ForStatement | src/lang/parser.rs:232-300 | `for` desugars to a loop whose post statement is an expression statement; with an initializer, the loop sits second in a block after the initializer |
| ArenaParser.ForBody | src/lang/parser.rs:271-299 | the desugared loop has the clauses' condition and increment; the block, when present, runs the initializer first |
| ArenaParser.ForClauses | src/lang/parser.rs:232-270 | the initializer is absent exactly when the clauses start with `;`; every clause id is stored |
| ArenaParser.ForInitializer | src/lang/parser.rs:235-245 | the initializer is absent exactly when the first token is `;` |
| ArenaParser.ForCondition | src/lang/parser.rs:247-256 | the condition is absent exactly when the next token is `;` |
| ArenaParser.ForIncrement | src/lang/parser.rs:258-270 | the increment is absent exactly when the next token is `)`, and is otherwise an expression statement |
| ArenaParser.ParseBlock | src/lang/parser.rs:302-320 | a block holds only statements stored before it, and is empty when `}` comes first |
| ArenaParser.ExpressionStatement | src/lang/parser.rs:334-346 | an expression statement stores an `Expression` statement |
| ArenaParser.VarDeclaration | src/lang/parser.rs:348-374 | `var` declares the identifier that follows; without `=` the value is the `undefined` literal |
| ArenaParser.Initializer | src/lang/parser.rs:355-372 | without `=` the initializer is the `undefined` literal |
| ArenaParser.ParseExpression | src/lang/parser.rs:417-420 | an expression of any rank; after `fun` it is a function expression whose parameters are the `$`-identifiers following its `(`, in source order |
| ArenaParser.ParseFunction | src/lang/parser.rs:376-415 | `fun` builds a function whose name is present exactly when an identifier follows, and whose parameters are exactly the `$`-identifier tokens after `(` in source order, none exactly when `)` follows `(` |
| ArenaParser.FunctionName | src/lang/parser.rs:377-381 | the name is taken exactly when the next token is an identifier |
| ArenaParser.ParameterList | src/lang/parser.rs:382-392 | parameter k is the `$`-identifier token 2k+1 places after `(`, the list is empty exactly when `)` follows `(`, and the cursor ends just after `)` |
| ArenaParser.Parameters | src/lang/parser.rs:384-391 | keeps the list collected so far and appends the `$`-identifiers at every other token, with a comma between neighbours, leaving the cursor just after the last one |
| ArenaParser.ParseAssignment | src/lang/parser.rs:422-448 | assignment is right-associative: an assignment's value is another assignment or an `or`-level expression |
| ArenaParser.AssignTo | src/lang/parser.rs:422-448 | assigning succeeds exactly when the target is a variable, and stores its name with the value; otherwise it reports `InvalidAssignmentTarget` three tokens back |
| ArenaParser.ParseOr | src/lang/parser.rs:450-468 | `or` yields a node of rank at least `or` |
| ArenaParser.ParseAnd | src/lang/parser.rs:470-488 | `and` yields a node of rank at least `and` |
| ArenaParser.LogicalTail | src/lang/parser.rs:450-488 | without the keyword the left operand is returned unchanged; with it, a logical node over the left operand and that keyword |
| ArenaParser.BinaryLevel | src/lang/parser.rs:490-513 | each binary level yields a node of at least its rank |
| ArenaParser.BinaryTail | src/lang/parser.rs:51-68 | with no operator of the level next, the left operand is returned unchanged |
| ArenaParser.BinaryNode | src/lang/parser.rs:51-68 | a binary node takes the rank of its operator |
| ArenaParser.ParseUnary | src/lang/parser.rs:515-531 | a leading `-` or `!` builds a unary node carrying that operator |
| ArenaParser.ParseSelect | src/lang/parser.rs:533-571 | `SELECT` builds a select node without ORDER BY, LIMIT or OFFSET, distinct exactly when `DISTINCT` follows |
| ArenaParser.ParseSelectCore | src/lang/parser.rs:573-592 | a select core starts at `SELECT`, has at least one projection, and no GROUP BY or HAVING |
| ArenaParser.Projections | src/lang/parser.rs:594-614 | the projection list is non-empty; a failing projection expression panics |
| ArenaParser.Projection | src/lang/parser.rs:596-608 | a projection is `*` exactly when the token is `*` |
| ArenaParser.OptionalAlias | src/lang/parser.rs:79-91 | no alias leaves the cursor in place; an alias is an identifier; `AS` without an identifier panics |
| ArenaParser.FromClause | src/lang/parser.rs:616-629 | a FROM clause is present exactly when `FROM` is next, and is one simple table named by the following token |
| ArenaParser.WhereClause | src/lang/parser.rs:631-637 | a WHERE clause is present exactly when `WHERE` is next |
| ArenaParser.CompoundOperator | src/lang/parser.rs:540-553 | the operator is `UNION ALL` exactly for `UNION` followed by `ALL`, and otherwise the keyword matched |
| ArenaParser.Compounds | src/lang/parser.rs:539-556 | there are no compound parts unless a set operator is next; part `k` was introduced by the `k`-th set-operator token, at strictly increasing positions from the cursor on, and carries the operator that token stands for, so the parts are kept in source order |
| ArenaParser.OperatorAgrees | src/lang/parser.rs:540-553 | reading the operator after a set-operator token gives the operator the token stands for (`UNION ALL` exactly when `ALL` follows `UNION`) |
| ArenaParser.CompoundPart | src/lang/parser.rs:540-555 | a compound part pairs the operator read with a select core |
| ArenaParser.FinishCall | src/lang/parser.rs:639-659 | a call node keeps its callee and has no arguments exactly when `)` follows |
| ArenaParser.Arguments | src/lang/parser.rs:641-654 | an argument list is non-empty and every argument is stored |
| ArenaParser.ParseCall | src/lang/parser.rs:661-673 | a call expression binds at least as tightly as a call |
| ArenaParser.ParsePrimary | src/lang/parser.rs:675-718 | an identifier becomes a variable with that token, `(` becomes a grouping, and at the end an `UnexpectedToken` is reported |
| ArenaParser.AtomNode | src/lang/parser.rs:675-718 | literals and identifiers are accepted, with string and number tokens needing a literal and lexeme (missing ones panic); anything else is an `UnexpectedToken` |
| ArenaParser.Grouping | src/lang/parser.rs:700-710 | a parenthesised expression builds a grouping node |
| ArenaParser.BinaryShape | src/lang/parser.rs:51-68 | in any parsed arena a binary node's operands are neither logical nor assignments; the left operand binds at least as tightly and the right one strictly more (left associativity) |
| ArenaParser.LogicalShape | src/lang/parser.rs:450-488 | `or` never directly holds `or`, and `and` holds no logical node: each parse reads at most one keyword per level |
| ArenaParser.UnaryShape | src/lang/parser.rs:515-531 | a unary node's operand is not binary, logical or an assignment |
| ArenaParser.CallShape | src/lang/parser.rs:661-673 | a callee is never unary, binary, logical or an assignment |
| ArenaParser.IdentifierShape | src/lang/parser.rs:422-448 | only identifiers are ever read or assigned |
| BoxParser.Advance | src/lang/parsing/parser.rs:335-348 | away from the end it consumes the current token; at the end it returns the previous one, and panics at position 0 |
| BoxParser.MatchNext | src/lang/parsing/parser.rs:355-361 | a match happens exactly when the current token has the type, and consumes it |
| BoxParser.MatchAny | src/lang/parsing/parser.rs:363-371 | a match happens exactly when the current type is in the list, and consumes it |
| BoxParser.Consume | src/lang/parsing/parser.rs:327-333 | on the expected type it returns the consumed token; otherwise a fatal error with the message at the current line |
| BoxParser.ParseWith | src/lang/parsing/parser.rs:27-42 | every parsed statement is shaped; on an input holding only end-of-file, `AsWritten` panics and `Corrected` returns no statements |
| BoxParser.Parse | src/lang/parsing/parser.rs:27-42 | the corrected parse: an empty input gives no statements |
| BoxParser.Finish | src/lang/parsing/parser.rs:35-42 | the trailing `consume(Eof)` fails exactly when, as written, nothing was consumed |
| BoxParser.Declarations | src/lang/parsing/parser.rs:35-41 | declarations are parsed up to end-of-file and are all shaped |
| BoxParser.ParseDeclaration | src/lang/parsing/parser.rs:44-52 | `var` leads to a declaration and `fun` to a function |
| BoxParser.ParseStatement | src/lang/parsing/parser.rs:54-80 | a statement consumes tokens and is shaped |
| BoxParser.IfStatement | src/lang/parsing/parser.rs:82-93 | `if` builds an `If` |
| BoxParser.IfBranches | src/lang/parsing/parser.rs:82-93 | the `If` keeps the condition parsed before its branches |
| BoxParser.LoopStatement | src/lang/parsing/parser.rs:95-98 | `loop` builds a loop with neither condition nor post statement, whose body is a declaration; a body starting with `var` or `fun` is that declaration |
| BoxParser.WhileStatement | src/lang/parsing/parser.rs:100-107 | `while` builds a loop with a condition and no post statement; without `(` it is the fatal "Expected '(' after while." |
| BoxParser.ReturnStatement | src/lang/parsing/parser.rs:109-118 | `return` keeps its keyword and has no value exactly when `;` follows |
| BoxParser.JumpStatement | src/lang/parsing/parser.rs:162-172 | `break` and `continue` succeed exactly when `;` follows, keeping their keyword |
| BoxParser.ForStatement | src/lang/parsing/parser.rs:120-148 | `for (;` gives a bare loop; with an initializer it gives a two-statement block ending in the loop |
| BoxParser.Desugar | src/lang/parsing/parser.rs:136-147 | the desugared `for` is shaped: a loop over condition, body and increment, preceded in a block by the initializer when there is one |
| BoxParser.ParseForClauses | src/lang/parsing/parser.rs:121-135 | the initializer is absent exactly when the clauses start with `;` |
| BoxParser.ForInitializer | src/lang/parsing/parser.rs:121-127 | the initializer is absent exactly when the first token is `;` |
| BoxParser.ForCondition | src/lang/parsing/parser.rs:128-130 | the condition is absent exactly when `;` is next |
| BoxParser.ForIncrement | src/lang/parsing/parser.rs:131-135 | the increment is absent exactly when `)` is next, and is otherwise an expression statement |
| BoxParser.ParseBlock | src/lang/parsing/parser.rs:150-160 | `{}` is the empty block and any other block holds a statement; reaching the end first is the fatal "Expected '}' after block." |
| BoxParser.BlockDeclarations | src/lang/parsing/parser.rs:150-156 | declarations are parsed until `}` or the end of the tokens; none exactly when one of those comes first |
| BoxParser.ExpressionStatement | src/lang/parsing/parser.rs:174-178 | an expression statement wraps an expression |
| BoxParser.FunDeclaration | src/lang/parsing/parser.rs:180-200 | `fun` keeps its name token; parameter `k` is the token at every other position after `(`, in source order, with none exactly when `)` follows `(`; the body is empty exactly when `}` follows `{` |
| BoxParser.FunctionBody | src/lang/parsing/parser.rs:191-197 | the body is the statements of the block after `{`, empty exactly when `}` follows directly |
| BoxParser.FunctionHeader | src/lang/parsing/parser.rs:181-197 | the name and the parameters are identifiers, parameter `k` is the token `2k` after `(`, and the header ends just after `)` |
| BoxParser.Parameters | src/lang/parsing/parser.rs:184-194 | the parameters already read stay first; each new one is the identifier at every other token, with a comma between neighbours, in source order |
| BoxParser.VarDeclaration | src/lang/parsing/parser.rs:202-210 | `var` keeps its name token; without `=` the initializer is `nil` |
| BoxParser.Initializer | src/lang/parsing/parser.rs:204-208 | without `=` the initializer is `nil` |
| BoxParser.ParseAssignment | src/lang/parsing/parser.rs:216-233 | an assignment expression is shaped, whatever its target |
| BoxParser.AssignTo | src/lang/parsing/parser.rs:216-233 | assigning succeeds exactly when the target is a variable; otherwise the fatal "Invalid assignment target" at the `=` |
| BoxParser.ParseOr | src/lang/parsing/parser.rs:235-243 | `or` yields a shaped node of rank at least `or` |
| BoxParser.ParseAnd | src/lang/parsing/parser.rs:245-253 | `and` yields a shaped node of rank at least `and` |
| BoxParser.LogicalTail | src/lang/parsing/parser.rs:235-253 | without the keyword the left operand comes back unchanged; with it, a logical node over the left operand and the keyword token |
| BoxParser.BinaryLevel | src/lang/parsing/parser.rs:255-269 | each binary level yields a shaped node of at least its rank |
| BoxParser.BinaryTail | src/lang/parsing/parser.rs:15-23 | with an operator of the level next the result is a binary node of that level; otherwise the left operand |
| BoxParser.ParseUnary | src/lang/parsing/parser.rs:271-276 | a leading `-` or `!` builds a unary node with that token |
| BoxParser.ParseCall | src/lang/parsing/parser.rs:291-304 | a call expression binds at least as tightly as a call |
| BoxParser.FinishCall | src/lang/parsing/parser.rs:278-289 | a call keeps its callee and has no arguments exactly when `)` follows |
| BoxParser.Arguments | src/lang/parsing/parser.rs:280-286 | an argument list consumes tokens, is non-empty and every argument is shaped |
| BoxParser.ParsePrimary | src/lang/parsing/parser.rs:306-325 | the result is the variable of the current token exactly when it is an identifier, a grouping exactly for `(`, and an error at the end |
| BoxParser.AtomNode | src/lang/parsing/parser.rs:306-325 | literals and identifiers are accepted; a string or number token without a literal panics; any other token is the fatal "Unexpected token" error, or a panic when it has no lexeme |
| BoxParser.Grouping | src/lang/parsing/parser.rs:318-322 | a parenthesised expression builds a grouping |
| Interpreter.Truthy | src/lang/execution/interpreter.rs:30-40 | a value is false exactly when it is 0, the empty string, `false`, nil, `undefined` or NaN |
| Interpreter.EvalUnary | src/lang/execution/interpreter.rs:50-63 | `-` negates numbers, maps `true`/`false` to -1/0 and anything else to NaN; `!` gives the truthiness as written and its negation when corrected |
| Interpreter.EvalBinary | src/lang/execution/interpreter.rs:65-137 | comparisons always give a boolean, arithmetic a number, string or NaN, and any other operator `undefined`; the value of every arm is stated by the lemmas below |
| Interpreter.NumberSum | src/lang/execution/interpreter.rs:92-93 | two numbers add and subtract as reals |
| Interpreter.NumberProduct | src/lang/execution/interpreter.rs:94-95 | two numbers multiply as reals and divide as reals, with division by zero giving NaN |
| Interpreter.NumberLess | src/lang/execution/interpreter.rs:96-97 | `<` and `<=` on two numbers are the order of the reals |
| Interpreter.NumberGreater | src/lang/execution/interpreter.rs:98-99 | `>` and `>=` on two numbers are the order of the reals |
| Interpreter.SameKindEquality | src/lang/execution/interpreter.rs:100-116 | two numbers, two strings or two booleans are `==` exactly when they are the same value, and `!=` exactly when they differ |
| Interpreter.MismatchedFallback | src/lang/execution/interpreter.rs:124-136 | operands without an arm of their own, outside `+` with a string: a comparison is false (`!=` true when corrected), arithmetic NaN, any other operator `undefined` |
| Interpreter.BooleanArithmetic | src/lang/execution/interpreter.rs:73-76 | under `+ - * /` two booleans are the numbers 1 and 0 |
| Interpreter.BooleanLess | src/lang/execution/interpreter.rs:111-112 | two booleans compare with `<` and `<=` as `false < true`, with no coercion |
| Interpreter.BooleanGreater | src/lang/execution/interpreter.rs:113-114 | two booleans compare with `>` and `>=` as `false < true`, with no coercion |
| Interpreter.LessMirrorsGreater | src/lang/execution/interpreter.rs:69-137 | `a < b` equals `b > a` for all values |
| Interpreter.LessEqualMirrorsGreaterEqual | src/lang/execution/interpreter.rs:69-137 | `a <= b` equals `b >= a` for all values |
| Interpreter.EqualitySymmetric | src/lang/execution/interpreter.rs:69-137 | `==` and `!=` do not depend on operand order |
| Interpreter.BooleanAsNumber | src/lang/execution/interpreter.rs:70-78 | next to a number, a boolean acts as 1 or 0 under every operator |
| Interpreter.NaNAbsorbs | src/lang/execution/interpreter.rs:86-89 | arithmetic with NaN on either side is NaN |
| Interpreter.NilEquality | src/lang/execution/interpreter.rs:81-85 | `nil == x` holds exactly when `x` is nil, and `nil != nil` is false |
| Interpreter.NotEqualNegatesEqual | src/lang/execution/interpreter.rs:126-131 | corrected, `a != b` is the negation of `a == b` for all values |
| Interpreter.NilNotEqualAsWritten | src/lang/execution/interpreter.rs:126-131 | as written, `nil == 5` and `nil != 5` are both false |
| Interpreter.NotNotIsTruthiness | src/lang/execution/interpreter.rs:30-40 | corrected, `!!v` is the truthiness of `v` |
| Interpreter.NotTrueAsWritten | src/lang/execution/interpreter.rs:60-62 | as written, `!true` is `true` |
| Interpreter.StringConcatenation | src/lang/execution/interpreter.rs:101-122 | `+` on a string joins it with a string, with a number's text or with a boolean's text, on either side and in operand order |
| Interpreter.LexLessStrict | src/lang/execution/interpreter.rs:102-105 | string order is irreflexive and asymmetric |
| Interpreter.LexLessTotal | src/lang/execution/interpreter.rs:102-105 | of two different strings one is below the other |
| Interpreter.StringTrichotomy | src/lang/execution/interpreter.rs:102-103 | `a < b` holds exactly when the strings differ and `b` is not below `a`; `a <= b` exactly when `b` is not below `a` |
| Interpreter.Lookup | src/lang/execution/interpreter.rs:184 | a name is found exactly when some frame binds it, and the value comes from a frame binding it |
| Interpreter.Assign | src/lang/execution/interpreter.rs:185-191 | assignment succeeds exactly when the name is bound, and afterwards the name reads the new value |
| Interpreter.Declare | src/lang/execution/interpreter.rs:229-233 | declaring binds the name in the innermost frame, leaving outer frames untouched |
| Interpreter.Eval | src/lang/execution/interpreter.rs:175-219 | evaluation keeps the frame count and loop stack; `and`/`or` give a boolean; reading a variable succeeds exactly when it is bound |
| Interpreter.ArityBeforeArguments | src/lang/execution/interpreter.rs:200-218 | a call on a value that is not callable, or with the wrong number of arguments, fails with that error before any argument is evaluated |
| Interpreter.CheckCall | src/lang/execution/interpreter.rs:201-216 | a call proceeds exactly when the callee is callable with a matching or open arity; otherwise it fails with the not-callable or arity error |
| Interpreter.EvalArgs | src/lang/execution/interpreter.rs:209 | arguments are evaluated left to right, one value per argument |
| Interpreter.ShortCircuit | src/lang/execution/interpreter.rs:192-197 | a decisive left operand yields its boolean without evaluating the right one |
| Interpreter.LogicalOtherwise | src/lang/execution/interpreter.rs:192-199 | otherwise the result is the truthiness of the right operand |
| Interpreter.Jump | src/lang/execution/interpreter.rs:146-161 | `break`/`continue` set the innermost loop's state; outside a loop they report an error and change nothing else |
| Interpreter.Resume | src/lang/execution/interpreter.rs:252 | after the body, a continued loop goes back to `Go`; other states stay |
| Interpreter.SkippedStatements | src/lang/execution/interpreter.rs:222-224 | inside a continued loop every statement list runs as a no-op |
| Interpreter.ContinueSkipsRest | src/lang/execution/interpreter.rs:222-224 | `continue` skips the rest of the body |
| Interpreter.BreakSkipsRest | src/lang/execution/interpreter.rs:249-262 | corrected, `break` skips the rest of the body |
| Interpreter.BreakRunsRestAsWritten | src/lang/execution/interpreter.rs:222-224 | as written, the statements after `break` still run |
| Interpreter.AssignmentAfterBreakAsWritten | src/lang/execution/interpreter.rs:249-262 | as written, `{ break; q = 1; }` assigns `q` |
| Interpreter.AssignmentAfterBreakCorrected | src/lang/execution/interpreter.rs:249-262 | corrected, `{ break; q = 1; }` leaves `q` at 0 |
| Interpreter.Exec | src/lang/execution/interpreter.rs:221-280 | a statement keeps the frame count and loop-stack height; while the innermost loop is skipping (continued, or broken when corrected) it changes nothing |
| Interpreter.ExecAll | src/lang/execution/interpreter.rs:163-170 | a statement list keeps the frame count and loop-stack height, and the empty list changes nothing |
| Interpreter.RunLoop | src/lang/execution/interpreter.rs:249-259 | a broken loop does not run again |
| Resolver.NewState | src/runtime/resolver.rs:15-21 | a new resolver has no scope and no resolution |
| Resolver.GetDistance | src/runtime/resolver.rs:24-26 | the distance is known exactly for resolved expressions, and is the recorded one |
| Resolver.BeginScope | src/runtime/resolver.rs:28-30 | opening a scope pushes an empty one |
| Resolver.EndScope | src/runtime/resolver.rs:32-34 | closing pops the innermost scope, and does nothing without one |
| Resolver.EndUndoesBegin | src/runtime/resolver.rs:28-34 | closing a scope just opened restores the state |
| Resolver.Mark | src/runtime/resolver.rs:61-76 | `declare`/`define` set the name to declared/defined in the innermost scope alone; without scopes nothing happens; a nameless token panics |
| Resolver.Innermost | src/runtime/resolver.rs:50-59 | the index found is the innermost scope binding the name; none when no scope binds it |
| Resolver.ResolveLocal | src/runtime/resolver.rs:50-59 | a binding name records the innermost binding scope's index; otherwise nothing is recorded |
| Resolver.ResolvedDistance | src/runtime/resolver.rs:50-59 | after resolution, the distance of the expression is the innermost binding scope's index |
| Resolver.ResolveVariable | src/runtime/resolver.rs:92-103 | without scopes the read panics as written; reading a name declared but not defined in the innermost scope is the fatal own-initializer error; otherwise the read is resolved |
| Resolver.ResolveExpr | src/runtime/resolver.rs:81-123 | resolving an expression leaves the scopes alone and never removes a resolution |
| Resolver.Required | src/runtime/resolver.rs:145-154 | a present part is used; an absent one panics as written and is skipped when corrected |
| Resolver.ResolveStmt | src/runtime/resolver.rs:125-173 | a statement keeps every outer scope and the scope count, and never removes a resolution |
| Resolver.ResolveIf | src/runtime/resolver.rs:145-149 | as written, an `if` without `else` fails |
| Resolver.ResolveLoop | src/runtime/resolver.rs:150-154 | as written, a loop without condition or post statement fails |
| Resolver.ResolveScoped | src/runtime/resolver.rs:140-144 | a block or function body runs in a scope of its own and leaves the scopes as they were |
| Resolver.DeclareParams | src/runtime/resolver.rs:164-167 | every parameter ends up defined in the function's scope; a nameless parameter panics |
| Resolver.ResolveStmts | src/runtime/resolver.rs:36-40 | a statement list keeps every outer scope and never removes a resolution |
| Resolver.ResolveProgram | src/runtime/resolver.rs:36-40 | a resolved program ends with no scope open |
| Resolver.DeclarationDefines | src/runtime/resolver.rs:135-139 | inside a scope, a resolved declaration leaves its name defined |
| Resolver.FunctionDefines | src/runtime/resolver.rs:160-170 | inside a scope, a resolved function leaves its name defined |
| Resolver.OwnInitializerIsFatal | src/runtime/resolver.rs:92-100 | `var a = a;` inside a scope is the fatal own-initializer error at the read |
| Resolver.GlobalReadAsWritten | src/runtime/resolver.rs:92-96 | as written, a top-level program reading a variable panics |
| Resolver.GlobalReadCorrected | src/runtime/resolver.rs:92-103 | corrected, the global read leaves the resolver unchanged |
| Resolver.WhileAndIfAsWritten | src/runtime/resolver.rs:145-154 | as written, `while (c) s` and `if (c) s` panic |
| Resolver.WhileAndIfCorrected | src/runtime/resolver.rs:145-154 | corrected, both resolve |

## Left out

- Scanning and the scanner's uses of the tables are not part of this model. The tables are modelled and proved complete.
- Spans on nodes are dropped. Only `Token.Span` and `merge` are modelled; `merge` keeps the source's `min` for `line_end`.
- Numbers are `real`, not IEEE `f64`. `NaN` is a separate value, there are no infinities, and `Interpreter.NumOp` gives NaN for division by zero, where `f64` gives an infinity. Rounding is not modelled.
- Number formatting (`f64::to_string`) is a parameter of the interpreter, because its text is not specified.
- The environment stack's source is not part of this model. `Interpreter.Lookup`, `Interpreter.Assign` and `Interpreter.Declare` model it as a stack of maps searched innermost first.
- Interpreter.Declare: requires a non-empty environment stack; the interpreter always starts with a global frame.
- Callables are a `Host` oracle. `Interpreter.Eval` passes the argument values to it, and the call does not change the machine. User-defined function bodies, closures, `return` and the standard library are not modelled.
- Interpreter.Exec: a `Return` statement is a no-op, because the interpreter has no arm for it.
- Interpreter.Exec: statement results (the value returned by `visit_stmt`) are dropped; only the state is kept.
- Interpreter.Exec: runs with a `fuel` bound, so a loop that does not stop ends in `OutOfFuel` instead of running forever.
- Interpreter.Eval: error messages of `runtime_err` are abstracted. A printed, non-fatal error increments a counter; an exit becomes a `Failure` carrying the line.
- `println!` tracing in the resolver is not modelled.
- Resolver.ResolveStmt: runs over an arena of its own that keeps only what the resolver reads. Tokens are reduced to lexeme and line, and it requires that children have smaller ids than their parents, which every arena the parser builds satisfies.
- Resolver.ResolveLocal: records the scope's index counted from the outermost scope, as the source does, not a distance from the innermost one.
- BoxParser.LoopStatement: the rules are methods, so no contract can name the tree another rule parses; that the body is the declaration parsed after `loop` is not stated, only its shape.
- BoxParser.WhileStatement: that the condition and the body are the expression and declaration parsed after `(` and `)` is not stated, for the same reason; only their shape is.
- BoxParser.FunDeclaration: that the body is the statement list of the block parsed after `{` is not stated, for the same reason; its emptiness and shape are.
- BoxParser.Arguments: that argument `k` is the `k`-th comma-separated expression parsed is not stated, for the same reason; the arguments' number being at least one and their shape are.
- ArenaParser.Compounds: that each part's select core is the one parsed after its operator is not stated, for the same reason; the operators and their token order are.
- BoxParser.MatchNext: requires a type other than end-of-file, which every call site passes.
- BoxParser.ReturnStatement: requires a position after the `return` keyword, which its only caller guarantees.
- The SQL parts the parser never builds (joins, ORDER BY, LIMIT, OFFSET, GROUP BY, HAVING, insert, update, delete) appear only as datatype shapes.
- Error recovery and synchronisation are not modelled, because neither parser has any.

## Findings

| source | as written | input that shows it | evidently intended | confidence | as-written member | corrected member |
|---|---|---|---|---|---|---|
| src/lang/parser.rs:105-120 | after the loop, `expected(Eof)` advances on end-of-file and looks one token back | a program with no tokens but end-of-file: the look-back at position 0 underflows and panics | an empty program parses to `Program([])` | high, not executed | ArenaParser.ParseWith | ArenaParser.Parse |
| src/lang/parsing/parser.rs:35-42 | after the loop, `consume(Eof)` advances on end-of-file and looks one token back | an empty program: `peek_bw(1)` at position 0 panics | an empty program parses to no statements | high, not executed | BoxParser.ParseWith | BoxParser.Parse |
| src/lang/execution/interpreter.rs:60-62 | `!e` evaluates to the truthiness of `e` | `!true` is `true` | `!e` negates the truthiness | high, not executed | Interpreter.NotTrueAsWritten | Interpreter.NotNotIsTruthiness |
| src/lang/execution/interpreter.rs:126-131 | every pair not covered earlier compares false, including under `!=` | `nil != 5` is `false`, as is `nil == 5` | `!=` is the negation of `==` | medium, not executed | Interpreter.NilNotEqualAsWritten | Interpreter.NotEqualNegatesEqual |
| src/lang/execution/interpreter.rs:222-259 | only a `Continue` state skips statements; `Broken` is checked only before the next iteration | `for (...) { break; q = q + 1; }` still increments `q`; the loop test in lykiadb-server/tests/runtime/loops.rs:57-85, written for the later server interpreter and not for this one, expects 0, which shows the intent | `break` skips the rest of the body and the post statement | high, not executed | Interpreter.AssignmentAfterBreakAsWritten | Interpreter.AssignmentAfterBreakCorrected |
| src/runtime/resolver.rs:92-96 | `self.scopes.last().unwrap()` runs before the `!self.scopes.is_empty()` test | a top-level `x;` panics on the empty scope stack | a global read is left to the runtime | high, not executed | Resolver.GlobalReadAsWritten | Resolver.GlobalReadCorrected |
| src/runtime/resolver.rs:145-154 | the else branch, loop condition and post statement are unwrapped unconditionally | `while (true) break;` (no post) and `if (true) break;` (no else) panic | absent parts are skipped | high, not executed | Resolver.WhileAndIfAsWritten | Resolver.WhileAndIfCorrected |
