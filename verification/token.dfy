/**
 * Token kinds, the keyword and symbol lookup tables and source spans of the
 * arena-based front end (server/src/lang/token.rs).
 */
module Token {
  import opened Wrappers
  import L = AstLiteral

  datatype Symbol =
    | Comma | Colon | Semicolon | LeftParen | RightParen | LeftBrace | RightBrace
    | BangEqual | Equal | EqualEqual | Greater | GreaterEqual | Less | LessEqual
    | Bang | Dot | Minus | Plus | Slash | Star

  datatype Keyword =
    | And | Or | Class | Else | Fun | If | Break | Continue | Return | Super | This
    | Var | While | For | Loop

  datatype SqlKeyword =
    | Begin | Transaction | Rollback | Commit | Where | Having | Asc | Desc | Order | By
    | Explain | Is | Not | Null | Offset | Like | Limit | And | Or | Join | Inner | Outer
    | Right | Left | On | Create | Insert | Update | Delete | Drop | Into | Values | Index
    | Table | Select | From | As | Cross | Default | Group | Key | Of | Only | Primary
    | References | Set | System | Unique | Read | Write | Union | All | Intersect | Except
    | Distinct

  /**
   * The kind of a token. The constructors `Sym`, `Kw` and `Skw` play the role
   * of the `sym!`, `kw!` and `skw!` macros, which wrap a symbol, a keyword or
   * an SQL keyword into a token kind.
   */
  datatype TokenType =
    | Str | Num | Null | False | True
    | Identifier(dollar: bool)
    | Sym(symbol: Symbol)
    | Kw(keyword: Keyword)
    | Skw(sqlKeyword: SqlKeyword)
    | Eof

  /** A source range: byte offsets `start..end` and the lines it covers. */
  datatype Span = Span(start: nat, end: nat, line: nat, lineEnd: nat)

  datatype Token = Token(tokType: TokenType, literal: Option<L.Literal>, lexeme: Option<string>, span: Span)

  /**
   * The all-zero span every synthesised node carries: an empty range that
   * no span starts before, on a line no span precedes.
   */
  function DefaultSpan(): (r: Span)
    ensures r.start == r.end
    ensures forall s: Span :: r.start <= s.start && r.line <= s.line && r.lineEnd <= s.lineEnd
  {
    Span(0, 0, 0, 0)
  }

  function Min(a: nat, b: nat): nat { if a <= b then a else b }
  function Max(a: nat, b: nat): nat { if a <= b then b else a }

  /**
   * The span covering two spans. Both line fields take the minimum of the
   * inputs: `line_end` is merged with `min`, not `max`.
   */
  function Merge(a: Span, b: Span): (r: Span)
    ensures r.start <= a.start && r.start <= b.start && (r.start == a.start || r.start == b.start)
    ensures r.end >= a.end && r.end >= b.end && (r.end == a.end || r.end == b.end)
    ensures r.line <= a.line && r.line <= b.line && (r.line == a.line || r.line == b.line)
    ensures r.lineEnd <= a.lineEnd && r.lineEnd <= b.lineEnd && (r.lineEnd == a.lineEnd || r.lineEnd == b.lineEnd)
  {
    Span(Min(a.start, b.start), Max(a.end, b.end), Min(a.line, b.line), Min(a.lineEnd, b.lineEnd))
  }

  lemma MergeCommutative(a: Span, b: Span)
    ensures Merge(a, b) == Merge(b, a)
  {
  }

  lemma MergeIdempotent(a: Span)
    ensures Merge(a, a) == a
  {
  }

  lemma MergeAssociative(a: Span, b: Span, c: Span)
    ensures Merge(Merge(a, b), c) == Merge(a, Merge(b, c))
  {
  }

  /** Merging with the default span keeps the end and zeroes every other field. */
  lemma MergeWithDefault(a: Span)
    ensures Merge(a, DefaultSpan()) == Span(0, a.end, 0, 0)
  {
  }

  /** The merged span of two well-formed ranges contains both ranges. */
  lemma MergeCovers(a: Span, b: Span)
    requires a.start <= a.end && b.start <= b.end
    ensures var r := Merge(a, b);
      r.start <= r.end && r.start <= a.start && a.end <= r.end && r.start <= b.start && b.end <= r.end
  {
  }

  // ---------------------------------------------------------------------------
  // Lookup tables

  /** The source text of each symbol: the reference the symbol table is checked against. */
  function SymbolText(s: Symbol): string {
    match s
    case Comma => ","
    case Colon => ":"
    case Semicolon => ";"
    case LeftParen => "("
    case RightParen => ")"
    case LeftBrace => "{"
    case RightBrace => "}"
    case BangEqual => "!="
    case Equal => "="
    case EqualEqual => "=="
    case Greater => ">"
    case GreaterEqual => ">="
    case Less => "<"
    case LessEqual => "<="
    case Bang => "!"
    case Dot => "."
    case Minus => "-"
    case Plus => "+"
    case Slash => "/"
    case Star => "*"
  }

  /** The characters the `SYMBOLS` table has keys for. */
  const SymbolChars: string := "(){},:.-+;*"

  /**
   * The `SYMBOLS` table: the single characters that always form a symbol on
   * their own. Characters that may start a two-character symbol are not keys.
   */
  function SymbolOf(c: char): (r: Option<TokenType>)
    ensures r.Some? <==> c in SymbolChars
    ensures r.Some? ==> r.value.Sym? && SymbolText(r.value.symbol) == [c]
  {
    match c
    case '(' => Some(Sym(LeftParen))
    case ')' => Some(Sym(RightParen))
    case '{' => Some(Sym(LeftBrace))
    case '}' => Some(Sym(RightBrace))
    case ',' => Some(Sym(Comma))
    case ':' => Some(Sym(Colon))
    case '.' => Some(Sym(Dot))
    case '-' => Some(Sym(Minus))
    case '+' => Some(Sym(Plus))
    case ';' => Some(Sym(Semicolon))
    case '*' => Some(Sym(Star))
    case _ => None
  }

  /** Every one-character symbol that cannot start a longer symbol is in the table. */
  lemma SymbolTableComplete(s: Symbol)
    requires |SymbolText(s)| == 1
    requires s !in {Bang, Equal, Greater, Less, Slash}
    ensures SymbolOf(SymbolText(s)[0]) == Some(Sym(s))
  {
  }

  /** The lower-case spelling of a keyword. */
  function KeywordText(k: Keyword): string {
    match k
    case And => "and"
    case Or => "or"
    case Class => "class"
    case Else => "else"
    case Fun => "fun"
    case If => "if"
    case Break => "break"
    case Continue => "continue"
    case Return => "return"
    case Super => "super"
    case This => "this"
    case Var => "var"
    case While => "while"
    case For => "for"
    case Loop => "loop"
  }

  /**
   * The `CASE_SNS_KEYWORDS` table: language keywords and the three literal
   * words, matched with case.
   */
  function CaseSensitiveKeyword(s: string): (r: Option<TokenType>)
    ensures r.Some? ==> r.value.Kw? || r.value in {TokenType.Null, False, True}
    ensures r.Some? && r.value.Kw? ==> s == KeywordText(r.value.keyword)
    ensures r == Some(TokenType.Null) <==> s == "null"
    ensures r == Some(False) <==> s == "false"
    ensures r == Some(True) <==> s == "true"
  {
    match s
    case "and" => Some(Kw(Keyword.And))
    case "class" => Some(Kw(Class))
    case "else" => Some(Kw(Else))
    case "for" => Some(Kw(For))
    case "fun" => Some(Kw(Fun))
    case "if" => Some(Kw(If))
    case "or" => Some(Kw(Keyword.Or))
    case "break" => Some(Kw(Break))
    case "continue" => Some(Kw(Continue))
    case "return" => Some(Kw(Return))
    case "super" => Some(Kw(Super))
    case "this" => Some(Kw(This))
    case "var" => Some(Kw(Var))
    case "while" => Some(Kw(While))
    case "loop" => Some(Kw(Loop))
    case "null" => Some(TokenType.Null)
    case "false" => Some(False)
    case "true" => Some(True)
    case _ => None
  }

  /** Every keyword is found under its own lower-case name. */
  lemma KeywordTableComplete(k: Keyword)
    ensures CaseSensitiveKeyword(KeywordText(k)) == Some(Kw(k))
  {
  }

  /** The upper-case spelling of an SQL keyword: its variant name in capitals. */
  function SqlKeywordText(k: SqlKeyword): string {
    match k
    case Begin => "BEGIN"
    case Transaction => "TRANSACTION"
    case Rollback => "ROLLBACK"
    case Commit => "COMMIT"
    case Where => "WHERE"
    case Having => "HAVING"
    case Asc => "ASC"
    case Desc => "DESC"
    case Order => "ORDER"
    case By => "BY"
    case Explain => "EXPLAIN"
    case Is => "IS"
    case Not => "NOT"
    case Null => "NULL"
    case Offset => "OFFSET"
    case Like => "LIKE"
    case Limit => "LIMIT"
    case And => "AND"
    case Or => "OR"
    case Join => "JOIN"
    case Inner => "INNER"
    case Outer => "OUTER"
    case Right => "RIGHT"
    case Left => "LEFT"
    case On => "ON"
    case Create => "CREATE"
    case Insert => "INSERT"
    case Update => "UPDATE"
    case Delete => "DELETE"
    case Drop => "DROP"
    case Into => "INTO"
    case Values => "VALUES"
    case Index => "INDEX"
    case Table => "TABLE"
    case Select => "SELECT"
    case From => "FROM"
    case As => "AS"
    case Cross => "CROSS"
    case Default => "DEFAULT"
    case Group => "GROUP"
    case Key => "KEY"
    case Of => "OF"
    case Only => "ONLY"
    case Primary => "PRIMARY"
    case References => "REFERENCES"
    case Set => "SET"
    case System => "SYSTEM"
    case Unique => "UNIQUE"
    case Read => "READ"
    case Write => "WRITE"
    case Union => "UNION"
    case All => "ALL"
    case Intersect => "INTERSECT"
    case Except => "EXCEPT"
    case Distinct => "DISTINCT"
  }

  /**
   * The `CASE_INS_KEYWORDS` table. Its keys are upper case only (the scanner
   * upper-cases a word before it looks it up), and each key maps to the SQL
   * keyword variant of the same name. The table is split by the key's first
   * letter into the `SqlKeywordsAt` functions below.
   */
  function CaseInsensitiveKeyword(s: string): (r: Option<TokenType>)
    ensures r.Some? ==> r.value.Skw? && s == SqlKeywordText(r.value.sqlKeyword)
  {
    if |s| == 0 then None
    else match s[0]
      case 'A' => SqlKeywordsAtA(s)
      case 'D' => SqlKeywordsAtD(s)
      case 'U' => SqlKeywordsAtU(s)
      case 'I' => SqlKeywordsAtI(s)
      case 'E' => SqlKeywordsAtE(s)
      case 'B' => SqlKeywordsAtB(s)
      case 'T' => SqlKeywordsAtT(s)
      case 'R' => SqlKeywordsAtR(s)
      case 'C' => SqlKeywordsAtC(s)
      case 'W' => SqlKeywordsAtW(s)
      case 'H' => SqlKeywordsAtH(s)
      case 'O' => SqlKeywordsAtO(s)
      case 'N' => SqlKeywordsAtN(s)
      case 'L' => SqlKeywordsAtL(s)
      case 'J' => SqlKeywordsAtJ(s)
      case 'V' => SqlKeywordsAtV(s)
      case 'S' => SqlKeywordsAtS(s)
      case 'F' => SqlKeywordsAtF(s)
      case 'G' => SqlKeywordsAtG(s)
      case 'K' => SqlKeywordsAtK(s)
      case 'P' => SqlKeywordsAtP(s)
      case _ => None
  }

  function SqlKeywordsAtA(s: string): (r: Option<TokenType>)
    ensures r.Some? ==> r.value.Skw? && s == SqlKeywordText(r.value.sqlKeyword)
  {
    match s
    case "ALL" => Some(Skw(SqlKeyword.All))
    case "ASC" => Some(Skw(SqlKeyword.Asc))
    case "AND" => Some(Skw(SqlKeyword.And))
    case "AS" => Some(Skw(SqlKeyword.As))
    case _ => None
  }

  function SqlKeywordsAtD(s: string): (r: Option<TokenType>)
    ensures r.Some? ==> r.value.Skw? && s == SqlKeywordText(r.value.sqlKeyword)
  {
    match s
    case "DISTINCT" => Some(Skw(SqlKeyword.Distinct))
    case "DESC" => Some(Skw(SqlKeyword.Desc))
    case "DELETE" => Some(Skw(SqlKeyword.Delete))
    case "DROP" => Some(Skw(SqlKeyword.Drop))
    case "DEFAULT" => Some(Skw(SqlKeyword.Default))
    case _ => None
  }

  function SqlKeywordsAtU(s: string): (r: Option<TokenType>)
    ensures r.Some? ==> r.value.Skw? && s == SqlKeywordText(r.value.sqlKeyword)
  {
    match s
    case "UNION" => Some(Skw(SqlKeyword.Union))
    case "UPDATE" => Some(Skw(SqlKeyword.Update))
    case "UNIQUE" => Some(Skw(SqlKeyword.Unique))
    case _ => None
  }

  function SqlKeywordsAtI(s: string): (r: Option<TokenType>)
    ensures r.Some? ==> r.value.Skw? && s == SqlKeywordText(r.value.sqlKeyword)
  {
    match s
    case "INTERSECT" => Some(Skw(SqlKeyword.Intersect))
    case "IS" => Some(Skw(SqlKeyword.Is))
    case "INNER" => Some(Skw(SqlKeyword.Inner))
    case _ => SqlKeywordsAtIn(s)
  }

  function SqlKeywordsAtIn(s: string): (r: Option<TokenType>)
    ensures r.Some? ==> r.value.Skw? && s == SqlKeywordText(r.value.sqlKeyword)
  {
    match s
    case "INSERT" => Some(Skw(SqlKeyword.Insert))
    case "INTO" => Some(Skw(SqlKeyword.Into))
    case "INDEX" => Some(Skw(SqlKeyword.Index))
    case _ => None
  }

  function SqlKeywordsAtE(s: string): (r: Option<TokenType>)
    ensures r.Some? ==> r.value.Skw? && s == SqlKeywordText(r.value.sqlKeyword)
  {
    match s
    case "EXCEPT" => Some(Skw(SqlKeyword.Except))
    case "EXPLAIN" => Some(Skw(SqlKeyword.Explain))
    case _ => None
  }

  function SqlKeywordsAtB(s: string): (r: Option<TokenType>)
    ensures r.Some? ==> r.value.Skw? && s == SqlKeywordText(r.value.sqlKeyword)
  {
    match s
    case "BEGIN" => Some(Skw(SqlKeyword.Begin))
    case "BY" => Some(Skw(SqlKeyword.By))
    case _ => None
  }

  function SqlKeywordsAtT(s: string): (r: Option<TokenType>)
    ensures r.Some? ==> r.value.Skw? && s == SqlKeywordText(r.value.sqlKeyword)
  {
    match s
    case "TRANSACTION" => Some(Skw(SqlKeyword.Transaction))
    case "TABLE" => Some(Skw(SqlKeyword.Table))
    case _ => None
  }

  function SqlKeywordsAtR(s: string): (r: Option<TokenType>)
    ensures r.Some? ==> r.value.Skw? && s == SqlKeywordText(r.value.sqlKeyword)
  {
    match s
    case "ROLLBACK" => Some(Skw(SqlKeyword.Rollback))
    case "RIGHT" => Some(Skw(SqlKeyword.Right))
    case "REFERENCES" => Some(Skw(SqlKeyword.References))
    case "READ" => Some(Skw(SqlKeyword.Read))
    case _ => None
  }

  function SqlKeywordsAtC(s: string): (r: Option<TokenType>)
    ensures r.Some? ==> r.value.Skw? && s == SqlKeywordText(r.value.sqlKeyword)
  {
    match s
    case "COMMIT" => Some(Skw(SqlKeyword.Commit))
    case "CREATE" => Some(Skw(SqlKeyword.Create))
    case "CROSS" => Some(Skw(SqlKeyword.Cross))
    case _ => None
  }

  function SqlKeywordsAtW(s: string): (r: Option<TokenType>)
    ensures r.Some? ==> r.value.Skw? && s == SqlKeywordText(r.value.sqlKeyword)
  {
    match s
    case "WHERE" => Some(Skw(SqlKeyword.Where))
    case "WRITE" => Some(Skw(SqlKeyword.Write))
    case _ => None
  }

  function SqlKeywordsAtH(s: string): (r: Option<TokenType>)
    ensures r.Some? ==> r.value.Skw? && s == SqlKeywordText(r.value.sqlKeyword)
  {
    match s
    case "HAVING" => Some(Skw(SqlKeyword.Having))
    case _ => None
  }

  function SqlKeywordsAtO(s: string): (r: Option<TokenType>)
    ensures r.Some? ==> r.value.Skw? && s == SqlKeywordText(r.value.sqlKeyword)
  {
    match s
    case "ORDER" => Some(Skw(SqlKeyword.Order))
    case "OR" => Some(Skw(SqlKeyword.Or))
    case "OFFSET" => Some(Skw(SqlKeyword.Offset))
    case "OUTER" => Some(Skw(SqlKeyword.Outer))
    case "ON" => Some(Skw(SqlKeyword.On))
    case "OF" => Some(Skw(SqlKeyword.Of))
    case "ONLY" => Some(Skw(SqlKeyword.Only))
    case _ => None
  }

  function SqlKeywordsAtN(s: string): (r: Option<TokenType>)
    ensures r.Some? ==> r.value.Skw? && s == SqlKeywordText(r.value.sqlKeyword)
  {
    match s
    case "NOT" => Some(Skw(SqlKeyword.Not))
    case "NULL" => Some(Skw(SqlKeyword.Null))
    case _ => None
  }

  function SqlKeywordsAtL(s: string): (r: Option<TokenType>)
    ensures r.Some? ==> r.value.Skw? && s == SqlKeywordText(r.value.sqlKeyword)
  {
    match s
    case "LIMIT" => Some(Skw(SqlKeyword.Limit))
    case "LIKE" => Some(Skw(SqlKeyword.Like))
    case "LEFT" => Some(Skw(SqlKeyword.Left))
    case _ => None
  }

  function SqlKeywordsAtJ(s: string): (r: Option<TokenType>)
    ensures r.Some? ==> r.value.Skw? && s == SqlKeywordText(r.value.sqlKeyword)
  {
    match s
    case "JOIN" => Some(Skw(SqlKeyword.Join))
    case _ => None
  }

  function SqlKeywordsAtV(s: string): (r: Option<TokenType>)
    ensures r.Some? ==> r.value.Skw? && s == SqlKeywordText(r.value.sqlKeyword)
  {
    match s
    case "VALUES" => Some(Skw(SqlKeyword.Values))
    case _ => None
  }

  function SqlKeywordsAtS(s: string): (r: Option<TokenType>)
    ensures r.Some? ==> r.value.Skw? && s == SqlKeywordText(r.value.sqlKeyword)
  {
    match s
    case "SELECT" => Some(Skw(SqlKeyword.Select))
    case "SET" => Some(Skw(SqlKeyword.Set))
    case "SYSTEM" => Some(Skw(SqlKeyword.System))
    case _ => None
  }

  function SqlKeywordsAtF(s: string): (r: Option<TokenType>)
    ensures r.Some? ==> r.value.Skw? && s == SqlKeywordText(r.value.sqlKeyword)
  {
    match s
    case "FROM" => Some(Skw(SqlKeyword.From))
    case _ => None
  }

  function SqlKeywordsAtG(s: string): (r: Option<TokenType>)
    ensures r.Some? ==> r.value.Skw? && s == SqlKeywordText(r.value.sqlKeyword)
  {
    match s
    case "GROUP" => Some(Skw(SqlKeyword.Group))
    case _ => None
  }

  function SqlKeywordsAtK(s: string): (r: Option<TokenType>)
    ensures r.Some? ==> r.value.Skw? && s == SqlKeywordText(r.value.sqlKeyword)
  {
    match s
    case "KEY" => Some(Skw(SqlKeyword.Key))
    case _ => None
  }

  function SqlKeywordsAtP(s: string): (r: Option<TokenType>)
    ensures r.Some? ==> r.value.Skw? && s == SqlKeywordText(r.value.sqlKeyword)
  {
    match s
    case "PRIMARY" => Some(Skw(SqlKeyword.Primary))
    case _ => None
  }
}
