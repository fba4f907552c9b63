/** Properties of the SQL keyword table of `token.rs`: completeness and case. */
module TokenTables {
  import opened Wrappers
  import opened Token

  /**
   * Every SQL keyword is found under its upper-case name. The proof goes
   * through the keywords a few at a time.
   */
  lemma SqlKeywordTableComplete(k: SqlKeyword)
    ensures CaseInsensitiveKeyword(SqlKeywordText(k)) == Some(Skw(k))
  {
    match k
    case Begin | Transaction | Rollback | Commit => SqlKeywordTableCompletePart0(k);
    case Where | Having | Asc | Desc => SqlKeywordTableCompletePart1(k);
    case Order | By | Explain | Is => SqlKeywordTableCompletePart2(k);
    case Not | Null | Offset | Like => SqlKeywordTableCompletePart3(k);
    case Limit | And | Or | Join => SqlKeywordTableCompletePart4(k);
    case Inner | Outer | Right | Left => SqlKeywordTableCompletePart5(k);
    case On | Create | Insert | Update => SqlKeywordTableCompletePart6(k);
    case Delete | Drop | Into | Values => SqlKeywordTableCompletePart7(k);
    case Index | Table | Select | From => SqlKeywordTableCompletePart8(k);
    case As | Cross | Default | Group => SqlKeywordTableCompletePart9(k);
    case Key | Of | Only | Primary => SqlKeywordTableCompletePart10(k);
    case References | Set | System | Unique => SqlKeywordTableCompletePart11(k);
    case Read | Write | Union | All => SqlKeywordTableCompletePart12(k);
    case Intersect | Except | Distinct => SqlKeywordTableCompletePart13(k);
  }

  lemma SqlKeywordTableCompletePart0(k: SqlKeyword)
    requires k.Begin? || k.Transaction? || k.Rollback? || k.Commit?
    ensures CaseInsensitiveKeyword(SqlKeywordText(k)) == Some(Skw(k))
  {
    match k
    case Begin => assert SqlKeywordText(k) == "BEGIN";
    case Transaction => assert SqlKeywordText(k) == "TRANSACTION";
    case Rollback => assert SqlKeywordText(k) == "ROLLBACK";
    case Commit => assert SqlKeywordText(k) == "COMMIT";
  }

  lemma SqlKeywordTableCompletePart1(k: SqlKeyword)
    requires k.Where? || k.Having? || k.Asc? || k.Desc?
    ensures CaseInsensitiveKeyword(SqlKeywordText(k)) == Some(Skw(k))
  {
    match k
    case Where => assert SqlKeywordText(k) == "WHERE";
    case Having => assert SqlKeywordText(k) == "HAVING";
    case Asc => assert SqlKeywordText(k) == "ASC";
    case Desc => assert SqlKeywordText(k) == "DESC";
  }

  lemma SqlKeywordTableCompletePart2(k: SqlKeyword)
    requires k.Order? || k.By? || k.Explain? || k.Is?
    ensures CaseInsensitiveKeyword(SqlKeywordText(k)) == Some(Skw(k))
  {
    match k
    case Order => assert SqlKeywordText(k) == "ORDER";
    case By => assert SqlKeywordText(k) == "BY";
    case Explain => assert SqlKeywordText(k) == "EXPLAIN";
    case Is => assert SqlKeywordText(k) == "IS";
  }

  lemma SqlKeywordTableCompletePart3(k: SqlKeyword)
    requires k.Not? || k.Null? || k.Offset? || k.Like?
    ensures CaseInsensitiveKeyword(SqlKeywordText(k)) == Some(Skw(k))
  {
    match k
    case Not => assert SqlKeywordText(k) == "NOT";
    case Null => assert SqlKeywordText(k) == "NULL";
    case Offset => assert SqlKeywordText(k) == "OFFSET";
    case Like => assert SqlKeywordText(k) == "LIKE";
  }

  lemma SqlKeywordTableCompletePart4(k: SqlKeyword)
    requires k.Limit? || k.And? || k.Or? || k.Join?
    ensures CaseInsensitiveKeyword(SqlKeywordText(k)) == Some(Skw(k))
  {
    match k
    case Limit => assert SqlKeywordText(k) == "LIMIT";
    case And => assert SqlKeywordText(k) == "AND";
    case Or => assert SqlKeywordText(k) == "OR";
    case Join => assert SqlKeywordText(k) == "JOIN";
  }

  lemma SqlKeywordTableCompletePart5(k: SqlKeyword)
    requires k.Inner? || k.Outer? || k.Right? || k.Left?
    ensures CaseInsensitiveKeyword(SqlKeywordText(k)) == Some(Skw(k))
  {
    match k
    case Inner => assert SqlKeywordText(k) == "INNER";
    case Outer => assert SqlKeywordText(k) == "OUTER";
    case Right => assert SqlKeywordText(k) == "RIGHT";
    case Left => assert SqlKeywordText(k) == "LEFT";
  }

  lemma SqlKeywordTableCompletePart6(k: SqlKeyword)
    requires k.On? || k.Create? || k.Insert? || k.Update?
    ensures CaseInsensitiveKeyword(SqlKeywordText(k)) == Some(Skw(k))
  {
    match k
    case On => assert SqlKeywordText(k) == "ON";
    case Create => assert SqlKeywordText(k) == "CREATE";
    case Insert => assert SqlKeywordText(k) == "INSERT";
    case Update => assert SqlKeywordText(k) == "UPDATE";
  }

  lemma SqlKeywordTableCompletePart7(k: SqlKeyword)
    requires k.Delete? || k.Drop? || k.Into? || k.Values?
    ensures CaseInsensitiveKeyword(SqlKeywordText(k)) == Some(Skw(k))
  {
    match k
    case Delete => assert SqlKeywordText(k) == "DELETE";
    case Drop => assert SqlKeywordText(k) == "DROP";
    case Into => assert SqlKeywordText(k) == "INTO";
    case Values => assert SqlKeywordText(k) == "VALUES";
  }

  lemma SqlKeywordTableCompletePart8(k: SqlKeyword)
    requires k.Index? || k.Table? || k.Select? || k.From?
    ensures CaseInsensitiveKeyword(SqlKeywordText(k)) == Some(Skw(k))
  {
    match k
    case Index => assert SqlKeywordText(k) == "INDEX";
    case Table => assert SqlKeywordText(k) == "TABLE";
    case Select => assert SqlKeywordText(k) == "SELECT";
    case From => assert SqlKeywordText(k) == "FROM";
  }

  lemma SqlKeywordTableCompletePart9(k: SqlKeyword)
    requires k.As? || k.Cross? || k.Default? || k.Group?
    ensures CaseInsensitiveKeyword(SqlKeywordText(k)) == Some(Skw(k))
  {
    match k
    case As => assert SqlKeywordText(k) == "AS";
    case Cross => assert SqlKeywordText(k) == "CROSS";
    case Default => assert SqlKeywordText(k) == "DEFAULT";
    case Group => assert SqlKeywordText(k) == "GROUP";
  }

  lemma SqlKeywordTableCompletePart10(k: SqlKeyword)
    requires k.Key? || k.Of? || k.Only? || k.Primary?
    ensures CaseInsensitiveKeyword(SqlKeywordText(k)) == Some(Skw(k))
  {
    match k
    case Key => assert SqlKeywordText(k) == "KEY";
    case Of => assert SqlKeywordText(k) == "OF";
    case Only => assert SqlKeywordText(k) == "ONLY";
    case Primary => assert SqlKeywordText(k) == "PRIMARY";
  }

  lemma SqlKeywordTableCompletePart11(k: SqlKeyword)
    requires k.References? || k.Set? || k.System? || k.Unique?
    ensures CaseInsensitiveKeyword(SqlKeywordText(k)) == Some(Skw(k))
  {
    match k
    case References => assert SqlKeywordText(k) == "REFERENCES";
    case Set => assert SqlKeywordText(k) == "SET";
    case System => assert SqlKeywordText(k) == "SYSTEM";
    case Unique => assert SqlKeywordText(k) == "UNIQUE";
  }

  lemma SqlKeywordTableCompletePart12(k: SqlKeyword)
    requires k.Read? || k.Write? || k.Union? || k.All?
    ensures CaseInsensitiveKeyword(SqlKeywordText(k)) == Some(Skw(k))
  {
    match k
    case Read => assert SqlKeywordText(k) == "READ";
    case Write => assert SqlKeywordText(k) == "WRITE";
    case Union => assert SqlKeywordText(k) == "UNION";
    case All => assert SqlKeywordText(k) == "ALL";
  }

  lemma SqlKeywordTableCompletePart13(k: SqlKeyword)
    requires k.Intersect? || k.Except? || k.Distinct?
    ensures CaseInsensitiveKeyword(SqlKeywordText(k)) == Some(Skw(k))
  {
    match k
    case Intersect => assert SqlKeywordText(k) == "INTERSECT";
    case Except => assert SqlKeywordText(k) == "EXCEPT";
    case Distinct => assert SqlKeywordText(k) == "DISTINCT";
  }

  /** A lower-case word is never an SQL keyword: the table is keyed by capitals only. */
  lemma SqlKeywordTableUpperOnly(s: string)
    requires |s| > 0 && 'a' <= s[0] <= 'z'
    ensures CaseInsensitiveKeyword(s) == None
  {
  }
}
