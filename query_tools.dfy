/**
 * The statement-type policy of the query manager: a classifier that names
 * the command kind of a SQL text, and an evaluator that judges, from an
 * allow list and a disallow list, whether that kind is valid.
 */
module QueryTools {
  import opened Wrappers
  import opened PyStr

  /**
   * The SQL parser, seen from outside: `None` when it raises a parse error,
   * otherwise `Some(n)` with `n` the class name of the root node of the tree
   * it builds (for instance "Select", "Drop", "Command").
   */
  type Parser = string -> Option<string>

  /** What `validate_sql_type` returns: the reported type and whether it is valid. */
  datatype Decision = Decision(statementType: string, valid: bool)

  /** Sentinel entry of the allow list that makes every statement valid. */
  const AllSentinel: string := "all"

  /** Sentinel entry of the allow list that makes unlisted types valid. */
  const UnknownSentinel: string := "unknown"

  /** The type reported for a statement the parser rejects. */
  const UnknownType: string := "Unknown"

  /**
   * `get_statement_type`: the root node's class name, or "Unknown" when the
   * parse fails. It is total: a parse error never reaches the caller.
   */
  function StatementType(parse: Parser, sql: string): (t: string)
    ensures parse(sql).None? ==> t == UnknownType
    ensures parse(sql).Some? ==> t == parse(sql).value
  {
    match parse(sql)
    case None => UnknownType
    case Some(name) => name
  }

  /**
   * Reference statement of the policy, in one formula: "all" makes
   * everything valid; otherwise a disallowed type is invalid, and a type that
   * is not disallowed is valid when it is allow-listed or "unknown" is.
   */
  predicate Permits(allow: seq<string>, disallow: seq<string>, lowered: string) {
    AllSentinel in allow
    || (lowered !in disallow && (lowered in allow || UnknownSentinel in allow))
  }

  /**
   * The if/elif chain of `validate_sql_type` on a statement type: the first
   * branch whose test holds decides. The lists are compared with the type
   * lowered; the lists themselves are taken as they are.
   */
  function Evaluate(t: string, allow: seq<string>, disallow: seq<string>): (valid: bool)
    ensures valid <==> Permits(allow, disallow, Lower(t))
  {
    if AllSentinel in allow then true
    else if Lower(t) in disallow then false
    else if Lower(t) in allow then true
    else if UnknownSentinel in allow then true
    else if |allow| == 0 && |disallow| == 0 then false
    else false
  }

  /** `validate_sql_type`: classify the statement, then judge its type. */
  function ValidateSqlType(parse: Parser, sql: string, allow: seq<string>, disallow: seq<string>): (d: Decision)
    ensures d.statementType == StatementType(parse, sql)
    ensures d.valid <==> Permits(allow, disallow, Lower(StatementType(parse, sql)))
  {
    var t := StatementType(parse, sql);
    Decision(t, Evaluate(t, allow, disallow))
  }
}
