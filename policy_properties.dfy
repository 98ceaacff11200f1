/**
 * What the statement-type policy of the query tool guarantees, stated over
 * every statement type, every pair of lists and every parser.
 */
module PolicyProperties {
  import opened Wrappers
  import opened PyStr
  import opened QueryTools

  // ---------------------------------------------------------------------
  // The precedence of the branches, one lemma per branch
  // ---------------------------------------------------------------------

  /** "all" in the allow list makes every statement valid, whatever the disallow list holds. */
  lemma AllowAllIsAbsolute(parse: Parser, sql: string, allow: seq<string>, disallow: seq<string>)
    requires "all" in allow
    ensures ValidateSqlType(parse, sql, allow, disallow).valid
  {
  }

  /** Without "all", a disallowed type is invalid, even when it is also allow-listed. */
  lemma DisallowBeatsAllow(t: string, allow: seq<string>, disallow: seq<string>)
    requires "all" !in allow && Lower(t) in disallow
    ensures !Evaluate(t, allow, disallow)
  {
  }

  /** An allow-listed type that is not disallowed is valid. */
  lemma AllowListedIsValid(t: string, allow: seq<string>, disallow: seq<string>)
    requires Lower(t) !in disallow && Lower(t) in allow
    ensures Evaluate(t, allow, disallow)
  {
  }

  /** "unknown" in the allow list makes every type valid that is not disallowed, listed or not. */
  lemma UnknownEscapeHatch(t: string, allow: seq<string>, disallow: seq<string>)
    requires "unknown" in allow && Lower(t) !in disallow
    ensures Evaluate(t, allow, disallow)
  {
  }

  /** With both lists empty every statement is invalid, whatever its text and the parser. */
  lemma DefaultDeny(parse: Parser, sql: string)
    ensures !ValidateSqlType(parse, sql, [], []).valid
  {
  }

  /**
   * When none of the first four tests fires, the statement is invalid
   * whether or not the lists are empty: the two last branches agree.
   */
  lemma FallbackDenies(t: string, allow: seq<string>, disallow: seq<string>)
    requires "all" !in allow && "unknown" !in allow
    requires Lower(t) !in disallow && Lower(t) !in allow
    ensures !Evaluate(t, allow, disallow)
  {
  }

  /** A statement is valid only when "all", its own type or "unknown" is allow-listed. */
  lemma ValidOnlyWhenNamed(t: string, allow: seq<string>, disallow: seq<string>)
    requires Evaluate(t, allow, disallow)
    ensures "all" in allow || Lower(t) in allow || "unknown" in allow
  {
  }

  // ---------------------------------------------------------------------
  // Unparseable statements and the "unknown" entries
  // ---------------------------------------------------------------------

  /**
   * An unparseable statement is reported as "Unknown" and judged as the type
   * "unknown": it is valid exactly when "all" is allow-listed, or "unknown" is
   * allow-listed and not disallowed.
   */
  lemma UnparseableJudgedAsUnknown(parse: Parser, sql: string, allow: seq<string>, disallow: seq<string>)
    requires parse(sql).None?
    ensures ValidateSqlType(parse, sql, allow, disallow).statementType == "Unknown"
    ensures ValidateSqlType(parse, sql, allow, disallow).valid
        <==> "all" in allow || ("unknown" !in disallow && "unknown" in allow)
  {
    assert Lower("Unknown") == "unknown";
  }

  /**
   * "unknown" in the disallow list invalidates only statements whose type lowers
   * to "unknown" (parse failures): a parsed type outside both lists is not
   * affected by it, unlike "unknown" in the allow list.
   */
  lemma DisallowedUnknownOnlyHitsUnknown(t: string, allow: seq<string>, disallow: seq<string>)
    requires Lower(t) != "unknown"
    ensures Evaluate(t, allow, disallow + ["unknown"]) == Evaluate(t, allow, disallow)
  {
  }

  // ---------------------------------------------------------------------
  // Case, order and growth of the lists
  // ---------------------------------------------------------------------

  /** The policy sees a type only through its lower-case form. */
  lemma CaseInsensitiveInType(t: string, allow: seq<string>, disallow: seq<string>)
    ensures Evaluate(Lower(t), allow, disallow) == Evaluate(t, allow, disallow)
  {
    LowerIdempotent(t);
  }

  /**
   * The lists are expected in lower case. An entry with a capital letter can
   * never match a type, and is not a sentinel, so adding it to either list
   * changes no decision.
   */
  lemma MixedCaseEntryIsInert(t: string, allow: seq<string>, disallow: seq<string>, e: string)
    requires !IsLowerCase(e)
    ensures Evaluate(t, allow + [e], disallow) == Evaluate(t, allow, disallow)
    ensures Evaluate(t, allow, disallow + [e]) == Evaluate(t, allow, disallow)
  {
    assert Lower(t) != e;
    assert "all" != e by { assert IsLowerCase("all"); }
    assert "unknown" != e by { assert IsLowerCase("unknown"); }
  }

  /** Only which entries the lists hold matters: not their order, not duplicates. */
  lemma ListsActAsSets(t: string, allow: seq<string>, disallow: seq<string>, allow': seq<string>, disallow': seq<string>)
    requires forall x :: x in allow <==> x in allow'
    requires forall x :: x in disallow <==> x in disallow'
    ensures Evaluate(t, allow', disallow') == Evaluate(t, allow, disallow)
  {
  }

  /** Allowing more never makes a valid statement invalid. */
  lemma AllowMonotone(t: string, allow: seq<string>, disallow: seq<string>, allow': seq<string>)
    requires forall x :: x in allow ==> x in allow'
    requires Evaluate(t, allow, disallow)
    ensures Evaluate(t, allow', disallow)
  {
  }

  /** Disallowing more never makes an invalid statement valid. */
  lemma DisallowAntitone(t: string, allow: seq<string>, disallow: seq<string>, disallow': seq<string>)
    requires forall x :: x in disallow ==> x in disallow'
    requires Evaluate(t, allow, disallow')
    ensures Evaluate(t, allow, disallow)
  {
  }

  // ---------------------------------------------------------------------
  // Worked scenarios
  // ---------------------------------------------------------------------

  /** "SELECT 1" parsed as a Select, allow list ["select"]: reported as "Select" and valid. */
  lemma SelectAllowed(parse: Parser)
    requires parse("SELECT 1") == Some("Select")
    ensures ValidateSqlType(parse, "SELECT 1", ["select"], []) == Decision("Select", true)
  {
    assert Lower("Select") == "select";
  }

  /** "DROP TABLE t" parsed as a Drop, disallow list ["drop"]: reported as "Drop" and invalid. */
  lemma DropDisallowed(parse: Parser)
    requires parse("DROP TABLE t") == Some("Drop")
    ensures ValidateSqlType(parse, "DROP TABLE t", [], ["drop"]) == Decision("Drop", false)
  {
    assert Lower("Drop") == "drop";
  }

  /** Allow list ["all"] overrides disallow list ["drop"] for "DROP TABLE t". */
  lemma AllOverridesDrop(parse: Parser)
    requires parse("DROP TABLE t") == Some("Drop")
    ensures ValidateSqlType(parse, "DROP TABLE t", ["all"], ["drop"]) == Decision("Drop", true)
  {
  }

  /** Allow list ["unknown"] makes a text the parser rejects valid. */
  lemma UnparseableValidUnderUnknown(parse: Parser)
    requires parse("Weird").None?
    ensures ValidateSqlType(parse, "Weird", ["unknown"], []) == Decision("Unknown", true)
  {
    assert Lower("Unknown") == "unknown";
  }
}
