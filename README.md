# Statement-type policy of the Snowflake MCP query tool

The query manager of the Snowflake MCP server defines a policy that judges
a SQL statement valid or invalid by its command kind. This project models
that policy. It has two parts, both in
`mcp_server_snowflake/query_manager/tools.py`:

- the **statement classifier** `get_statement_type`. It parses the SQL text
  and reports the class name of the root node of the syntax tree ("Select",
  "Drop", ...), or "Unknown" when the parser raises a parse error;
- the **policy evaluator** `validate_sql_type`. It classifies the statement
  and applies an if/elif chain over the configured allow list and disallow list.
  The first branch whose test holds decides. It returns the pair (type, valid).

Files:

- `wrappers.dfy` (module `Wrappers`): the `Option` datatype. `None` stands for
  a parse error.
- `py_str.dfy` (module `PyStr`): Python's `str.lower()` as applied to node
  class names, which is ASCII lower-casing.
- `query_tools.dfy` (module `QueryTools`): the classifier (`StatementType`),
  the if/elif chain on a type (`Evaluate`), the whole of `validate_sql_type`
  (`ValidateSqlType`), and `Permits`, a one-formula reference statement of the
  policy:
  `valid <==> "all" in allow || (lower(t) !in disallow && (lower(t) in allow || "unknown" in allow))`.
  `Evaluate` is proved equal to it.
- `policy_properties.dfy` (module `PolicyProperties`): lemmas on precedence,
  default-deny, the "unknown" entries, case, list order and monotonicity, and
  the worked scenarios.

The parser is a parameter `parse: string -> Option<string>`. Every lemma holds
of the model for every parser. The lemmas describe the program only when the
parser's class names are ASCII identifiers, since `PyStr.Lower` lowers only
ASCII letters (see its line under "## Left out"). The classifier is a
function, so the same text always gets the same type.

The lists are Python lists tested with `in`, so they are `seq<string>` here.
`ListsActAsSets` shows that only the set of their entries matters.

## Model

| member | source | states |
|---|---|---|
| `PyStr.LowerChar` | mcp_server_snowflake/query_manager/tools.py:117 | `.lower()` on one character: the result is never a capital, a non-capital is unchanged, and a capital becomes the same letter in lower case |
| `PyStr.Lower` | mcp_server_snowflake/query_manager/tools.py:117 | `.lower()` keeps the length, lowers each character in place, and yields a string with no capital letter |
| `PyStr.LowerOfLowerCase` | mcp_server_snowflake/query_manager/tools.py:117-118 | a list entry already in lower case, as the lists are expected to be at load, is left unchanged by `.lower()` |
| `PyStr.LowerIdempotent` | mcp_server_snowflake/query_manager/tools.py:117-120 | lowering twice is lowering once |
| `QueryTools.StatementType` | mcp_server_snowflake/query_manager/tools.py:87-102 | a parse failure is reported as "Unknown" and never propagates; a successful parse reports the root node's class name |
| `QueryTools.Evaluate` | mcp_server_snowflake/query_manager/tools.py:112-131 | the first-match-wins chain is valid exactly when "all" is allowed, or the lowered type is not disallowed and is allowed itself or "unknown" is allowed |
| `QueryTools.ValidateSqlType` | mcp_server_snowflake/query_manager/tools.py:105-133 | the reported type is exactly the classifier's type, and validity is the reference policy applied to its lower-case form |
| `PolicyProperties.AllowAllIsAbsolute` | mcp_server_snowflake/query_manager/tools.py:112-115 | "all" in the allow list makes every statement valid, whatever the disallow list holds |
| `PolicyProperties.DisallowBeatsAllow` | mcp_server_snowflake/query_manager/tools.py:116-121 | without "all", a disallowed type is invalid even when it is also allow-listed |
| `PolicyProperties.AllowListedIsValid` | mcp_server_snowflake/query_manager/tools.py:120-121 | an allow-listed type that is not disallowed is valid |
| `PolicyProperties.UnknownEscapeHatch` | mcp_server_snowflake/query_manager/tools.py:122-124 | "unknown" in the allow list makes every type valid that is not disallowed, including types in neither list |
| `PolicyProperties.DefaultDeny` | mcp_server_snowflake/query_manager/tools.py:126-128 | with both lists empty every statement is invalid, for every text and every parser |
| `PolicyProperties.FallbackDenies` | mcp_server_snowflake/query_manager/tools.py:126-131 | when none of the first four tests fires, the statement is invalid whether or not the lists are empty, so the last two branches agree |
| `PolicyProperties.ValidOnlyWhenNamed` | mcp_server_snowflake/query_manager/tools.py:112-131 | a statement is valid only when "all", its own lowered type or "unknown" is in the allow list |
| `PolicyProperties.UnparseableJudgedAsUnknown` | mcp_server_snowflake/query_manager/tools.py:99-124 | an unparseable text is reported as "Unknown" and is valid exactly when "all" is allowed, or "unknown" is allowed and not disallowed |
| `PolicyProperties.DisallowedUnknownOnlyHitsUnknown` | mcp_server_snowflake/query_manager/tools.py:116-131 | "unknown" in the disallow list changes the decision only for types that lower to "unknown" |
| `PolicyProperties.CaseInsensitiveInType` | mcp_server_snowflake/query_manager/tools.py:116-121 | a type and its lower-case form get the same decision |
| `PolicyProperties.MixedCaseEntryIsInert` | mcp_server_snowflake/query_manager/tools.py:116-118 | a list entry with a capital letter matches no type and is no sentinel, so adding it to either list changes no decision |
| `PolicyProperties.ListsActAsSets` | mcp_server_snowflake/query_manager/tools.py:105-131 | two lists with the same entries give the same decision, whatever their order and duplicates |
| `PolicyProperties.AllowMonotone` | mcp_server_snowflake/query_manager/tools.py:112-124 | adding entries to the allow list never makes a valid statement invalid |
| `PolicyProperties.DisallowAntitone` | mcp_server_snowflake/query_manager/tools.py:116-119 | adding entries to the disallow list never makes an invalid statement valid |
| `PolicyProperties.SelectAllowed` | mcp_server_snowflake/query_manager/tools.py:105-133 | "SELECT 1" parsed as Select, with allow list ["select"], gives ("Select", true) |
| `PolicyProperties.DropDisallowed` | mcp_server_snowflake/query_manager/tools.py:105-133 | "DROP TABLE t" parsed as Drop, with disallow list ["drop"], gives ("Drop", false) |
| `PolicyProperties.AllOverridesDrop` | mcp_server_snowflake/query_manager/tools.py:105-133 | allow list ["all"] overrides disallow list ["drop"]: ("Drop", true) |
| `PolicyProperties.UnparseableValidUnderUnknown` | mcp_server_snowflake/query_manager/tools.py:99-124 | an unparseable text with allow list ["unknown"] gives ("Unknown", true) |

## Left out

- Enforcement of the decision is not part of this model. The tool
  registered in `initialize_query_manager_tool` (tools.py:70-84) passes the
  statement straight to `run_query`, and nothing in `tools.py` calls
  `validate_sql_type`. Whether a statement judged invalid is kept from
  running is up to a caller outside `tools.py`. This model proves only what
  `valid` is, not that it gates execution.

- `run_query` (tools.py:11-66) is left out. It opens a dedicated or shared
  Snowflake connection, executes the statement with a dictionary cursor,
  closes the dedicated connection in a `finally`, and wraps every exception
  into an error with status 500. All of this is calls into the Snowflake
  connector, whose behaviour cannot be seen.
- `initialize_query_manager_tool` (tools.py:69-84) is left out. It registers
  the tool with the FastMCP framework.
- The SQL parser's internals are left out. The parser is the parameter
  `parse`.
- Exceptions other than a parse error are left out. `get_statement_type`
  catches only the parse error, so any other exception from the parser would
  reach the caller. The model's parser cannot raise anything else.
- `PyStr.Lower`: Python's `str.lower()` lowers every Unicode cased character,
  and this model lowers only `A`..`Z`. The two agree on the syntax-tree class
  names the parser reports, which are ASCII identifiers.
- `mcp_server_snowflake/__main__.py` is left out. It only sets warning
  filters and starts the server.
- `mcp_server_snowflake/query_manager/prompts.py` is left out. It holds only
  the tool's description text.
- Loading the lists from configuration, and lower-casing them at load time,
  happen outside `tools.py` and are not part of this model. The lists are
  taken as given. `MixedCaseEntryIsInert` shows what happens to an entry that
  was not lower-cased.
