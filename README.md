# Retail insights assistant: the plan-to-SQL pipeline in Dafny

The retail insights assistant answers questions about a sales table. A
language model proposes a JSON-like query plan. The rest of the turn is
deterministic code, and that code is what this project models:

- `validate_plan` normalises whatever the planner produced into a plan:
  - it forces `intent`;
  - it keeps only known `group_by` columns and `filters` keys;
  - it keeps only catalogued `metrics`, falling back to `shipped_amount`;
  - it gives `time` both ends;
  - it defaults and clamps `limit`;
  - it emits at most two warnings.
- `build_sql` compiles a plan into `SELECT … FROM sales [WHERE] [GROUP BY]
  [ORDER BY] LIMIT n`, with quoted identifiers and `_sql_literal` values.
- `validate_sql_is_select` is the textual safety gate every statement passes
  before it reaches the database.
- `get_schema_metadata` writes the schema text shown to the planner, and
  `_schema_cols` reads the "known columns" back from it.
- The graph nodes tie these together. The validator node validates the plan
  in the state and extends the warnings. The extractor node refuses to run
  without a database handle, then builds, checks and runs the statement.
- Three helpers sit beside them:
  - the JSON span `extract_json` hands to the parser;
  - the result digest `summarize_df`;
  - the prompt flattener `_flatten`.

Files:

| file | module | contents |
|---|---|---|
| `wrappers.dfy` | `Wrappers` | `Option`, `Result`, `Outcome` |
| `strings.dfy` | `Strings` | Python's `strip`, `lower`/`upper`, `in` on text, `split`, `"\n".join`, `splitlines`, `int()` on text |
| `values.dfy` | `Values` | the plan as a JSON-like `Value`; Python truthiness, `or`, `dict.get`/item assignment/`setdefault`, iteration, hashing, `int()`; exceptions as `Exc` |
| `sql_builder.dfy` | `SqlBuilder` | `SAFE_METRICS`, `_sql_literal`, `build_sql`: a plan is read into a `Query` (`PlanQuery`) and printed (`Render`); `BuildSql` is the loop-by-loop method, proved equal to `Compile` |
| `sql_builder_facts.dfy` | `SqlBuilderFacts` | what every compiled statement looks like |
| `validators.dfy` | `Validators`, `ValidatorFacts` | the gate; `validate_plan` as a method over its six in-place updates; what a validated plan is; default plan and idempotence |
| `safe_text.dfy` | `CleanText` | text free of banned words: how it composes, and that the catalogue, the template and printed numbers are free of them |
| `pipeline.dfy` | `Pipeline` | gate and compiler together: the prefix always passes, and a compiled statement passes exactly when the text the plan put into it has no banned word |
| `schema.dfy` | `Schema` | `get_schema_metadata`, `_schema_cols` and their round trip |
| `utils.dfy` | `Utils` | `extract_json` span selection, `summarize_df` |
| `gemini.dfy` | `Gemini` | `_flatten` |
| `graph.dfy` | `Graph` | the validator and extractor nodes of both graphs, over state objects and a logging stand-in for the database |

The repository holds two copies of several files. The copies below hold the
same code as the files cited in the table:

- `src/retail_ai/utils/helpers.py:10-31` copies `extract_json` and
  `get_schema_metadata` from `retail_assistant/utils.py`.
- `retail_assistant/llm_providers/gemini_chat.py:7-23` copies `_flatten`
  from `src/retail_ai/llm/gemini_client.py`.
- `src/retail_ai/graphs/chat_graph.py:30-35` copies `_schema_cols` from
  `retail_assistant/graph.py`.

Both graphs' nodes are modelled: `Graph.AssistantState` and `Graph.ChatState`.

Where the code and the design description disagree, the model follows the code:

- `validate_plan` can raise, although it is described as never raising.
  - A `metrics` list with an unhashable element (a list or a dict) raises
    `TypeError` in `m in SAFE_METRICS`.
  - Truthy `notes` that are not text raise `AttributeError` in `.lower()`.
- "Every column the plan references is known" holds for `group_by` and
  `filters` only. `validate_plan` leaves `sort` alone. `build_sql` drops
  unknown sort keys itself.
- The known columns include the three schema notes (`NoteEntries`), because
  the note lines also start with "- ".
- The compiled statement is described as a single SELECT with one LIMIT and
  no semicolons, but nothing in `build_sql` or the gate enforces it. The sort
  order is pasted in upper-cased and is never compared with `asc`/`desc`.
  Sorting by `Status` in the order `desc limit 1; select 1` gives a statement
  ending `ORDER BY "Status" DESC LIMIT 1; SELECT 1`, a newline and
  `LIMIT 10`. The gate passes it, since none of its words is banned
  (`Pipeline.GatePassesSecondStatement`). A text filter value such as
  `LIMIT 1` adds a second `LIMIT` too, inside a quoted literal.
- The sample in `summarize_df` is `df.head(max_rows)`. For a negative
  `max_rows`, pandas drops the last `-max_rows` rows, so the sample can hold
  more than `max_rows` rows. `Utils.Head` models this.

## Model

| member | source | states |
|---|---|---|
| SqlBuilder.SqlLiteral | src/retail_ai/data_engine/sql_builder.py:15-21 | `None` prints as `NULL`, an integer as its decimal text, a bool as `True`/`False`; a string, and the `str` text of a list or dict, is put in single quotes with every quote doubled; never empty |
| SqlBuilder.ReprQuote | src/retail_ai/data_engine/sql_builder.py:20 | `str` of a list or dict shows each string in double quotes exactly when it holds a single quote and no double quote, and in single quotes otherwise |
| SqlBuilder.Clamp | src/retail_ai/data_engine/sql_builder.py:83 | `max(1, min(n, 200))` lies in 1..200, is `n` inside the range, 1 below it and 200 above it |
| SqlBuilder.GroupColumns | src/retail_ai/data_engine/sql_builder.py:34-37 | the group-by loop keeps only schema columns, never more names than it was given |
| SqlBuilder.CatalogMetrics | src/retail_ai/data_engine/sql_builder.py:39-42 | the metric loop raises `TypeError` exactly when some element is unhashable; otherwise every kept name is a catalogue key |
| SqlBuilder.DatePredicates | src/retail_ai/data_engine/sql_builder.py:48-54 | the time window contributes at most two tests, both date bounds |
| SqlBuilder.FilterPredicate | src/retail_ai/data_engine/sql_builder.py:59-63 | a filter is an `IN` test exactly when its value is a list, otherwise an equality, on its own column |
| SqlBuilder.FilterPredicates | src/retail_ai/data_engine/sql_builder.py:56-63 | the filter loop yields one predicate per kept entry, each on a schema column |
| SqlBuilder.SortTerm | src/retail_ai/data_engine/sql_builder.py:73-79 | a kept sort term orders by a schema column or by a catalogued metric |
| SqlBuilder.SortTerms | src/retail_ai/data_engine/sql_builder.py:71-79 | the sort loop keeps at most one term per entry, each on a known column or catalogued metric |
| SqlBuilder.PlanQuery | src/retail_ai/data_engine/sql_builder.py:24-84 | a compiled plan asks only for catalogued metrics, so every SELECT item has an expression |
| SqlBuilder.PlanQuerySound | src/retail_ai/data_engine/sql_builder.py:24-84 | every identifier a compiled statement prints is a schema column or a catalogued metric, and its limit is in 1..200 |
| SqlBuilder.PlanQueryParts | src/retail_ai/data_engine/sql_builder.py:25-29 | a compiled query's fields come from the plan's `limit`, `group_by`, `metrics`, `time`, `filters` and `sort`, each read with its default |
| SqlBuilder.SelectList | src/retail_ai/data_engine/sql_builder.py:44-45 | the projection is never empty |
| SqlBuilder.GroupParts | src/retail_ai/data_engine/sql_builder.py:34-37 | the loop's parts are the quoted known columns in plan order |
| SqlBuilder.MetricParts | src/retail_ai/data_engine/sql_builder.py:39-42 | the loop raises `TypeError` when the catalogue lookup does, and otherwise gives one `expr AS name` per catalogued name |
| SqlBuilder.DateParts | src/retail_ai/data_engine/sql_builder.py:47-54 | the date tests are the lower bound, then the upper bound, each present only when truthy |
| SqlBuilder.WhereParts | src/retail_ai/data_engine/sql_builder.py:47-63 | the WHERE parts are the date tests, then the filter tests in entry order |
| SqlBuilder.OrderParts | src/retail_ai/data_engine/sql_builder.py:71-81 | the sort loop raises what the first bad entry raises, otherwise gives the terms' texts in order |
| SqlBuilder.Assemble | src/retail_ai/data_engine/sql_builder.py:65-83 | the `+=` assembly produces the fixed clause layout, a clause only when it has parts |
| SqlBuilder.BuildSql | src/retail_ai/data_engine/sql_builder.py:24-84 | `build_sql` returns exactly the rendered query of the plan, or raises what reading the plan raises |
| SqlBuilderFacts.StrReprReadsBack | src/retail_ai/data_engine/sql_builder.py:20 | a string's repr opens and closes with the chosen quote, and its body, with the backslash escapes for that quote, the backslash, tab, newline, carriage return and other control characters, decodes back to exactly the string |
| SqlBuilderFacts.ReprBodyPlain | src/retail_ai/data_engine/sql_builder.py:20 | a string with no quote of the chosen kind, no backslash and no control character appears in the repr unchanged |
| SqlBuilderFacts.ApostropheInList | src/retail_ai/data_engine/sql_builder.py:15-21 | the list `["it's"]` prints as `'["it''s"]'`: the element in double quotes, then the apostrophe doubled |
| SqlBuilderFacts.LiteralReadsBack | src/retail_ai/data_engine/sql_builder.py:20-21 | a SQL lexer reads a printed string literal back as exactly the value, ending where the statement resumes |
| SqlBuilderFacts.StatementShape | src/retail_ai/data_engine/sql_builder.py:65-83 | every statement starts with `SELECT `, contains `\nFROM sales\n` and ends with `LIMIT n` |
| SqlBuilderFacts.CompiledShape | src/retail_ai/data_engine/sql_builder.py:65-83 | every compiled statement ends with `LIMIT n` for some `n` in 1..200 |
| SqlBuilderFacts.LimitRules | src/retail_ai/data_engine/sql_builder.py:29 | a missing or falsy limit (including 0) gives 10; a number or its decimal text is clamped to 1..200 (negative gives 1); `True` gives 1 |
| SqlBuilderFacts.LimitErrors | src/retail_ai/data_engine/sql_builder.py:29 | a list or dict limit raises `TypeError`, and a text that is not an integer raises `ValueError` |
| SqlBuilderFacts.MetricsDefault | src/retail_ai/data_engine/sql_builder.py:27 | a missing or empty `metrics` compiles as `["shipped_amount"]` |
| SqlBuilderFacts.SelectListLayout | src/retail_ai/data_engine/sql_builder.py:31-45 | SELECT lists the quoted group columns, then `expr AS name` per metric; with both empty it is the shipped amount alone |
| SqlBuilderFacts.GroupByMirrorsSelect | src/retail_ai/data_engine/sql_builder.py:68-69 | GROUP BY is absent without group columns and otherwise lists exactly the quoted columns that open SELECT, in the same order |
| SqlBuilderFacts.GroupColumnsAppend | src/retail_ai/data_engine/sql_builder.py:34-37 | the group-by filter keeps plan order: it distributes over concatenation |
| SqlBuilderFacts.GroupColumnsOfKnown | src/retail_ai/data_engine/sql_builder.py:34-37 | known columns, duplicates included, pass the group-by filter unchanged |
| SqlBuilderFacts.CatalogMetricsOfKnown | src/retail_ai/data_engine/sql_builder.py:39-42 | catalogued names pass the metric loop unchanged |
| SqlBuilderFacts.DateWindow | src/retail_ai/data_engine/sql_builder.py:48-54 | a `>=` test exists exactly when `from` is truthy, a `<=` test exactly when `to` is, and the lower bound comes first |
| SqlBuilderFacts.FilterPredicatesAppend | src/retail_ai/data_engine/sql_builder.py:56-63 | the filter loop keeps entry order: it distributes over concatenation |
| SqlBuilderFacts.SortDirection | src/retail_ai/data_engine/sql_builder.py:74-79 | the direction is the order text lower- then upper-cased, unrestricted, `DESC` when absent or empty; a schema column wins over a metric of the same name |
| SqlBuilderFacts.SortEntryErrors | src/retail_ai/data_engine/sql_builder.py:74-78 | a non-dict entry or a non-text order raises `AttributeError`; an unhashable `by` that is not a column raises `TypeError` |
| SqlBuilderFacts.TopCategoriesExample | src/retail_ai/data_engine/sql_builder.py:24-84 | the plan "top categories by shipped amount" compiles to group by `Category`, one metric, order by it descending, limit 5, no WHERE |
| Validators.ValidateSqlIsSelect | retail_assistant/validators.py:6-12 | passes exactly when the stripped lower-cased text starts with `select` and has no banned word; otherwise the right message, prefix test first |
| Validators.GateIgnoresCase | retail_assistant/validators.py:7 | a statement and its lower-cased form get the same verdict |
| Validators.GateRejectsNothing | retail_assistant/validators.py:7-9 | `None` and the empty statement are refused as not SELECT |
| Validators.GateRejectsBannedInside | retail_assistant/validators.py:10-12 | a banned word anywhere inside a SELECT statement, in any case, gets it refused as unsafe |
| Validators.GateRejectsCreatedAt | retail_assistant/validators.py:10-12 | words are matched as substrings: a read-only query over `created_at` is refused |
| Validators.KnownEntries | retail_assistant/validators.py:39 | the filter comprehension keeps only entries it was given whose key is a schema column |
| Validators.MetricsOutput | retail_assistant/validators.py:31-34 | the validated metrics are never empty |
| Validators.GroupColumnsKnown | retail_assistant/validators.py:26 | the validated `group_by` is a list of known columns |
| Validators.MetricsKnown | retail_assistant/validators.py:31-34 | the validated `metrics` is a non-empty list of catalogue names |
| Validators.TimeIsWindow | retail_assistant/validators.py:41-46 | the validated `time` is a dict with both `from` and `to` |
| Validators.NormalisedIsValidated | retail_assistant/validators.py:21-58 | any plan `validate_plan` returns is valid: known columns, catalogued non-empty metrics, known filters, a full window, limit in 1..200 |
| Validators.NotesKept | retail_assistant/validators.py:54 | the six updates leave `notes` as it was |
| Validators.NormaliseGroupBy | retail_assistant/validators.py:23-26 | `group_by` becomes the known columns of the list (or `[]`), every other key unchanged |
| Validators.NormaliseMetrics | retail_assistant/validators.py:28-34 | raises `TypeError` exactly when a metric element is unhashable; otherwise `metrics` becomes the catalogued names or `["shipped_amount"]`, every other key unchanged |
| Validators.NormaliseFilters | retail_assistant/validators.py:36-39 | `filters` keeps the entries on known columns, every other key unchanged |
| Validators.NormaliseTime | retail_assistant/validators.py:41-46 | `time` gets `from` and `to` (default `None`), existing values and extra keys kept; every other key unchanged |
| Validators.NormaliseLimit | retail_assistant/validators.py:48-52 | `limit` becomes the parsed or default limit clamped to 1..200, every other key unchanged |
| Validators.Untouched | retail_assistant/validators.py:21-52 | after the six updates each managed key holds what its update wrote and every other key is as on entry |
| Validators.Unread | retail_assistant/validators.py:21-52 | each update reads the value the plan held on entry |
| Validators.NormaliseFields | retail_assistant/validators.py:21-52 | the six updates fail only on an unhashable metric, leaving behind the updates already made (`intent` forced, `group_by` filtered, all else as on entry); otherwise they produce the normalised plan |
| Validators.ValidatePlan | retail_assistant/validators.py:15-58 | fails exactly on an unhashable metric (`TypeError`) or non-text notes (`AttributeError`), and then reports the dict as the raise leaves it (partly or wholly normalised); otherwise returns the normalised, valid plan, which is the updated dict, and the warnings in order |
| Validators.PlanOrDefault | retail_assistant/validators.py:17-19 | a non-dict plan is read as `{}` with the "did not return JSON" warning |
| Validators.NotesWarning | retail_assistant/validators.py:54-56 | the YoY warning is added exactly when the lower-cased notes contain `yoy` or `year over year` |
| ValidatorFacts.EmptyInputs | retail_assistant/validators.py:17-19 | an empty plan is read as no columns, no metrics, no filters, an empty window, limit 10, no notes |
| ValidatorFacts.NonDictGivesDefault | retail_assistant/validators.py:17-58 | a non-dict plan validates without error, warns exactly once, and becomes the default plan key for key |
| ValidatorFacts.GroupColumnsOfValidated | retail_assistant/validators.py:26 | known column values pass the group-by comprehension unchanged |
| ValidatorFacts.CatalogMetricsOfValidated | retail_assistant/validators.py:31 | catalogued metric values pass the metric comprehension unchanged |
| ValidatorFacts.KnownEntriesOfValidated | retail_assistant/validators.py:39 | filters on known columns pass the filter comprehension unchanged |
| ValidatorFacts.LimitInputRules | retail_assistant/validators.py:48-52 | missing, falsy or unparseable limits give 10; a number or its decimal text is clamped to 1..200 |
| ValidatorFacts.ValidatedIsFixed | retail_assistant/validators.py:15-58 | validation is idempotent: a valid plan validates without error and comes back unchanged |
| Pipeline.GateOnStatement | retail_assistant/validators.py:6-12 | any statement of the compiler's layout passes the prefix test; the banned words alone decide |
| Pipeline.CompiledGate | retail_assistant/validators.py:6-12 | a compiled statement is never refused as not SELECT, and passes exactly when its lower-cased text has no banned word, that is exactly when no text the plan put into it (group columns, filter columns and values, date bounds, sort columns and directions) has one |
| Pipeline.BannedPartRejected | retail_assistant/validators.py:10-12 | a banned word in any select item, predicate, group column or sort term gets the statement refused |
| Pipeline.BannedGroupColumnRejected | src/retail_ai/data_engine/sql_builder.py:34-37 | a group column carrying a banned word gets the compiled statement refused |
| Pipeline.BannedFilterColumnRejected | src/retail_ai/data_engine/sql_builder.py:56-63 | a filter column carrying a banned word gets the compiled statement refused |
| Pipeline.BannedDirectionRejected | src/retail_ai/data_engine/sql_builder.py:75-79 | a sort direction carrying a banned word gets the compiled statement refused |
| Pipeline.EscapeKeepsWord | src/retail_ai/data_engine/sql_builder.py:20 | quote doubling never hides a banned word |
| Pipeline.BannedFilterTextRejected | src/retail_ai/data_engine/sql_builder.py:63 | a text filter value carrying a banned word gets the compiled statement refused |
| Pipeline.EscapeKeepsWords | src/retail_ai/data_engine/sql_builder.py:20 | quote doubling never hides a banned word the text held |
| Pipeline.LiteralText | src/retail_ai/data_engine/sql_builder.py:15-21 | a printed literal holds a banned word exactly when the value's text does; `NULL`, numbers and booleans never do |
| Pipeline.JoinText | src/retail_ai/data_engine/sql_builder.py:60-61 | joining with a separator of non-letters holds a banned word exactly when some part does |
| Pipeline.DateBoundText | src/retail_ai/data_engine/sql_builder.py:51-54 | a date test holds a banned word exactly when its bound's text does |
| Pipeline.InListText | src/retail_ai/data_engine/sql_builder.py:59-61 | an `IN` test holds a banned word exactly when its column or one of its values does |
| Pipeline.ValuesText | src/retail_ai/data_engine/sql_builder.py:60 | the comma-joined value list holds a banned word exactly when one of the values does |
| Pipeline.EqualityText | src/retail_ai/data_engine/sql_builder.py:63 | an equality test holds a banned word exactly when its column or its value does |
| Pipeline.PredicateTextClean | src/retail_ai/data_engine/sql_builder.py:47-63 | any WHERE test holds a banned word exactly when the plan text it prints does |
| Pipeline.OrderTermText | src/retail_ai/data_engine/sql_builder.py:75-79 | a sort term holds a banned word exactly when its direction or its column does; a catalogue name never does |
| Pipeline.MetricItemClean | src/retail_ai/data_engine/sql_builder.py:39-42 | an `expr AS name` item of the catalogue holds no banned word |
| Pipeline.ClauseText | src/retail_ai/data_engine/sql_builder.py:66-81 | an optional clause holds a banned word exactly when one of its parts does, and ends with a newline when present |
| Pipeline.HeadText | src/retail_ai/data_engine/sql_builder.py:65 | the SELECT head holds a banned word exactly when one of its items does |
| Pipeline.StatementText | src/retail_ai/data_engine/sql_builder.py:65-83 | a statement holds a banned word exactly when one of its SELECT items, WHERE tests, group columns or sort terms does: the template and the limit never do |
| Pipeline.SelectText | src/retail_ai/data_engine/sql_builder.py:31-45 | the SELECT items hold a banned word exactly when a group column does; the catalogue items never do |
| Pipeline.RenderText | src/retail_ai/data_engine/sql_builder.py:24-84 | a rendered query holds a banned word exactly when some plan-supplied text in it does |
| Pipeline.RenderedGate | retail_assistant/validators.py:6-12 | the gate passes a compiled query exactly when the plan-supplied text in it has no banned word |
| Pipeline.SortOnlyQuery | src/retail_ai/data_engine/sql_builder.py:24-79 | a plan that only sorts by a known column reads as the default metric, that one sort term with its order upper-cased, and limit 10 |
| Pipeline.SortedOnlyStatement | src/retail_ai/data_engine/sql_builder.py:65-83 | a query with no WHERE or GROUP BY part and one column sort term ends with `ORDER BY "col" dir`, a newline and its LIMIT |
| Pipeline.SortedOnlyGate | retail_assistant/validators.py:6-12 | the gate passes such a query exactly when its sort column and direction have no banned word |
| Pipeline.OrderPasted | src/retail_ai/data_engine/sql_builder.py:73-83 | any order text is pasted into the statement upper-cased, unchecked, and the gate passes it exactly when neither it nor the column has a banned word |
| Pipeline.GatePassesSecondStatement | src/retail_ai/data_engine/sql_builder.py:75-83 | the order `desc limit 1; select 1` compiles to a statement ending `ORDER BY "Status" DESC LIMIT 1; SELECT 1` and `LIMIT 10`, and the gate passes it |
| CleanText.BannedLetters | retail_assistant/validators.py:10 | every banned word is at least four lower-case letters |
| CleanText.CleanShort | retail_assistant/validators.py:10-11 | a text shorter than four characters holds no banned word |
| CleanText.CleanAppend | retail_assistant/validators.py:10-11 | two texts free of banned words stay free when joined where one side is not a letter |
| CleanText.CleanAround | retail_assistant/validators.py:10-11 | a text free of banned words, framed by non-letters, keeps two clean texts apart |
| CleanText.CleanJoined | retail_assistant/validators.py:10-11 | around a clean middle framed by non-letters, the whole is clean exactly when both sides are |
| CleanText.CleanPart | retail_assistant/validators.py:10-11 | any piece of a text free of banned words is free of them |
| CleanText.CleanJoin | retail_assistant/validators.py:10-11 | clean parts joined by a clean separator of non-letters stay clean |
| CleanText.CleanIfAvoids | retail_assistant/validators.py:10-11 | a text with none of a set of letters that meets every banned word has no banned word |
| CleanText.ExpressionsClean | src/retail_ai/data_engine/sql_builder.py:5-12 | no catalogue expression holds a banned word |
| CleanText.NamesClean | src/retail_ai/data_engine/sql_builder.py:5-12 | no catalogue name holds a banned word |
| CleanText.KeywordsA | src/retail_ai/data_engine/sql_builder.py:65-67 | `SELECT `, `\nFROM sales\n`, `WHERE ` and ` AND ` hold no banned word |
| CleanText.KeywordsB | src/retail_ai/data_engine/sql_builder.py:41-83 | `GROUP BY `, `ORDER BY `, `LIMIT ` and ` AS ` hold no banned word |
| CleanText.KeywordsC | src/retail_ai/data_engine/sql_builder.py:52-61 | ` >= DATE `, ` <= DATE ` and ` IN (` hold no banned word |
| CleanText.KeywordsD | src/retail_ai/data_engine/sql_builder.py:15-21 | `NULL`, `True` and `False` hold no banned word |
| CleanText.DateTermClean | src/retail_ai/data_engine/sql_builder.py:52-54 | the date expression `TRY_STRPTIME(Date, '%m-%d-%y')` holds no banned word |
| CleanText.IntClean | src/retail_ai/data_engine/sql_builder.py:18-19 | the decimal text of an integer holds no banned word |
| CleanText.EscapeClean | src/retail_ai/data_engine/sql_builder.py:20 | doubling the quotes of a text free of banned words keeps it free of them |
| CleanText.QuoteClean | src/retail_ai/data_engine/sql_builder.py:36-37 | a quoted name holds a banned word exactly when the name does |
| Pipeline.ValidatedCompiles | retail_assistant/graph.py:74-89 | a validated plan compiles unless its `sort` is malformed, grouping by exactly its columns, computing exactly its metrics, with its limit |
| Schema.ColumnLine | retail_assistant/utils.py:21 | a column line starts with the bullet "- " |
| Schema.SchemaLines | retail_assistant/utils.py:22-30 | the heading, one line per column, then the blank line, `Notes:` and the three notes: columns plus 6 lines |
| Schema.GetSchemaMetadata | retail_assistant/utils.py:20-30 | the schema text opens with `Dataset columns:` |
| Schema.MetadataLines | retail_assistant/utils.py:22-30 | when no column name or dtype breaks a line, splitting the schema text into lines gives back exactly the lines joined |
| Schema.EntryOf | retail_assistant/graph.py:34 | an entry is stripped of surrounding whitespace |
| Schema.EntriesOf | retail_assistant/graph.py:33-34 | a line yields an entry exactly when it starts with "- " |
| Schema.SchemaEntries | retail_assistant/graph.py:32-34 | at most one stripped entry per line |
| Schema.SchemaCols | retail_assistant/graph.py:30-35 | the loop reads one entry per "- " line in line order; `None` gives `[]` |
| Schema.SchemaEntriesAppend | retail_assistant/graph.py:32-34 | the reading keeps line order: it distributes over concatenation |
| Schema.EntryOfColumnLine | retail_assistant/graph.py:34 | a column line reads back as its column name, when the name is stripped and has no ` (dtype=` |
| Schema.EntryOfNote | retail_assistant/graph.py:34 | a bullet note reads back as its text |
| Schema.ColumnEntries | retail_assistant/graph.py:32-34 | the column lines read back as the column names, in order |
| Schema.NoteLinesEntries | retail_assistant/utils.py:25-29 | the note lines read back as the three note sentences |
| Schema.SchemaRoundTrip | retail_assistant/graph.py:30-35 | reading the schema text back gives the column names in order followed by the three notes |
| Utils.JsonSpan | retail_assistant/utils.py:33-38 | empty or `None` text fails as empty; otherwise a span exists exactly when some `{` comes before some `}`, and it is the widest one: first `{` to last `}` |
| Utils.ExtractJson | retail_assistant/utils.py:33-39 | the span's error, or the parser's verdict on the span |
| Utils.SpanOfWrappedObject | retail_assistant/utils.py:36 | an object wrapped in text with no `{` before and no `}` after is found exactly |
| Utils.Head | retail_assistant/utils.py:47 | `head(n)` is the first `min(n, len)` rows, and for negative `n` all but the last `-n` |
| Utils.Record | retail_assistant/utils.py:47 | a record maps every column label to the row's value under the last column with that label |
| Utils.Records | retail_assistant/utils.py:47 | one record per row, in order |
| Utils.SummarizeDf | retail_assistant/utils.py:42-48 | `None` gives exactly `{'rows': 0}`; a table gives its true row count and its columns, and a sample exactly when it has rows |
| Utils.SampleIsHead | retail_assistant/utils.py:46-47 | for `max_rows >= 0` the sample is the first `min(max_rows, rows)` rows in order, each as its record |
| Gemini.Line | src/retail_ai/llm/gemini_client.py:18-21 | role `user` gives `User: `, any other non-system role (missing included) gives `Assistant: ` |
| Gemini.SystemParts | src/retail_ai/llm/gemini_client.py:13-17 | at most one system part per message |
| Gemini.ConvoLines | src/retail_ai/llm/gemini_client.py:13-21 | at most one conversation line per message |
| Gemini.Flatten | src/retail_ai/llm/gemini_client.py:10-26 | the loop and the `+=` assembly produce the stripped system block and a blank line (when there are system messages) then the stripped conversation |
| Gemini.SystemPartsAppend | src/retail_ai/llm/gemini_client.py:13-17 | system contents keep transcript order |
| Gemini.ConvoLinesAppend | src/retail_ai/llm/gemini_client.py:13-21 | conversation lines keep transcript order |
| Gemini.PartsPartition | src/retail_ai/llm/gemini_client.py:13-21 | every message lands in exactly one of the two groups |
| Gemini.SystemMessageHoisted | src/retail_ai/llm/gemini_client.py:16-17 | a system message anywhere joins the system block and adds no conversation line |
| Gemini.ConvoMessageAppended | src/retail_ai/llm/gemini_client.py:18-21 | any other message adds its line after the earlier ones and nothing to the system block |
| Gemini.NoSystemBlock | src/retail_ai/llm/gemini_client.py:22-25 | without system messages the prompt is only the stripped conversation |
| Gemini.SystemBlockFirst | src/retail_ai/llm/gemini_client.py:23-24 | with system messages the prompt opens with their stripped block and a blank line |
| Gemini.OneExchange | src/retail_ai/llm/gemini_client.py:10-26 | a question and a reply flatten to `User: q\nAssistant: a` |
| Graph.CheckedSql | retail_assistant/graph.py:88-90 | a checked statement is the compiled plan and passes the gate; a failure comes from compiling or from the gate |
| Graph.CheckSql | retail_assistant/graph.py:88-90 | reading the columns, building and gating produce exactly the checked statement |
| Graph.Store.Query | retail_assistant/graph.py:91 | the stand-in database logs the statement it runs and answers with its table |
| Graph.ValidatedPlanReachesGate | retail_assistant/graph.py:73-90 | after the validator node, building fails only on `sort`, and the gate refuses only for a banned word |
| Graph.AssistantState.ValidatorNode | retail_assistant/graph.py:71-79 | the plan is replaced by its normalised, valid form and the warnings are appended after the existing ones; on an exception the warnings are unchanged and the plan keeps the updates `validate_plan` made before raising |
| Graph.AssistantState.Keep | retail_assistant/graph.py:75-77 | stores the plan and extends, never replaces, the warnings |
| Graph.AssistantState.ExtractorNode | retail_assistant/graph.py:82-95 | raises before building without a connection; otherwise runs exactly the checked statement, nothing on failure, and keeps every statement ever run one the gate passed |
| Graph.AssistantState.Run | retail_assistant/graph.py:91-93 | the statement reaches the connection's log and the state keeps it and the result |
| Graph.ChatState.Validator | src/retail_ai/graphs/chat_graph.py:72-77 | as the assistant's validator node: the normalised plan and the appended warnings, or on an exception the unchanged warnings and the plan as `validate_plan` left it |
| Graph.ChatState.Keep | src/retail_ai/graphs/chat_graph.py:75-76 | stores the plan and extends, never replaces, the warnings |
| Graph.ChatState.Extractor | src/retail_ai/graphs/chat_graph.py:79-89 | raises "duckdb_service missing in state" before building without a service; otherwise only a gated statement is queried |
| Graph.ChatState.Run | src/retail_ai/graphs/chat_graph.py:86-88 | the statement reaches the service's log and the state keeps it and the result |

## Left out

- Floating-point numbers are not in the `Value` space. `_sql_literal` of a float and its `str()` text are not modelled.
- Python's `bool` is an `int` subtype. The model prints `True`/`False` and reads `int(True)` as 1, but `isinstance(True, int)` is otherwise not distinguished.
- `lower`, `upper`, `strip` whitespace and `int()` digits are modelled for ASCII text and Python's whitespace set. Unicode case mapping and non-ASCII digits are left out.
- `json.loads` inside `extract_json` is the parameter `loads` of `Utils.ExtractJson`. JSON decoding is not modelled.
- The regular expression engine is not modelled. `Utils.JsonSpan` states its match directly: first `{` to last `}`.
- DuckDB is replaced by `Graph.Store`, a stand-in that logs statements and answers with a fixed table. `duckdb_service.py` and `make_duckdb_conn` are not part of this model. The fixed KPI, trend and top-N statements of the summary graph are not part of this model either.
- The model transport of `GeminiChat` (API keys, `generate_content`) and the planner and narrator nodes are not modelled. Only `_flatten` is.
- pandas: a table is its column labels and rows of values. A dtype is opaque text, and `get_schema_metadata` takes it as given.
- `df_to_markdown` is not modelled.
- `retail_assistant/sql_builder.py` and `src/retail_ai/utils/validators.py` are not part of this model. They are taken to hold the same code as `src/retail_ai/data_engine/sql_builder.py` and `retail_assistant/validators.py`.
- `validate_plan` mutates the caller's dict in place. The model works on values and hands back the dict as the updates leave it, also when it raises (the graph nodes store it in the state). Aliasing between `plan` and the `time` dict, or between the plan and other holders of it, is not captured.
- Non-text `notes` raise `AttributeError`, as the code does. The model does not treat `notes` as an optional string.
- Gemini.Message: a `content` key present with the value `None` is read as the empty string, like a missing key. Python would print `None` for it, or fail in `join` for a system message.
- Graph.AssistantState.ValidatorNode and Graph.ChatState.Validator: a `warnings` key present with the value `None` is treated like a missing one. Python's `extend` would fail on it.
- SqlBuilder.SqlLiteral: Python's repr also escapes non-printable characters above U+007F (as `\x..`, `\u..` or `\U..`). The model's repr passes every character from U+0080 up through unchanged. Escapes below U+0080 are modelled.
- Utils.SampleIsHead covers `max_rows >= 0` only. Negative values are modelled by `Utils.Head` but have no lemma.
- Utils.SummarizeDf requires a well-shaped table, with one value per column in every row, as every pandas frame has.
