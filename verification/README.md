# Verification of the B2B SQL data agent

This project models the part of the agent that decides what may reach the database, and
proves what those decisions mean. It is written for Dafny 4.11; `dafny verify dfyconfig.toml`
checks all of it. Every lemma switches automatic induction off, so each proof shows its own
recursion.

## What is modelled

- **The SQL guardrail** (`app/services/sql_guardrail.py`). `Text`, `CommaSplit` and `Guardrail`
  model the recogniser: words and gaps, the keyword searches, the comma splitter, the normaliser
  and the rules. `Validation` is the code as it runs, loop by loop, proved to decide as
  `Guardrail.Decision`.
- **The statements it reads.** `SqlAst` is an unbounded fragment of SELECT statements (any number
  of joins, any ON, WHERE and HAVING trees, items, aggregates, group and order keys) with its
  printer. `Printed`, `Sections`, `Scanning`, `Vocabulary`, `Tables`, `Clauses`, `Extraction`,
  `ListClauses` and `Decoding` work out what each scan finds in printed text. `Acceptance` puts
  them together: a printed statement is accepted if and only if it is in the approved family.
  `Spacing` shows that the verdict does not depend on what white space is made of.
- **What the statements mean.** `Sql` is a relational evaluator with three-valued logic over any
  database and any server (collation, conversions and row order are arbitrary). `Business` states
  the report the agent promises. `Joining`, `ProductGroups`, `Meaning`, `Sorting`, `Preservation`,
  `Guarantee` and `Delivery` prove that accepted statements return that report, and exactly when
  they do not.
- **The MCP client manager** (`ClientManager`): unboundedly many tasks, one lock, a double-checked
  one-way latch, as a step machine that refines a sequential lock-then-check manager. The class
  `Session` is the method as written, each of its runs a run of that machine.
- **Schema inspection** (`StableGrouping`, `SchemaInspection`, `CatalogIndex`): the folding loops,
  the index read back from them, and the start-up check.
- **The rest of a question's way** (`Plan`, `SqlGenerator`, `QuestionFlow`, `Pipeline`, `Executor`,
  `EndToEnd`): plan validation, taking SQL out of a reply, many interleaved questions on one
  manager, the executor's own check and its bounded fetch, and the theorem that joins the layers.

## What the proofs found

- The guardrail removes all white space before it compares a join condition, although its own
  description promises an exact match. When one table alias is the word NOT followed by the other
  alias (`NOTpi` and `pi`), the condition `NOT pi.ProductID = pi.ProductID` reads like the approved
  equality and passes; the statement then returns nothing. `Guarantee.GluedPasses` gives the
  statement, `Guarantee.AliasesExactly` shows that exactly such alias pairs are affected, and
  `Guarantee.FaithfulExactly` says the same statement by statement.
- A table without the `Production.` qualifier passes too and is then looked up in the connection's
  default schema. `Delivery.UnqualifiedPasses` gives such a statement under every alias pair.
  `Guarantee.FaithfulExactly` shows that a statement that runs answers the business question on
  every database if and only if both tables are qualified and no alias has swallowed a NOT.
- The guardrail reads the column name of the first ORDER BY key but not its table, and of the later
  keys only the words. Under every pair of aliases it passes orders that a server refuses on every
  database (`Delivery.OrderRefused`): `pi.ProductID`, which is no group key; `pi.Quantity` after
  `p.ProductID`; `SUM(p.Name)` and `p.Name - p.Name`, which compute with text; the position `9` and
  the constant `1 + 1`; `p.ProductID` a second time, also as position `1`. `Sorting.KeysMean` says
  which keys are accepted, under Transact-SQL's rules as `Sql.Sound` states them: the four outputs,
  by name or position and none twice, and whatever is computed once per group from group columns,
  numbers and aggregates with operands of the right kinds. `Preservation.FirstKeySound` says it for
  a first key with a qualifier: that must be Product's alias.
- Together, under the same rules: an accepted statement runs and returns the business report and
  nothing else, on every database whose two tables have no further columns named by approved words,
  if and only if both tables are qualified, the join condition is a bare equality and the sort keys
  are of that kind (`Delivery.DeliversExactly`). All three can be read off the statement. The rules
  of the server that `Sql.Sound` leaves out are listed under "Left out".

## Model

| member | source | states |
|---|---|---|
| CommaSplit.SplitTopLevelCommas | app/services/sql_guardrail.py:169-187 | the scan with its depth and current item returns the stripped top-level pieces, for any text |
| CommaSplit.SplitSpells | app/services/sql_guardrail.py:169-187 | before stripping, the pieces joined with commas spell the text again, from any depth |
| CommaSplit.SplitRoundTrip | app/services/sql_guardrail.py:169-187 | splitting the join of trimmed, balanced items without top-level commas returns exactly those items |
| Text.LexSpells | app/services/sql_guardrail.py:103-129 | splitting a text into words, gaps and symbols loses nothing and leaves nothing to merge |
| Text.LexUnlex | app/services/sql_guardrail.py:103-129 | a fully split token sequence is recovered from its text |
| Text.NormalizeUnlex | app/services/sql_guardrail.py:161-166 | normalising a text is normalising its tokens one by one |
| Decoding.ColumnDecodes | app/services/sql_guardrail.py:317-325 | text `a.b` decodes to the qualified column and nothing else, among all expressions |
| Decoding.SumDecodes | app/services/sql_guardrail.py:393-423 | the text of the approved sum decodes to SUM of that column and nothing else |
| Decoding.JoinDecodes | app/services/sql_guardrail.py:318-330 | a condition tree normalises to the approved equality if and only if it is that equality or a NOT absorbed by an alias |
| Decoding.HavingDecodes | app/services/sql_guardrail.py:374-386 | a condition tree normalises to the approved HAVING if and only if it compares that sum with that column |
| Vocabulary.PlainStatement | app/services/sql_guardrail.py:205-239 | of the character rules a printed statement can break only the one on stars |
| Vocabulary.StatementVocabulary | app/services/sql_guardrail.py:237-295 | rules 7 and 11 hold if and only if every name of the statement is approved and nothing is multiplied |
| Tables.StatementReads | app/services/sql_guardrail.py:245-281 | the two scans find exactly the statement's table references, and uses of AS that are item aliases or lie inside references |
| Tables.ForeignSchema | app/services/sql_guardrail.py:106-110 | a table under any other schema name is refused |
| Clauses.SelectRule | app/services/sql_guardrail.py:217-235 | rules 4 to 6 hold if and only if TOP is between 1 and 100 |
| Clauses.OrderExists | app/services/sql_guardrail.py:297-299 | ORDER BY is found if and only if there are order keys |
| Clauses.FirstKeyRule | app/services/sql_guardrail.py:300-301 | the first-key pattern matches if and only if the first key is a ProductID column, ascending, wherever GROUP BY stands |
| Extraction.JoinRule | app/services/sql_guardrail.py:314-330 | the ON check passes if and only if there is no WHERE and the condition is the ProductID equality or the absorbed NOT |
| Extraction.HavingRule | app/services/sql_guardrail.py:370-386 | the HAVING check passes if and only if the condition is the approved comparison |
| ListClauses.ListSplit | app/services/sql_guardrail.py:169-187 | the comma splitter takes a printed list apart into the printed pieces |
| ListClauses.QualifiedDecodes | app/services/sql_guardrail.py:127-129 | normalised text reads as alias.column exactly when it was printed from a qualified column |
| ListClauses.GroupRule | app/services/sql_guardrail.py:332-368 | the GROUP BY check passes if and only if the keys are the three approved columns in some order |
| ListClauses.ItemParsed | app/services/sql_guardrail.py:126-126 | a printed item is parsed back into its expression and alias |
| ListClauses.ItemsRule | app/services/sql_guardrail.py:388-427 | the SELECT-list check passes if and only if the items are the four outputs bound to their expressions, in some order |
| Acceptance.TablesRule | app/services/sql_guardrail.py:241-265 | the table rules hold if and only if Product and ProductInventory are each referenced once under different aliases |
| Acceptance.OutputsRule | app/services/sql_guardrail.py:267-281 | rule 10 holds if and only if every item alias has one of the four names in the exact spelling |
| Acceptance.ExactAcceptance | app/services/sql_guardrail.py:190-429 | a printed statement is accepted, unchanged, if and only if it is in the approved family; any other is rejected |
| Validation.CollectTables | app/services/sql_guardrail.py:241-265 | the alias dictionary is filled if and only if rules 8 and 9 hold, and then binds each alias to its table |
| Validation.CollectOutputs | app/services/sql_guardrail.py:271-281 | the loop passes if and only if rule 10 holds, and collects exactly the outputs used |
| Validation.CheckIdentifiers | app/services/sql_guardrail.py:283-295 | the loop passes if and only if every identifier is allowed |
| Validation.CheckGroupKeys | app/services/sql_guardrail.py:343-368 | the loop with its seen set passes if and only if the keys are approved; the closing check for missing keys never fires |
| Validation.CheckSelectItems | app/services/sql_guardrail.py:388-427 | the loop with its seen set passes if and only if the items are approved; the closing check for missing outputs never fires |
| Validation.CheckScope | app/services/sql_guardrail.py:241-427 | the checks in sequence decide as the rules say |
| Validation.Validate | app/services/sql_guardrail.py:190-429 | for every string the run returns the cleaned text or rejects, exactly as `Guardrail.Decision` |
| Spacing.SplitAlike | app/services/sql_guardrail.py:169-187 | splitting a list is blind to what its gaps are made of |
| Spacing.CleanedTokens | app/services/sql_guardrail.py:199-206 | stripping a text and its last semicolon is doing so to its tokens |
| Spacing.SpacingKeepsVerdict | app/services/sql_guardrail.py:199-429 | for any two texts that differ in white space only, inside or at the ends, the verdict is the same and what is sent on differs in white space only |
| Guarantee.AnyLayout | app/services/sql_guardrail.py:190-429 | whatever its gaps are made of, with white space around it and with or without a semicolon, a statement is accepted if and only if it is in the family |
| Business.ReportMeans | app/services/metadata_service.py:57-105 | the report lists exactly the products with stock rows whose summed stock is below the safety level, each once, ascending |
| Business.ReportPermuted | app/services/metadata_service.py:57-105 | the report depends only on the multisets of rows |
| Joining.AnyJoinCarries | app/services/sql_guardrail.py:106-110 | INNER, bare and LEFT joins from either table carry, per product, exactly that product's stock |
| ProductGroups.GroupsAreClasses | app/services/sql_guardrail.py:332-368 | grouping by keys that tell rows apart by ProductID gives one group per ProductID, none split, none doubled |
| ProductGroups.ShortKept | app/services/sql_guardrail.py:370-386 | the approved HAVING keeps exactly the groups of the short products, and never a null-extended group |
| Meaning.OrderedById | app/services/sql_guardrail.py:297-301 | the orders that ORDER BY allows are exactly those by ascending ProductID, whatever keys follow |
| Meaning.EitherAlias | app/services/sql_guardrail.py:112-116 | in the groups kept, ProductID reads the same through either table |
| Meaning.ArrangedReport | app/services/metadata_service.py:57-105 | every allowed arrangement of the kept groups spells the report |
| Sorting.KeysMean | app/services/sql_guardrail.py:297-301 | the server accepts an approved statement's sort keys if and only if each is an output, by name or position, or computed per group from group columns, numbers and aggregates of the right kinds, and no output is sorted by twice |
| Sorting.RequiredKeys | app/services/sql_guardrail.py:283-301 | where the tables have no further column that an approved word names, the keys and the aliases alone decide that |
| Preservation.FirstKeySound | app/services/sql_guardrail.py:112-116 | a first key with a qualifier is accepted by the server if and only if that is Product's alias |
| Preservation.SoundMeans | app/services/sql_guardrail.py:190-429 | the server accepts an approved statement if and only if its ON names its tables and its sort keys are of that kind |
| Preservation.FamilyMeaning | app/services/sql_guardrail.py:190-429 | for every database and server, what an approved statement returns: the report on the tables it reads, or nothing when an alias has swallowed a NOT |
| Guarantee.MeaningPreserved | app/services/sql_guardrail.py:190-429 | every result of an accepted statement is the first TOP lines of the business report, and there is one whenever its sort keys sort, for aliases apart and tables in Production; where the tables have no further column that an approved word names, the statement alone decides that |
| Guarantee.FaithfulExactly | app/services/sql_guardrail.py:318-330 | an accepted statement that runs answers the business question on every database if and only if both tables are qualified and no alias has swallowed a NOT |
| Guarantee.GluedPasses | app/services/sql_guardrail.py:161-166 | for every alias pair of the failing kind, a statement the guardrail passes and that misses the report |
| Guarantee.AliasesExactly | app/services/sql_guardrail.py:318-330 | all qualified accepted statements under an alias pair are faithful if and only if neither alias is the other with NOT in front |
| Delivery.OrderPasses | app/services/sql_guardrail.py:297-301 | under every alias pair any sort keys of approved words after an ascending ProductID pass, and the server takes exactly those that sort |
| Delivery.OrderRefused | app/services/sql_guardrail.py:112-116 | under every alias pair eight orders pass the guardrail and are refused on every database: by columns that are no group keys, by sums and differences of text, by a position out of range, by a constant, and by a column twice |
| Delivery.UnqualifiedPasses | app/services/sql_guardrail.py:106-110 | under every alias pair a statement with Product unqualified passes the guardrail and misses the report |
| Delivery.DeliversExactly | app/services/sql_guardrail.py:190-429 | an accepted statement runs and answers the business question, and only that, on every ordinary database if and only if its tables are qualified, its ON is the bare equality and its keys sort |
| Guarantee.JoinKindIrrelevant | app/services/sql_guardrail.py:69-74 | changing the join kind of an approved statement changes no result |
| Guarantee.JoinSideIrrelevant | app/services/sql_guardrail.py:314-330 | exchanging the two tables of an approved statement changes no result |
| Guarantee.LaterKeysIrrelevant | app/services/sql_guardrail.py:297-301 | the ORDER BY keys after the first change no result, as long as all keys sort |
| Guarantee.RowOrderIrrelevant | app/services/sql_guardrail.py:229-235 | results depend only on the multisets of table rows, also under TOP |
| Executor.ValidateSql | mcp_server/readonly_query_executor.py:47-66 | for every string the run accepts and cleans exactly as `Executor.Checked` |
| Executor.Backend.Execute | mcp_server/readonly_query_executor.py:82-119 | the outcome of a request, also when no connection is had or something fails before or after the statement is sent; every connection opened is closed, and only the checked statement is sent |
| Executor.LongestPrefix | mcp_server/readonly_query_executor.py:99-117 | the rows are the longest prefix within the limit; truncated exactly when rows were dropped |
| Executor.LayersAgree | mcp_server/readonly_query_executor.py:14-66 | what the guardrail passes it passes again unchanged, and the executor runs it unchanged |
| ClientManager.MutualExclusion | app/mcp/client_manager.py:137-145 | in every run at most one session call is in flight, by the lock's holder, with the latch unset |
| ClientManager.NoCallsAfterLatch | app/mcp/client_manager.py:134-158 | once set the latch stays set and no caller reaches the session, not even one already queued |
| ClientManager.FailureBound | app/mcp/client_manager.py:146-158 | in every run at most one caller ends with a timeout or a closed connection, its call is the last in the log, and the latch is set exactly from then on |
| ClientManager.CalledOnce | app/mcp/client_manager.py:137-145 | no caller reaches the session twice, and whoever is answered has reached it |
| ClientManager.RefinesSequential | app/mcp/client_manager.py:133-158 | every run's outcomes, latch and log are those of a sequential lock-then-check manager serving the callers in the order they were settled |
| ClientManager.OrderGrows | app/mcp/client_manager.py:133-158 | later steps only add to that order |
| ClientManager.RunsEnd | app/mcp/client_manager.py:133-158 | without new callers a run has no more steps than the tasks' rank allows |
| ClientManager.NeverStuck | app/mcp/client_manager.py:133-158 | while someone is not done, a step other than a cancellation is possible |
| ClientManager.EveryoneFinishes | app/mcp/client_manager.py:133-158 | from every reachable state a run leads to all callers done |
| ClientManager.Session.CallTool | app/mcp/client_manager.py:133-158 | one caller's run among any others is a run of the step machine with exactly these steps, and returns the outcome the machine gives it |
| StableGrouping.GatherKeeps | mcp_server/tools/inspect_schema.py:105-138 | grouping by key in order of first appearance keeps every row exactly as often as it came |
| StableGrouping.GatherContiguous | mcp_server/tools/inspect_schema.py:105-138 | rows that came grouped come back in the order they came |
| SchemaInspection.CollectNotes | mcp_server/tools/inspect_schema.py:97-103 | the two description dictionaries hold the last description of each table and column |
| SchemaInspection.CollectTables | mcp_server/tools/inspect_schema.py:105-138 | the table dictionary and its order list describe exactly the rows, one table per key |
| SchemaInspection.CollectKeys | mcp_server/tools/inspect_schema.py:140-142 | the primary-key dictionary holds each table's key columns in order |
| SchemaInspection.AttachKeys | mcp_server/tools/inspect_schema.py:144-146 | each table gets its own primary key, unknown tables are ignored |
| SchemaInspection.CollectSchemas | mcp_server/tools/inspect_schema.py:148-156 | the schemas, and the tables within them, come in order of first appearance |
| SchemaInspection.CollectLinks | mcp_server/tools/inspect_schema.py:158-185 | each foreign key takes its tables from its first row and its columns from all of them, in order |
| SchemaInspection.Inspect | mcp_server/tools/inspect_schema.py:97-195 | the whole fold computes what the four row sets mean |
| CatalogIndex.IndexAgrees | app/services/schema_collector.py:46-52 | a table is found if and only if some row names it, with exactly its rows in order |
| CatalogIndex.Ordinals | mcp_server/tools/inspect_schema.py:129-138 | ordinals count from 1 without gaps, and descriptions follow the column id |
| CatalogIndex.FlattenRoundTrip | mcp_server/tools/inspect_schema.py:105-156 | flattening the result gives rows back that came grouped by schema and table |
| CatalogIndex.SummaryCounts | mcp_server/tools/inspect_schema.py:187-195 | the counts are the numbers of distinct schemas and tables |
| CatalogIndex.MappingAgrees | app/services/metadata_service.py:112-158 | the start-up check passes if and only if the flat rows hold every required column and a one-row foreign key that is the required link |
| Plan.Build | app/services/context_builder.py:52-57 | the context holds each entry in the group of its kind, and an unknown kind is an error |
| Plan.CollectIds | app/services/context_builder.py:27-38 | the known ids are those of all groups |
| Plan.PlanCharacterised | app/services/plan_validator.py:33-94 | with the full registry a structurally valid plan passes if and only if its lists are permutations of the registered ids and the fixed fields are as required |
| Plan.FewSortFields | app/services/query_planner.py:122-133 | a plan that passes sorts by at most four fields |
| SqlGenerator.ExtractSql | app/services/sql_generator.py:54-63 | the run strips the reply and an enclosing fence exactly as `SqlGenerator.Extracted` |
| SqlGenerator.FenceRemoved | app/services/sql_generator.py:54-63 | for any body and language tag, the fence around the body is what is taken off |
| SqlGenerator.BareReply | app/services/sql_generator.py:54-63 | a reply without a fence is only stripped |
| Pipeline.HandleQuestion | app/services/agent_service.py:146-253 | one question's early returns: one to three model calls, at most one statement sent and only a validated one, none for rejected, clarification and provider-down outcomes |
| Pipeline.OnlyValidatedSql | app/services/agent_service.py:213-239 | in every interleaving each session call carries the statement validated for its question, and no question is called for twice |
| Pipeline.CompletedValidated | app/services/agent_service.py:213-253 | in every interleaving, over any MCP server, a completed question made its own session call with a statement validated for it, and shows what the server answers to that statement |
| QuestionFlow.OneOutcome | app/services/agent_service.py:123-143 | once a question has its outcome nothing changes it |
| QuestionFlow.ThreeModelCalls | app/services/agent_service.py:157-220 | in every interleaving a question makes at most three model calls |
| QuestionFlow.CallsJudged | app/services/agent_service.py:222-239 | every session call belongs to a question whose SQL was judged fit, and only one call does |
| QuestionFlow.NoCallMade | app/services/agent_service.py:157-229 | rejected, clarification and provider-down outcomes made no session call |
| QuestionFlow.CompletedCalled | app/services/agent_service.py:231-253 | a completed question was answered through its own session call |
| QuestionFlow.QuestionsEnd | app/services/agent_service.py:123-253 | without new questions every run is bounded, whatever is answered, raised or cancelled, while waiting on the model as well as on the manager |
| QuestionFlow.NeverStuck | app/services/agent_service.py:123-253 | while a question is open something other than a new question or a cancellation can happen |
| QuestionFlow.EveryQuestionFinishes | app/services/agent_service.py:123-253 | from every state the system reaches a run gives every question its outcome |
| QuestionFlow.NothingCompletesAfterLatch | app/mcp/client_manager.py:133-158 | a question that reaches the MCP step after the latch was set never completes |
| EndToEnd.NeverTruncated | app/services/agent_service.py:27-28 | with the agent's limit of 100 the executor hands over every row of an accepted statement, however it is laid out |
| EndToEnd.ReportDelivered | app/services/agent_service.py:231-253 | what is delivered for an accepted statement, however it is laid out, is the first TOP lines of the business report, uncut |
| EndToEnd.QuestionAnswered | app/services/agent_service.py:213-253 | however many questions run together on an MCP server over the database, a completed question whose reply held a statement, in any layout, shows that statement's business report |

## Left out

- Rejection and error messages: only the verdict or the reason code is modelled.
- Text is ASCII: Unicode letters, digits, white space and case folding are not modelled.
- Text outside the printed fragment: comma-separated FROM items, brackets over several tokens,
  subqueries, IS NULL, IN, BETWEEN and LIKE. `Guardrail.Decision`, `Validation.Validate`,
  `Spacing.SpacingKeepsVerdict` and `Executor.LayersAgree` speak about all texts; the acceptance
  and meaning theorems speak about printed statements, in any layout of their gaps.
- Names in the fragment are identifiers outside the guardrail's keyword lists, so bracketed
  keywords used as names are not covered.
- Whether TOP equals the plan's limit: the code leaves matching plan and SQL to a later feature.
- Validation.Validate: a TOP of more than 4300 digits makes the source's `int(...)` raise, which the
  pipeline reports as an internal error; the model calls it a rejection.
- Integer widths: sums and arithmetic do not overflow.
- Server rules that `Sql.Sound` does not state: reserved words beyond the guardrail's lists (an
  alias `user` without brackets), the length of identifiers and the size of numbers, a computed sort
  key repeated word for word, types that cannot be compared. Text and numbers are never mixed: a
  server that converts text to numbers as it runs would accept `p.Name + 1` until it meets a name
  that is no number.
- Guarantee.AnyLayout: gaps are varied, not added or dropped: texts that leave out a printed gap
  (`TOP(10)`, `a,b`, `x=y`) or the parentheses of TOP are not covered by acceptance and meaning.
- EndToEnd.QuestionAnswered: `Serves` takes the MCP server to answer with what the executor fetches,
  unchanged; the transport between them is not part of this model.
- ClientManager.Session.CallTool: the caller is not itself cancelled in this method; the step machine
  covers cancellation.
- Guarantee.FaithfulExactly: `Runs` asks that the sort keys resolve on the required columns, so that
  the statement is accepted by the server on the sample that shows the failure.
- The data type text of a column is taken as given; `_format_data_type` is not modelled.
- `retrieve` and the intent contract are gates with arbitrary answers; prompts, the LLM client,
  HTTP routing, settings, lifespan and process start-up are not part of this model.
- `_parse_result` and the text of tool errors: the pipeline takes an arbitrary answer on whether a
  result honours its contract.
- Value serialisation in the executor, execution time, and the admin database.
- ClientManager.EveryoneFinishes: the end of a call in flight is a step of the environment; without
  it (a call that never returns within its timeout) nothing is claimed.
- The lock of the manager serves waiters in any order, which includes the order asyncio uses.
