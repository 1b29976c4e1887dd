# Scopey MCP server: a Dafny model of its core

Scopey is a Model Context Protocol server. It offers a fixed list of tools
through the protocol's `tools/list` and `tools/call` requests. This project
models the parts of it that are sequential logic, and proves properties of
that model:

- **Registry and dispatcher** (`Registry`, `Outcomes`). The five provider
  groups are concatenated into one registry. The listing is that registry
  without its handlers. A call is a first-match lookup by name, one awaited
  handler call, and a uniform text envelope. A handler is an opaque function
  from the raw `arguments` to an outcome: a returned value, a thrown `Error`
  with its message, or some other thrown value.
- **Argument schemas** (`Schemas`). The five zod object schemas are
  acceptance predicates over a JSON value (`Json`). Each one is proved equal
  to a hand-written shape: required and optional fields, types, inclusive
  bounds, strict positivity and enumerations.
- **Supabase tools** (`Supabase`, `SearchParams`). The query builder is the
  list of calls made on it (a plan). `supabase_execute_query` parses
  `table?k=op.v&order=c.d&limit=n&offset=m` into a plan. This uses the
  form-urlencoded splitting of section 5.1 of the WHATWG URL Standard, the
  operator pattern, the order split and the `parseInt` range. For
  `supabase_read_table`, methods with `forEach` loops build the plan from
  structured arguments. The result projections, the environment check of the
  client factory and the error prefixes are modelled as well.
- **Scaffolding tools** (`Scaffolding`):
  - the `create-next-app`, `create vite` and `npm install` argument vectors,
    with all their defaults;
  - the config files each tool writes, written by a loop that stops at the
    first rejected write;
  - each handler's order of effects and its failure paths.
- **Document generators**:
  - the PRD template and its markdown-to-JSON section conversion
    (`Generator`);
  - the cursor-rules template, with its framework block replacing the first
    marker and its pattern block appended (`CursorRules`);
  - the context document: the tech list, the keyword slots and the API
    reference (`ContextDoc`).
- **Shared text functions** (`Text`). The JavaScript string operations the
  tools rely on, each stated by its contract: `split`, `join`, `trim`,
  `indexOf`, `includes`, first-occurrence `replace` with its `$` patterns,
  whitespace-run replacement, ASCII case mapping, decimal rendering and
  `parseInt`.

Effects enter as parameters:

- the database is a function from a plan to a response;
- the scaffolding host is a record of functions: `path.join`,
  `fs.pathExists`, `execa`, `fs.writeFile` and `fs.readJson`;
- `JSON.stringify(value, null, indent)` is a function parameter
  (`Json.Stringify`);
- the two Supabase environment variables are an input record.

The models keep the source's own form. The `read_table` and `execute_query`
plan building, the scaffolding write loop, the PRD `forEach` conversion and
the reassignments of `rulesContent` are methods. Each is proved equal to a
specification function, and the properties are proved about that function.
Everything else is functions and lemmas.

Three behaviours of the code are easy to miss:

- `create-next-app` does not always get nine arguments. `filter(Boolean)`
  also drops an empty `projectName`, so the vector has eight items then
  (`Scaffolding.NextArgvExact`).
- `supabase_read_table` expands any truthy `filter`, as its `if (filter)`
  says. A string `filter` is expanded character by character, and a number
  or `true` adds no filter.
- A `read_table` filter value that is an object or an array has its keys
  called as builder methods. An array's keys are its indices, which are no
  method names, so a non-empty array value, like a misspelt operator, makes
  the call fail with the prefixed `query[operator] is not a function`
  (`Supabase.ArrayValue`, `Supabase.ReadTableSucceedIff`).

## Model

| member | source | states |
|---|---|---|
| Registry.AllTools | src/index.ts:29-35 | the registry is the linear, supabase, vercel, scaffolding and generator groups in that order; each group sits at its own slice, unchanged |
| Registry.ListTools | src/index.ts:38-46 | the listing has one entry per tool, in registry order; entry i has tool i's name, description and input schema, and no handler |
| Registry.FindTool | src/index.ts:51 | the lookup gives the index of the first tool with the name; it gives none exactly when no tool has the name |
| Registry.Envelope | src/index.ts:56-77 | every envelope has exactly one item, of type `text`; on success it holds the value printed with indent 2 and has no `isError`; on failure it holds `{ error }` printed with indent 2 and has `isError = true` |
| Registry.CallTool | src/index.ts:48-78 | an unknown name raises `Tool "<name>" not found` and calls no handler; otherwise the first tool of the name is called once, with the request's arguments unchanged, and its outcome is wrapped in the envelope |
| Registry.ListedIffCallable | src/index.ts:38-54 | a name is listed exactly when a call can resolve it, and no earlier listed entry has that name |
| Registry.LaterDuplicateShadowed | src/index.ts:51 | duplicate names are not rejected: replacing a later tool of the same name changes no reply |
| Registry.UniqueNamesResolve | src/index.ts:51 | without duplicate names, a call resolves to index k exactly when tool k has the name |
| Registry.EnvelopeRecoverable | src/index.ts:58-76 | a parser that inverts the printer reads back either the handler's value or the error payload from the one item, and `isError` says which |
| Outcomes.NullRead | src/tools/scaffolding.ts:375 | reading a property of `null` throws a `TypeError` whose message starts `Cannot read properties of null` |
| Outcomes.Rethrow | src/tools/supabase.ts:100-102 | the rethrown error is an `Error` whose message is the tool's prefix, `: `, and then the original message, or `Unknown error` for a thrown non-`Error` |
| Outcomes.Guarded | src/tools/scaffolding.ts:161-163 | a returned value passes through the catch block unchanged; a throw becomes the prefixed rethrow |
| Schemas.LinearTicketAccepts | src/utils/types.ts:14-21 | the schema accepts exactly the objects with a string `title` whose optional fields, when present, have their declared types, with `labels` a list of strings and `0 <= priority <= 4` |
| Schemas.PriorityBounds | src/utils/types.ts:18 | both priority bounds are inclusive: a ticket with a priority is accepted exactly when 0 <= p <= 4 |
| Schemas.SupabaseQueryAccepts | src/utils/types.ts:23-28 | accepted exactly when `tableName` is a string, `query` an optional string, `limit` an optional number > 0 and `offset` an optional number >= 0 |
| Schemas.SupabasePaging | src/utils/types.ts:26-27 | a `limit` is accepted exactly when it is strictly positive, an `offset` exactly when it is at least zero |
| Schemas.VercelProjectAccepts | src/utils/types.ts:30-34 | accepted exactly when every field is optional, with string ids and a positive `limit` |
| Schemas.VercelOptional | src/utils/types.ts:30-34 | the empty object is accepted, and a lone `limit` exactly when it is > 0 |
| Schemas.ScaffoldingAccepts | src/utils/types.ts:36-42 | accepted exactly when `projectName` is a string, `projectType` is `nextjs` or `vite`, and the optional fields have their types |
| Schemas.ProjectTypeEnum | src/utils/types.ts:38 | a project type is accepted exactly when it is one of the two enumerated strings |
| Schemas.GeneratorAccepts | src/utils/types.ts:44-49 | accepted exactly when `type` is `prd` or `cursor-rules`, `context` and `prompt` are strings and `format` is an optional string |
| Schemas.ExtraFieldAllowed | src/utils/types.ts:14-49 | an object schema never rejects a key it does not declare |
| SearchParams.PlusToSpace | src/tools/supabase.ts:126 | decoding keeps the length, leaves no `+` and changes nothing in text without `+` |
| SearchParams.GetParam | src/tools/supabase.ts:132 | `params.get` gives null exactly when no pair has the name, and otherwise the value of the first pair with it |
| SearchParams.ParseSerialize | src/tools/supabase.ts:126 | parsing the `name=value&...` text of plain pairs gives those pairs back, in order, with or without a leading `?` |
| SearchParams.ParsePairAt | src/tools/supabase.ts:126 | a piece is split at its first `=`, and both sides are decoded |
| SearchParams.EmptyPiecesSkipped | src/tools/supabase.ts:126 | an empty piece between two `&` gives no pair |
| Supabase.TableAndQueryString | src/tools/supabase.ts:124-125 | the table name is the text before the first `?`; the parameters are everything after it, later `?` characters kept; a query without `?` is all table |
| Supabase.MatchOperator | src/tools/supabase.ts:143 | the pattern matches exactly when the value starts with one of the ten operators and a dot, and the match gives that operator |
| Supabase.MatchOperatorUnique | src/tools/supabase.ts:143 | whichever operator the value starts with, followed by a dot, is the one captured |
| Supabase.ToLineEnd | src/tools/supabase.ts:143 | `(.*)` captures the longest prefix without a line terminator |
| Supabase.FilterOfOperator | src/tools/supabase.ts:143-146 | `key=op.rest` filters with `op` on `key` and `rest` |
| Supabase.FilterOfNoDot | src/tools/supabase.ts:147-148 | a value without a dot is an `eq` filter on the whole value |
| Supabase.FilterOpsOne | src/tools/supabase.ts:140-151 | a reserved name (`select`, `order`, `limit`, `offset`) gives no filter; any other pair gives exactly one |
| Supabase.FilterOpsAppend | src/tools/supabase.ts:140 | the filters follow the parameters in order, pair by pair |
| Supabase.FilterOpsEach | src/tools/supabase.ts:140-151 | without reserved names there is one filter per parameter, and filter i comes from parameter i |
| Supabase.OrderDirection | src/tools/supabase.ts:154-158 | `order=c` and `order=c.d` order on `c`, ascending unless `d` is exactly `desc` |
| Supabase.RangePresence | src/tools/supabase.ts:161-167 | there is at most one range, and there is one exactly when `limit` or `offset` is non-empty |
| Supabase.DefaultsParse | src/tools/supabase.ts:164-165 | the literal fallbacks `'0'` and `'100'` parse as 0 and 100 |
| Supabase.RangeBounds | src/tools/supabase.ts:163-166 | with numeric `limit` and `offset` the range runs from offset to offset + limit - 1 |
| Supabase.RangeNaN | src/tools/supabase.ts:164-166 | an unparsable `offset` makes both ends `NaN`; an unparsable `limit` makes the end `NaN` |
| Supabase.RangeDigits | src/tools/supabase.ts:161-166 | decimal `limit=n` and `offset=m` give the range m to m + n - 1 |
| Supabase.ExecuteQueryOf | src/tools/supabase.ts:124-167 | a query made from a table name and plain pairs reads back as that table and those pairs, and its plan is the plan of those parts |
| Supabase.BuildExecuteQuery | src/tools/supabase.ts:124-167 | the handler's step-by-step builder calls equal the specified plan: from, select, filters, order, range |
| Supabase.BuildPlan | src/tools/supabase.ts:128-167 | the `forEach` over the parameters appends exactly the specified filters, then the order and the range |
| Supabase.OperatorOpsEach | src/tools/supabase.ts:70-72 | an operator object gives one filter per entry, in entry order, each on the column with the entry's key as operator, exactly when every key is a builder method; otherwise the expansion throws the `query[operator] is not a function` `TypeError` |
| Supabase.FilterEntry | src/tools/supabase.ts:67-76 | an object or array value calls each of its keys as a method on the column, one filter per entry when all are builder methods, and throws the `TypeError` when one is not; any other value gives one `eq` filter |
| Supabase.ArrayValue | src/tools/supabase.ts:69-72 | an array value's keys are its indices, so a non-empty array always throws the `TypeError` and an empty one adds no filter |
| Supabase.MisspeltOperator | src/tools/supabase.ts:71 | an operator name that is no builder method, such as `greater`, throws the `TypeError` |
| Supabase.FilterPlanCallable | src/tools/supabase.ts:67-77 | the filters are built exactly when every entry's calls exist; the only error on the way is the `TypeError` |
| Supabase.ExpandFirstThrow | src/tools/supabase.ts:67-77 | a `forEach` run succeeds exactly when every entry's step does; otherwise its error is that of the first entry that throws |
| Supabase.FilterPlanAppend | src/tools/supabase.ts:67 | the entries of `filter` are expanded one after another; a throw in the earlier entries leaves the later ones unvisited |
| Supabase.BuildReadTable | src/tools/supabase.ts:59-86 | the handler's builder calls equal the specified `read_table` plan, or stop with its `TypeError` |
| Supabase.AddFilters | src/tools/supabase.ts:66-78 | the `if (filter)` block appends exactly the filters of a truthy `filter`, and nothing otherwise |
| Supabase.AddEntries | src/tools/supabase.ts:67-77 | the outer `forEach` appends each entry's filters in entry order, and the first entry that throws ends it with that error |
| Supabase.AddEntryFilters | src/tools/supabase.ts:68-76 | the body for one entry appends exactly that entry's filters; the inner loop visits its operators in order and throws at the first that is no builder method |
| Supabase.ReadTablePlanShape | src/tools/supabase.ts:59-86 | the plan is built exactly when the filter expansion succeeds, and fails only with the `TypeError`; a built plan starts with the table and the columns (`*` when absent or empty) and ends with a range that spans exactly `limit` rows, 100 by default, from `offset`, 0 by default |
| Supabase.ReadTableOptionalSteps | src/tools/supabase.ts:66-83 | a falsy `filter` adds no filter; there is ordering exactly when `orderBy` is non-empty, ascending by default |
| Supabase.UnconfiguredFails | src/tools/supabase.ts:5-11 | without both environment variables, every Supabase tool throws the environment message before anything else |
| Supabase.ReadTableSucceedIff | src/tools/supabase.ts:62-99 | `read_table` returns exactly when every builder call exists and the query settles without an error, and then returns the rows; a call that is no function fails with `Failed to read from Supabase: query[operator] is not a function`, whatever the database holds |
| Supabase.OperatorsAreMethods | src/tools/supabase.ts:143-146 | the ten operators `execute_query` recognises are builder methods, so its calls never throw the `TypeError` |
| Supabase.ReadTableFailurePrefixed | src/tools/supabase.ts:100-102 | every `read_table` failure after the client exists is prefixed `Failed to read from Supabase: ` |
| Supabase.ExecuteQueryFailurePrefixed | src/tools/supabase.ts:180-182 | every `execute_query` failure after the client exists is prefixed `Failed to execute Supabase query: ` |
| Supabase.ListTablesFailurePrefixed | src/tools/supabase.ts:216-218 | every `list_tables` failure after the client exists is prefixed `Failed to list Supabase tables: ` |
| Supabase.TableSchemaFailurePrefixed | src/tools/supabase.ts:261-263 | every `get_table_schema` failure after the client exists is prefixed `Failed to get table schema: ` |
| Supabase.ListTablesErrorFixed | src/tools/supabase.ts:203-207 | a database error while listing tables always yields the fixed permissions message, whatever the error was |
| Supabase.MapRows | src/tools/supabase.ts:211-214 | `data?.map(f) \|\| []` has one entry per row, entry i mapped from row i, and none for null data |
| Supabase.CountIsRowCount | src/tools/supabase.ts:94-99 | `count` is the number of returned rows, 0 for null data, and `totalCount` passes the response's `count` through |
| Supabase.ExecuteCountIsRowCount | src/tools/supabase.ts:175-179 | the `execute_query` count is the number of rows, 0 for null data |
| Supabase.TablesPerRow | src/tools/supabase.ts:209-215 | `tables` is a list with one entry per returned row, and none for null data |
| Supabase.ProjectRows | src/tools/supabase.ts:211-214 | projecting the rows throws exactly when a row is `null`, with the `Cannot read properties of null` error for the key read first; otherwise it maps every row |
| Supabase.ListTablesSucceedIff | src/tools/supabase.ts:203-215 | `list_tables` returns exactly when the query settles without an error and has no `null` row, and then returns the listing; a `null` row throws the prefixed `table_name` read error |
| Supabase.TableSchemaSucceedIff | src/tools/supabase.ts:249-260 | `get_table_schema` returns exactly when the query settles without an error and has no `null` row; a `null` row throws the prefixed `column_name` read error |
| Supabase.NullableIffYes | src/tools/supabase.ts:257 | a column is nullable exactly when `is_nullable` is the string `YES` |
| Scaffolding.ResolveNext | src/tools/scaffolding.ts:50-59 | every switch is on unless given as `false`; the directory is the working one and the alias `@/*` unless given |
| Scaffolding.FilterBoolean | src/tools/scaffolding.ts:85 | `filter(Boolean)` keeps only truthy items, never more than it was given |
| Scaffolding.FilterPair | src/tools/scaffolding.ts:74-83 | of `on && yes, !on && no` exactly one flag survives, the one the switch chooses |
| Scaffolding.FlagsFiltered | src/tools/scaffolding.ts:74-83 | each of the five switch pairs leaves exactly its chosen flag |
| Scaffolding.NextArgvExact | src/tools/scaffolding.ts:70-85 | the vector is `create-next-app@latest`, the name when non-empty, `--yes`, the chosen flag of each of the five switches in order, then `--import-alias=<alias>`; it has 9 items, or 8 for an empty name |
| Scaffolding.NextConfigNames | src/tools/scaffolding.ts:97-134 | the files are `.env.example` and, exactly when TypeScript is on, `tsconfig.json` |
| Scaffolding.NextPathsAlias | src/tools/scaffolding.ts:126-128 | the tsconfig paths map the alias to `./src/*` with a source directory and `././*` without |
| Scaffolding.WriteConfigs | src/tools/scaffolding.ts:137-139 | the write loop does exactly what the specified sequence of writes does |
| Scaffolding.WriteAllSucceeds | src/tools/scaffolding.ts:137-139 | without a rejection every file is written under the project path, in order |
| Scaffolding.WriteAllStops | src/tools/scaffolding.ts:137-139 | a rejected write ends the loop: the later files are not attempted, and the rejection is the failure |
| Scaffolding.ScaffoldNextjs | src/tools/scaffolding.ts:49-164 | an existing project directory fails before any command or write; otherwise `npx` runs in the directory, then the configs are written, the result is reported, and every failure is prefixed |
| Scaffolding.ViteArgv | src/tools/scaffolding.ts:204-211 | the vector has six items, with the name third and the template last |
| Scaffolding.ViteConfigNames | src/tools/scaffolding.ts:220-290 | a template with `react` gets `.env.example`, `vite.config.ts` and `.prettierrc`, plus `tsconfig.json` exactly when it has `ts`; any other template gets no file |
| Scaffolding.ScaffoldVite | src/tools/scaffolding.ts:188-309 | the same shape as Next.js, with the `react-swc-ts` default, `npm create vite@latest` and the React-only files |
| Scaffolding.NonReactWritesNothing | src/tools/scaffolding.ts:220 | a template without `react` writes no file |
| Scaffolding.InstallArgs | src/tools/scaffolding.ts:359-360 | `install`, then `--save-dev` exactly when dev, then the dependencies in order |
| Scaffolding.AddCommonDependencies | src/tools/scaffolding.ts:348-382 | a missing `package.json` fails first and runs nothing; otherwise `npm install` runs once in the project; a failed install or read-back throws its own error under the `Failed to add dependencies` prefix, a `null` read-back throws the prefixed `dependencies` read error, and any other read-back returns the success record built from it |
| Scaffolding.DependenciesSucceedIff | src/tools/scaffolding.ts:351-379 | `add_dependencies` returns exactly when `package.json` exists, the install succeeds and the read-back is a value other than `null` |
| Scaffolding.InstalledMessageCounts | src/tools/scaffolding.ts:371 | the installed message reads back as its count |
| Scaffolding.DependenciesCounted | src/tools/scaffolding.ts:371 | the message's number reads back as the number of requested dependencies |
| Generator.CutHeadings | src/tools/generator.ts:383 | `split(/^## /gm)` always gives at least one piece |
| Generator.JoinCutHeadings | src/tools/generator.ts:383 | putting `## ` back between the pieces gives the text again |
| Generator.CutHeadingFree | src/tools/generator.ts:383 | text with no line starting with `## ` is one piece |
| Generator.NonEmptyPieces | src/tools/generator.ts:383 | `filter(Boolean)` keeps no empty piece and never adds one |
| Generator.SectionOf | src/tools/generator.ts:390-393 | a section whose first line is a title converts to the title's key and the trimmed rest |
| Generator.SectionLines | src/tools/generator.ts:390 | the lines of a trimmed section are its title, then the lines of the body without trailing whitespace |
| Generator.TrimSection | src/tools/generator.ts:390-392 | trimming a section keeps its title line and drops the body's trailing whitespace |
| Generator.LabelledSection | src/tools/generator.ts:390-393 | a labelled section converts to its lowercased title and its trimmed text |
| Generator.Assign | src/tools/generator.ts:393 | assigning a present key keeps its place; a new key goes last |
| Generator.AssignGet | src/tools/generator.ts:393 | after an assignment the key reads the new value and every other key reads what it read before |
| Generator.SetProperty | src/tools/generator.ts:393 | assigning a string to `__proto__` leaves the object's own keys as they were; any other key is assigned |
| Generator.ObjectLastWins | src/tools/generator.ts:389-394 | the object holds the content of the last section with each key: a later duplicate overwrites an earlier one; `__proto__` is never an own key |
| Generator.LastWithFound | src/tools/generator.ts:389-394 | the reference finds a key exactly when some entry has it, and then the last such entry |
| Generator.ObjectDistinct | src/tools/generator.ts:389-394 | the built object never has the same key twice |
| Generator.SectionKeyPresent | src/tools/generator.ts:389-394 | every section's key other than `__proto__` is present in the object, and `__proto__` never is |
| Generator.SectionsObjectReads | src/tools/generator.ts:389-394 | the sections object has distinct keys; `__proto__` is never an own key; any other key is present exactly when some section converts to it, with the content of the last one |
| Generator.ConvertToJson | src/tools/generator.ts:383-394 | the `forEach` loop builds exactly the specified sections object |
| Generator.PrdSections | src/tools/generator.ts:4-106 | a PRD whose prompt and context have no `## ` line splits into the title block, Overview with the prompt, Context with the context, and the template's own sections, in that order |
| Generator.PrdSectionsAround | src/tools/generator.ts:4-11 | the same split for any text after the Context section |
| Generator.PrdInputSections | src/tools/generator.ts:390-393 | Overview and Context become the keys `overview` and `context`, with the trimmed prompt and context |
| Generator.CutAfterLine | src/tools/generator.ts:383 | a `## ` at the start of the input or right after a line terminator cuts the text in two: the pieces before it, then the pieces of what follows it |
| Generator.PrdJsonKeys | src/tools/generator.ts:381-394 | in the JSON form of a PRD, for every prompt and context, the keys `overview` and `context` are always present |
| Generator.PrdFormat | src/tools/generator.ts:376-407 | the result reports success and the format `json` exactly when `json` was asked for, and then its content is the sections object; otherwise it is markdown with the raw text |
| CursorRules.MarkerPlaced | src/tools/generator.ts:109-350 | with a marker-free prompt and middle text, the first marker is the template's own, right after the middle text's line |
| CursorRules.MarkerInPrompt | src/tools/generator.ts:110-111 | a prompt that holds the marker supplies the first marker, shifted by the head |
| CursorRules.FrameworkDeclares | src/tools/generator.ts:454-456 | every framework block declares `<framework>Rules` |
| CursorRules.FrameworkSubBlocks | src/tools/generator.ts:459-489 | react, nextjs and vue get their own sub-block; any other name leaves every slot empty |
| CursorRules.FrameworkPlain | src/tools/generator.ts:454-492 | a framework name with no `$$`, `$&`, `` $` `` or `$'` gives a block with none, so `replace` inserts it verbatim |
| CursorRules.FrameworkPlaced | src/tools/generator.ts:453-495 | with a marker-free prompt and middle text and a framework name with no `$` pattern, the framework block takes exactly the template marker's place and the rest is unchanged |
| CursorRules.FrameworkIntoPrompt | src/tools/generator.ts:494 | for a framework name with no `$` pattern, a prompt that holds the marker takes the block, and the template's marker stays |
| CursorRules.WithPatterns | src/tools/generator.ts:498-509 | the text changes exactly when patterns were chosen, and then only by an appended line break and block |
| CursorRules.PatternLines | src/tools/generator.ts:498-508 | the last lines hold the strict, contrast and coverage overrides, each exactly when its pattern was chosen and empty otherwise, and then an empty line |
| CursorRules.ApplyOptions | src/tools/generator.ts:450-509 | `rulesContent` after the framework step and the pattern step is the specified content |
| CursorRules.ApplyFramework | src/tools/generator.ts:453-495 | the framework step replaces the first marker exactly when `includeFramework` is truthy |
| CursorRules.ApplyPatterns | src/tools/generator.ts:498-509 | the pattern step appends exactly when there are patterns |
| CursorRules.CursorEcho | src/tools/generator.ts:511-517 | the result reports success, carries the content and names the file `.cursorrules` |
| CursorRules.CursorEchoFramework | src/tools/generator.ts:515 | the framework is echoed exactly when one was given |
| CursorRules.CursorEchoPatterns | src/tools/generator.ts:516 | the pattern list is echoed, empty (the `[]` default of line 447) when none was given |
| ContextDoc.TechListLines | src/tools/generator.ts:567 | one `- tech` line per technology, in order; no technology gives an empty list |
| ContextDoc.FindTech | src/tools/generator.ts:573-580 | `find` gives nothing exactly when no technology mentions a keyword, and otherwise the first one that does |
| ContextDoc.StackSlot | src/tools/generator.ts:573-580 | a slot is the fallback when nothing matches, and otherwise the first technology that mentions one of its keywords |
| ContextDoc.MethodsText | src/tools/generator.ts:586 | the methods are joined with `, `, falling back to `GET` when absent, empty or a single empty string; never empty |
| ContextDoc.MethodsListed | src/tools/generator.ts:586 | every non-empty listed method is named in the methods text |
| ContextDoc.ApiSectionCases | src/tools/generator.ts:583-587 | the section is `No APIs documented yet.` exactly when there is no API, and every API's block is in it |
| ContextDoc.DocEnds | src/tools/generator.ts:561-643 | the document opens with `# <name> - Context Document` and a blank line, and ends with the fixed closing text, whatever that text is |
| ContextDoc.DocListsTech | src/tools/generator.ts:566-567 | every technology is a `- ` bullet of the document |
| ContextDoc.DocListsApis | src/tools/generator.ts:582-587 | every API has its block in the document, and with no API the document says so |
| ContextDoc.DocStack | src/tools/generator.ts:571-580 | the six detected slots each stand on their labelled line of the document |
| ContextDoc.ContextEcho | src/tools/generator.ts:645-649 | the result reports success, carries the document and names the file `CONTEXT.md` |
| ContextDoc.ContextEchoArgs | src/tools/generator.ts:650-651 | the result echoes the project's name and its technologies in order |
| Json.Get | src/tools/generator.ts:393 | a property read finds nothing exactly when no field has the key, and otherwise the value of a field with that key |
| Json.GetFirstAt | src/tools/generator.ts:393 | when field k is the first with its key, reading that key gives field k's value |
| Json.Entries | src/tools/supabase.ts:67-70 | `Object.entries` gives an object's fields, the index/element pairs of an array and the index/character pairs of a string |
| Json.EntriesDistinct | src/tools/supabase.ts:70 | the entries of an array or a string have distinct keys |
| Text.Split | src/tools/generator.ts:390 | a split gives at least one piece, and no piece holds the separator |
| Text.JoinSplit | src/tools/supabase.ts:124-125 | joining the pieces of a split with the separator gives the text back |
| Text.SplitJoin | src/tools/generator.ts:390-392 | splitting a join of separator-free pieces gives the pieces back |
| Text.SplitAppend | src/tools/generator.ts:390 | splitting at a separator splits each side on its own |
| Text.TrimStart | src/tools/generator.ts:390 | the leading whitespace run is removed and the rest kept, starting with a non-space |
| Text.TrimEnd | src/tools/generator.ts:392 | the trailing whitespace run is removed and the rest kept, ending with a non-space |
| Text.Trim | src/tools/generator.ts:390 | `trim` takes exactly the whitespace runs off both ends |
| Text.TrimPadded | src/tools/generator.ts:392 | whitespace added on either side does not survive `trim` |
| Text.ReplaceSpaceRuns | src/tools/generator.ts:393 | `replace(/\s+/g, '_')` leaves no whitespace, and changes nothing without whitespace |
| Text.IndexOfFrom | src/tools/generator.ts:494 | the search from a position finds the first occurrence at or after it, and nothing exactly when there is none |
| Text.FirstOccurrence | src/tools/generator.ts:494 | an occurrence with none before it is the one `indexOf` finds |
| Text.ReplaceFirst | src/tools/generator.ts:494 | a string `replace` changes only the first occurrence and leaves a text without one unchanged |
| Text.SubstitutionPlain | src/tools/generator.ts:494 | a replacement with no `$$`, `$&`, `` $` `` or `$'` is inserted as it is; a lone `$` stands for itself |
| Text.Lower | src/tools/generator.ts:393 | lowercasing keeps the length and maps each character on its own |
| Text.Upper | src/tools/generator.ts:455 | uppercasing keeps the length and maps each character on its own |
| Text.ReplaceBySelf | src/tools/scaffolding.ts:127 | replacing `/*` by itself changes nothing |
| Text.Decimal | src/tools/scaffolding.ts:371 | a number renders as a non-empty run of digits with no leading zero |
| Text.DecimalValue | src/tools/scaffolding.ts:371 | reading back a rendered number gives the number |
| Text.DecimalInjective | src/tools/scaffolding.ts:371 | distinct numbers render differently |
| Text.ParseIntDecimal | src/tools/supabase.ts:164-165 | `parseInt` of a decimal rendering, after whitespace and before a non-digit, gives the number |
| Text.ParseIntNegative | src/tools/supabase.ts:164-165 | a leading minus sign negates the value |
| Text.ParseIntNaN | src/tools/supabase.ts:164-165 | text that is empty after its leading whitespace, or continues with something other than a digit or a sign, is `NaN` |
| Text.ParseIntPadded | src/tools/supabase.ts:164-165 | leading whitespace does not change what `parseInt` gives |

## Left out

- Transport and startup (`src/index.ts:1-27, 80-90`) are I/O plumbing and are not modelled. This covers the `Server` and stdio transport, `dotenv` and `main()`. So is the SDK's decoding of requests; `Registry.Request` is the decoded request.
- `src/tools/vercel.ts` and `src/tools/linear.ts` are not part of this model. They are thin wrappers over HTTP clients and an SDK. Their schemas in `src/utils/types.ts` are modelled.
- Asynchrony is not modelled. Each awaited call is one settled outcome, in program order.
- Arguments are typed records, and a field the code destructures is `None` when absent. Values of the wrong type, which the handlers would receive because the dispatcher does not validate, are not modelled. Neither are `null` where a default applies, or `undefined` fields of an API entry in the context document.
- `JSON.stringify` is a function parameter. Its layout is not modelled, so `Registry.EnvelopeRecoverable` assumes a parser that inverts it. The numeric key ordering of JavaScript objects is not modelled: objects are field lists in insertion order.
- `SearchParams` decodes `+` to a space but does not percent-decode `%XX`. Its round-trip lemmas are stated for pairs with no `&` or `+` anywhere and no `=` in the name.
- `Text.Lower` and `Text.Upper` map ASCII letters only. Other characters are kept as they are.
- `CursorRules.FrameworkPlaced`: states the placement for any marker-free middle text. That the fixed `projectRules` text (about 5.7k characters) is marker-free is not proved.
- `CursorRules.MarkerPlaced`: the same hypothesis about the fixed `projectRules` text.
- `Generator.PrdSections`: assumes a prompt and context with no line starting with `## `. The conversion of other texts is modelled (`Generator.SectionsObjectReads` holds for any text), but their exact sections are not stated.
- `Generator.PrdJsonKeys`: states that the `overview` and `context` keys exist, not their contents. The keys of the template's later sections are not computed.
- `Generator.PrdSectionsAround`: like `Generator.PrdSections`, assumes a prompt and context with no line starting with `## `. `Generator.PrdJsonKeys` needs no such assumption.
- `ContextDoc.DocEnds`: the layout lemmas hold for any fixed tail text. The tail's prose is kept as a literal but nothing is proved about its content.
- `CursorRules.FrameworkPlaced` and `CursorRules.FrameworkIntoPrompt`: assume a framework name with no `$$`, `$&`, `` $` `` or `$'`. For other names `replace` would expand the pattern, and the placement is not stated. The names the schema lists have no `$`.
- `Text.ReplaceFirst`: `$<name>` replacement patterns are not modelled. They only apply to regular expressions with named groups.
- `Supabase.ListTables` and `Supabase.GetTableSchema` do not model the column values the database returns, beyond their projection.
- `Text.ParseInt`: numbers are exact. `parseInt` and JavaScript numbers are IEEE-754 doubles, so digits beyond 2^53 are rounded and a value of about 309 or more digits is `Infinity`. The model gives the exact integer.
- `Supabase.RangeOf`: `Supabase.Add` adds exactly. Double rounding of `start + limit - 1` for large values, and `Infinity` bounds, are not modelled.
- `Supabase.ReadRange` and `Supabase.ReadTablePlanShape`: `offset + limit - 1` is exact real arithmetic. For fractional or very large `limit` and `offset` the doubles the code computes may differ in their last bits.
- `Supabase.BuilderMethod`: the builder's method names are those of postgrest-js as supabase-js 2 bundles it. The library is not part of this model, and other versions add or drop a few names. A call of a method other than a filter operator is recorded like a filter; what it does to the builder, and that `then` or `toString` return something that is not a builder, is not modelled.
- Characters outside the Basic Multilingual Plane are not modelled. A Dafny character is a Unicode scalar value, whereas JavaScript counts such a character as two UTF-16 code units, so `Json.Entries` of a string holding one gives one entry where `Object.entries` gives two.
- Listing changes no state, so two listings are trivially identical: `Registry.ListTools` is a function of the registry.
- The `Tool` interface of `src/utils/types.ts:3-12` is the `Registry.Tool` datatype. Its `type: 'object'` is implicit in `Registry.InputSchema`.
