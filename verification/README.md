# uAdmin read API handler and trail levels, modelled in Dafny

This project models the core of uAdmin's `dAPIReadHandler`, the HTTP handler that serves data-API read requests. It covers:

* the permission gate, built from the model's disable and public hooks and the session user's role;
* the log decision;
* dispatch on the number of path segments;
* assembly of the SQL statement for a list read, including the merge with the schema's list modifier;
* the result and row count of a single read;
* the audit `Log` entry that each read leaves behind.

It also models the reporting levels of `trail.go`:

* the nine level constants;
* the `zapMap`, `levelMap` and `trailTag` tables;
* the threshold gate of `Trail`.

Modules, one per file:

* `Base` (`base.dfy`): optional values, fallible results, and the values bound to `?` placeholders.
* `Text` (`text.dfy`): Go's `strings.Replace(…, -1)`, `strings.Split` and `strings.Join` for a one-character separator, plus a character count.
* `Logging` (`logging.dfy`): `trail.go`.
* `Permission` (`permission.dfy`): the gate at d_api_read.go:22-49.
* `Query` (`query.dfy`): the list statement at d_api_read.go:61-117.
* `ReadHandler` (`read_handler.dfy`): the handler as a whole.

The handler gets everything it does not compute itself from an `Env`, already evaluated for the one request being handled:

* the model registry;
* the query helpers (`getQueryFields`, `getQueryJoin`, `getFilters`, `getQueryGroupBy`, `getQueryOrder`, `getQueryLimit`, `getQueryOffset`);
* the list modifier's answer for a user;
* the driver's `apiRead`;
* the record loader;
* the globals `APILogRead`, `DebugDB` and `ReportingLevel`, and whether the database dialect is supported.

Each hook is represented by the answer it gives for the current request, or `None` when the model does not implement it. The handler ends in one of two outcomes:

* an HTTP answer, made of a status, a JSON envelope, the trail emitted and what the logging goroutine does;
* a panic.

Three behaviours of the code are worth stating on their own:

* **A disable hook that answers false opens the model.** A disable hook answering false sets `allow` to true. With no public hook, the read is then granted without any role lookup (d_api_read.go:24-27, 39). `Permission.ReadAllowed` keeps this.
* **The id of a single read is the third path segment.** A path of three segments is a single read. The id is taken from the third segment and the second is ignored (d_api_read.go:170-173, 192).
* **A logged read without a session crashes the server.** The logging goroutine takes `&s.User` and dereferences a nil session (d_api_read.go:164-167, 190-193). Nothing recovers a panic on that goroutine, so it ends the whole server process, and the 200 answer it accompanies may never reach the client. This is the log outcome `NilSessionCrash`. Calling the list modifier without a session also dereferences nil (d_api_read.go:86), but that panic is on the request's own goroutine; it is the outcome `Panicked(ListModifierWithoutSession, …)`.

## Model

| member | source | states |
|---|---|---|
| Logging.Code | trail.go:12-22 | each level is one of the integers 0..8 |
| Logging.FromCode | trail.go:12-22 | an integer names a level exactly when it is in 0..8, and then it names the level with that code |
| Logging.LevelsAreZeroToEight | trail.go:12-22 | the nine levels, in declaration order, are exactly 0..8, strictly increasing, and no level is missing |
| Logging.CodeRoundTrip | trail.go:12-22 | reading a level's code back gives the same level |
| Logging.ZapFor | trail.go:65-75 | a lookup of an integer that is not a level yields zapcore's zero level, Info |
| Logging.ZapLowLevels | trail.go:65-69 | DEBUG and WORKING go to the debug backend level; INFO and OK go to info |
| Logging.ZapNotMonotone | trail.go:71-74 | ALERT lies between CRITICAL and EMERGENCY yet maps to warn while both neighbours map to error, so the mapping is not monotone |
| Logging.ZapMonotoneWithoutAlert | trail.go:65-75 | apart from ALERT, a higher level never maps to a less severe backend level |
| Logging.Label | trail.go:36-46 | every level's label is 13 characters: `[`, eight characters, `]` and three spaces; a non-level reads "" |
| Logging.LabelsDistinct | trail.go:36-46 | no two levels share a label |
| Logging.TrailTag | trail.go:24-34 | `trailTag` covers exactly the nine levels |
| Logging.TrailTagsDistinct | trail.go:24-34 | each level uses a different `colors` constant |
| Logging.Trail | trail.go:78-83 | a message reaches the backend, at the level `zapMap` gives, exactly when `level >= ReportingLevel` |
| Logging.ThresholdMonotone | trail.go:79 | lowering the threshold never silences a message that was emitted |
| Text.Split | d_api_read.go:15 | splitting yields one piece more than there are separators, and no piece contains the separator |
| Text.JoinSplit | d_api_read.go:15 | joining the pieces of a split gives back the original path |
| Text.SplitJoin | d_api_read.go:15 | splitting a join of separator-free pieces gives back the pieces |
| Text.SplitHead | d_api_read.go:15-16 | the first piece is the text before the first separator |
| Text.ReplaceAll | d_api_read.go:67-73 | replacing the token by itself changes nothing; ReplaceFirst and ReplaceAbsent together fix the result on every input (leftmost occurrence replaced, scanning resumes after it, no occurrence means no change) |
| Text.ReplaceFirst | d_api_read.go:67-73 | the leftmost occurrence is the one replaced: the text before it is copied unchanged, even when it ends in a proper prefix of the token, and replacement continues on the text after the token |
| Text.ReplaceAbsent | d_api_read.go:67-73 | replacing a token that does not occur leaves the string unchanged |
| Text.ReplaceHead | d_api_read.go:67-73 | an occurrence at the start is replaced and scanning resumes after it |
| Text.ReplaceSkip | d_api_read.go:67-73 | a prefix without the token's first character passes through unchanged |
| Text.ReplaceKeepsOut | d_api_read.go:67-73 | replacing never introduces a character absent from both the input and the replacement |
| Permission.ReadAllowed | d_api_read.go:22-49 | a disable answer of true denies; a disable answer of false with no public hook allows; a public answer of true allows; a role grant allows when not disabled; nothing else allows |
| Permission.RoleIgnoredUnlessReached | d_api_read.go:39-41 | when a hook has already settled the decision, the user's role table cannot change it |
| Permission.AnonymousNeedsHook | d_api_read.go:36-49 | without a session, access is granted exactly when a hook grants it |
| Permission.PublicFalseDefersToRole | d_api_read.go:23-41 | a public answer of false withdraws a grant from the disable hook and leaves the decision to the role lookup |
| Query.DistinctRequested | d_api_read.go:62 | `DISTINCT` is requested exactly when the `$distinct` parameter is present and equal to "1"; a missing parameter never requests it |
| Query.FieldList | d_api_read.go:69-74 | the projection is the helper's field list, or `*` when the helper gave none; it is never empty |
| Query.JoinText | d_api_read.go:76-79 | no join adds nothing; a join adds exactly one space followed by the join text |
| Query.SelectHeader | d_api_read.go:61-74 | after both substitutions, the header is the keyword, the projection, ` FROM ` and the table name, with `{FIELDS}` also replaced inside the table name |
| Query.HeaderOfPlainTable | d_api_read.go:61-74 | for a table name without `{FIELDS}`, the header reads `SELECT [DISTINCT ]<projection> FROM <table>` |
| Query.HeaderDistinct | d_api_read.go:61-64 | the statement starts with `SELECT DISTINCT ` when `$distinct` is "1"; otherwise it does not, unless the projection itself starts with DISTINCT |
| Query.ApplyListModifier | d_api_read.go:82-97 | an empty or absent modifier leaves the filter unchanged; otherwise its condition is conjoined with ` AND ` or stands alone, and its arguments follow the filter's; the placeholder/argument balance is preserved |
| Query.Candidates | d_api_read.go:98-117 | the five optional clauses are WHERE, GROUP BY, ORDER BY, LIMIT and OFFSET, in that order, each with its own fragment |
| Query.Clauses | d_api_read.go:98-117 | a keyword appears exactly when its fragment is non-empty, never with an empty fragment, in the fixed order and at most once |
| Query.NonEmptyMembers | d_api_read.go:98-117 | keeping the non-empty clauses keeps exactly those clauses |
| Query.NonEmptyOrdered | d_api_read.go:98-117 | dropping the empty clauses keeps the order |
| Query.AppendAllRenders | d_api_read.go:98-117 | appending each clause only when non-empty is the same as appending the non-empty clauses |
| Query.Append | d_api_read.go:98-117 | a conditional append keeps the statement as a prefix, changes it exactly when the fragment is non-empty, and then adds the keyword and the fragment |
| Query.ListSQL | d_api_read.go:61-117 | the statement starts with the header and the optional join, is nothing more when every clause fragment is empty, and carries the filter's arguments followed by the list modifier's |
| Query.ListSQLAppends | d_api_read.go:76-117 | the handler's five conditional appends are one pass over the candidate clauses, after the header and join |
| Query.ListSQLStructure | d_api_read.go:61-117 | the statement is the header, the optional join and exactly the non-empty clauses; its arguments are the merged filter arguments |
| Query.HeaderHasNoPlaceholder | d_api_read.go:61-74 | the header carries no `?` when neither the table nor the projection does |
| Query.ListSQLBalanced | d_api_read.go:61-117 | with `?`-free identifiers and balanced fragments, the statement has exactly one `?` per argument |
| Query.ScopedFilter | d_api_read.go:61-117 | a plain table with a filter and a list modifier yields `SELECT * FROM t WHERE f AND m`, with the filter's arguments before the modifier's |
| ReadHandler.ModelName | d_api_read.go:15-16 | the model name is the prefix of the path before its first `/` |
| ReadHandler.RouteOf | d_api_read.go:57-203 | a path with one `/` is a list read, one with two is a single read keyed by a `/`-free id, and any other is malformed |
| ReadHandler.ListPath | d_api_read.go:15-16 | `m/a` with `/`-free segments is a list read of model `m` |
| ReadHandler.SinglePath | d_api_read.go:170-173 | `m/x/id` with `/`-free segments is a single read of `m` keyed by `id`; the middle segment is ignored |
| ReadHandler.LogWanted | d_api_read.go:52-55 | the model's log hook, when present, overrides the global `APILogRead` |
| ReadHandler.TrailAt | trail.go:78-83 | a trace call yields one emission at the mapped backend level exactly when the level clears the threshold |
| ReadHandler.ReadLog | d_api_read.go:206-220 | an entry is written exactly when logging is wanted and there is a session; when logging is wanted without one, the nil session is dereferenced and the process crashes; the entry carries the username, the read action, the model name, the id and the activity |
| ReadHandler.ModifierAnswer | d_api_read.go:85-86 | the list modifier is asked exactly when the schema has one and there is a session, and its answer is for the session's user |
| ReadHandler.ListStatement | d_api_read.go:61-117 | the driver's statement starts with the model table's header, DISTINCT as `$distinct` asks; its arguments are the filters' alone without a list modifier, and the filters' followed by the modifier's when the modifier's condition is not empty |
| ReadHandler.DebugTrail | d_api_read.go:119-122 | the statement and its arguments are traced at DEBUG, in that order, exactly when DebugDB is set and the threshold lets DEBUG through; otherwise nothing is traced |
| ReadHandler.ListRead | d_api_read.go:57-169 | calling the list modifier without a session panics; a list read answers 200 with rows or 500 with an error, and a 500 is never logged |
| ReadHandler.SingleRead | d_api_read.go:170-194 | a single read always answers 200 without tracing; the record is returned exactly when its id is not zero, and the log carries that id, count 1 or 0, and only the `id` argument |
| ReadHandler.Handle | d_api_read.go:11-204 | a denied request gets 401 with no trace and no log; a permitted malformed path gets 404 naming the path; data is returned only to permitted requests |
| ReadHandler.DisabledModelDenied | d_api_read.go:23-34 | a disable answer of true denies every path, session and environment |
| ReadHandler.DeniedConsultsNothing | d_api_read.go:22-49 | a denied request reaches neither the query helpers, the driver nor the loader: swapping them changes nothing |
| ReadHandler.LogHookFalseSilences | d_api_read.go:52-55 | a log hook answering false means no read of that model is logged, whatever the global setting |
| ReadHandler.AnonymousModifiedListPanics | d_api_read.go:85-86 | an anonymous list read that a hook lets through panics when the schema has a list modifier |
| ReadHandler.AnonymousLoggedSingleReadDerefs | d_api_read.go:190-194 | an anonymous single read that is to be logged dereferences the nil session, crashing the process |
| ReadHandler.SingleReadAnswer | d_api_read.go:170-194 | a permitted single read answers the loaded record exactly when its id is non-zero, otherwise null; it is logged exactly when logging is wanted and there is a session, with the model name, the loaded id, count 1 or 0 and the `id` argument |
| ReadHandler.HandleListRoute | d_api_read.go:57 | a permitted two-segment path runs the list branch with the model's schema and log decision |
| ReadHandler.ListReadSuccess | d_api_read.go:138-168 | a successful list read answers the driver's rows and traces only the DEBUG lines; it is logged exactly when logging is wanted and there is a session, with table id 0, the model name as table name, the request's arguments and the driver's row count |
| ReadHandler.FailureTrail | d_api_read.go:145 | the trail of a failed list read ends with the ERROR trace of the statement and its arguments exactly when the threshold lets ERROR through |
| ReadHandler.ListReadFailure | d_api_read.go:138-147 | a driver error answers 500 with "Unable to execute SQL. " and the error, writes no log, and ends the trail with the ERROR trace exactly when ERROR clears the threshold |
| ReadHandler.UnsupportedDialectPanics | d_api_read.go:133-136 | an unsupported database panics after the DEBUG trails of the statement |
| ReadHandler.DriverStatementBalanced | d_api_read.go:82-138 | with `?`-free identifiers and balanced filter and modifier fragments, the driver receives one argument per `?` |

## Left out

- HTTP output (`w.WriteHeader`, `ReturnJSON`, `returnDAPIJSON`): the model returns the status and the envelope instead.
- `returnDAPIJSON`'s own post-processing of the result is not part of this model.
- Reflection and model construction (`NewModel`, `NewModelArray`, `reflect.ValueOf`), `$preload` with `Preload`, and `getQueryM2M`: these are runtime reflection and database work. A list result is the driver's rows, and a single result is the loaded record.
- An unknown model name: `NewModel`'s failure is ignored by the handler and depends on the registry. The model takes the registry as a total function `schemaOf`.
- `Get` and `GetID`: the loader is the parameter `load`, and its record's `id` stands for `int(GetID(m))`. The unsigned-to-int conversion is not modelled.
- `driver.apiRead` and the `sqlDialect` lookup: the driver is the parameter `apiRead`, and dialect support is a flag.
- `customSchema` from `getQueryFields`: it only selects the Go type of the rows the driver fills, so it is not modelled.
- The bodies of the query helpers and of the list modifier: they are inputs, as described above.
- The goroutine, `json.Marshal` and `log.Save()` in `createAPIReadLog`: the model keeps the fields of the `Log` entry. The activity is a record of params, row count and IP, not its JSON text.
- `fmt` formatting of trail messages (`%#v`, `"SQL: %v\nARGS: %v"`): a trail message is a datatype holding the statement and arguments.
- The zap logger setup and `log.Check`/`ce.Write`: an emission records the backend level and the message. The commented-out code in `Trail` is not behaviour.
- The colour escape sequences behind `trailTag`: the model uses one constant per `colors` constant, so it does not say whether two of those constants hold the same text.
- cmd/uadmin/cmdversion.go: it only calls `Trail`.
- Text.ReplaceAll: requires a non-empty token, which both of the handler's tokens are; `strings.Replace` with an empty token is not modelled.
- Text.Split and Text.Join: only one-character separators are modelled, as the handler uses `/`.
- Permission.ReadAllowed: the role lookup `GetAccess(modelName).Read` is a function of the user, and its own logic is not part of this model.
- ReadHandler.Handle: the crash of the logging goroutine (`NilSessionCrash`) is recorded next to the answer; the model does not order it against the response write, so it does not say whether the client receives the answer.
