# Intellido core, modelled in Dafny

Intellido is a command-line to-do assistant. A user types a request. A
language model answers with JSON "actions" that name controller methods, and
those methods read and write todos, subtodos and projects in MongoDB. When the
model gives a final "output", the loop prints it, rewritten as a numbered
list if it has the right shape.

This project models the parts of that program that decide something:

- **Filter compilation** (`Filters`, `Todos`, `SubTodos`). `search`,
  `updateMatching` and `deleteMatching` turn a search filter into a MongoDB
  query field by field:
  - text and date fields count only when truthy;
  - `priority` and `isCompleted` count whenever they are not `undefined`;
  - a truthy `searchTerm` adds a case-insensitive `$or` over `taskName` and
    `description`.

  The query is built twice in the model:
  - `BuildQuery` builds it step by step, as the source does;
  - `Compile` is the function that specifies it.

  `CompileMeaning` proves that the compiled query matches a stored record
  exactly when the filter admits that record's fields.
- **The collections** (`Mongo`). A Mongoose model is the class `Collection`,
  whose `docs` field holds the records in stored order. `find`, `updateMany`
  and `deleteMany` are methods on it, stated in terms of the functions
  `Selected`, `Patched` and `Remaining`. The services are classes over their
  collections. The server's `$regex` evaluation is a parameter of the
  collection.
- **The project join** (`Projects`). `findProjectsWithRelations` builds an
  aggregation pipeline. The model has:
  - the pipeline as data;
  - an interpreter for its stages;
  - `PipelineMeaning`, which proves that running the pipeline gives exactly
    each matching project with its own matching todos and those todos'
    matching subtodos, keeping only projects that have at least one of them.
- **`formatOutput`** (`OutputFormat`). The three regular expressions are
  modelled by hand, with JavaScript's character classes. `MatchCutsFirst`
  proves that the hand-written matcher finds a match exactly when the pattern
  matches, and that it is the match the backtracking engine returns.
  `FormattedTasksReadBack` proves that the output has one numbered line per
  task the split found.
- **The chat loop** (`Agent`). The outer loop of `server.ts` is the method
  `Chat`, proved equal to the specification function `Session`. The inner
  loop is the method `Ask`, proved equal to `Turn`, and one pass of it is the
  method `Pass`, proved equal to `Respond`. The tool table is a map from
  names to tool functions. Lemmas state what one reply does to the transcript, the console
  and the tool calls, and that every state the loop reaches is `Coherent`:
  - the system prompt comes first;
  - every observation follows an assistant message;
  - only tools of the table are called;
  - every request carried the transcript as it then stood.

Parameters of the model, not parts of it:
- the user's lines and the endpoint's replies, which are scripts consumed in
  order;
- `JSON.parse` and `JSON.stringify`;
- the tools' behaviour;
- the regex engine.

What `formatOutput` (src/server.ts:49-70) does, and the model with it:
- The trailing question must start with the words "Would you like to ".
  `WithoutQuestionUnchanged` proves that an answer ending in any other
  question is returned unchanged, however list-like it is.
- The numbered lines are joined with ",\n", so every line but the last ends
  with a comma.
- The list is followed by ". ".
- A non-string `output` makes `formatOutput` throw. In the loop that is an
  inner-loop error (`OutputIsAnswered`).

A todo created through the todo schema has no `projectId`, because the schema
does not declare that field. The project join matches todos on exactly that
field. `Todo.projectId` is therefore optional, and the join is proved correct
for todos that carry it (see Findings).

## Model

| member | source | states |
|---|---|---|
| Filters.Compile | src/modules/todos/todos.module.ts:59-85 | The query has one condition per included filter field, in the source's order ending with the `$or` search clause. It is empty exactly when no field is included. A given `priority` or `isCompleted` is always compared, even when it is `0`, `false` or `null`. |
| Filters.IncludedKeys | src/modules/todos/todos.module.ts:62-84 | A field's key is in the query exactly when that field's inclusion test passes: truthy for text and dates, not `undefined` for priority and completion. |
| Filters.BuildQuery | src/modules/todos/todos.module.ts:60-84 | Building the query one `if` at a time gives exactly the compiled query. |
| Filters.CompileMeaning | src/modules/todos/todos.module.ts:59-86 | A compiled query matches a record exactly when every included field equals the filter's value and, with a search term, the regex matches `taskName` or `description`. |
| Filters.EmptyFilterMatchesAll | src/modules/todos/todos.module.ts:60-86 | The empty filter `{}` compiles to a query that matches every record. |
| Filters.FalsyTaskNameAddsNothing | src/modules/todos/todos.module.ts:62-64 | An empty or missing task name compiles exactly like no task name. |
| Filters.SearchTermAddsDisjunction | src/modules/todos/todos.module.ts:79-84 | A non-empty search term adds, as the last condition, the case-insensitive `$or` over task name and description. |
| Mongo.Collection.Find | src/modules/todos/todos.module.ts:86 | `find(query)` returns the matched records in stored order, and a record is returned exactly when it is stored and the query matches it. Nothing changes. |
| Mongo.Selected | src/modules/todos/todos.module.ts:86 | The records a query selects are at most as many as the stored ones, and each is stored and matches. |
| Mongo.Remaining | src/modules/todos/todos.module.ts:158 | The records a delete keeps are at most as many as the stored ones, and each is stored and does not match. |
| Mongo.Patched | src/modules/todos/todos.module.ts:121 | An update keeps the number and positions of the records, and leaves every record the query does not match as it was. |
| Mongo.MatchesAppend | src/modules/todos/todos.module.ts:60-86 | The keys of a query object are ANDed: a query built from two parts matches exactly when both parts match. |
| Mongo.Collection.UpdateMany | src/modules/todos/todos.module.ts:121 | `updateMany` patches exactly the matching records in place. The matched count is the number selected; the modified count is the number the patch changed. |
| Mongo.Collection.DeleteMany | src/modules/todos/todos.module.ts:158 | `deleteMany` removes exactly the matching records, keeps the rest in order, and reports how many it removed. |
| Mongo.SelectedMembers | src/modules/todos/todos.module.ts:86 | A record is selected exactly when it is stored and matches. |
| Mongo.RemainingMembers | src/modules/todos/todos.module.ts:158 | A record remains after a delete exactly when it is stored and does not match. |
| Mongo.PartitionSizes | src/modules/todos/todos.module.ts:158 | The selected and the remaining records together are as many as the stored ones. |
| Mongo.PatchedAt | src/modules/todos/todos.module.ts:121 | After an update, position i holds the patched record when the old one matched, and the old record otherwise. |
| Mongo.PatchedTwice | src/modules/todos/todos.module.ts:121 | With an idempotent patch, repeating `updateMany` changes nothing and modifies zero records. |
| Todos.AuthoringName | src/database/models/todos.model.ts:38-43 | The stored `type` is one of the schema's two values, "user" or "AI". |
| Todos.Patch | src/modules/todos/todos.module.ts:121 | `$set` of the given fields: each of the nine fields the update gives takes the given value, and each one it omits keeps its old value. The id and the project link never change, and an empty update is the identity. |
| Todos.PatchIdempotent | src/modules/todos/todos.module.ts:121 | Applying the same update twice is applying it once. |
| Todos.TodoMatches | src/modules/todos/todos.module.ts:59-86 | A compiled filter matches a todo's document exactly when the filter admits the todo's fields. |
| Todos.TodosService.Search | src/modules/todos/todos.module.ts:59-87 | `search(filter)` returns, in stored order, exactly the stored todos the filter admits. |
| Todos.TodosService.UpdateMatching | src/modules/todos/todos.module.ts:90-122 | `filter` and `update` both come from the first argument, and the second argument is ignored. A missing or `null` first argument throws, and so does an undefined filter, both changing nothing. Otherwise every admitted todo is patched, the others are unchanged, and the counts are returned. |
| Todos.TodosService.GetByLabel | src/modules/todos/todos.module.ts:124-126 | `getByLabel(label)` returns exactly the stored todos whose label is that label. |
| Todos.TodosService.DeleteMatching | src/modules/todos/todos.module.ts:129-159 | An undefined filter throws and deletes nothing. Otherwise exactly the admitted todos are removed, the rest keep their order, and the deleted count is the size difference. |
| Todos.EmptyFilterDeletesAll | src/modules/todos/todos.module.ts:129-159 | `deleteMatching({})` removes every todo. |
| Todos.UpdateMatchingTwice | src/modules/todos/todos.module.ts:90-122 | Repeating an `updateMatching` leaves the collection as the first run left it and modifies nothing. |
| SubTodos.SubTodoMatches | src/modules/subTodos/subTodos.module.ts:47-75 | A compiled filter matches a subtodo's document exactly when the filter admits the subtodo's fields. |
| SubTodos.Patch | src/modules/subTodos/subTodos.module.ts:108 | `$set` of the given fields: each of the nine fields the update gives takes the given value, and each one it omits keeps its old value. The id never changes, and an empty update is the identity. |
| SubTodos.PatchIdempotent | src/modules/subTodos/subTodos.module.ts:108 | Applying the same update twice is applying it once. |
| SubTodos.SubTodosService.Search | src/modules/subTodos/subTodos.module.ts:47-76 | `search(filter)` returns, in stored order, exactly the stored subtodos the filter admits. |
| SubTodos.SubTodosService.UpdateMatching | src/modules/subTodos/subTodos.module.ts:78-109 | Every admitted subtodo is patched and every other one is unchanged, with matched and modified counts. |
| SubTodos.UpdateMatchingTwice | src/modules/subTodos/subTodos.module.ts:78-109 | Repeating an `updateMatching` changes nothing more. |
| Projects.PipelineShape | src/modules/project/project.module.ts:61-100 | The pipeline opens with a `$match` exactly when the project query has keys. Then come the todos lookup and the subtodos lookup, each with its extra `$match` exactly when its query has keys, and then the final filter. |
| Projects.Pipeline | src/modules/project/project.module.ts:63-100 | The pipeline always ends with the two lookups and the final filter. It has a fourth stage exactly when the project query has keys, and that stage is the leading `$match` of it. |
| Projects.Owned | src/modules/project/project.module.ts:74 | A todo passes the `$eq` on `projectId` exactly when it is stored and carries the project's id. |
| Projects.Under | src/modules/project/project.module.ts:86 | A subtodo passes the `$in` on `parentId` exactly when it is stored and its parent is one of the joined todos' ids. |
| Projects.TodoIds | src/modules/project/project.module.ts:84 | `$todos._id` lists the joined todos' ids, one per todo, in order. |
| Projects.StepRow | src/modules/project/project.module.ts:102 | One stage turns a row into at most one row, of the same project. A lookup always keeps the row. |
| Projects.Step | src/modules/project/project.module.ts:102 | A stage never adds rows, and a lookup keeps every row. |
| Projects.Aggregate | src/modules/project/project.module.ts:102 | An aggregation never returns more rows than it started with. |
| Projects.WithRelations | src/modules/project/project.module.ts:58-103 | The intended answer has no more rows than there are stored projects. Each row is a stored project passing the project query, with exactly its related todos and subtodos, and at least one of them. |
| Projects.ProjectService.BuildPipeline | src/modules/project/project.module.ts:63-100 | Pushing the stages one by one gives exactly the pipeline `Pipeline` describes. |
| Projects.Related | src/modules/project/project.module.ts:69-94 | A todo is joined exactly when it is stored, carries the project's id and passes the todo query. A subtodo is joined exactly when it is stored, its parent is one of the joined todos and it passes the subtodo query. |
| Projects.SubTodosNeedTodos | src/modules/project/project.module.ts:81-94 | Subtodos are joined through the joined todos, so a project with no joined todo has no joined subtodo. |
| Projects.RowsHaveTodos | src/modules/project/project.module.ts:96-100 | Every returned project has at least one todo. The final filter's `subTodos` alternative never decides anything. |
| Projects.PipelineMeaning | src/modules/project/project.module.ts:58-103 | The aggregation of the built pipeline returns, in stored order, each project passing the project query with its related todos and subtodos, whenever it has one. |
| Projects.ProjectService.FindProjectsWithRelations | src/modules/project/project.module.ts:58-103 | The service returns exactly the intended join over the three collections, and every row has todos. |
| Projects.NoOwnersNoRows | src/modules/project/project.module.ts:69-79 | When no stored todo carries a `projectId`, the pipeline returns nothing, whatever the filters. |
| Projects.NoneRelated | src/modules/project/project.module.ts:69-79 | When no stored todo carries a `projectId`, the intended join is empty. |
| OutputFormat.SpanEnd | src/server.ts:51 | The greedy `\s+` stops at the first character that is not white space. |
| OutputFormat.MatchCutsFirst | src/server.ts:50-55 | The matcher finds a match exactly when the pattern can match, and that match is the first one the backtracking engine tries: shortest prefix, longest white space, shortest items. |
| OutputFormat.MatchCuts | src/server.ts:50-52 | A match it returns has its four cuts in order within the text. |
| OutputFormat.FirstMatchIsUnique | src/server.ts:50-52 | Only one match is tried before every other one. |
| OutputFormat.WithoutQuestionUnchanged | src/server.ts:50-55 | Text that never says "Would you like to " is returned unchanged. |
| OutputFormat.StripFinalDot | src/server.ts:57 | Removes a dot followed only by white space at the end, and nothing else. Text without such a dot is unchanged. |
| OutputFormat.Split | src/server.ts:58 | The split yields at least one piece, and no piece contains a separator. |
| OutputFormat.SplitInverse | src/server.ts:58 | Putting the removed separators back between the pieces gives the original text. |
| OutputFormat.SplitNothing | src/server.ts:58 | Text containing no separator comes back as one piece. |
| OutputFormat.Numbered | src/server.ts:59-60 | Line i reads "i+1. " followed by task i. |
| OutputFormat.JoinedLinesSplitBack | src/server.ts:61 | The joined list splits back at its newlines into the numbered lines, each followed by a comma except the last. |
| OutputFormat.Enumerate | src/server.ts:56-61 | The enumerated block starts with "1. " and the first task. |
| OutputFormat.FormatOutput | src/server.ts:49-70 | Text the pattern cannot match is returned as is. Otherwise, for the match the backtracking engine tries first, the result is its prefix, ":", a blank line, the enumerated items, ". ", a blank line and its question. |
| OutputFormat.FormattedTasksReadBack | src/server.ts:56-67 | The enumerated block has one line per task the split found, "k. task" in order. |
| Text.NatToString | src/server.ts:60 | The decimal rendering of `i + 1` is a non-empty run of digits with no leading zero, one digit exactly below ten. |
| Text.NatToStringRoundTrip | src/server.ts:60 | Reading the rendered digits back gives the number. |
| Json.KeyString | src/server.ts:315-318 | A string name is its own key, and a missing `function` becomes "undefined". |
| Json.ToJsString | src/server.ts:60 | A string is its own rendering. A number renders as its decimal digits, after a '-' exactly when it is negative, and those digits read back as the number. |
| Agent.InheritedNameIsFound | src/server.ts:315-321 | `tools[name]` on the object literal of src/server.ts:169-176 also finds what it inherits from `Object.prototype`: for the six-tool table, "toString" is not a tool, yet the as-written lookup finds it. The corrected own-entry lookup does not. |
| Agent.StartIsCoherent | src/server.ts:257 | The transcript starts with the system prompt alone, and that opening state is coherent. |
| Agent.ObservationMessage | src/server.ts:324-327 | The observation object has type "observation" and carries the tool's value, omitted when that value is `undefined`. |
| Agent.Act | src/server.ts:305-332 | Acting on a parsed reply sends no request and only appends to the transcript, the console and the calls. |
| Agent.Respond | src/server.ts:293-340 | One pass sends exactly one request, carrying the whole transcript, and only appends to the state. |
| Agent.Turn | src/server.ts:291-341 | The inner loop only appends to the state and consumes replies: all of them when they run out, at least one when the turn ends. |
| Agent.UserSaid | src/server.ts:279-284 | The user's line adds exactly one message, from the user, at the end of the transcript. Nothing else changes. |
| Agent.Session | src/server.ts:259-349 | The outer loop only appends to the state, and when it exits the line it read is an exit token. |
| Agent.UserLineIsSent | src/server.ts:267-300 | Every line that is not an exit token, the empty line included, stays in the transcript as a user message. When a reply follows, the turn's first request carries the transcript ending with it. |
| Agent.RespondAnswers | src/server.ts:306-313 | One pass shows at most one answer, and none when the loop asks again. |
| Agent.RespondShape | src/server.ts:291-341 | With the corrected tool lookup: each reply answers a request that sent the whole transcript. The reply is appended before it is parsed. At most one observation follows, and only after one tool call, with the loop asking again. |
| Agent.ActShape | src/server.ts:306-332 | With the corrected tool lookup: acting on a parsed reply appends at most a developer message and at most one call, to a tool of the table. A failure shows the error notice. |
| Agent.EmptyReplyFails | src/server.ts:302-305 | A `null` content is recorded in the transcript, and the turn fails, because reading `type` of the parsed `null` throws. |
| Agent.UnparsableReplyFails | src/server.ts:303-305 | A reply that is not JSON stays in the transcript, and the turn ends with the error notice. |
| Agent.OutputIsAnswered | src/server.ts:306-313 | For a reply that parses to an object, `type` and `output` are its own members. An `output` reply with a string shows `formatOutput` of it and ends the turn. A non-string or missing output ends it with an error. |
| Agent.UnknownToolIsReported | src/server.ts:314-321 | With the corrected tool lookup, which finds a name exactly when it is one of the table's own entries: an action whose function is not in the table produces "not recognized" and nothing else, and the loop asks again. It is reported exactly when the name is missing. |
| Agent.KnownToolIsCalled | src/server.ts:322-331 | An action naming a tool calls it with `input`. A returned value goes back as one developer observation before the next request; a rejection ends the turn without one. |
| Agent.OtherReplyAsksAgain | src/server.ts:305-332 | A reply of any other type, such as a plan, only extends the transcript and asks again. |
| Agent.AgainShowsNoAnswer | src/server.ts:314-332 | A pass that asks again shows nothing, or only "not recognized". |
| Agent.TurnAnswersOnce | src/server.ts:291-341 | A turn shows at most one answer, and only when it ends before the replies run out. |
| Agent.RespondKeeps | src/server.ts:291-341 | One reply only appends, and keeps the transcript coherent. |
| Agent.TurnKeeps | src/server.ts:291-341 | The inner loop only appends, keeps the state coherent, and consumes replies. |
| Agent.UserSaidKeeps | src/server.ts:280-284 | Appending the user's message keeps the state coherent. |
| Agent.SessionKeeps | src/server.ts:259-349 | The outer loop only appends and keeps every reached state coherent. |
| Agent.ChatIsCoherent | src/server.ts:257-349 | A whole session keeps the system prompt first and the transcript coherent. |
| Agent.ExitTokenEnds | src/server.ts:267-277 | Each of "exit", "quit", "q", "bye", "stop" and "end" ends the program at once, and the transcript gets nothing. |
| Agent.ExitOnlyOnToken | src/server.ts:259-277 | The program exits only on a line that is one of those tokens. |
| Agent.Chat | src/server.ts:257-349 | The nested loops produce exactly the transcript, console, calls, requests and ending that `Session` specifies, and the result is coherent. |
| Agent.Ask | src/server.ts:291-341 | The inner loop, pass after pass, produces exactly the state and the remaining replies that `Turn` specifies. |
| Agent.Pass | src/server.ts:293-340 | One pass of the inner loop produces exactly the state and the continuation that `Respond` specifies. |

## Left out

- Console output is not modelled beyond which notice is shown. This covers colours, the spinner, the logger, the header with system information, the welcome message and the start menu (`menuCheck`).
- `readlineSync.question` is replaced by a script of lines. A read that throws is `ReadFailure`, which is the outer catch.
- `process.exit` is the ending `ExitRequested`.
- The OpenAI endpoint is a script of completions, one per request. The model records each request's transcript, but not how a language model would answer it. The model name and `response_format` are not modelled.
- `JSON.parse` and `JSON.stringify` are parameters. The key order of the stringified objects is not modelled.
- The tools are opaque functions of their input. Their effects on the database are not threaded through the loop's state; the services are modelled separately. Awaiting and interleaving are not modelled.
- The CRUD operations outside the named core are not part of this model: `create`, `getAll`, `getById`, `getByQuery`, `update`, `delete` and the project controller's methods.
- Mongoose casting, schema validation, defaults and timestamps are not modelled. The one exception is the schemas' field sets: a todo's `projectId` is optional.
- Dates are milliseconds, and a date filter is truthy when non-zero. A date given as an ISO string is not modelled.
- The MongoDB query language is reduced to field equality, `$regex` with options, and `$or`. The `$regex` evaluation is a parameter.
- The project, todo and subtodo queries of `findProjectsWithRelations` are queries in that subset, not arbitrary MongoDB filters.
- Todos.TodosService.Search: an `undefined` filter, which throws in the source, is outside the model, because the declared parameter type is an object.
- SubTodos.SubTodosService.Search: same as for todos.
- SubTodos.SubTodosService.UpdateMatching: an `undefined` filter is outside the model, for the same reason.
- Agent.Chat: the tool lookup is the corrected own-property lookup (see Findings), not the inherited-member lookup as written.
- Agent.UnknownToolIsReported: holds for the corrected lookup. As written, an inherited name such as "toString" is found, called and not reported.
- Agent.ActShape: holds for the corrected lookup. As written, a call can name an inherited member of `Object.prototype`, which is not a tool of the table.
- Agent.RespondShape: the same as for `ActShape`, holding for the corrected lookup.
- Agent.Coherent: that every call names a tool of the table holds for the corrected lookup only, and so do `RespondKeeps`, `TurnKeeps`, `SessionKeeps` and `ChatIsCoherent`, which preserve it.
- Todos.TodosService.Search: a `searchTerm` that is not a valid regular expression, such as "(", makes MongoDB reject the `$regex` and the call throw. The regex engine here is total, so that error is not modelled.
- Todos.TodosService.UpdateMatching: the same invalid `$regex` error is not modelled.
- Todos.TodosService.DeleteMatching: the same invalid `$regex` error is not modelled.
- SubTodos.SubTodosService.Search: the same invalid `$regex` error is not modelled.
- SubTodos.SubTodosService.UpdateMatching: the same invalid `$regex` error is not modelled.
- Json.ToJsString: JSON numbers are integers here. Fractions, and the exponent form `String` gives very large or very small numbers, are not modelled.
- A missing `update` member in `updateMatching` is an empty update (`NoChange`). The reply to an empty update is not modelled: the model reports `Ok` with the matched count and zero modified.

## Findings

| source | as written | input that shows it | evidently intended | confidence | as-written member | corrected member |
|---|---|---|---|---|---|---|
| src/server.ts:315-316 | `tools[action.function]` reads a plain object literal, so inherited `Object.prototype` members count as tools and are called | a reply `{"type":"action","function":"toString"}` is not reported as unrecognised | only the six table entries are tools; every other name is reported as not recognised | not executed | Agent.InheritedNameIsFound | Agent.UnknownToolIsReported |
| src/database/models/todos.model.ts:17-56 | the todo schema declares no `projectId`, so strict mode drops it from every saved todo, while the project join matches `todos.projectId` | any stored todos and projects: `findProjectsWithRelations` returns `[]` | todos carry the `projectId` of their project, and the join returns each project with its todos | not executed | Projects.NoOwnersNoRows | Projects.PipelineMeaning |
