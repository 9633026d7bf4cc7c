# Checkpoint bookmarks, checkpoint summaries and human questions — a Dafny model

This project models the three pieces of the `deepagents` library that hold
checkable logic:

- **The checkpoint summariser** (`CheckpointUtils`, `checkpoint_utils.dfy`).
  `extract_last_messages` walks a message list from its newest end. It
  flattens list-valued content into space-joined text and truncates it with a
  `"..."` marker. It keeps the newest `human` text and the newest `ai` text,
  and stops once it has both. `should_include_checkpoint` tests a checkpoint's
  `source` against the allow-list `input`, `loop`, `fork`. The loop is an
  imperative method. It is proved equal to a full reverse scan (`ScanBack`)
  and to an independent "newest message of this type" definition (`LastOf`).
- **The bookmark store** (`Bookmarks`, `bookmarks.dfy`). The table
  `conversation_bookmarks` is a `Table` object: a `created` flag and its rows
  in storage order. `BookmarkManager` issues one statement per method against
  it. Each SQL statement becomes a function over the rows. `FirstMatch` is the
  `name = x OR id = x ... LIMIT 1` lookup, `Select` the thread filter,
  `SortNewestFirst` the `ORDER BY created_at DESC`, and `Remove` the delete
  predicate. The primary key and `UNIQUE (name)` become the table invariant
  `TableConstraints`. `save` and `delete` are proved to keep it.
- **The question tool and its middleware** (`Questions`, `questions.dfy`).
  Inside `ask_human`, the model covers option numbering, the context map and
  resolution of the resume value into an answer. In `QuestionsMiddleware`, it
  covers tool injection (`modify_state`), the append-only question log
  (`process_response`) and the trajectory counters. It also covers
  `add_questions_support`.

`common.dfy` holds `Option`, `Result` and `Value`, the value of one entry in
a dictionary built by `to_dict`.

Inputs that the source draws from the environment are parameters here:
- the generated bookmark id (`uuid4`) and timestamp (`datetime.now`);
- the question ids (`newId`, indexed by position in the question log);
- the value the graph interrupt returns (`Payload`).

Source behaviour the model keeps, as the code does it:
- A bookmark save that clashes on the generated **id** also raises the
  name-conflict `ValueError`. The driver error caught is any unique violation,
  not only the one on `name` (bookmarks.py:137-138).
- `list("")` returns **all** rows, like `list()`, because the filter is a
  truthiness test (bookmarks.py:192). It does not return an empty sequence.
- `get` gives a name match no precedence over an id match, although the
  comment at bookmarks.py:158 says it does. The query is one `OR` with `LIMIT 1`.
- Plain-string blocks in a content list contribute text, as well as
  `type == "text"` dictionaries (checkpoint_utils.py:63-64).

## Model

| member | source | states |
|---|---|---|
| `CheckpointUtils.TextParts` | libs/deepagents/deepagents/storage/checkpoint_utils.py:59-64 | at most one part per block; every part when every block contributes (a `type == "text"` dict or a plain string), and none when no block does |
| `CheckpointUtils.JoinWithSpace` | libs/deepagents/deepagents/storage/checkpoint_utils.py:65 | `" ".join`: no parts give `""`, one part gives that part, and otherwise the length is the parts' total length plus one separator between each pair |
| `CheckpointUtils.JoinSnoc` | libs/deepagents/deepagents/storage/checkpoint_utils.py:65 | appending a part to a non-empty list appends one space and that part to the join |
| `CheckpointUtils.JoinWithSpaceAppend` | libs/deepagents/deepagents/storage/checkpoint_utils.py:65 | the join of two non-empty lists is the first list's join, one space, then the second's: with the one-part case this fixes `" ".join` exactly, parts in order |
| `CheckpointUtils.TextPartsAppend` | libs/deepagents/deepagents/storage/checkpoint_utils.py:57-65 | the text parts of a concatenated block list are the parts of each half, in order |
| `CheckpointUtils.TextPartsMembers` | libs/deepagents/deepagents/storage/checkpoint_utils.py:57-65 | a string is a text part iff some block yields it: a `type == "text"` dict (missing `text` gives `""`) or a plain string; other blocks yield nothing |
| `CheckpointUtils.JoinTextBlocks` | libs/deepagents/deepagents/storage/checkpoint_utils.py:57-65 | the block loop appends exactly the text parts, in block order, and joins them with single spaces |
| `CheckpointUtils.Flatten` | libs/deepagents/deepagents/storage/checkpoint_utils.py:53-68 | a missing content reads as `""`; a string passes unchanged; a block list with no text parts gives `""`, one part gives that part, several give their total length plus one space between each pair |
| `CheckpointUtils.SlicePrefix` | libs/deepagents/deepagents/storage/checkpoint_utils.py:72 | Python `s[:k]`: a prefix of `s` whose length is `k` clamped to `[0, len]`, counting from the end when `k < 0` |
| `CheckpointUtils.Truncate` | libs/deepagents/deepagents/storage/checkpoint_utils.py:70-72 | a text of length ≤ `max_length` is unchanged; a longer one ends in `"..."` after a prefix of the original; for `max_length >= 3` it has length exactly `max_length` and keeps the first `max_length-3` characters |
| `CheckpointUtils.Processed` | libs/deepagents/deepagents/storage/checkpoint_utils.py:53-72 | a message whose flattened text fits is taken whole; for `max_length >= 3` the text is never longer than `max_length`, and exactly `max_length` when it was cut |
| `CheckpointUtils.MessageText` | libs/deepagents/deepagents/storage/checkpoint_utils.py:53-72 | the per-message steps of the loop (list flattening, `str()` fallback, truncation) compute `Processed`, at most `max_length` long for `max_length >= 3` |
| `CheckpointUtils.Step` | libs/deepagents/deepagents/storage/checkpoint_utils.py:74-77 | a filled slot is never overwritten; only a slot of the message's own type can change, it changes only from empty, and then to that message's processed text; the other slot is untouched |
| `CheckpointUtils.ScanBack` | libs/deepagents/deepagents/storage/checkpoint_utils.py:52-77 | the scan without the `break`: a slot already filled at the start is the slot at the end |
| `CheckpointUtils.FullSlotsAreFixed` | libs/deepagents/deepagents/storage/checkpoint_utils.py:79-81 | once both slots are filled, scanning further messages changes nothing, so the early `break` gives the full scan's result |
| `CheckpointUtils.ScanBackFindsNewest` | libs/deepagents/deepagents/storage/checkpoint_utils.py:52-77 | the newest-first scan fills each empty slot with the processed text of the newest message of that type, and leaves a filled slot alone |
| `CheckpointUtils.LastOfNoneIff` | libs/deepagents/deepagents/storage/checkpoint_utils.py:49-77 | a slot is `None` iff no message of its type exists (an empty text still fills it) |
| `CheckpointUtils.LastOfIsNewest` | libs/deepagents/deepagents/storage/checkpoint_utils.py:52-77 | a filled slot holds the processed text of a message of that type with no later message of that type |
| `CheckpointUtils.OtherTypesIgnored` | libs/deepagents/deepagents/storage/checkpoint_utils.py:74-77 | inserting a message of another type anywhere in the list never changes a slot |
| `CheckpointUtils.ExtractLastMessages` | libs/deepagents/deepagents/storage/checkpoint_utils.py:37-83 | `max_length` defaults to 100; the loop with early exit returns the full reverse scan's slots, i.e. the processed newest `human` and newest `ai` texts |
| `CheckpointUtils.ShouldIncludeCheckpoint` | libs/deepagents/deepagents/storage/checkpoint_utils.py:86-101 | true iff `source` is present and is `"input"`, `"loop"` or `"fork"`; a missing `source` gives false |
| `CheckpointUtils.CheckpointSummary.ToDict` | libs/deepagents/deepagents/storage/checkpoint_utils.py:24-34 | the dictionary has exactly the seven field keys |
| `CheckpointUtils.SummaryDictRoundTrip` | libs/deepagents/deepagents/storage/checkpoint_utils.py:24-34 | reading the dictionary back gives the same summary, so no field is lost |
| `CheckpointUtils.ExampleBothSlots` | libs/deepagents/deepagents/storage/checkpoint_utils.py:37-83 | a human "hi" followed by an AI "hello there" with limit 100 gives `("hi", "hello there")` |
| `CheckpointUtils.ExampleFlattenBlocks` | libs/deepagents/deepagents/storage/checkpoint_utils.py:57-65 | blocks text "a", tool_use, text "b" flatten to `"a b"` |
| `Bookmarks.Bookmark.ToDict` | libs/deepagents/deepagents/storage/bookmarks.py:26-35 | the dictionary has exactly the six column keys, with `name` null iff the bookmark has no name |
| `Bookmarks.BookmarkDictRoundTrip` | libs/deepagents/deepagents/storage/bookmarks.py:26-35 | reading the dictionary back gives the same bookmark |
| `Bookmarks.FromRow` | libs/deepagents/deepagents/storage/bookmarks.py:174-181 | the bookmark built from a result row projects back to that row |
| `Bookmarks.Matches` | libs/deepagents/deepagents/storage/bookmarks.py:162 | a row with a null name matches only by id; when the id differs, only the name can match |
| `Bookmarks.Selects` | libs/deepagents/deepagents/storage/bookmarks.py:192-206 | a missing or empty thread filter keeps every row; a non-empty one keeps exactly the rows of that thread |
| `Bookmarks.Conflicts` | libs/deepagents/deepagents/storage/bookmarks.py:72-79 | an insert into an empty table never clashes; a nameless row clashes only on its id (`UNIQUE (name)` ignores nulls) |
| `Bookmarks.FirstMatch` | libs/deepagents/deepagents/storage/bookmarks.py:159-164 | returns a stored row whose name or id equals the identifier; `None` iff no row matches |
| `Bookmarks.Select` | libs/deepagents/deepagents/storage/bookmarks.py:192-206 | keeps exactly the rows with the given thread when the argument is truthy, and all rows otherwise |
| `Bookmarks.Remove` | libs/deepagents/deepagents/storage/bookmarks.py:237-240 | keeps exactly the rows that match neither by name nor by id |
| `Bookmarks.InsertNewestFirst` | libs/deepagents/deepagents/storage/bookmarks.py:197-204 | inserting into a newest-first list keeps it newest first and adds exactly that row |
| `Bookmarks.SortNewestFirst` | libs/deepagents/deepagents/storage/bookmarks.py:197-204 | the result is ordered by `created_at` descending and is a permutation of the input |
| `Bookmarks.AppendKeepsConstraints` | libs/deepagents/deepagents/storage/bookmarks.py:72-79 | inserting a row whose id and name clash with no row keeps ids unique and non-null names unique |
| `Bookmarks.RemoveKeepsConstraints` | libs/deepagents/deepagents/storage/bookmarks.py:237-240 | deleting rows keeps both unique constraints |
| `Bookmarks.RemoveIdempotent` | libs/deepagents/deepagents/storage/bookmarks.py:237-248 | after a delete no row matches the identifier, and a second delete leaves the rows unchanged |
| `Bookmarks.RemoveShrinksIffMatch` | libs/deepagents/deepagents/storage/bookmarks.py:242-248 | the delete removes at least one row iff some row matches, so `rowcount > 0` is exactly "a match existed" |
| `Bookmarks.SaveThenGetByName` | libs/deepagents/deepagents/storage/bookmarks.py:158-164 | after a successful save under name `n`, the lookup of `n` returns that bookmark when no id equals `n` |
| `Bookmarks.SecondSaveConflicts` | libs/deepagents/deepagents/storage/bookmarks.py:120-138 | once a name is stored, every later save with that name hits the unique constraint |
| `Bookmarks.GetNoNamePrecedence` | libs/deepagents/deepagents/storage/bookmarks.py:158-164 | an id match may be returned ahead of a name match: names get no precedence |
| `Bookmarks.ListedRows` | libs/deepagents/deepagents/storage/bookmarks.py:192-204 | the sorted selection holds exactly the stored rows that the thread filter keeps |
| `Bookmarks.BookmarksFromRows` | libs/deepagents/deepagents/storage/bookmarks.py:214-224 | one bookmark per result row, in row order, each projecting back to its row |
| `Bookmarks.Table.Empty` | libs/deepagents/deepagents/storage/bookmarks.py:72-80 | a database in which the table does not exist yet: not created, no rows, constraints hold |
| `Bookmarks.BookmarkManager.constructor` | libs/deepagents/deepagents/storage/bookmarks.py:61-67 | the manager records the connection URI and the table it names |
| `Bookmarks.BookmarkManager.Initialize` | libs/deepagents/deepagents/storage/bookmarks.py:69-89 | afterwards the table exists with its rows unchanged; on an existing table nothing changes |
| `Bookmarks.BookmarkManager.Save` | libs/deepagents/deepagents/storage/bookmarks.py:91-147 | `name` and `description` default to none; without a clash, exactly one row with the given fields is appended and returned; a clash on the name or the generated id raises the conflict and leaves the table unchanged; the constraints hold afterwards |
| `Bookmarks.BookmarkManager.Get` | libs/deepagents/deepagents/storage/bookmarks.py:149-181 | returns a stored row matching by name or id, or `None` iff none matches |
| `Bookmarks.BookmarkManager.List` | libs/deepagents/deepagents/storage/bookmarks.py:183-226 | the thread filter defaults to none; returns exactly the selected rows (all rows for a falsy thread), newest first, without changing the table |
| `Bookmarks.BookmarkManager.Delete` | libs/deepagents/deepagents/storage/bookmarks.py:228-248 | removes every matching row, keeps all others in order, and returns true iff some row matched; the constraints hold afterwards |
| `Questions.ParsePriority` | libs/deepagents/deepagents/middleware/questions.py:20-26 | a parsed priority has exactly the given string as its value; parsing fails iff the string is none of `blocking`, `high`, `medium`, `nice_to_have` |
| `Questions.ParsePriorityInverse` | libs/deepagents/deepagents/middleware/questions.py:20-26 | `QuestionPriority(s)` accepts exactly the four member values and maps each back to its member |
| `Questions.NatToString` | libs/deepagents/deepagents/middleware/questions.py:144 | `str(i)` is a non-empty string of decimal digits, one digit iff `i < 10`, starting with `0` iff `i == 0` |
| `Questions.ParseNatToString` | libs/deepagents/deepagents/middleware/questions.py:144 | reading `str(i)` back as a decimal gives `i` |
| `Questions.NatToStringInjective` | libs/deepagents/deepagents/middleware/questions.py:144 | different indices render to different strings |
| `Questions.LeadingDigitPositive` | libs/deepagents/deepagents/middleware/questions.py:144 | a digit string whose first digit is not zero has a value of at least one |
| `Questions.NatToStringCanonical` | libs/deepagents/deepagents/middleware/questions.py:144 | every digit string without a leading zero is the rendering of its own value, so `NatToString` is exactly `str` |
| `Questions.BuildOptions` | libs/deepagents/deepagents/middleware/questions.py:141-146 | options exist iff the list is present and non-empty; option `i` has label `options[i]`, the id `str(i)` (which reads back as `i`), and no description |
| `Questions.BuildOptionsDistinctIds` | libs/deepagents/deepagents/middleware/questions.py:141-146 | no two options of one question share an id |
| `Questions.ContextFor` | libs/deepagents/deepagents/middleware/questions.py:154 | the context is `{"file": f}` when the file is truthy and `{}` otherwise |
| `Questions.BuildQuestion` | libs/deepagents/deepagents/middleware/questions.py:148-156 | the question carries the given id, text, priority and subject, the built options and the context |
| `Questions.LookupAnswer` | libs/deepagents/deepagents/middleware/questions.py:167-169 | a found answer is an entry under that key; nothing is found iff no entry has that key |
| `Questions.LookupFindsEntry` | libs/deepagents/deepagents/middleware/questions.py:167-169 | in a dictionary, the lookup of a key returns the value stored under it |
| `Questions.ResolveAnswer` | libs/deepagents/deepagents/middleware/questions.py:165-178 | a dict payload gives the answer keyed by the question id, else its first answer, else its string form; a string is returned verbatim; anything else gives its string form |
| `Questions.ResolveOwnAnswer` | libs/deepagents/deepagents/middleware/questions.py:166-169 | with well-formed answers holding `(id, v)`, the answer returned is `v` |
| `Questions.AskHuman` | libs/deepagents/deepagents/middleware/questions.py:104-178 | `priority` defaults to `medium` and `options`, `context_file`, `subject` to none; the interrupt request has type `ask_human` and holds exactly the one built question; the answer is the resume value resolved against that question's id |
| `Questions.ToolNames` | libs/deepagents/deepagents/middleware/questions.py:206 | every named tool contributes its name, and every name comes from a tool with that name |
| `Questions.WithAskHuman` | libs/deepagents/deepagents/middleware/questions.py:204-211 | afterwards `ask_human` is among the tool names; existing tools keep their order; the list grows by one iff `ask_human` was absent |
| `Questions.WithAskHumanIdempotent` | libs/deepagents/deepagents/middleware/questions.py:204-211 | injecting twice equals injecting once |
| `Questions.PriorityArg` | libs/deepagents/deepagents/middleware/questions.py:227 | a missing priority reads as `medium`; an explicit `null` or a non-string is rejected; a string is parsed by `QuestionPriority` |
| `Questions.TextArg` | libs/deepagents/deepagents/middleware/questions.py:226 | a missing question reads as `""`; a string is kept; `null` or a non-string fails the `str` field |
| `Questions.SubjectArg` | libs/deepagents/deepagents/middleware/questions.py:229 | a missing or `null` subject is none; a string is kept; any other value fails validation |
| `Questions.ConfidenceAccepted` | libs/deepagents/deepagents/middleware/questions.py:46-51 | a missing confidence is accepted (default 0.5); a float is accepted iff it lies in [0, 1]; a value that is not a float is rejected |
| `Questions.QuestionFromArgs` | libs/deepagents/deepagents/middleware/questions.py:225-230 | a rejected priority raises the enum `ValueError` first; otherwise the question is built iff text, subject and confidence validate, and else the validation error is raised; the build succeeds exactly for well-formed arguments (`WellFormedArgs`), whatever the id; a built question has the generated id, the validated fields, no options and an empty context |
| `Questions.NullPriorityIsNotMissing` | libs/deepagents/deepagents/middleware/questions.py:227 | a missing priority gives a `medium` question, while an explicit `null` priority raises |
| `Questions.LogCalls` | libs/deepagents/deepagents/middleware/questions.py:221-231 | processing calls adds at most one question per call; no calls leave the log as it was |
| `Questions.AskCalls` | libs/deepagents/deepagents/middleware/questions.py:222-223 | the `ask_human` calls are exactly the calls named `ask_human`, and there are no more of them than calls |
| `Questions.AskCallsAppend` | libs/deepagents/deepagents/middleware/questions.py:222-223 | the `ask_human` calls of a concatenation are those of each part, in order |
| `Questions.LogAcceptsIff` | libs/deepagents/deepagents/middleware/questions.py:221-231 | no call raises exactly when every `ask_human` call has well-formed arguments |
| `Questions.FirstRejection` | libs/deepagents/deepagents/middleware/questions.py:221-231 | when a call raises, it is the first `ask_human` call with arguments that are not well formed; its error (the priority `ValueError`, else the validation error) is the one raised, and the log holds exactly what the calls before it logged |
| `Questions.RejectionIsFinal` | libs/deepagents/deepagents/middleware/questions.py:221-231 | once an `ask_human` call raises, later calls log nothing |
| `Questions.LogAppendOnly` | libs/deepagents/deepagents/middleware/questions.py:221-231 | the questions already logged stay in place; the log only grows |
| `Questions.LogMatchesAskCalls` | libs/deepagents/deepagents/middleware/questions.py:221-231 | when no call raises, one question is logged per `ask_human` call, in call order, with that call's validated text, priority and subject (defaults `""`, `"medium"` and none) |
| `Questions.OtherCallsIgnored` | libs/deepagents/deepagents/middleware/questions.py:221-223 | a call to another tool, wherever it stands, does not change the log |
| `Questions.CountBlocking` | libs/deepagents/deepagents/middleware/questions.py:241-244 | the blocking count never exceeds the number of questions |
| `Questions.CountBlockingAppend` | libs/deepagents/deepagents/middleware/questions.py:241-244 | the blocking count of a concatenated log is the sum of the parts' counts |
| `Questions.CountBlockingExtremes` | libs/deepagents/deepagents/middleware/questions.py:241-244 | the count equals the total iff every question is blocking, and is zero iff none is |
| `Questions.QuestionsMiddleware.constructor` | libs/deepagents/deepagents/middleware/questions.py:193-194 | a new middleware has no questions and no answers |
| `Questions.QuestionsMiddleware.ModifyState` | libs/deepagents/deepagents/middleware/questions.py:196-211 | the same state object comes back, its tools replaced by the injected list (a missing `tools` key reads as an empty list) |
| `Questions.QuestionsMiddleware.ProcessResponse` | libs/deepagents/deepagents/middleware/questions.py:213-233 | the log becomes the old log followed by the logged calls; the response is returned unchanged exactly when every `ask_human` call has well-formed arguments, and then the log grew by one question per `ask_human` call; otherwise the failing call's priority `ValueError` or validation error is raised after the earlier questions were logged; answers are untouched |
| `Questions.QuestionsMiddleware.GetTrajectoryData` | libs/deepagents/deepagents/middleware/questions.py:235-245 | `total_questions` is the log length; `blocking_questions` is the blocking count, at most the total, and zero iff no question is blocking |
| `Questions.AddQuestionsSupport` | libs/deepagents/deepagents/middleware/questions.py:249-261 | the stack is one longer: a fresh, empty questions middleware at the head, then the original stack in order |

## Left out

- `agent_server.py` and the package `__init__.py` files. They are configuration glue and re-exports.
- The PostgreSQL connection, `async`/`await`, `commit` and connection failures. Concurrent saves racing on the unique constraint are also out. The model is one sequential table, and connection errors (StorageUnavailable) are not represented.
- The two indexes created by `initialize`. They only affect performance; `Initialize` models only the table's existence.
- The `VARCHAR` length limits of the columns.
- `uuid4()` and `datetime.now()`: their values are parameters. The model assumes nothing about them: an id clash is handled like the source handles it.
- `isoformat()` in both `to_dict` methods: a timestamp is carried as `Time(t)`.
- Python's `str()` of arbitrary objects: the rendering is carried in the datatype (`OtherContent.rendered`, `Payload.rendered`).
- Lengths: Python's `len` counts code points, and the model counts Dafny characters.
- A text block whose `text` is not a string makes `" ".join` raise `TypeError`; block texts are strings in the model.
- A message `type` that is not a string is given as a string that is neither `human` nor `ai`: the source compares it, finds no match and ignores the message.
- Answer values are strings in the model. The source returns a non-string answer value unchanged.
- An `answers` entry that is not a dictionary: an empty list or string falls through to `str(response)` like an empty dictionary and is given as one; a non-empty one, or one that is not a container, makes the source raise (`TypeError` or `AttributeError`) and is not represented.
- The `confidence` value is not stored in the modelled `Question`; `process_response` checks it (`ConfidenceAccepted`) and `ask_human` receives one the tool schema has already validated, as it does the priority.
- `Questions.QuestionsMiddleware.ProcessResponse`: a pydantic `ValidationError` is the single error `InvalidQuestion`, without pydantic's details. A confidence is given already read as a float, so pydantic's lax coercions (a numeric string, a boolean) are inputs given as `Confidence(x)`. A tool call whose `args` key holds `null` makes the source raise `AttributeError`; it is not represented (a missing `args` key reads as `{}`).
- `model_dump()`: the trajectory data carries the questions as values.
- The LangGraph `interrupt`, the `@tool` decorator, `AgentState` beyond its `tools` key, and the unused `runtime` arguments.
- `Bookmarks.BookmarkManager.Get`: when several rows match, the model returns the first in storage order. The contract promises only some matching row, as `LIMIT 1` without `ORDER BY` does.
- `Bookmarks.BookmarkManager.List`: rows with equal `created_at` come back in the sort's order. The contract promises only newest-first order and the same rows, as the SQL does.
