# Task tracker core in Dafny

This project models the task-storage core of a small Next.js task tracker. Task records carry
an id, title, description, a `pending`/`completed` status, a creation time, a `type`
("simple" or "complex") and, for complex tasks, a list of sub-task ids. The model covers:

- `lib/storage.ts`: the in-memory store `InMemoryStorage`, a list of records held as state,
  with lookup, append, merge-update, delete-by-id, status toggle and the
  `{ total, pending, completed }` counts. It is the class `Storage.InMemoryStorage` over a
  `seq<TaskData>`. Every method's postcondition ties the new list to a specification function
  of the old one (`Updated`, `Toggled`, `Removed`), and lemmas relate those functions to each
  other and to the counts.
- `app/api/tasks/route.ts`: the `Task` / `SimpleTask` / `ComplexTask` objects, their JSON
  form, the file-backed `TaskDatabaseService` (`readTasks`, `writeTasks`, `addTask`,
  `getStats`) and the validation and construction of `POST /api/tasks`. The two subclasses are
  one class `TasksRoute.Task` whose constant `kind` says which subclass it is. The tasks file is
  an abstract value (`FileContent`): missing or unreadable, not JSON, or a parsed document
  whose `tasks` field may be absent.
- `app/api/tasks/stats/route.ts`: the statistics route's `getStats`, where an unreadable file
  counts as no records. Its `readTasks` is textually the same as the tasks route's, so it is
  defined once (`TasksRoute.ReadTasks`) and shared.
- `app/page.tsx`: the client-side `filterTasks` and the theme toggle.

Supporting modules:

- `Wrappers`: `Option`.
- `Seqs`: `Array.prototype.filter`, with subsequence and duplicate-freedom notions.
- `Text`: ECMAScript `String.prototype.trim` over that language's whitespace and
  line-terminator code points.
- `TaskCommon`: the status, its flip and the counts shared by both backends.

The TypeScript field `type` is called `kind` in the model, because `type` is a Dafny keyword.
Ids and timestamps (`Date.now()`, `new Date()`) are parameters. The outcome of a file write is
a boolean parameter.

## Model

| member | source | states |
|---|---|---|
| Seqs.Filter | app/page.tsx:34 | the filtered list is no longer than the input; an element is in it exactly when it is in the input and passes the predicate |
| Seqs.FilterIsSubsequence | lib/storage.ts:62 | a filter keeps the relative order of what it keeps |
| Seqs.FilterKeepsAll | lib/storage.ts:62-63 | a filter returns its input exactly when every element passes, and is strictly shorter exactly when some element fails |
| Seqs.FilterIdempotent | app/api/tasks/route.ts:68 | filtering twice by the same predicate is filtering once |
| Seqs.FilterMultiplicity | app/page.tsx:34 | a filter keeps every occurrence of an element that passes, and no occurrence of one that fails |
| Seqs.FilterDropsOne | lib/storage.ts:62 | when only the element at one position fails, the filter is the list with exactly that element cut out |
| Seqs.FilterConcat | lib/storage.ts:77-78 | filtering distributes over concatenation |
| Seqs.FilterDisjointCounts | lib/storage.ts:77-78 | two filters by predicates no element meets together keep at most `\|s\|` elements, and exactly `\|s\|` when every element meets one |
| Seqs.FilterNoDuplicates | app/api/tasks/route.ts:68 | filtering a duplicate-free list leaves it duplicate-free |
| Text.Trim | app/api/tasks/route.ts:142 | the trimmed string is a contiguous slice whose cut-off prefix and suffix are all whitespace; a non-empty result starts and ends with non-whitespace; the result is empty exactly when the input is blank |
| Text.TrimIdempotent | app/api/tasks/route.ts:151 | trimming an already trimmed string changes nothing |
| TaskCommon.StatusName | lib/storage.ts:6 | a status is spelt `"pending"` exactly when it is pending and `"completed"` exactly when it is completed |
| TaskCommon.Flip | lib/storage.ts:70 | the flipped status differs from the original |
| TaskCommon.CountByStatus | lib/storage.ts:74-80 | the total is the number of records; pending plus completed never exceeds it, and equals it when every status is one of the two; no records count as zero |
| TaskCommon.CountByStatusConcat | lib/storage.ts:74-80 | the counts of a concatenation are the sums of the counts of its parts |
| TaskCommon.CountByStatusSingle | lib/storage.ts:74-80 | one record counts once in the total and once under its own status |
| TaskCommon.CountByStatusTally | app/api/tasks/route.ts:111-118 | the filter-based counts equal counting the records one by one (`Tally`) |
| Storage.Merge | lib/storage.ts:56 | every field the update supplies replaces the record's; every other field keeps its value |
| Storage.FirstIndex | lib/storage.ts:53 | the result is the first position whose record has the id, or none exactly when no record has it |
| Storage.Updated | lib/storage.ts:52-58 | only the first record with the id is replaced, by its merge with the update; length and every other record unchanged |
| Storage.Toggled | lib/storage.ts:66-72 | only the first record with the id changes, and only in its status, which flips |
| Storage.Removed | lib/storage.ts:60-64 | a record survives exactly when its id differs, with every occurrence kept; order is kept; the list is shorter exactly when some record had the id |
| Storage.InMemoryStorage.constructor | lib/storage.ts:13-38 | the store starts with the three sample records |
| Storage.InMemoryStorage.GetAllTasks | lib/storage.ts:40-42 | returns the stored records, store unchanged |
| Storage.InMemoryStorage.GetTask | lib/storage.ts:44-46 | nothing exactly when no record has the id; otherwise the first record with the id |
| Storage.InMemoryStorage.AddTask | lib/storage.ts:48-50 | the record is appended at the end |
| Storage.InMemoryStorage.UpdateTask | lib/storage.ts:52-58 | the new list is `Updated(old list)`; the result is nothing exactly when the id is absent, else the merged record |
| Storage.InMemoryStorage.DeleteTask | lib/storage.ts:60-64 | the new list is `Removed(old list)`; the result is true exactly when the list got shorter, which is exactly when some record had the id |
| Storage.InMemoryStorage.ToggleTaskStatus | lib/storage.ts:66-72 | the new list is `Toggled(old list)`; the result is nothing exactly when the id is absent, else the record with its status flipped |
| Storage.InMemoryStorage.GetStats | lib/storage.ts:74-80 | the total is the number of records and, the status being two-valued, pending plus completed is the total |
| Storage.FirstIndexSameIds | lib/storage.ts:67 | a lookup by id gives the same position in two lists whose ids agree position by position |
| Storage.ToggleTwice | lib/storage.ts:66-72 | toggling the same id twice restores the list |
| Storage.DeleteTwice | lib/storage.ts:60-64 | after a delete the id is absent, and a second delete removes nothing and reports false |
| Storage.AddThenGet | lib/storage.ts:44-50 | a record appended under a fresh id is what a lookup of that id finds |
| Storage.StatsAfterAdd | lib/storage.ts:48-50 | appending adds one to the total and one to the count of the record's status |
| Storage.StatsSplit | lib/storage.ts:74-80 | the counts of a list are those of the part before a position, the record there, and the part after |
| Storage.StatsAfterToggle | lib/storage.ts:66-72 | toggling a present record keeps the total and moves one count from its old status to the other |
| Storage.RemoveUnique | lib/storage.ts:60-64 | when exactly one record has the id, deleting it cuts that record out and keeps the rest in order |
| Storage.RemoveAbsent | lib/storage.ts:60-64 | deleting an id no record has changes nothing |
| Storage.StatsAfterDelete | lib/storage.ts:60-64 | deleting the one record with an id takes one off the total and one off its status's count |
| Storage.SampleStats | lib/storage.ts:13-38 | the sample records count three in all, two pending and one completed |
| TasksRoute.KindOf | app/api/tasks/route.ts:150-154 | the subclass is simple exactly when `type` is `"simple"` |
| TasksRoute.KindName | app/api/tasks/route.ts:44-46 | each subclass's type string is `"simple"` or `"complex"`, and POST's rule maps it back to the same subclass |
| TasksRoute.WithSubtask | app/api/tasks/route.ts:61-65 | the id ends up in the list; the old list is kept as a prefix and at most one id is appended; nothing changes when the id was there; no duplicate appears |
| TasksRoute.WithoutSubtask | app/api/tasks/route.ts:67-69 | the id is gone; every other id stays with every occurrence, in order; no duplicate appears |
| TasksRoute.Task.constructor | app/api/tasks/route.ts:36-42 | a new task has the given title, description, id and time, is pending, and has no sub-tasks |
| TasksRoute.Task.SetDescription | app/api/tasks/route.ts:14 | the description becomes the value |
| TasksRoute.Task.SetTitle | app/api/tasks/route.ts:16 | the title becomes the value |
| TasksRoute.Task.SetTaskId | app/api/tasks/route.ts:18 | the id becomes the value |
| TasksRoute.Task.SetStatus | app/api/tasks/route.ts:20 | the status becomes the value |
| TasksRoute.Task.SubtaskIds | app/api/tasks/route.ts:59 | a complex task's sub-task list, the task unchanged |
| TasksRoute.Task.AddSubtask | app/api/tasks/route.ts:61-65 | the new list is `WithSubtask(old list)`; a valid task stays valid |
| TasksRoute.Task.RemoveSubtask | app/api/tasks/route.ts:67-69 | the new list is `WithoutSubtask(old list)`; a valid task stays valid |
| TasksRoute.Task.GetType | app/api/tasks/route.ts:44-46 | the type is `"simple"` or `"complex"`, and reading it back gives the task's own subclass |
| TasksRoute.Task.ToJSON | app/api/tasks/route.ts:22-31 | the record carries the task's id, title, description and time; its type is `"simple"` for a simple and `"complex"` for a complex task, and reading it back gives the subclass; its status string determines the status; it has `subtaskIds` exactly for a complex task |
| TasksRoute.ReadTasks | app/api/tasks/route.ts:87-94 | the document's `tasks` list, and the empty list when the file is missing, not JSON, or has no `tasks` |
| TasksRoute.WriteTasks | app/api/tasks/route.ts:96-99 | reading the written file back gives exactly the written list |
| TasksRoute.TaskDatabaseService.AddTask | app/api/tasks/route.ts:105-109 | on a successful write the file holds the old records followed by the task's JSON; a failed write leaves the file and is reported |
| TasksRoute.TaskDatabaseService.GetStats | app/api/tasks/route.ts:111-118 | the total is the number of records in the file; pending plus completed never exceeds it |
| TasksRoute.Validate | app/api/tasks/route.ts:140-154 | rejected exactly when the title is missing or blank; otherwise the title is trimmed and non-empty, the description trimmed (empty when missing), and the subclass simple exactly when `type` is missing or `"simple"` |
| TasksRoute.TrimmedOrEmpty | app/api/tasks/route.ts:151 | the trimmed description, `""` when there is none |
| TasksRoute.NewRecord | app/api/tasks/route.ts:149-157 | the created record has the given id and time, the draft's title and description, status `"pending"`, type `"simple"` or `"complex"` as the draft's subclass, and an empty sub-task list exactly for a complex task |
| TasksRoute.StatusCode | app/api/tasks/route.ts:143-162 | 201 exactly for a created task, 400 exactly for a rejected body, 500 exactly for a failure |
| TasksRoute.Post | app/api/tasks/route.ts:137-164 | a rejected body answers 400 and stores nothing; a failed write answers 500 and stores nothing; otherwise the new record is appended to the file and returned with 201 |
| TasksRoute.DraftTrimmed | app/api/tasks/route.ts:140-154 | a valid draft has a non-empty title with non-whitespace ends, and trimming changes neither its title nor its description |
| TasksRoute.CreatedRecord | app/api/tasks/route.ts:140-157 | a created record is pending, its title is non-empty and starts and ends with non-whitespace, and title and description are already trimmed |
| StatsRoute.GetStats | app/api/tasks/stats/route.ts:18-25 | the total is the number of records read; pending plus completed never exceeds it, and equals it when every status is one of the two |
| StatsRoute.FailedReadCountsNothing | app/api/tasks/stats/route.ts:9-16 | a missing or unparseable file, or one without `tasks`, counts as zero, zero, zero |
| StatsRoute.CountsAfterPendingAppend | app/api/tasks/stats/route.ts:20-24 | appending a pending record adds one to the total and one to the pending count |
| StatsRoute.StatsAfterPost | app/api/tasks/route.ts:105-109 | a stored POST adds one to the total and one to the pending count, and leaves the completed count |
| StatsRoute.WellFormedFileCounts | app/api/tasks/stats/route.ts:20-24 | when every record's status is the name of a status, pending plus completed is the total |
| Page.FilterTasks | app/page.tsx:32-35 | `"all"` returns the list; any other filter keeps exactly the records with that status, every occurrence of each, in order |
| Page.ToggleTheme | app/page.tsx:49-50 | the next theme is `"dark"` or `"light"`; it differs from either of those two; anything but `"dark"` becomes `"dark"` |
| Page.ToggleThemeTwice | app/page.tsx:49-50 | from either theme, toggling twice returns to it |

## Left out

- I/O: reading and writing `data/tasks.json`, JSON parsing and serialisation. The file is the abstract value `FileContent`, and a write's outcome is a boolean parameter. A partially written file is not modelled.
- `Date.now()` and `new Date()`: the id and the creation time are parameters. `toISOString` is not modelled; the time is already a string.
- HTTP plumbing: `NextRequest`, `NextResponse` and the error bodies. Only the status code and the created record are modelled. A failing `request.json()` (500) is not modelled.
- The handler `GET /api/tasks` and `TaskDatabaseService.getAllTasks`: both return `readTasks()` unchanged, which `TasksRoute.ReadTasks` states. The stats route's GET handler returns `getStats()`, which `StatsRoute.GetStats` models; its 500 answer is not modelled.
- `Validate`: a `title` or `description` that is present but not a string (a number, `null`, an object) is not modelled. In TypeScript `!title` rejects falsy values, and calling `trim` on a non-string throws, answering 500. The body fields are modelled as optional strings.
- `Storage.Merge`: a key present in the update with the value `undefined` overwrites the field with `undefined` in TypeScript. The model treats it as absent.
- Aliasing: `toggleTaskStatus` and `updateTask` return, and `find` yields, the very object held in the store. `addTask` stores the caller's object. Later mutation through a shared reference is not modelled, because records are values.
- `Task` getters and setters are plain fields and setter methods. `_created_date` is stored as its ISO string.
- The constructors' default parameters (`title = ""`, `description = ""`) are not modelled, since POST always passes both.
- `ComplexTask.subtaskIds` returns a copy: `Task.SubtaskIds` returns the value, which is the same thing for an immutable `seq`.
- `lib/mongodb.ts`, `app/new/page.tsx`, `app/edit/` and the React rendering of `app/page.tsx` are not part of this model. Neither are `localStorage` and the document class name that the theme toggle writes.
- Concurrency between requests, and between the read and the write of `addTask`, is not modelled.
- The model keeps these behaviours of the code as written:
  - `deleteTask` of an absent id returns `false` rather than raising a not-found error.
  - `updateTask` does not validate the title.
  - `updateTask` lets an update change `id`, `createdAt` and `type`.
  - The store does not enforce id uniqueness: lookups take the first match, and delete removes every match.
  - Over the file-backed store, pending plus completed is at most the total, because records read back may carry any status string. It equals the total when every status is one of the two (`StatsRoute.WellFormedFileCounts`).
