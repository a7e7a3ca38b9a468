/** The task model and the create route of `app/api/tasks/route.ts`: the `Task` hierarchy with
    its JSON form, the file-backed `TaskDatabaseService` (the file itself is an abstract value),
    and the validation and construction that `POST` performs. */
module TasksRoute {
  import opened Wrappers
  import opened Seqs
  import opened Text
  import opened TaskCommon

  /** Which subclass of `Task` an object belongs to. */
  datatype Kind = Simple | Complex

  /** POST's choice of subclass: `type === "simple"` gives a `SimpleTask`, any other type a
      `ComplexTask`. */
  function KindOf(typ: string): (k: Kind)
    ensures k.Simple? <==> typ == "simple"
  {
    if typ == "simple" then Simple else Complex
  }

  /** The `type` string of each subclass: `"simple"` or `"complex"`, and POST's rule maps it back
      to the same subclass. */
  function KindName(k: Kind): (name: string)
    ensures name == "simple" || name == "complex"
    ensures KindOf(name) == k
  {
    match k
    case Simple => "simple"
    case Complex => "complex"
  }

  /** A task record as `toJSON` emits it and as the tasks file stores it. `kind` is the `type`
      field; `subtaskIds` is present on complex tasks only. Records read back from the file carry
      whatever `status` string the file holds. */
  datatype TaskJson = TaskJson(id: string, title: string, description: string, status: string,
                               createdAt: string, kind: string, subtaskIds: Option<seq<string>>)

  /** `task.status` */
  function StatusField(j: TaskJson): string
  {
    j.status
  }

  /** `id => id !== x` */
  function Differs(x: string): string -> bool
  {
    (y: string) => y != x
  }

  /** The sub-task list after `addSubtask(x)`: `x` is in it, nothing else is added, nothing is
      reordered, nothing changes when `x` was already there, and no duplicate appears. */
  function WithSubtask(ids: seq<string>, x: string): (r: seq<string>)
    ensures x in r
    ensures forall y :: y in r <==> y in ids || y == x
    ensures |ids| <= |r| <= |ids| + 1 && r[..|ids|] == ids
    ensures x in ids ==> r == ids
    ensures NoDuplicates(ids) ==> NoDuplicates(r)
  {
    if x in ids then ids else ids + [x]
  }

  /** The sub-task list after `removeSubtask(x)`: every occurrence of `x` is gone, every other id
      stays, in its original order, and no duplicate appears. */
  function WithoutSubtask(ids: seq<string>, x: string): (r: seq<string>)
    ensures x !in r
    ensures forall y :: y in r <==> y in ids && y != x
    ensures forall y :: multiset(r)[y] == if y != x then multiset(ids)[y] else 0
    ensures IsSubsequence(r, ids)
    ensures NoDuplicates(ids) ==> NoDuplicates(r)
  {
    FilterIsSubsequence(ids, Differs(x));
    FilterNoDuplicates(ids, Differs(x));
    FilterMultiplicity(ids, Differs(x));
    Filter(ids, Differs(x))
  }

  /** A `SimpleTask` or a `ComplexTask`: the fields of the abstract `Task` and, for a complex
      task, its list of sub-task ids. */
  class Task {
    var description: string
    var title: string
    var taskId: string
    var createdDate: string
    var status: Status
    const kind: Kind
    var subtaskIds: seq<string>

    /** A simple task has no sub-tasks; the sub-task list of a complex task is duplicate-free. */
    ghost predicate Valid()
      reads this`subtaskIds
    {
      (kind == Simple ==> subtaskIds == []) && NoDuplicates(subtaskIds)
    }

    /** `new SimpleTask(title, description)` / `new ComplexTask(title, description)` with the id
        and creation time supplied: a new task is pending and has no sub-tasks. */
    constructor (kind: Kind, title: string, description: string, id: string, createdDate: string)
      ensures Valid()
      ensures this.kind == kind && this.title == title && this.description == description
      ensures taskId == id && this.createdDate == createdDate
      ensures status == Pending && subtaskIds == []
    {
      this.kind := kind;
      this.title := title;
      this.description := description;
      this.taskId := id;
      this.createdDate := createdDate;
      this.status := Pending;
      this.subtaskIds := [];
    }

    method SetDescription(value: string)
      modifies this`description
      ensures description == value
    {
      description := value;
    }

    method SetTitle(value: string)
      modifies this`title
      ensures title == value
    {
      title := value;
    }

    method SetTaskId(value: string)
      modifies this`taskId
      ensures taskId == value
    {
      taskId := value;
    }

    method SetStatus(value: Status)
      modifies this`status
      ensures status == value
    {
      status := value;
    }

    /** The `subtaskIds` getter of a complex task: a copy of the list; the task is unchanged. */
    method SubtaskIds() returns (ids: seq<string>)
      requires kind == Complex
      ensures ids == subtaskIds
    {
      ids := subtaskIds;
    }

    /** `addSubtask`: appends the id unless the list already holds it. */
    method AddSubtask(id: string)
      requires kind == Complex
      modifies this`subtaskIds
      ensures old(Valid()) ==> Valid()
      ensures subtaskIds == WithSubtask(old(subtaskIds), id)
    {
      if id !in subtaskIds {
        subtaskIds := subtaskIds + [id];
      }
    }

    /** `removeSubtask`: keeps the ids that differ from `id`. */
    method RemoveSubtask(id: string)
      requires kind == Complex
      modifies this`subtaskIds
      ensures old(Valid()) ==> Valid()
      ensures subtaskIds == WithoutSubtask(old(subtaskIds), id)
    {
      subtaskIds := WithoutSubtask(subtaskIds, id);
    }

    /** `getType()`: `"simple"` or `"complex"`, and POST's rule maps it back to the same subclass. */
    function GetType(): (name: string)
      ensures name == "simple" || name == "complex"
      ensures KindOf(name) == kind
    {
      KindName(kind)
    }

    /** `toJSON()`: the record `{ id, title, description, status, createdAt, type }`, plus
        `subtaskIds` for a complex task. Its `type` and `status` strings determine the subclass
        and the status of the task. */
    function ToJSON(): (j: TaskJson)
      reads this
      ensures j.id == taskId && j.title == title && j.description == description
      ensures j.createdAt == createdDate
      ensures j.status == "pending" <==> status == Pending
      ensures j.status == "completed" <==> status == Completed
      ensures j.kind == (if kind == Simple then "simple" else "complex")
      ensures KindOf(j.kind) == kind
      ensures j.subtaskIds.Some? <==> kind == Complex
      ensures kind == Complex ==> j.subtaskIds == Some(subtaskIds)
    {
      TaskJson(taskId, title, description, StatusName(status), createdDate, GetType(),
               if kind == Complex then Some(subtaskIds) else None)
    }
  }

  /** What reading `data/tasks.json` gives: no file (or a failed read), text that is not JSON,
      or a parsed document whose `tasks` field may be missing. */
  datatype FileContent = Unreadable | Unparseable | Parsed(tasks: Option<seq<TaskJson>>)

  /** `readTasks()`: the document's `tasks` list, and the empty list when the file cannot be read
      or parsed or the document has no `tasks`. */
  function ReadTasks(file: FileContent): (r: seq<TaskJson>)
    ensures file.Parsed? && file.tasks.Some? ==> r == file.tasks.value
    ensures file.Unreadable? || file.Unparseable? || file == Parsed(None) ==> r == []
  {
    match file
    case Parsed(Some(tasks)) => tasks
    case _ => []
  }

  /** `writeTasks(tasks)`: the whole file becomes `{ tasks }`; reading it back gives the list. */
  function WriteTasks(tasks: seq<TaskJson>): (file: FileContent)
    ensures ReadTasks(file) == tasks
  {
    Parsed(Some(tasks))
  }

  /** The file-backed service of the route: the file is its state. */
  class TaskDatabaseService {
    var file: FileContent

    constructor (file: FileContent)
      ensures this.file == file
    {
      this.file := file;
    }

    /** `addTask`: reads the list, appends the task's JSON and rewrites the file. A failed write
        (`writeSucceeds` false) leaves the file as it was and is reported. */
    method AddTask(task: Task, writeSucceeds: bool) returns (ok: bool)
      modifies this
      ensures ok == writeSucceeds
      ensures ok ==> file == WriteTasks(ReadTasks(old(file)) + [task.ToJSON()])
      ensures !ok ==> file == old(file)
    {
      var tasks := ReadTasks(file);
      tasks := tasks + [task.ToJSON()];
      if writeSucceeds {
        file := WriteTasks(tasks);
      }
      ok := writeSucceeds;
    }

    /** `getStats`: the counts over the records the file holds. */
    function GetStats(): (r: Stats)
      reads this
      ensures r.total == |ReadTasks(file)|
      ensures r.pending + r.completed <= r.total
      ensures r == CountByStatus(ReadTasks(file), StatusField)
    {
      CountByStatus(ReadTasks(file), StatusField)
    }
  }

  /** The fields of the request body POST reads; `None` for a field the body leaves out. */
  datatype PostBody = PostBody(title: Option<string>, description: Option<string>, typ: Option<string>)

  /** What POST constructs from a valid body: the subclass and the trimmed fields. */
  datatype Draft = Draft(kind: Kind, title: string, description: string)

  /** POST's validation: a missing or blank title is rejected; otherwise the title and the
      description are trimmed (a missing description becomes `""`) and the subclass is simple
      exactly when `type` is `"simple"`, which is also its default. */
  function Validate(body: PostBody): (r: Option<Draft>)
    ensures r.None? <==> body.title.None? || IsBlank(body.title.value)
    ensures r.Some? ==> r.value.title == Trim(body.title.value) && r.value.title != ""
    ensures r.Some? ==> r.value.description == TrimmedOrEmpty(body.description)
    ensures r.Some? ==> (r.value.kind == Simple <==> body.typ.None? || body.typ == Some("simple"))
  {
    if body.title.None? then None
    else
      // `!title` for the empty title is subsumed: the empty string trims to itself.
      var title := Trim(body.title.value);
      if title == "" then None
      else Some(Draft(KindOf(OrElse(body.typ, "simple")), title, TrimmedOrEmpty(body.description)))
  }

  /** `description?.trim() || ""`: the trimmed description, `""` when there is none. */
  function TrimmedOrEmpty(description: Option<string>): (r: string)
    ensures description.None? ==> r == ""
    ensures description.Some? ==> r == Trim(description.value)
  {
    if description.Some? then Trim(description.value) else ""
  }

  /** The JSON of the task POST constructs from `d`, with the generated id and timestamp. */
  function NewRecord(d: Draft, id: string, createdAt: string): (j: TaskJson)
    ensures j.id == id && j.createdAt == createdAt
    ensures j.title == d.title && j.description == d.description
    ensures j.status == "pending"
    ensures j.kind == (if d.kind == Simple then "simple" else "complex")
    ensures KindOf(j.kind) == d.kind
    ensures j.subtaskIds == if d.kind == Complex then Some([]) else None
  {
    TaskJson(id, d.title, d.description, "pending", createdAt,
             KindName(d.kind),
             if d.kind == Complex then Some([]) else None)
  }

  /** The outcome of a request: `201` with the created record, `400`, or `500`. */
  datatype Response = Created(task: TaskJson) | BadRequest | ServerError

  function StatusCode(r: Response): (code: int)
    ensures code == 201 <==> r.Created?
    ensures code == 400 <==> r.BadRequest?
    ensures code == 500 <==> r.ServerError?
  {
    match r
    case Created(_) => 201
    case BadRequest => 400
    case ServerError => 500
  }

  /** `POST /api/tasks`. `id` and `now` stand for `Date.now()` and `new Date()`, `writeSucceeds`
      for the outcome of writing the file. A rejected body answers 400 and stores nothing; a
      failed write answers 500; otherwise the new record is appended to the file and returned
      with 201. */
  method Post(db: TaskDatabaseService, body: PostBody, id: string, now: string, writeSucceeds: bool)
    returns (response: Response)
    modifies db
    ensures Validate(body).None? ==> response == BadRequest && db.file == old(db.file)
    ensures Validate(body).Some? && !writeSucceeds ==> response == ServerError && db.file == old(db.file)
    ensures Validate(body).Some? && writeSucceeds ==>
              response == Created(NewRecord(Validate(body).value, id, now))
              && db.file == WriteTasks(ReadTasks(old(db.file)) + [response.task])
  {
    var draft := Validate(body);
    if draft.None? {
      return BadRequest;
    }
    var task := new Task(draft.value.kind, draft.value.title, draft.value.description, id, now);
    var ok := db.AddTask(task, writeSucceeds);
    if !ok {
      return ServerError;
    }
    response := Created(task.ToJSON());
  }

  /** A record POST creates is pending, its title is non-empty with no surrounding whitespace,
      and its description has none either. */
  lemma CreatedRecord(body: PostBody, id: string, now: string)
    requires Validate(body).Some?
    ensures var j := NewRecord(Validate(body).value, id, now);
            && j.status == "pending"
            && j.title != "" && !IsWhitespace(j.title[0]) && !IsWhitespace(j.title[|j.title| - 1])
            && Trim(j.title) == j.title && Trim(j.description) == j.description
  {
    DraftTrimmed(body);
  }

  /** The fields of a valid draft are already trimmed, and its title has non-whitespace ends. */
  lemma DraftTrimmed(body: PostBody)
    requires Validate(body).Some?
    ensures var d := Validate(body).value;
            && d.title != "" && !IsWhitespace(d.title[0]) && !IsWhitespace(d.title[|d.title| - 1])
            && Trim(d.title) == d.title && Trim(d.description) == d.description
  {
    TrimIdempotent(body.title.value);
    if body.description.Some? {
      TrimIdempotent(body.description.value);
    } else {
      assert Trim("") == "";
    }
  }
}
