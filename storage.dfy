/** The in-memory task store of `lib/storage.ts`: one list of task records held as state, with
    lookup, append, merge-update, delete-by-id, status toggle and counts. */
module Storage {
  import opened Wrappers
  import opened Seqs
  import opened TaskCommon

  /** One stored record (`TaskData`). `kind` holds the record's `type` string, `subtaskIds` the
      optional list of sub-task ids. */
  datatype TaskData = TaskData(id: string, title: string, description: string, status: Status,
                               createdAt: string, kind: string, subtaskIds: Option<seq<string>>)

  /** `Partial<TaskData>`: `Some` for every field an update supplies. */
  datatype TaskUpdate = TaskUpdate(id: Option<string>, title: Option<string>, description: Option<string>,
                                   status: Option<Status>, createdAt: Option<string>, kind: Option<string>,
                                   subtaskIds: Option<seq<string>>)

  /** The status of a record as JSON spells it. */
  function StatusOf(t: TaskData): string
  {
    StatusName(t.status)
  }

  /** `task => task.id !== id` */
  function OtherId(id: string): TaskData -> bool
  {
    (t: TaskData) => t.id != id
  }

  /** The three records the store starts with. */
  function SampleTasks(): seq<TaskData>
  {
    [ TaskData("1764418499159", "Sample Task 1", "This is a sample task to get you started",
               Completed, "2025-11-29T12:14:59.159Z", "simple", None),
      TaskData("1764418511456", "Sample Task 2", "Another sample task",
               Pending, "2025-11-29T12:15:11.456Z", "simple", None),
      TaskData("1764418525454", "Sample Task 3", "A third sample task",
               Pending, "2025-11-29T12:15:25.454Z", "simple", None) ]
  }

  /** `{ ...t, ...u }`: every field `u` supplies replaces that of `t`; every other field keeps its value. */
  function Merge(t: TaskData, u: TaskUpdate): (r: TaskData)
    ensures u.id.None? ==> r.id == t.id
    ensures u.id.Some? ==> r.id == u.id.value
    ensures u.title.None? ==> r.title == t.title
    ensures u.title.Some? ==> r.title == u.title.value
    ensures u.description.None? ==> r.description == t.description
    ensures u.description.Some? ==> r.description == u.description.value
    ensures u.status.None? ==> r.status == t.status
    ensures u.status.Some? ==> r.status == u.status.value
    ensures u.createdAt.None? ==> r.createdAt == t.createdAt
    ensures u.createdAt.Some? ==> r.createdAt == u.createdAt.value
    ensures u.kind.None? ==> r.kind == t.kind
    ensures u.kind.Some? ==> r.kind == u.kind.value
    ensures u.subtaskIds.None? ==> r.subtaskIds == t.subtaskIds
    ensures u.subtaskIds.Some? ==> r.subtaskIds == u.subtaskIds
  {
    TaskData(OrElse(u.id, t.id), OrElse(u.title, t.title), OrElse(u.description, t.description),
             OrElse(u.status, t.status), OrElse(u.createdAt, t.createdAt), OrElse(u.kind, t.kind),
             if u.subtaskIds.Some? then u.subtaskIds else t.subtaskIds)
  }

  /** `findIndex(task => task.id === id)`: the first position holding a record with that id, or
      `None` when there is none (the source's `-1`). */
  function FirstIndex(s: seq<TaskData>, id: string): (r: Option<nat>)
    ensures r.Some? ==> r.value < |s| && s[r.value].id == id
                        && forall j :: 0 <= j < r.value ==> s[j].id != id
    ensures r.None? <==> forall j :: 0 <= j < |s| ==> s[j].id != id
  {
    if s == [] then None
    else if s[0].id == id then Some(0)
    else
      match FirstIndex(s[1..], id)
      case Some(i) => assert s[i + 1] == s[1..][i]; Some(i + 1)
      case None => None
  }

  /** The list after `updateTask(id, u)`: only the first record with that id is merged with `u`. */
  function Updated(s: seq<TaskData>, id: string, u: TaskUpdate): (r: seq<TaskData>)
    ensures |r| == |s|
    ensures forall j :: 0 <= j < |s| && FirstIndex(s, id) != Some(j) ==> r[j] == s[j]
    ensures FirstIndex(s, id).Some? ==> r[FirstIndex(s, id).value] == Merge(s[FirstIndex(s, id).value], u)
  {
    match FirstIndex(s, id)
    case None => s
    case Some(i) => s[i := Merge(s[i], u)]
  }

  /** The list after `toggleTaskStatus(id)`: the first record with that id has its status flipped,
      and nothing else changes. */
  function Toggled(s: seq<TaskData>, id: string): (r: seq<TaskData>)
    ensures |r| == |s|
    ensures forall j :: 0 <= j < |s| && FirstIndex(s, id) != Some(j) ==> r[j] == s[j]
    ensures FirstIndex(s, id).Some? ==>
              var i := FirstIndex(s, id).value;
              r[i] == s[i].(status := Flip(s[i].status)) && r[i].status != s[i].status
  {
    match FirstIndex(s, id)
    case None => s
    case Some(i) => s[i := s[i].(status := Flip(s[i].status))]
  }

  /** The list after `deleteTask(id)`: every record with that id is gone, every other record stays,
      in its original order, and the list is shorter exactly when some record had that id. */
  function Removed(s: seq<TaskData>, id: string): (r: seq<TaskData>)
    ensures forall t :: t in r <==> t in s && t.id != id
    ensures forall t :: multiset(r)[t] == if t.id != id then multiset(s)[t] else 0
    ensures IsSubsequence(r, s)
    ensures |r| < |s| <==> exists j :: 0 <= j < |s| && s[j].id == id
  {
    FilterIsSubsequence(s, OtherId(id));
    FilterKeepsAll(s, OtherId(id));
    FilterMultiplicity(s, OtherId(id));
    Filter(s, OtherId(id))
  }

  class InMemoryStorage {
    var tasks: seq<TaskData>

    /** The store starts with the three sample records. */
    constructor ()
      ensures tasks == SampleTasks()
    {
      tasks := SampleTasks();
    }

    /** `[...this.tasks]`: a copy of the records, the store unchanged. */
    method GetAllTasks() returns (all: seq<TaskData>)
      ensures all == tasks
    {
      all := tasks;
    }

    /** `find(task => task.id === id)`: the first record with that id, or nothing. */
    method GetTask(id: string) returns (found: Option<TaskData>)
      ensures found.None? <==> forall j :: 0 <= j < |tasks| ==> tasks[j].id != id
      ensures found.Some? ==> exists j :: 0 <= j < |tasks| && tasks[j] == found.value && found.value.id == id
                                          && forall k :: 0 <= k < j ==> tasks[k].id != id
    {
      match FirstIndex(tasks, id)
      case None => found := None;
      case Some(i) => found := Some(tasks[i]);
    }

    /** `push`: the record goes at the end. */
    method AddTask(task: TaskData)
      modifies this
      ensures tasks == old(tasks) + [task]
    {
      tasks := tasks + [task];
    }

    /** Merges `updates` into the first record with that id and returns the merged record; with no
        such record, returns nothing and changes nothing. */
    method UpdateTask(id: string, updates: TaskUpdate) returns (updated: Option<TaskData>)
      modifies this
      ensures tasks == Updated(old(tasks), id, updates)
      ensures updated.None? <==> forall j :: 0 <= j < |old(tasks)| ==> old(tasks)[j].id != id
      ensures updated.Some? ==> updated.value == Merge(old(tasks)[FirstIndex(old(tasks), id).value], updates)
    {
      var index := FirstIndex(tasks, id);
      if index.None? {
        return None;
      }
      tasks := tasks[index.value := Merge(tasks[index.value], updates)];
      updated := Some(tasks[index.value]);
    }

    /** Keeps the records whose id differs; reports whether the list got shorter. */
    method DeleteTask(id: string) returns (deleted: bool)
      modifies this
      ensures tasks == Removed(old(tasks), id)
      ensures deleted <==> |tasks| < |old(tasks)|
      ensures deleted <==> exists j :: 0 <= j < |old(tasks)| && old(tasks)[j].id == id
    {
      var initialLength := |tasks|;
      tasks := Removed(tasks, id);
      deleted := |tasks| < initialLength;
    }

    /** Flips the status of the first record with that id and returns it; with no such record,
        returns nothing and changes nothing. */
    method ToggleTaskStatus(id: string) returns (toggled: Option<TaskData>)
      modifies this
      ensures tasks == Toggled(old(tasks), id)
      ensures toggled.None? <==> forall j :: 0 <= j < |old(tasks)| ==> old(tasks)[j].id != id
      ensures toggled.Some? ==>
                var old_ := old(tasks)[FirstIndex(old(tasks), id).value];
                toggled.value == old_.(status := Flip(old_.status))
    {
      var index := FirstIndex(tasks, id);
      if index.None? {
        return None;
      }
      var task := tasks[index.value];
      tasks := tasks[index.value := task.(status := Flip(task.status))];
      toggled := Some(tasks[index.value]);
    }

    /** `{ total, pending, completed }` over the stored records; with two status values, the two
        counts add up to the total. */
    function GetStats(): (r: Stats)
      reads this
      ensures r.total == |tasks|
      ensures r.pending + r.completed == r.total
      ensures r == CountByStatus(tasks, StatusOf)
    {
      CountByStatus(tasks, StatusOf)
    }
  }

  /** Lookups by id see through a change that keeps every id in place. */
  lemma {:induction false} FirstIndexSameIds(s: seq<TaskData>, s': seq<TaskData>, id: string)
    requires |s| == |s'|
    requires forall j :: 0 <= j < |s| ==> s[j].id == s'[j].id
    ensures FirstIndex(s, id) == FirstIndex(s', id)
  {
    if s != [] {
      assert forall j :: 0 <= j < |s[1..]| ==> s[1..][j].id == s'[1..][j].id by {
        forall j | 0 <= j < |s[1..]| ensures s[1..][j].id == s'[1..][j].id {
          assert s[1..][j] == s[j + 1] && s'[1..][j] == s'[j + 1];
        }
      }
      FirstIndexSameIds(s[1..], s'[1..], id);
    }
  }

  /** Toggling the same id twice restores the list. */
  lemma ToggleTwice(s: seq<TaskData>, id: string)
    ensures Toggled(Toggled(s, id), id) == s
  {
    var once := Toggled(s, id);
    FirstIndexSameIds(s, once, id);
    match FirstIndex(s, id)
    case None =>
    case Some(i) =>
      assert s[i].status == Pending || s[i].status == Completed;
  }

  /** After a delete the id is gone, and a second delete of it removes nothing. */
  lemma DeleteTwice(s: seq<TaskData>, id: string)
    ensures FirstIndex(Removed(s, id), id).None?
    ensures Removed(Removed(s, id), id) == Removed(s, id)
    ensures !(|Removed(Removed(s, id), id)| < |Removed(s, id)|)
  {
    FilterIdempotent(s, OtherId(id));
    var r := Removed(s, id);
    forall j | 0 <= j < |r| ensures r[j].id != id {
      assert r[j] in r;
    }
  }

  /** A record appended under an id no earlier record has is what a lookup of that id finds. */
  lemma AddThenGet(s: seq<TaskData>, t: TaskData)
    requires forall j :: 0 <= j < |s| ==> s[j].id != t.id
    ensures FirstIndex(s + [t], t.id) == Some(|s|)
  {
    var s' := s + [t];
    assert forall j :: 0 <= j < |s| ==> s'[j] == s[j];
    assert s'[|s|] == t;
  }

  /** Appending a record adds one to the total and one to the count of its status. */
  lemma StatsAfterAdd(s: seq<TaskData>, t: TaskData)
    ensures CountByStatus(s + [t], StatusOf)
            == Plus(CountByStatus(s, StatusOf),
                    if t.status == Pending then Stats(1, 1, 0) else Stats(1, 0, 1))
  {
    CountByStatusConcat(s, [t], StatusOf);
    CountByStatusSingle(t, StatusOf);
  }

  /** The counts of a list are those of the part before position `i`, the record at `i` and the
      part after it. */
  lemma StatsSplit(s: seq<TaskData>, i: nat)
    requires i < |s|
    ensures CountByStatus(s, StatusOf)
            == Plus(Plus(CountByStatus(s[..i], StatusOf), CountByStatus([s[i]], StatusOf)),
                    CountByStatus(s[i + 1..], StatusOf))
  {
    assert s == s[..i] + [s[i]] + s[i + 1..];
    CountByStatusConcat(s[..i] + [s[i]], s[i + 1..], StatusOf);
    CountByStatusConcat(s[..i], [s[i]], StatusOf);
  }

  /** Toggling a present record moves one count from its old status to the other; the total stays. */
  lemma StatsAfterToggle(s: seq<TaskData>, id: string)
    requires FirstIndex(s, id).Some?
    ensures CountByStatus(Toggled(s, id), StatusOf).total == CountByStatus(s, StatusOf).total
    ensures s[FirstIndex(s, id).value].status == Pending ==>
              CountByStatus(Toggled(s, id), StatusOf).pending + 1 == CountByStatus(s, StatusOf).pending
              && CountByStatus(Toggled(s, id), StatusOf).completed == CountByStatus(s, StatusOf).completed + 1
    ensures s[FirstIndex(s, id).value].status == Completed ==>
              CountByStatus(Toggled(s, id), StatusOf).pending == CountByStatus(s, StatusOf).pending + 1
              && CountByStatus(Toggled(s, id), StatusOf).completed + 1 == CountByStatus(s, StatusOf).completed
  {
    var i := FirstIndex(s, id).value;
    var t := Toggled(s, id);
    StatsSplit(s, i);
    StatsSplit(t, i);
    assert t[..i] == s[..i];
    assert t[i + 1..] == s[i + 1..];
    CountByStatusSingle(s[i], StatusOf);
    CountByStatusSingle(t[i], StatusOf);
  }

  /** When exactly one record has the id, deleting it is cutting that record out of the list. */
  lemma RemoveUnique(s: seq<TaskData>, id: string, i: nat)
    requires i < |s| && s[i].id == id
    requires forall j :: 0 <= j < |s| && j != i ==> s[j].id != id
    ensures Removed(s, id) == s[..i] + s[i + 1..]
  {
    FilterDropsOne(s, OtherId(id), i);
  }

  /** Deleting an id no record has changes nothing. */
  lemma RemoveAbsent(s: seq<TaskData>, id: string)
    requires forall j :: 0 <= j < |s| ==> s[j].id != id
    ensures Removed(s, id) == s
  {
    FilterKeepsAll(s, OtherId(id));
  }

  /** Deleting the one record with an id takes one off the total and one off its status's count. */
  lemma StatsAfterDelete(s: seq<TaskData>, id: string, i: nat)
    requires i < |s| && s[i].id == id
    requires forall j :: 0 <= j < |s| && j != i ==> s[j].id != id
    ensures Plus(CountByStatus(Removed(s, id), StatusOf),
                 if s[i].status == Pending then Stats(1, 1, 0) else Stats(1, 0, 1))
            == CountByStatus(s, StatusOf)
  {
    RemoveUnique(s, id, i);
    StatsSplit(s, i);
    CountByStatusConcat(s[..i], s[i + 1..], StatusOf);
    CountByStatusSingle(s[i], StatusOf);
  }

  /** The sample records: three in all, two pending and one completed. */
  lemma SampleStats()
    ensures CountByStatus(SampleTasks(), StatusOf) == Stats(3, 2, 1)
  {
    CountByStatusTally(SampleTasks(), StatusOf);
  }
}
