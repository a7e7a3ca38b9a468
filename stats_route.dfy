/** The statistics route of `app/api/tasks/stats/route.ts`: the counts over the records of the
    tasks file, with an unreadable file counting as no records. Its `readTasks` is the same as
    that of the tasks route and is shared with it. */
module StatsRoute {
  import opened Wrappers
  import opened TaskCommon
  import opened TasksRoute

  /** `getStats()`: the total is the number of records read; the pending and completed counts
      never exceed it together, and add up to it when every status is one of the two. */
  function GetStats(file: FileContent): (r: Stats)
    ensures r.total == |ReadTasks(file)|
    ensures r.pending + r.completed <= r.total
    ensures (forall i :: 0 <= i < |ReadTasks(file)| ==>
               ReadTasks(file)[i].status == "pending" || ReadTasks(file)[i].status == "completed")
            ==> r.pending + r.completed == r.total
    ensures r == CountByStatus(ReadTasks(file), StatusField)
  {
    CountByStatus(ReadTasks(file), StatusField)
  }

  /** A missing or unparseable file, or a document without `tasks`, counts as no records at all. */
  lemma FailedReadCountsNothing(file: FileContent)
    requires file.Unreadable? || file.Unparseable? || file == Parsed(None)
    ensures GetStats(file) == Stats(0, 0, 0)
  {
  }

  /** Appending a pending record adds one to the total and to the pending count. */
  lemma CountsAfterPendingAppend(records: seq<TaskJson>, j: TaskJson)
    requires j.status == "pending"
    ensures CountByStatus(records + [j], StatusField) == Plus(CountByStatus(records, StatusField), Stats(1, 1, 0))
  {
    CountByStatusConcat(records, [j], StatusField);
    CountByStatusSingle(j, StatusField);
    assert "pending"[0] != "completed"[0];
  }

  /** A successful POST adds one to the total and one to the pending count, and leaves the
      completed count as it was. */
  lemma StatsAfterPost(file: FileContent, d: Draft, id: string, now: string)
    ensures GetStats(WriteTasks(ReadTasks(file) + [NewRecord(d, id, now)]))
            == Plus(GetStats(file), Stats(1, 1, 0))
  {
    CountsAfterPendingAppend(ReadTasks(file), NewRecord(d, id, now));
  }

  /** A file whose records were all created by POST and written back by the routes has only the
      two status values, so the two counts add up to the total. */
  lemma WellFormedFileCounts(file: FileContent)
    requires forall i :: 0 <= i < |ReadTasks(file)| ==>
               exists s: Status :: ReadTasks(file)[i].status == StatusName(s)
    ensures GetStats(file).pending + GetStats(file).completed == GetStats(file).total
  {
    var records := ReadTasks(file);
    forall i | 0 <= i < |records|
      ensures records[i].status == "pending" || records[i].status == "completed"
    {
      var s: Status :| records[i].status == StatusName(s);
    }
  }
}
