/** The task status and the aggregate counts that every backend of the tracker reports. */
module TaskCommon {
  import opened Seqs

  /** `"pending" | "completed"` */
  datatype Status = Pending | Completed

  /** The status as records spell it in JSON. */
  function StatusName(s: Status): (name: string)
    ensures name == "pending" <==> s == Pending
    ensures name == "completed" <==> s == Completed
  {
    assert "pending"[0] != "completed"[0];
    match s
    case Pending => "pending"
    case Completed => "completed"
  }

  /** `status === "pending" ? "completed" : "pending"`: with two values, the other one. */
  function Flip(s: Status): (r: Status)
    ensures r != s
  {
    match s
    case Pending => Completed
    case Completed => Pending
  }

  /** `{ total, pending, completed }` */
  datatype Stats = Stats(total: nat, pending: nat, completed: nat)

  function Plus(a: Stats, b: Stats): Stats
  {
    Stats(a.total + b.total, a.pending + b.pending, a.completed + b.completed)
  }

  /** `task => task.status === name`, for records whose status is read by `statusOf`. */
  function HasStatus<T>(statusOf: T -> string, name: string): T -> bool
  {
    x => statusOf(x) == name
  }

  /** The counts of `getStats`: the number of records, then the lengths of the records filtered
      by status `"pending"` and by status `"completed"`. The two counts never exceed the total,
      and add up to it when every status is one of the two. */
  function CountByStatus<T>(tasks: seq<T>, statusOf: T -> string): (r: Stats)
    ensures r.total == |tasks|
    ensures r.pending + r.completed <= r.total
    ensures (forall i :: 0 <= i < |tasks| ==> statusOf(tasks[i]) == "pending" || statusOf(tasks[i]) == "completed")
            ==> r.pending + r.completed == r.total
    ensures tasks == [] ==> r == Stats(0, 0, 0)
  {
    var isPending, isCompleted := HasStatus(statusOf, "pending"), HasStatus(statusOf, "completed");
    FilterDisjointCounts(tasks, isPending, isCompleted);
    Stats(|tasks|, |Filter(tasks, isPending)|, |Filter(tasks, isCompleted)|)
  }

  /** Counting is additive over concatenation ... */
  lemma CountByStatusConcat<T>(a: seq<T>, b: seq<T>, statusOf: T -> string)
    ensures CountByStatus(a + b, statusOf) == Plus(CountByStatus(a, statusOf), CountByStatus(b, statusOf))
  {
    FilterConcat(a, b, HasStatus(statusOf, "pending"));
    FilterConcat(a, b, HasStatus(statusOf, "completed"));
  }

  /** ... and one record counts once in the total and once under its own status, if that is one of
      the two; together the two lemmas fix `CountByStatus` on every sequence. */
  lemma CountByStatusSingle<T>(x: T, statusOf: T -> string)
    ensures CountByStatus([x], statusOf)
            == Stats(1, if statusOf(x) == "pending" then 1 else 0, if statusOf(x) == "completed" then 1 else 0)
  {
    assert [x][1..] == [];
  }

  /** The number of records whose status is `name`, counted one record at a time. */
  function Tally<T>(tasks: seq<T>, statusOf: T -> string, name: string): (n: nat)
    ensures n <= |tasks|
  {
    if tasks == [] then 0
    else (if statusOf(tasks[0]) == name then 1 else 0) + Tally(tasks[1..], statusOf, name)
  }

  /** `CountByStatus` agrees with counting record by record. */
  lemma {:induction false} CountByStatusTally<T>(tasks: seq<T>, statusOf: T -> string)
    ensures CountByStatus(tasks, statusOf)
            == Stats(|tasks|, Tally(tasks, statusOf, "pending"), Tally(tasks, statusOf, "completed"))
  {
    if tasks != [] {
      assert tasks == [tasks[0]] + tasks[1..];
      CountByStatusConcat([tasks[0]], tasks[1..], statusOf);
      CountByStatusSingle(tasks[0], statusOf);
      CountByStatusTally(tasks[1..], statusOf);
    }
  }
}
