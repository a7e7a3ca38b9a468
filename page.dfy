/** The client-side logic of `app/page.tsx` that is not rendering: the status filter of the task
    list and the light/dark theme switch. */
module Page {
  import opened Seqs
  import opened TaskCommon
  import opened TasksRoute

  /** `filterTasks(tasks, filter)`: all tasks for `"all"`, otherwise the tasks whose status is
      `filter`, all of them, in their original order. */
  function FilterTasks(tasks: seq<TaskJson>, filter: string): (r: seq<TaskJson>)
    ensures filter == "all" ==> r == tasks
    ensures filter != "all" ==> forall t :: t in r ==> t.status == filter
    ensures filter != "all" ==> forall t :: t in tasks && t.status == filter ==> t in r
    ensures filter != "all" ==>
              forall t :: multiset(r)[t] == if t.status == filter then multiset(tasks)[t] else 0
    ensures IsSubsequence(r, tasks) && |r| <= |tasks|
  {
    if filter == "all" then
      SubsequenceReflexive(tasks);
      tasks
    else
      var byStatus := HasStatus(StatusField, filter);
      FilterIsSubsequence(tasks, byStatus);
      FilterMultiplicity(tasks, byStatus);
      Filter(tasks, byStatus)
  }

  /** `toggleTheme`: `"dark"` becomes `"light"`, anything else `"dark"`. */
  function ToggleTheme(theme: string): (next: string)
    ensures next == "dark" || next == "light"
    ensures (theme == "dark" || theme == "light") ==> next != theme
    ensures theme != "dark" ==> next == "dark"
  {
    if theme == "dark" then "light" else "dark"
  }

  /** From either of the two themes, toggling twice comes back to it. */
  lemma ToggleThemeTwice(theme: string)
    requires theme == "dark" || theme == "light"
    ensures ToggleTheme(ToggleTheme(theme)) == theme
  {
  }
}
