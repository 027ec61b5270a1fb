/** The figures the productivity dashboard derives from the task list
    (app/frontend/pages/dashboard/index.tsx): the status-tab filter, the task
    counts, the priority badge colour and the `MM:SS` clock text. */
module Dashboard {
  import opened MockData
  import opened Seqs
  import opened Text

  /** `(t) => t.status === name` */
  function HasStatusNamed(name: string): Task -> bool {
    (t: Task) => StatusName(t.status) == name
  }

  /** The tasks whose status is written as `name`: `tasks.filter((t) => t.status === name)`. */
  function WithStatusNamed(tasks: seq<Task>, name: string): seq<Task> {
    Filter(tasks, HasStatusNamed(name))
  }

  /** `filteredTasks`: the tab value "all" shows every task; any other value shows
      the tasks whose status equals it. */
  function FilteredTasks(tasks: seq<Task>, taskFilter: string): seq<Task> {
    if taskFilter == "all" then tasks else WithStatusNamed(tasks, taskFilter)
  }

  function IsUrgent(t: Task): bool {
    PriorityName(t.priority) == "urgent"
  }

  /** The counts shown in the alert and on the tabs. None of them takes the tab
      value: they are computed over the whole task list. */
  datatype TaskStats = TaskStats(
    totalTasks: nat,
    completedTasks: nat,
    urgentTasks: nat,
    inProgressTasks: nat,
    todoTasks: nat)

  function Stats(tasks: seq<Task>): TaskStats {
    TaskStats(
      |tasks|,
      |WithStatusNamed(tasks, "done")|,
      Count(tasks, IsUrgent),
      |WithStatusNamed(tasks, "in-progress")|,
      |WithStatusNamed(tasks, "todo")|)
  }

  /** `getPriorityColor`: the badge classes for a priority string. */
  function PriorityColor(priority: string): string {
    match priority
    case "urgent" => "bg-red-500 text-white"
    case "high" => "bg-orange-500 text-white"
    case "medium" => "bg-yellow-500 text-white"
    case "low" => "bg-green-500 text-white"
    case _ => "bg-gray-500 text-white"
  }

  /** JavaScript's `a % b` for `b > 0`: the remainder takes the sign of `a`. */
  function JsRem(a: int, b: int): int
    requires b > 0
  {
    if a >= 0 then a % b else -((-a) % b)
  }

  /** `formatTime`: minutes `Math.floor(seconds / 60)` and seconds `seconds % 60`,
      each written with `toString` and zero-padded to two characters. */
  function FormatTime(seconds: int): string {
    var mins := seconds / 60;  // Euclidean division by a positive divisor is the floor
    var secs := JsRem(seconds, 60);
    PadStart(IntToString(mins), 2, '0') + ":" + PadStart(IntToString(secs), 2, '0')
  }

  /** Reads an `M:S` clock text back to seconds; the inverse of `FormatTime`. */
  function ParseClock(t: string): Option<nat> {
    match SplitOnce(t, ':')
    case None => None
    case Some(parts) =>
      if parts.0 != [] && parts.1 != [] && IsDigits(parts.0) && IsDigits(parts.1)
      then Some(DigitsValue(parts.0) * 60 + DigitsValue(parts.1))
      else None
  }

  /** With the tab value "all" the list is shown unchanged. */
  lemma FilterAllIsIdentity(tasks: seq<Task>)
    ensures FilteredTasks(tasks, "all") == tasks
  {
  }

  /** Any other tab value shows exactly the tasks whose status equals it: an
      order-preserving subsequence in which every task matches, and which keeps
      every occurrence of every matching task. */
  lemma FilteredTasksExact(tasks: seq<Task>, taskFilter: string)
    requires taskFilter != "all"
    ensures IsSubsequence(FilteredTasks(tasks, taskFilter), tasks)
    ensures forall k :: 0 <= k < |FilteredTasks(tasks, taskFilter)| ==>
      StatusName(FilteredTasks(tasks, taskFilter)[k].status) == taskFilter
    ensures forall t: Task ::
      multiset(FilteredTasks(tasks, taskFilter))[t]
        == (if StatusName(t.status) == taskFilter then multiset(tasks)[t] else 0)
  {
    var p := HasStatusNamed(taskFilter);
    FilterIsSubsequence(tasks, p);
    forall t: Task
      ensures multiset(FilteredTasks(tasks, taskFilter))[t] ==
        if StatusName(t.status) == taskFilter then multiset(tasks)[t] else 0
    {
      FilterMultiset(tasks, p, t);
    }
  }

  /** A tab value that is neither "all" nor a status name shows no task at all. */
  lemma UnknownFilterIsEmpty(tasks: seq<Task>, taskFilter: string)
    requires taskFilter !in {"all", "todo", "in-progress", "done"}
    ensures FilteredTasks(tasks, taskFilter) == []
  {
    FilterDropsAll(tasks, HasStatusNamed(taskFilter));
  }

  /** Every task has exactly one of the three statuses, so the todo, in-progress
      and done counts add up to the total. */
  lemma {:induction false} StatusCountsSumToTotal(tasks: seq<Task>)
    ensures Stats(tasks).todoTasks + Stats(tasks).inProgressTasks + Stats(tasks).completedTasks
         == Stats(tasks).totalTasks
  {
    if tasks != [] {
      StatusCountsSumToTotal(tasks[1..]);
    }
  }

  /** The urgent count is zero exactly when no task has priority "urgent", and it
      never exceeds the total. */
  lemma UrgentCountMeaning(tasks: seq<Task>)
    ensures Stats(tasks).urgentTasks <= Stats(tasks).totalTasks
    ensures Stats(tasks).urgentTasks == 0 <==> forall k :: 0 <= k < |tasks| ==> tasks[k].priority != Urgent
  {
    var r := Filter(tasks, IsUrgent);
    if r == [] {
      forall k | 0 <= k < |tasks| ensures tasks[k].priority != Urgent {
        FilterMember(tasks, IsUrgent, tasks[k]);
      }
    } else {
      FilterMember(tasks, IsUrgent, r[0]);
    }
  }

  /** Each of the four priorities gets its own badge colour, and every other
      string gets the grey default. */
  lemma PriorityColorsDistinct(p: Priority, q: Priority, other: string)
    requires other !in {"urgent", "high", "medium", "low"}
    ensures PriorityColor(PriorityName(p)) == PriorityColor(PriorityName(q)) <==> p == q
    ensures PriorityColor(PriorityName(p)) != PriorityColor(other)
    ensures PriorityColor(other) == "bg-gray-500 text-white"
  {
  }

  /** For a non-negative number of seconds the clock reads `MM:SS`: a colon third
      from the end, at least two digits of minutes worth `seconds / 60` before it,
      and exactly two digits worth `seconds % 60` after it; below 100 minutes the
      text is five characters long. */
  lemma FormatTimeShape(seconds: nat)
    ensures var r := FormatTime(seconds);
      && |r| >= 5 && r[|r| - 3] == ':'
      && IsDigits(r[..|r| - 3]) && IsDigits(r[|r| - 2..])
      && DigitsValue(r[..|r| - 3]) == seconds / 60
      && DigitsValue(r[|r| - 2..]) == seconds % 60
      && (seconds < 6000 ==> |r| == 5)
  {
    var mm := PadStart(NatToString(seconds / 60), 2, '0');
    var ss := PadStart(NatToString(seconds % 60), 2, '0');
    PadStartValue(seconds / 60, 2);
    PadStartValue(seconds % 60, 2);
    PadStartLength(seconds % 60, 2);
    if seconds < 6000 {
      PadStartLength(seconds / 60, 2);
    }
    var r := FormatTime(seconds);
    assert r == mm + ":" + ss;
    assert r[..|r| - 3] == mm;
    assert r[|r| - 2..] == ss;
  }

  /** Reading the clock text back gives the number of seconds it was made from. */
  lemma FormatTimeRoundTrip(seconds: nat)
    ensures ParseClock(FormatTime(seconds)) == Some(seconds)
  {
    var mm := PadStart(NatToString(seconds / 60), 2, '0');
    var ss := PadStart(NatToString(seconds % 60), 2, '0');
    PadStartValue(seconds / 60, 2);
    PadStartValue(seconds % 60, 2);
    assert ':' !in mm;
    assert FormatTime(seconds) == mm + [':'] + ss;
    SplitOnceAt(mm, ss, ':');
  }

  /** A negative count keeps JavaScript's signs: -1 second reads "-1:-1". */
  lemma FormatTimeNegative()
    ensures FormatTime(-1) == "-1:-1"
  {
    assert IntToString(-1) == "-1";
  }
}
