/** The calendar task index, the avatar initials and the command-palette shortcut of
    the enhanced dashboard section (app/frontend/pages/dashboard/productivity-enhanced.tsx).
    Due dates are `yyyy-MM-dd` day keys: `new Date(key)` followed by `format(…, "yyyy-MM-dd")`
    or `isSameDay` is taken to be the identity on the key. */
module Productivity {
  import opened MockData
  import opened Seqs
  import opened Text

  /** Whether a task is due on day `d`. */
  function DueOnDay(d: string): Task -> bool {
    (t: Task) => t.dueDate == d
  }

  /** A calendar day: year, month and day of month. */
  datatype DayKey = DayKey(year: nat, month: nat, day: nat)

  /** `format(date, "yyyy-MM-dd")`: four-digit year, two-digit month and day. */
  function FormatDay(k: DayKey): string {
    PadStart(NatToString(k.year), 4, '0') + "-"
      + PadStart(NatToString(k.month), 2, '0') + "-"
      + PadStart(NatToString(k.day), 2, '0')
  }

  /** Reads a `yyyy-MM-dd` text back to its day; the inverse of `FormatDay`. */
  function ParseDay(s: string): Option<DayKey> {
    if |s| == 10 && s[4] == '-' && s[7] == '-'
       && IsDigits(s[..4]) && IsDigits(s[5..7]) && IsDigits(s[8..])
    then Some(DayKey(DigitsValue(s[..4]), DigitsValue(s[5..7]), DigitsValue(s[8..])))
    else None
  }

  /** A day whose fields fit their widths is written as ten characters that read
      back to the same day. */
  lemma FormatDayRoundTrip(k: DayKey)
    requires k.year < 10000 && k.month < 100 && k.day < 100
    ensures |FormatDay(k)| == 10
    ensures ParseDay(FormatDay(k)) == Some(k)
  {
    var y := PadStart(NatToString(k.year), 4, '0');
    var m := PadStart(NatToString(k.month), 2, '0');
    var d := PadStart(NatToString(k.day), 2, '0');
    PadStartLength(k.year, 4);
    PadStartLength(k.month, 2);
    PadStartLength(k.day, 2);
    PadStartValue(k.year, 4);
    PadStartValue(k.month, 2);
    PadStartValue(k.day, 2);
    var s := FormatDay(k);
    assert s == y + "-" + m + "-" + d;
    assert s[..4] == y && s[5..7] == m && s[8..] == d;
  }

  /** The tasks due on day `d`, in list order. */
  function DueOn(tasks: seq<Task>, d: string): seq<Task> {
    Filter(tasks, DueOnDay(d))
  }

  /** `tasksForDate`: no task when no date is selected, otherwise the tasks due on it. */
  function TasksForDate(tasks: seq<Task>, date: Option<string>): seq<Task> {
    match date
    case None => []
    case Some(d) => DueOn(tasks, d)
  }

  /** The distinct due days in order of first appearance (the key order of a
      JavaScript object whose keys are inserted in that order). */
  function DueDays(tasks: seq<Task>): seq<string> {
    if tasks == [] then []
    else
      var prev := DueDays(tasks[..|tasks| - 1]);
      var d := tasks[|tasks| - 1].dueDate;
      if d in prev then prev else prev + [d]
  }

  /** The grouping `tasksWithDates` is meant to build: each due day mapped to the
      tasks due that day. */
  function Buckets(tasks: seq<Task>): map<string, seq<Task>> {
    map d | d in DueDays(tasks) :: DueOn(tasks, d)
  }

  /** A `Record<string, Task[]>`: its keys in insertion order and its entries. */
  datatype DayRecord = DayRecord(keys: seq<string>, buckets: map<string, seq<Task>>)

  /** `hasTasks`: the days the calendar highlights, `Object.keys(tasksWithDates)`. */
  function HasTasks(rec: DayRecord): seq<string> {
    rec.keys
  }

  predicate NoDuplicates(keys: seq<string>) {
    forall i, j :: 0 <= i < j < |keys| ==> keys[i] != keys[j]
  }

  /** The bucket sizes added up over `keys`. */
  function SumSizes(keys: seq<string>, m: map<string, seq<Task>>): nat {
    if keys == [] then 0
    else
      var k := keys[|keys| - 1];
      SumSizes(keys[..|keys| - 1], m) + if k in m then |m[k]| else 0
  }

  /** `tasksWithDates`: the `reduce` that creates a day's bucket the first time the
      day is seen and pushes each task onto its day's bucket. */
  method TasksWithDates(tasks: seq<Task>) returns (acc: DayRecord)
    ensures acc.keys == DueDays(tasks) && acc.buckets == Buckets(tasks)
  {
    acc := DayRecord([], map[]);
    var i := 0;
    while i < |tasks|
      invariant 0 <= i <= |tasks|
      invariant acc == DayRecord(DueDays(tasks[..i]), Buckets(tasks[..i]))
    {
      var task := tasks[i];
      var date := task.dueDate;
      ghost var done := tasks[..i];
      DueDaysAreKeys(done);
      BucketsSnoc(done, task);
      assert tasks[..i + 1] == done + [task];
      if date !in acc.buckets {
        acc := DayRecord(acc.keys + [date], acc.buckets[date := []]);
      }
      acc := acc.(buckets := acc.buckets[date := acc.buckets[date] + [task]]);
      i := i + 1;
    }
    assert tasks[..i] == tasks;
  }

  /** A day is a due day exactly when some task is due on it. */
  lemma {:induction false} DueDaysMembership(tasks: seq<Task>, d: string)
    ensures d in DueDays(tasks) <==> exists k :: 0 <= k < |tasks| && tasks[k].dueDate == d
  {
    if tasks != [] {
      var s := tasks[..|tasks| - 1];
      DueDaysMembership(s, d);
      if exists k :: 0 <= k < |tasks| && tasks[k].dueDate == d {
        var k :| 0 <= k < |tasks| && tasks[k].dueDate == d;
        if k < |s| { assert s[k] == tasks[k]; }
      }
    }
  }

  /** The due days are listed once each. */
  lemma {:induction false} DueDaysNoDuplicates(tasks: seq<Task>)
    ensures NoDuplicates(DueDays(tasks))
  {
    if tasks != [] {
      DueDaysNoDuplicates(tasks[..|tasks| - 1]);
    }
  }

  /** The due days are the keys of the grouping. */
  lemma DueDaysAreKeys(tasks: seq<Task>)
    ensures forall d :: d in Buckets(tasks) <==> d in DueDays(tasks)
  {
  }

  /** The tasks due on `d` in a list with one more task at the end. */
  lemma DueOnSnoc(s: seq<Task>, t: Task, d: string)
    ensures DueOn(s + [t], d) == DueOn(s, d) + if t.dueDate == d then [t] else []
  {
    FilterAppend(s, [t], DueOnDay(d));
    assert [t][1..] == [];
  }

  /** Adding a task at the end adds its day as a new last key if the day is new,
      and appends the task to its day's bucket, creating the bucket if needed. */
  lemma BucketsSnoc(s: seq<Task>, t: Task)
    ensures DueDays(s + [t]) == if t.dueDate in DueDays(s) then DueDays(s) else DueDays(s) + [t.dueDate]
    ensures Buckets(s + [t]) == Buckets(s)[t.dueDate :=
      (if t.dueDate in Buckets(s) then Buckets(s)[t.dueDate] else []) + [t]]
  {
    var ts := s + [t];
    assert ts[..|ts| - 1] == s;
    var lhs := Buckets(ts);
    var rhs := Buckets(s)[t.dueDate := (if t.dueDate in Buckets(s) then Buckets(s)[t.dueDate] else []) + [t]];
    forall d | d in lhs
      ensures d in rhs && lhs[d] == rhs[d]
    {
      DueOnSnoc(s, t, d);
      if d == t.dueDate && d !in DueDays(s) {
        DueDaysMembership(s, d);
        FilterDropsAll(s, DueOnDay(d));
      }
    }
    assert lhs.Keys == rhs.Keys;
  }

  /** Every task is in the bucket of its own due day, and in no other bucket. */
  lemma TaskInOwnBucketOnly(tasks: seq<Task>, i: int, d: string)
    requires 0 <= i < |tasks|
    ensures tasks[i].dueDate in Buckets(tasks)
    ensures tasks[i] in Buckets(tasks)[tasks[i].dueDate]
    ensures d in Buckets(tasks) ==> (tasks[i] in Buckets(tasks)[d] <==> tasks[i].dueDate == d)
  {
    DueDaysMembership(tasks, tasks[i].dueDate);
    FilterMember(tasks, DueOnDay(tasks[i].dueDate), tasks[i]);
    FilterMember(tasks, DueOnDay(d), tasks[i]);
  }

  /** A day has a bucket exactly when some task is due that day, and no bucket is empty. */
  lemma BucketKeysAndNonEmpty(tasks: seq<Task>, d: string)
    ensures d in Buckets(tasks) <==> exists k :: 0 <= k < |tasks| && tasks[k].dueDate == d
    ensures d in Buckets(tasks) ==> |Buckets(tasks)[d]| > 0
  {
    DueDaysMembership(tasks, d);
    if d in Buckets(tasks) {
      var k :| 0 <= k < |tasks| && tasks[k].dueDate == d;
      FilterMember(tasks, DueOnDay(d), tasks[k]);
    }
  }

  /** Within a bucket the tasks keep their list order, all are due that day, and
      every occurrence of a task due that day is there. */
  lemma BucketKeepsListOrder(tasks: seq<Task>, d: string)
    requires d in Buckets(tasks)
    ensures IsSubsequence(Buckets(tasks)[d], tasks)
    ensures forall k :: 0 <= k < |Buckets(tasks)[d]| ==> Buckets(tasks)[d][k].dueDate == d
    ensures forall t: Task ::
      multiset(Buckets(tasks)[d])[t] == (if t.dueDate == d then multiset(tasks)[t] else 0)
  {
    FilterIsSubsequence(tasks, DueOnDay(d));
    forall t: Task
      ensures multiset(Buckets(tasks)[d])[t] == (if t.dueDate == d then multiset(tasks)[t] else 0)
    {
      FilterMultiset(tasks, DueOnDay(d), t);
    }
  }

  /** The tasks listed for a selected day are that day's bucket, or none when the
      day has no bucket or no day is selected. */
  lemma TasksForDateIsBucket(tasks: seq<Task>, date: Option<string>)
    ensures TasksForDate(tasks, date) ==
      if date.Some? && date.value in Buckets(tasks) then Buckets(tasks)[date.value] else []
  {
    if date.Some? && date.value !in Buckets(tasks) {
      DueDaysMembership(tasks, date.value);
      FilterDropsAll(tasks, DueOnDay(date.value));
    }
  }

  /** The highlighted days are the grouping's keys, each listed once. */
  lemma HasTasksAreBucketKeys(tasks: seq<Task>)
    ensures NoDuplicates(HasTasks(DayRecord(DueDays(tasks), Buckets(tasks))))
    ensures forall d :: d in HasTasks(DayRecord(DueDays(tasks), Buckets(tasks))) <==> d in Buckets(tasks)
  {
    DueDaysNoDuplicates(tasks);
  }

  lemma {:induction false} SumSizesOtherKey(keys: seq<string>, m: map<string, seq<Task>>, k: string, v: seq<Task>)
    requires k !in keys
    ensures SumSizes(keys, m[k := v]) == SumSizes(keys, m)
  {
    if keys != [] {
      SumSizesOtherKey(keys[..|keys| - 1], m, k, v);
    }
  }

  lemma {:induction false} SumSizesUpdate(keys: seq<string>, m: map<string, seq<Task>>, k: string, v: seq<Task>)
    requires NoDuplicates(keys) && k in keys && k in m
    ensures SumSizes(keys, m[k := v]) == SumSizes(keys, m) - |m[k]| + |v|
  {
    var prefix := keys[..|keys| - 1];
    if keys[|keys| - 1] == k {
      assert k !in prefix;
      SumSizesOtherKey(prefix, m, k, v);
    } else {
      assert k in prefix by {
        var i :| 0 <= i < |keys| && keys[i] == k;
        assert prefix[i] == k;
      }
      SumSizesUpdate(prefix, m, k, v);
    }
  }

  /** Every task lands in exactly one bucket, so the bucket sizes add up to the
      number of tasks. */
  lemma {:induction false} BucketSizesSum(tasks: seq<Task>)
    ensures SumSizes(DueDays(tasks), Buckets(tasks)) == |tasks|
  {
    if tasks != [] {
      var s := tasks[..|tasks| - 1];
      var t := tasks[|tasks| - 1];
      assert tasks == s + [t];
      BucketSizesSum(s);
      BucketsSnoc(s, t);
      DueDaysAreKeys(s);
      var keys := DueDays(s);
      if t.dueDate in keys {
        DueDaysNoDuplicates(s);
        SumSizesUpdate(keys, Buckets(s), t.dueDate, Buckets(s)[t.dueDate] + [t]);
      } else {
        var m' := Buckets(s)[t.dueDate := [t]];
        assert (keys + [t.dueDate])[..|keys|] == keys;
        SumSizesOtherKey(keys, Buckets(s), t.dueDate, [t]);
        assert SumSizes(keys + [t.dueDate], m') == SumSizes(keys, m') + 1;
        assert DueDays(tasks) == keys + [t.dueDate];
        assert Buckets(tasks) == Buckets(s + [t]);
        assert t.dueDate !in Buckets(s);
        assert ([] + [t]) == [t];
        assert Buckets(tasks) == m';
      }
    }
  }

  /** When no two tasks share a due day, every bucket holds exactly one task. */
  lemma DistinctDueDatesSingletonBuckets(tasks: seq<Task>)
    requires forall i, j :: 0 <= i < j < |tasks| ==> tasks[i].dueDate != tasks[j].dueDate
    ensures forall d :: d in Buckets(tasks) ==> |Buckets(tasks)[d]| == 1
  {
    forall d | d in Buckets(tasks) ensures |Buckets(tasks)[d]| == 1 {
      DueDaysMembership(tasks, d);
      var k :| 0 <= k < |tasks| && tasks[k].dueDate == d;
      assert tasks == tasks[..k] + [tasks[k]] + tasks[k + 1..];
      FilterAppend(tasks[..k] + [tasks[k]], tasks[k + 1..], DueOnDay(d));
      FilterAppend(tasks[..k], [tasks[k]], DueOnDay(d));
      FilterDropsAll(tasks[..k], DueOnDay(d));
      FilterDropsAll(tasks[k + 1..], DueOnDay(d));
      assert [tasks[k]][1..] == [];
    }
  }

  /** `n[0]` for a piece of the split name; the empty piece gives `undefined`,
      which `join` writes as the empty string. */
  function FirstChar(w: string): string {
    if w == [] then [] else [w[0]]
  }

  /** `ws.map(n => n[0]).join('')`. */
  function Heads(ws: seq<string>): string {
    Concat(seq(|ws|, i requires 0 <= i < |ws| => FirstChar(ws[i])))
  }

  /** `name.split(' ').map(n => n[0]).join('')`. */
  function Initials(name: string): string {
    Heads(Split(name, ' '))
  }

  /** The first characters of words known to be non-empty. */
  function Firsts(ws: seq<string>): (r: string)
    requires forall i :: 0 <= i < |ws| ==> ws[i] != []
    ensures |r| == |ws|
  {
    seq(|ws|, i requires 0 <= i < |ws| => ws[i][0])
  }

  /** Reference reading of the initials on the characters of the name: every
      non-space character at the start or right after a space. */
  function WordStarts(s: string, atStart: bool): string {
    if s == [] then []
    else (if s[0] != ' ' && atStart then [s[0]] else []) + WordStarts(s[1..], s[0] == ' ')
  }

  lemma {:induction false} ConcatFirstChars(ws: seq<string>)
    ensures var nonEmpty := Filter(ws, (w: string) => w != []);
      Heads(ws) == Firsts(nonEmpty)
  {
    if ws != [] {
      ConcatFirstChars(ws[1..]);
      var heads := seq(|ws|, i requires 0 <= i < |ws| => FirstChar(ws[i]));
      assert heads[1..] == seq(|ws[1..]|, i requires 0 <= i < |ws[1..]| => FirstChar(ws[1..][i]));
    }
  }

  /** The initials hold one character per non-empty space-separated word, the
      first character of each, in order. */
  lemma InitialsPerWord(name: string)
    ensures var nonEmpty := Filter(Split(name, ' '), (w: string) => w != []);
      Initials(name) == Firsts(nonEmpty) && |Initials(name)| == |nonEmpty|
  {
    ConcatFirstChars(Split(name, ' '));
  }

  lemma HeadsCons(w: string, ws: seq<string>)
    ensures Heads([w] + ws) == FirstChar(w) + Heads(ws)
  {
    var all := [w] + ws;
    assert seq(|all|, i requires 0 <= i < |all| => FirstChar(all[i]))[1..]
        == seq(|ws|, i requires 0 <= i < |ws| => FirstChar(ws[i]));
  }

  lemma {:induction false} HeadsOfSplit(s: string)
    ensures Heads(Split(s, ' ')) == WordStarts(s, true)
    ensures Heads(Split(s, ' ')[1..]) == WordStarts(s, false)
  {
    if s == [] {
      assert Split(s, ' ')[1..] == [];
      assert Split(s, ' ') == [[]];
      var one: seq<string> := [[]];
      assert seq(|one|, i requires 0 <= i < |one| => FirstChar(one[i])) == [[]];
      assert Concat([[]]) == [];
    } else {
      var rest := Split(s[1..], ' ');
      HeadsOfSplit(s[1..]);
      if s[0] == ' ' {
        HeadsCons([], rest);
        assert Split(s, ' ')[1..] == rest;
      } else {
        assert rest == [rest[0]] + rest[1..];
        HeadsCons([s[0]] + rest[0], rest[1..]);
        assert Split(s, ' ')[1..] == rest[1..];
      }
    }
  }

  /** The initials are exactly the non-space characters that start the name or
      follow a space, in order. */
  lemma InitialsAreWordStarts(name: string)
    ensures Initials(name) == WordStarts(name, true)
  {
    HeadsOfSplit(name);
  }

  /** The `keydown` handler's effect on `commandOpen`: the key "k" with Cmd or Ctrl
      held flips it; every other key leaves it. */
  function KeyDownOpen(open: bool, key: string, metaKey: bool, ctrlKey: bool): bool {
    if key == "k" && (metaKey || ctrlKey) then !open else open
  }

  /** The shortcut flips the palette exactly for Cmd+K and Ctrl+K, and pressing it
      twice restores the palette's state. */
  lemma ShortcutToggles(open: bool, key: string, metaKey: bool, ctrlKey: bool)
    ensures KeyDownOpen(open, key, metaKey, ctrlKey) != open <==> key == "k" && (metaKey || ctrlKey)
    ensures KeyDownOpen(KeyDownOpen(open, key, metaKey, ctrlKey), key, metaKey, ctrlKey) == open
  {
  }

  /** The command palette's open flag, set by the shortcut, the palette's own
      open/close requests, its items and the quick-access button. */
  class CommandPalette {
    var commandOpen: bool

    constructor ()
      ensures !commandOpen
    {
      commandOpen := false;
    }

    /** The `keydown` listener: `handled` tells whether the default action is
        prevented, `openedToast` whether the "opened" toast is shown. */
    method OnKeyDown(key: string, metaKey: bool, ctrlKey: bool) returns (handled: bool, openedToast: bool)
      modifies this
      ensures commandOpen == KeyDownOpen(old(commandOpen), key, metaKey, ctrlKey)
      ensures handled <==> key == "k" && (metaKey || ctrlKey)
      ensures openedToast <==> handled && !old(commandOpen)
    {
      handled := key == "k" && (metaKey || ctrlKey);
      openedToast := false;
      if handled {
        openedToast := !commandOpen;
        commandOpen := !commandOpen;
      }
    }

    /** `setCommandOpen(open)`: the dialog's `onOpenChange`, `false` from every
        item, `true` from the quick-access button. */
    method SetOpen(open: bool)
      modifies this
      ensures commandOpen == open
    {
      commandOpen := open;
    }
  }
}
