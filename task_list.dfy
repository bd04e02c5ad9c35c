/** The list transformations of the task store: merge-by-id (`updateTask`),
    filter-by-id (`deleteTask`), the creation record, the routine view, the
    registry's date sort and the alarm poll's first match. */
module TaskList {
  import opened Types
  import opened Text

  // ---------------------------------------------------------------------
  // Filtering

  /** `s.filter(p)`: the elements satisfying `p`, in their original order. */
  function Filter(s: seq<Task>, p: Task -> bool): (r: seq<Task>)
    ensures |r| <= |s|
    ensures forall x :: multiset(r)[x] == if p(x) then multiset(s)[x] else 0
    ensures forall i :: 0 <= i < |r| ==> p(r[i])
  {
    if s == [] then []
    else
      var rest := Filter(s[1..], p);
      assert s == [s[0]] + s[1..];
      if p(s[0]) then [s[0]] + rest else rest
  }

  /** Filtering keeps relative order: it distributes over concatenation. */
  lemma {:induction false} FilterConcat(a: seq<Task>, b: seq<Task>, p: Task -> bool)
    ensures Filter(a + b, p) == Filter(a, p) + Filter(b, p)
  {
    if a == [] {
      assert a + b == b;
    } else {
      assert (a + b)[0] == a[0];
      assert (a + b)[1..] == a[1..] + b;
      FilterConcat(a[1..], b, p);
    }
  }

  // ---------------------------------------------------------------------
  // updateTask and deleteTask

  /** `tasks.map(t => t.id === id ? { ...t, ...u } : t)`. */
  function MergeById(tasks: seq<Task>, id: string, u: Patch): (r: seq<Task>)
    ensures |r| == |tasks|
    ensures forall i :: 0 <= i < |tasks| ==>
      r[i] == if tasks[i].id == id then Merge(tasks[i], u) else tasks[i]
    ensures (forall i :: 0 <= i < |tasks| ==> tasks[i].id != id) ==> r == tasks
  {
    if tasks == [] then []
    else [if tasks[0].id == id then Merge(tasks[0], u) else tasks[0]] + MergeById(tasks[1..], id, u)
  }

  /** The number of tasks carrying `id`. */
  function CountId(tasks: seq<Task>, id: string): nat {
    if tasks == [] then 0
    else (if tasks[0].id == id then 1 else 0) + CountId(tasks[1..], id)
  }

  /** `tasks.filter(t => t.id !== id)`. */
  function DeleteById(tasks: seq<Task>, id: string): (r: seq<Task>)
    ensures forall t :: multiset(r)[t] == if t.id == id then 0 else multiset(tasks)[t]
    ensures forall i :: 0 <= i < |r| ==> r[i].id != id
  {
    Filter(tasks, (t: Task) => t.id != id)
  }

  /** Deleting removes exactly the tasks that carry the id. */
  lemma {:induction false} DeleteByIdLength(tasks: seq<Task>, id: string)
    ensures |DeleteById(tasks, id)| == |tasks| - CountId(tasks, id)
  {
    if tasks != [] {
      DeleteByIdLength(tasks[1..], id);
    }
  }

  /** Deleting keeps the relative order of the remaining tasks. */
  lemma DeleteByIdKeepsOrder(a: seq<Task>, b: seq<Task>, id: string)
    ensures DeleteById(a + b, id) == DeleteById(a, id) + DeleteById(b, id)
  {
    FilterConcat(a, b, (t: Task) => t.id != id);
  }

  // ---------------------------------------------------------------------
  // Creating and editing through the task form

  /** The fields the task form submits. */
  datatype Form = Form(
    title: string,
    category: string,
    urgency: Urgency,
    time: string,
    date: string,
    isAlarmed: bool)

  /** The task the form creates: `date` falls back to today when empty and
      the progress fields start cleared. */
  function NewTask(f: Form, id: string, today: string): (t: Task)
    ensures t.id == id && t.title == f.title && t.category == f.category
    ensures t.urgency == f.urgency && t.time == f.time && t.isAlarmed == f.isAlarmed
    ensures t.date == today <==> f.date == "" || f.date == today
    ensures f.date != "" ==> t.date == f.date
    ensures t.completionPercentage == 0 && !t.isCompleted && !t.isSnoozed
    ensures t.notes == "" && t.interimNotes == Some("")
  {
    Task(id, f.title, if f.date == "" then today else f.date, f.time, f.urgency,
         0, "", Some(""), f.category, f.isAlarmed, false, false)
  }

  /** The partial record an edit merges: the six form fields. */
  function EditPatch(f: Form): Patch {
    NoChange.(title := Some(f.title), category := Some(f.category), urgency := Some(f.urgency),
              time := Some(f.time), date := Some(f.date), isAlarmed := Some(f.isAlarmed))
  }

  /** Merged into one task, the edit record sets exactly the six form fields. */
  lemma EditPatchEffect(f: Form, t: Task)
    ensures Merge(t, EditPatch(f)) == t.(title := f.title, category := f.category, urgency := f.urgency,
                                         time := f.time, date := f.date, isAlarmed := f.isAlarmed)
  {
  }

  /** An edit changes the six form fields of the edited tasks and nothing else. */
  lemma EditChangesFormFieldsOnly(tasks: seq<Task>, id: string, f: Form, i: nat)
    requires i < |tasks|
    ensures var r := MergeById(tasks, id, EditPatch(f));
      && |r| == |tasks|
      && (tasks[i].id != id ==> r[i] == tasks[i])
      && (tasks[i].id == id ==>
            r[i] == tasks[i].(title := f.title, category := f.category, urgency := f.urgency,
                              time := f.time, date := f.date, isAlarmed := f.isAlarmed))
  {
  }

  // ---------------------------------------------------------------------
  // The routine view

  /** Today's tasks that are not completed, in store order. */
  function TodayActive(tasks: seq<Task>, today: string): (r: seq<Task>)
    ensures forall t ::
      multiset(r)[t] == if t.date == today && !t.isCompleted then multiset(tasks)[t] else 0
  {
    Filter(tasks, (t: Task) => t.date == today && !t.isCompleted)
  }

  /** A created task shows in the routine view, at its end, exactly when it
      is dated today (an empty form date counts as today). */
  lemma CreatedTaskInRoutineView(tasks: seq<Task>, f: Form, id: string, today: string)
    ensures TodayActive(tasks + [NewTask(f, id, today)], today)
         == TodayActive(tasks, today) + (if f.date == "" || f.date == today then [NewTask(f, id, today)] else [])
  {
    var p := (t: Task) => t.date == today && !t.isCompleted;
    FilterConcat(tasks, [NewTask(f, id, today)], p);
    assert [NewTask(f, id, today)][1..] == [];
  }

  // ---------------------------------------------------------------------
  // The registry order: `tasks.sort((a, b) => b.date.localeCompare(a.date))`

  /** Newest date first. */
  predicate SortedByDateDesc(s: seq<Task>) {
    forall i, j :: 0 <= i < j < |s| ==> LexLeq(s[j].date, s[i].date)
  }

  /** Places `x` before the first task whose date is not later than its own. */
  function Insert(x: Task, s: seq<Task>): (r: seq<Task>)
    requires SortedByDateDesc(s)
    ensures multiset(r) == multiset(s) + multiset{x}
    ensures SortedByDateDesc(r)
  {
    if s == [] then [x]
    else if LexLeq(s[0].date, x.date) then
      PrependSorted(x, s);
      [x] + s
    else
      var rest := Insert(x, s[1..]);
      assert s == [s[0]] + s[1..];
      LexTotal(s[0].date, x.date);
      HeadBoundsRest(s, x, rest);
      [s[0]] + rest
  }

  lemma PrependSorted(x: Task, s: seq<Task>)
    requires SortedByDateDesc(s) && s != [] && LexLeq(s[0].date, x.date)
    ensures SortedByDateDesc([x] + s)
  {
    forall j | 0 <= j < |s| ensures LexLeq(s[j].date, x.date) {
      if j > 0 { LexTransitive(s[j].date, s[0].date, x.date); }
    }
  }

  lemma HeadBoundsRest(s: seq<Task>, x: Task, rest: seq<Task>)
    requires SortedByDateDesc(s) && s != [] && LexLeq(x.date, s[0].date)
    requires SortedByDateDesc(rest) && multiset(rest) == multiset(s[1..]) + multiset{x}
    ensures SortedByDateDesc([s[0]] + rest)
  {
    forall j | 0 <= j < |rest| ensures LexLeq(rest[j].date, s[0].date) {
      assert rest[j] in multiset(rest);
      if rest[j] != x {
        assert rest[j] in multiset(s[1..]);
        var k :| 0 <= k < |s[1..]| && s[1..][k] == rest[j];
        assert s[k + 1] == rest[j];
      }
    }
  }

  /** Insertion sort by date, newest first. */
  function SortByDateDesc(s: seq<Task>): (r: seq<Task>)
    ensures multiset(r) == multiset(s)
    ensures SortedByDateDesc(r)
  {
    if s == [] then []
    else
      assert s == [s[0]] + s[1..];
      Insert(s[0], SortByDateDesc(s[1..]))
  }

  // ---------------------------------------------------------------------
  // The alarm poll: `tasks.find(...)`

  /** A task rings at `now` on `today` when its strings match exactly and it
      is alarmed, open and not snoozed. */
  predicate Due(t: Task, today: string, now: string) {
    t.date == today && t.time == now && t.isAlarmed && !t.isCompleted && !t.isSnoozed
  }

  /** The position of the first due task, if any. */
  function FirstDue(tasks: seq<Task>, today: string, now: string): (r: Option<nat>)
    ensures r.Some? ==> r.value < |tasks| && Due(tasks[r.value], today, now)
    ensures r.Some? ==> forall j :: 0 <= j < r.value ==> !Due(tasks[j], today, now)
    ensures r.None? <==> forall j :: 0 <= j < |tasks| ==> !Due(tasks[j], today, now)
  {
    if tasks == [] then None
    else if Due(tasks[0], today, now) then Some(0)
    else match FirstDue(tasks[1..], today, now)
      case None => None
      case Some(k) => Some(k + 1)
  }
}
