/** The records of the task manager: a task, its urgency grade, and the
    partial record (`Partial<Task>`) that an update merges into a task. */
module Types {

  datatype Option<+T> = None | Some(value: T)

  /** The three urgency grades of types.ts. */
  datatype Urgency = Regular | Important | Urgent

  /** A task ("mission"). `interimNotes` is optional in the record: `None`
      stands for an absent field. The declared but unused fields
      (description, isLocked, subtasks, repeat, alarmOffset) are not kept. */
  datatype Task = Task(
    id: string,
    title: string,
    date: string,
    time: string,
    urgency: Urgency,
    completionPercentage: int,
    notes: string,
    interimNotes: Option<string>,
    category: string,
    isAlarmed: bool,
    isSnoozed: bool,
    isCompleted: bool)

  /** A partial task: every field that is `Some` overwrites the task's own. */
  datatype Patch = Patch(
    id: Option<string>,
    title: Option<string>,
    date: Option<string>,
    time: Option<string>,
    urgency: Option<Urgency>,
    completionPercentage: Option<int>,
    notes: Option<string>,
    interimNotes: Option<string>,
    category: Option<string>,
    isAlarmed: Option<bool>,
    isSnoozed: Option<bool>,
    isCompleted: Option<bool>)

  const NoChange: Patch :=
    Patch(None, None, None, None, None, None, None, None, None, None, None, None)

  function Pick<T>(o: Option<T>, current: T): T {
    match o
    case Some(v) => v
    case None => current
  }

  /** `{ ...t, ...u }`: the fields present in `u` win. */
  function Merge(t: Task, u: Patch): (r: Task)
    ensures u == NoChange ==> r == t
  {
    Task(
      Pick(u.id, t.id),
      Pick(u.title, t.title),
      Pick(u.date, t.date),
      Pick(u.time, t.time),
      Pick(u.urgency, t.urgency),
      Pick(u.completionPercentage, t.completionPercentage),
      Pick(u.notes, t.notes),
      if u.interimNotes.Some? then u.interimNotes else t.interimNotes,
      Pick(u.category, t.category),
      Pick(u.isAlarmed, t.isAlarmed),
      Pick(u.isSnoozed, t.isSnoozed),
      Pick(u.isCompleted, t.isCompleted))
  }

  /** Every field present in the patch takes the patch's value; every
      absent field keeps the task's value. */
  lemma MergeFields(t: Task, u: Patch)
    ensures u.id.Some? ==> Merge(t, u).id == u.id.value
    ensures u.id.None? ==> Merge(t, u).id == t.id
    ensures u.title.Some? ==> Merge(t, u).title == u.title.value
    ensures u.title.None? ==> Merge(t, u).title == t.title
    ensures u.date.Some? ==> Merge(t, u).date == u.date.value
    ensures u.date.None? ==> Merge(t, u).date == t.date
    ensures u.time.Some? ==> Merge(t, u).time == u.time.value
    ensures u.time.None? ==> Merge(t, u).time == t.time
    ensures u.urgency.Some? ==> Merge(t, u).urgency == u.urgency.value
    ensures u.urgency.None? ==> Merge(t, u).urgency == t.urgency
    ensures u.completionPercentage.Some? ==> Merge(t, u).completionPercentage == u.completionPercentage.value
    ensures u.completionPercentage.None? ==> Merge(t, u).completionPercentage == t.completionPercentage
    ensures u.notes.Some? ==> Merge(t, u).notes == u.notes.value
    ensures u.notes.None? ==> Merge(t, u).notes == t.notes
    ensures u.interimNotes.Some? ==> Merge(t, u).interimNotes == u.interimNotes
    ensures u.interimNotes.None? ==> Merge(t, u).interimNotes == t.interimNotes
    ensures u.category.Some? ==> Merge(t, u).category == u.category.value
    ensures u.category.None? ==> Merge(t, u).category == t.category
    ensures u.isAlarmed.Some? ==> Merge(t, u).isAlarmed == u.isAlarmed.value
    ensures u.isAlarmed.None? ==> Merge(t, u).isAlarmed == t.isAlarmed
    ensures u.isSnoozed.Some? ==> Merge(t, u).isSnoozed == u.isSnoozed.value
    ensures u.isSnoozed.None? ==> Merge(t, u).isSnoozed == t.isSnoozed
    ensures u.isCompleted.Some? ==> Merge(t, u).isCompleted == u.isCompleted.value
    ensures u.isCompleted.None? ==> Merge(t, u).isCompleted == t.isCompleted
  {
  }

  /** `task.interimNotes || ''`: an absent note reads as the empty string. */
  function StoredNotes(t: Task): (s: string)
    ensures t.interimNotes == Some(s) || (t.interimNotes == None && s == "")
  {
    match t.interimNotes
    case Some(s) => s
    case None => ""
  }
}
