/** The alarm resolutions as partial records merged by id, and what they
    do to the next poll. */
module Alarms {
  import opened Types
  import opened Clock
  import opened TaskList

  /** Stop: the alarm is switched off. */
  const StopPatch: Patch := NoChange.(isAlarmed := Some(false))

  /** Snooze: the task is suppressed until its timer expires. */
  const SnoozePatch: Patch := NoChange.(isSnoozed := Some(true))

  /** The snooze timer's expiry: the suppression is lifted. */
  const UnsnoozePatch: Patch := NoChange.(isSnoozed := Some(false))

  /** Postpone: a new slot, not snoozed, alarm on. */
  function PostponePatch(date: string, time: string): Patch {
    NoChange.(date := Some(date), time := Some(time), isSnoozed := Some(false), isAlarmed := Some(true))
  }

  /** What each resolution does to one task: exactly its own flags or
      schedule change. */
  lemma StopEffect(t: Task)
    ensures Merge(t, StopPatch) == t.(isAlarmed := false)
  {
  }

  lemma SnoozeEffect(t: Task)
    ensures Merge(t, SnoozePatch) == t.(isSnoozed := true)
    ensures Merge(t, UnsnoozePatch) == t.(isSnoozed := false)
  {
  }

  lemma PostponeEffect(t: Task, date: string, time: string)
    ensures Merge(t, PostponePatch(date, time)) == t.(date := date, time := time, isSnoozed := false, isAlarmed := true)
  {
  }

  /** After Stop, no task carrying the stopped id can ring again, at any
      minute, until some later update switches its alarm back on. */
  lemma StopSilences(tasks: seq<Task>, id: string, today: string, now: string)
    ensures var r := MergeById(tasks, id, StopPatch);
      forall i :: 0 <= i < |r| && r[i].id == id ==> !Due(r[i], today, now)
  {
  }

  /** While snoozed, no task carrying the id can ring. */
  lemma SnoozeSilences(tasks: seq<Task>, id: string, today: string, now: string)
    ensures var r := MergeById(tasks, id, SnoozePatch);
      forall i :: 0 <= i < |r| && r[i].id == id ==> !Due(r[i], today, now)
  {
  }

  /** The timer's expiry undoes the snooze: when no task with the id was
      snoozed before, snooze followed by expiry restores the list. */
  lemma {:induction false} UnsnoozeUndoesSnooze(tasks: seq<Task>, id: string)
    requires forall i :: 0 <= i < |tasks| && tasks[i].id == id ==> !tasks[i].isSnoozed
    ensures MergeById(MergeById(tasks, id, SnoozePatch), id, UnsnoozePatch) == tasks
  {
    var r := MergeById(MergeById(tasks, id, SnoozePatch), id, UnsnoozePatch);
    forall i | 0 <= i < |tasks| ensures r[i] == tasks[i] {
      if tasks[i].id == id {
        assert !tasks[i].isSnoozed;
      }
    }
  }

  /** A timer that expires after its task was deleted changes nothing. */
  lemma UnsnoozeAfterDeleteIsNoop(tasks: seq<Task>, id: string)
    ensures var kept := DeleteById(tasks, id);
      MergeById(kept, id, UnsnoozePatch) == kept
  {
  }

  /** Postponing to the slot the modal pre-fills (the task's own date and
      time) leaves a ringing task exactly as it was, so a poll in the same
      minute picks it again. */
  lemma PostponeToSameSlotRefires(tasks: seq<Task>, k: nat, today: string, now: string)
    requires FirstDue(tasks, today, now) == Some(k)
    requires forall i :: 0 <= i < |tasks| && tasks[i].id == tasks[k].id ==> i == k
    ensures var r := MergeById(tasks, tasks[k].id, PostponePatch(tasks[k].date, tasks[k].time));
      r == tasks && FirstDue(r, today, now) == Some(k)
  {
    var r := MergeById(tasks, tasks[k].id, PostponePatch(tasks[k].date, tasks[k].time));
    forall i | 0 <= i < |tasks| ensures r[i] == tasks[i] {
    }
  }

  /** A task that keeps its date and time is due in at most one valid
      clock reading: two polls that read the same date and minute strings
      read the same minute. */
  lemma DueInOneMinuteOnly(t: Task, c1: Reading, c2: Reading)
    requires Valid(c1) && Valid(c2)
    requires Due(t, DateString(c1), TimeString(c1)) && Due(t, DateString(c2), TimeString(c2))
    ensures c1 == c2
  {
    SameStringsSameMinute(c1, c2);
  }
}
