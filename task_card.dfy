/** The task card's progress editor: local progress and comment, a lock on
    the slider, and a two-step delete. A commit hands the store a partial
    record that marks the task completed exactly at 100%. */
module Card {
  import opened Types
  import opened TaskList

  /** The partial record `commitChanges` passes to `onUpdate`. */
  function CommitPatch(progress: int, comment: string): Patch {
    NoChange.(completionPercentage := Some(progress), interimNotes := Some(comment),
              isCompleted := Some(progress == 100))
  }

  /** Merged into one task, the commit record sets progress and note, and
      marks the task completed exactly at 100%. */
  lemma CommitPatchEffect(t: Task, progress: int, comment: string)
    ensures Merge(t, CommitPatch(progress, comment))
         == t.(completionPercentage := progress, interimNotes := Some(comment), isCompleted := progress == 100)
  {
  }

  /** `hasChanges`: the local values differ from the stored ones, an absent
      stored note counting as the empty string. */
  predicate Differs(progress: int, comment: string, t: Task) {
    progress != t.completionPercentage || comment != StoredNotes(t)
  }

  /** Applied by the store, a commit writes progress and comment into the
      card's own task, marks it completed exactly when progress is 100, and
      leaves everything else, and every other task, as it was. */
  lemma CommitEffect(tasks: seq<Task>, id: string, progress: int, comment: string, i: nat)
    requires i < |tasks|
    ensures var r := MergeById(tasks, id, CommitPatch(progress, comment));
      && |r| == |tasks|
      && (tasks[i].id != id ==> r[i] == tasks[i])
      && (tasks[i].id == id ==>
            && r[i].completionPercentage == progress
            && StoredNotes(r[i]) == comment
            && (r[i].isCompleted <==> progress == 100)
            && r[i] == tasks[i].(completionPercentage := progress, interimNotes := Some(comment),
                                 isCompleted := progress == 100))
  {
  }

  /** Once the committed values are stored, nothing is left to save. */
  lemma CommitLeavesNothingToSave(t: Task, progress: int, comment: string)
    ensures !Differs(progress, comment, Merge(t, CommitPatch(progress, comment)))
  {
  }

  /** Committing 100% takes the card's task out of the routine view. */
  lemma CompletedCommitLeavesRoutineView(tasks: seq<Task>, id: string, comment: string, today: string)
    ensures var view := TodayActive(MergeById(tasks, id, CommitPatch(100, comment)), today);
      forall i :: 0 <= i < |view| ==> view[i].id != id
  {
    var r := MergeById(tasks, id, CommitPatch(100, comment));
    var view := TodayActive(r, today);
    forall i | 0 <= i < |view| ensures view[i].id != id {
      assert view[i] in multiset(view);
      assert view[i] in multiset(r);
      var j :| 0 <= j < |r| && r[j] == view[i];
    }
  }

  class TaskCard {
    var task: Task
    var progress: int
    var statusComment: string
    var showConfirm: bool
    var isUnlocked: bool

    /** A card starts from its task's stored values, locked, not confirming. */
    constructor (t: Task)
      ensures task == t && progress == t.completionPercentage && statusComment == StoredNotes(t)
      ensures !showConfirm && !isUnlocked
    {
      task := t;
      progress := t.completionPercentage;
      statusComment := StoredNotes(t);
      showConfirm := false;
      isUnlocked := false;
    }

    /** The save buttons show exactly when this holds. */
    predicate HasChanges()
      reads this
    {
      Differs(progress, statusComment, task)
    }

    /** SAVE / CONFIRM CHANGES, shown only while there are changes: returns
        the `onUpdate` call and re-locks. */
    method CommitChanges() returns (id: string, u: Patch)
      requires HasChanges()
      modifies this`isUnlocked
      ensures id == task.id && u == CommitPatch(progress, statusComment)
      ensures !isUnlocked
    {
      id, u := task.id, CommitPatch(progress, statusComment);
      isUnlocked := false;
    }

    method ToggleLock()
      modifies this`isUnlocked
      ensures isUnlocked == !old(isUnlocked)
    {
      isUnlocked := !isUnlocked;
    }

    /** The slider's change event; a locked slider is disabled and fires none. */
    method SlideTo(value: int)
      requires 0 <= value <= 100
      modifies this`progress
      ensures progress == if isUnlocked then value else old(progress)
    {
      if isUnlocked {
        progress := value;
      }
    }

    /** Releasing the slider locks it again. */
    method PointerUp()
      modifies this`isUnlocked
      ensures !isUnlocked
    {
      isUnlocked := false;
    }

    method EditComment(text: string)
      modifies this`statusComment
      ensures statusComment == text
    {
      statusComment := text;
    }

    /** ✕: ask for confirmation. */
    method AskDelete()
      modifies this`showConfirm
      ensures showConfirm
    {
      showConfirm := true;
    }

    /** DEL: returns the id passed to `onDelete`. */
    method ConfirmDelete() returns (id: string)
      requires showConfirm
      ensures id == task.id
    {
      id := task.id;
    }

    /** ESC: back to the normal buttons, nothing deleted. */
    method CancelDelete()
      requires showConfirm
      modifies this`showConfirm
      ensures !showConfirm
    {
      showConfirm := false;
    }

    /** New props: each local value is re-read from the task when its stored
        counterpart changed. */
    method Receive(t: Task)
      modifies this`task, this`progress, this`statusComment
      ensures task == t
      ensures progress == if t.completionPercentage != old(task.completionPercentage)
                          then t.completionPercentage else old(progress)
      ensures statusComment == if t.interimNotes != old(task.interimNotes)
                               then StoredNotes(t) else old(statusComment)
    {
      if t.completionPercentage != task.completionPercentage {
        progress := t.completionPercentage;
      }
      if t.interimNotes != task.interimNotes {
        statusComment := StoredNotes(t);
      }
      task := t;
    }
  }

  /** A commit followed by the store's update and the card's resync leaves
      the card with nothing to save and the slider locked. */
  method CommitAndResync(card: TaskCard, tasks: seq<Task>, k: nat) returns (stored: seq<Task>)
    requires card.HasChanges() && k < |tasks| && tasks[k] == card.task
    modifies card
    ensures stored == MergeById(tasks, old(card.task.id), CommitPatch(old(card.progress), old(card.statusComment)))
    ensures card.task == Merge(old(card.task), CommitPatch(old(card.progress), old(card.statusComment)))
    ensures card.progress == old(card.progress) && card.statusComment == old(card.statusComment)
    ensures card.showConfirm == old(card.showConfirm)
    ensures !card.HasChanges() && !card.isUnlocked
  {
    var t, p, c := card.task, card.progress, card.statusComment;
    CommitLeavesNothingToSave(t, p, c);
    var id, u := card.CommitChanges();
    stored := MergeById(tasks, id, u);
    card.Receive(stored[k]);
  }
}
