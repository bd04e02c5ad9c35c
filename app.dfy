/** The app component's state and the event handlers that replace it: the
    task store, the single active-alarm slot with its stop, snooze and
    postpone resolutions, the pending snooze timers, the task form, and the
    voice transcripts feeding the memory bank. Clock readings, fresh ids
    and time stamps arrive as parameters. */
module App {
  import opened Types
  import opened Clock
  import opened TaskList
  import opened Alarms
  import opened MemoryBank

  datatype Language = English | Hindi

  /** The stored language preference: anything but "English" or "Hindi"
      (or nothing stored) falls back to English. */
  function InitialLanguage(saved: Option<string>): (l: Language)
    ensures l == Hindi <==> saved == Some("Hindi")
    ensures saved != Some("English") && saved != Some("Hindi") ==> l == English
  {
    if saved == Some("English") then English
    else if saved == Some("Hindi") then Hindi
    else English
  }

  /** A transcription object of a live-session message; its `text` may be
      missing. */
  datatype Transcription = Transcription(text: Option<string>)

  /** What `buffer += transcription.text` appends: nothing without a
      transcription object, and the string "undefined" when the object has
      no text. */
  function Appended(piece: Option<Transcription>): (s: string)
    ensures piece == None ==> s == ""
    ensures piece == Some(Transcription(None)) ==> s == "undefined"
    ensures piece.Some? && piece.value.text.Some? ==> s == piece.value.text.value
  {
    match piece
    case None => ""
    case Some(Transcription(None)) => "undefined"
    case Some(Transcription(Some(x))) => x
  }

  /** A pending snooze `setTimeout`: whose alarm, and after how many minutes. */
  datatype SnoozeTimer = SnoozeTimer(id: string, minutes: nat)

  class App {
    var tasks: seq<Task>
    var activeAlarm: Option<Task>
    var snoozeTimers: seq<SnoozeTimer>
    var taskToEdit: Option<Task>
    var showTaskForm: bool
    var selectedLanguage: Language
    var memoryBank: seq<string>
    var inputTranscript: string
    var outputTranscript: string

    /** The state right after loading the stored task list, history and
        language preference. */
    constructor (savedTasks: seq<Task>, savedBank: seq<string>, savedLanguage: Option<string>)
      ensures tasks == savedTasks && memoryBank == savedBank
      ensures selectedLanguage == InitialLanguage(savedLanguage)
      ensures activeAlarm == None && snoozeTimers == [] && taskToEdit == None && !showTaskForm
      ensures inputTranscript == "" && outputTranscript == ""
    {
      tasks := savedTasks;
      activeAlarm := None;
      snoozeTimers := [];
      taskToEdit := None;
      showTaskForm := false;
      selectedLanguage := InitialLanguage(savedLanguage);
      memoryBank := savedBank;
      inputTranscript := "";
      outputTranscript := "";
    }

    // -------------------------------------------------------------------
    // The task store

    method UpdateTask(id: string, u: Patch)
      modifies this`tasks
      ensures tasks == MergeById(old(tasks), id, u)
    {
      tasks := MergeById(tasks, id, u);
    }

    method DeleteTask(id: string)
      modifies this`tasks
      ensures tasks == DeleteById(old(tasks), id)
      ensures |tasks| == |old(tasks)| - CountId(old(tasks), id)
    {
      DeleteByIdLength(tasks, id);
      tasks := DeleteById(tasks, id);
    }

    /** The "+" button: an empty form for a new task. */
    method OpenNewTaskForm()
      modifies this`taskToEdit, this`showTaskForm
      ensures taskToEdit == None && showTaskForm
    {
      taskToEdit := None;
      showTaskForm := true;
    }

    /** The registry's Edit button: the form opens on `t`. */
    method OpenEditModal(t: Task)
      modifies this`taskToEdit, this`showTaskForm
      ensures taskToEdit == Some(t) && showTaskForm
    {
      taskToEdit := Some(t);
      showTaskForm := true;
    }

    /** Form submission: edits the task being edited, or appends a new task
        with the fresh id; either way the form closes. */
    method SaveTaskForm(f: Form, freshId: string, clock: Reading)
      modifies this`tasks, this`taskToEdit, this`showTaskForm
      ensures old(taskToEdit).Some? ==> tasks == MergeById(old(tasks), old(taskToEdit).value.id, EditPatch(f))
      ensures old(taskToEdit).None? ==> tasks == old(tasks) + [NewTask(f, freshId, DateString(clock))]
      ensures taskToEdit == None && !showTaskForm
    {
      if taskToEdit.Some? {
        UpdateTask(taskToEdit.value.id, EditPatch(f));
      } else {
        tasks := tasks + [NewTask(f, freshId, DateString(clock))];
      }
      showTaskForm := false;
      taskToEdit := None;
    }

    /** The registry and audit views sort the state list itself. */
    method SortForRegistry()
      modifies this`tasks
      ensures tasks == SortByDateDesc(old(tasks))
      ensures multiset(tasks) == multiset(old(tasks)) && SortedByDateDesc(tasks)
    {
      tasks := SortByDateDesc(tasks);
    }

    method SelectLanguage(l: Language)
      modifies this`selectedLanguage
      ensures selectedLanguage == l
    {
      selectedLanguage := l;
    }

    // -------------------------------------------------------------------
    // The alarm poller and its resolutions

    /** One poll: with the slot empty, the first due task in list order
        becomes the active alarm; an occupied slot is never replaced. */
    method CheckAlarms(clock: Reading)
      modifies this`activeAlarm
      ensures old(activeAlarm).Some? ==> activeAlarm == old(activeAlarm)
      ensures old(activeAlarm).None? ==>
        activeAlarm == match FirstDue(tasks, DateString(clock), TimeString(clock))
                       case Some(k) => Some(tasks[k])
                       case None => None
    {
      if activeAlarm.None? {
        var found := FirstDue(tasks, DateString(clock), TimeString(clock));
        if found.Some? {
          activeAlarm := Some(tasks[found.value]);
        }
      }
    }

    method Stop(id: string)
      modifies this`tasks, this`activeAlarm
      ensures tasks == MergeById(old(tasks), id, StopPatch)
      ensures activeAlarm == None
    {
      UpdateTask(id, StopPatch);
      activeAlarm := None;
    }

    /** Snooze starts a timer; its expiry is the separate event ExpireSnooze. */
    method Snooze(id: string, minutes: nat)
      modifies this`tasks, this`activeAlarm, this`snoozeTimers
      ensures tasks == MergeById(old(tasks), id, SnoozePatch)
      ensures activeAlarm == None
      ensures snoozeTimers == old(snoozeTimers) + [SnoozeTimer(id, minutes)]
    {
      UpdateTask(id, SnoozePatch);
      activeAlarm := None;
      snoozeTimers := snoozeTimers + [SnoozeTimer(id, minutes)];
    }

    /** Pending timer `k` fires: its task, if still there, is un-snoozed. */
    method ExpireSnooze(k: nat)
      requires k < |snoozeTimers|
      modifies this`tasks, this`snoozeTimers
      ensures tasks == MergeById(old(tasks), old(snoozeTimers)[k].id, UnsnoozePatch)
      ensures snoozeTimers == old(snoozeTimers)[..k] + old(snoozeTimers)[k + 1..]
    {
      var timer := snoozeTimers[k];
      snoozeTimers := snoozeTimers[..k] + snoozeTimers[k + 1..];
      UpdateTask(timer.id, UnsnoozePatch);
    }

    method Postpone(id: string, date: string, time: string)
      modifies this`tasks, this`activeAlarm
      ensures tasks == MergeById(old(tasks), id, PostponePatch(date, time))
      ensures activeAlarm == None
    {
      UpdateTask(id, PostponePatch(date, time));
      activeAlarm := None;
    }

    // -------------------------------------------------------------------
    // The voice session's transcripts

    /** One message of the live session: transcript pieces are appended to
        their buffers; on turn completion the buffers go to the memory bank
        and are reset. */
    method OnLiveMessage(input: Option<Transcription>, output: Option<Transcription>, turnComplete: bool, stamp: string)
      modifies this`inputTranscript, this`outputTranscript, this`memoryBank
      ensures var heard := old(inputTranscript) + Appended(input);
              var spoken := old(outputTranscript) + Appended(output);
        if turnComplete then
          memoryBank == AfterTurn(old(memoryBank), heard, spoken, stamp)
          && inputTranscript == "" && outputTranscript == ""
        else
          memoryBank == old(memoryBank) && inputTranscript == heard && outputTranscript == spoken
    {
      var heard := inputTranscript + Appended(input);
      var spoken := outputTranscript + Appended(output);
      if turnComplete {
        memoryBank := AfterTurn(memoryBank, heard, spoken, stamp);
        inputTranscript, outputTranscript := "", "";
      } else {
        inputTranscript, outputTranscript := heard, spoken;
      }
    }
  }
}
