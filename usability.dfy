/**
 * The usability-testing tool (usability.py): four append-only CSV logs under
 * `data/`, a session holding the task timer's two keys, the consent gate, the
 * demographic and exit forms, and the task selector that picks which task page,
 * timed or not, is shown. Each button press is a method call whose inputs (form
 * values, clock, formatted timestamp) are parameters.
 */
module Usability {
  import opened Optional
  import opened CsvLog
  import TaskTimer

  // The four logs, as `os.path.join('data', ...)` names them.

  const ConsentCsv := "data/consent_data.csv"
  const DemographicCsv := "data/demographic_data.csv"
  const TaskCsv := "data/task_data.csv"
  const ExitCsv := "data/exit_data.csv"

  lemma LogPathsDistinct()
    ensures |{ConsentCsv, DemographicCsv, TaskCsv, ExitCsv}| == 4
  {
  }

  // The records each form writes; their header rows are the logs' columns.

  const ConsentColumns: Row := [Text("timestamp"), Text("consent_given")]
  const DemographicColumns: Row :=
    [Text("timestamp"), Text("name"), Text("age"), Text("occupation"), Text("familiarity")]
  const TaskColumns: Row :=
    [Text("timestamp"), Text("task_name"), Text("success"), Text("duration_seconds"), Text("notes")]
  const ExitColumns: Row :=
    [Text("timestamp"), Text("satisfaction"), Text("difficulty"), Text("open_feedback")]

  /** The consent record; only a ticked box is ever recorded, so the flag is true. */
  function ConsentRecord(timestamp: string): (r: Record)
    ensures HeaderRow(r) == ConsentColumns
    ensures DataRow(r) == [Text(timestamp), Flag(true)]
  {
    [("timestamp", Text(timestamp)), ("consent_given", Flag(true))]
  }

  function DemographicRecord(timestamp: string, name: string, age: string, occupation: string,
                             familiarity: string): (r: Record)
    ensures HeaderRow(r) == DemographicColumns
    ensures DataRow(r) == [Text(timestamp), Text(name), Text(age), Text(occupation), Text(familiarity)]
  {
    [("timestamp", Text(timestamp)), ("name", Text(name)), ("age", Text(age)),
     ("occupation", Text(occupation)), ("familiarity", Text(familiarity))]
  }

  function TaskRecord(timestamp: string, taskName: string, success: string, duration: Value,
                      notes: string): (r: Record)
    ensures HeaderRow(r) == TaskColumns
    ensures DataRow(r) == [Text(timestamp), Text(taskName), Text(success), duration, Text(notes)]
  {
    [("timestamp", Text(timestamp)), ("task_name", Text(taskName)), ("success", Text(success)),
     ("duration_seconds", duration), ("notes", Text(notes))]
  }

  function ExitRecord(timestamp: string, satisfaction: int, difficulty: int, feedback: string): (r: Record)
    ensures HeaderRow(r) == ExitColumns
    ensures DataRow(r) == [Text(timestamp), Number(satisfaction), Number(difficulty), Text(feedback)]
  {
    [("timestamp", Text(timestamp)), ("satisfaction", Number(satisfaction)),
     ("difficulty", Number(difficulty)), ("open_feedback", Text(feedback))]
  }

  /** Task records all share one schema, so the task log reads back record for
      record, whatever tasks were saved (likewise for the other three logs). */
  lemma {:induction false} TaskLogRoundTrip(files: Store, rs: seq<Record>)
    requires TaskCsv !in files && rs != []
    requires forall i :: 0 <= i < |rs| ==> HeaderRow(rs[i]) == TaskColumns
    ensures Load(SaveAll(files, TaskCsv, rs), TaskCsv).columns == TaskColumns
    ensures Aligned(Load(SaveAll(files, TaskCsv, rs), TaskCsv))
    ensures Records(Load(SaveAll(files, TaskCsv, rs), TaskCsv)) == rs
  {
    LoadAfterSaves(files, TaskCsv, rs);
  }

  /** The `duration_seconds` cell: the stored duration, or the empty string. */
  function DurationCell(t: TaskTimer.Timer): (v: Value)
    ensures t.taskDuration.Some? ==> v == Number(t.taskDuration.value)
    ensures t.taskDuration.None? ==> v == Text("")
  {
    match t.taskDuration
    case Some(d) => Number(d)
    case None => Text("")
  }

  // The task selector.

  /** Which task page is shown: its name and whether it has the timer buttons. */
  datatype Task = Task(name: string, timed: bool)

  /** The selector's options, in order. */
  const TaskOptions: seq<string> :=
    ["Task 1: Full App Flow (Timed)", "Task 2: Advanced Mode Testing", "Task 3: Interpreting Output"]

  /** The dispatch as written: the Task 2 branch compares against a label the
      selector does not offer, so every option but the first shows Task 3. */
  function SelectTask(option: string): (t: Task)
    ensures t.timed <==> option == TaskOptions[0]
    ensures t.name == "Task 1" <==> option == TaskOptions[0]
    ensures t.name == "Task 2" <==> option == "Task 2: Enable Advanced Mode"
    ensures option in TaskOptions ==> t.name != "Task 2"
  {
    if option == "Task 1: Full App Flow (Timed)" then Task("Task 1", true)
    else if option == "Task 2: Enable Advanced Mode" then Task("Task 2", false)
    else Task("Task 3", false)
  }

  /** The second option shows the Task 3 page. */
  lemma Task2OptionShowsTask3()
    ensures SelectTask(TaskOptions[1]) == Task("Task 3", false)
    ensures SelectTask(TaskOptions[1]) == SelectTask(TaskOptions[2])
  {
  }

  /** The dispatch with the Task 2 branch comparing against the offered label. */
  function SelectTaskIntended(option: string): (t: Task)
    ensures t.timed <==> option == TaskOptions[0]
    ensures forall i | 0 <= i < |TaskOptions| ::
              option == TaskOptions[i] ==> t.name == ["Task 1", "Task 2", "Task 3"][i]
  {
    if option == TaskOptions[0] then Task("Task 1", true)
    else if option == TaskOptions[1] then Task("Task 2", false)
    else Task("Task 3", false)
  }

  // Button presses on the task page.

  datatype TaskButton = StartTimerButton | StopTimerButton | SaveResultsButton | NoButton

  /** The timer press a button amounts to on the page of `task`: the timer buttons
      exist only on the timed page; Save exists on every page. */
  function TimerPress(task: Task, button: TaskButton, now: int): (p: Option<TaskTimer.Press>)
    ensures p.Some? && !p.value.SavePress? ==> task.timed
    ensures p == Some(TaskTimer.SavePress) <==> button == SaveResultsButton
    ensures task.timed && button == StartTimerButton ==> p == Some(TaskTimer.StartPress(now))
    ensures task.timed && button == StopTimerButton ==> p == Some(TaskTimer.StopPress(now))
    ensures button == NoButton ==> p == None
  {
    match button
    case StartTimerButton => if task.timed then Some(TaskTimer.StartPress(now)) else None
    case StopTimerButton => if task.timed then Some(TaskTimer.StopPress(now)) else None
    case SaveResultsButton => Some(TaskTimer.SavePress)
    case NoButton => None
  }

  /** One browser session of the tool, with the files it writes to. */
  class Session {
    var startTime: Option<int>
    var taskDuration: Option<int>
    var files: Store

    /** The session's timer keys. */
    function Timer(): TaskTimer.Timer
      reads this
    {
      TaskTimer.Timer(startTime, taskDuration)
    }

    ghost predicate Valid()
      reads this
    {
      TaskTimer.Paired(Timer())
    }

    /** A new session: no timer keys, and the files already on disk. */
    constructor (disk: Store)
      ensures Valid() && Timer() == TaskTimer.Idle && files == disk
    {
      startTime, taskDuration := None, None;
      files := disk;
    }

    /** `save_to_csv`. */
    method SaveToCsv(record: Record, path: string)
      modifies this`files
      ensures files == Append(old(files), path, record)
    {
      if path !in files {
        files := files[path := [HeaderRow(record), DataRow(record)]];
      } else {
        files := files[path := files[path] + [DataRow(record)]];
      }
    }

    /** `load_from_csv`: reads and changes nothing. */
    method LoadFromCsv(path: string) returns (frame: Frame)
      ensures frame == Load(files, path)
    {
      if path in files && files[path] != [] {
        frame := Frame(files[path][0], files[path][1..]);
      } else {
        frame := EmptyFrame;
      }
    }

    /** Start Task Timer. */
    method StartTaskTimer(now: int)
      requires Valid()
      modifies this`startTime
      ensures Valid() && Timer() == TaskTimer.Start(old(Timer()), now)
    {
      startTime := Some(now);
    }

    /** Stop Task Timer: ignored unless a start is recorded. */
    method StopTaskTimer(now: int)
      requires Valid()
      modifies this`taskDuration
      ensures Valid() && Timer() == TaskTimer.Stop(old(Timer()), now)
    {
      if startTime.Some? {
        taskDuration := Some(now - startTime.value);
      }
    }

    /** Save Task Results: one task record with the stored duration, whether or
        not this task is timed, then both timer keys are removed. */
    method SaveTaskResults(taskName: string, success: string, notes: string, timestamp: string)
      modifies this
      ensures Valid() && Timer() == TaskTimer.Idle
      ensures files == Append(old(files), TaskCsv,
                              TaskRecord(timestamp, taskName, success, DurationCell(old(Timer())), notes))
    {
      var durationVal := DurationCell(Timer());
      SaveToCsv(TaskRecord(timestamp, taskName, success, durationVal, notes), TaskCsv);
      startTime := None;
      taskDuration := None;
    }

    /** A press on the task page chosen by `option`. */
    method TaskPage(option: string, button: TaskButton, now: int, success: string, notes: string,
                    timestamp: string)
      requires Valid()
      modifies this
      ensures Valid()
      ensures var p := TimerPress(SelectTask(option), button, now);
              Timer() == if p.Some? then TaskTimer.Step(old(Timer()), p.value) else old(Timer())
      ensures button != SaveResultsButton ==> files == old(files)
      ensures button == SaveResultsButton ==>
                files == Append(old(files), TaskCsv, TaskRecord(timestamp, SelectTask(option).name, success,
                                                                DurationCell(old(Timer())), notes))
    {
      var task := SelectTask(option);
      if task.timed {
        if button == StartTimerButton {
          StartTaskTimer(now);
        }
        if button == StopTimerButton {
          StopTaskTimer(now);
        }
      }
      if button == SaveResultsButton {
        SaveTaskResults(task.name, success, notes, timestamp);
      }
    }

    /** Submit Consent: nothing is written unless the box is ticked. */
    method SubmitConsent(consentGiven: bool, timestamp: string)
      modifies this`files
      ensures !consentGiven ==> files == old(files)
      ensures consentGiven ==> files == Append(old(files), ConsentCsv, ConsentRecord(timestamp))
    {
      if consentGiven {
        SaveToCsv(ConsentRecord(timestamp), ConsentCsv);
      }
    }

    /** Submit of the demographic form. */
    method SubmitDemographics(name: string, age: string, occupation: string, familiarity: string,
                              timestamp: string)
      modifies this`files
      ensures files == Append(old(files), DemographicCsv,
                              DemographicRecord(timestamp, name, age, occupation, familiarity))
    {
      SaveToCsv(DemographicRecord(timestamp, name, age, occupation, familiarity), DemographicCsv);
    }

    /** Submit of the exit questionnaire. */
    method SubmitExit(satisfaction: int, difficulty: int, feedback: string, timestamp: string)
      modifies this`files
      ensures files == Append(old(files), ExitCsv, ExitRecord(timestamp, satisfaction, difficulty, feedback))
    {
      SaveToCsv(ExitRecord(timestamp, satisfaction, difficulty, feedback), ExitCsv);
    }
  }

  /** A duration timed on the Task 1 page and not saved there is recorded by the
      next save, made on the untimed Task 3 page. */
  method LeftoverDurationScenario(disk: Store, started: int, stopped: int, success: string,
                                  notes: string, timestamp: string) returns (row: Row)
    ensures row == [Text(timestamp), Text("Task 3"), Text(success), Number(stopped - started), Text(notes)]
  {
    var session := new Session(disk);
    session.TaskPage(TaskOptions[0], StartTimerButton, started, success, notes, timestamp);
    session.TaskPage(TaskOptions[0], StopTimerButton, stopped, success, notes, timestamp);
    TaskTimer.StartThenStop(TaskTimer.Idle, started, stopped);
    session.TaskPage(TaskOptions[2], SaveResultsButton, stopped, success, notes, timestamp);
    var log := session.files[TaskCsv];
    row := log[|log| - 1];
  }

  /** Submitting consent twice on a fresh disk, the first time unticked: the consent
      log holds the header and the one ticked record, and no other file exists. */
  method ConsentScenario(first: string, second: string) returns (log: seq<Row>, paths: set<string>)
    ensures log == [ConsentColumns, [Text(second), Flag(true)]]
    ensures paths == {ConsentCsv}
  {
    var session := new Session(map[]);
    session.SubmitConsent(false, first);
    session.SubmitConsent(true, second);
    log := session.files[ConsentCsv];
    paths := session.files.Keys;
  }
}
