/** The per-worker task record and the status derived from it
    (src/lib/task.ts). The record store is a map from worker id to the stored
    `task.json`; a missing key is a worker without a task file. */
module Tasks {
  import opened Js

  /** A task record with the fields the commands read and write. `issue` is
      optional: dispatch writes it only when one was given. */
  datatype Task = Task(
    repo: string,
    issue: Option<int>,
    prompt: Option<string>,
    pid: Option<int>,
    startedAt: Option<string>,
    error: Option<string>)

  /** `${task.issue}` in a template string: a missing issue prints as "undefined". */
  function IssueDisplay(issue: Option<int>): string {
    match issue
    case None => "undefined"
    case Some(n) => IntToString(n)
  }

  /** What `JSON.parse` makes of a task file: a task, or something that makes
      `readTask` return null (text that is not JSON, or the JSON `null`). */
  datatype FileBody = Json(task: Task) | Garbled

  /** A file on disk: its body and its modification time in milliseconds. */
  datatype StoredFile = StoredFile(body: FileBody, mtime: int)

  type TaskFiles = map<string, StoredFile>

  /** `readTask`: the parsed task, or none when the file is missing or does
      not parse; it never fails. */
  function ReadTask(files: TaskFiles, id: string): (r: Option<Task>)
    ensures r.None? <==> id !in files || files[id].body.Garbled?
    ensures r.Some? ==> files[id].body == Json(r.value)
  {
    if id in files && files[id].body.Json? then Some(files[id].body.task) else None
  }

  /** `writeTask`: replaces the worker's task file, written at time `mtime`. */
  function WriteTask(files: TaskFiles, id: string, t: Task, mtime: int): (r: TaskFiles)
    ensures ReadTask(r, id) == Some(t)
    ensures forall other :: other != id ==> ReadTask(r, other) == ReadTask(files, other)
    ensures r.Keys == files.Keys + {id}
  {
    files[id := StoredFile(Json(t), mtime)]
  }

  /** `isProcessRunning(pid)`: the zero signal reaches the process. `live` is
      the set of pids for which `process.kill(pid, 0)` does not throw. */
  predicate IsProcessRunning(live: set<int>, pid: int) {
    pid in live
  }

  /** `task.pid && isProcessRunning(task.pid)`: a pid of 0 counts as absent. */
  predicate Running(t: Task, live: set<int>) {
    NumTruthy(t.pid) && IsProcessRunning(live, t.pid.value)
  }

  datatype WorkerStatus = Idle | Busy | Crashed

  datatype Resolution = Resolution(status: WorkerStatus, task: Option<Task>)

  /** `getWorkerStatus`: idle without a task, busy while the recorded process
      runs, crashed when the record is there but its process is not. The task
      is handed back as it was read. */
  function GetWorkerStatus(task: Option<Task>, live: set<int>): (r: Resolution)
    ensures r.task == task
    ensures r.status == Idle <==> task.None?
    ensures r.status == Busy <==> task.Some? && Running(task.value, live)
    ensures r.status == Crashed <==> task.Some? && !Running(task.value, live)
  {
    match task
    case None => Resolution(Idle, None)
    case Some(t) => if Running(t, live) then Resolution(Busy, task) else Resolution(Crashed, task)
  }

  /** The status of worker `id` over the store and the live pids. */
  function StatusIn(files: TaskFiles, live: set<int>, id: string): Resolution {
    GetWorkerStatus(ReadTask(files, id), live)
  }

  /** A task whose pid is missing or 0 is crashed whatever runs. */
  lemma ZeroPidIsCrashed(t: Task, live: set<int>)
    requires t.pid == None || t.pid == Some(0)
    ensures GetWorkerStatus(Some(t), live).status == Crashed
  {
  }

  /** A busy worker whose process exits becomes crashed, without any write. */
  lemma ExitMakesCrashed(files: TaskFiles, live: set<int>, id: string)
    requires StatusIn(files, live, id).status == Busy
    ensures var t := ReadTask(files, id).value;
      StatusIn(files, live - {t.pid.value}, id) == Resolution(Crashed, Some(t))
  {
  }

  /** Writing a task whose pid runs makes the worker busy with that task. */
  lemma WriteRunningMakesBusy(files: TaskFiles, live: set<int>, id: string, t: Task, mtime: int)
    requires Running(t, live)
    ensures StatusIn(WriteTask(files, id, t, mtime), live, id) == Resolution(Busy, Some(t))
  {
  }

  /** Removing the task file makes the worker idle. */
  lemma RemoveMakesIdle(files: TaskFiles, live: set<int>, id: string)
    ensures StatusIn(files - {id}, live, id) == Resolution(Idle, None)
  {
  }

  /** A worker's status depends on its own record only. */
  lemma StatusIsPerWorker(files: TaskFiles, files': TaskFiles, live: set<int>, id: string)
    requires ReadTask(files, id) == ReadTask(files', id)
    ensures StatusIn(files, live, id) == StatusIn(files', live, id)
  {
  }
}
