/** The machine the commands run on: the workers root and its listing, each
    worker's task file and `completed/` archive, the process table as the set
    of pids the liveness probe reaches, and the trace of outward effects
    (process spawns, signals, `gh` calls, stdin reads and task-file changes)
    in the order they happen. `World` is the value; `Host` is the object the
    commands update in place. */
module Host {
  import opened Js
  import opened Tasks
  import opened Paths

  /** A file in a worker's `completed/` directory. */
  datatype ArchiveEntry = ArchiveEntry(name: string, file: StoredFile)

  datatype Signal = SIGTERM | SIGKILL

  /** `new Date()`: its ISO-8601 text and its value in milliseconds. */
  datatype Instant = Instant(iso: string, millis: int)

  /** The answer of a `gh` invocation: its exit status (none when killed by a
      signal) and its standard output parsed as JSON (none when it does not
      parse). */
  datatype GhReply<T> = GhReply(exitStatus: Option<int>, json: Option<T>)

  /** What the callers of `gh` make of a reply: a non-zero exit, a missing exit
      status or unparseable output all give the empty list. */
  function Payload<T>(reply: GhReply<seq<T>>): (r: seq<T>)
    ensures reply.exitStatus != Some(0) ==> r == []
    ensures reply.json.None? ==> r == []
    ensures reply.exitStatus == Some(0) && reply.json.Some? ==> r == reply.json.value
  {
    if reply.exitStatus == Some(0) && reply.json.Some? then reply.json.value else []
  }

  datatype Effect =
    | Spawned(home: string, args: seq<string>, pid: Option<int>)
    | Signalled(target: int, signal: Signal)
    | Gh(args: seq<string>)
    | StdinRead
    | TaskWritten(worker: string)
    | TaskArchived(worker: string, name: string)
    | TaskRemoved(worker: string)

  /** The instruction every agent process is started with. */
  const StartPrompt: string := "Read ~/task.json and execute the task following your CLAUDE.md instructions."

  /** The arguments of `claude` for a worker run. */
  const AgentArgs: seq<string> := ["--print", "--dangerously-skip-permissions", StartPrompt]

  /** The effect of starting the agent for worker `id`. */
  function SpawnEffect(id: string, pid: Option<int>): Effect {
    Spawned(WorkerHome(id), AgentArgs, pid)
  }

  /** The live pids after a spawn that gave `pid`. */
  function SpawnedLive(live: set<int>, pid: Option<int>): set<int> {
    if pid.Some? then live + {pid.value} else live
  }

  datatype World = World(
    root: Option<seq<DirEntry>>,
    tasks: TaskFiles,
    completed: map<string, seq<ArchiveEntry>>,
    live: set<int>,
    trace: seq<Effect>)

  /** The world after signal `s` went to `pid`; `ends` is whether the process
      is gone afterwards. */
  function AfterSignal(w: World, pid: int, s: Signal, ends: bool): World {
    w.(live := if ends then w.live - {pid} else w.live, trace := w.trace + [Signalled(pid, s)])
  }

  /** What a command returns, and the world after it. */
  datatype Step<R> = Step(result: R, world: World)

  /** The effects a command added to the trace. */
  function NewEffects(w: World, w': World): seq<Effect> {
    if |w.trace| <= |w'.trace| then w'.trace[|w.trace|..] else []
  }

  /** The root lists `id` as a directory. This is when `readdir(workerHome(id))`
      succeeds for an id that is a single path segment whose home is not a
      symbolic link. */
  predicate HomeExists(w: World, id: string) {
    w.root.Some? && DirEntry(id, true) in w.root.value
  }

  function StatusOf(w: World, id: string): Resolution {
    StatusIn(w.tasks, w.live, id)
  }

  /** Moving a file into a directory replaces any file of the same name. */
  function Put(entries: seq<ArchiveEntry>, e: ArchiveEntry): (r: seq<ArchiveEntry>)
    ensures |r| > 0 && r[|r| - 1] == e
    ensures forall x :: x in r ==> x == e || x in entries
    ensures forall x :: x in entries && x.name != e.name ==> x in r
  {
    if entries == [] then [e]
    else if entries[0].name == e.name then Put(entries[1..], e)
    else [entries[0]] + Put(entries[1..], e)
  }

  class Host {
    var root: Option<seq<DirEntry>>
    var tasks: TaskFiles
    var completed: map<string, seq<ArchiveEntry>>
    var live: set<int>
    var trace: seq<Effect>

    function State(): World
      reads this
    {
      World(root, tasks, completed, live, trace)
    }

    constructor (w: World)
      ensures State() == w
    {
      root, tasks, completed, live, trace := w.root, w.tasks, w.completed, w.live, w.trace;
    }

    /** `writeTask(id, t)` at time `mtime`. */
    method WriteTask(id: string, t: Task, mtime: int)
      modifies this`tasks, this`trace
      ensures tasks == Tasks.WriteTask(old(tasks), id, t, mtime)
      ensures trace == old(trace) + [TaskWritten(id)]
    {
      tasks := Tasks.WriteTask(tasks, id, t, mtime);
      trace := trace + [TaskWritten(id)];
    }

    /** Starts the agent in the worker's home; its pid, when it got one, is live. */
    method Spawn(id: string, pid: Option<int>)
      modifies this`live, this`trace
      ensures live == SpawnedLive(old(live), pid)
      ensures trace == old(trace) + [SpawnEffect(id, pid)]
    {
      live := SpawnedLive(live, pid);
      trace := trace + [SpawnEffect(id, pid)];
    }

    /** `process.kill(pid, signal)`; `ends` says whether the process is gone
        afterwards (always for SIGKILL). */
    method Kill(pid: int, signal: Signal, ends: bool)
      requires signal == SIGKILL ==> ends
      modifies this`live, this`trace
      ensures live == if ends then old(live) - {pid} else old(live)
      ensures trace == old(trace) + [Signalled(pid, signal)]
    {
      if ends {
        live := live - {pid};
      }
      trace := trace + [Signalled(pid, signal)];
    }

    method RunGh(args: seq<string>)
      modifies this`trace
      ensures trace == old(trace) + [Gh(args)]
    {
      trace := trace + [Gh(args)];
    }

    /** Drains standard input, whose whole text is `input`. */
    method ReadStdin(input: string) returns (text: string)
      modifies this`trace
      ensures text == input
      ensures trace == old(trace) + [StdinRead]
    {
      text := input;
      trace := trace + [StdinRead];
    }

    /** `rename(task.json, completed/name)`. */
    method ArchiveTask(id: string, name: string)
      requires id in tasks && id in completed
      modifies this`tasks, this`completed, this`trace
      ensures tasks == old(tasks) - {id}
      ensures completed == old(completed)[id := Put(old(completed)[id], ArchiveEntry(name, old(tasks)[id]))]
      ensures trace == old(trace) + [TaskArchived(id, name)]
    {
      completed := completed[id := Put(completed[id], ArchiveEntry(name, tasks[id]))];
      tasks := tasks - {id};
      trace := trace + [TaskArchived(id, name)];
    }

    /** `unlink(task.json)`. */
    method RemoveTask(id: string)
      modifies this`tasks, this`trace
      ensures tasks == old(tasks) - {id}
      ensures trace == old(trace) + [TaskRemoved(id)]
    {
      tasks := tasks - {id};
      trace := trace + [TaskRemoved(id)];
    }
  }
}
