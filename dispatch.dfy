/** Handing a task to a worker (src/commands/dispatch.ts): the idle-worker
    search shared with auto-assignment, and `dispatch`, which rejects an
    unknown or busy worker, takes over a crashed one, labels the issue, starts
    the agent and only then writes the task record. */
module Dispatch {
  import opened Js
  import opened Tasks
  import opened Paths
  import opened Host
  import Sorting

  /** The issue label that marks a worker's claim. */
  function WorkerLabel(id: string): (tag: string)
    ensures StartsWith(tag, "worker:")
    ensures tag[|"worker:"|..] == id
  {
    "worker:" + id
  }

  /** The special agents that auto-assignment never picks. */
  predicate IsReserved(id: string) {
    id == "vilicus" || id == "dispensator"
  }

  /** `ids.filter(id => id !== "vilicus" && id !== "dispensator")`. */
  function WithoutReserved(ids: seq<string>): (r: seq<string>)
    ensures |r| <= |ids|
    ensures forall x :: x in r <==> x in ids && !IsReserved(x)
    ensures Sorting.SortedBy(ids, Sorting.StrLe) ==> Sorting.SortedBy(r, Sorting.StrLe)
  {
    if ids == [] then []
    else
      var rest := WithoutReserved(ids[1..]);
      assert forall x :: x in ids <==> x == ids[0] || x in ids[1..];
      if IsReserved(ids[0]) then rest
      else
        assert Sorting.SortedBy(ids, Sorting.StrLe) ==> forall k :: 0 <= k < |rest| ==> rest[k] in ids[1..];
        [ids[0]] + rest
  }

  /** The workers auto-assignment may pick, in `getWorkerIds` order. */
  function Candidates(w: World): seq<string> {
    WithoutReserved(GetWorkerIds(w.root))
  }

  function FirstIdleAmong(w: World, ids: seq<string>): Option<string> {
    if ids == [] then None
    else if StatusOf(w, ids[0]).status == Idle then Some(ids[0])
    else FirstIdleAmong(w, ids[1..])
  }

  /** What `findIdleWorker` returns. */
  function FirstIdle(w: World): Option<string> {
    FirstIdleAmong(w, Candidates(w))
  }

  lemma {:induction false} FirstIdleAmongIsFirst(w: World, ids: seq<string>)
    ensures FirstIdleAmong(w, ids).None? <==> forall i :: 0 <= i < |ids| ==> StatusOf(w, ids[i]).status != Idle
    ensures FirstIdleAmong(w, ids).Some? ==>
      (exists k :: 0 <= k < |ids| && ids[k] == FirstIdleAmong(w, ids).value
        && StatusOf(w, ids[k]).status == Idle
        && forall j :: 0 <= j < k ==> StatusOf(w, ids[j]).status != Idle)
  {
    if ids != [] && StatusOf(w, ids[0]).status != Idle {
      FirstIdleAmongIsFirst(w, ids[1..]);
      if FirstIdleAmong(w, ids[1..]).Some? {
        var k :| 0 <= k < |ids[1..]| && ids[1..][k] == FirstIdleAmong(w, ids[1..]).value
          && StatusOf(w, ids[1..][k]).status == Idle
          && forall j :: 0 <= j < k ==> StatusOf(w, ids[1..][j]).status != Idle;
        assert ids[k + 1] == ids[1..][k];
        assert forall j :: 0 < j < k + 1 ==> ids[j] == ids[1..][j - 1];
      } else {
        assert forall i :: 1 <= i < |ids| ==> ids[i] == ids[1..][i - 1];
      }
    }
  }

  /** `findIdleWorker` picks the first idle worker in sorted id order that is
      not a special agent, and none when there is no such worker. */
  lemma FirstIdleIsFirstIdleCandidate(w: World)
    ensures var c := Candidates(w);
      && (FirstIdle(w).None? <==> forall i :: 0 <= i < |c| ==> StatusOf(w, c[i]).status != Idle)
      && (FirstIdle(w).Some? ==>
            (exists k :: 0 <= k < |c| && c[k] == FirstIdle(w).value
              && StatusOf(w, c[k]).status == Idle
              && forall j :: 0 <= j < k ==> StatusOf(w, c[j]).status != Idle))
    ensures FirstIdle(w).Some? ==> var id := FirstIdle(w).value;
      && !IsReserved(id) && HomeExists(w, id) && StatusOf(w, id).status == Idle
    ensures Sorting.SortedBy(Candidates(w), Sorting.StrLe)
  {
    FirstIdleAmongIsFirst(w, Candidates(w));
  }

  /** The choice depends on the listing, the records and the live pids only. */
  lemma {:induction false} FirstIdleAmongIgnoresTrace(w: World, t: seq<Effect>, ids: seq<string>)
    ensures FirstIdleAmong(w.(trace := t), ids) == FirstIdleAmong(w, ids)
  {
    if ids != [] {
      FirstIdleAmongIgnoresTrace(w, t, ids[1..]);
    }
  }

  lemma FirstIdleIgnoresTrace(w: World, t: seq<Effect>)
    ensures FirstIdle(w.(trace := t)) == FirstIdle(w)
  {
    FirstIdleAmongIgnoresTrace(w, t, Candidates(w));
  }

  /** `findIdleWorker`, a loop over the candidates with an early return. */
  method FindIdleWorker(h: Host) returns (found: Option<string>)
    ensures found == FirstIdle(h.State())
  {
    var ids := GetWorkerIds(h.root);
    var workerIds := WithoutReserved(ids);
    ghost var w := h.State();
    for i := 0 to |workerIds|
      invariant FirstIdleAmong(w, workerIds) == FirstIdleAmong(w, workerIds[i..])
    {
      assert workerIds[i..][1..] == workerIds[i + 1..];
      var res := GetWorkerStatus(ReadTask(h.tasks, workerIds[i]), h.live);
      if res.status == Idle {
        return Some(workerIds[i]);
      }
    }
    return None;
  }

  datatype Options = Options(silent: bool, skipStdin: bool)

  /** What `dispatch()` run without options gets. */
  const NoOptions: Options := Options(false, false)

  /** What the environment supplies to one dispatch: whether stdin is a
      terminal and its whole text, the pid the spawned agent got (none when
      the spawn failed, `child.pid` then being undefined) and the current
      time. */
  datatype DispatchEnv = DispatchEnv(stdinIsTTY: bool, stdin: string, childPid: Option<int>, now: Instant)

  /** Dispatch reads standard input only when no prompt was given, stdin is not
      skipped and it is not a terminal. */
  predicate ReadsStdin(prompt: Option<string>, opts: Options, env: DispatchEnv) {
    !StrTruthy(prompt) && !opts.skipStdin && !env.stdinIsTTY
  }

  /** The prompt read from stdin: the trimmed text, none when that is empty. */
  function StdinPrompt(input: string): (p: Option<string>)
    ensures p.None? <==> Trim(input) == ""
    ensures p.Some? ==> p.value == Trim(input)
  {
    var text := Trim(input);
    if text == "" then None else Some(text)
  }

  /** Input made only of white space and line terminators gives no prompt. */
  lemma StdinPromptNoneIffBlank(input: string)
    ensures StdinPrompt(input).None? <==> forall i :: 0 <= i < |input| ==> IsSpace(input[i])
  {
    TrimEmptyIffBlank(input);
  }

  function TaskPrompt(prompt: Option<string>, opts: Options, env: DispatchEnv): Option<string> {
    if ReadsStdin(prompt, opts, env) then StdinPrompt(env.stdin) else prompt
  }

  const WorkerLabelColor: string := "0E8A16"
  const PullRequestLabelColor: string := "1D76DB"

  /** `gh label create <name> --repo <repo> --color <color> --force`. */
  function CreateLabelArgs(name: string, repo: string, color: string): seq<string> {
    ["label", "create", name, "--repo", repo, "--color", color, "--force"]
  }

  /** `gh issue edit <issue> --repo <repo> <flag> <name>`. */
  function EditLabelArgs(issue: int, repo: string, flag: string, name: string): seq<string> {
    ["issue", "edit", IntToString(issue), "--repo", repo, flag, name]
  }

  /** The three `gh` calls that label an issue for worker `id`. */
  function LabelCalls(id: string, repo: string, issue: int): seq<Effect> {
    [ Gh(CreateLabelArgs(WorkerLabel(id), repo, WorkerLabelColor)),
      Gh(CreateLabelArgs("pull-request", repo, PullRequestLabelColor)),
      Gh(EditLabelArgs(issue, repo, "--add-label", WorkerLabel(id))) ]
  }

  /** The record a successful dispatch writes. */
  function DispatchedTask(repo: string, issue: Option<int>, prompt: Option<string>, opts: Options, env: DispatchEnv): Task {
    Task(repo, issue, TaskPrompt(prompt, opts, env), env.childPid, Some(env.now.iso), None)
  }

  function StdinEffects(prompt: Option<string>, opts: Options, env: DispatchEnv): seq<Effect> {
    if ReadsStdin(prompt, opts, env) then [StdinRead] else []
  }

  function IssueEffects(id: string, repo: string, issue: Option<int>): seq<Effect> {
    if NumTruthy(issue) then LabelCalls(id, repo, issue.value) else []
  }

  /** The effects of a dispatch that passed its checks, up to the spawn. */
  function AttemptEffects(id: string, repo: string, issue: Option<int>, prompt: Option<string>, opts: Options, env: DispatchEnv): seq<Effect> {
    StdinEffects(prompt, opts, env) + IssueEffects(id, repo, issue) + [SpawnEffect(id, env.childPid)]
  }

  /** The world after a dispatch whose spawn failed: the stdin read, the label
      calls and the spawn attempt happened; no process runs and no record was
      written. */
  function SpawnFailed(w: World, id: string, repo: string, issue: Option<int>, prompt: Option<string>, opts: Options, env: DispatchEnv): World {
    w.(trace := w.trace + AttemptEffects(id, repo, issue, prompt, opts, env))
  }

  /** The world after a dispatch whose agent was spawned. */
  function Launched(w: World, id: string, repo: string, issue: Option<int>, prompt: Option<string>, opts: Options, env: DispatchEnv): World {
    w.(tasks := WriteTask(w.tasks, id, DispatchedTask(repo, issue, prompt, opts, env), env.now.millis),
       live := SpawnedLive(w.live, env.childPid),
       trace := w.trace + StdinEffects(prompt, opts, env) + IssueEffects(id, repo, issue)
         + [SpawnEffect(id, env.childPid)] + [TaskWritten(id)])
  }

  /** How a dispatch ends: it returns `ok`, or its spawn failed and the
      `'error'` event, for which nothing listens, is thrown at the next
      `await` and ends the process with exit status 1 before the record is
      written. */
  datatype DispatchEnd = Returned(ok: bool) | Aborted

  /** The part of `dispatch` after its checks: prompt, labels, spawn and, when
      the spawn gave a pid, the record. */
  function LaunchSpec(w: World, id: string, repo: string, issue: Option<int>, prompt: Option<string>, opts: Options, env: DispatchEnv): Step<DispatchEnd> {
    if env.childPid.None? then Step(Aborted, SpawnFailed(w, id, repo, issue, prompt, opts, env))
    else Step(Returned(true), Launched(w, id, repo, issue, prompt, opts, env))
  }

  /** `dispatch(id, repo, issue, prompt, options)` as a function of the world:
      how it ended, and the world after it. */
  function DispatchSpec(w: World, id: string, repo: string, issue: Option<int>, prompt: Option<string>, opts: Options, env: DispatchEnv): Step<DispatchEnd> {
    if !HomeExists(w, id) then Step(Returned(false), w)
    else if StatusOf(w, id).status == Busy then Step(Returned(false), w)
    else LaunchSpec(w, id, repo, issue, prompt, opts, env)
  }

  /** Creates the worker's label and the pull-request label in the repository
      and puts the worker's label on the issue. */
  method LabelIssue(h: Host, id: string, repo: string, issue: int)
    modifies h`trace
    ensures h.trace == old(h.trace) + LabelCalls(id, repo, issue)
  {
    var tag := WorkerLabel(id);
    h.RunGh(CreateLabelArgs(tag, repo, WorkerLabelColor));
    h.RunGh(CreateLabelArgs("pull-request", repo, PullRequestLabelColor));
    h.RunGh(EditLabelArgs(issue, repo, "--add-label", tag));
  }

  /** The given prompt, or when there is none and stdin is a pipe, what stdin holds. */
  method ResolvePrompt(h: Host, prompt: Option<string>, opts: Options, env: DispatchEnv) returns (taskPrompt: Option<string>)
    modifies h`trace
    ensures taskPrompt == TaskPrompt(prompt, opts, env)
    ensures h.trace == old(h.trace) + StdinEffects(prompt, opts, env)
  {
    taskPrompt := prompt;
    if !StrTruthy(taskPrompt) && !opts.skipStdin && !env.stdinIsTTY {
      var input := h.ReadStdin(env.stdin);
      taskPrompt := StdinPrompt(input);
    }
  }

  /** The part of `dispatch` after its checks: prompt, labels, spawn, record. */
  method Launch(h: Host, id: string, repo: string, issue: Option<int>, prompt: Option<string>, opts: Options, env: DispatchEnv)
    returns (end: DispatchEnd)
    modifies h`tasks, h`live, h`trace
    ensures Step(end, h.State()) == LaunchSpec(old(h.State()), id, repo, issue, prompt, opts, env)
  {
    ghost var w := h.State();
    var taskPrompt := ResolvePrompt(h, prompt, opts, env);
    if NumTruthy(issue) {
      LabelIssue(h, id, repo, issue.value);
    }
    ghost var a, b := StdinEffects(prompt, opts, env), IssueEffects(id, repo, issue);
    assert h.trace == w.trace + a + b;
    h.Spawn(id, env.childPid);
    assert h.trace == w.trace + a + b + [SpawnEffect(id, env.childPid)];
    if env.childPid.None? {
      assert h.State() == SpawnFailed(w, id, repo, issue, prompt, opts, env) by {
        SeqAssoc(w.trace, a, b, [SpawnEffect(id, env.childPid)]);
      }
      return Aborted;
    }
    h.WriteTask(id, Task(repo, issue, taskPrompt, env.childPid, Some(env.now.iso), None), env.now.millis);
    assert h.State() == Launched(w, id, repo, issue, prompt, opts, env);
    end := Returned(true);
  }

  method Dispatch(h: Host, id: string, repo: string, issue: Option<int>, prompt: Option<string>, opts: Options, env: DispatchEnv)
    returns (end: DispatchEnd)
    modifies h`tasks, h`live, h`trace
    ensures Step(end, h.State()) == DispatchSpec(old(h.State()), id, repo, issue, prompt, opts, env)
  {
    ghost var w := h.State();
    if !(h.root.Some? && DirEntry(id, true) in h.root.value) {
      assert !HomeExists(w, id);
      return Returned(false);
    }
    var existing := ReadTask(h.tasks, id);
    if existing.Some? && NumTruthy(existing.value.pid) && IsProcessRunning(h.live, existing.value.pid.value) {
      assert StatusOf(w, id).status == Busy;
      return Returned(false);
    }
    assert HomeExists(w, id) && StatusOf(w, id).status != Busy;
    end := Launch(h, id, repo, issue, prompt, opts, env);
  }

  /** Dispatch returns true exactly when the home exists, the worker is not
      busy and the spawn gave a pid; it returns false exactly when the home is
      missing or the worker busy; it is aborted exactly when the spawn failed. */
  lemma DispatchSucceedsIff(w: World, id: string, repo: string, issue: Option<int>, prompt: Option<string>, opts: Options, env: DispatchEnv)
    ensures var r := DispatchSpec(w, id, repo, issue, prompt, opts, env).result;
      && (r == Returned(true) <==> HomeExists(w, id) && StatusOf(w, id).status != Busy && env.childPid.Some?)
      && (r == Returned(false) <==> !HomeExists(w, id) || StatusOf(w, id).status == Busy)
      && (r == Aborted <==> HomeExists(w, id) && StatusOf(w, id).status != Busy && env.childPid.None?)
  {
  }

  /** A refused dispatch changes nothing: no record, no spawn, no `gh` call. */
  lemma DispatchFailureChangesNothing(w: World, id: string, repo: string, issue: Option<int>, prompt: Option<string>, opts: Options, env: DispatchEnv)
    requires !HomeExists(w, id) || StatusOf(w, id).status == Busy
    ensures DispatchSpec(w, id, repo, issue, prompt, opts, env) == Step(Returned(false), w)
  {
  }

  /** A dispatch whose spawn failed writes no record and starts no process: the
      records, the live pids, the archive, the listing and so the worker's
      status are those from before. */
  lemma DispatchSpawnFailureWritesNothing(w: World, id: string, repo: string, issue: Option<int>, prompt: Option<string>, opts: Options, env: DispatchEnv)
    requires DispatchSpec(w, id, repo, issue, prompt, opts, env).result == Aborted
    ensures var w' := DispatchSpec(w, id, repo, issue, prompt, opts, env).world;
      && w'.tasks == w.tasks && w'.live == w.live && w'.completed == w.completed && w'.root == w.root
      && StatusOf(w', id) == StatusOf(w, id)
  {
  }

  /** A dispatch that returned true replaces the record whole, a crashed one
      included: nothing of the old task (its error, say) survives, and the
      written pid is the spawned child's. Other workers' records are
      untouched. */
  lemma DispatchReplacesRecord(w: World, id: string, repo: string, issue: Option<int>, prompt: Option<string>, opts: Options, env: DispatchEnv)
    requires HomeExists(w, id) && StatusOf(w, id).status != Busy && env.childPid.Some?
    ensures var w' := DispatchSpec(w, id, repo, issue, prompt, opts, env).world;
      && ReadTask(w'.tasks, id) == Some(Task(repo, issue, TaskPrompt(prompt, opts, env), env.childPid, Some(env.now.iso), None))
      && ReadTask(w'.tasks, id).value.error.None?
      && (forall other :: other != id ==> ReadTask(w'.tasks, other) == ReadTask(w.tasks, other))
      && w'.completed == w.completed && w'.root == w.root
  {
  }

  /** The effects of a dispatch whose agent was spawned. */
  function LaunchEffects(id: string, repo: string, issue: Option<int>, prompt: Option<string>, opts: Options, env: DispatchEnv): seq<Effect> {
    AttemptEffects(id, repo, issue, prompt, opts, env) + [TaskWritten(id)]
  }

  /** The effects of a dispatch: none when refused, the stdin read, the label
      calls and the spawn when aborted, and the record write after them when
      it returned true. */
  function DispatchEffects(r: DispatchEnd, id: string, repo: string, issue: Option<int>, prompt: Option<string>, opts: Options, env: DispatchEnv): seq<Effect> {
    match r
    case Returned(ok) => if ok then LaunchEffects(id, repo, issue, prompt, opts, env) else []
    case Aborted => AttemptEffects(id, repo, issue, prompt, opts, env)
  }

  lemma DispatchNewEffects(w: World, id: string, repo: string, issue: Option<int>, prompt: Option<string>, opts: Options, env: DispatchEnv)
    ensures var s := DispatchSpec(w, id, repo, issue, prompt, opts, env);
      && w.trace <= s.world.trace
      && NewEffects(w, s.world) == DispatchEffects(s.result, id, repo, issue, prompt, opts, env)
  {
    if HomeExists(w, id) && StatusOf(w, id).status != Busy {
      LaunchedEffects(w, id, repo, issue, prompt, opts, env);
    }
  }

  lemma LaunchedEffects(w: World, id: string, repo: string, issue: Option<int>, prompt: Option<string>, opts: Options, env: DispatchEnv)
    ensures Launched(w, id, repo, issue, prompt, opts, env).trace
      == w.trace + LaunchEffects(id, repo, issue, prompt, opts, env)
  {
    var a, b := StdinEffects(prompt, opts, env), IssueEffects(id, repo, issue);
    var t := [SpawnEffect(id, env.childPid), TaskWritten(id)];
    assert [SpawnEffect(id, env.childPid)] + [TaskWritten(id)] == t;
    assert LaunchEffects(id, repo, issue, prompt, opts, env) == a + b + t;
    SeqAssoc(w.trace, a, b, t);
  }

  lemma SeqAssoc<T>(p: seq<T>, a: seq<T>, b: seq<T>, t: seq<T>)
    ensures p + a + b + t == p + (a + b + t)
  {
  }

  /** When dispatch returns true the agent was spawned just before the only
      record write, which comes last and holds the spawned child's pid; when
      it is aborted the failed spawn is the last effect and nothing was
      written. Nothing earlier spawns or writes. */
  lemma {:induction false} DispatchSpawnsBeforeWrite(w: World, id: string, repo: string, issue: Option<int>, prompt: Option<string>, opts: Options, env: DispatchEnv)
    requires DispatchSpec(w, id, repo, issue, prompt, opts, env).result != Returned(false)
    ensures var s := DispatchSpec(w, id, repo, issue, prompt, opts, env);
      var n := NewEffects(w, s.world);
      var k := if s.result == Aborted then |n| - 1 else |n| - 2;
      && 0 <= k < |n|
      && n[k] == Spawned(WorkerHome(id), AgentArgs, env.childPid)
      && (s.result == Aborted <==> k == |n| - 1)
      && (s.result == Returned(true) ==> n[|n| - 1] == TaskWritten(id) && ReadTask(s.world.tasks, id).value.pid == env.childPid)
      && (forall i :: 0 <= i < k ==> !n[i].Spawned? && !n[i].TaskWritten?)
  {
    DispatchNewEffects(w, id, repo, issue, prompt, opts, env);
    AttemptEndsWithSpawn(id, repo, issue, prompt, opts, env);
  }

  lemma {:induction false} AttemptEndsWithSpawn(id: string, repo: string, issue: Option<int>, prompt: Option<string>, opts: Options, env: DispatchEnv)
    ensures var n := AttemptEffects(id, repo, issue, prompt, opts, env);
      && |n| >= 1
      && n[|n| - 1] == Spawned(WorkerHome(id), AgentArgs, env.childPid)
      && (forall i :: 0 <= i < |n| - 1 ==> !n[i].Spawned? && !n[i].TaskWritten?)
      && LaunchEffects(id, repo, issue, prompt, opts, env)[..|n|] == n
  {
    var a, b := StdinEffects(prompt, opts, env), IssueEffects(id, repo, issue);
    var n := AttemptEffects(id, repo, issue, prompt, opts, env);
    assert n == (a + b) + [SpawnEffect(id, env.childPid)];
    forall i | 0 <= i < |n| - 1 ensures !n[i].Spawned? && !n[i].TaskWritten? {
      assert n[i] == (a + b)[i];
      assert n[i] in a + b;
    }
  }

  lemma {:induction false} StdinReadInAttempt(id: string, repo: string, issue: Option<int>, prompt: Option<string>, opts: Options, env: DispatchEnv)
    ensures StdinRead in AttemptEffects(id, repo, issue, prompt, opts, env) <==> ReadsStdin(prompt, opts, env)
    ensures StdinRead in LaunchEffects(id, repo, issue, prompt, opts, env) <==> ReadsStdin(prompt, opts, env)
  {
    var a, b := StdinEffects(prompt, opts, env), IssueEffects(id, repo, issue);
    var t := [SpawnEffect(id, env.childPid)];
    assert StdinRead !in b && StdinRead !in t;
    assert forall e :: e in a + b + t <==> e in a || e in b || e in t;
    var n := AttemptEffects(id, repo, issue, prompt, opts, env);
    assert forall e :: e in n + [TaskWritten(id)] <==> e in n || e == TaskWritten(id);
  }

  lemma {:induction false} GhInAttempt(id: string, repo: string, issue: Option<int>, prompt: Option<string>, opts: Options, env: DispatchEnv)
    ensures (exists e :: e in AttemptEffects(id, repo, issue, prompt, opts, env) && e.Gh?) <==> NumTruthy(issue)
    ensures (exists e :: e in LaunchEffects(id, repo, issue, prompt, opts, env) && e.Gh?) <==> NumTruthy(issue)
  {
    var a, b := StdinEffects(prompt, opts, env), IssueEffects(id, repo, issue);
    var t := [SpawnEffect(id, env.childPid)];
    assert forall e :: e in a + b + t <==> e in a || e in b || e in t;
    var n := AttemptEffects(id, repo, issue, prompt, opts, env);
    assert forall e :: e in n + [TaskWritten(id)] <==> e in n || e == TaskWritten(id);
    if NumTruthy(issue) {
      assert b[0] in a + b + t;
    }
  }

  /** Standard input is read exactly when dispatch gets past its checks without
      a prompt, without `skipStdin` and on a non-terminal stdin, whether the
      spawn then fails or not; blank input becomes no prompt. */
  lemma {:induction false} DispatchStdinRule(w: World, id: string, repo: string, issue: Option<int>, prompt: Option<string>, opts: Options, env: DispatchEnv)
    ensures var s := DispatchSpec(w, id, repo, issue, prompt, opts, env);
      && (StdinRead in NewEffects(w, s.world) <==> s.result != Returned(false) && ReadsStdin(prompt, opts, env))
      && (s.result == Returned(true) && ReadsStdin(prompt, opts, env) ==>
            ReadTask(s.world.tasks, id).value.prompt == StdinPrompt(env.stdin))
  {
    DispatchNewEffects(w, id, repo, issue, prompt, opts, env);
    StdinReadInAttempt(id, repo, issue, prompt, opts, env);
  }

  /** Labels are touched, by `gh` calls, exactly when dispatch gets past its
      checks with a truthy issue; they stay even when the spawn then fails. */
  lemma {:induction false} DispatchLabelsOnlyWithIssue(w: World, id: string, repo: string, issue: Option<int>, prompt: Option<string>, opts: Options, env: DispatchEnv)
    ensures var s := DispatchSpec(w, id, repo, issue, prompt, opts, env);
      (exists e :: e in NewEffects(w, s.world) && e.Gh?) <==> s.result != Returned(false) && NumTruthy(issue)
  {
    DispatchNewEffects(w, id, repo, issue, prompt, opts, env);
    GhInAttempt(id, repo, issue, prompt, opts, env);
  }

  /** After a dispatch that returned true with a non-zero child pid, the worker
      resolves to busy with the written task. */
  lemma DispatchMakesBusy(w: World, id: string, repo: string, issue: Option<int>, prompt: Option<string>, opts: Options, env: DispatchEnv)
    requires DispatchSpec(w, id, repo, issue, prompt, opts, env).result == Returned(true)
    requires env.childPid.value != 0
    ensures var w' := DispatchSpec(w, id, repo, issue, prompt, opts, env).world;
      StatusOf(w', id) == Resolution(Busy, Some(DispatchedTask(repo, issue, prompt, opts, env)))
  {
  }
}
