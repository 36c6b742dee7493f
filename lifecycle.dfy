/** A worker's life across the commands: dispatch makes it busy, its agent
    exiting leaves it crashed, restart makes it busy again, and reset makes
    it idle and files the finished task where the history finds it. The
    lemmas here chain the specifications of the single commands. */
module Lifecycle {
  import opened Js
  import opened Tasks
  import opened Host
  import opened Dispatch
  import opened Reset
  import opened Restart
  import opened Status
  import opened History

  /** The world after the process `pid` ended on its own. */
  function Exited(w: World, pid: int): World {
    w.(live := w.live - {pid})
  }

  /** A dispatch whose agent got a non-zero pid leaves the worker busy with
      the new task; once the agent exits the worker is crashed with that same
      task, nothing having been written. */
  lemma DispatchThenExit(w: World, id: string, repo: string, issue: Option<int>, prompt: Option<string>, opts: Options, env: DispatchEnv)
    requires HomeExists(w, id) && StatusOf(w, id).status != Busy
    requires env.childPid.Some? && env.childPid.value != 0
    ensures var t := DispatchedTask(repo, issue, prompt, opts, env);
      var w1 := DispatchSpec(w, id, repo, issue, prompt, opts, env).world;
      && StatusOf(w1, id) == Resolution(Busy, Some(t))
      && StatusOf(Exited(w1, env.childPid.value), id) == Resolution(Crashed, Some(t))
  {
    var w1 := DispatchSpec(w, id, repo, issue, prompt, opts, env).world;
    DispatchMakesBusy(w, id, repo, issue, prompt, opts, env);
    ExitMakesCrashed(w1.tasks, w1.live, id);
  }

  /** Restarting a crashed worker makes it busy again on its task, with the
      new process's pid. */
  lemma CrashThenRestart(w: World, id: string, childPid: Option<int>, mtime: int)
    requires StatusOf(w, id).status == Crashed
    requires childPid.Some? && childPid.value != 0
    ensures var s := RestartSpec(w, id, childPid, mtime);
      && s.result == 0
      && StatusOf(s.world, id) == Resolution(Busy, Some(StatusOf(w, id).task.value.(pid := childPid)))
  {
    RestartMakesBusy(w, id, childPid, mtime);
  }

  /** Resetting a crashed worker needs no force: it makes the worker idle,
      and when the worker has a `completed/` directory and the archive name
      is a plain file name the history of the worker then lists the task,
      dated by its record's modification time. */
  lemma CrashThenReset(w: World, id: string, now: Instant)
    requires StatusOf(w, id).status == Crashed
    requires id in w.completed
    requires ReadTask(w.tasks, id).Some?
    requires '/' !in ArchiveName(ReadTask(w.tasks, id).value.repo, ReadTask(w.tasks, id).value.issue, now.iso)
    ensures var t := StatusOf(w, id).task.value;
      var s := ResetSpec(w, id, false, now, true);
      && s.result == 0
      && StatusOf(s.world, id).status == Idle
      && CompletedTask(t, id, w.tasks[id].mtime) in CompletedTasks(s.world, id)
  {
    var t := ReadTask(w.tasks, id).value;
    var s := ResetSpec(w, id, false, now, true);
    ResetMakesIdle(w, id, false, now, true);
    var name := ArchiveName(t.repo, t.issue, now.iso);
    ResetArchivesRecord(w, id, false, now, true);
    ArchiveNameIsJson(t.repo, t.issue, now.iso);
    var c := CompletedTask(t, id, w.tasks[id].mtime);
    assert w.tasks[id] == StoredFile(Json(c.task), c.completedAt);
    CompletedTasksMembers(s.world, id, c);
  }

  /** The whole life of one task: dispatched, its agent exits, the worker is
      reset, and the history lists the task with the time of its dispatch,
      for a repository with at most one '/' and a time stamp without one. */
  lemma DispatchedTaskReachesHistory(w: World, id: string, repo: string, issue: Option<int>, prompt: Option<string>, opts: Options, env: DispatchEnv, now: Instant)
    requires HomeExists(w, id) && StatusOf(w, id).status != Busy
    requires env.childPid.Some? && env.childPid.value != 0
    requires id in w.completed
    requires AtMostOneSlash(repo) && '/' !in now.iso
    ensures var w2 := Exited(DispatchSpec(w, id, repo, issue, prompt, opts, env).world, env.childPid.value);
      var s := ResetSpec(w2, id, false, now, true);
      && s.result == 0
      && StatusOf(s.world, id).status == Idle
      && CompletedTask(DispatchedTask(repo, issue, prompt, opts, env), id, env.now.millis) in CompletedTasks(s.world, id)
  {
    var w1 := DispatchSpec(w, id, repo, issue, prompt, opts, env).world;
    var w2 := Exited(w1, env.childPid.value);
    DispatchThenExit(w, id, repo, issue, prompt, opts, env);
    DispatchReplacesRecord(w, id, repo, issue, prompt, opts, env);
    assert w2.tasks[id].mtime == env.now.millis;
    ArchiveNamePlainIff(repo, issue, now.iso);
    CrashThenReset(w2, id, now);
  }

  /** The issue a worker was dispatched on is not orphaned while the worker
      is busy with it, nor after its agent exits; after a reset every issue
      still carrying the worker's label is. */
  lemma DispatchedIssueNotOrphaned(w: World, id: string, repo: string, n: int, title: string, prompt: Option<string>, opts: Options, env: DispatchEnv, now: Instant)
    requires HomeExists(w, id) && StatusOf(w, id).status != Busy
    requires env.childPid.Some? && env.childPid.value != 0
    ensures var li := LabeledIssue(repo, n, title, id);
      var w1 := DispatchSpec(w, id, repo, Some(n), prompt, opts, env).world;
      var w2 := Exited(w1, env.childPid.value);
      var w3 := ResetSpec(w2, id, false, now, true).world;
      && !Orphaned(GetWorkerInfo(w1.tasks, w1.live, id), li)
      && !Orphaned(GetWorkerInfo(w2.tasks, w2.live, id), li)
      && Orphaned(GetWorkerInfo(w3.tasks, w3.live, id), li)
  {
    var li := LabeledIssue(repo, n, title, id);
    var w1 := DispatchSpec(w, id, repo, Some(n), prompt, opts, env).world;
    var w2 := Exited(w1, env.childPid.value);
    DispatchThenExit(w, id, repo, Some(n), prompt, opts, env);
    OrphanedIff(w1, id, li);
    OrphanedIff(w2, id, li);
    ResetMakesIdle(w2, id, false, now, true);
  }
}
