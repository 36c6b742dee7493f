/** Resuming a stopped or crashed worker (src/commands/restart.ts): the agent
    is started again on the task already on record, and the record is
    rewritten with the new pid and every other field kept. */
module Restart {
  import opened Js
  import opened Tasks
  import opened Paths
  import opened Host

  /** The record after a restart: the old one with only the pid replaced. */
  function Respawned(t: Task, childPid: Option<int>): Task {
    t.(pid := childPid)
  }

  /** `restart(id)` as a function of the world: the exit status (0 for the
      normal return) and the world after it. The new record is written at
      time `mtime`. A spawn that gives no pid has failed: its `'error'`
      event, for which nothing listens, is thrown at the next `await` and ends
      the process with exit status 1 before the record is written. */
  function RestartSpec(w: World, id: string, childPid: Option<int>, mtime: int): Step<int> {
    match ReadTask(w.tasks, id)
    case None => Step(1, w)
    case Some(t) =>
      if Running(t, w.live) then Step(1, w)
      else if childPid.None? then Step(1, w.(trace := w.trace + [SpawnEffect(id, childPid)]))
      else Step(0, w.(
        tasks := WriteTask(w.tasks, id, Respawned(t, childPid), mtime),
        live := SpawnedLive(w.live, childPid),
        trace := w.trace + [SpawnEffect(id, childPid)] + [TaskWritten(id)]))
  }

  method Restart(h: Host, id: string, childPid: Option<int>, mtime: int) returns (exit: int)
    modifies h`tasks, h`live, h`trace
    ensures Step(exit, h.State()) == RestartSpec(old(h.State()), id, childPid, mtime)
  {
    var task := ReadTask(h.tasks, id);
    if task.None? {
      return 1;
    }
    if NumTruthy(task.value.pid) && IsProcessRunning(h.live, task.value.pid.value) {
      return 1;
    }
    h.Spawn(id, childPid);
    if childPid.None? {
      return 1;
    }
    h.WriteTask(id, task.value.(pid := childPid), mtime);
    return 0;
  }

  /** Restart returns normally exactly on a crashed worker, one with a record
      whose process is not running, when the spawn gives a pid. Otherwise it
      exits 1 and writes no record and starts no process; without a record
      or with a running process it does nothing at all, and after a failed
      spawn only that spawn attempt happened. */
  lemma RestartOnlyWhenCrashed(w: World, id: string, childPid: Option<int>, mtime: int)
    ensures var s := RestartSpec(w, id, childPid, mtime);
      && (s.result == 0 <==> StatusOf(w, id).status == Crashed && childPid.Some?)
      && (s.result != 0 ==> s.result == 1 && s.world.tasks == w.tasks && s.world.live == w.live)
      && (StatusOf(w, id).status != Crashed ==> s == Step(1, w))
      && (StatusOf(w, id).status == Crashed && childPid.None? ==>
            s.world == w.(trace := w.trace + [SpawnEffect(id, None)]))
  {
  }

  /** After a restart the record differs from the old one in its pid alone,
      which is the new child's; other workers' records are untouched. */
  lemma RestartReplacesOnlyPid(w: World, id: string, childPid: Option<int>, mtime: int)
    requires RestartSpec(w, id, childPid, mtime).result == 0
    ensures var old_ := ReadTask(w.tasks, id).value;
      var new_ := ReadTask(RestartSpec(w, id, childPid, mtime).world.tasks, id).value;
      && new_.pid == childPid
      && new_.repo == old_.repo && new_.issue == old_.issue && new_.prompt == old_.prompt
      && new_.startedAt == old_.startedAt && new_.error == old_.error
    ensures forall other :: other != id ==>
      ReadTask(RestartSpec(w, id, childPid, mtime).world.tasks, other) == ReadTask(w.tasks, other)
  {
  }

  /** The spawn comes first and the record write second, and nothing else
      happens. */
  lemma {:induction false} RestartSpawnsBeforeWrite(w: World, id: string, childPid: Option<int>, mtime: int)
    requires RestartSpec(w, id, childPid, mtime).result == 0
    ensures NewEffects(w, RestartSpec(w, id, childPid, mtime).world) == [SpawnEffect(id, childPid), TaskWritten(id)]
  {
    var w' := RestartSpec(w, id, childPid, mtime).world;
    assert w'.trace == w.trace + [SpawnEffect(id, childPid), TaskWritten(id)];
  }

  /** A restarted worker whose new process got a non-zero pid is busy again,
      on the same task. */
  lemma RestartMakesBusy(w: World, id: string, childPid: Option<int>, mtime: int)
    requires RestartSpec(w, id, childPid, mtime).result == 0
    requires childPid.Some? && childPid.value != 0
    ensures StatusOf(RestartSpec(w, id, childPid, mtime).world, id)
      == Resolution(Busy, Some(Respawned(ReadTask(w.tasks, id).value, childPid)))
  {
  }
}
