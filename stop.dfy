/** Stopping a worker's agent (src/commands/stop.ts): SIGTERM, a grace wait,
    then SIGKILL if the process is still there. The task record stays in
    place so that the worker can be restarted. */
module Stop {
  import opened Js
  import opened Tasks
  import opened Host

  /** `stop(id)` as a function of the world. `termHonoured` is whether the
      process exits within the grace wait after SIGTERM. */
  function StopSpec(w: World, id: string, termHonoured: bool): Step<int> {
    match ReadTask(w.tasks, id)
    case None => Step(1, w)
    case Some(t) =>
      if !NumTruthy(t.pid) then Step(1, w)
      else if !IsProcessRunning(w.live, t.pid.value) then Step(0, w)
      else
        var afterTerm := AfterSignal(w, t.pid.value, SIGTERM, termHonoured);
        if IsProcessRunning(afterTerm.live, t.pid.value) then Step(0, AfterSignal(afterTerm, t.pid.value, SIGKILL, true))
        else Step(0, afterTerm)
  }

  method Stop(h: Host, id: string, termHonoured: bool) returns (exit: int)
    modifies h`live, h`trace
    ensures Step(exit, h.State()) == StopSpec(old(h.State()), id, termHonoured)
  {
    var task := ReadTask(h.tasks, id);
    if task.None? {
      return 1;
    }
    if !NumTruthy(task.value.pid) {
      return 1;
    }
    var pid := task.value.pid.value;
    if !IsProcessRunning(h.live, pid) {
      return 0;
    }
    h.Kill(pid, SIGTERM, termHonoured);
    if IsProcessRunning(h.live, pid) {
      h.Kill(pid, SIGKILL, true);
    }
    return 0;
  }

  /** Stop fails, with exit status 1, exactly when there is no record or the
      record has no usable pid; it never touches the task store, the archive
      or the listing. */
  lemma StopFailsWithoutPid(w: World, id: string, termHonoured: bool)
    ensures var s := StopSpec(w, id, termHonoured);
      && (s.result == 1 <==> ReadTask(w.tasks, id).None? || !NumTruthy(ReadTask(w.tasks, id).value.pid))
      && (s.result != 1 ==> s.result == 0)
      && s.world.tasks == w.tasks && s.world.completed == w.completed && s.world.root == w.root
  {
  }

  /** A recorded pid that is not running gets no signal at all. */
  lemma StopDeadProcessSendsNothing(w: World, id: string, termHonoured: bool)
    requires ReadTask(w.tasks, id).Some? && StatusOf(w, id).status == Crashed
    ensures StopSpec(w, id, termHonoured).world.trace == w.trace
  {
  }

  /** On a running process: SIGTERM first, then SIGKILL exactly when SIGTERM was
      not honoured; afterwards the process is gone and the worker, whose record
      is still there, resolves to crashed. */
  lemma {:induction false} StopEscalates(w: World, id: string, termHonoured: bool)
    requires StatusOf(w, id).status == Busy
    ensures var pid := ReadTask(w.tasks, id).value.pid.value;
      var w' := StopSpec(w, id, termHonoured).world;
      && NewEffects(w, w') == (if termHonoured then [Signalled(pid, SIGTERM)]
                               else [Signalled(pid, SIGTERM), Signalled(pid, SIGKILL)])
      && pid !in w'.live
      && StatusOf(w', id) == Resolution(Crashed, ReadTask(w.tasks, id))
  {
    var pid := ReadTask(w.tasks, id).value.pid.value;
    var w' := StopSpec(w, id, termHonoured).world;
    if termHonoured {
      assert w'.trace == w.trace + [Signalled(pid, SIGTERM)];
    } else {
      assert w'.trace == w.trace + [Signalled(pid, SIGTERM)] + [Signalled(pid, SIGKILL)];
      assert w'.trace == w.trace + [Signalled(pid, SIGTERM), Signalled(pid, SIGKILL)];
    }
  }
}
