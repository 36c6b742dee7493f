/** Waiting for a worker (src/commands/watch.ts): the status is read again and
    again, with a pause between reads, until it is no longer busy; idle ends
    with exit status 0, crashed with 1. What the store holds at each read is
    given as the sequence of observations, since other processes change it
    between reads; `watch` itself writes nothing. */
module Watch {
  import opened Js
  import opened Tasks

  /** The store and the live pids as one read finds them. */
  datatype Observation = Observation(tasks: TaskFiles, live: set<int>)

  /** The status `getWorkerStatus(id)` resolves at one read. */
  function Observed(id: string, o: Observation): Resolution {
    StatusIn(o.tasks, o.live, id)
  }

  function TaskLines(t: Task): seq<string> {
    ["  Repo: " + t.repo, "  Issue: #" + IssueDisplay(t.issue)]
  }

  /** What is printed once the worker is no longer busy. An idle worker has
      no record, so the idle branch's task lines never print; a crashed worker
      always has one. */
  function SettledLines(id: string, r: Resolution): seq<string> {
    if r.status == Idle || r.task.None? then ["Worker " + id + " finished (idle)"]
    else
      ["Worker " + id + " crashed"] + TaskLines(r.task.value)
      + (if StrTruthy(r.task.value.error) then ["  Error: " + r.task.value.error.value] else [])
  }

  /** The index of the first observation at or after `i` that is not busy. */
  function FirstSettledFrom(id: string, obs: seq<Observation>, i: nat): (k: Option<nat>)
    requires i <= |obs|
    decreases |obs| - i
    ensures k.Some? ==> i <= k.value < |obs| && Observed(id, obs[k.value]).status != Busy
  {
    if i == |obs| then None
    else if Observed(id, obs[i]).status != Busy then Some(i)
    else FirstSettledFrom(id, obs, i + 1)
  }

  /** How a watch ends: the exit status (none while it is still polling when
      the observations run out), the number of reads and the printed lines. */
  datatype Watched = Watched(exit: Option<int>, polls: nat, lines: seq<string>)

  function WatchSpec(id: string, obs: seq<Observation>): Watched {
    var header := ["Watching worker " + id + "..."];
    match FirstSettledFrom(id, obs, 0)
    case None => Watched(None, |obs|, header)
    case Some(k) =>
      var r := Observed(id, obs[k]);
      Watched(Some(if r.status == Idle then 0 else 1), k + 1, header + SettledLines(id, r))
  }

  method Watch(id: string, obs: seq<Observation>) returns (result: Watched)
    ensures result == WatchSpec(id, obs)
  {
    var out := ["Watching worker " + id + "..."];
    var i := 0;
    while i < |obs|
      invariant 0 <= i <= |obs|
      invariant FirstSettledFrom(id, obs, 0) == FirstSettledFrom(id, obs, i)
    {
      var res := GetWorkerStatus(ReadTask(obs[i].tasks, id), obs[i].live);
      if res.status == Idle {
        out := out + ["Worker " + id + " finished (idle)"];
        return Watched(Some(0), i + 1, out);
      }
      if res.status == Crashed {
        var t := res.task.value;
        out := out + ["Worker " + id + " crashed"];
        out := out + ["  Repo: " + t.repo, "  Issue: #" + IssueDisplay(t.issue)];
        if StrTruthy(t.error) {
          out := out + ["  Error: " + t.error.value];
        }
        return Watched(Some(1), i + 1, out);
      }
      i := i + 1;
    }
    return Watched(None, |obs|, out);
  }

  lemma {:induction false} FirstSettledFromIsFirst(id: string, obs: seq<Observation>, i: nat)
    requires i <= |obs|
    decreases |obs| - i
    ensures var k := FirstSettledFrom(id, obs, i);
      && (k.None? <==> forall j :: i <= j < |obs| ==> Observed(id, obs[j]).status == Busy)
      && (k.Some? ==> forall j :: i <= j < k.value ==> Observed(id, obs[j]).status == Busy)
  {
    if i < |obs| && Observed(id, obs[i]).status == Busy {
      FirstSettledFromIsFirst(id, obs, i + 1);
    }
  }

  /** The watch polls exactly while the worker is busy and stops at the first
      observation that is not: 0 for idle, 1 for crashed. */
  lemma WatchStopsAtFirstSettled(id: string, obs: seq<Observation>)
    ensures var r := WatchSpec(id, obs);
      && r.polls <= |obs|
      && (r.exit.None? <==> forall j :: 0 <= j < |obs| ==> Observed(id, obs[j]).status == Busy)
      && (r.exit.None? ==> r.polls == |obs|)
      && (r.exit.Some? ==>
            && 1 <= r.polls
            && (forall j :: 0 <= j < r.polls - 1 ==> Observed(id, obs[j]).status == Busy)
            && (r.exit == Some(0) <==> Observed(id, obs[r.polls - 1]).status == Idle)
            && (r.exit == Some(1) <==> Observed(id, obs[r.polls - 1]).status == Crashed))
  {
    FirstSettledFromIsFirst(id, obs, 0);
  }

  /** The lines printed: the header alone while still busy; the verdict line
      "finished (idle)" alone for idle; for crashed the verdict line "crashed",
      the repository, the issue (`#undefined` when there is none) and the
      error as a fifth line exactly when the record's error is set. */
  lemma WatchLines(id: string, obs: seq<Observation>)
    ensures var r := WatchSpec(id, obs);
      && r.lines[0] == "Watching worker " + id + "..."
      && (r.exit.None? ==> |r.lines| == 1)
      && (r.exit == Some(0) ==> r.lines == ["Watching worker " + id + "...", "Worker " + id + " finished (idle)"])
      && (r.exit == Some(1) ==>
            var t := Observed(id, obs[r.polls - 1]).task.value;
            && 4 <= |r.lines| <= 5
            && r.lines[1] == "Worker " + id + " crashed"
            && r.lines[2] == "  Repo: " + t.repo
            && r.lines[3] == "  Issue: #" + IssueDisplay(t.issue)
            && (t.issue.None? ==> r.lines[3] == "  Issue: #undefined")
            && (|r.lines| == 5 <==> StrTruthy(t.error))
            && (|r.lines| == 5 ==> r.lines[4] == "  Error: " + t.error.value))
  {
  }
}
