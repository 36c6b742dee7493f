/** Auto-assignment (src/commands/assign.ts): one search for the owner's open
    issues, the issues nobody has claimed, and the first of them handed to the
    first idle worker. */
module Assign {
  import opened Js
  import opened Tasks
  import opened Paths
  import opened Host
  import opened Dispatch

  /** An issue as the search returns it; `labels` holds the label names and
      `repo` the repository's `nameWithOwner`. */
  datatype Issue = Issue(number: int, title: string, labels: seq<string>, repo: string)

  /** `gh search issues --state open --owner @me --json number,title,labels,repository`. */
  const SearchIssuesArgs: seq<string> :=
    ["search", "issues", "--state", "open", "--owner", "@me", "--json", "number,title,labels,repository"]

  /** No label claims the issue for a worker, marks it as a pull request or
      blocks it. */
  predicate Unassigned(issue: Issue) {
    && (forall i :: 0 <= i < |issue.labels| ==> !StartsWith(issue.labels[i], "worker:"))
    && "pull-request" !in issue.labels
    && "blocked" !in issue.labels
  }

  /** `issues.filter(...)`, keeping the search order. */
  function KeepUnassigned(issues: seq<Issue>): (r: seq<Issue>)
    ensures |r| <= |issues|
    ensures forall x :: x in r <==> x in issues && Unassigned(x)
  {
    if issues == [] then []
    else
      var rest := KeepUnassigned(issues[1..]);
      assert forall x :: x in issues <==> x == issues[0] || x in issues[1..];
      if Unassigned(issues[0]) then [issues[0]] + rest else rest
  }

  /** `getUnassignedIssues` over the reply of the search. */
  function UnassignedIssues(reply: GhReply<seq<Issue>>): seq<Issue> {
    KeepUnassigned(Payload(reply))
  }

  /** The kept issues are exactly the unassigned ones of a successful search,
      none after a failed one, and the first kept issue is the first
      unassigned one in search order. */
  lemma {:induction false} UnassignedIssuesFilter(reply: GhReply<seq<Issue>>)
    ensures reply.exitStatus != Some(0) || reply.json.None? ==> UnassignedIssues(reply) == []
    ensures forall x :: x in UnassignedIssues(reply) <==> x in Payload(reply) && Unassigned(x)
    ensures UnassignedIssues(reply) != [] ==>
      exists k :: 0 <= k < |Payload(reply)| && Payload(reply)[k] == UnassignedIssues(reply)[0]
        && forall j :: 0 <= j < k ==> !Unassigned(Payload(reply)[j])
  {
    FirstKept(Payload(reply));
  }

  lemma {:induction false} FirstKept(issues: seq<Issue>)
    ensures KeepUnassigned(issues) != [] ==>
      exists k :: 0 <= k < |issues| && issues[k] == KeepUnassigned(issues)[0]
        && forall j :: 0 <= j < k ==> !Unassigned(issues[j])
  {
    if issues != [] && !Unassigned(issues[0]) {
      FirstKept(issues[1..]);
      if KeepUnassigned(issues[1..]) != [] {
        var k :| 0 <= k < |issues[1..]| && issues[1..][k] == KeepUnassigned(issues[1..])[0]
          && forall j :: 0 <= j < k ==> !Unassigned(issues[1..][j]);
        assert issues[k + 1] == issues[1..][k];
        assert forall j :: 1 <= j < k + 1 ==> issues[j] == issues[1..][j - 1];
      }
    }
  }

  datatype AssignOutcome = NoUnassignedIssues | NoIdleWorker | Assigned(worker: string, issue: Issue, dispatched: DispatchEnd)

  /** `assign()` as a function of the world and the reply of the search. */
  function AssignSpec(w: World, reply: GhReply<seq<Issue>>, env: DispatchEnv): Step<AssignOutcome> {
    var searched := w.(trace := w.trace + [Gh(SearchIssuesArgs)]);
    var issues := UnassignedIssues(reply);
    if issues == [] then Step(NoUnassignedIssues, searched)
    else
      var found := FirstIdle(searched);
      if found.None? || found.value == "" then Step(NoIdleWorker, searched)
      else
        var issue := issues[0];
        var s := DispatchSpec(searched, found.value, issue.repo, Some(issue.number), None, NoOptions, env);
        Step(Assigned(found.value, issue, s.result), s.world)
  }

  method Assign(h: Host, reply: GhReply<seq<Issue>>, env: DispatchEnv) returns (outcome: AssignOutcome)
    modifies h`tasks, h`live, h`trace
    ensures Step(outcome, h.State()) == AssignSpec(old(h.State()), reply, env)
  {
    h.RunGh(SearchIssuesArgs);
    var issues := UnassignedIssues(reply);
    if |issues| == 0 {
      return NoUnassignedIssues;
    }
    var workerId := FindIdleWorker(h);
    if workerId.None? || workerId.value == "" {
      return NoIdleWorker;
    }
    var issue := issues[0];
    var end := Dispatch.Dispatch(h, workerId.value, issue.repo, Some(issue.number), None, NoOptions, env);
    outcome := Assigned(workerId.value, issue, end);
  }

  /** Without an unassigned issue or without an idle worker other than the
      special agents, assignment only searches: no record, no spawn. */
  lemma AssignNothingToDo(w: World, reply: GhReply<seq<Issue>>, env: DispatchEnv)
    requires UnassignedIssues(reply) == [] || FirstIdle(w).None? || FirstIdle(w).value == ""
    ensures var s := AssignSpec(w, reply, env);
      && !s.result.Assigned?
      && s.world == w.(trace := w.trace + [Gh(SearchIssuesArgs)])
  {
    FirstIdleIgnoresTrace(w, w.trace + [Gh(SearchIssuesArgs)]);
  }

  /** Otherwise the first unassigned issue goes, without a prompt, to the first
      idle worker, and that dispatch gets past its checks: when the spawn gives
      a pid the worker ends up with the issue's record, and when it fails the
      process is aborted with the records unchanged. */
  lemma AssignDispatchesFirstIssue(w: World, reply: GhReply<seq<Issue>>, env: DispatchEnv)
    requires UnassignedIssues(reply) != [] && FirstIdle(w).Some? && FirstIdle(w).value != ""
    ensures var s := AssignSpec(w, reply, env);
      var id := FirstIdle(w).value;
      var issue := UnassignedIssues(reply)[0];
      && s.result == Assigned(id, issue, if env.childPid.Some? then Returned(true) else Aborted)
      && !IsReserved(id)
      && Unassigned(issue)
      && (env.childPid.Some? ==>
            ReadTask(s.world.tasks, id) == Some(Task(issue.repo, Some(issue.number), TaskPrompt(None, NoOptions, env), env.childPid, Some(env.now.iso), None)))
      && (env.childPid.None? ==> s.world.tasks == w.tasks)
  {
    var searched := w.(trace := w.trace + [Gh(SearchIssuesArgs)]);
    FirstIdleIgnoresTrace(w, searched.trace);
    FirstIdleIsFirstIdleCandidate(searched);
    assert UnassignedIssues(reply)[0] in UnassignedIssues(reply);
  }
}
