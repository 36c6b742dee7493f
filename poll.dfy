/** The review poll (src/commands/poll.ts): when the reviewing agent "vilicus"
    is idle, the first open pull request labelled "pull-request" is handed to
    it with a review prompt. */
module Poll {
  import opened Js
  import opened Tasks
  import opened Host
  import opened Dispatch

  /** A pull request as the search returns it; `repo` is `nameWithOwner`. */
  datatype PullRequest = PullRequest(number: int, repo: string, title: string)

  const Reviewer: string := "vilicus"

  /** `gh search prs --label pull-request --state open --owner @me --json number,repository,title`. */
  const SearchPrsArgs: seq<string> :=
    ["search", "prs", "--label", "pull-request", "--state", "open", "--owner", "@me", "--json", "number,repository,title"]

  /** `getPendingPRs` over the reply of the search. */
  function PendingPRs(reply: GhReply<seq<PullRequest>>): seq<PullRequest> {
    Payload(reply)
  }

  /** `${repo}#${number}`. */
  function ReviewKey(pr: PullRequest): string {
    pr.repo + "#" + IntToString(pr.number)
  }

  /** `Review PR #${number}: ${title}`. */
  function ReviewPrompt(pr: PullRequest): string {
    "Review PR #" + IntToString(pr.number) + ": " + pr.title
  }

  /** What the dispatch of a review gets: only `skipStdin`, so it reports as a
      plain dispatch does and never reads stdin. */
  const ReviewOptions: Options := Options(false, true)

  datatype PollOutcome = ReviewerBusy | ReviewerCrashed | NoPendingPRs | Reviewing(pr: PullRequest, dispatched: DispatchEnd)

  /** `poll()` as a function of the world and the reply of the search. */
  function PollSpec(w: World, reply: GhReply<seq<PullRequest>>, env: DispatchEnv): Step<PollOutcome> {
    var status := StatusOf(w, Reviewer).status;
    if status == Busy then Step(ReviewerBusy, w)
    else if status == Crashed then Step(ReviewerCrashed, w)
    else
      var searched := w.(trace := w.trace + [Gh(SearchPrsArgs)]);
      var prs := PendingPRs(reply);
      if prs == [] then Step(NoPendingPRs, searched)
      else
        var pr := prs[0];
        var s := DispatchSpec(searched, Reviewer, pr.repo, Some(pr.number), Some(ReviewPrompt(pr)), ReviewOptions, env);
        Step(Reviewing(pr, s.result), s.world)
  }

  method Poll(h: Host, reply: GhReply<seq<PullRequest>>, env: DispatchEnv) returns (outcome: PollOutcome)
    modifies h`tasks, h`live, h`trace
    ensures Step(outcome, h.State()) == PollSpec(old(h.State()), reply, env)
  {
    var res := GetWorkerStatus(ReadTask(h.tasks, Reviewer), h.live);
    if res.status == Busy {
      return ReviewerBusy;
    }
    if res.status == Crashed {
      return ReviewerCrashed;
    }
    h.RunGh(SearchPrsArgs);
    var prs := PendingPRs(reply);
    if |prs| == 0 {
      return NoPendingPRs;
    }
    var pr := prs[0];
    var end := Dispatch.Dispatch(h, Reviewer, pr.repo, Some(pr.number), Some(ReviewPrompt(pr)), ReviewOptions, env);
    outcome := Reviewing(pr, end);
  }

  /** While the reviewer is busy or crashed the poll does nothing at all, not
      even the search. */
  lemma PollWaitsForReviewer(w: World, reply: GhReply<seq<PullRequest>>, env: DispatchEnv)
    requires StatusOf(w, Reviewer).status != Idle
    ensures PollSpec(w, reply, env).world == w
  {
  }

  /** A failed search or an empty list leaves only the search behind. */
  lemma PollWithoutPRs(w: World, reply: GhReply<seq<PullRequest>>, env: DispatchEnv)
    requires StatusOf(w, Reviewer).status == Idle
    requires reply.exitStatus != Some(0) || reply.json.None? || reply.json.value == []
    ensures PollSpec(w, reply, env) == Step(NoPendingPRs, w.(trace := w.trace + [Gh(SearchPrsArgs)]))
  {
  }

  /** Otherwise the first pull request goes to the reviewer, its number as the
      issue and the review prompt as the prompt; stdin is never read. When the
      reviewer's home exists and the spawn gives a pid the record is written;
      a failed spawn aborts the poll and leaves the record as it was. */
  lemma {:induction false} PollDispatchesFirstPR(w: World, reply: GhReply<seq<PullRequest>>, env: DispatchEnv)
    requires StatusOf(w, Reviewer).status == Idle
    requires PendingPRs(reply) != []
    ensures var s := PollSpec(w, reply, env);
      var pr := PendingPRs(reply)[0];
      && s.result.Reviewing? && s.result.pr == pr
      && (s.result.dispatched == Returned(true) <==> HomeExists(w, Reviewer) && env.childPid.Some?)
      && (s.result.dispatched == Returned(false) <==> !HomeExists(w, Reviewer))
      && StdinRead !in NewEffects(w, s.world)
      && (HomeExists(w, Reviewer) && env.childPid.Some? ==>
            ReadTask(s.world.tasks, Reviewer)
            == Some(Task(pr.repo, Some(pr.number), Some(ReviewPrompt(pr)), env.childPid, Some(env.now.iso), None)))
      && (s.result.dispatched == Aborted ==> s.world.tasks == w.tasks)
  {
    var searched := w.(trace := w.trace + [Gh(SearchPrsArgs)]);
    var pr := PendingPRs(reply)[0];
    var prompt := Some(ReviewPrompt(pr));
    assert HomeExists(searched, Reviewer) == HomeExists(w, Reviewer);
    assert StatusOf(searched, Reviewer) == StatusOf(w, Reviewer);
    var s := DispatchSpec(searched, Reviewer, pr.repo, Some(pr.number), prompt, ReviewOptions, env);
    assert PollSpec(w, reply, env) == Step(Reviewing(pr, s.result), s.world);
    assert && (s.result == Returned(true) <==> HomeExists(w, Reviewer) && env.childPid.Some?)
           && (s.result == Returned(false) <==> !HomeExists(w, Reviewer)) by {
      DispatchSucceedsIff(searched, Reviewer, pr.repo, Some(pr.number), prompt, ReviewOptions, env);
    }
    var n := NewEffects(searched, s.world);
    assert StdinRead !in n by {
      DispatchStdinRule(searched, Reviewer, pr.repo, Some(pr.number), prompt, ReviewOptions, env);
    }
    if s.result == Returned(true) {
      DispatchReplacesRecord(searched, Reviewer, pr.repo, Some(pr.number), prompt, ReviewOptions, env);
    } else if s.result == Aborted {
      DispatchSpawnFailureWritesNothing(searched, Reviewer, pr.repo, Some(pr.number), prompt, ReviewOptions, env);
    }
    assert searched.trace <= s.world.trace by {
      DispatchNewEffects(searched, Reviewer, pr.repo, Some(pr.number), prompt, ReviewOptions, env);
    }
    assert s.world.trace == w.trace + ([Gh(SearchPrsArgs)] + n);
    assert NewEffects(w, s.world) == [Gh(SearchPrsArgs)] + n;
  }

  lemma {:induction false} HashAfterRepo(repo: string, rest: string)
    requires '#' !in repo
    ensures IndexOf(repo + "#" + rest, '#') == |repo|
  {
    if repo != [] {
      assert (repo + "#" + rest)[1..] == repo[1..] + "#" + rest;
      HashAfterRepo(repo[1..], rest);
    }
  }

  /** Two pull requests of repositories without '#' have the same review key
      only when they are the same repository and number. */
  lemma {:induction false} ReviewKeyIdentifies(a: PullRequest, b: PullRequest)
    requires '#' !in a.repo && '#' !in b.repo
    ensures ReviewKey(a) == ReviewKey(b) ==> a.repo == b.repo && a.number == b.number
  {
    var ka, kb := ReviewKey(a), ReviewKey(b);
    if ka == kb {
      HashAfterRepo(a.repo, IntToString(a.number));
      HashAfterRepo(b.repo, IntToString(b.number));
      assert a.repo == ka[..|a.repo|];
      assert b.repo == kb[..|b.repo|];
      assert IntToString(a.number) == ka[|a.repo| + 1..];
      assert IntToString(b.number) == kb[|b.repo| + 1..];
      IntToStringInjective(a.number, b.number);
    }
  }
}
