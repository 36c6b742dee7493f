/** Clearing a worker (src/commands/reset.ts): the task record is moved into
    the worker's `completed/` directory under a name built from the repository,
    the issue and the time, or deleted when it cannot be moved; the worker's
    label comes off the issue and the worker is idle again. */
module Reset {
  import opened Js
  import opened Tasks
  import opened Paths
  import opened Host
  import opened Dispatch

  /** `issue ?? "no-issue"`: nullish, not truthy, so issue 0 gives "0". */
  function IssueText(issue: Option<int>): string {
    match issue
    case None => "no-issue"
    case Some(n) => IntToString(n)
  }

  /** `${repo.replace("/", "-")}-${issue ?? "no-issue"}-${timestamp}.json`, with
      every ':' and '.' of the ISO time turned into '-'. */
  function ArchiveName(repo: string, issue: Option<int>, iso: string): string {
    ReplaceFirst(repo, '/', "-") + "-" + IssueText(issue) + "-" + ReplaceAll(iso, {':', '.'}, '-') + ".json"
  }

  /** Whether `rename` can move the record to `completed/name`: the directory
      exists, the file system allows the move, and `name` is a plain file name.
      A name holding '/' points into a subdirectory of `completed/` that no
      command creates, so that rename fails. */
  predicate CanArchive(w: World, id: string, name: string, renameOk: bool) {
    renameOk && id in w.completed && '/' !in name
  }

  /** The world after the record left the task store: moved into the archive
      under `name` when the rename works, deleted otherwise. The moved file
      keeps its body and its modification time. */
  function Clear(w: World, id: string, name: string, renameOk: bool): World
    requires id in w.tasks
  {
    if CanArchive(w, id, name, renameOk) then
      w.(tasks := w.tasks - {id},
         completed := w.completed[id := Put(w.completed[id], ArchiveEntry(name, w.tasks[id]))],
         trace := w.trace + [TaskArchived(id, name)])
    else
      w.(tasks := w.tasks - {id}, trace := w.trace + [TaskRemoved(id)])
  }

  /** The `gh` call that takes the worker's label off the issue, if any. */
  function UnlabelEffects(id: string, t: Task): seq<Effect> {
    if NumTruthy(t.issue) then [Gh(EditLabelArgs(t.issue.value, t.repo, "--remove-label", WorkerLabel(id)))] else []
  }

  /** `reset(id, { force })` as a function of the world. `renameOk` is whether
      the file system lets the rename into `completed/` succeed where the
      directory exists and the name is a plain file name. */
  function ResetSpec(w: World, id: string, force: bool, now: Instant, renameOk: bool): Step<int> {
    match ReadTask(w.tasks, id)
    case None => Step(0, w)
    case Some(t) =>
      if Running(t, w.live) && !force then Step(1, w)
      else
        var killed := if Running(t, w.live) then AfterSignal(w, t.pid.value, SIGKILL, true) else w;
        var cleared := Clear(killed, id, ArchiveName(t.repo, t.issue, now.iso), renameOk);
        Step(0, cleared.(trace := cleared.trace + UnlabelEffects(id, t)))
  }

  method Reset(h: Host, id: string, force: bool, now: Instant, renameOk: bool) returns (exit: int)
    modifies h`tasks, h`completed, h`live, h`trace
    ensures Step(exit, h.State()) == ResetSpec(old(h.State()), id, force, now, renameOk)
  {
    var task := ReadTask(h.tasks, id);
    if task.None? {
      return 0;
    }
    var t := task.value;
    if NumTruthy(t.pid) && IsProcessRunning(h.live, t.pid.value) {
      if !force {
        return 1;
      }
      h.Kill(t.pid.value, SIGKILL, true);
    }
    var archiveName := ArchiveName(t.repo, t.issue, now.iso);
    if renameOk && id in h.completed && '/' !in archiveName {
      h.ArchiveTask(id, archiveName);
    } else {
      h.RemoveTask(id);
    }
    if NumTruthy(t.issue) {
      h.RunGh(EditLabelArgs(t.issue.value, t.repo, "--remove-label", WorkerLabel(id)));
    }
    return 0;
  }

  /** Reset without a record does nothing and returns normally. */
  lemma ResetWithoutTaskIsNoop(w: World, id: string, force: bool, now: Instant, renameOk: bool)
    requires ReadTask(w.tasks, id).None?
    ensures ResetSpec(w, id, force, now, renameOk) == Step(0, w)
  {
  }

  /** A busy worker is reset only with `force`: without it the exit status is 1
      and nothing changes; with it SIGKILL goes to the pid before anything else. */
  lemma ResetBusyNeedsForce(w: World, id: string, force: bool, now: Instant, renameOk: bool)
    requires StatusOf(w, id).status == Busy
    ensures !force ==> ResetSpec(w, id, force, now, renameOk) == Step(1, w)
    ensures force ==> var s := ResetSpec(w, id, force, now, renameOk);
      && s.result == 0
      && |NewEffects(w, s.world)| > 0
      && NewEffects(w, s.world)[0] == Signalled(ReadTask(w.tasks, id).value.pid.value, SIGKILL)
  {
    if force {
      var t := ReadTask(w.tasks, id).value;
      var s := ResetSpec(w, id, force, now, renameOk);
      var name := ArchiveName(t.repo, t.issue, now.iso);
      var killed := AfterSignal(w, t.pid.value, SIGKILL, true);
      var step := if CanArchive(killed, id, name, renameOk) then TaskArchived(id, name) else TaskRemoved(id);
      assert s.world.trace == w.trace + ([Signalled(t.pid.value, SIGKILL), step] + UnlabelEffects(id, t));
    }
  }

  /** After a reset that returned normally the record is gone and the worker
      is idle; other workers' records are untouched. */
  lemma ResetMakesIdle(w: World, id: string, force: bool, now: Instant, renameOk: bool)
    requires ResetSpec(w, id, force, now, renameOk).result == 0
    ensures var w' := ResetSpec(w, id, force, now, renameOk).world;
      && (ReadTask(w.tasks, id).Some? ==> id !in w'.tasks)
      && StatusOf(w', id).status == Idle
      && forall other :: other != id ==> ReadTask(w'.tasks, other) == ReadTask(w.tasks, other)
  {
  }

  /** Where the rename is allowed, the archive gains an entry under the
      archive name, holding exactly the file that was the record, when that
      name holds no '/'; every older entry of another name stays. A name
      holding '/' leaves the archive as it was: the record is deleted. */
  lemma ResetArchivesRecord(w: World, id: string, force: bool, now: Instant, renameOk: bool)
    requires ResetSpec(w, id, force, now, renameOk).result == 0
    requires ReadTask(w.tasks, id).Some? && renameOk && id in w.completed
    ensures var t := ReadTask(w.tasks, id).value;
      var name := ArchiveName(t.repo, t.issue, now.iso);
      var w' := ResetSpec(w, id, force, now, renameOk).world;
      var archive := w'.completed[id];
      && w.tasks[id].body == Json(t)
      && ('/' !in name ==> ArchiveEntry(name, w.tasks[id]) in archive)
      && ('/' !in name ==> forall e :: e in w.completed[id] && e.name != name ==> e in archive)
      && ('/' in name ==> archive == w.completed[id] && TaskRemoved(id) in NewEffects(w, w'))
  {
    var t := ReadTask(w.tasks, id).value;
    var name := ArchiveName(t.repo, t.issue, now.iso);
    if '/' in name {
      var s := ResetSpec(w, id, force, now, renameOk);
      var pre: seq<Effect> := if Running(t, w.live) then [Signalled(t.pid.value, SIGKILL), TaskRemoved(id)] else [TaskRemoved(id)];
      assert s.world.trace == w.trace + (pre + UnlabelEffects(id, t));
      assert NewEffects(w, s.world)[|pre| - 1] == TaskRemoved(id);
    }
  }

  /** The label comes off the issue, with one `gh` call, exactly when the
      record's issue is truthy. */
  lemma {:induction false} ResetUnlabelsOnlyWithIssue(w: World, id: string, force: bool, now: Instant, renameOk: bool)
    requires ResetSpec(w, id, force, now, renameOk).result == 0
    requires ReadTask(w.tasks, id).Some?
    ensures var t := ReadTask(w.tasks, id).value;
      var n := NewEffects(w, ResetSpec(w, id, force, now, renameOk).world);
      && (exists e :: e in n && e.Gh?) <==> NumTruthy(t.issue)
  {
    var t := ReadTask(w.tasks, id).value;
    var s := ResetSpec(w, id, force, now, renameOk);
    var name := ArchiveName(t.repo, t.issue, now.iso);
    var running := Running(t, w.live);
    var killed := if running then AfterSignal(w, t.pid.value, SIGKILL, true) else w;
    var step := if CanArchive(killed, id, name, renameOk) then TaskArchived(id, name) else TaskRemoved(id);
    var pre: seq<Effect> := if running then [Signalled(t.pid.value, SIGKILL), step] else [step];
    assert s.world.trace == w.trace + (pre + UnlabelEffects(id, t));
    var n := NewEffects(w, s.world);
    if NumTruthy(t.issue) {
      assert n[|pre|] in n;
    } else {
      assert forall e :: e in n ==> e in pre;
    }
  }

  /** The archive name ends in ".json", the suffix the history looks for. */
  lemma ArchiveNameIsJson(repo: string, issue: Option<int>, iso: string)
    ensures EndsWith(ArchiveName(repo, issue, iso), ".json")
  {
  }

  /** The name's issue part: a missing issue gives "no-issue", issue 0 gives
      "0" (unlike `if (issue)` elsewhere), other numbers their decimal text. */
  lemma IssueTextCases(issue: Option<int>)
    ensures issue.None? ==> IssueText(issue) == "no-issue"
    ensures issue == Some(0) ==> IssueText(issue) == "0"
    ensures issue.Some? ==> ParseInt(IssueText(issue)) == issue
  {
    if issue.Some? {
      ParseIntOfIntToString(issue.value, "");
      assert IntToString(issue.value) + "" == IntToString(issue.value);
    }
  }

  /** Only the first '/' of the repository becomes '-'. */
  lemma ReplaceFirstKeepsLaterSlashes()
    ensures ReplaceFirst("a/b/c", '/', "-") == "a-b/c"
  {
    assert IndexOf("a/b/c", '/') == 1;
  }

  /** A repository with at most one '/': the one `replace("/", "-")` turns
      into '-'. */
  predicate AtMostOneSlash(repo: string) {
    '/' !in repo || '/' !in repo[IndexOf(repo, '/') + 1..]
  }

  /** The issue part of the name is a sign and digits, never a '/'. */
  lemma IssueTextHasNoSlash(issue: Option<int>)
    ensures '/' !in IssueText(issue)
  {
    if issue.Some? {
      var n := issue.value;
      var d := NatToString(if n < 0 then -n else n);
      assert '/' !in d;
      assert IssueText(issue) == if n < 0 then "-" + d else d;
    }
  }

  /** The repository part of the name keeps a '/' exactly when the repository
      has a second one. */
  lemma ReplaceFirstSlashIff(repo: string)
    ensures '/' in ReplaceFirst(repo, '/', "-") <==> !AtMostOneSlash(repo)
  {
    if '/' in repo {
      var i := IndexOf(repo, '/');
      assert ReplaceFirst(repo, '/', "-") == repo[..i] + "-" + repo[i + 1..];
    }
  }

  /** With a time stamp free of '/', as an ISO time is, the archive name is a
      plain file name exactly when the repository has at most one '/'. */
  lemma ArchiveNamePlainIff(repo: string, issue: Option<int>, iso: string)
    requires '/' !in iso
    ensures '/' !in ArchiveName(repo, issue, iso) <==> AtMostOneSlash(repo)
  {
    var r := ReplaceFirst(repo, '/', "-");
    var stamp := ReplaceAll(iso, {':', '.'}, '-');
    IssueTextHasNoSlash(issue);
    ReplaceFirstSlashIff(repo);
    assert '/' !in stamp;
    var a := r + "-";
    var b := a + IssueText(issue);
    var c := b + "-";
    var d := c + stamp;
    assert ArchiveName(repo, issue, iso) == d + ".json";
    assert '/' in a <==> '/' in r;
    assert '/' in d <==> '/' in r;
  }

  /** A repository given with its host, as `gh --repo` accepts it, gives an
      archive name holding '/', so reset deletes its record. */
  lemma HostRepoIsNotArchived()
    ensures !AtMostOneSlash("github.com/o/r")
  {
    var s := "github.com/o/r";
    var i := IndexOf(s, '/');
    assert s[10] == '/' && s[12] == '/';
    assert s[i + 1..][11 - i] == '/';
  }

  /** The time stamp of the name keeps its length and has no ':' or '.' left. */
  lemma TimestampHasNoSeparators(iso: string)
    ensures var s := ReplaceAll(iso, {':', '.'}, '-');
      |s| == |iso| && ':' !in s && '.' !in s
  {
  }
}
