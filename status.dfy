/** Reporting on workers (src/commands/status.ts): one line per worker with
    its status and, when it has a record, the repository, issue, pid and the
    minutes since it started; and the issues that carry a worker's label while
    that worker is not working on them ("orphaned"). Status changes nothing on
    disk: besides printing, its only effects are the `gh` searches. */
module Status {
  import opened Js
  import opened Tasks
  import opened Paths
  import opened Host
  import opened Dispatch

  /** `getWorkerInfo`: the status and, when there is a record, its fields. */
  datatype WorkerInfo = WorkerInfo(
    id: string,
    status: WorkerStatus,
    repo: Option<string>,
    issue: Option<int>,
    pid: Option<int>,
    startedAt: Option<string>)

  function GetWorkerInfo(files: TaskFiles, live: set<int>, id: string): (info: WorkerInfo)
    ensures info.id == id && info.status == StatusIn(files, live, id).status
    ensures info.status == Idle ==>
      info.repo.None? && info.issue.None? && info.pid.None? && info.startedAt.None?
    ensures info.status != Idle ==>
      var t := ReadTask(files, id).value;
      info.repo == Some(t.repo) && info.issue == t.issue && info.pid == t.pid && info.startedAt == t.startedAt
  {
    var r := StatusIn(files, live, id);
    match r.task
    case None => WorkerInfo(id, r.status, None, None, None, None)
    case Some(t) => WorkerInfo(id, r.status, Some(t.repo), t.issue, t.pid, t.startedAt)
  }

  /** An issue carrying the label `worker:<workerId>`. */
  datatype LabeledIssue = LabeledIssue(repo: string, number: int, title: string, workerId: string)

  /** One issue of the search reply; `repo` is `repository.nameWithOwner`. */
  datatype SearchHit = SearchHit(repo: string, number: int, title: string)

  /** `gh search issues --label worker:<id> --state open --json repository,number,title`. */
  function LabelSearchArgs(id: string): seq<string> {
    ["search", "issues", "--label", WorkerLabel(id), "--state", "open", "--json", "repository,number,title"]
  }

  /** `queryLabeledIssues(id)` over the reply of its search: every hit of a
      successful search, in order, tagged with the worker; none otherwise. */
  function QueryLabeledIssues(id: string, reply: GhReply<seq<SearchHit>>): (r: seq<LabeledIssue>)
    ensures |r| == |Payload(reply)|
    ensures forall i :: 0 <= i < |r| ==>
      r[i].workerId == id && r[i].repo == Payload(reply)[i].repo
      && r[i].number == Payload(reply)[i].number && r[i].title == Payload(reply)[i].title
  {
    var hits := Payload(reply);
    seq(|hits|, i requires 0 <= i < |hits| => LabeledIssue(hits[i].repo, hits[i].number, hits[i].title, id))
  }

  /** The filter of status.ts: every issue of an idle worker is orphaned, and
      otherwise every issue other than the record's repository and issue. */
  predicate Orphaned(info: WorkerInfo, li: LabeledIssue) {
    info.status == Idle || Some(li.repo) != info.repo || Some(li.number) != info.issue
  }

  function OrphanedIssues(info: WorkerInfo, issues: seq<LabeledIssue>): (r: seq<LabeledIssue>)
    ensures forall li :: li in r <==> li in issues && Orphaned(info, li)
  {
    if issues == [] then []
    else
      var rest := OrphanedIssues(info, issues[1..]);
      assert forall li :: li in issues <==> li == issues[0] || li in issues[1..];
      if Orphaned(info, issues[0]) then [issues[0]] + rest else rest
  }

  /** A labelled issue is not orphaned exactly when the worker has a record
      (busy or crashed) for that same repository and issue number. */
  lemma OrphanedIff(w: World, id: string, li: LabeledIssue)
    ensures !Orphaned(GetWorkerInfo(w.tasks, w.live, id), li)
      <==> ReadTask(w.tasks, id).Some?
           && ReadTask(w.tasks, id).value.repo == li.repo
           && ReadTask(w.tasks, id).value.issue == Some(li.number)
  {
  }

  // The terminal colours of the status names.
  function StatusColor(s: WorkerStatus): string {
    match s
    case Idle => [Esc] + "[32m"
    case Busy => [Esc] + "[33m"
    case Crashed => [Esc] + "[31m"
  }

  function StatusName(s: WorkerStatus): string {
    match s
    case Idle => "idle"
    case Busy => "busy"
    case Crashed => "crashed"
  }

  /** `Math.floor((now - start) / 1000 / 60)`: whole minutes, rounded down
      also when the start lies in the future. */
  function ElapsedMinutes(nowMillis: int, startMillis: int): (m: int)
    ensures m * 60000 <= nowMillis - startMillis < (m + 1) * 60000
  {
    (nowMillis - startMillis) / 60000
  }

  /** The minutes as printed; a start time that `new Date` cannot read gives
      NaN. `parseDate` stands for `Date`'s parsing of the stored text. */
  function ElapsedText(now: Instant, parseDate: string -> Option<int>, startedAt: string): string {
    match parseDate(startedAt)
    case None => "NaN"
    case Some(start) => IntToString(ElapsedMinutes(now.millis, start))
  }

  function StatusHead(info: WorkerInfo): string {
    info.id + ": " + StatusColor(info.status) + StatusName(info.status) + ResetColor
  }

  function RepoPart(info: WorkerInfo): string {
    if StrTruthy(info.repo) then " - " + info.repo.value + "#" + IssueDisplay(info.issue) else ""
  }

  function PidPart(info: WorkerInfo): string {
    if NumTruthy(info.pid) then " (PID " + IntToString(info.pid.value) + ")" else ""
  }

  function ElapsedPart(info: WorkerInfo, now: Instant, parseDate: string -> Option<int>): string {
    if StrTruthy(info.startedAt) then " [" + ElapsedText(now, parseDate, info.startedAt.value) + "m]" else ""
  }

  /** `formatStatus(info)`. */
  function FormatStatus(info: WorkerInfo, now: Instant, parseDate: string -> Option<int>): string {
    StatusHead(info) + RepoPart(info) + PidPart(info) + ElapsedPart(info, now, parseDate)
  }

  /** The line is the coloured status of the worker followed by its details. */
  lemma {:induction false} FormatStatusSplits(info: WorkerInfo, now: Instant, parseDate: string -> Option<int>)
    ensures var line := FormatStatus(info, now, parseDate);
      && StartsWith(line, StatusHead(info))
      && line[|StatusHead(info)|..] == RepoPart(info) + PidPart(info) + ElapsedPart(info, now, parseDate)
  {
    var head, tail := StatusHead(info), RepoPart(info) + PidPart(info) + ElapsedPart(info, now, parseDate);
    SeqAssoc(head, RepoPart(info), PidPart(info), ElapsedPart(info, now, parseDate));
    assert FormatStatus(info, now, parseDate) == head + tail;
  }

  lemma IdleLineIsHead(info: WorkerInfo, now: Instant, parseDate: string -> Option<int>)
    requires info.repo.None? && info.pid.None? && info.startedAt.None?
    ensures FormatStatus(info, now, parseDate) == StatusHead(info)
  {
    assert FormatStatus(info, now, parseDate) == StatusHead(info) + "" + "" + "";
  }

  lemma {:induction false} RepoFollowsHead(info: WorkerInfo, now: Instant, parseDate: string -> Option<int>, repo: string)
    requires info.repo == Some(repo) && repo != ""
    ensures var line := FormatStatus(info, now, parseDate);
      |StatusHead(info)| <= |line| && StartsWith(line[|StatusHead(info)|..], " - " + repo + "#")
  {
    var p := " - " + repo + "#";
    var r := RepoPart(info);
    var tail := r + PidPart(info) + ElapsedPart(info, now, parseDate);
    FormatStatusSplits(info, now, parseDate);
    assert r == p + IssueDisplay(info.issue);
    assert r[..|p|] == p;
    assert tail[..|p|] == r[..|p|];
  }

  lemma {:induction false} PidEndsLine(info: WorkerInfo, now: Instant, parseDate: string -> Option<int>)
    requires NumTruthy(info.pid) && !StrTruthy(info.startedAt)
    ensures EndsWith(FormatStatus(info, now, parseDate), " (PID " + IntToString(info.pid.value) + ")")
  {
    var line := FormatStatus(info, now, parseDate);
    assert ElapsedPart(info, now, parseDate) == "";
    assert line == (StatusHead(info) + RepoPart(info)) + PidPart(info);
  }

  /** The line starts with the id and the coloured status; an idle worker's
      line is nothing more; a record with a repository adds `repo#issue`
      right after the status, and a pid without a start time ends the line. */
  lemma {:induction false} FormatStatusShape(w: World, id: string, now: Instant, parseDate: string -> Option<int>)
    ensures var info := GetWorkerInfo(w.tasks, w.live, id);
      var line := FormatStatus(info, now, parseDate);
      && StartsWith(line, id + ": " + StatusColor(info.status) + StatusName(info.status) + ResetColor)
      && (info.status == Idle ==> line == StatusHead(info))
      && (info.status != Idle && ReadTask(w.tasks, id).value.repo != "" ==>
            StartsWith(line[|StatusHead(info)|..], " - " + ReadTask(w.tasks, id).value.repo + "#"))
      && (NumTruthy(info.pid) && !StrTruthy(info.startedAt) ==>
            EndsWith(line, " (PID " + IntToString(info.pid.value) + ")"))
  {
    var info := GetWorkerInfo(w.tasks, w.live, id);
    FormatStatusSplits(info, now, parseDate);
    if info.status == Idle {
      IdleLineIsHead(info, now, parseDate);
    }
    if info.status != Idle && ReadTask(w.tasks, id).value.repo != "" {
      RepoFollowsHead(info, now, parseDate, ReadTask(w.tasks, id).value.repo);
    }
    if NumTruthy(info.pid) && !StrTruthy(info.startedAt) {
      PidEndsLine(info, now, parseDate);
    }
  }

  /** What a status run returns: the exit status, what it printed to standard
      output (one string per `console.log`) and to standard error. */
  datatype Report = Report(exit: int, out: seq<string>, err: seq<string>)

  const SingleOrphanHeader: string := "\n" + "  Orphaned issues (labeled but not being worked):"
  const AllOrphanHeader: string := "\n" + "Orphaned issues (labeled but worker idle/crashed):"
  const CreateHint: string := "Create one with: claude-workers init <id>"

  function RecoverableHint(id: string): string {
    "  Recoverable: dispatch again or check " + WorkerHome(id)
  }

  function SingleOrphanLine(li: LabeledIssue): string {
    "    " + li.repo + "#" + IntToString(li.number) + ": " + li.title
  }

  function AllOrphanLine(li: LabeledIssue): string {
    "  " + li.repo + "#" + IntToString(li.number) + " (" + WorkerLabel(li.workerId) + "): " + li.title
  }

  /** The lines of a list of issues, one per issue, in order. */
  function SingleOrphanLines(issues: seq<LabeledIssue>): (r: seq<string>)
    ensures |r| == |issues|
    ensures forall i {:trigger r[i]} :: 0 <= i < |r| ==> r[i] == SingleOrphanLine(issues[i])
  {
    if issues == [] then []
    else
      var init := issues[..|issues| - 1];
      assert forall i :: 0 <= i < |init| ==> init[i] == issues[i];
      SingleOrphanLines(init) + [SingleOrphanLine(issues[|issues| - 1])]
  }

  function AllOrphanLines(issues: seq<LabeledIssue>): (r: seq<string>)
    ensures |r| == |issues|
    ensures forall i {:trigger r[i]} :: 0 <= i < |r| ==> r[i] == AllOrphanLine(issues[i])
  {
    if issues == [] then []
    else
      var init := issues[..|issues| - 1];
      assert forall i :: 0 <= i < |init| ==> init[i] == issues[i];
      AllOrphanLines(init) + [AllOrphanLine(issues[|issues| - 1])]
  }

  /** The block of orphan lines under `header`, or nothing without orphans. */
  function OrphanBlock(header: string, lines: seq<string>): seq<string> {
    if lines == [] then [] else [header] + lines
  }

  type Replies = string -> GhReply<seq<SearchHit>>

  /** `status(id)` for one worker. */
  function SingleSpec(w: World, id: string, replies: Replies, now: Instant, parseDate: string -> Option<int>): Step<Report> {
    if !HomeExists(w, id) then Step(Report(1, [], ["Error: worker " + id + " does not exist"]), w)
    else
      var info := GetWorkerInfo(w.tasks, w.live, id);
      var hint := if info.status == Crashed && StrTruthy(info.repo) then [RecoverableHint(id)] else [];
      var orphaned := OrphanedIssues(info, QueryLabeledIssues(id, replies(id)));
      Step(Report(0, [FormatStatus(info, now, parseDate)] + hint + OrphanBlock(SingleOrphanHeader, SingleOrphanLines(orphaned)), []),
           w.(trace := w.trace + [Gh(LabelSearchArgs(id))]))
  }

  /** The status lines of the workers `ids`, in order. */
  function WorkerLines(w: World, ids: seq<string>, now: Instant, parseDate: string -> Option<int>): (r: seq<string>)
    ensures |r| == |ids|
    ensures forall i {:trigger r[i]} :: 0 <= i < |r| ==> r[i] == "  " + FormatStatus(GetWorkerInfo(w.tasks, w.live, ids[i]), now, parseDate)
  {
    if ids == [] then []
    else
      var init := ids[..|ids| - 1];
      assert forall i :: 0 <= i < |init| ==> init[i] == ids[i];
      WorkerLines(w, init, now, parseDate) + ["  " + FormatStatus(GetWorkerInfo(w.tasks, w.live, ids[|ids| - 1]), now, parseDate)]
  }

  /** The label searches of the workers `ids`, one each, in order. */
  function SearchCalls(ids: seq<string>): (r: seq<Effect>)
    ensures |r| == |ids|
    ensures forall i {:trigger r[i]} :: 0 <= i < |r| ==> r[i] == Gh(LabelSearchArgs(ids[i]))
  {
    if ids == [] then []
    else
      var init := ids[..|ids| - 1];
      assert forall i :: 0 <= i < |init| ==> init[i] == ids[i];
      SearchCalls(init) + [Gh(LabelSearchArgs(ids[|ids| - 1]))]
  }

  /** The orphaned issues of each of the workers `ids`, worker after worker. */
  function OrphansOf(w: World, ids: seq<string>, replies: Replies): seq<LabeledIssue> {
    if ids == [] then []
    else
      var id := ids[|ids| - 1];
      OrphansOf(w, ids[..|ids| - 1], replies) + OrphanedIssues(GetWorkerInfo(w.tasks, w.live, id), QueryLabeledIssues(id, replies(id)))
  }

  const NoWorkersLine: string := "No workers found in " + WorkersRoot
  const WorkersHeader: string := "Workers (" + WorkersRoot + "):\n"

  /** `status()` for all workers. */
  function AllSpec(w: World, replies: Replies, now: Instant, parseDate: string -> Option<int>): Step<Report> {
    var workers := GetWorkerIds(w.root);
    if workers == [] then Step(Report(0, [NoWorkersLine, CreateHint], []), w)
    else
      var orphans := OrphansOf(w, workers, replies);
      Step(Report(0, [WorkersHeader] + WorkerLines(w, workers, now, parseDate) + OrphanBlock(AllOrphanHeader, AllOrphanLines(orphans)), []),
           w.(trace := w.trace + SearchCalls(workers)))
  }

  /** `status(id)`: one worker when the id is a non-empty string, all otherwise. */
  function StatusSpec(w: World, id: Option<string>, replies: Replies, now: Instant, parseDate: string -> Option<int>): Step<Report> {
    if StrTruthy(id) then SingleSpec(w, id.value, replies, now, parseDate) else AllSpec(w, replies, now, parseDate)
  }

  /** Prints the orphans of one worker under their header, when there are any. */
  method PrintSingleOrphans(orphaned: seq<LabeledIssue>) returns (lines: seq<string>)
    ensures lines == OrphanBlock(SingleOrphanHeader, SingleOrphanLines(orphaned))
  {
    lines := [];
    if |orphaned| > 0 {
      lines := [SingleOrphanHeader];
      for i := 0 to |orphaned|
        invariant lines == [SingleOrphanHeader] + SingleOrphanLines(orphaned[..i])
      {
        assert orphaned[..i + 1][..i] == orphaned[..i];
        lines := lines + [SingleOrphanLine(orphaned[i])];
      }
      assert orphaned[..|orphaned|] == orphaned;
    }
  }

  /** Prints the orphans of all workers under their header, when there are any. */
  method PrintAllOrphans(orphaned: seq<LabeledIssue>) returns (lines: seq<string>)
    ensures lines == OrphanBlock(AllOrphanHeader, AllOrphanLines(orphaned))
  {
    lines := [];
    if |orphaned| > 0 {
      lines := [AllOrphanHeader];
      for i := 0 to |orphaned|
        invariant lines == [AllOrphanHeader] + AllOrphanLines(orphaned[..i])
      {
        assert orphaned[..i + 1][..i] == orphaned[..i];
        lines := lines + [AllOrphanLine(orphaned[i])];
      }
      assert orphaned[..|orphaned|] == orphaned;
    }
  }

  method SingleStatus(h: Host, id: string, replies: Replies, now: Instant, parseDate: string -> Option<int>) returns (report: Report)
    modifies h`trace
    ensures Step(report, h.State()) == SingleSpec(old(h.State()), id, replies, now, parseDate)
  {
    ghost var w := h.State();
    if !HomeExists(h.State(), id) {
      return Report(1, [], ["Error: worker " + id + " does not exist"]);
    }
    var info := GetWorkerInfo(h.tasks, h.live, id);
    var hint := if info.status == Crashed && StrTruthy(info.repo) then [RecoverableHint(id)] else [];
    h.RunGh(LabelSearchArgs(id));
    var orphaned := OrphanedIssues(info, QueryLabeledIssues(id, replies(id)));
    var block := PrintSingleOrphans(orphaned);
    report := Report(0, [FormatStatus(info, now, parseDate)] + hint + block, []);
    assert h.State() == w.(trace := w.trace + [Gh(LabelSearchArgs(id))]);
  }

  /** One more worker visited: its status line, its search and its orphans
      are appended. */
  lemma VisitStep(w: World, workers: seq<string>, i: nat, replies: Replies, now: Instant, parseDate: string -> Option<int>)
    requires i < |workers|
    ensures var id, done := workers[i], workers[..i + 1];
      var info := GetWorkerInfo(w.tasks, w.live, id);
      && WorkerLines(w, done, now, parseDate) == WorkerLines(w, workers[..i], now, parseDate) + ["  " + FormatStatus(info, now, parseDate)]
      && SearchCalls(done) == SearchCalls(workers[..i]) + [Gh(LabelSearchArgs(id))]
      && OrphansOf(w, done, replies) == OrphansOf(w, workers[..i], replies) + OrphanedIssues(info, QueryLabeledIssues(id, replies(id)))
  {
    var done := workers[..i + 1];
    assert done[..i] == workers[..i] && done[i] == workers[i];
  }

  method VisitWorkers(h: Host, workers: seq<string>, replies: Replies, now: Instant, parseDate: string -> Option<int>)
      returns (lines: seq<string>, orphanedAll: seq<LabeledIssue>)
    modifies h`trace
    ensures h.trace == old(h.trace) + SearchCalls(workers)
    ensures lines == WorkerLines(old(h.State()), workers, now, parseDate)
    ensures orphanedAll == OrphansOf(old(h.State()), workers, replies)
  {
    ghost var w := h.State();
    lines := [];
    orphanedAll := [];
    for i := 0 to |workers|
      invariant h.tasks == w.tasks && h.live == w.live
      invariant h.trace == w.trace + SearchCalls(workers[..i])
      invariant lines == WorkerLines(w, workers[..i], now, parseDate)
      invariant orphanedAll == OrphansOf(w, workers[..i], replies)
    {
      VisitStep(w, workers, i, replies, now, parseDate);
      var workerId := workers[i];
      var info := GetWorkerInfo(h.tasks, h.live, workerId);
      lines := lines + ["  " + FormatStatus(info, now, parseDate)];
      h.RunGh(LabelSearchArgs(workerId));
      assert h.trace == w.trace + (SearchCalls(workers[..i]) + [Gh(LabelSearchArgs(workerId))]);
      var orphaned := OrphanedIssues(info, QueryLabeledIssues(workerId, replies(workerId)));
      orphanedAll := orphanedAll + orphaned;
    }
    assert workers[..|workers|] == workers;
  }

  method AllStatus(h: Host, replies: Replies, now: Instant, parseDate: string -> Option<int>) returns (report: Report)
    modifies h`trace
    ensures Step(report, h.State()) == AllSpec(old(h.State()), replies, now, parseDate)
  {
    ghost var w := h.State();
    var workers := GetWorkerIds(h.root);
    if |workers| == 0 {
      return Report(0, [NoWorkersLine, CreateHint], []);
    }
    var lines, orphanedAll := VisitWorkers(h, workers, replies, now, parseDate);
    var block := PrintAllOrphans(orphanedAll);
    report := Report(0, [WorkersHeader] + lines + block, []);
    assert h.State() == w.(trace := w.trace + SearchCalls(workers));
  }

  method Status(h: Host, id: Option<string>, replies: Replies, now: Instant, parseDate: string -> Option<int>) returns (report: Report)
    modifies h`trace
    ensures Step(report, h.State()) == StatusSpec(old(h.State()), id, replies, now, parseDate)
  {
    if StrTruthy(id) {
      report := SingleStatus(h, id.value, replies, now, parseDate);
    } else {
      report := AllStatus(h, replies, now, parseDate);
    }
  }

  /** Status changes nothing but the trace, and the trace only gains the
      label search of the named worker, when its home exists. */
  lemma SingleOnlySearches(w: World, id: string, replies: Replies, now: Instant, parseDate: string -> Option<int>)
    requires id != ""
    ensures var w' := StatusSpec(w, Some(id), replies, now, parseDate).world;
      && w'.root == w.root && w'.tasks == w.tasks && w'.completed == w.completed && w'.live == w.live
      && w'.trace == w.trace + (if HomeExists(w, id) then [Gh(LabelSearchArgs(id))] else [])
  {
  }

  /** Listing all workers changes nothing but the trace, and the trace only
      gains one label search per listed worker, in listing order. */
  lemma {:induction false} AllOnlySearches(w: World, replies: Replies, now: Instant, parseDate: string -> Option<int>)
    ensures var w' := StatusSpec(w, None, replies, now, parseDate).world;
      && w'.root == w.root && w'.tasks == w.tasks && w'.completed == w.completed && w'.live == w.live
      && w'.trace == w.trace + SearchCalls(GetWorkerIds(w.root))
      && forall e :: e in NewEffects(w, w') ==> e.Gh?
  {
    var workers := GetWorkerIds(w.root);
    var w' := StatusSpec(w, None, replies, now, parseDate).world;
    var calls := SearchCalls(workers);
    if workers == [] {
      assert calls == [];
    }
    assert w'.trace == w.trace + calls;
    assert NewEffects(w, w') == calls;
    forall e | e in calls ensures e.Gh? {
      var i :| 0 <= i < |calls| && calls[i] == e;
    }
  }

  /** For a worker whose home is missing: exit status 1, an error message and
      nothing else, not even the search. */
  lemma SingleMissingHome(w: World, id: string, replies: Replies, now: Instant, parseDate: string -> Option<int>)
    requires id != "" && !HomeExists(w, id)
    ensures var s := StatusSpec(w, Some(id), replies, now, parseDate);
      s.result.exit == 1 && s.result.out == [] && |s.result.err| == 1 && s.world == w
  {
  }

  lemma HintIsNotHeader(id: string)
    ensures RecoverableHint(id) != SingleOrphanHeader
  {
    assert RecoverableHint(id)[0] == ' ';
    assert SingleOrphanHeader[0] == '\n';
  }

  lemma {:induction false} Concat3<T>(x: T, b: seq<T>, c: seq<T>)
    ensures var s := [x] + b + c;
      && |s| == 1 + |b| + |c| && s[0] == x
      && (forall i :: 0 <= i < |b| ==> s[1 + i] == b[i])
      && (forall j :: 0 <= j < |c| ==> s[1 + |b| + j] == c[j])
  {
  }

  lemma {:induction false} EndsWithBlock<T>(a: seq<T>, h: T, b: seq<T>)
    ensures var s := a + ([h] + b);
      |s| > |b| && s[|s| - |b| - 1] == h && s[|s| - |b|..] == b
  {
    var s := a + ([h] + b);
    assert s[|s| - |b|..] == b;
  }

  /** Unfolds the one-worker specification for the lemmas below. */
  lemma SingleOutput(w: World, id: string, replies: Replies, now: Instant, parseDate: string -> Option<int>)
    requires id != "" && HomeExists(w, id)
    ensures var info := GetWorkerInfo(w.tasks, w.live, id);
      var hint := if info.status == Crashed && StrTruthy(info.repo) then [RecoverableHint(id)] else [];
      var block := OrphanBlock(SingleOrphanHeader, SingleOrphanLines(OrphanedIssues(info, QueryLabeledIssues(id, replies(id)))));
      StatusSpec(w, Some(id), replies, now, parseDate).result == Report(0, [FormatStatus(info, now, parseDate)] + hint + block, [])
  {
  }

  /** For an existing worker the status line comes first and the recovery
      hint follows exactly when the worker crashed on a record with a
      repository. */
  lemma {:induction false} SingleReportHint(w: World, id: string, replies: Replies, now: Instant, parseDate: string -> Option<int>)
    requires id != "" && HomeExists(w, id)
    ensures var r := StatusSpec(w, Some(id), replies, now, parseDate).result;
      && r.exit == 0 && r.err == []
      && r.out[0] == FormatStatus(GetWorkerInfo(w.tasks, w.live, id), now, parseDate)
      && (|r.out| > 1 && r.out[1] == RecoverableHint(id)
          <==> StatusOf(w, id).status == Crashed && ReadTask(w.tasks, id).value.repo != "")
  {
    var info := GetWorkerInfo(w.tasks, w.live, id);
    var hint := if info.status == Crashed && StrTruthy(info.repo) then [RecoverableHint(id)] else [];
    var block := OrphanBlock(SingleOrphanHeader, SingleOrphanLines(OrphanedIssues(info, QueryLabeledIssues(id, replies(id)))));
    SingleOutput(w, id, replies, now, parseDate);
    Concat3(FormatStatus(info, now, parseDate), hint, block);
    HintIsNotHeader(id);
  }

  /** The orphan lines of an existing worker, under their header, end the
      output; without orphans there are at most the status line and the hint. */
  lemma {:induction false} SingleReportOrphans(w: World, id: string, replies: Replies, now: Instant, parseDate: string -> Option<int>)
    requires id != "" && HomeExists(w, id)
    ensures var r := StatusSpec(w, Some(id), replies, now, parseDate).result;
      var orphaned := OrphanedIssues(GetWorkerInfo(w.tasks, w.live, id), QueryLabeledIssues(id, replies(id)));
      && (orphaned == [] ==> |r.out| <= 2)
      && (orphaned != [] ==>
            && |r.out| > |orphaned|
            && r.out[|r.out| - |orphaned| - 1] == SingleOrphanHeader
            && r.out[|r.out| - |orphaned|..] == SingleOrphanLines(orphaned))
  {
    var info := GetWorkerInfo(w.tasks, w.live, id);
    var orphaned := OrphanedIssues(info, QueryLabeledIssues(id, replies(id)));
    var hint := if info.status == Crashed && StrTruthy(info.repo) then [RecoverableHint(id)] else [];
    SingleOutput(w, id, replies, now, parseDate);
    var lines := SingleOrphanLines(orphaned);
    var r := StatusSpec(w, Some(id), replies, now, parseDate).result;
    assert r.out == [FormatStatus(info, now, parseDate)] + hint + OrphanBlock(SingleOrphanHeader, lines);
    if orphaned != [] {
      assert lines != [];
      EndsWithBlock([FormatStatus(info, now, parseDate)] + hint, SingleOrphanHeader, lines);
    }
  }

  /** The orphans collected over the workers `ids` are exactly the labelled
      issues of some worker of `ids` that the filter keeps for that worker. */
  lemma {:induction false} OrphansOfMembers(w: World, ids: seq<string>, replies: Replies, li: LabeledIssue)
    ensures li in OrphansOf(w, ids, replies)
      <==> li.workerId in ids
           && li in QueryLabeledIssues(li.workerId, replies(li.workerId))
           && Orphaned(GetWorkerInfo(w.tasks, w.live, li.workerId), li)
  {
    if ids != [] {
      var init, id := ids[..|ids| - 1], ids[|ids| - 1];
      OrphansOfMembers(w, init, replies, li);
      assert ids == init + [id];
      assert li.workerId in ids <==> li.workerId in init || li.workerId == id;
      var q := QueryLabeledIssues(id, replies(id));
      if li in q {
        var k :| 0 <= k < |q| && q[k] == li;
        assert li.workerId == id;
      }
    }
  }

  /** Without any worker directory the run prints where it looked and how to
      create a worker, and searches nothing. */
  lemma NoWorkersReport(w: World, replies: Replies, now: Instant, parseDate: string -> Option<int>)
    requires GetWorkerIds(w.root) == []
    ensures StatusSpec(w, None, replies, now, parseDate) == Step(Report(0, [NoWorkersLine, CreateHint], []), w)
  {
  }

  /** Otherwise the header is followed by one status line per worker, in
      listing order. */
  lemma {:induction false} AllReportLines(w: World, replies: Replies, now: Instant, parseDate: string -> Option<int>)
    requires GetWorkerIds(w.root) != []
    ensures var workers := GetWorkerIds(w.root);
      var r := StatusSpec(w, None, replies, now, parseDate).result;
      && r.exit == 0 && r.out[0] == WorkersHeader && |r.out| > |workers|
      && (forall i :: 0 <= i < |workers| ==>
            r.out[1 + i] == "  " + FormatStatus(GetWorkerInfo(w.tasks, w.live, workers[i]), now, parseDate))
  {
    var workers := GetWorkerIds(w.root);
    var lines := WorkerLines(w, workers, now, parseDate);
    var block := OrphanBlock(AllOrphanHeader, AllOrphanLines(OrphansOf(w, workers, replies)));
    AllOutput(w, replies, now, parseDate);
    Concat3(WorkersHeader, lines, block);
    var r := StatusSpec(w, None, replies, now, parseDate).result;
    forall i | 0 <= i < |workers|
      ensures r.out[1 + i] == "  " + FormatStatus(GetWorkerInfo(w.tasks, w.live, workers[i]), now, parseDate)
    {
      assert r.out[1 + i] == lines[i];
    }
  }

  /** After the status lines come the orphans of all workers under their
      header, one line each, or nothing when there are none. */
  lemma {:induction false} AllReportOrphans(w: World, replies: Replies, now: Instant, parseDate: string -> Option<int>)
    requires GetWorkerIds(w.root) != []
    ensures var workers := GetWorkerIds(w.root);
      var r := StatusSpec(w, None, replies, now, parseDate).result;
      var orphans := OrphansOf(w, workers, replies);
      && |r.out| == 1 + |workers| + (if orphans == [] then 0 else 1 + |orphans|)
      && (orphans != [] ==> r.out[1 + |workers|] == AllOrphanHeader)
      && (orphans != [] ==> r.out[2 + |workers|..] == AllOrphanLines(orphans))
  {
    var workers := GetWorkerIds(w.root);
    var orphans := OrphansOf(w, workers, replies);
    var lines := WorkerLines(w, workers, now, parseDate);
    var block := OrphanBlock(AllOrphanHeader, AllOrphanLines(orphans));
    AllOutput(w, replies, now, parseDate);
    var r := StatusSpec(w, None, replies, now, parseDate).result;
    assert |lines| == |workers|;
    if orphans == [] {
      assert block == [];
      assert r.out == [WorkersHeader] + lines;
    } else {
      var tail := AllOrphanLines(orphans);
      var pre := [WorkersHeader] + lines + [AllOrphanHeader];
      assert r.out == pre + tail;
      assert |pre| == 2 + |workers|;
      assert r.out[1 + |workers|] == pre[1 + |workers|];
      assert r.out[|pre|..] == tail;
    }
  }

  /** Unfolds the all-workers specification for the lemmas above. */
  lemma AllOutput(w: World, replies: Replies, now: Instant, parseDate: string -> Option<int>)
    requires GetWorkerIds(w.root) != []
    ensures var workers := GetWorkerIds(w.root);
      var lines := WorkerLines(w, workers, now, parseDate);
      var block := OrphanBlock(AllOrphanHeader, AllOrphanLines(OrphansOf(w, workers, replies)));
      StatusSpec(w, None, replies, now, parseDate).result == Report(0, [WorkersHeader] + lines + block, [])
  {
  }
}
