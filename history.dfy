/** The record of finished work (src/commands/history.ts): every `.json` file
    in a worker's `completed/` directory is a finished task, dated by the
    file's modification time; the history lists them over one or all
    workers, newest first. */
module History {
  import opened Js
  import opened Tasks
  import opened Paths
  import opened Host
  import Sorting

  /** A finished task, the worker it came from and the modification time of
      its archived file in milliseconds. */
  datatype CompletedTask = CompletedTask(task: Task, workerId: string, completedAt: int)

  /** What an archive entry contributes: nothing unless its name ends in
      ".json" and its body parses. */
  function EntryTask(workerId: string, e: ArchiveEntry): Option<CompletedTask> {
    if EndsWith(e.name, ".json") && e.file.body.Json? then Some(CompletedTask(e.file.body.task, workerId, e.file.mtime))
    else None
  }

  /** The finished tasks among `entries`, in directory order. */
  function EntriesTasks(workerId: string, entries: seq<ArchiveEntry>): seq<CompletedTask> {
    if entries == [] then []
    else
      var last := entries[|entries| - 1];
      EntriesTasks(workerId, entries[..|entries| - 1]) + (match EntryTask(workerId, last) case Some(c) => [c] case None => [])
  }

  /** `getCompletedTasks(id)`: none when the worker has no `completed/`. */
  function CompletedTasks(w: World, workerId: string): seq<CompletedTask> {
    if workerId in w.completed then EntriesTasks(workerId, w.completed[workerId]) else []
  }

  method GetCompletedTasks(h: Host, workerId: string) returns (tasks: seq<CompletedTask>)
    ensures tasks == CompletedTasks(h.State(), workerId)
  {
    tasks := [];
    if workerId !in h.completed {
      return;
    }
    var files := h.completed[workerId];
    for i := 0 to |files|
      invariant tasks == EntriesTasks(workerId, files[..i])
    {
      assert files[..i + 1][..i] == files[..i];
      var file := files[i];
      if EndsWith(file.name, ".json") && file.file.body.Json? {
        tasks := tasks + [CompletedTask(file.file.body.task, workerId, file.file.mtime)];
      }
    }
    assert files[..|files|] == files;
  }

  /** A worker's finished tasks are exactly its archived `.json` files whose
      body parses, each dated by its file's modification time. */
  lemma {:induction false} EntriesTasksMembers(workerId: string, entries: seq<ArchiveEntry>, c: CompletedTask)
    ensures c in EntriesTasks(workerId, entries)
      <==> c.workerId == workerId
           && exists e :: e in entries && EndsWith(e.name, ".json") && e.file == StoredFile(Json(c.task), c.completedAt)
  {
    if entries != [] {
      var init, last := entries[..|entries| - 1], entries[|entries| - 1];
      EntriesTasksMembers(workerId, init, c);
      assert entries == init + [last];
      assert forall e :: e in entries <==> e in init || e == last;
    }
  }

  lemma CompletedTasksMembers(w: World, workerId: string, c: CompletedTask)
    ensures c in CompletedTasks(w, workerId)
      <==> c.workerId == workerId && workerId in w.completed
           && exists e :: e in w.completed[workerId] && EndsWith(e.name, ".json") && e.file == StoredFile(Json(c.task), c.completedAt)
  {
    if workerId in w.completed {
      EntriesTasksMembers(workerId, w.completed[workerId], c);
    }
  }

  /** The finished tasks of the workers `ids`, worker after worker. */
  function AllCompleted(w: World, ids: seq<string>): seq<CompletedTask> {
    if ids == [] then [] else AllCompleted(w, ids[..|ids| - 1]) + CompletedTasks(w, ids[|ids| - 1])
  }

  lemma {:induction false} AllCompletedMembers(w: World, ids: seq<string>, c: CompletedTask)
    ensures c in AllCompleted(w, ids) <==> c.workerId in ids && c in CompletedTasks(w, c.workerId)
  {
    if ids != [] {
      var init, id := ids[..|ids| - 1], ids[|ids| - 1];
      AllCompletedMembers(w, init, c);
      assert ids == init + [id];
      CompletedTasksMembers(w, id, c);
    }
  }

  /** The comparison `b.completedAt - a.completedAt`: `a` may come first when it
      is not older. */
  function NewerFirst(a: CompletedTask, b: CompletedTask): bool {
    a.completedAt >= b.completedAt
  }

  lemma NewerFirstIsTotalPreorder()
    ensures Sorting.TotalPreorder(NewerFirst)
  {
  }

  /** `formatTask`; `stamp(t)` stands for `${date} ${time}` of the time `t`,
      the UTC date and the local hour and minute. */
  function FormatTask(c: CompletedTask, stamp: int -> string): string {
    "  " + stamp(c.completedAt) + "  " + c.task.repo + "#" + IssueDisplay(c.task.issue) + "  (w" + c.workerId + ")"
  }

  function FormatTasks(cs: seq<CompletedTask>, stamp: int -> string): (r: seq<string>)
    ensures |r| == |cs|
    ensures forall i {:trigger r[i]} :: 0 <= i < |r| ==> r[i] == FormatTask(cs[i], stamp)
  {
    if cs == [] then []
    else
      var init := cs[..|cs| - 1];
      assert forall i :: 0 <= i < |init| ==> init[i] == cs[i];
      FormatTasks(init, stamp) + [FormatTask(cs[|cs| - 1], stamp)]
  }

  const NoTasksLine: string := "No completed tasks"
  const TasksHeader: string := "Completed tasks:" + "\n"

  /** The workers a history covers: the one named, or every listed one. */
  function HistoryIds(w: World, id: Option<string>): seq<string> {
    if StrTruthy(id) then [id.value] else GetWorkerIds(w.root)
  }

  /** What `history(id)` prints. */
  function HistorySpec(w: World, id: Option<string>, stamp: int -> string): seq<string> {
    var all := AllCompleted(w, HistoryIds(w, id));
    if all == [] then [NoTasksLine]
    else [TasksHeader] + FormatTasks(Sorting.SortBy(all, NewerFirst), stamp)
  }

  /** The finished tasks of the workers `workerIds`, worker after worker. */
  method CollectCompleted(h: Host, workerIds: seq<string>) returns (allTasks: seq<CompletedTask>)
    ensures allTasks == AllCompleted(h.State(), workerIds)
  {
    allTasks := [];
    for i := 0 to |workerIds|
      invariant allTasks == AllCompleted(h.State(), workerIds[..i])
    {
      assert workerIds[..i + 1][..i] == workerIds[..i];
      var tasks := GetCompletedTasks(h, workerIds[i]);
      allTasks := allTasks + tasks;
    }
    assert workerIds[..|workerIds|] == workerIds;
  }

  /** One line per task, in order. */
  method PrintTasks(sorted: seq<CompletedTask>, stamp: int -> string) returns (lines: seq<string>)
    ensures lines == FormatTasks(sorted, stamp)
  {
    lines := [];
    for i := 0 to |sorted|
      invariant lines == FormatTasks(sorted[..i], stamp)
    {
      assert sorted[..i + 1][..i] == sorted[..i];
      lines := lines + [FormatTask(sorted[i], stamp)];
    }
    assert sorted[..|sorted|] == sorted;
  }

  method History(h: Host, id: Option<string>, stamp: int -> string) returns (out: seq<string>)
    ensures out == HistorySpec(h.State(), id, stamp)
  {
    var workerIds := if StrTruthy(id) then [id.value] else GetWorkerIds(h.root);
    var allTasks := CollectCompleted(h, workerIds);
    if |allTasks| == 0 {
      return [NoTasksLine];
    }
    var sorted := Sorting.SortBy(allTasks, NewerFirst);
    var lines := PrintTasks(sorted, stamp);
    out := [TasksHeader] + lines;
  }

  /** The listed tasks are every finished task of the covered workers, as
      many times as it is archived, ordered newest first; tasks finished at the
      same millisecond keep the order they were collected in, worker after
      worker and in directory order. */
  lemma {:induction false} HistoryNewestFirst(w: World, id: Option<string>)
    ensures var all := AllCompleted(w, HistoryIds(w, id));
      var sorted := Sorting.SortBy(all, NewerFirst);
      && multiset(sorted) == multiset(all)
      && (forall i, j :: 0 <= i < j < |sorted| ==> sorted[i].completedAt >= sorted[j].completedAt)
      && (forall c :: c in sorted <==> c.workerId in HistoryIds(w, id) && c in CompletedTasks(w, c.workerId))
      && (forall c :: Sorting.Level(sorted, NewerFirst, c) == Sorting.Level(all, NewerFirst, c))
  {
    var all := AllCompleted(w, HistoryIds(w, id));
    var sorted := Sorting.SortBy(all, NewerFirst);
    NewerFirstIsTotalPreorder();
    Sorting.SortSorted(all, NewerFirst);
    forall c ensures Sorting.Level(sorted, NewerFirst, c) == Sorting.Level(all, NewerFirst, c) {
      Sorting.SortStable(all, NewerFirst, c);
    }
    forall c ensures c in sorted <==> c.workerId in HistoryIds(w, id) && c in CompletedTasks(w, c.workerId) {
      assert c in sorted <==> c in multiset(sorted);
      assert c in all <==> c in multiset(all);
      AllCompletedMembers(w, HistoryIds(w, id), c);
    }
  }

  /** With nothing finished the history says so in one line; otherwise a
      header and one line per finished task, each naming the repository and
      issue and ending with the worker. */
  lemma HistoryLines(w: World, id: Option<string>, stamp: int -> string)
    ensures var all := AllCompleted(w, HistoryIds(w, id));
      var out := HistorySpec(w, id, stamp);
      && (all == [] <==> out == [NoTasksLine])
      && (all != [] ==> |out| == 1 + |all| && out[0] == TasksHeader)
  {
    var all := AllCompleted(w, HistoryIds(w, id));
    if all != [] {
      var sorted := Sorting.SortBy(all, NewerFirst);
      assert |multiset(sorted)| == |multiset(all)|;
      assert |HistorySpec(w, id, stamp)| == 1 + |sorted|;
      assert HistorySpec(w, id, stamp) != [NoTasksLine] by {
        assert TasksHeader != NoTasksLine by { assert |TasksHeader| != |NoTasksLine|; }
      }
    }
  }

  /** A line names the task's repository and issue and ends with its worker. */
  lemma FormatTaskEndsWithWorker(c: CompletedTask, stamp: int -> string)
    ensures EndsWith(FormatTask(c, stamp), "  (w" + c.workerId + ")")
  {
    var tail := "  (w" + c.workerId + ")";
    var line := FormatTask(c, stamp);
    var head := "  " + stamp(c.completedAt) + "  " + c.task.repo + "#" + IssueDisplay(c.task.issue);
    assert line == head + tail;
  }
}
