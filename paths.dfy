/** Where a worker's files live (src/lib/paths.ts): the workers root, each
    worker's home under it, and the task record, archive and agent settings
    inside the home. */
module Paths {
  import opened Js
  import Sorting

  /** Stands for `os.homedir()` of the user who runs the commands. */
  const HomeDir: string := "/home/user"

  /** Stands for the project root, two directories above the built binary. */
  const InstallDir: string := "/opt/claude-workers"

  /** A single path segment: non-empty, without '/', and neither "." nor "..". */
  predicate Segment(name: string) {
    name != [] && '/' !in name && name != "." && name != ".."
  }

  /** `path.join(dir, name)` for a normalised directory and a single segment
      `name`; for other names `path.join` also normalises ("./b" and "b/../b"
      join like "b"), which this concatenation does not. */
  function Join(dir: string, name: string): string {
    dir + "/" + name
  }

  const WorkersRoot: string := Join(HomeDir, "workers")
  const TemplatesRoot: string := Join(InstallDir, "templates")

  /** One entry of a directory listing read with `withFileTypes`. */
  datatype DirEntry = DirEntry(name: string, isDirectory: bool)

  /** `entries.filter(e => e.isDirectory()).map(e => e.name)`. */
  function DirectoryNames(entries: seq<DirEntry>): (r: seq<string>)
    ensures |r| <= |entries|
    ensures forall n :: n in r <==> DirEntry(n, true) in entries
  {
    if entries == [] then []
    else
      var rest := DirectoryNames(entries[1..]);
      assert forall e :: e in entries <==> e == entries[0] || e in entries[1..];
      if entries[0].isDirectory then [entries[0].name] + rest else rest
  }

  /** The sorted names of the subdirectories of the workers root, or none when
      the root cannot be read. */
  function GetWorkerIds(listing: Option<seq<DirEntry>>): (r: seq<string>)
    ensures listing.None? ==> r == []
    ensures listing.Some? ==> multiset(r) == multiset(DirectoryNames(listing.value))
    ensures forall n :: n in r <==> listing.Some? && DirEntry(n, true) in listing.value
    ensures Sorting.SortedBy(r, Sorting.StrLe)
  {
    match listing
    case None => []
    case Some(entries) =>
      var names := DirectoryNames(entries);
      Sorting.SortStringsCorrect(names);
      var r := Sorting.SortStrings(names);
      assert forall n :: n in r <==> n in multiset(names);
      r
  }

  function WorkerHome(id: string): string {
    Join(WorkersRoot, id)
  }

  function WorkerTaskPath(id: string): string {
    Join(WorkerHome(id), "task.json")
  }

  function WorkerCompletedDir(id: string): string {
    Join(WorkerHome(id), "completed")
  }

  function WorkerClaudeDir(id: string): string {
    Join(WorkerHome(id), ".claude")
  }

  /** The template for `id` when the templates root has a directory of that
      name, the generic worker template otherwise; `existing` holds the paths
      that exist. */
  function GetTemplateDir(id: string, existing: set<string>): (r: string)
    ensures Join(TemplatesRoot, id) in existing ==> r == Join(TemplatesRoot, id)
    ensures Join(TemplatesRoot, id) !in existing ==> r == Join(TemplatesRoot, "worker")
  {
    var special := Join(TemplatesRoot, id);
    if special in existing then special else Join(TemplatesRoot, "worker")
  }

  /** Every per-worker path is the worker's home followed by a fixed name, so
      the paths of a worker identify it, when worker ids are single segments. */
  lemma {:induction false} WorkerPathsIdentify(a: string, b: string)
    requires Segment(a) && Segment(b)
    ensures WorkerHome(a) == WorkerHome(b) ==> a == b
    ensures WorkerTaskPath(a) == WorkerTaskPath(b) ==> a == b
    ensures WorkerCompletedDir(a) == WorkerCompletedDir(b) ==> a == b
    ensures WorkerClaudeDir(a) == WorkerClaudeDir(b) ==> a == b
    ensures WorkerHome(a) != WorkerHome(b) ==> WorkerTaskPath(a) != WorkerTaskPath(b)
  {
    var p := WorkersRoot + "/";
    assert WorkerHome(a) == p + a && WorkerHome(b) == p + b;
    if WorkerHome(a) == WorkerHome(b) {
      assert a == (p + a)[|p|..] == (p + b)[|p|..] == b;
    }
    JoinCancels(WorkerHome(a), WorkerHome(b), "task.json");
    JoinCancels(WorkerHome(a), WorkerHome(b), "completed");
    JoinCancels(WorkerHome(a), WorkerHome(b), ".claude");
  }

  /** Joining the same segment to two directories gives the same path only
      for the same directory. */
  lemma JoinCancels(x: string, y: string, name: string)
    requires Segment(name)
    ensures Join(x, name) == Join(y, name) ==> x == y
  {
    var sx, sy := Join(x, name), Join(y, name);
    if sx == sy {
      assert |x| == |y|;
      assert x == sx[..|x|];
      assert y == sy[..|y|];
    }
  }
}
