/** The command line (src/cli.ts): the first argument picks the command, the
    rest are its arguments; missing required arguments and unknown commands
    end with exit status 1 before any command runs. The dispatch command
    decides from its third argument whether an issue number was given. */
module Cli {
  import opened Js

  /** What an invocation comes to: a usage or error exit, or a command with
      its arguments. An inspect line count of `None` is NaN. */
  datatype Invocation =
    | ShowUsage
    | UnknownCommand(command: string)
    | MissingArguments(usage: string)
    | RunInit(id: string)
    | RunDispatch(id: string, repo: string, issue: Option<int>, prompt: Option<string>)
    | RunRestart(id: string)
    | RunStatus(statusId: Option<string>)
    | RunInspect(id: string, lines: Option<int>)
    | RunTodos(todosId: Option<string>)
    | RunRefresh(id: string)
    | RunWatch(id: string)
    | RunUpdate
    | RunHistory(historyId: Option<string>)
    | RunPoll

  /** `const [a, b, ...] = args`: the `i`-th argument, if there is one. */
  function Arg(args: seq<string>, i: nat): Option<string> {
    if i < |args| then Some(args[i]) else None
  }

  /** The arguments from the `i`-th on (`...rest`). */
  function RestFrom(args: seq<string>, i: nat): seq<string> {
    if i < |args| then args[i..] else []
  }

  /** The issue and the prompt parts of `dispatch <id> <repo> [issue#] [prompt]`:
      a third argument that is a non-empty string with a number prefix is the
      issue, otherwise it starts the prompt (an empty one is dropped). */
  function SplitIssue(third: Option<string>, rest: seq<string>): (Option<int>, seq<string>) {
    if StrTruthy(third) && ParseInt(third.value).Some? then (ParseInt(third.value), rest)
    else (None, if StrTruthy(third) then [third.value] + rest else rest)
  }

  /** The prompt: the parts joined by single spaces, or none without parts. */
  function PromptOf(parts: seq<string>): Option<string> {
    if |parts| > 0 then Some(Join(parts, " ")) else None
  }

  function DispatchInvocation(args: seq<string>): Invocation {
    var id, repo := Arg(args, 0), Arg(args, 1);
    if !StrTruthy(id) || !StrTruthy(repo) then MissingArguments("Usage: claude-workers dispatch <id> <owner/repo> [issue#] [prompt]")
    else
      var (issue, parts) := SplitIssue(Arg(args, 2), RestFrom(args, 3));
      RunDispatch(id.value, repo.value, issue, PromptOf(parts))
  }

  /** `lines = linesArg ? parseInt(linesArg, 10) : 30`. */
  function InspectLines(linesArg: Option<string>): Option<int> {
    if StrTruthy(linesArg) then ParseInt(linesArg.value) else Some(30)
  }

  /** A command that needs one worker id. */
  function WithId(args: seq<string>, usage: string, run: string -> Invocation): Invocation {
    if StrTruthy(Arg(args, 0)) then run(args[0]) else MissingArguments(usage)
  }

  /** `main()` over `process.argv.slice(2)`. */
  function Parse(argv: seq<string>): Invocation {
    var command := Arg(argv, 0);
    var args := RestFrom(argv, 1);
    if !StrTruthy(command) || command.value == "-h" || command.value == "--help" then ShowUsage
    else
      match command.value
      case "init" => WithId(args, "Usage: claude-workers init <id>", id => RunInit(id))
      case "dispatch" => DispatchInvocation(args)
      case "restart" => WithId(args, "Usage: claude-workers restart <id>", id => RunRestart(id))
      case "status" => RunStatus(Arg(args, 0))
      case "inspect" => WithId(args, "Usage: claude-workers inspect <id> [lines]", id => RunInspect(id, InspectLines(Arg(args, 1))))
      case "todos" => RunTodos(Arg(args, 0))
      case "refresh" => WithId(args, "Usage: claude-workers refresh <id>", id => RunRefresh(id))
      case "watch" => WithId(args, "Usage: claude-workers watch <id>", id => RunWatch(id))
      case "update" => RunUpdate
      case "history" => RunHistory(Arg(args, 0))
      case "poll" => RunPoll
      case other => UnknownCommand(other)
  }

  /** The exit status the command line itself decides: 0 after the usage, 1
      for an unknown command or a missing argument; a command that runs
      decides its own. */
  function ParseExit(inv: Invocation): Option<int> {
    match inv
    case ShowUsage => Some(0)
    case UnknownCommand(_) => Some(1)
    case MissingArguments(_) => Some(1)
    case _ => None
  }

  /** No command, an empty one, "-h" or "--help" shows the usage and exits 0. */
  lemma HelpExitsZero(argv: seq<string>)
    ensures Parse(argv) == ShowUsage
      <==> argv == [] || argv[0] == "" || argv[0] == "-h" || argv[0] == "--help"
    ensures Parse(argv) == ShowUsage ==> ParseExit(Parse(argv)) == Some(0)
  {
  }

  /** Every other name outside the command table, "stop", "reset" and
      "assign" among them, is an unknown command and exits 1. */
  lemma UnknownExitsOne(argv: seq<string>)
    requires argv != [] && argv[0] !in {"", "-h", "--help", "init", "dispatch", "restart", "status",
      "inspect", "todos", "refresh", "watch", "update", "history", "poll"}
    ensures Parse(argv) == UnknownCommand(argv[0]) && ParseExit(Parse(argv)) == Some(1)
  {
  }

  lemma StopResetAssignAreUnknown(rest: seq<string>)
    ensures Parse(["stop"] + rest) == UnknownCommand("stop")
    ensures Parse(["reset"] + rest) == UnknownCommand("reset")
    ensures Parse(["assign"] + rest) == UnknownCommand("assign")
  {
    UnknownExitsOne(["stop"] + rest);
    UnknownExitsOne(["reset"] + rest);
    UnknownExitsOne(["assign"] + rest);
  }

  /** Dispatch without a non-empty id and repository exits 1 and runs nothing;
      otherwise it runs with exactly those two. */
  lemma DispatchNeedsIdAndRepo(args: seq<string>)
    ensures var inv := Parse(["dispatch"] + args);
      && (inv.MissingArguments? <==> |args| < 2 || args[0] == "" || args[1] == "")
      && (inv.MissingArguments? ==> ParseExit(inv) == Some(1))
      && (!inv.MissingArguments? ==> inv.RunDispatch? && inv.id == args[0] && inv.repo == args[1])
  {
    ParseDispatch(args);
    if |args| < 2 || args[0] == "" || args[1] == "" {
      assert !StrTruthy(Arg(args, 0)) || !StrTruthy(Arg(args, 1));
    } else {
      DispatchRuns(args);
    }
  }

  /** The third argument is the issue exactly when it is non-empty and has a
      number prefix; the prompt is then made of the arguments after it, and
      otherwise of the third argument (when non-empty) and those after it. */
  lemma {:induction false} DispatchSplit(third: Option<string>, rest: seq<string>)
    ensures var (issue, parts) := SplitIssue(third, rest);
      && (issue.Some? <==> StrTruthy(third) && ParseInt(third.value).Some?)
      && (issue.Some? ==> issue == ParseInt(third.value) && parts == rest)
      && (issue.None? && StrTruthy(third) ==> parts == [third.value] + rest)
      && (issue.None? && !StrTruthy(third) ==> parts == rest)
  {
  }

  /** The prompt is none exactly when there are no parts; one part is the
      prompt itself; otherwise the first part, one space, and the rest joined. */
  lemma PromptJoin(parts: seq<string>)
    ensures PromptOf(parts).None? <==> parts == []
    ensures |parts| == 1 ==> PromptOf(parts) == Some(parts[0])
    ensures |parts| > 1 ==> PromptOf(parts) == Some(parts[0] + " " + Join(parts[1..], " "))
  {
  }

  /** The dispatch command gets every argument after its name. */
  lemma ParseDispatch(args: seq<string>)
    ensures Parse(["dispatch"] + args) == DispatchInvocation(args)
  {
    var argv := ["dispatch"] + args;
    assert Arg(argv, 0) == Some("dispatch");
    assert RestFrom(argv, 1) == args;
    assert |"dispatch"| == 8 && |"-h"| == 2 && |"--help"| == 6 && |"init"| == 4;
  }

  /** Unfolds `DispatchInvocation` for a non-empty id and repository, for the
      lemmas around it. */
  lemma DispatchRuns(args: seq<string>)
    requires |args| >= 2 && args[0] != "" && args[1] != ""
    ensures var (issue, parts) := SplitIssue(Arg(args, 2), RestFrom(args, 3));
      DispatchInvocation(args) == RunDispatch(args[0], args[1], issue, PromptOf(parts))
  {
    assert Arg(args, 0) == Some(args[0]) && Arg(args, 1) == Some(args[1]);
  }

  /** "12abc" is issue 12: parseInt reads a number prefix. */
  lemma DispatchNumberPrefix()
    ensures DispatchInvocation(["01", "o/r", "12abc"]) == RunDispatch("01", "o/r", Some(12), None)
  {
    var args := ["01", "o/r", "12abc"];
    DispatchRuns(args);
    assert Arg(args, 2) == Some("12abc") && RestFrom(args, 3) == [];
    ParseIntReadsPrefix();
    assert SplitIssue(Some("12abc"), []) == (Some(12), []);
  }

  /** A word in third place starts the prompt, and the words are joined by
      single spaces. */
  lemma DispatchWordPrompt()
    ensures DispatchInvocation(["01", "o/r", "Fix", "it"]) == RunDispatch("01", "o/r", None, Some("Fix it"))
  {
    var args := ["01", "o/r", "Fix", "it"];
    DispatchRuns(args);
    assert Arg(args, 2) == Some("Fix") && RestFrom(args, 3) == ["it"];
    assert SplitIssue(Some("Fix"), ["it"]) == (None, ["Fix", "it"]) by {
      ParseIntNaN("Fix");
      assert ["Fix"] + ["it"] == ["Fix", "it"];
    }
    assert PromptOf(["Fix", "it"]) == Some("Fix it") by {
      assert ["Fix", "it"][1..] == ["it"];
      assert Join(["it"], " ") == "it";
      assert Join(["Fix", "it"], " ") == "Fix" + " " + "it";
      assert "Fix" + " " + "it" == "Fix it";
    }
  }

  /** An empty third argument is neither the issue nor part of the prompt. */
  lemma DispatchEmptyThird()
    ensures DispatchInvocation(["01", "o/r", "", "Fix"]) == RunDispatch("01", "o/r", None, Some("Fix"))
  {
    var args := ["01", "o/r", "", "Fix"];
    DispatchRuns(args);
    assert Arg(args, 2) == Some("") && RestFrom(args, 3) == ["Fix"];
    assert SplitIssue(Some(""), ["Fix"]) == (None, ["Fix"]);
  }

  /** The inspect command takes the worker id and an optional line count. */
  lemma ParseInspect(id: string, rest: seq<string>)
    requires id != ""
    ensures Parse(["inspect", id] + rest) == RunInspect(id, InspectLines(Arg(rest, 0)))
  {
    var argv := ["inspect", id] + rest;
    assert RestFrom(argv, 1) == [id] + rest;
    assert Arg([id] + rest, 1) == Arg(rest, 0);
    assert |"inspect"| == 7 && |"-h"| == 2 && |"--help"| == 6 && |"init"| == 4 && |"dispatch"| == 8
      && |"restart"| == 7 && |"status"| == 6;
    assert "inspect"[0] != "restart"[0];
  }

  /** Inspect shows 30 lines unless told otherwise; a count that is no number
      is NaN. */
  lemma InspectLineCount(id: string)
    requires id != ""
    ensures Parse(["inspect", id]) == RunInspect(id, Some(30))
    ensures Parse(["inspect", id, ""]) == RunInspect(id, Some(30))
    ensures forall s :: s != "" ==> Parse(["inspect", id, s]) == RunInspect(id, ParseInt(s))
  {
    ParseInspect(id, []);
    assert ["inspect", id] + [] == ["inspect", id];
    ParseInspect(id, [""]);
    assert ["inspect", id] + [""] == ["inspect", id, ""];
    forall s | s != "" ensures Parse(["inspect", id, s]) == RunInspect(id, ParseInt(s)) {
      ParseInspect(id, [s]);
      assert ["inspect", id] + [s] == ["inspect", id, s];
    }
  }
}
