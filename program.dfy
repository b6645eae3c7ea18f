/**
 * The command-line front end: picking the command from the arguments, reading the
 * command's own arguments, and the closed/total tally of the close command.
 *
 * The environment token, the issues file's entries and the two remote endpoints are
 * parameters of `Run`; writing the export file and printing are left out.
 */
module Program {
  import opened Outcomes
  import opened GitHubHelper

  /** The verb of the export command. */
  const GetIssuesCommand: string := "get"

  /** The verb of the close command; the comparison is case-sensitive. */
  const CloseIssuesCommand: string := "Close"

  /** The exceptions that end the program, one per `throw` (and one out-of-range index). */
  datatype CliError =
    | MissingToken                    // the token variable is unset or empty
    | MissingCommand                  // no arguments, or an empty first argument
    | UnknownCommand(verb: string)    // a verb that is neither command
    | MissingGetArguments             // fewer than two arguments after the export verb
    | ArgumentIndexOutOfRange         // the export command reads an argument that is not there
    | MissingIssuesFile               // not exactly one argument after the close verb
    | UnreadableIssuesFile(path: string) // the issues file could not be read or deserialised
    | CloseTaskFaulted(attempted: seq<IssueCloseData>) // a null entry made its close task throw; the others were still sent
    | SearchFailed(message: string)   // a search call threw

  /** A command with its arguments read. */
  datatype Command =
    | Get(owner: string, repo: string, labelName: Option<string>, outputPath: string)
    | Close(issuesFile: string)

  /** The closed/total summary the close command prints. */
  datatype Tally = Tally(closed: nat, total: nat)

  /** What a successful run produced: the records written to the export file, or the close summary. */
  datatype Report =
    | Exported(outputPath: string, issues: seq<IssueCloseData>)
    | CloseSummary(tally: Tally)

  /** The verb is the first argument; there must be one, and it must not be empty. */
  function ParseVerb(args: seq<string>): (r: Result<string, CliError>)
    ensures r.Success? <==> |args| > 0 && args[0] != ""
    ensures r.Success? ==> r.value == args[0]
    ensures r.Failure? ==> r.error == MissingCommand
  {
    if |args| == 0 || args[0] == "" then Failure(MissingCommand) else Success(args[0])
  }

  /**
   * The export command's arguments (those after the verb): fewer than two is refused;
   * three are owner, repo and output path; otherwise the third is the label and the
   * fourth the output path, which is out of range when there are only two.
   */
  function ParseGetArgs(args: seq<string>): (r: Result<Command, CliError>)
    ensures |args| < 2 ==> r == Failure(MissingGetArguments)
    ensures |args| == 2 ==> r == Failure(ArgumentIndexOutOfRange)
    ensures |args| == 3 ==> r == Success(Get(args[0], args[1], None, args[2]))
    ensures |args| >= 4 ==> r == Success(Get(args[0], args[1], Some(args[2]), args[3]))
  {
    if |args| < 2 then Failure(MissingGetArguments)
    else if |args| == 3 then Success(Get(args[0], args[1], None, args[2]))
    else if 3 < |args| then Success(Get(args[0], args[1], Some(args[2]), args[3]))
    else Failure(ArgumentIndexOutOfRange)
  }

  /** The close command takes exactly one argument, the issues file. */
  function ParseCloseArgs(args: seq<string>): (r: Result<Command, CliError>)
    ensures r.Success? <==> |args| == 1
    ensures r.Success? ==> r.value == Close(args[0])
    ensures r.Failure? ==> r.error == MissingIssuesFile
  {
    if |args| != 1 then Failure(MissingIssuesFile) else Success(Close(args[0]))
  }

  /** The verb picks the command, which reads the arguments after the verb. */
  function Dispatch(args: seq<string>): (r: Result<Command, CliError>)
    ensures |args| == 0 || args[0] == "" ==> r == Failure(MissingCommand)
    ensures |args| > 0 && args[0] !in {"", GetIssuesCommand, CloseIssuesCommand} ==>
      r == Failure(UnknownCommand(args[0]))
    ensures r.Success? <==>
      |args| > 0 && ((args[0] == GetIssuesCommand && |args| >= 4) || (args[0] == CloseIssuesCommand && |args| == 2))
    ensures r.Success? && r.value.Get? ==>
      args[0] == GetIssuesCommand && |args| >= 4 &&
      r.value.owner == args[1] && r.value.repo == args[2] &&
      (r.value.labelName.Some? <==> |args| > 4) &&
      (|args| == 4 ==> r.value.outputPath == args[3]) &&
      (|args| > 4 ==> r.value.labelName == Some(args[3]) && r.value.outputPath == args[4])
    ensures r.Success? && r.value.Close? ==>
      args[0] == CloseIssuesCommand && |args| == 2 && r.value.issuesFile == args[1]
  {
    match ParseVerb(args)
    case Failure(e) => Failure(e)
    case Success(verb) =>
      if verb == GetIssuesCommand then ParseGetArgs(args[1..])
      else if verb == CloseIssuesCommand then ParseCloseArgs(args[1..])
      else Failure(UnknownCommand(verb))
  }

  /** Arguments after the export command's fourth are never read. */
  lemma ExtraGetArgumentsIgnored(args: seq<string>, extra: seq<string>)
    requires |args| >= 5 && args[0] == GetIssuesCommand
    ensures Dispatch(args + extra) == Dispatch(args)
  {
  }

  /** The verbs are matched exactly: "close" and "Get" are unknown commands. */
  lemma VerbsAreCaseSensitive(rest: seq<string>)
    ensures Dispatch(["close"] + rest) == Failure(UnknownCommand("close"))
    ensures Dispatch(["Get"] + rest) == Failure(UnknownCommand("Get"))
  {
  }

  /** The number of successful attempts. */
  function CountClosed(outcomes: seq<bool>): (n: nat)
    ensures n <= |outcomes|
    ensures n == |outcomes| <==> forall i :: 0 <= i < |outcomes| ==> outcomes[i]
    ensures n == 0 <==> forall i :: 0 <= i < |outcomes| ==> !outcomes[i]
  {
    if outcomes == [] then 0
    else (if outcomes[0] then 1 else 0) + CountClosed(outcomes[1..])
  }

  /** The count is the multiplicity of `true`: it does not depend on the order of the outcomes. */
  lemma {:induction false} CountClosedIsMultiplicity(outcomes: seq<bool>)
    ensures CountClosed(outcomes) == multiset(outcomes)[true]
  {
    if outcomes != [] {
      CountClosedIsMultiplicity(outcomes[1..]);
      assert outcomes == [outcomes[0]] + outcomes[1..];
      assert multiset(outcomes) == multiset([outcomes[0]]) + multiset(outcomes[1..]);
    }
  }

  /** Two runs whose attempts complete in different orders report the same count. */
  lemma TallyIsOrderIndependent(a: seq<bool>, b: seq<bool>)
    requires multiset(a) == multiset(b)
    ensures CountClosed(a) == CountClosed(b)
  {
    CountClosedIsMultiplicity(a);
    CountClosedIsMultiplicity(b);
  }

  /** If exactly one of the attempts fails, all the others are counted. */
  lemma {:induction false} OneFailureCountsTheRest(outcomes: seq<bool>, k: int)
    requires 0 <= k < |outcomes| && !outcomes[k]
    requires forall i :: 0 <= i < |outcomes| && i != k ==> outcomes[i]
    ensures CountClosed(outcomes) == |outcomes| - 1
  {
    if k == 0 {
      assert CountClosed(outcomes[1..]) == |outcomes| - 1 by {
        assert forall i :: 0 <= i < |outcomes[1..]| ==> outcomes[1..][i] == outcomes[i + 1];
      }
    } else {
      OneFailureCountsTheRest(outcomes[1..], k - 1);
    }
  }

  /** One close attempt per issue, in the order of the issues file. */
  function CloseAttempts(update: Updater, issues: seq<IssueCloseData>): (outcomes: seq<bool>)
    ensures |outcomes| == |issues|
    ensures forall i :: 0 <= i < |issues| ==>
      (outcomes[i] <==> update(issues[i].owner, issues[i].repo, issues[i].number, IssueUpdate(Closed)).Success?)
  {
    seq(|issues|, i requires 0 <= i < |issues| => TryCloseIssue(update, issues[i]))
  }

  /** The close command's summary: how many of the issues were closed, out of how many. */
  function CloseIssues(update: Updater, issues: seq<IssueCloseData>): (t: Tally)
    ensures t.total == |issues| && t.closed <= t.total
    ensures t.closed == CountClosed(CloseAttempts(update, issues))
  {
    var outcomes := CloseAttempts(update, issues);
    Tally(CountClosed(outcomes), |outcomes|)
  }

  /** If the update of exactly one issue fails, the summary is `N-1/N`. */
  lemma OneFailedCloseIsIsolated(update: Updater, issues: seq<IssueCloseData>, k: int)
    requires 0 <= k < |issues|
    requires update(issues[k].owner, issues[k].repo, issues[k].number, IssueUpdate(Closed)).Failure?
    requires forall i :: 0 <= i < |issues| && i != k ==>
      update(issues[i].owner, issues[i].repo, issues[i].number, IssueUpdate(Closed)).Success?
    ensures CloseIssues(update, issues) == Tally(|issues| - 1, |issues|)
  {
    OneFailureCountsTheRest(CloseAttempts(update, issues), k);
  }

  /**
   * The entries of the issues file that are not `null`, in file order: the issues
   * whose update is sent, whatever happens to the other entries' tasks.
   */
  function Present(entries: seq<Option<IssueCloseData>>): (r: seq<IssueCloseData>)
    ensures |r| <= |entries|
    ensures forall i :: 0 <= i < |entries| && entries[i].Some? ==> entries[i].value in r
    ensures forall x :: x in r ==> Some(x) in entries
    ensures (forall i :: 0 <= i < |entries| ==> entries[i].Some?) ==>
      |r| == |entries| && forall i :: 0 <= i < |entries| ==> r[i] == entries[i].value
  {
    if entries == [] then []
    else
      match entries[0]
      case None => Present(entries[1..])
      case Some(issue) => [issue] + Present(entries[1..])
  }

  /** The non-null entries of two parts of the file are those of the first part, then those of the second. */
  lemma {:induction false} PresentAppend(a: seq<Option<IssueCloseData>>, b: seq<Option<IssueCloseData>>)
    ensures Present(a + b) == Present(a) + Present(b)
  {
    if a != [] {
      assert (a + b)[0] == a[0] && (a + b)[1..] == a[1..] + b;
      PresentAppend(a[1..], b);
    } else {
      assert a + b == b;
    }
  }

  /** Every record is attempted as many times as it is listed: one close task per non-null entry. */
  lemma {:induction false} PresentKeepsMultiplicity(entries: seq<Option<IssueCloseData>>, x: IssueCloseData)
    ensures multiset(Present(entries))[x] == multiset(entries)[Some(x)]
  {
    if entries != [] {
      PresentKeepsMultiplicity(entries[1..], x);
      assert entries == [entries[0]] + entries[1..];
      assert multiset(entries) == multiset([entries[0]]) + multiset(entries[1..]);
    }
  }

  /**
   * The close command on the deserialised file. A `null` entry makes its task throw
   * twice over (reading its fields in the `try` and again in the `catch`), so the
   * wait for all tasks rethrows and no summary is printed, after the updates of all
   * other entries were sent. Without `null` entries the result is the tally.
   */
  function CloseEntries(update: Updater, entries: seq<Option<IssueCloseData>>): (r: Result<Tally, CliError>)
    ensures r.Success? <==> forall i :: 0 <= i < |entries| ==> entries[i].Some?
    ensures r.Success? ==> r.value.total == |entries| && r.value == CloseIssues(update, Present(entries))
    ensures r.Failure? ==> r.error == CloseTaskFaulted(Present(entries))
  {
    if forall i :: 0 <= i < |entries| ==> entries[i].Some? then Success(CloseIssues(update, Present(entries)))
    else Failure(CloseTaskFaulted(Present(entries)))
  }

  /**
   * One `null` entry is enough to lose the summary, and every other entry of the
   * file is still among the issues whose update was sent.
   */
  lemma NullEntryLosesSummary(update: Updater, entries: seq<Option<IssueCloseData>>, k: int)
    requires 0 <= k < |entries| && entries[k].None?
    ensures CloseEntries(update, entries).Failure?
    ensures forall i :: 0 <= i < |entries| && entries[i].Some? ==>
      entries[i].value in CloseEntries(update, entries).error.attempted
  {
  }

  /** The token check: the variable must be set and not empty. */
  predicate HasToken(token: Option<string>)
  {
    token.Some? && token.value != ""
  }

  /**
   * The whole program: check the token, pick the command, and run it. The export
   * command hands the fetched records to the file writer; the close command reads
   * the issues file, tries to close every entry and reports the tally, unless a
   * `null` entry made its close task throw.
   */
  method Run(token: Option<string>, args: seq<string>, search: Searcher,
             readIssues: string -> Option<seq<Option<IssueCloseData>>>, update: Updater)
    returns (r: Result<Report, CliError>)
    ensures !HasToken(token) ==> r == Failure(MissingToken)
    ensures HasToken(token) && Dispatch(args).Failure? ==> r == Failure(Dispatch(args).error)
    ensures HasToken(token) && Dispatch(args).Success? && Dispatch(args).value.Get? ==>
      var c := Dispatch(args).value;
      match SearchResults(search, c.owner, c.repo, c.labelName)
      case Failure(m) => r == Failure(SearchFailed(m))
      case Success(records) => r == Success(Exported(c.outputPath, records))
    ensures HasToken(token) && Dispatch(args).Success? && Dispatch(args).value.Close? ==>
      var path := Dispatch(args).value.issuesFile;
      match readIssues(path)
      case None => r == Failure(UnreadableIssuesFile(path))
      case Some(entries) =>
        match CloseEntries(update, entries)
        case Failure(e) => r == Failure(e)
        case Success(tally) => r == Success(CloseSummary(tally))
  {
    if !HasToken(token) {
      return Failure(MissingToken);
    }
    var command := Dispatch(args);
    if command.Failure? {
      return Failure(command.error);
    }
    match command.value
    case Get(owner, repo, labelName, outputPath) =>
      var found, _ := GetIssuesByLabel(search, owner, repo, labelName);
      if found.Failure? {
        return Failure(SearchFailed(found.error));
      }
      r := Success(Exported(outputPath, found.value));
    case Close(path) =>
      var entries := readIssues(path);
      if entries.None? {
        return Failure(UnreadableIssuesFile(path));
      }
      var tally := CloseEntries(update, entries.value);
      if tally.Failure? {
        return Failure(tally.error);
      }
      r := Success(CloseSummary(tally.value));
  }
}
