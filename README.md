# GitHubIssueCloser, modelled in Dafny

GitHubIssueCloser is a small command-line tool over the Octokit GitHub library.
`get <owner> <repo> [label] <output>` searches a repository for its open issues
(optionally with one label), pages through the search results and writes one
`IssueCloseData(owner, repo, number, title, url)` record per hit to a JSON file.
`Close <file>` reads such a file back, asks GitHub to close every listed issue,
and prints how many of them were closed, out of how many (a `null` entry in the
file makes the command fail instead, after the other updates were sent).

This project models the decision logic of that tool and proves its properties:

- `outcomes.dfy` (module `Outcomes`): `Option` for C#'s `null` and `Result` for
  "returns or throws".
- `github_helper.dfy` (module `GitHubHelper`, after `src/GitHubHelper.cs`): the
  mutable search request (`SearchIssuesRequest`, a class) and `CreateSearchRequest`,
  which fills it in; the paging loop `GetIssuesByLabel`, an imperative method that
  advances the request's page counter as the source does and records, as a ghost
  trace, the page number of every call; `Paginate`, the recursive specification
  of that loop, with lemmas stating the paging rule; the projection of the pages
  to records; and `TryCloseIssue`, which turns the update's exception into `false`.
- `program.dfy` (module `Program`, after `src/Program.cs`): `ParseVerb`, the
  export and close commands' argument handling, `Dispatch` (the `switch` in
  `Main`), the closed/total tally, and `Run`, the whole of `Main`.

The remote search and the remote update are oracles: `Searcher` maps a snapshot
of the search request (`SearchQuery`) to a page of hits or an exception message,
and `Updater` maps (owner, repo, number, update) to success or an exception
message. The authentication token, the issues file's entries (each a record or `null`) and both oracles
are parameters of `Run`.

Points where the code differs from the tool's usage text, followed here:

- The close verb is `Close`, compared case-sensitively; `close` is an unknown command.
- With three arguments after `get` there is no label. With four or more, the third
  is the label and the fourth the output path; any further arguments are ignored.
- With exactly two arguments after `get`, the usage check (`< 2`) lets the call
  through and the code reads the third argument, which is not there:
  the run ends with an index-out-of-range error (`ArgumentIndexOutOfRange`) instead
  of the usage message.
- Paging stops after page 10, so a search with more than 1000 hits is cut off silently.
- The page at which a new search request starts is the library's default, which is
  not in the modelled files; the model takes it to be 1 (`DefaultPage`), and the
  default page size to be 100.

## Model

| member | source | states |
|---|---|---|
| `GitHubHelper.SearchIssuesRequest.constructor` | src/GitHubHelper.cs:58 | a new request has no repository, type, state or label qualifiers, and starts at page 1 with page size 100 |
| `GitHubHelper.SearchIssuesRequest.AddRepository` | src/GitHubHelper.cs:59 | adds (owner, repo) to the end of the repository qualifiers and changes no other field |
| `GitHubHelper.CreateSearchRequest` | src/GitHubHelper.cs:56-70 | a fresh request for exactly the one repository, type Issue, state Open, page size 100, page 1; no label filter when there is no label, exactly the one-element list `[label]` when there is one |
| `GitHubHelper.Paginate` | src/GitHubHelper.cs:40-49 | the loop always makes at least one call, the first at the request's own page, and a successful run yields exactly one page per call |
| `GitHubHelper.GetIssuesByLabel` | src/GitHubHelper.cs:33-54 | the loop over the mutable request returns exactly the projected pages of `Paginate` on the request `CreateSearchRequest` builds (or the first search failure, with no partial result), and its ghost trace of requested pages is exactly the calls `Paginate` makes |
| `GitHubHelper.PaginateAsksConsecutivePages` | src/GitHubHelper.cs:44-47 | the i-th call asks for the start page plus i: pages are requested one after another, each one up from the last |
| `GitHubHelper.PaginateRespectsCap` | src/GitHubHelper.cs:44 | from a start page below 10 there are at most `10 - page + 1` calls; from page 10 or later, only one |
| `GitHubHelper.PaginateEarlierPagesFull` | src/GitHubHelper.cs:44-48 | a further page is requested only after a successful call that returned exactly 100 hits for a page below 10 |
| `GitHubHelper.PaginateEndsAtLastCall` | src/GitHubHelper.cs:40-49 | the run fails exactly when its last call failed, with that call's message; when it succeeds, the last page does not hold exactly 100 hits, or is page 10 |
| `GitHubHelper.PaginatePagesAreAnswers` | src/GitHubHelper.cs:40-48 | page i of a successful run is exactly what the search returned for the start page plus i |
| `GitHubHelper.IssueSearchPages` | src/GitHubHelper.cs:36-49 | the search run by `GetIssuesByLabel` requests pages 1, 2, 3, ... in order, at least one and at most 10, and every page but the last held exactly 100 hits |
| `GitHubHelper.AtMostThousandIssues` | src/GitHubHelper.cs:44-53 | when the remote never returns more hits than the page size, at most 1000 records are returned |
| `GitHubHelper.Concat` | src/GitHubHelper.cs:51 | the flattened hits are as many as the pages' hits together (no hit dropped or merged) |
| `GitHubHelper.ConcatKeepsOrder` | src/GitHubHelper.cs:51-52 | hit j of page i is, unchanged, at the position right after the hits of all earlier pages |
| `GitHubHelper.ToCloseData` | src/GitHubHelper.cs:52-53 | one record per hit, in order, each with the given owner and repo and the hit's own number, title and URL |
| `GitHubHelper.SearchResultsFollowFetchOrder` | src/GitHubHelper.cs:38-53 | the records are the hits of the fetched pages in fetch order: as many records as hits, and hit j of the page fetched by call i becomes the record after all earlier pages' records, carrying owner, repo and the hit's fields unchanged |
| `GitHubHelper.TryCloseIssue` | src/GitHubHelper.cs:72-91 | true exactly when the update asking for state Closed on (owner, repo, number) succeeds; a failed update gives false and nothing is raised |
| `Program.ParseVerb` | src/Program.cs:81-92 | fails with the missing-command error exactly when there are no arguments or the first is empty; otherwise gives the first argument |
| `Program.ParseGetArgs` | src/Program.cs:37-53 | fewer than 2 arguments: usage error; exactly 2: index out of range; exactly 3: owner, repo, output path, no label; 4 or more: owner, repo, label, output path, the rest ignored |
| `Program.ParseCloseArgs` | src/Program.cs:62-67 | succeeds exactly with one argument, which names the issues file |
| `Program.Dispatch` | src/Program.cs:16-27 | an empty argument list or empty verb is the missing-command error; any verb other than `get` and `Close` is an unknown command; the run goes ahead exactly for `get` with at least 3 further arguments or `Close` with exactly one, and the command's fields are the arguments after the verb |
| `Program.ExtraGetArgumentsIgnored` | src/Program.cs:47-53 | appending arguments after the export command's fourth changes nothing |
| `Program.VerbsAreCaseSensitive` | src/Program.cs:8-9 | `close` and `Get` are unknown commands, whatever follows them |
| `Program.CountClosed` | src/Program.cs:77 | the count is at most the number of attempts; it equals it exactly when all succeeded, and is 0 exactly when all failed |
| `Program.CountClosedIsMultiplicity` | src/Program.cs:77 | the count equals the number of `true` outcomes in the multiset of outcomes |
| `Program.TallyIsOrderIndependent` | src/Program.cs:72-77 | outcomes that differ only in order give the same count |
| `Program.OneFailureCountsTheRest` | src/Program.cs:77 | if exactly one of N outcomes is false, the count is N-1 |
| `Program.CloseAttempts` | src/Program.cs:72-75 | one outcome per issue, in the issues' order, true exactly when closing that issue succeeded |
| `Program.CloseIssues` | src/Program.cs:72-78 | the tally's total is the number of issues, and the closed count is the number of successful close attempts, never more than the total |
| `Program.Present` | src/Program.cs:72-74 | the issues whose update is sent: no more than the entries, every non-null entry among them and nothing else; with no null entry, exactly the entries in order (order and multiplicity in general: `PresentAppend`, `PresentKeepsMultiplicity`) |
| `Program.PresentAppend` | src/Program.cs:72-74 | the non-null entries of a file split in two are those of the first part followed by those of the second: file order is kept |
| `Program.PresentKeepsMultiplicity` | src/Program.cs:72-74 | a record appears among the attempted issues exactly as many times as it is listed in the file, so a duplicate entry has its update sent twice |
| `Program.CloseEntries` | src/Program.cs:69-78 | the tally is produced exactly when the file has no null entry, and is then the tally of closing every entry; otherwise the close command fails, after the updates of all non-null entries were sent |
| `Program.NullEntryLosesSummary` | src/Program.cs:72-75 | one null entry is enough for the close command to fail without a summary, and every non-null entry is still among the issues whose update was sent |
| `Program.OneFailedCloseIsIsolated` | src/Program.cs:72-78 | if the update of exactly one issue fails and all others succeed, the summary is N-1 closed out of N |
| `Program.Run` | src/Program.cs:11-27 | a missing or empty token ends the run before anything else; otherwise an argument error ends it; the export command yields the search's records for its output path or the search failure; the close command fails when the issues file cannot be read or holds a null entry, and otherwise yields the tally of closing every listed issue |

## Left out

- `GetClient` (src/GitHubHelper.cs:20-26): building the Octokit client and its credentials is library code; the remote calls are the `Searcher` and `Updater` oracles instead.
- `GetIssues` (src/GitHubHelper.cs:28-31): a one-line library wrapper that nothing calls.
- `GetEnvToken` (src/GitHubHelper.cs:10-18): reading the environment variable is left out; its value is `Run`'s `token` parameter, and only the null-or-empty check is modelled (`HasToken`). The variable's name lives in `Settings`, which is not part of this model.
- Reading the issues file and deserialising it (src/Program.cs:67-70): both are the `readIssues` parameter of `Run`, which gives `None` for every way of failing (an unreadable file, malformed JSON, a `null` result). A `null` element inside the array is not a failure of deserialisation: `readIssues` gives it as a `None` entry, and `CloseEntries` models what follows.
- `TryCloseIssue`: never raises only for a non-null record. Its parameter is an `IssueCloseData` value, so the `null` case is modelled one level up, in `CloseEntries`: the entry's task throws at `issue.Owner` (src/GitHubHelper.cs:77) and again at `issue.Number` in the handler (src/GitHubHelper.cs:88), and the wait for all tasks (src/Program.cs:75) rethrows. This assumes `IssueCloseData` is a reference type (a record class), since its declaration is not part of this model.
- The update oracle `Updater` is a function of (owner, repo, number, update), so an issue listed twice in the file gets the same outcome both times; in the source the two concurrent updates may succeed or fail independently.
- `WriteJson` (src/Program.cs:94-99): serialising and writing the export file, and its failures, are not modelled; the export command's result carries the records and the output path that would be written.
- Console output (the close-attempt lines, the summary line, the count of written issues) and exception message texts are not modelled; errors are the constructors of `CliError`.
- `Task.WhenAll` and the concurrent close attempts (src/Program.cs:72-75) are modelled as one outcome per issue; scheduling and completion order are not (`TallyIsOrderIndependent` shows the count does not depend on order).
- The search oracle is a function of the request's fields, so two calls with the same request get the same answer; a remote whose results change between calls is not modelled.
- `IssueCloseData`'s declaration is not part of this model; its five fields are taken from the construction at src/GitHubHelper.cs:53 and the uses at src/GitHubHelper.cs:76-79. The number is an unbounded `int`; nothing in the code checks that it is positive.
- `AtMostThousandIssues`: holds only for a remote that never returns more hits than the page size (`RespectsPageSize`); the code itself places no bound on the size of the last page.
- Octokit's search request defaults (page 1, page size 100) are assumed in the request constructor rather than taken from library code.
