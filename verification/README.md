# A model of the web crawler's scheduler, worker and link matcher

This project models the core of a small same-domain web crawler. The crawler
keeps a list of tasks; each task is a domain, a path below it
(`sub_domain`) and a status (0 pending, 1 in flight, 2 done). A polling loop
first merges the replies its workers have sent back. Then it either starts a
worker for every pending task, or it stops once every task is done. A worker
fetches its task's page and splits the body on whitespace. It reports one
new pending task for every token that matches the pattern
`^(?:https?://)?(?:w{3}.)?<domain>/?(.*)$`. In test mode it instead applies
a rule on the parity of the path's length. The entry point also holds a
prototype scheduler over integers, which is modelled on its own.

Modules:

- `Tasks` (task.dfy): the task record, `Task::new`, `get_url`, derived equality.
- `Seqs` (seqs.dfy): removing one message from a channel, shared by both schedulers.
- `Text` (text.dfy): Unicode whitespace splitting (`split_whitespace`), UTF-8 byte length (`str::len`), character repetition.
- `Link` (link.dfy): the pattern splice and a matcher for the pattern. It is proved equal to a reference definition: the capture of the first way of reading the input, in the regex engine's leftmost-first priority order, that fits.
- `LinkCases` (link_cases.dfy): the matcher's unit-test inputs and further edge cases.
- `Worker` (worker.dfy): `search_for_links`, `run_task` with the fetch result as an input, and the test worker.
- `Scheduler` (scheduler.dfy): merging one reply, dispatch, one loop iteration, and runs. The merge a run applies is a parameter: the source's `handle_received_data` as written, or a corrected merge (see Findings). It also has the two loops of the source written as methods, statement by statement.
- `SchedulerProofs` (scheduler_proofs.dfy): an invariant kept by every step. The main result is `HaltedRunIsClosed`, about every run that stops.
- `Scenarios` (scenarios.dfy): the scheduler's unit tests, stated for every arrival order of replies.
- `ScenarioRuns` (scenario_runs.dfy): runs of the source's loop traced pass by pass. They show that the unit tests' lists do stop, and that a worker which reports one path twice makes the loop stop with a reply still in flight.
- `Prototype` (prototype.dfy): the integer scheduler of `main.rs`.

Threads and the result channel are replaced by a list of replies in flight.
A worker is a pure function from its task copy to the candidates it
reports. Each drain lists which replies have arrived, and in which order
(`picks`). Each pass of the prototype either reads nothing or reads the
answer at one chosen position. A property proved for every schedule
therefore holds whatever the polling delay and the workers' timing.

The model follows the code. These behaviours of the code are easy to miss:

- A bare domain token such as `monzo.com` matches with an empty capture, because the slash in the pattern is optional. A bare domain is meant to yield no extraction, but the code extracts the empty path.
- `search_for_links` keeps the whole matching token as the new task's path, not the capture.
- Text after the path, such as a closing quote or `>`, is part of the capture, because `(.*)$` takes the rest of the token. Tokens hold no whitespace, so no newline can stop it.
- Tasks are compared on `sub_domain` alone, both when a reply marks its task done and when candidates are deduplicated. Two tasks of different domains with one path count as the same task.
- `get_url` with an empty path keeps the trailing slash (`domain/`), not the bare domain URL.
- The worker reads a field `item` and calls a one-argument `Task::new`; neither is defined by the task record. `item` is read as `sub_domain` everywhere, and a discovered task takes the worker's domain.
- Candidates are compared with the list as it was before the merge, not with each other (see Findings).

## Model

| member | source | states |
|---|---|---|
| Tasks.NewTask | src/task.rs:9 | a new task is pending (status 0) and keeps its domain and path unchanged |
| Tasks.Copy | src/scheduler.rs:73-74 | the copy handed to a worker has the task's domain and path and is pending, as the task is when it is cloned |
| Tasks.Url | src/task.rs:11-16 | the URL is the domain, then one slash, then the path; its length is the domain length plus one plus the path length |
| Tasks.UrlPathRoundTrip | src/task.rs:11-16 | dropping the domain and the slash from a task's URL gives back its path |
| Tasks.UrlInjectiveOnPath | src/task.rs:11-16 | for one domain, two URLs are equal exactly when the paths are |
| Tasks.UrlExample | src/task.rs:27-30 | domain "domain" with path "a" gives "domain/a" |
| Tasks.UrlEmptyPathKeepsSlash | src/task.rs:12-15 | an empty path gives the domain plus a trailing slash, never the bare domain |
| Tasks.EqualityIncludesStatus | src/task.rs:2-7 | derived equality compares all three fields, so one target in two states gives two different values |
| Text.RunLength | src/worker.rs:88 | the length of the longest whitespace-free prefix: whitespace or the end follows it |
| Text.Tokens | src/worker.rs:88 | every token of the split is non-empty and free of Unicode whitespace |
| Text.TokensOfJoin | src/worker.rs:88 | splitting words joined by single spaces gives the words back |
| Text.TokensCoverText | src/worker.rs:88 | the tokens, concatenated, are exactly the text with its whitespace removed |
| Text.Utf8Len | src/worker.rs:108 | the byte length lies between the character count and four times it, and is zero only for the empty string |
| Text.Utf8LenAscii | src/worker.rs:108 | on ASCII text the byte length is the character count |
| Text.Repeat | src/worker.rs:111 | n copies of one character |
| Link.InsertAt | src/worker.rs:30-31 | `insert_str` keeps the text before the position, places the inserted text there, and shifts the rest after it |
| Link.Pattern | src/worker.rs:30-31 | splicing the domain at offset 25 of the template gives `^(?:https?://)?(?:w{3}.)?` + domain + `/?(.*)$` |
| Link.PatternExample | src/worker.rs:130-135 | the pattern for "domain.com" is the expected text |
| Link.FirstFit | src/worker.rs:95-101 | the reference: a result is the capture of a fitting reading with none fitting before it, and nothing is reported only when no reading fits |
| Link.PriorityOrder | src/worker.rs:17 | the twelve readings of the pattern, each at the position its priority names |
| Link.IsLink | src/worker.rs:95-101 | a reported capture is a newline-free tail of the token, with room for the domain in front of it |
| Link.IsLinkFirstFit | src/worker.rs:95-101 | the matcher returns exactly the reference's capture over the twelve readings in priority order |
| Link.IsLinkLeftmostFirst | src/worker.rs:95-101 | a reported capture comes from a fitting reading with no higher-priority reading fitting; nothing is reported exactly when no reading fits |
| LinkCases.CapturesPathBare | src/worker.rs:140 | "monzo.com/path" captures "path" |
| LinkCases.DomainAfterSlashIsPath | src/worker.rs:141 | "monzo.com/monzo.com" captures "monzo.com" |
| LinkCases.DoubleSlashKeepsOne | src/worker.rs:142 | "monzo.com//path" captures "/path": one slash is the separator |
| LinkCases.CapturesPathWww | src/worker.rs:143 | "www.monzo.com/path" captures "path" |
| LinkCases.CapturesPathHttpWww | src/worker.rs:144 | "http://www.monzo.com/path" captures "path" |
| LinkCases.CapturesPathHttpsWww | src/worker.rs:145 | "https://www.monzo.com/path" captures "path" |
| LinkCases.CapturesPathHttp | src/worker.rs:146 | "http://monzo.com/path" captures "path" |
| LinkCases.CapturesPathHttps | src/worker.rs:147 | "https://monzo.com/path" captures "path" |
| LinkCases.TwoLetterHostFails | src/worker.rs:149 | "ww.monzo.com/path" gives nothing |
| LinkCases.DotHostFails | src/worker.rs:150 | ".monzo.com/path" gives nothing |
| LinkCases.WwwWithoutDotFails | src/worker.rs:151 | "wwwmonzo.com/path" gives nothing |
| LinkCases.MisspeltDomainFails | src/worker.rs:152-154 | "monzo.cm/path" and "monzo.cpm//path" give nothing |
| LinkCases.NoDomainNoLink | src/worker.rs:17 | input with no scheme and no `www` whose start the domain does not match gives nothing |
| LinkCases.BareDomainCapturesEmpty | src/worker.rs:17 | the slash is optional: "monzo.com" captures the empty string |
| LinkCases.TrailingSlashCapturesEmpty | src/worker.rs:17 | "monzo.com/" captures the empty string |
| LinkCases.GluedTextIsCaptured | src/worker.rs:17 | "monzo.company" captures "pany" |
| LinkCases.DomainDotIsWildcard | src/worker.rs:31 | the domain is spliced in unescaped, so its dot matches any character: "monzoXcom/path" captures "path" |
| LinkCases.NewlineDefeatsMatch | src/worker.rs:17 | a newline after the domain defeats `(.*)$` |
| Worker.NewWorker | src/worker.rs:28-39 | a worker keeps its task and mode, and its pattern is the template with the task's path spliced in |
| Worker.LinksIn | src/worker.rs:88-91 | each reported task is pending, has the worker's domain, and holds a whole token that matches |
| Worker.SearchForLinks | src/worker.rs:87-92 | each reported task is pending, has the worker's domain, and holds a whitespace-free word that matches |
| Worker.LinksInAppend | src/worker.rs:88-91 | scanning distributes over concatenation of token lists, so token order is kept |
| Worker.LinksInSingle | src/worker.rs:89-90 | a matching token yields one task holding the whole token, and a non-matching token yields nothing |
| Worker.SearchForLinksExact | src/worker.rs:87-92 | a task for a token is reported exactly when the token occurs in the body and matches |
| Worker.TestWorker | src/worker.rs:106-116 | one task is reported exactly when the path's byte length plus one is even; it is pending, in the same domain, and its path is the first character repeated that many times |
| Worker.RunTask | src/worker.rs:41-63 | exactly one reply carrying the worker's own task; the scan's result when the fetch succeeds, nothing when it fails, and the test rule in test mode |
| Worker.TestWorkerEmptyPath | src/worker.rs:108-111 | an empty path reports nothing, so its first character is never read |
| Worker.TestWorkerAscii | src/worker.rs:108-110 | on an ASCII path the rule counts characters |
| Worker.Utf8LenRepeat | src/worker.rs:111 | n copies of a character take n times its width in bytes |
| Worker.Utf8LenRepeatEven | src/worker.rs:111 | an even number of copies of a character has an even byte length |
| Worker.TestWorkerChainStops | src/worker.rs:108-112 | a task reported by the test worker reports nothing in turn |
| Scheduler.MarkDone | src/scheduler.rs:59-62 | every task whose path is the completed one gets status 2; no other field or task changes |
| Scheduler.Fresh | src/scheduler.rs:63 | a candidate survives exactly when no listed task, whatever its status, has its path |
| Scheduler.FreshCounts | src/scheduler.rs:59-64 | an unlisted candidate survives as often as the reply holds it, a listed one never |
| Scheduler.FreshAppend | src/scheduler.rs:63 | filtering works candidate by candidate: it distributes over concatenation, so order is kept |
| Scheduler.Retain | src/scheduler.rs:63 | `retain` keeps exactly the candidates whose path differs from the given one |
| Scheduler.RetainCounts | src/scheduler.rs:63 | `retain` keeps a candidate with another path as often as it occurs and drops every copy of one with the given path |
| Scheduler.RetainAppend | src/scheduler.rs:63 | `retain` distributes over concatenation, so the kept candidates stay in order |
| Scheduler.HandleReceivedDataLoop | src/scheduler.rs:52-68 | the source's single pass (mark, then retain per listed task, then append) computes the marked list followed by the surviving candidates |
| Scheduler.HandleReceivedData | src/scheduler.rs:52-68 | the source's merge: the old tasks stay in place, only the completed path is marked done, and the listed paths become the old ones plus every candidate's path; only unlisted candidates are appended |
| Scheduler.HandleReceivedDataAppends | src/scheduler.rs:63-67 | the source's merge appends each unlisted candidate as often as the reply holds it, in the reply's order, and no listed one |
| Scheduler.Absorb | src/scheduler.rs:63-67 | the corrected merge's append: the list stays a prefix, the listed paths become the old ones plus the candidates' paths, only unlisted candidates are appended, and distinct paths stay distinct |
| Scheduler.AbsorbAppend | src/scheduler.rs:63-67 | absorbing a concatenation absorbs its parts in order, so candidates are taken one at a time |
| Scheduler.Merge | src/scheduler.rs:59-67 | the corrected merge, not the source's: as the source's merge, and in addition a list with distinct paths keeps distinct paths |
| Scheduler.MergeBy | src/scheduler.rs:36-38 | either merge marks the completed path, keeps the old tasks in place and lists exactly the old paths plus the candidates' paths; the corrected one keeps paths distinct |
| Scheduler.MergeMarksCompleted | src/scheduler.rs:59-62 | under either merge (the source's or the corrected one), the merge marks done exactly the tasks with the completed path and keeps their other fields; with no match the old list is unchanged |
| Scheduler.MergeAppendsUnlisted | src/scheduler.rs:63-67 | under either merge, only candidates are appended, none whose path was listed in any status, and afterwards every candidate's path is listed |
| Scheduler.MergeKeepsKeysDistinct | src/scheduler.rs:59-67 | a list with distinct paths keeps distinct paths after a merge |
| Scheduler.MergeOfListedIsMarkOnly | src/scheduler.rs:63-67 | candidates that are all listed already add nothing, and the length stays the same |
| Scheduler.EarlierReplySuppressesLater | src/scheduler.rs:36-38 | replies in one drain are merged in order, under either merge, so a path added for an earlier reply, or listed before the drain, is not added again for a later one |
| Scheduler.MergeAgreesWithSource | src/scheduler.rs:59-67 | when a reply's candidates have distinct paths, the corrected merge equals the source's |
| Scheduler.MergeByAgrees | src/scheduler.rs:36-38 | the merge a run applies equals the corrected one whenever it is the corrected one or the reply's candidates have distinct paths |
| Scheduler.SourceMergeDuplicates | src/scheduler.rs:63-67 | the source's merge lets two candidates with the same new path in; the corrected merge keeps one |
| Scheduler.Spawned | src/scheduler.rs:72-74 | the copies handed to workers are exactly the pending tasks |
| Scheduler.StartAll | src/scheduler.rs:72-78 | each pending task becomes in flight and every other task is unchanged, so none is left pending |
| Scheduler.StartNewTasks | src/scheduler.rs:70-80 | the source's loop, statement by statement, gives the same list and the same copies, in list order |
| Scheduler.SpawnedCounts | src/scheduler.rs:73-74 | each pending occurrence is copied exactly once and nothing else is copied |
| Scheduler.LaunchStartsEachPendingOnce | src/scheduler.rs:72-77 | dispatch leaves the replies already in flight alone and adds one reply per pending task, for a copy taken before the status change |
| Scheduler.Replies | src/scheduler.rs:87-92 | one reply per worker started |
| Scheduler.RepliesAt | src/scheduler.rs:87-92 | the m-th reply is the worker's answer for the m-th copy |
| Scheduler.Deliver | src/scheduler.rs:36-38 | an arriving reply leaves the channel, its task's path is marked done on the old tasks, and the candidates' paths become listed |
| Scheduler.DeliverTakesOne | src/scheduler.rs:33-37 | delivery takes exactly the delivered reply off the channel |
| Scheduler.Drain | src/scheduler.rs:33-38 | a drain takes one reply off the channel per arrival, and the list and its paths only grow |
| Scheduler.DrainTakesFromFlight | src/scheduler.rs:33-38 | a drain takes replies only from those in flight |
| Scheduler.Launch | src/scheduler.rs:41-42 | dispatch keeps the paths, leaves nothing pending, keeps the replies in flight and adds one per pending task |
| Scheduler.Iterate | src/scheduler.rs:29-48 | a pass is stuck exactly when the arrivals name a reply not in flight; one that stops leaves every task done, one that goes on leaves none pending, and the list only grows |
| Scheduler.Run | src/scheduler.rs:24-49 | a run that stops leaves every task done; the list and its paths only grow |
| Seqs.RemoveAt | src/scheduler.rs:33-37 | taking one reply from the channel keeps the others, in their order |
| SchedulerProofs.InitInv | src/scheduler.rs:16-18 | a scheduler created from fresh seeds with distinct paths satisfies the invariant |
| SchedulerProofs.MergeShape | src/scheduler.rs:59-67 | merging a listed task's report keeps targets and distinct paths, raises no status to an unknown value and lowers none, and lists everything reported (for the corrected merge, and for the source's merge when no worker report lists one path twice) |
| SchedulerProofs.DeliverInv | src/scheduler.rs:36-38 | merging any reply in flight keeps the invariant, and no status goes down (for the corrected merge, and for the source's merge when no worker report lists one path twice) |
| SchedulerProofs.DrainInv | src/scheduler.rs:33-38 | a whole drain, in any arrival order, keeps the invariant, and no status goes down (for the corrected merge, and for the source's merge when no worker report lists one path twice) |
| SchedulerProofs.SpawnedDistinct | src/scheduler.rs:72-74 | with distinct paths listed, the copies handed to workers have distinct paths |
| SchedulerProofs.FlightMatchesAfterLaunch | src/scheduler.rs:72-75 | after dispatch every reply in flight belongs to a listed task that is in flight |
| SchedulerProofs.FlightDistinctAfterLaunch | src/scheduler.rs:72-75 | after dispatch no two replies in flight are for the same path, so no task is started twice |
| SchedulerProofs.LaunchInv | src/scheduler.rs:41-42 | dispatch keeps the invariant, and no status goes down |
| SchedulerProofs.IterateInv | src/scheduler.rs:29-48 | one loop pass keeps the invariant; a pass that stops leaves every task done (for the corrected merge, and for the source's merge when no worker report lists one path twice) |
| SchedulerProofs.RunInv | src/scheduler.rs:24-49 | over any run the invariant holds, the list only grows with no status going down, and a stopped loop has every task done (for the corrected merge, and for the source's merge when no worker report lists one path twice) |
| SchedulerProofs.InFlightBlocksHalt | src/scheduler.rs:44-46 | while every reply in flight is the report of a listed task that is still in flight, some task is not done, so the loop cannot stop with a reply in flight |
| SchedulerProofs.HaltedRunIsClosed | src/scheduler.rs:24-49 | for pending seeds with distinct paths, a stopped run has every task done, no reply in flight, no path twice, and the seeds first; every other task was reported by an earlier one, and everything any task reported is listed (for the corrected merge, and for the source's merge when no worker report lists one path twice) |
| Scenarios.HaltedKeys | src/scheduler.rs:41-46 | for pending seeds with distinct paths, a stopped run lists exactly a closed set of paths reached from the seeds, once each, all done (for the corrected merge, and for the source's merge when no worker report lists one path twice) |
| Scenarios.ReachedListed | src/scheduler.rs:41-46 | in a closed list that starts with the seeds, every seed path and every path a seed reports is listed |
| Scenarios.TestWorkerReportsPending | src/worker.rs:112 | the test worker reports only pending tasks |
| Scenarios.TestWorkerReportsDistinct | src/worker.rs:108-115 | the test worker reports at most one task, so the source's merge keeps paths distinct for it |
| Scenarios.TestReport | src/worker.rs:108-112 | the path the test worker reports for an ASCII path, if any |
| Scenarios.MixedLengths | src/scheduler.rs:126-138 | seeds "a", "bb", "ccc", "dddd" end with six tasks ("aa" and "cccc" added), all done, for every arrival order |
| Scenarios.AllOddLengths | src/scheduler.rs:142-150 | seeds "a", "b", "c", "d" end with eight tasks, all done, for every arrival order |
| Scenarios.AllEvenLengths | src/scheduler.rs:153-161 | seeds "aa", "bb", "cc", "dd" end with four tasks, all done, for every arrival order and so for any polling delay, including the zero delay of `test_no_loop_delay` |
| Scenarios.EmptyPathAlone | src/scheduler.rs:165-171 | the seed "" ends alone and done |
| Scenarios.EmptyPathHalts | src/scheduler.rs:165-171 | the loop does stop for the seed "": one dispatch, then one delivery |
| Scenarios.ReportedPathAlreadyListed | src/scheduler.rs:107-119 | seeds "a", "aa" end with two tasks, all done: "aa" reported by "a" is already listed |
| Scenarios.DupFirstReply | src/scheduler.rs:108 | "a"'s reply marks it done and adds nothing, because "aa" is listed |
| Scenarios.DupHalts | src/scheduler.rs:107-119 | the loop does stop for seeds "a", "aa" |
| ScenarioRuns.MixedHalts | src/scheduler.rs:126-138 | with the source's merge, the seeds "a", "bb", "ccc", "dddd" do stop: one dispatch, a drain of four replies, a dispatch of "aa" and "cccc", a drain of two |
| ScenarioRuns.OddHalts | src/scheduler.rs:142-150 | with the source's merge, the seeds "a", "b", "c", "d" do stop: one dispatch, a drain of four replies, a dispatch of the four doubled paths, a drain of four |
| ScenarioRuns.EvenHalts | src/scheduler.rs:153-161 | with the source's merge, the seeds "aa", "bb", "cc", "dd" do stop: one dispatch and a drain of four replies |
| ScenarioRuns.TwiceReportsTwice | src/scheduler.rs:59-67 | a worker whose reply for "x" lists "y" twice falls outside the cases where the source's merge keeps paths distinct |
| ScenarioRuns.SourceHaltsInFlight | src/scheduler.rs:36-46 | with the source's merge and that worker, the loop stops with every task done, "y" listed twice and the second "y" reply still in flight |
| ScenarioRuns.CorrectedHaltsDrained | src/scheduler.rs:36-46 | with the corrected merge, the same arrivals end with every task done, nothing in flight and "y" listed once |
| ScenarioRuns.TwinSeedsHaltInFlight | src/scheduler.rs:41-46 | the seeds "y", "y" fall outside the seed premise, and even with the corrected merge the loop stops with every task done and the second "y" reply still in flight |
| Prototype.Init | src/main.rs:36-42 | the initial state is tasks 1, 2, 3, 4 with nothing awaited or completed |
| Prototype.Work | src/main.rs:90-95 | the worker's answer completes its task and proposes a larger one, which is even exactly when the task is odd |
| Prototype.FollowUpIffOdd | src/main.rs:90-93 | the worker for i answers (i, i + 1), and reading that answer (lines 58-64) appends i + 1 to the tasks exactly when i is odd and records i as completed |
| Prototype.RemoveAll | src/main.rs:59 | `retain` removes every copy of the completed task and keeps the count of every other value |
| Prototype.RemoveAllAppend | src/main.rs:59 | the removal works element by element: it distributes over concatenation |
| Prototype.RemoveAllAbsent | src/main.rs:59 | removing an absent value changes nothing |
| Prototype.Receive | src/main.rs:58-64 | the completed task leaves the awaited list and is appended to the completed list once; the follow-up is appended to the tasks exactly when it is even |
| Prototype.Dispatch | src/main.rs:70-73 | the last task is popped and pushed onto the awaited list, its worker's answer goes in flight, and the total of tasks plus awaited is kept |
| Prototype.StepHaltsOnlyWhenIdle | src/main.rs:69-79 | a pass stops exactly when, after the read, nothing is left to start and nothing is awaited |
| Prototype.Step | src/main.rs:48-81 | a pass is stuck exactly when it reads from a position with no answer, and it stops only with nothing to start and nothing awaited |
| Prototype.StepRecordsRead | src/main.rs:58-64 | a pass that reads an answer records its task as completed, once; a pass that reads nothing records nothing |
| Prototype.Run | src/main.rs:44-86 | an empty schedule changes nothing, and a run stops only with nothing to start and nothing awaited |
| Prototype.RunCompletedGrows | src/main.rs:44-86 | the completed list only grows, and by at most one entry per pass |
| Prototype.InitInv | src/main.rs:36-42 | the initial state satisfies the invariant |
| Prototype.ReceiveInv | src/main.rs:55-67 | reading any answer keeps the invariant |
| Prototype.DispatchInv | src/main.rs:70-73 | starting a task keeps the invariant |
| Prototype.StepInv | src/main.rs:48-81 | one pass keeps the invariant |
| Prototype.RunInv | src/main.rs:44-86 | every run keeps the invariant, and a stopped run has nothing to start and nothing awaited |
| Prototype.HaltedLeavesOnlyRepeats | src/main.rs:44-86 | when the prototype stops, nothing is left or awaited, and any unread answer is for a task already completed |
| Prototype.UnreadAnswerAtHalt | src/main.rs:59 | task 4 can be started twice and one `retain` clears both awaited copies, so the loop can stop with an answer for 4 unread |

## Left out

- Fetching a page (`get_html`, `reqwest`, the retry with an `http://` prefix) and main.rs's `get_html` are network I/O. The fetch result is an `Option<string>` input of `Worker.RunTask`.
- Threads, the `mpsc` channel, `thread::sleep`, the test worker's random delay and tokio are concurrency and timing. They are replaced by the list of replies in flight and the arrival schedule.
- The `loop_delay` value has no effect on the logic. The scenario lemmas hold for every schedule, which covers every delay.
- `println!` output is console I/O.
- main.rs's `Worker::search_for_links` and `is_link_regex`, with the pattern `^(?:.*)?monzo.com/(.*)$`, are dead code. Their results are discarded and their tests are commented out.
- `test_search_for_links` depends on a data file that is not part of this model.
- `Scheduler::new` and `get_tasks` only store and return the list. They appear only as the initial state of a run.
- Link.IsLink: requires the domain to hold no pattern metacharacter other than `.`. For other domains the source compiles the domain as pattern syntax, which this matcher does not describe. The same requirement carries over to Worker.LinksIn and Worker.SearchForLinks.
- Worker.NewWorker: does not model the panic of `Regex::new(..).unwrap()` when the spliced pattern fails to compile. The source builds the regex in both modes, so a path such as `(` panics the worker even in test mode. The model always returns a worker.
- Worker.RunTask: in test mode it always replies, while the source's worker would already have panicked in `Worker::new` for a path that does not compile as a pattern. Outside test mode it requires the plain-domain condition of Link.IsLink. The `Option<string>` input covers only fetches that return: `get_html` unwraps the `http://` retry and `resp.text()`, and when either fails the worker panics before sending, so no reply arrives, its task stays in flight and the loop never stops.
- Worker.TestWorker: the status and the byte counts are unbounded integers. The `usize` field, and the `+ 1` in the test worker and in the prototype's worker, cannot wrap in the model.
- Scheduler.Iterate: a drain that names a reply not in flight yields `Stuck`. That is a schedule no channel can produce, not a behaviour of the source.
- SchedulerProofs.HaltedRunIsClosed: assumes workers report pending tasks only, as both of the source's workers do. A worker that reported tasks in another status would have them appended unchanged.
- SchedulerProofs.HaltedRunIsClosed: for the source's merge it holds only when no worker report lists one path twice, as for the test worker. ScenarioRuns.SourceHaltsInFlight shows a run outside that case that stops with a reply in flight and a path listed twice.
- SchedulerProofs.MergeShape, SchedulerProofs.DeliverInv, SchedulerProofs.DrainInv, SchedulerProofs.IterateInv, SchedulerProofs.RunInv: for the source's merge they hold only when no worker report lists one path twice. The invariant includes distinct paths, and the source's merge breaks it otherwise.
- Scenarios.HaltedKeys: for the source's merge it holds only when no worker report lists one path twice, for the same reason.
- SchedulerProofs.HaltedRunIsClosed: requires the seeds to be pending and to have distinct paths. `Scheduler::new` accepts any list, but with two seeds for one path the first reply marks both done and the loop stops with the second reply in flight, whichever merge is used. ScenarioRuns.TwinSeedsHaltInFlight traces this for the seeds "y", "y".
- Scenarios.HaltedKeys: requires the same seed premise, for the same reason; with two seeds for one path "once each" fails.
- SchedulerProofs.InFlightBlocksHalt: holds only while every reply in flight matches a listed task in flight. The source's merge can break that matching, as ScenarioRuns.SourceHaltsInFlight shows.

## Findings

| source | as written | input that shows it | evidently intended | confidence | as-written member | corrected member |
|---|---|---|---|---|---|---|
| src/scheduler.rs:59-67 | each candidate is compared only with the tasks listed before the merge, so two candidates with the same new path are both appended | a reply whose found list holds the task for path "y" twice, merged into a list holding only "x" | one task per path: the merge exists to drop candidates whose path is already listed (`test_dup_tasks` checks this for a listed path), and a path appended twice is fetched twice | medium, not executed | Scheduler.SourceMergeDuplicates | Scheduler.MergeKeepsKeysDistinct |
| src/scheduler.rs:36-46 | after the duplicate above, the first reply for "y" marks both "y" tasks done, so the loop stops while the second "y" worker's reply is still in flight | seed "x" whose page links "y" twice, with one reply drained per pass | the loop stops only when every started worker has reported (for seeds with distinct paths) | medium, not executed | ScenarioRuns.SourceHaltsInFlight | SchedulerProofs.HaltedRunIsClosed |

The corrected merge (`Scheduler.Merge`, built on `Scheduler.Absorb`) compares
each candidate with the list as it grows. Every loop member takes the merge
as a `MergeRule` parameter: `AsWritten` is the source's `handle_received_data`,
and `Corrected` is the corrected merge. The scenario runs use the source's merge.
The invariant lemmas hold for the corrected merge, and for the source's merge
whenever no report lists one path twice. `Scheduler.MergeAgreesWithSource`
shows that the two merges agree in that case. The test worker reports at most
one task, so the scheduler's tests cannot tell the two merges apart.
`ScenarioRuns.CorrectedHaltsDrained` runs the corrected merge on the input of
the second finding: it stops with nothing in flight and "y" listed once.
