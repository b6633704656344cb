# slopgate, modelled and proved in Dafny

slopgate is a local quality gate. A push submits a commit to a daemon; the daemon registers a run, executes
it (worktree, scripts, one agent per rule), saves every state of it as an atomically written `run.json`, and
wakes the `slopgate wait` calls that block on it. This project models that program and proves what its code and
documentation promise: what an exit code 0 stands for, that no wait is left behind, what a kill at any point can
and cannot do to the store, and that the filters and encoders around the agents lose and invent nothing.

`dafny verify dfyconfig.toml` checks everything (Dafny 4.11).

## How the model is laid out

| file | models |
|---|---|
| `Text`, `Model` | Go string operations with the algebra the proofs use; the records shared by all packages |
| `Paths` | validated path segments, run paths, waiter keys |
| `Waiters` | the waiter table as values, and as a class over backing arrays spliced in place, with every interleaving of its calls |
| `WaitBoard` | subscribe, unsubscribe, notify and the wait loop as interleaved steps |
| `Lifecycle` | the whole protocol as a transition system: submits, executors, waits, `init`, recovery, kills |
| `RunStore` | the record store and the recovery loop in program order |
| `LifecycleInv`, `LifecycleWait`, `LifecycleVerdict`, `LifecycleFeedback` | its invariants, and that every step keeps them |
| `LifecycleTheorems`, `LifecycleSteps` | what follows for every run of the system; what single steps do to disk, log and replies |
| `LifecycleProgress`, `LifecycleLiveness`, `LifecycleFair`, `LifecycleStranded` | that every run, recovery and wait gets to its end, for the whole daemon and for one directory of a busy one, and the one way a wait does not |
| `LexicalPath`, `Citations`, `CitationFilter` | the citation filter |
| `Envelope`, `Rules`, `Gate`, `FanOut` | reading agent output, selecting rules, executing a run, in order and concurrently |
| `EndToEnd` | the lifecycle run on real evaluations, up to the exit code of `slopgate wait` |
| `RepoRegistry`, `DaemonLock` | `repos.json` under concurrent writers; the daemon lock at inode level |
| `Fence`, `RingLog`, `Frontmatter`, `Feedback` | feedback documents, capped logs, rule files |

A process in `Lifecycle` is a submit handler together with the executor goroutine it starts. A section under the
daemon's mutex is one step, and so is each of create, fill and rename of an atomic write, each of which may fail;
everything else interleaves, and a kill is possible between any two steps. The log component of the state records
what happened (identifiers issued, saves in order, inputs evaluated, saves that failed); all the steps take from it
is that a new identifier is fresh, that a submit returns for a run whose registration was saved, and that a run is
judged on the inputs it began with.

## Assumptions

- Only process kills are modelled, not power loss: a rename is atomic and a finished step persists.
- Run identifiers are fresh. JSON and YAML decoders, the glob matcher, git, scripts and agents are parameters; a
  JSON decoder consumes at least one character of what it decodes, and files do not change during a filter call.
- A daemon that gives up its lock is dead in the same step (`Lifecycle`). `DaemonLock.ReleaseBeforeExit` shows what
  the code really allows: `Run` cancels its executors and releases without waiting for them, although the comment at
  internal/daemon/daemon.go:77 says that runs finish writing first.
- Strings are sequences of Unicode scalar values; logs are sequences of bytes.

## Where code and documentation disagree

The model follows the code.

- `validSegment` accepts a leading dot that its comment rules out (`Paths.LeadingDotAccepted`).
- `decodeJSONObjects` promises top-level objects and may return one nested in a broken one: in `{{}` it returns the
  inner object (`Envelope.NestedInBrokenIsReturned`, `Envelope.BrokenOuter`). It keeps its promise exactly where no
  brace that starts no object lies outside the objects found (`Envelope.TopLevelExactly`); behind such a brace no
  reading of the text as whole objects and noise exists.
- `normalizePath` is not idempotent (`LexicalPath.NotIdempotent`); it is exactly when the result has no edge
  whitespace.
- A record errored by recovery points at no feedback.
- The plan calls a run failed when the gate ran fully and found problems, and errored when slopgate itself could not
  complete (MVP_PLAN.md:94-97). A check.sh or test.sh that cannot be started or logged, or is cancelled by a shutdown
  or killed by a signal, has that written into its result (internal/runner/script.go:43-104), and the run fails with
  exit code 1 (`EndToEnd.UnstartableFails`). Verdict and exit code are the documented ones exactly unless this is all
  that went wrong (`Gate.DocumentedVerdicts`, `EndToEnd.ExitCodeDocumented`).
- The poll of the wait loop (every 500 ms) never finds an answer that a wakeup would not bring, whatever saves fail
  (`LifecycleTheorems.PollNeverNeeded`). After a lost last save it reads the same unfinished record over and over:
  once the runs of a directory are gone, a wait on it ends exactly if the record there is terminal
  (`LifecycleLiveness.AnsweredIffTerminal`), and `EndToEnd.GateStrands` is a run of the gate in which it is not.

## Model

| member | source | states |
|---|---|---|
| `Paths.SegmentIsOneComponent` | internal/store/validate.go:17-44 | a validated segment is exactly one path component, and following it from anywhere leads to the entry of that name just below |
| `Paths.ValidSegmentExactly` | internal/store/validate.go:11-45 | a segment is valid exactly if it has 1 to 128 letters, digits, dashes, underscores and dots, is not a dot, and has no two dots in a row |
| `Paths.AcceptsHash` | internal/store/validate.go:11-45 | every commit hash of 40 or 64 hex digits is a valid segment |
| `Paths.AcceptsULID` | internal/store/validate.go:11-45 | every identifier of 26 upper-case letters and digits is a valid segment |
| `Paths.RunDirStaysInside` | internal/store/store.go:108-110 | so the directory of a validated run lies at `runs/<repo>/<sha>` under the root and nowhere else |
| `Paths.RunFilesStayInside` | internal/store/store.go:113-120 | and its record and feedback are the entries `run.json` and `feedback.md` of that directory |
| `Paths.LeadingDotAccepted` | internal/store/validate.go:13-17 | the code accepts a leading dot, against its comment |
| `Paths.KeyInjective` | internal/daemon/daemon.go:277 | waiter keys are injective as soon as repository IDs hold no slash |
| `Paths.ValidKeyIsOnly` | internal/daemon/daemon.go:212-217 | the key of a validated pair is the key of no other pair, so a wait on an unvalidated pair, which subscribes before validation, never shares an entry with a run |
| `Paths.KeyIsOnlyIff` | internal/daemon/daemon.go:277 | a pair shares its key with no other if and only if neither of its parts holds a slash |
| `Paths.UnvalidatedKeysCollide` | internal/daemon/daemon.go:277 | two unvalidated pairs can share a key |
| `Paths.RunDirInjective` | internal/store/store.go:108-110 | run directories are injective on pairs |
| `Paths.RunPathInjective` | internal/store/store.go:113-120 | record files and feedback files are each injective on pairs and never coincide |
| `Waiters.SubscribedOnce` | internal/daemon/daemon.go:244-250 | subscribing a new channel adds exactly it, under its key, and keeps every channel listed at most once |
| `Waiters.UnsubscribedOnce` | internal/daemon/daemon.go:252-265 | unsubscribing removes exactly that channel of that key and leaves no empty entry |
| `Waiters.RemoveDistinct` | internal/daemon/daemon.go:256-261 | removing the first occurrence from distinct channels leaves the others, distinct |
| `Waiters.Append` | internal/daemon/daemon.go:247 | append in place or into a new array yields the old elements and the new one and touches no other array |
| `Waiters.SpliceOut` | internal/daemon/daemon.go:258 | `append(subs[:i], subs[i+1:]...)` shifts in place and yields the elements without the i-th |
| `Waiters.Cut` | internal/daemon/daemon.go:255-261 | the search and splice remove the first occurrence, or nothing |
| `Waiters.Registry.Subscribe` | internal/daemon/daemon.go:244-250 | the table becomes the old one with a fresh open channel appended; no array a notifier holds changes |
| `Waiters.Registry.Unsubscribe` | internal/daemon/daemon.go:252-265 | the table loses the channel; the in-place splice changes no array a notifier holds |
| `Waiters.Registry.Take` | internal/daemon/daemon.go:267-271 | notify's locked half takes what is listed and deletes the entry; from then on the table shares no array with the header, and its channels stay open, distinct and in no other place |
| `Waiters.Registry.CloseNext` | internal/daemon/daemon.go:272-274 | each turn of the loop outside the mutex finds its next channel still in the header and open, whatever others did since, and closes it; nothing but the class invariant is required |
| `Waiters.DoSound` | internal/daemon/daemon.go:244-275 | every step of subscribe, unsubscribe and notify keeps: each channel listed or still to be closed is open, and in one place only |
| `Waiters.Registry.Notify` | internal/daemon/daemon.go:267-275 | in program order, notify closes the channels listed under the key, deletes that entry, and changes nothing else |
| `Waiters.Registry.Interleave` | internal/daemon/daemon.go:244-275 | any calls of any goroutines, the closes of every notifier interleaved with the rest, unsubscribes of channels made in the same schedule or an earlier one included, run on the spliced arrays without closing a channel twice, and are the steps of the value-level history |
| `Waiters.NotifyClosesExactly` | internal/daemon/daemon.go:267-275 | in any such history a notifier closes exactly the channels listed when it took them, in order; they end closed and listed nowhere, and of the table only its own entry goes |
| `WaitBoard.Preserves` | internal/daemon/daemon.go:203-275 | under any interleaving every channel is in one place, held by one wait, listed only if held, and never closed twice |
| `WaitBoard.TakePreserves` | internal/daemon/daemon.go:267-271 | taking a key's channels moves them from the table to one notifier |
| `WaitBoard.ClosePreserves` | internal/daemon/daemon.go:272-274 | a notifier only ever closes open channels |
| `WaitBoard.SubscribePreserves` | internal/daemon/daemon.go:244-250 | subscribing lists a channel nobody else has |
| `WaitBoard.UnsubscribePreserves` | internal/daemon/daemon.go:252-265 | unsubscribing strands no other channel |
| `WaitBoard.EmptyWhenNobodyWaits` | internal/daemon/daemon.go:262-264 | with no wait outstanding the table is empty |
| `LifecycleInv.FilesPreserved` | internal/store/atomic.go:15-60 | every step keeps every record and feedback file whole and in its own directory |
| `LifecycleInv.TempsPreserved` | internal/store/atomic.go:21-53 | a temp file that is about to be renamed holds exactly the record of the process or recovery that owns it |
| `LifecycleInv.ProcsPreserved` | internal/daemon/daemon.go:135-175 | a run past its registration has a record on disk, IDs are not shared, and nothing runs or waits before recovery is over |
| `LifecycleInv.TodoPreserved` | internal/daemon/daemon.go:93-116 | what recovery still has to handle is on disk as it read it |
| `LifecycleInv.LedgerPreserved` | internal/runner/runner.go:73-104 | saves are monotone per run, and the file on disk is the latest save of its run |
| `LifecycleInv.KeptPreserved` | internal/store/runs.go:14-32 | whatever was saved or acknowledged still has a record |
| `LifecycleWait.OwedPreserved` | internal/runner/runner.go:92-102 | while serving, a non-terminal record belongs to a run that will still save a terminal one, unless its last save failed |
| `LifecycleWait.RecoverPreserved` | internal/daemon/daemon.go:93-116 | while recovering, a non-terminal record is still to be listed, still to be handled, its rewrite failed, or its repository could not be listed |
| `LifecycleWait.BlockedRead` | internal/daemon/daemon.go:219-232 | subscribing before reading: a wait that blocks on what it read is owed a notify |
| `LifecycleWait.BlockedPreserved` | internal/daemon/daemon.go:166-172 | and stays owed it until its channel is taken and closed, since the terminal save comes before the notify |
| `LifecycleWait.PollPreserved` | internal/daemon/daemon.go:218-241 | with no assumption on saves: whenever the record a blocked wait asks about is terminal, its wakeup is on its way |
| `LifecycleWait.TakenPreserved` | internal/daemon/daemon.go:267-275 | exactly the processes in the closing half of notify hold taken channels |
| `LifecycleVerdict.EvidencePreserved` | internal/runner/runner.go:73-104 | every saved terminal state is what evaluating that run's own inputs yields, or recovery's |
| `LifecycleVerdict.AnswersPreserved` | internal/daemon/daemon.go:219-232 | every record a wait is about to return, or returned, is a terminal one saved in its directory |
| `LifecycleVerdict.NotesPreserved` | internal/runner/runner.go:97-102 | a record points at feedback exactly if it is a verdict of its own run that needs some and the write did not fail, and only once it is on disk |
| `LifecycleFeedback.AlonePreserved` | internal/daemon/daemon.go:135-175 | where no runs overlap one run at a time writes to a directory, and the record in it is that run's; an overlap is over once a run registers while nobody else is saving there |
| `LifecycleFeedback.OwnPreserved` | internal/runner/runner.go:337-360 | and the feedback there is the one rendered from the record that points at it |
| `LifecycleTheorems.RunKeeps` | internal/daemon/daemon.go:54-116 | all of this holds along every schedule, kills and restarts included |
| `LifecycleTheorems.NoTornRecord` | internal/store/atomic.go:15-60 | on every run no `run.json` is ever torn or in another run's directory, and each holds a record that was saved |
| `LifecycleSteps.DiskIsReplay` | internal/store/runs.go:14-32 | in every reachable state the records on disk are exactly the logged saves replayed in order, each in its own directory |
| `LifecycleTheorems.RecoveryLeavesNothingOpen` | internal/daemon/daemon.go:90-116 | when recovery ends every record is terminal except those whose own rewrite failed and those of repositories it could not list; during it no run or wait of this daemon exists |
| `LifecycleTheorems.LifecyclePerRun` | internal/model/model.go:24-30 | per run ID the saved states go up queued, running, terminal, in one directory, and nothing follows a terminal one |
| `LifecycleTheorems.NeverForgotten` | cmd/slopgate/hook.go:79-112 | after a submit has returned, at any time after its record was saved, every later read of its directory finds a record, on any schedule with kills and restarts |
| `LifecycleTheorems.AnswersAreVerdicts` | internal/daemon/daemon.go:203-242 | a wait that returns a record returns a saved terminal one of the directory asked about, whose state and drift are those that run's own inputs evaluate to, or which recovery errored |
| `LifecycleSteps.ReadAnswers` | internal/daemon/daemon.go:217-232 | in every reachable state a wait that reads leaves with not found if and only if both names are valid and there is no record, with a read error if and only if a name is invalid, with a record if and only if that is the one on disk and it is terminal, and blocks on a run if and only if its record there is not terminal |
| `LifecycleSteps.TimedOutGaveUp` | internal/daemon/daemon.go:234-240 | over whole schedules a wait answers a timeout only after giving up while blocked |
| `LifecycleSteps.GivesUp` | internal/daemon/daemon.go:237-240 | a blocked wait whose deadline passes can unsubscribe and return a timeout |
| `LifecycleSteps.PollsAgain` | internal/daemon/daemon.go:234-236 | a blocked wait that polls unsubscribes and starts over |
| `LifecycleSteps.AnswersExactly` | internal/daemon/daemon.go:228-231 | a returned record is logged as an answer exactly when the wait unsubscribes with it |
| `LifecycleSteps.LostOnlyBy` | internal/runner/runner.go:97-102 | a run counts as lost only by its own failed last save, or by a recovery that failed to rewrite its record or could not list it; its feedback only by that write failing |
| `LifecycleSteps.SkippedOnlyBy` | internal/daemon/daemon.go:93-116 | recovery passes over a record only by a failed write, and over repositories only if it could not list them or their registry |
| `LifecycleSteps.RecoveryBegins` | internal/daemon/daemon.go:90-98 | recovery starts with every registered repository, or with none if the registry cannot be read; it then serves at once |
| `LifecycleSteps.LogsExactly` | internal/runner/runner.go:73-104 | the log of inputs and identifiers, step by step: a run's inputs when it begins, an identifier when a submit issues it, fresh |
| `LifecycleSteps.OverlapsExactly` | internal/daemon/daemon.go:135-175 | runs of a directory overlap from a submit while another run is still saving there until a run registers there alone |
| `LifecycleSteps.LeavesNoLitter` | internal/store/atomic.go:15-60 | over any schedule without a kill whatever temp file there is belongs to a process or recovery in the middle of writing it, failed writes included |
| `LifecycleSteps.FailsAnytime` | internal/store/atomic.go:15-60 | no state of the daemon keeps a listing or a write, at any of its steps, from failing |
| `LifecycleSteps.KilledAnytime` | internal/daemon/daemon.go:54-116 | no state keeps the daemon from being killed, and then started again, whether or not it can read the registry |
| `LifecycleSteps.WaitsAnytime` | internal/daemon/daemon.go:203-242 | no state keeps anybody from asking about any directory, or a blocked wait from polling or giving up |
| `LifecycleTheorems.FeedbackFirst` | internal/runner/runner.go:90-102 | a saved record points at feedback if and only if it is a failed, errored or drifted verdict not written by recovery whose feedback write did not fail; the feedback is on disk already |
| `LifecycleTheorems.FeedbackIsItsOwn` | internal/runner/runner.go:337-360 | where no runs of the directory overlap it is the feedback rendered from that very record |
| `LifecycleTheorems.NoLostWakeup` | internal/daemon/daemon.go:203-275 | a blocked wait whose run did not lose its last save, or whose record is terminal, has a closed channel, or one a process is about to close, or a listed one and a run of the directory that still owes a notify; overlapping runs included |
| `LifecycleTheorems.PollNeverNeeded` | internal/daemon/daemon.go:218-241 | for every blocked wait in every reachable state: a poll reads a record, and a terminal one only if the wakeup is on its way |
| `LifecycleTheorems.NoDoubleClose` | internal/daemon/daemon.go:267-275 | on every run the channel a notifier is about to close is open, and the table is empty without waits |
| `LifecycleProgress.RunsEnd` | internal/runner/runner.go:73-104 | every step of a run, failing writes included, lowers what it has left to do, or closes one of the channels it took |
| `LifecycleProgress.NeverStuck` | internal/daemon/daemon.go:135-175 | every run always has a step to take that does not fail |
| `LifecycleLiveness.OrdinaryFalls` | internal/daemon/daemon.go:203-275 | every ordinary step, of a run or of a wait but for poll and timeout, brings the whole daemon nearer rest |
| `LifecycleLiveness.NoEndlessSchedule` | internal/daemon/daemon.go:218-241 | so without new submits and waits no schedule goes on for ever, fair or not, failing writes included |
| `LifecycleLiveness.RestIsQuiet` | internal/daemon/daemon.go:203-275 | at rest every run is over and every wait has returned, but for those blocked on a run that lost its last save, in a directory whose record is not terminal |
| `LifecycleLiveness.EveryScheduleAnswers` | internal/daemon/daemon.go:218-241 | whatever the schedule, a blocked wait ends up returning a terminal record saved in its directory, without poll or timeout, or blocked on a run that lost its last save, with a record that is not terminal |
| `LifecycleLiveness.AnsweredIffTerminal` | internal/daemon/daemon.go:218-241 | once no run of its directory is left, a blocked wait returns, under every schedule that comes to rest, if and only if the record there is terminal, and returns that record |
| `LifecycleFair.RunsDry` | internal/daemon/daemon.go:135-175 | under any fair schedule without another submit to it a directory has no run left sooner or later, whatever goes on elsewhere |
| `LifecycleFair.FairlyAnswered` | internal/daemon/daemon.go:203-275 | while submits elsewhere, waits and polls keep arriving for ever, a blocked wait on a directory nobody submits to again is either answered with a terminal record saved there or stranded for good on a record whose run lost its last save; exactly one of the two |
| `LifecycleFair.FairlyAnsweredIffTerminal` | internal/daemon/daemon.go:218-241 | once its directory has no run left such a wait is answered if and only if the record there is terminal |
| `LifecycleProgress.RecoveryNeverStuck` | internal/daemon/daemon.go:93-116 | recovery always has a step to take that does not fail |
| `LifecycleProgress.RecoveryEnds` | internal/daemon/daemon.go:93-116 | each of its steps brings it nearer its end, and registrations meanwhile do not prolong it |
| `LifecycleProgress.RecoveryFinishes` | internal/daemon/daemon.go:54-62 | it can get to serving from any point, with every record terminal but those whose rewrite had failed and those of repositories it had skipped |
| `LifecycleStranded.LostSaveStrands` | internal/runner/runner.go:100-102 | the second case happens: a schedule in which a passing run goes through all its saves, every one after its registration failing, and a later wait is blocked when the daemon has come to rest |
| `LifecycleStranded.LostSaveStrandsForGood` | internal/runner/runner.go:100-102 | and under a fair schedule that wait is stranded for good |
| `RunStore.Store.SaveRun` | internal/store/runs.go:14-32 | replaces exactly the record of the run's directory, or nothing if a name is invalid or the write fails |
| `RunStore.Store.GetRun` | internal/store/runs.go:34-58 | not found exactly for valid names without a record; a record it returns is the one of that directory |
| `RunStore.Store.ListRuns` | internal/store/runs.go:60-98 | all runs of the repository, once each, or an error exactly if the repository or an entry is invalid or unreadable |
| `RunStore.Store.RecoverRepo` | internal/daemon/daemon.go:98-115 | one unlistable repository is skipped; otherwise exactly its unfinished runs become errored, those whose save fails excepted |
| `RunStore.Store.RecoverInterruptedRuns` | internal/daemon/daemon.go:90-116 | over all repositories the same, and no other record changes |
| `RunStore.AfterMeaning` | internal/daemon/daemon.go:103-113 | what recovery changes: exactly the queued and running records it gets to and can write, and of those only the state, to errored, and the error |
| `LexicalPath.CleanFollowsWalk` | internal/checker/validate.go:134-136 | cleaning follows the segment walk: same place if the walk stays inside, a leading `..` if it leaves |
| `LexicalPath.WalkLaws` | internal/checker/validate.go:134-136 | the walk: empty and dot segments stay, `..` goes up and not above the root, any other name goes one down, and walks compose |
| `LexicalPath.EscapeTest` | internal/checker/validate.go:137-140 | the test on the cleaned text finds exactly the paths whose first component is `..` |
| `LexicalPath.NormalizeExact` | internal/checker/validate.go:125-143 | a path is accepted exactly when, trimmed, it is relative, free of NUL and its walk stays inside and ends strictly below the root; the result names that place with plain components |
| `LexicalPath.NormalizeFixpoint` | internal/checker/validate.go:125-143 | a result is a fixpoint exactly when it has no edge whitespace |
| `LexicalPath.NotIdempotent` | internal/checker/validate.go:126-142 | the concrete path on which normalising twice differs |
| `LexicalPath.CleanNotLonger` | internal/checker/validate.go:134 | cleaning never lengthens a path |
| `Citations.SplitTrimmedLines` | internal/checker/validate.go:176-183 | the in-place loop yields every line without trailing whitespace |
| `Citations.CRLFRedundant` | internal/checker/validate.go:177 | replacing CRLF first makes no difference, given the trim |
| `Citations.TrimBlankEdges` | internal/checker/validate.go:254-263 | the two index loops drop exactly the blank lines at both ends |
| `Citations.OutwardNearest` | internal/checker/validate.go:209-230 | searching outward by distance, before first, finds the nearest match or shows there is none in the window |
| `Citations.NearestUnique` | internal/checker/validate.go:209-230 | the nearest match, by distance and then start, is unique |
| `Citations.SnippetAtNearest` | internal/checker/validate.go:185-231 | the search succeeds exactly when some consecutive match starts within the window of a reported line of at least 1, and returns the nearest; `CitationFilter.KeptWithinThree` says what the window is |
| `Citations.LinesEqual` | internal/checker/validate.go:240-250 | true exactly for equal line lists |
| `Citations.ScanWindow` | internal/checker/validate.go:206-230 | the clamped scan that remembers the best start so far computes the outward search and never reads out of range |
| `Citations.FindSnippet` | internal/checker/validate.go:194-231 | the whole search, early exits included, computes the nearest match |
| `Citations.SnippetInvariant` | internal/checker/validate.go:194-263 | trailing whitespace, carriage returns and blank edge lines in the snippet never change where it is found |
| `Citations.FinalNewline` | internal/checker/validate.go:176-231 | a newline at the end of a file adds one empty line, which changes no search result |
| `CitationFilter.ReadFileLines` | internal/checker/validate.go:145-170 | missing, unreadable and directory paths read as no file, any other as its trimmed lines |
| `CitationFilter.BuildChanged` | internal/checker/validate.go:51-56 | the loop collects exactly the normalised changed files |
| `CitationFilter.ChangedSetMeaning` | internal/checker/validate.go:51-75 | membership means that some changed file names the same place |
| `CitationFilter.ClassifyCached` | internal/checker/validate.go:58-118 | one finding classified through a cache agrees with the uncached classification and keeps the cache true |
| `CitationFilter.ValidateFindings` | internal/checker/validate.go:50-120 | the cached loop returns exactly what classifying each finding on its own keeps and drops |
| `CitationFilter.ClassifyMeaning` | internal/checker/validate.go:26-120 | kept exactly if it names a changed, readable file in which the snippet occurs near its line, with file and nearest line corrected; otherwise dropped for the first check that fails |
| `CitationFilter.KeptWithinThree` | internal/checker/validate.go:26-231 | in terms of the file's text: kept exactly if the file is a changed one, the reported line is at least 1, and lines equal to the snippet's, but for trailing whitespace, start at most 3 lines from it; the line it is kept at is the nearest such, at most 3 away |
| `CitationFilter.Partition` | internal/checker/validate.go:50-120 | kept and dropped findings partition the input, each in input order |
| `CitationFilter.RevalidateOne` | internal/checker/validate.go:50-120 | a kept finding is kept unchanged again exactly when its path has no edge whitespace |
| `CitationFilter.Revalidate` | internal/checker/validate.go:50-120 | filtering the kept findings again keeps all of them unchanged |
| `Envelope.DecodeObjects` | internal/checker/checker.go:278-299 | the loop computes the scan, terminates and stops at 64 objects |
| `Envelope.ScanGreedy` | internal/checker/checker.go:278-299 | the spans found are disjoint, increasing and leftmost greedy |
| `Envelope.GreedyUnique` | internal/checker/checker.go:278-299 | and they are the only such spans |
| `Envelope.FindsPrinted` | internal/checker/checker.go:278-299 | an object printed after text without an opening brace is the next one found, whole, whatever lies before and behind |
| `Envelope.FindsAllPrinted` | internal/checker/checker.go:278-299 | from any number of printed objects with noise without opening braces around them the scan returns exactly those, in order, up to 64 |
| `Envelope.TopLevelExactly` | internal/checker/checker.go:278-299 | up to any point of the text, the objects returned are the top-level ones if and only if no brace that starts no object lies outside them; where one does, no top-level reading exists |
| `Envelope.NestedInBrokenIsReturned` | internal/checker/checker.go:278-299 | an object nested in a broken one is returned, against the comment, for every decoder |
| `Envelope.BrokenOuter` | internal/checker/checker.go:278-299 | a concrete decoder and text |
| `Envelope.FindLast` | internal/checker/checker.go:236-246 | the backwards search finds the last object that has the key |
| `Envelope.ParseEnvelope` | internal/checker/checker.go:227-272 | computes the strict reading, error case by error case |
| `Envelope.ParseMeaning` | internal/checker/checker.go:220-276 | succeeds exactly if the last scanned object having `structured_output` carries a non-null object with a non-null, well-shaped findings array |
| `Envelope.ParseErrors` | internal/checker/checker.go:227-257 | no object, objects none of which has `structured_output`, and otherwise what the last of those that have it carries |
| `Envelope.PayloadErrors` | internal/checker/checker.go:257-276 | each error for exactly its texts; a findings array is decoded if and only if neither it nor what holds it is empty or `null` between whitespace |
| `Envelope.NullIsNoReport` | internal/checker/checker.go:257-276 | so a carrier or findings of `null`, with any whitespace around it, or of whitespace only, is an error for every decoder and never an empty report |
| `Rules.Matches` | internal/config/rules.go:81-106 | true exactly for an unscoped or always-checked rule or one with a glob matching a changed file |
| `Rules.MatchRules` | internal/config/rules.go:108-118 | the loop filters by that, in order |
| `Rules.SelectedMeaning` | internal/config/rules.go:108-118 | the selected rules are exactly the matching ones |
| `Rules.SelectedAppend` | internal/config/rules.go:108-118 | selection keeps the rules' order |
| `Rules.LoadSettings` | internal/config/settings.go:32-63 | the limit is at least 1 whatever the file says; an error exactly for an unreadable, malformed or negative one |
| `Rules.SettingsMeaning` | internal/config/settings.go:21-63 | a positive value is the limit, an absent file, an omitted value and 0 mean 4, and each error stands for its own kind of file |
| `Gate.Check` | internal/checker/checker.go:81-107 | an agent failure or a malformed report is an error, never an empty report; otherwise the filter's result |
| `Gate.RunRules` | internal/runner/runner.go:273-333 | no rules, settings error, diff error, failed rules or results, in that order |
| `Gate.CollectFailures` | internal/runner/runner.go:319-330 | every rule with an error is collected |
| `Gate.GateRun.Execute` | internal/runner/runner.go:73-104 | the record, updated step by step, ends as the sequential reading says |
| `Gate.GateRun.Prepare` | internal/runner/runner.go:106-158 | worktree, base, changed files and drift, with each early error |
| `Gate.GateRun.Evaluate` | internal/runner/runner.go:160-220 | setup, rule selection, rules and scripts, with each early error |
| `Gate.GateRun.Decide` | internal/runner/runner.go:201-220 | a rule error leaves no verdict; otherwise passed exactly with check and test OK and no finding |
| `Gate.GateRun.Finish` | internal/runner/runner.go:83-95 | an error, or a state that is not terminal, ends as errored |
| `Gate.AlwaysEnds` | internal/runner/runner.go:83-95 | an error errors the run and is recorded; without one only a state that is not terminal does |
| `Gate.KeptIsCited` | internal/checker/validate.go:26-120 | a finding survives exactly if it cites a changed, readable file near its line |
| `Gate.CheckedClean` | internal/checker/checker.go:81-107 | a rule contributes neither error nor finding exactly when its agent finished with a well-formed report none of whose findings is cited |
| `Gate.RanRulesClean` | internal/runner/runner.go:273-333 | rules as a whole are clean exactly when each is, and settings and diff could be read if there are any |
| `Gate.PassedMeansClean` | internal/runner/runner.go:73-220 | a run passes if and only if everything a pass stands for holds; it always ends passed, failed or errored |
| `Gate.VerdictMeaning` | internal/runner/runner.go:171-220 | errored if and only if a step of the run itself went wrong (worktree, base, changed files, setup, rules, settings, diff, an agent or its report), whatever check, test and findings say; failed if and only if none did and something is not clean |
| `Gate.ScriptsDecide` | internal/runner/runner.go:171-218 | a run passes only if each of its three scripts was skipped or exited 0 in time and without an error; otherwise check and test fail it, and setup errors it |
| `Gate.ScriptsPass` | internal/runner/runner.go:205-218 | and an evaluable run whose check and test did so passes exactly if every selected rule is clean |
| `Gate.PrologueErrors` | internal/runner/runner.go:106-158 | the error of a run that did not get its changed files: worktree, base or diff, whichever failed first |
| `Gate.BodyErrors` | internal/runner/runner.go:160-190 | and of one that did: the changed-file list, setup, or the rules |
| `Gate.RulesErrors` | internal/runner/runner.go:273-333 | and of one that got to its rules: settings, diff or the rules that failed, in that order of precedence; with none of them no error, and with the last, or none, every rule's result is in the record |
| `Gate.FailuresMeaning` | internal/runner/runner.go:319-330 | the failed rules are exactly those with an error, each under its name, in order |
| `Gate.CheckedMeaning` | internal/checker/checker.go:81-107 | what a rule leaves: the agent's or the report's error and no finding, or every reported finding either kept, normalised and at most 3 lines off, or discarded as it was reported |
| `Gate.DocumentedVerdicts` | internal/runner/runner.go:211-218 | failed means that the gate ran fully, and errored that it did not, if and only if it is not the case that all else worked and check or test could not be run to an end; in that case the run is failed |
| `Gate.VerdictRecord` | internal/runner/runner.go:190-205 | the record of a verdict holds all three scripts' results and every selected rule's |
| `Gate.RecordsPreparation` | internal/runner/runner.go:106-158 | the record holds the changed files, the drift, and what went wrong in preparing without stopping the run |
| `Gate.NoGuessedBase` | internal/runner/runner.go:234-258 | a verdict is computed against the merge base with the remote branch, else the local one, and against the empty tree only when the fetch succeeded and there is neither |
| `FanOut.Preserves` | internal/runner/runner.go:190-201 | each step of the concurrent part keeps: a slot is filled exactly with its own rule's outcome once that goroutine wrote it |
| `FanOut.ScheduleIndependent` | internal/runner/runner.go:292-317 | every complete schedule leaves every rule's own outcome in its slot and the three scripts, whatever failed |
| `FanOut.Bounded` | internal/runner/runner.go:293-294 | never more agents at once than the limit |
| `FanOut.EveryStepCounts` | internal/runner/runner.go:295-317 | every step brings the fan-out nearer its end |
| `FanOut.SchedulesAreShort` | internal/runner/runner.go:295-317 | so no schedule takes more than a fixed number of steps |
| `FanOut.NeverStuck` | internal/runner/runner.go:293-317 | with a limit of at least 1 something can always go on until all is done |
| `FanOut.DeadlockIffNoRoom` | internal/config/settings.go:50-62 | the fan-out can complete exactly if the limit is at least 1 or there is no rule |
| `FanOut.AlwaysGoesOn` | internal/runner/runner.go:190-203 | with the limit LoadSettings yields, a schedule that is not over can go on |
| `FanOut.SameAsInOrder` | internal/runner/runner.go:190-220 | every complete schedule ends the run with the record, verdict and error of the sequential reading, whether rules fail or settings or diff cannot be read |
| `EndToEnd.SlopgateJudges` | internal/runner/runner.go:83-95 | evaluation always ends in passed, failed or errored |
| `EndToEnd.RecordsTheRun` | internal/runner/runner.go:73-104 | the state and drift the lifecycle saves are those Execute leaves in the record of any submitted run |
| `EndToEnd.OwesWhatFeedbackWrites` | internal/runner/runner.go:337-343 | the lifecycle owes feedback exactly when writeFeedback writes it |
| `EndToEnd.SavedMeansClean` | internal/runner/runner.go:171-219 | on every run of the system a saved verdict is passed if and only if that run's recorded inputs were clean |
| `EndToEnd.WaitExitsZeroOnlyIfClean` | cmd/slopgate/wait.go:138-147 | `wait` exits 0 only for a saved run of that directory whose scripts were all OK and every selected rule of which had a cleanly finished agent and a well-formed report with nothing cited |
| `EndToEnd.StatusExitsZeroOnlyIfClean` | internal/daemon/daemon.go:182-195 | the same for `status` at any moment |
| `EndToEnd.ExitCodeMeaning` | cmd/slopgate/wait.go:136-147 | for a run the daemon completed, exit code 0 if and only if its inputs were clean, 2 if a step of the run itself went wrong, 1 otherwise |
| `EndToEnd.ExitCodes` | cmd/slopgate/main.go:58-67 | of any reply: 0 for a passed record, 1 for a failed one, 2 for any other record, for none, for an error and for a timeout |
| `EndToEnd.ExitCodeDocumented` | cmd/slopgate/wait.go:136-147 | the exit code is the documented one under the same condition; otherwise it is 1 where 2 is documented |
| `EndToEnd.UnstartableFails` | internal/runner/script.go:81-86 | concrete inputs on which the gate cannot start check.sh and says failed |
| `EndToEnd.PassedProgresses` | internal/runner/runner.go:106-158 | a run of the gate that passes has gone through the save after its prologue |
| `EndToEnd.GateStrands` | internal/runner/runner.go:73-104 | the stranding schedule is one of the gate itself: concrete inputs on which it passes, and a concrete name |
| `EndToEnd.GateStrandsForGood` | internal/runner/runner.go:73-104 | and there it is stranded for good under a fair schedule |
| `RepoRegistry.Upsert` | internal/store/repos.go:148-158 | the loop replaces the entry of that ID in place, or appends |
| `RepoRegistry.GetRepo` | internal/store/repos.go:74-85 | the first entry of the ID, or none |
| `RepoRegistry.UniqueInOrder` | internal/store/repos.go:133-168 | after any upserts IDs are unique and in the order of first registration |
| `RepoRegistry.NothingLost` | internal/store/repos.go:133-168 | every ID reads as its latest upsert, and no other ID reads at all |
| `RepoRegistry.Preserves` | internal/store/repos.go:31-45 | under any interleaving, failure and kill, what the lock holder is about to commit is built on all that was committed |
| `RepoRegistry.Linearizable` | internal/store/repos.go:49-62 | a reader without a lock always sees one complete version: the fold of the committed upserts in rename order; a SaveRepo about to report success is among them |
| `RepoRegistry.LookupsAreCurrent` | internal/store/repos.go:74-85 | a lookup at any moment finds the latest committed upsert of the ID |
| `RepoRegistry.ReportsTheTruth` | internal/store/repos.go:133-168 | a call reports success exactly if it commits its upsert, and a failure exactly if its own write fails; nothing else commits |
| `RepoRegistry.CallCommits` | internal/store/repos.go:31-45 | whenever the lock is free a call that nobody disturbs commits its upsert and frees the lock again |
| `RepoRegistry.KillReleases` | internal/store/repos.go:31-45 | a killed process leaves the lock to others and changes nothing else |
| `RepoRegistry.HolderCanGoOn` | internal/store/repos.go:31-45 | a held lock has a live holder with a step to take that does not fail |
| `DaemonLock.Preserves` | internal/store/lock.go:27-57 | each step keeps: one lock file, one holder, and a listening daemon behind the socket path |
| `DaemonLock.SingleDaemon` | internal/daemon/daemon.go:54-66 | over any starts, shutdowns and kills at most one process holds the lock, and no socket a daemon listens on is ever removed by another |
| `DaemonLock.ListenerStays` | internal/ipc/ipc.go:275-301 | no step of another process takes a listening daemon off its socket |
| `DaemonLock.HolderListens` | internal/ipc/ipc.go:275-301 | a socket file left behind keeps nobody from listening: the lock holder's bind always succeeds |
| `DaemonLock.ServesAndStops` | internal/daemon/daemon.go:54-87 | a daemon started while nobody holds the lock, whatever dead ones left behind, gets it and listens, and can then shut down; the lock file stays |
| `DaemonLock.KillFrees` | internal/store/lock.go:16-26 | a daemon can die at any moment; it then holds nothing, and nobody else notices |
| `DaemonLock.NoStaleLock` | internal/store/lock.go:16-21 | trying the lock succeeds exactly when nobody holds it, so a dead daemon never blocks the next |
| `DaemonLock.UnlinkingAdmitsTwo` | internal/store/lock.go:22-26 | removing the lock file on release would admit two holders: the schedule |
| `DaemonLock.ReleaseBeforeExit` | internal/daemon/daemon.go:77-87 | the lock can pass to another daemon while the first, its executors cancelled but not awaited, is still there |
| `Fence.CodeFence` | internal/feedback/feedback.go:276-293 | the loop yields backticks only, at least three, one longer than the longest run in the content if that is more |
| `Fence.FenceMeaning` | internal/feedback/feedback.go:273-293 | that is the shortest string of three or more backticks that does not occur in the content |
| `Fence.LinesCut` | internal/feedback/feedback.go:238 | for a CommonMark reader the newline before the closing fence ends a line, also after a carriage return |
| `Fence.LinesMeaning` | internal/feedback/feedback.go:238 | the reader ends a line at a newline, at a carriage return and at both in that order |
| `Fence.OpensOf` | internal/feedback/feedback.go:233-260 | it opens a block at every line of up to three spaces, three or more backticks and an info string without any |
| `Fence.OpensOnly` | internal/feedback/feedback.go:233-260 | every line it opens a block at has up to three spaces, three or more backticks and an info string without any |
| `Fence.ClosesOf` | internal/feedback/feedback.go:233-260 | and closes it at every line of up to three spaces, at least as many backticks, and blanks |
| `Fence.ClosesOnly` | internal/feedback/feedback.go:233-260 | every line it closes one at has up to three spaces, at least as many backticks, and blanks |
| `Fence.ClosingHasRun` | internal/feedback/feedback.go:273-293 | a content line that closed the block would hold a run as long as the fence |
| `Fence.FenceRoundTrip` | internal/feedback/feedback.go:233-260 | whatever the content and the text that follows, and for any tag without backticks, a reader after section 4.5 of CommonMark 0.31 closes the block exactly at the emitted fence and recovers the content's lines |
| `Fence.TagsAreLower` | internal/feedback/feedback.go:298-345 | every tag of the language table consists of small letters |
| `Fence.SnippetComesBack` | internal/feedback/feedback.go:233-345 | so the block of a snippet comes back for every file extension |
| `Fence.ContentComesBack` | internal/feedback/feedback.go:233-260 | without carriage returns the content comes back character by character |
| `RingLog.RingLogWriter.Write` | internal/store/log.go:32-49 | after a write the buffer is the end of everything written; a closed writer takes nothing |
| `RingLog.RingLogWriter.Close` | internal/store/log.go:53-63 | the first close flushes exactly the end of everything written, the second nothing |
| `RingLog.LastIsEnd` | internal/store/log.go:40-46 | that end: the text itself if it fits, else its last bytes, as many as fit |
| `RingLog.LastOfLast` | internal/store/log.go:40-46 | trimming after each write forgets nothing that counts |
| `RingLog.WriteAll` | internal/store/log.go:18-63 | the file is the longest end of the whole output of at most 1 MiB, however it was cut into writes |
| `RingLog.LastLinesIsTail` | internal/store/log.go:108-112 | splitting, keeping and joining yields the longest end with fewer than that many newlines |
| `RingLog.TailLogIsTail` | internal/store/log.go:82-113 | the tail of a log without its trailing newlines, for every line count; nothing for a count of 0 or less |
| `RingLog.CapKeepsTail` | internal/store/log.go:82-113 | the tail of the capped log is the tail of the full output exactly when it is empty or fits in the cap with the trailing newlines |
| `Frontmatter.TwoReplacements` | internal/config/frontmatter.go:60-61 | the two replacements turn each of the three line endings into one newline |
| `Frontmatter.PreparesText` | internal/config/frontmatter.go:57-62 | one leading BOM is dropped, and each line ending becomes one newline |
| `Frontmatter.Scan` | internal/config/frontmatter.go:65-84 | the two index loops divide the lines at the first delimiter after blank lines and the next one |
| `Frontmatter.ParseFrontmatter` | internal/config/frontmatter.go:57-95 | the parse, on every input |
| `Frontmatter.RoundTrip` | internal/config/frontmatter.go:57-95 | blank lines, a line that trims to `---`, lines that do not, another that does, and a body, with any one line ending and with or without a BOM, parse to the YAML between and to that body, trimmed |
| `Frontmatter.ErrorsExactly` | internal/config/frontmatter.go:69-84 | unterminated exactly when the first line that is not blank trims to `---` and no later one does; when it does not trim to that, the whole text is body |
| `Feedback.CollectFindings` | internal/model/model.go:145-152 | the append loop yields all rules' findings in order |
| `Feedback.RenderRuleViolations` | internal/feedback/feedback.go:198-211 | a subsection per rule with surviving findings, in the rules' order |
| `Feedback.SectionsNamed` | internal/feedback/feedback.go:198-211 | the subsections are those of the rules with findings, in order, each under its own rule's name and with its own findings |
| `Feedback.RanMeaning` | internal/feedback/feedback.go:37-78 | the scripts looked at are those that ran, in the order setup, check, test |
| `Feedback.BlocksAreFindings` | internal/feedback/feedback.go:198-227 | one block per surviving finding in rule then finding order, and none for a discarded one |
| `Feedback.NoEmptySection` | internal/feedback/feedback.go:204-207 | no rule is listed without a finding |
| `Feedback.SummaryCounts` | internal/feedback/feedback.go:164-176 | the counts printed are the numbers of blocks and subsections shown |
| `Feedback.Render` | internal/feedback/feedback.go:37-78 | the sections, in order |
| `Feedback.RenderIsFaithful` | internal/feedback/feedback.go:37-78 | the document holds exactly the sections that belong to the record, each once and in its place, the verdict first: no summary or findings for an errored run, a section for each failed script |

## Left out

- git, worktrees, process spawning, timeouts of scripts and agents, and kill escalation: only their outcomes are inputs.
- The socket transport, peer disconnects and client deadlines of internal/ipc/ipc.go: a call is a request step and a reply step.
- The `active` map and cancellation: nothing modelled depends on which executor a shutdown cancels, since a shutdown is a kill.
- Requests a submit rejects (unknown repository, invalid SHA) change no state and are not steps; unvalidated waits are.
- Times, durations, token usage, log paths and the wording of messages: errors are carried as what they say.
- Log lines, and with them the slice `run.SHA[:7]` of internal/runner/runner.go:79, which needs an SHA of at least seven characters when that save fails.
- The sorted joining of failed rules into one error text: `Gate` keeps them in rule order.
- The order ListRuns sorts records into: recovery is proved for every order. What makes a listing fail (an unreadable record, a stray directory entry) is in `RunStore`; in `Lifecycle` any listing may fail, and so may the reading of `repos.json`.
- The number of retries and the wording of hook output in cmd/slopgate/hook.go; `init`, scaffolding, flags and printing.
- FindRepoByPath and symlink resolution; how a file name yields its lower-case extension.
- Replacement of invalid UTF-8, and NUL in CommonMark input.
- Integer overflow in snippetAt: line numbers are unbounded here.
- StateCancelled is declared in the records, but no modelled code writes it.
- LifecycleTheorems.FeedbackIsItsOwn: claims nothing for a directory submitted again while a run of it was still saving, because both runs write the same file; the exemption ends when a run registers there with nobody else saving.
- Waiters.Registry.Notify: speaks of a call nobody interrupts; Waiters.NotifyClosesExactly and Waiters.Registry.Interleave cover every interleaving, at the level of the books the class keeps.
- LifecycleLiveness.EveryScheduleAnswers: speaks of a daemon at which no submits and waits arrive any more; LifecycleFair.FairlyAnswered covers a busy one, where steps are scheduled fairly. A process that takes no step at all, such as an agent that hangs, is bounded by timeouts that are not modelled.
- LifecycleFair.FairlyAnswered: says nothing of a wait that times out or of a daemon that is killed; a later submit to the same directory makes a new run to wait for.
- Fence.FenceRoundTrip: reads one block from its opening line on; free text between blocks, such as an explanation, may itself open a block.
