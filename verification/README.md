# Verified models of the laboratory cores

This project models the offline laboratory cores of the procurement-agent repository in Dafny and proves
what their state machines guarantee: the provider-call ledger and its crash recovery, the live evaluation
methods, the A2A reviewer, ANP routing, durable purchase-to-pay orchestration, the lab's version pointer,
the replay and reinforcement-learning environments, the stage gate, the five orchestration patterns, the
weight printer, the training loops and the paired bootstrap.

`dafny verify dfyconfig.toml` checks everything.

| file | what it models |
|---|---|
| `Basics.dfy` | the optional value and distinctness, shared by all |
| `Ledger.dfy` | the append-only reservation ledger: file, reader, and the object that mirrors it |
| `Sessions.dfy` | reservation keys, and any number of live sessions with a crash between any two durable writes |
| `LiveSession.dfy` | opening, recovering and running one session, as code whose every durable write is a step of `Sessions` |
| `LiveMethods.dfy` | the live methods: attempts, choice, record, a whole batch, the whole command |
| `Replay.dfy`, `Shapes.dfy` | the replay driver and its verifier; which action words pass |
| `ProcurementEnv.dfy` | the reinforcement-learning environment and how it simulates the replay driver |
| `Selection.dfy` | reflection, reranking and best-of-n on replays; the oracle steers none of them |
| `Reviewer.dfy` | `execute` and `cancel` coroutines on one A2A task, interleaved at their awaits |
| `Routing.dfy` | depth-first cycle detection and least-permission route selection |
| `Durable.dfy` | the worklist of durable steps under duplicated, reordered and restarted events |
| `VersionPointer.dfy` | immutable receipts, a compare-and-swap pointer, rollback |
| `StageGate.dfy` | the exit gate: accumulating checks whose joint pass fixes coverage and accounting |
| `Patterns.dfy` | four routers over a bounded flow and a graph machine, over arbitrary roles |
| `WeightPrinter.dfy` | the layout-sensitive JSON printer, with a lexer and a parser to read it back |
| `Training.dfy`, `Bootstrap.dfy` | early stopping, discounted returns, checkpoint choice; the bootstrap interval |

Modelling conventions. Each fsynced append is atomic and a crash falls between two of them. Digests are
uninterpreted. Provider answers, policies, role behaviours, losses, metrics and random choices are arbitrary
parameters. Floats are reals. Dictionaries that are iterated are iterated in any order.

## Where the code and its promises differ

- **A reused key leaks.** If a batch dies before its first record, its record file does not exist, so the
  same batch may be run again; its keys are refused as already reserved, yet persisting the record marks
  them. The exact law is: recorded calls + open keys + leaked keys = keys ever reserved, and what leaked is
  exactly the reused keys that are marked (`Sessions.LeakedExactly`). `Sessions.ReuseBreaksConservation`
  gives the run; starting only on record files of which the ledger knows no key is enough to rule it out.
- **Some permitted names make keys too long.** Batch and case identifiers may have 81 and 120 characters, a key
  240. Then reflection and the candidate methods fail on every such case (`LiveMethods.LongestNames`), in the
  ledger or in the record validator, and a batch fails if and only if one of its cases does or a record
  identifier is taken (`LiveMethods.EvaluateLive`).
- **Reflection can give up a passing draft** on the injection case: finishing without a read passes the
  verifier, but the gate wants an observation (`Selection.ReflectionDiscardsPassing`).
- **The ledger reader accepts keys that were never reserved** (`Ledger.ReaderAcceptsUnbornKey`): a key whose
  first event is already final. No log written by the ledger itself contains one.
- **A coroutine killed between reporting completion and writing the terminal state** leaves the task open to
  a second terminal update (`Reviewer.LateKillReportsTwice`). Every such kill adds one update to the one that
  the terminal state stands for (`Reviewer.TerminalUpdatesExactly`).
- **The two environments judge differently.** They pass through the same states, but on the duplicate case
  the reinforcement-learning environment can never settle on the expected status
  (`ProcurementEnv.DuplicateCaseNeverRewarded`), although asking for input passes the replay verifier.
- **A selection cannot be repeated on the same evidence**: its identifier leaves out action and reason
  (`VersionPointer.RepeatRefused`).
- **The stage gate does not look at live records of the training split.** Passing means that every live key is
  in the ledger exactly when no such record lists one (`StageGate.AllLiveKeysInLedgerIff`).
- **The patterns part ways on a RuntimeError**: the graph turns it into a model error, the bounded flow lets it
  through. On everything else they agree (`Patterns.RunAllPatterns`).

## Model

| member | source | states |
|---|---|---|
| `Ledger.Read` | labs/self_improvement/evaluation.py:95-141 | reading line by line is the fold of the file, with the first refusal final |
| `Ledger.ReadAcceptsLawful` | labs/self_improvement/evaluation.py:95-141 | a file is accepted if and only if every line is valid and each key's events follow one another under one batch; the map then holds each key's last event |
| `Ledger.HistoryShape` | labs/self_improvement/evaluation.py:109-141 | in a written file a key's history is a prefix of reserved, one of completed/failed/unknown, recorded, under a single batch |
| `Ledger.ReaderAcceptsUnbornKey` | labs/self_improvement/evaluation.py:109-141 | the shape needs the file to be the ledger's own: a key may also begin with a final event |
| `Ledger.ReservationLedger.Append` | labs/self_improvement/evaluation.py:158-173 | an entry the reader would take keeps the map equal to the file read back |
| `Ledger.ReservationLedger.Reserve` | labs/self_improvement/evaluation.py:175-183 | error order, one RESERVED line or nothing, map and file still agree |
| `Ledger.ReservationLedger.Finish` | labs/self_improvement/evaluation.py:185-194 | only a reserved key is finalized, once, under its own batch; otherwise nothing changes |
| `Ledger.ReservationLedger.MarkRecorded` | labs/self_improvement/evaluation.py:196-206 | succeeds exactly when no key is unknown or still reserved; what it marked before an error is on file |
| `Ledger.ReservationLedger.ReconcileReserved` | labs/self_improvement/evaluation.py:208-213 | afterwards nothing is reserved; exactly the stale keys moved to UNKNOWN |
| `Ledger.ReservationLedger.MarkRecordedMatching` | labs/self_improvement/evaluation.py:215-227 | marks exactly the finalized keys that are wanted |
| `ReservationKeys.RenderInjective` | labs/self_improvement/evaluation.py:740-742 | two attempts have the same reservation key only if batch, method, repeat, case and call number agree |
| `ReservationKeys.RenderText` | labs/self_improvement/evaluation.py:740-742 | the text of a key, part by part |
| `ReservationKeys.RenderShape` | labs/self_improvement/evaluation.py:740-742 | a key is as long as batch, method and case make it plus 30, and never breaks the line |
| `ReservationKeys.OwnerUnique` | labs/self_improvement/cli.py:605-607 | a key belongs to one record file |
| `ReservationKeys.RenderedKeysExclusive` | labs/self_improvement/evaluation.py:740-742 | ownership by rendered keys is exclusive, which is what the session theorems assume |
| `Sessions.StepKeepsInv` | labs/self_improvement/cli.py:592-613 | every durable write, provider call and crash keeps the accounting invariant |
| `Sessions.RunKeepsInv` | labs/self_improvement/cli.py:592-613 | so does every run of any number of sessions |
| `Sessions.Conservation` | labs/self_improvement/evaluation.py:239-262 | after recovery, recorded calls + open keys + leaked keys = keys ever reserved |
| `Sessions.ProviderCallsBounded` | labs/self_improvement/evaluation.py:239-262 | no key is called twice, calls are at most keys, keys at most 1,200 plus the leak; `used` plus what leaked before the session is the number of keys |
| `Sessions.NoReuseConserves` | labs/self_improvement/evaluation.py:239-262 | with no reused key: no leak, exact conservation, `used` equals all keys reserved, at most 1,200 provider calls over all sessions |
| `Sessions.FreshStartsReuseNothing` | labs/self_improvement/cli.py:605-609 | starting only on record files without keys in the ledger reuses none |
| `Sessions.FreshStartsConserve` | labs/self_improvement/cli.py:592-613 | hence such runs conserve every key |
| `Sessions.PersistLeaksReused` | labs/self_improvement/cli.py:611-613 | a record whose marks are all made leaks exactly the reused keys it lists, so it keeps conservation if and only if it lists none |
| `Sessions.LeakedExactly` | labs/self_improvement/cli.py:592-613 | over every run, cut off anywhere, the leak is exactly the reused keys that are marked; recovery marks all of those a record with a call lists; after recovery conservation holds if and only if no reused key is marked |
| `Sessions.RunKeepsUnwritten` | labs/self_improvement/cli.py:592-613 | on every run only the call in flight is reserved, and attempts awaiting their record are in none yet |
| `Sessions.ReuseBreaksConservation` | labs/self_improvement/cli.py:605-613 | a two-session run after which a called key is accounted for nowhere |
| `Sessions.CrashAnywhere` | labs/self_improvement/cli.py:592-613 | every prefix of a run followed by a crash is a run |
| `LiveSession.Session.CallProvider` | labs/self_improvement/evaluation.py:359-477 | raises exactly when a name the ledger refuses is offered to it; a call is made exactly when the prompt fits, the batch is not blocked, the budget has room, the names are good and the key is new; then key, strikes and breaker are settled as the answer says, otherwise the call is declined with the code of the first obstacle; every write is a step of the session machine |
| `LiveSession.Session.Reserve` | labs/self_improvement/evaluation.py:253-262 | which refusal, exactly and in order: breaker, budget, name, ledger; one reservation otherwise |
| `LiveSession.Session.Note` | labs/self_improvement/evaluation.py:268-275 | consecutive blocking failures are counted and three of them close the batch for good |
| `LiveSession.AnswersSettle` | labs/self_improvement/evaluation.py:388-477 | for every answer: the code and status reported, and whether the key is finalized completed, failed or unknown |
| `LiveSession.BlockingCodes` | labs/self_improvement/evaluation.py:45-57 | the nine codes that count against the breaker, and no other |
| `LiveSession.ThreeTimeouts` | labs/self_improvement/evaluation.py:268-275 | three calls in a row that time out close the batch, whatever came before |
| `LiveSession.Session.Persist` | labs/self_improvement/cli.py:611-613 | the record is appended, then its finalized keys are marked; a refused append changes nothing |
| `LiveSession.ExistingCalls` | labs/self_improvement/cli.py:238-251 | the sum of recorded calls |
| `LiveSession.LiveRecordKeys` | labs/self_improvement/cli.py:273-284 | exactly the keys listed by records that made a call |
| `LiveSession.Recover` | labs/self_improvement/cli.py:592-594 | afterwards nothing is reserved, and open are exactly the keys that were not recorded and that no record with a call lists; a run of the machine |
| `LiveSession.Begin` | labs/self_improvement/cli.py:592-609 | `used` starts at recorded calls plus the keys recovery leaves open; budget and existing output refuse the session in that order |
| `LiveSession.OpenSession` | labs/self_improvement/cli.py:592-609 | each of its three errors, exactly, in terms of the files it found |
| `LiveMethods.ChooseOfThree` | labs/self_improvement/evaluation.py:780-801 | the earliest of the best accepted attempts, else the first attempt with a result, else none |
| `LiveMethods.BuildRecordValid` | labs/self_improvement/contracts.py:218-245 | a built record passes the record validator, bindings included, if and only if its first key and its candidate binding do |
| `LiveMethods.Assess` | labs/self_improvement/evaluation.py:552-635 | for any attempts the record lists their keys in order, counts the attempted ones, is valid if and only if key and binding are, and tells its case: succeeded, without code and verified together and exactly when a picked replay passes (for generated cases: has the shape of its kind), with the score, safety and last action of that replay and otherwise the method's code or the replay's; with nothing picked the last call's status and code, score -1.0, unsafe exactly when rejected |
| `LiveMethods.RecordTells` | labs/self_improvement/evaluation.py:579-597 | whatever the method chose, the record built from it tells the case: status, flags, score, output, code |
| `LiveMethods.RevisesIffUnsettled` | labs/self_improvement/evaluation.py:767-777 | reflection makes its second call exactly when the first answer plays out without settling |
| `LiveMethods.MakeAttempts` | labs/self_improvement/evaluation.py:732-805 | one attempt for single-call methods, one or two for reflection, three for best-of-3, each under its own key; an error exactly when a key over 240 characters reaches the ledger |
| `LiveMethods.LiveMethodCase` | labs/self_improvement/evaluation.py:715-822 | fails if and only if its keys are over 240 characters or the candidate binding is incomplete; otherwise, for every provider behaviour, the record is valid, tells its case, has distinct keys, and `calls` is the number of keys the case added to the ledger |
| `LiveMethods.RunCase` | labs/self_improvement/cli.py:611-613 | fails if and only if the case does or its record identifier is taken; otherwise its record tells what some attempts at the case came to, is on file with its keys marked, and the next case may start |
| `LiveMethods.RunLiveMethods` | labs/self_improvement/evaluation.py:825-878 | fails if and only if repeats or content are refused or some position fails; otherwise repeats times cases records, each valid and telling the case at its position, whose calls sum to the keys newly reserved |
| `LiveMethods.EvaluateLive` | labs/self_improvement/cli.py:574-631 | the whole command is a run of the session machine from the state it found; it fails if and only if batch id, candidate, ledger file, budget, record file, repeats, a key length or a record identifier is at fault, and otherwise makes repeats times cases valid records, each telling its case, whose calls are the keys newly reserved |
| `LiveMethods.LongestNames` | labs/self_improvement/evaluation.py:740-742 | with the longest batch and case identifiers the keys fit for baseline and best-of-3 only |
| `LiveMethods.KilledCommandExtendsHistory` | labs/self_improvement/cli.py:592-631 | killed after any step it still extends the history, so the run theorems cover it |
| `Replay.RunReplay` | labs/self_improvement/replay.py:157-240 | the loop plays exactly the episode of reads and one ending that the recursive walk describes, scored and verified |
| `Replay.ReplayReports` | labs/self_improvement/replay.py:157-240 | what a replay of any case reports follows from its word and its end: safety, verification and the failure code |
| `Shapes.SyntheticIsGenerated` | labs/self_improvement/data.py:198-240 | the dataset builder's cases are the generated cases the shape theorem is about |
| `Shapes.WalkFolds` | labs/self_improvement/replay.py:83-130 | an episode's state is the fold of its reads |
| `Shapes.Flags` | labs/self_improvement/replay.py:83-130 | after any reads the state's flags depend only on the kind, the reads and the number of opens |
| `Shapes.PassesIffShape` | labs/self_improvement/replay.py:133-240 | for every policy and bound, a generated case passes if and only if its action word has its kind's shape |
| `Shapes.ResultByWord` | labs/self_improvement/replay.py:133-240 | on generated cases status, score, safety, number of observations and failure code of a replay, read off kind and word alone |
| `Shapes.ShippedReadsOnce` | labs/self_improvement/replay.py:243-257 | the deterministic policy opens the order once and then ends as the kind demands |
| `Shapes.DeterministicPolicyPasses` | labs/self_improvement/replay.py:243-257 | it always passes with two steps, and with one step exactly on the kinds that need no read |
| `ProcurementEnv.Env.Step` | labs/self_improvement/rl.py:85-123 | one transition, whose states and rewards `Simulation` and `RewardsByWord` describe, and none once the episode is done |
| `ProcurementEnv.MakeEnv` | labs/self_improvement/rl.py:48-58 | refuses exactly the bounds outside one to eight |
| `ProcurementEnv.RunActionSequence` | labs/self_improvement/rl.py:126-139 | transitions up to and including the first that is done; on generated cases each with the reward, status, end and safety that its position in the action sequence calls for |
| `ProcurementEnv.RewardsByWord` | labs/self_improvement/rl.py:85-139 | over every action sequence and bound: a read pays the step penalty, with the no-progress penalty exactly on an open of the duplicate case or a repeated one of the complete case and the bonus exactly for a tool already observed; an ending pays success exactly when the word has the rewarded shape; truncation and illegal actions pay the error |
| `ProcurementEnv.Simulation` | labs/self_improvement/rl.py:85-139 | on every action sequence and bound the environment passes through the replay driver's states and truncates at the same step |
| `ProcurementEnv.StatusesAgree` | labs/self_improvement/rl.py:72-83 | when the two terminal statuses agree, exactly |
| `ProcurementEnv.SettlesExpectedIffEnvShape` | labs/self_improvement/rl.py:94-104 | which words the environment rewards, exactly |
| `ProcurementEnv.DuplicateCaseNeverRewarded` | labs/self_improvement/rl.py:72-104 | on the duplicate case no word reaches the expected status, while asking for input passes the replay verifier |
| `Selection.ReflectionReplay` | labs/self_improvement/evaluation.py:971-981 | the draft is kept exactly when its episode asks, or finishes with something observed; otherwise the revision is the result, and it counts as improved exactly when it passes |
| `Selection.ObservableIffSettles` | labs/self_improvement/evaluation.py:984-995 | the gate decides on the action word alone |
| `Selection.ReflectionDiscardsPassing` | labs/self_improvement/evaluation.py:971-995 | a draft that passes the verifier is given up exactly on the injection case when it finishes without reading |
| `Selection.RerankCandidates` | labs/self_improvement/evaluation.py:998-1013 | exactly the accepted candidates, each once, more observations first, then fewer steps, then the earlier one |
| `Selection.PickBest` | labs/self_improvement/evaluation.py:1028-1037 | the first accepted result that no accepted one precedes, by more observations and then fewer steps; without any, the first result |
| `Selection.BestOfN` | labs/self_improvement/evaluation.py:1016-1038 | bounds, calls and choice of best-of-n |
| `Selection.ReplayBlind` | labs/self_improvement/replay.py:157-240 | cases that differ only in what scoring reads play the same episode |
| `Selection.ReflectionBlind` | labs/self_improvement/evaluation.py:971-981 | reflection makes the same calls and plays the same episode on them |
| `Selection.RerankBlind` | labs/self_improvement/evaluation.py:984-1013 | reranking gives the same candidates in the same order |
| `Selection.BestOfNBlind` | labs/self_improvement/evaluation.py:984-1038 | best-of-n makes the same calls and picks the same candidate |
| `Reviewer.StepKeepsInv` | labs/protocols/phase9_a2a.py:159-246 | every await-to-await step of every coroutine, and every kill, keeps the lock and accounting invariant |
| `Reviewer.TerminalUpdatesExactly` | labs/protocols/phase9_a2a.py:200-246 | over every run, whatever is killed and when, terminal updates = kills between completion and the terminal state + 1 if the terminal state is reported; at most one if and only if that sum is at most one |
| `Reviewer.AtMostOneTerminalUpdate` | labs/protocols/phase9_a2a.py:200-246 | over every interleaving without a late kill at most one terminal update, the one the terminal state names |
| `Reviewer.ArtifactsComplete` | labs/protocols/phase9_a2a.py:207-222 | over every run, an artifact whose coroutine ran to its end unkilled is followed by that coroutine's completion |
| `Reviewer.ReportsInOrder` | labs/protocols/phase9_a2a.py:159-246 | over every run each coroutine's own updates are a prefix of submitted, working, artifact, completed, as far as its position says; a cancel reports once at most |
| `Reviewer.CanFinish` | labs/protocols/phase9_a2a.py:159-246 | from every reachable state all coroutines can be run to their ends: no deadlock |
| `Reviewer.RunsEnd` | labs/protocols/phase9_a2a.py:159-246 | without new coroutines every run is bounded by the steps left |
| `Reviewer.TerminalStands` | labs/protocols/phase9_a2a.py:236-245 | a written terminal state never changes |
| `Reviewer.ExactlyOneTerminalUpdate` | labs/protocols/phase9_a2a.py:159-246 | when all are through unkilled there is exactly one; after completion every cancel raised, after cancellation every cancel reported or kept silent |
| `Reviewer.LateKillReportsTwice` | labs/protocols/phase9_a2a.py:220-222 | a kill between completion and the terminal state yields both updates |
| `RouteGraph.CountEdges` | labs/protocols/phase9_anp.py:263-264 | the total is the number of edges |
| `RouteGraph.Search.Visit` | labs/protocols/phase9_anp.py:269-278 | a node is visited with everything it reaches, or a cycle exists; terminates on unvisited nodes, targets that are no keys included |
| `RouteGraph.OrderedAcyclic` | labs/protocols/phase9_anp.py:269-281 | a finishing order in which targets come first rules out every cycle |
| `RouteGraph.AcyclicRoutes` | labs/protocols/phase9_anp.py:259-281 | accepts if and only if at most 64 sources, at most 128 edges and no directed cycle |
| `RouteSelection.Candidates` | labs/protocols/phase9_anp.py:224-234 | exactly the compatible descriptors, sorted |
| `RouteSelection.SelectRoute` | labs/protocols/phase9_anp.py:208-250 | a route exactly when it is the unique least among those that serve the request, first by number of scopes and then of tools; ambiguity exactly on a tie at the minimum, no route exactly when none serves; serving is stated on the descriptor's own fields, with permissions between required and allowed |
| `RouteSelection.OrderIrrelevant` | labs/protocols/phase9_anp.py:221-250 | every permutation of the descriptors gives the same outcome |
| `Durable.DurableRun.Drain` | labs/p2p_orchestration/phase10_comparison.py:294-309 | the fixpoint completes exactly as far as the delivered actions reach |
| `Durable.DurableRun.Deliver` | labs/p2p_orchestration/phase10_comparison.py:355-369 | one event: first, duplicate or restart |
| `Durable.RunDurable` | labs/p2p_orchestration/phase10_comparison.py:348-391 | for every event sequence the longest delivered prefix is completed, each action written once, duplicates + distinct actions = wake-ups; success exactly when the chain and nothing else was delivered |
| `Durable.ReachUnique` | labs/p2p_orchestration/phase10_comparison.py:294-309 | that prefix is unique |
| `Durable.DeliveryOrderIrrelevant` | labs/p2p_orchestration/phase10_comparison.py:348-371 | runs that deliver the same actions complete the same steps |
| `Durable.PermutationDeliversSame` | labs/p2p_orchestration/phase10_comparison.py:348-371 | reordering, repeating and inserting restarts delivers the same actions |
| `Durable.RunSingleAgent` | labs/p2p_orchestration/phase10_comparison.py:312-345 | the violations are the repeated actions plus those before their predecessor; none if and only if the events name the chain in order without repetition |
| `Durable.HowManyIsSize` | labs/p2p_orchestration/phase10_comparison.py:320-326 | the count of violations is the size of the set of violating positions |
| `VersionPointer.Lab.WriteSelection` | labs/self_improvement/candidates.py:135-153 | a receipt is written once, or not at all |
| `VersionPointer.Lab.ActivateSelection` | labs/self_improvement/candidates.py:205-228 | the pointer moves if and only if both versions still have the contents the receipt names, it is nowhere or at the previous one at that content, and storage holds; then it names the selected version, and the chain of activations grows by one |
| `VersionPointer.Lab.ApplySelection` | labs/self_improvement/candidates.py:231-239 | its error, exactly; receipt and pointer together, or neither; only a kill in between leaves a receipt |
| `VersionPointer.Lab.SelectVersion` | labs/self_improvement/candidates.py:231-305 | its error, exactly, from versions, evidence, receipts and pointer; a successful selection adds one receipt and points at it with the content it found |
| `VersionPointer.Lab.RollbackSelection` | labs/self_improvement/candidates.py:308-335 | its error, exactly; a new receipt leads back to the previous version at its content; a rollback is not rolled back |
| `VersionPointer.ChainGrows` | labs/self_improvement/candidates.py:215-218 | compare-and-swap keeps receipts chained previous to selected |
| `VersionPointer.Drive` | labs/self_improvement/candidates.py:135-335 | over every run with failures and changed contents receipts never change and the pointer is backed by a receipt of its version and content |
| `VersionPointer.SelectThenRollback` | labs/self_improvement/candidates.py:308-335 | succeeds if and only if both versions are known, both receipts well formed and new and the pointer is at the previous version at its content or nowhere; then it restores exactly the version and content the pointer had |
| `VersionPointer.RepeatRefused` | labs/self_improvement/candidates.py:286-296 | the same versions, evidence and contents are refused a second time whatever action and reason |
| `StageGate.StageAudit.Fail` | labs/self_improvement/stage.py:75-78 | findings accumulate and are blocking or not |
| `StageGate.CheckLiveMatrix` | labs/self_improvement/stage.py:447-538 | blocks exactly on a live record of another plan, a faulty record or a repeated trial, is incomplete exactly on a missing one; returns exactly the split's keys |
| `StageGate.CheckTrial` | labs/self_improvement/stage.py:476-530 | one record: blocks exactly if it is unsound or its trial was there before, and adds no incompleteness |
| `StageGate.CheckLedger` | labs/self_improvement/stage.py:541-553 | blocks exactly if the ledger does not hold the expected keys, all recorded |
| `StageGate.CheckBudget` | labs/self_improvement/stage_completion.py:33-44 | blocks exactly if there are more than 1,200 calls or not one distinct key for each |
| `StageGate.CheckMethodSelection` | labs/self_improvement/stage.py:400-444 | never blocks; incomplete exactly if a required method is not planned or no dev method is selected by plan or supplement |
| `StageGate.TestMethodsOk` | labs/self_improvement/contracts.py:303-324 | the effective test methods are distinct and known |
| `StageGate.VerifyStage` | labs/self_improvement/stage.py:556-636 | passes if and only if every modelled check is in order and nothing else was found; blocked if and only if there is a live record of another plan, a faulty or repeated trial, a ledger or budget violation or another blocking finding; incomplete if and only if none of these and a trial, a method, a selection or something else is missing |
| `StageGate.PassBindsRecords` | labs/self_improvement/stage.py:476-530 | after a pass every counted record is bound to plan, model, code, dataset, its candidate's content and boundary, with one distinct key per call |
| `StageGate.CaseFound` | labs/self_improvement/stage.py:381-385 | which case a record stands for: the one it names, else the longest its identifier ends with |
| `StageGate.MatrixCalls` | labs/self_improvement/stage.py:502-512 | a clean matrix makes at most 24 calls per case, and at least 21 when it has all five methods |
| `StageGate.KeysSplit` | labs/self_improvement/stage.py:457-463 | the matrices share out the keys of the live records |
| `StageGate.LedgerIsTheCalls` | labs/self_improvement/stage.py:541-553 | after a pass, dev and test keys are pairwise distinct, are the ledger's key set, all recorded, and as many as the calls |
| `StageGate.PassMeansExactCoverage` | labs/self_improvement/stage.py:447-538 | after a pass each trial of methods × 3 repeats × cases occurs exactly once in each split; 21 to 24 dev calls per case, hence at most 1,152 for 24 + 24 cases |
| `StageGate.AllLiveKeysInLedgerIff` | labs/self_improvement/stage.py:457-463 | after a pass every live key is in the ledger if and only if no live training record lists one |
| `StageGate.TrainingRecordUnnoticed` | labs/self_improvement/stage.py:457-463 | adding such a record to passing evidence still passes |
| `Patterns.Flow.Consult` | labs/agent_patterns/phase9_patterns.py:447-475 | a planner turn: call budget, recorded call, parse, digest binding, trace, candidate |
| `Patterns.Flow.ConsultReviewer` | labs/agent_patterns/phase9_patterns.py:477-504 | a reviewer turn, likewise |
| `Patterns.Flow.Close` | labs/agent_patterns/phase9_patterns.py:536-595 | flags, counts and summed usage of an outcome; the trace ends with its stop |
| `Patterns.RunBoundedFlow` | labs/agent_patterns/phase9_patterns.py:717-746 | for every router and role behaviour the verdict that the answers call for, raised exactly on a RuntimeError; handoffs as the router counts them |
| `Patterns.RunExplicitGraph` | labs/agent_patterns/phase9_patterns.py:758-925 | the graph machine refines the same conversation, before each node the rest of it is still ahead, and gives the verdict that the answers call for |
| `Patterns.RunAllPatterns` | labs/agent_patterns/phase9_patterns.py:928-937 | all five agree on stop, text, flags, revisions, usage, calls and the talk of the roles if and only if no role asked raises a RuntimeError |
| `Patterns.FaultedIffAsked` | labs/agent_patterns/phase9_patterns.py:741-746 | that condition, read off the answers of the roles that are asked |
| `Patterns.VerdictHolds` | labs/agent_patterns/phase9_patterns.py:510-534 | at most three calls and one revision; every run recovers, validated or in the safe fallback and never both; read off the trace alone: one decision at most, REVIEW_REJECTED exactly on a reject, REVIEW_ESCALATED exactly on an escalation, a revision exactly when asked, ACCEPTED only on an accept, a validated text or the deterministic fallback only on an accept or a revision, without a decision the run is broken |
| `Patterns.VerdictByAnswers` | labs/agent_patterns/phase9_patterns.py:717-746 | for all role behaviours the verdict's stop, text, calls, usage, revisions and trace, read off the answers given along the way |
| `Patterns.UsageAddsUp` | labs/agent_patterns/phase9_patterns.py:536-560 | the usage of a run is the sum over its calls, figure by figure |
| `Patterns.ValidatedTextIsPlanned` | labs/agent_patterns/phase9_patterns.py:617-631 | a validated text is the explanation of the last planner turn, the revision if there was one, as the validator let it through, bound to the case digest |
| `Patterns.RecordedCases` | labs/agent_patterns/phase9_patterns.py:330-395 | with the recorded roles the patterns always agree; a failure stops after one call, a loop attack after three |
| `WeightPrinter.ParseTokens` | labs/self_improvement/training.py:171-197 | the compact token stream of any value parses back to it, whatever follows |
| `WeightPrinter.LexConcat` | labs/self_improvement/training.py:171-197 | text that lexes by itself lexes in front of anything no word runs into, which is what joining lines and adding commas rely on |
| `WeightPrinter.ArrayMarks` | labs/self_improvement/training.py:171-197 | the tokens of arrays: brackets and a comma between items |
| `WeightPrinter.ObjectMarks` | labs/self_improvement/training.py:171-197 | the tokens of objects: braces, colons and commas |
| `WeightPrinter.DumpFlat` | labs/self_improvement/training.py:185-187 | a flat array on one line has its value's tokens |
| `WeightPrinter.RenderWeightJson` | labs/self_improvement/training.py:171-197 | the lines of any nested value lex to its compact token stream, commas included, each indented by its depth; an array takes one line if and only if it is flat |
| `WeightPrinter.SaveWeights` | labs/self_improvement/training.py:200-206 | the written text reads back as the value |
| `Training.TrainEarlyStopping` | labs/self_improvement/training.py:403-433 | keeps the first minimum, non-finite losses included, and stops exactly at the first run of `patience` epochs without improvement |
| `Training.DiscountedFromFront` | labs/self_improvement/training.py:623-628 | the closed-form sum obeys the backward recurrence |
| `Training.DiscountedReturns` | labs/self_improvement/training.py:623-628 | every step gets the sum of g^k times the rewards from it on |
| `Training.SelectCheckpoint` | labs/self_improvement/training.py:648-673 | no checkpoint beats the chosen one on safety, success and steps, and every earlier one is worse |
| `Training.ChosenUnique` | labs/self_improvement/training.py:666-671 | there is only one such checkpoint |
| `Bootstrap.GroupBy` | labs/self_improvement/evaluation.py:1106-1111 | each group's outcomes, in order |
| `Bootstrap.CountsRecords` | labs/self_improvement/evaluation.py:1106-1120 | a group's outcomes count its records, and the passing ones among them |
| `Bootstrap.DeltaIsDifference` | labs/self_improvement/evaluation.py:1112-1120 | a paired group's delta is the difference in passing records over the repeats, so its sign says which side passes more often |
| `Bootstrap.SortDraws` | labs/self_improvement/evaluation.py:1125-1125 | sorted, and a rearrangement with every threshold count kept |
| `Bootstrap.IndicesInRange` | labs/self_improvement/evaluation.py:1126-1127 | both quantile indices are in range and in order, and are a fortieth and thirty-nine fortieths of the samples rounded down, for every sample count of at least 100 |
| `Bootstrap.Summarise` | labs/self_improvement/evaluation.py:1123-1135 | for every sequence of random choices the interval lies within any bounds of the deltas, at most one draw in forty is below it and more than thirty-nine in forty are up to its upper end |
| `Bootstrap.GroupedBootstrap` | labs/self_improvement/evaluation.py:1084-1135 | the three errors, exactly; otherwise each common group counts once, and IMPROVED only if a passes more often than b in some common group and always if it does in all of them, REGRESSED likewise the other way round, counted on the records |
| `Bootstrap.ConclusionFair` | labs/self_improvement/evaluation.py:1106-1134 | the conclusion never goes against all groups, and follows them when they all move one way |
| `Bootstrap.ResampleExtremes` | labs/self_improvement/evaluation.py:1124-1124 | drawing every group once gives their mean, drawing one of them all the time gives its delta |
| `Bootstrap.IntervalBetweenGroups` | labs/self_improvement/evaluation.py:1115-1134 | the interval lies between two group deltas within [-1, 1]; IMPROVED only if some group improved, REGRESSED only if one regressed |
| `Bootstrap.ConclusionCoversDraws` | labs/self_improvement/evaluation.py:1128-1134 | an improvement holds in all but one draw in forty |
| `Bootstrap.EqualDeltasCollapse` | labs/self_improvement/evaluation.py:1118-1128 | equal deltas collapse the interval to the mean |

## Left out

- Two live commands at once on one ledger: sessions follow one another; the repository has no lock between them.
- Torn writes, symbolic links, path checks, JSON encoding of ledger lines and record files, file permissions.
- SHA-256, git revision checks and code-version compatibility: digests are opaque values.
- Timestamps, elapsed times, prompt wording, token usage of live calls; failure codes are taken to fit the record's 120 characters.
- Whether a provider can be configured, and the filter for a single case: the command starts once it has its provider and cases.
- Records written before key lists were stored, which fall back to a single key.
- Ledger-less budgets and the default key a call gets without a name: the live command never uses them.
- A2A: other tasks, the bounded task store, failing enqueues, HTTP handlers; the two registry tables are those of one task.
- Descriptor and request validators of ANP, and the recursion limit of the interpreter.
- The real-provider branch of the purchase-to-pay comparison, with its latency and cost figures.
- Stage checks on audit, training, weights, rollback, held-out bootstrap, rewards, review and harness: their findings enter `StageGate.VerifyStage` as given.
- Ranking of methods on dev metrics when a supplement is built: the supplement is given or missing.
- Patterns: rubric counters computed from the final text, projection digests, case loading, aggregation and reports; `validate_explanation` is taken as total, and LangGraph as a machine that runs one node at a time.
- How `json.dumps` spells numbers and escapes strings: a scalar is any string or word lexeme.
- PyTorch numerics, time limits and the optimiser: losses and metrics are given.
- Float rounding, in scores, sums, deltas and quantile indices alike.
- `synora_agentic_erp`, `services`, `labs/web_gui`, `labs/workflow_comparison`, MCP and smolagents laboratories, reports: no part of this model.
