# Tvashtr: a verified model of its durable core

Tvashtr runs teams of agents as durable workflows. Steps are executed at least once, processes die
anywhere, several writers and sweeps work on the same tables and directories, and the promises the
system makes are about what is left in the end: every round billed once, one ship, no lost
deliverable, no account taken by a guessed code, a snapshot that reads back as it was written. This
project models the code that carries those promises and proves them, for every input, every
interleaving and every schedule of crashes.

`dafny verify dfyconfig.toml` checks everything. Nothing here was executed; every statement below is
a proof about the model.

## How it is laid out

| files | what they model |
|---|---|
| `TeamGraph`, `RunTables`, `RunWalk` | routing over a team's edges; the durable tables and each step body as a list of single transactions; the walk of `run_graph` as a program over step outputs |
| `CrashReplay` | durable execution itself: checkpoints, crashes between any two effects, replay; crash refinement |
| `WalkTables`, `ExactlyOnce` | what the tables of a walk hold at every moment and at the end |
| `WalkSentence`, `WalkLog` | a grammar of walk logs, written from the graph and the records alone: which step may follow which, and how a run may end; every log of every schedule is such a sentence |
| `LogTables`, `Executions` | the tables as the log tells them; what executions answered, left in the workspace and which process made them |
| `HumanAnswers` | what a human's answer decides: the question of an overspent run, a rejected gate |
| `ReviewLoop`, `ReviewLoopFinish`, `LoopCrashCheck` | the PM, Engineer, Reviewer team under forced revisions, its exact outcome under any crashes, that it can always be finished, and the script that checks it |
| `Metering`, `LedgerRace` | the cost ledger, one caller at a time and then any number racing |
| `WorkspaceReaper` | persist, then reap: ships, snapshots, teardown and sweeps interleaved |
| `Accounts`, `AccountRules` | registration, login, GitHub find-or-link, installations; the rules they follow, read off the rows |
| `Callbacks`, `CallbackPages` | the three callback doors; the rows, pages and cookies of every answer, and sessions over whole runs |
| `PatchReader`, `PatchRoundTrip` | the two readers of a stored patch, in Python and in TypeScript |
| `JsonText`, `Snapshot`, `SnapshotText`, `RegistryRefresh` | the connector snapshot: build, print, parse, diff, crawl |
| `Seed`, `SeedRules`, `FixtureSweep`, `RetryEnvelope` | the operator seed and what it reads and writes, the timed sweep of stale runs, the retry arithmetic |
| `Common`, `PythonText` | `Option`; white space and `strip` |

Code that changes rows, files or cookies in place is a class whose methods are proved equal to a
function of the old state (`CostLedger`, `WorkspaceRoot`, `AccountStore`, `CookieJar`,
`SnapshotFile`, `Database`, `RunTable`, `Check`); the properties are then lemmas about that function
over whole histories.

## What turned out differently

* `scripts/check_loop_crash.py` compares against 3 `agent-cost` rows, 1 `pm-llm` row and more than 3
  attempts. The entry node now meters as an agent, so the counts are 4 and 0 and an undisturbed run
  already has 4 attempts: with any count of `agent-cost` rows but 4 the script accepts no run, whatever
  the other constants (`ScriptedCountsAreStale`). `AcceptsIff` says for all constants what it accepts;
  with 4, 0 and "more than 4" that is exactly the runs in which a crash lost an attempt, given the
  recorded processes (`UnifiedCheckDetectsTheCrash`).
* Both patch readers take a content line that begins with `++` for a header and drop it, although the
  documentation calls the reconstruction exact. Capturing git's output in text mode turns carriage
  returns into line feeds before anything is stored, and Python cuts at nine more characters than
  TypeScript. The exact conditions are `PythonRoundTripIff`, `ScriptRoundTripIff` and `ReadersAgree`;
  `DoublePlusIsLost` and `FormFeedDivides` are inputs on which they fail.
* A gate answered late, after its run was cancelled, sets the run back to running. A sweep that had
  already decided on the directory then takes the workspace of a run that reads as live
  (`LateWriteCanLoseWorkspace`). A run in flight keeps its workspace exactly when no gate write sets it
  running again while its directory is decided on or gone (`InFlightKeptIff`), and a deliverable is
  never lost either way (`DeliverableNeverLost`).
* The seed counts a variable holding only white space as set: it stores an empty key and hides a
  second name that holds a real one (`ImportsTheKeyIff`, `BlankShadows`).
* A GitHub identity that no account has, presenting the address of an account that already has another
  identity, takes that account over (`TakeOverHappens`); `IdentityKeptIff` says this is the only way.

## Model

| member | source | states |
|---|---|---|
| TeamGraph.NextNodeFollowsChosen | backend/tvashtr/control_plane/team_run.py:603-632 | the walk goes where the first edge naming the outcome leads, else the first catch-all; conditions are declarative: the chosen edge is characterised by position |
| TeamGraph.NextNodeLost | backend/tvashtr/control_plane/team_run.py:603-632 | it has nowhere to go exactly when no routing edge names the outcome and none is a catch-all |
| TeamGraph.RoutingSkipsEscapeEdges | backend/tvashtr/control_plane/team_run.py:603-659 | inserting escalation or failure edges anywhere never changes where an outcome leads |
| TeamGraph.EscalationAt | backend/tvashtr/control_plane/team_run.py:635-650 | a node escapes by its first escalation edge and by no other kind |
| TeamGraph.FailureAt | backend/tvashtr/control_plane/team_run.py:653-659 | a failed node continues by its first failure edge and by no other kind |
| TeamGraph.LimitAt | backend/tvashtr/control_plane/team_run.py:680-689 | the cap of a node is the first limit an edge into it carries, else the default |
| TeamGraph.EmitsIff | backend/tvashtr/control_plane/team_run.py:692-710 | a node branches exactly when one of its non-escalation edges names an outcome |
| CrashReplay.Absorb | backend/tvashtr/control_plane/invocations.py:29-112 | running an effect again over everything earlier executions left is one execution with merged answers: the first commit's hash stays, the latest workspace change and snapshot replace earlier ones, and nothing else durable changes but the attempt log |
| CrashReplay.AbsorbShip | backend/tvashtr/control_plane/shipping.py:119-162 | the same for the ship step, whose commit, tag, run row and snapshot are four separate effects a crash may fall between |
| CrashReplay.AsksOneStep | backend/tvashtr/control_plane/team_run.py:2629-3389 | the workflow body is deterministic: a log of step outputs has at most one next step |
| CrashReplay.ReplayMeetsItsRecord | backend/tvashtr/control_plane/team_run.py:2629-3389 | after any crashes, wherever a replay stands inside the log it asks for exactly the step recorded there |
| CrashReplay.CrashRefinement | scripts/check_loop_crash.py:14-25 | after every schedule of effects, checkpoints and crashes the log and the durable tables are those of a run without crashes, plus a prefix of its next step |
| CrashReplay.EndedRunIsCrashFree | scripts/check_loop_crash.py:14-25 | a run that has ended, whatever crashed, left exactly the tables a crash-free run leaves |
| CrashReplay.AttemptsAccounted | backend/tvashtr/models.py:797-810 | the non-idempotent attempt rows number the recorded agent executions, plus the ones a crash hit after their row, plus the one in flight |
| CrashReplay.NeverStuck | backend/tvashtr/control_plane/team_run.py:2629-3389 | until the walk ends some event other than a crash always makes progress |
| CrashReplay.SnapshotKept | backend/tvashtr/control_plane/team_run.py:2035-2113 | after any schedule the run has a snapshot exactly when some execution of its tagged ship step wrote one, and it is the one written last |
| WalkTables.RowKeys | backend/tvashtr/models.py:813-859 | a walk's invocation rows are, for each node, the iterations 1 to k and no other |
| WalkTables.CostsUnique | backend/tvashtr/control_plane/team_run.py:1310-1352 | a numbered walk has at most one cost row per node and iteration |
| WalkTables.ShipWhole | backend/tvashtr/control_plane/team_run.py:2035-2113 | a whole ship step leaves at most one ship commit, and the tag, its commit on the run row and the snapshot agree |
| WalkTables.ShipTagsHead | backend/tvashtr/control_plane/shipping.py:119-161 | the tag names the new commit of what was left uncommitted, or the commit HEAD already was |
| WalkTables.CallGood | backend/tvashtr/control_plane/team_run.py:2629-3389 | every step of the walk keeps its bookkeeping and the tables in agreement: rows, costs, open questions, run status, repository |
| ExactlyOnce.GoodAlong | backend/tvashtr/control_plane/team_run.py:2629-3389 | that agreement holds at every point of every crash-free run |
| ExactlyOnce.NeverBilledTwice | backend/tvashtr/control_plane/team_run.py:1310-1352 | no schedule of crashes and re-executions ever bills one round twice, for any workflow program |
| ExactlyOnce.AlwaysSafe | backend/tvashtr/control_plane/team_run.py:2629-3389 | at every moment of every schedule rounds are numbered without gaps, no capped worker exceeds its limit, no round is billed twice, at most one ship commit exists |
| ExactlyOnce.EndedRunIsExact | backend/tvashtr/control_plane/team_run.py:2164-2223 | an ended run has exactly one row per round, closed unless it is the ship that was refused, and one cost row per paying round; unless the walk raised its status and total are final, the total the sum of the cost rows; no question is open; it has shipped iff it completed, and then any ship commit is the tagged one |
| WalkLog.LogIsWellFormed | backend/tvashtr/control_plane/team_run.py:2629-3389 | over any graph, cap and schedule every recorded step is one that may follow the records before it: a round is opened where the last outcome, answer, failure path or used-up agent's escalation sends the walk, numbered one more than the node's rounds on record, and each kind of record has the successors the workflow gives it |
| WalkLog.EndIsWellFormed | backend/tvashtr/control_plane/team_run.py:2629-3389 | a run ended as the last records say: completed after a closed ship, rejected after a closed stop, over budget after that final write, failed after being marked so, refused after a ship with no tag, raised only at a node the graph does not have |
| LogTables.HistoryTells | backend/tvashtr/control_plane/invocations.py:29-112 | the rows of a crash-free run are those its log tells: rows exist exactly for opened rounds, asked questions and recorded specifications, stored answers and costs are recorded ones, the override, the document and the status follow from the records, and the spend is the first price recorded for each round |
| LogTables.EndedTablesAreTold | backend/tvashtr/control_plane/invocations.py:29-112 | so are the rows of every ended run, whatever crashed |
| HumanAnswers.RejectedOverspendStops | backend/tvashtr/control_plane/team_run.py:2496-2554 | once the log answers a budget question with rejected, said by the harness or a human or written, an ended run is over budget and has shipped nothing |
| HumanAnswers.ApprovedOverspendAsksNoMore | backend/tvashtr/control_plane/team_run.py:2508-2540 | after an approved one the override follows, and at no later moment of any schedule is another budget question on record |
| HumanAnswers.ApprovedOverspendIsOverridden | backend/tvashtr/control_plane/budget.py:51-60 | and the ended run carries the override |
| HumanAnswers.OverrideStands | backend/tvashtr/control_plane/budget.py:51-60 | the override holds at every moment after it is on record, inside a step body too |
| HumanAnswers.CheckIsExact | backend/tvashtr/control_plane/budget.py:28-48 | a recorded budget check says over exactly when a cap is set, no override is on record before it and the spending on record exceeds the cap |
| HumanAnswers.OverBudgetIsAnswered | backend/tvashtr/control_plane/team_run.py:2543-2554 | a run ends over budget only after a rejected overspend or an agent that was cut off |
| HumanAnswers.RejectedGateStops | backend/tvashtr/control_plane/team_run.py:3247-3362 | a gate whose rejected edge leads to a stop: once the log answers it with rejected, an ended run is rejected and has shipped nothing |
| HumanAnswers.RejectedTeamRunStops | backend/tvashtr/control_plane/teams.py:705-905 | in the shipped team this holds of the specification gate and of the escalation gate |
| Executions.RecordsRepeat | backend/tvashtr/control_plane/team_run.py:2629-3389 | a record repeats what its execution met: the agent's status, usage and report, its verdict only if asked for and completed, the harness's and the human's answers |
| Executions.RepoBeforeShip | backend/tvashtr/control_plane/shipping.py:119-161 | before the ship the repository is what the agents left last, without a tag or a ship commit |
| Executions.ShipAnswers | backend/tvashtr/control_plane/shipping.py:119-161 | the first ship answers nothing when the agents left nothing, their own last commit when they committed, else the new commit |
| Executions.CrashDividesAttempts | backend/tvashtr/models.py:797-810 | a crash divides the attempt rows: those before it are by processes up to the one that died, all later ones by later processes |
| ReviewLoop.TeamIsLoop | backend/tvashtr/control_plane/teams.py:705-905 | the shipped team template routes PM, gate, Engineer, Reviewer, ship with a capped loop back and an escalation |
| ReviewLoop.OnScriptAlong | backend/tvashtr/control_plane/team_run.py:1433-1457 | a crash-free run under forced revisions is at every point where the script puts it, with one attempt per agent round |
| ReviewLoop.ReviewLoopOutcome | scripts/check_loop_crash.py:173-225 | for every revision count and cap and every schedule of crashes, an ended loop has Engineer and Reviewer iterations 1 to N+1 done (cut at the cap, then by the escalation gate), the scripted verdicts, one cost row per agent round that spends, one tag, the snapshot written last if one was, and attempts equal to those rounds plus lost ones; or it had nothing to ship |
| ReviewLoop.ReviewLoopIsBounded | scripts/check_loop_crash.py:14-25 | its log is bounded by a function of the script alone: crashes never make the run longer |
| ReviewLoopFinish.ReviewLoopCanFinish | scripts/check_loop_crash.py:14-25 | from every state a scripted schedule reaches, crashes included, some crash-free continuation on the script ends the run |
| ReviewLoopFinish.NextIsCloser | backend/tvashtr/control_plane/team_run.py:2629-3389 | the natural next event always lowers a measure: records to come, then replay, effects and local moves |
| LoopCrashCheck.Check.RunCheck | scripts/check_loop_crash.py:59-233 | the script's failure flag is set exactly when some comparison fails |
| LoopCrashCheck.AcceptsMeans | scripts/check_loop_crash.py:59-233 | the script's comparisons one by one, in the rows' iterations, statuses and outcomes and the pids |
| LoopCrashCheck.AcceptsIff | scripts/check_loop_crash.py:59-233 | for any constants and any ended run of the loop: four plus lost attempts, and acceptance exactly when the constants say four agent rows, the pm-llm rows read and fewer attempts, and the snapshot, the line and the two processes are there |
| LoopCrashCheck.ScriptedCountsAreStale | scripts/check_loop_crash.py:38-44 | an ended run has one agent-cost row more than the script expects; with any other count than four, and so with its written constants, the script accepts no ended run, whatever its pm-llm rows |
| LoopCrashCheck.UnifiedCheckDetectsTheCrash | scripts/loop_run.py:351-364 | with the current counts it accepts an ended run exactly when the snapshot row and line are there, a crash lost at least one attempt, and first and last attempts are by the two named processes |
| LoopCrashCheck.ScriptedAttemptCountMissesNothingLost | scripts/check_loop_crash.py:40-42 | a run that lost nothing already has more attempts than the script's no-crash count |
| Metering.CostLedger.InsertRow | backend/tvashtr/metering.py:47-76 | one writer call inserts a row or returns the one already there, and keeps keys unique |
| Metering.CostLedger.RecordCost | backend/tvashtr/metering.py:36-76 | the completion writer: with a new key and a storable cost it appends one row with the key, workflow, models and token counts given, no invocation and the cost to the nearest micro-dollar; with a known key it returns that row; else it fails and writes nothing |
| Metering.CostLedger.RecordAgentCost | backend/tvashtr/metering.py:79-127 | the agent writer: the same, column by column, with the invocation given and the one model in both columns |
| Metering.CostLedger.RecordEmbeddingCost | backend/tvashtr/metering.py:130-175 | the embedding writer: the same, column by column, with no completion tokens and no invocation |
| Metering.LedgerKeys | backend/tvashtr/metering.py:36-175 | a key is in the table iff some call of it could be stored |
| Metering.FitsIff | backend/tvashtr/models.py:94 | the column takes a cost exactly when it rounds to less than a million dollars either way |
| Metering.MicrosNearest | backend/tvashtr/models.py:94 | what is stored is the nearest micro-dollar, halves away from zero, and nothing else is |
| Metering.LedgerCarries | backend/tvashtr/metering.py:36-175 | every row holds, column by column, the values of the call that first wrote its key |
| Metering.LedgerUnique | backend/tvashtr/models.py:68-97 | keys stay unique over every history of calls |
| Metering.SpendIsFirstWrites | backend/tvashtr/metering.py:18-33 | a run's total is the sum over distinct keys of the cost written first, by whichever writer, where that call belongs to the run |
| Metering.RetryReturnsTheFirst | backend/tvashtr/metering.py:36-175 | any later retry of a key, with any numbers, returns the first row and changes nothing |
| Metering.SpendNeverFalls | backend/tvashtr/metering.py:18-33 | with costs that are not negative the total never falls, so a breach once seen stays; rows of no workflow never count |
| Metering.SpendRounding | backend/tvashtr/models.py:94 | the total is off the unrounded spend by at most half a micro-dollar per counted row |
| LedgerRace.RaceIsExactlyOnce | backend/tvashtr/metering.py:47-76 | any number of racing callers of any writers, in any interleaving, with deaths anywhere: at most one committed row per key, it holds column by column the values of a caller that returned it, every caller that returns gets it, the final raise is unreachable |
| LedgerRace.SurvivorReturns | backend/tvashtr/metering.py:47-76 | a caller that is not killed and whose cost can be stored ends with a committed row of its key |
| LedgerRace.StepConsistent | backend/tvashtr/metering.py:96-127 | every single move of a race keeps the invariant behind that: what each writer has seen, holds or returned |
| LedgerRace.SomeoneMoves | backend/tvashtr/db.py:50-61 | while a caller is unfinished some caller can step |
| LedgerRace.RaceEnds | backend/tvashtr/metering.py:146-175 | every effective move uses up part of a fixed budget, so a race ends |
| LedgerRace.RaceIsSequential | backend/tvashtr/metering.py:36-175 | every interleaving leaves what some of its calls, made one after another, leave |
| LedgerRace.RaceSpend | backend/tvashtr/metering.py:18-33 | after a race a run's total is the first committed cost of each key, and a returned call got what a later call would still get |
| WorkspaceReaper.WorkspaceRoot.DeleteRunWorkspace | backend/tvashtr/control_plane/workspace_reaper.py:214-261 | run-end teardown removes exactly this run's directory, and only when its row exists and it is not spared |
| WorkspaceReaper.WorkspaceRoot.Sweep | backend/tvashtr/control_plane/workspace_reaper.py:264-307 | the sweep removes every directory not spared, except those that cannot be removed, and counts them |
| WorkspaceReaper.QuietSweep | backend/tvashtr/control_plane/workspace_reaper.py:264-307 | from any moment of any schedule with nothing decided, deciding and then removing in any order leaves what the sweep on disk leaves, and the same database |
| WorkspaceReaper.QuietSweepLeaves | scripts/workspace_gc_check.py:14-45 | after such a sweep exactly the in-flight runs' and the un-persisted finished greenfield runs' directories remain, as they were; a shipped greenfield run whose directory went has its diff in the database; a second sweep finds nothing |
| WorkspaceReaper.QuietSweepClearsStrays | backend/tvashtr/control_plane/workspace_reaper.py:264-307 | directories of no known run go, what is no directory stays |
| WorkspaceReaper.SparedIff | backend/tvashtr/control_plane/workspace_reaper.py:136-197 | a name is spared exactly as a run in flight, or as the only copy of a finished greenfield run that is no trial of a live compare |
| WorkspaceReaper.TeardownDecides | backend/tvashtr/control_plane/workspace_reaper.py:214-261 | a teardown decides on the directory of a finished run with a row and no reason to spare it, and on nothing else |
| WorkspaceReaper.SnapshotsAreGreenfield | backend/tvashtr/control_plane/team_run.py:2035-2084 | over every schedule only greenfield runs have a snapshot |
| WorkspaceReaper.StoppedRunIsStill | backend/tvashtr/control_plane/workspace_reaper.py:136-197 | once its workflow is stopped a run's row moves only by a cancel or its deletion, its snapshot only by its deletion |
| WorkspaceReaper.GateFixtures | scripts/workspace_gc_check.py:199-232 | any number of the gate's five kinds of fixture, planted by events after any schedule, then swept once in any order: exactly the un-persisted and the parked stay, and everything that was there before stays exactly if it was spared before |
| WorkspaceReaper.DeliverableNeverLost | backend/tvashtr/models.py:1363-1387 | in every interleaving of ships, snapshots, failed snapshots, re-ships, crashes, teardown and non-atomic sweeps a shipped greenfield run has its workspace or an artifact row with its diff |
| WorkspaceReaper.InFlightKeptIff | backend/tvashtr/control_plane/workspace_reaper.py:136-197 | a pending, running or awaiting run keeps its workspace, undecided on, at every moment of a schedule exactly when no gate write sets it running again while nothing of it is shipped and its directory is decided on or gone |
| WorkspaceReaper.InFlightKeepsWorkspace | backend/tvashtr/control_plane/workspace_reaper.py:136-197 | in particular when no gate write of the run lands late |
| WorkspaceReaper.LateWriteCanLoseWorkspace | backend/tvashtr/control_plane/gates.py:108-132 | a concrete run in which such a late write lets an earlier sweep decision take a live run's workspace |
| Accounts.AccountStore.RegisterAccount | backend/tvashtr/auth.py:191-207 | registration refuses a bad address, a short password, a taken address, in that order, else appends one hashed account |
| AccountRules.RegisterRule | backend/tvashtr/auth.py:191-207 | the answer is a refusal exactly for an address without an at sign or fewer than eight characters of password, or a taken address; else one row is added with the stored form of the address, the hash and no identity |
| AccountRules.LoginRule | backend/tvashtr/auth.py:211-222 | a password signs in to exactly the account of that address whose hash is of it |
| Accounts.AccountStore.CompleteGithubSignIn | backend/tvashtr/auth.py:524-562 | the sign-in transaction, in place: the accounts end as `AccountRules.SignInRule` says of the rows, the installations as `Accounts.SignInOverlays` does |
| AccountRules.SignInRule | backend/tvashtr/auth.py:257-288 | over any valid table the answer is the row with the identity, else the row with the presented non-empty address, else the new key; that row afterwards has the identity, its login and the placeholder, its key and address as before, and every other row is unchanged; it fails exactly when a second account without an address would be made |
| AccountRules.PasswordAccountIsLinked | backend/tvashtr/auth.py:269-287 | a password account whose address GitHub reports is the one signed in to, and no password answers for it any more |
| AccountRules.PresentedAddress | backend/tvashtr/auth.py:249-254 | the address is the stored form of the one GitHub reports, else of the login's no-reply address, and so empty only when GitHub reports a blank one |
| Accounts.StoredAlikeIff | backend/tvashtr/auth.py:178-180 | two addresses are stored alike exactly when between their outer spaces they have the same letters in any case |
| Accounts.AccountStore.StoreOneInstallation | backend/tvashtr/auth.py:298-312 | an installation is inserted or re-owned, no other row moves |
| Accounts.AccountInvariant | backend/tvashtr/models.py:901-941 | over every history keys, addresses and GitHub ids stay unique, linked accounts have the placeholder, no account disappears or changes address, each request adds at most one |
| Accounts.ServeKeeps | backend/tvashtr/auth.py:191-288 | every request keeps that invariant and every row |
| Accounts.LinkKeeps | backend/tvashtr/auth.py:257-288 | find-or-link keeps it, and afterwards the identity leads to the account it returned |
| Accounts.NoPasswordLoginAfterLink | backend/tvashtr/auth.py:210-222 | once an account has a GitHub identity no password ever signs in to it again |
| Accounts.RegisterThenLogin | backend/tvashtr/auth.py:178-222 | a fresh account answers to its own password and to any spelling of its address, letter by letter, and to nothing else |
| Accounts.IdentityKeptIff | backend/tvashtr/auth.py:257-288 | a request changes which account an identity leads to exactly when it is a sign-in by another, unlinked identity presenting that account's address |
| Accounts.IdentityIsStable | backend/tvashtr/auth.py:257-288 | once an identity leads to an account every later sign-in with it returns that account, whatever address it presents, unless such a take-over came between |
| Accounts.SignInEstablishesIdentity | backend/tvashtr/auth.py:548-552 | a sign-in's answer is the account the identity leads to from then on |
| Accounts.TakeOverHappens | backend/tvashtr/auth.py:269-288 | a history from empty tables in which a second identity takes over the first one's account and the first one then leads to a new account |
| Accounts.SignInOverlays | backend/tvashtr/auth.py:540-562 | a sign-in overlays the installation table with every listed id, duplicates included; the query-string id makes no difference to who owns what |
| Accounts.InstallationsStayUnique | backend/tvashtr/models.py:1245-1270 | over every history an installation has at most one row |
| Callbacks.CookieJar.AnswerGithub | backend/tvashtr/auth.py:367-437 | the route changes cookies and rows as the specification of its four branches says |
| Callbacks.CookieJar.AnswerWebsite | backend/tvashtr/auth.py:440-481 | the website branch, in place: cookies, rows and page as `Callbacks.SessionChangesIff` and the rules of `CallbackPages` say |
| Callbacks.CookieJar.AnswerDesktop | backend/tvashtr/auth.py:484-521 | the desktop branch and when it clears its flow cookie |
| Callbacks.SessionChangesIff | backend/tvashtr/auth.py:395-437 | a callback makes a browser another account's exactly when the exchange produced that account and it came through one of three doors: young desktop state with matching flow cookie, website nonce equal to the state, allow-listed loopback origin |
| Callbacks.NeverSignedOut | backend/tvashtr/auth.py:367-521 | no callback signs a browser out |
| Callbacks.RowsChangeOnlyByExchange | backend/tvashtr/auth.py:416-437 | rows change only by a completed exchange, for a browser at a door or already signed in |
| CallbackPages.RowsWritten | backend/tvashtr/auth.py:395-562 | a callback writes the rows of the sign-in exactly when a code is exchanged: there is one, and it came through a door or is the plain one of a signed-in browser |
| CallbackPages.DonePages | backend/tvashtr/auth.py:395-521 | when a callback answers not found, the desktop return page, the signed-in page, the plain redirect, a bad request and a server error, each as an equivalence over doors, code and reply |
| CallbackPages.DesktopErrors | backend/tvashtr/auth.py:484-521 | when the desktop page says expired, cancelled and failed |
| CallbackPages.SignInErrors | backend/tvashtr/auth.py:395-481 | when the sign-in page says cancelled, failed and expired |
| CallbackPages.CookiesCleared | backend/tvashtr/auth.py:440-521 | which answers use up the website attempt and the desktop flow |
| CallbackPages.NewSessionIsARow | backend/tvashtr/auth.py:524-562 | an account a callback newly puts in the session is the identity's row in the tables it left |
| CallbackPages.SessionIsARow | backend/tvashtr/auth.py:156-175 | over every run from valid tables they stay valid and the session names an account on record |
| CallbackPages.StartedWebsiteAttemptSignsIn | backend/tvashtr/auth.py:440-481 | an attempt started and finished signs the browser in and writes the sign-in's rows |
| CallbackPages.StartedFlowSignsIn | backend/tvashtr/auth.py:484-521 | and so does a desktop flow |
| CallbackPages.ExpiredAttemptIsDead | backend/tvashtr/auth.py:454-497 | an attempt or flow whose cookie expired signs nobody in until one is started with its nonce again |
| CallbackPages.SignedOutStays | backend/tvashtr/auth.py:225-230 | a browser that signed out has no account until a password or a callback gives it one |
| Callbacks.OnlyOwnAttemptsSignIn | backend/tvashtr/auth.py:395-521 | over every run, whoever writes the query strings, a callback that changes a browser's account finishes an attempt that browser itself started and that stayed open, or comes through the loopback proxy |
| Callbacks.AttemptIsSingleUse | backend/tvashtr/auth.py:454-521 | a used attempt's callback, replayed in any later run that does not redraw its nonce, leaves the browser's account as it is; a desktop replay changes nothing at all, a website replay no rows unless the browser is signed in without an open attempt |
| PatchReader.PythonCutsFiner | scripts/_ship_readback.py:97-101 | Python's lines are TypeScript's lines cut again at the other breaks |
| PatchReader.ReadersAgreeOnPatch | frontend/e2e/_shipReadback.ts:53-57 | the readers agree on a patch exactly when no content line carries a break only Python sees and no dropped line hides content behind one (or all there is is one hidden empty line) |
| PatchReader.FirstEntryDecides | scripts/_ship_readback.py:92-103 | the first entry with the path decides, in both languages |
| PatchReader.ReadersAgree | frontend/e2e/_shipReadback.ts:49-60 | agreement for whole diffs and every path, as an equivalence |
| PatchRoundTrip.PythonRoundTripIff | scripts/_ship_readback.py:81-103 | a shipped file comes back without its final newline exactly when no line starts with two plus signs and it holds no break but line feeds |
| PatchRoundTrip.ScriptRoundTripIff | frontend/e2e/_shipReadback.ts:49-60 | the same for TypeScript, exactly when no line starts so and there is no carriage return |
| PatchRoundTrip.PythonReadsSurviving | backend/tvashtr/control_plane/run_diff.py:35-49 | of a file whose only breaks are line feeds the captured patch yields exactly the lines that do not start with two plus signs |
| PatchRoundTrip.DoublePlusIsLost | scripts/_ship_readback.py:97-102 | a stored one-line file that both readers return empty |
| PatchRoundTrip.FormFeedDivides | frontend/e2e/_shipReadback.ts:53-57 | a patch with a form feed on which the readers differ, and what each returns |
| JsonText.ReadsBack | scripts/refresh_connector_registry.py:79-82 | the compact JSON text of any value, whatever follows it, parses back to that value |
| JsonText.ShowIsOneLine | scripts/refresh_connector_registry.py:85-89 | a raw line feed never occurs inside the text of a value |
| JsonText.EscapeIs | scripts/refresh_connector_registry.py:79-82 | only the quote, the backslash and control characters are escaped, in two or six characters |
| Snapshot.BuildMeetsSpec | scripts/refresh_connector_registry.py:71-76 | the build is strictly sorted, holds a key iff its namespace has at most 20 distinct kept keys, and each entry is the last kept item with its key |
| Snapshot.BuildIsTheOnlySnapshot | scripts/refresh_connector_registry.py:71-76 | that specification leaves no choice |
| Snapshot.LessIff | scripts/refresh_connector_registry.py:71-76 | the order of keys is by code point |
| Snapshot.NamespaceIs | scripts/refresh_connector_registry.py:71-76 | a namespace is what stands before the first slash |
| Snapshot.ReorderChangesNothing | scripts/refresh_connector_registry.py:71-76 | reordering items without swapping two of one key changes nothing |
| SnapshotText.SnapshotRoundTrip | scripts/refresh_connector_registry.py:79-89 | reading a rendered list gives every entry under its key and nothing else, U+2028 included; of two with one key the later |
| SnapshotText.OneLineMore | scripts/refresh_connector_registry.py:85-89 | a line of spaces adds nothing, an object goes under its own key over an earlier one, anything else spoils the text |
| SnapshotText.LookupEntry | backend/tvashtr/control_plane/connector_catalog.py:356-366 | an entry's JSON has each field under its own name and no other |
| SnapshotText.EntryJsonInjective | scripts/refresh_connector_registry.py:101-107 | comparing parsed lines compares entries |
| RegistryRefresh.FetchPage | scripts/refresh_connector_registry.py:41-54 | the first of eight attempts that answers, after pauses of 5, 10, 15, … seconds between them, and no answer exactly when all eight fail, after 140 seconds |
| RegistryRefresh.AnsweredIff | scripts/refresh_connector_registry.py:41-54 | a cursor is answered exactly by the first answer among its first eight attempts |
| RegistryRefresh.BrokenChainFails | scripts/refresh_connector_registry.py:41-68 | a chain that breaks off fails one fetch after its last page |
| RegistryRefresh.Crawl | scripts/refresh_connector_registry.py:57-68 | the crawl follows cursors in order, ends with the list, without an answer or at the page limit, and how many fetches that took |
| RegistryRefresh.WholeChainIsRead | scripts/refresh_connector_registry.py:57-68 | a chain of p pages, at most 2000, is read whole and in order in p fetches |
| RegistryRefresh.LongChainFails | scripts/refresh_connector_registry.py:57-68 | a chain of 2000 pages that goes on, whether it ends, breaks or cycles later, fails after exactly 2000 fetches |
| RegistryRefresh.CrawlEndsIff | scripts/refresh_connector_registry.py:57-68 | the crawl lists exactly the chains that end within the limit and fails at the limit exactly on those that go on |
| RegistryRefresh.CycleFails | scripts/refresh_connector_registry.py:57-68 | a cyclic chain is one of those |
| RegistryRefresh.Summary | scripts/refresh_connector_registry.py:101-113 | the summary lists the sorted added, removed and changed keys, forty a section, and counts the rest |
| RegistryRefresh.SummaryMeans | scripts/refresh_connector_registry.py:101-113 | the counts, then the keys only the new snapshot has under a plus, those only the old one has under a minus, those that differ under a tilde, each ascending, at most forty and the number left out |
| RegistryRefresh.DiffIsExact | scripts/refresh_connector_registry.py:101-107 | the three sets are disjoint, overlaying them on the old snapshot gives the new one, the counts add up |
| RegistryRefresh.SectionAccounts | scripts/refresh_connector_registry.py:108-113 | listed plus more accounts for every key |
| RegistryRefresh.SnapshotFile.Refresh | scripts/refresh_connector_registry.py:116-128 | a refresh that fails in reading, crawling or the caps leaves the file untouched; else the file is the rendered build and the summary compares it with the old one; a crawled list is refused as too big exactly above 20,000 entries or 6,291,456 bytes |
| RegistryRefresh.Utf8OfChar | scripts/refresh_connector_registry.py:92-98 | the size is in bytes of UTF-8 |
| RegistryRefresh.WrittenReadsBack | scripts/refresh_connector_registry.py:116-128 | what a refresh wrote reads back as exactly the keys that belong, each with its last item |
| RegistryRefresh.SecondRefreshChangesNothing | scripts/refresh_connector_registry.py:116-128 | refreshing again from the same registry reports nothing added, removed or changed |
| Seed.Database.Run | backend/tvashtr/seed.py:114-126 | the seed ends in the specified tables and reports what it created, imported and backfilled |
| Seed.Database.EnsureOperator | backend/tvashtr/seed.py:55-64 | get or create the operator |
| Seed.Database.ImportEnvProviderKeys | backend/tvashtr/seed.py:67-96 | the import upserts a key for each source with a set variable and counts them |
| Seed.Database.BackfillOwner | backend/tvashtr/seed.py:99-111 | no ownerless run or library team is left, each gets the operator, owned rows and ownerless graphs outside the library are unchanged, and the counts are the numbers of rows that changed |
| Seed.ImportSpec | backend/tvashtr/seed.py:67-96 | after an import the operator's key per provider is the first set variable, stripped; every other key is what it was |
| SeedRules.OperatorKeys | backend/tvashtr/seed.py:43-96 | the operator's key of each provider after a seed is the first set variable of that provider's own names, stripped, with its last four characters; without one it is what it was, and so is every other account's |
| SeedRules.FirstSetIs | backend/tvashtr/seed.py:72-76 | the first name with a value that is not empty decides |
| SeedRules.ImportedCount | backend/tvashtr/seed.py:67-96 | the count is the number of sources with a set variable |
| SeedRules.OperatorAccount | backend/tvashtr/seed.py:55-64 | the account of the seed's address, untouched, else a new one with the seed's password; both have defaults |
| SeedRules.ReportIsTrue | backend/tvashtr/seed.py:114-126 | what is reported is what changed |
| Seed.SeedSpec | backend/tvashtr/seed.py:55-111 | one seed: no run and no library team without an owner, others unchanged, other accounts' credentials untouched, keys unique |
| Seed.SeedTwiceIsOnce | backend/tvashtr/seed.py:114-126 | twice is once, comparing decrypted keys; the second run creates and backfills nothing |
| Seed.SeedKeepsAccounts | backend/tvashtr/seed.py:55-64 | the account invariant survives the seed |
| Seed.OperatorCanLogIn | backend/tvashtr/seed.py:5-6 | after a seed that created the operator its address and the seed password sign in to it, and no other password does |
| Seed.ImportsTheKeyIff | backend/tvashtr/seed.py:72-76 | the stored key is non-empty exactly when the first set variable is not blank, and then it is the first variable that holds a key |
| Seed.BlankShadows | backend/tvashtr/seed.py:43-52 | the failing input: a blank first name hides the second |
| FixtureSweep.RunTable.SweepStaleFixtureRuns | scripts/demo_proof_seed.py:43-84 | a pending, running or waiting row becomes cancelled exactly when it is more than 120 s old and has no live workflow; every other row, finished ones included, is unchanged; the count is the number of rows changed |
| FixtureSweep.FinishedStays | scripts/demo_proof_seed.py:32 | over every run of the system a completed, failed, cancelled or over-budget run keeps its status until somebody sets it |
| FixtureSweep.UnfinishedChangesIff | scripts/demo_proof_seed.py:77-84 | any other run is changed only by whoever sets its status or by a sweep that finds it past the grace without a live workflow |
| FixtureSweep.YoungRowStays | scripts/demo_proof_seed.py:38-40 | a new row is untouched by sweeps for its first two minutes |
| FixtureSweep.SweptInTime | scripts/demo_proof_seed.py:77-84 | a row no workflow holds is cancelled by any sweep after the rest of its grace and by none before |
| FixtureSweep.SweepNeverHitsTheLiving | scripts/demo_proof_seed.py:35-84 | if every launch gets its workflow row within the grace, a run some sweep cancels is not live then and never will be |
| FixtureSweep.SweepIsComplete | scripts/demo_proof_seed.py:77-84 | at every moment after a sweep each non-terminal row that was there is live, was within the grace, or has since had its workflow finish or its status set |
| FixtureSweep.ResidueIsCleared | scripts/demo_proof_seed.py:46-61 | a row past the grace that was never a launch is terminal after the next sweep and for good unless its status is set again |
| FixtureSweep.GraceIsExact | scripts/demo_proof_seed.py:38-40 | the assumption is needed: a sweep hits a coming launch exactly when its workflow row is later than the grace |
| RetryEnvelope.WaitsClosedForm | backend/tvashtr/config.py:197-206 | the pauses sum to a closed form before and after the cap bites |
| RetryEnvelope.EnvelopeGrows | backend/tvashtr/config.py:231-235 | more attempts, a longer timeout or a higher cap never shorten the envelope, and by how much an attempt lengthens it |
| RetryEnvelope.FitsIffAtMostThree | backend/tvashtr/config.py:778-783 | with the defaults the envelope ends before the stall ceiling exactly up to three attempts |
| RetryEnvelope.BackupFitsIff | backend/tvashtr/config.py:261-265 | three attempts fit the default ceiling for every whole timeout up to 130 s and every cap, and for 131 s only with the pauses at their minimum |
| RetryEnvelope.WaitsAtMinimum | backend/tvashtr/config.py:202-206 | a cap below the minimum pause never applies |
| RetryEnvelope.SwitchBeforeSweepIff | backend/tvashtr/config.py:778-783 | a hung model is given up before the sweep exactly when there is a backup; the two worst cases are 1108.5 s and 3372 s |

## Left out

- Walk: agents, approval gates, ends and the budget question of greenfield runs. Domain questions, guardrail gates, compare runs, resume from a checkpoint, hosted clones and pushes, desktop routes, virtual keys, memory and read-only steps are not part of the model.
- Agents, git, GitHub and the clock answer arbitrarily; a process is known by the number of its boot, which stands for its pid.
- Tables with a unique key over the run's own rows are maps from the key; where the uniqueness itself is the promise (costs, accounts, installations, credentials) they are sequences and it is proved.
- The workspace repository is the ship tag, the ship commits and what HEAD shows; file contents and git's own failures are not modelled.
- Metering.SpendRounding: the database's own rounding of a sum is exact, so only the rounding of each row counts.
- LedgerRace: read-committed transactions on one key each; deadlocks between transactions that hold other locks are outside these writers.
- WorkspaceReaper: symbolic links and removal errors are a set of directories that cannot be removed; the per-file progress of a removal is not modelled.
- Accounts: requests are transactions one after another, lower-casing is ASCII, bcrypt's cut at 72 bytes is not modelled, and a salt stands for a hash's randomness.
- Callbacks: a signed cookie or state is what it verifies to, so forging is impossible by construction; header parsing starts from the parsed address; the return pages' text and the one-time desktop code are left out.
- PatchRoundTrip: text files only; git's header lines are assumed free of line breaks, which a path with one in it would break.
- JsonText: the compact form the snapshot is written in, without numbers, other white space or surrogate escapes.
- Snapshot: the catalog's filter on raw registry items is not modelled; items come with its answer.
- RegistryRefresh: a file in a shape the script does not write counts as unreadable; a write that stops half way is not modelled.
- Seed: the cipher is a pair of the key and its randomness; both bulk updates are one transaction each.
- FixtureSweep: the database and the script share one clock, in whole seconds, and a finished workflow is not resumed.
- RetryEnvelope: of the agent's routing only the retry count is modelled; its model, key and address fields are plain selections.
- HTTP, the interface, live drivers, wall-clock and token estimates, and plain settings would add easy members only.
