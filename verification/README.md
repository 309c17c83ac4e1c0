# Verification of the agent lifecycle daemon

This project models the daemon that owns repos, workstreams, sprints and agents, and proves what
its concurrent handlers keep: no orphaned agent, one running child a session, no deadlock, crash
loops that end, adopts that roll back, exits that are counted once; and what each handler achieves
when its calls do not fail, whatever else runs meanwhile. Beside it stand the sequential
parts those rest on (the kill cascades, the boot reconcile) and six smaller cores: the fleet
stream and its cursor, the transcript fold and tailer, the tailer manager, the attribution of a
foreign process, the frame codec, and two-level shell quoting.

`dafny verify dfyconfig.toml` checks the whole project.

## The lifecycle protocol

`Protocol.dfy` is a transition system. A thread is one handler invocation or one supervisor lane;
its program counter is a datatype value that carries the locals it still needs. One step is one
store statement, one backend call, one file operation or one lock operation, as the source makes
them; the scheduler picks the thread and the outcome of the call. These are program counters and
not methods because the properties are about interleavings: between any two statements of one
handler, any statement of another may run. Containers are created and activated, children die,
terminals vanish and tailers clear a restart count as events of their own.

| function | what it follows |
|---|---|
| `StepLane` | `orchestrate/supervisor.go:81-335`: tick, the vanished, stale and reported lanes, the budget |
| `StepResume` | `orchestrate/spawn.go:459-518` and `orchestrate/spawn.go:599-637`: respawnAgent, manual respawn |
| `StepExit` | `orchestrate/ops.go:789-820`, `orchestrate/ops.go:896-905`, `orchestrate/ops.go:969-984`: agent kill, soft exit |
| `StepCheck` | `orchestrate/spawn.go:242-261`: the hierarchy check, read by read |
| `StepLaunch` | `orchestrate/spawn.go:352-440`, `orchestrate/adoptops.go:805-866`: spawn, insert, re-check, compensation |
| `StepAdopt` | `orchestrate/adoptops.go:277-438`, `orchestrate/adoptops.go:705-756`: adopt, placement, relocation, teardown |
| `StepCascade` | `orchestrate/ops.go:933-1103`: the three kill cascades and their teardown |

`Interference.dfy` reads off each program counter which locks the code there holds, shows that the
lock variables agree with it in every run, and from that what a thread may rely on while others
run (`Rely`). Every protocol invariant is a predicate on program counters that is stable under
`Rely` and kept by each step.

`Sections.dfy` follows a handler from a read under an agent's lock to the moment it lets go of the
lock: while it holds it, others leave the row, the counters and the transcript alone, so what the
handler's own steps make of them can be carried along (`Course`, `Phase`, `SectionEnds`).
`Requests.dfy`, `Launches.dfy` and `Placement.dfy` state from that what a lane, an agent kill, a
respawn, a spawn and an adopt come to; `Ticks.dfy` what a supervisor lane does not overlook;
`Teardown.dfy`, `KillScope.dfy` and `Errors.dfy` what a container kill takes down, what it leaves
alone, and where a failing call ends it. These theorems speak of events and states of a run: the
read that decides, the request that begins, the lock that is let go.

A theorem that needs a call to succeed says in which states (`Allowed` in its module), and
`FailureRuns.dfy` shows for each such call, by a run from an initial state, what its failure leads
to. `Runs.dfy` grows such runs event by event and lists everything in them that deviates from a
faultless run; `Scenes.dfy` holds the stretches of the handlers they are put together from.

Ghost state: the terminals ever spawned (with session, nonce and workspace), those enumerated and
those whose child runs, the transcripts moved by a relocation, who drew or named a session id, and
counters of activations, EventExited appends, respawn attempts, and appends that announce a launch, a
respawn or an abandonment.

Where the code and its own words differ, the model follows the code:

- An EventExited append is part of a kill, so its failure is not harmless: in a cascade it leaves
  agents Active under a killed container (`FailureRuns.CutCascadeOrphans`), in an agent kill it
  leaves the child running behind an Exited row, which the next manual respawn doubles
  (`FailureRuns.AppendFaultDoubles`).
- A manual respawn checks the hierarchy before it sets the row Active and not after, so a container
  kill in between leaves an orphan without any call failing (`FailureRuns.RespawnOrphans`).
- A compensation that cannot read its row sets it Exited and kills nothing, so the child runs on
  behind an Exited row (`FailureRuns.CompReadFaultDoubles`).
- The teardown of a refused relocation reads the workstream first and gives up when that read
  fails (`FailureRuns.TeardownFaultLeavesWorkstream`).
- `tier2Excluded` recognises `--resume` only as an argument of its own, so a process started with
  `--resume=<id>` still counts as a bare one and can be given to another session
  (`Attribution.GivenDespiteNaming` says exactly when, `Attribution.CombinedFormCountsAsBare` is
  such a case).
- The comment on `attributeForeignClaude` has a session claim a process by a write at or after its
  start; the code asks for a full second past it (`Attribution.Claims`).

## Model

| member | source | states |
|---|---|---|
| Interference.BaseAlong | orchestrate/ops.go:41-66 | in every run each held agent lock and the placement mutex has exactly one holder, and that thread's code is inside the critical section |
| Interference.RelyAfter | orchestrate/ops.go:54-66 | a step of one thread leaves alone the row, the transcript, the counters and the children of every session whose lock another thread holds, and never reuses a handle or reparents a row |
| IncarnationCoherence.Next | orchestrate/store.go:607-618 | every step, whatever fails, keeps each row's handle and nonce those of one Spawn call of its session |
| IncarnationCoherence.RowIsOneSpawn | orchestrate/store.go:607-618 | in every reachable state the row's nonce names exactly one spawned terminal, and it is the row's handle |
| IncarnationCoherence.ReportKillsItsOwn | orchestrate/supervisor.go:248-281 | a terminal about to be torn down on a child-exit report is the one the reporting incarnation was spawned into |
| Homes.Along | orchestrate/spawn.go:470-492 | in every reachable state each row's terminal was spawned in the workspace of the agent's workstream, a terminal that a lane was told has vanished is not enumerated and never will be again, and the row a lane probes is still the one it read |
| Homes.KillsItsOwn | orchestrate/ops.go:872-890 | a step makes a terminal, or its child, disappear only if its thread holds the lock of the terminal's session, or takes the whole workspace along |
| Requests.FoundDeadIsReplaced | orchestrate/supervisor.go:298-335 | a death that a lane finds with budget left, by a vanished or reported row or by the probe: if none of its calls fails, when it lets go of the lock the terminal the row had is not enumerated, exactly one attempt has been made, counted and announced, and the row has a terminal spawned in between in its workstream's workspace |
| Requests.TurnedAwayLeavesAll | orchestrate/supervisor.go:168-229 | a handler whose read under the lock tells it to leave the agent alone, or whose call fails before it has done anything, changes no table, no terminal and no counter until it lets go of the lock |
| Requests.KillRequest | orchestrate/ops.go:789-820 | an agent kill none of whose calls fails: the agent it finds Active is Exited with one EventExited more and its terminal not enumerated; any other is left as it was |
| Requests.RespawnRequest | orchestrate/spawn.go:581-637 | a respawn by hand none of whose calls fails: an Exited agent becomes Active with a clear count and a terminal spawned meanwhile if the containers above it are Active all along, stays as it was if one is not and none is activated, and is one of the two otherwise; any other agent is left as it was |
| Requests.RespawnAccounts | orchestrate/spawn.go:482-518 | whatever fails but the kill of it, the terminal a respawn spawns is in the row or not enumerated when the lock is let go |
| Launches.LaunchSettles | orchestrate/spawn.go:369-440 | what a spawn or adopt launches is accounted for when the lock is let go, as long as the kill of it and the compensation's calls do not fail: if the insert fails or the session has a row, the terminal is gone and that row untouched; else the agent runs on it, announced, or it is gone and the row Exited with its event. Without a failing call it is the first if the containers above are Active all along, the second if one is not and none is activated |
| Launches.SpawnRefused | orchestrate/spawn.go:242-261 | a spawn into a sprint under a container that is not Active and stays so changes nothing: no terminal, no row |
| Launches.SpawnLaunches | orchestrate/spawn.go:291-362 | a spawn none of whose calls fails, into a sprint whose containers are Active all along, launches a terminal for it |
| Placement.RequestDelivers | orchestrate/adoptops.go:705-820 | a spawn or adopt inserts no row but its own, Active with a clear count, in the sprint asked for or for the session asked for; relocated, in a sprint of the workstream its transcript has been moved to; and an adopt without relocation moves no transcript |
| Placement.AdoptsIntoActive | orchestrate/adoptops.go:478-505 | the sprint an adopt inserts its row into was Active at some moment since the request began |
| Ticks.TickSettles | orchestrate/supervisor.go:81-141 | a tick none of whose calls fails leaves no Active agent of its workstream on a terminal that was missing when it began: at some moment of it the agent is not Active or has another terminal |
| Ticks.StaleSettles | orchestrate/supervisor.go:144-229 | the same for every agent the tick finds stale whose child has exited |
| Ticks.ReportSettles | orchestrate/supervisor.go:233-281 | a child-exit report none of whose calls fails leaves no agent Active in the incarnation it is about |
| Teardown.SprintKillTearsDown | orchestrate/ops.go:986-1003 | of every agent a sprint kill flips, the terminal its row has at some later moment under the lock is not enumerated when the kill's thread ends, if no call of it fails but such as tear down another agent |
| Teardown.SprintKillLeavesNoChild | orchestrate/ops.go:1571-1606 | so a flipped agent that has not been given another terminal since has no running child |
| Teardown.WorkspaceTornDown | orchestrate/ops.go:1105-1130 | whoever flips a workstream, a workstream kill, a repo kill or an adopt undoing itself, and fails no call but such as tear down another workspace: after some later moment it writes no table any more, and no terminal spawned into that workspace by then, so none of its agents' rows' then, is enumerated when its thread ends |
| KillScope.KillFells | orchestrate/ops.go:1071-1083 | the container a kill was asked for is not Active at some moment of it, unless a call of it fails |
| KillScope.KillTouchesOnlyInside | orchestrate/ops.go:933-1103 | whatever fails, a step of a kill changes no row outside the container it was asked for, adds none, and stops no terminal but of agents or workspaces inside |
| Errors.ErrorEnds | orchestrate/ops.go:945-962 | after a failing call that is returned as an error, the handler's steps write no row, spawn nothing, append no exit and stop no terminal but one a respawn has just spawned and could not record |
| IncarnationCoherence.NeverBack | orchestrate/spawn.go:442-518 | once a row has left an incarnation it never returns to it |
| IncarnationCoherence.LateReportDoesNothing | orchestrate/supervisor.go:263-281 | a report looked at after the row has moved on, by any number of respawns, changes no table and no terminal and only releases the lock |
| ExitAccounting.NeverTooManyExits | orchestrate/ops.go:896-905 | with any pattern of failures, EventExited appends plus the current activation never exceed the activations |
| ExitAccounting.ExitsBalance | orchestrate/ops.go:969-984 | outside the critical section, activations equal EventExited appends plus one if Active, if and only if no event so far lost the agent's EventExited (a failing append, a failing second status write, an unread row) |
| ExitAccounting.ExitsBalanceWithoutFaults | orchestrate/spawn.go:418-440 | when table reads, status writes and appends succeed the two sides are equal, across kill, cascade, compensation and abandonment |
| RestartBudget.Along | orchestrate/supervisor.go:298-317 | RestartCount stays within 0 and the budget in every reachable state |
| RestartBudget.CrashLoopEnds | orchestrate/supervisor.go:283-335 | until a live status or a manual respawn refills the budget, at most the rest of the budget is attempted, failed respawns included, and when that much was attempted the count stands at the budget |
| RestartBudget.SpentBudgetExits | orchestrate/supervisor.go:298-313 | a death found with the count at the budget, by a vanished or reported row or by the probe, ends the agent: when the lane lets go of the lock no respawn has been attempted and, if none of its calls failed, the row is Exited with one abandonment announced and one EventExited more; a failing abandonment append or status write leaves it Active, a failing EventExited append leaves it Exited without the event |
| Deadlock.Along | orchestrate/adoptops.go:396-438 | every run keeps an undoing adopt's cascade inside the one workstream that adopt minted, where no other waiting adopt's agent is |
| Deadlock.OnlyLocksBlock | orchestrate/ops.go:54-66 | a thread that is not waiting for a held mutex can always take its next step, if only to see its call fail |
| Deadlock.HoldAndWait | orchestrate/adoptops.go:428-438 | the only code that waits for an agent's lock with another held is the cascade of an adopt undoing itself |
| Deadlock.NoDeadlock | orchestrate/adoptops.go:277-438 | in every reachable state with an unfinished thread some unfinished thread can step, whatever fails |
| AdoptUndo.Along | orchestrate/adoptops.go:408-418 | while a relocated launch's compensation can write its status, an adopt has no row before its insert and no Active row once it undoes a relocation, so the agent its cascade skips is never Active |
| Relocate.RefusedAdoptRollsBack | orchestrate/adoptops.go:396-421 | wherever a relocating adopt fails past its validation, when it returns its error the transcript is at its original path, the session has no Active agent and the workstream it minted is not Active, given that the calls named by `Undoes` succeed |
| FailureRuns.SprintInsertFaultLeavesWorkstream | orchestrate/adoptops.go:705-711 | a run in which only the insert of the minted workstream's sprint fails: the adopt is refused with the workstream Active |
| FailureRuns.TeardownFaultLeavesWorkstream | orchestrate/adoptops.go:432-438 | a run in which the rename and then the read that the teardown begins with fail: the same |
| FailureRuns.TeardownFlipFaultLeavesWorkstream | orchestrate/adoptops.go:432-438 | a run in which the rename and then the teardown's flip of the workstream fail: the same |
| FailureRuns.RenameBackFaultLeavesTranscript | orchestrate/adoptops.go:411-416 | a run in which the launch and then the rename back fail: the adopt is refused with the transcript still moved |
| FailureRuns.CompensationFaultLeavesAgent | orchestrate/adoptops.go:822-838 | a run in which the adopted event and then the compensation's status write fail: the adopt is refused with its agent Active |
| NoOrphan.FlipsThenLists | orchestrate/ops.go:933-957 | whoever flips a container lists its Active children in the very next statement |
| NoOrphan.VisitOn | orchestrate/ops.go:1017-1036 | a pending visit of a cascade to an agent, sprint or workstream stays pending over every step until the step that flips it |
| NoOrphan.DebtAfter | orchestrate/spawn.go:379-400 | over every step, an Active agent past its re-check of a container that is dead has a thread on the way to it, from there or from further down |
| NoOrphan.OrphanIsPending | orchestrate/adoptops.go:844-851 | in the middle of any run, an Active agent under a container that is not Active has a running thread that is about to check, compensate or visit it |
| NoOrphan.QuietMeansNoOrphan | orchestrate/spawn.go:379-400 | over all interleavings of spawns, adopts, agent and container kills, lanes, manual respawns, container creations and activations, with any failures but those that `Forgets` names and no respawn that `SlipsBehind` a kill, once every thread is finished no Active agent sits under a sprint, workstream or repo that is not Active |
| NoOrphan.AbandonedForGood | orchestrate/ops.go:945-957 | both exclusions are needed: each such failure, and each such respawn, leaves the agent Active under a dead container with nobody on the way to it, unless another thread happens to be |
| FailureRuns.RespawnOrphans | orchestrate/spawn.go:607-616 | a run without any failing call in which a manual respawn that has passed its check races a sprint kill: all threads finish and the agent is an orphan |
| FailureRuns.CutCascadeOrphans | orchestrate/ops.go:945-957 | a run in which a sprint kill over two agents loses the first one's EventExited append: all threads finish and the second agent is an orphan |
| FailureRuns.CompensationFaultOrphans | orchestrate/adoptops.go:423-438 | a run in which a relocated launch is compensated in vain: the teardown skips its agent, which is an orphan when all threads have finished |
| SessionIds.OneDrawer | orchestrate/spawn.go:320-381 | in every run a session id drawn by a spawn is being launched by that one thread only |
| SingleChild.SeenDead | orchestrate/supervisor.go:116-136 | a row whose handle is the one missing from an enumeration made after the row was listed, or whose nonce is that of a reported exit, has no running child |
| SingleChild.HolderSeesRow | orchestrate/spawn.go:369-381 | in the critical section of an agent with a row every running child of the session is the row's, unless the code there has just spawned one itself |
| SingleChild.GetsLock | orchestrate/spawn.go:369-387 | a spawn that gets its lock finds its child the session's only running one, or stopped by an adopt that has inserted its own row |
| SingleChild.Next | orchestrate/supervisor.go:168-281 | every allowed event keeps: each running child is its row's, or carried by the thread that spawned it, or the only one of a session without a row that nobody is launching; an Exited row's child runs only under its killer's lock or below a dead container; and a spawn waiting for its lock with its child running has the session to itself |
| SingleChild.NeverTwoChildren | orchestrate/spawn.go:459-518 | in every reachable state two running children of one session are the same terminal, over all interleavings, adopts of a session whose spawn is still waiting for its lock included, given that no call fails where `LeavesChild` says it matters, adopts find what they have to stop, and no container is reactivated |
| FailureRuns.RespawnDoubles | orchestrate/spawn.go:599-637 | from any state with an Exited row whose child runs below Active containers, a manual respawn gives the session two running children |
| FailureRuns.AppendFaultDoubles | orchestrate/ops.go:803-810 | a run to two running children in which only the EventExited append of an agent kill fails |
| FailureRuns.KillFaultDoubles | orchestrate/ops.go:811-818 | a run to two running children in which only the backend kill of an agent kill fails |
| FailureRuns.CompReadFaultDoubles | orchestrate/spawn.go:418-427 | the same for a spawn whose re-check and then whose compensation's read fail |
| FailureRuns.SecondFlipFaultDoubles | orchestrate/spawn.go:428-440 | the same for a spawn whose re-check and then whose compensation's second status write fail |
| FailureRuns.KillNewFaultDoubles | orchestrate/spawn.go:502-512 | the same for a respawn that can neither record its terminal nor kill it, on the next tick |
| FailureRuns.KillOrphanFaultDoubles | orchestrate/adoptops.go:822-827 | the same for an adopt that can neither insert its row nor kill its terminal while a spawn of the session waits for its lock |
| FailureRuns.OverlookedStopDoubles | orchestrate/adoptops.go:345-352 | the same for an adopt whose attribution overlooks the child of a spawn that waits for its lock; no call fails |
| FailureRuns.ReactivationDoubles | orchestrate/ops.go:945-957 | the same for a sprint killed without its teardown, activated again, and a manual respawn |
| Store.Store.CasSprintKilled | orchestrate/store.go:432-447 | flips the sprint and reports a win exactly when it was Active; nothing else changes |
| Store.Store.CasWorkstreamKilled | orchestrate/store.go:330-342 | the same for a workstream |
| Store.Store.CasRepoKilled | orchestrate/store.go:225-239 | the same for a repo |
| Store.Store.ClearActiveSelection | orchestrate/ops.go:907-919 | removes the key exactly when it names the killed entity |
| Store.Store.SoftExitAgent | orchestrate/ops.go:892-905 | stops the tailer, sets the row Exited, appends EventExited, in that order of possible failures |
| Store.Store.FlipAgentExited | orchestrate/ops.go:964-984 | exits an Active agent once and returns its row from before; leaves any other agent as it is; answers an error for an existing row only if a statement or the append failed |
| Store.Store.ExitListed | orchestrate/ops.go:945-957 | exits exactly the listed agents but the skipped one, each reported once with its old row; cut short, only some of them |
| Store.Store.MarkSprintKilled | orchestrate/ops.go:921-962 | leaves the tables as one stroke over the sprint would, reports exactly the exited agents; loses without effect; cut short, which only a failing call does, every row is as before or as after |
| Store.Store.MarkWorkstreamKilled | orchestrate/ops.go:1009-1041 | the same over a workstream and its Active sprints |
| Store.Store.KillRepo | orchestrate/ops.go:1071-1103 | the same over a repo, and returns exactly the workstreams it flipped, each once; an error is answered only if a call failed |
| Store.DownTwice | orchestrate/ops.go:1029-1036 | cascades one after another add up to one over both |
| Store.CascadeStops | orchestrate/ops.go:1030-1034 | a cascade cut short after others leaves a part of the whole and no agent exited or logged twice |
| KillExactness.KillReachesAll | orchestrate/ops.go:1071-1103 | a won repo kill leaves nothing Active in the subtree if and only if Active children had Active parents there |
| KillExactness.ReportsTheActive | orchestrate/ops.go:1076-1102 | on such a tree the agents exited are exactly the Active agents of the repo |
| KillExactness.KillStaysInside | orchestrate/ops.go:1076-1102 | nothing outside the subtree changes, and of the agents inside only the status |
| KillExactness.CutKillStaysInside | orchestrate/ops.go:1076-1102 | a kill cut short by a failing call has touched nothing outside the subtree either |
| KillExactness.ClearsItsSelections | orchestrate/ops.go:907-919 | the selections cleared are those pointing into the subtree if and only if those name Active containers; no other selection changes |
| KillExactness.TreeSelects | orchestrate/ops.go:1099-1101 | on a tree it is enough that the selected container itself is Active |
| KillExactness.KillTwice | orchestrate/ops.go:1077-1083 | the second of two kills of a repo changes nothing and reports nobody |
| Boot.ReconcileWorkstreams | orchestrate/reconcile.go:19-45 | kills, cascading, exactly the Active workstreams whose enumerating backend no longer has their workspace |
| Boot.SecondBootKillsNothing | orchestrate/reconcile.go:13-18 | booting again with the same answers changes nothing |
| Boot.Daemon.RespawnAgent | orchestrate/spawn.go:442-518 | resumes the session in a new terminal recorded in one statement, or leaves the row alone and no terminal behind; one is leaked only if recording and killing it both fail |
| Boot.Daemon.RespawnUnderBudget | orchestrate/supervisor.go:298-335 | at the budget the row is exited with its event, below it the count grows by one and the row gets a new terminal running its session |
| Boot.Daemon.ReconcileVanished | orchestrate/supervisor.go:168-184 | acts only on a row that is still Active with the handle that was missing |
| Boot.Daemon.ReconcileAgents | orchestrate/reconcile.go:57-91 | every vanished agent of an Active, enumerable workstream is settled, every other row is as it was, and no terminal is leaked; it stops early only if a call failed, and also then each running terminal that is not leaked is its session's row's |
| Boot.NoSessionTwice | orchestrate/reconcile.go:47-56 | after the boot no session runs in two terminals that were not leaked |
| Fleet.FleetStream.Emit | orchestrate/fleet.go:242-265 | one emit drops or appends the frame and updates the coalescing reference and the seq as the stream's value function says |
| Fleet.PublishesNewest | orchestrate/fleet.go:242-265 | after any emits the published seq is that of the newest entry, or the one the stream was resumed at if nothing was appended, whatever was coalesced and whichever appends failed |
| Fleet.SeqNeverFalls | orchestrate/fleet.go:242-265 | with growing seqs the published one never falls and the entries' seqs rise |
| Fleet.NewLifeShows | orchestrate/fleet.go:286-299 | after a frame that begins or ends a life, even a lost one, the agent's next status is appended however soon |
| Fleet.DropsOnlyRepeats | orchestrate/fleet.go:267-284 | a frame is dropped exactly when it repeats, within the window, the activity the log shows last for its agent's present life; the coalescing map mirrors the log |
| Fleet.CoalescingIsStuttering | orchestrate/fleet.go:267-298 | with successful appends the coalesced log and the uncoalesced stream show every agent the same de-stuttered activities, life by life |
| Fleet.TokenOnlyIsSpaced | orchestrate/fleet.go:278-283 | every token-only status in the log comes at least the window after its agent's previous one |
| Fleet.FailedAppendLosesTransition | orchestrate/fleet.go:257-263 | why appends must succeed: a transition whose append fails becomes the reference and is never seen |
| FleetCursor.CursorNeverLeads | orchestrate/fleet.go:395-423 | for every interleaving of commits, emits and one status read that takes its cursor first, a mutation whose frame the cursor covers is in the returned view of its table |
| FleetCursor.EmitIsSteps | orchestrate/fleet.go:242-265 | an emit of the stream, from its lock to its unlock, is a run of the steps the cursor theorem interleaves: append, then publish, or neither |
| FleetCursor.TablesFirstWouldLead | orchestrate/fleet.go:400-403 | why the cursor is read first: a run in which a table is read before the cursor and its view lacks a mutation whose frame the cursor covers |
| Transcript.StatusAcc.FeedLine | orchestrate/status.go:105-128 | the in-place fold of one line equals the value fold |
| Transcript.StatusAcc.CurrentStatus | orchestrate/status.go:153-187 | the status read off the accumulator's fields |
| Transcript.PendingMeaning | orchestrate/status.go:107-151 | after any lines pending holds exactly the tool uses without a later result, under their last name |
| Transcript.TokensMeaning | orchestrate/status.go:130-135 | tokens is the sum over the distinct message ids of the usage each was first seen with |
| Transcript.PromptMeaning | orchestrate/status.go:115-131 | a prompt is open exactly when no assistant line follows the last one |
| Transcript.StopMeaning | orchestrate/status.go:136-138 | the stop reason is the last one any assistant line gave |
| Transcript.StatusMeaning | orchestrate/status.go:153-187 | the status of any lines: Awaiting, Working, Idle and Unknown each if and only if the lines' unanswered tool uses, open prompt and last stop reason say so; the tool and target of the last tool use, the last text that is not empty, and the tokens |
| Transcript.TailUnderstates | orchestrate/adopt.go:187-198 | a suffix of the lines has no tool pending the whole has not, so an Awaiting read off it is one of the whole |
| Tailer.LinesSplit | orchestrate/tailer.go:102-111 | cutting the bytes anywhere and carrying the partial line over gives the same lines and the same partial line |
| Tailer.FeedLines | orchestrate/tailer.go:103-111 | feeding what was read leaves the accumulator at the fold of the complete lines and the buffer at the partial one |
| Tailer.RunTailer | orchestrate/tailer.go:81-125 | after every poll the accumulator is the fold over the file's complete lines, and there was one callback for each poll that changed the status, not live at the first poll only |
| Tailer.ToldTheCurrent | orchestrate/tailer.go:112-117 | after every poll the last status reported, or the baseline, is the current one |
| Tailer.NeverRepeats | orchestrate/tailer.go:112-118 | no callback repeats the status before it, and only the first poll's is not live |
| Tailer.ChunksDoNotMatter | orchestrate/tailer.go:146-162 | two ways of cutting the same bytes into reads end at the same reported status |
| Tailer.ReplayNeverResets | orchestrate/serve.go:169-182 | a callback clears the restart budget only if a line was completed since the replay |
| Tailer.ResetsExactly | orchestrate/serve.go:169-182 | a poll clears the count if and only if it is not the replay, the agent had restarts when its tailer started, and the lines gave it a new status that is not Unknown |
| AdoptWindows.SplitTranscriptLines | orchestrate/adopt.go:270-290 | the lines of what the window keeps |
| AdoptWindows.ReadAdoptWindows | orchestrate/adopt.go:246-268 | the head is the whole file's lines or exactly those that end inside its window, the tail the whole file's or exactly those after the first newline in its window; they are a prefix and a suffix of the file's |
| AdoptWindows.TailAwaitingIsReal | orchestrate/adopt.go:187-198 | a candidate that reads as awaiting input has a question open in its whole file |
| AdoptWindows.TailCanMiss | orchestrate/adopt.go:246-268 | the converse fails: a question before the window is not seen |
| TailerManager.Manager.Start | orchestrate/serve.go:140-151 | registers a new tailer and cancels exactly the one it replaces |
| TailerManager.Manager.Stop | orchestrate/serve.go:196-205 | cancels and forgets exactly the agent's current tailer |
| TailerManager.Manager.Finish | orchestrate/serve.go:207-217 | a finishing tailer cancels only itself and removes the entry only if it is its own |
| TailerManager.OneTailerPerAgent | orchestrate/serve.go:126-129 | two uncancelled tailers of one agent are the same |
| TailerManager.FinishAfterReplacement | orchestrate/serve.go:207-217 | a replaced tailer that finishes late leaves its successor running and registered |
| TailerManager.CurrentIsLastStart | orchestrate/serve.go:140-217 | after any sequence of starts, stops and finishes the current tailer of an agent is the last one started for it with no later start, stop or finish of that same tailer, and there is one only then |
| TailerManager.RunAll | orchestrate/serve.go:140-217 | the map and the running tailers after any sequence are exactly those, one tailer launched for each start |
| Attribution.BareCwdClaudes | orchestrate/adopt.go:369-390 | lists exactly the processes in the directory that are not excluded and have no parent among the others there, each once |
| Attribution.AttributeForeignClaude | orchestrate/adopt.go:315-367 | decides by a verdict on the sets of processes and candidates |
| Attribution.OrderFree | orchestrate/adopt.go:303-314 | the decision, and the pids of a refusal as a set, do not depend on the order of processes or candidates |
| Attribution.PidIsJustified | orchestrate/adopt.go:306-314 | a pid is given only to the one process naming the session, or to the one bare claude by a write past its start, or by being strictly newest when all wrote before it |
| Attribution.UnclaimedGoesToOne | orchestrate/adopt.go:437-450 | a process that no session names or has written past goes to at most one session |
| Attribution.TwoClaimantsShare | orchestrate/adopt.go:344-347 | two sessions that both wrote past the start are both given the process |
| Attribution.StopIff | orchestrate/adopt.go:315-367 | a process is given to a session if and only if it is the one that names it, or nothing names it, it is the only bare process, and the session owns it by its writes |
| Attribution.NoProcessIff | orchestrate/adopt.go:327-352 | a session is adopted without a kill if and only if no process names it and no claude there is bare, or the only bare one is another session's by its writes |
| Attribution.RefuseIff | orchestrate/adopt.go:323-367 | an adopt is refused if and only if several processes name the session, or none does and several are bare, or the only bare one is nobody's for certain; and over exactly these processes |
| Attribution.BareExactly | orchestrate/adopt.go:369-418 | a claude of the directory is bare if and only if neither session flag is an argument of its own, `mcp serve` is not among its arguments, and no process there is its parent |
| Attribution.GivenDespiteNaming | orchestrate/adopt.go:392-418 | a process that names another session and not this one is given to this one if and only if it is the only bare process, nothing names this session and this session owns it; it then has neither flag as an argument of its own, so it names the other by a combined form or by an argument of no flag |
| FrameCodec.PutU32 | backend/superset_daemon.go:148-149 | writes the low 32 bits big-endian and nothing else |
| FrameCodec.WriteFrame | backend/superset_daemon.go:141-155 | the frame's bytes |
| FrameCodec.U32RoundTrip | backend/superset_daemon.go:148-172 | a written u32 reads back modulo 2^32 |
| FrameCodec.Reader.ReadFrame | backend/superset_daemon.go:159-181 | reads as the value decoder says and consumes exactly the frame |
| FrameCodec.DecodeBounds | backend/superset_daemon.go:164-177 | for any bytes: an error, or a slice within what was consumed, never past the cap |
| FrameCodec.RoundTripIff | backend/superset_daemon.go:138-181 | a written body reads back if and only if it is within the cap |
| FrameCodec.PayloadIsSkipped | backend/superset_daemon.go:156-181 | of a frame with any payload exactly the JSON reads back and exactly the frame is consumed, if and only if it is within the cap |
| FrameCodec.AcceptsOnlyFrames | backend/superset_daemon.go:156-181 | whatever the reader accepts is the JSON of such a frame at the start of the bytes |
| FrameCodec.StreamRoundTrip | backend/superset_daemon.go:138-181 | any frames within the cap written one after another read back, consuming exactly their bytes |
| Quote.QuoteAll | backend/quote.go:23-30 | quotes each token in place and order |
| Quote.BareExactly | backend/quote.go:7-21 | a token is rendered as itself if and only if it is not empty and all its characters are on the allowlist; any other stands between single quotes |
| Quote.ShReadsToken | backend/quote.go:9-21 | a quoted token is read back as the one word it was, whatever follows |
| Quote.ShInvertsQuoteAll | backend/quote.go:23-45 | tokenizing the joined quotes of any tokens gives the tokens back |
| Quote.TwoPassesAreOne | backend/quote.go:32-37 | the two replacements escape each character once |
| Quote.FishReadsToken | backend/quote.go:32-37 | fish reads a fish-quoted string as that one token |
| Quote.TwoLevelsInvert | backend/quote.go:39-45 | fish hands bash -lc one argument, and sh reads it as exactly the command's tokens |
| Quote.RenderingIsInjective | backend/quote.go:39-45 | no two commands are rendered alike |

## Left out

- Boot.Daemon.ReconcileAgents: enumerates before it lists, as the code does, and is proved for the boot run alone; it is not interleaved with the protocol's threads.
- SingleChild.NeverTwoChildren: assumes that the calls named by `LeavesChild` succeed while the child they are about runs and no container above it is killed, that an adopt's attribution finds a child of its session, and that no container is reactivated; `FailureRuns` has a run for each. A foreign claude process that the daemon did not spawn is not counted.
- NoOrphan.QuietMeansNoOrphan: assumes that no call named by `LosesTrack` fails while an Active agent under a dead container depends on it, or before the cascade of an undone relocation, and that no manual respawn sets its row Active under a container killed since its check.
- Relocate.RefusedAdoptRollsBack: assumes no workstream is activated and the calls named by `Undoes` succeed; `FailureRuns` has a run for each kind of call. Validation errors before placement return without having changed anything and are not followed further.
- Deadlock.NoDeadlock: the mutexes of the tailer manager, the fleet stream and the lock table are leaves, taken and released within single steps, and are not in the state.
- RestartBudget.CrashLoopEnds: the live/replay gate that decides when a count is cleared is proved in the tailer's module; in the protocol a clear is an event of its own.
- FrameCodec.RoundTripIff: bodies are bytes; JSON encoding and decoding are not modelled.
- Transcript.StatusAcc.FeedLine: takes decoded lines; JSON decoding and the choice of a tool's target are parameters.
- Quote.TwoLevelsInvert: tokenization only, not reserved words, assignments or expansions, of which the quoted output contains none unquoted.
- In the protocol a session id drawn by a spawn is one that nothing has drawn, named, stored or run before, as random UUIDs are; an adopt may name any id.
- An adopt's stop ends every process of its session at once; the code finds one process and refuses when there are more, which is the failing outcome. The trailing-write scan after it adds warnings; a scan that fails is the child's death and then a failing stop.
- Placement of an adopt: which existing sprint, and whether a repo or workstream row is created for it, is the scheduler's choice; the rows it may create are container creations.
- Creating a container is one event; its own failures and git work are not followed.
- The active-* selections, the tailers and the fleet frames are not part of the protocol's state; they are in the store, tailer manager and fleet modules. The clearing of a selection is a call of a cascade that may fail.
- In the Store class the statements follow one another without interleaving, and the agent lock is not taken; interleaving is what the protocol is for.
- Ticks.TickSettles: a lane is one pass over one workstream, for missing terminals or for stale agents; that a tick goes over the workstreams one after another is the scheduler's doing.
- Wall-clock times in the lanes are the scheduler's choice: which agents a tick finds stale is picked with its listing; the fleet coalescer and the attribution have their clocks as integers.
- Backend drivers, git, cc-notes, subjects, reposync, process enumeration, the screen prober and the PTY host.
- CLI, rendering, MCP, XRPC transport, schema reflection, the channel protocol, config and list filters, name resolution and slugs.
