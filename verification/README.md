# Agent core: verified model

A Dafny model of the stateful core of the coding agent in `src/agent`, with proofs of what
that core is for. `dafny verify dfyconfig.toml` checks the whole project.

Wherever the program changes state step by step, the model has two forms of the same thing: a
specification on values (functions, and runs of them) about which the theorems are proved, and
the imperative form (methods with loops, classes with the program's own fields) that is proved
to compute exactly that specification.

| Part | Files |
|---|---|
| MCP connection protocol: epochs, disabled names, operation queues, dials, redial loops, disposal | `McpProtocol`, `McpSafety`, `McpLastCall`, `McpDrain`, `McpExact`, `McpLosses`, `McpRetries`, `McpUndisturbed`, `McpRaces`, `McpEffects`, `McpStepEffects`, `McpRedial`, `McpToolset` |
| Codex `apply_patch`: grammar, printer, hunk search and application, plan-then-write | `PatchSyntax`, `PatchParser`, `PatchRoundTrip`, `PatchRefusals`, `PatchSearch`, `PatchApply`, `PatchPlace`, `PatchExec`, `PatchOutcome` |
| Compaction governor | `Compaction`, `CompactionRuns`, `CompactionEffects`, `CompactionGovernor` |
| Chat director | `Reactor`, `Director`, `DirectorRuns`, `DirectorFlow`, `DirectorCycles`, `DirectorNudges`, `DirectorGovernor`, `DirectorTable`, `DirectorAnswers`, `DirectorNotes`, `ChatDirector` |
| Pauseable wall-clock budget | `Watchdog`, `WatchdogRuns`, `WatchdogEffects` |
| Shell quoting | `ShellQuote` |
| JSON Schema rewrite | `GrokSchema`, `GrokSchemaRules`, `GrokSchemaKeeps`, `GrokSchemaLiterals` |
| Lexical ranking | `LexicalRank`, `RankAndCut` |
| Token estimate, task list | `ContextEstimate`, `Tasks` |
| Shared | `Common`, `Text` |

## How the model reads the program

- **MCP.** One server name is one state machine. Every code segment between two `await`s is one
  step; dial results, transport deaths, wake-ups and public calls come in any order. `Toolset`
  is the closure with all its maps; its methods are the segments, each proved to be the step of
  the name it is called for and to leave every other name alone. Startup connects and retries
  take the current epoch, as `connectOneMCPServer` does when none is passed.
- **Two accounts.** The step functions follow the program operation by operation. `McpEffects`,
  `CompactionEffects`, `WatchdogEffects` and `DirectorTable` give the same machines field by field,
  or way by way, with fields and answers only, and prove that the two agree on every state and step.
- **Patches.** A file body is a list of lines and a cursor. The printer is written from the
  grammar in the parser's own comment. The workspace guard is an arbitrary function that
  resolves a path or rejects it.
- **Governor and director.** Context-window tables, the base director, the workflow coordinator
  and the classification of events are arbitrary inputs of every call; the theorems hold for
  all of them. The director's theorems are about runs of events interleaved with the host's own
  calls (fleet transitions, credential refreshes, manual folds, handoffs, cancels). The
  coordinator may answer each of its questions differently and may throw at any of them; a
  decision it fails is a decision with the route `CoordinatorThrew` and no actions. The
  transcript of a run holds every finished turn, also one whose decision failed.
- **Objects.** `LiveGovernor` and `ChatDirectorImpl` carry the program's fields; their `Valid()`
  says that no rail and no nudge budget is overspent, and every method keeps it while computing
  the specification's new state. The table names the methods that are functions of the program;
  their other methods are parts of these.
- **Budget.** The clock is in whole milliseconds and timers are due times. A timer may fire
  late; "prompt" runs are those in which the clock does not pass a due timer.
- **Shell.** Token recognition and quote removal follow sections 2.2.1, 2.2.2 and 2.3 of the
  POSIX.1-2017 Shell Command Language. An unquoted character that would start an operator, an
  expansion, a pattern, a comment or a double-quoted part makes the reading fail, so a
  successful reading is one in which nothing but plain words was seen.
- **Schemas.** Objects keep their entries in order. A schema position is one the rewrite itself
  interprets.
- **Scores** are counted in quarters, so 3, 2.5, 1, 0.75, 0.5 and 0.25 become 12, 10, 4, 3, 2
  and 1; the cut works on real scores.

## What the proofs found

- A disconnect that is the last call does not always win. A retry queued before it looks at no
  epoch (`src/agent/tools.ts:1513-1531`): it re-enables the name and the disconnect is never
  answered (`McpRaces.WaitingRetryBeatsDisconnect`). And the disconnect awaits the dial in flight
  (`src/agent/tools.ts:1487-1488`): if that dial's trust check throws, the disconnect ends there
  (`McpRaces.FailedTrustCheckSwallowsDisconnect`). These are the only two ways
  (`McpLastCall.LastCallWins`), and at the call they can be told apart from the rest: the
  disconnect wins every schedule exactly when no retry waits in the queue and no dial in flight
  that may still reject is its to await (`McpLosses.DisconnectAlwaysWinsExactlyWithoutDoubt`). While
  the session is not being disposed of, a waiting retry does harm only if it will find no client, or
  a reconnect under way, at its turn (`McpUndisturbed.DisconnectWinsUndisturbedExactly`).
- Two updates of one file in a patch both read the file from before the patch, and the second
  replaces the first: the first one's text survives exactly when the files differ or the texts agree
  (`PatchExec.SecondUpdateReplacesTheFirst`, with an example in `PatchExec.SecondUpdateLosesTheFirst`). An update with a move
  arrives exactly when the target is another path; moved onto its own path the file is deleted
  (`PatchExec.MoveArrivesUnlessOntoItself`).
- `cancelManual` restores the last handoff's snapshot even when the pending request came from
  `/compact`, whose instructions are then lost (`CompactionRuns.CancelRestoresExactlyWhen`,
  `CompactionRuns.CancelDropsManualInstructions`).
- A user message that finds an armed idle fold ready is folded away and answered without its nudge
  budgets being reset (`DirectorFlow.MessageResetsUnlessFolded`, and a run from a fresh session in
  `DirectorFlow.RacedMessageKeepsSpentBudget`); the comment at `src/agent/director.ts:1000-1002`
  speaks of every fresh user message.
- A coordinator that throws at a turn boundary takes the queued notices with it
  (`src/agent/director.ts:890-897`), also that of a task list the director keeps.
  `DirectorFlow.CoordinatorFailsExactly` gives the guards at which that happens, and none is lost
  exactly when they never hold while a notice waits or comes up (`DirectorCycles.NoticesAreConserved`,
  `DirectorCycles.DirectiveThrowDropsNotice`). Thrown while the turn is noted
  (`src/agent/director.ts:1055`), it also keeps the turn's task calls from the live list, which then
  differs from the hydrated one exactly when they would have changed it
  (`DirectorCycles.LiveTasksAreHydrated`, `DirectorCycles.InterruptedTurnDiverges`).
- Once its echo budget is spent, a turn that only echoes the compaction marker is not passed on as
  a reply, unless the session may idle with its fleet: that branch returns the base decision
  unfiltered (`src/agent/director.ts:1290-1292`). `DirectorNudges.MarkerEchoIsWithheldUnlessFleetIdles`
  gives the guards under which that happens, `DirectorNudges.MarkerGoesOut` a run that meets them.
- Repeated ids in one task update can leave an equal list without a no-op note, exactly when a patch
  sets a field otherwise than the last patch of its id (`Tasks.NoteIsReliableExactlyWithoutOverruling`,
  `Tasks.RepeatedUpdateMisreports`), and append a new task twice, exactly when two appending patches
  share an id (`Tasks.IdsStayDistinctExactlyWhenAppendedOnce`, `Tasks.RepeatedNewIdIsAppendedTwice`).
- The schema rewrite drops an `additionalProperties` schema, with any literals in it, from a
  property that declares no shape and holds no literal of its own
  (`GrokSchemaKeeps.OpeningDropsAdditionalProperties`); literals survive exactly when there is none
  to drop that way (`GrokSchemaLiterals.LiteralsSurviveExactlyWhenSpared`).

## Model

| member | source | states |
|---|---|---|
| McpSafety.EveryClientIsAccountedFor | src/agent/tools.ts:1227-1424 | in every interleaving of connects, disconnects, retries, dial results, deaths, wake-ups and disposal, each client ever dialled is being completed by one run, is the connected one, or has been closed, and never two of these before disposal closes the connected one |
| McpSafety.ReachableInv | src/agent/tools.ts:1194-1424 | in every reachable state the one unsettled run of the current epoch is the one in flight, and an active one excludes a connected client |
| McpSafety.InstallNeverOverwrites | src/agent/tools.ts:1365-1384 | a client becomes the connected one only where there was none, not closed before, never after disposal began, never for a disabled name, and only from the current epoch's run that dialled it |
| McpSafety.OnlyContinueInstalls | src/agent/tools.ts:1365-1384 | no other step puts a client into the map |
| McpSafety.DisposalClosesEveryClient | src/agent/tools.ts:1561-1606 | after disposal every client ever dialled is closed or is held by a run that closes it when it resumes |
| McpSafety.StaleActorsAreInert | src/agent/tools.ts:1259-1261 | a step of a run or redial loop whose epoch is over or whose name is disabled mounts, installs, registers, emits and dials nothing |
| McpSafety.OlderEpochStaysInert | src/agent/tools.ts:1060-1061 | and that stays so however the run goes on: epochs never come back |
| McpSafety.EpochNeverFalls | src/agent/tools.ts:923-929 | no step lowers the epoch |
| McpLastCall.LastCallWins | src/agent/tools.ts:1437-1532 | after any history whose last call is a disconnect, whatever trust checks, dials and mounts bring: once the queue drains, the name is disabled, nothing of the server is left and "disconnected" was emitted once for the call if and only if no retry queued before it acted after it and the run its own operation awaited did not reject; otherwise it is never answered |
| McpExact.DisconnectWinsWithoutDoubt | src/agent/tools.ts:1479-1500 | what a caller can check at the call: with no retry waiting in the queue and no dial in flight that may still reject and is the disconnect's to await, the disconnect wins |
| McpLosses.DisconnectAlwaysWinsExactlyWithoutDoubt | src/agent/tools.ts:1479-1531 | in every reachable state the disconnect wins however the queue drains without another public call or startup connect, disposal included, if and only if that condition holds at the call |
| McpLosses.SomeDrainLoses | src/agent/tools.ts:1486-1531 | whenever the condition fails there is a way for the queue to drain on which the disconnect loses |
| McpUndisturbed.DisconnectWinsUndisturbedExactly | src/agent/tools.ts:1479-1531 | in every reachable state, over the ways to drain without another call and without a segment of disposal: the disconnect wins all of them if and only if no such dial is in flight and every waiting retry will be stopped, that is a client is connected, nothing is reconnecting, and no disconnect ahead of the retry may still drop the client |
| McpRetries.DisconnectWinsOverStoppedRetries | src/agent/tools.ts:1502-1531 | retries that find a live client at their turn do the disconnect no harm |
| McpDrain.EveryStateDrains | src/agent/tools.ts:931-946 | from every reachable state the queue can drain without another call from outside |
| McpLastCall.GoneStaysGone | src/agent/tools.ts:1089-1152 | a drained, disabled name stays gone until the next public call: no dial or backoff loop brings it back |
| McpRaces.WaitingRetryBeatsDisconnect | src/agent/tools.ts:1513-1531 | a run in which a retry queued before the disconnect re-enables the name and the disconnect is never answered: the retry looks at no epoch |
| McpRaces.FailedTrustCheckSwallowsDisconnect | src/agent/tools.ts:1486-1499 | a run with a doubtful dial in flight at the call: the awaited dial rejects in its trust check and the disconnect ends without an answer |
| McpStepEffects.StepEffects | src/agent/tools.ts:916-1606 | for every state and every step: when, and to what, each field changes, over all steps and with fields and answers only: who is connected, what is mounted, registered, redialled, queued, in flight, told and remembered; every other field stays |
| McpRedial.RedialEndsExactly | src/agent/tools.ts:1149-1190 | a redial that returns to the loop owning the reconnect state ends the loop if and only if a client is connected and "connected" was the last status it reported, or that status was a final failure; the first changes nothing else, the second takes stubs and registration; in every other case the stubs are mounted, the registration stays, "reconnecting" is told and the loop sleeps again |
| McpRedial.MountedClientIsConnected | src/agent/tools.ts:1365-1411 | a dialled client that is mounted uncancelled is connected, registered, its tools live, and "connected" told |
| McpRedial.LoopLivesUntilItEnds | src/agent/tools.ts:1089-1192 | over every run a redial loop sleeps or redials until its redial throws, brings a client or fails for good, until it moves cancelled, or a retry takes over; nothing else stops it and nothing brings it back |
| McpRedial.DeathIsRedialled | src/agent/tools.ts:1194-1225 | a transport death mounts the stubs, is told, and leaves such a loop |
| McpRedial.OutageOfAnyLengthEnds | src/agent/tools.ts:1089-1192 | after any number of refused redials, each told as "reconnecting", the first one that brings a client leaves it connected, registered and live, with nothing left reconnecting |
| McpToolset.Toolset.ConnectOneMCPServer | src/agent/tools.ts:1227-1281 | the closure's maps after the first segment are the protocol's next state of that name, and no other name changes |
| McpToolset.Toolset.LaunchRun | src/agent/tools.ts:1414-1415 | a new run replaces one of another epoch in the in-flight maps |
| McpToolset.Toolset.StartHandshake | src/agent/tools.ts:1277-1279 | a stale run stops before the dial, any other reports "connecting" |
| McpToolset.Toolset.AfterTrustCheck | src/agent/tools.ts:1264-1281 | the segment after the trust check is the protocol's trust step |
| McpToolset.Toolset.AfterDial | src/agent/tools.ts:1317-1363 | the segment after the dial is the protocol's continue step |
| McpToolset.Toolset.TakeClient | src/agent/tools.ts:1338-1412 | a client is turned away and closed, or mounted and installed |
| McpToolset.Toolset.AfterClose | src/agent/tools.ts:1385-1399 | the segment after closing an unwanted client |
| McpToolset.Toolset.ClearInFlight | src/agent/tools.ts:1416-1422 | a settled run clears the in-flight entries only if they are its own |
| McpToolset.Toolset.DropLiveClient | src/agent/tools.ts:1004-1010 | client, registration and tools go in the protocol's order |
| McpToolset.Toolset.HandleTransportDeath | src/agent/tools.ts:1194-1225 | only a death of the current epoch's connected client mounts stubs and starts a redial loop |
| McpToolset.Toolset.OnStatus | src/agent/tools.ts:1119-1144 | a redial loop hides "connecting" and transient failures and remounts stubs on "needs-auth" |
| McpToolset.Toolset.EnqueueServerOp | src/agent/tools.ts:931-946 | operations of a name queue up first in, first out |
| McpToolset.Toolset.PublicConnectMCPServer | src/agent/tools.ts:1437-1444 | the call remembers the epoch and whether the name was disabled |
| McpToolset.Toolset.PublicDisconnectMCPServer | src/agent/tools.ts:1479-1486 | the call disables the name and opens an epoch at once |
| McpToolset.Toolset.PublicRetryMCPServer | src/agent/tools.ts:1502-1513 | the call is dropped for a live server and queued otherwise |
| McpToolset.Toolset.BeginConnectOp | src/agent/tools.ts:1444-1476 | a queued connect of another epoch or a newly disabled name does nothing; else it dials under the right epoch |
| McpToolset.Toolset.BeginRetryOp | src/agent/tools.ts:1513-1531 | a queued retry of a live server does nothing; else it starts over under a new epoch |
| McpToolset.Toolset.ContinueDisconnectOp | src/agent/tools.ts:1486-1499 | the disconnect waits for the dial, drops the client and tools, and answers only if it still owns the name |
| McpToolset.Toolset.RunQueuedOp | src/agent/tools.ts:931-941 | the head of the queue runs its next segment |
| McpToolset.Toolset.AfterBackoff | src/agent/tools.ts:1104-1148 | a loop that no longer owns the reconnect state stops; else it drops the stubs and redials |
| McpToolset.Toolset.AfterRedial | src/agent/tools.ts:1149-1191 | the loop ends on success, on a terminal failure, or when it lost ownership; else it remounts stubs and goes on |
| McpToolset.Toolset.GiveUp | src/agent/tools.ts:1166-1176 | a terminal failure leaves no stub, registration or loop |
| McpToolset.Toolset.BackOff | src/agent/tools.ts:1177-1190 | a transient failure is reported as reconnecting with the stubs back |
| McpToolset.Toolset.CloseEveryClient | src/agent/tools.ts:1594-1601 | disposal unregisters and closes every connected client of every name |
| McpToolset.Toolset.DisposeSegment | src/agent/tools.ts:1561-1606 | one segment of disposal advances every name by the protocol's dispose step |
| PatchRoundTrip.ParseAfterPrint | src/agent/codex-apply-patch.ts:4-10 | parsing the printed text of any well-formed patch gives the patch back |
| PatchRoundTrip.WellFormedIsParserRange | src/agent/codex-apply-patch.ts:77-187 | a patch is well-formed exactly when some text parses to it |
| PatchRoundTrip.PrintAfterParse | src/agent/codex-apply-patch.ts:77-187 | for every accepted text, parse(print(parse(s))) = parse(s) |
| PatchRoundTrip.HunkRoundTrip | src/agent/codex-apply-patch.ts:275-339 | one printed hunk is read back with what follows it left over |
| PatchRoundTrip.OpRoundTrip | src/agent/codex-apply-patch.ts:104-179 | one printed file operation is read back with what follows it left over |
| PatchRefusals.OneFinalNewline | src/agent/codex-apply-patch.ts:83-87 | a text is parsed the same with and without one final newline, and refused with two |
| PatchRefusals.EnvelopeIsRead | src/agent/codex-apply-patch.ts:77-100 | a text is refused over its first line, over its last line, or over the operations between them, and exactly then |
| PatchRefusals.HunkLinesAreRead | src/agent/codex-apply-patch.ts:296-323 | a hunk takes the lines up to the first that is none of its own, and ends there at the end, at its marker, or before the next hunk or file; any other marker and any other line are refused |
| PatchRefusals.EmptyHunkIsRefused | src/agent/codex-apply-patch.ts:325-333 | exactly when it has no line, no marker and no header text |
| PatchRefusals.HeaderIsRead | src/agent/codex-apply-patch.ts:283-295 | what of an opening line is the header |
| PatchRefusals.PathIsRead | src/agent/codex-apply-patch.ts:352-367 | a path is refused exactly when nothing is left of it, or when it starts at a root or a drive |
| PatchRefusals.OpIsRead | src/agent/codex-apply-patch.ts:104-184 | an operation is refused over its first line, over its paths, or over what follows its lines; else it has the path, the content and the hunks written |
| PatchParser.ParseHunkAt | src/agent/codex-apply-patch.ts:275-339 | the index loop returns the hunk of the grammar and moves past it, or the same error |
| PatchParser.ParseHunksAt | src/agent/codex-apply-patch.ts:159-166 | the hunk loop of an update reads all its hunks |
| PatchParser.TakeAddedAt | src/agent/codex-apply-patch.ts:112-118 | the content loop of an added file |
| PatchParser.ParseOpAt | src/agent/codex-apply-patch.ts:104-184 | one operation is read and at least one line consumed |
| PatchParser.ParseBody | src/agent/codex-apply-patch.ts:100-184 | the loop over the body ends and reads every operation or fails like the grammar |
| PatchParser.ParseCodexApplyPatch | src/agent/codex-apply-patch.ts:77-187 | the whole parser, envelope errors included |
| PatchSearch.FindIsLeastAtStrictestTier | src/agent/codex-apply-patch.ts:392-442 | without an End of File marker the search returns the least start from the cursor at the strictest tier that has any, and -1 exactly when no window matches after trimming |
| PatchSearch.FindAtEndOfFile | src/agent/codex-apply-patch.ts:401-427 | with the marker: at the strictest of the three tiers at which the last window of the file or a window from the cursor on matches, the last window wins, even before the cursor, else the least start from the cursor; -1 exactly when there is none |
| PatchSearch.HeaderIsLeastAtStrictestTier | src/agent/codex-apply-patch.ts:375-389 | a header line is found at the strictest tier that has any, first from the cursor |
| PatchSearch.MatchWindow | src/agent/codex-apply-patch.ts:411-420 | the inner loop compares one window |
| PatchSearch.TryFrom | src/agent/codex-apply-patch.ts:406-423 | the loop over starts returns the first matching window |
| PatchSearch.FindSequence | src/agent/codex-apply-patch.ts:392-442 | the three-tier loop over one or two starts |
| PatchSearch.FindLineFrom | src/agent/codex-apply-patch.ts:375-389 | the three loops of the header search |
| PatchPlace.HunkPlace | src/agent/codex-apply-patch.ts:221-265 | for every hunk: old lines give way to the new ones at the block found for them, the least at the strictest tier from the header on, or the last window with the marker; a pure insertion is appended with the marker and else stands right behind the header line found, or at the cursor; a hunk with neither moves the cursor; it fails exactly over a header or lines found nowhere |
| PatchPlace.UpdateFactorsTheFile | src/agent/codex-apply-patch.ts:213-273 | without End of File markers a successful update factors the lines as gap, old block, gap, … and keeps every gap, each gap the shortest there is: up to the first block at the strictest tier behind the first header line at the strictest tier |
| PatchPlace.MarkedInsertionAppends | src/agent/codex-apply-patch.ts:239-247 | an insertion with the End of File marker is appended to the text |
| PatchPlace.NoHunksKeepTheText | src/agent/codex-apply-patch.ts:213-218 | without hunks a text stays, but for a missing final newline |
| PatchPlace.HunkSides | src/agent/codex-apply-patch.ts:232-237 | the old side of a hunk is its context and removed lines, the new side its context and added lines, each in their order |
| PatchPlace.BeyondCursorIsUntouched | src/agent/codex-apply-patch.ts:220-266 | for every hunk list the lines from the cursor on stay a suffix of the original |
| PatchPlace.WrittenTextReadsBack | src/agent/codex-apply-patch.ts:214-218 | written lines are read back, except that one empty line reads back as no line |
| PatchApply.CollectLines | src/agent/codex-apply-patch.ts:232-237 | the loop over a hunk's lines collects the old and the new ones |
| PatchApply.ApplyHunkAt | src/agent/codex-apply-patch.ts:221-265 | one turn of the hunk loop |
| PatchApply.ApplyUpdateHunks | src/agent/codex-apply-patch.ts:213-273 | the whole applier, with its two errors |
| PatchExec.PlanThenWriteRefinesOneByOne | src/agent/apply-patch-tool.ts:107-135 | when no update reads a path an earlier operation touches, planning everything first gives the same files or the same error as applying one by one |
| PatchExec.DistinctPathsAreFresh | src/agent/apply-patch-tool.ts:70-105 | pairwise distinct resolved paths meet that condition |
| PatchExec.SecondUpdateReplacesTheFirst | src/agent/apply-patch-tool.ts:127-136 | for any two updates that apply: both are planned on the original files and written in order; the first text survives if and only if the files differ or the texts agree; on one file the run is that of the second update alone; and it is the one-by-one run if and only if the files differ or the second makes of the first text what it makes of the original |
| PatchExec.SecondUpdateLosesTheFirst | src/agent/apply-patch-tool.ts:128-128 | an example: of two lines inserted at the top of one file only the second is there afterwards |
| PatchExec.MoveArrivesUnlessOntoItself | src/agent/apply-patch-tool.ts:96-104 | an update that moves a file leaves the updated text at the target if and only if the target is another path than the source; moved onto itself the file is deleted |
| PatchOutcome.OneOperation | src/agent/apply-patch-tool.ts:70-105 | one operation alone: an added file has its content, a deleted one is gone, an updated one has its updated text, at the target and not at the source if it moves; a rejected path, a missing source and a hunk that does not apply are the errors |
| PatchOutcome.FirstErrorStopsThePatch | src/agent/apply-patch-tool.ts:127-128 | a patch succeeds exactly when each operation would alone on the files as they are; else the first that would not gives the error |
| PatchOutcome.LastOperationDecides | src/agent/apply-patch-tool.ts:127-136 | in a patch that succeeds, the last operation to touch a path leaves it as it would alone on the files as they were |
| PatchOutcome.EveryOperationShows | src/agent/apply-patch-tool.ts:127-136 | when no two operations touch one file, every operation of a successful patch shows afterwards |
| PatchExec.OnlyAffectedPathsChange | src/agent/codex-apply-patch.ts:190-207 | only paths that extractAffectedPaths lists change |
| PatchExec.ExtractAffectedPaths | src/agent/codex-apply-patch.ts:190-207 | every path once, in encounter order, source before destination |
| PatchExec.PlanSteps | src/agent/apply-patch-tool.ts:127-128 | the planning loop reads the files as they are |
| PatchExec.Workspace.WriteSteps | src/agent/apply-patch-tool.ts:129-136 | the writing loop |
| PatchExec.Workspace.ApplyPatch | src/agent/apply-patch-tool.ts:120-141 | any parse, policy, read or hunk error leaves every file unchanged; else the files are those of plan-then-write |
| CompactionRuns.FoldingIsBounded | src/agent/compaction.ts:35-55 | after any history, between two measurements at or under the threshold there are at most two threshold folds and two overflow folds |
| CompactionRuns.NonConvergedFoldStopsFolding | src/agent/compaction.ts:292-310 | after any fold, whatever its reason: if the first measurement after it is over the threshold, non-convergence is reported and no threshold fold follows until a measurement at or under it |
| CompactionRuns.EveryFoldIsMeasured | src/agent/compaction.ts:233-235 | every fold, whatever its reason, waits for its first measurement |
| CompactionRuns.ContinuationsAreConserved | src/agent/compaction.ts:500-522 | "infer" and "meter" resumes never exceed the folds issued plus what was owed |
| CompactionRuns.OperatorFoldsWereRequested | src/agent/compaction.ts:541-603 | operator folds never exceed the manual and handoff requests that armed one |
| CompactionRuns.NothingIsInvented | src/agent/compaction.ts:340-367 | both from a fresh session |
| CompactionRuns.CallIsFair | src/agent/compaction.ts:237-244 | one call, with any arguments, restores no rail and invents no continuation |
| CompactionRuns.CancelRestores | src/agent/compaction.ts:586-617 | with nothing manual pending, any number of handoffs among syncs and measurements followed by a cancel gives back the idle arming and the instructions and keeps the latest threshold arming |
| CompactionRuns.CancelRestoresExactlyWhen | src/agent/compaction.ts:588-594 | any number of handoffs, syncs and measurements followed by a cancel restores idle arming and instructions if and only if nothing manual was pending at the start or the older snapshot happens to agree |
| CompactionRuns.CancelDropsManualInstructions | src/agent/compaction.ts:541-617 | /compact instructions followed by a cancelled handoff are lost |
| CompactionEffects.CallEffects | src/agent/compaction.ts:185-617 | for every state and every call: when, and to what, each field changes and what is answered, in counts and numbers: what arms a fold, which calls fold and for which reason, what every fold spends and owes, what a measurement restores, what requests keep and bring back |
| CompactionEffects.MeasurementDecidesNextPause | src/agent/compaction.ts:205-213 | after any history and whatever comes between short of a fold or another measurement: a tool pause or message before an inference is folded for the operator exactly when an operator fold is armed, and else for the threshold exactly when the cap is not reached and the measurement exceeded the threshold (and, if a fold was measured, lay at least the wide gap above it), or the window is full, or the live estimate standing in for usage is over |
| CompactionEffects.FoldReplacesInferences | src/agent/compaction.ts:358-366 | a fold keeps the other actions of its cycle in their order, takes the place of the inferences and asks for the re-entry |
| CompactionEffects.OverThresholdFolds | src/agent/compaction.ts:313-367 | one such pause: a fresh session that measures twice its threshold is folded at the next tool pause |
| CompactionGovernor.LiveGovernor.constructor | src/agent/compaction.ts:149-192 | a fresh closure, in order; the new state is the specification's and both rails stay within their caps |
| CompactionGovernor.LiveGovernor.NoteInferenceDone | src/agent/compaction.ts:282-314 | the whole state after a measurement; the new state is the specification's and both rails stay within their caps |
| CompactionGovernor.LiveGovernor.PreflightInfer | src/agent/compaction.ts:316-329 | state and actions of a preflight fold, never past the cap; the new state is the specification's and both rails stay within their caps |
| CompactionGovernor.LiveGovernor.InterceptActions | src/agent/compaction.ts:340-367 | state and actions when a fold takes the place of an inference, past the cap only on request; the new state is the specification's and both rails stay within their caps |
| CompactionGovernor.LiveGovernor.NoteIdleTurn | src/agent/compaction.ts:379-399 | when the idle slot is armed and who delivers the re-entry; the new state is the specification's and both rails stay within their caps |
| CompactionGovernor.LiveGovernor.InterceptIdleContinuation | src/agent/compaction.ts:424-455 | the idle fold, or disarming at the cap; the new state is the specification's and both rails stay within their caps |
| CompactionGovernor.LiveGovernor.InterceptOverflow | src/agent/compaction.ts:462-486 | at most two overflow folds, spending any arming; the new state is the specification's and both rails stay within their caps |
| CompactionGovernor.LiveGovernor.ResumeAfterCompact | src/agent/compaction.ts:508-522 | each owed continuation is answered once; the new state is the specification's and both rails stay within their caps |
| CompactionGovernor.LiveGovernor.RequestManual | src/agent/compaction.ts:541-561 | arming, kick or no-op; the new state is the specification's and both rails stay within their caps |
| CompactionGovernor.LiveGovernor.RequestHandoff | src/agent/compaction.ts:586-603 | snapshot, replacement and arming; the new state is the specification's and both rails stay within their caps |
| CompactionGovernor.LiveGovernor.CancelManual | src/agent/compaction.ts:610-617 | the snapshot comes back, the threshold arming stays; the new state is the specification's and both rails stay within their caps |
| DirectorRuns.BudgetsHold | src/agent/director.ts:105-108 | after any history, between two non-empty messages at most 3 open-task, 2 declined-call and 2 marker-echo nudges, and between turn boundaries at most 2 abort recoveries, whatever the base director does |
| DirectorRuns.DecideCosts | src/agent/director.ts:1000-1022 | one decision pays for the nudge it takes and gives nothing back, unless a non-empty message comes in |
| DirectorRuns.EmptyIsAnsweredEarly | src/agent/director.ts:944-957 | an empty message is decided before any budget is touched |
| DirectorFlow.EmptyMessagesInferOnlyWhenOwed | src/agent/director.ts:905-957 | an empty message never consults the base director and infers only as an owed answer to a fold or the armed credential refresh |
| DirectorFlow.EmptyInferencesArePaid | src/agent/director.ts:905-957 | over every run the inferences empty messages start are no more than the folds issued and the refreshes armed |
| DirectorFlow.MessageResetsUnlessFolded | src/agent/director.ts:919-1011 | a non-empty message resets the budgets exactly when it is no credential refresh and the idle slot is not armed, or is armed for the threshold only and at the cap; else the budgets stay as they are, and a message folded away is owed an answer |
| DirectorFlow.RacedMessageKeepsSpentBudget | src/agent/director.ts:1000-1011 | a run from a fresh session in which the operator's next message leaves a spent nudge counted |
| DirectorFlow.DecideTells | src/agent/director.ts:876-898 | every notice goes out behind the settled actions of its own decision; it waits if the base director throws and is lost if the coordinator fails the decision; the task list follows the turn unless noting it failed |
| DirectorFlow.CoordinatorFailsExactly | src/agent/director.ts:574-586 | a decision fails over the coordinator if and only if the event is a finished turn and a question the decision comes to is one the coordinator throws at: while the turn is noted; or, unless the echo nudge, the base director's exception or an idle arming comes first, whether it is active, at a gate, on which step, still at a gate; or the directive on the way out |
| DirectorCycles.NoticesAreConserved | src/agent/director.ts:876-897 | over every run the notices leave the queue once each and in order, told or dropped; those told and those still pending are all that were pushed if and only if at no step do the guards hold at which the coordinator fails a decision while a notice waits or comes up |
| DirectorCycles.DirectiveThrowDropsNotice | src/agent/director.ts:890-897 | a decision that loses the notice of a task it has already opened |
| DirectorCycles.NoBareWait | src/agent/director.ts:85-100 | a decision that ends in a wait also infers, runs tools or replies; only a dropped approval waits bare |
| DirectorCycles.SettledWaitContinues | src/agent/director.ts:89-99 | settling replaces a bare last wait by an empty reply and changes nothing else |
| DirectorCycles.IdleFoldSettles | src/agent/director.ts:1205-1218 | an armed idle fold is folded by the next empty message and settled with a reply by the one after |
| DirectorCycles.LiveTasksAreHydrated | src/agent/director.ts:1343-1356 | at every point of a run that starts with no tasks the live task list is the one hydrated from the finished turns, if and only if no coordinator throws on a turn whose task calls change that list |
| DirectorCycles.LiveTasksFollowNotedTurns | src/agent/director.ts:1055-1083 | with such throws, the live list is the one the turns that were noted lead to |
| DirectorCycles.InterruptedTurnDiverges | src/agent/director.ts:1055-1083 | one turn after which the director has no task and its transcript has one |
| DirectorNudges.StepNudgesAreBounded | src/agent/director.ts:1246-1273 | a model that ends turns without tools gets at most two workflow-step nudges, and the next turn that would get one gets the stuck reply |
| DirectorNudges.CountedNudgesAreSent | src/agent/director.ts:1189-1192 | over a base director that sends no nudges, a decision carries a nudge exactly when it took that way |
| DirectorNudges.MarkerEchoIsWithheldUnlessFleetIdles | src/agent/director.ts:1186-1293 | a marker-only turn is passed on as it came if and only if the echo budget is spent, the session may idle with its fleet, tasks are open, the base decision ends the turn, and no check-in, workflow step, gate or throw comes first; else only replies of the director's own go out |
| DirectorNudges.MarkerGoesOut | src/agent/director.ts:1288-1293 | a run from a fresh session at whose end the marker is the reply |
| DirectorGovernor.DirectorRunRunsGovernor | src/agent/director.ts:900-1218 | what a director run does to its governor is a run of the governor's own calls, with the same folds for the same reasons |
| DirectorGovernor.SessionFoldingIsBounded | src/agent/director.ts:905-1218 | after any history, between two inferences that measure at or under the threshold at most two decisions fold for the threshold and two for an overflow |
| DirectorTable.DecisionTable | src/agent/director.ts:856-1316 | every decision, by fields and answers: which of its 26 ways each event goes, guard by guard, and what each way sends, with the base actions a fold, a nudge or a check-in keeps, in their order, settled and with the notices behind them |
| DirectorTable.NoticesAndReplies | src/agent/director.ts:876-889 | the notices go out one by one in their order; a turn that only echoes the marker has its replies withheld, each where it stood |
| DirectorAnswers.BaseGetsThroughExactly | src/agent/director.ts:1189-1314 | the base decision is settled and sent as it is, with replies withheld on a marker echo, exactly when no guard of the director's own holds: no early answer, rejected call, echo nudge, fold, idle arming, check-in, workflow step, open tasks or fleet allowance |
| DirectorAnswers.MessageIsAnswered | src/agent/director.ts:856-1316 | every message with content, over a base director that would infer, starts an inference or a fold that owes it |
| DirectorAnswers.OwedAnswerIsGiven | src/agent/director.ts:905-919 | an inference owed after a fold is started on the re-entry, unless the window is full and one more fold, below the cap, owes it |
| DirectorNotes.BudgetsAreNoted | src/agent/director.ts:1000-1066 | what a message, a finished turn and a tool result do to each budget and streak |
| DirectorNotes.CallsAreTracked | src/agent/director.ts:1067-1136 | the tool calls waited for are those a noted turn made that have not come back |
| DirectorNotes.AnswersAreNoted | src/agent/director.ts:1027-1136 | an answered question and a turn with content are remembered |
| DirectorNotes.DecisionTakes | src/agent/director.ts:1223-1248 | a decision takes of what was noted the operator's answer once it lets a step go for it, and the check-in once it is sent, and nothing else |
| DirectorNotes.CheckInsAreRare | src/agent/director.ts:1036-1051 | after any history, between two messages or turns with text at most one check-in goes to a silently working model |
| Reactor.FiltersKeepTheRest | src/agent/director.ts:1262-1273 | taking out inferences or terminal actions keeps exactly the others, in their order |
| ChatDirector.ChatDirectorImpl.constructor | src/agent/director.ts:520-554 | a fresh director, in order; new state and decision are the specification's, and every nudge budget and the governor's rails stay within their caps |
| ChatDirector.ChatDirectorImpl.NoteBlocks | src/agent/director.ts:1067-1096 | the loop over the blocks of a turn; new state and decision are the specification's, and every nudge budget and the governor's rails stay within their caps |
| ChatDirector.ChatDirectorImpl.NudgePhase | src/agent/director.ts:1220-1314 | loop protection, then the workflow step, then the open tasks; new state and decision are the specification's, and every nudge budget and the governor's rails stay within their caps |
| ChatDirector.ChatDirectorImpl.DecideInner | src/agent/director.ts:900-1315 | the inner decision, phase by phase; new state and decision are the specification's, and every nudge budget and the governor's rails stay within their caps |
| ChatDirector.ChatDirectorImpl.Decide | src/agent/director.ts:856-898 | the whole decision with its notices and exceptions; new state and decision are the specification's, and every nudge budget and the governor's rails stay within their caps |
| ChatDirector.HydrateTasksFromTurns | src/agent/director.ts:1345-1356 | the replay loop computes the hydrated list |
| WatchdogRuns.BudgetIsConserved | src/agent/tool-execution-watchdog.ts:206-302 | timers late or not, what is left is the budget minus the unfrozen time used, the clock is used plus frozen time, and no uncalled-for abort comes before the budget is used up |
| WatchdogRuns.AbortsExactlyAtTheBudget | src/agent/tool-execution-watchdog.ts:236-252 | with timers on time and no abort or disposal from outside, the signal aborts exactly when unfrozen time reaches the budget, by wall time at most budget plus ceiling per freeze |
| WatchdogRuns.SpentBudgetAbortsOnResume | src/agent/tool-execution-watchdog.ts:246-249 | a spent budget aborts the moment its freeze ends |
| WatchdogRuns.BudgetIsWholeMilliseconds | src/agent/tool-execution-watchdog.ts:212-252 | the budget is the whole milliseconds of the timeout, or one where that is less than one, and its clock starts at once unless the parent has aborted |
| WatchdogEffects.StepEffects | src/agent/tool-execution-watchdog.ts:236-298 | for every state, call and timer: when, and to what, the clock, the freeze and the end of a budget change, field by field |
| WatchdogEffects.AbortIsFinal | src/agent/tool-execution-watchdog.ts:236-241 | an aborted budget stays aborted over every run |
| WatchdogEffects.DisposalIsSilent | src/agent/tool-execution-watchdog.ts:293-298 | a disposed budget never has a timer again over any run, and only the parent can still abort its signal |
| WatchdogRuns.StaleTokenChangesNothing | src/agent/tool-execution-watchdog.ts:275-278 | a token from before a forced ceiling resume changes nothing, whatever happened in between |
| WatchdogRuns.FrozenWhileHeld | src/agent/tool-execution-watchdog.ts:254-284 | among callers that return only what they hold, the depth is the number of tokens of the current generation that are held |
| WatchdogRuns.BalancedCallsRestoreDepth | src/agent/tool-execution-watchdog.ts:254-284 | balanced calls restore the depth when no ceiling fired |
| WatchdogRuns.ChainRestores | src/agent/tool-execution-watchdog.ts:429-443 | pausing and resuming a chain of any length costs no budget and restores every depth, however long the freeze and whatever others hold and give back meanwhile, when no ceiling fired |
| Watchdog.PauseableTimeout.constructor | src/agent/tool-execution-watchdog.ts:206-220 | starts or is born aborted: new state as the specification function says |
| Watchdog.PauseableTimeout.Fire | src/agent/tool-execution-watchdog.ts:236-241 | the budget is gone and the signal aborts: new state as the specification function says |
| Watchdog.PauseableTimeout.Arm | src/agent/tool-execution-watchdog.ts:243-252 | runs on what is left, or fires: new state as the specification function says |
| Watchdog.PauseableTimeout.Pause | src/agent/tool-execution-watchdog.ts:254-273 | freezes what is left on the first pause only: new state as the specification function says |
| Watchdog.PauseableTimeout.OnCeiling | src/agent/tool-execution-watchdog.ts:266-271 | a forced resume opens a generation: new state as the specification function says |
| Watchdog.PauseableTimeout.Resume | src/agent/tool-execution-watchdog.ts:275-284 | the last resume of the generation runs on: new state as the specification function says |
| Watchdog.PauseableTimeout.OnParentAbort | src/agent/tool-execution-watchdog.ts:286-288 | the parent's abort is passed on: new state as the specification function says |
| Watchdog.PauseableTimeout.Dispose | src/agent/tool-execution-watchdog.ts:293-298 | no timer is left: new state as the specification function says |
| ShellQuote.RoundTrip | src/agent/tool-aliases.ts:337-352 | for every argv, the shell reads back exactly argv if and only if it is not the three-element sh/bash/zsh -c/-lc wrapper |
| ShellQuote.QuoteRoundTrip | src/agent/tool-aliases.ts:330-333 | one quoted argument is one word whose quote removal is the argument |
| ShellQuote.NormalizeIsInjective | src/agent/tool-aliases.ts:337-352 | two different argv arrays never give the same command string |
| ShellQuote.WrapperYieldsItsScript | src/agent/tool-aliases.ts:337-350 | a string is a command as it is; sh, bash or zsh by any one-line path with -c or -lc and a script yields the script |
| ShellQuote.OnlyShellsAreWrappers | src/agent/tool-aliases.ts:342-348 | and nothing else is taken for such a call |
| ShellQuote.QuotedExactlyWhenNeeded | src/agent/tool-aliases.ts:330-333 | an argument stays unquoted exactly when it is made of letters, digits and the signs that mean nothing to the shell |
| ShellQuote.BaseNameFollowsLastSlash | src/agent/tool-aliases.ts:346-346 | on one line the wrapper name is what follows the last slash |
| GrokSchemaRules.SanitizeIsIdempotent | src/agent/tool-schema-normalize.ts:282-312 | the rewrite is idempotent on every JSON tree |
| GrokSchemaRules.UnchangedExactlyWhenClean | src/agent/tool-schema-normalize.ts:282-312 | a schema is left alone exactly when it is clean at every schema position |
| GrokSchemaRules.OutputIsCleanEverywhere | src/agent/tool-schema-normalize.ts:277-304 | no $schema or $id at any schema position of the output, and every object in a properties map there declares a shape |
| GrokSchemaRules.AddedShapeFitsTheLiterals | src/agent/tool-schema-normalize.ts:231-248 | the shape added to const or enum admits exactly the types of the literals |
| GrokSchemaRules.LiteralsMeetTheAddedShape | src/agent/tool-schema-normalize.ts:231-248 | every literal meets the shape that is added for it |
| GrokSchemaRules.LiteralsAreConstOrEnum | src/agent/tool-schema-normalize.ts:235-240 | the literals are the const, or else the members of an enum that is a list, or none |
| GrokSchemaRules.SchemaPositions | src/agent/tool-schema-normalize.ts:252-304 | the rewrite reaches what stands under the keywords that hold a schema and under each name of those that hold schemas by name, drops $schema and $id, and leaves what any other key holds |
| GrokSchemaRules.ShapelessPropertyIsOpened | src/agent/tool-schema-normalize.ts:292-298 | a property without a shape becomes an open object |
| GrokSchemaKeeps.SanitizeKeeps | src/agent/tool-schema-normalize.ts:282-312 | what the rewrite may do and nothing else: drop $schema and $id, add to a node without a shape the one its literals have, and open a property that has neither; names, order, literals and every other value stay, at every schema position |
| GrokSchemaLiterals.LiteralsSurviveExactlyWhenSpared | src/agent/tool-schema-normalize.ts:282-312 | every enum, const, default and example value at a schema position survives, in order, if and only if no property without a shape and without a literal of its own has an additionalProperties that contains one |
| GrokSchemaKeeps.OpeningDropsAdditionalProperties | src/agent/tool-schema-normalize.ts:292-298 | an untyped property loses whatever its additionalProperties said |
| GrokSchema.WithLiteralShapeOf | src/agent/tool-schema-normalize.ts:231-248 | the shape step |
| GrokSchema.SanitizeSchema | src/agent/tool-schema-normalize.ts:282-312 | the recursive loops compute the specified rewrite |
| GrokSchema.SanitizeMap | src/agent/tool-schema-normalize.ts:288-303 | the inner loop over a map of schemas |
| LexicalRank.ScoreDependsOnTheSet | src/agent/lexical-rank.ts:92-134 | a score is unchanged by permuting or repeating the query tokens |
| LexicalRank.PositiveExactlyOnAMatch | src/agent/lexical-rank.ts:108-133 | a score is positive exactly when a token matches name or description directly or the whole-query bonus applies |
| LexicalRank.BestOfSpellings | src/agent/lexical-rank.ts:123-129 | a word scores as its best spelling |
| LexicalRank.DirectTiers | src/agent/lexical-rank.ts:62-79 | 3 for a name token, 2.5 for one but for its plural, 1 for a token of the description, 0.75 inside the name, 0.25 inside the description, each exactly where no better tier holds |
| LexicalRank.ParamTiers | src/agent/lexical-rank.ts:81-85 | 0.5 for a parameter name, 0.25 for its description |
| LexicalRank.PluralsFold | src/agent/lexical-rank.ts:19-21 | a plural folds to its word from three letters on, everything else to itself |
| LexicalRank.WordIsWorthItsBest | src/agent/lexical-rank.ts:116-131 | a word of the query is worth the best of its spellings, by name and description or, where they count, by parameters |
| LexicalRank.ScoreAddsUp | src/agent/lexical-rank.ts:92-134 | a score is what the words of the query are worth, each once, and a point more when the query stands inside the name, unless it is one word that is a name token already; nothing without a direct match |
| LexicalRank.GroupSpellings | src/agent/lexical-rank.ts:116-122 | spellings of one word are grouped in the order words first occur |
| LexicalRank.ScoreLexical | src/agent/lexical-rank.ts:92-134 | the loops compute the specified score |
| RankAndCut.CutIsTopCut | src/agent/lexical-rank.ts:143-159 | the cut shows the stable descending top items at or above the ratio floor, and hides one only behind `limit` better ones |
| RankAndCut.TopCutIsUnique | src/agent/lexical-rank.ts:143-159 | only one list is such a cut |
| RankAndCut.FloorIsTheShareOfTheBest | src/agent/lexical-rank.ts:153-154 | the floor is the ratio of the best positive score |
| ContextEstimate.Estimate.SyncFromTurns | src/agent/context-estimate.ts:130-146 | after any history of appends, truncations and rewrites the running count is overhead plus the from-scratch estimate of the last turns |
| ContextEstimate.Estimate.PrefixRefsMatch | src/agent/context-estimate.ts:123-128 | the cached turns are a prefix by reference |
| ContextEstimate.EstimateContextTokens | src/agent/context-estimate.ts:91-99 | the from-scratch loop |
| ContextEstimate.EstimateTurnTokens | src/agent/context-estimate.ts:83-89 | the loop over one turn |
| ContextEstimate.TokensFromChars | src/agent/context-estimate.ts:23-26 | characters over four, rounded up |
| ContextEstimate.MediaTokens | src/agent/context-estimate.ts:28-36 | media never counts more than the cap |
| ContextEstimate.TextOnlyBounds | src/agent/context-estimate.ts:83-99 | text-only turns of n blocks and c characters: between c/4 rounded up and (c+3n)/4 |
| ContextEstimate.BoundsAreTight | src/agent/context-estimate.ts:23-26 | both bounds are met |
| ContextEstimate.BlockCosts | src/agent/context-estimate.ts:38-81 | what every kind of block costs, in characters over four rounded up, parts, or the media cap and floor |
| ContextEstimate.BlocksAddUp | src/agent/context-estimate.ts:57-61 | blocks and the parts of a tool result cost what each costs |
| ContextEstimate.TurnsAddUp | src/agent/context-estimate.ts:91-99 | turns cost what their blocks cost |
| Tasks.NoteSaysUnchanged | src/agent/tasks.ts:154-183 | with distinct ids the no-op note is given exactly when the list stays equal |
| Tasks.NotedIsUnchanged | src/agent/tasks.ts:163-183 | a noted call changes nothing, even with repeated update ids |
| Tasks.NoteIsReliableExactlyWithoutOverruling | src/agent/tasks.ts:154-183 | for every list of updates: on all task lists with distinct ids the note is given exactly when the list stays equal, if and only if no patch sets a field otherwise than the last patch of its id |
| Tasks.RepeatedUpdateMisreports | src/agent/tasks.ts:167-181 | the shortest call on which it is not |
| Tasks.UpdateKeepsOrder | src/agent/tasks.ts:223-249 | updates keep existing tasks in place, leave unnamed ones alone, append only new ids and keep ids distinct |
| Tasks.IdsStayDistinctExactlyWhenAppendedOnce | src/agent/tasks.ts:223-249 | an update of a list with distinct ids keeps them distinct if and only if no two of its patches append the same new id |
| Tasks.RepeatedNewIdIsAppendedTwice | src/agent/tasks.ts:240-248 | the shortest call that breaks them |
| Tasks.CreateSets | src/agent/tasks.ts:211-222 | a new list holds the tasks given, to do unless they say otherwise |
| Tasks.LastPatchSets | src/agent/tasks.ts:223-239 | the last patch of a task sets what it gives and leaves the rest; a task without one stays |
| Tasks.NewTasksFollow | src/agent/tasks.ts:240-249 | behind the list come exactly the tasks that patches with a new id and a title make, in their order |
| Tasks.ApplyManageTasks | src/agent/tasks.ts:211-250 | the set, the last-wins map and the two loops |
| Tasks.DescribeManageTasksNoOp | src/agent/tasks.ts:154-183 | the loop judges every update on its own |
| Tasks.Runner.Run | src/agent/tasks.ts:192-207 | the tool's own list follows the same function |

## Left out

- Abort signals, backoff delays and the attempt counter of the MCP protocol: they decide when a dial or a sleep ends, and the model lets it end at any time with any result.
- The built-in Exa alias swap, tool-definition change callbacks, status payloads and error texts.
- Status callbacks that throw, and connecting a name that is already active, which the calling rule at `src/agent/tools.ts:350-354` excludes.
- Server names that contain the separator of mounted tool names: tools belong to one name in the model.
- Re-registering what a client's own transport does after it was closed; a closed client is only never installed again.
- Liveness: that a redial, a continuation or a timer eventually happens is not stated, only what each may do until it does.
- I/O failures while a planned patch is written, directory creation, and success labels.
- Path policy and permission decisions: the guard may reject any operation.
- Context-window tables, credential and overflow classification, model ids and session limits: arbitrary inputs of each call.
- The rewriting of inference options by `withCurrentTools` (tools, timeouts, retry policy, directive): it changes no action's kind.
- What the workflow coordinator's directive and step id say: only whether asking for them throws is modelled.
- Exceptions of other host callbacks: only the base director and the workflow coordinator throw.
- Clearing of cached denials, retry source ids and tool-set digests.
- Reply texts of the director are shortened.
- Watchdog.PauseableTimeout.Arm: does not model timer delays above 2^31-1 ms, which a host clamps, nor the host's one-millisecond minimum for a ceiling of zero.
- The salvage race after an abort and the resolution of tool timeouts.
- What a shell does with the words after reading them: an unquoted first word such as `A=b` is an assignment and a word such as `if` is reserved; aliases, and locale-dependent blanks.
- Own keys named `__proto__` in JSON schemas; numbers are reals.
- Tokenizing and lower-casing of names, descriptions and queries: the ranker starts from their results.
- Measuring the overhead of prompt and tools in the token estimate: the overhead is a given number.
- Invalid `manage_tasks` arguments, which leave the list alone, and the wording of notes.
- Prompts, model families, tool definitions, fleet tools and the terminal interface.
