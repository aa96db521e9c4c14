# Verification of OpenRoIS

A model of the parts of OpenRoIS that carry its guarantees, and proofs of those guarantees.
OpenRoIS is an HRI engine for the Robotic Interaction Service. Engines form a tree: an adapter
hosts components, a gateway reaches its child engines, and clients talk to the top engine.

The engine runs on one asyncio event loop. A coroutine is modelled by a program counter, and the
code between two awaits is one step, so a theorem about every run holds for every interleaving.
What handlers, backends, children and clocks do is left open: an outcome, a failure, a
cancellation and a deadline are steps that may come whenever they are possible.

Where the code updates an object in place there is a class with the same fields. Each of its
methods is proved to do what a step of the model says, and the theorems are about every run of
those steps.

| files | what they model |
|---|---|
| `Wrappers.dfy`, `Sequences.dfy` | an optional value, and lists without repetition |
| `Commands.dfy` | how commands and handlers end |
| `Turns.dfy`, `TurnsInvariant.dfy`, `TurnsTheorems.dfy`, `TurnsProgress.dfy`, `TurnsOutcomes.dfy`, `TurnsTakeover.dfy` | the starts of a local component: the takeover lock, abort marks, the latest start |
| `EventLoop.dfy`, `TurnsOnLoop.dfy` | the callbacks of a handler on the event loop, and the starts with them |
| `Hold.dfy`, `HoldTheorems.dfy`, `HoldSuspensions.dfy`, `HoldOutcomes.dfy` | a whole local component: suspension, held commands, events, and its starts |
| `Local.dfy` | the local component in place |
| `Ledger.dfy`, `LedgerHistory.dfy` | raised statuses and the errors they keep |
| `Sequence.dfy`, `SequenceProofs.dfy`, `SequenceSpec.dfy`, `SequenceOutcomes.dfy`, `SequenceProgress.dfy`, `SequenceIds.dfy` | the sequence of an execute: items in order, branches together |
| `CommandTable.dfy`, `CommandOutcomes.dfy`, `Numbers.dfy` | the command table: ids, completions, pruning |
| `Engine.dfy` | an engine and its children: engine ids, owners, the merged components |
| `Forwarding.dfy`, `PickSpec.dfy` | the pick of a component, and the condition sent down |
| `Ordering.dfy`, `OrderingDelivery.dfy` | the order of replies and notifications through tiers |
| `JsonRpc.dfy` | the framing and the outbox |
| `Child.dfy`, `ChildProofs.dfy`, `ChildTheorems.dfy`, `ChildAnswers.dfy`, `ChildEndings.dfy`, `ChildHolding.dfy`, `ChildDetach.dfy`, `ChildEngine.dfy` | the proxy of a child engine: replies, late replies, subscriptions, the end of the connection |
| `Like.dfy`, `Condition.dfy`, `ConditionProofs.dfy`, `ConditionGrammar.dfy` | the condition language |
| `TopoSort.dfy` | the topological sort of both generators |
| `Transport.dfy`, `TransportOutcomes.dfy` | the client transport |

## Where the code does not do what its comments say

- The comment at `engine/src/openrois/engine/local.py:245-247` promises that a start never runs
  its handler next to the one it replaces. When the stop handler leaves a takeover by a
  `CancelledError` of its own, which `except Exception` at line 974 does not catch, the takeover
  gives up the lock while the old handler still runs, and the next start runs beside it
  (`TurnsTheorems.ExclusiveIffHaltNeverFails`).
- `started` can differ from its history when the engine cancels a running start, which unwinds
  through its stop handler first (`TurnsTheorems.StartedIsHistoryIff`).
- The docstring at `engine/src/openrois/engine/local.py:910-914` promises that a suspend that fails
  lifts the hold it put in force. When the engine cancels the suspend, the `CancelledError` passes
  line 919, nothing lifts the suspension, and it holds the commands of a component no suspend
  stands for (`HoldSuspensions.CancelledSuspendHolds`).
- The docstring at `engine/src/openrois/engine/jsonrpc.py:16-18` and the comment at
  `engine/src/openrois/engine/child.py:182-186` promise that a client reads a reply before the
  notifications it causes. The order of the event loop gives that only when the caller waits as
  the reply comes. A reply that is handled while its caller is still in `_send` wakes nobody, and
  a notification handled next goes ahead of it (`Ordering.EarlyReplyBreaksOrder`). A caller that
  is cancelled, or whose deadline fires, between the reply and its turn passes no reply on, and
  the notification goes out alone (`Ordering.GivingUpBreaksOrder`).
- The comment at `engine/src/openrois/engine/child.py:23-25` promises that a subscription whose
  reply comes too late is ended. A timeout that strikes after the reply came and before the caller
  saw it remembers the request after its reply is gone, and the subscription stays
  (`ChildTheorems.LateTimeoutLeaves`). The same holds when the reply comes between an
  interruption and its except-branch (`ChildTheorems.VainIff`).
- A child that grants one id twice can have a held subscription ended
  (`ChildHolding.GrantedTwiceIsEnded`).
- A quoted property name that is a keyword prints without its quotes, so it does not round trip,
  and a query with such an argument is refused one tier down (`ConditionProofs.RoundTrip`,
  `Forwarding.ForwardingIsIdentity`).
- `allOf` of conditions that do not parse may parse (`ConditionProofs.InvalidCanJoin`).
- A reference nested more than 20 levels deep is not collected (`TopoSort.CollectRefsExact`).

## Model

| member | source | states |
|---|---|---|
| `TurnsTheorems.ExclusiveIffHaltNeverFails` | engine/src/openrois/engine/local.py:838-894 | In every run, however starts, stops, timeouts and cancellations interleave, a component never has two unfinished start handlers, exactly when no stop handler leaves a takeover by a cancellation of its own. The run that shows the failure is written out. |
| `TurnsTheorems.ReleasedOnce` | engine/src/openrois/engine/local.py:872-894 | Each turn of the takeover lock is released at most once, exactly when it is past the lock, and a taken turn has exactly one party left to release it: the waiting start or the done-callback. |
| `TurnsTheorems.OvertakenNeverOK` | engine/src/openrois/engine/local.py:844-884 | A start that a stop or a newer start overtook ends with ABORT, with TIMEOUT if it never ran, or by cancellation, never with OK. Marks and the latest start are always starts that have not ended. |
| `TurnsTheorems.StartedIsHistoryIff` | engine/src/openrois/engine/local.py:829-834 | `started` equals its history (the latest start reached has no stop after it and has not ended other than OK) in every run exactly when the engine cancels no running start and no stop handler fails. Both counterexample runs are written out. |
| `TurnsOutcomes.BeginsIffNotOvertaken` | engine/src/openrois/engine/local.py:872-884 | In every run a start that goes on with its turn begins its handler exactly when neither a newer start nor a stop came since it arrived. Otherwise it ends with ABORT and never ran. |
| `TurnsOutcomes.StartOutcomes` | engine/src/openrois/engine/local.py:798-836 | In every run, how a start that has ended ended. If it ran: cancelled when the engine cancelled it, else ABORT when a newer start or a stop came before its end, else what its handler reports: OK, the status its exception names, or ERROR. If it never ran: the timeout or the cancellation it gave up with, or ABORT as its turn came. |
| `TurnsOutcomes.OvertakenIff` | engine/src/openrois/engine/local.py:838-858 | In every run a start counts as overtaken exactly when a newer start or a stop came while it had not ended. |
| `TurnsTakeover.TurnIsTaken` | engine/src/openrois/engine/local.py:886-894 | In every run the lock goes to the start that waits longest. It stops the handler of the start it replaced exactly when that handler runs, waits for the end of that start exactly when the handler is done, and has its turn at once exactly when there was none. |
| `TurnsTakeover.ReplacesLatest` | engine/src/openrois/engine/local.py:838-858 | In every run a start replaces the start that arrived just before it exactly when that one has not ended then, and this never changes. |
| `TurnsTakeover.HandlerIs` | engine/src/openrois/engine/local.py:872-884 | In every run the handler of a start began exactly when it got its turn before anything overtook it, and is done exactly when a step ended it, in that way. |
| `TurnsInvariant.InvAfter` | engine/src/openrois/engine/local.py:838-907 | The lock, the queue of its waiters, the marks and the phases of the starts stay consistent in every run. |
| `TurnsProgress.TurnCanCome` | engine/src/openrois/engine/local.py:858-894 | From every state of every run, a start that waits in the queue can still get its turn, with nobody failing, giving up or being cancelled: some continuation of the run releases its turn, once, and the start no longer waits. The lock is never stuck. |
| `TurnsProgress.LockIsReleased` | engine/src/openrois/engine/local.py:872-894 | A turn that holds the lock is at most five steps away from its release, each the end of a handler or a coroutine that goes on. |
| `EventLoop.NextIsNextRegistered` | engine/src/openrois/engine/local.py:960-965 | On the event loop the callback that runs next is the first one registered on its future that has not run, so every one registered before it has. |
| `TurnsOnLoop.StartSeesFirst` | engine/src/openrois/engine/local.py:798-836 | When a takeover resumes from its wait for a handler, that handler is done and the start that ran it was told first. It is derived from the order of registration: the start registers when it begins its handler, the takeover when it halts the backend or finds the handler done. |
| `TurnsOnLoop.LoopRunsAreRuns` | engine/src/openrois/engine/local.py:960-965 | Every run of the starts together with the queue of the event loop, where a takeover waits for nothing but its callback, is a run of the starts as the other theorems take it. |
| `TurnsOnLoop.ExclusiveOnLoop` | engine/src/openrois/engine/local.py:245-247 | On the event loop, a component whose stop handler fails no takeover never has two unfinished start handlers. |
| `HoldTheorems.BeginsOnlyUnsuspended` | engine/src/openrois/engine/local.py:505-527 | On a RoIS_Common component a function command begins, and a start takes its turn, only while the component is operable and no suspension is in force. |
| `HoldTheorems.NoLostWakeUp` | engine/src/openrois/engine/local.py:933-951 | A held command waits on the suspension in force, or the one it waits on is released and its waking is possible, also across a resume and another suspend. What it does when it wakes is the next row. |
| `HoldOutcomes.HeldGoesOn` | engine/src/openrois/engine/local.py:933-951 | In every run, a held command that is woken ends with ABORT exactly when a stop or the end of the engine lifted the suspension it waited on. When a resume or the failure of the suspend lifted it, the command begins, as a start by taking its turn, exactly when the component is operable and not suspended again, is held again exactly when it is suspended again, and ends with ERROR exactly when it is neither. |
| `HoldOutcomes.HeldAbortsOnlyStopped` | engine/src/openrois/engine/local.py:933-951 | In every run a held command ends with ABORT only by waking after a stop or the end of the engine lifted its suspension. |
| `HoldOutcomes.AbortedIffStopped` | engine/src/openrois/engine/local.py:953-958 | In every run a suspension was aborted exactly when a stop or the end of the engine lifted it. |
| `HoldOutcomes.LiftsIff` | engine/src/openrois/engine/local.py:896-931 | In every run a step lifts the suspension in force exactly when it is a stop that runs its handler, the end of the engine, a resume that ended OK, or the failure of the suspend that put it in force. |
| `HoldOutcomes.ArrivalAnswers` | engine/src/openrois/engine/local.py:493-527 | In every run, of a command that arrives: ERROR exactly when the component is not operable, OK at once exactly when there is nothing to do, held exactly when it is a start or a function command under a suspension, and otherwise its handler or its turn begins. Which suspension is then in force, and that exactly a start and a stop that go on overtake the starts that have not ended. |
| `HoldOutcomes.OperableAsSet` | engine/src/openrois/engine/local.py:422-442 | In every run a component is operable as it was set last, and not once the engine stopped. |
| `HoldOutcomes.CommandReports` | engine/src/openrois/engine/local.py:798-836 | In every run a command whose handler ran ends with what its handler reports, unless the engine cancelled the command, and then it ends cancelled. |
| `HoldTheorems.HeldAtStopNeverBegins` | engine/src/openrois/engine/local.py:896-907 | A command held when a stop lifts its suspension never begins, and ends with ABORT unless its timeout or its cancellation came first. |
| `HoldTheorems.LiftedOnce` | engine/src/openrois/engine/local.py:953-958 | A suspension is in force, or was lifted exactly once. |
| `HoldSuspensions.LiftedByOneStep` | engine/src/openrois/engine/local.py:896-931 | In every run a suspension is in force, or exactly one step of the run lifted it: a stop that runs its handler, the end of the engine, a resume that ended OK, or the failure of the suspend that put it in force. |
| `HoldTheorems.DeliveredArePublishedClean` | engine/src/openrois/engine/local.py:739-750 | In every run as many events went out as were published while the component was operable and not suspended, and each went out in that state. |
| `HoldSuspensions.BackedIffNotCancelled` | engine/src/openrois/engine/local.py:909-921 | In every run the suspension in force is that of one suspend command, and that command still runs or ended OK exactly when the engine did not cancel it. Otherwise it ended cancelled. |
| `HoldSuspensions.CancelledSuspendHolds` | engine/src/openrois/engine/local.py:909-921 | The run in which the engine cancels a suspend: it ends without OK, its suspension stays in force, and the next function command is held. |
| `HoldTheorems.RunProjects` | engine/src/openrois/engine/local.py:493-527 | Every run of a component is a run of its starts, so what holds in every run of the starts holds inside the component. |
| `HoldTheorems.StartsAreExclusive` | engine/src/openrois/engine/local.py:245-247 | The exclusivity of starts for whole components, with suspends, resumes, held commands and functions around them. |
| `HoldTheorems.StartedMeansStarted` | engine/src/openrois/engine/local.py:829-834 | On whole components, with no running start cancelled by the engine and no stop handler that fails a takeover, `started` is what the history says. |
| `HoldTheorems.NoOpIffNotStarted` | engine/src/openrois/engine/local.py:505-511 | In those runs, on an operable RoIS_Common component, a suspend and a resume end OK at once and change nothing else exactly when the history says that the component is not started, and a stop when moreover the latest start has ended. |
| `Local.Component.Run` | engine/src/openrois/engine/local.py:493-527 | The code of a command up to its first await does what the step of the component machine says, in every branch. |
| `Local.Component.Held` | engine/src/openrois/engine/local.py:933-951 | A command waits on the suspension in force, ends with ERROR when the component is not operable, and else takes its turn or begins. |
| `Local.Component.HeldWakes` | engine/src/openrois/engine/local.py:933-951 | A held command that wakes ends with ABORT when its suspension was aborted, and otherwise goes through the same checks again. `HoldOutcomes.HeldGoesOn` says what comes of it. |
| `Local.Component.StopComponent` | engine/src/openrois/engine/local.py:896-904 | A stop lifts the suspension, marks the latest start and begins its handler. |
| `Local.Component.SuspendComponent` | engine/src/openrois/engine/local.py:909-921 | A suspend puts one suspension in force, or joins the one in force. |
| `Local.Component.LiftSuspension` | engine/src/openrois/engine/local.py:953-958 | The suspension in force is released, and what it held is aborted when a stop lifts it. |
| `Local.Component.ShutDown` | engine/src/openrois/engine/local.py:422-442 | The end of the engine leaves the component not operable and not started, and aborts what its suspension held. |
| `Local.Component.StartArrives` | engine/src/openrois/engine/local.py:838-858 | A start replaces the latest one at once, marks it, and queues for its turn. |
| `Local.Component.TakesLock` | engine/src/openrois/engine/local.py:886-894 | The first waiter takes the lock and halts, awaits or passes over the previous start. |
| `Local.Component.StartBegins` | engine/src/openrois/engine/local.py:872-884 | A start with its turn ends with ABORT if it was marked and runs otherwise, and either way releases the lock. |
| `Local.Component.StartGivesUp` | engine/src/openrois/engine/local.py:861-871 | A start that waits no longer forgets its marks and leaves the release to the done-callback. |
| `Local.Component.StartResumes` | engine/src/openrois/engine/local.py:798-836 | A start that ends is ABORT when it was marked and else as its handler ended, is no longer marked or the latest, and ends started when it was the latest and is not OK. |
| `Local.Component.CommandResumes` | engine/src/openrois/engine/local.py:921-931 | The end of a command: a resume that succeeded, or the suspend that failed, lifts. |
| `Local.Component.PublishEvent` | engine/src/openrois/engine/local.py:739-771 | An event is delivered exactly when the component is operable and not suspended, and dropped otherwise. |
| `Ledger.DetailIffOutstanding` | engine/src/openrois/engine/local.py:597-609 | In every run an error has a detail exactly when it was reported and its status was not cleared since, and it is the detail it was reported with. |
| `LedgerHistory.RaisedIsLast` | engine/src/openrois/engine/local.py:666-712 | In every run, what is raised by a component, a resource or the engine is the status and message it raised last, unless it cleared it since. |
| `LedgerHistory.ReportsCarry` | engine/src/openrois/engine/local.py:674-706 | In every run each error was reported by a call that raised a status, and its detail has that status, that message and the component it was raised on. |
| `LedgerHistory.EngineReportsIff` | engine/src/openrois/engine/local.py:695-706 | A raise on the engine reports an error exactly when nothing or another status is raised on it. |
| `LedgerHistory.LivesAsLast` | engine/src/openrois/engine/local.py:451-466 | In every run a component lives as the last step that says so, whatever is raised and cleared. |
| `Ledger.KeptAreThoseRaised` | engine/src/openrois/engine/local.py:666-712 | In every run the kept errors are the disjoint union of those the raised statuses of all components, resources and the engine hold. |
| `Ledger.RaiseReportsIff` | engine/src/openrois/engine/local.py:674-685 | A raise reports an error exactly when it is an ERROR where none was raised, or a WARNING that no ERROR of another source covers and that was not the status already, and the component had not failed. |
| `Ledger.Statuses.RaiseStatus` | engine/src/openrois/engine/local.py:666-685 | A raise updates the status and, when the combined status changes, adds one error to the status that caused it. The kept errors stay those of the raised statuses. |
| `Ledger.Statuses.RaiseResourceStatus` | engine/src/openrois/engine/local.py:641-646 | A status of a resource reaches every component that uses it. |
| `Ledger.Statuses.ClearStatus` | engine/src/openrois/engine/local.py:687-693 | A clear withdraws one status and the errors it caused, and no others. |
| `Ledger.Statuses.RaiseEngineStatus` | engine/src/openrois/engine/local.py:695-706 | A raise on the engine reports exactly when its status differs from the one raised before, and keeps the earlier errors. |
| `Ledger.Statuses.ClearEngineStatus` | engine/src/openrois/engine/local.py:708-712 | The status of the engine goes with the errors it caused, and no others. |
| `Ledger.Statuses.ErrorDetail` | engine/src/openrois/engine/local.py:597-602 | The detail is OK exactly for an id that a raised status holds. |
| `Ledger.StatusIsStrongest` | engine/src/openrois/engine/local.py:451-466 | The status of a component is the strongest status that its lifecycle or anybody who raised one on it speaks for, with ERROR above WARNING above UNINITIALIZED above READY, and it is the only such status. |
| `SequenceSpec.FinishesAsSpecified` | engine/src/openrois/engine/engine.py:608-675 | For every interleaving of an execute that nothing cancels, every command ends as one sequential reading says: its own outcome, or ABORT and never begun when something before it ended other than OK. |
| `SequenceSpec.InterleavingsAgree` | engine/src/openrois/engine/engine.py:608-649 | Two interleavings of one execute end with the same statuses. |
| `SequenceOutcomes.StatusHasItsCause` | engine/src/openrois/engine/engine.py:608-675 | In every run, also cancelled at any await, a command has ended with a status exactly when a step ended it so: its own task with its outcome, its missing entry or component with ERROR, its cancellation with ABORT, or, before it began, with ABORT, an earlier command of its branch or an earlier item that ended other than OK or the end of a cancelled sequence. |
| `SequenceProgress.SequenceEnds` | engine/src/openrois/engine/engine.py:608-649 | In every run a sequence takes at most two steps for each command, one for each branch, two for each item and one more, and as long as its tasks are not done it can take another one, also while it is cancelled. A command whose entry is there can begin. |
| `SequenceProofs.ItemsTakeTurns` | engine/src/openrois/engine/engine.py:613-628 | No command of an item begins before every command of every earlier item has ended, also when the session goes away. |
| `SequenceProofs.EveryCommandEndsOnce` | engine/src/openrois/engine/engine.py:608-649 | Finished, stopped by a failure or cancelled at any await: once the tasks of a sequence are done, every command has ended, with the one status of its one notification. |
| `SequenceProofs.InvAfter` | engine/src/openrois/engine/engine.py:651-675 | The table, the branches and the notifications of a sequence agree in every run, with pruning between any two steps. |
| `SequenceIds.AdmittedIdsAreDistinct` | engine/src/openrois/engine/engine.py:505-524 | A list of ids without repetition, which `_execute` assigns or demands, gives every place of the sequence its own id. |
| `CommandTable.CompletedOnce` | engine/src/openrois/engine/engine.py:722-739 | In every run of the command table each command is notified at most once, with the status it ended with. |
| `CommandTable.NeverForgotten` | engine/src/openrois/engine/engine.py:741-748 | Over every run, pruning and the reuse of a finished id never lose an unfinished command: until it ends, its id leads to it. |
| `CommandTable.EndedStays` | engine/src/openrois/engine/engine.py:733-735 | The status a command ended with never changes. |
| `CommandOutcomes.EndedIff` | engine/src/openrois/engine/engine.py:722-739 | In every run a command has ended with a status exactly when a completion of it, or of the id that led to it, came with that status before any other. |
| `CommandOutcomes.ToldIff` | engine/src/openrois/engine/engine.py:722-739 | In every run a session was told of a command, under an id and with a status, exactly when that step ended the command while the session was connected. |
| `CommandOutcomes.ExecuteLeads` | engine/src/openrois/engine/engine.py:518-524 | The new ids of an execute lead to its commands, one each and in their order, also past the pruning. |
| `CommandOutcomes.TrustedLeads` | engine/src/openrois/engine/engine.py:505-524 | The ids a parent names lead to its commands in their order when they are admitted, and change nothing otherwise. |
| `CommandOutcomes.ParameterLeads` | engine/src/openrois/engine/engine.py:470-487 | The id of a parameter change leads to its command, unless an unfinished command has the id, and that one keeps it. |
| `CommandOutcomes.PrunesNoMore` | engine/src/openrois/engine/engine.py:741-748 | Pruning changes nothing within 4096 entries and leaves at least 4096 beyond them, each leading where it led. |
| `CommandTable.BoundAfter` | engine/src/openrois/engine/engine.py:520-524 | After every step that puts commands in the table, it holds at most 4096 entries or only unfinished ones. |
| `CommandTable.KeepForgets` | engine/src/openrois/engine/engine.py:741-748 | Pruning forgets finished commands only, as many as it must, or all of them. |
| `CommandTable.KeepsYoungest` | engine/src/openrois/engine/engine.py:746-748 | A finished command that is kept is younger than every forgotten one. |
| `CommandTable.KeepsOrder` | engine/src/openrois/engine/engine.py:746-748 | What is kept stays in its order. |
| `CommandTable.NewIdsAreFresh` | engine/src/openrois/engine/engine.py:589-606 | The ids of an execute are distinct, in no entry of the table, and none of them is an id the engine assigned before. |
| `CommandTable.Register.PruneCommands` | engine/src/openrois/engine/engine.py:741-748 | The two loops of the pruning delete exactly the oldest finished commands beyond the bound. |
| `CommandTable.Register.Execute` | engine/src/openrois/engine/engine.py:518-524 | A client's commands get new ids, are entered unfinished, and the table is pruned. |
| `CommandTable.Register.ExecuteTrusted` | engine/src/openrois/engine/engine.py:505-524 | A parent's ids are taken exactly when none is empty, repeated, in the table or owned here. |
| `CommandTable.Register.SetParameter` | engine/src/openrois/engine/engine.py:470-487 | The command of a parameter change replaces a finished entry and never an unfinished one. |
| `CommandTable.Register.CompleteCommand` | engine/src/openrois/engine/engine.py:729-739 | A command completes once. |
| `CommandTable.Register.FinishCommand` | engine/src/openrois/engine/engine.py:722-727 | Finishing by id ends the command the id leads to. |
| `Engine.Engine.OneSource` | engine/src/openrois/engine/engine.py:775-781 | A ref is served by at most one source. |
| `Engine.OwnerOfRef` | engine/src/openrois/engine/engine.py:860-862 | The text before the first slash of `engine_id/name` is the engine id. |
| `Engine.EngineIdsExact` | engine/src/openrois/engine/engine.py:262-274 | The ids of a profile are exactly those of its engine and of every engine below it, at any depth. |
| `Engine.Engine.AddComponent` | engine/src/openrois/engine/local.py:349-353 | A name is refused exactly when it is empty, has a slash or is taken. |
| `Engine.Engine.CheckEngineIds` | engine/src/openrois/engine/engine.py:262-274 | Ids are refused exactly when this engine or another child uses one. |
| `Engine.Engine.AddChild` | engine/src/openrois/engine/engine.py:251-260 | A child is added exactly when none of its ids is taken, and the tree stays disjoint. |
| `Engine.Engine.RemoveChild` | engine/src/openrois/engine/engine.py:276-281 | The first entry of the child goes and the others stay, so a child added once is gone, and the tree stays disjoint. |
| `Engine.WithoutKeeps` | engine/src/openrois/engine/engine.py:281 | Removing a child keeps every other one, and the child itself only when it was added twice. |
| `Engine.Engine.ApplyProfile` | engine/src/openrois/engine/child.py:555-580 | A first or changed profile is taken exactly when its ids are valid, without repetition and free, and its refs its own. A refused one leaves the old one wholly intact. The tree stays disjoint. |
| `Engine.Engine.OwnerOf` | engine/src/openrois/engine/engine.py:858-866 | The owner found is the one source whose engine id the assigned id starts with, and none is found exactly when there is no such source. |
| `Engine.Engine.Components` | engine/src/openrois/engine/engine.py:775-781 | The merge holds every component of every source with its own source, so keeping the first entry of a ref shadows none. |
| `Forwarding.ForwardingIsIdentity` | engine/src/openrois/engine/engine.py:804-856 | What a gateway picked, the child picks from the condition the gateway sends it: the same ref and the same arguments, for every condition, profile and check of values. With an argument named by a keyword, and only then, the child refuses. |
| `Forwarding.TiersPickSame` | engine/src/openrois/engine/child.py:607-609 | Through any number of tiers that know one profile of the component, the last one picks what the first one picked. |
| `Forwarding.PickedIsFor` | engine/src/openrois/engine/engine.py:839-856 | Picked arguments have distinct names of the message, their declared types, fitting values, and identifiers for names. |
| `Forwarding.CollectPicks` | engine/src/openrois/engine/engine.py:841-855 | Every given argument is picked, with its value, and nothing else is. |
| `Forwarding.ParsedAreIdentifiers` | interfaces/python/src/openrois/interfaces/condition.py:130-142 | Every property of a parsed condition is an identifier. |
| `PickSpec.PickIff` | engine/src/openrois/engine/engine.py:783-856 | The pick of a condition that parses, told from its comparisons: UNSUPPORTED exactly when no component has the message and the ref and type that every comparison on them asks for, equal or described by a pattern; BAD_PARAMETER when two do; the only one otherwise, with exactly the arguments the other comparisons give when they fit its message, and BAD_PARAMETER when they do not. A profile that lists the message twice ends in an error of its own. |
| `PickSpec.UnreadIsBad` | engine/src/openrois/engine/engine.py:804-856 | A condition that does not parse with the properties that may be named, the ref, the type and the arguments of the message in any profile, is BAD_PARAMETER. |
| `Forwarding.PickInOrder` | engine/src/openrois/engine/engine.py:804-856 | The loops of the pick, over the components in the order of the merge, return the pick whose candidates, arguments and refusals `PickSpec.PickIff` and `PickSpec.UnreadIsBad` state. |
| `Forwarding.CollectArguments` | engine/src/openrois/engine/engine.py:841-855 | The loop refuses an unknown name, a comparison other than `=`, a second value for a name and a value that does not fit, and keeps the order of the first mentions. |
| `Ordering.NotesFollowReplies` | engine/src/openrois/engine/jsonrpc.py:89-96 | On a first-in-first-out event loop, in every run on an ordered input, a notification is put in an outbox after the reply that names its id to the same session, but for two cases, each told from the request: the child's reply was handled before the send of the request returned, or the caller gave up between the reply and its turn. |
| `Ordering.TierInOrder` | engine/src/openrois/engine/child.py:182-188 | When neither happens in a run, every session of the tier is in order: each notification comes after its reply. |
| `Ordering.TowerInOrder` | engine/src/openrois/engine/child.py:177-190 | Through any number of tiers, each in order as above, whatever the schedule of each, every session reads a reply before the notifications that carry its id. |
| `Ordering.EarlyReplyBreaksOrder` | engine/src/openrois/engine/child.py:430-443 | A reply that is handled while its caller is still in `_send` wakes nobody, and a notification handled next goes out before it: the first case is real. The run is written out for every session and id. |
| `Ordering.GivingUpBreaksOrder` | engine/src/openrois/engine/engine.py:898-903 | Where a caller gives up between the reply and its turn, a notification goes out without its reply: the second case is real. |
| `Ordering.StepKeeps` | engine/src/openrois/engine/engine.py:483-487 | Every step of a tier, of its clients, of a send that returns or of its event loop, keeps each queued notification behind the caller it must follow. |
| `Ordering.SessionInOrder` | engine/src/openrois/engine/jsonrpc.py:147-166 | The outbox of one session is in order when each of its notifications follows its reply. |
| `OrderingDelivery.NoteGoesOut` | engine/src/openrois/engine/child.py:177-190 | In every run a notification of the child goes to the session of the request its id is delivered to, once and when the jobs that were ready before it have run. One that completes a parameter change wakes its caller, and one that nobody waits for is dropped. |
| `OrderingDelivery.ReplyIsTaken` | engine/src/openrois/engine/child.py:475-496 | In every run a reply is taken by the request it names while its caller sends or waits, wakes a caller that waits behind the jobs that are ready, and grants its id to that request when no other has it, or refuses it. |
| `OrderingDelivery.AskIsSent` | engine/src/openrois/engine/child.py:407-432 | In every run a request of a session is being sent for that session, and its caller waits once the send returned without a reply. |
| `OrderingDelivery.CallerPassesOn` | engine/src/openrois/engine/jsonrpc.py:86-96 | In every run a caller that resumes with its reply puts it in the outbox of its own session in that step, but for a parameter change that waits for its completion and an execute that was answered already. |
| `OrderingDelivery.FollowerPassesOn` | engine/src/openrois/engine/engine.py:470-487 | In every run a parameter change whose completion came or took too long is answered with the id it was granted, and its completion follows behind the jobs that are ready. |
| `OrderingDelivery.HeldIsTheReply` | engine/src/openrois/engine/child.py:475-496 | In every run what a caller holds is an id the child granted its own request, or a refusal of a reply to it. |
| `OrderingDelivery.LocalGoesOut` | engine/src/openrois/engine/engine.py:465-524 | In every run what the engine assigns itself is answered to the asking session at once, its completions and events go to that session, and an unsubscribe or a caller that gives up sends nothing. |
| `OrderingDelivery.CompletionGoesOut` | engine/src/openrois/engine/engine.py:483-487 | In every run the completion of a parameter change goes to its session when its turn comes. |
| `OrderingDelivery.QueueIsServed` | engine/src/openrois/engine/child.py:177-190 | In every run a job that is ready is served after exactly those that were ready before it. |
| `JsonRpc.Answer` | engine/src/openrois/engine/jsonrpc.py:41-77 | A message gets no response exactly when it has a method and no id. A response carries the id of its request or null, is a result exactly when the operation ran, and otherwise names the first fault. Sections 4.1 and 5 of JSON-RPC 2.0. |
| `JsonRpc.Outbox.Put` | engine/src/openrois/engine/jsonrpc.py:147-149 | Queue one message behind the others. |
| `JsonRpc.Outbox.WriteNext` | engine/src/openrois/engine/jsonrpc.py:160-166 | The writer takes the first message. A send that raises loses that message only. |
| `JsonRpc.AmongKeepsOrder` | engine/src/openrois/engine/jsonrpc.py:128-133 | Of two messages that were sent, the first one sent was put first. |
| `ChildEndings.EndedIffFound` | engine/src/openrois/engine/child.py:311-324 | In every run, what ends the subscription of a request whose caller is gone ends it at most once, and does so exactly when some step of the run brings a late reply with an id that is the child's and that no other request recorded, or unwinds a cancelled caller to whom its reply had granted an id of the child. |
| `ChildEndings.EndedOnceIff` | engine/src/openrois/engine/child.py:296-324 | In every run, a subscription granted to a caller that is gone in the end, by its one reply and not remembered in vain, is ended by one unsubscribe exactly when, as its reply came, the id was the child's and delivered to nobody, and the request was late or its caller is cancelled before it passes the reply on. |
| `ChildEndings.EndedOnce` | engine/src/openrois/engine/child.py:439-462 | With each interruption and its except-branch as one step, and no timeout after the reply came, that condition is exact for every subscription granted to a caller that is gone in the end, whatever came before. |
| `ChildTheorems.StillRemembered` | engine/src/openrois/engine/child.py:466-473 | While the connection is open, a subscribe whose caller is gone before its reply is remembered, or was forgotten as the oldest of more than 1024. |
| `ChildTheorems.VainIff` | engine/src/openrois/engine/child.py:443-456 | The except-branch remembers a request in vain exactly when its reply was handled first and the caller timed out, or its future had not resolved. |
| `ChildTheorems.LateTimeoutLeaves` | engine/src/openrois/engine/child.py:443-446 | A timeout that strikes after the reply came leaves a subscription that nobody holds and nothing ends, for every id the child owns. |
| `ChildTheorems.LateGrantIsEnded` | engine/src/openrois/engine/child.py:479-486 | A late reply that grants a free id of the child starts the one unsubscribe. |
| `ChildTheorems.ConsumedOnce` | engine/src/openrois/engine/child.py:466-486 | A request consumes at most one reply, or a second one when it was remembered in vain. Pending and late requests are apart, and at most 1024 are late. |
| `ChildTheorems.ReplyIsOwn` | engine/src/openrois/engine/child.py:475-496 | A reply changes the request it names and no other. What it makes of that request is the next rows. |
| `ChildAnswers.AnswerIsTheReply` | engine/src/openrois/engine/child.py:407-464 | In every run a caller is answered with the reply the child sent for its request while it was pending, where one that grants a foreign or recorded id counts as ERROR, or with ERROR from the end of the connection, a send that failed, or a connection already closed. |
| `ChildAnswers.ReplyReaches` | engine/src/openrois/engine/child.py:475-496 | In every run a reply for a pending request is its answer unless its caller was struck before, and the request is no longer pending. A usable id of a subscription or a parameter change is recorded for it, and nothing else is. |
| `ChildAnswers.WithdrawnIff` | engine/src/openrois/engine/child.py:443-456 | In every run the future of a request was cancelled exactly when its caller was struck while it waited for a reply that had not come, so a reply that comes before the except-branch is then not its answer. |
| `ChildAnswers.WakeAnswers` | engine/src/openrois/engine/child.py:430-464 | In every run a caller that sees its reply is back with that very reply, unless it is OK and started a command or a parameter change, and then it waits for the completion. |
| `ChildAnswers.FollowedIsTheCompletion` | engine/src/openrois/engine/child.py:356-371 | In every run a caller that waited for what it started is told the status of a completed notification that names it, or ERROR from the end of the connection or a parameter change that took too long. |
| `ChildAnswers.CompletionReaches` | engine/src/openrois/engine/child.py:518-524 | In every run the first completion that names what a caller waits for is kept for it. |
| `ChildAnswers.FollowAnswers` | engine/src/openrois/engine/child.py:356-371 | In every run a caller that sees its completion is back with the status that came. |
| `ChildAnswers.CompletionNames` | engine/src/openrois/engine/child.py:518-524 | In every run a completed notification completes a request only when it names the command of that execute, or the id the child granted that parameter change while it was pending. |
| `ChildAnswers.UnwindAnswers` | engine/src/openrois/engine/child.py:443-462 | In every run a caller whose except-branch runs is back with TIMEOUT when a deadline struck it last and cancelled otherwise. |
| `ChildAnswers.GoneBecause` | engine/src/openrois/engine/child.py:443-462 | In every run a caller is gone with TIMEOUT only when its deadline fired, and by cancellation only when it was cancelled. |
| `ChildAnswers.CallersGoOn` | engine/src/openrois/engine/child.py:426-464 | In every run a caller that waits can still be reached by its reply, or has its answer and can see it, so none misses a reply, also one that came while it was sending. |
| `ChildAnswers.CallIsMade` | engine/src/openrois/engine/child.py:426-432 | In every run a call on an open connection makes one pending request and lists an execute under its command, and one on a closed connection has failed. |
| `ChildAnswers.SendsReturn` | engine/src/openrois/engine/child.py:426-464 | In every run a send that returns makes its caller wait with what came meanwhile, one that raises ends its request with ERROR, and neither changes another request. |
| `ChildAnswers.UnsubscribeIsMade` | engine/src/openrois/engine/child.py:311-332 | In every run an unsubscribe, of the engine or of a task that ends a late subscription, ends the delivery and sends one request. |
| `ChildAnswers.BackIsUnlisted` | engine/src/openrois/engine/child.py:356-371 | In every run a caller that followed a completion is listed no more as it is back. |
| `ChildAnswers.RunningAreThere` | engine/src/openrois/engine/child.py:356-371 | In every run whoever is listed under a command made an execute of it and is not back yet. |
| `ChildAnswers.DetachEmpties` | engine/src/openrois/engine/child.py:192-210 | In every run the end of the connection leaves nothing a message could still answer and no task that could still end a subscription. |
| `ChildHolding.HeldIsNotEnded` | engine/src/openrois/engine/child.py:311-318 | When the child grants each id once, what ends a late subscription never ends one whose caller is still there. |
| `ChildHolding.GrantedTwiceIsEnded` | engine/src/openrois/engine/child.py:311-318 | The run in which a child grants one id to a late request and then to another: the second one, whose caller is still there, is ended. The condition above is needed, for every id the child owns. |
| `ChildDetach.DetachWakesIff` | engine/src/openrois/engine/child.py:192-210 | In every run, the end of the open connection wakes every caller, of replies, commands and parameter changes, exactly when no execute was displaced by another of its command id. |
| `ChildDetach.NobodyWaitsOnGone` | engine/src/openrois/engine/child.py:192-210 | In a run where no execute names a command still running, nobody ever waits on a child that is gone. |
| `ChildDetach.ClosedAnswersError` | engine/src/openrois/engine/child.py:426-428 | In every run, once the connection is closed it stays closed, and every request that is made then has ended with the failed result. |
| `ChildDetach.SharedCommandWaits` | engine/src/openrois/engine/child.py:356-371 | The run in which an execute names a command still running and the connection ends: the first caller waits for ever, for every command id. |
| `ChildProofs.StepKeeps` | engine/src/openrois/engine/child.py:407-496 | Every step keeps pending and late requests, futures and phases consistent. |
| `ChildProofs.RememberRanges` | engine/src/openrois/engine/child.py:466-473 | Remembering a request forgets at most the oldest one. |
| `ChildEngine.Connection.Request` | engine/src/openrois/engine/child.py:426-432 | A request on an open connection is pending and awaits its reply. On a closed one it is answered at once, and an execute is not listed as running. |
| `ChildEngine.Connection.RememberLate` | engine/src/openrois/engine/child.py:466-473 | A subscribe is remembered behind the others, and the oldest one is forgotten beyond 1024. Other requests are not remembered. |
| `ChildEngine.Connection.EndLateSubscription` | engine/src/openrois/engine/child.py:311-318 | An unsubscribe starts exactly when the id is the child's and no other request recorded it. |
| `ChildEngine.Connection.UnwindCaller` | engine/src/openrois/engine/child.py:443-462 | A timeout remembers the request. A cancellation remembers it, or ends what its reply granted when the reply had resolved it. Either way it is no longer pending. |
| `ChildEngine.Connection.RecordSubscription` | engine/src/openrois/engine/child.py:301-309 | The hook of a subscribe records an id exactly when it is the child's and free. |
| `ChildEngine.Connection.RecordParameter` | engine/src/openrois/engine/child.py:249-253 | The hook of a parameter change records an id exactly when it is the child's and free. |
| `ChildEngine.Connection.HandleReply` | engine/src/openrois/engine/child.py:475-496 | A reply is taken by the pending request of its number, with its hook, or else by the late one, or by none. |
| `ChildEngine.Connection.WakeCaller` | engine/src/openrois/engine/child.py:430-464 | A caller that resumes with its reply follows what it started or leaves, as the step of the proxy does. `ChildAnswers.WakeAnswers` says with which answer. |
| `ChildEngine.Connection.HandleCompleted` | engine/src/openrois/engine/child.py:518-524 | A completion reaches the command, or else the parameter change, of its id. |
| `ChildEngine.Connection.CallerBack` | engine/src/openrois/engine/child.py:370-371 | A caller that is back is listed no more under its command, or under the id of its parameter change. |
| `ChildEngine.Connection.Unsubscribe` | engine/src/openrois/engine/child.py:326-332 | An unsubscribe drops the delivery and sends its request. |
| `ChildEngine.Connection.Detach` | engine/src/openrois/engine/child.py:192-210 | Every unresolved reply, command and parameter change is resolved with ERROR, every map is emptied, and every task that ends a subscription is cancelled. |
| `ConditionProofs.RoundTrip` | interfaces/typescript/src/condition.ts:89-122 | Parsing a printed condition whose property names are identifiers gives it back exactly when every property is supported and no keyword and every LIKE pattern is valid, for arbitrary values. Otherwise it does not parse. |
| `ConditionProofs.AllOfConcatenates` | interfaces/typescript/src/condition.ts:297-299 | Parsing `allOf` of valid conditions gives the concatenation of their comparisons, so no value changes the structure. |
| `ConditionProofs.InvalidCanJoin` | interfaces/typescript/src/condition.ts:297-299 | The converse is false: two invalid conditions can join into a valid one. |
| `ConditionProofs.JoinTwo` | interfaces/typescript/src/condition.ts:179-241 | Joining two texts with AND parses as both, whatever the second is. |
| `ConditionProofs.TokensAppend` | interfaces/typescript/src/condition.ts:137-169 | A text that tokenizes is tokenized the same before a space and more text. |
| `ConditionProofs.UndoubleDouble` | interfaces/typescript/src/condition.ts:276-278 | Reading undoes the doubling of quotes, for every value. |
| `ConditionProofs.ParsedIsAllowed` | interfaces/typescript/src/condition.ts:216-236 | The parser returns supported properties and valid patterns only. |
| `ConditionGrammar.ParsesIffSays` | interfaces/typescript/src/condition.ts:123-241 | A text parses to some comparisons exactly when the grammar gives it for them: comparisons joined by AND, with properties bare or in double quotes, = or LIKE, quoted values, any white space around words and signs, and AND and LIKE in any mixture of cases. |
| `ConditionGrammar.SaidParses` | interfaces/typescript/src/condition.ts:179-241 | Any such text, given by its pieces and the white space between them, parses to its comparisons. |
| `Condition.Tokenize` | interfaces/typescript/src/condition.ts:143-169 | The loop of the tokenizer computes the tokens of the text, or refuses. |
| `Condition.ParseCondition` | interfaces/typescript/src/condition.ts:179-241 | The loop of the parser returns the comparisons of the text, or refuses it, as the function `Parse` says, whose texts `ConditionGrammar.ParsesIffSays` gives exactly. |
| `Like.TranslationKeepsMeaning` | interfaces/typescript/src/condition.ts:244-265 | The language of the produced regular expression is exactly the set of strings the pattern describes. |
| `Like.LikeRegExp` | interfaces/typescript/src/condition.ts:244-265 | The loop of the translation, which fails exactly when the pattern ends in an unpaired backslash. |
| `Like.EscapedValueMatchesItself` | interfaces/typescript/src/condition.ts:244-269 | A fully escaped value matches only itself. |
| `TopoSort.OrderedIffAcyclic` | interfaces/typescript/scripts/generate.ts:348-378 | The result puts every dependency first exactly when the graph has no cycle. |
| `TopoSort.OutOfOrderOnlyOnCycle` | interfaces/csharp/scripts/Generator/Program.cs:967-1003 | On any graph an edge is out of order only when the dependency reaches back. |
| `TopoSort.CollectRefsExact` | interfaces/typescript/scripts/generate.ts:330-345 | Exactly the known names referenced within the depth limit are collected: one nested deeper is missed. |
| `TopoSort.Collect` | interfaces/typescript/scripts/generate.ts:330-345 | The loops collect the known names a schema mentions, within the depth limit. |
| `TopoSort.Sorter.Visit` | interfaces/typescript/scripts/generate.ts:361-371 | A visit ends on every finite graph, keeps the list settled, and puts its name in it unless the name is being visited. |
| `TopoSort.BuildGraph` | interfaces/typescript/scripts/generate.ts:349-355 | The graph of the definitions, without references to themselves. |
| `TopoSort.TopoSortDefs` | interfaces/typescript/scripts/generate.ts:348-378 | The sort lists each name exactly once, settled as above. |
| `Transport.SentSettlesOnce` | sdk/javascript/src/transport.ts:433-467 | In every run an accepted send is settled at most once, and waits only while its own connection is open. |
| `Transport.SettledOnlyBy` | sdk/javascript/src/transport.ts:583-640 | A step settles a send only by the response with its own id on its own connection, by its own timer, or by the end of its connection. |
| `TransportOutcomes.OutcomeIff` | sdk/javascript/src/transport.ts:583-640 | In every run an accepted send was answered exactly when the response with its id came on its connection while it waited, timed out exactly when its timer fired while it waited, and was dropped exactly when its connection ended while it waited. |
| `TransportOutcomes.SettledWaitsNoLonger` | sdk/javascript/src/transport.ts:583-719 | In every run the step that settles a send takes it from the pending requests with its timer, and settles the others that wait exactly when it ends the connection. |
| `TransportOutcomes.SendIsRecorded` | sdk/javascript/src/transport.ts:433-467 | In every run a send while connected is recorded under an id of its own and waits, with a timer, exactly when the socket does not throw. A send while not connected changes nothing. |
| `TransportOutcomes.ConnectIff` | sdk/javascript/src/transport.ts:322-412 | In every run a connect() resolved exactly when its socket opened while it was in progress, and was rejected exactly when its socket could not be made, or failed, closed, took too long or was closed by the client meanwhile. |
| `TransportOutcomes.StateMoves` | sdk/javascript/src/transport.ts:272-301 | In every run the state and the socket change exactly with the steps that begin, resolve or reject a connect() and those that end a connection. |
| `Transport.NothingStale` | sdk/javascript/src/transport.ts:703-719 | Nothing waits unless connected, an attempt can be aborted exactly while connecting, and no timer or handler of an older connection is left. |
| `Transport.OpenAndCloseAlternate` | sdk/javascript/src/transport.ts:671-687 | Listeners see open and close in turn, and the last was an open exactly while connected. |
| `Transport.ConnectSettlesOnce` | sdk/javascript/src/transport.ts:322-412 | Each connect() that went ahead is settled once, but for the one in progress. |
| `Transport.IdsNeverRepeat` | sdk/javascript/src/transport.ts:732-736 | In every run no two sends bear the same request id, over any number of connections. |
| `Transport.InvAfter` | sdk/javascript/src/transport.ts:272-301 | The state, the socket, its timers and the pending requests agree in every run. |
| `Transport.WebSocketTransport.ConnectTo` | sdk/javascript/src/transport.ts:322-375 | An attempt begins exactly when disconnected and the factory gives a socket. Otherwise it is settled at once and leaves the transport disconnected or as it was. The transport stays valid. |
| `Transport.WebSocketTransport.OnOpen` | sdk/javascript/src/transport.ts:377-383 | The attempt ends connected: its timer stops, its connect() is settled, it can no longer be aborted, and listeners see open. The transport stays valid. |
| `Transport.WebSocketTransport.OnError` | sdk/javascript/src/transport.ts:387-391 | An error ends an attempt as failed, and changes nothing once connected. The transport stays valid. |
| `Transport.WebSocketTransport.OnClose` | sdk/javascript/src/transport.ts:394-400 | A close ends an attempt as failed, or a connection with every pending send dropped and one close event. The transport stays valid. |
| `Transport.WebSocketTransport.OnConnectTimeout` | sdk/javascript/src/transport.ts:361-373 | The attempt fails, and its handlers and its timer are gone. The transport stays valid. |
| `Transport.WebSocketTransport.SendRequest` | sdk/javascript/src/transport.ts:433-467 | A send is refused exactly when not connected. Its id is that of no send before it, and a socket that throws leaves nothing pending. The transport stays valid. |
| `Transport.WebSocketTransport.OnResponse` | sdk/javascript/src/transport.ts:583-640 | The response handler does what the step of the model does, answers whether a request waited for the id, and keeps the transport valid. What that does to the send is `TransportOutcomes.OutcomeIff`. |
| `Transport.WebSocketTransport.OnRequestTimeout` | sdk/javascript/src/transport.ts:459-462 | The send whose timer fires is settled and no longer pending. The transport stays valid. |
| `Transport.WebSocketTransport.RejectAllPending` | sdk/javascript/src/transport.ts:695-701 | The loop settles every pending send, once, and stops its timer. |
| `Transport.WebSocketTransport.CloseConnection` | sdk/javascript/src/transport.ts:484-517 | In every state: refused arguments and a socket that throws change nothing, an attempt is aborted without a close event, and a connection ends with its sends dropped and one close event. The transport stays valid. |

## Left out

- Sockets, WebSocket frames, reconnects and close reasons: input and output only.
- JSON text and the validation of params and results: messages are taken as decoded, and whether
  params fit a method is a parameter.
- The text encodings of values: whether a value fits its type is a parameter of the pick.
- Clocks: a deadline may fire at any step while its wait lasts, for any command, also one whose
  profile gives no timeout. Event lifetimes are not modelled.
- Handlers, resources and robot backends: their outcomes are open.
- The table of command results and the queries of it, and `set_parameter` of a local component:
  plain lookups and one hook.
- Sessions that are not connected: the models count every notification as sent, which is the
  harder case for what may be sent, and `CommandTable` takes the connection as a parameter.
- Binds, `search`, `get_profile`, `release` and the commands other clients share: return codes and
  lookups. A release that aborts a command is the end of that command with ABORT.
- What a result of a child carries beside being OK or not and the id it assigns: `Child` passes a
  reply on as a whole. The status a refused execute ends with is a table over its return code.
- The abort of a command on the child, errors passed up and discovery: they are plain requests of
  `Child`, with no hook of their own.
- Regular expression engines: the produced expressions are read by a semantics of the fragment the
  translation uses.
- The rest of the generators, and the transports of the other client libraries.
- Local.Component.Run: a start is known by its turn, and the abort marks hold turns where the source
  holds command ids, so commands of one component need distinct ids, which `CommandTable` gives.
- SequenceProofs.EveryCommandEndsOnce: for a sequence that took its first step, since one cancelled before it
  never enters the `try`.
- HoldTheorems.StartsAreExclusive: for components whose stop handler does not fail a takeover, the exact
  condition of `TurnsTheorems.ExclusiveIffHaltNeverFails`.
- HoldTheorems.StartedMeansStarted: for runs without an engine that cancels a running start, the exact
  condition of `TurnsTheorems.StartedIsHistoryIff`.
- HoldTheorems.NoOpIffNotStarted: for the same runs.
- TurnsInvariant.InvAfter: steps of different coroutines interleave freely, but for the order of
  the lock and for one order of callbacks, which `TurnsOnLoop.StartSeesFirst` derives from the
  event loop, so the model has runs the event loop does not.
- TurnsProgress.TurnCanCome: some continuation gives the turn. That every fair run does would need the
  handlers to end, which is open here.
- SequenceProofs.InvAfter: a cancellation may reach the branches of a sequence in any order and
  at any await, which is more than the event loop does.
- Ordering.NotesFollowReplies: one child engine below a tier. Several children have connections of their
  own, and their ids differ.
- Ordering.StepKeeps: an interruption of a caller and its except-branch are one step here. `Child`
  takes them apart.
- ChildEndings.EndedOnceIff: for a request that takes one reply and is not remembered in vain. What happens
  otherwise is `ChildTheorems.VainIff` and `ChildTheorems.LateTimeoutLeaves`.
- ChildDetach.NobodyWaitsOnGone: one direction over runs, since a reused command id may do no harm. The exact
  condition at the end of a connection is `ChildDetach.DetachWakesIff`.
- ChildHolding.HeldIsNotEnded: needs a child that grants each id once, as an OpenRoIS child does.
- Like.LikeRegExp: characters are code points.
