# Focus: pages, bindings and connections

Focus bridges a Codex app-server and Feishu chats. Neither is reliable: a websocket
comes and goes, and a message that was sent may or may not have arrived. In between
the bridge keeps its own state in step: which chat is bound to which thread, which
part of a growing transcript is shown by which message, which websocket connection
is live. This project is a Dafny model of that bookkeeping, with proofs of what it
promises. What the outside does is a parameter of the model (an outcome, an answer,
whether a write raises) or an arbitrary change while a lock is free.

| file | what it models |
|---|---|
| `ExecutionPages.dfy` | the ledger of execution pages: constructor, transitions, runs |
| `PageReceipts.dfy` | receipts of terminal pages, their validator, interval coverage |
| `TerminalPagination.dfy` | the largest prefix that fits a page; delivery of the pages of a finished turn |
| `BindingSessions.dfy` | resident sessions, and the fences commands carry between locks |
| `ExecutionOutput.dfy` | prepare, send and commit of pages; patch timers |
| `LiveRollover.dfy` | presenting a running turn on as many pages as it needs |
| `OwnerAuthority.dfy`, `SessionAuthority.dfy` | the authorities over binding owners and resident handles |
| `BindingRecords.dfy` | resident state, durable record, and the projections between them |
| `BindingWorld.dfy`, `BindingManager.dfy`, `BindingReplacement.dfy` | the binding manager's mutations of four stores at once |
| `BindingHistory.dfy` | what holds over whole histories of the manager, two-phase detach above all |
| `IngressGate.dfy` | the gate that decides which connection generation is live |
| `Recovery.dfy` | the recovery watchdog: prepare, read, settle |
| `TerminalReply.dfy` | choosing the terminal reply of a turn |
| `CardLimits.dfy`, `DiagnosticLogs.dfy` | limiting tables on a card; rotating and pruning logs |

Things the code compares with `is` are objects here: pages, ledgers, handles,
receipts, tickets. Things it compares by value are datatypes. Each class that the
code updates in place is a class with those fields, every method is proved against a
function or predicate on the state as a value, and what is promised over runs is
proved about that.

How the parts are meant to be read:

- Pages. `LedgerOk` is what the ledger constructor demands, `Reachable` what every run
  of transitions from the empty ledger keeps. `Transition` gives the pages or the
  exception; `Admissible` says what a caller has to check for it to succeed.
- Presenting. `Present` and `PresentTerminal` are total: they end for every behaviour
  of the ports. `TilesTo` says that receipts have unique ids and contiguous ranges
  from the origin.
- Bindings. `World` is residents, records, subscriptions and the two authorities;
  `World.Valid` keeps them in step. `Untouched` is what a refused mutation leaves, and
  `Moved`, `BatchDetached`, `BatchRemoved`, `BatchHydrated` and `Replaced` are what a
  successful one means. The conditions under which each is refused are exact.
- The gate. `Step` is one method under its lock; a wait for outbound writes is a list
  of rounds of guard calls that others make meanwhile.

What the proofs show about the code, beyond what it says of itself:

- Rotating logs keeps the last backup when there is no file before it to take its
  place (`RotationExactly`); otherwise the last backup is the only file lost.
- A negative table limit counts from the end of the tables found, as slices do
  (`KeepCount`).
- The turn's facts in an execution fence are compared by value. A turn that changes and
  changes back without an event between prepare and settle is not noticed
  (`TurnMayReturn`); handle, ledger, event stamp and connection cannot come back
  (`UndisturbedIff`). Settlement is exact in terms of both (`SettlesIffUndisturbed`).
- Advancing the owner of an unknown binding with a settled command is refused and still
  leaves that binding a new generation (`AdvanceOwner`).
- The refusal of `begin_backend_reset` for a cleanup without a fence is never reached
  (`BeginBackendReset`), and the `pages[-2]` of a confirmed rollover or retry is always
  there and closed (`SealedBehindActive`, `SealedInFront`).
- A page whose end was found to fit only as a part of the transcript, although it is the
  transcript's end, is followed by one that holds nothing; if not even that fits as a
  whole the terminal delivery raises (`StuckAt`).

## Model

| member | source | states |
|---|---|---|
| ExecutionPages.CheckLedger | bot/execution_pages.py:312-360 | The page-by-page loop of the ledger constructor accepts exactly the ledgers whose sealed pages tile the transcript from the origin, with unique attempt and message ids and at most an active and a pending page behind them. |
| ExecutionPages.ExecutionPageLedger.Make | bot/execution_pages.py:312-360 | A ledger object comes into being only for such pages; every other tuple of pages raises. |
| ExecutionPages.TransitionSucceedsIff | bot/execution_pages.py:455-693 | For every ledger that grew out of the empty one and every transition: it succeeds exactly if what a caller can check beforehand holds (the capability, the cursor order, ids not used before), and then the result is such a ledger again. The constructor never objects to anything but a reused id. |
| ExecutionPages.TransitionEffect | bot/execution_pages.py:455-693 | What a successful transition does to each page, field by field: which page opens, becomes active, unknown, retried, closed and where, or goes; every other page stays. |
| ExecutionPages.EveryRunIsReachable | bot/execution_pages.py:455-693 | Every run of transitions keeps the tiling, the unique ids, and that behind sealed pages a page that is still opening or whose send is unknown never stands alone. |
| ExecutionPages.EveryRunFromEmptyIsReachable | bot/execution_pages.py:363-693 | The same from the empty ledger on. |
| ExecutionPages.SealedPagesSurvive | bot/execution_pages.py:455-684 | Until the ledger is cleared no run ever changes or drops a sealed page. |
| ExecutionPages.RetiredLedgerIsSealed | bot/execution_pages.py:649-684 | Turn completion leaves sealed pages only, one more than before exactly if a page was active, and the tiling then ends at the given cursor. |
| ExecutionPages.RolloverAppended | bot/execution_pages.py:504-525 | A rollover page behind the active one gives a ledger the constructor accepts exactly if its attempt id is new. |
| ExecutionPages.PendingPromoted | bot/execution_pages.py:527-551 | Confirming a pending page, which closes the page in front where it begins, keeps the ledger in order exactly if no other page has that message id. |
| ExecutionPages.PendingDropped | bot/execution_pages.py:496-502 | Dropping the pending page leaves a ledger in order without a pending page; without an active page in front nothing is left. |
| ExecutionPages.ExecutionPageLedger.FindActivePage | bot/execution_pages.py:376-383 | The search from the last page finds the one active page if there is one, in front of a pending page or last. |
| ExecutionPages.ExecutionPageLedger.ProjectionFrozen | bot/execution_pages.py:425-440 | While a page is pending the active page shows the transcript up to where that page begins, however long the transcript grows. |
| ExecutionPages.ExecutionPageLedger.PrepareInitial | bot/execution_pages.py:455-471 | Raises unless the ledger is empty; the result is a new ledger object with one opening page. |
| ExecutionPages.ExecutionPageLedger.ActivateOpening | bot/execution_pages.py:473-485 | With the very page object that is opening it does what the transition says, with any other it raises and changes nothing. |
| ExecutionPages.ExecutionPageLedger.MarkSendUnknown | bot/execution_pages.py:487-494 | Likewise for a send whose outcome is unknown. |
| ExecutionPages.ExecutionPageLedger.DiscardOpening | bot/execution_pages.py:496-502 | Likewise for a send that was refused. |
| ExecutionPages.ExecutionPageLedger.PrepareRollover | bot/execution_pages.py:504-525 | A successful rollover keeps all page objects and adds one opening page; it raises as the transition does. |
| ExecutionPages.ExecutionPageLedger.ActivateRollover | bot/execution_pages.py:527-551 | Only with the exact active and opening page objects: the active page is closed where the new one begins, and that becomes active. |
| ExecutionPages.ExecutionPageLedger.MarkRolloverSendUnknown | bot/execution_pages.py:553-564 | Only with the exact pair of page objects. |
| ExecutionPages.ExecutionPageLedger.DiscardRolloverOpening | bot/execution_pages.py:566-573 | Only with the exact pair of page objects; the active page stays as it was. |
| ExecutionPages.ExecutionPageLedger.ConfirmSendUnknown | bot/execution_pages.py:575-605 | Only with the exact pending page object; a message id known before may not be replaced, and a page in front is closed. |
| ExecutionPages.ExecutionPageLedger.RejectSendUnknown | bot/execution_pages.py:607-615 | Only with the exact pending page object, which goes. |
| ExecutionPages.ExecutionPageLedger.RetainSendUnknown | bot/execution_pages.py:617-628 | Only once for a page: a second attempt raises. |
| ExecutionPages.ExecutionPageLedger.SealActive | bot/execution_pages.py:630-647 | Raises while a page is pending; otherwise the active page is closed at the cursor. |
| ExecutionPages.ExecutionPageLedger.RetireForTurnCompletion | bot/execution_pages.py:649-684 | The pending page is dropped and the active one closed at the cursor, unless that lies before its start. |
| ExecutionPages.ExecutionPageLedger.ClearKnownPages | bot/execution_pages.py:686-693 | Raises while a page is pending; otherwise the ledger is empty. |
| PageReceipts.RequireReceipts | bot/execution_pages.py:169-189 | Accepts exactly the receipt sequences with unique message ids and contiguous ranges. |
| PageReceipts.IntervalCoverage | bot/execution_pages.py:192-224 | For a contiguous sequence and a proper interval: the receipts returned are those that meet the interval, and it is reported covered exactly if every reply position of it is shown by some receipt. |
| PageReceipts.IntersectingShows | bot/execution_pages.py:207-213 | Leaving out receipts that do not meet the interval loses no position of it. |
| PageReceipts.ContiguousGrow | bot/execution_pages.py:169-189 | In a contiguous sequence the ranges only move forwards. |
| TerminalPagination.FitPageEnd | bot/runtime_card_publisher.py:325-392 | The binary search returns a prefix of the range, reply text only behind all of its process text, that fits and advances whenever there is text left; if longer prefixes never fit where shorter ones do not, no longer prefix fits, and the failures mean that the empty page or a single character does not fit. |
| TerminalPagination.SettledReceiptsTile | bot/execution_output_controller.py:637-653 | The receipts of the sealed pages, and of the active one closed in front of a pending page, tile the transcript from the origin up to the live page. |
| TerminalPagination.ConfirmedIsLive | bot/execution_pages.py:575-605 | Confirming the pending page under an id none of the settled receipts has always succeeds; an empty id is the only thing that raises. |
| TerminalPagination.PageDelivered | bot/execution_output_controller.py:715-813 | One more delivered page keeps the receipts unique and contiguous. |
| TerminalPagination.ChoosePageEnd | bot/execution_output_controller.py:715-765 | All that is left if it fits; otherwise a fitting proper part, and if there is none the error says what does not fit. |
| TerminalPagination.DeliverPages | bot/execution_output_controller.py:715-813 | The loop ends whatever the sends answer; each page but the last is a fitting proper part, and the next goes out under the id of its send; the reason it stopped is exact. |
| TerminalPagination.SettlePending | bot/execution_output_controller.py:654-714 | A pending page is settled by one retry under its own identity, or the delivery ends there with the reason. |
| TerminalPagination.PresentTerminal | bot/execution_output_controller.py:609-813 | For every valid ledger, transcript and outcomes: it ends, its receipts are unique and tile the transcript from the origin so that their validator never objects, and what it publishes are exactly the receipts beyond the sealed pages: each under the id its page has, was confirmed under or its send answered, and none with reply text before all of the process text. From a live page they reach the end of the transcript unless the pending page stayed unresolved, a send was not confirmed or an id came twice; it raises only if the transcript is shorter than the page, the retry confirmed no id, or a page can hold nothing. |
| ExecutionOutput.ExecutionOutputRuntime.PrepareInitialPage | bot/execution_output_runtime.py:332-369 | Goes through exactly while the target is current and its ledger empty; it installs a new ledger with one opening page, which the receipt names by identity, and otherwise changes nothing. |
| ExecutionOutput.ExecutionOutputRuntime.CommitInitialPage | bot/execution_output_runtime.py:371-425 | Changes something only while the ledger object of the receipt is still the one shown, and then replaces it by the transition of the outcome; it raises only for an outcome and id that do not go together. |
| ExecutionOutput.ExecutionOutputRuntime.PrepareRollover | bot/execution_output_runtime.py:427-473 | Nothing happens exactly if the target is stale or its last page is not active; it raises only for a cursor that does not advance or exceeds the transcript, or a reused attempt id. |
| ExecutionOutput.ExecutionOutputRuntime.CommitRollover | bot/execution_output_runtime.py:475-534 | As for the initial page: a commit under a replaced ledger is a no-op. |
| ExecutionOutput.ExecutionOutputRuntime.PrepareReconciliation | bot/execution_output_runtime.py:536-559 | Available exactly while the target is current and its pending send has not been retried. |
| ExecutionOutput.ExecutionOutputRuntime.CommitReconciliation | bot/execution_output_runtime.py:561-623 | As for the initial page; what it raises for is named. |
| ExecutionOutput.ReceiptIsSpent | bot/execution_output_runtime.py:371-623 | A receipt changes its binding at most once, whatever happens between two commits of it. |
| ExecutionOutput.RetainedStaysRetained | bot/execution_pages.py:617-628 | After an unknown send was retained no run makes a second retry possible, unless the send is resolved or the turn completed. |
| ExecutionOutput.ExecutionOutputRuntime.InstallPatchTimer | bot/execution_output_runtime.py:715-738 | A timer is registered exactly if there is none and its ticket names the card shown now. |
| ExecutionOutput.ExecutionOutputRuntime.RollbackPatchTimer | bot/execution_output_runtime.py:740-765 | Withdraws this very registration and no other. |
| ExecutionOutput.ExecutionOutputRuntime.ConsumePatchTimer | bot/execution_output_runtime.py:767-803 | Only the registration that holds this ticket fires; it is spent, and asks for a patch exactly if the card is still the one meant. |
| BindingSessions.ResidentSessions.Update | bot/binding_runtime_contract.py:441-455 | Installing a ledger object that was never resident keeps the sessions in order, and no ledger that a binding lost comes back to it. |
| BindingSessions.UpdateEvolves | bot/binding_runtime_contract.py:441-455 | The same as a statement about the sessions as a value: compared by identity, a fence cannot be met again. |
| BindingSessions.FenceHoldsIff | bot/binding_runtime_contract.py:385-455 | A fence taken from one session holds for another exactly if handle and ledger are the same objects and the thread, turn, prompt, kind and start are the same. |
| LiveRollover.LiveController.OpenInitialPage | bot/execution_output_controller.py:158-251 | With anything happening while the lock is free: the first page is active under its message, or pending, or gone, as its send says, or the session is no longer current; it raises only for a missing attempt id, a ledger that is not empty or an empty message id. |
| LiveRollover.LiveController.RollOver | bot/execution_output_controller.py:400-504 | A confirmed send closes the active page where the new one begins, an unknown or raised one leaves it in front of a pending page, one that was not made leaves all pages; or the session it was prepared from is no longer current; only an id used twice raises. |
| LiveRollover.LiveController.Reconcile | bot/execution_output_controller.py:506-590 | The one retry of a pending send makes it the active page, drops it or marks it retried, as its answer says; it is skipped only if it was made before or the session is stale. |
| LiveRollover.LiveController.ShowRound | bot/execution_output_controller.py:345-504 | One turn of the loop: the active page is patched with all that is left or up to a pending page, or it is closed at a fitting proper part and the rest gets strictly shorter. |
| LiveRollover.LiveController.SealedBehindActive | bot/execution_output_controller.py:470-504 | After a confirmed rollover the page before the last exists and is the closed one. |
| LiveRollover.LiveController.SealedInFront | bot/execution_output_controller.py:330-345 | After a confirmed retry behind an active page the page before the last exists and is the closed one. |
| LiveRollover.LiveController.PresentPages | bot/execution_output_controller.py:345-504 | The loop ends; its patches are the pages sealed by the rollovers, each of which fits its page while the rest did not, and the ledger left is exactly what those rollovers and the last send make of the one it started from. |
| LiveRollover.LiveController.Present | bot/execution_output_controller.py:305-504 | For every behaviour of the outside: it ends; what it patches are exactly the pages it sealed, in order, and the active one last; together with the pages sealed before they show every position once, each page under its own message, reply text only behind all of the process text; it shows nothing only if there is no active page or the session went stale; and it raises only if the transcript is shorter than the page, a page cannot hold a character or an id was used twice. |
| LiveRollover.ShownTiles | bot/execution_output_controller.py:345-504 | The sealed pages and one bounded patch of the active page tile the transcript from the origin under unique message ids. |
| LiveRollover.ProjectionBounded | bot/execution_pages.py:425-440 | What the active page may show ends at a pending page or at the end of the transcript, and raises exactly when the transcript is shorter than the page. |
| LiveRollover.AdvancedShows | bot/execution_output_controller.py:400-504 | A confirmed rollover seals exactly the active page; an unconfirmed one seals nothing and bounds what may still be patched. |
| LiveRollover.ReconciledShows | bot/execution_output_controller.py:506-590 | A confirmed retry seals the page in front of the pending one, and no other. |
| OwnerAuthority.StepKeepsValid | bot/binding_owner_authority.py:50-258 | Every operation keeps incarnations unique and growing, receipts and reservations those of the current revision, and good detach receipts disjoint. |
| OwnerAuthority.EveryRunEvolves | bot/binding_owner_authority.py:50-258 | Over every run no receipt that lost its registration and no detach receipt that was used or dropped ever comes back. |
| OwnerAuthority.RevokedForever | bot/binding_owner_authority.py:130-160 | After an owner advanced or was retired no earlier receipt of that binding is ever accepted again, whatever thread it returns to. |
| OwnerAuthority.ReservedUntilSettled | bot/binding_owner_authority.py:100-160 | While a loss is reserved its owner stays at the same revision over every run that does not settle an equal command. |
| OwnerAuthority.DetachPinsOwners | bot/binding_owner_authority.py:162-240 | As long as a detach receipt is good, every owner it covers is at the revision it had when the receipt was issued. |
| OwnerAuthority.DetachRedeemedOnce | bot/binding_owner_authority.py:185-212 | A detach receipt is redeemed at most once, over every run. |
| OwnerAuthority.DiscardAllKeeps | bot/binding_owner_authority.py:233-240 | Issuing a detach receipt drops exactly the earlier ones that share a binding with it. |
| OwnerAuthority.BindingOwnerAuthority.IssueOwner | bot/binding_owner_authority.py:50-77 | Raises exactly if the thread is stale; otherwise the receipt is current, a registered one for the same thread and revision is handed out again, and every other one is a new object. |
| OwnerAuthority.BindingOwnerAuthority.RequireOwnerCurrent | bot/binding_owner_authority.py:79-98 | Accepts exactly the registered receipt object at the current incarnation, revision and thread. |
| OwnerAuthority.BindingOwnerAuthority.ReserveOwnerLoss | bot/binding_owner_authority.py:100-114 | Reserves exactly if the owner is current and no different command is pending. |
| OwnerAuthority.BindingOwnerAuthority.RequireLossNotPending | bot/binding_owner_authority.py:116-128 | Passes exactly if the receipt is the registered one and nothing is reserved. |
| OwnerAuthority.BindingOwnerAuthority.AdvanceOwner | bot/binding_owner_authority.py:130-143 | Advances exactly if the command given equals the one reserved: the revision is one more, nothing is registered or reserved, and the detach receipts covering the binding are gone; a refused advance of an unknown binding still leaves it a generation. |
| OwnerAuthority.BindingOwnerAuthority.RetireOwner | bot/binding_owner_authority.py:145-160 | Retires exactly if the command given equals the one reserved, or the binding is unknown. |
| OwnerAuthority.BindingOwnerAuthority.IssueDetach | bot/binding_owner_authority.py:162-183 | Issues a new receipt under a new number and drops the earlier ones it overlaps. |
| OwnerAuthority.BindingOwnerAuthority.ConsumeDetach | bot/binding_owner_authority.py:185-212 | Goes through exactly for the registered receipt with the same thread, bindings and disposition and settlements of its owners, and takes it away. |
| OwnerAuthority.BindingOwnerAuthority.DiscardDetach | bot/binding_owner_authority.py:214-219 | Takes away exactly this receipt. |
| OwnerAuthority.BindingOwnerAuthority.DiscardForBinding | bot/binding_owner_authority.py:233-240 | The loop drops the receipts that cover the binding and no others. |
| SessionAuthority.StepKeepsAuthority | bot/binding_runtime_session_authority.py:41-155 | Every operation keeps a resident object at one binding at most and incarnations unique and growing. |
| SessionAuthority.EveryRunEvolves | bot/binding_runtime_session_authority.py:41-155 | Over every run handles that lost authority never regain it. |
| SessionAuthority.WithdrawnForever | bot/binding_runtime_session_authority.py:77-155 | A handle that was replaced, rotated or retired is refused from then on, even for the same object back in the same binding. |
| SessionAuthority.BindingRuntimeSessionAuthority.Install | bot/binding_runtime_session_authority.py:41-75 | Raises exactly for an object installed elsewhere; the same object keeps its handle, any other gets a new one. |
| SessionAuthority.BindingRuntimeSessionAuthority.Advance | bot/binding_runtime_session_authority.py:77-98 | Only the current handle can be rotated; its successor is new and it is no longer registered. |
| SessionAuthority.BindingRuntimeSessionAuthority.Require | bot/binding_runtime_session_authority.py:113-134 | Accepts exactly the handle object installed for this binding and resident object. |
| SessionAuthority.BindingRuntimeSessionAuthority.Retire | bot/binding_runtime_session_authority.py:136-150 | Takes the binding out exactly if the handle is its current one. |
| SessionAuthority.BindingRuntimeSessionAuthority.RetireAll | bot/binding_runtime_session_authority.py:152-155 | Leaves no current handle. |
| BindingRecords.Factory.HydrationRoundTrip | bot/binding_runtime_state_factory.py:127-214 | Storing a state and loading it gives back its directory, thread, title and settings, with the claim to be attached withdrawn; a second time nothing changes. |
| BindingWorld.NeverHydratedAttached | bot/binding_runtime_state_factory.py:127-166 | A record that claims to be attached comes back detached, on the same thread, and is reported. |
| BindingWorld.StatesOnFields | bot/binding_runtime_lifecycle.py:75-176 | What a bind, a clear and a detach make of a state, field by field. |
| BindingWorld.RecordsOnFields | bot/binding_runtime_state_factory.py:80-214 | What the record of a state, the state of a record and the default state are, field by field. |
| BindingWorld.HydratedIsLoaded | bot/binding_runtime_manager.py:612-710 | After a hydration each binding of the plan is resident as its record says, and only records that claimed to be attached have changed. |
| BindingManager.BindingRuntimeManager.constructor | bot/binding_runtime_manager.py:81-123 | A new manager has no resident binding and is in order: subscriptions are the attached residents, handles match the resident objects, and good detach receipts are reserved. |
| BindingManager.BindingRuntimeManager.OwnerThread | bot/binding_runtime_manager.py:1106-1121 | The thread of a binding is that of its resident state, of its record otherwise. |
| BindingManager.BindingRuntimeManager.SettleOwnerLoss | bot/binding_runtime_manager.py:1256-1290 | Raises exactly if the thread is not the owner's, another loss is pending or the settler refuses; what it accepts stays reserved for the current owner, and nothing but the authority changes. |
| BindingManager.BindingRuntimeManager.Bind | bot/binding_runtime_manager.py:1350-1430 | All or nothing: it raises exactly for a stale handle, an open send, a pending or refused loss or a failed write, and then residents, records, subscriptions, handles and owner revisions are as before. Otherwise thread, title, directory and settings are as given; of another thread nothing is left, no turn, pages, timers, goal or plan, and of the same one turn and goal stay; the record says what the state is, the owner moved on, the handle is new, and the thread to unsubscribe is named exactly if nobody is subscribed to it any more. |
| BindingManager.BindingRuntimeManager.Clear | bot/binding_runtime_manager.py:1432-1494 | The same for clearing, which leaves directory and settings only, and may also demand an idle turn and a directory that is not empty. |
| BindingManager.BindingRuntimeManager.DetachBinding | bot/binding_runtime_manager.py:1729-1786 | The same for detaching one binding, which keeps its thread and turn and loses its timers; without an attached thread it does nothing. |
| BindingManager.BindingRuntimeManager.StageBind | bot/binding_runtime_manager.py:1360-1398 | What a bind does before its record is written touches the owner authority only, and the staged state is the one the bind ends in. |
| BindingManager.BindingRuntimeManager.StageClear | bot/binding_runtime_manager.py:1444-1475 | What a clear does before its record is written touches the owner authority only, and the staged state is the one the clear ends in. |
| BindingManager.BindingRuntimeManager.UnsubscribeIdIfLast | bot/binding_runtime_manager.py:1324-1335 | Names the thread exactly if this binding is its only subscriber. |
| BindingManager.BindingRuntimeManager.UnsubscribeIdIfLastAttached | bot/binding_runtime_manager.py:1337-1348 | The same answer, found from the resident states instead of the registry. |
| BindingManager.BindingRuntimeManager.SettleThreads | bot/binding_runtime_manager.py:1256-1290 | A batch is settled exactly if every one of its losses could be settled alone from the state at the beginning; all stay reserved together. |
| BindingManager.BindingRuntimeManager.PersistAll | bot/binding_runtime_manager.py:720-814 | Either every record of the batch is written, or the one that failed and all before it are written back, last one first. |
| BindingManager.BindingRuntimeManager.PreflightDetach | bot/binding_runtime_manager.py:1679-1727 | Settles the attached writers of a thread, or says why not; the receipt is new, covers exactly the bindings attached to the thread, and every owner is current and reserved for it. Owner revisions, residents, records and subscriptions stay. |
| BindingManager.BindingRuntimeManager.DetachThread | bot/binding_runtime_manager.py:1563-1677 | Detaches every binding attached to a thread, in its state and record, or none. With a preflight it goes through only for exactly the bindings, thread and disposition preflighted and owners all current; the preflight is used up even if the writes then fail; after a failed write the records are those of the states again, if the rollback succeeds; after a success nobody is subscribed to the thread. |
| BindingManager.BindingRuntimeManager.Deactivate | bot/binding_runtime_manager.py:720-951 | Removes a batch or nothing; each thread that has lost its last subscriber and is named by no remaining record is named for unsubscribing, and no other thread is. |
| BindingManager.BindingRuntimeManager.PlanDeactivation | bot/binding_runtime_manager.py:728-760 | Each existing binding asked for once, and no other. |
| BindingManager.BindingRuntimeManager.GetOrCreate | bot/binding_runtime_manager.py:233-267 | Hands out the current handle, or makes the state resident, field by field, from its record or from defaults; a record that claims to be attached is downgraded first, which may be refused as a whole. |
| BindingManager.BindingRuntimeManager.HydrateMissing | bot/binding_runtime_manager.py:583-710 | Makes all stored bindings resident or none, each with the fields of its record and the defaults where it says nothing; those that claim to be attached come back detached, in the store too, under an owner that moved on; after a failure the records are restored, if the rollback succeeds. |
| BindingManager.BindingRuntimeManager.HydrateReplace | bot/binding_runtime_manager.py:491-581 | Replaces all residents by the stored bindings or nothing. It raises exactly if state and record claim different threads, a candidate cannot be settled, another resident has a loss pending, an attached record names no thread or a write fails. Otherwise residents are exactly the stored bindings, none subscribed, and no handle, owner receipt or preflight of before is good any more. |
| BindingReplacement.ReplacedIsLoaded | bot/binding_runtime_manager.py:491-581 | After a replacement each stored binding is resident as its record says, and no other binding is. |
| BindingManager.DetachedIsLeft | bot/binding_runtime_manager.py:1584-1658 | After a detach of a thread every binding attached to it is detached, with its record, and no other binding has changed. |
| BindingManager.FailedIsRestored | bot/binding_runtime_manager.py:1157-1166 | After a failed batch whose rollback succeeds, the records are those of the resident states, or the ones loaded. |
| BindingManager.BindingRuntimeManager.PrepareReplace | bot/binding_runtime_manager.py:507-556 | Everything before the first write touches the owner authority only, and leaves every candidate reserved and nobody else. |
| BindingManager.BindingRuntimeManager.CollectCandidates | bot/binding_runtime_manager.py:517-541 | The owners to settle are those attached by state or by record; it refuses exactly if both claim to be attached to different threads. |
| BindingManager.BindingRuntimeManager.RetireResidents | bot/binding_runtime_manager.py:567-577 | All owners and handles of the residents are retired and nothing is resident or subscribed. |
| BindingManager.BindingRuntimeManager.InstallAll | bot/binding_runtime_manager.py:686-710 | The plan becomes resident from the loaded records, and exactly the owners of attached records move on. |
| BindingWorld.RollbackRestoresIff | bot/binding_runtime_manager.py:1157-1166 | After a failed batch a store that held the original records is as before exactly if every write-back that had something to restore succeeded. |
| BindingWorld.RebindAgrees | bot/binding_runtime_manager.py:1400-1430 | After a bind subscriptions are again exactly the attached residents, and the id asked for before it answers for the state after it. |
| BindingWorld.LetGoIffLast | bot/binding_runtime_manager.py:1324-1335 | The thread is named before the change exactly if nobody is subscribed to it after the change. |
| BindingWorld.NobodyLeft | bot/binding_runtime_manager.py:1637-1658 | When all attached bindings of a thread are detached nobody is subscribed to it. |
| BindingWorld.StagedAsExecuted | bot/binding_runtime_manager.py:1370-1420 | The state staged by a bind, whose record is written first, is the one it executes, though the steps come in another order. |
| BindingWorld.PreflightHolds | bot/binding_owner_authority.py:162-240 | Over every run of the owner authority: a preflight that is still good is good for the same thread, bindings and disposition only, with every owner at the same revision and the same loss reserved. |
| BindingWorld.IssuedIsPreflighted | bot/binding_runtime_manager.py:1679-1727 | A receipt issued for settled owners covers exactly their bindings, and keeps all good receipts reserved. |
| BindingWorld.ReserveIfNotBlocked | bot/binding_runtime_manager.py:1256-1290 | The current owner's loss can be reserved exactly if no other loss is pending. |
| BindingReplacement.RetiredThenMoved | bot/binding_runtime_manager.py:567-581 | Retiring all residents and then advancing the downgraded records leaves no receipt or preflight of before good, and a generation for the downgraded ones only. |
| BindingHistory.OutcomesAreLater | bot/binding_runtime_manager.py:233-1786 | Every outcome of every operation, refused or not, keeps the manager in order and gives no withdrawn receipt, preflight or handle back. |
| BindingHistory.HistoryGoesOn | bot/binding_runtime_manager.py:233-1786 | The same over whole histories of operations. |
| BindingHistory.WithdrawnForGood | bot/binding_runtime_manager.py:1176-1254 | In every history a handle, owner receipt or preflight that has lost its standing is refused from then on, whatever thread or object the binding returns to. |
| BindingHistory.PreflightBlocksOthers | bot/binding_runtime_manager.py:1292-1311 | While a detach is preflighted, binding, clearing, deactivating, hydrating and replacing that binding are all refused. |
| BindingHistory.CommitMatchesPreflight | bot/binding_runtime_manager.py:1563-1727 | In every history: if a preflight can be redeemed, then for the thread, bindings and disposition it was issued for, and at every state in between each of its owners was at the same revision with the same loss reserved. |
| BindingHistory.AttachedAsPreflighted | bot/binding_runtime_manager.py:1584-1612 | A detach that goes through with a preflight finds the bindings attached that were attached when it was issued. |
| IngressGate.StepKeepsValid | bot/adapter_ingress_gate.py:82-569 | Every operation, with any guard calls during its wait, keeps the facts of the gate in order: disconnects not ahead of connections, a pending disconnect equal to both, cleanup only while blocked, an invalidated gate clean and not live, an open gate live exactly if its latest generation is not disconnected, and the lease count that of the leases held. |
| IngressGate.EveryRunIsValid | bot/adapter_ingress_gate.py:82-569 | The same over every run. |
| IngressGate.DrainKeeps | bot/adapter_ingress_gate.py:292-306 | While a drain waits no write gets in; it succeeds exactly if every write has left, and otherwise the gate is stuck until a reset. |
| IngressGate.EpochCounts | bot/adapter_ingress_gate.py:289-483 | The epoch grows exactly with the events that close the gate, and nothing else closes an open one. |
| IngressGate.ConfirmedIffNeverClosed | bot/adapter_ingress_gate.py:144-232 | Over every run: a permit issued while the gate was open is confirmed exactly if the gate was not closed in between, however often it reopened. |
| IngressGate.AdmittedUntilEnded | bot/adapter_ingress_gate.py:239-287 | One step keeps a live generation live exactly if it does not end it, and revives none. |
| IngressGate.GenerationBracket | bot/adapter_ingress_gate.py:239-287 | Over every run: a captured generation passes a later check exactly if none of the events between is a later connection, a failed activation, a disconnect of it or a later one, or a reset fence. |
| IngressGate.CallbacksAdmittedUntilEnded | bot/adapter_ingress_gate.py:345-406 | Over every run: while a generation is live each of its callbacks is admitted and changes nothing, and from the event that ends it on every one is dropped. |
| IngressGate.ReplacementAdmitsCallbacks | bot/adapter_ingress_gate.py:525-569 | The same from a replacement on, whose generation is live at once. |
| IngressGate.AdapterIngressGate.IssueOutboundRequest | bot/adapter_ingress_gate.py:144-178 | A permit is issued exactly for a named method while the gate is open, under the current epoch. |
| IngressGate.AdapterIngressGate.ConfirmOutboundRequest | bot/adapter_ingress_gate.py:218-232 | Confirmed exactly for this gate's permits of the current epoch while it is open. |
| IngressGate.AdapterIngressGate.EnterGuard | bot/adapter_ingress_gate.py:180-216 | A write is entered exactly under a permit that would be confirmed. |
| IngressGate.AdapterIngressGate.ExitGuard | bot/adapter_ingress_gate.py:205-216 | A write leaves once. |
| IngressGate.AdapterIngressGate.CaptureGeneration | bot/adapter_ingress_gate.py:239-257 | The generation captured is the live one; without one there is none. |
| IngressGate.AdapterIngressGate.RunIfGeneration | bot/adapter_ingress_gate.py:259-287 | The local settle runs exactly while the generation is the live connection. |
| IngressGate.AdapterIngressGate.DrainOutboundTransports | bot/adapter_ingress_gate.py:292-306 | The loop refines the wait as a function of its rounds, and succeeds only with no write under way. |
| IngressGate.AdapterIngressGate.InvalidateConnectionFacts | bot/adapter_ingress_gate.py:324-343 | The invalidation port runs with no write under way; a drain that timed out or a port that failed leaves the gate blocked and in need of cleanup. |
| IngressGate.AdapterIngressGate.Accept | bot/adapter_ingress_gate.py:345-406 | A callback is dropped exactly if the gate is closed or its generation was superseded or disconnected; from the live generation it is admitted and changes nothing; a newer one is live afterwards; failures stick. |
| IngressGate.AdapterIngressGate.FenceDisconnect | bot/adapter_ingress_gate.py:408-431 | The fence takes effect exactly for a generation that is neither behind nor fenced before; an older one is only remembered as disconnected. |
| IngressGate.AdapterIngressGate.ObserveDisconnect | bot/adapter_ingress_gate.py:433-453 | Cleans up exactly after the disconnect that is pending or fenced now. |
| IngressGate.AdapterIngressGate.BeginBackendReset | bot/adapter_ingress_gate.py:455-483 | The refusal of a cleanup without a fence is never reached; success leaves the gate invalidated with no write under way. |
| IngressGate.AdapterIngressGate.FenceBackendReset | bot/adapter_ingress_gate.py:485-523 | Refused exactly for another generation than expected or a closed gate; success leaves it blocked with no write under way. |
| IngressGate.AdapterIngressGate.AdmitBackendReplacement | bot/adapter_ingress_gate.py:525-569 | Goes through exactly after a clean invalidation, for a newer generation whose publication succeeds, which is then live. |
| Recovery.RecoveryRuntime.PrepareWatchdog | bot/execution_recovery_runtime.py:374-409 | Clears the timer of the exact target; a ticket is made exactly for a running execution with a thread, and names it. |
| Recovery.RecoveryRuntime.InstallWatchdog | bot/execution_recovery_runtime.py:411-438 | A timer is registered exactly if there is none and the ticket names the current execution. |
| Recovery.RecoveryRuntime.ConsumeWatchdog | bot/execution_recovery_runtime.py:467-529 | Only the registration holding this ticket fires and is spent; there is an effect exactly if the execution it was set for still runs: to read the thread unless the start is awaited, and then to wait or, for a compact start that waited too long, to give it up. |
| Recovery.RecoveryRuntime.PrepareSnapshot | bot/execution_recovery_runtime.py:564-612 | What is frozen is the current session with its observation stamp, exactly if the target matches and the start is not awaited. |
| Recovery.RecoveryRuntime.ApplySnapshot | bot/execution_recovery_runtime.py:650-720 | Changes the execution, or asks to finalize it, only if the target, thread and stamp are those prepared. A reply gets longer or stays, the rest of the transcript, pages, turn and timers stay, an interrupted turn is cancelled, and exactly a thread still at work is acknowledged as an event and not finalized; the page to finish is the active one. |
| Recovery.RecoveryRuntime.PrepareTerminalFallback | bot/execution_recovery_runtime.py:614-648 | Asks to finalize exactly if nothing was observed since the preparation, and changes nothing. |
| Recovery.RecoveryRuntime.MarkDegraded | bot/execution_recovery_runtime.py:722-739 | Marks exactly an active execution that was not observed since the preparation. |
| Recovery.WatchdogController.Prepare | bot/execution_recovery_controller.py:1262-1279 | A preparation could be settled at once; without one the session is stale or awaited, or there is no live connection. |
| Recovery.WatchdogController.Settle | bot/execution_recovery_controller.py:1281-1330 | Under the gate's lock a reading is applied exactly if the pinned connection is live and the preparation still applies; otherwise nothing changes. |
| Recovery.SettlesIffUndisturbed | bot/execution_recovery_controller.py:1262-1330 | In every interleaving of prepare, read and settle: the settle goes through exactly if no live event, page change, handle rotation, retirement or end of the connection came between and the turn's facts are those prepared. |
| Recovery.UndisturbedIff | bot/binding_runtime_contract.py:441-455 | The identities a fence freezes are lost exactly by such an event, and never regained. |
| Recovery.TerminalIs | bot/execution_recovery_runtime.py:840-880 | The page to finish is the active one, up to a pending page or to the end of the transcript; without an active page there is none. |
| Recovery.TurnMayReturn | bot/binding_runtime_contract.py:441-455 | The turn's facts are compared by value: one that changed and changed back without an event is not noticed. |
| TerminalReply.SnapshotReply | bot/execution_recovery_controller.py:1728-1946 | The loop over the turns, last one first, with its fallbacks, gives the answer of the turn asked for, or of the last turn that has an agent message or failed; without one there is no reply, and the last turn says whether local evidence stands. |
| TerminalReply.LastVerdictDecides | bot/execution_recovery_controller.py:1728-1946 | The verdict is that of the last telling turn, and there is none exactly if no turn tells anything. |
| TerminalReply.VerdictOnFields | bot/execution_recovery_controller.py:1829-1918 | What a turn says, on its items: its last agent message if that is finished, terminal and says something; or else its error; or an empty reply; or that there is no reply; or nothing. |
| TerminalReply.InvalidatesOnFields | bot/execution_recovery_controller.py:1848-1876 | Local evidence stands exactly if nothing in the turn superseded it: no work behind the last agent message, which has a text and a terminal phase, and which is not a finished or repeated silence. |
| TerminalReply.ProjectionAnswers | bot/execution_recovery_controller.py:1728-1946 | The projection of a snapshot is the answer of the turn that answers for it, in kind, text, id and whether local evidence stands. |
| TerminalReply.AgentTextIff | bot/execution_recovery_controller.py:1860-1946 | An agent's text is offered exactly if the turn that answers is finished and its last agent message is finished, in a terminal phase, with a text that says something and no superseding work behind it. |
| TerminalReply.SelectTerminalReply | bot/execution_recovery_controller.py:810-854 | A text wins over an error and that over an empty reply, the snapshot's before the local one each time; local agent evidence counts only while the snapshot does not supersede it. |
| TerminalReply.SupersededIsNotChosen | bot/execution_recovery_controller.py:810-854 | If the matched turn's last agent message is followed by superseding work, lacks text or has no terminal phase, no agent text is chosen from either source. |
| TerminalReply.FindMatched | bot/execution_recovery_controller.py:1760-1790 | The last turn with the id asked for. |
| CardLimits.ScanTables | bot/card_limits.py:7-30 | The index loop finds exactly the tables outside fences: each span has a row and a separator at its head and goes on for as long as lines begin with a bar, and no such head is outside all spans. |
| CardLimits.TableEnd | bot/card_limits.py:20-28 | The inner loop ends a table at the first line without a bar. |
| CardLimits.LinesByCharacter | bot/card_limits.py:7-30 | What a fence, a row, a bar line and a separator are by their characters, with white space around them left out. |
| CardLimits.ScanFindsTables | bot/card_limits.py:7-30 | The spans scanned are all tables, each to its end, and no table head outside fences is left out. |
| CardLimits.LimitCardTables | bot/card_limits.py:33-44 | The result has as many tables as the limit allows, the first ones of the text at the same lines; its lines are those of the text with fences around the rest; within the limit the text is returned as it is. A negative limit counts from the end. |
| CardLimits.LimitedScans | bot/card_limits.py:7-44 | Scanning the limited lines finds exactly the first n tables, where they were. |
| CardLimits.WrapsAreLimited | bot/card_limits.py:33-44 | Fencing the overflow by slice assignment, last table first, is the line-by-line limiting. |
| CardLimits.UnwrapAllWrapAll | bot/card_limits.py:33-44 | Taking the inserted fence lines out gives the original lines back. |
| CardLimits.LimitingOnceIsEnough | bot/card_limits.py:33-49 | The number of tables is the smaller of the count and the limit, a second limiting finds no overflow, and without the inserted lines the text is the original. |
| CardLimits.JoinSplit | bot/card_limits.py:33-44 | Splitting a text into lines and joining them gives it back. |
| CardLimits.SplitJoin | bot/card_limits.py:33-44 | Joining lines and splitting gives them back. |
| CardLimits.ScanOrdered | bot/card_limits.py:7-30 | Tables are found in order and do not overlap. |
| DiagnosticLogs.RotationExactly | bot/diagnostic_logs.py:142-160 | Every log moves up by one, only the last backup is lost, the current name is free, and an oversized first backup keeps its end; with no file before it the last backup stays. |
| DiagnosticLogs.ShiftedExactly | bot/diagnostic_logs.py:142-152 | After the downward loop backup i is the old file i - 1. |
| DiagnosticLogs.AppendKeepsBound | bot/diagnostic_logs.py:163-187 | An append keeps every log of every policy within its size. |
| DiagnosticLogs.AppendedBehind | bot/diagnostic_logs.py:163-187 | A record is written behind what the log holds, or begins a log after that became the first backup; no other policy is touched. |
| DiagnosticLogs.FailedByIrregular | bot/diagnostic_logs.py:142-187 | Only a file of the policy that is no log keeps a record from being written. |
| DiagnosticLogs.EveryRunIsBounded | bot/diagnostic_logs.py:163-187 | So does every run of appends. |
| DiagnosticLogs.PruneToBudget | bot/diagnostic_logs.py:111-120 | Removes closed logs only, oldest first and no more than needed, until the budget is met or only the current log is left; within budget it removes nothing. |
| DiagnosticLogs.PruneCandidates | bot/diagnostic_logs.py:97-121 | The expired logs, and what the budget makes of the others; in a directory kept bounded by appends the size phase selects nothing. |
| DiagnosticLogs.PrunedIsWithinBudget | bot/diagnostic_logs.py:97-139 | After a prune each policy is within its budget or has only its current log left. |
| DiagnosticLogs.PrunedOnlyOld | bot/diagnostic_logs.py:97-139 | Every log that is too old goes; any other that goes is closed and not younger than a closed one that stays. |
| DiagnosticLogs.BoundedTotal | bot/diagnostic_logs.py:97-121 | Logs within their policy's size are within its budget together. |
| DiagnosticLogs.LogDirectory.Rotate | bot/diagnostic_logs.py:142-160 | The loop that renames files does what the rotation says, or stops at a target that is not a log. |
| DiagnosticLogs.LogDirectory.AppendLog | bot/diagnostic_logs.py:163-187 | A record that fits comes behind all that is in the log and changes nothing else; otherwise, or when the client log's day changed, that becomes the first backup and the record begins a new log. It fails only over a file that is no log; a bounded directory stays bounded. |
| DiagnosticLogs.LogDirectory.Prune | bot/diagnostic_logs.py:97-139 | Every log that is too old is removed, and of the others closed ones only, none before an older one; afterwards each policy is within budget or has only its current log; in a bounded directory only expired logs go. |

## Left out

- Cards, help pages, command parsing, configuration, permissions, network clients: no state of the kind modelled here.
- What is inside a page: text is measured by the two character counters of a cursor, whether a range fits a page is a parameter, and publishing or patching a page does not raise.
- The cancellation effects of timers that a projection detaches, and their order.
- Timers, clocks, uuids: attempt ids, message ids and times are parameters; the proofs do not take them to be new, so a reuse appears as an error.
- LiveRollover.LiveController.Present: the transcript of a session that keeps its handle stays as it is while a presentation has released the lock (`TranscriptsKept`); everything else may change. The code reads the transcript again after each commit.
- Recovery of sends beyond the one retry: rescheduling, the timer of a pending page, deduplication of terminal cards and their clean-up.
- IngressGate.AdapterIngressGate.DrainOutboundTransports: only guard calls happen while the drain waits; other gate operations that also take the lock then are not modelled, and neither is `resolve_published_backend_endpoint`.
- IngressGate.AdapterIngressGate.Accept: activation, invalidation and publication ports are outcomes; they do not call the gate.
- The manager's ports do not call back into it, so its checks that nothing was replaced during a settlement or a commit always pass and are not modelled, nor the parts of deactivation that put a record back after such a replacement.
- BindingManager.BindingRuntimeManager.Bind: says when it raises, not with which message; the same holds for the other operations of the manager.
- A resident dictionary is an object with a state value: sharing parts of it is not modelled, nor are the settings, goal and plan messages beyond the fields named in `State`.
- BindingManager.BindingRuntimeManager.PersistAll: a write of the store that raises leaves the store as it was.
- Interaction leases, inventories and status snapshots of the manager, `update_runtime_settings_locked` and `update_thread_metadata_locked`.
- Strings are taken as stripped and normalized, values as well typed; white space is ASCII white space.
- Recovery.WatchdogController.Settle: presenting, finalizing and rescheduling after a settlement, compact starts whose outcome is unknown and `rollback_mirror_watchdog_start` are not modelled.
- Recovery.RecoveryRuntime.ApplySnapshot: the reply is its length in the transcript's counter; the text and its items are not modelled.
- TerminalReply.SnapshotReply: full reply text, reply items and turn status are not carried along.
- DiagnosticLogs.LogDirectory.AppendLog: a record cut in the middle of a character is taken as cut at a byte, and waiting for the log lock is not modelled.
- DiagnosticLogs.RotationExactly: for policies with at least two backups, as all of them have.
