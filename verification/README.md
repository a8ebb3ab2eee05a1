# AISummoner: a verified model of its concurrent cores

AISummoner lets an AI agent run commands on a paired remote device, and every
command is gated by a human decision. This project models the parts of the
server where several state machines have to agree, and proves what they promise
together. It is written in Dafny 4.11; `dafny verify dfyconfig.toml` checks all of it.

## What is modelled

**Tables and store.** `Schema` gives every store statement as a function of the
four tables that matter (devices, pairing codes, agent sessions, tool calls).
`SchemaInvariant` states the relational invariant and proves it for every
statement and every history. `Store` is the store itself: a class whose methods
change the tables in place, with one adversarial choice per call. A call may
succeed, fail without effect, or take effect and be reported as failed.

**Approval protocol.** `Approval` is a step system of turns, invocations,
waiters and decisions. Every store call, lock section, channel operation and
wait is a step of its own; any interleaving and any store outcome is allowed.
`ApprovalInvariant` and `ApprovalAdvance` prove the inductive invariant,
`ApprovalTheorems` draws the conclusions over whole runs. `ApprovalWaiting` says
when a registering invocation can block for good, `ApprovalOutcome` when a
decision can be lost. `Witness` has the tables that the reachability proofs here
and in the device lifecycle start from, reached by registering, pairing and
opening a session.

**Device lifecycle.** `DeviceGate` is the keyed, cancellable lock with recycled
entries. `Lifecycle` puts unpairing, tunnel publication, turns and stream
requests on top of it; `LifecycleInvariant` and `LifecycleTheorems` prove that a
revoked turn never reaches a later connection, and exactly where that ends.

**Event tracker.** `Tracker` says what each decoded provider event does.
`EventTracker` is the object that does it in place. `TrackerInvariant`,
`TrackerTheorems` and `TrackerViews` prove what a whole stream guarantees.
`TrackerPairing`, `TrackerFollowing`, `TrackerTwins` and `TrackerTransparency`
compare streams that announce a message before and after its text, and say when
the difference cannot be observed.

**Supporting cores.** `Limiter`, `LimiterTheorems` and `SourceLimiter` (the
per-source admission limiter), `Capture` (two drains on one budget), `Terminal`
and `TerminalHandler` (terminal admission and joined cancellation), `Bridge` and
`BridgeInvariant` (joined close of callback mappings), `ProcessScope` (signals
through process descriptors under reuse of process numbers).

## Results that qualify a promise

- The revocation guarantee of Unpair holds for every acknowledged unpair and
  every session it covers, whatever unpairs came before
  (`NoStreamAfterAcknowledgedUnpair`). If the store applies the commit and reports
  a failure, the service returns before it marks anything, and a stream request
  that was already waiting can succeed on a connection published later
  (`UnacknowledgedUnpairAllowsIt`, `LaterStreamIsReachable`).
- Registering a waiter can block for good, because the channel holds one decision
  and both the lookup and the decider send to it. `RegistrationBlocksIff` gives,
  for every state of every run, the exact condition under which some continuation
  blocks: until the lookup, an unrevoked session whose call is undecided, or
  decided by someone who has not looked for the waiter yet, or whose decision is
  in the channel already; after the lookup found a decision, a channel that is
  full or a decider still on the way to it. Both orders occur: the hand-over
  before the lookup (`BlockedIsReachable`) and after it (`LateHandoverBlocks`).
- A recorded decision is not lost to the invocation as long as its own database
  calls answer, the service is not closed at its registration and the session is
  not revoked (`WaitIsLeftWithTheDecision`; timeout and cancellation included).
  A lookup that fails does lose an acknowledged approval: the waiter is removed
  and the call is failed (`FailedLookupLosesTheDecision`).
- The limiter admits at most twice its maximum per window length, where a maximum
  below one counts as one: the first request of a window always passes. The
  gateway replaces such a maximum by 20 before it builds the limiter.
- Text that comes before the announcement of its message is buffered, and
  whether it came before or after it makes no difference to the outcome and to
  the deltas of any message, with three provisos on the events in between: the
  queue of unannounced text does not overflow, no idle signal and no session error
  is ignored for want of activity, and the turn does not end there
  (`BufferingIsTransparent`). Each proviso is needed: `OverflowStops`,
  `IdleBeforeActivityShows`, `ErrorBeforeActivityShows`, `FinishBeforeTextShows`.

## Model

| member | source | states |
|---|---|---|
| `SchemaInvariant.StatementKeepsConsistent` | internal/store/agent.go:351-645 | every statement keeps the relational invariant: owners agree with unrevoked sessions, codes are open only for unowned devices and one per device, call rows are well formed, a revoked session has no open call |
| `SchemaInvariant.ReachableIsConsistent` | internal/store/agent.go:32-50 | the invariant holds after any history of statements |
| `SchemaInvariant.OwnerPredicateIsSessionState` | internal/store/agent.go:32-50 | in a consistent database the two-table owner predicate is equivalent to the session row's own user and state |
| `SchemaInvariant.StatementEvolves` | internal/store/agent.go:520-645 | what any statement may do to a row that exists before and after: decisions are fixed, terminal rows and revoked sessions do not change, a pending call starts only with an approval, consumed codes stay |
| `SchemaInvariant.RevokedForever` | internal/store/devices.go:89-162 | no later history changes a revoked session, pairing again included |
| `SchemaInvariant.TerminalForever` | internal/store/agent.go:614-645 | a terminal tool call keeps its whole row for as long as the row exists |
| `SchemaInvariant.UnpairRevokesEverySession` | internal/store/devices.go:89-162 | a successful unpair leaves the device unowned, its codes consumed, all its sessions revoked whoever made them, and their calls terminal |
| `SchemaInvariant.OwnershipChanges` | internal/store/pairing.go:46-105 | after any history, a statement changes the owner of a device, registered or not, only from nobody to the claimant of its open, unexpired code, which is consumed by it, or from a user to nobody by that user's unpair |
| `SchemaInvariant.OwnerCameByClaim` | internal/store/pairing.go:46-105 | whoever owns a device after any history made a claim on it when nobody owned it, and has owned it ever since |
| `SchemaInvariant.ClaimNeverConflicts` | internal/store/pairing.go:46-105 | the conflict answer of a claim is unreachable |
| `SchemaInvariant.ConsumedForever` | internal/store/pairing.go:12-43 | a consumed code never changes again |
| `SchemaInvariant.CodeBindsOnce` | internal/store/pairing.go:46-105 | after a claim succeeded, presenting the same code is refused whoever does it and whenever |
| `Store.CascadeIsExact` | internal/store/agent.go:394-419 | the cascade that deletes orphaned calls deletes exactly the calls of the deleted session |
| `Store.Store.constructor` | internal/store/store.go:108 | a new store is empty and consistent |
| `Store.Store.RegisterDevice` | internal/store/devices.go:18-44 | inserts, refreshes the profile under the same key, or conflicts; keeps the invariant under every store outcome |
| `Store.Store.CreatePairingCode` | internal/store/pairing.go:12-43 | consumes the device's open codes and adds one, in one transaction that is rolled back or committed as a whole |
| `Store.Store.ClaimPairing` | internal/store/pairing.go:46-105 | the claim as one transaction: expiry, conflict, consumption and binding |
| `Store.Store.UnpairDevice` | internal/store/devices.go:89-162 | the four-table transaction of unpair: owner, sessions, calls and codes change together or not at all |
| `Store.Store.CreateAgentSession` | internal/store/agent.go:122-144 | a session is created only for the owner of the device; anybody else gets not found, also for an id that is taken |
| `Store.Store.UpdateApprovalMode` | internal/store/agent.go:351-370 | the mode changes only on a quiet session of its owner |
| `Store.Store.SetSessionArchived` | internal/store/agent.go:372-392 | archiving needs a quiet session of its owner |
| `Store.Store.DeleteAgentSession` | internal/store/agent.go:394-419 | deletes a quiet session with its calls, nothing else |
| `Store.Store.UpdateSessionState` | internal/store/agent.go:433-444 | writes any state but revoked |
| `Store.Store.BeginAgentTurn` | internal/store/agent.go:449-467 | a turn begins only on a quiet, unarchived, owned session |
| `Store.Store.CreateToolCall` | internal/store/agent.go:497-512 | creates a pending or started call under a fresh id on a session its user may see |
| `Store.Store.DecideToolCall` | internal/store/agent.go:520-569 | records a decision once on a pending call, and upgrades the session in the same transaction |
| `Store.Store.FailPendingToolCall` | internal/store/agent.go:575-595 | closes a pending undecided call, also when the lookup after the update fails |
| `Store.Store.StartToolCall` | internal/store/agent.go:597-612 | starts a pending call whose decision approves |
| `Store.Store.FinishToolCall` | internal/store/agent.go:614-645 | writes a terminal status where the row allows it |
| `Store.Store.ToolCallByOwner` | internal/store/agent.go:514-516 | the stored row is returned exactly when the database answers and the call belongs to an unrevoked, unarchived session of that user; nothing else is ever returned |
| `ApprovalAdvance.MoveIsStatement` | internal/agent/service.go:1199-1366 | an invocation changes the tables only by the one statement of the point it is at, and only when the store applied it |
| `ApprovalAdvance.AdvanceKeepsInv` | internal/agent/service.go:1199-1536 | every move of an invocation, under every store outcome, keeps the invariant |
| `ApprovalAdvance.StepKeepsInv` | internal/agent/service.go:707-1536 | every step of anybody keeps the invariant |
| `ApprovalAdvance.RunKeepsInv` | internal/agent/service.go:707-1536 | the invariant holds in every state of every run |
| `ApprovalInvariant.DecideCommitKeepsInv` | internal/agent/service.go:883-921 | the transaction of a decision, lost or not, keeps the invariant |
| `ApprovalInvariant.DecideNotifyKeepsInv` | internal/agent/service.go:903-915 | handing a decision to a waiter keeps the invariant |
| `ApprovalInvariant.ReserveKeepsInv` | internal/agent/service.go:707-732 | reserving a turn keeps the invariant |
| `ApprovalInvariant.BeginKeepsInv` | internal/agent/service.go:680-694 | beginning a turn keeps the invariant |
| `ApprovalInvariant.SettleKeepsInv` | internal/agent/service.go:1105-1120 | the terminal state write of a turn keeps the invariant |
| `ApprovalInvariant.ReleaseKeepsInv` | internal/agent/service.go:734-749 | releasing a turn keeps the invariant |
| `ApprovalInvariant.TombstoneKeepsInv` | internal/agent/service.go:977-995 | marking a session revoked in memory keeps the invariant |
| `ApprovalTheorems.RowsReach` | internal/store/agent.go:497-645 | over any stretch of any run, the row of a call changes only along the protocol's transitions |
| `ApprovalTheorems.ExecNeedsStarted` | internal/agent/service.go:1199-1366 | the executor is reached for a call only if its row entered started before, created so under persisted full access or after a recorded approval |
| `ApprovalTheorems.RefusedIsNeverExecuted` | internal/agent/service.go:1241-1365 | a call that is denied, or closed before it started, at any time of a run is not executed in it |
| `ApprovalTheorems.FinishReportsDurableStatus` | internal/agent/service.go:1472-1536 | the status finishing hands back is the row's terminal status for as long as the row exists, and without an error it is the requested one |
| `ApprovalTheorems.CompletionEventsAreDurable` | internal/agent/service.go:1241-1365 | every completion event reports the status the row has and keeps |
| `ApprovalTheorems.OneWinner` | internal/agent/service.go:1435-1456 | a decision and an abort never both win the same call, in either order |
| `ApprovalTheorems.AcknowledgedIsRecorded` | internal/agent/service.go:883-921 | every acknowledged decision is the one on record |
| `ApprovalTheorems.UpgradeIsTheDecision` | internal/store/agent.go:520-569 | a statement that gives a session full access is the owner's setting of a quiet session or the recording of approve-session on one of its calls |
| `ApprovalTheorems.ApproveSessionUpgrades` | internal/store/agent.go:520-569 | a step that records approve-session gives the session full access in the same step |
| `ApprovalTheorems.UpgradeNeedsApproveSession` | internal/agent/service.go:903-915 | a step that gives a session full access records approve-session, or is the owner's setting |
| `ApprovalTheorems.WaiterReturnsRecordedDecision` | internal/agent/service.go:1399-1430 | what the wait hands on is the decision on record |
| `ApprovalTheorems.AcknowledgedReachesWaiter` | internal/agent/service.go:1368-1430 | an invocation that waits, on an unrevoked session, has the acknowledged decision of its call in its channel, however registration, lookup and decision interleaved |
| `ApprovalTheorems.TurnModeIsPersisted` | internal/agent/service.go:1231-1233 | while a turn runs on an unrevoked session, the session is in use and unarchived, and full access in memory is full access in the database |
| `ApprovalTheorems.NothingLowersARunningSession` | internal/store/agent.go:351-419 | while a turn runs, no step but its own terminal write lowers the mode, archives or deletes the session |
| `ApprovalWaiting.BlockedForever` | internal/agent/service.go:1368-1397 | a blocked registration blocks in every later state of the run |
| `ApprovalWaiting.StepStaysSafe` | internal/agent/service.go:883-1430 | no step of anybody exposes an invocation that is past its creation and not exposed |
| `ApprovalWaiting.ExposedCanBlock` | internal/agent/service.go:1368-1397 | from every exposed state steps of the decider and the invocation lead to a blocked registration |
| `ApprovalWaiting.RegistrationBlocksIff` | internal/agent/service.go:1368-1397 | in every state of every run, some continuation blocks the registration of an invocation for good exactly if it is exposed: a decision is in its channel, or can still get there beside the one its lookup finds |
| `ApprovalWaiting.BlockedIsReachable` | internal/agent/service.go:903-915 | a blocked registration occurs in some run |
| `ApprovalWaiting.LateHandoverBlocks` | internal/agent/service.go:903-915 | in some run the lookup finds an empty channel, and the decider's hand-over blocks the send after it |
| `ApprovalOutcome.WaitIsLeftWithTheDecision` | internal/agent/service.go:1368-1456 | once a decision is recorded on an unrevoked session and all database calls of the invocation have answered, the invocation never gives up its waiter, leaves the wait only with that decision, by the channel or by the abort that lost, and fails the call only after it was approved and has started; an acknowledged decision is that one |
| `ApprovalOutcome.FailedLookupLosesTheDecision` | internal/agent/service.go:1386-1392 | in some run a lookup that does not answer removes the waiter of an acknowledged approval and fails the call, on an unrevoked session |
| `DeviceGate.StepKeepsInv` | internal/devicegate/gate.go:36-88 | every step keeps: token plus owners is one per entry, the reference count is the number of users, an entry is mapped exactly while used |
| `DeviceGate.RunKeepsInv` | internal/devicegate/gate.go:36-88 | the gate's invariant holds in every state of every run |
| `DeviceGate.MutualExclusion` | internal/devicegate/gate.go:36-79 | per device at most one holder exists, over all entries the device ever had |
| `DeviceGate.EntriesAreInUse` | internal/devicegate/gate.go:81-88 | a device has an entry exactly while somebody uses it, so cancelled waiters leak nothing |
| `DeviceGate.OnlyUnusedEntriesGo` | internal/devicegate/gate.go:81-88 | an entry is deleted only by the last of its users |
| `DeviceGate.GivingBackNeverBlocks` | internal/devicegate/gate.go:64-78 | returning the token, on unlock or after a late cancellation, never blocks |
| `DeviceGate.FreeTokenIsAvailable` | internal/devicegate/gate.go:57-63 | a waiter can take the lock exactly when nobody of the device owns it |
| `LifecycleInvariant.StepKeepsInv` | internal/device/service.go:141-164 | every step of unpair, publication, turns and stream requests keeps the lifecycle invariant |
| `LifecycleInvariant.PublisherFindsSettled` | internal/tunnel/server.go:322-347 | whoever may publish for a device finds every session revoked by an acknowledged unpair of it settled |
| `LifecycleInvariant.FinishedStreamIsNotLater` | internal/tunnel/manager.go:255-347 | a stream that passes the last look at its context is not on a connection published after its session was revoked |
| `LifecycleInvariant.CommittedKeepsInv` | internal/device/service.go:149-153 | the durable half of unpair, in its three outcomes, keeps the invariant |
| `LifecycleInvariant.MarkKeepsInv` | internal/agent/service.go:977-995 | tombstoning the sessions and collecting their turns keeps the invariant |
| `LifecycleInvariant.PublishKeepsInv` | internal/tunnel/manager.go:157-178 | newest-wins publication keeps the invariant |
| `LifecycleInvariant.DetachKeepsInv` | internal/tunnel/manager.go:218-231 | detaching the device keeps the invariant |
| `LifecycleInvariant.PathKeepsInv` | internal/device/service.go:141-164 | the lifecycle invariant holds along every run |
| `LifecycleInvariant.NoStreamOnLaterConnection` | internal/tunnel/manager.go:255-347 | in every run, a turn whose session was covered by an acknowledged unpair, newly revoked or not, has no stream on a connection published after the first such unpair committed |
| `LifecycleTheorems.NoStreamAfterAcknowledgedUnpair` | internal/device/service.go:141-164 | for any acknowledged unpair of any run, whatever the store did before, no turn of a session it covers ever has a stream on a connection published after that unpair committed |
| `LifecycleTheorems.UnacknowledgedUnpairAllowsIt` | internal/device/service.go:149-153 | from every reachable state where an unpair covers a waiting request's session, a commit that is applied but reported as failed can be followed by a reconnect on which the request succeeds |
| `LifecycleTheorems.LaterStreamIsReachable` | internal/device/service.go:149-153 | such a state is reached in some run |
| `TrackerInvariant.KeyOwner` | internal/opencode/sse.go:551-560 | a part key belongs to one message only |
| `TrackerInvariant.PartKeyIsInjective` | internal/opencode/sse.go:551-560 | different parts of valid identities have different keys |
| `TrackerInvariant.EnqueueFits` | internal/opencode/sse.go:523-538 | queueing keeps the counters equal to the true totals and within the limits |
| `TrackerInvariant.ClearFits` | internal/opencode/sse.go:540-549 | clearing a message's queue keeps the counters equal to the true totals |
| `TrackerInvariant.DeliverFits` | internal/opencode/sse.go:402-510 | delivering any text keeps: sent deltas spell the stored parts on one stream, from current assistants, one family per unsettled key |
| `TrackerInvariant.ConsumeGrows` | internal/opencode/sse.go:186-264 | no event changes a fixed prompt, role, parent, settled family or part kind, and part texts only grow by extension |
| `TrackerInvariant.ConsumeKeepsInv` | internal/opencode/sse.go:186-340 | every event keeps the invariant unless it fails, and even then everything but the failed message's queue |
| `TrackerInvariant.ConsumeAllKeepsInv` | internal/opencode/sse.go:186-340 | the invariant and the growth hold over every stream |
| `TrackerTheorems.DeltasSpellTheParts` | internal/opencode/sse.go:435-510 | after any stream, the message-part deltas of a key concatenate to its stored text and all have its kind; queue totals are exact and within 512 records and 32 KiB |
| `TrackerTheorems.PartsOnlyExtend` | internal/opencode/sse.go:453-482 | whatever comes later, a stored part keeps its kind and its text is extended only |
| `TrackerTheorems.DeltasAnswerThePrompt` | internal/opencode/sse.go:266-340 | every delta belongs to an assistant message whose parent is the prompt, and that prompt never changes |
| `TrackerTheorems.OneFamilyPerPart` | internal/opencode/sse.go:402-482 | while a message's family is not settled, no part of it is sent by both families |
| `TrackerTheorems.SettledFamilyOnly` | internal/opencode/sse.go:402-433 | once a delta without text id settled the family, only that family sends for the message, over the rest of any stream |
| `TrackerTheorems.SuccessHasCauses` | internal/opencode/sse.go:228-264 | a stream that ends in success contains a heard non-tool finish of a current assistant and a heard idle that followed assistant activity |
| `TrackerViews.DeliverViews` | internal/opencode/sse.go:402-510 | a delivery acts on its message's share of the state as on the whole state |
| `TrackerViews.DeliverElsewhere` | internal/opencode/sse.go:402-510 | a delivery does not touch any other message's share |
| `TrackerViews.FlushFromView` | internal/opencode/sse.go:323-338 | a queue that flushes on its message's share flushes on the whole state, as long as all parts together fit the limit |
| `TrackerViews.FlushAppends` | internal/opencode/sse.go:323-338 | a queue that grew by one text is flushed by one more delivery |
| `TrackerPairing.OfferMatches` | internal/opencode/sse.go:342-400 | text that the stream with the early announcement takes is taken by the late one, and keeps the two paired |
| `TrackerPairing.AnnounceMatches` | internal/opencode/sse.go:266-340 | announcing another message keeps the two streams paired |
| `TrackerPairing.ConsumeAllMatches` | internal/opencode/sse.go:186-264 | over any calm events that do not fail the early stream, the late stream does not fail either and the two stay paired |
| `TrackerFollowing.ConsumeAllFollows` | internal/opencode/sse.go:186-264 | over any calm events that the late stream takes with room for its announcement in the end, the early stream does not fail: the limits on messages, events, parts and queue do not stop it alone |
| `TrackerTwins.TwinsAnswerAlike` | internal/opencode/sse.go:186-400 | two states that differ only in how the deltas of different messages interleave fail on the same streams, and otherwise reply alike and stay so |
| `TrackerTransparency.BufferingIsTransparent` | internal/opencode/sse.go:323-400 | for any stretch of events without an overflow, an ignored idle or session error, or the end of the turn, and any events after it, announcing the message before or after the stretch fails alike, and otherwise gives the same reply, the same deltas of every message and the same state but for the interleaving |
| `TrackerTransparency.OverflowStops` | internal/opencode/sse.go:523-538 | a stream that overflows the queue fails, whatever follows |
| `TrackerTransparency.IdleBeforeActivityShows` | internal/opencode/sse.go:248-252 | an idle signal before any activity ends the turn if a final announcement came first, and is ignored if it comes after |
| `TrackerTransparency.IdleBeforeActivityIsReachable` | internal/opencode/sse.go:248-252 | a new tracker gets there by those two events |
| `TrackerTransparency.ErrorBeforeActivityShows` | internal/opencode/sse.go:253-257 | a session error before prompt and activity fails the turn if the announcement came first, and is ignored if it comes after |
| `TrackerTransparency.FinishBeforeTextShows` | internal/opencode/sse.go:266-340 | when the provider is idle already, a final announcement ends the turn without the text that comes after it, and sends the text that came before it |
| `EventTracker.EventTracker.constructor` | internal/opencode/sse.go:98-112 | a new tracker is empty |
| `EventTracker.EventTracker.EmitCompatibility` | internal/opencode/sse.go:402-433 | settles or claims the family and sends the delta if the compatibility family speaks |
| `EventTracker.EventTracker.GetPart` | internal/opencode/sse.go:491-510 | finds or creates the part, or refuses a changed kind or one part too many |
| `EventTracker.EventTracker.EmitDelta` | internal/opencode/sse.go:435-451 | appends a delta to its part and sends it, unless the other family speaks |
| `EventTracker.EventTracker.EmitFull` | internal/opencode/sse.go:453-482 | sends what a snapshot adds to its part, ignores what is known, refuses what contradicts it |
| `EventTracker.EventTracker.Enqueue` | internal/opencode/sse.go:523-538 | queues text within the limits and counts it |
| `EventTracker.EventTracker.ClearPending` | internal/opencode/sse.go:540-549 | the loop takes the whole queue of a message out of map and counters |
| `EventTracker.EventTracker.FlushPending` | internal/opencode/sse.go:323-338 | the loop delivers a message's queue in order and stops at the first failure |
| `EventTracker.EventTracker.MessageUpdated` | internal/opencode/sse.go:266-340 | the announcement of a message: checks, registration, prompt, finish, flush, clear, end |
| `EventTracker.EventTracker.Refuses` | internal/opencode/sse.go:271-287 | the checks before registration refuse exactly bad identities, a message too many, and a message that changes its role or parent |
| `EventTracker.EventTracker.MessageDelta` | internal/opencode/sse.go:342-358 | a part delta is sent, queued or dropped by what is known of its message |
| `EventTracker.EventTracker.MessagePartUpdated` | internal/opencode/sse.go:360-381 | a part snapshot likewise |
| `EventTracker.EventTracker.CompatibilityDelta` | internal/opencode/sse.go:383-400 | a compatibility delta likewise |
| `EventTracker.EventTracker.ConsistentSessionId` | internal/opencode/sse.go:572-594 | answers exactly when all session ids an event carries are valid and the same, and then with that id |
| `EventTracker.EventTracker.Signalled` | internal/opencode/sse.go:236-263 | status, idle, error and tool events |
| `EventTracker.EventTracker.Consume` | internal/opencode/sse.go:186-264 | one record: arming, decoding, session filter, duplicates, limit, dispatch; keeps the invariant unless it fails |
| `EventTracker.EventTracker.ConsumeStream` | internal/opencode/sse.go:131-184 | the records of a stream up to the one that ends the turn |
| `Limiter.LeastIsUnique` | internal/tunnel/server.go:595-612 | the eviction order has one least entry |
| `LimiterTheorems.StepKeepsFits` | internal/tunnel/server.go:538-618 | every operation keeps the cap, unique observation orders that agree with observation times, and counts within the maximum |
| `LimiterTheorems.VictimIsLeastRecent` | internal/tunnel/server.go:595-612 | eviction takes the entry with the least observation order |
| `LimiterTheorems.CapHolds` | internal/tunnel/server.go:538-573 | after any operations at most 4096 entries are held, and the one to evict has the least observation order |
| `LimiterTheorems.StepMatches` | internal/tunnel/server.go:538-618 | an operation that does not evict a source keeps its window equal to the unbounded reference, or expired there |
| `LimiterTheorems.LikeUnbounded` | internal/tunnel/server.go:538-618 | with a clock that does not run backwards, all answers up to the first eviction are those of an unbounded map that reclaims nothing |
| `LimiterTheorems.RateIsBounded` | internal/tunnel/server.go:538-573 | over any stretch of a run in which a source is neither evicted nor reset, it gets at most twice the maximum (at least one) in any closed interval of one window length |
| `LimiterTheorems.LowMaximumStillAdmits` | internal/tunnel/server.go:569-572 | for a first request, twice the maximum itself is exceeded exactly when the maximum is below one |
| `SourceLimiter.SourceLimiter.constructor` | internal/tunnel/server.go:534-536 | a new limiter is empty |
| `SourceLimiter.SourceLimiter.ObserveNow` | internal/tunnel/server.go:575-584 | observation time never runs backwards and orders increase |
| `SourceLimiter.SourceLimiter.ReclaimExpired` | internal/tunnel/server.go:586-593 | the loop removes exactly the expired windows |
| `SourceLimiter.SourceLimiter.EvictLeastRecentlyObserved` | internal/tunnel/server.go:595-612 | the scan removes exactly the least entry, in whatever order the map is walked |
| `SourceLimiter.SourceLimiter.Allow` | internal/tunnel/server.go:538-573 | answers and updates the windows as specified, keeping the cap |
| `SourceLimiter.SourceLimiter.Succeeded` | internal/tunnel/server.go:614-618 | resets the source |
| `Capture.DrainsHold` | internal/sshclient/client.go:507-534 | for any interleaving of reads, each buffer is a prefix of its stream, its flag says whether a proper one, and the shared budget is not left unused |
| `Capture.ReportIsHonest` | internal/agent/service.go:1579-1580 | the result is flagged exactly when the command wrote more than 256 KiB; otherwise both streams are complete; a flagged result holds prefixes that total exactly 256 KiB |
| `Capture.FlagIgnoresSchedule` | internal/sshclient/client.go:496-540 | two interleavings of the same output are flagged alike, and give the same result if not flagged |
| `Capture.CapturePair.constructor` | internal/sshclient/client.go:505 | a new pair has its whole budget |
| `Capture.CapturePair.Accept` | internal/sshclient/client.go:511-525 | the locked section of a drain after one read |
| `Capture.Drain` | internal/sshclient/client.go:507-534 | both drains to their ends, in any order of reads |
| `Capture.TruncateOutput` | internal/agent/service.go:1622-1636 | prefixes that together have the length of the output or the maximum, flagged exactly when cut |
| `Terminal.StepKeepsInv` | internal/terminal/handler.go:362-453 | every step keeps exact, capped counts, finished-if-unlisted, and joins that cover what they must |
| `Terminal.RunKeepsInv` | internal/terminal/handler.go:362-453 | the invariant holds in every state of every run |
| `Terminal.CountsAreExact` | internal/terminal/handler.go:368-415 | a user's count is the number of registered terminals and at most 4; an admitted session that is not registered has finished |
| `Terminal.ReturnedMeansFinished` | internal/terminal/handler.go:420-453 | when CancelDevice or Close has returned, every session it covers has finished |
| `Terminal.OldRequestsAreRefused` | internal/terminal/handler.go:368-394 | from the moment a device is cancelled or the handler closed, no request with an earlier generation is admitted |
| `Terminal.LaterRequestsAreFree` | internal/terminal/handler.go:417-429 | a request that snapshots the generation afterwards is not covered by the cancellation |
| `TerminalHandler.CopySessions` | internal/terminal/handler.go:455-461 | the copy lists every session once and nothing else |
| `TerminalHandler.Handler.constructor` | internal/terminal/handler.go:107-129 | a new handler has an empty registry |
| `TerminalHandler.Handler.DeviceGeneration` | internal/terminal/handler.go:362-366 | a snapshot with which no request is refused as invalidated now, and none is admitted once the device has been cancelled |
| `TerminalHandler.Handler.Admit` | internal/terminal/handler.go:368-394 | refuses in the source's order or registers the session, keeping the invariant |
| `TerminalHandler.Handler.ReleaseSession` | internal/terminal/handler.go:396-415 | finishes and unregisters in one section, keeping the invariant |
| `TerminalHandler.Handler.BeginCancelDevice` | internal/terminal/handler.go:420-424 | advances the generation and copies the device's sessions |
| `TerminalHandler.Handler.BeginClose` | internal/terminal/handler.go:440-447 | refuses further admission and copies all sessions |
| `BridgeInvariant.StepKeepsInv` | internal/opencodebridge/bridge.go:192-327 | every step keeps exact in-flight and gate counts, one registered mapping per open external session, and sound joins |
| `BridgeInvariant.RunKeepsInv` | internal/opencodebridge/bridge.go:192-327 | the invariant holds in every state of every run |
| `BridgeInvariant.JoinedMeansQuiet` | internal/opencodebridge/bridge.go:260-278 | once Activation.Close has returned, or Bridge.Close has returned nil, no callback of the mapping invokes or is on its way to, and one that still looks it up is refused |
| `BridgeInvariant.ClosedStaysQuiet` | internal/opencodebridge/bridge.go:225-256 | after the bridge has closed, activation makes nothing and no callback holds a slot |
| `BridgeInvariant.OneActivePerExternal` | internal/opencodebridge/bridge.go:192-214 | at most one mapping per external session is active |
| `BridgeInvariant.InvokesDoNotOverlap` | internal/opencodebridge/bridge.go:404-446 | invocations of one mapping never overlap |
| `BridgeInvariant.ReporterGoesOn` | internal/opencodebridge/bridge.go:304-318 | a callback reporting a fatal error can always report, and then goes on without waiting for its own slot |
| `ProcessScope.ElapseEvolves` | internal/sshserver/process_linux.go:649-666 | whatever the kernel does meanwhile, processes keep their numbers, reaped ones stay reaped, and numbers name unreaped processes |
| `ProcessScope.ScopeDecides` | internal/sshserver/process_linux.go:435-440 | with a session only the session decides, without one only the group, and without either nothing is in scope |
| `ProcessScope.VerifiedIdentity` | internal/sshserver/process_linux.go:649-666 | a returned identity was the pinned process's own at a moment during the call, and still is unless that process was reaped |
| `ProcessScope.SignalCandidates` | internal/sshserver/process_linux.go:601-624 | every process signalled by the scan was in scope, under one of the numbers tried, at a moment during the scan, and the count covers all signals |
| `ProcessScope.Filter` | internal/sshserver/process_linux.go:569-581 | keeps exactly the numbers above one that are not the leader's |
| `ProcessScope.SignalScope` | internal/sshserver/process_linux.go:569-581 | a whole scan signals only processes that were in scope while it ran, never one with the leader's number or a number below two |

## Left out

- HTTP and JSON handling, WebSocket, yamux and SSH transport, SQL text, logging, audit and configuration: their effects are steps with the guards of the code.
- Cryptography and identifiers: ids are fresh and code digests unique, as the schema's keys enforce.
- Columns that no modelled property reads (titles, messages, external session ids, updated_at, last_seen_at), and the in-memory archived set.
- Real time: clocks are parameters, timeouts and cancellations are steps that may happen at any time. Progress is not stated anywhere.
- The service's retry loops and waits are program points of a step system and not methods, because every store call in them is a point where others interleave. The device gate, the lifecycle, the terminal joins and the bridge are step systems for the same reason; aliasing of their entries is by id.
- Service.Close and a closed service: a store call may fail at any time, which covers what they do to a turn.
- Approval: a turn settles and is released only with no invocation of it current. That assumes a driver that returns from a turn after the turn's tool callbacks have returned, as the bridge's joined close provides; the driver is not modelled.
- LifecycleInvariant.NoStreamOnLaterConnection: covers agent turns; terminals are cancelled after the gate is released, so nothing is claimed for their streams.
- LimiterTheorems.RateIsBounded: the window length is positive, as in the one place the limiter is built; a maximum below one counts as one.
- Limiter: the zero time stands for "never observed" in the source; the model uses an option, and durations do not saturate.
- Terminal and Limiter: generations and observation orders do not wrap around at 64 bits.
- Tracker: events are decoded values. Roles, kinds, finishes and states are matched without their case folding; decoded JSON strings are valid UTF-8, so those checks always pass. A failing sink ends the turn at that event and is not modelled.
- EventTracker: the three text handlers share the lookup they repeat in the source, and the branch for an empty delta after a proper extension is left out, since it cannot be taken.
- SSE framing: the tracker starts from records.
- ProcessScope: the repeated scan until a deadline, reading /proc, and the lease on the leader's descriptor.
- Capture: read errors of a drain; the command's result is then an error and no report.
- Windows process, pipe and access-control code, the Qt client and the web interface.
