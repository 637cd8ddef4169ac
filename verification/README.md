# Huddle: a verified model of its protocols

Huddle is a video-calling product with attended Remote Control. This project models the parts of it
that are hard to get right and proves what they keep:

- **Remote Control grants.** Requests, approvals, renewals, joins, leaves, a reconciler and an operator
  cutover act on three stores: Redis (owner lock, pending request, active grant, one-time bootstrap
  code, all with TTLs), the audit table, and the projection in LiveKit metadata that the native agent
  checks. `RemoteControlState`, `RemoteControlRepo` and `RemoteControlLifecycle` hold the imperative
  services; each method is proved equal to a function on values in `RemoteControlState`,
  `RemoteControlRepo` and `RemoteControlService`, keeps the invariant and makes good what its answer
  promises. `RemoteControlInvariants`, `RemoteControlSteps` and `RemoteControlRuns` prove what every run
  of those functions keeps; `RemoteControlPromises` says what each call promises, in the terms of the
  stores alone, and `RemoteControlOutcomes` proves it; `RemoteControlSweeps` does the same for the
  reconciler and the cutover; `RemoteControlAuthority` follows the two people's tokens from the calls they
  are presented with to the agent's gate; `RemoteControlLocks` says exactly when a live session loses its
  lock, and `RemoteControlCommands` what holds when callers interleave one Redis command at a time. `FakeRedis` shows that lazy expiry cannot be told from eager expiry.
- **The agent side.** `GrantGate` (authority and sequence gate, and the end-to-end guarantee about
  token lifetimes), `ControlProtocol` (the browser's codec and the agent's decoder), `InputInjector`
  (held keys and wheel remainders on Windows and macOS); `InputDevices` is what the last two share.
- **Per-room serialisers.** `PromiseChain` is the lock made of promises; `MetadataWrites` and
  `Admissions` are its two users.
- **Direct Rejoin Grants** (`DirectRejoin`), **uploads** (`DriveUpload`, `ChatFiles`) and
  **maintenance shutdown** (`Maintenance`).

Conventions. Times are integer milliseconds. Ids, digests, SIDs, ETags and the like are values of
abstract types; what the system makes fresh is assumed fresh at the step that makes it. Whatever the
outside world decides (who is connected, how a LiveKit, database or storage call turns out, the order
of query results, when a process dies) is a parameter or a nondeterministic step. A grant service call
is one step at one instant in `RemoteControlRuns`, and one Redis command is one step in
`RemoteControlCommands`. `dafny verify dfyconfig.toml` checks the whole project.

Where the code does not do what its comments or callers would suggest, the model follows the code:

- The room's owner key is meant to last as long as its session. It is lost when somebody asks for the
  session's id as if it were still a pending request, and in no other way but its own TTL
  (`OwnerLostIff`). What keeps sessions apart is the conditional write of the active key, so the run
  invariants do not rely on the owner key.
- A renewal without that owner key is reported as failed although the grant's deadline moves and the
  audit row's does not (`FailedRenewalExtendsIff` for the exact condition, `FailedRenewalHappens` for a
  run).
- Without that owner key, too, the agent's arrival makes the session active but is never shown
  (`JoinOutcome`), and reissuing a code voids the old one and stores none (`ReissueOutcome`).
- At the granularity of single commands, the late write of an update can put an ended session's grant
  over its successor's (`UpdateOverwrites`), and the late deletion of an ending can take its successor's
  (`LateEndingRobs`); no other command takes a session's grant for another session's sake
  (`SessionChangesIff`). This is why the stronger invariants are about whole service calls.
- The Redis stand-in counts a stale key when it is deleted (`LazyMatches`).
- An upload of an empty recording to Drive never succeeds: the loop sends nothing and ends without a
  file (`Upload`).
- A part upload that has sent its part and saves the record after the chat file was completed hides the
  finished file for good (`LateSaveHides`, `LostForGood`, `LateSaveHappens`); a completed record is safe
  in every run exactly when no such upload is left (`CompletedForGoodIff`).
- The maintenance worker ends rooms, and one of its cleanups, by name. Tokens issued before maintenance
  can start calls while it is on, so a name can change hands. An ended call stays covered by its row
  exactly as long as no step ends a call without a row (`CoveredThroughoutIff`), which is so when no call
  starts under a name that a running sweep still has to deal with (`EndedCallsAreCleaned`) and can fail
  otherwise (`ReusedNameIsLost`). The worker's comment says that the cleanup never touches a newer call
  with the same name; it can (`CleanupCanMeetCall`), exactly when one has started since the row's own
  call ended and is still on (`CleanupMeetsCallIff`).
- A sweep that outlives its transaction can leave a row after maintenance is off (`TimeOutBreaksOff`),
  and nothing else can (`OffKeptIff`).
- A profile update writes back whole knocks that it has read as pending, outside the lock that admissions
  take. It can reopen a knock that was admitted meanwhile (`SyncCanReadmit`); apart from that and from
  failed writes a knock gets one token (`OneTokenPerKnock`). A decided knock is safe in every run exactly
  when no profile update is between its reading and its writing of that knock (`ReadmittedIff`).
- When Windows blocks a key-up, the bridge forgets a key that is still down, and not even a release of
  everything lets it go (`BlockedTracksIff`, `BlockedUpSticks`).

## Model

| member | source | states |
|---|---|---|
| `RemoteControlAuthority.SeenPacketsWithinTokens` | apps/api/src/rooms/remote-control.service.ts:115-192 | over any run, with whatever a room's metadata showed at any time, a packet the agent accepts for a session comes before the token presented with its request and before the one presented with its approval has run out; where none was presented, within an hour of that call |
| `RemoteControlAuthority.PacketsWithinTokens` | apps/control-agent/Sources/ControlAgentCore/GrantGate.swift:56-89 | the same for any projection ever published |
| `RemoteControlAuthority.GrantWithinTokens` | apps/api/src/rooms/remote-control.service.ts:189-200 | at any time after its request and its approval, a live grant's authorization and consent deadline lie within the tokens presented with those calls |
| `RemoteControlRuns.LiveGrantIsBacked` | apps/api/src/rooms/remote-control.service.ts:156-242 | in every state of every run a live grant has an active audit row of its room and parties; row deadline <= grant deadline <= authorization expiry <= both tokens' expiry; and its Redis entry outlives the deadline by at least 60 s |
| `RemoteControlRuns.RowsOnlyMoveForward` | apps/api/src/rooms/remote-control.repo.ts:45-123 | over any stretch of any run a row keeps its identity and moves only requested to active or terminal, active to ended, expired or failed, and never out of a terminal status |
| `RemoteControlRuns.NeverRevived` | apps/api/src/rooms/remote-control.state.ts:130-165 | once a session's grant has left a room, it is not live in any room at any later time |
| `RemoteControlRuns.GrantsEndOnTheirOwn` | apps/api/src/rooms/remote-control.service.ts:402-432 | a grant disappears only with its own row closed, or by TTL at least 60 s past its deadline; no other session's end takes it |
| `RemoteControlRuns.EndingIsScoped` | apps/api/src/rooms/remote-control.service.ts:517-534 | ending a session, through its grant or through its row, leaves every other session's grant and owner key untouched |
| `RemoteControlRuns.OneCodePerRoom` | apps/api/src/rooms/remote-control.state.ts:167-202 | every stored bootstrap code belongs to its room's live session, and a room has at most one |
| `RemoteControlRuns.RedeemedAtMostOnce` | apps/api/src/rooms/remote-control.service.ts:278-319 | no digest is redeemed at two different steps of a run |
| `RemoteControlRuns.ReconcileCatchesUp` | apps/api/src/rooms/remote-control.service.ts:434-461 | after a reconcile no live grant and no active row is past its deadline and no requested row is older than 30 s, with the invariants kept |
| `RemoteControlSweeps.ReconcileIsExact` | apps/api/src/rooms/remote-control.service.ts:434-461 | a reconcile closes exactly the active rows whose deadline has passed and the requests at least 30 s old, with status, reason and time, and takes exactly their grants, requests, locks and projections; every other row, key and projection is as it was |
| `RemoteControlSweeps.ReconcileSparesTheRest` | apps/api/src/rooms/remote-control.repo.ts:90-108 | a session whose deadline is ahead keeps its grant and row, and a younger request keeps its record, lock and row |
| `RemoteControlRuns.CutoverEmpties` | apps/api/src/rooms/remote-control.service.ts:465-483 | a cutover leaves no requested or active row and no live grant |
| `RemoteControlSweeps.CutoverIsExact` | apps/api/src/rooms/remote-control.service.ts:465-483 | it closes exactly the open rows, with status, reason and time, and takes exactly their keys and projections |
| `RemoteControlRuns.CutoverIsFinal` | apps/api/src/rooms/remote-control.service.ts:465-483 | and in no later state is any session live that was requested before it |
| `RemoteControlRuns.RunInv` | apps/api/src/rooms/remote-control.service.ts:75-534 | the whole invariant (grants, pending requests, codes, rows, one active row per room, projections, redeemed snapshots) holds in every reachable state |
| `RemoteControlRuns.RunLater` | apps/api/src/rooms/remote-control.service.ts:75-534 | any later state of a run extends any earlier one: clock, rows, grants, projections, codes and tokens only develop as allowed |
| `RemoteControlSteps.RequestKeeps` | apps/api/src/rooms/remote-control.service.ts:75-130 | a request keeps the invariant and the order on states, whatever fails |
| `RemoteControlSteps.ApproveKeeps` | apps/api/src/rooms/remote-control.service.ts:156-242 | so does an approval, on every success and failure path |
| `RemoteControlSteps.RenewKeeps` | apps/api/src/rooms/remote-control.service.ts:350-378 | so does a renewal, including the rolled-back one |
| `RemoteControlSteps.RedeemHelperTokenKeeps` | apps/api/src/rooms/remote-control.service.ts:278-319 | so does redeeming a bootstrap code |
| `RemoteControlSteps.ReissueKeeps` | apps/api/src/rooms/remote-control.service.ts:321-332 | so does reissuing a bootstrap code |
| `RemoteControlSteps.StopKeeps` | apps/api/src/rooms/remote-control.service.ts:334-348 | so does stopping a session |
| `RemoteControlSteps.JoinedKeeps` | apps/api/src/rooms/remote-control.service.ts:380-400 | so does the agent's arrival, including failed metadata |
| `RemoteControlSteps.LeftKeeps` | apps/api/src/rooms/remote-control.service.ts:402-418 | so does a participant's departure |
| `RemoteControlSteps.FinishedKeeps` | apps/api/src/rooms/remote-control.service.ts:420-432 | so does the end of the room |
| `RemoteControlInvariants.TickKeeps` | apps/api/src/rooms/remote-control.state.ts:6-14 | so does time passing, with every key whose TTL ran out gone |
| `RemoteControlSweeps.TickIsExact` | apps/api/src/rooms/remote-control.state.ts:6-14 | time takes exactly the entries whose TTL has run out, of all four families, and nothing else |
| `RemoteControlOutcomes.RequestOutcome` | apps/api/src/rooms/remote-control.service.ts:75-130 | case by case: each refusal and its condition, the closed row when the keys cannot be stored, and on success both keys for 30 s, the fresh row, and the Controller's token expiry as presented |
| `RemoteControlOutcomes.ApproveOutcome` | apps/api/src/rooms/remote-control.service.ts:156-242 | case by case, with the exact condition of success: one grant for exactly the pending request, with deadlines capped by both tokens as presented, its code, its active row and its projection; every failure leaves no grant, code or active row and says what becomes of request, lock, row and projection |
| `RemoteControlOutcomes.DenyOutcome` | apps/api/src/rooms/remote-control.service.ts:244-259 | a denial succeeds exactly when the Sharer answers a request that is still pending, locked and open; row and keys in every case |
| `RemoteControlOutcomes.WithdrawOutcome` | apps/api/src/rooms/remote-control.service.ts:261-276 | a withdrawal succeeds exactly when the Controller takes back a request that is still pending, locked and open; row and keys in every case |
| `RemoteControlOutcomes.ReadOutcome` | apps/api/src/rooms/remote-control.service.ts:132-138 | a read succeeds exactly for the two parties of a pending, unexpired request, and changes nothing; for any other id it is a timeout of that id |
| `RemoteControlOutcomes.PollOutcome` | apps/api/src/rooms/remote-control.service.ts:145-154 | a poll shows an unexpired request to its Sharer, and to nobody else, and expires one that is overdue |
| `RemoteControlOutcomes.RedeemOutcome` | apps/api/src/rooms/remote-control.service.ts:278-319 | a redemption succeeds exactly with a stored code presented for its own room and session while the grant is not past due, and hands out that grant's parties and deadline; the code is spent in every case, and every failure is described |
| `RemoteControlOutcomes.StopOutcome` | apps/api/src/rooms/remote-control.service.ts:334-348 | a stop succeeds exactly for the two parties of a live session; grant, code and lock are gone, the row has the right status and reason, the projection is taken down, nothing else changes |
| `RemoteControlOutcomes.RenewOutcome` | apps/api/src/rooms/remote-control.service.ts:350-378 | only the Sharer renews; it succeeds exactly when lock, database and LiveKit are there, and grant, row and projection then carry the same capped, never earlier deadline; too late it ends the session; every failure is described |
| `RemoteControlOutcomes.FailedRenewalExtendsIff` | apps/api/src/rooms/remote-control.service.ts:350-378 | a failed renewal leaves the grant unchanged if and only if the owner key was there or there was nothing to gain; without the key the grant is extended and the row is not |
| `RemoteControlLocks.OwnerLostIff` | apps/api/src/rooms/remote-control.service.ts:485-496 | over every operation of a run: while a session stays live, its own owner key is lost if and only if the operation asks for the session as a pending request (read, deny, withdraw, or an approval that gets that far) or time passes the key's own TTL |
| `RemoteControlLocks.AskingDrops` | apps/api/src/rooms/remote-control.service.ts:485-496 | such a question deletes the key and changes neither the grant nor the rows |
| `RemoteControlLocks.FailedRenewalHappens` | apps/api/src/rooms/remote-control.service.ts:350-378 | from a fresh service there is a run of request, approval, question and a minute's wait after which a renewal is refused, moves the grant's deadline and leaves the row's |
| `RemoteControlOutcomes.LeaveOutcome` | apps/api/src/rooms/remote-control.service.ts:402-418 | a departing party or agent ends the session with that reason, its lock, code and projection included; a party departing before the answer takes the request back with its lock; anyone else changes nothing |
| `RemoteControlOutcomes.ReissueOutcome` | apps/api/src/rooms/remote-control.service.ts:321-332 | only the Sharer of an unexpired session without a connected agent gets a new code, and only while the owner key is there; the old code is void, lock and grant are refreshed, nothing else changes; without the owner key the old code is void and none is stored; every other refusal is described too |
| `RemoteControlOutcomes.JoinOutcome` | apps/api/src/rooms/remote-control.service.ts:380-400 | the agent's arrival makes the session active and shows it, or ends it when it is expired or cannot be shown; without the owner key it makes the session active and neither shows nor ends it; anyone else's arrival changes nothing |
| `RemoteControlOutcomes.FinishedOutcome` | apps/api/src/rooms/remote-control.service.ts:420-432 | a finished room has no grant, no active row and no projection that could be taken down, with the row closed for that reason |
| `RemoteControlLifecycle.Lifecycle.RequestControl` | apps/api/src/rooms/remote-control.service.ts:75-130 | the commands in the source's order keep the invariant, and the answer makes good the promise of `RequestOutcome` |
| `RemoteControlLifecycle.Lifecycle.GetRequest` | apps/api/src/rooms/remote-control.service.ts:132-138 | keeps the invariant and makes good the promise of `ReadOutcome` |
| `RemoteControlLifecycle.Lifecycle.GetPendingRequest` | apps/api/src/rooms/remote-control.service.ts:145-154 | keeps the invariant and makes good the promise of `PollOutcome` |
| `RemoteControlLifecycle.Lifecycle.Approve` | apps/api/src/rooms/remote-control.service.ts:156-242 | keeps the invariant for a fresh digest, and the answer makes good the promise of `ApproveOutcome`: exactly one grant, or none |
| `RemoteControlLifecycle.Lifecycle.Start` | apps/api/src/rooms/remote-control.service.ts:219-242 | unwinds each failure after the lock exactly as the step of `ApproveOutcome`, in which a failure grants nothing |
| `RemoteControlLifecycle.Lifecycle.Deny` | apps/api/src/rooms/remote-control.service.ts:244-259 | keeps the invariant, and the answer makes good the promise of `DenyOutcome` |
| `RemoteControlLifecycle.Lifecycle.Withdraw` | apps/api/src/rooms/remote-control.service.ts:261-276 | keeps the invariant, and the answer makes good the promise of `WithdrawOutcome` |
| `RemoteControlLifecycle.Lifecycle.RedeemHelperToken` | apps/api/src/rooms/remote-control.service.ts:278-319 | keeps the invariant, and the answer makes good the promise of `RedeemOutcome` |
| `RemoteControlLifecycle.Lifecycle.ReissueBootstrap` | apps/api/src/rooms/remote-control.service.ts:321-332 | keeps the invariant for a fresh digest, and the answer makes good the promise of `ReissueOutcome` |
| `RemoteControlLifecycle.Lifecycle.Stop` | apps/api/src/rooms/remote-control.service.ts:334-348 | keeps the invariant, and the answer makes good the promise of `StopOutcome` |
| `RemoteControlLifecycle.Lifecycle.Renew` | apps/api/src/rooms/remote-control.service.ts:350-378 | keeps the invariant, and the answer makes good the promise of `RenewOutcome`, also when it fails |
| `RemoteControlLifecycle.Lifecycle.OnParticipantJoined` | apps/api/src/rooms/remote-control.service.ts:380-400 | keeps the invariant and makes good the promise of `JoinOutcome` |
| `RemoteControlLifecycle.Lifecycle.OnParticipantLeft` | apps/api/src/rooms/remote-control.service.ts:402-418 | keeps the invariant and makes good the promise of `LeaveOutcome` |
| `RemoteControlLifecycle.Lifecycle.OnRoomFinished` | apps/api/src/rooms/remote-control.service.ts:420-432 | keeps the invariant and makes good the promise of `FinishedOutcome` |
| `RemoteControlLifecycle.Lifecycle.ReconcileExpirations` | apps/api/src/rooms/remote-control.service.ts:434-461 | both loops together keep the invariant, leave nothing live or open overdue, and change exactly what `ReconcileIsExact` says; nothing happens while a reconcile is already running |
| `RemoteControlLifecycle.Lifecycle.ForceProtocolUpgradeCutover` | apps/api/src/rooms/remote-control.service.ts:465-483 | the loop keeps the invariant, changes exactly what `CutoverIsExact` says, leaves no grant, and reports the four counts, `remaining` being 0 |
| `RemoteControlLifecycle.Lifecycle.RequireActive` | apps/api/src/rooms/remote-control.service.ts:503-515 | returns the live grant of the session, or closes a row whose grant has vanished; never revives it (`NeverRevived`) |
| `RemoteControlLifecycle.Lifecycle.EndGrant` | apps/api/src/rooms/remote-control.service.ts:517-522 | the four writes end the session and leave every other session's grant and lock untouched |
| `RemoteControlState.RemoteControlStateService.CreatePending` | apps/api/src/rooms/remote-control.state.ts:83-94 | acquired exactly when the room had no owner key; then both keys are this request's for 30 s; otherwise, and in every other room, nothing changes |
| `RemoteControlState.RemoteControlStateService.ConsumePending` | apps/api/src/rooms/remote-control.state.ts:110-120 | returns only the room's own pending request of that id, under its own lock, and then it is gone; no lock, grant or code and no other room is touched |
| `RemoteControlState.RemoteControlStateService.ReleasePending` | apps/api/src/rooms/remote-control.state.ts:122-128 | afterwards the room has neither request nor lock of that id; another request's record and lock stay, as does everything else |
| `RemoteControlState.RemoteControlStateService.Activate` | apps/api/src/rooms/remote-control.state.ts:130-143 | activated exactly under its own lock and with an empty active key; then both keys are the session's; otherwise nothing changes |
| `RemoteControlState.RemoteControlStateService.UpdateActive` | apps/api/src/rooms/remote-control.state.ts:150-157 | answers yes exactly when the session's own grant and the lock are there; the grant is written without the lock too, and never over another session's |
| `RemoteControlState.RemoteControlStateService.ClearActive` | apps/api/src/rooms/remote-control.state.ts:159-165 | answers yes exactly when the session held the room; afterwards it does not; otherwise nothing changes |
| `RemoteControlState.RemoteControlStateService.IssueBootstrap` | apps/api/src/rooms/remote-control.state.ts:167-189 | answers yes exactly when the new code is stored, which takes the session's grant and lock; the grant's old code is void either way |
| `RemoteControlState.RemoteControlStateService.ConsumeBootstrap` | apps/api/src/rooms/remote-control.state.ts:191-198 | the code is gone whatever the answer, and returned only to its own room and session; no other code or key changes |
| `RemoteControlRepo.RemoteControlRepository.Activate` | apps/api/src/rooms/remote-control.repo.ts:45-56 | activates exactly a requested row of a room without an active one, with the given deadline; no other row changes |
| `RemoteControlRepo.RemoteControlRepository.Transition` | apps/api/src/rooms/remote-control.repo.ts:117-123 | closes exactly a requested row, with status, reason and time, and reports it; no other row changes |
| `RemoteControlRepo.RemoteControlRepository.End` | apps/api/src/rooms/remote-control.repo.ts:82-88 | closes exactly an active row, with status, reason and time, and reports it; no other row changes |
| `RemoteControlRepo.RemoteControlRepository.Renew` | apps/api/src/rooms/remote-control.repo.ts:74-80 | moves the deadline of exactly an active row, and reports it; no other row changes |
| `RemoteControlCommands.CreateAlone` | apps/api/src/rooms/remote-control.state.ts:83-94 | undisturbed, the program of single commands does what the createPending call does |
| `RemoteControlCommands.ConsumeAlone` | apps/api/src/rooms/remote-control.state.ts:110-120 | undisturbed, the program of single commands does what the consumePending call does |
| `RemoteControlCommands.ReleaseAlone` | apps/api/src/rooms/remote-control.state.ts:122-128 | undisturbed, the program of single commands does what the releasePending call does |
| `RemoteControlCommands.ActivateAlone` | apps/api/src/rooms/remote-control.state.ts:130-143 | undisturbed, the program of single commands does what the activate call does |
| `RemoteControlCommands.UpdateAlone` | apps/api/src/rooms/remote-control.state.ts:150-157 | undisturbed, the program of single commands does what the updateActive call does |
| `RemoteControlCommands.ClearAlone` | apps/api/src/rooms/remote-control.state.ts:159-165 | undisturbed, the program of single commands does what the clearActive call does |
| `RemoteControlCommands.ConsumedAtMostOnce` | apps/api/src/rooms/remote-control.state.ts:83-143 | under every interleaving of single commands and expiries, one caller at most consumes a request id, and no id is activated twice, nor by anyone but that caller approving it |
| `RemoteControlCommands.SessionChangesIff` | apps/api/src/rooms/remote-control.state.ts:130-165 | in every state a command changes whose session an active key holds if and only if it fills an empty key, empties one, or is the write of an update of another session; only the last replaces one session by another; and a session loses the key to a command about another session if and only if that is such a late write or a late deletion |
| `RemoteControlCommands.UpdateOverwrites` | apps/api/src/rooms/remote-control.state.ts:150-157 | there is an interleaving from the empty store in which an update of an ended session replaces its successor's activated grant |
| `RemoteControlCommands.LateEndingRobs` | apps/api/src/rooms/remote-control.state.ts:159-165 | there is an interleaving from the empty store in which the second of two endings of a session deletes its successor's activated grant |
| `FakeRedis.LazyMatches` | apps/api/src/redis/fake-redis.ts:11-105 | each command on the lazy store leaves the same live entries as on the eager one; the replies are equal unless a stale key is deleted |
| `FakeRedis.LazyIsUnobservable` | apps/api/src/redis/fake-redis.ts:11-105 | over any timed script of commands the replies agree, except for the counts of deletions |
| `FakeRedis.RunMeans` | apps/api/src/redis/fake-redis.ts:11-98 | what each command answers and leaves: SET with NX, XX and EX, GET, GETDEL, DEL and EXPIRE, with no other key touched |
| `FakeRedis.SetLasts` | apps/api/src/redis/fake-redis.ts:18-32 | a value set for some seconds can be read exactly until they are over |
| `FakeRedis.FakeRedis.SetString` | apps/api/src/redis/fake-redis.ts:18-32 | SET with NX, XX and EX is the specified command after cleaning up the key |
| `FakeRedis.FakeRedis.GetDelString` | apps/api/src/redis/fake-redis.ts:39-43 | GETDEL is the specified command |
| `GrantGate.AcceptedIff` | apps/control-agent/Sources/ControlAgentCore/GrantGate.swift:56-89 | in the fields of the arrival: a privileged packet is carried out exactly when connection, token metadata, projection and session are in order, it comes from the Controller and its number is new; a stop intent is accepted exactly under the same conditions from either party, whatever its number; only the former moves the number |
| `GrantGate.FreshPacketsExecute` | apps/control-agent/Sources/ControlAgentCore/GrantGate.swift:56-89 | with any publication made after redemption that is active, connected and unexpired, a Controller's packet with a new number is carried out |
| `GrantGate.RefusalsAreTrue` | apps/control-agent/Sources/ControlAgentCore/GrantGate.swift:3-13 | the reason given for a refusal is true of the arrival |
| `GrantGate.CanPublishIff` | apps/control-agent/Sources/ControlAgentCore/GrantGate.swift:43-50 | the desktop may be published exactly under the same token metadata and projection |
| `GrantGate.AcceptedWithinTokens` | apps/control-agent/Sources/ControlAgentCore/GrantGate.swift:56-89 | whatever projection ever published the agent still sees, a packet it accepts at `now` lies before both humans' token expiry |
| `GrantGate.GenuineProjectionsPass` | apps/control-agent/Sources/ControlAgentCore/GrantGate.swift:107-117 | every publication for the session after its code was redeemed, even of a projection seen before, passes the comparison with that code's deadline: only its status and its own deadline decide |
| `GrantGate.ExecutedIncreases` | apps/control-agent/Sources/ControlAgentCore/GrantGate.swift:15-29 | over any packet history executed commands come from the Controller, in an active, unexpired session, with strictly increasing numbers |
| `GrantGate.RefusalsLeaveNoTrace` | apps/control-agent/Sources/ControlAgentCore/GrantGate.swift:56-89 | dropping any refused packets and stop intents from a history changes neither what is executed nor the gate |
| `GrantGate.SequenceGate.Accept` | apps/control-agent/Sources/ControlAgentCore/GrantGate.swift:20-24 | accepts exactly numbers above the last accepted one, and remembers only those |
| `GrantGate.Gate.Authorize` | apps/control-agent/Sources/ControlAgentCore/GrantGate.swift:56-89 | the answer is the specified decision, and so exactly that of `AcceptedIff` |
| `ControlProtocol.PacketsAreExact` | apps/web/src/lib/controlProtocol.ts:146-201 | a packet decodes to a message if and only if it has at most 8192 bytes, the message is within the limits and the value is its encoding; whatever the encoder lets out comes back |
| `ControlProtocol.PacketsAgree` | apps/control-agent/Sources/ControlAgentCore/ControlProtocol.swift:113-156 | both ends agree on packets, lengths included, as `DecodersAgree` says of values |
| `ControlProtocol.CodecIsExact` | apps/web/src/lib/controlProtocol.ts:102-201 | a JSON value decodes to a message if and only if the message is within the limits and the value is its encoding |
| `ControlProtocol.MessageRoundTrip` | apps/web/src/lib/controlProtocol.ts:146-201 | decoding the encoding of an allowed message returns it |
| `ControlProtocol.MessageIsEncoded` | apps/web/src/lib/controlProtocol.ts:152-201 | whatever is accepted is the encoding of an allowed message, with no extra member |
| `ControlProtocol.DecodersAgree` | apps/control-agent/Sources/ControlAgentCore/ControlProtocol.swift:113-195 | of what the browser's decoder accepts the agent accepts exactly the messages meant for it that fit its limits on session id, key code and key text, with the same meaning |
| `ControlProtocol.AgentAcceptsIff` | apps/control-agent/Sources/ControlAgentCore/ControlProtocol.swift:113-156 | of all values, the agent accepts exactly those of version 2 with a session id within its limits, exactly the members of their type, a number a double holds exactly, and an event or text it can read |
| `ControlProtocol.AgentEventIff` | apps/control-agent/Sources/ControlAgentCore/ControlProtocol.swift:158-204 | the agent reads an object as an event exactly when it holds, within the limits, what that event needs |
| `ControlProtocol.EventAgrees` | apps/control-agent/Sources/ControlAgentCore/ControlProtocol.swift:158-195 | the same for input events |
| `ControlProtocol.ModifiersAgree` | apps/control-agent/Sources/ControlAgentCore/ControlProtocol.swift:185-189 | the agent's set of modifiers is the browser's list, and the count check passes |
| `ControlProtocol.IsModifiers` | apps/web/src/lib/controlProtocol.ts:91-100 | the one-pass check accepts exactly lists of at most four distinct modifiers |
| `ControlProtocol.LengthsCount` | apps/web/src/lib/controlProtocol.ts:67-73 | the two lengths that limits are stated in, counted independently by code point |
| `ControlProtocol.ProtocolWordsAreDistinct` | apps/web/src/lib/controlProtocol.ts:45-53 | no two words of one switch are spelled alike |
| `InputInjector.SessionIsExact` | apps/control-agent-windows/windows/runner/remote_control_bridge.cpp:286-380 | over any event sequence the pressed list is duplicate-free and names exactly the keys left down, and on each axis units sent plus remainder equal the negated scaled sum since reset, with less than one unit outstanding |
| `InputInjector.ButtonsAreExact` | apps/control-agent-windows/windows/runner/remote_control_bridge.cpp:326-343 | over any event sequence a button is down exactly when the last press or release of it since the last release of everything was a press |
| `InputInjector.TakenIff` | apps/control-agent-windows/windows/runner/remote_control_bridge.cpp:274-375 | an event is taken exactly when it is well formed, in its own fields; a refused one changes nothing |
| `InputInjector.PointerSends` | apps/control-agent-windows/windows/runner/remote_control_bridge.cpp:319-370 | a pointer event first moves to its own position; a move sends nothing else, a press or release exactly its own button's, a scroll only wheel steps |
| `InputInjector.KeySends` | apps/control-agent-windows/windows/runner/remote_control_bridge.cpp:286-317 | a key-down leaves down what was, the key and its listed modifiers, and no other; a key-up lets go of that one key |
| `InputInjector.MissingIs` | apps/control-agent-windows/windows/runner/remote_control_bridge.cpp:91-105 | the modifier keys pressed are exactly the listed ones not yet down: the left-hand key of each, or the event's own |
| `InputInjector.ReleaseEndsClean` | apps/control-agent-windows/windows/runner/remote_control_bridge.cpp:383-396 | after any events a release leaves no key and no button down and no remainder |
| `InputInjector.BlockedTracksIff` | apps/control-agent-windows/windows/runner/remote_control_bridge.cpp:314-380 | when the system blocks an event's input, the list stays right if and only if the event presses and releases nothing new: a pointer event, a malformed key event, the release of a key that is not down, the repetition of one that is with its modifiers, or a release of nothing |
| `InputInjector.BlockedUpSticks` | apps/control-agent-windows/windows/runner/remote_control_bridge.cpp:314-317 | a blocked key-up leaves the key down even after a later release of everything |
| `InputInjector.RemoteControlBridge.ApplyInput` | apps/control-agent-windows/windows/runner/remote_control_bridge.cpp:274-381 | succeeds exactly for well-formed events that the system does not block; refused events change nothing; accepted ones act as specified whether or not they are then blocked |
| `InputInjector.RemoteControlBridge.PressModifiers` | apps/control-agent-windows/windows/runner/remote_control_bridge.cpp:300-313 | the loop presses each missing modifier once and no other |
| `InputInjector.RemoteControlBridge.ReleaseAllKeys` | apps/control-agent-windows/windows/runner/remote_control_bridge.cpp:383-396 | the loop releases every pressed key and all three buttons |
| `InputInjector.ScrollIsConserved` | apps/control-agent/Sources/ControlAgentCore/ControlProtocol.swift:84-107 | units sent and remainder are the negated sum of all deltas, with less than one unit outstanding |
| `InputInjector.ScrollDeltaAccumulator.Consume` | apps/control-agent/Sources/ControlAgentCore/ControlProtocol.swift:90-101 | no event exactly when there is no whole unit; the units fit 32 bits for every delta the decoder lets through |
| `PromiseChain.NextKeeps` | apps/api/src/rooms/livekit.service.ts:448-468 | each step keeps first-in-first-out order, and an empty map entry means that everybody has settled, so removing it never lets a caller overtake |
| `PromiseChain.Exclusive` | apps/api/src/rooms/rooms.service.ts:193-209 | at most one caller is inside, and everybody before it has settled |
| `PromiseChain.EverybodyIsReleased` | apps/api/src/rooms/rooms.service.ts:193-209 | some enter or settle step is always possible and each brings every waiting caller one step closer, whoever joins behind |
| `PromiseChain.ReleasedInRun` | apps/api/src/rooms/rooms.service.ts:193-209 | over any run a caller and all before it have settled if and only if as many enter and settle steps have been taken as were ahead of it |
| `PromiseChain.AheadIsZero` | apps/api/src/rooms/rooms.service.ts:193-209 | the count reaches zero exactly when the caller and all before it have settled |
| `MetadataWrites.Serializable` | apps/api/src/rooms/livekit.service.ts:448-468 | in every interleaving the server's metadata is the result of the settled edits one after another in submission order, a failed write counting as a skip |
| `MetadataWrites.WritersAreServed` | apps/api/src/rooms/livekit.service.ts:448-468 | in every run writers start in submission order, and each settles, with all before it, exactly when as many have been let in or settled as were ahead |
| `MetadataWrites.NoLostKey` | apps/api/src/rooms/livekit.service.ts:448-468 | a key keeps its value through any later edits that spare it |
| `MetadataWrites.EditsAreIndependent` | apps/api/src/rooms/livekit.service.ts:152-421 | the consent, mute, recording, start-time and maintenance edits touch their own keys only |
| `MetadataWrites.EditsLeave` | apps/api/src/rooms/livekit.service.ts:329-421 | what the consent, mute, recording and start-time edits leave in their own keys, and exactly when they find nothing to change |
| `MetadataWrites.NoticeLeaves` | apps/api/src/rooms/livekit.service.ts:152-160 | the maintenance notice is written unless it is off and nothing, or off already, is shown |
| `MetadataWrites.EditsAreStamped` | apps/api/src/rooms/livekit.service.ts:455-460 | an edit that reaches the server also leaves its time there, and nothing else |
| `MetadataWrites.ConsentSurvives` | apps/api/src/rooms/livekit.service.ts:414-421 | an applied consent edit is still there after any later edits of every other kind |
| `Admissions.OneTokenPerKnock` | apps/api/src/rooms/rooms.service.ts:193-245 | a knock gets at most one token, plus one for each failed write of its admission and one for each profile update that wrote it back as pending, with denials, cancellations and profile updates interleaved anywhere; at most one admission is inside |
| `Admissions.StatusChanges` | apps/api/src/rooms/rooms.service.ts:211-245 | a knock's status changes exactly by arrival, withdrawal, denial, a profile update's write and the write of its own admission, and its tokens grow exactly when its own admission mints one |
| `Admissions.ReadmittedIff` | apps/api/src/rooms/rooms.state.ts:137-145 | a decided knock that no admission is at work on gets no further token in any run if and only if no profile update has read it as pending and not written it back yet |
| `Admissions.SyncCanReadmit` | apps/api/src/rooms/rooms.state.ts:137-145 | there is a run without any failed write in which a profile update reopens an admitted knock and it is admitted twice |
| `Admissions.AdmissionsAreServed` | apps/api/src/rooms/rooms.service.ts:193-209 | in every run admissions start in the order of the calls, and each is through, with all before it, exactly when as many have been let in or ended as were ahead |
| `DirectRejoin.LookupIsScan` | apps/api/src/rooms/rooms.state.ts:205-217 | lookup by identity finds the one grant under it among all the room's grants, and none only if there is none |
| `DirectRejoin.AddIsCoherent` | apps/api/src/rooms/rooms.state.ts:185-203 | adding keeps index and set in step if and only if no other account holds the identity |
| `DirectRejoin.AddFinds` | apps/api/src/rooms/rooms.state.ts:185-203 | a new grant is found by its account and its identity, the account's previous one no longer, everybody else's as before |
| `DirectRejoin.RemoveFinds` | apps/api/src/rooms/rooms.state.ts:219-224 | removal takes exactly the account's current grant, if it is the given one |
| `DirectRejoin.RevokeFinds` | apps/api/src/rooms/rooms.state.ts:226-231 | revocation takes exactly the grant under the identity |
| `DirectRejoin.AdmitsIff` | apps/api/src/rooms/rooms.service.ts:293-297 | a join is let in exactly with a token of this room instance for the grant that an account holds under the identity in it |
| `DirectRejoin.ClearIsExact` | apps/api/src/rooms/rooms.state.ts:236-245 | clearing a SID keeps exactly the grants of other SIDs |
| `DirectRejoin.RunInv` | apps/api/src/rooms/rooms.state.ts:185-245 | every reachable state is coherent |
| `DirectRejoin.RemovedNeverAdmits` | apps/api/src/rooms/rooms.service.ts:272-297 | a grant id that was removed, replaced, revoked or cleared validates no later join |
| `DirectRejoin.RoomState.Add` | apps/api/src/rooms/rooms.state.ts:185-203 | the new grant replaces the account's previous one and its index entry |
| `DirectRejoin.RoomState.Remove` | apps/api/src/rooms/rooms.state.ts:219-224 | removes the grant only if it is still the account's current one |
| `DirectRejoin.RoomState.RevokeByIdentity` | apps/api/src/rooms/rooms.state.ts:226-231 | removes and returns the grant under the identity |
| `DirectRejoin.RoomState.Clear` | apps/api/src/rooms/rooms.state.ts:236-245 | the loop leaves exactly the other SIDs' grants |
| `DirectRejoin.RoomState.IsParticipantValid` | apps/api/src/rooms/rooms.service.ts:293-297 | valid exactly for the current grant's id, identity and SID |
| `DriveUpload.Delivery.Upload` | apps/api/src/rooms/google-drive.service.ts:77-149 | the loop ends against any server that reports its prefix; every range sent is valid and leaves no gap; the saved offset never passes the server's prefix, which is the recording's own; success means the remote bytes are the recording; without mishaps it succeeds unless the recording is empty |
| `DriveUpload.Delivery.Deliver` | apps/api/src/rooms/google-drive.service.ts:77-149 | the same over any number of crashed, failed and resumed attempts |
| `DriveUpload.Session.Put` | apps/api/src/rooms/google-drive.service.ts:119-133 | the server assumed: it keeps a contiguous prefix, stores at least one new byte of each chunk and reports the prefix in every 308 |
| `DriveUpload.KeptIsPrefix` | apps/api/src/rooms/google-drive.service.ts:108-118 | storing any part of a chunk on top of a prefix of the recording gives a prefix of the recording |
| `ChatFiles.PartsAreLegal` | apps/api/src/rooms/chat-files.service.ts:24-25 | for every size up to the cap there are at most 10,000 parts of at most 5 GiB |
| `ChatFiles.PartsAreConsecutive` | apps/api/src/rooms/chat-files.service.ts:150-182 | exactly the numbers 1 to the part count have a positive length; all but the last have the full size, at least 5 MiB; each part ends where the next starts, the last at the file's end |
| `ChatFiles.PartsPartition` | apps/api/src/rooms/chat-files.service.ts:177-182 | bodies of the expected lengths tile the file, each at its own offset |
| `ChatFiles.CoveredIsWhole` | apps/api/src/rooms/chat-files.service.ts:207-209 | they reach the whole size exactly when there are as many as the part count |
| `ChatFiles.RunKeeps` | apps/api/src/rooms/chat-files.service.ts:177-219 | under any interleaving of uploads, retries, completions and crashes, cut at each request, every saved and every in-flight list is gap-free with parts of the right lengths |
| `ChatFiles.CompletedFileIsWhole` | apps/api/src/rooms/chat-files.service.ts:207-219 | whenever the record is completed, the file has the announced size and each listed part stands at its own offset |
| `ChatFiles.StaysCompleted` | apps/api/src/rooms/chat-files.service.ts:203-219 | a step un-completes a record if and only if it is the save of an upload already sent |
| `ChatFiles.CompletedForGoodIff` | apps/api/src/rooms/chat-files.service.ts:177-219 | a completed record stays completed in every run from a reachable state if and only if no upload has sent its part and not saved yet |
| `ChatFiles.LateSaveHides` | apps/api/src/rooms/chat-files.service.ts:203-219 | such a save hides a finished file and closes every way back |
| `ChatFiles.LostForGood` | apps/api/src/rooms/chat-files.service.ts:203-219 | after it no run completes the record again |
| `ChatFiles.LateSaveHappens` | apps/api/src/rooms/chat-files.service.ts:203-219 | for every file of one part there is a run in which it happens |
| `ChatFiles.ChatFile.UploadPart` | apps/api/src/rooms/chat-files.service.ts:177-206 | called alone, accepts exactly the next or a repeated number with a body of the part's length, and keeps the list gap-free |
| `ChatFiles.ChatFile.Bounded` | apps/api/src/rooms/chat-files.service.ts:183-191 | the counting loop passes a body on exactly when its total is the expected length |
| `ChatFiles.ChatFile.Complete` | apps/api/src/rooms/chat-files.service.ts:207-219 | called alone, succeeds exactly when the list has all parts; the file then has the announced size |
| `Maintenance.EndedCallsAreCleaned` | apps/api/src/maintenance/maintenance.worker.ts:31-103 | with crashes between any two writes, calls starting in any phase and sweeps that outlive their lock, every call a worker ended has a committed row until both cleanups have run while it is inactive, as long as no call starts under a name that a running sweep still has to deal with |
| `Maintenance.RowsLeaveClean` | apps/api/src/maintenance/maintenance.worker.ts:83-94 | in every run a row leaves the queue only after both cleanups and only once its call is over |
| `Maintenance.CleanupMeetsCallIff` | apps/api/src/maintenance/maintenance.worker.ts:80-94 | in every run a cleanup, which acts on a room's name, meets a call in progress if and only if one has started under the name since the row's own call ended and is still on |
| `Maintenance.CleanupCanMeetCall` | apps/api/src/maintenance/maintenance.worker.ts:74-94 | there is such a run, in phase active, with every lock kept |
| `Maintenance.EnableNeverMovesStart` | apps/api/src/maintenance/maintenance.service.ts:36-56 | over any run without a disable, the start time stays and an active phase stays active |
| `Maintenance.CoveredThroughoutIff` | apps/api/src/maintenance/maintenance.worker.ts:55-94 | in every run ended calls are covered all along if and only if no step ends a call that has no row |
| `Maintenance.CoverKeptIff` | apps/api/src/maintenance/maintenance.worker.ts:55-94 | and that is the only step that breaks it |
| `Maintenance.OffKeptIff` | apps/api/src/maintenance/maintenance.worker.ts:36-96 | phase off with an empty queue is broken by exactly one step: a row committed in phase off by a tick that has lost its lock |
| `Maintenance.OffThroughoutIff` | apps/api/src/maintenance/maintenance.worker.ts:36-96 | in every run the queue of phase off is empty all along if and only if no step commits a row in phase off |
| `Maintenance.OffMeansEmpty` | apps/api/src/maintenance/maintenance.service.ts:36-56 | in every run in which each tick keeps its lock, phase off implies an empty queue |
| `Maintenance.ReusedNameIsLost` | apps/api/src/maintenance/maintenance.worker.ts:55-78 | there is a run in which a call that takes a listed name during a sweep is ended without a row |
| `Maintenance.TimeOutBreaksOff` | apps/api/src/maintenance/maintenance.worker.ts:36-96 | a sweep that loses its lock can queue a row after maintenance was switched off |
| `Maintenance.Maintenance.Tick` | apps/api/src/maintenance/maintenance.worker.ts:31-103 | a tick is a run of the step machine that keeps the invariant wherever it fails or dies; when active and undisturbed it leaves no call running and no row |
| `Maintenance.Maintenance.SweepRooms` | apps/api/src/maintenance/maintenance.worker.ts:45-79 | the loop over rooms, failing or dying anywhere, is such a run and keeps the invariant; undisturbed it ends every listed room |
| `Maintenance.Maintenance.CleanRows` | apps/api/src/maintenance/maintenance.worker.ts:83-94 | the loop over rows, failing or dying anywhere, is such a run and keeps the invariant; undisturbed, with no call left, it clears every row |
| `Maintenance.Maintenance.Change` | apps/api/src/maintenance/maintenance.service.ts:36-56 | only the owner changes the settings; switching off is refused exactly while rows remain; enabling again keeps the start |
| `Maintenance.Maintenance.CurrentStatus` | apps/api/src/maintenance/maintenance.service.ts:16-25 | the phase is off, scheduled or active as stored, with the stored start time exactly when it is not off |

## Left out

- Web, SwiftUI, Flutter and Win32 user interfaces, authentication, mail, HTTP controllers, environment validation: presentation and wrappers.
- Cryptography, JWTs and JSON text: opaque; the codec works on parsed values, with the length of their text as a parameter. Strings with lone surrogates are not modelled.
- Display names in requests and grants, and unparsable ISO times; a room's database id and slug are one value.
- Disconnecting the control agent when a session ends: only the metadata part of the LiveKit cleanup is modelled.
- Redis and database failures in the grant service, except where the code handles them: storing a request, activating a row, updating a row's deadline.
- RemoteControlRuns.RunInv: about whole service calls, each at one instant.
- RemoteControlState.RemoteControlStateService.CreatePending: the write of the second key does not fail here; the branch that then gives the lock back is a program of `RemoteControlCommands`.
- RemoteControlState.RemoteControlStateService.Activate: the lock cannot vanish between its two writes here; the branch that then undoes the first is a program of `RemoteControlCommands`.
- FakeRedis.LazyIsUnobservable: about string keys; the stand-in's set commands are not modelled.
- Admissions.OneTokenPerKnock: the Direct Rejoin Grant made during an admission is not part of it.
- DriveUpload.Delivery.Upload: assumes what the Drive protocol promises about a 308. One without a `Range` header, which the code reads as the whole chunk stored, is not sent by the modelled server. Looking up and verifying an existing file and sharing it are not modelled.
- ChatFiles.ChatFile.UploadPart: room membership, ownership and expiry checks, file names, downloads and the cleanup job are not modelled.
- InputInjector.ScrollIsConserved: real arithmetic instead of doubles.
- ChatFiles.ChatFile.Complete: as for `UploadPart`.
- Maintenance.Maintenance.Tick: stopping recordings and publishing the notice have no modelled effect; the message and who changed the settings are not stored.
- InputInjector.SessionIsExact: real arithmetic instead of doubles; a key's code is given as its virtual key, so the two key tables are not part of it. The clipboard shortcut, which presses and releases Ctrl outside the list, is not an event here, and the system takes all of an event's input or none of it.
- ControlProtocol.DecodersAgree: the table of supported key codes is a parameter.
- Recording delivery states, the macOS agent's screen publication and the Sentry filters.
