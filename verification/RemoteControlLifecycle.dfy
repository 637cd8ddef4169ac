/** The Remote Control service itself: methods that drive the Redis keys, the audit rows and the
    LiveKit projection one command after another. Each leaves exactly the `World` that the function of
    the same name describes; from any state that keeps the invariant it leads to a later one that keeps
    it too, and its answer means what the promise of that call says. */
module RemoteControlLifecycle {
  import opened Options
  import opened RemoteControlState
  import opened RemoteControlRepo
  import opened RemoteControlService
  import opened RemoteControlInvariants
  import opened RemoteControlSteps
  import opened RemoteControlRuns
  import opened RemoteControlPromises
  import opened RemoteControlOutcomes
  import opened RemoteControlSweeps

  class Lifecycle {
    const state: RemoteControlStateService
    const audit: RemoteControlRepository
    const rooms: set<Room>
    var now: int
    var metadata: map<Room, Projection>
    var reconciling: bool
    ghost var history: History

    ghost function View(): World
      reads this, state, audit
    {
      World(now, rooms, state.View(), audit.rows, metadata, history)
    }

    constructor (rooms: set<Room>, now: int)
      ensures Initial(View()) && !reconciling
      ensures fresh(state) && fresh(audit)
    {
      this.rooms, this.now := rooms, now;
      state := new RemoteControlStateService();
      audit := new RemoteControlRepository();
      metadata, reconciling := map[], false;
      history := History({}, [], {}, map[]);
    }

    method Wait(time: int)
      modifies this, state
      ensures View() == old(View()).Tick(time)
      ensures old(Inv(View())) && old(now) <= time ==> Keeps(old(View()), View())
    {
      if Inv(View()) && now <= time {
        TickKeeps(View(), time);
      }
      now := time;
      state.Expire(time);
    }

    /** The LiveKit metadata write; it may fail with or without having been applied. */
    method Publish(room: Room, projection: Projection, reply: Reply) returns (ok: bool)
      modifies this`metadata, this`history
      ensures View() == old(View()).Publish(room, projection, reply) && ok == reply.Applied?
    {
      if !reply.Rejected? {
        metadata := metadata[room := projection];
        history := history.(published := history.published + [projection]);
      }
      ok := reply.Applied?;
    }

    method ClearLivekitState(room: Room, reply: Reply)
      modifies this`metadata
      ensures View() == old(View()).Unpublish(room, reply)
    {
      if !reply.Rejected? {
        metadata := metadata - {room};
      }
    }

    method EndGrant(grant: Grant, status: Status, reason: Reason, cleanup: Reply)
      modifies this`metadata, state, audit
      ensures View() == old(View()).EndGrant(grant, status, reason, cleanup)
      ensures SparesOthers(old(state.View()), state.View(), grant.sessionId)
    {
      EndingIsScoped(View(), grant, status, reason, cleanup);
      state.RevokeBootstrap(grant);
      var cleared := state.ClearActive(grant.room, grant.sessionId);
      ClearLivekitState(grant.room, cleanup);
      var moved := audit.End(grant.sessionId, status, reason, now);
    }

    method EndAuditFallback(id: Id, room: Room, status: Status, reason: Reason, cleanup: Reply)
      modifies this`metadata, state, audit
      ensures View() == old(View()).EndAuditFallback(id, room, status, reason, cleanup)
    {
      var cleared := state.ClearActive(room, id);
      ClearLivekitState(room, cleanup);
      var moved := audit.End(id, status, reason, now);
    }

    method RequestControl(room: Room, controller: Identity, token: Option<int>, sharer: Identity, version: int,
                          view: CallView, id: Id, storeUp: bool) returns (outcome: Outcome<Pending>)
      modifies this, state, audit
      ensures (View(), outcome) == old(View()).RequestControl(room, controller, token, sharer, version, view, id, storeUp)
      ensures old(Inv(View())) && id !in old(audit.rows) ==> Keeps(old(View()), View())
      ensures RequestPromise(old(View()), View(), outcome, room, controller, token, sharer, version, view, id, storeUp)
    {
      RequestOutcome(View(), room, controller, token, sharer, version, view, id, storeUp);
      if Inv(View()) && id !in audit.rows {
        RequestKeeps(View(), room, controller, token, sharer, version, view, id, storeUp);
      }
      if version != PROTOCOL_VERSION {
        return Err(ProtocolUnsupported);
      }
      if room !in rooms {
        return Err(RoomNotFound);
      }
      if controller == sharer {
        return Err(NotAllowed);
      }
      var held := state.HasOwner(room);
      if held {
        return Err(InProgress);
      }
      var obstacle := Obstacle(view);
      if obstacle.Some? {
        return Err(obstacle.value);
      }
      outcome := StoreRequest(room, controller, token, sharer, view, id, storeUp);
    }

    /** The row first, then both keys; a row whose keys cannot be stored is closed. */
    method StoreRequest(room: Room, controller: Identity, token: Option<int>, sharer: Identity, view: CallView, id: Id, storeUp: bool)
      returns (outcome: Outcome<Pending>)
      requires room in rooms && controller != sharer && room !in state.owner && Obstacle(view).None?
      modifies this, state, audit
      ensures (View(), outcome) == old(View()).RequestControl(room, controller, token, sharer, PROTOCOL_VERSION, view, id, storeUp)
    {
      audit.CreateRequest(id, room, sharer, controller, now);
      var pending := Pending(id, room, sharer, controller, now, now + REQUEST_TTL, TokenExpiry(token, now));
      if !storeUp {
        var moved := audit.Transition(id, Failed, RedisUnavailable, now);
        return Err(Upstream);
      }
      // Within one step nobody can have taken the owner key since HasOwner.
      var acquired := state.CreatePending(pending, now);
      history := history.(tokens := history.tokens[id := Tokens(pending.controllerTokenExpiresAt, None)]);
      return Ok(pending);
    }

    method ExpirePending(room: Room, id: Id)
      modifies state, audit
      ensures View() == old(View()).ExpirePending(room, id)
    {
      state.ReleasePending(room, id);
      if id in audit.rows && audit.rows[id].status == Requested {
        var moved := audit.Transition(id, Expired, RequestTimeout, now);
      }
    }

    method RequirePending(room: Room, id: Id) returns (pending: Option<Pending>)
      modifies state, audit
      ensures (View(), pending) == old(View()).RequirePending(room, id)
    {
      pending := state.GetPending(room, id);
      if pending.Some? && now < pending.value.expiresAt {
        return;
      }
      ExpirePending(room, id);
      pending := None;
    }

    method GetRequest(room: Room, id: Id, who: Identity) returns (outcome: Outcome<Pending>)
      modifies state, audit
      ensures (View(), outcome) == old(View()).GetRequest(room, id, who)
      ensures old(Inv(View())) ==> Keeps(old(View()), View())
      ensures ReadPromise(old(View()), View(), outcome, room, id, who)
    {
      ReadOutcome(View(), room, id, who);
      if Inv(View()) {
        RequirePendingKeeps(View(), room, id);
      }
      var pending := RequirePending(room, id);
      if pending.None? {
        return Err(NotFound);
      }
      if who != pending.value.sharer && who != pending.value.controller {
        return Err(NotAllowed);
      }
      return Ok(pending.value);
    }

    method GetPendingRequest(room: Room, who: Identity) returns (request: Option<Pending>)
      modifies state, audit
      ensures (View(), request) == old(View()).GetPendingRequest(room, who)
      ensures old(Inv(View())) ==> Keeps(old(View()), View())
      ensures old(Inv(View())) ==> PollPromise(old(View()), View(), request, room, who)
    {
      if Inv(View()) {
        StepKeeps(View(), Poll(room, who));
        assert room in state.pending ==> PendingOk(View().audit, View().history.tokens, room, state.pending[room].value);
        PollOutcome(View(), room, who);
      }
      request := state.GetPendingForRoom(room);
      if request.None? {
        return;
      }
      if request.value.expiresAt <= now {
        ExpirePending(room, request.value.requestId);
        return None;
      }
      if who != request.value.sharer {
        return None;
      }
    }

    method Approve(room: Room, id: Id, who: Identity, token: Option<int>, version: int, view: CallView,
                   digest: Digest, databaseUp: bool, publish: Reply, cleanup: Reply) returns (outcome: Outcome<Grant>)
      modifies this, state, audit
      ensures (View(), outcome)
           == old(View()).Approve(room, id, who, token, version, view, digest, databaseUp, publish, cleanup)
      ensures old(Inv(View())) && digest !in old(history.issued) ==> Keeps(old(View()), View())
      ensures old(Inv(View())) ==> ApprovePromise(old(View()), View(), outcome, room, id, who, token, version, view, digest,
                                                   databaseUp, publish, cleanup)
    {
      ghost var w := View();
      if version != PROTOCOL_VERSION {
        outcome := Err(ProtocolUnsupported);
      } else if room !in rooms {
        outcome := Err(RoomNotFound);
      } else {
        outcome := ApproveIn(room, id, who, token, view, digest, databaseUp, publish, cleanup);
      }
      assert (View(), outcome) == w.Approve(room, id, who, token, version, view, digest, databaseUp, publish, cleanup);
      if Inv(w) {
        ApproveOutcome(w, room, id, who, token, version, view, digest, databaseUp, publish, cleanup);
        if digest !in w.history.issued {
          ApproveKeeps(w, room, id, who, token, version, view, digest, databaseUp, publish, cleanup);
        }
      }
    }

    method ApproveIn(room: Room, id: Id, who: Identity, token: Option<int>, view: CallView, digest: Digest, databaseUp: bool,
                     publish: Reply, cleanup: Reply) returns (outcome: Outcome<Grant>)
      requires room in rooms
      modifies this, state, audit
      ensures (View(), outcome)
           == old(View()).Approve(room, id, who, token, PROTOCOL_VERSION, view, digest, databaseUp, publish, cleanup)
    {
      var pending := RequirePending(room, id);
      if pending.None? {
        return Err(NotFound);
      }
      if who != pending.value.sharer {
        return Err(NotAllowed);
      }
      var obstacle := Obstacle(view);
      if obstacle.Some? {
        return Err(obstacle.value);
      }
      outcome := TakeAndStart(room, id, TokenExpiry(token, now), digest, databaseUp, publish, cleanup);
    }

    method TakeAndStart(room: Room, id: Id, sharerToken: int, digest: Digest, databaseUp: bool,
                        publish: Reply, cleanup: Reply) returns (outcome: Outcome<Grant>)
      modifies this, state, audit
      ensures (View(), outcome)
           == old(View()).TakeAndStart(room, id, sharerToken, digest, databaseUp, publish, cleanup)
    {
      var consumed := state.ConsumePending(room, id);
      if consumed.None? {
        return Err(NotFound);
      }
      var grant := NewGrant(consumed.value, sharerToken, now);
      if grant.authorizationExpiresAt <= now {
        var moved := audit.Transition(id, Failed, ParticipantAuthorizationExpired, now);
        state.ReleasePending(room, id);
        return Err(NotAllowed);
      }
      var activated := state.Activate(grant, now);
      if !activated {
        var moved := audit.Transition(id, Failed, RoomInProgress, now);
        state.ReleasePending(room, id);
        return Err(InProgress);
      }
      outcome := Start(grant, sharerToken, digest, databaseUp, publish, cleanup);
    }

    method Start(grant: Grant, sharerToken: int, digest: Digest, databaseUp: bool, publish: Reply, cleanup: Reply)
      returns (outcome: Outcome<Grant>)
      modifies this, state, audit
      ensures (View(), outcome) == old(View()).Start(grant, sharerToken, digest, databaseUp, publish, cleanup)
    {
      if !databaseUp {
        EndGrant(grant, Failed, StartupFailed, cleanup);
        return Err(Upstream);
      }
      var activation := audit.Activate(grant.sessionId, grant.agent, now, grant.renewalDueAt);
      match activation {
        case Conflict =>
          EndGrant(grant, Failed, StartupFailed, cleanup);
          return Err(InProgress);
        case NotRequested =>
          var cleared := state.ClearActive(grant.room, grant.sessionId);
          EndGrant(grant, Failed, StartupFailed, cleanup);
          return Err(NotFound);
        case Activated =>
          if grant.sessionId in history.tokens {
            history := history.(tokens := history.tokens[grant.sessionId := history.tokens[grant.sessionId].(sharer := Some(sharerToken))]);
          }
          outcome := Finish(grant, digest, publish, cleanup);
      }
    }

    method Finish(grant: Grant, digest: Digest, publish: Reply, cleanup: Reply) returns (outcome: Outcome<Grant>)
      modifies this, state, audit
      ensures (View(), outcome) == old(View()).Finish(grant, digest, publish, cleanup)
    {
      var shown := Publish(grant.room, Project(grant), publish);
      if !shown {
        EndGrant(grant, Failed, StartupFailed, cleanup);
        return Err(Upstream);
      }
      var issued := state.IssueBootstrap(grant, digest, now);
      history := history.(issued := history.issued + {digest});
      if !issued {
        EndGrant(grant, Failed, StartupFailed, cleanup);
        return Err(Upstream);
      }
      return Ok(grant);
    }

    method Deny(room: Room, id: Id, who: Identity) returns (outcome: Outcome<()>)
      modifies state, audit
      ensures (View(), outcome) == old(View()).Deny(room, id, who)
      ensures old(Inv(View())) ==> Keeps(old(View()), View())
      ensures AnswerPromise(old(View()), View(), outcome, room, id, who, true)
    {
      DenyOutcome(View(), room, id, who);
      if Inv(View()) {
        DenyKeeps(View(), room, id, who);
      }
      var pending := RequirePending(room, id);
      if pending.None? {
        return Err(NotFound);
      }
      if who != pending.value.sharer {
        return Err(NotAllowed);
      }
      outcome := Resolve(room, id, Denied, SharerDenied);
    }

    method Withdraw(room: Room, id: Id, who: Identity) returns (outcome: Outcome<()>)
      modifies state, audit
      ensures (View(), outcome) == old(View()).Withdraw(room, id, who)
      ensures old(Inv(View())) ==> Keeps(old(View()), View())
      ensures AnswerPromise(old(View()), View(), outcome, room, id, who, false)
    {
      WithdrawOutcome(View(), room, id, who);
      if Inv(View()) {
        WithdrawKeeps(View(), room, id, who);
      }
      var pending := RequirePending(room, id);
      if pending.None? {
        return Err(NotFound);
      }
      if who != pending.value.controller {
        return Err(NotAllowed);
      }
      outcome := Resolve(room, id, Withdrawn, ControllerWithdrew);
    }

    method Resolve(room: Room, id: Id, status: Status, reason: Reason) returns (outcome: Outcome<()>)
      modifies state, audit
      ensures (View(), outcome) == old(View()).Resolve(room, id, status, reason)
    {
      var consumed := state.ConsumePending(room, id);
      if consumed.None? {
        return Err(NotFound);
      }
      var moved := audit.Transition(id, status, reason, now);
      state.ReleasePending(room, id);
      outcome := if moved then Ok(()) else Err(NotFound);
    }

    method RedeemHelperToken(room: Room, sessionId: Id, digest: Digest, version: int, minted: bool, cleanup: Reply)
      returns (outcome: Outcome<Snapshot>)
      modifies this, state, audit
      ensures (View(), outcome) == old(View()).RedeemHelperToken(room, sessionId, digest, version, minted, cleanup)
      ensures old(Inv(View())) ==>
        Keeps(old(View()), View()) && RedeemPromise(old(View()), View(), outcome, room, sessionId, digest, version, minted, cleanup)
    {
      ghost var w := View();
      outcome := SpendCode(room, sessionId, digest, version, minted, cleanup);
      if Inv(w) {
        RedeemOutcome(w, room, sessionId, digest, version, minted, cleanup);
        RedeemHelperTokenKeeps(w, room, sessionId, digest, version, minted, cleanup);
      }
    }

    method SpendCode(room: Room, sessionId: Id, digest: Digest, version: int, minted: bool, cleanup: Reply)
      returns (outcome: Outcome<Snapshot>)
      modifies this, state, audit
      ensures (View(), outcome) == old(View()).RedeemHelperToken(room, sessionId, digest, version, minted, cleanup)
    {
      if version != PROTOCOL_VERSION {
        return Err(ProtocolUnsupported);
      }
      var code := state.ConsumeBootstrap(room, sessionId, digest);
      if code.None? {
        return Err(BootstrapInvalid);
      }
      var grant := state.GetActive(room);
      if grant.None? || grant.value.sessionId != sessionId {
        return Err(BootstrapInvalid);
      }
      if GrantExpired(grant.value, now) {
        EndGrant(grant.value, Expired, RenewalTimeout, cleanup);
        return Err(BootstrapInvalid);
      }
      if !minted {
        EndGrant(grant.value, Failed, HelperTokenFailed, cleanup);
        return Err(Upstream);
      }
      history := history.(redeemed := history.redeemed + {SnapshotOf(grant.value)});
      return Ok(SnapshotOf(grant.value));
    }

    method RequireActive(room: Room, sessionId: Id, cleanup: Reply) returns (held: Option<Grant>)
      modifies this`metadata, state, audit
      ensures (View(), held) == old(View()).RequireActive(room, sessionId, cleanup)
    {
      held := state.GetActive(room);
      if held.Some? && held.value.sessionId == sessionId {
        return;
      }
      held := None;
      if room in rooms && InStatus(audit.rows, sessionId, Active) && audit.rows[sessionId].room == room {
        EndAuditFallback(sessionId, room, Failed, GrantMissing, cleanup);
      }
    }

    method ReissueBootstrap(room: Room, sessionId: Id, who: Identity, digest: Digest, cleanup: Reply)
      returns (outcome: Outcome<Digest>)
      modifies this, state, audit
      ensures (View(), outcome) == old(View()).ReissueBootstrap(room, sessionId, who, digest, cleanup)
      ensures old(Inv(View())) && digest !in old(history.issued) ==> Keeps(old(View()), View())
      ensures old(Inv(View())) ==> ReissuePromise(old(View()), View(), outcome, room, sessionId, who, digest, cleanup)
    {
      ghost var w := View();
      var held := RequireActive(room, sessionId, cleanup);
      if held.None? {
        outcome := Err(NotFound);
      } else if who != held.value.sharer {
        outcome := Err(NotAllowed);
      } else if GrantExpired(held.value, now) {
        EndGrant(held.value, Expired, RenewalTimeout, cleanup);
        outcome := Err(RenewalRequired);
      } else if held.value.agentConnected {
        outcome := Err(InProgress);
      } else {
        var issued := state.IssueBootstrap(held.value, digest, now);
        history := history.(issued := history.issued + {digest});
        outcome := if issued then Ok(digest) else Err(Upstream);
      }
      assert (View(), outcome) == w.ReissueBootstrap(room, sessionId, who, digest, cleanup);
      if Inv(w) {
        ReissueOutcome(w, room, sessionId, who, digest, cleanup);
        if digest !in w.history.issued {
          ReissueKeeps(w, room, sessionId, who, digest, cleanup);
        }
      }
    }

    method Stop(room: Room, sessionId: Id, who: Identity, cleanup: Reply) returns (outcome: Outcome<int>)
      modifies this`metadata, state, audit
      ensures (View(), outcome) == old(View()).Stop(room, sessionId, who, cleanup)
      ensures old(Inv(View())) ==> Keeps(old(View()), View()) && StopPromise(old(View()), View(), outcome, room, sessionId, who, cleanup)
    {
      if Inv(View()) {
        StopOutcome(View(), room, sessionId, who, cleanup);
        StopKeeps(View(), room, sessionId, who, cleanup);
      }
      var held := RequireActive(room, sessionId, cleanup);
      if held.None? {
        return Err(NotFound);
      }
      if who != held.value.sharer && who != held.value.controller {
        return Err(NotAllowed);
      }
      var reason := if who == held.value.sharer then SharerStopped else ControllerStopped;
      if GrantExpired(held.value, now) {
        EndGrant(held.value, Expired, RenewalTimeout, cleanup);
      } else {
        EndGrant(held.value, Ended, reason, cleanup);
      }
      return Ok(now);
    }

    method Renew(room: Room, sessionId: Id, who: Identity, databaseUp: bool, publish: Reply, cleanup: Reply)
      returns (outcome: Outcome<int>)
      modifies this, state, audit
      ensures (View(), outcome) == old(View()).Renew(room, sessionId, who, databaseUp, publish, cleanup)
      ensures old(Inv(View())) ==> Keeps(old(View()), View()) && RenewPromise(old(View()), View(), outcome, room, sessionId, who, databaseUp, publish, cleanup)
    {
      if Inv(View()) {
        RenewOutcome(View(), room, sessionId, who, databaseUp, publish, cleanup);
        RenewKeeps(View(), room, sessionId, who, databaseUp, publish, cleanup);
      }
      var held := RequireActive(room, sessionId, cleanup);
      if held.None? {
        return Err(NotFound);
      }
      if who != held.value.sharer {
        return Err(NotAllowed);
      }
      if GrantExpired(held.value, now) {
        EndGrant(held.value, Expired, RenewalTimeout, cleanup);
        return Err(RenewalRequired);
      }
      outcome := Extend(held.value, databaseUp, publish);
    }

    method Extend(grant: Grant, databaseUp: bool, publish: Reply) returns (outcome: Outcome<int>)
      modifies this, state, audit
      ensures (View(), outcome) == old(View()).Extend(grant, databaseUp, publish)
    {
      var renewed := grant.(renewalDueAt := Min(now + RENEWAL, grant.authorizationExpiresAt));
      var stored := state.UpdateActive(renewed, now);
      if !stored {
        return Err(NotFound);
      }
      var auditUpdated := false;
      if databaseUp {
        auditUpdated := audit.Renew(grant.sessionId, renewed.renewalDueAt);
      }
      if auditUpdated {
        var shown := Publish(grant.room, Project(renewed), publish);
        if shown {
          return Ok(renewed.renewalDueAt);
        }
      }
      var restored := state.UpdateActive(grant, now);
      if auditUpdated {
        var moved := audit.Renew(grant.sessionId, grant.renewalDueAt);
      }
      outcome := if databaseUp && !auditUpdated then Err(NotFound) else Err(Upstream);
    }

    method OnParticipantJoined(room: Room, identity: Identity, publish: Reply, cleanup: Reply)
      modifies this, state, audit
      ensures View() == old(View()).OnParticipantJoined(room, identity, publish, cleanup)
      ensures old(Inv(View())) ==> Keeps(old(View()), View()) && JoinPromise(old(View()), View(), room, identity, publish, cleanup)
    {
      ghost var w := View();
      ConnectAgent(room, identity, publish, cleanup);
      if Inv(w) {
        JoinOutcome(w, room, identity, publish, cleanup);
        JoinedKeeps(w, room, identity, publish, cleanup);
      }
    }

    method ConnectAgent(room: Room, identity: Identity, publish: Reply, cleanup: Reply)
      modifies this, state, audit
      ensures View() == old(View()).OnParticipantJoined(room, identity, publish, cleanup)
    {
      var held := state.GetActive(room);
      if held.None? || held.value.agent != identity {
        return;
      }
      if GrantExpired(held.value, now) {
        EndGrant(held.value, Expired, RenewalTimeout, cleanup);
        return;
      }
      var connected := held.value.(status := AgentActive, agentConnected := true);
      var updated := state.UpdateActive(connected, now);
      if updated {
        var shown := Publish(room, Project(connected), publish);
        if !shown {
          EndGrant(connected, Failed, AgentMetadataFailed, cleanup);
        }
      }
    }

    method OnParticipantLeft(room: Room, identity: Identity, cleanup: Reply)
      modifies this`metadata, state, audit
      ensures View() == old(View()).OnParticipantLeft(room, identity, cleanup)
      ensures old(Inv(View())) ==> Keeps(old(View()), View()) && LeavePromise(old(View()), View(), room, identity, cleanup)
    {
      if Inv(View()) {
        LeaveOutcome(View(), room, identity, cleanup);
        LeftKeeps(View(), room, identity, cleanup);
      }
      var held := state.GetActive(room);
      if held.Some? {
        if identity == held.value.sharer {
          EndGrant(held.value, Ended, SharerDisconnected, cleanup);
        } else if identity == held.value.controller {
          EndGrant(held.value, Ended, ControllerDisconnected, cleanup);
        } else if identity == held.value.agent {
          EndGrant(held.value, Ended, AgentDisconnected, cleanup);
        }
        return;
      }
      var pending := state.GetPendingForRoom(room);
      if pending.Some? && (identity == pending.value.sharer || identity == pending.value.controller) {
        state.ReleasePending(room, pending.value.requestId);
        var moved := audit.Transition(pending.value.requestId, Failed, ParticipantDisconnected, now);
      }
    }

    method OnRoomFinished(room: Room, cleanup: Reply) returns (ghost found: Option<Id>)
      modifies this`metadata, state, audit
      ensures old(View()).ActiveRowOf(room, found)
      ensures View() == old(View()).OnRoomFinished(room, found, cleanup)
      ensures old(Inv(View())) ==> Keeps(old(View()), View()) && FinishedPromise(old(View()), View(), room, found, cleanup)
    {
      var row: Option<Id> := None;
      if HasActiveRow(audit.rows, room) {
        var id :| id in audit.rows && audit.rows[id].status == Active && audit.rows[id].room == room;
        row := Some(id);
      }
      found := row;
      if Inv(View()) {
        FinishedOutcome(View(), room, row, cleanup);
        FinishedKeeps(View(), room, row, cleanup);
      }
      if room !in rooms {
        return;
      }
      var held := state.GetActive(room);
      if held.Some? {
        EndGrant(held.value, Ended, RoomFinished, cleanup);
      } else if row.Some? {
        EndAuditFallback(row.value, room, Ended, RoomFinished, cleanup);
      }
    }

    method EndRowSession(id: Id, room: Room, status: Status, reason: Reason, cleanup: Reply)
      modifies this`metadata, state, audit
      ensures View() == old(View()).EndRowSession(id, room, status, reason, cleanup)
    {
      var held := state.GetActive(room);
      if held.Some? && held.value.sessionId == id {
        EndGrant(held.value, status, reason, cleanup);
      } else {
        EndAuditFallback(id, room, status, reason, cleanup);
      }
    }

    /** The expiry timer. A sweep that is still running makes this one a no-op. */
    method ReconcileExpirations(cleanup: Id -> Reply) returns (ghost due: seq<Id>, ghost overdue: seq<Id>)
      modifies this, state, audit
      ensures reconciling == old(reconciling)
      ensures old(reconciling) ==> View() == old(View())
      ensures !old(reconciling) ==>
        && Lists(due, DueActive(old(audit.rows), now))
        && Lists(overdue, ExpiredRequests(old(audit.rows), now - REQUEST_TTL))
        && View() == old(View()).Reconcile(due, overdue, cleanup)
      ensures old(Inv(View())) ==> Keeps(old(View()), View())
      ensures old(Inv(View())) && !old(reconciling) ==>
        && (forall room :: room in state.active ==> !GrantExpired(state.active[room].value, now))
        && DueActive(audit.rows, now) == {} && ExpiredRequests(audit.rows, now - REQUEST_TTL) == {}
      ensures old(Inv(View())) && !old(reconciling) ==>
        && Swept(old(View()), View(), due + overdue, RECONCILED, cleanup)
        && (forall id :: id in due + overdue <==> id in old(audit.rows) && Due(old(audit.rows)[id], now))
    {
      if Inv(View()) {
        LaterReflexive(View());
      }
      due, overdue := [], [];
      if reconciling {
        return;
      }
      reconciling := true;
      var active := Enumerate(DueActive(audit.rows, now));
      var requests := Enumerate(ExpiredRequests(audit.rows, now - REQUEST_TTL));
      due, overdue := active, requests;
      ghost var w := View();
      if Inv(w) {
        ReconcileCatchesUp(w, due, overdue, cleanup);
        ReconcileIsExact(w, due, overdue, cleanup);
      }
      EndDue(active, cleanup);
      ExpireOverdue(requests);
      reconciling := false;
    }

    method EndDue(rows: seq<Id>, cleanup: Id -> Reply)
      modifies this`metadata, state, audit
      ensures View() == old(View()).EndDue(rows, cleanup)
    {
      var before := audit.rows;
      for i := 0 to |rows|
        invariant View() == old(View()).EndDue(rows[..i], cleanup)
      {
        assert rows[..i + 1][..i] == rows[..i];
        if rows[i] in before {
          EndRowSession(rows[i], before[rows[i]].room, Expired, RenewalTimeout, cleanup(rows[i]));
        }
      }
      assert rows[..|rows|] == rows;
    }

    method ExpireOverdue(rows: seq<Id>)
      modifies state, audit
      ensures View() == old(View()).ExpireOverdue(rows)
    {
      var before := audit.rows;
      for i := 0 to |rows|
        invariant View() == old(View()).ExpireOverdue(rows[..i])
      {
        assert rows[..i + 1][..i] == rows[..i];
        if rows[i] in before {
          ExpirePending(before[rows[i]].room, rows[i]);
        }
      }
      assert rows[..|rows|] == rows;
    }

    /** The operator's hard cutover, with the counts it reports; `live` are the rooms LiveKit lists. */
    method ForceProtocolUpgradeCutover(live: set<Room>, cleanup: Id -> Reply)
      returns (roomsEnumerated: nat, grantsEnded: nat, requestsEnded: nat, remaining: nat, ghost rows: seq<Id>)
      modifies this`metadata, state, audit
      ensures Lists(rows, RequestedOrActive(old(audit.rows)))
      ensures View() == old(View()).CutOff(rows, cleanup)
      ensures remaining == |RequestedOrActive(audit.rows)|
      ensures requestsEnded == CountRequested(old(audit.rows), rows) && grantsEnded == |rows| - requestsEnded
      ensures roomsEnumerated == |live|
      ensures old(Inv(View())) ==> Keeps(old(View()), View()) && remaining == 0 && state.active == map[]
      ensures old(Inv(View())) ==> Swept(old(View()), View(), rows, CUT, cleanup)
    {
      roomsEnumerated := |live|;
      var before := audit.rows;
      var open := Enumerate(RequestedOrActive(before));
      rows, grantsEnded, requestsEnded := open, 0, 0;
      for i := 0 to |open|
        invariant View() == old(View()).CutOff(open[..i], cleanup)
        invariant requestsEnded == CountRequested(before, open[..i]) && grantsEnded == i - requestsEnded
        invariant Untouched(before, audit.rows, open[..i])
      {
        var id := open[i];
        assert open[..i + 1][..i] == open[..i] && id in open && id !in open[..i];
        var row := before[id];
        if row.status == Requested {
          state.ReleasePending(row.room, id);
          var moved := audit.Transition(id, Failed, ProtocolUpgrade, now);
          if moved {
            requestsEnded := requestsEnded + 1;
          }
        } else {
          EndRowSessionRows(View(), id, row.room, Ended, ProtocolUpgrade, cleanup(id));
          EndRowSession(id, row.room, Ended, ProtocolUpgrade, cleanup(id));
          grantsEnded := grantsEnded + 1;
        }
      }
      assert open[..|open|] == open;
      remaining := |RequestedOrActive(audit.rows)|;
      if old(Inv(View())) {
        CutoverEmpties(old(View()), open, cleanup);
        CutoverIsExact(old(View()), open, cleanup);
      }
    }
  }

  ghost function CountRequested(audit: Audit, rows: seq<Id>): nat {
    if rows == [] then 0
    else CountRequested(audit, rows[..|rows| - 1]) + if InStatus(audit, rows[|rows| - 1], Requested) then 1 else 0
  }

  /** Rows outside `done` are as they were. */
  ghost predicate Untouched(before: Audit, after: Audit, done: seq<Id>) {
    forall id :: id in before && id !in done ==> id in after && after[id] == before[id]
  }
}
