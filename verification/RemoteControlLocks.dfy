/** The room's owner key while a session is live: which calls can lose it, and what follows. */
module RemoteControlLocks {
  import opened Options
  import opened RemoteControlState
  import opened RemoteControlRepo
  import opened RemoteControlService
  import opened RemoteControlInvariants
  import opened RemoteControlSteps
  import opened RemoteControlRuns
  import opened RemoteControlPromises
  import opened RemoteControlOutcomes

  predicate Locked(redis: Redis, room: Room, id: Id) {
    room in redis.owner && redis.owner[room].value == id
  }

  /** The step takes no lock from the session, unless it ends the session, and does not start it. */
  ghost predicate LockSafe(a: Redis, b: Redis, room: Room, id: Id) {
    && (b.Holds(room, id) ==> a.Holds(room, id))
    && (Locked(a, room, id) && b.Holds(room, id) ==> Locked(b, room, id))
  }

  lemma UpdateSafe(redis: Redis, grant: Grant, now: int, room: Room, id: Id)
    ensures LockSafe(redis, redis.UpdateActive(grant, now).0, room, id)
  {
  }

  lemma ClearSafe(redis: Redis, other: Room, session: Id, room: Room, id: Id)
    ensures LockSafe(redis, redis.ClearActive(other, session).0, room, id)
  {
  }

  lemma ReleaseSafe(redis: Redis, other: Room, request: Id, room: Room, id: Id)
    requires other != room || request != id
    ensures LockSafe(redis, redis.ReleasePending(other, request), room, id)
  {
  }

  lemma EndGrantSafe(w: World, grant: Grant, status: Status, reason: Reason, cleanup: Reply, room: Room, id: Id)
    ensures LockSafe(w.redis, w.EndGrant(grant, status, reason, cleanup).redis, room, id)
  {
    ClearSafe(w.redis.RevokeBootstrap(grant), grant.room, grant.sessionId, room, id);
  }

  lemma RequireActiveSafe(w: World, other: Room, session: Id, cleanup: Reply, room: Room, id: Id)
    ensures LockSafe(w.redis, w.RequireActive(other, session, cleanup).0.redis, room, id)
  {
    ClearSafe(w.redis, other, session, room, id);
  }

  lemma RedemptionSafe(w: World, other: Room, session: Id, digest: Digest, version: int, minted: bool, cleanup: Reply, room: Room, id: Id)
    ensures LockSafe(w.redis, w.RedeemHelperToken(other, session, digest, version, minted, cleanup).0.redis, room, id)
  {
    var spent := w.redis.ConsumeBootstrap(other, session, digest).0;
    if spent.GetActive(other).Some? {
      EndGrantSafe(w.(redis := spent), spent.GetActive(other).value, Expired, RenewalTimeout, cleanup, room, id);
      EndGrantSafe(w.(redis := spent), spent.GetActive(other).value, Failed, HelperTokenFailed, cleanup, room, id);
    }
  }

  lemma IssueSafe(redis: Redis, grant: Grant, digest: Digest, now: int, room: Room, id: Id)
    ensures LockSafe(redis, redis.IssueBootstrap(grant, digest, now).0, room, id)
  {
  }

  lemma ReissueSafe(w: World, other: Room, session: Id, who: Identity, digest: Digest, cleanup: Reply, room: Room, id: Id)
    ensures LockSafe(w.redis, w.ReissueBootstrap(other, session, who, digest, cleanup).0.redis, room, id)
  {
    ReissueUnfolds(w, other, session, who, digest, cleanup);
    RequireActiveSafe(w, other, session, cleanup, room, id);
    if w.redis.Holds(other, session) {
      EndGrantSafe(w, w.redis.active[other].value, Expired, RenewalTimeout, cleanup, room, id);
      IssueSafe(w.redis, w.redis.active[other].value, digest, w.now, room, id);
    }
  }

  lemma StopSafe(w: World, other: Room, session: Id, who: Identity, cleanup: Reply, room: Room, id: Id)
    ensures LockSafe(w.redis, w.Stop(other, session, who, cleanup).0.redis, room, id)
  {
    StopUnfolds(w, other, session, who, cleanup);
    RequireActiveSafe(w, other, session, cleanup, room, id);
    if w.redis.Holds(other, session) {
      var grant := w.redis.active[other].value;
      EndGrantSafe(w, grant, Expired, RenewalTimeout, cleanup, room, id);
      EndGrantSafe(w, grant, Ended, if who == grant.sharer then SharerStopped else ControllerStopped, cleanup, room, id);
    }
  }

  lemma ExtendRedis(w: World, grant: Grant, databaseUp: bool, publish: Reply)
    ensures var renewed := grant.(renewalDueAt := Min(w.now + RENEWAL, grant.authorizationExpiresAt));
      var stored := w.redis.UpdateActive(renewed, w.now).0;
      w.Extend(grant, databaseUp, publish).0.redis in {stored, stored.UpdateActive(grant, w.now).0}
  {
  }

  lemma ExtendSafe(w: World, grant: Grant, databaseUp: bool, publish: Reply, room: Room, id: Id)
    ensures LockSafe(w.redis, w.Extend(grant, databaseUp, publish).0.redis, room, id)
  {
    var renewed := grant.(renewalDueAt := Min(w.now + RENEWAL, grant.authorizationExpiresAt));
    UpdateSafe(w.redis, renewed, w.now, room, id);
    UpdateSafe(w.redis.UpdateActive(renewed, w.now).0, grant, w.now, room, id);
    ExtendRedis(w, grant, databaseUp, publish);
  }

  lemma RenewSafe(w: World, other: Room, session: Id, who: Identity, databaseUp: bool, publish: Reply, cleanup: Reply, room: Room, id: Id)
    ensures LockSafe(w.redis, w.Renew(other, session, who, databaseUp, publish, cleanup).0.redis, room, id)
  {
    if !w.redis.Holds(other, session) || who != w.redis.active[other].value.sharer {
      RequireActiveSafe(w, other, session, cleanup, room, id);
    } else if GrantExpired(w.redis.active[other].value, w.now) {
      EndGrantSafe(w, w.redis.active[other].value, Expired, RenewalTimeout, cleanup, room, id);
    } else {
      assert w.RequireActive(other, session, cleanup) == (w, Some(w.redis.active[other].value));
      ExtendSafe(w, w.redis.active[other].value, databaseUp, publish, room, id);
    }
  }

  lemma JoinSafe(w: World, other: Room, who: Identity, publish: Reply, cleanup: Reply, room: Room, id: Id)
    ensures LockSafe(w.redis, w.OnParticipantJoined(other, who, publish, cleanup).redis, room, id)
  {
    var held := w.redis.GetActive(other);
    if held.Some? && held.value.agent == who {
      var connected := held.value.(status := AgentActive, agentConnected := true);
      var updated := w.(redis := w.redis.UpdateActive(connected, w.now).0);
      if GrantExpired(held.value, w.now) {
        EndGrantSafe(w, held.value, Expired, RenewalTimeout, cleanup, room, id);
      } else {
        UpdateSafe(w.redis, connected, w.now, room, id);
        EndGrantSafe(updated.Publish(other, Project(connected), publish), connected, Failed, AgentMetadataFailed, cleanup, room, id);
      }
    }
  }

  lemma LeaveSafe(w: World, other: Room, who: Identity, cleanup: Reply, room: Room, id: Id)
    requires Inv(w) && InStatus(w.audit, id, Active)
    ensures LockSafe(w.redis, w.OnParticipantLeft(other, who, cleanup).redis, room, id)
  {
    var held := w.redis.GetActive(other);
    if held.Some? {
      EndGrantSafe(w, held.value, Ended, SharerDisconnected, cleanup, room, id);
      EndGrantSafe(w, held.value, Ended, ControllerDisconnected, cleanup, room, id);
      EndGrantSafe(w, held.value, Ended, AgentDisconnected, cleanup, room, id);
    } else if w.redis.GetPendingForRoom(other).Some? {
      var request := w.redis.pending[other].value.requestId;
      assert request != id by {
        assert PendingOk(w.audit, w.history.tokens, other, w.redis.pending[other].value);
      }
      ReleaseSafe(w.redis, other, request, room, id);
    }
  }

  lemma FinishedSafe(w: World, other: Room, found: Option<Id>, cleanup: Reply, room: Room, id: Id)
    ensures LockSafe(w.redis, w.OnRoomFinished(other, found, cleanup).redis, room, id)
  {
    if w.redis.GetActive(other).Some? {
      EndGrantSafe(w, w.redis.GetActive(other).value, Ended, RoomFinished, cleanup, room, id);
    } else if found.Some? {
      ClearSafe(w.redis, other, found.value, room, id);
    }
  }

  lemma EndRowSafe(w: World, row: Id, other: Room, status: Status, reason: Reason, cleanup: Reply, room: Room, id: Id)
    ensures LockSafe(w.redis, w.EndRowSession(row, other, status, reason, cleanup).redis, room, id)
  {
    var held := w.redis.GetActive(other);
    if held.Some? && held.value.sessionId == row {
      EndGrantSafe(w, held.value, status, reason, cleanup, room, id);
    } else {
      ClearSafe(w.redis, other, row, room, id);
    }
  }

  lemma {:induction false} EndDueSafe(w: World, rows: seq<Id>, cleanup: Id -> Reply, room: Room, id: Id)
    ensures LockSafe(w.redis, w.EndDue(rows, cleanup).redis, room, id)
  {
    if rows != [] {
      var init, row := rows[..|rows| - 1], rows[|rows| - 1];
      EndDueSafe(w, init, cleanup, room, id);
      if row in w.audit {
        EndRowSafe(w.EndDue(init, cleanup), row, w.audit[row].room, Expired, RenewalTimeout, cleanup(row), room, id);
      }
    }
  }

  lemma {:induction false} OverdueSafe(w: World, rows: seq<Id>, room: Room, id: Id)
    requires id !in rows
    ensures LockSafe(w.redis, w.ExpireOverdue(rows).redis, room, id)
  {
    if rows != [] {
      var init, row := rows[..|rows| - 1], rows[|rows| - 1];
      OverdueSafe(w, init, room, id);
      assert row in rows;
      if row in w.audit {
        ReleaseSafe(w.ExpireOverdue(init).redis, w.audit[row].room, row, room, id);
      }
    }
  }

  lemma {:induction false} CutOffSafe(w: World, rows: seq<Id>, cleanup: Id -> Reply, room: Room, id: Id)
    requires InStatus(w.audit, id, Active)
    ensures LockSafe(w.redis, w.CutOff(rows, cleanup).redis, room, id)
  {
    if rows != [] {
      var init, row := rows[..|rows| - 1], rows[|rows| - 1];
      var done := w.CutOff(init, cleanup);
      CutOffSafe(w, init, cleanup, room, id);
      if row in w.audit {
        if w.audit[row].status == Requested {
          ReleaseSafe(done.redis, w.audit[row].room, row, room, id);
        } else {
          EndRowSafe(done, row, w.audit[row].room, Ended, ProtocolUpgrade, cleanup(row), room, id);
        }
      }
    }
  }

  lemma RequirePendingSafe(w: World, other: Room, request: Id, room: Room, id: Id)
    requires other != room || request != id
    ensures LockSafe(w.redis, w.RequirePending(other, request).0.redis, room, id)
  {
    ReleaseSafe(w.redis, other, request, room, id);
  }

  lemma ResolveSafe(w: World, other: Room, request: Id, status: Status, reason: Reason, room: Room, id: Id)
    requires other != room || request != id
    ensures LockSafe(w.redis, w.Resolve(other, request, status, reason).0.redis, room, id)
  {
    ReleaseSafe(w.redis.ConsumePending(other, request).0, other, request, room, id);
  }

  lemma FreedSafe(w: World, after: World, other: Room, request: Id, status: Status, reason: Reason, room: Room, id: Id)
    requires Freed(w, after, other, request, status, reason) && (other != room || request != id)
    ensures LockSafe(w.redis, after.redis, room, id)
  {
  }

  /** Starting or unwinding a session in one room is nothing to another. */
  lemma StartSafe(w: World, after: World, outcome: Outcome<Grant>, request: Pending, authorization: int, digest: Digest,
                  databaseUp: bool, publish: Reply, cleanup: Reply, room: Room, id: Id)
    requires StartPromise(w, after, outcome, request, authorization, digest, databaseUp, publish, cleanup) && request.room != room
    ensures LockSafe(w.redis, after.redis, room, id)
  {
  }

  /** Asking for the session's own id as if it were still a pending request, in a call that gets as far as
      looking for one. */
  predicate AsksAsPending(w: World, op: Op, room: Room, id: Id) {
    match op
    case Read(r, i, _) => r == room && i == id
    case Denial(r, i, _) => r == room && i == id
    case Withdrawal(r, i, _) => r == room && i == id
    case Approval(r, i, _, _, version, _, _, _, _, _) => r == room && i == id && version == PROTOCOL_VERSION && room in w.rooms
    case _ => false
  }

  predicate DropsLock(w: World, op: Op, room: Room, id: Id)
    requires room in w.redis.owner
  {
    AsksAsPending(w, op, room, id) || (op.Wait? && w.redis.owner[room].expiresAt <= op.time)
  }

  lemma AskingDrops(w: World, op: Op, room: Room, id: Id)
    requires Inv(w) && w.redis.Holds(room, id) && Locked(w.redis, room, id) && AsksAsPending(w, op, room, id)
    ensures Apply(w, op).redis.Holds(room, id) && room !in Apply(w, op).redis.owner
    ensures Apply(w, op).redis.active == w.redis.active && Apply(w, op).audit == w.audit && Apply(w, op).now == w.now
  {
    assert w.redis.GetPending(room, id).None? && InStatus(w.audit, id, Active) by {
      assert GrantOk(w.now, w.audit, w.history.tokens, w.history.issued, room, w.redis.active[room]);
      assert room in w.redis.pending ==> PendingOk(w.audit, w.history.tokens, room, w.redis.pending[room].value);
    }
    assert w.RequirePending(room, id) == (w.ExpirePending(room, id), None);
    assert Apply(w, op) == w.ExpirePending(room, id);
  }

  lemma RequestSafe(w: World, r: Room, who: Identity, token: Option<int>, sharer: Identity, version: int, view: CallView, i: Id,
                    storeUp: bool, room: Room, id: Id)
    requires Locked(w.redis, room, id)
    ensures LockSafe(w.redis, w.RequestControl(r, who, token, sharer, version, view, i, storeUp).0.redis, room, id)
  {
  }

  lemma AnswerSafe(w: World, r: Room, i: Id, who: Identity, room: Room, id: Id)
    requires r != room || i != id
    ensures LockSafe(w.redis, w.Deny(r, i, who).0.redis, room, id) && LockSafe(w.redis, w.Withdraw(r, i, who).0.redis, room, id)
  {
    RequirePendingSafe(w, r, i, room, id);
    ResolveSafe(w, r, i, Denied, SharerDenied, room, id);
    ResolveSafe(w, r, i, Withdrawn, ControllerWithdrew, room, id);
  }

  lemma PollSafe(w: World, r: Room, who: Identity, room: Room, id: Id)
    requires Inv(w) && InStatus(w.audit, id, Active)
    ensures LockSafe(w.redis, w.GetPendingRequest(r, who).0.redis, room, id)
  {
    if r in w.redis.pending {
      assert w.redis.pending[r].value.requestId != id by {
        assert PendingOk(w.audit, w.history.tokens, r, w.redis.pending[r].value);
      }
      ReleaseSafe(w.redis, r, w.redis.pending[r].value.requestId, room, id);
    }
  }

  lemma RequestOpSafe(w: World, op: Op, room: Room, id: Id)
    requires Inv(w) && Locked(w.redis, room, id) && InStatus(w.audit, id, Active)
    requires OnRequest(op) && !op.Wait? && !AsksAsPending(w, op, room, id)
    ensures LockSafe(w.redis, Apply(w, op).redis, room, id)
  {
    match op
    case Request(r, who, token, sharer, version, view, i, storeUp) =>
      RequestSafe(w, r, who, token, sharer, version, view, i, storeUp, room, id);
    case Read(r, i, _) => RequirePendingSafe(w, r, i, room, id);
    case Poll(r, who) => PollSafe(w, r, who, room, id);
    case Approval(r, i, who, token, version, view, digest, databaseUp, publish, cleanup) =>
      ApproveSafe(w, r, i, who, token, version, view, digest, databaseUp, publish, cleanup, room, id);
    case Denial(r, i, who) => AnswerSafe(w, r, i, who, room, id);
    case Withdrawal(r, i, who) => AnswerSafe(w, r, i, who, room, id);
  }

  lemma ApproveSafe(w: World, r: Room, i: Id, who: Identity, token: Option<int>, version: int, view: CallView,
                    digest: Digest, databaseUp: bool, publish: Reply, cleanup: Reply, room: Room, id: Id)
    requires Inv(w) && Locked(w.redis, room, id)
    requires !(r == room && i == id && version == PROTOCOL_VERSION && room in w.rooms)
    ensures LockSafe(w.redis, w.Approve(r, i, who, token, version, view, digest, databaseUp, publish, cleanup).0.redis, room, id)
  {
    var (after, outcome) := w.Approve(r, i, who, token, version, view, digest, databaseUp, publish, cleanup);
    ApproveOutcome(w, r, i, who, token, version, view, digest, databaseUp, publish, cleanup);
    if after == w {
      return;
    }
    if !Awaits(w, r, i) {
      FreedSafe(w, after, r, i, Expired, RequestTimeout, room, id);
      return;
    }
    var request := w.redis.pending[r].value;
    var authorization := Min(request.controllerTokenExpiresAt, if token.Some? then token.value else w.now + 60 * 60_000);
    if authorization <= w.now {
      FreedSafe(w, after, r, i, Failed, ParticipantAuthorizationExpired, room, id);
    } else if r in w.redis.active {
      FreedSafe(w, after, r, i, Failed, RoomInProgress, room, id);
    } else {
      StartSafe(w, after, outcome, request, authorization, digest, databaseUp, publish, cleanup, room, id);
    }
  }

  lemma SessionOpSafe(w: World, op: Op, room: Room, id: Id)
    requires Inv(w) && Enabled(w, op) && InStatus(w.audit, id, Active) && !OnRequest(op)
    ensures LockSafe(w.redis, Apply(w, op).redis, room, id)
  {
    match op
    case Redemption(r, i, digest, version, minted, cleanup) => RedemptionSafe(w, r, i, digest, version, minted, cleanup, room, id);
    case Reissue(r, i, who, digest, cleanup) => ReissueSafe(w, r, i, who, digest, cleanup, room, id);
    case Stopping(r, i, who, cleanup) => StopSafe(w, r, i, who, cleanup, room, id);
    case Renewal(r, i, who, databaseUp, publish, cleanup) => RenewSafe(w, r, i, who, databaseUp, publish, cleanup, room, id);
    case Join(r, who, publish, cleanup) => JoinSafe(w, r, who, publish, cleanup, room, id);
    case Leave(r, who, cleanup) => LeaveSafe(w, r, who, cleanup, room, id);
    case RoomEnd(r, found, cleanup) => FinishedSafe(w, r, found, cleanup, room, id);
    case Sweep(due, overdue, replies) =>
      EndDueSafe(w, due, replies, room, id);
      OverdueSafe(w.EndDue(due, replies), overdue, room, id);
    case Cutover(rows, replies) => CutOffSafe(w, rows, replies, room, id);
  }

  /** While a session is live, its room's owner key is its own and disappears in exactly two ways: somebody
      asks for the session as if it were still a pending request, or the key's own TTL runs out. */
  lemma OwnerLostIff(w: World, op: Op, room: Room, id: Id)
    requires Inv(w) && Enabled(w, op) && w.redis.Holds(room, id) && Locked(w.redis, room, id)
    requires Apply(w, op).redis.Holds(room, id)
    ensures room !in Apply(w, op).redis.owner <==> DropsLock(w, op, room, id)
    ensures room in Apply(w, op).redis.owner ==> Locked(Apply(w, op).redis, room, id)
  {
    if AsksAsPending(w, op, room, id) {
      AskingDrops(w, op, room, id);
    } else if !op.Wait? {
      assert InStatus(w.audit, id, Active) by {
        assert GrantOk(w.now, w.audit, w.history.tokens, w.history.issued, room, w.redis.active[room]);
      }
      if OnRequest(op) {
        RequestOpSafe(w, op, room, id);
      } else {
        SessionOpSafe(w, op, room, id);
      }
    }
  }

  // ---- It happens ----

  ghost predicate Ends(states: seq<World>, ops: seq<Op>, w: World) {
    IsRun(states, ops) && states[|ops|] == w
  }

  lemma Continue(states: seq<World>, ops: seq<Op>, w: World, op: Op) returns (more: seq<World>, done: seq<Op>)
    requires Ends(states, ops, w) && Enabled(w, op)
    ensures Ends(more, done, Apply(w, op))
  {
    more, done := states + [Apply(w, op)], ops + [op];
  }

  lemma EndsInv(states: seq<World>, ops: seq<Op>, w: World)
    requires Ends(states, ops, w)
    ensures Inv(w)
  {
    RunInv(states, ops, |ops|);
  }

  const EVERYBODY := Call(Some(Human), Some(Human), false)

  lemma RequestSucceeds(w: World, room: Room, controller: Identity, sharer: Identity, id: Id)
    requires w.redis == Redis(map[], map[], map[], map[]) && w.audit == map[] && room in w.rooms && sharer != controller
    requires w.history.issued == {}
    ensures var asked := w.RequestControl(room, controller, None, sharer, PROTOCOL_VERSION, EVERYBODY, id, true).0;
      Asked(asked, room, sharer, controller, id) && asked.now == w.now
  {
  }

  lemma FirstApproval(w: World, room: Room, sharer: Identity, controller: Identity, id: Id, digest: Digest)
    requires Inv(w) && Asked(w, room, sharer, controller, id)
    ensures Begins(w.now, w.Approve(room, id, sharer, None, PROTOCOL_VERSION, EVERYBODY, digest, true, Applied, Applied).0, room, sharer, id)
  {
    assert Awaits(w, room, id) && OwnsRoom(w, room, id) && NoActiveRow(w.audit, room);
    ApproveOutcome(w, room, id, sharer, None, PROTOCOL_VERSION, EVERYBODY, digest, true, Applied, Applied);
  }

  /** The world after one request to a fresh service. */
  ghost predicate Asked(asked: World, room: Room, sharer: Identity, controller: Identity, id: Id) {
    var now := asked.now;
    var pending := Pending(id, room, sharer, controller, now, now + REQUEST_TTL, now + DEFAULT_TOKEN_LIFETIME);
    && room in asked.rooms && asked.history.issued == {}
    && asked.redis == Redis(map[room := Entry(id, now + REQUEST_TTL)], map[room := Entry(pending, now + REQUEST_TTL)], map[], map[])
    && asked.audit == map[id := NewRequest(room, sharer, controller, now)]
  }

  /** The session is live, just begun, and has its lock. */
  ghost predicate Begins(now: int, live: World, room: Room, sharer: Identity, id: Id) {
    && live.now == now && live.redis.Holds(room, id) && Locked(live.redis, room, id)
    && InStatus(live.audit, id, Active) && live.audit[id].renewalDueAt == Some(now + RENEWAL)
    && live.redis.active[room].expiresAt == now + ACTIVE_STORAGE_TTL && live.redis.active[room].value.sharer == sharer
    && live.redis.active[room].value.renewalDueAt == now + RENEWAL
    && live.redis.active[room].value.authorizationExpiresAt == now + DEFAULT_TOKEN_LIFETIME
  }

  lemma RunAsked(w: World, room: Room, sharer: Identity, controller: Identity, id: Id)
    returns (states: seq<World>, ops: seq<Op>, asked: World)
    requires Initial(w) && room in w.rooms && sharer != controller
    ensures Ends(states, ops, asked) && Asked(asked, room, sharer, controller, id) && asked.now == w.now
  {
    var request := Request(room, controller, None, sharer, PROTOCOL_VERSION, EVERYBODY, id, true);
    states, ops := Continue([w], [], w, request);
    asked := Apply(w, request);
    RequestSucceeds(w, room, controller, sharer, id);
  }

  /** A fresh service, a request, and its approval: a live session with its lock. */
  lemma SessionBegins(w: World, room: Room, sharer: Identity, controller: Identity, id: Id, digest: Digest)
    returns (states: seq<World>, ops: seq<Op>, live: World)
    requires Initial(w) && room in w.rooms && sharer != controller
    ensures Ends(states, ops, live) && Begins(w.now, live, room, sharer, id)
  {
    var asked: World;
    states, ops, asked := RunAsked(w, room, sharer, controller, id);
    live := asked.Approve(room, id, sharer, None, PROTOCOL_VERSION, EVERYBODY, digest, true, Applied, Applied).0;
    EndsInv(states, ops, asked);
    FirstApproval(asked, room, sharer, controller, id, digest);
    states, ops := Continue(states, ops, asked, Approval(room, id, sharer, None, PROTOCOL_VERSION, EVERYBODY, digest, true, Applied, Applied));
  }

  /** From a fresh service: the session begins, its Sharer asks for it as a request, a minute passes, and the
      Sharer renews. The renewal is refused, the grant's deadline moves all the same, the row's does not. */
  lemma FailedRenewalHappens(w: World, room: Room, sharer: Identity, controller: Identity, id: Id, digest: Digest)
    returns (states: seq<World>, ops: seq<Op>, last: Op)
    requires Initial(w) && room in w.rooms && sharer != controller
    ensures IsRun(states, ops) && last.Renewal? && Enabled(states[|ops|], last)
    ensures var before, after := states[|ops|], Apply(states[|ops|], last);
      && before.redis.Holds(room, id) && room !in before.redis.owner
      && before.Renew(last.room, last.id, last.who, last.databaseUp, last.publish, last.cleanup).1.Err?
      && after.redis.Holds(room, id)
      && after.redis.active[room].value.renewalDueAt > before.redis.active[room].value.renewalDueAt
      && id in after.audit && after.audit[id].renewalDueAt == Some(before.redis.active[room].value.renewalDueAt)
  {
    var live: World;
    states, ops, live := SessionBegins(w, room, sharer, controller, id, digest);
    var read := Read(room, id, sharer);
    assert AsksAsPending(live, read, room, id);
    EndsInv(states, ops, live);
    AskingDrops(live, read, room, id);
    var lost := Apply(live, read);
    states, ops := Continue(states, ops, live, read);
    states, ops := Continue(states, ops, lost, Wait(w.now + 60_000));
    var later := lost.Tick(w.now + 60_000);
    EndsInv(states, ops, later);
    last := Renewal(room, id, sharer, true, Applied, Applied);
    RenewOutcome(later, room, id, sharer, true, Applied, Applied);
  }
}
