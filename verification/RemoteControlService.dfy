/** The Remote Control lifecycle as functions on one value, `World`: the live Redis entries, the audit
    table, the LiveKit room metadata, the clock, and what has been handed out so far.

    One service call is one step at one instant. Everything the outside world decides is a parameter:
    fresh ids and bootstrap digests, who is connected, the order of query results, and how each
    LiveKit or database call turns out. */
module RemoteControlService {
  import opened Options
  import opened RemoteControlState
  import opened RemoteControlRepo

  const PROTOCOL_VERSION := 2
  const DEFAULT_TOKEN_LIFETIME := 60 * 60_000

  /** The display-safe copy of a grant in the room metadata. */
  datatype Projection = Projection(
    sessionId: Id, status: GrantStatus, sharer: Identity, controller: Identity, agent: Identity,
    agentConnected: bool, renewalDueAt: int)

  /** What a redeemed bootstrap code hands to the native agent. */
  datatype Snapshot = Snapshot(
    room: Room, sessionId: Id, sharer: Identity, controller: Identity, agent: Identity, renewalDueAt: int)

  /** When the two humans' participant tokens run out. */
  datatype Tokens = Tokens(controller: int, sharer: Option<int>)

  datatype History = History(
    issued: set<Digest>, published: seq<Projection>, redeemed: set<Snapshot>, tokens: map<Id, Tokens>)

  /** A LiveKit write can fail after the server has already applied it. */
  datatype Reply = Applied | Rejected | AppliedButFailed

  datatype Role = Human | ControlAgent

  datatype CallView = Unavailable | Call(controller: Option<Role>, sharer: Option<Role>, presenting: bool)

  datatype Fault =
    | ProtocolUnsupported | RoomNotFound | NotAllowed | InProgress | PresentActive
    | NotFound | RenewalRequired | BootstrapInvalid | Upstream

  datatype Outcome<+T> = Ok(value: T) | Err(fault: Fault)

  function Project(grant: Grant): Projection {
    Projection(grant.sessionId, grant.status, grant.sharer, grant.controller, grant.agent,
               grant.agentConnected, grant.renewalDueAt)
  }

  function SnapshotOf(grant: Grant): Snapshot {
    Snapshot(grant.room, grant.sessionId, grant.sharer, grant.controller, grant.agent, grant.renewalDueAt)
  }

  predicate GrantExpired(grant: Grant, now: int) {
    Min(grant.renewalDueAt, grant.authorizationExpiresAt) <= now
  }

  function TokenExpiry(token: Option<int>, now: int): int {
    if token.Some? then token.value else now + DEFAULT_TOKEN_LIFETIME
  }

  /** The connection checks shared by requesting and approving. */
  function Obstacle(view: CallView): Option<Fault> {
    if view.Unavailable? then Some(Upstream)
    else if view.controller.None? || view.sharer.None? then Some(NotAllowed)
    else if view.controller.value.ControlAgent? || view.sharer.value.ControlAgent? then Some(NotAllowed)
    else if view.presenting then Some(PresentActive)
    else None
  }

  function NewGrant(pending: Pending, sharerToken: int, now: int): Grant {
    var authorization := Min(pending.controllerTokenExpiresAt, sharerToken);
    Grant(pending.requestId, pending.room, pending.sharer, pending.controller, AgentOf(pending.requestId),
          AwaitingAgent, false, now, Min(now + RENEWAL, authorization), authorization, None)
  }

  datatype World = World(
    now: int, rooms: set<Room>, redis: Redis, audit: Audit, metadata: map<Room, Projection>, history: History)
  {
    function Tick(time: int): World {
      this.(now := time, redis := redis.Expire(time))
    }

    function Publish(room: Room, projection: Projection, reply: Reply): World {
      if reply.Rejected? then this
      else this.(metadata := metadata[room := projection],
                 history := history.(published := history.published + [projection]))
    }

    function Unpublish(room: Room, reply: Reply): World {
      if reply.Rejected? then this else this.(metadata := metadata - {room})
    }

    function ReleasePending(room: Room, id: Id): World {
      this.(redis := redis.ReleasePending(room, id))
    }

    function CloseRequest(id: Id, status: Status, reason: Reason): World {
      this.(audit := TransitionRequested(audit, id, status, reason, now))
    }

    function EndGrant(grant: Grant, status: Status, reason: Reason, cleanup: Reply): World {
      this.(redis := redis.RevokeBootstrap(grant).ClearActive(grant.room, grant.sessionId).0)
          .Unpublish(grant.room, cleanup)
          .CloseSession(grant.sessionId, status, reason)
    }

    function EndAuditFallback(id: Id, room: Room, status: Status, reason: Reason, cleanup: Reply): World {
      this.(redis := redis.ClearActive(room, id).0).Unpublish(room, cleanup).CloseSession(id, status, reason)
    }

    function CloseSession(id: Id, status: Status, reason: Reason): World {
      this.(audit := EndActive(audit, id, status, reason, now))
    }

    function RequestControl(room: Room, controller: Identity, token: Option<int>, sharer: Identity, version: int,
                            view: CallView, id: Id, storeUp: bool): (World, Outcome<Pending>) {
      if version != PROTOCOL_VERSION then (this, Err(ProtocolUnsupported))
      else if room !in rooms then (this, Err(RoomNotFound))
      else if controller == sharer then (this, Err(NotAllowed))
      else if room in redis.owner then (this, Err(InProgress))
      else if Obstacle(view).Some? then (this, Err(Obstacle(view).value))
      else
        var recorded := this.(audit := audit[id := NewRequest(room, sharer, controller, now)]);
        var pending := Pending(id, room, sharer, controller, now, now + REQUEST_TTL, TokenExpiry(token, now));
        if !storeUp then (recorded.CloseRequest(id, Failed, RedisUnavailable), Err(Upstream))
        else
          var (stored, acquired) := redis.CreatePending(pending, now);
          if !acquired then (recorded.CloseRequest(id, Failed, RoomInProgress), Err(InProgress))
          else
            var tokens := history.tokens[id := Tokens(pending.controllerTokenExpiresAt, None)];
            (recorded.(redis := stored, history := history.(tokens := tokens)), Ok(pending))
    }

    /** Any id that is not the live pending request is treated as timed out, even an approved one. */
    function RequirePending(room: Room, id: Id): (World, Option<Pending>) {
      var pending := redis.GetPending(room, id);
      if pending.Some? && now < pending.value.expiresAt then (this, pending)
      else (ExpirePending(room, id), None)
    }

    function ExpirePending(room: Room, id: Id): World {
      ReleasePending(room, id).CloseRequest(id, Expired, RequestTimeout)
    }

    function GetRequest(room: Room, id: Id, who: Identity): (World, Outcome<Pending>) {
      var (checked, pending) := RequirePending(room, id);
      if pending.None? then (checked, Err(NotFound))
      else if who != pending.value.sharer && who != pending.value.controller then (checked, Err(NotAllowed))
      else (checked, Ok(pending.value))
    }

    function GetPendingRequest(room: Room, who: Identity): (World, Option<Pending>) {
      var pending := redis.GetPendingForRoom(room);
      if pending.None? then (this, None)
      else if pending.value.expiresAt <= now then (ExpirePending(room, pending.value.requestId), None)
      else if who != pending.value.sharer then (this, None)
      else (this, pending)
    }

    function Approve(room: Room, id: Id, who: Identity, token: Option<int>, version: int, view: CallView,
                     digest: Digest, databaseUp: bool, publish: Reply, cleanup: Reply): (World, Outcome<Grant>) {
      if version != PROTOCOL_VERSION then (this, Err(ProtocolUnsupported))
      else if room !in rooms then (this, Err(RoomNotFound))
      else
        var (checked, pending) := RequirePending(room, id);
        if pending.None? then (checked, Err(NotFound))
        else if who != pending.value.sharer then (checked, Err(NotAllowed))
        else if Obstacle(view).Some? then (checked, Err(Obstacle(view).value))
        else checked.TakeAndStart(room, id, TokenExpiry(token, now), digest, databaseUp, publish, cleanup)
    }

    /** Consume the request and turn it into a grant. */
    function TakeAndStart(room: Room, id: Id, sharerToken: int, digest: Digest, databaseUp: bool,
                          publish: Reply, cleanup: Reply): (World, Outcome<Grant>) {
      var (taken, consumed) := redis.ConsumePending(room, id);
      var holding := this.(redis := taken);
      if consumed.None? then (holding, Err(NotFound))
      else
        var grant := NewGrant(consumed.value, sharerToken, now);
        if grant.authorizationExpiresAt <= now then
          (holding.CloseRequest(id, Failed, ParticipantAuthorizationExpired).ReleasePending(room, id), Err(NotAllowed))
        else
          var (locked, activated) := taken.Activate(grant, now);
          if !activated then
            (holding.CloseRequest(id, Failed, RoomInProgress).ReleasePending(room, id), Err(InProgress))
          else holding.(redis := locked).Start(grant, sharerToken, digest, databaseUp, publish, cleanup)
    }

    /** The part of approval after Redis holds the grant; every failure unwinds it. */
    function Start(grant: Grant, sharerToken: int, digest: Digest, databaseUp: bool, publish: Reply, cleanup: Reply)
      : (World, Outcome<Grant>) {
      var (rows, activation) := ActivateRow(audit, grant.sessionId, grant.agent, now, grant.renewalDueAt);
      if !databaseUp then (EndGrant(grant, Failed, StartupFailed, cleanup), Err(Upstream))
      else match activation
        case Conflict => (EndGrant(grant, Failed, StartupFailed, cleanup), Err(InProgress))
        case NotRequested =>
          (this.(redis := redis.ClearActive(grant.room, grant.sessionId).0)
               .EndGrant(grant, Failed, StartupFailed, cleanup), Err(NotFound))
        case Activated =>
          this.(audit := rows).GrantTokens(grant.sessionId, sharerToken).Finish(grant, digest, publish, cleanup)
    }

    function Finish(grant: Grant, digest: Digest, publish: Reply, cleanup: Reply): (World, Outcome<Grant>) {
      var shown := Publish(grant.room, Project(grant), publish);
      if !publish.Applied? then (shown.EndGrant(grant, Failed, StartupFailed, cleanup), Err(Upstream))
      else
        var (issued, ok) := shown.IssueBootstrap(grant, digest);
        if ok then (issued, Ok(grant)) else (issued.EndGrant(grant, Failed, StartupFailed, cleanup), Err(Upstream))
    }

    function GrantTokens(id: Id, sharerToken: int): World {
      if id !in history.tokens then this
      else this.(history := history.(tokens := history.tokens[id := history.tokens[id].(sharer := Some(sharerToken))]))
    }

    function IssueBootstrap(grant: Grant, digest: Digest): (World, bool) {
      var (stored, ok) := redis.IssueBootstrap(grant, digest, now);
      (this.(redis := stored, history := history.(issued := history.issued + {digest})), ok)
    }

    function Deny(room: Room, id: Id, who: Identity): (World, Outcome<()>) {
      var (checked, pending) := RequirePending(room, id);
      if pending.None? then (checked, Err(NotFound))
      else if who != pending.value.sharer then (checked, Err(NotAllowed))
      else checked.Resolve(room, id, Denied, SharerDenied)
    }

    function Withdraw(room: Room, id: Id, who: Identity): (World, Outcome<()>) {
      var (checked, pending) := RequirePending(room, id);
      if pending.None? then (checked, Err(NotFound))
      else if who != pending.value.controller then (checked, Err(NotAllowed))
      else checked.Resolve(room, id, Withdrawn, ControllerWithdrew)
    }

    /** Consume the request, close its row, release the room. */
    function Resolve(room: Room, id: Id, status: Status, reason: Reason): (World, Outcome<()>) {
      var (taken, consumed) := redis.ConsumePending(room, id);
      var holding := this.(redis := taken);
      if consumed.None? then (holding, Err(NotFound))
      else
        (holding.CloseRequest(id, status, reason).ReleasePending(room, id),
         if InStatus(audit, id, Requested) then Ok(()) else Err(NotFound))
    }

    function RedeemHelperToken(room: Room, sessionId: Id, digest: Digest, version: int, minted: bool, cleanup: Reply)
      : (World, Outcome<Snapshot>) {
      if version != PROTOCOL_VERSION then (this, Err(ProtocolUnsupported))
      else
        var (spent, code) := redis.ConsumeBootstrap(room, sessionId, digest);
        var holding := this.(redis := spent);
        if code.None? then (holding, Err(BootstrapInvalid))
        else
          var grant := spent.GetActive(room);
          if grant.None? || grant.value.sessionId != sessionId then (holding, Err(BootstrapInvalid))
          else if GrantExpired(grant.value, now) then
            (holding.EndGrant(grant.value, Expired, RenewalTimeout, cleanup), Err(BootstrapInvalid))
          else if !minted then
            (holding.EndGrant(grant.value, Failed, HelperTokenFailed, cleanup), Err(Upstream))
          else
            var snapshot := SnapshotOf(grant.value);
            (holding.(history := history.(redeemed := history.redeemed + {snapshot})), Ok(snapshot))
    }

    /** Redis is the authority: a row whose grant has vanished is closed, never revived. */
    function RequireActive(room: Room, sessionId: Id, cleanup: Reply): (World, Option<Grant>) {
      if redis.Holds(room, sessionId) then (this, redis.GetActive(room))
      else if room in rooms && InStatus(audit, sessionId, Active) && audit[sessionId].room == room then
        (EndAuditFallback(sessionId, room, Failed, GrantMissing, cleanup), None)
      else (this, None)
    }

    function ReissueBootstrap(room: Room, sessionId: Id, who: Identity, digest: Digest, cleanup: Reply)
      : (World, Outcome<Digest>) {
      var (found, held) := RequireActive(room, sessionId, cleanup);
      if held.None? then (found, Err(NotFound))
      else if who != held.value.sharer then (found, Err(NotAllowed))
      else if GrantExpired(held.value, now) then
        (found.EndGrant(held.value, Expired, RenewalTimeout, cleanup), Err(RenewalRequired))
      else if held.value.agentConnected then (found, Err(InProgress))
      else
        var (issued, ok) := found.IssueBootstrap(held.value, digest);
        (issued, if ok then Ok(digest) else Err(Upstream))
    }

    function Stop(room: Room, sessionId: Id, who: Identity, cleanup: Reply): (World, Outcome<int>) {
      var (found, held) := RequireActive(room, sessionId, cleanup);
      if held.None? then (found, Err(NotFound))
      else if who != held.value.sharer && who != held.value.controller then (found, Err(NotAllowed))
      else
        var reason := if who == held.value.sharer then SharerStopped else ControllerStopped;
        var expired := GrantExpired(held.value, now);
        (found.EndGrant(held.value, if expired then Expired else Ended,
                        if expired then RenewalTimeout else reason, cleanup), Ok(now))
    }

    function Renew(room: Room, sessionId: Id, who: Identity, databaseUp: bool, publish: Reply, cleanup: Reply)
      : (World, Outcome<int>) {
      var (found, held) := RequireActive(room, sessionId, cleanup);
      if held.None? then (found, Err(NotFound))
      else if who != held.value.sharer then (found, Err(NotAllowed))
      else if GrantExpired(held.value, now) then
        (found.EndGrant(held.value, Expired, RenewalTimeout, cleanup), Err(RenewalRequired))
      else found.Extend(held.value, databaseUp, publish)
    }

    /** Redis first, then the row, then the projection; a failure puts the old grant and row back. */
    function Extend(grant: Grant, databaseUp: bool, publish: Reply): (World, Outcome<int>) {
      var renewed := grant.(renewalDueAt := Min(now + RENEWAL, grant.authorizationExpiresAt));
      var (stored, ok) := redis.UpdateActive(renewed, now);
      var extended := this.(redis := stored);
      if !ok then (extended, Err(NotFound))
      else if !databaseUp then (extended.RollBack(grant), Err(Upstream))
      else if !InStatus(audit, grant.sessionId, Active) then (extended.RollBack(grant), Err(NotFound))
      else
        var shown := extended.(audit := UpdateRenewal(audit, grant.sessionId, renewed.renewalDueAt))
                             .Publish(grant.room, Project(renewed), publish);
        if publish.Applied? then (shown, Ok(renewed.renewalDueAt))
        else
          var back := shown.RollBack(grant);
          (back.(audit := UpdateRenewal(back.audit, grant.sessionId, grant.renewalDueAt)), Err(Upstream))
    }

    function RollBack(grant: Grant): World {
      this.(redis := redis.UpdateActive(grant, now).0)
    }

    function OnParticipantJoined(room: Room, identity: Identity, publish: Reply, cleanup: Reply): World {
      var held := redis.GetActive(room);
      if held.None? || held.value.agent != identity then this
      else if GrantExpired(held.value, now) then EndGrant(held.value, Expired, RenewalTimeout, cleanup)
      else
        var connected := held.value.(status := AgentActive, agentConnected := true);
        var (stored, ok) := redis.UpdateActive(connected, now);
        var updated := this.(redis := stored);
        if !ok then updated
        else
          var shown := updated.Publish(room, Project(connected), publish);
          if publish.Applied? then shown else shown.EndGrant(connected, Failed, AgentMetadataFailed, cleanup)
    }

    function OnParticipantLeft(room: Room, identity: Identity, cleanup: Reply): World {
      var held := redis.GetActive(room);
      if held.Some? then
        if identity == held.value.sharer then EndGrant(held.value, Ended, SharerDisconnected, cleanup)
        else if identity == held.value.controller then EndGrant(held.value, Ended, ControllerDisconnected, cleanup)
        else if identity == held.value.agent then EndGrant(held.value, Ended, AgentDisconnected, cleanup)
        else this
      else
        var pending := redis.GetPendingForRoom(room);
        if pending.Some? && (identity == pending.value.sharer || identity == pending.value.controller) then
          ReleasePending(room, pending.value.requestId)
            .CloseRequest(pending.value.requestId, Failed, ParticipantDisconnected)
        else this
    }

    /** `found` is the active row the database returned for the room, if any. */
    function OnRoomFinished(room: Room, found: Option<Id>, cleanup: Reply): World {
      if room !in rooms then this
      else if redis.GetActive(room).Some? then EndGrant(redis.GetActive(room).value, Ended, RoomFinished, cleanup)
      else if found.Some? then EndAuditFallback(found.value, room, Ended, RoomFinished, cleanup)
      else this
    }

    ghost predicate ActiveRowOf(room: Room, found: Option<Id>) {
      match found
      case Some(id) => InStatus(audit, id, Active) && audit[id].room == room
      case None => !HasActiveRow(audit, room)
    }

    /** End one row whose session is over: through its grant while Redis still holds it. */
    function EndRowSession(id: Id, room: Room, status: Status, reason: Reason, cleanup: Reply): World {
      var held := redis.GetActive(room);
      if held.Some? && held.value.sessionId == id then EndGrant(held.value, status, reason, cleanup)
      else EndAuditFallback(id, room, status, reason, cleanup)
    }

    function EndDue(rows: seq<Id>, cleanup: Id -> Reply): World {
      if rows == [] then this
      else
        var done, id := EndDue(rows[..|rows| - 1], cleanup), rows[|rows| - 1];
        if id in audit then done.EndRowSession(id, audit[id].room, Expired, RenewalTimeout, cleanup(id)) else done
    }

    function ExpireOverdue(rows: seq<Id>): World {
      if rows == [] then this
      else
        var done, id := ExpireOverdue(rows[..|rows| - 1]), rows[|rows| - 1];
        if id in audit then done.ExpirePending(audit[id].room, id) else done
    }

    /** `due` and `overdue` are the answers of the two queries made before the loops. */
    function Reconcile(due: seq<Id>, overdue: seq<Id>, cleanup: Id -> Reply): World {
      EndDue(due, cleanup).ExpireOverdue(overdue)
    }

    /** The cutover loop over the rows that were open when it started. */
    function CutOff(rows: seq<Id>, cleanup: Id -> Reply): World {
      if rows == [] then this
      else
        var done, id := CutOff(rows[..|rows| - 1], cleanup), rows[|rows| - 1];
        if id in audit then done.CutOne(id, audit[id], cleanup(id)) else done
    }

    function CutOne(id: Id, row: Row, cleanup: Reply): World {
      if row.status == Requested then ReleasePending(row.room, id).CloseRequest(id, Failed, ProtocolUpgrade)
      else EndRowSession(id, row.room, Ended, ProtocolUpgrade, cleanup)
    }
  }
}
