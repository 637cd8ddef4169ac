/** What each call of the Remote Control service promises, case by case, in the terms of the stores alone:
    keys, rows, the room metadata and times. None of these predicates uses a function of the service. */
module RemoteControlPromises {
  import opened Options
  import opened RemoteControlState
  import opened RemoteControlRepo
  import opened RemoteControlService

  // ---- Words the promises share ----

  predicate PastDue(grant: Grant, now: int) {
    grant.renewalDueAt <= now || grant.authorizationExpiresAt <= now
  }

  /** Both people are connected, neither is an agent, and nobody presents. */
  predicate Ready(view: CallView) {
    view.Call? && view.controller == Some(Human) && view.sharer == Some(Human) && !view.presenting
  }

  function WhyNot(view: CallView): Fault {
    if view.Unavailable? then Upstream
    else if view.controller == Some(Human) && view.sharer == Some(Human) then PresentActive
    else NotAllowed
  }

  /** The room's pending request of this id, still unanswered and unexpired. */
  ghost predicate Awaits(w: World, room: Room, id: Id) {
    && room in w.redis.pending && w.redis.pending[room].value.requestId == id && w.redis.pending[room].value.room == room
    && w.now < w.redis.pending[room].value.expiresAt
  }

  ghost predicate Held(w: World, room: Room, id: Id) {
    room in w.redis.active && w.redis.active[room].value.sessionId == id
  }

  ghost predicate OwnsRoom(w: World, room: Room, id: Id) {
    room in w.redis.owner && w.redis.owner[room].value == id
  }

  /** The owner keys without this one's. */
  ghost function Unlocked(owner: map<Room, Entry<Id>>, room: Room, id: Id): map<Room, Entry<Id>> {
    if room in owner && owner[room].value == id then owner - {room} else owner
  }

  /** The room metadata once the projection has been taken down, if that succeeded. */
  ghost function Hidden(metadata: map<Room, Projection>, room: Room, cleanup: Reply): map<Room, Projection> {
    if cleanup.Rejected? then metadata else metadata - {room}
  }

  /** The room metadata with the grant shown in it, field by field. */
  ghost function Shown(metadata: map<Room, Projection>, grant: Grant): map<Room, Projection> {
    metadata[grant.room := Projection(grant.sessionId, grant.status, grant.sharer, grant.controller, grant.agent,
                                      grant.agentConnected, grant.renewalDueAt)]
  }

  ghost function ClosedAs(row: Row, status: Status, reason: Reason, now: int): Row {
    row.(status := status, endReason := Some(reason), endedAt := Some(now))
  }

  /** The rows with this one closed, if it was in the given status. */
  ghost function Closed(audit: Audit, id: Id, from: Status, status: Status, reason: Reason, now: int): Audit {
    if id in audit && audit[id].status == from then audit[id := ClosedAs(audit[id], status, reason, now)] else audit
  }

  ghost predicate NoActiveRow(audit: Audit, room: Room) {
    forall i :: i in audit && audit[i].room == room ==> audit[i].status != Active
  }

  ghost predicate SameClock(w: World, after: World) {
    after.now == w.now && after.rooms == w.rooms
  }

  /** Nothing was published and nothing handed out. */
  ghost predicate SameLog(w: World, after: World) {
    after.history.published == w.history.published && after.history.redeemed == w.history.redeemed
  }

  /** One attempt to show the grant was made, and it reached the server or not. */
  ghost predicate Announced(w: World, after: World, grant: Grant, publish: Reply) {
    && after.history.redeemed == w.history.redeemed
    && after.history.published == w.history.published +
         (if publish.Rejected? then []
          else [Projection(grant.sessionId, grant.status, grant.sharer, grant.controller, grant.agent, grant.agentConnected, grant.renewalDueAt)])
  }

  /** A request is done with: its row is closed, if it was open, and its own two keys are gone. */
  ghost predicate Freed(w: World, after: World, room: Room, id: Id, status: Status, reason: Reason) {
    && SameClock(w, after) && SameLog(w, after) && after.metadata == w.metadata
    && after.audit == Closed(w.audit, id, Requested, status, reason, w.now)
    && after.redis.owner == Unlocked(w.redis.owner, room, id)
    && after.redis.pending ==
         (if room in w.redis.pending && w.redis.pending[room].value.requestId == id && w.redis.pending[room].value.room == room
          then w.redis.pending - {room} else w.redis.pending)
    && after.redis.active == w.redis.active && after.redis.bootstrap == w.redis.bootstrap
  }

  /** A session is over: its grant, its code and its lock are gone, its row says why, its projection is
      taken down, and nothing else has moved. */
  ghost predicate Over(w: World, after: World, room: Room, status: Status, reason: Reason, cleanup: Reply)
    requires room in w.redis.active
  {
    var grant := w.redis.active[room].value;
    && SameClock(w, after) && SameLog(w, after) && after.metadata == Hidden(w.metadata, room, cleanup)
    && grant.sessionId in w.audit && w.audit[grant.sessionId].status == Active
    && after.audit == w.audit[grant.sessionId := ClosedAs(w.audit[grant.sessionId], status, reason, w.now)]
    && after.redis.owner == Unlocked(w.redis.owner, room, grant.sessionId)
    && after.redis.active == w.redis.active - {room} && after.redis.pending == w.redis.pending
    && Revoked(w.redis.bootstrap, after.redis.bootstrap, room, grant.bootstrapDigest)
  }

  /** Of all codes, the room's own is gone. */
  ghost predicate Revoked(before: map<Digest, Entry<Bootstrap>>, after: map<Digest, Entry<Bootstrap>>, room: Room, code: Option<Digest>) {
    && after == (if code.Some? then before - {code.value} else before)
    && forall digest :: digest in after ==> after[digest].value.room != room
  }

  /** There is no such session in Redis: a row that still says there is one is closed, with its projection. */
  ghost predicate Vanished(w: World, after: World, room: Room, id: Id, cleanup: Reply) {
    if room in w.rooms && id in w.audit && w.audit[id].status == Active && w.audit[id].room == room then
      && SameClock(w, after) && SameLog(w, after) && after.redis == w.redis && after.metadata == Hidden(w.metadata, room, cleanup)
      && after.audit == w.audit[id := ClosedAs(w.audit[id], Failed, GrantMissing, w.now)]
    else after == w
  }

  // ---- The calls ----

  /** A request holds the room, under a fresh row, for thirty seconds. */
  ghost predicate RequestPromise(w: World, after: World, outcome: Outcome<Pending>, room: Room, controller: Identity, token: Option<int>,
                                 sharer: Identity, version: int, view: CallView, id: Id, storeUp: bool) {
    var row := Row(room, sharer, controller, Requested, w.now, None, None, None, None, None);
    if version != 2 then outcome == Err(ProtocolUnsupported) && after == w
    else if room !in w.rooms then outcome == Err(RoomNotFound) && after == w
    else if controller == sharer then outcome == Err(NotAllowed) && after == w
    else if room in w.redis.owner then outcome == Err(InProgress) && after == w
    else if !Ready(view) then outcome == Err(WhyNot(view)) && after == w
    else if !storeUp then outcome == Err(Upstream) && after == w.(audit := w.audit[id := ClosedAs(row, Failed, RedisUnavailable, w.now)])
    else
      && outcome == Ok(Pending(id, room, sharer, controller, w.now, w.now + 30_000,
                               if token.Some? then token.value else w.now + 60 * 60_000))
      && SameClock(w, after) && SameLog(w, after) && after.metadata == w.metadata && after.audit == w.audit[id := row]
      && after.redis == w.redis.(owner := w.redis.owner[room := Entry(id, w.now + 30_000)],
                                 pending := w.redis.pending[room := Entry(outcome.value, w.now + 30_000)])
  }

  ghost predicate ReadPromise(w: World, after: World, outcome: Outcome<Pending>, room: Room, id: Id, who: Identity) {
    if !Awaits(w, room, id) then outcome == Err(NotFound) && Freed(w, after, room, id, Expired, RequestTimeout)
    else
      var request := w.redis.pending[room].value;
      && after == w
      && outcome == if who == request.sharer || who == request.controller then Ok(request) else Err(NotAllowed)
  }

  ghost predicate PollPromise(w: World, after: World, found: Option<Pending>, room: Room, who: Identity) {
    if room !in w.redis.pending then found == None && after == w
    else
      var request := w.redis.pending[room].value;
      if request.expiresAt <= w.now then found == None && Freed(w, after, room, request.requestId, Expired, RequestTimeout)
      else after == w && found == if who == request.sharer then Some(request) else None
  }

  /** `after` is `w`, without the request, with a grant for exactly it, made now, with one code, one active
      row and the projection. */
  ghost predicate Granted(w: World, after: World, request: Pending, authorization: int, digest: Digest, grant: Grant) {
    var room, id, due := request.room, request.requestId, Min(w.now + 30 * 60_000, authorization);
    && grant == Grant(id, room, request.sharer, request.controller, AgentOf(id), AwaitingAgent, false, w.now, due, authorization, None)
    && SameClock(w, after) && Announced(w, after, grant, Applied)
    && after.redis.active == w.redis.active[room := Entry(grant.(bootstrapDigest := Some(digest)), w.now + 31 * 60_000)]
    && after.redis.owner == w.redis.owner[room := Entry(id, w.now + 31 * 60_000)]
    && after.redis.pending == w.redis.pending - {room}
    && after.redis.bootstrap == w.redis.bootstrap[digest := Entry(Bootstrap(room, id, digest, w.now + 2 * 60_000), w.now + 2 * 60_000)]
    && id in w.audit && after.audit == w.audit[id := BegunRow(w.audit[id], grant)]
    && after.metadata == Shown(w.metadata, grant)
  }

  ghost function BegunRow(row: Row, grant: Grant): Row {
    row.(status := Active, agent := Some(grant.agent), startedAt := Some(grant.startedAt), renewalDueAt := Some(grant.renewalDueAt))
  }

  /** An approval that fails after the grant was stored: request and lock are gone, no grant and no code is
      left, a row that had become active is closed, and what was shown is taken down. */
  ghost predicate Unwound(w: World, after: World, request: Pending, authorization: int, begun: bool, publish: Reply, cleanup: Reply) {
    var room, id := request.room, request.requestId;
    var grant := Grant(id, room, request.sharer, request.controller, AgentOf(id), AwaitingAgent, false, w.now,
                       Min(w.now + 30 * 60_000, authorization), authorization, None);
    && SameClock(w, after) && (if begun then Announced(w, after, grant, publish) else SameLog(w, after))
    && after.redis == w.redis.(owner := w.redis.owner - {room}, pending := w.redis.pending - {room})
    && id in w.audit
    && after.audit == (if begun then w.audit[id := ClosedAs(BegunRow(w.audit[id], grant), Failed, StartupFailed, w.now)] else w.audit)
    && after.metadata == Hidden(if begun && !publish.Rejected? then Shown(w.metadata, grant) else w.metadata, room, cleanup)
  }

  /** Approval grants exactly the pending request, to the Sharer who approves it, when the room is theirs,
      the tokens last, the row is open and LiveKit shows it; otherwise it grants nothing. */
  ghost predicate ApprovePromise(w: World, after: World, outcome: Outcome<Grant>, room: Room, id: Id, who: Identity,
                                 token: Option<int>, version: int, view: CallView, digest: Digest, databaseUp: bool, publish: Reply,
                                 cleanup: Reply) {
    if version != 2 then outcome == Err(ProtocolUnsupported) && after == w
    else if room !in w.rooms then outcome == Err(RoomNotFound) && after == w
    else if !Awaits(w, room, id) then outcome == Err(NotFound) && Freed(w, after, room, id, Expired, RequestTimeout)
    else
      var request := w.redis.pending[room].value;
      if who != request.sharer then outcome == Err(NotAllowed) && after == w
      else if !Ready(view) then outcome == Err(WhyNot(view)) && after == w
      else if !OwnsRoom(w, room, id) then outcome == Err(NotFound) && after == w
      else
        var authorization := Min(request.controllerTokenExpiresAt, if token.Some? then token.value else w.now + 60 * 60_000);
        if authorization <= w.now then
          outcome == Err(NotAllowed) && Freed(w, after, room, id, Failed, ParticipantAuthorizationExpired)
        else if room in w.redis.active then outcome == Err(InProgress) && Freed(w, after, room, id, Failed, RoomInProgress)
        else StartPromise(w, after, outcome, request, authorization, digest, databaseUp, publish, cleanup)
  }

  ghost predicate StartPromise(w: World, after: World, outcome: Outcome<Grant>, request: Pending, authorization: int, digest: Digest,
                               databaseUp: bool, publish: Reply, cleanup: Reply) {
    var open := request.requestId in w.audit && w.audit[request.requestId].status == Requested;
    var begun := databaseUp && open && NoActiveRow(w.audit, request.room);
    if begun && publish.Applied? then outcome.Ok? && Granted(w, after, request, authorization, digest, outcome.value)
    else
      && outcome == Err(if !databaseUp || begun then Upstream else if open then InProgress else NotFound)
      && Unwound(w, after, request, authorization, begun, publish, cleanup)
  }

  /** Only the Sharer denies and only the Controller withdraws, and only what is still pending. */
  ghost predicate AnswerPromise(w: World, after: World, outcome: Outcome<()>, room: Room, id: Id, who: Identity, deny: bool) {
    if !Awaits(w, room, id) then outcome == Err(NotFound) && Freed(w, after, room, id, Expired, RequestTimeout)
    else
      var request := w.redis.pending[room].value;
      if who != (if deny then request.sharer else request.controller) then outcome == Err(NotAllowed) && after == w
      else if !OwnsRoom(w, room, id) then outcome == Err(NotFound) && after == w
      else
        && outcome == (if id in w.audit && w.audit[id].status == Requested then Ok(()) else Err(NotFound))
        && Freed(w, after, room, id, if deny then Denied else Withdrawn, if deny then SharerDenied else ControllerWithdrew)
  }

  /** A code is spent by whoever presents it, and hands out the live grant it belongs to, exactly when it is
      presented for its own room and session and the grant is not past due. */
  ghost predicate RedeemPromise(w: World, after: World, outcome: Outcome<Snapshot>, room: Room, id: Id, digest: Digest, version: int,
                                minted: bool, cleanup: Reply) {
    if version != 2 then outcome == Err(ProtocolUnsupported) && after == w
    else if digest !in w.redis.bootstrap then outcome == Err(BootstrapInvalid) && after == w
    else
      var spent := w.(redis := w.redis.(bootstrap := w.redis.bootstrap - {digest}));
      var code := w.redis.bootstrap[digest].value;
      if code.room != room || code.sessionId != id then outcome == Err(BootstrapInvalid) && after == spent
      else
        && Held(w, room, id) && w.redis.active[room].value.bootstrapDigest == Some(digest)
        && var grant := w.redis.active[room].value;
           if PastDue(grant, w.now) then outcome == Err(BootstrapInvalid) && Over(spent, after, room, Expired, RenewalTimeout, cleanup)
           else if !minted then outcome == Err(Upstream) && Over(spent, after, room, Failed, HelperTokenFailed, cleanup)
           else
             && outcome == Ok(Snapshot(room, id, grant.sharer, grant.controller, grant.agent, grant.renewalDueAt))
             && SameClock(w, after) && after.redis == spent.redis && after.audit == w.audit && after.metadata == w.metadata
             && after.history.published == w.history.published && after.history.redeemed == w.history.redeemed + {outcome.value}
  }

  /** `after` is `w` with the grant rewritten and its Redis entries refreshed; the lock only if there is one. */
  ghost predicate Refreshed(w: World, after: World, room: Room, grant: Grant) {
    && after.redis.active == w.redis.active[room := Entry(grant, w.now + 31 * 60_000)]
    && after.redis.owner == (if room in w.redis.owner then w.redis.owner[room := Entry(grant.sessionId, w.now + 31 * 60_000)] else w.redis.owner)
    && after.redis.pending == w.redis.pending && SameClock(w, after)
  }

  /** Only the Sharer of a live session that is not past due and whose agent is not connected gets a new
      code, and only while the room has its lock; the old code is void either way. */
  ghost predicate ReissuePromise(w: World, after: World, outcome: Outcome<Digest>, room: Room, id: Id, who: Identity, digest: Digest,
                                 cleanup: Reply) {
    if !Held(w, room, id) then outcome == Err(NotFound) && Vanished(w, after, room, id, cleanup)
    else
      var grant := w.redis.active[room].value;
      var others := if grant.bootstrapDigest.Some? then w.redis.bootstrap - {grant.bootstrapDigest.value} else w.redis.bootstrap;
      if who != grant.sharer then outcome == Err(NotAllowed) && after == w
      else if PastDue(grant, w.now) then outcome == Err(RenewalRequired) && Over(w, after, room, Expired, RenewalTimeout, cleanup)
      else if grant.agentConnected then outcome == Err(InProgress) && after == w
      else
        && Refreshed(w, after, room, grant.(bootstrapDigest := Some(digest))) && after.audit == w.audit && after.metadata == w.metadata
        && SameLog(w, after)
        && if room in w.redis.owner then
             && outcome == Ok(digest)
             && after.redis.bootstrap == others[digest := Entry(Bootstrap(room, id, digest, w.now + 2 * 60_000), w.now + 2 * 60_000)]
           else outcome == Err(Upstream) && after.redis.bootstrap == others - {digest}
  }

  /** Either party can stop a session, nobody else can, and a stop that comes too late is recorded as the
      timeout it is. */
  ghost predicate StopPromise(w: World, after: World, outcome: Outcome<int>, room: Room, id: Id, who: Identity, cleanup: Reply) {
    if !Held(w, room, id) then outcome == Err(NotFound) && Vanished(w, after, room, id, cleanup)
    else
      var grant := w.redis.active[room].value;
      if who != grant.sharer && who != grant.controller then outcome == Err(NotAllowed) && after == w
      else
        && outcome == Ok(w.now)
        && if PastDue(grant, w.now) then Over(w, after, room, Expired, RenewalTimeout, cleanup)
           else Over(w, after, room, Ended, if who == grant.sharer then SharerStopped else ControllerStopped, cleanup)
  }

  /** Only the Sharer renews. When it succeeds, grant, row and projection all carry the new deadline, which
      is capped by both tokens; too late it ends the session; a failure with the lock in place puts the old
      deadline back everywhere but in what was shown; without the lock only the grant is extended. */
  ghost predicate RenewPromise(w: World, after: World, outcome: Outcome<int>, room: Room, id: Id, who: Identity,
                               databaseUp: bool, publish: Reply, cleanup: Reply) {
    if !Held(w, room, id) then outcome == Err(NotFound) && Vanished(w, after, room, id, cleanup)
    else
      var grant := w.redis.active[room].value;
      var due := Min(w.now + 30 * 60_000, grant.authorizationExpiresAt);
      var renewed := grant.(renewalDueAt := due);
      if who != grant.sharer then outcome == Err(NotAllowed) && after == w
      else if PastDue(grant, w.now) then outcome == Err(RenewalRequired) && Over(w, after, room, Expired, RenewalTimeout, cleanup)
      else
        && after.redis.bootstrap == w.redis.bootstrap && id in w.audit && w.audit[id].status == Active && grant.renewalDueAt <= due
        && if room !in w.redis.owner then
             && outcome == Err(NotFound) && Refreshed(w, after, room, renewed) && after.audit == w.audit && after.metadata == w.metadata
             && SameLog(w, after)
           else if databaseUp && publish.Applied? then
             && outcome == Ok(due) && Refreshed(w, after, room, renewed) && Announced(w, after, renewed, Applied)
             && after.audit == w.audit[id := w.audit[id].(renewalDueAt := Some(due))] && after.metadata == Shown(w.metadata, renewed)
           else
             && outcome == Err(Upstream) && Refreshed(w, after, room, grant)
             && (if databaseUp then Announced(w, after, renewed, publish) else SameLog(w, after))
             && after.audit == (if databaseUp then w.audit[id := w.audit[id].(renewalDueAt := Some(grant.renewalDueAt))] else w.audit)
             && after.metadata == (if databaseUp && !publish.Rejected? then Shown(w.metadata, renewed) else w.metadata)
  }

  /** The agent's arrival makes the live session active and shows it; if it cannot be shown, it is over.
      Without the room's lock it is made active and neither shown nor ended. */
  ghost predicate JoinPromise(w: World, after: World, room: Room, who: Identity, publish: Reply, cleanup: Reply) {
    if room !in w.redis.active || who != w.redis.active[room].value.agent then after == w
    else
      var grant := w.redis.active[room].value;
      var connected := grant.(status := AgentActive, agentConnected := true);
      if PastDue(grant, w.now) then Over(w, after, room, Expired, RenewalTimeout, cleanup)
      else if room !in w.redis.owner || publish.Applied? then
        && Refreshed(w, after, room, connected) && after.audit == w.audit && after.redis.bootstrap == w.redis.bootstrap
        && after.metadata == (if room in w.redis.owner then Shown(w.metadata, connected) else w.metadata)
        && (if room in w.redis.owner then Announced(w, after, connected, Applied) else SameLog(w, after))
      else
        && SameClock(w, after) && Announced(w, after, connected, publish) && grant.sessionId in w.audit
        && after.metadata == Hidden(if publish.Rejected? then w.metadata else Shown(w.metadata, connected), room, cleanup)
        && after.audit == w.audit[grant.sessionId := ClosedAs(w.audit[grant.sessionId], Failed, AgentMetadataFailed, w.now)]
        && after.redis.owner == w.redis.owner - {room} && after.redis.active == w.redis.active - {room}
        && after.redis.pending == w.redis.pending && Revoked(w.redis.bootstrap, after.redis.bootstrap, room, grant.bootstrapDigest)
  }

  /** A party or the agent leaving ends the session with that as the reason; a party leaving before it is
      answered takes the request back; anyone else leaving changes nothing. */
  ghost predicate LeavePromise(w: World, after: World, room: Room, who: Identity, cleanup: Reply) {
    if room in w.redis.active then
      var grant := w.redis.active[room].value;
      if who == grant.sharer then Over(w, after, room, Ended, SharerDisconnected, cleanup)
      else if who == grant.controller then Over(w, after, room, Ended, ControllerDisconnected, cleanup)
      else if who == grant.agent then Over(w, after, room, Ended, AgentDisconnected, cleanup)
      else after == w
    else if room in w.redis.pending && (who == w.redis.pending[room].value.sharer || who == w.redis.pending[room].value.controller) then
      Freed(w, after, room, w.redis.pending[room].value.requestId, Failed, ParticipantDisconnected)
    else after == w
  }

  /** When a room is over it has no grant, no active row and no projection; `found` is its active row, if any. */
  ghost predicate FinishedPromise(w: World, after: World, room: Room, found: Option<Id>, cleanup: Reply) {
    if room !in w.rooms then after == w
    else
      && room !in after.redis.active && NoActiveRow(after.audit, room)
      && if room in w.redis.active then Over(w, after, room, Ended, RoomFinished, cleanup)
         else if found.Some? then
           && found.value in w.audit && SameClock(w, after) && SameLog(w, after) && after.redis == w.redis && after.metadata == Hidden(w.metadata, room, cleanup)
           && after.audit == w.audit[found.value := ClosedAs(w.audit[found.value], Ended, RoomFinished, w.now)]
         else after == w
  }
}
