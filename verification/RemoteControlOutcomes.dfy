/** Every call of the Remote Control service keeps its promise. */
module RemoteControlOutcomes {
  import opened Options
  import opened RemoteControlState
  import opened RemoteControlRepo
  import opened RemoteControlService
  import opened RemoteControlInvariants
  import opened RemoteControlSteps
  import opened RemoteControlRuns
  import opened RemoteControlPromises

  // ---- Requests ----

  lemma ExpirePendingFrees(w: World, room: Room, id: Id)
    ensures Freed(w, w.ExpirePending(room, id), room, id, Expired, RequestTimeout)
  {
  }

  lemma RequirePendingIs(w: World, room: Room, id: Id)
    ensures w.RequirePending(room, id) ==
      if Awaits(w, room, id) then (w, Some(w.redis.pending[room].value)) else (w.ExpirePending(room, id), None)
  {
  }

  /** Consuming one's own request, closing its row and releasing the room. */
  lemma ResolvingFrees(w: World, room: Room, id: Id, status: Status, reason: Reason)
    requires Awaits(w, room, id) && OwnsRoom(w, room, id)
    ensures var (taken, consumed) := w.redis.ConsumePending(room, id);
      && consumed == Some(w.redis.pending[room].value) && taken == w.redis.(pending := w.redis.pending - {room})
      && Freed(w, w.(redis := taken).CloseRequest(id, status, reason).ReleasePending(room, id), room, id, status, reason)
  {
    assert w.redis.pending - {room} - {room} == w.redis.pending - {room};
  }

  lemma RequestOutcome(w: World, room: Room, controller: Identity, token: Option<int>, sharer: Identity, version: int,
                       view: CallView, id: Id, storeUp: bool)
    ensures var (after, outcome) := w.RequestControl(room, controller, token, sharer, version, view, id, storeUp);
      RequestPromise(w, after, outcome, room, controller, token, sharer, version, view, id, storeUp)
  {
    assert Obstacle(view) == if Ready(view) then None else Some(WhyNot(view));
  }

  lemma ReadOutcome(w: World, room: Room, id: Id, who: Identity)
    ensures ReadPromise(w, w.GetRequest(room, id, who).0, w.GetRequest(room, id, who).1, room, id, who)
  {
    RequirePendingIs(w, room, id);
    ExpirePendingFrees(w, room, id);
  }

  lemma PollOutcome(w: World, room: Room, who: Identity)
    requires room in w.redis.pending ==> w.redis.pending[room].value.room == room
    ensures PollPromise(w, w.GetPendingRequest(room, who).0, w.GetPendingRequest(room, who).1, room, who)
  {
    if room in w.redis.pending {
      ExpirePendingFrees(w, room, w.redis.pending[room].value.requestId);
    }
  }

  lemma ResolveIs(w: World, room: Room, id: Id, status: Status, reason: Reason)
    requires Awaits(w, room, id)
    ensures var (after, outcome) := w.Resolve(room, id, status, reason);
      if !OwnsRoom(w, room, id) then after == w && outcome == Err(NotFound)
      else
        && outcome == (if id in w.audit && w.audit[id].status == Requested then Ok(()) else Err(NotFound))
        && Freed(w, after, room, id, status, reason)
  {
    if OwnsRoom(w, room, id) {
      ResolvingFrees(w, room, id, status, reason);
    }
  }

  lemma DenyOutcome(w: World, room: Room, id: Id, who: Identity)
    ensures AnswerPromise(w, w.Deny(room, id, who).0, w.Deny(room, id, who).1, room, id, who, true)
  {
    RequirePendingIs(w, room, id);
    if Awaits(w, room, id) {
      ResolveIs(w, room, id, Denied, SharerDenied);
    } else {
      ExpirePendingFrees(w, room, id);
    }
  }

  lemma WithdrawOutcome(w: World, room: Room, id: Id, who: Identity)
    ensures AnswerPromise(w, w.Withdraw(room, id, who).0, w.Withdraw(room, id, who).1, room, id, who, false)
  {
    RequirePendingIs(w, room, id);
    if Awaits(w, room, id) {
      ResolveIs(w, room, id, Withdrawn, ControllerWithdrew);
    } else {
      ExpirePendingFrees(w, room, id);
    }
  }

  // ---- Approval ----

  lemma FinishGrants(w: World, room: Room, digest: Digest, publish: Reply, cleanup: Reply)
    requires room in w.redis.active && w.redis.active[room].value.room == room && room in w.redis.owner
    requires w.redis.active[room].value.bootstrapDigest.None? && publish.Applied?
    requires w.redis.owner[room] == Entry(w.redis.active[room].value.sessionId, w.now + ACTIVE_STORAGE_TTL)
    ensures var grant := w.redis.active[room].value;
      var (after, outcome) := w.Finish(grant, digest, publish, cleanup);
      && outcome == Ok(grant) && SameClock(w, after) && Announced(w, after, grant, Applied) && after.audit == w.audit && after.metadata == Shown(w.metadata, grant)
      && after.redis == Redis(
           w.redis.owner, w.redis.pending,
           w.redis.active[room := Entry(grant.(bootstrapDigest := Some(digest)), w.now + ACTIVE_STORAGE_TTL)],
           w.redis.bootstrap[digest := Entry(Bootstrap(room, grant.sessionId, digest, w.now + BOOTSTRAP_TTL), w.now + BOOTSTRAP_TTL)])
  {
    var grant := w.redis.active[room].value;
    IssueSucceeds(w.redis, room, digest, w.now);
    var issued := w.redis.IssueBootstrap(grant, digest, w.now).0;
    assert issued.owner == w.redis.owner;
  }

  /** `begun` is `w` with the grant in place and its row active. */
  ghost predicate HasBegun(w: World, begun: World, grant: Grant) {
    && grant.sessionId in w.audit && SameClock(w, begun) && SameLog(w, begun)
    && begun.redis.active == w.redis.active[grant.room := Entry(grant, w.now + ACTIVE_STORAGE_TTL)]
    && begun.redis.owner == w.redis.owner[grant.room := Entry(grant.sessionId, w.now + ACTIVE_STORAGE_TTL)]
    && begun.redis.pending == w.redis.pending && begun.redis.bootstrap == w.redis.bootstrap
    && begun.audit == w.audit[grant.sessionId := BegunRow(w.audit[grant.sessionId], grant)]
    && begun.metadata == w.metadata
  }

  lemma BegunHasBegun(w: World, grant: Grant, sharerToken: int)
    requires InStatus(w.audit, grant.sessionId, Requested) && !HasActiveRow(w.audit, w.audit[grant.sessionId].room)
    requires grant.startedAt == w.now
    ensures HasBegun(w, Begun(w, grant, sharerToken), grant)
  {
  }

  /** Publication fails after the row became active. */
  lemma FinishUnwinds(w: World, begun: World, grant: Grant, digest: Digest, publish: Reply, cleanup: Reply)
    requires grant.room !in w.redis.active && grant.bootstrapDigest.None? && HasBegun(w, begun, grant) && !publish.Applied?
    ensures var (after, outcome) := begun.Finish(grant, digest, publish, cleanup);
      && outcome == Err(Upstream) && SameClock(w, after) && Announced(w, after, grant, publish)
      && after.redis == w.redis.(owner := w.redis.owner - {grant.room})
      && after.audit == w.audit[grant.sessionId := ClosedAs(BegunRow(w.audit[grant.sessionId], grant), Failed, StartupFailed, w.now)]
      && after.metadata == Hidden(if publish.Rejected? then w.metadata else Shown(w.metadata, grant), grant.room, cleanup)
  {
    assert begun.redis.active - {grant.room} == w.redis.active;
    assert begun.redis.owner - {grant.room} == w.redis.owner - {grant.room};
  }

  /** The row could not be made active. */
  lemma UnwindOutcome(w: World, grant: Grant, cleanup: Reply)
    requires grant.room !in w.redis.active && grant.bootstrapDigest.None?
    requires grant.room in w.redis.owner && w.redis.owner[grant.room].value == grant.sessionId
    requires !InStatus(w.audit, grant.sessionId, Active)
    ensures var locked := w.(redis := w.redis.Activate(grant, w.now).0);
      var after := locked.EndGrant(grant, Failed, StartupFailed, cleanup);
      && after == locked.(redis := locked.redis.ClearActive(grant.room, grant.sessionId).0).EndGrant(grant, Failed, StartupFailed, cleanup)
      && SameClock(w, after) && SameLog(w, after) && after.redis == w.redis.(owner := w.redis.owner - {grant.room})
      && after.audit == w.audit && after.metadata == Hidden(w.metadata, grant.room, cleanup)
  {
    UnwindIs(w, grant, cleanup);
  }

  lemma StartFault(w: World, grant: Grant, sharerToken: int, digest: Digest, databaseUp: bool, publish: Reply, cleanup: Reply)
    requires grant.sessionId in w.audit && w.audit[grant.sessionId].room == grant.room
    requires !(databaseUp && InStatus(w.audit, grant.sessionId, Requested) && !HasActiveRow(w.audit, grant.room))
    ensures w.Start(grant, sharerToken, digest, databaseUp, publish, cleanup).1 ==
      Err(if !databaseUp then Upstream else if InStatus(w.audit, grant.sessionId, Requested) then InProgress else NotFound)
  {
  }

  lemma NoActiveRowIs(audit: Audit, room: Room)
    ensures NoActiveRow(audit, room) <==> !HasActiveRow(audit, room)
  {
  }

  ghost predicate Startable(w: World, request: Pending) {
    && request.room !in w.redis.active && request.room !in w.redis.pending
    && request.requestId in w.audit && w.audit[request.requestId].room == request.room && w.audit[request.requestId].status != Active
    && OwnsRoom(w, request.room, request.requestId)
  }

  lemma BegunGrants(w: World, request: Pending, sharerToken: int, digest: Digest, cleanup: Reply)
    requires Startable(w, request) && w.audit[request.requestId].status == Requested && !HasActiveRow(w.audit, request.room)
    ensures var grant := NewGrant(request, sharerToken, w.now);
      var (after, outcome) := Begun(w, grant, sharerToken).Finish(grant, digest, Applied, cleanup);
      outcome == Ok(grant) && Granted(w, after, request, Min(request.controllerTokenExpiresAt, sharerToken), digest, grant)
  {
    var grant := NewGrant(request, sharerToken, w.now);
    BegunHasBegun(w, grant, sharerToken);
    FinishGrants(Begun(w, grant, sharerToken), grant.room, digest, Applied, cleanup);
    assert w.redis.pending - {request.room} == w.redis.pending;
  }

  lemma BegunUnwinds(w: World, request: Pending, sharerToken: int, digest: Digest, publish: Reply, cleanup: Reply)
    requires Startable(w, request) && w.audit[request.requestId].status == Requested && !HasActiveRow(w.audit, request.room)
    requires !publish.Applied?
    ensures var grant := NewGrant(request, sharerToken, w.now);
      var (after, outcome) := Begun(w, grant, sharerToken).Finish(grant, digest, publish, cleanup);
      && outcome == Err(Upstream)
      && Unwound(w, after, request, Min(request.controllerTokenExpiresAt, sharerToken), true, publish, cleanup)
  {
    var grant := NewGrant(request, sharerToken, w.now);
    BegunHasBegun(w, grant, sharerToken);
    FinishUnwinds(w, Begun(w, grant, sharerToken), grant, digest, publish, cleanup);
    assert w.redis.pending - {request.room} == w.redis.pending;
  }

  lemma LockUnwinds(w: World, request: Pending, sharerToken: int, publish: Reply, cleanup: Reply)
    requires Startable(w, request)
    ensures var grant := NewGrant(request, sharerToken, w.now);
      var locked := w.(redis := w.redis.Activate(grant, w.now).0);
      var after := locked.EndGrant(grant, Failed, StartupFailed, cleanup);
      && after == locked.(redis := locked.redis.ClearActive(grant.room, grant.sessionId).0).EndGrant(grant, Failed, StartupFailed, cleanup)
      && Unwound(w, after, request, Min(request.controllerTokenExpiresAt, sharerToken), false, publish, cleanup)
  {
    UnwindOutcome(w, NewGrant(request, sharerToken, w.now), cleanup);
    assert w.redis.pending - {request.room} == w.redis.pending;
  }

  /** From the lock on, the request being consumed already. */
  lemma StartOutcome(w: World, request: Pending, sharerToken: int, digest: Digest, databaseUp: bool, publish: Reply, cleanup: Reply)
    requires Startable(w, request)
    ensures var grant := NewGrant(request, sharerToken, w.now);
      var locked := w.(redis := w.redis.Activate(grant, w.now).0);
      var (after, outcome) := locked.Start(grant, sharerToken, digest, databaseUp, publish, cleanup);
      StartPromise(w, after, outcome, request, Min(request.controllerTokenExpiresAt, sharerToken), digest, databaseUp, publish, cleanup)
  {
    var grant := NewGrant(request, sharerToken, w.now);
    StartUnfolds(w, grant, sharerToken, digest, databaseUp, publish, cleanup);
    NoActiveRowIs(w.audit, request.room);
    if databaseUp && w.audit[grant.sessionId].status == Requested && !HasActiveRow(w.audit, grant.room) {
      if publish.Applied? {
        BegunGrants(w, request, sharerToken, digest, cleanup);
      } else {
        BegunUnwinds(w, request, sharerToken, digest, publish, cleanup);
      }
    } else {
      StartFault(w.(redis := w.redis.Activate(grant, w.now).0), grant, sharerToken, digest, databaseUp, publish, cleanup);
      LockUnwinds(w, request, sharerToken, publish, cleanup);
    }
  }

  /** The request is consumed; nothing of what follows depends on its key. */
  lemma StartPromiseWith(w: World, after: World, outcome: Outcome<Grant>, request: Pending, authorization: int, digest: Digest,
                         databaseUp: bool, publish: Reply, cleanup: Reply)
    requires StartPromise(w.(redis := w.redis.(pending := w.redis.pending - {request.room})), after, outcome, request, authorization,
                          digest, databaseUp, publish, cleanup)
    ensures StartPromise(w, after, outcome, request, authorization, digest, databaseUp, publish, cleanup)
  {
    assert w.redis.pending - {request.room} - {request.room} == w.redis.pending - {request.room};
  }

  lemma TakeUnfolds(w: World, room: Room, id: Id, sharerToken: int, digest: Digest, databaseUp: bool, publish: Reply, cleanup: Reply)
    requires Awaits(w, room, id)
    ensures var request := w.redis.pending[room].value;
      var (after, outcome) := w.TakeAndStart(room, id, sharerToken, digest, databaseUp, publish, cleanup);
      var authorization := Min(request.controllerTokenExpiresAt, sharerToken);
      if !OwnsRoom(w, room, id) then after == w && outcome == Err(NotFound)
      else if authorization <= w.now then outcome == Err(NotAllowed) && Freed(w, after, room, id, Failed, ParticipantAuthorizationExpired)
      else if room in w.redis.active then outcome == Err(InProgress) && Freed(w, after, room, id, Failed, RoomInProgress)
      else
        var holding := w.(redis := w.redis.(pending := w.redis.pending - {room}));
        var grant := NewGrant(request, sharerToken, w.now);
        (after, outcome) == holding.(redis := holding.redis.Activate(grant, w.now).0).Start(grant, sharerToken, digest, databaseUp, publish, cleanup)
  {
    if OwnsRoom(w, room, id) {
      ResolvingFrees(w, room, id, Failed, ParticipantAuthorizationExpired);
      ResolvingFrees(w, room, id, Failed, RoomInProgress);
    }
  }

  lemma ApproveUnfolds(w: World, room: Room, id: Id, who: Identity, token: Option<int>, version: int, view: CallView,
                       digest: Digest, databaseUp: bool, publish: Reply, cleanup: Reply)
    ensures var (after, outcome) := w.Approve(room, id, who, token, version, view, digest, databaseUp, publish, cleanup);
      if version != 2 then outcome == Err(ProtocolUnsupported) && after == w
      else if room !in w.rooms then outcome == Err(RoomNotFound) && after == w
      else if !Awaits(w, room, id) then outcome == Err(NotFound) && after == w.ExpirePending(room, id)
      else if who != w.redis.pending[room].value.sharer then outcome == Err(NotAllowed) && after == w
      else if !Ready(view) then outcome == Err(WhyNot(view)) && after == w
      else
        (after, outcome) == w.TakeAndStart(room, id, if token.Some? then token.value else w.now + 60 * 60_000, digest, databaseUp, publish, cleanup)
  {
    RequirePendingIs(w, room, id);
    ObstacleIs(view);
  }

  lemma ObstacleIs(view: CallView)
    ensures Obstacle(view) == if Ready(view) then None else Some(WhyNot(view))
  {
  }

  lemma ApproveOutcome(w: World, room: Room, id: Id, who: Identity, token: Option<int>, version: int, view: CallView,
                       digest: Digest, databaseUp: bool, publish: Reply, cleanup: Reply)
    requires Inv(w)
    ensures var (after, outcome) := w.Approve(room, id, who, token, version, view, digest, databaseUp, publish, cleanup);
      ApprovePromise(w, after, outcome, room, id, who, token, version, view, digest, databaseUp, publish, cleanup)
  {
    ApproveUnfolds(w, room, id, who, token, version, view, digest, databaseUp, publish, cleanup);
    if !Awaits(w, room, id) {
      ExpirePendingFrees(w, room, id);
      return;
    }
    var request := w.redis.pending[room].value;
    assert id in w.audit && w.audit[id].room == room && w.audit[id].status != Active by {
      assert PendingOk(w.audit, w.history.tokens, room, request);
    }
    var sharerToken := if token.Some? then token.value else w.now + 60 * 60_000;
    TakeUnfolds(w, room, id, sharerToken, digest, databaseUp, publish, cleanup);
    if OwnsRoom(w, room, id) && room !in w.redis.active {
      var holding := w.(redis := w.redis.(pending := w.redis.pending - {room}));
      StartOutcome(holding, request, sharerToken, digest, databaseUp, publish, cleanup);
      var grant := NewGrant(request, sharerToken, w.now);
      var (after, outcome) := holding.(redis := holding.redis.Activate(grant, w.now).0).Start(grant, sharerToken, digest, databaseUp, publish, cleanup);
      StartPromiseWith(w, after, outcome, request, Min(request.controllerTokenExpiresAt, sharerToken), digest, databaseUp, publish, cleanup);
    }
  }

  // ---- Sessions ----

  lemma ExpiredIs(grant: Grant, now: int)
    ensures GrantExpired(grant, now) <==> PastDue(grant, now)
  {
  }

  lemma HeldIs(w: World, room: Room, id: Id)
    requires Inv(w)
    ensures w.redis.Holds(room, id) <==> Held(w, room, id)
    ensures room in w.redis.active ==> w.redis.GetActive(room) == Some(w.redis.active[room].value)
  {
    if room in w.redis.active {
      assert GrantOk(w.now, w.audit, w.history.tokens, w.history.issued, room, w.redis.active[room]);
    }
  }

  lemma EndUnfolds(w: World, room: Room, status: Status, reason: Reason, cleanup: Reply)
    requires room in w.redis.active && w.redis.active[room].value.room == room
    ensures var grant := w.redis.active[room].value;
      var after := w.EndGrant(grant, status, reason, cleanup);
      && SameClock(w, after) && SameLog(w, after) && after.metadata == Hidden(w.metadata, room, cleanup)
      && after.audit == Closed(w.audit, grant.sessionId, Active, status, reason, w.now)
      && after.redis.owner == Unlocked(w.redis.owner, room, grant.sessionId)
      && after.redis.active == w.redis.active - {room} && after.redis.pending == w.redis.pending
      && after.redis.bootstrap == (if grant.bootstrapDigest.Some? then w.redis.bootstrap - {grant.bootstrapDigest.value} else w.redis.bootstrap)
  {
  }

  lemma EndIsOver(w: World, room: Room, status: Status, reason: Reason, cleanup: Reply)
    requires Inv(w) && room in w.redis.active
    ensures Over(w, w.EndGrant(w.redis.active[room].value, status, reason, cleanup), room, status, reason, cleanup)
  {
    var grant := w.redis.active[room].value;
    assert grant.room == room && InStatus(w.audit, grant.sessionId, Active) by {
      assert GrantOk(w.now, w.audit, w.history.tokens, w.history.issued, room, w.redis.active[room]);
    }
    EndUnfolds(w, room, status, reason, cleanup);
    CodesOfRoom(w, room);
  }

  lemma CodesOfRoom(w: World, room: Room)
    requires Inv(w) && room in w.redis.active
    ensures forall digest :: digest in w.redis.bootstrap && w.redis.bootstrap[digest].value.room == room ==>
              w.redis.active[room].value.bootstrapDigest == Some(digest)
  {
    forall digest | digest in w.redis.bootstrap && w.redis.bootstrap[digest].value.room == room
      ensures w.redis.active[room].value.bootstrapDigest == Some(digest)
    {
      assert CodeOk(w.redis.active, w.history.issued, digest, w.redis.bootstrap[digest]);
    }
  }

  lemma VanishedOutcome(w: World, room: Room, id: Id, cleanup: Reply)
    requires !w.redis.Holds(room, id)
    ensures w.RequireActive(room, id, cleanup).1.None? && Vanished(w, w.RequireActive(room, id, cleanup).0, room, id, cleanup)
  {
  }

  lemma StopOutcome(w: World, room: Room, id: Id, who: Identity, cleanup: Reply)
    requires Inv(w)
    ensures StopPromise(w, w.Stop(room, id, who, cleanup).0, w.Stop(room, id, who, cleanup).1, room, id, who, cleanup)
  {
    HeldIs(w, room, id);
    if !Held(w, room, id) {
      VanishedOutcome(w, room, id, cleanup);
      return;
    }
    var grant := w.redis.active[room].value;
    assert w.RequireActive(room, id, cleanup) == (w, Some(grant));
    ExpiredIs(grant, w.now);
    if PastDue(grant, w.now) {
      EndIsOver(w, room, Expired, RenewalTimeout, cleanup);
    } else {
      EndIsOver(w, room, Ended, if who == grant.sharer then SharerStopped else ControllerStopped, cleanup);
    }
  }

  lemma RedeemUnfolds(w: World, room: Room, id: Id, digest: Digest, version: int, minted: bool, cleanup: Reply)
    requires digest in w.redis.bootstrap ==> w.redis.bootstrap[digest].value.digest == digest
    requires room in w.redis.active ==> w.redis.active[room].value.room == room
    ensures var (after, outcome) := w.RedeemHelperToken(room, id, digest, version, minted, cleanup);
      var spent := w.(redis := w.redis.(bootstrap := w.redis.bootstrap - {digest}));
      if version != 2 then outcome == Err(ProtocolUnsupported) && after == w
      else if digest !in w.redis.bootstrap then outcome == Err(BootstrapInvalid) && after == w
      else if w.redis.bootstrap[digest].value.room != room || w.redis.bootstrap[digest].value.sessionId != id then
        outcome == Err(BootstrapInvalid) && after == spent
      else
        Held(w, room, id) ==>
          var grant := w.redis.active[room].value;
          if PastDue(grant, w.now) then outcome == Err(BootstrapInvalid) && after == spent.EndGrant(grant, Expired, RenewalTimeout, cleanup)
          else if !minted then outcome == Err(Upstream) && after == spent.EndGrant(grant, Failed, HelperTokenFailed, cleanup)
          else
            && outcome == Ok(Snapshot(room, id, grant.sharer, grant.controller, grant.agent, grant.renewalDueAt))
            && SameClock(w, after) && after.redis == spent.redis && after.audit == w.audit && after.metadata == w.metadata
            && after.history.published == w.history.published && after.history.redeemed == w.history.redeemed + {outcome.value}
  {
  }

  lemma RedeemOutcome(w: World, room: Room, id: Id, digest: Digest, version: int, minted: bool, cleanup: Reply)
    requires Inv(w)
    ensures var (after, outcome) := w.RedeemHelperToken(room, id, digest, version, minted, cleanup);
      RedeemPromise(w, after, outcome, room, id, digest, version, minted, cleanup)
  {
    assert digest in w.redis.bootstrap ==>
        var code := w.redis.bootstrap[digest].value;
        code.digest == digest && Held(w, code.room, code.sessionId) && w.redis.active[code.room].value.bootstrapDigest == Some(digest) by {
      if digest in w.redis.bootstrap {
        assert CodeOk(w.redis.active, w.history.issued, digest, w.redis.bootstrap[digest]);
      }
    }
    HeldIs(w, room, id);
    RedeemUnfolds(w, room, id, digest, version, minted, cleanup);
    if digest in w.redis.bootstrap && Held(w, room, id) {
      var spent := w.(redis := w.redis.(bootstrap := w.redis.bootstrap - {digest}));
      SpentIsOver(w, room, digest, Expired, RenewalTimeout, cleanup);
      SpentIsOver(w, room, digest, Failed, HelperTokenFailed, cleanup);
    }
  }

  lemma SpentIsOver(w: World, room: Room, digest: Digest, status: Status, reason: Reason, cleanup: Reply)
    requires Inv(w) && room in w.redis.active
    ensures var spent := w.(redis := w.redis.(bootstrap := w.redis.bootstrap - {digest}));
      Over(spent, spent.EndGrant(w.redis.active[room].value, status, reason, cleanup), room, status, reason, cleanup)
  {
    ConsumeBootstrapKeeps(w, room, w.redis.active[room].value.sessionId, digest);
    var spent := w.(redis := w.redis.(bootstrap := w.redis.bootstrap - {digest}));
    assert digest !in w.redis.bootstrap ==> w.redis.bootstrap - {digest} == w.redis.bootstrap;
    assert spent == w.(redis := w.redis.ConsumeBootstrap(room, w.redis.active[room].value.sessionId, digest).0);
    EndIsOver(spent, room, status, reason, cleanup);
  }

  lemma IssueOutcome(w: World, room: Room, digest: Digest)
    requires room in w.redis.active && w.redis.active[room].value.room == room
    ensures var grant := w.redis.active[room].value;
      var others := if grant.bootstrapDigest.Some? then w.redis.bootstrap - {grant.bootstrapDigest.value} else w.redis.bootstrap;
      var (after, ok) := w.IssueBootstrap(grant, digest);
      && ok == (room in w.redis.owner)
      && Refreshed(w, after, room, grant.(bootstrapDigest := Some(digest))) && after.audit == w.audit && after.metadata == w.metadata
      && SameLog(w, after)
      && after.redis.bootstrap ==
           if ok then others[digest := Entry(Bootstrap(room, grant.sessionId, digest, w.now + 2 * 60_000), w.now + 2 * 60_000)]
           else others - {digest}
  {
    var grant := w.redis.active[room].value;
    var others := w.redis.RevokeBootstrap(grant).bootstrap;
    var code := Entry(Bootstrap(room, grant.sessionId, digest, w.now + BOOTSTRAP_TTL), w.now + BOOTSTRAP_TTL);
    assert others[digest := code] - {digest} == others - {digest};
  }

  lemma ReissueOutcome(w: World, room: Room, id: Id, who: Identity, digest: Digest, cleanup: Reply)
    requires Inv(w)
    ensures var (after, outcome) := w.ReissueBootstrap(room, id, who, digest, cleanup);
      ReissuePromise(w, after, outcome, room, id, who, digest, cleanup)
  {
    HeldIs(w, room, id);
    if !Held(w, room, id) {
      VanishedOutcome(w, room, id, cleanup);
      return;
    }
    var grant := w.redis.active[room].value;
    assert w.RequireActive(room, id, cleanup) == (w, Some(grant));
    ExpiredIs(grant, w.now);
    if PastDue(grant, w.now) {
      EndIsOver(w, room, Expired, RenewalTimeout, cleanup);
    } else {
      IssueOutcome(w, room, digest);
    }
  }

  // ---- Renewal ----

  lemma ExtendSucceeds(w: World, room: Room, publish: Reply)
    requires room in w.redis.active && w.redis.active[room].value.room == room && room in w.redis.owner && publish.Applied?
    requires InStatus(w.audit, w.redis.active[room].value.sessionId, Active)
    ensures var grant := w.redis.active[room].value;
      var due := Min(w.now + 30 * 60_000, grant.authorizationExpiresAt);
      var (after, outcome) := w.Extend(grant, true, publish);
      && outcome == Ok(due) && Announced(w, after, grant.(renewalDueAt := due), Applied)
      && Refreshed(w, after, room, grant.(renewalDueAt := due)) && after.redis.bootstrap == w.redis.bootstrap
      && after.audit == w.audit[grant.sessionId := w.audit[grant.sessionId].(renewalDueAt := Some(due))]
      && after.metadata == Shown(w.metadata, grant.(renewalDueAt := due))
  {
  }

  lemma ExtendFailsCleanly(w: World, room: Room, databaseUp: bool, publish: Reply)
    requires room in w.redis.active && w.redis.active[room].value.room == room && room in w.redis.owner && !(databaseUp && publish.Applied?)
    requires InStatus(w.audit, w.redis.active[room].value.sessionId, Active)
    ensures var grant := w.redis.active[room].value;
      var due := Min(w.now + 30 * 60_000, grant.authorizationExpiresAt);
      var (after, outcome) := w.Extend(grant, databaseUp, publish);
      && outcome == Err(Upstream) && (if databaseUp then Announced(w, after, grant.(renewalDueAt := due), publish) else SameLog(w, after))
      && Refreshed(w, after, room, grant) && after.redis.bootstrap == w.redis.bootstrap
      && after.audit == (if databaseUp then w.audit[grant.sessionId := w.audit[grant.sessionId].(renewalDueAt := Some(grant.renewalDueAt))] else w.audit)
      && after.metadata == (if databaseUp && !publish.Rejected? then Shown(w.metadata, grant.(renewalDueAt := due)) else w.metadata)
  {
    ExtendFails(w, room, databaseUp, publish);
  }

  lemma ExtendWithoutLock(w: World, room: Room, databaseUp: bool, publish: Reply)
    requires room in w.redis.active && w.redis.active[room].value.room == room && room !in w.redis.owner
    ensures var grant := w.redis.active[room].value;
      var due := Min(w.now + 30 * 60_000, grant.authorizationExpiresAt);
      var (after, outcome) := w.Extend(grant, databaseUp, publish);
      && outcome == Err(NotFound) && SameLog(w, after) && Refreshed(w, after, room, grant.(renewalDueAt := due)) && after.redis.bootstrap == w.redis.bootstrap
      && after.audit == w.audit && after.metadata == w.metadata
  {
  }

  lemma RenewIsExtend(w: World, room: Room, id: Id, databaseUp: bool, publish: Reply, cleanup: Reply)
    requires w.redis.Holds(room, id) && !PastDue(w.redis.active[room].value, w.now)
    ensures var grant := w.redis.active[room].value;
      w.Renew(room, id, grant.sharer, databaseUp, publish, cleanup) == w.Extend(grant, databaseUp, publish)
  {
    ExpiredIs(w.redis.active[room].value, w.now);
  }

  lemma RenewOutcome(w: World, room: Room, id: Id, who: Identity, databaseUp: bool, publish: Reply, cleanup: Reply)
    requires Inv(w)
    ensures var (after, outcome) := w.Renew(room, id, who, databaseUp, publish, cleanup);
      RenewPromise(w, after, outcome, room, id, who, databaseUp, publish, cleanup)
  {
    HeldIs(w, room, id);
    if !Held(w, room, id) {
      VanishedOutcome(w, room, id, cleanup);
      return;
    }
    var grant := w.redis.active[room].value;
    assert w.RequireActive(room, id, cleanup) == (w, Some(grant));
    ExpiredIs(grant, w.now);
    if who != grant.sharer {
      return;
    }
    if PastDue(grant, w.now) {
      EndIsOver(w, room, Expired, RenewalTimeout, cleanup);
      return;
    }
    assert grant.room == room && InStatus(w.audit, id, Active) && grant.renewalDueAt <= Min(w.now + RENEWAL, grant.authorizationExpiresAt) by {
      assert GrantOk(w.now, w.audit, w.history.tokens, w.history.issued, room, w.redis.active[room]);
    }
    RenewIsExtend(w, room, id, databaseUp, publish, cleanup);
    if room !in w.redis.owner {
      ExtendWithoutLock(w, room, databaseUp, publish);
    } else if databaseUp && publish.Applied? {
      ExtendSucceeds(w, room, publish);
    } else {
      ExtendFailsCleanly(w, room, databaseUp, publish);
    }
  }

  /** A refused renewal of a live session that is not past due leaves the grant as it was if and only if the
      room's lock was there, or there was nothing to gain; without the lock the row stays behind. */
  lemma FailedRenewalExtendsIff(w: World, room: Room, id: Id, databaseUp: bool, publish: Reply, cleanup: Reply)
    requires Inv(w) && Held(w, room, id) && !PastDue(w.redis.active[room].value, w.now)
    requires w.Renew(room, id, w.redis.active[room].value.sharer, databaseUp, publish, cleanup).1.Err?
    ensures var grant := w.redis.active[room].value;
      var after := w.Renew(room, id, grant.sharer, databaseUp, publish, cleanup).0;
      && room in after.redis.active
      && (after.redis.active[room].value == grant <==>
            room in w.redis.owner || grant.renewalDueAt == Min(w.now + 30 * 60_000, grant.authorizationExpiresAt))
      && (room !in w.redis.owner ==>
            && after.audit == w.audit
            && after.redis.active[room].value.renewalDueAt == Min(w.now + 30 * 60_000, grant.authorizationExpiresAt))
  {
    RenewOutcome(w, room, id, w.redis.active[room].value.sharer, databaseUp, publish, cleanup);
  }

  // ---- Participants and rooms ----

  lemma JoinUnfolds(w: World, room: Room, publish: Reply, cleanup: Reply)
    requires room in w.redis.active && w.redis.active[room].value.room == room && !PastDue(w.redis.active[room].value, w.now)
    ensures var grant := w.redis.active[room].value;
      var connected := grant.(status := AgentActive, agentConnected := true);
      var updated := w.(redis := w.redis.UpdateActive(connected, w.now).0);
      var after := w.OnParticipantJoined(room, grant.agent, publish, cleanup);
      if room !in w.redis.owner then after == updated
      else if publish.Applied? then after == updated.Publish(room, Project(connected), publish)
      else after == updated.Publish(room, Project(connected), publish).EndGrant(connected, Failed, AgentMetadataFailed, cleanup)
  {
    ExpiredIs(w.redis.active[room].value, w.now);
  }

  lemma JoinedOutcome(w: World, room: Room, publish: Reply)
    requires room in w.redis.active && w.redis.active[room].value.room == room
    ensures var connected := w.redis.active[room].value.(status := AgentActive, agentConnected := true);
      var updated := w.(redis := w.redis.UpdateActive(connected, w.now).0);
      var shown := updated.Publish(room, Project(connected), publish);
      && Refreshed(w, updated, room, connected) && updated.audit == w.audit && updated.redis.bootstrap == w.redis.bootstrap
      && SameLog(w, updated) && Announced(w, shown, connected, publish)
      && updated.metadata == w.metadata && shown.redis == updated.redis && shown.audit == w.audit && SameClock(w, shown)
      && shown.metadata == if publish.Rejected? then w.metadata else Shown(w.metadata, connected)
  {
  }

  lemma FailedJoinOutcome(w: World, room: Room, publish: Reply, cleanup: Reply)
    requires Inv(w) && room in w.redis.active && room in w.redis.owner && !publish.Applied? && !PastDue(w.redis.active[room].value, w.now)
    ensures JoinPromise(w, w.OnParticipantJoined(room, w.redis.active[room].value.agent, publish, cleanup), room,
                        w.redis.active[room].value.agent, publish, cleanup)
  {
    var grant := w.redis.active[room].value;
    assert grant.room == room && InStatus(w.audit, grant.sessionId, Active) by {
      assert GrantOk(w.now, w.audit, w.history.tokens, w.history.issued, room, w.redis.active[room]);
    }
    CodesOfRoom(w, room);
    JoinUnfolds(w, room, publish, cleanup);
    JoinedOutcome(w, room, publish);
    var connected := grant.(status := AgentActive, agentConnected := true);
    var shown := w.(redis := w.redis.UpdateActive(connected, w.now).0).Publish(room, Project(connected), publish);
    EndUnfolds(shown, room, Failed, AgentMetadataFailed, cleanup);
    assert shown.redis.active - {room} == w.redis.active - {room};
    assert shown.redis.owner - {room} == w.redis.owner - {room};
  }

  lemma JoinOutcome(w: World, room: Room, who: Identity, publish: Reply, cleanup: Reply)
    requires Inv(w)
    ensures JoinPromise(w, w.OnParticipantJoined(room, who, publish, cleanup), room, who, publish, cleanup)
  {
    if room in w.redis.active {
      var grant := w.redis.active[room].value;
      HeldIs(w, room, grant.sessionId);
      ExpiredIs(grant, w.now);
      if who != grant.agent {
        return;
      }
      if PastDue(grant, w.now) {
        EndIsOver(w, room, Expired, RenewalTimeout, cleanup);
        assert w.OnParticipantJoined(room, who, publish, cleanup) == w.EndGrant(grant, Expired, RenewalTimeout, cleanup);
      } else if room in w.redis.owner && !publish.Applied? {
        FailedJoinOutcome(w, room, publish, cleanup);
      } else {
        JoinUnfolds(w, room, publish, cleanup);
        JoinedOutcome(w, room, publish);
      }
    }
  }

  lemma LeaveUnfolds(w: World, room: Room, who: Identity, cleanup: Reply)
    requires room in w.redis.active ==> w.redis.active[room].value.room == room
    requires room in w.redis.pending ==> w.redis.pending[room].value.room == room
    ensures var after := w.OnParticipantLeft(room, who, cleanup);
      if room in w.redis.active then
        var grant := w.redis.active[room].value;
        if who == grant.sharer then after == w.EndGrant(grant, Ended, SharerDisconnected, cleanup)
        else if who == grant.controller then after == w.EndGrant(grant, Ended, ControllerDisconnected, cleanup)
        else if who == grant.agent then after == w.EndGrant(grant, Ended, AgentDisconnected, cleanup)
        else after == w
      else LeavePromise(w, after, room, who, cleanup)
  {
  }

  lemma LeaveOutcome(w: World, room: Room, who: Identity, cleanup: Reply)
    requires Inv(w)
    ensures LeavePromise(w, w.OnParticipantLeft(room, who, cleanup), room, who, cleanup)
  {
    assert room in w.redis.pending ==> w.redis.pending[room].value.room == room by {
      assert room in w.redis.pending ==> PendingOk(w.audit, w.history.tokens, room, w.redis.pending[room].value);
    }
    if room in w.redis.active {
      var grant := w.redis.active[room].value;
      HeldIs(w, room, grant.sessionId);
      LeaveUnfolds(w, room, who, cleanup);
      if who == grant.sharer {
        EndIsOver(w, room, Ended, SharerDisconnected, cleanup);
      } else if who == grant.controller {
        EndIsOver(w, room, Ended, ControllerDisconnected, cleanup);
      } else if who == grant.agent {
        EndIsOver(w, room, Ended, AgentDisconnected, cleanup);
      }
    } else {
      LeaveUnfolds(w, room, who, cleanup);
    }
  }

  lemma FinishedUnfolds(w: World, room: Room, found: Option<Id>, cleanup: Reply)
    requires room in w.rooms && (room in w.redis.active ==> w.redis.active[room].value.room == room)
    requires found.Some? ==> InStatus(w.audit, found.value, Active)
    requires found.Some? && room !in w.redis.active ==> !w.redis.Holds(room, found.value)
    ensures var after := w.OnRoomFinished(room, found, cleanup);
      if room in w.redis.active then after == w.EndGrant(w.redis.active[room].value, Ended, RoomFinished, cleanup)
      else if found.Some? then
        && SameClock(w, after) && SameLog(w, after) && after.redis == w.redis && after.metadata == Hidden(w.metadata, room, cleanup)
        && after.audit == w.audit[found.value := ClosedAs(w.audit[found.value], Ended, RoomFinished, w.now)]
      else after == w
  {
  }

  lemma FinishedOutcome(w: World, room: Room, found: Option<Id>, cleanup: Reply)
    requires Inv(w) && w.ActiveRowOf(room, found)
    ensures FinishedPromise(w, w.OnRoomFinished(room, found, cleanup), room, found, cleanup)
  {
    if room !in w.rooms {
      return;
    }
    NoActiveRowIs(w.audit, room);
    if room in w.redis.active {
      var grant := w.redis.active[room].value;
      assert grant.room == room && InStatus(w.audit, grant.sessionId, Active) && w.audit[grant.sessionId].room == room by {
        assert GrantOk(w.now, w.audit, w.history.tokens, w.history.issued, room, w.redis.active[room]);
      }
      FinishedUnfolds(w, room, found, cleanup);
      EndIsOver(w, room, Ended, RoomFinished, cleanup);
      NoRowLeft(w.audit, room, grant.sessionId, w.now);
    } else {
      FinishedUnfolds(w, room, found, cleanup);
      if found.Some? {
        NoRowLeft(w.audit, room, found.value, w.now);
      }
    }
  }

  lemma NoRowLeft(audit: Audit, room: Room, id: Id, now: int)
    requires OneActivePerRoom(audit) && InStatus(audit, id, Active) && audit[id].room == room
    ensures NoActiveRow(audit[id := ClosedAs(audit[id], Ended, RoomFinished, now)], room)
  {
    var after := audit[id := ClosedAs(audit[id], Ended, RoomFinished, now)];
    forall i | i in after && after[i].room == room ensures after[i].status != Active {
      assert InStatus(after, i, Active) ==> InStatus(audit, i, Active);
    }
  }
}
