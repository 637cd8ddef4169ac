/** Every Remote Control service call keeps the invariant. */
module RemoteControlSteps {
  import opened Options
  import opened RemoteControlState
  import opened RemoteControlRepo
  import opened RemoteControlService
  import opened RemoteControlInvariants

  lemma AddRowKeeps(w: World, id: Id, row: Row)
    requires Inv(w) && id !in w.audit && row.status == Requested && row.createdAt == w.now
    ensures Keeps(w, w.(audit := w.audit[id := row]))
  {
    var audit := w.audit[id := row];
    assert Rows(w.now, w.history.tokens, audit);
    forall r | r in w.redis.active
      ensures GrantOk(w.now, audit, w.history.tokens, w.history.issued, r, w.redis.active[r])
    {
      assert GrantOk(w.now, w.audit, w.history.tokens, w.history.issued, r, w.redis.active[r]);
    }
    LaterReflexive(w);
  }

  lemma AddPendingKeeps(w: World, pending: Pending)
    requires Inv(w) && InStatus(w.audit, pending.requestId, Requested) && pending.requestId !in w.history.tokens
    requires pending.room !in w.redis.owner
    requires var row := w.audit[pending.requestId];
      row.room == pending.room && row.sharer == pending.sharer && row.controller == pending.controller
    ensures var tokens := w.history.tokens[pending.requestId := Tokens(pending.controllerTokenExpiresAt, None)];
      Keeps(w, w.(redis := w.redis.CreatePending(pending, w.now).0, history := w.history.(tokens := tokens)))
  {
    var id := pending.requestId;
    var tokens := w.history.tokens[id := Tokens(pending.controllerTokenExpiresAt, None)];
    TokensExtended(w, id, tokens);
    LaterReflexive(w);
  }

  /** Recording the token of an unanswered request disturbs nothing. */
  lemma TokensExtended(w: World, id: Id, tokens: map<Id, Tokens>)
    requires Inv(w) && InStatus(w.audit, id, Requested) && id !in w.history.tokens
    requires id in tokens && tokens == w.history.tokens[id := tokens[id]]
    ensures Grants(w.now, w.audit, tokens, w.history.issued, w.redis.active)
    ensures Pendings(w.audit, tokens, w.redis.pending)
    ensures Rows(w.now, tokens, w.audit)
    ensures Projections(w.audit, tokens, w.history.published)
    ensures TokensLater(w.history.tokens, tokens)
  {
    forall r | r in w.redis.active ensures GrantOk(w.now, w.audit, tokens, w.history.issued, r, w.redis.active[r]) {
      assert GrantOk(w.now, w.audit, w.history.tokens, w.history.issued, r, w.redis.active[r]);
    }
  }

  /** Redis holds the grant, the row becomes active and both tokens are known: one consistent start. */
  lemma BeginKeeps(w: World, grant: Grant, sharerToken: int)
    requires Inv(w) && grant.room !in w.redis.active && grant.room !in w.redis.pending
    requires InStatus(w.audit, grant.sessionId, Requested) && !HasActiveRow(w.audit, grant.room)
    requires var row := w.audit[grant.sessionId];
      row.room == grant.room && row.sharer == grant.sharer && row.controller == grant.controller
    requires grant.sessionId in w.history.tokens && grant.agent == AgentOf(grant.sessionId)
    requires grant.authorizationExpiresAt <= Min(w.history.tokens[grant.sessionId].controller, sharerToken)
    requires w.history.tokens[grant.sessionId].sharer.None? && grant.bootstrapDigest.None?
    requires grant.renewalDueAt <= Min(w.now + RENEWAL, grant.authorizationExpiresAt)
    ensures Keeps(w, Begun(w, grant, sharerToken))
  {
    var id, b := grant.sessionId, Begun(w, grant, sharerToken);
    assert b.audit == w.audit[id := b.audit[id]] && b.history.tokens == w.history.tokens[id := b.history.tokens[id]];
    BegunGrants(w.now, w.audit, w.history.tokens, w.history.issued, w.redis.active, grant, b.audit[id], b.history.tokens[id]);
    BegunRest(w, b, grant);
    LaterReflexive(w);
  }

  lemma BegunGrants(now: int, audit: Audit, tokens: map<Id, Tokens>, issued: set<Digest>,
                    active: map<Room, Entry<Grant>>, grant: Grant, row: Row, caps: Tokens)
    requires Grants(now, audit, tokens, issued, active) && grant.room !in active
    requires InStatus(audit, grant.sessionId, Requested)
    requires row.status == Active && RowOf(row, grant) && row.renewalDueAt.value == grant.renewalDueAt
    requires caps.sharer.Some? && grant.authorizationExpiresAt <= Min(caps.controller, caps.sharer.value)
    requires grant.agent == AgentOf(grant.sessionId) && grant.bootstrapDigest.None?
    requires grant.renewalDueAt <= Min(now + RENEWAL, grant.authorizationExpiresAt)
    ensures var after := active[grant.room := Entry(grant, now + ACTIVE_STORAGE_TTL)];
      && Grants(now, audit[grant.sessionId := row], tokens[grant.sessionId := caps], issued, after)
      && NotRevived(audit, active, after)
      && GrantsLater(now, audit[grant.sessionId := row], active, after)
  {
    forall r | r in active
      ensures GrantOk(now, audit[grant.sessionId := row], tokens[grant.sessionId := caps], issued, r, active[r])
    {
      assert GrantOk(now, audit, tokens, issued, r, active[r]);
    }
  }

  function Begun(w: World, grant: Grant, sharerToken: int): World {
    w.(redis := w.redis.(active := w.redis.active[grant.room := Entry(grant, w.now + ACTIVE_STORAGE_TTL)],
                         owner := w.redis.owner[grant.room := Entry(grant.sessionId, w.now + ACTIVE_STORAGE_TTL)]),
       audit := ActivateRow(w.audit, grant.sessionId, grant.agent, w.now, grant.renewalDueAt).0)
     .GrantTokens(grant.sessionId, sharerToken)
  }

  lemma BegunRest(w: World, b: World, grant: Grant)
    requires Inv(w) && grant.room !in w.redis.active && grant.room !in w.redis.pending
    requires InStatus(w.audit, grant.sessionId, Requested) && !HasActiveRow(w.audit, grant.room)
    requires w.audit[grant.sessionId].room == grant.room
    requires grant.sessionId in w.history.tokens && w.history.tokens[grant.sessionId].sharer.None?
    requires b.now == w.now && b.history.published == w.history.published && b.history.redeemed == w.history.redeemed
    requires b.redis.active == w.redis.active[grant.room := Entry(grant, w.now + ACTIVE_STORAGE_TTL)]
    requires b.redis.pending == w.redis.pending && b.redis.bootstrap == w.redis.bootstrap
    requires grant.sessionId in b.audit && b.audit == w.audit[grant.sessionId := b.audit[grant.sessionId]]
    requires b.audit[grant.sessionId].status == Active && b.audit[grant.sessionId].renewalDueAt.Some?
    requires RowLater(w.audit[grant.sessionId], b.audit[grant.sessionId])
    requires grant.sessionId in b.history.tokens
    requires b.history.tokens == w.history.tokens[grant.sessionId := b.history.tokens[grant.sessionId]]
    requires b.history.tokens[grant.sessionId].sharer.Some?
    ensures Pendings(b.audit, b.history.tokens, b.redis.pending)
    ensures Codes(b.redis.active, w.history.issued, b.redis.bootstrap)
    ensures Rows(b.now, b.history.tokens, b.audit) && OneActivePerRoom(b.audit)
    ensures Projections(b.audit, b.history.tokens, b.history.published)
    ensures Snapshots(b.audit, b.redis.active, b.history.redeemed)
  {
    assert Pendings(b.audit, b.history.tokens, b.redis.pending) by {
      forall room | room in w.redis.pending
        ensures PendingOk(b.audit, b.history.tokens, room, w.redis.pending[room].value)
      {
        assert PendingOk(w.audit, w.history.tokens, room, w.redis.pending[room].value);
      }
    }
    assert OneActivePerRoom(b.audit) by {
      forall i, j | InStatus(b.audit, i, Active) && InStatus(b.audit, j, Active) && b.audit[i].room == b.audit[j].room
        ensures i == j
      {
        assert i != grant.sessionId ==> InStatus(w.audit, i, Active);
        assert j != grant.sessionId ==> InStatus(w.audit, j, Active);
      }
    }
    assert Projections(b.audit, b.history.tokens, b.history.published) by {
      forall p | p in b.history.published ensures PublishedOk(b.audit, b.history.tokens, p) {
        assert PublishedOk(w.audit, w.history.tokens, p);
      }
    }
    assert Snapshots(b.audit, b.redis.active, b.history.redeemed) by {
      forall s | s in b.history.redeemed ensures RedeemedOk(b.audit, b.redis.active, s) {
        assert RedeemedOk(w.audit, w.redis.active, s);
      }
    }
    assert Codes(b.redis.active, w.history.issued, b.redis.bootstrap) by {
      forall d | d in w.redis.bootstrap ensures CodeOk(b.redis.active, w.history.issued, d, w.redis.bootstrap[d]) {
        assert CodeOk(w.redis.active, w.history.issued, d, w.redis.bootstrap[d]);
      }
    }
  }

  lemma RequestKeeps(w: World, room: Room, controller: Identity, token: Option<int>, sharer: Identity, version: int,
                     view: CallView, id: Id, storeUp: bool)
    requires Inv(w) && id !in w.audit
    ensures Keeps(w, w.RequestControl(room, controller, token, sharer, version, view, id, storeUp).0)
  {
    var after := w.RequestControl(room, controller, token, sharer, version, view, id, storeUp).0;
    if after == w {
      LaterReflexive(w);
      return;
    }
    var row := NewRequest(room, sharer, controller, w.now);
    var recorded := w.(audit := w.audit[id := row]);
    AddRowKeeps(w, id, row);
    if storeUp {
      AddPendingKeeps(recorded, Pending(id, room, sharer, controller, w.now, w.now + REQUEST_TTL, TokenExpiry(token, w.now)));
    } else {
      CloseKeeps(recorded, id, Failed, RedisUnavailable);
    }
    Chain(w, recorded, after);
  }

  lemma ExpirePendingKeeps(w: World, room: Room, id: Id)
    requires Inv(w)
    ensures Keeps(w, w.ExpirePending(room, id))
  {
    ReleaseKeeps(w, room, id);
    var released := w.ReleasePending(room, id);
    CloseKeeps(released, id, Expired, RequestTimeout);
    Chain(w, released, released.CloseRequest(id, Expired, RequestTimeout));
  }

  lemma RequirePendingKeeps(w: World, room: Room, id: Id)
    requires Inv(w)
    ensures Keeps(w, w.RequirePending(room, id).0)
  {
    LaterReflexive(w);
    ExpirePendingKeeps(w, room, id);
  }

  lemma CloseAndReleaseKeeps(w: World, room: Room, id: Id, status: Status, reason: Reason)
    requires Inv(w) && Terminal(status)
    ensures Keeps(w, w.CloseRequest(id, status, reason).ReleasePending(room, id))
  {
    CloseKeeps(w, id, status, reason);
    var closed := w.CloseRequest(id, status, reason);
    ReleaseKeeps(closed, room, id);
    Chain(w, closed, closed.ReleasePending(room, id));
  }

  lemma ResolveKeeps(w: World, room: Room, id: Id, status: Status, reason: Reason)
    requires Inv(w) && Terminal(status)
    ensures Keeps(w, w.Resolve(room, id, status, reason).0)
  {
    ConsumePendingKeeps(w, room, id);
    var holding := w.(redis := w.redis.ConsumePending(room, id).0);
    CloseAndReleaseKeeps(holding, room, id, status, reason);
    Chain(w, holding, holding.CloseRequest(id, status, reason).ReleasePending(room, id));
  }

  lemma DenyKeeps(w: World, room: Room, id: Id, who: Identity)
    requires Inv(w)
    ensures Keeps(w, w.Deny(room, id, who).0)
  {
    RequirePendingKeeps(w, room, id);
    ResolveKeeps(w, room, id, Denied, SharerDenied);
  }

  lemma WithdrawKeeps(w: World, room: Room, id: Id, who: Identity)
    requires Inv(w)
    ensures Keeps(w, w.Withdraw(room, id, who).0)
  {
    RequirePendingKeeps(w, room, id);
    ResolveKeeps(w, room, id, Withdrawn, ControllerWithdrew);
  }

  /** Unwinding a grant whose row never became active only gives the room back. */
  lemma UnwindKeeps(w: World, grant: Grant, cleanup: Reply)
    requires Inv(w) && grant.room !in w.redis.active && grant.bootstrapDigest.None?
    requires grant.room in w.redis.owner && w.redis.owner[grant.room].value == grant.sessionId
    requires !InStatus(w.audit, grant.sessionId, Active)
    ensures var locked := w.(redis := w.redis.Activate(grant, w.now).0);
      && Keeps(w, locked.EndGrant(grant, Failed, StartupFailed, cleanup))
      && Keeps(w, locked.(redis := locked.redis.ClearActive(grant.room, grant.sessionId).0)
                        .EndGrant(grant, Failed, StartupFailed, cleanup))
  {
    var released := w.(redis := w.redis.(owner := w.redis.owner - {grant.room}));
    UnwindIs(w, grant, cleanup);
    assert Keeps(w, released) by { LaterReflexive(w); }
    UnpublishKeeps(released, grant.room, cleanup);
    Chain(w, released, released.Unpublish(grant.room, cleanup));
  }

  lemma UnwindIs(w: World, grant: Grant, cleanup: Reply)
    requires grant.room !in w.redis.active && grant.bootstrapDigest.None?
    requires grant.room in w.redis.owner && w.redis.owner[grant.room].value == grant.sessionId
    requires !InStatus(w.audit, grant.sessionId, Active)
    ensures var locked := w.(redis := w.redis.Activate(grant, w.now).0);
      var released := w.(redis := w.redis.(owner := w.redis.owner - {grant.room}));
      && locked.EndGrant(grant, Failed, StartupFailed, cleanup) == released.Unpublish(grant.room, cleanup)
      && locked.(redis := locked.redis.ClearActive(grant.room, grant.sessionId).0)
               .EndGrant(grant, Failed, StartupFailed, cleanup) == released.Unpublish(grant.room, cleanup)
  {
    var locked := w.redis.Activate(grant, w.now).0;
    assert locked.active - {grant.room} == w.redis.active;
    assert locked.owner - {grant.room} == w.redis.owner - {grant.room};
  }

  lemma BegunFinishKeeps(w: World, grant: Grant, sharerToken: int, digest: Digest, publish: Reply, cleanup: Reply)
    requires Inv(w) && grant.room !in w.redis.active && grant.room !in w.redis.pending
    requires grant.room in w.redis.owner && w.redis.owner[grant.room].value == grant.sessionId
    requires grant.sessionId in w.audit && w.audit[grant.sessionId].status != Active
    requires var row := w.audit[grant.sessionId];
      row.room == grant.room && row.sharer == grant.sharer && row.controller == grant.controller
    requires grant.sessionId in w.history.tokens && grant.agent == AgentOf(grant.sessionId)
    requires grant.authorizationExpiresAt <= Min(w.history.tokens[grant.sessionId].controller, sharerToken)
    requires w.history.tokens[grant.sessionId].sharer.None? && grant.bootstrapDigest.None?
    requires grant.renewalDueAt <= Min(w.now + RENEWAL, grant.authorizationExpiresAt)
    requires digest !in w.history.issued
    requires InStatus(w.audit, grant.sessionId, Requested) && !HasActiveRow(w.audit, grant.room)
    ensures Keeps(w, Begun(w, grant, sharerToken).Finish(grant, digest, publish, cleanup).0)
  {
    BeginKeeps(w, grant, sharerToken);
    var begun := Begun(w, grant, sharerToken);
    FinishKeeps(begun, grant.room, digest, publish, cleanup);
    Chain(w, begun, begun.Finish(grant, digest, publish, cleanup).0);
  }

  lemma StartKeeps(w: World, grant: Grant, sharerToken: int, digest: Digest, databaseUp: bool, publish: Reply, cleanup: Reply)
    requires Inv(w) && grant.room !in w.redis.active && grant.room !in w.redis.pending
    requires grant.room in w.redis.owner && w.redis.owner[grant.room].value == grant.sessionId
    requires grant.sessionId in w.audit && w.audit[grant.sessionId].status != Active
    requires var row := w.audit[grant.sessionId];
      row.room == grant.room && row.sharer == grant.sharer && row.controller == grant.controller
    requires grant.sessionId in w.history.tokens && grant.agent == AgentOf(grant.sessionId)
    requires grant.authorizationExpiresAt <= Min(w.history.tokens[grant.sessionId].controller, sharerToken)
    requires w.history.tokens[grant.sessionId].sharer.None? && grant.bootstrapDigest.None?
    requires grant.renewalDueAt <= Min(w.now + RENEWAL, grant.authorizationExpiresAt)
    requires digest !in w.history.issued
    ensures var locked := w.(redis := w.redis.Activate(grant, w.now).0);
      Keeps(w, locked.Start(grant, sharerToken, digest, databaseUp, publish, cleanup).0)
  {
    StartUnfolds(w, grant, sharerToken, digest, databaseUp, publish, cleanup);
    if databaseUp && InStatus(w.audit, grant.sessionId, Requested) && !HasActiveRow(w.audit, grant.room) {
      BegunFinishKeeps(w, grant, sharerToken, digest, publish, cleanup);
    } else {
      UnwindKeeps(w, grant, cleanup);
    }
  }

  lemma FinishKeeps(w: World, room: Room, digest: Digest, publish: Reply, cleanup: Reply)
    requires Inv(w) && room in w.redis.active && room in w.redis.owner && digest !in w.history.issued
    ensures Keeps(w, w.Finish(w.redis.active[room].value, digest, publish, cleanup).0)
  {
    var grant := w.redis.active[room].value;
    assert GrantOk(w.now, w.audit, w.history.tokens, w.history.issued, room, w.redis.active[room]);
    var shown := w.Publish(room, Project(grant), publish);
    PublishKeeps(w, room, Project(grant), publish);
    if publish.Applied? {
      IssueSucceeds(shown.redis, room, digest, w.now);
      IssueKeeps(shown, room, digest);
    } else {
      EndGrantKeeps(shown, room, Failed, StartupFailed, cleanup);
    }
    Chain(w, shown, w.Finish(grant, digest, publish, cleanup).0);
  }

  lemma IssueSucceeds(redis: Redis, room: Room, digest: Digest, now: int)
    requires room in redis.active && redis.active[room].value.room == room && room in redis.owner
    ensures redis.IssueBootstrap(redis.active[room].value, digest, now).1
  {
  }

  lemma StartUnfolds(w: World, grant: Grant, sharerToken: int, digest: Digest, databaseUp: bool, publish: Reply, cleanup: Reply)
    requires grant.room !in w.redis.active && grant.sessionId in w.audit && w.audit[grant.sessionId].room == grant.room
    requires grant.room in w.redis.owner && w.redis.owner[grant.room].value == grant.sessionId
    ensures var locked := w.(redis := w.redis.Activate(grant, w.now).0);
      var (after, outcome) := locked.Start(grant, sharerToken, digest, databaseUp, publish, cleanup);
      if databaseUp && InStatus(w.audit, grant.sessionId, Requested) && !HasActiveRow(w.audit, grant.room) then
        (after, outcome) == Begun(w, grant, sharerToken).Finish(grant, digest, publish, cleanup)
      else
        && outcome.Err?
        && (|| after == locked.EndGrant(grant, Failed, StartupFailed, cleanup)
            || after == locked.(redis := locked.redis.ClearActive(grant.room, grant.sessionId).0)
                              .EndGrant(grant, Failed, StartupFailed, cleanup))
  {
    var locked := w.(redis := w.redis.Activate(grant, w.now).0);
    var rows := ActivateRow(w.audit, grant.sessionId, grant.agent, w.now, grant.renewalDueAt).0;
    assert locked.(audit := rows).GrantTokens(grant.sessionId, sharerToken) == Begun(w, grant, sharerToken);
  }

  lemma TakeAndStartKeeps(w: World, room: Room, id: Id, sharerToken: int, digest: Digest, databaseUp: bool,
                          publish: Reply, cleanup: Reply)
    requires Inv(w) && digest !in w.history.issued
    ensures Keeps(w, w.TakeAndStart(room, id, sharerToken, digest, databaseUp, publish, cleanup).0)
  {
    ConsumePendingKeeps(w, room, id);
    var (taken, consumed) := w.redis.ConsumePending(room, id);
    var holding := w.(redis := taken);
    if consumed.None? {
      return;
    }
    var grant := NewGrant(consumed.value, sharerToken, w.now);
    var after := w.TakeAndStart(room, id, sharerToken, digest, databaseUp, publish, cleanup).0;
    assert PendingOk(w.audit, w.history.tokens, room, consumed.value);
    assert grant.room == room && grant.sessionId == id && room in taken.owner && taken.owner[room].value == id;
    if grant.authorizationExpiresAt <= w.now {
      CloseAndReleaseKeeps(holding, room, id, Failed, ParticipantAuthorizationExpired);
    } else if room in taken.active {
      CloseAndReleaseKeeps(holding, room, id, Failed, RoomInProgress);
    } else {
      StartKeeps(holding, grant, sharerToken, digest, databaseUp, publish, cleanup);
    }
    Chain(w, holding, after);
  }

  lemma ApproveKeeps(w: World, room: Room, id: Id, who: Identity, token: Option<int>, version: int, view: CallView,
                     digest: Digest, databaseUp: bool, publish: Reply, cleanup: Reply)
    requires Inv(w) && digest !in w.history.issued
    ensures Keeps(w, w.Approve(room, id, who, token, version, view, digest, databaseUp, publish, cleanup).0)
  {
    LaterReflexive(w);
    RequirePendingKeeps(w, room, id);
    TakeAndStartKeeps(w, room, id, TokenExpiry(token, w.now), digest, databaseUp, publish, cleanup);
  }

  lemma RequireActiveKeeps(w: World, room: Room, id: Id, cleanup: Reply)
    requires Inv(w)
    ensures Keeps(w, w.RequireActive(room, id, cleanup).0)
    ensures var held := w.RequireActive(room, id, cleanup).1;
      held.Some? ==> w.RequireActive(room, id, cleanup).0 == w && room in w.redis.active && held.value == w.redis.active[room].value
  {
    LaterReflexive(w);
    if !w.redis.Holds(room, id) && InStatus(w.audit, id, Active) && w.audit[id].room == room {
      FallbackKeeps(w, id, room, Failed, GrantMissing, cleanup);
    }
  }

  lemma RedeemHelperTokenKeeps(w: World, room: Room, id: Id, digest: Digest, version: int, minted: bool, cleanup: Reply)
    requires Inv(w)
    ensures Keeps(w, w.RedeemHelperToken(room, id, digest, version, minted, cleanup).0)
  {
    LaterReflexive(w);
    ConsumeBootstrapKeeps(w, room, id, digest);
    var holding := w.(redis := w.redis.ConsumeBootstrap(room, id, digest).0);
    var after := w.RedeemHelperToken(room, id, digest, version, minted, cleanup).0;
    if after == w || after == holding {
      return;
    }
    if GrantExpired(holding.redis.active[room].value, w.now) {
      EndGrantKeeps(holding, room, Expired, RenewalTimeout, cleanup);
    } else if !minted {
      EndGrantKeeps(holding, room, Failed, HelperTokenFailed, cleanup);
    } else {
      RedeemKeeps(holding, room);
    }
    Chain(w, holding, after);
  }

  lemma ReissueUnfolds(w: World, room: Room, id: Id, who: Identity, digest: Digest, cleanup: Reply)
    ensures w.ReissueBootstrap(room, id, who, digest, cleanup).0
         == if !w.redis.Holds(room, id) then w.RequireActive(room, id, cleanup).0
            else
              var grant := w.redis.active[room].value;
              if who != grant.sharer then w
              else if GrantExpired(grant, w.now) then w.EndGrant(grant, Expired, RenewalTimeout, cleanup)
              else if grant.agentConnected then w
              else w.IssueBootstrap(grant, digest).0
  {
  }

  lemma ReissueKeeps(w: World, room: Room, id: Id, who: Identity, digest: Digest, cleanup: Reply)
    requires Inv(w) && digest !in w.history.issued
    ensures Keeps(w, w.ReissueBootstrap(room, id, who, digest, cleanup).0)
  {
    ReissueUnfolds(w, room, id, who, digest, cleanup);
    if !w.redis.Holds(room, id) {
      RequireActiveKeeps(w, room, id, cleanup);
    } else if who != w.redis.active[room].value.sharer {
      LaterReflexive(w);
    } else if GrantExpired(w.redis.active[room].value, w.now) {
      EndGrantKeeps(w, room, Expired, RenewalTimeout, cleanup);
    } else if w.redis.active[room].value.agentConnected {
      LaterReflexive(w);
    } else {
      IssueKeeps(w, room, digest);
    }
  }

  lemma StopUnfolds(w: World, room: Room, id: Id, who: Identity, cleanup: Reply)
    ensures w.Stop(room, id, who, cleanup).0
         == if !w.redis.Holds(room, id) then w.RequireActive(room, id, cleanup).0
            else
              var grant := w.redis.active[room].value;
              if who != grant.sharer && who != grant.controller then w
              else if GrantExpired(grant, w.now) then w.EndGrant(grant, Expired, RenewalTimeout, cleanup)
              else w.EndGrant(grant, Ended, if who == grant.sharer then SharerStopped else ControllerStopped, cleanup)
  {
  }

  lemma StopKeeps(w: World, room: Room, id: Id, who: Identity, cleanup: Reply)
    requires Inv(w)
    ensures Keeps(w, w.Stop(room, id, who, cleanup).0)
  {
    StopUnfolds(w, room, id, who, cleanup);
    if !w.redis.Holds(room, id) {
      RequireActiveKeeps(w, room, id, cleanup);
    } else if who != w.redis.active[room].value.sharer && who != w.redis.active[room].value.controller {
      LaterReflexive(w);
    } else if GrantExpired(w.redis.active[room].value, w.now) {
      EndGrantKeeps(w, room, Expired, RenewalTimeout, cleanup);
    } else {
      EndGrantKeeps(w, room, Ended, if who == w.redis.active[room].value.sharer then SharerStopped else ControllerStopped,
                    cleanup);
    }
  }

  lemma JoinedKeeps(w: World, room: Room, identity: Identity, publish: Reply, cleanup: Reply)
    requires Inv(w)
    ensures Keeps(w, w.OnParticipantJoined(room, identity, publish, cleanup))
  {
    var after := w.OnParticipantJoined(room, identity, publish, cleanup);
    if after == w {
      LaterReflexive(w);
      return;
    }
    assert GrantOk(w.now, w.audit, w.history.tokens, w.history.issued, room, w.redis.active[room]);
    var grant := w.redis.active[room].value;
    if GrantExpired(grant, w.now) {
      EndGrantKeeps(w, room, Expired, RenewalTimeout, cleanup);
      return;
    }
    var connected := grant.(status := AgentActive, agentConnected := true);
    var updated := w.(redis := w.redis.UpdateActive(connected, w.now).0);
    UpdateKeeps(w, room, connected);
    if !w.redis.UpdateActive(connected, w.now).1 {
      return;
    }
    var shown := updated.Publish(room, Project(connected), publish);
    PublishKeeps(updated, room, Project(connected), publish);
    Chain(w, updated, shown);
    if !publish.Applied? {
      EndGrantKeeps(shown, room, Failed, AgentMetadataFailed, cleanup);
      Chain(w, shown, after);
    }
  }

  lemma LeftKeeps(w: World, room: Room, identity: Identity, cleanup: Reply)
    requires Inv(w)
    ensures Keeps(w, w.OnParticipantLeft(room, identity, cleanup))
  {
    var after := w.OnParticipantLeft(room, identity, cleanup);
    if after == w {
      LaterReflexive(w);
    } else if w.redis.GetActive(room).Some? {
      var grant := w.redis.active[room].value;
      EndGrantKeeps(w, room, Ended, if identity == grant.sharer then SharerDisconnected
                                    else if identity == grant.controller then ControllerDisconnected
                                    else AgentDisconnected, cleanup);
    } else {
      var id := w.redis.pending[room].value.requestId;
      ReleaseKeeps(w, room, id);
      CloseKeeps(w.ReleasePending(room, id), id, Failed, ParticipantDisconnected);
      Chain(w, w.ReleasePending(room, id), after);
    }
  }

  lemma FinishedKeeps(w: World, room: Room, found: Option<Id>, cleanup: Reply)
    requires Inv(w) && w.ActiveRowOf(room, found)
    ensures Keeps(w, w.OnRoomFinished(room, found, cleanup))
  {
    LaterReflexive(w);
    if w.redis.GetActive(room).Some? {
      EndGrantKeeps(w, room, Ended, RoomFinished, cleanup);
    } else if found.Some? {
      FallbackKeeps(w, found.value, room, Ended, RoomFinished, cleanup);
    }
  }

  lemma RenewKeeps(w: World, room: Room, id: Id, who: Identity, databaseUp: bool, publish: Reply, cleanup: Reply)
    requires Inv(w)
    ensures Keeps(w, w.Renew(room, id, who, databaseUp, publish, cleanup).0)
  {
    if !w.redis.Holds(room, id) || who != w.redis.active[room].value.sharer {
      RequireActiveKeeps(w, room, id, cleanup);
      return;
    }
    assert w.RequireActive(room, id, cleanup) == (w, Some(w.redis.active[room].value));
    if GrantExpired(w.redis.active[room].value, w.now) {
      EndGrantKeeps(w, room, Expired, RenewalTimeout, cleanup);
    } else {
      ExtendKeeps(w, room, databaseUp, publish);
    }
  }

  lemma ExtendKeeps(w: World, room: Room, databaseUp: bool, publish: Reply)
    requires Inv(w) && room in w.redis.active
    ensures Keeps(w, w.Extend(w.redis.active[room].value, databaseUp, publish).0)
  {
    var grant := w.redis.active[room].value;
    var renewed := grant.(renewalDueAt := Min(w.now + RENEWAL, grant.authorizationExpiresAt));
    assert grant.room == room && grant.renewalDueAt <= Min(w.now + RENEWAL, grant.authorizationExpiresAt)
        && InStatus(w.audit, grant.sessionId, Active) by {
      assert GrantOk(w.now, w.audit, w.history.tokens, w.history.issued, room, w.redis.active[room]);
    }
    ExtendUnfolds(w, room, databaseUp, publish);
    if room !in w.redis.owner {
      UpdateKeeps(w, room, renewed);
    } else if databaseUp && publish.Applied? {
      RenewedKeeps(w, room, renewed, publish);
    } else {
      ExtendFails(w, room, databaseUp, publish);
      RolledBackKeeps(w, room, renewed, databaseUp, publish);
    }
  }

  lemma ExtendUnfolds(w: World, room: Room, databaseUp: bool, publish: Reply)
    requires room in w.redis.active && w.redis.active[room].value.room == room
    requires InStatus(w.audit, w.redis.active[room].value.sessionId, Active)
    ensures var grant := w.redis.active[room].value;
      var renewed := grant.(renewalDueAt := Min(w.now + RENEWAL, grant.authorizationExpiresAt));
      var extended := w.(redis := w.redis.UpdateActive(renewed, w.now).0);
      && (room !in w.redis.owner ==> w.Extend(grant, databaseUp, publish).0 == extended)
      && (room in w.redis.owner && databaseUp && publish.Applied? ==>
            w.Extend(grant, databaseUp, publish).0
              == extended.(audit := UpdateRenewal(w.audit, grant.sessionId, renewed.renewalDueAt))
                         .Publish(room, Project(renewed), publish))
  {
  }

  lemma RenewedKeeps(w: World, room: Room, renewed: Grant, publish: Reply)
    requires Inv(w) && room in w.redis.active && room in w.redis.owner
    requires renewed == w.redis.active[room].value.(renewalDueAt := renewed.renewalDueAt)
    requires w.redis.active[room].value.renewalDueAt <= renewed.renewalDueAt <= Min(w.now + RENEWAL, renewed.authorizationExpiresAt)
    ensures var saved := w.(redis := w.redis.UpdateActive(renewed, w.now).0,
                            audit := UpdateRenewal(w.audit, renewed.sessionId, renewed.renewalDueAt));
      Keeps(w, saved.Publish(room, Project(renewed), publish))
  {
    assert w.redis.active[room].value.room == room by {
      assert GrantOk(w.now, w.audit, w.history.tokens, w.history.issued, room, w.redis.active[room]);
    }
    var extended := w.(redis := w.redis.UpdateActive(renewed, w.now).0);
    UpdateKeeps(w, room, renewed);
    RenewalRowKeeps(extended, room, renewed.renewalDueAt);
    var saved := extended.(audit := UpdateRenewal(w.audit, renewed.sessionId, renewed.renewalDueAt));
    Chain(w, extended, saved);
    PublishKeeps(saved, room, Project(renewed), publish);
    Chain(w, saved, saved.Publish(room, Project(renewed), publish));
  }

  /** A rolled-back renewal leaves the old grant, refreshed, and at most one more projection. */
  function RolledBack(w: World, grant: Grant, renewed: Grant, databaseUp: bool, publish: Reply): World {
    if databaseUp then
      var back := w.Publish(grant.room, Project(renewed), publish).RollBack(grant);
      back.(audit := UpdateRenewal(back.audit, grant.sessionId, grant.renewalDueAt))
    else w.RollBack(grant)
  }

  lemma ExtendFails(w: World, room: Room, databaseUp: bool, publish: Reply)
    requires room in w.redis.active && room in w.redis.owner && w.redis.active[room].value.room == room
    requires InStatus(w.audit, w.redis.active[room].value.sessionId, Active) && !(databaseUp && publish.Applied?)
    ensures var grant := w.redis.active[room].value;
      var renewed := grant.(renewalDueAt := Min(w.now + RENEWAL, grant.authorizationExpiresAt));
      w.Extend(grant, databaseUp, publish).0 == RolledBack(w, grant, renewed, databaseUp, publish)
  {
    var grant := w.redis.active[room].value;
    var renewed := grant.(renewalDueAt := Min(w.now + RENEWAL, grant.authorizationExpiresAt));
    var twice := w.redis.UpdateActive(renewed, w.now).0.UpdateActive(grant, w.now).0;
    assert twice.active == w.redis.active[room := Entry(grant, w.now + ACTIVE_STORAGE_TTL)];
    assert twice.owner == w.redis.owner[room := Entry(grant.sessionId, w.now + ACTIVE_STORAGE_TTL)];
    assert twice == w.redis.UpdateActive(grant, w.now).0;
    var id := grant.sessionId;
    assert UpdateRenewal(UpdateRenewal(w.audit, id, renewed.renewalDueAt), id, grant.renewalDueAt)
        == UpdateRenewal(w.audit, id, grant.renewalDueAt);
  }

  lemma RolledBackKeeps(w: World, room: Room, renewed: Grant, databaseUp: bool, publish: Reply)
    requires Inv(w) && room in w.redis.active
    requires var grant := w.redis.active[room].value;
      && renewed == grant.(renewalDueAt := renewed.renewalDueAt)
      && grant.renewalDueAt <= renewed.renewalDueAt <= grant.authorizationExpiresAt
    ensures Keeps(w, RolledBack(w, w.redis.active[room].value, renewed, databaseUp, publish))
  {
    var grant := w.redis.active[room].value;
    assert GrantOk(w.now, w.audit, w.history.tokens, w.history.issued, room, w.redis.active[room]);
    if !databaseUp {
      UpdateKeeps(w, room, grant);
      return;
    }
    var shown := w.Publish(room, Project(renewed), publish);
    PublishKeeps(w, room, Project(renewed), publish);
    PutBackKeeps(shown, room);
    Chain(w, shown, RolledBack(w, grant, renewed, databaseUp, publish));
  }

  lemma PutBackKeeps(w: World, room: Room)
    requires Inv(w) && room in w.redis.active
    ensures var grant := w.redis.active[room].value;
      Keeps(w, w.RollBack(grant).(audit := UpdateRenewal(w.audit, grant.sessionId, grant.renewalDueAt)))
  {
    var grant := w.redis.active[room].value;
    assert GrantOk(w.now, w.audit, w.history.tokens, w.history.issued, room, w.redis.active[room]);
    var back := w.RollBack(grant);
    UpdateKeeps(w, room, grant);
    RenewalRowKeeps(back, room, grant.renewalDueAt);
    Chain(w, back, back.(audit := UpdateRenewal(w.audit, grant.sessionId, grant.renewalDueAt)));
  }
}
