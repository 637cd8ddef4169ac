/** What every Remote Control step keeps (`Inv`) and how a later state may differ from an earlier
    one (`Later`), with one preservation lemma per building block of the service.

    Each conjunct is a predicate on just the parts of the world it speaks about, so a step that leaves
    those parts alone keeps it for free. */
module RemoteControlInvariants {
  import opened Options
  import opened RemoteControlState
  import opened RemoteControlRepo
  import opened RemoteControlService

  /** A stored grant agrees with its active row, its deadlines are ordered, and Redis keeps it for at
      least the storage grace after the consent deadline. */
  ghost predicate GrantOk(now: int, audit: Audit, tokens: map<Id, Tokens>, issued: set<Digest>,
                          room: Room, entry: Entry<Grant>) {
    var grant := entry.value;
    && grant.room == room
    && grant.agent == AgentOf(grant.sessionId)
    && InStatus(audit, grant.sessionId, Active)
    && RowOf(audit[grant.sessionId], grant)
    && audit[grant.sessionId].renewalDueAt.value <= grant.renewalDueAt <= grant.authorizationExpiresAt
    && grant.renewalDueAt <= now + RENEWAL
    && grant.renewalDueAt + STORAGE_GRACE <= entry.expiresAt <= now + ACTIVE_STORAGE_TTL
    && Capped(tokens, grant.sessionId, grant.authorizationExpiresAt)
    && (grant.bootstrapDigest.Some? ==> grant.bootstrapDigest.value in issued)
  }

  ghost predicate RowOf(row: Row, grant: Grant) {
    && row.renewalDueAt.Some?
    && row.room == grant.room && row.sharer == grant.sharer && row.controller == grant.controller
  }

  /** `time` is no later than the expiry of either human's token. */
  ghost predicate Capped(tokens: map<Id, Tokens>, id: Id, time: int) {
    id in tokens && tokens[id].sharer.Some? && time <= tokens[id].controller && time <= tokens[id].sharer.value
  }

  ghost predicate PendingOk(audit: Audit, tokens: map<Id, Tokens>, room: Room, pending: Pending) {
    && pending.room == room
    && pending.requestId in audit
    && audit[pending.requestId].room == room
    && audit[pending.requestId].sharer == pending.sharer
    && audit[pending.requestId].controller == pending.controller
    && audit[pending.requestId].status != Active
    && pending.requestId in tokens
    && tokens[pending.requestId] == Tokens(pending.controllerTokenExpiresAt, None)
  }

  /** A redeemable code belongs to the room's grant, is that grant's current code, and dies first. */
  ghost predicate CodeOk(active: map<Room, Entry<Grant>>, issued: set<Digest>,
                         digest: Digest, entry: Entry<Bootstrap>) {
    var code := entry.value;
    && code.digest == digest
    && digest in issued
    && code.room in active
    && active[code.room].value.sessionId == code.sessionId
    && active[code.room].value.bootstrapDigest == Some(digest)
    && entry.expiresAt <= active[code.room].expiresAt
  }

  ghost predicate RowOk(now: int, tokens: map<Id, Tokens>, id: Id, row: Row) {
    && row.createdAt <= now
    && (row.status == Active ==> row.renewalDueAt.Some? && id in tokens && tokens[id].sharer.Some?)
  }

  /** A published projection never promises time beyond either token, and its row was activated. */
  ghost predicate PublishedOk(audit: Audit, tokens: map<Id, Tokens>, p: Projection) {
    p.sessionId in audit && audit[p.sessionId].status != Requested && Capped(tokens, p.sessionId, p.renewalDueAt)
  }

  /** The grant a redeemed snapshot came from, while it lives, has not been shortened. */
  ghost predicate RedeemedOk(audit: Audit, active: map<Room, Entry<Grant>>, b: Snapshot) {
    && b.sessionId in audit && audit[b.sessionId].status != Requested
    && (forall room :: room in active && active[room].value.sessionId == b.sessionId ==>
                         Continues(b, active[room].value))
  }

  ghost predicate Continues(b: Snapshot, grant: Grant) {
    && b.room == grant.room && b.sharer == grant.sharer && b.controller == grant.controller && b.agent == grant.agent
    && b.renewalDueAt <= grant.renewalDueAt
  }

  ghost predicate Grants(now: int, audit: Audit, tokens: map<Id, Tokens>, issued: set<Digest>,
                         active: map<Room, Entry<Grant>>) {
    forall room :: room in active ==> GrantOk(now, audit, tokens, issued, room, active[room])
  }

  ghost predicate Pendings(audit: Audit, tokens: map<Id, Tokens>, pending: map<Room, Entry<Pending>>) {
    forall room :: room in pending ==> PendingOk(audit, tokens, room, pending[room].value)
  }

  ghost predicate Codes(active: map<Room, Entry<Grant>>, issued: set<Digest>, bootstrap: map<Digest, Entry<Bootstrap>>) {
    forall digest :: digest in bootstrap ==> CodeOk(active, issued, digest, bootstrap[digest])
  }

  ghost predicate Rows(now: int, tokens: map<Id, Tokens>, audit: Audit) {
    && (forall id :: id in audit ==> RowOk(now, tokens, id, audit[id]))
    && (forall id :: id in tokens ==> id in audit)
  }

  ghost predicate OneActivePerRoom(audit: Audit) {
    forall i, j :: InStatus(audit, i, Active) && InStatus(audit, j, Active) && audit[i].room == audit[j].room ==> i == j
  }

  ghost predicate Projections(audit: Audit, tokens: map<Id, Tokens>, published: seq<Projection>) {
    forall p :: p in published ==> PublishedOk(audit, tokens, p)
  }

  ghost predicate Snapshots(audit: Audit, active: map<Room, Entry<Grant>>, redeemed: set<Snapshot>) {
    forall b :: b in redeemed ==> RedeemedOk(audit, active, b)
  }

  ghost predicate Inv(w: World) {
    && Grants(w.now, w.audit, w.history.tokens, w.history.issued, w.redis.active)
    && Pendings(w.audit, w.history.tokens, w.redis.pending)
    && Codes(w.redis.active, w.history.issued, w.redis.bootstrap)
    && Rows(w.now, w.history.tokens, w.audit)
    && OneActivePerRoom(w.audit)
    && Projections(w.audit, w.history.tokens, w.history.published)
    && Snapshots(w.audit, w.redis.active, w.history.redeemed)
  }

  predicate Terminal(status: Status) {
    !status.Requested? && !status.Active?
  }

  predicate Closing(status: Status) {
    status.Ended? || status.Expired? || status.Failed?
  }

  /** Rows move requested -> active or terminal and active -> terminal; a terminal row is frozen. */
  ghost predicate RowLater(a: Row, b: Row) {
    && a.room == b.room && a.sharer == b.sharer && a.controller == b.controller && a.createdAt == b.createdAt
    && (b.status == Requested ==> b == a)
    && (a.status == Active ==> b.status == Active || Closing(b.status))
    && (Terminal(a.status) ==> b == a)
  }

  ghost predicate AuditLater(a: Audit, b: Audit) {
    forall id :: id in a ==> id in b && RowLater(a[id], b[id])
  }

  /** A grant present later was already this session's grant, or its request had not been answered. */
  ghost predicate NotRevived(audit: Audit, a: map<Room, Entry<Grant>>, b: map<Room, Entry<Grant>>) {
    forall room :: room in b ==>
      var id := b[room].value.sessionId;
      (room in a && a[room].value.sessionId == id) || id !in audit || audit[id].status == Requested
  }

  ghost predicate SameGrant(before: Grant, after: Grant) {
    && after.sessionId == before.sessionId && after.room == before.room && after.agent == before.agent
    && after.sharer == before.sharer && after.controller == before.controller
    && after.authorizationExpiresAt == before.authorizationExpiresAt
    && before.renewalDueAt <= after.renewalDueAt
  }

  /** A grant keeps its parties and authorization and its deadline never moves back; it disappears
      only together with its own row, or by TTL once the storage grace is over. */
  ghost predicate GrantLater(now: int, audit: Audit, before: Grant, b: map<Room, Entry<Grant>>) {
    || (before.room in b && SameGrant(before, b[before.room].value))
    || (InTerminal(audit, before.sessionId) && NoLonger(before, b))
    || (before.renewalDueAt + STORAGE_GRACE <= now && NoLonger(before, b))
  }

  ghost predicate InTerminal(audit: Audit, id: Id) {
    id in audit && Terminal(audit[id].status)
  }

  ghost predicate NoLonger(before: Grant, b: map<Room, Entry<Grant>>) {
    before.room in b ==> b[before.room].value.sessionId != before.sessionId
  }

  ghost predicate GrantsLater(now: int, audit: Audit, a: map<Room, Entry<Grant>>, b: map<Room, Entry<Grant>>) {
    forall room :: room in a ==> GrantLater(now, audit, a[room].value, b)
  }

  /** Every publication from then on continues every snapshot redeemed before it. */
  ghost predicate ProjectionsLater(a: seq<Projection>, b: seq<Projection>, redeemed: set<Snapshot>) {
    && a <= b
    && (forall k, s :: |a| <= k < |b| && s in redeemed && b[k].sessionId == s.sessionId ==> ProjectsFrom(s, b[k]))
  }

  ghost predicate ProjectsFrom(s: Snapshot, p: Projection) {
    p.sharer == s.sharer && p.controller == s.controller && p.agent == s.agent && s.renewalDueAt <= p.renewalDueAt
  }

  /** A digest, once issued, never names a stored code again after that code is gone. */
  ghost predicate CodesLater(issued: set<Digest>, a: map<Digest, Entry<Bootstrap>>, b: map<Digest, Entry<Bootstrap>>) {
    forall digest :: digest in b ==> digest in a || digest !in issued
  }

  ghost predicate TokensLater(a: map<Id, Tokens>, b: map<Id, Tokens>) {
    forall id :: id in a ==>
      && id in b && b[id].controller == a[id].controller
      && (a[id].sharer.Some? ==> b[id] == a[id])
  }

  ghost predicate Later(a: World, b: World) {
    && a.now <= b.now && a.rooms == b.rooms
    && AuditLater(a.audit, b.audit)
    && NotRevived(a.audit, a.redis.active, b.redis.active)
    && GrantsLater(b.now, b.audit, a.redis.active, b.redis.active)
    && ProjectionsLater(a.history.published, b.history.published, a.history.redeemed)
    && CodesLater(a.history.issued, a.redis.bootstrap, b.redis.bootstrap)
    && a.history.issued <= b.history.issued
    && a.history.redeemed <= b.history.redeemed
    && TokensLater(a.history.tokens, b.history.tokens)
  }

  /** What every preservation lemma below concludes. */
  ghost predicate Keeps(a: World, b: World) {
    Inv(b) && Later(a, b)
  }

  lemma LaterTransitive(a: World, b: World, c: World)
    requires Inv(a) && Inv(b) && Later(a, b) && Later(b, c)
    ensures Later(a, c)
  {
    AuditTransitive(a.audit, b.audit, c.audit);
    RevivalTransitive(a.audit, b.audit, a.redis.active, b.redis.active, c.redis.active);
    assert GrantsLater(c.now, c.audit, a.redis.active, c.redis.active) by {
      forall room | room in a.redis.active
        ensures a.redis.active[room].value.room == room && InStatus(a.audit, a.redis.active[room].value.sessionId, Active)
      {
        assert GrantOk(a.now, a.audit, a.history.tokens, a.history.issued, room, a.redis.active[room]);
      }
      GrantsTransitive(a.audit, b, c, a.redis.active);
    }
    ProjectionsTransitive(a.history.published, b.history.published, c.history.published, a.history.redeemed, b.history.redeemed);
    CodesTransitive(a.history.issued, b.history.issued, a.redis.bootstrap, b.redis.bootstrap, c.redis.bootstrap);
    TokensTransitive(a.history.tokens, b.history.tokens, c.history.tokens);
  }

  lemma AuditTransitive(a: Audit, b: Audit, c: Audit)
    requires AuditLater(a, b) && AuditLater(b, c)
    ensures AuditLater(a, c)
  {
    forall id | id in a ensures id in c && RowLater(a[id], c[id]) {
      assert RowLater(a[id], b[id]) && RowLater(b[id], c[id]);
    }
  }

  lemma RevivalTransitive(audit: Audit, later: Audit, a: map<Room, Entry<Grant>>, b: map<Room, Entry<Grant>>, c: map<Room, Entry<Grant>>)
    requires AuditLater(audit, later) && NotRevived(audit, a, b) && NotRevived(later, b, c)
    ensures NotRevived(audit, a, c)
  {
    forall room | room in c
      ensures var id := c[room].value.sessionId;
        (room in a && a[room].value.sessionId == id) || id !in audit || audit[id].status == Requested
    {
      var id := c[room].value.sessionId;
      assert id in audit ==> id in later && RowLater(audit[id], later[id]);
    }
  }

  lemma GrantsTransitive(audit: Audit, b: World, c: World, active: map<Room, Entry<Grant>>)
    requires AuditLater(audit, b.audit) && AuditLater(b.audit, c.audit) && b.now <= c.now
    requires GrantsLater(b.now, b.audit, active, b.redis.active) && GrantsLater(c.now, c.audit, b.redis.active, c.redis.active)
    requires NotRevived(b.audit, b.redis.active, c.redis.active)
    requires forall room :: room in active ==> active[room].value.room == room && InStatus(audit, active[room].value.sessionId, Active)
    ensures GrantsLater(c.now, c.audit, active, c.redis.active)
  {
    forall room | room in active
      ensures GrantLater(c.now, c.audit, active[room].value, c.redis.active)
    {
      var before := active[room].value;
      assert GrantLater(b.now, b.audit, before, b.redis.active);
      assert RowLater(audit[before.sessionId], b.audit[before.sessionId]) && RowLater(b.audit[before.sessionId], c.audit[before.sessionId]);
      if room in b.redis.active {
        assert GrantLater(c.now, c.audit, b.redis.active[room].value, c.redis.active);
      }
    }
  }

  lemma ProjectionsTransitive(a: seq<Projection>, b: seq<Projection>, c: seq<Projection>, redeemed: set<Snapshot>, more: set<Snapshot>)
    requires ProjectionsLater(a, b, redeemed) && ProjectionsLater(b, c, more) && redeemed <= more
    ensures ProjectionsLater(a, c, redeemed)
  {
    forall k, s | |a| <= k < |c| && s in redeemed && c[k].sessionId == s.sessionId
      ensures ProjectsFrom(s, c[k])
    {
      if k < |b| {
        assert b[k] == c[k];
      }
    }
  }

  lemma CodesTransitive(issued: set<Digest>, more: set<Digest>, a: map<Digest, Entry<Bootstrap>>,
                        b: map<Digest, Entry<Bootstrap>>, c: map<Digest, Entry<Bootstrap>>)
    requires CodesLater(issued, a, b) && CodesLater(more, b, c) && issued <= more
    ensures CodesLater(issued, a, c)
  {
  }

  lemma TokensTransitive(a: map<Id, Tokens>, b: map<Id, Tokens>, c: map<Id, Tokens>)
    requires TokensLater(a, b) && TokensLater(b, c)
    ensures TokensLater(a, c)
  {
  }

  lemma TickKeeps(w: World, time: int)
    requires Inv(w) && w.now <= time
    ensures Keeps(w, w.Tick(time))
  {
    var after := w.Tick(time);
    forall room | room in w.redis.active
      ensures GrantLater(time, w.audit, w.redis.active[room].value, after.redis.active)
    {
      assert GrantOk(w.now, w.audit, w.history.tokens, w.history.issued, room, w.redis.active[room]);
    }
    forall digest | digest in after.redis.bootstrap
      ensures CodeOk(after.redis.active, w.history.issued, digest, after.redis.bootstrap[digest])
    {
      assert CodeOk(w.redis.active, w.history.issued, digest, w.redis.bootstrap[digest]);
    }
  }

  lemma ReleaseKeeps(w: World, room: Room, id: Id)
    requires Inv(w)
    ensures Keeps(w, w.ReleasePending(room, id))
  {
  }

  lemma UnpublishKeeps(w: World, room: Room, reply: Reply)
    requires Inv(w)
    ensures Keeps(w, w.Unpublish(room, reply))
  {
  }

  /** What an audit change that activates no row keeps, whatever else happens. */
  lemma AuditKept(w: World, b: Audit)
    requires Inv(w) && b.Keys == w.audit.Keys && AuditLater(w.audit, b)
    requires forall id :: InStatus(b, id, Active) ==> InStatus(w.audit, id, Active) && b[id].renewalDueAt.Some?
    ensures Pendings(b, w.history.tokens, w.redis.pending)
    ensures Rows(w.now, w.history.tokens, b) && OneActivePerRoom(b)
    ensures Projections(b, w.history.tokens, w.history.published)
    ensures Snapshots(b, w.redis.active, w.history.redeemed)
  {
    forall id | id in b ensures RowOk(w.now, w.history.tokens, id, b[id]) {
      assert RowOk(w.now, w.history.tokens, id, w.audit[id]) && RowLater(w.audit[id], b[id]);
    }
    assert OneActivePerRoom(b) by {
      forall i, j | InStatus(b, i, Active) && InStatus(b, j, Active) && b[i].room == b[j].room ensures i == j {
        assert RowLater(w.audit[i], b[i]) && RowLater(w.audit[j], b[j]);
        assert InStatus(w.audit, i, Active) && InStatus(w.audit, j, Active);
      }
    }
    forall p | p in w.history.published ensures PublishedOk(b, w.history.tokens, p) {
      assert PublishedOk(w.audit, w.history.tokens, p) && RowLater(w.audit[p.sessionId], b[p.sessionId]);
    }
    forall s | s in w.history.redeemed ensures RedeemedOk(b, w.redis.active, s) {
      assert RedeemedOk(w.audit, w.redis.active, s) && RowLater(w.audit[s.sessionId], b[s.sessionId]);
    }
    forall room | room in w.redis.pending ensures PendingOk(b, w.history.tokens, room, w.redis.pending[room].value) {
      var pending := w.redis.pending[room].value;
      assert PendingOk(w.audit, w.history.tokens, room, pending);
      assert RowLater(w.audit[pending.requestId], b[pending.requestId]);
    }
  }

  /** Rewriting one row without activating it. */
  lemma RowMoved(a: Audit, id: Id, row: Row)
    requires id in a && RowLater(a[id], row) && (row.status == Active ==> a[id].status == Active && row.renewalDueAt.Some?)
    requires forall i :: InStatus(a, i, Active) ==> a[i].renewalDueAt.Some?
    ensures AuditLater(a, a[id := row]) && a[id := row].Keys == a.Keys
    ensures forall i :: InStatus(a[id := row], i, Active) ==> InStatus(a, i, Active) && a[id := row][i].renewalDueAt.Some?
  {
  }

  lemma ActiveRowsDue(w: World)
    requires Inv(w)
    ensures forall i :: InStatus(w.audit, i, Active) ==> w.audit[i].renewalDueAt.Some?
  {
    forall i | InStatus(w.audit, i, Active) ensures w.audit[i].renewalDueAt.Some? {
      assert RowOk(w.now, w.history.tokens, i, w.audit[i]);
    }
  }

  lemma GrantsKept(w: World, b: Audit)
    requires Inv(w) && b.Keys == w.audit.Keys
    requires forall room :: room in w.redis.active ==>
               b[w.redis.active[room].value.sessionId] == w.audit[w.redis.active[room].value.sessionId]
    ensures Grants(w.now, b, w.history.tokens, w.history.issued, w.redis.active)
    ensures GrantsLater(w.now, b, w.redis.active, w.redis.active)
    ensures NotRevived(w.audit, w.redis.active, w.redis.active)
  {
    forall room | room in w.redis.active
      ensures GrantOk(w.now, b, w.history.tokens, w.history.issued, room, w.redis.active[room])
    {
      assert GrantOk(w.now, w.audit, w.history.tokens, w.history.issued, room, w.redis.active[room]);
    }
  }

  lemma CloseKeeps(w: World, id: Id, status: Status, reason: Reason)
    requires Inv(w) && Terminal(status)
    ensures Keeps(w, w.CloseRequest(id, status, reason))
  {
    if InStatus(w.audit, id, Requested) {
      ActiveRowsDue(w);
      RowMoved(w.audit, id, EndRow(w.audit[id], status, reason, w.now));
      AuditKept(w, w.CloseRequest(id, status, reason).audit);
      forall room | room in w.redis.active ensures w.redis.active[room].value.sessionId != id {
        assert GrantOk(w.now, w.audit, w.history.tokens, w.history.issued, room, w.redis.active[room]);
      }
      GrantsKept(w, w.CloseRequest(id, status, reason).audit);
    } else {
      LaterReflexive(w);
    }
  }

  lemma LaterReflexive(w: World)
    requires Inv(w)
    ensures Later(w, w)
  {
  }

  lemma Chain(a: World, b: World, c: World)
    requires Inv(a) && Keeps(a, b) && Keeps(b, c)
    ensures Keeps(a, c)
  {
    LaterTransitive(a, b, c);
  }

  /** Closing a session no stored grant belongs to. */
  lemma CloseSessionKeeps(w: World, id: Id, status: Status, reason: Reason)
    requires Inv(w) && Closing(status)
    requires forall room :: room in w.redis.active ==> w.redis.active[room].value.sessionId != id
    ensures Keeps(w, w.CloseSession(id, status, reason))
  {
    if InStatus(w.audit, id, Active) {
      ActiveRowsDue(w);
      RowMoved(w.audit, id, EndRow(w.audit[id], status, reason, w.now));
      AuditKept(w, w.CloseSession(id, status, reason).audit);
      GrantsKept(w, w.CloseSession(id, status, reason).audit);
    } else {
      LaterReflexive(w);
    }
  }

  lemma RevokeKeeps(w: World, room: Room)
    requires Inv(w) && room in w.redis.active
    ensures var after := w.(redis := w.redis.RevokeBootstrap(w.redis.active[room].value));
      && Keeps(w, after)
      && after.redis.active == w.redis.active
      && forall digest :: digest in after.redis.bootstrap ==> after.redis.bootstrap[digest].value.room != room
  {
    var after := w.redis.RevokeBootstrap(w.redis.active[room].value);
    forall digest | digest in after.bootstrap
      ensures CodeOk(after.active, w.history.issued, digest, after.bootstrap[digest])
      ensures after.bootstrap[digest].value.room != room
    {
      assert CodeOk(w.redis.active, w.history.issued, digest, w.redis.bootstrap[digest]);
    }
    LaterReflexive(w);
    GrantStepKeeps(w, w.(redis := after));
  }

  lemma DroppedGrants(now: int, audit: Audit, tokens: map<Id, Tokens>, issued: set<Digest>,
                      active: map<Room, Entry<Grant>>, room: Room, row: Row)
    requires Grants(now, audit, tokens, issued, active) && room in active && Terminal(row.status)
    ensures var id := active[room].value.sessionId;
      && Grants(now, audit[id := row], tokens, issued, active - {room})
      && GrantsLater(now, audit[id := row], active, active - {room})
      && NotRevived(audit, active, active - {room})
  {
    assert GrantOk(now, audit, tokens, issued, room, active[room]);
    forall r | r in active && r != room
      ensures GrantOk(now, audit[active[room].value.sessionId := row], tokens, issued, r, active[r])
    {
      assert GrantOk(now, audit, tokens, issued, r, active[r]);
    }
  }

  /** The grant and its row go together. */
  lemma DropKeeps(w: World, room: Room, status: Status, reason: Reason)
    requires Inv(w) && room in w.redis.active && Closing(status)
    requires forall digest :: digest in w.redis.bootstrap ==> w.redis.bootstrap[digest].value.room != room
    ensures var id := w.redis.active[room].value.sessionId;
      Keeps(w, w.(redis := w.redis.ClearActive(room, id).0).CloseSession(id, status, reason))
  {
    var id := w.redis.active[room].value.sessionId;
    var audit := EndActive(w.audit, id, status, reason, w.now);
    assert InStatus(w.audit, id, Active) && w.redis.active[room].value.room == room by {
      assert GrantOk(w.now, w.audit, w.history.tokens, w.history.issued, room, w.redis.active[room]);
    }
    ActiveRowsDue(w);
    RowMoved(w.audit, id, EndRow(w.audit[id], status, reason, w.now));
    AuditKept(w, audit);
    DroppedGrants(w.now, w.audit, w.history.tokens, w.history.issued, w.redis.active, room, audit[id]);
    DroppedUses(audit, w.redis.active, room, w.history.issued, w.redis.bootstrap, w.history.redeemed);
    LaterReflexive(w);
  }

  lemma DroppedUses(audit: Audit, active: map<Room, Entry<Grant>>, room: Room, issued: set<Digest>,
                    codes: map<Digest, Entry<Bootstrap>>, redeemed: set<Snapshot>)
    requires Codes(active, issued, codes) && Snapshots(audit, active, redeemed)
    requires forall d :: d in codes ==> codes[d].value.room != room
    ensures Codes(active - {room}, issued, codes) && Snapshots(audit, active - {room}, redeemed)
  {
    forall d | d in codes ensures CodeOk(active - {room}, issued, d, codes[d]) {
      assert CodeOk(active, issued, d, codes[d]);
    }
    forall b | b in redeemed ensures RedeemedOk(audit, active - {room}, b) {
      assert RedeemedOk(audit, active, b);
    }
  }

  lemma EndGrantKeeps(w: World, room: Room, status: Status, reason: Reason, cleanup: Reply)
    requires Inv(w) && room in w.redis.active && Closing(status)
    ensures Keeps(w, w.EndGrant(w.redis.active[room].value, status, reason, cleanup))
  {
    var grant := w.redis.active[room].value;
    var revoked := w.(redis := w.redis.RevokeBootstrap(grant));
    var dropped := revoked.(redis := revoked.redis.ClearActive(room, grant.sessionId).0)
                          .CloseSession(grant.sessionId, status, reason);
    assert GrantOk(w.now, w.audit, w.history.tokens, w.history.issued, room, w.redis.active[room]);
    RevokeKeeps(w, room);
    DropKeeps(revoked, room, status, reason);
    Chain(w, revoked, dropped);
    UnpublishKeeps(dropped, room, cleanup);
    Chain(w, dropped, dropped.Unpublish(room, cleanup));
  }

  lemma OnlyInItsRoom(w: World, id: Id)
    requires Inv(w) && id in w.audit && !w.redis.Holds(w.audit[id].room, id)
    ensures forall room :: room in w.redis.active ==> w.redis.active[room].value.sessionId != id
  {
    forall room | room in w.redis.active ensures w.redis.active[room].value.sessionId != id {
      assert GrantOk(w.now, w.audit, w.history.tokens, w.history.issued, room, w.redis.active[room]);
    }
  }

  lemma FallbackKeeps(w: World, id: Id, room: Room, status: Status, reason: Reason, cleanup: Reply)
    requires Inv(w) && !w.redis.Holds(room, id) && Closing(status)
    requires InStatus(w.audit, id, Active) ==> w.audit[id].room == room
    ensures Keeps(w, w.EndAuditFallback(id, room, status, reason, cleanup))
  {
    UnpublishKeeps(w, room, cleanup);
    var cleared := w.Unpublish(room, cleanup);
    assert w.EndAuditFallback(id, room, status, reason, cleanup) == cleared.CloseSession(id, status, reason);
    if !InStatus(w.audit, id, Active) {
      return;
    }
    OnlyInItsRoom(cleared, id);
    CloseSessionKeeps(cleared, id, status, reason);
    Chain(w, cleared, cleared.CloseSession(id, status, reason));
  }

  /** A step that rewrites grants and codes only. */
  lemma GrantStepKeeps(w: World, b: World)
    requires Inv(w)
    requires b == w.(redis := w.redis.(owner := b.redis.owner, active := b.redis.active, bootstrap := b.redis.bootstrap),
                     history := w.history.(issued := b.history.issued))
    requires w.history.issued <= b.history.issued
    requires Grants(b.now, b.audit, b.history.tokens, b.history.issued, b.redis.active)
    requires Codes(b.redis.active, b.history.issued, b.redis.bootstrap)
    requires Snapshots(b.audit, b.redis.active, b.history.redeemed)
    requires NotRevived(w.audit, w.redis.active, b.redis.active)
    requires GrantsLater(w.now, w.audit, w.redis.active, b.redis.active)
    requires CodesLater(w.history.issued, w.redis.bootstrap, b.redis.bootstrap)
    ensures Keeps(w, b)
  {
    LaterReflexive(w);
  }

  lemma UpdateKeeps(w: World, room: Room, grant: Grant)
    requires Inv(w) && room in w.redis.active && SameGrant(w.redis.active[room].value, grant)
    requires grant.renewalDueAt <= Min(w.now + RENEWAL, grant.authorizationExpiresAt)
    requires grant.bootstrapDigest == w.redis.active[room].value.bootstrapDigest
    ensures Keeps(w, w.(redis := w.redis.UpdateActive(grant, w.now).0))
  {
    assert grant.bootstrapDigest.Some? ==> grant.bootstrapDigest.value in w.history.issued by {
      assert GrantOk(w.now, w.audit, w.history.tokens, w.history.issued, room, w.redis.active[room]);
    }
    UpdatedGrants(w, room, grant, w.history.issued);
    UpdatedCodes(w, room, grant, w.redis.bootstrap);
    UpdateTouches(w.redis, grant, w.now);
    GrantStepKeeps(w, w.(redis := w.redis.UpdateActive(grant, w.now).0));
  }

  lemma UpdateTouches(redis: Redis, grant: Grant, now: int)
    ensures redis.UpdateActive(grant, now).0.pending == redis.pending && redis.UpdateActive(grant, now).0.bootstrap == redis.bootstrap
  {
  }

  /** Codes of other grants, and this grant's code if it keeps it, stay redeemable. */
  lemma UpdatedCodes(w: World, room: Room, grant: Grant, codes: map<Digest, Entry<Bootstrap>>)
    requires Inv(w) && room in w.redis.active && SameGrant(w.redis.active[room].value, grant)
    requires forall d :: d in codes ==> d in w.redis.bootstrap && codes[d] == w.redis.bootstrap[d]
    requires grant.bootstrapDigest == w.redis.active[room].value.bootstrapDigest
             || forall d :: d in codes ==> codes[d].value.room != room
    ensures Codes(w.redis.active[room := Entry(grant, w.now + ACTIVE_STORAGE_TTL)], w.history.issued, codes)
  {
    forall d | d in codes
      ensures CodeOk(w.redis.active[room := Entry(grant, w.now + ACTIVE_STORAGE_TTL)], w.history.issued, d, codes[d])
    {
      assert CodeOk(w.redis.active, w.history.issued, d, w.redis.bootstrap[d]);
      assert GrantOk(w.now, w.audit, w.history.tokens, w.history.issued, room, w.redis.active[room]);
    }
  }

  lemma UpdatedGrants(w: World, room: Room, grant: Grant, issued: set<Digest>)
    requires Inv(w) && room in w.redis.active && SameGrant(w.redis.active[room].value, grant)
    requires grant.renewalDueAt <= Min(w.now + RENEWAL, grant.authorizationExpiresAt)
    requires w.history.issued <= issued && (grant.bootstrapDigest.Some? ==> grant.bootstrapDigest.value in issued)
    ensures var active := w.redis.active[room := Entry(grant, w.now + ACTIVE_STORAGE_TTL)];
      && w.redis.UpdateActive(grant, w.now).0.active == active
      && Grants(w.now, w.audit, w.history.tokens, issued, active)
      && Snapshots(w.audit, active, w.history.redeemed)
      && NotRevived(w.audit, w.redis.active, active)
      && GrantsLater(w.now, w.audit, w.redis.active, active)
  {
    RewrittenGrants(w.now, w.audit, w.history.tokens, w.history.issued, issued, w.redis.active, room, grant);
    RewrittenSnapshots(w.audit, w.redis.active, w.history.redeemed, room, grant, w.now + ACTIVE_STORAGE_TTL);
  }

  lemma RewrittenGrants(now: int, audit: Audit, tokens: map<Id, Tokens>, issued: set<Digest>, more: set<Digest>,
                        active: map<Room, Entry<Grant>>, room: Room, grant: Grant)
    requires Grants(now, audit, tokens, issued, active) && room in active && SameGrant(active[room].value, grant)
    requires grant.renewalDueAt <= Min(now + RENEWAL, grant.authorizationExpiresAt)
    requires issued <= more && (grant.bootstrapDigest.Some? ==> grant.bootstrapDigest.value in more)
    ensures active[room].value.room == room
    ensures var after := active[room := Entry(grant, now + ACTIVE_STORAGE_TTL)];
      && Grants(now, audit, tokens, more, after)
      && NotRevived(audit, active, after)
      && GrantsLater(now, audit, active, after)
  {
    forall r | r in active ensures GrantOk(now, audit, tokens, more, r, active[r]) {
      assert GrantOk(now, audit, tokens, issued, r, active[r]);
    }
  }

  lemma RewrittenSnapshots(audit: Audit, active: map<Room, Entry<Grant>>, redeemed: set<Snapshot>,
                           room: Room, grant: Grant, expiresAt: int)
    requires Snapshots(audit, active, redeemed) && room in active && SameGrant(active[room].value, grant)
    ensures Snapshots(audit, active[room := Entry(grant, expiresAt)], redeemed)
  {
    forall b | b in redeemed ensures RedeemedOk(audit, active[room := Entry(grant, expiresAt)], b) {
      assert RedeemedOk(audit, active, b);
    }
  }

  lemma PublishKeeps(w: World, room: Room, p: Projection, reply: Reply)
    requires Inv(w) && room in w.redis.active
    requires var grant := w.redis.active[room].value;
      && p.sessionId == grant.sessionId && p.sharer == grant.sharer && p.controller == grant.controller
      && p.agent == grant.agent && grant.renewalDueAt <= p.renewalDueAt <= grant.authorizationExpiresAt
    ensures Keeps(w, w.Publish(room, p, reply))
  {
  }

  lemma IssueKeeps(w: World, room: Room, digest: Digest)
    requires Inv(w) && room in w.redis.active && digest !in w.history.issued
    ensures Keeps(w, w.IssueBootstrap(w.redis.active[room].value, digest).0)
  {
    var grant := w.redis.active[room].value;
    assert GrantOk(w.now, w.audit, w.history.tokens, w.history.issued, room, w.redis.active[room]);
    assert digest !in w.redis.bootstrap by {
      assert forall d :: d in w.redis.bootstrap ==> CodeOk(w.redis.active, w.history.issued, d, w.redis.bootstrap[d]);
    }
    RevokeKeeps(w, room);
    var revoked := w.(redis := w.redis.RevokeBootstrap(grant));
    StoreCodeKeeps(revoked, room, digest);
    Chain(w, revoked, StoreCode(revoked, room, digest));
    IssueIsStore(w, room, digest);
  }

  lemma IssueIsStore(w: World, room: Room, digest: Digest)
    requires room in w.redis.active && w.redis.active[room].value.room == room && digest !in w.redis.bootstrap
    ensures w.IssueBootstrap(w.redis.active[room].value, digest).0
         == StoreCode(w.(redis := w.redis.RevokeBootstrap(w.redis.active[room].value)), room, digest)
  {
    var grant := w.redis.active[room].value;
    var codes := w.redis.RevokeBootstrap(grant).bootstrap;
    var code := Entry(Bootstrap(room, grant.sessionId, digest, w.now + BOOTSTRAP_TTL), w.now + BOOTSTRAP_TTL);
    assert codes[digest := code] - {digest} == codes;
  }

  lemma StoreCodeKeeps(w: World, room: Room, digest: Digest)
    requires Inv(w) && room in w.redis.active && digest !in w.history.issued
    requires forall d :: d in w.redis.bootstrap ==> w.redis.bootstrap[d].value.room != room
    requires w.redis.active[room].value.room == room
    ensures Keeps(w, StoreCode(w, room, digest))
  {
    var grant := w.redis.active[room].value.(bootstrapDigest := Some(digest));
    var b := StoreCode(w, room, digest);
    assert SameGrant(w.redis.active[room].value, grant) && grant.renewalDueAt <= Min(w.now + RENEWAL, grant.authorizationExpiresAt) by {
      assert GrantOk(w.now, w.audit, w.history.tokens, w.history.issued, room, w.redis.active[room]);
    }
    UpdatedGrants(w, room, grant, b.history.issued);
    assert Codes(b.redis.active, b.history.issued, b.redis.bootstrap) by {
      UpdatedCodes(w, room, grant, w.redis.bootstrap);
      StoredCodes(b.redis.active, w.history.issued, w.redis.bootstrap, room, digest, w.now + BOOTSTRAP_TTL);
    }
    GrantStepKeeps(w, b);
  }

  /** What issuing a code leaves behind, once the previous code is gone. */
  function StoreCode(w: World, room: Room, digest: Digest): World
    requires room in w.redis.active
  {
    var grant := w.redis.active[room].value.(bootstrapDigest := Some(digest));
    var code := Entry(Bootstrap(room, grant.sessionId, digest, w.now + BOOTSTRAP_TTL), w.now + BOOTSTRAP_TTL);
    var redis := w.redis.UpdateActive(grant, w.now).0;
    w.(redis := if room in w.redis.owner then redis.(bootstrap := redis.bootstrap[digest := code]) else redis,
       history := w.history.(issued := w.history.issued + {digest}))
  }

  lemma StoredCodes(active: map<Room, Entry<Grant>>, issued: set<Digest>, codes: map<Digest, Entry<Bootstrap>>,
                    room: Room, digest: Digest, expiresAt: int)
    requires Codes(active, issued, codes) && room in active && active[room].value.bootstrapDigest == Some(digest)
    requires expiresAt <= active[room].expiresAt
    ensures Codes(active, issued + {digest}, codes)
    ensures Codes(active, issued + {digest},
                  codes[digest := Entry(Bootstrap(room, active[room].value.sessionId, digest, expiresAt), expiresAt)])
  {
    forall d | d in codes ensures CodeOk(active, issued + {digest}, d, codes[d]) {
      assert CodeOk(active, issued, d, codes[d]);
    }
  }

  lemma ConsumePendingKeeps(w: World, room: Room, id: Id)
    requires Inv(w)
    ensures Keeps(w, w.(redis := w.redis.ConsumePending(room, id).0))
  {
  }

  lemma ConsumeBootstrapKeeps(w: World, room: Room, sessionId: Id, digest: Digest)
    requires Inv(w)
    ensures Keeps(w, w.(redis := w.redis.ConsumeBootstrap(room, sessionId, digest).0))
  {
  }

  lemma RedeemKeeps(w: World, room: Room)
    requires Inv(w) && room in w.redis.active
    ensures var b := SnapshotOf(w.redis.active[room].value);
      Keeps(w, w.(history := w.history.(redeemed := w.history.redeemed + {b})))
  {
  }

  lemma RenewalRowKeeps(w: World, room: Room, deadline: int)
    requires Inv(w) && room in w.redis.active && deadline <= w.redis.active[room].value.renewalDueAt
    ensures Keeps(w, w.(audit := UpdateRenewal(w.audit, w.redis.active[room].value.sessionId, deadline)))
  {
    var id := w.redis.active[room].value.sessionId;
    var audit := UpdateRenewal(w.audit, id, deadline);
    assert GrantOk(w.now, w.audit, w.history.tokens, w.history.issued, room, w.redis.active[room]);
    ActiveRowsDue(w);
    RowMoved(w.audit, id, w.audit[id].(renewalDueAt := Some(deadline)));
    AuditKept(w, audit);
    forall r | r in w.redis.active
      ensures GrantOk(w.now, audit, w.history.tokens, w.history.issued, r, w.redis.active[r])
    {
      assert GrantOk(w.now, w.audit, w.history.tokens, w.history.issued, r, w.redis.active[r]);
    }
    LaterReflexive(w);
  }
}
