/** Safety over whole runs: any interleaving of service calls, time passing and keys expiring. */
module RemoteControlRuns {
  import opened Options
  import opened RemoteControlState
  import opened RemoteControlRepo
  import opened RemoteControlService
  import opened RemoteControlInvariants
  import opened RemoteControlSteps

  // ---- The two loops over audit rows ----

  lemma EndRowSessionKeeps(w: World, id: Id, status: Status, reason: Reason, cleanup: Reply)
    requires Inv(w) && InStatus(w.audit, id, Active) && Closing(status)
    ensures Keeps(w, w.EndRowSession(id, w.audit[id].room, status, reason, cleanup))
  {
    var room := w.audit[id].room;
    var after := w.EndRowSession(id, room, status, reason, cleanup);
    if w.redis.Holds(room, id) {
      EndGrantKeeps(w, room, status, reason, cleanup);
      assert after == w.EndGrant(w.redis.active[room].value, status, reason, cleanup);
    } else {
      FallbackKeeps(w, id, room, status, reason, cleanup);
    }
  }

  lemma EndRowSessionRows(w: World, id: Id, room: Room, status: Status, reason: Reason, cleanup: Reply)
    ensures var after := w.EndRowSession(id, room, status, reason, cleanup);
      after.now == w.now && after.audit == EndActive(w.audit, id, status, reason, w.now)
  {
    if w.redis.Holds(room, id) {
      EndGrantRows(w, w.redis.active[room].value, status, reason, cleanup);
    } else {
      FallbackRows(w, id, room, status, reason, cleanup);
    }
  }

  lemma EndGrantRows(w: World, grant: Grant, status: Status, reason: Reason, cleanup: Reply)
    ensures var after := w.EndGrant(grant, status, reason, cleanup);
      after.now == w.now && after.audit == EndActive(w.audit, grant.sessionId, status, reason, w.now)
  {
  }

  lemma FallbackRows(w: World, id: Id, room: Room, status: Status, reason: Reason, cleanup: Reply)
    ensures var after := w.EndAuditFallback(id, room, status, reason, cleanup);
      after.now == w.now && after.audit == EndActive(w.audit, id, status, reason, w.now)
  {
  }

  /** `after` ends exactly the listed rows in `status`. */
  ghost predicate Closes(w: World, after: World, rows: seq<Id>, status: Status) {
    && after.now == w.now
    && after.audit.Keys == w.audit.Keys
    && (forall id :: id in w.audit && id in rows ==> after.audit[id].status == status)
    && (forall id :: id in w.audit && id !in rows ==> after.audit[id] == w.audit[id])
  }

  ghost predicate Distinct(rows: seq<Id>) {
    forall i, j :: 0 <= i < j < |rows| ==> rows[i] != rows[j]
  }

  lemma {:induction false} EndDueRows(w: World, rows: seq<Id>, cleanup: Id -> Reply)
    requires Distinct(rows) && forall id :: id in rows ==> InStatus(w.audit, id, Active)
    ensures Closes(w, w.EndDue(rows, cleanup), rows, Expired)
  {
    if rows != [] {
      var init, id := rows[..|rows| - 1], rows[|rows| - 1];
      EndDueRows(w, init, cleanup);
      assert id in rows && id !in init && rows == init + [id];
      EndRowSessionRows(w.EndDue(init, cleanup), id, w.audit[id].room, Expired, RenewalTimeout, cleanup(id));
    }
  }

  lemma {:induction false} EndDueKeeps(w: World, rows: seq<Id>, cleanup: Id -> Reply)
    requires Inv(w) && Distinct(rows) && forall id :: id in rows ==> InStatus(w.audit, id, Active)
    ensures Keeps(w, w.EndDue(rows, cleanup))
  {
    if rows == [] {
      LaterReflexive(w);
    } else {
      var init, id := rows[..|rows| - 1], rows[|rows| - 1];
      assert id in rows && id !in init;
      EndDueKeeps(w, init, cleanup);
      EndDueRows(w, init, cleanup);
      var done := w.EndDue(init, cleanup);
      EndRowSessionKeeps(done, id, Expired, RenewalTimeout, cleanup(id));
      Chain(w, done, w.EndDue(rows, cleanup));
    }
  }

  lemma {:induction false} ExpireOverdueKeeps(w: World, rows: seq<Id>)
    requires Inv(w) && Distinct(rows) && forall id :: id in rows ==> InStatus(w.audit, id, Requested)
    ensures Keeps(w, w.ExpireOverdue(rows)) && Closes(w, w.ExpireOverdue(rows), rows, Expired)
  {
    if rows == [] {
      LaterReflexive(w);
    } else {
      var init, id := rows[..|rows| - 1], rows[|rows| - 1];
      ExpireOverdueKeeps(w, init);
      var done := w.ExpireOverdue(init);
      assert id in rows && id !in init && rows == init + [id];
      ExpirePendingKeeps(done, w.audit[id].room, id);
      Chain(w, done, w.ExpireOverdue(rows));
    }
  }

  /** Closing the due rows and then the overdue ones leaves no row due or overdue. */
  lemma NoneOverdue(a: World, b: World, c: World, due: seq<Id>, overdue: seq<Id>)
    requires Closes(a, b, due, Expired) && Closes(b, c, overdue, Expired)
    requires Lists(due, DueActive(a.audit, a.now)) && Lists(overdue, ExpiredRequests(a.audit, a.now - REQUEST_TTL))
    ensures DueActive(c.audit, a.now) == {} && ExpiredRequests(c.audit, a.now - REQUEST_TTL) == {}
  {
  }

  /** While no active row is due, no live grant is past its deadline. */
  lemma NoGrantExpired(w: World)
    requires Inv(w) && DueActive(w.audit, w.now) == {}
    ensures forall room :: room in w.redis.active ==> !GrantExpired(w.redis.active[room].value, w.now)
  {
    forall room | room in w.redis.active ensures !GrantExpired(w.redis.active[room].value, w.now) {
      assert GrantOk(w.now, w.audit, w.history.tokens, w.history.issued, room, w.redis.active[room]);
      assert w.redis.active[room].value.sessionId !in DueActive(w.audit, w.now);
    }
  }

  /** After a reconcile nothing live or open is overdue. */
  lemma ReconcileCatchesUp(w: World, due: seq<Id>, overdue: seq<Id>, cleanup: Id -> Reply)
    requires Inv(w)
    requires Lists(due, DueActive(w.audit, w.now)) && Lists(overdue, ExpiredRequests(w.audit, w.now - REQUEST_TTL))
    ensures var after := w.Reconcile(due, overdue, cleanup);
      && Keeps(w, after)
      && after.now == w.now
      && (forall room :: room in after.redis.active ==> !GrantExpired(after.redis.active[room].value, w.now))
      && DueActive(after.audit, w.now) == {}
      && ExpiredRequests(after.audit, w.now - REQUEST_TTL) == {}
  {
    var ended := w.EndDue(due, cleanup);
    EndDueKeeps(w, due, cleanup);
    EndDueRows(w, due, cleanup);
    ExpireOverdueKeeps(ended, overdue);
    var after := w.Reconcile(due, overdue, cleanup);
    Chain(w, ended, after);
    NoneOverdue(w, ended, after, due, overdue);
    NoGrantExpired(after);
  }

  lemma {:induction false} CutOffKeeps(w: World, rows: seq<Id>, cleanup: Id -> Reply)
    requires Inv(w) && Distinct(rows) && forall id :: id in rows ==> id in RequestedOrActive(w.audit)
    ensures var after := w.CutOff(rows, cleanup);
      && Keeps(w, after) && after.now == w.now && after.audit.Keys == w.audit.Keys
      && (forall id :: id in w.audit && id in rows ==> Terminal(after.audit[id].status))
      && (forall id :: id in w.audit && id !in rows ==> after.audit[id] == w.audit[id])
  {
    if rows == [] {
      LaterReflexive(w);
    } else {
      var init, id := rows[..|rows| - 1], rows[|rows| - 1];
      CutOffKeeps(w, init, cleanup);
      var done := w.CutOff(init, cleanup);
      assert id in rows && id !in init && rows == init + [id];
      CutOneKeeps(done, id, cleanup(id));
      Chain(w, done, w.CutOff(rows, cleanup));
    }
  }

  lemma CutOneKeeps(w: World, id: Id, cleanup: Reply)
    requires Inv(w) && id in RequestedOrActive(w.audit)
    ensures var after := w.CutOne(id, w.audit[id], cleanup);
      && Keeps(w, after) && after.now == w.now && after.audit.Keys == w.audit.Keys
      && Terminal(after.audit[id].status) && forall j :: j in w.audit && j != id ==> after.audit[j] == w.audit[j]
  {
    var row := w.audit[id];
    if row.status == Requested {
      var released := w.ReleasePending(row.room, id);
      ReleaseKeeps(w, row.room, id);
      CloseKeeps(released, id, Failed, ProtocolUpgrade);
      Chain(w, released, released.CloseRequest(id, Failed, ProtocolUpgrade));
    } else {
      EndRowSessionKeeps(w, id, Ended, ProtocolUpgrade, cleanup);
      EndRowSessionRows(w, id, row.room, Ended, ProtocolUpgrade, cleanup);
    }
  }

  lemma CutoverEmpties(w: World, rows: seq<Id>, cleanup: Id -> Reply)
    requires Inv(w) && Lists(rows, RequestedOrActive(w.audit))
    ensures var after := w.CutOff(rows, cleanup);
      Keeps(w, after) && RequestedOrActive(after.audit) == {} && after.redis.active == map[]
  {
    CutOffKeeps(w, rows, cleanup);
    var after := w.CutOff(rows, cleanup);
    forall room | room in after.redis.active
      ensures after.redis.active[room].value.sessionId in RequestedOrActive(after.audit)
    {
      assert GrantOk(after.now, after.audit, after.history.tokens, after.history.issued, room, after.redis.active[room]);
    }
    assert RequestedOrActive(after.audit) == {};
  }

  /** A cutover leaves no open row and no grant, and nothing requested before it is ever granted later. */
  lemma CutoverIsFinal(w: World, rows: seq<Id>, cleanup: Id -> Reply, future: World)
    requires Inv(w) && Lists(rows, RequestedOrActive(w.audit))
    requires Later(w.CutOff(rows, cleanup), future)
    ensures var after := w.CutOff(rows, cleanup);
      && RequestedOrActive(after.audit) == {}
      && after.redis.active == map[]
      && (forall room :: room in future.redis.active ==> future.redis.active[room].value.sessionId !in w.audit)
  {
    CutoverEmpties(w, rows, cleanup);
    CutOffKeeps(w, rows, cleanup);
  }

  // ---- Runs ----

  datatype Op =
    | Wait(time: int)
    | Request(room: Room, who: Identity, token: Option<int>, sharer: Identity, version: int, view: CallView, id: Id, storeUp: bool)
    | Read(room: Room, id: Id, who: Identity)
    | Poll(room: Room, who: Identity)
    | Approval(room: Room, id: Id, who: Identity, token: Option<int>, version: int, view: CallView, digest: Digest,
               databaseUp: bool, publish: Reply, cleanup: Reply)
    | Denial(room: Room, id: Id, who: Identity)
    | Withdrawal(room: Room, id: Id, who: Identity)
    | Redemption(room: Room, id: Id, digest: Digest, version: int, minted: bool, cleanup: Reply)
    | Reissue(room: Room, id: Id, who: Identity, digest: Digest, cleanup: Reply)
    | Stopping(room: Room, id: Id, who: Identity, cleanup: Reply)
    | Renewal(room: Room, id: Id, who: Identity, databaseUp: bool, publish: Reply, cleanup: Reply)
    | Join(room: Room, who: Identity, publish: Reply, cleanup: Reply)
    | Leave(room: Room, who: Identity, cleanup: Reply)
    | RoomEnd(room: Room, found: Option<Id>, cleanup: Reply)
    | Sweep(due: seq<Id>, overdue: seq<Id>, replies: Id -> Reply)
    | Cutover(rows: seq<Id>, replies: Id -> Reply)

  function Apply(w: World, op: Op): World {
    match op
    case Wait(time) => w.Tick(time)
    case Request(room, who, token, sharer, version, view, id, storeUp) =>
      w.RequestControl(room, who, token, sharer, version, view, id, storeUp).0
    case Read(room, id, who) => w.GetRequest(room, id, who).0
    case Poll(room, who) => w.GetPendingRequest(room, who).0
    case Approval(room, id, who, token, version, view, digest, databaseUp, publish, cleanup) =>
      w.Approve(room, id, who, token, version, view, digest, databaseUp, publish, cleanup).0
    case Denial(room, id, who) => w.Deny(room, id, who).0
    case Withdrawal(room, id, who) => w.Withdraw(room, id, who).0
    case Redemption(room, id, digest, version, minted, cleanup) =>
      w.RedeemHelperToken(room, id, digest, version, minted, cleanup).0
    case Reissue(room, id, who, digest, cleanup) => w.ReissueBootstrap(room, id, who, digest, cleanup).0
    case Stopping(room, id, who, cleanup) => w.Stop(room, id, who, cleanup).0
    case Renewal(room, id, who, databaseUp, publish, cleanup) => w.Renew(room, id, who, databaseUp, publish, cleanup).0
    case Join(room, who, publish, cleanup) => w.OnParticipantJoined(room, who, publish, cleanup)
    case Leave(room, who, cleanup) => w.OnParticipantLeft(room, who, cleanup)
    case RoomEnd(room, found, cleanup) => w.OnRoomFinished(room, found, cleanup)
    case Sweep(due, overdue, replies) => w.Reconcile(due, overdue, replies)
    case Cutover(rows, replies) => w.CutOff(rows, replies)
  }

  /** What the environment guarantees: the clock runs forward, ids and digests are fresh, and a
      query returns the rows it selects. */
  ghost predicate Enabled(w: World, op: Op) {
    match op
    case Wait(time) => w.now <= time
    case Request(_, _, _, _, _, _, id, _) => id !in w.audit
    case Approval(_, _, _, _, _, _, digest, _, _, _) => digest !in w.history.issued
    case Reissue(_, _, _, digest, _) => digest !in w.history.issued
    case RoomEnd(room, found, _) => w.ActiveRowOf(room, found)
    case Sweep(due, overdue, _) =>
      Lists(due, DueActive(w.audit, w.now)) && Lists(overdue, ExpiredRequests(w.audit, w.now - REQUEST_TTL))
    case Cutover(rows, _) => Lists(rows, RequestedOrActive(w.audit))
    case _ => true
  }

  lemma StepKeeps(w: World, op: Op)
    requires Inv(w) && Enabled(w, op)
    ensures Keeps(w, Apply(w, op))
  {
    if OnRequest(op) {
      RequestStepKeeps(w, op);
    } else {
      SessionStepKeeps(w, op);
    }
  }

  predicate OnRequest(op: Op) {
    op.Wait? || op.Request? || op.Read? || op.Poll? || op.Approval? || op.Denial? || op.Withdrawal?
  }

  lemma RequestStepKeeps(w: World, op: Op)
    requires Inv(w) && Enabled(w, op) && OnRequest(op)
    ensures Keeps(w, Apply(w, op))
  {
    match op
    case Wait(time) => TickKeeps(w, time);
    case Request(room, who, token, sharer, version, view, id, storeUp) =>
      RequestKeeps(w, room, who, token, sharer, version, view, id, storeUp);
    case Read(room, id, who) => RequirePendingKeeps(w, room, id);
    case Poll(room, who) =>
      LaterReflexive(w);
      if room in w.redis.pending { ExpirePendingKeeps(w, room, w.redis.pending[room].value.requestId); }
    case Approval(room, id, who, token, version, view, digest, databaseUp, publish, cleanup) =>
      ApproveKeeps(w, room, id, who, token, version, view, digest, databaseUp, publish, cleanup);
    case Denial(room, id, who) => DenyKeeps(w, room, id, who);
    case Withdrawal(room, id, who) => WithdrawKeeps(w, room, id, who);
  }

  lemma SessionStepKeeps(w: World, op: Op)
    requires Inv(w) && Enabled(w, op) && !OnRequest(op)
    ensures Keeps(w, Apply(w, op))
  {
    match op
    case Redemption(room, id, digest, version, minted, cleanup) =>
      RedeemHelperTokenKeeps(w, room, id, digest, version, minted, cleanup);
    case Reissue(room, id, who, digest, cleanup) => ReissueKeeps(w, room, id, who, digest, cleanup);
    case Stopping(room, id, who, cleanup) => StopKeeps(w, room, id, who, cleanup);
    case Renewal(room, id, who, databaseUp, publish, cleanup) => RenewKeeps(w, room, id, who, databaseUp, publish, cleanup);
    case Join(room, who, publish, cleanup) => JoinedKeeps(w, room, who, publish, cleanup);
    case Leave(room, who, cleanup) => LeftKeeps(w, room, who, cleanup);
    case RoomEnd(room, found, cleanup) => FinishedKeeps(w, room, found, cleanup);
    case Sweep(due, overdue, replies) => ReconcileCatchesUp(w, due, overdue, replies);
    case Cutover(rows, replies) => CutOffKeeps(w, rows, replies);
  }

  ghost predicate Initial(w: World) {
    && w.redis == Redis(map[], map[], map[], map[])
    && w.audit == map[] && w.history == History({}, [], {}, map[])
  }

  ghost predicate IsRun(states: seq<World>, ops: seq<Op>) {
    && |states| == |ops| + 1
    && Initial(states[0])
    && (forall i :: 0 <= i < |ops| ==> Enabled(states[i], ops[i]) && states[i + 1] == Apply(states[i], ops[i]))
  }

  lemma {:induction false} RunInv(states: seq<World>, ops: seq<Op>, i: nat)
    requires IsRun(states, ops) && i < |states|
    ensures Inv(states[i])
  {
    if i > 0 {
      RunInv(states, ops, i - 1);
      StepKeeps(states[i - 1], ops[i - 1]);
    }
  }

  lemma {:induction false} RunLater(states: seq<World>, ops: seq<Op>, i: nat, j: nat)
    requires IsRun(states, ops) && i <= j < |states|
    ensures Inv(states[i]) && Later(states[i], states[j])
    decreases j
  {
    RunInv(states, ops, i);
    if i == j {
      LaterReflexive(states[i]);
    } else {
      RunLater(states, ops, i, j - 1);
      RunInv(states, ops, j - 1);
      StepKeeps(states[j - 1], ops[j - 1]);
      LaterTransitive(states[i], states[j - 1], states[j]);
    }
  }

  // ---- What the runs guarantee ----

  /** A live grant is backed by its active row, its deadlines are ordered, it never outlasts either
      token, and Redis keeps it for the storage grace beyond its consent deadline. */
  lemma LiveGrantIsBacked(states: seq<World>, ops: seq<Op>, i: nat, room: Room)
    requires IsRun(states, ops) && i < |states| && room in states[i].redis.active
    ensures var w, grant := states[i], states[i].redis.active[room].value;
      && grant.room == room && InStatus(w.audit, grant.sessionId, Active)
      && w.audit[grant.sessionId].room == room && w.audit[grant.sessionId].sharer == grant.sharer
      && w.audit[grant.sessionId].controller == grant.controller && w.audit[grant.sessionId].renewalDueAt.Some?
      && w.audit[grant.sessionId].renewalDueAt.value <= grant.renewalDueAt <= grant.authorizationExpiresAt
      && grant.sessionId in w.history.tokens && w.history.tokens[grant.sessionId].sharer.Some?
      && grant.authorizationExpiresAt
           <= Min(w.history.tokens[grant.sessionId].controller, w.history.tokens[grant.sessionId].sharer.value)
      && grant.renewalDueAt + STORAGE_GRACE <= w.redis.active[room].expiresAt
  {
    RunInv(states, ops, i);
    assert GrantOk(states[i].now, states[i].audit, states[i].history.tokens, states[i].history.issued,
                   room, states[i].redis.active[room]);
  }

  /** Rows only move requested -> active or terminal, active -> terminal. */
  lemma RowsOnlyMoveForward(states: seq<World>, ops: seq<Op>, i: nat, j: nat, id: Id)
    requires IsRun(states, ops) && i <= j < |states| && id in states[i].audit
    ensures id in states[j].audit && RowLater(states[i].audit[id], states[j].audit[id])
  {
    RunLater(states, ops, i, j);
  }

  /** Once a session's grant is gone it is never live again, in any room. */
  lemma NeverRevived(states: seq<World>, ops: seq<Op>, i: nat, j: nat, k: nat, room: Room, other: Room)
    requires IsRun(states, ops) && i <= j <= k < |states| && room in states[i].redis.active
    requires room !in states[j].redis.active
             || states[j].redis.active[room].value.sessionId != states[i].redis.active[room].value.sessionId
    requires other in states[k].redis.active
    ensures states[k].redis.active[other].value.sessionId != states[i].redis.active[room].value.sessionId
  {
    RunLater(states, ops, i, j);
    RunLater(states, ops, j, k);
    RunInv(states, ops, k);
    var id := states[i].redis.active[room].value.sessionId;
    LiveGrantIsBacked(states, ops, i, room);
    LiveGrantIsBacked(states, ops, k, other);
    assert RowLater(states[i].audit[id], states[j].audit[id]) && RowLater(states[j].audit[id], states[k].audit[id]);
  }

  /** A grant leaves Redis only with its own row closed, or by TTL at least the storage grace after
      its deadline: no other session's end, and no early expiry, can take it. */
  lemma GrantsEndOnTheirOwn(states: seq<World>, ops: seq<Op>, i: nat, j: nat, room: Room)
    requires IsRun(states, ops) && i <= j < |states| && room in states[i].redis.active
    requires room !in states[j].redis.active
             || states[j].redis.active[room].value.sessionId != states[i].redis.active[room].value.sessionId
    ensures var grant := states[i].redis.active[room].value;
      || (grant.sessionId in states[j].audit && Closing(states[j].audit[grant.sessionId].status))
      || grant.renewalDueAt + STORAGE_GRACE <= states[j].now
  {
    RunLater(states, ops, i, j);
    LiveGrantIsBacked(states, ops, i, room);
    var id := states[i].redis.active[room].value.sessionId;
    assert GrantLater(states[j].now, states[j].audit, states[i].redis.active[room].value, states[j].redis.active);
    assert RowLater(states[i].audit[id], states[j].audit[id]);
  }

  /** A room has at most one redeemable code, and none without its live session. */
  lemma OneCodePerRoom(states: seq<World>, ops: seq<Op>, i: nat, d: Digest, e: Digest)
    requires IsRun(states, ops) && i < |states|
    requires d in states[i].redis.bootstrap && e in states[i].redis.bootstrap
    ensures var code := states[i].redis.bootstrap[d].value;
      && code.room in states[i].redis.active && states[i].redis.active[code.room].value.sessionId == code.sessionId
      && (code.room == states[i].redis.bootstrap[e].value.room ==> d == e)
  {
    RunInv(states, ops, i);
    assert CodeOk(states[i].redis.active, states[i].history.issued, d, states[i].redis.bootstrap[d]);
    assert CodeOk(states[i].redis.active, states[i].history.issued, e, states[i].redis.bootstrap[e]);
  }

  predicate Redeems(w: World, op: Op, digest: Digest) {
    op.Redemption? && op.digest == digest
    && w.RedeemHelperToken(op.room, op.id, op.digest, op.version, op.minted, op.cleanup).1.Ok?
  }

  /** A bootstrap code is redeemed at most once. */
  lemma RedeemedAtMostOnce(states: seq<World>, ops: seq<Op>, i: nat, j: nat, digest: Digest)
    requires IsRun(states, ops) && i < j < |ops|
    requires Redeems(states[i], ops[i], digest)
    ensures !Redeems(states[j], ops[j], digest)
  {
    RedemptionSpends(states[i], ops[i], digest);
    assert digest in states[i].history.issued by {
      RunInv(states, ops, i);
      assert CodeOk(states[i].redis.active, states[i].history.issued, digest, states[i].redis.bootstrap[digest]);
    }
    assert digest !in states[j].redis.bootstrap by {
      RunLater(states, ops, i, i + 1);
      RunLater(states, ops, i + 1, j);
    }
    OnlyStoredCodesRedeem(states[j], ops[j], digest);
  }

  lemma OnlyStoredCodesRedeem(w: World, op: Op, digest: Digest)
    requires digest !in w.redis.bootstrap
    ensures !Redeems(w, op, digest)
  {
  }

  lemma RedemptionSpends(w: World, op: Op, digest: Digest)
    requires Redeems(w, op, digest)
    ensures digest in w.redis.bootstrap && digest !in Apply(w, op).redis.bootstrap
  {
  }

  /** Ending a session leaves every other session's grant and owner key alone. */
  lemma EndingIsScoped(w: World, grant: Grant, status: Status, reason: Reason, cleanup: Reply)
    ensures SparesOthers(w.redis, w.EndGrant(grant, status, reason, cleanup).redis, grant.sessionId)
    ensures SparesOthers(w.redis, w.EndAuditFallback(grant.sessionId, grant.room, status, reason, cleanup).redis, grant.sessionId)
  {
    ClearingIsScoped(w.redis, grant.room, grant.sessionId);
    ClearingIsScoped(w.redis.RevokeBootstrap(grant), grant.room, grant.sessionId);
  }

  ghost predicate SparesOthers(a: Redis, b: Redis, id: Id) {
    && (forall r :: r in a.active && a.active[r].value.sessionId != id ==> r in b.active && b.active[r] == a.active[r])
    && (forall r :: r in a.owner && a.owner[r].value != id ==> r in b.owner && b.owner[r] == a.owner[r])
  }

  lemma ClearingIsScoped(redis: Redis, room: Room, id: Id)
    ensures SparesOthers(redis, redis.ClearActive(room, id).0, id)
  {
  }
}
