/** How long the two people's own tokens let a session last: the law in terms of the tokens that were
    presented with the request and the approval, from those calls to the agent's gate. */
module RemoteControlAuthority {
  import opened Options
  import opened RemoteControlState
  import opened RemoteControlRepo
  import opened RemoteControlService
  import opened RemoteControlInvariants
  import opened RemoteControlSteps
  import opened RemoteControlRuns
  import opened RemoteControlPromises
  import opened RemoteControlOutcomes
  import opened RemoteControlSweeps
  import G = GrantGate

  /** The step is the successful request, or the successful approval, of this session. */
  ghost predicate Presents(w: World, op: Op, id: Id) {
    match op
    case Request(room, who, token, sharer, version, view, i, storeUp) =>
      i == id && w.RequestControl(room, who, token, sharer, version, view, i, storeUp).1.Ok?
    case Approval(room, i, who, token, version, view, digest, databaseUp, publish, cleanup) =>
      i == id && w.Approve(room, i, who, token, version, view, digest, databaseUp, publish, cleanup).1.Ok?
    case _ => false
  }

  /** `time` is within the token presented at this step; without one it lasts an hour from then. */
  ghost predicate Within(w: World, op: Op, time: int)
    requires op.Request? || op.Approval?
  {
    if op.token.Some? then time <= op.token.value else time <= w.now + 60 * 60_000
  }

  lemma RequestRecords(w: World, op: Op, id: Id)
    requires op.Request? && Presents(w, op, id)
    ensures id in Apply(w, op).history.tokens
    ensures Apply(w, op).history.tokens[id].controller == if op.token.Some? then op.token.value else w.now + 60 * 60_000
  {
  }

  lemma FinishRecords(w: World, grant: Grant, digest: Digest, publish: Reply, cleanup: Reply)
    ensures w.Finish(grant, digest, publish, cleanup).0.history.tokens == w.history.tokens
  {
  }

  lemma StartRecords(w: World, grant: Grant, sharerToken: int, digest: Digest, databaseUp: bool, publish: Reply, cleanup: Reply)
    requires grant.sessionId in w.history.tokens && w.Start(grant, sharerToken, digest, databaseUp, publish, cleanup).1.Ok?
    ensures var after := w.Start(grant, sharerToken, digest, databaseUp, publish, cleanup).0;
      grant.sessionId in after.history.tokens && after.history.tokens[grant.sessionId].sharer == Some(sharerToken)
  {
    var rows := ActivateRow(w.audit, grant.sessionId, grant.agent, w.now, grant.renewalDueAt).0;
    FinishRecords(w.(audit := rows).GrantTokens(grant.sessionId, sharerToken), grant, digest, publish, cleanup);
  }

  lemma ApproveRecords(w: World, op: Op, id: Id)
    requires Inv(w) && op.Approval? && Presents(w, op, id)
    ensures id in Apply(w, op).history.tokens
    ensures Apply(w, op).history.tokens[id].sharer == Some(if op.token.Some? then op.token.value else w.now + 60 * 60_000)
  {
    var sharerToken := if op.token.Some? then op.token.value else w.now + 60 * 60_000;
    ApproveUnfolds(w, op.room, id, op.who, op.token, op.version, op.view, op.digest, op.databaseUp, op.publish, op.cleanup);
    TakeUnfolds(w, op.room, id, sharerToken, op.digest, op.databaseUp, op.publish, op.cleanup);
    var request := w.redis.pending[op.room].value;
    assert id in w.history.tokens by {
      assert PendingOk(w.audit, w.history.tokens, op.room, request);
    }
    var holding := w.(redis := w.redis.(pending := w.redis.pending - {op.room}));
    var grant := NewGrant(request, sharerToken, w.now);
    StartRecords(holding.(redis := holding.redis.Activate(grant, w.now).0), grant, sharerToken, op.digest, op.databaseUp, op.publish, op.cleanup);
  }

  /** What was recorded when the token was presented is still recorded later. */
  lemma RecordsLast(states: seq<World>, ops: seq<Op>, k: nat, i: nat, id: Id)
    requires IsRun(states, ops) && k < i < |states| && Presents(states[k], ops[k], id)
    ensures id in states[i].history.tokens
    ensures var bound := if ops[k].token.Some? then ops[k].token.value else states[k].now + 60 * 60_000;
      && (ops[k].Request? ==> states[i].history.tokens[id].controller == bound)
      && (ops[k].Approval? ==> states[i].history.tokens[id].sharer == Some(bound))
  {
    assert states[k + 1] == Apply(states[k], ops[k]);
    if ops[k].Request? {
      RequestRecords(states[k], ops[k], id);
    } else {
      assert Inv(states[k]) by { RunInv(states, ops, k); }
      ApproveRecords(states[k], ops[k], id);
    }
    assert TokensLater(states[k + 1].history.tokens, states[i].history.tokens) by {
      RunLater(states, ops, k + 1, i);
    }
  }

  /** At any time after a request or an approval, the session's live grant is authorised no longer than the
      token presented with it lasts. */
  lemma GrantWithinTokens(states: seq<World>, ops: seq<Op>, k: nat, i: nat, room: Room)
    requires IsRun(states, ops) && k < i < |states| && room in states[i].redis.active
    requires Presents(states[k], ops[k], states[i].redis.active[room].value.sessionId)
    ensures Within(states[k], ops[k], states[i].redis.active[room].value.authorizationExpiresAt)
    ensures Within(states[k], ops[k], states[i].redis.active[room].value.renewalDueAt)
  {
    LiveGrantIsBacked(states, ops, i, room);
    RecordsLast(states, ops, k, i, states[i].redis.active[room].value.sessionId);
  }

  /** And whatever projection ever published the agent still sees, a packet it accepts comes before either
      token, as it was presented with the request and with the approval, has run out. */
  lemma PacketsWithinTokens<C>(states: seq<World>, ops: seq<Op>, k: nat, i: nat, b: Snapshot, last: Option<nat>, a: G.Arrival<C>)
    requires IsRun(states, ops) && k < i < |states| && Presents(states[k], ops[k], b.sessionId)
    requires a.projection.Some? ==> a.projection.value in states[i].history.published
    requires G.Decide(b, last, a).1.Accepted?
    ensures Within(states[k], ops[k], a.now + 1)
  {
    G.AcceptedWithinTokens(states, ops, i, b, last, a);
    RecordsLast(states, ops, k, i, b.sessionId);
  }

  // ---- What the agent can see ----

  /** Whatever a room shows was published. */
  ghost predicate Logged(w: World) {
    forall room :: room in w.metadata ==> w.metadata[room] in w.history.published
  }

  /** Metadata that only loses projections, under a log that only grows. */
  lemma LoggedLess(w: World, after: World)
    requires Logged(w) && w.history.published <= after.history.published
    requires forall room :: room in after.metadata ==> room in w.metadata && after.metadata[room] == w.metadata[room]
    ensures Logged(after)
  {
    forall room | room in after.metadata ensures after.metadata[room] in after.history.published {
      assert w.metadata[room] in w.history.published;
    }
  }

  lemma LoggedShown(w: World, after: World, grant: Grant, publish: Reply, cleanup: Option<Reply>)
    requires Logged(w) && Announced(w, after, grant, publish)
    requires var shown := if publish.Rejected? then w.metadata else Shown(w.metadata, grant);
      after.metadata == if cleanup.Some? then Hidden(shown, grant.room, cleanup.value) else shown
    ensures Logged(after)
  {
  }

  lemma LoggedRequestOp(w: World, op: Op)
    requires Inv(w) && Logged(w) && OnRequest(op)
    ensures Logged(Apply(w, op))
  {
    match op
    case Wait(time) =>
    case Request(room, who, token, sharer, version, view, id, storeUp) =>
      RequestOutcome(w, room, who, token, sharer, version, view, id, storeUp);
      LoggedLess(w, Apply(w, op));
    case Read(room, id, who) =>
      ReadOutcome(w, room, id, who);
      LoggedLess(w, Apply(w, op));
    case Poll(room, who) =>
      assert room in w.redis.pending ==> PendingOk(w.audit, w.history.tokens, room, w.redis.pending[room].value);
      PollOutcome(w, room, who);
      LoggedLess(w, Apply(w, op));
    case Approval(room, id, who, token, version, view, digest, databaseUp, publish, cleanup) =>
      LoggedApproval(w, room, id, who, token, version, view, digest, databaseUp, publish, cleanup);
    case Denial(room, id, who) =>
      DenyOutcome(w, room, id, who);
      LoggedLess(w, Apply(w, op));
    case Withdrawal(room, id, who) =>
      WithdrawOutcome(w, room, id, who);
      LoggedLess(w, Apply(w, op));
  }

  lemma LoggedStart(w: World, after: World, outcome: Outcome<Grant>, request: Pending, authorization: int, digest: Digest,
                    databaseUp: bool, publish: Reply, cleanup: Reply)
    requires Logged(w) && StartPromise(w, after, outcome, request, authorization, digest, databaseUp, publish, cleanup)
    ensures Logged(after)
  {
    var grant := Grant(request.requestId, request.room, request.sharer, request.controller, AgentOf(request.requestId), AwaitingAgent, false,
                       w.now, Min(w.now + 30 * 60_000, authorization), authorization, None);
    if outcome.Ok? {
      LoggedShown(w, after, grant, Applied, None);
    } else if SameLog(w, after) {
      LoggedLess(w, after);
    } else {
      LoggedShown(w, after, grant, publish, Some(cleanup));
    }
  }

  lemma LoggedFreed(w: World, after: World, room: Room, id: Id, status: Status, reason: Reason)
    requires Logged(w) && Freed(w, after, room, id, status, reason)
    ensures Logged(after)
  {
    LoggedLess(w, after);
  }

  lemma LoggedApproval(w: World, room: Room, id: Id, who: Identity, token: Option<int>, version: int, view: CallView,
                       digest: Digest, databaseUp: bool, publish: Reply, cleanup: Reply)
    requires Inv(w) && Logged(w)
    ensures Logged(w.Approve(room, id, who, token, version, view, digest, databaseUp, publish, cleanup).0)
  {
    var (after, outcome) := w.Approve(room, id, who, token, version, view, digest, databaseUp, publish, cleanup);
    ApproveOutcome(w, room, id, who, token, version, view, digest, databaseUp, publish, cleanup);
    if after == w {
      return;
    }
    if !Awaits(w, room, id) {
      LoggedFreed(w, after, room, id, Expired, RequestTimeout);
      return;
    }
    var request := w.redis.pending[room].value;
    var authorization := Min(request.controllerTokenExpiresAt, if token.Some? then token.value else w.now + 60 * 60_000);
    if authorization <= w.now {
      LoggedFreed(w, after, room, id, Failed, ParticipantAuthorizationExpired);
    } else if room in w.redis.active {
      LoggedFreed(w, after, room, id, Failed, RoomInProgress);
    } else {
      LoggedStart(w, after, outcome, request, authorization, digest, databaseUp, publish, cleanup);
    }
  }

  lemma LoggedRenewal(w: World, room: Room, id: Id, who: Identity, databaseUp: bool, publish: Reply, cleanup: Reply)
    requires Inv(w) && Logged(w)
    ensures Logged(w.Renew(room, id, who, databaseUp, publish, cleanup).0)
  {
    var after := w.Renew(room, id, who, databaseUp, publish, cleanup).0;
    RenewOutcome(w, room, id, who, databaseUp, publish, cleanup);
    if SameLog(w, after) {
      LoggedLess(w, after);
    } else {
      var grant := w.redis.active[room].value;
      assert grant.room == room by { InvPlaces(w); }
      LoggedShown(w, after, grant.(renewalDueAt := Min(w.now + 30 * 60_000, grant.authorizationExpiresAt)), publish, None);
    }
  }

  lemma LoggedJoin(w: World, room: Room, who: Identity, publish: Reply, cleanup: Reply)
    requires Inv(w) && Logged(w)
    ensures Logged(w.OnParticipantJoined(room, who, publish, cleanup))
  {
    var after := w.OnParticipantJoined(room, who, publish, cleanup);
    JoinOutcome(w, room, who, publish, cleanup);
    if SameLog(w, after) {
      LoggedLess(w, after);
    } else {
      var grant := w.redis.active[room].value;
      assert grant.room == room by { InvPlaces(w); }
      LoggedShown(w, after, grant.(status := AgentActive, agentConnected := true), publish, if publish.Applied? then None else Some(cleanup));
    }
  }

  lemma LoggedSwept(w: World, after: World, ids: seq<Id>, close: Close, cleanup: Id -> Reply)
    requires Logged(w) && Swept(w, after, ids, close, cleanup)
    ensures Logged(after)
  {
    forall room | room in after.metadata ensures room in w.metadata && after.metadata[room] == w.metadata[room] {
      assert SweptRoom(w, after, ids, cleanup, room);
    }
    LoggedLess(w, after);
  }

  lemma LoggedRedemption(w: World, room: Room, id: Id, digest: Digest, version: int, minted: bool, cleanup: Reply)
    requires Inv(w) && Logged(w)
    ensures Logged(w.RedeemHelperToken(room, id, digest, version, minted, cleanup).0)
  {
    RedeemOutcome(w, room, id, digest, version, minted, cleanup);
    LoggedLess(w, w.RedeemHelperToken(room, id, digest, version, minted, cleanup).0);
  }

  lemma LoggedReissue(w: World, room: Room, id: Id, who: Identity, digest: Digest, cleanup: Reply)
    requires Inv(w) && Logged(w)
    ensures Logged(w.ReissueBootstrap(room, id, who, digest, cleanup).0)
  {
    ReissueOutcome(w, room, id, who, digest, cleanup);
    LoggedLess(w, w.ReissueBootstrap(room, id, who, digest, cleanup).0);
  }

  lemma LoggedStop(w: World, room: Room, id: Id, who: Identity, cleanup: Reply)
    requires Inv(w) && Logged(w)
    ensures Logged(w.Stop(room, id, who, cleanup).0)
  {
    StopOutcome(w, room, id, who, cleanup);
    LoggedLess(w, w.Stop(room, id, who, cleanup).0);
  }

  lemma LoggedLeave(w: World, room: Room, who: Identity, cleanup: Reply)
    requires Inv(w) && Logged(w)
    ensures Logged(w.OnParticipantLeft(room, who, cleanup))
  {
    LeaveOutcome(w, room, who, cleanup);
    LoggedLess(w, w.OnParticipantLeft(room, who, cleanup));
  }

  lemma LoggedFinish(w: World, room: Room, found: Option<Id>, cleanup: Reply)
    requires Inv(w) && Logged(w) && w.ActiveRowOf(room, found)
    ensures Logged(w.OnRoomFinished(room, found, cleanup))
  {
    FinishedOutcome(w, room, found, cleanup);
    LoggedLess(w, w.OnRoomFinished(room, found, cleanup));
  }

  lemma LoggedSweep(w: World, due: seq<Id>, overdue: seq<Id>, replies: Id -> Reply)
    requires Inv(w) && Logged(w) && Enabled(w, Sweep(due, overdue, replies))
    ensures Logged(w.Reconcile(due, overdue, replies))
  {
    ReconcileIsExact(w, due, overdue, replies);
    LoggedSwept(w, w.Reconcile(due, overdue, replies), due + overdue, RECONCILED, replies);
  }

  lemma LoggedCutover(w: World, rows: seq<Id>, replies: Id -> Reply)
    requires Inv(w) && Logged(w) && Enabled(w, Cutover(rows, replies))
    ensures Logged(w.CutOff(rows, replies))
  {
    CutoverIsExact(w, rows, replies);
    LoggedSwept(w, w.CutOff(rows, replies), rows, CUT, replies);
  }

  lemma LoggedSessionOp(w: World, op: Op)
    requires Inv(w) && Enabled(w, op) && Logged(w) && !OnRequest(op)
    ensures Logged(Apply(w, op))
  {
    match op
    case Redemption(room, id, digest, version, minted, cleanup) => LoggedRedemption(w, room, id, digest, version, minted, cleanup);
    case Reissue(room, id, who, digest, cleanup) => LoggedReissue(w, room, id, who, digest, cleanup);
    case Stopping(room, id, who, cleanup) => LoggedStop(w, room, id, who, cleanup);
    case Renewal(room, id, who, databaseUp, publish, cleanup) => LoggedRenewal(w, room, id, who, databaseUp, publish, cleanup);
    case Join(room, who, publish, cleanup) => LoggedJoin(w, room, who, publish, cleanup);
    case Leave(room, who, cleanup) => LoggedLeave(w, room, who, cleanup);
    case RoomEnd(room, found, cleanup) => LoggedFinish(w, room, found, cleanup);
    case Sweep(due, overdue, replies) => LoggedSweep(w, due, overdue, replies);
    case Cutover(rows, replies) => LoggedCutover(w, rows, replies);
  }

  lemma {:induction false} RunLogged(states: seq<World>, ops: seq<Op>, i: nat)
    requires IsRun(states, ops) && i < |states| && Logged(states[0])
    ensures Logged(states[i])
  {
    if i > 0 {
      RunLogged(states, ops, i - 1);
      RunInv(states, ops, i - 1);
      if OnRequest(ops[i - 1]) {
        LoggedRequestOp(states[i - 1], ops[i - 1]);
      } else {
        LoggedSessionOp(states[i - 1], ops[i - 1]);
      }
    }
  }

  /** Over any run that starts with nothing shown: with whatever the room's metadata showed at any time, a
      packet that the agent accepts comes before either presented token has run out. */
  lemma SeenPacketsWithinTokens<C>(states: seq<World>, ops: seq<Op>, k: nat, j: nat, i: nat, room: Room, b: Snapshot, last: Option<nat>,
                                   a: G.Arrival<C>)
    requires IsRun(states, ops) && states[0].metadata == map[] && k < i < |states| && j <= i && Presents(states[k], ops[k], b.sessionId)
    requires room in states[j].metadata && a.projection == Some(states[j].metadata[room])
    requires G.Decide(b, last, a).1.Accepted?
    ensures Within(states[k], ops[k], a.now + 1)
  {
    RunLogged(states, ops, j);
    assert states[j].history.published <= states[i].history.published by {
      RunLater(states, ops, j, i);
    }
    PacketsWithinTokens(states, ops, k, i, b, last, a);
  }
}
