/** The reconciler and the operator's cutover, exactly: which rows, grants, requests, locks and projections
    they change, and that they leave all others alone. */
module RemoteControlSweeps {
  import opened Options
  import opened RemoteControlState
  import opened RemoteControlRepo
  import opened RemoteControlService
  import opened RemoteControlInvariants
  import opened RemoteControlSteps
  import opened RemoteControlRuns
  import opened RemoteControlPromises
  import opened RemoteControlOutcomes

  /** Ending the session of one active row, whether Redis still holds its grant or not. */
  ghost predicate RowEnded(s: World, t: World, id: Id, room: Room, status: Status, reason: Reason, cleanup: Reply) {
    && SameClock(s, t) && SameLog(s, t) && t.audit == Closed(s.audit, id, Active, status, reason, s.now)
    && t.redis.pending == s.redis.pending && t.metadata == Hidden(s.metadata, room, cleanup)
    && t.redis.active == (if Held(s, room, id) then s.redis.active - {room} else s.redis.active)
    && t.redis.owner == (if Held(s, room, id) then Unlocked(s.redis.owner, room, id) else s.redis.owner)
  }

  lemma EndRowIs(s: World, id: Id, room: Room, status: Status, reason: Reason, cleanup: Reply)
    requires room in s.redis.active ==> s.redis.active[room].value.room == room
    ensures RowEnded(s, s.EndRowSession(id, room, status, reason, cleanup), id, room, status, reason, cleanup)
  {
    if Held(s, room, id) {
      EndUnfolds(s, room, status, reason, cleanup);
    }
  }

  /** Every stored grant and request is under its own room, and its row names that room. */
  ghost predicate Placed(w: World) {
    && (forall room :: room in w.redis.active ==>
          var grant := w.redis.active[room].value;
          grant.room == room && InStatus(w.audit, grant.sessionId, Active) && w.audit[grant.sessionId].room == room)
    && (forall room :: room in w.redis.pending ==>
          var request := w.redis.pending[room].value;
          request.room == room && request.requestId in w.audit && w.audit[request.requestId].room == room && w.audit[request.requestId].status != Active)
  }

  lemma InvPlaces(w: World)
    requires Inv(w)
    ensures Placed(w)
  {
    forall room | room in w.redis.active
      ensures var grant := w.redis.active[room].value;
        grant.room == room && InStatus(w.audit, grant.sessionId, Active) && w.audit[grant.sessionId].room == room
    {
      assert GrantOk(w.now, w.audit, w.history.tokens, w.history.issued, room, w.redis.active[room]);
    }
    forall room | room in w.redis.pending
      ensures var request := w.redis.pending[room].value;
        request.room == room && request.requestId in w.audit && w.audit[request.requestId].room == room && w.audit[request.requestId].status != Active
    {
      assert PendingOk(w.audit, w.history.tokens, room, w.redis.pending[room].value);
    }
  }

  /** How a sweep closes an open row. */
  datatype Close = Close(ended: Status, endReason: Reason, dropped: Status, dropReason: Reason)
  {
    ghost function Row(row: Row, now: int): Row {
      if row.status == Active then ClosedAs(row, ended, endReason, now) else ClosedAs(row, dropped, dropReason, now)
    }
  }

  /** The open rows of `ids` are closed: active ones with the grant and lock they had and the projection of
      their room, requested ones with their two keys. Everything else is as it was. */
  ghost predicate Swept(w: World, t: World, ids: seq<Id>, close: Close, cleanup: Id -> Reply) {
    && SameClock(w, t) && SameLog(w, t) && t.audit.Keys == w.audit.Keys
    && (forall id :: id in w.audit ==> t.audit[id] == if id in ids then close.Row(w.audit[id], w.now) else w.audit[id])
    && (forall room :: SweptRoom(w, t, ids, cleanup, room))
  }

  /** One room's keys and projection. */
  ghost predicate SweptRoom(w: World, t: World, ids: seq<Id>, cleanup: Id -> Reply, room: Room) {
    && After(w.redis.active, t.redis.active, room, room in w.redis.active && w.redis.active[room].value.sessionId in ids)
    && After(w.redis.pending, t.redis.pending, room, room in w.redis.pending && w.redis.pending[room].value.requestId in ids)
    && After(w.redis.owner, t.redis.owner, room, LosesLock(w, ids, room))
    && After(w.metadata, t.metadata, room, TakenDown(w, ids, cleanup, room))
  }

  /** The key is gone, or as it was. */
  ghost predicate After<K, V>(a: map<K, V>, b: map<K, V>, key: K, gone: bool) {
    if gone then key !in b else SameAt(a, b, key)
  }

  ghost predicate LosesLock(w: World, ids: seq<Id>, room: Room) {
    && room in w.redis.owner && w.redis.owner[room].value in ids && w.redis.owner[room].value in w.audit
    && var id := w.redis.owner[room].value;
      if w.audit[id].status == Active then Held(w, room, id) else w.audit[id].room == room
  }

  ghost predicate TakenDown(w: World, ids: seq<Id>, cleanup: Id -> Reply, room: Room) {
    exists id :: id in ids && id in w.audit && w.audit[id].status == Active && w.audit[id].room == room && !cleanup(id).Rejected?
  }

  lemma TakenDownAppend(w: World, ids: seq<Id>, id: Id, cleanup: Id -> Reply, room: Room)
    requires id in w.audit
    ensures TakenDown(w, ids + [id], cleanup, room) <==>
      TakenDown(w, ids, cleanup, room) || (w.audit[id].status == Active && w.audit[id].room == room && !cleanup(id).Rejected?)
  {
    assert forall i :: i in ids + [id] <==> i in ids || i == id;
    if TakenDown(w, ids, cleanup, room) {
      var i :| i in ids && i in w.audit && w.audit[i].status == Active && w.audit[i].room == room && !cleanup(i).Rejected?;
      assert i in ids + [id];
    }
  }

  lemma LosesLockAppend(w: World, ids: seq<Id>, id: Id, room: Room)
    requires id in w.audit
    ensures LosesLock(w, ids + [id], room) <==>
      || LosesLock(w, ids, room)
      || (&& room in w.redis.owner && w.redis.owner[room].value == id
          && if w.audit[id].status == Active then Held(w, room, id) else w.audit[id].room == room)
  {
    assert forall i :: i in ids + [id] <==> i in ids || i == id;
  }

  lemma EndedRoom(w: World, s: World, t: World, ids: seq<Id>, id: Id, status: Status, reason: Reason, cleanup: Id -> Reply, room: Room)
    requires Placed(w) && InStatus(w.audit, id, Active) && id !in ids && (forall r :: SweptRoom(w, s, ids, cleanup, r))
    requires RowEnded(s, t, id, w.audit[id].room, status, reason, cleanup(id))
    ensures SweptRoom(w, t, ids + [id], cleanup, room)
  {
    var own := w.audit[id].room;
    assert forall i :: i in ids + [id] <==> i in ids || i == id;
    TakenDownAppend(w, ids, id, cleanup, room);
    LosesLockAppend(w, ids, id, room);
    assert SweptRoom(w, s, ids, cleanup, own) && SweptRoom(w, s, ids, cleanup, room);
    assert Held(s, own, id) <==> Held(w, own, id);
    assert room in w.redis.pending ==> w.redis.pending[room].value.requestId in w.audit;
  }

  lemma FreedRoom(w: World, s: World, t: World, ids: seq<Id>, id: Id, status: Status, reason: Reason, cleanup: Id -> Reply, room: Room)
    requires Placed(w) && InStatus(w.audit, id, Requested) && id !in ids && (forall r :: SweptRoom(w, s, ids, cleanup, r))
    requires Freed(s, t, w.audit[id].room, id, status, reason)
    ensures SweptRoom(w, t, ids + [id], cleanup, room)
  {
    var own := w.audit[id].room;
    assert forall i :: i in ids + [id] <==> i in ids || i == id;
    TakenDownAppend(w, ids, id, cleanup, room);
    LosesLockAppend(w, ids, id, room);
    assert SweptRoom(w, s, ids, cleanup, own) && SweptRoom(w, s, ids, cleanup, room);
    assert room in w.redis.active ==> InStatus(w.audit, w.redis.active[room].value.sessionId, Active);
  }

  /** One more row. */
  lemma SweptEnded(w: World, s: World, t: World, ids: seq<Id>, id: Id, close: Close, cleanup: Id -> Reply)
    requires Placed(w) && InStatus(w.audit, id, Active) && id !in ids && Swept(w, s, ids, close, cleanup)
    requires RowEnded(s, t, id, w.audit[id].room, close.ended, close.endReason, cleanup(id))
    ensures Swept(w, t, ids + [id], close, cleanup)
  {
    forall room ensures SweptRoom(w, t, ids + [id], cleanup, room) {
      EndedRoom(w, s, t, ids, id, close.ended, close.endReason, cleanup, room);
    }
    assert forall i :: i in ids + [id] <==> i in ids || i == id;
  }

  lemma SweptFreed(w: World, s: World, t: World, ids: seq<Id>, id: Id, close: Close, cleanup: Id -> Reply)
    requires Placed(w) && InStatus(w.audit, id, Requested) && id !in ids && Swept(w, s, ids, close, cleanup)
    requires Freed(s, t, w.audit[id].room, id, close.dropped, close.dropReason)
    ensures Swept(w, t, ids + [id], close, cleanup)
  {
    forall room ensures SweptRoom(w, t, ids + [id], cleanup, room) {
      FreedRoom(w, s, t, ids, id, close.dropped, close.dropReason, cleanup, room);
    }
    assert forall i :: i in ids + [id] <==> i in ids || i == id;
  }

  lemma SweptKeepsPlaces(w: World, s: World, ids: seq<Id>, close: Close, cleanup: Id -> Reply, room: Room)
    requires Placed(w) && Swept(w, s, ids, close, cleanup)
    ensures room in s.redis.active ==> s.redis.active[room].value.room == room
  {
    assert SweptRoom(w, s, ids, cleanup, room);
  }

  const RECONCILED := Close(Expired, RenewalTimeout, Expired, RequestTimeout)

  lemma NothingSwept(w: World, close: Close, cleanup: Id -> Reply)
    ensures Swept(w, w, [], close, cleanup)
  {
  }

  lemma {:induction false} EndDueIs(w: World, rows: seq<Id>, cleanup: Id -> Reply)
    requires Placed(w) && Distinct(rows) && forall id :: id in rows ==> InStatus(w.audit, id, Active)
    ensures Swept(w, w.EndDue(rows, cleanup), rows, RECONCILED, cleanup)
  {
    if rows == [] {
      NothingSwept(w, RECONCILED, cleanup);
    } else {
      var init, id := rows[..|rows| - 1], rows[|rows| - 1];
      EndDueIs(w, init, cleanup);
      assert id in rows && id !in init && rows == init + [id];
      var s := w.EndDue(init, cleanup);
      SweptKeepsPlaces(w, s, init, RECONCILED, cleanup, w.audit[id].room);
      EndRowIs(s, id, w.audit[id].room, Expired, RenewalTimeout, cleanup(id));
      SweptEnded(w, s, w.EndDue(rows, cleanup), init, id, RECONCILED, cleanup);
    }
  }

  lemma {:induction false} OverdueIs(w: World, s: World, due: seq<Id>, rows: seq<Id>, cleanup: Id -> Reply)
    requires Placed(w) && Distinct(rows) && Swept(w, s, due, RECONCILED, cleanup)
    requires forall id :: id in rows ==> InStatus(w.audit, id, Requested) && id !in due
    ensures Swept(w, s.ExpireOverdue(rows), due + rows, RECONCILED, cleanup)
  {
    if rows == [] {
      assert due + rows == due;
    } else {
      var init, id := rows[..|rows| - 1], rows[|rows| - 1];
      OverdueIs(w, s, due, init, cleanup);
      assert id in rows && id !in init && rows == init + [id];
      var t := s.ExpireOverdue(init);
      ExpirePendingFrees(t, w.audit[id].room, id);
      assert s.audit[id].room == w.audit[id].room;
      SweptFreed(w, t, s.ExpireOverdue(rows), due + init, id, RECONCILED, cleanup);
      assert due + init + [id] == due + rows;
    }
  }

  /** A row that the reconciler may end at `now`, and no other. */
  predicate Due(row: Row, now: int) {
    || (row.status == Active && row.renewalDueAt.Some? && row.renewalDueAt.value <= now)
    || (row.status == Requested && row.createdAt <= now - 30_000)
  }

  /** A reconcile closes exactly the active rows past their deadline and the requests older than thirty
      seconds, and takes exactly their keys and projections: every other row, grant, request, lock and
      projection is as it was. */
  lemma ReconcileIsExact(w: World, due: seq<Id>, overdue: seq<Id>, cleanup: Id -> Reply)
    requires Inv(w)
    requires Lists(due, DueActive(w.audit, w.now)) && Lists(overdue, ExpiredRequests(w.audit, w.now - REQUEST_TTL))
    ensures var after := w.Reconcile(due, overdue, cleanup);
      && Swept(w, after, due + overdue, RECONCILED, cleanup)
      && (forall id :: id in due + overdue <==> id in w.audit && Due(w.audit[id], w.now))
  {
    InvPlaces(w);
    EndDueIs(w, due, cleanup);
    OverdueIs(w, w.EndDue(due, cleanup), due, overdue, cleanup);
  }

  const CUT := Close(Ended, ProtocolUpgrade, Failed, ProtocolUpgrade)

  lemma ReleaseAndCloseFrees(w: World, room: Room, id: Id, status: Status, reason: Reason)
    ensures Freed(w, w.ReleasePending(room, id).CloseRequest(id, status, reason), room, id, status, reason)
  {
  }

  lemma {:induction false} CutOffIs(w: World, rows: seq<Id>, cleanup: Id -> Reply)
    requires Placed(w) && Distinct(rows) && forall id :: id in rows ==> InStatus(w.audit, id, Requested) || InStatus(w.audit, id, Active)
    ensures Swept(w, w.CutOff(rows, cleanup), rows, CUT, cleanup)
  {
    if rows == [] {
      NothingSwept(w, CUT, cleanup);
    } else {
      var init, id := rows[..|rows| - 1], rows[|rows| - 1];
      CutOffIs(w, init, cleanup);
      assert id in rows && id !in init && rows == init + [id];
      var s, room := w.CutOff(init, cleanup), w.audit[id].room;
      if w.audit[id].status == Requested {
        ReleaseAndCloseFrees(s, room, id, Failed, ProtocolUpgrade);
        SweptFreed(w, s, w.CutOff(rows, cleanup), init, id, CUT, cleanup);
      } else {
        SweptKeepsPlaces(w, s, init, CUT, cleanup, room);
        EndRowIs(s, id, room, Ended, ProtocolUpgrade, cleanup(id));
        SweptEnded(w, s, w.CutOff(rows, cleanup), init, id, CUT, cleanup);
      }
    }
  }

  /** A cutover closes exactly the open rows, and takes exactly their keys and projections. */
  lemma CutoverIsExact(w: World, rows: seq<Id>, cleanup: Id -> Reply)
    requires Inv(w) && Lists(rows, RequestedOrActive(w.audit))
    ensures Swept(w, w.CutOff(rows, cleanup), rows, CUT, cleanup)
    ensures forall id :: id in rows <==> id in w.audit && (w.audit[id].status == Requested || w.audit[id].status == Active)
  {
    InvPlaces(w);
    CutOffIs(w, rows, cleanup);
  }

  /** So a session with consent left, and a request that is still young, come through a reconcile untouched. */
  lemma ReconcileSparesTheRest(w: World, due: seq<Id>, overdue: seq<Id>, cleanup: Id -> Reply, room: Room)
    requires Inv(w)
    requires Lists(due, DueActive(w.audit, w.now)) && Lists(overdue, ExpiredRequests(w.audit, w.now - REQUEST_TTL))
    ensures var after := w.Reconcile(due, overdue, cleanup);
      && (room in w.redis.active && w.audit[w.redis.active[room].value.sessionId].renewalDueAt.value > w.now ==>
            && SameAt(w.redis.active, after.redis.active, room)
            && SameAt(w.audit, after.audit, w.redis.active[room].value.sessionId))
      && (room in w.redis.pending && w.audit[w.redis.pending[room].value.requestId].createdAt > w.now - 30_000 ==>
            && SameAt(w.redis.pending, after.redis.pending, room)
            && SameAt(w.audit, after.audit, w.redis.pending[room].value.requestId)
            && (OwnsRoom(w, room, w.redis.pending[room].value.requestId) ==> SameAt(w.redis.owner, after.redis.owner, room)))
  {
    InvPlaces(w);
    ReconcileIsExact(w, due, overdue, cleanup);
    assert SweptRoom(w, w.Reconcile(due, overdue, cleanup), due + overdue, cleanup, room);
  }

  /** Time takes exactly the entries whose TTL has run out, and nothing else. */
  lemma TickIsExact(w: World, time: int, room: Room, digest: Digest)
    ensures var after := w.Tick(time);
      && after.now == time && after.audit == w.audit && after.metadata == w.metadata && after.rooms == w.rooms
      && SameLog(w, after)
      && After(w.redis.owner, after.redis.owner, room, room in w.redis.owner && w.redis.owner[room].expiresAt <= time)
      && After(w.redis.pending, after.redis.pending, room, room in w.redis.pending && w.redis.pending[room].expiresAt <= time)
      && After(w.redis.active, after.redis.active, room, room in w.redis.active && w.redis.active[room].expiresAt <= time)
      && After(w.redis.bootstrap, after.redis.bootstrap, digest, digest in w.redis.bootstrap && w.redis.bootstrap[digest].expiresAt <= time)
  {
  }
}
