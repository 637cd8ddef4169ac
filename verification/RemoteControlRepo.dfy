/** The audit table of Remote Control sessions: rows that move only by conditional update. */
module RemoteControlRepo {
  import opened Options
  import opened RemoteControlState

  datatype Status = Requested | Active | Denied | Withdrawn | Ended | Expired | Failed

  /** Why a row ended: one code per text the service writes. */
  type Reason = nat
  const RedisUnavailable: Reason := 0
  const RoomInProgress: Reason := 1
  const ParticipantAuthorizationExpired: Reason := 2
  const ParticipantDisconnected: Reason := 3
  const SharerDenied: Reason := 4
  const ControllerWithdrew: Reason := 5
  const RequestTimeout: Reason := 6
  const RenewalTimeout: Reason := 7
  const StartupFailed: Reason := 8
  const HelperTokenFailed: Reason := 9
  const GrantMissing: Reason := 10
  const AgentMetadataFailed: Reason := 11
  const SharerStopped: Reason := 12
  const ControllerStopped: Reason := 13
  const SharerDisconnected: Reason := 14
  const ControllerDisconnected: Reason := 15
  const AgentDisconnected: Reason := 16
  const RoomFinished: Reason := 17
  const ProtocolUpgrade: Reason := 18

  datatype Row = Row(
    room: Room, sharer: Identity, controller: Identity, status: Status, createdAt: int,
    agent: Option<Identity>, startedAt: Option<int>, renewalDueAt: Option<int>,
    endReason: Option<Reason>, endedAt: Option<int>)

  type Audit = map<Id, Row>

  /** What the conditional `requested -> active` update reports. `Conflict` is the partial unique
      index that allows one active row per room. */
  datatype Activation = Activated | NotRequested | Conflict

  function NewRequest(room: Room, sharer: Identity, controller: Identity, now: int): Row {
    Row(room, sharer, controller, Requested, now, None, None, None, None, None)
  }

  predicate InStatus(audit: Audit, id: Id, status: Status) {
    id in audit && audit[id].status == status
  }

  predicate HasActiveRow(audit: Audit, room: Room) {
    exists id <- audit.Keys :: audit[id].status == Active && audit[id].room == room
  }

  function ActivateRow(audit: Audit, id: Id, agent: Identity, startedAt: int, renewalDueAt: int): (Audit, Activation) {
    if !InStatus(audit, id, Requested) then (audit, NotRequested)
    else if HasActiveRow(audit, audit[id].room) then (audit, Conflict)
    else
      (audit[id := audit[id].(status := Active, agent := Some(agent), startedAt := Some(startedAt),
                              renewalDueAt := Some(renewalDueAt))], Activated)
  }

  function EndRow(row: Row, status: Status, reason: Reason, endedAt: int): Row {
    row.(status := status, endReason := Some(reason), endedAt := Some(endedAt))
  }

  function TransitionRequested(audit: Audit, id: Id, status: Status, reason: Reason, endedAt: int): Audit {
    if InStatus(audit, id, Requested) then audit[id := EndRow(audit[id], status, reason, endedAt)] else audit
  }

  function EndActive(audit: Audit, id: Id, status: Status, reason: Reason, endedAt: int): Audit {
    if InStatus(audit, id, Active) then audit[id := EndRow(audit[id], status, reason, endedAt)] else audit
  }

  function UpdateRenewal(audit: Audit, id: Id, renewalDueAt: int): Audit {
    if InStatus(audit, id, Active) then audit[id := audit[id].(renewalDueAt := Some(renewalDueAt))] else audit
  }

  function DueActive(audit: Audit, now: int): set<Id> {
    set id | id in audit && audit[id].status == Active && audit[id].renewalDueAt.Some? && audit[id].renewalDueAt.value <= now
  }

  function ExpiredRequests(audit: Audit, cutoff: int): set<Id> {
    set id | id in audit && audit[id].status == Requested && audit[id].createdAt <= cutoff
  }

  function RequestedOrActive(audit: Audit): set<Id> {
    set id | id in audit && (audit[id].status == Requested || audit[id].status == Active)
  }

  /** A query result: the selected ids, each once, in an order the database chooses. */
  ghost predicate Lists(rows: seq<Id>, selected: set<Id>) {
    && (forall id :: id in rows <==> id in selected)
    && (forall i, j :: 0 <= i < j < |rows| ==> rows[i] != rows[j])
  }

  /** No other row is touched, and none appears or disappears. */
  ghost predicate OnlyRow(a: Audit, b: Audit, id: Id) {
    a.Keys == b.Keys && forall i :: i in a && i != id ==> b[i] == a[i]
  }

  class RemoteControlRepository {
    var rows: Audit

    constructor ()
      ensures rows == map[]
    {
      rows := map[];
    }

    method CreateRequest(id: Id, room: Room, sharer: Identity, controller: Identity, now: int)
      modifies this
      ensures rows == old(rows)[id := NewRequest(room, sharer, controller, now)]
    {
      rows := rows[id := NewRequest(room, sharer, controller, now)];
    }

    method Activate(id: Id, agent: Identity, startedAt: int, renewalDueAt: int) returns (result: Activation)
      modifies this
      ensures (rows, result) == ActivateRow(old(rows), id, agent, startedAt, renewalDueAt)
      ensures result.Activated? <==> InStatus(old(rows), id, Requested) && !HasActiveRow(old(rows), old(rows)[id].room)
      ensures result.NotRequested? <==> !InStatus(old(rows), id, Requested)
      ensures result.Activated? ==> InStatus(rows, id, Active) && rows[id].renewalDueAt == Some(renewalDueAt)
      ensures (!result.Activated? ==> rows == old(rows)) && OnlyRow(old(rows), rows, id)
    {
      if id !in rows || rows[id].status != Requested {
        return NotRequested;
      }
      if HasActiveRow(rows, rows[id].room) {
        return Conflict;
      }
      rows := rows[id := rows[id].(status := Active, agent := Some(agent), startedAt := Some(startedAt),
                                   renewalDueAt := Some(renewalDueAt))];
      return Activated;
    }

    method Transition(id: Id, status: Status, reason: Reason, endedAt: int) returns (moved: bool)
      modifies this
      ensures rows == TransitionRequested(old(rows), id, status, reason, endedAt)
      ensures moved == InStatus(old(rows), id, Requested)
      ensures moved ==> rows[id].status == status && rows[id].endReason == Some(reason) && rows[id].endedAt == Some(endedAt)
      ensures (!moved ==> rows == old(rows)) && OnlyRow(old(rows), rows, id)
    {
      moved := id in rows && rows[id].status == Requested;
      if moved {
        rows := rows[id := EndRow(rows[id], status, reason, endedAt)];
      }
    }

    method End(id: Id, status: Status, reason: Reason, endedAt: int) returns (moved: bool)
      modifies this
      ensures rows == EndActive(old(rows), id, status, reason, endedAt)
      ensures moved == InStatus(old(rows), id, Active)
      ensures moved ==> rows[id].status == status && rows[id].endReason == Some(reason) && rows[id].endedAt == Some(endedAt)
      ensures (!moved ==> rows == old(rows)) && OnlyRow(old(rows), rows, id)
    {
      moved := id in rows && rows[id].status == Active;
      if moved {
        rows := rows[id := EndRow(rows[id], status, reason, endedAt)];
      }
    }

    method Renew(id: Id, renewalDueAt: int) returns (moved: bool)
      modifies this
      ensures rows == UpdateRenewal(old(rows), id, renewalDueAt)
      ensures moved == InStatus(old(rows), id, Active)
      ensures moved ==> rows[id].status == Active && rows[id].renewalDueAt == Some(renewalDueAt)
      ensures (!moved ==> rows == old(rows)) && OnlyRow(old(rows), rows, id)
    {
      moved := id in rows && rows[id].status == Active;
      if moved {
        rows := rows[id := rows[id].(renewalDueAt := Some(renewalDueAt))];
      }
    }
  }

  /** A query answer: the selected ids one by one, in the order the database happens to use. */
  method Enumerate(selected: set<Id>) returns (rows: seq<Id>)
    ensures Lists(rows, selected) && |rows| == |selected|
  {
    rows := [];
    var rest := selected;
    while rest != {}
      invariant rest <= selected && |rows| + |rest| == |selected|
      invariant forall id :: id in rows <==> id in selected - rest
      invariant forall i, j :: 0 <= i < j < |rows| ==> rows[i] != rows[j]
      decreases rest
    {
      var id :| id in rest;
      assert selected - (rest - {id}) == selected - rest + {id};
      rows, rest := rows + [id], rest - {id};
    }
  }
}
