/** The four Redis key families behind attended Remote Control.

    `Redis` is the value the commands act on: per key family, the entries that have not expired yet
    (FakeRedis.dfy proves that a store with lazy expiry shows its callers exactly this value).
    `RemoteControlStateService` is the service that reads and overwrites those keys in place. */
module RemoteControlState {
  import opened Options

  type Room(==, !new)
  type Id(==, !new)
  /** A LiveKit identity: the agent of a session (`control-agent:` and the session id) or anyone else. */
  datatype Identity = Person(name: Id) | AgentOf(session: Id)
  type Digest(==, !new)

  // Times are milliseconds.
  const REQUEST_TTL := 30_000
  const RENEWAL := 30 * 60_000
  const BOOTSTRAP_TTL := 2 * 60_000
  const ACTIVE_STORAGE_TTL := 31 * 60 * 1000
  const STORAGE_GRACE := 60_000

  datatype Pending = Pending(
    requestId: Id, room: Room, sharer: Identity, controller: Identity,
    requestedAt: int, expiresAt: int, controllerTokenExpiresAt: int)

  datatype GrantStatus = AwaitingAgent | AgentActive

  datatype Grant = Grant(
    sessionId: Id, room: Room, sharer: Identity, controller: Identity, agent: Identity,
    status: GrantStatus, agentConnected: bool, startedAt: int,
    renewalDueAt: int, authorizationExpiresAt: int, bootstrapDigest: Option<Digest>)

  datatype Bootstrap = Bootstrap(room: Room, sessionId: Id, digest: Digest, expiresAt: int)

  datatype Entry<+V> = Entry(value: V, expiresAt: int)

  /** The entries of a store that a reader at time `now` can see. */
  function Unexpired<K, V>(store: map<K, Entry<V>>, now: int): map<K, Entry<V>> {
    map k | k in store && now < store[k].expiresAt :: store[k]
  }

  datatype Redis = Redis(
    owner: map<Room, Entry<Id>>, pending: map<Room, Entry<Pending>>,
    active: map<Room, Entry<Grant>>, bootstrap: map<Digest, Entry<Bootstrap>>)
  {
    function Expire(now: int): Redis {
      Redis(Unexpired(owner, now), Unexpired(pending, now), Unexpired(active, now), Unexpired(bootstrap, now))
    }

    function CreatePending(request: Pending, now: int): (Redis, bool) {
      if request.room in owner then (this, false)
      else
        (this.(owner := owner[request.room := Entry(request.requestId, now + REQUEST_TTL)],
               pending := pending[request.room := Entry(request, now + REQUEST_TTL)]), true)
    }

    function GetPending(room: Room, id: Id): Option<Pending> {
      if room in pending && pending[room].value.requestId == id && pending[room].value.room == room
      then Some(pending[room].value) else None
    }

    function GetPendingForRoom(room: Room): Option<Pending> {
      if room in pending && pending[room].value.room == room then Some(pending[room].value) else None
    }

    /** A mismatching pending record is deleted and lost, as GETDEL does. */
    function ConsumePending(room: Room, id: Id): (Redis, Option<Pending>) {
      if room !in owner || owner[room].value != id then (this, None)
      else (this.(pending := pending - {room}), GetPending(room, id))
    }

    function ReleaseOwner(room: Room, id: Id): Redis {
      if room in owner && owner[room].value == id then this.(owner := owner - {room}) else this
    }

    function ReleasePending(room: Room, id: Id): Redis {
      (if GetPending(room, id).Some? then this.(pending := pending - {room}) else this).ReleaseOwner(room, id)
    }

    function Activate(grant: Grant, now: int): (Redis, bool) {
      if grant.room !in owner || owner[grant.room].value != grant.sessionId || grant.room in active then (this, false)
      else
        (this.(active := active[grant.room := Entry(grant, now + ACTIVE_STORAGE_TTL)],
               owner := owner[grant.room := Entry(grant.sessionId, now + ACTIVE_STORAGE_TTL)]), true)
    }

    function GetActive(room: Room): Option<Grant> {
      if room in active && active[room].value.room == room then Some(active[room].value) else None
    }

    predicate Holds(room: Room, sessionId: Id) {
      GetActive(room).Some? && GetActive(room).value.sessionId == sessionId
    }

    /** The grant is written even when the owner key is gone; only the answer tells them apart. */
    function UpdateActive(grant: Grant, now: int): (Redis, bool) {
      if !Holds(grant.room, grant.sessionId) then (this, false)
      else
        var written := this.(active := active[grant.room := Entry(grant, now + ACTIVE_STORAGE_TTL)]);
        if grant.room in owner
        then (written.(owner := owner[grant.room := Entry(grant.sessionId, now + ACTIVE_STORAGE_TTL)]), true)
        else (written, false)
    }

    function ClearActive(room: Room, sessionId: Id): (Redis, bool) {
      if !Holds(room, sessionId) then (this, false)
      else (this.(active := active - {room}).ReleaseOwner(room, sessionId), true)
    }

    function RevokeBootstrap(grant: Grant): Redis {
      if grant.bootstrapDigest.Some? then this.(bootstrap := bootstrap - {grant.bootstrapDigest.value}) else this
    }

    function IssueBootstrap(grant: Grant, digest: Digest, now: int): (Redis, bool) {
      var cleared := RevokeBootstrap(grant);
      var code := Bootstrap(grant.room, grant.sessionId, digest, now + BOOTSTRAP_TTL);
      var stored := cleared.(bootstrap := cleared.bootstrap[digest := Entry(code, now + BOOTSTRAP_TTL)]);
      var (updated, ok) := stored.UpdateActive(grant.(bootstrapDigest := Some(digest)), now);
      if ok then (updated, true) else (updated.(bootstrap := updated.bootstrap - {digest}), false)
    }

    function ConsumeBootstrap(room: Room, sessionId: Id, digest: Digest): (Redis, Option<Bootstrap>) {
      if digest !in bootstrap then (this, None)
      else
        var code := bootstrap[digest].value;
        (this.(bootstrap := bootstrap - {digest}),
         if code.digest == digest && code.room == room && code.sessionId == sessionId then Some(code) else None)
    }
  }

  ghost predicate SameAt<K, V>(a: map<K, V>, b: map<K, V>, key: K) {
    (key in a <==> key in b) && (key in a ==> a[key] == b[key])
  }

  /** No other room's request, lock or grant is touched. */
  ghost predicate OnlyIn(a: Redis, b: Redis, room: Room) {
    forall r :: r != room ==> SameAt(a.owner, b.owner, r) && SameAt(a.pending, b.pending, r) && SameAt(a.active, b.active, r)
  }

  /** The service over those keys: each method issues the commands of its counterpart in order. Its
      contract is the `Redis` function of the same name, and what that means to the caller: what the
      answer tells, whose keys may change, and whose may not. */
  class RemoteControlStateService {
    var owner: map<Room, Entry<Id>>
    var pending: map<Room, Entry<Pending>>
    var active: map<Room, Entry<Grant>>
    var bootstrap: map<Digest, Entry<Bootstrap>>

    ghost function View(): Redis
      reads this
    {
      Redis(owner, pending, active, bootstrap)
    }

    constructor ()
      ensures View() == Redis(map[], map[], map[], map[])
    {
      owner, pending, active, bootstrap := map[], map[], map[], map[];
    }

    /** Time passes: every key whose TTL has run out is gone. */
    method Expire(now: int)
      modifies this
      ensures View() == old(View()).Expire(now)
    {
      owner, pending := Unexpired(owner, now), Unexpired(pending, now);
      active, bootstrap := Unexpired(active, now), Unexpired(bootstrap, now);
    }

    method HasOwner(room: Room) returns (held: bool)
      ensures held == (room in View().owner)
    {
      held := room in owner;
    }

    method CreatePending(request: Pending, now: int) returns (acquired: bool)
      modifies this
      ensures (View(), acquired) == old(View()).CreatePending(request, now)
      ensures acquired <==> request.room !in old(owner)
      ensures acquired ==> owner[request.room].value == request.requestId && pending[request.room].value == request
      ensures !acquired ==> View() == old(View())
      ensures active == old(active) && bootstrap == old(bootstrap) && OnlyIn(old(View()), View(), request.room)
    {
      if request.room in owner {
        return false;
      }
      owner := owner[request.room := Entry(request.requestId, now + REQUEST_TTL)];
      pending := pending[request.room := Entry(request, now + REQUEST_TTL)];
      return true;
    }

    method GetPending(room: Room, id: Id) returns (found: Option<Pending>)
      ensures found == View().GetPending(room, id)
    {
      found := None;
      if room in pending && pending[room].value.requestId == id && pending[room].value.room == room {
        found := Some(pending[room].value);
      }
    }

    method GetPendingForRoom(room: Room) returns (found: Option<Pending>)
      ensures found == View().GetPendingForRoom(room)
    {
      found := None;
      if room in pending && pending[room].value.room == room {
        found := Some(pending[room].value);
      }
    }

    method ConsumePending(room: Room, id: Id) returns (consumed: Option<Pending>)
      modifies this
      ensures (View(), consumed) == old(View()).ConsumePending(room, id)
      ensures consumed.Some? ==> room in old(owner) && old(owner)[room].value == id && room in old(pending) && room !in pending
      ensures consumed.Some? ==> consumed.value == old(pending)[room].value && consumed.value.requestId == id
      ensures owner == old(owner) && active == old(active) && bootstrap == old(bootstrap) && OnlyIn(old(View()), View(), room)
    {
      if room !in owner || owner[room].value != id {
        return None;
      }
      consumed := GetPending(room, id);
      pending := pending - {room};
    }

    method ReleaseOwner(room: Room, id: Id)
      modifies this
      ensures View() == old(View()).ReleaseOwner(room, id)
      ensures !(room in owner && owner[room].value == id) && OnlyIn(old(View()), View(), room)
      ensures room in old(owner) && old(owner)[room].value != id ==> owner == old(owner)
      ensures pending == old(pending) && active == old(active) && bootstrap == old(bootstrap)
    {
      if room in owner && owner[room].value == id {
        owner := owner - {room};
      }
    }

    method ReleasePending(room: Room, id: Id)
      modifies this
      ensures View() == old(View()).ReleasePending(room, id)
      ensures View().GetPending(room, id).None? && !(room in owner && owner[room].value == id)
      ensures room in old(pending) && old(pending)[room].value.requestId != id ==> pending == old(pending)
      ensures room in old(owner) && old(owner)[room].value != id ==> owner == old(owner)
      ensures active == old(active) && bootstrap == old(bootstrap) && OnlyIn(old(View()), View(), room)
    {
      var found := GetPending(room, id);
      if found.Some? {
        pending := pending - {room};
      }
      ReleaseOwner(room, id);
    }

    method Activate(grant: Grant, now: int) returns (activated: bool)
      modifies this
      ensures (View(), activated) == old(View()).Activate(grant, now)
      ensures activated <==> grant.room in old(owner) && old(owner)[grant.room].value == grant.sessionId && grant.room !in old(active)
      ensures activated ==> active[grant.room].value == grant && owner[grant.room].value == grant.sessionId
      ensures !activated ==> View() == old(View())
      ensures pending == old(pending) && bootstrap == old(bootstrap) && OnlyIn(old(View()), View(), grant.room)
    {
      if grant.room !in owner || owner[grant.room].value != grant.sessionId {
        return false;
      }
      if grant.room in active {
        return false;
      }
      active := active[grant.room := Entry(grant, now + ACTIVE_STORAGE_TTL)];
      owner := owner[grant.room := Entry(grant.sessionId, now + ACTIVE_STORAGE_TTL)];
      return true;
    }

    method GetActive(room: Room) returns (found: Option<Grant>)
      ensures found == View().GetActive(room)
    {
      found := None;
      if room in active && active[room].value.room == room {
        found := Some(active[room].value);
      }
    }

    method UpdateActive(grant: Grant, now: int) returns (updated: bool)
      modifies this
      ensures (View(), updated) == old(View()).UpdateActive(grant, now)
      ensures updated <==> old(View()).Holds(grant.room, grant.sessionId) && grant.room in old(owner)
      ensures old(View()).Holds(grant.room, grant.sessionId) ==> grant.room in active && active[grant.room].value == grant
      ensures !old(View()).Holds(grant.room, grant.sessionId) ==> View() == old(View())
      ensures pending == old(pending) && bootstrap == old(bootstrap) && OnlyIn(old(View()), View(), grant.room)
    {
      var current := GetActive(grant.room);
      if current.None? || current.value.sessionId != grant.sessionId {
        return false;
      }
      active := active[grant.room := Entry(grant, now + ACTIVE_STORAGE_TTL)];
      if grant.room !in owner {
        return false;
      }
      owner := owner[grant.room := Entry(grant.sessionId, now + ACTIVE_STORAGE_TTL)];
      return true;
    }

    method ClearActive(room: Room, sessionId: Id) returns (cleared: bool)
      modifies this
      ensures (View(), cleared) == old(View()).ClearActive(room, sessionId)
      ensures cleared <==> old(View()).Holds(room, sessionId)
      ensures !View().Holds(room, sessionId) && (!cleared ==> View() == old(View()))
      ensures pending == old(pending) && bootstrap == old(bootstrap) && OnlyIn(old(View()), View(), room)
    {
      var current := GetActive(room);
      if current.None? || current.value.sessionId != sessionId {
        return false;
      }
      active := active - {room};
      ReleaseOwner(room, sessionId);
      return true;
    }

    method RevokeBootstrap(grant: Grant)
      modifies this
      ensures View() == old(View()).RevokeBootstrap(grant)
    {
      if grant.bootstrapDigest.Some? {
        bootstrap := bootstrap - {grant.bootstrapDigest.value};
      }
    }

    method IssueBootstrap(grant: Grant, digest: Digest, now: int) returns (issued: bool)
      modifies this
      ensures (View(), issued) == old(View()).IssueBootstrap(grant, digest, now)
      ensures issued <==> old(View()).Holds(grant.room, grant.sessionId) && grant.room in old(owner)
      ensures issued <==> digest in bootstrap
      ensures forall d :: d in bootstrap && d != digest ==> d in old(bootstrap) && grant.bootstrapDigest != Some(d)
      ensures pending == old(pending) && OnlyIn(old(View()), View(), grant.room)
    {
      RevokeBootstrap(grant);
      var code := Bootstrap(grant.room, grant.sessionId, digest, now + BOOTSTRAP_TTL);
      bootstrap := bootstrap[digest := Entry(code, now + BOOTSTRAP_TTL)];
      issued := UpdateActive(grant.(bootstrapDigest := Some(digest)), now);
      if !issued {
        bootstrap := bootstrap - {digest};
      }
    }

    method ConsumeBootstrap(room: Room, sessionId: Id, digest: Digest) returns (code: Option<Bootstrap>)
      modifies this
      ensures (View(), code) == old(View()).ConsumeBootstrap(room, sessionId, digest)
      ensures digest !in bootstrap && (forall d :: d != digest ==> SameAt(old(bootstrap), bootstrap, d))
      ensures code.Some? ==> digest in old(bootstrap) && code.value == old(bootstrap)[digest].value && code.value.room == room && code.value.sessionId == sessionId
      ensures owner == old(owner) && pending == old(pending) && active == old(active)
    {
      if digest !in bootstrap {
        return None;
      }
      var stored := bootstrap[digest].value;
      bootstrap := bootstrap - {digest};
      if stored.digest == digest && stored.room == room && stored.sessionId == sessionId {
        return Some(stored);
      }
      return None;
    }
  }
}
