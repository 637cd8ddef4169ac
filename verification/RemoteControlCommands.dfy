/** Remote Control at the granularity of single Redis commands. Any number of callers run their
    programs interleaved one command at a time, and keys may expire between any two commands.
    The theorem: a request id passes `consumePending` at most once, so approve, deny and withdraw
    exclude one another and no id is activated twice. */
module RemoteControlCommands {
  import opened Options
  import opened RemoteControlState

  datatype Purpose = Approving | Denying | Withdrawing

  // The programs, by the next command they will issue.
  datatype CreatePc = SetOwner | SetPending | Undo(release: ReleasePc) | CreateDone
  datatype ReleasePc = GetPending | DelPending | GetOwner | DelOwner | ReleaseDone
  datatype WinnerPc = Deciding | CheckOwner(grant: Grant) | SetActive(grant: Grant) | ExtendOwner(grant: Grant)
                    | UndoActive(grant: Grant) | Started(grant: Grant) | Closing(release: ReleasePc)
  datatype UpdatePc = ReadGrant | WriteGrant | WriteOwner | UpdateDone
  datatype ClearPc = ReadActive | DelActive | ClearRelease(release: ReleasePc)

  datatype Proc =
    | Creating(request: Pending, cpc: CreatePc)
    | ConsumeOwner(room: Room, id: Id, purpose: Purpose)
    | ConsumeTake(room: Room, id: Id, purpose: Purpose)
    | Won(pending: Pending, purpose: Purpose, wpc: WinnerPc)
    | Missed
    | Releasing(room: Room, id: Id, rpc: ReleasePc)
    | Updating(grant: Grant, upc: UpdatePc)
    | Clearing(room: Room, id: Id, kpc: ClearPc)

  datatype State = State(redis: Redis, procs: map<nat, Proc>, ids: set<Id>, wins: seq<Id>, activations: seq<Id>)

  predicate Owns(redis: Redis, room: Room, id: Id) {
    room in redis.owner && redis.owner[room].value == id
  }

  /** One command of `releasePending`; deletions are unconditional once decided. */
  function ReleaseStep(redis: Redis, room: Room, id: Id, pc: ReleasePc): (Redis, ReleasePc) {
    match pc
    case GetPending => (redis, if redis.GetPending(room, id).Some? then DelPending else GetOwner)
    case DelPending => (redis.(pending := redis.pending - {room}), GetOwner)
    case GetOwner => (redis, if Owns(redis, room, id) then DelOwner else ReleaseDone)
    case DelOwner => (redis.(owner := redis.owner - {room}), ReleaseDone)
    case ReleaseDone => (redis, ReleaseDone)
  }

  /** One command of `createPending`. `broken` is a failing write of the pending key. */
  function CreateStep(redis: Redis, request: Pending, pc: CreatePc, broken: bool, now: int): (Redis, CreatePc) {
    match pc
    case SetOwner =>
      if request.room in redis.owner then (redis, CreateDone)
      else (redis.(owner := redis.owner[request.room := Entry(request.requestId, now + REQUEST_TTL)]), SetPending)
    case SetPending =>
      if broken then (redis, Undo(GetOwner))
      else (redis.(pending := redis.pending[request.room := Entry(request, now + REQUEST_TTL)]), CreateDone)
    case Undo(release) =>
      var (after, next) := ReleaseStep(redis, request.room, request.requestId, release);
      (after, if next.ReleaseDone? then CreateDone else Undo(next))
    case CreateDone => (redis, CreateDone)
  }

  /** The caller that consumed the request: activation, or closing and releasing. `grant` is what the
      approver builds; the choice between starting and closing is the service's. */
  function WinnerStep(redis: Redis, pending: Pending, purpose: Purpose, pc: WinnerPc, grant: Option<Grant>, now: int): (Redis, WinnerPc) {
    match pc
    case Deciding =>
      (redis, if purpose.Approving? && grant.Some? && grant.value.sessionId == pending.requestId && grant.value.room == pending.room
              then CheckOwner(grant.value) else Closing(GetPending))
    case CheckOwner(g) => (redis, if Owns(redis, g.room, g.sessionId) then SetActive(g) else Closing(GetPending))
    case SetActive(g) =>
      if g.room in redis.active then (redis, Closing(GetPending))
      else (redis.(active := redis.active[g.room := Entry(g, now + ACTIVE_STORAGE_TTL)]), ExtendOwner(g))
    case ExtendOwner(g) =>
      if g.room in redis.owner
      then (redis.(owner := redis.owner[g.room := Entry(g.sessionId, now + ACTIVE_STORAGE_TTL)]), Started(g))
      else (redis, UndoActive(g))
    case UndoActive(g) => (redis.(active := redis.active - {g.room}), Closing(GetPending))
    case Started(g) => (redis, Started(g))
    case Closing(release) =>
      var (after, next) := ReleaseStep(redis, pending.room, pending.requestId, release);
      (after, Closing(next))
  }

  function UpdateStep(redis: Redis, grant: Grant, pc: UpdatePc, now: int): (Redis, UpdatePc) {
    match pc
    case ReadGrant => (redis, if redis.Holds(grant.room, grant.sessionId) then WriteGrant else UpdateDone)
    case WriteGrant =>
      (if grant.room in redis.active
       then redis.(active := redis.active[grant.room := Entry(grant, now + ACTIVE_STORAGE_TTL)]) else redis, WriteOwner)
    case WriteOwner =>
      (if grant.room in redis.owner
       then redis.(owner := redis.owner[grant.room := Entry(grant.sessionId, now + ACTIVE_STORAGE_TTL)]) else redis, UpdateDone)
    case UpdateDone => (redis, UpdateDone)
  }

  function ClearStep(redis: Redis, room: Room, id: Id, pc: ClearPc): (Redis, ClearPc) {
    match pc
    case ReadActive => (redis, if redis.Holds(room, id) then DelActive else ClearRelease(ReleaseDone))
    case DelActive => (redis.(active := redis.active - {room}), ClearRelease(GetOwner))
    case ClearRelease(release) =>
      var (after, next) := ReleaseStep(redis, room, id, release);
      (after, ClearRelease(next))
  }

  /** GETDEL hands the record to this caller, or destroys one that is not the caller's. */
  function TakeStep(redis: Redis, room: Room, id: Id, purpose: Purpose): (Redis, Proc) {
    var taken := redis.GetPending(room, id);
    (redis.(pending := redis.pending - {room}), if taken.Some? then Won(taken.value, purpose, Deciding) else Missed)
  }

  function ProcStep(redis: Redis, proc: Proc, broken: bool, grant: Option<Grant>, now: int): (Redis, Proc) {
    match proc
    case Creating(request, pc) =>
      var (after, next) := CreateStep(redis, request, pc, broken, now);
      (after, Creating(request, next))
    case ConsumeOwner(room, id, purpose) =>
      (redis, if Owns(redis, room, id) then ConsumeTake(room, id, purpose) else Missed)
    case ConsumeTake(room, id, purpose) => TakeStep(redis, room, id, purpose)
    case Won(pending, purpose, pc) =>
      var (after, next) := WinnerStep(redis, pending, purpose, pc, grant, now);
      (after, Won(pending, purpose, next))
    case Missed => (redis, Missed)
    case Releasing(room, id, pc) =>
      var (after, next) := ReleaseStep(redis, room, id, pc);
      (after, Releasing(room, id, next))
    case Updating(g, pc) =>
      var (after, next) := UpdateStep(redis, g, pc, now);
      (after, Updating(g, next))
    case Clearing(room, id, pc) =>
      var (after, next) := ClearStep(redis, room, id, pc);
      (after, Clearing(room, id, next))
  }

  // ---- Undisturbed, each program is the service call it stands for ----

  lemma ReleaseAlone(redis: Redis, room: Room, id: Id)
    ensures var (a, p) := ReleaseStep(redis, room, id, GetPending);
      var (b, q) := ReleaseStep(a, room, id, p);
      var (c, r) := ReleaseStep(b, room, id, q);
      var (d, end) := ReleaseStep(c, room, id, r);
      d == redis.ReleasePending(room, id) && end.ReleaseDone?
  {
  }

  lemma CreateAlone(redis: Redis, request: Pending, now: int)
    ensures var (a, p) := CreateStep(redis, request, SetOwner, false, now);
      var (b, end) := CreateStep(a, request, p, false, now);
      && b == redis.CreatePending(request, now).0 && end.CreateDone?
      && (p.SetPending? <==> redis.CreatePending(request, now).1)
  {
  }

  lemma ConsumeAlone(redis: Redis, room: Room, id: Id, purpose: Purpose, now: int)
    ensures var (a, p) := ProcStep(redis, ConsumeOwner(room, id, purpose), false, None, now);
      var (b, end) := ProcStep(a, p, false, None, now);
      var (after, consumed) := redis.ConsumePending(room, id);
      b == after && end == if consumed.Some? then Won(consumed.value, purpose, Deciding) else Missed
  {
  }

  lemma ActivateAlone(redis: Redis, request: Pending, grant: Grant, now: int)
    ensures var (a, p) := WinnerStep(redis, request, Approving, CheckOwner(grant), None, now);
      var (after, activated) := redis.Activate(grant, now);
      && (p.SetActive? ==>
            var (b, q) := WinnerStep(a, request, Approving, p, None, now);
            (q.ExtendOwner? ==>
               var (c, end) := WinnerStep(b, request, Approving, q, None, now);
               activated && c == after && end == Started(grant))
            && (!q.ExtendOwner? ==> !activated && b == after && q == Closing(GetPending)))
      && (!p.SetActive? ==> !activated && a == after && p == Closing(GetPending))
  {
  }

  lemma UpdateAlone(redis: Redis, grant: Grant, now: int)
    ensures var (a, p) := UpdateStep(redis, grant, ReadGrant, now);
      var (b, q) := UpdateStep(a, grant, p, now);
      var (c, end) := UpdateStep(b, grant, q, now);
      c == redis.UpdateActive(grant, now).0 && end.UpdateDone?
  {
  }

  lemma ClearAlone(redis: Redis, room: Room, id: Id)
    ensures var (a, p) := ClearStep(redis, room, id, ReadActive);
      var (b, q) := ClearStep(a, room, id, p);
      var (c, r) := ClearStep(b, room, id, q);
      var (d, end) := ClearStep(c, room, id, r);
      d == redis.ClearActive(room, id).0 && end == ClearRelease(ReleaseDone)
  {
  }

  datatype Event =
    | Spawn(pid: nat, proc: Proc)
    | Turn(pid: nat, broken: bool, grant: Option<Grant>, now: int)
    | Lapse(now: int)

  /** The first command of each program. A creator brings an id nobody used before. */
  ghost predicate Startable(s: State, proc: Proc) {
    match proc
    case Creating(request, pc) => pc == SetOwner && request.requestId !in s.ids
    case ConsumeOwner(_, _, _) => true
    case Releasing(_, _, pc) => pc == GetPending
    case Updating(_, pc) => pc == ReadGrant
    case Clearing(_, _, pc) => pc == ReadActive
    case _ => false
  }

  ghost predicate Enabled(s: State, e: Event) {
    match e
    case Spawn(pid, proc) => pid !in s.procs && Startable(s, proc)
    case Turn(pid, _, _, _) => pid in s.procs
    case Lapse(_) => true
  }

  function Next(s: State, e: Event): State {
    match e
    case Spawn(pid, proc) =>
      s.(procs := s.procs[pid := proc], ids := if proc.Creating? then s.ids + {proc.request.requestId} else s.ids)
    case Turn(pid, broken, grant, now) =>
      if pid !in s.procs then s
      else
        var before := s.procs[pid];
        var (redis, after) := ProcStep(s.redis, before, broken, grant, now);
        s.(redis := redis, procs := s.procs[pid := after],
           wins := if after.Won? && !before.Won? then s.wins + [after.pending.requestId] else s.wins,
           activations := if Activates(before, after) then s.activations + [before.pending.requestId] else s.activations)
    case Lapse(now) => s.(redis := s.redis.Expire(now))
  }

  /** The SET NX of the active key answered OK. */
  predicate Activates(before: Proc, after: Proc) {
    before.Won? && before.wpc.SetActive? && after.Won? && after.wpc.ExtendOwner?
  }

  // ---- One place at a time ----

  datatype Place = Maker(pid: nat) | Stored(room: Room) | Winner(pid: nat)

  /** A request is with its creator, in the pending key, or with the caller that consumed it. */
  ghost predicate At(s: State, place: Place, id: Id) {
    match place
    case Maker(pid) =>
      && pid in s.procs && s.procs[pid].Creating? && s.procs[pid].request.requestId == id
      && (s.procs[pid].cpc.SetOwner? || s.procs[pid].cpc.SetPending?)
    case Stored(room) => room in s.redis.pending && s.redis.pending[room].value.requestId == id
    case Winner(pid) => pid in s.procs && s.procs[pid].Won? && s.procs[pid].pending.requestId == id
  }

  ghost predicate OnePlace(s: State) {
    forall id, p, q :: At(s, p, id) && At(s, q, id) ==> p == q
  }

  ghost predicate Known(s: State) {
    forall id, p :: At(s, p, id) ==> id in s.ids
  }

  predicate Past(pc: WinnerPc) {
    !pc.Deciding? && !pc.CheckOwner? && !pc.SetActive?
  }

  /** The logs: every win is a winner, every activation an approving winner past its SET NX. */
  ghost predicate Logged(s: State) {
    && (forall id :: id in s.wins <==> exists pid :: At(s, Winner(pid), id))
    && (forall i, j :: 0 <= i < j < |s.wins| ==> s.wins[i] != s.wins[j])
    && (forall id :: id in s.activations ==>
          exists pid :: At(s, Winner(pid), id) && s.procs[pid].purpose.Approving? && Past(s.procs[pid].wpc))
    && (forall i, j :: 0 <= i < j < |s.activations| ==> s.activations[i] != s.activations[j])
    && (forall pid :: pid in s.procs && s.procs[pid].Won? ==> WellFormed(s.procs[pid]))
  }

  /** Only an approver ever reaches the activation commands. */
  ghost predicate WellFormed(proc: Proc)
    requires proc.Won?
  {
    proc.purpose.Approving? || proc.wpc.Deciding? || proc.wpc.Closing?
  }

  ghost predicate Inv(s: State) {
    OnePlace(s) && Known(s) && Logged(s)
  }

  /** Where a request can be after a turn, it was before, possibly one place earlier. */
  function Before(s: State, e: Event, place: Place): Place
    requires e.Turn? && e.pid in s.procs
  {
    var proc := s.procs[e.pid];
    match place
    case Stored(room) =>
      if proc.Creating? && proc.cpc.SetPending? && !e.broken && room == proc.request.room then Maker(e.pid) else place
    case Winner(pid) => if pid == e.pid && proc.ConsumeTake? then Stored(proc.room) else place
    case Maker(_) => place
  }

  /** The only writer of a pending key is its creator's single SET. */
  ghost predicate Written(proc: Proc, broken: bool, before: Redis, after: Redis, room: Room)
    requires room in after.pending
  {
    if proc.Creating? && proc.cpc.SetPending? && !broken && room == proc.request.room
    then after.pending[room].value == proc.request
    else room in before.pending && after.pending[room] == before.pending[room]
  }

  lemma StepWrites(redis: Redis, proc: Proc, broken: bool, grant: Option<Grant>, now: int)
    ensures var after := ProcStep(redis, proc, broken, grant, now).0;
      && (forall room :: room in after.pending ==> Written(proc, broken, redis, after, room))
      && (proc.ConsumeTake? ==> proc.room !in after.pending)
  {
  }

  lemma StepMoves(redis: Redis, proc: Proc, broken: bool, grant: Option<Grant>, now: int)
    ensures var next := ProcStep(redis, proc, broken, grant, now).1;
      && (next.Creating? <==> proc.Creating?)
      && (next.Creating? ==> next.request == proc.request && !next.cpc.SetOwner? && (next.cpc.SetPending? ==> proc.cpc.SetOwner?))
      && (proc.Won? ==> next.Won? && next.pending == proc.pending && next.purpose == proc.purpose)
      && (next.Won? && !proc.Won? ==> proc.ConsumeTake? && next.purpose == proc.purpose && next.wpc.Deciding?
                                      && proc.room in redis.pending && redis.pending[proc.room].value == next.pending)
  {
  }

  lemma WinnerMoves(redis: Redis, pending: Pending, purpose: Purpose, pc: WinnerPc, grant: Option<Grant>, now: int)
    ensures var next := WinnerStep(redis, pending, purpose, pc, grant, now).1;
      && (Past(pc) ==> Past(next))
      && (pc.SetActive? ==> Past(next))
      && (purpose.Approving? || pc.Deciding? || pc.Closing? ==> purpose.Approving? || next.Closing?)
      && (next.ExtendOwner? ==> pc.SetActive?)
  {
  }

  lemma ComesFrom(s: State, e: Event, place: Place, id: Id)
    requires e.Turn? && Enabled(s, e) && At(Next(s, e), place, id)
    ensures At(s, Before(s, e, place), id)
  {
    StepWrites(s.redis, s.procs[e.pid], e.broken, e.grant, e.now);
    StepMoves(s.redis, s.procs[e.pid], e.broken, e.grant, e.now);
    if place.Stored? {
      assert Written(s.procs[e.pid], e.broken, s.redis, Next(s, e).redis, place.room);
    }
  }

  lemma StaysApart(s: State, e: Event, p: Place, q: Place, id: Id)
    requires e.Turn? && Enabled(s, e) && At(Next(s, e), p, id) && At(Next(s, e), q, id)
    requires Before(s, e, p) == Before(s, e, q)
    ensures p == q
  {
    StepWrites(s.redis, s.procs[e.pid], e.broken, e.grant, e.now);
    StepMoves(s.redis, s.procs[e.pid], e.broken, e.grant, e.now);
  }

  lemma TurnKeepsPlaces(s: State, e: Event)
    requires OnePlace(s) && Known(s) && e.Turn? && Enabled(s, e)
    ensures OnePlace(Next(s, e)) && Known(Next(s, e))
  {
    forall id, p | At(Next(s, e), p, id) ensures id in s.ids {
      ComesFrom(s, e, p, id);
    }
    forall id, p, q | At(Next(s, e), p, id) && At(Next(s, e), q, id) ensures p == q {
      ComesFrom(s, e, p, id);
      ComesFrom(s, e, q, id);
      StaysApart(s, e, p, q, id);
    }
  }

  lemma TurnKeepsLogs(s: State, e: Event)
    requires Inv(s) && e.Turn? && Enabled(s, e)
    ensures Logged(Next(s, e))
  {
    WinsLogged(s, e);
    ActivationsLogged(s, e);
    var before := s.procs[e.pid];
    StepMoves(s.redis, before, e.broken, e.grant, e.now);
    if before.Won? {
      WinnerMoves(s.redis, before.pending, before.purpose, before.wpc, e.grant, e.now);
    }
  }

  /** Winners stay, and the turn adds at most its own caller. */
  lemma WinnersGrow(s: State, e: Event)
    requires e.Turn? && Enabled(s, e)
    ensures var before, after := s.procs[e.pid], Next(s, e).procs[e.pid];
      && (forall pid, id :: At(s, Winner(pid), id) ==> At(Next(s, e), Winner(pid), id))
      && (forall pid, id :: At(Next(s, e), Winner(pid), id) ==>
            At(s, Winner(pid), id) || (after.Won? && !before.Won? && pid == e.pid && id == after.pending.requestId))
  {
    StepMoves(s.redis, s.procs[e.pid], e.broken, e.grant, e.now);
  }

  lemma WinsLogged(s: State, e: Event)
    requires Inv(s) && e.Turn? && Enabled(s, e)
    ensures var b := Next(s, e);
      && (forall id :: id in b.wins <==> exists pid :: At(b, Winner(pid), id))
      && (forall i, j :: 0 <= i < j < |b.wins| ==> b.wins[i] != b.wins[j])
  {
    var b, before := Next(s, e), s.procs[e.pid];
    var after := b.procs[e.pid];
    WinnersGrow(s, e);
    if after.Won? && !before.Won? {
      NewWin(s, e);
      assert At(b, Winner(e.pid), after.pending.requestId);
    }
  }

  lemma ActivationsLogged(s: State, e: Event)
    requires Inv(s) && e.Turn? && Enabled(s, e)
    ensures var b := Next(s, e);
      && (forall id :: id in b.activations ==>
            exists pid :: At(b, Winner(pid), id) && b.procs[pid].purpose.Approving? && Past(b.procs[pid].wpc))
      && (forall i, j :: 0 <= i < j < |b.activations| ==> b.activations[i] != b.activations[j])
  {
    var b, before := Next(s, e), s.procs[e.pid];
    var after := b.procs[e.pid];
    StepMoves(s.redis, before, e.broken, e.grant, e.now);
    if before.Won? {
      WinnerMoves(s.redis, before.pending, before.purpose, before.wpc, e.grant, e.now);
    }
    WinnersGrow(s, e);
    if Activates(before, after) {
      NewActivation(s, e);
    }
    forall id | id in b.activations
      ensures exists pid :: At(b, Winner(pid), id) && b.procs[pid].purpose.Approving? && Past(b.procs[pid].wpc)
    {
      if id in s.activations {
        var pid :| At(s, Winner(pid), id) && s.procs[pid].purpose.Approving? && Past(s.procs[pid].wpc);
        assert At(b, Winner(pid), id) && Past(b.procs[pid].wpc);
      } else {
        assert At(b, Winner(e.pid), id);
      }
    }
  }

  /** A caller that has just consumed the request is its first winner. */
  lemma NewWin(s: State, e: Event)
    requires Inv(s) && e.Turn? && Enabled(s, e)
    requires Next(s, e).procs[e.pid].Won? && !s.procs[e.pid].Won?
    ensures Next(s, e).procs[e.pid].pending.requestId !in s.wins
  {
    var id := Next(s, e).procs[e.pid].pending.requestId;
    StepMoves(s.redis, s.procs[e.pid], e.broken, e.grant, e.now);
    assert At(s, Stored(s.procs[e.pid].room), id);
    forall pid ensures !At(s, Winner(pid), id) {
    }
  }

  /** The winner at its SET NX has not activated before. */
  lemma NewActivation(s: State, e: Event)
    requires Inv(s) && e.Turn? && Enabled(s, e)
    requires Activates(s.procs[e.pid], Next(s, e).procs[e.pid])
    ensures s.procs[e.pid].pending.requestId !in s.activations
  {
    var id := s.procs[e.pid].pending.requestId;
    assert At(s, Winner(e.pid), id);
    forall pid | At(s, Winner(pid), id) ensures !Past(s.procs[pid].wpc) {
      assert Winner(pid) == Winner(e.pid);
    }
  }

  lemma NextKeeps(s: State, e: Event)
    requires Inv(s) && Enabled(s, e)
    ensures Inv(Next(s, e))
  {
    match e
    case Turn(_, _, _, _) =>
      TurnKeepsPlaces(s, e);
      TurnKeepsLogs(s, e);
    case Spawn(pid, proc) =>
      var b := Next(s, e);
      assert forall p, id :: At(b, p, id) ==> At(s, p, id) || (p == Maker(pid) && proc.Creating? && id == proc.request.requestId);
      assert forall w, id :: At(b, Winner(w), id) <==> At(s, Winner(w), id);
    case Lapse(now) =>
      var b := Next(s, e);
      assert forall p, id :: At(b, p, id) ==> At(s, p, id);
      assert forall w, id :: At(b, Winner(w), id) <==> At(s, Winner(w), id);
  }

  ghost predicate Initial(s: State) {
    s == State(Redis(map[], map[], map[], map[]), map[], {}, [], [])
  }

  function After(s: State, events: seq<Event>): State {
    if events == [] then s else Next(After(s, events[..|events| - 1]), events[|events| - 1])
  }

  ghost predicate Possible(s: State, events: seq<Event>) {
    forall i :: 0 <= i < |events| ==> Enabled(After(s, events[..i]), events[i])
  }

  lemma {:induction false} RunKeeps(s: State, events: seq<Event>)
    requires Inv(s) && Possible(s, events)
    ensures Inv(After(s, events))
  {
    if events != [] {
      var init := events[..|events| - 1];
      forall i | 0 <= i < |init| ensures Enabled(After(s, init[..i]), init[i]) {
        assert init[..i] == events[..i];
      }
      RunKeeps(s, init);
      NextKeeps(After(s, init), events[|events| - 1]);
    }
  }

  /** Under every interleaving: nobody consumes a request twice, whatever they consume it for, and
      no request is activated twice, nor by anyone but the one approver that consumed it. */
  lemma ConsumedAtMostOnce(s: State, events: seq<Event>)
    requires Initial(s) && Possible(s, events)
    ensures var end := After(s, events);
      && (forall p, q, id :: At(end, Winner(p), id) && At(end, Winner(q), id) ==> p == q)
      && (forall i, j :: 0 <= i < j < |end.wins| ==> end.wins[i] != end.wins[j])
      && (forall i, j :: 0 <= i < j < |end.activations| ==> end.activations[i] != end.activations[j])
      && (forall id :: id in end.activations ==> exists p :: At(end, Winner(p), id) && end.procs[p].purpose.Approving?)
  {
    RunKeeps(s, events);
    var end := After(s, events);
    forall p, q, id | At(end, Winner(p), id) && At(end, Winner(q), id) ensures p == q {
      assert Winner(p) == Winner(q);
    }
  }

  // ---- Why the stronger invariants need whole service calls ----

  function SessionIn(redis: Redis, room: Room): Option<Id> {
    if room in redis.active then Some(redis.active[room].value.sessionId) else None
  }

  /** The write of an update that has read its own session's grant, when another session holds the key. */
  predicate Overwrites(redis: Redis, proc: Proc, room: Room) {
    && proc.Updating? && proc.upc.WriteGrant? && proc.grant.room == room
    && room in redis.active && redis.active[room].value.sessionId != proc.grant.sessionId
  }

  /** The conditional write of an approver that finds the key empty. */
  predicate Fills(redis: Redis, proc: Proc, room: Room) {
    proc.Won? && proc.wpc.SetActive? && proc.wpc.grant.room == room && room !in redis.active
  }

  /** The session a deletion of the active key is meant for: the one that is ending, or the one whose
      approver lost its lock. */
  function Deletes(proc: Proc, room: Room): Option<Id> {
    if proc.Clearing? && proc.kpc.DelActive? && proc.room == room then Some(proc.id)
    else if proc.Won? && proc.wpc.UndoActive? && proc.wpc.grant.room == room then Some(proc.wpc.grant.sessionId)
    else None
  }

  predicate Empties(redis: Redis, proc: Proc, room: Room) {
    room in redis.active && Deletes(proc, room).Some?
  }

  /** A deletion that comes late, when another session holds the key. */
  predicate Robs(redis: Redis, proc: Proc, room: Room) {
    Empties(redis, proc, room) && redis.active[room].value.sessionId != Deletes(proc, room).value
  }

  lemma StepChangesIff(redis: Redis, proc: Proc, broken: bool, grant: Option<Grant>, now: int, room: Room)
    ensures var after := ProcStep(redis, proc, broken, grant, now).0;
      && (SessionIn(after, room) != SessionIn(redis, room) <==>
            Overwrites(redis, proc, room) || Fills(redis, proc, room) || Empties(redis, proc, room))
      && (Overwrites(redis, proc, room) ==> SessionIn(after, room) == Some(proc.grant.sessionId))
      && (Fills(redis, proc, room) ==> SessionIn(after, room) == Some(proc.wpc.grant.sessionId))
      && (Empties(redis, proc, room) ==> SessionIn(after, room).None?)
  {
  }

  /** The session a caller's command is about: the one it updates, activates or ends. */
  function Concerns(proc: Proc): Option<Id> {
    match proc
    case Updating(grant, _) => Some(grant.sessionId)
    case Clearing(_, id, _) => Some(id)
    case Won(_, _, SetActive(grant)) => Some(grant.sessionId)
    case Won(_, _, UndoActive(grant)) => Some(grant.sessionId)
    case _ => None
  }

  /** In every state, a turn changes whose session a room's active key holds exactly when it fills an empty
      key, empties one, or is the late write of another session's update. Only the last of these puts one
      session in the place of another; and a session loses the key to a command that is about another
      session exactly by such a late write or a late deletion. */
  lemma SessionChangesIff(s: State, e: Event, room: Room)
    requires e.Turn? && Enabled(s, e)
    ensures var before, after, proc := SessionIn(s.redis, room), SessionIn(Next(s, e).redis, room), s.procs[e.pid];
      && (after != before <==> Overwrites(s.redis, proc, room) || Fills(s.redis, proc, room) || Empties(s.redis, proc, room))
      && (before.Some? && after.Some? && after != before <==> Overwrites(s.redis, proc, room))
      && (before.Some? && after != before && Concerns(proc) != before <==> Overwrites(s.redis, proc, room) || Robs(s.redis, proc, room))
  {
    StepChangesIff(s.redis, s.procs[e.pid], e.broken, e.grant, e.now, room);
  }

  ghost predicate Leads(start: State, events: seq<Event>, s: State) {
    Possible(start, events) && After(start, events) == s
  }

  lemma Advance(start: State, events: seq<Event>, s: State, e: Event, t: State) returns (more: seq<Event>)
    requires Leads(start, events, s) && Enabled(s, e) && t == Next(s, e)
    ensures Leads(start, more, t)
  {
    more := events + [e];
    assert more[..|events|] == events;
    forall i | 0 <= i < |more| ensures Enabled(After(start, more[..i]), more[i]) {
      if i < |events| {
        assert more[..i] == events[..i];
      }
    }
  }

  /** One more caller, and one more turn of a caller, seen by their effect on the keys. */
  lemma Joins(start: State, events: seq<Event>, s: State, pid: nat, proc: Proc) returns (more: seq<Event>, t: State)
    requires Leads(start, events, s) && pid !in s.procs && Startable(s, proc)
    ensures Leads(start, more, t) && t.redis == s.redis && t.procs == s.procs[pid := proc]
    ensures t.ids == if proc.Creating? then s.ids + {proc.request.requestId} else s.ids
  {
    t := Next(s, Spawn(pid, proc));
    more := Advance(start, events, s, Spawn(pid, proc), t);
  }

  lemma Moves(start: State, events: seq<Event>, s: State, others: map<nat, Proc>, pid: nat, proc: Proc, grant: Option<Grant>, now: int)
    returns (more: seq<Event>, t: State)
    requires Leads(start, events, s) && s.procs == others[pid := proc]
    ensures Leads(start, more, t) && t.ids == s.ids
    ensures var (redis, after) := ProcStep(s.redis, proc, false, grant, now);
      t.redis == redis && t.procs == others[pid := after]
  {
    t := Next(s, Turn(pid, false, grant, now));
    more := Advance(start, events, s, Turn(pid, false, grant, now), t);
    assert others[pid := proc][pid := t.procs[pid]] == others[pid := t.procs[pid]];
  }

  /** A request in a free room. */
  lemma Requesting(start: State, events: seq<Event>, s: State, pid: nat, request: Pending, now: int)
    returns (more: seq<Event>, t: State)
    requires Leads(start, events, s) && pid !in s.procs && request.requestId !in s.ids && request.room !in s.redis.owner
    ensures Leads(start, more, t) && t.ids == s.ids + {request.requestId} && t.procs == s.procs[pid := Creating(request, CreateDone)]
    ensures t.redis == s.redis.(owner := s.redis.owner[request.room := Entry(request.requestId, now + REQUEST_TTL)],
                                pending := s.redis.pending[request.room := Entry(request, now + REQUEST_TTL)])
  {
    more, t := Joins(start, events, s, pid, Creating(request, SetOwner));
    more, t := Moves(start, more, t, s.procs, pid, Creating(request, SetOwner), None, now);
    more, t := Moves(start, more, t, s.procs, pid, Creating(request, SetPending), None, now);
  }

  /** Its approval: the request is consumed, */
  lemma Consuming(start: State, events: seq<Event>, s: State, pid: nat, request: Pending, grant: Grant, now: int)
    returns (more: seq<Event>, t: State)
    requires Leads(start, events, s) && pid !in s.procs && Owns(s.redis, request.room, request.requestId)
    requires request.room in s.redis.pending && s.redis.pending[request.room].value == request
    requires grant.room == request.room && grant.sessionId == request.requestId
    ensures Leads(start, more, t) && t.ids == s.ids && t.procs == s.procs[pid := Won(request, Approving, CheckOwner(grant))]
    ensures t.redis == s.redis.(pending := s.redis.pending - {grant.room})
  {
    var room, id := request.room, request.requestId;
    more, t := Joins(start, events, s, pid, ConsumeOwner(room, id, Approving));
    more, t := Moves(start, more, t, s.procs, pid, ConsumeOwner(room, id, Approving), None, now);
    more, t := Moves(start, more, t, s.procs, pid, ConsumeTake(room, id, Approving), None, now);
    assert t.procs == s.procs[pid := Won(request, Approving, Deciding)];
    more, t := Moves(start, more, t, s.procs, pid, Won(request, Approving, Deciding), Some(grant), now);
  }

  /** and the two keys are written. */
  lemma Activating(start: State, events: seq<Event>, s: State, others: map<nat, Proc>, pid: nat, request: Pending, grant: Grant, now: int)
    returns (more: seq<Event>, t: State)
    requires Leads(start, events, s) && s.procs == others[pid := Won(request, Approving, CheckOwner(grant))]
    requires Owns(s.redis, grant.room, grant.sessionId) && grant.room !in s.redis.active
    ensures Leads(start, more, t) && t.ids == s.ids && t.procs == others[pid := Won(request, Approving, Started(grant))]
    ensures t.redis == s.redis.(active := s.redis.active[grant.room := Entry(grant, now + ACTIVE_STORAGE_TTL)],
                                owner := s.redis.owner[grant.room := Entry(grant.sessionId, now + ACTIVE_STORAGE_TTL)])
  {
    more, t := Moves(start, events, s, others, pid, Won(request, Approving, CheckOwner(grant)), None, now);
    assert t.redis == s.redis && t.procs == others[pid := Won(request, Approving, SetActive(grant))];
    more, t := Moves(start, more, t, others, pid, Won(request, Approving, SetActive(grant)), None, now);
    assert t.procs == others[pid := Won(request, Approving, ExtendOwner(grant))];
    more, t := Moves(start, more, t, others, pid, Won(request, Approving, ExtendOwner(grant)), None, now);
  }

  /** The end of a session: its grant first, then its lock. */
  lemma Deleting(start: State, events: seq<Event>, s: State, pid: nat, room: Room, id: Id, now: int)
    returns (more: seq<Event>, t: State)
    requires Leads(start, events, s) && pid !in s.procs && s.redis.Holds(room, id)
    ensures Leads(start, more, t) && t.ids == s.ids && t.procs == s.procs[pid := Clearing(room, id, ClearRelease(GetOwner))]
    ensures t.redis == s.redis.(active := s.redis.active - {room})
  {
    more, t := Joins(start, events, s, pid, Clearing(room, id, ReadActive));
    more, t := Moves(start, more, t, s.procs, pid, Clearing(room, id, ReadActive), None, now);
    assert t.redis == s.redis && t.procs == s.procs[pid := Clearing(room, id, DelActive)];
    more, t := Moves(start, more, t, s.procs, pid, Clearing(room, id, DelActive), None, now);
  }

  lemma Unlocking(start: State, events: seq<Event>, s: State, others: map<nat, Proc>, pid: nat, room: Room, id: Id, now: int)
    returns (more: seq<Event>, t: State)
    requires Leads(start, events, s) && s.procs == others[pid := Clearing(room, id, ClearRelease(GetOwner))] && Owns(s.redis, room, id)
    ensures Leads(start, more, t) && t.ids == s.ids && t.procs == others[pid := Clearing(room, id, ClearRelease(ReleaseDone))]
    ensures t.redis == s.redis.(owner := s.redis.owner - {room})
  {
    more, t := Moves(start, events, s, others, pid, Clearing(room, id, ClearRelease(GetOwner)), None, now);
    assert t.redis == s.redis && t.procs == others[pid := Clearing(room, id, ClearRelease(DelOwner))];
    more, t := Moves(start, more, t, others, pid, Clearing(room, id, ClearRelease(DelOwner)), None, now);
  }

  /** A whole session of a free room, from its request to its activation, by two new callers. */
  lemma Session(start: State, events: seq<Event>, s: State, pid: nat, request: Pending, grant: Grant, now: int)
    returns (more: seq<Event>, t: State)
    requires Leads(start, events, s) && pid !in s.procs && pid + 1 !in s.procs && request.requestId !in s.ids
    requires request.room !in s.redis.owner && request.room !in s.redis.active
    requires grant.room == request.room && grant.sessionId == request.requestId
    ensures Leads(start, more, t) && t.ids == s.ids + {request.requestId}
    ensures t.procs == s.procs[pid := Creating(request, CreateDone)][pid + 1 := Won(request, Approving, Started(grant))]
    ensures t.redis.Holds(grant.room, grant.sessionId) && t.redis.active[grant.room].value == grant
    ensures Owns(t.redis, grant.room, grant.sessionId)
  {
    more, t := Requesting(start, events, s, pid, request, now);
    var others := t.procs;
    more, t := Consuming(start, more, t, pid + 1, request, grant, now);
    more, t := Activating(start, more, t, others, pid + 1, request, grant, now);
  }

  /** Session A is on, and an update of it has read A's grant and not written yet. */
  lemma UpdateWaits(start: State, a: Pending, grant: Grant, now: int) returns (events: seq<Event>, s: State)
    requires Initial(start) && grant.room == a.room && grant.sessionId == a.requestId
    ensures Leads(start, events, s) && s.ids == {a.requestId} && s.procs.Keys == {0, 1, 2} && s.procs[2] == Updating(grant, WriteGrant)
    ensures s.redis.Holds(a.room, a.requestId) && Owns(s.redis, a.room, a.requestId)
  {
    events, s := Session(start, [], start, 0, a, grant, now);
    var others := s.procs;
    events, s := Joins(start, events, s, 2, Updating(grant, ReadGrant));
    events, s := Moves(start, events, s, others, 2, Updating(grant, ReadGrant), None, now);
  }

  /** Then A ends, with the update still waiting. */
  lemma UpdateOutlives(start: State, a: Pending, grant: Grant, now: int) returns (events: seq<Event>, s: State)
    requires Initial(start) && grant.room == a.room && grant.sessionId == a.requestId
    ensures Leads(start, events, s) && s.ids == {a.requestId} && s.procs.Keys == {0, 1, 2, 3} && s.procs[2] == Updating(grant, WriteGrant)
    ensures a.room !in s.redis.active && a.room !in s.redis.owner
  {
    events, s := UpdateWaits(start, a, grant, now);
    var others := s.procs;
    events, s := Deleting(start, events, s, 3, a.room, a.requestId, now);
    events, s := Unlocking(start, events, s, others, 3, a.room, a.requestId, now);
  }

  /** It happens: an update of session A reads A's grant; A ends, B is requested, approved and activated; and
      the update's write puts A's grant back over B's. */
  lemma UpdateOverwrites(start: State, a: Pending, b: Pending, first: Grant, second: Grant, now: int)
    returns (events: seq<Event>, last: Event)
    requires Initial(start) && a.room == b.room && a.requestId != b.requestId
    requires first.room == a.room && first.sessionId == a.requestId && second.room == b.room && second.sessionId == b.requestId
    ensures Possible(start, events) && last.Turn? && Enabled(After(start, events), last)
    ensures var s := After(start, events);
      && s.redis.Holds(b.room, b.requestId) && Owns(s.redis, b.room, b.requestId)
      && Next(s, last).redis.Holds(a.room, a.requestId) && Next(s, last).redis.active[a.room].value == first
  {
    var s: State;
    events, s := UpdateOutlives(start, a, first, now);
    events, s := Session(start, events, s, 4, b, second, now);
    last := Turn(2, false, None, now);
    assert s.procs[2] == Updating(first, WriteGrant);
  }

  /** Session A is on, and an ending of it has read A's grant and not deleted it yet. */
  lemma EndingWaits(start: State, a: Pending, grant: Grant, now: int) returns (events: seq<Event>, s: State)
    requires Initial(start) && grant.room == a.room && grant.sessionId == a.requestId
    ensures Leads(start, events, s) && s.ids == {a.requestId} && s.procs.Keys == {0, 1, 2}
    ensures s.procs[2] == Clearing(a.room, a.requestId, DelActive)
    ensures s.redis.Holds(a.room, a.requestId) && Owns(s.redis, a.room, a.requestId)
  {
    events, s := Session(start, [], start, 0, a, grant, now);
    var others := s.procs;
    events, s := Joins(start, events, s, 2, Clearing(a.room, a.requestId, ReadActive));
    events, s := Moves(start, events, s, others, 2, Clearing(a.room, a.requestId, ReadActive), None, now);
  }

  /** Then A is ended by somebody else, with the first ending still waiting. */
  lemma EndingOutlives(start: State, a: Pending, grant: Grant, now: int) returns (events: seq<Event>, s: State)
    requires Initial(start) && grant.room == a.room && grant.sessionId == a.requestId
    ensures Leads(start, events, s) && s.ids == {a.requestId} && s.procs.Keys == {0, 1, 2, 3}
    ensures s.procs[2] == Clearing(a.room, a.requestId, DelActive)
    ensures a.room !in s.redis.active && a.room !in s.redis.owner
  {
    events, s := EndingWaits(start, a, grant, now);
    var others := s.procs;
    events, s := Deleting(start, events, s, 3, a.room, a.requestId, now);
    events, s := Unlocking(start, events, s, others, 3, a.room, a.requestId, now);
  }

  /** It happens: two callers end session A; B is requested, approved and activated between the deletion of
      the one and that of the other, which takes B's grant. */
  lemma LateEndingRobs(start: State, a: Pending, b: Pending, first: Grant, second: Grant, now: int)
    returns (events: seq<Event>, last: Event)
    requires Initial(start) && a.room == b.room && a.requestId != b.requestId
    requires first.room == a.room && first.sessionId == a.requestId && second.room == b.room && second.sessionId == b.requestId
    ensures Possible(start, events) && last.Turn? && Enabled(After(start, events), last)
    ensures var s := After(start, events);
      && s.redis.Holds(b.room, b.requestId) && Owns(s.redis, b.room, b.requestId)
      && s.procs[last.pid] == Clearing(a.room, a.requestId, DelActive) && b.room !in Next(s, last).redis.active
  {
    var s: State;
    events, s := EndingOutlives(start, a, first, now);
    events, s := Session(start, events, s, 4, b, second, now);
    last := Turn(2, false, None, now);
    assert s.procs[2] == Clearing(a.room, a.requestId, DelActive);
  }
}
