/** Maintenance shutdown: ending every call, with a queue of cleanup rows that survives crashes between
    any two writes. A worker's tick is cut at each of its reads and writes. */
module Maintenance {
  import opened Options

  type Sid(==, !new)
  type Name(==, !new)
  type Worker(==, !new)

  const WARNING_MS := 5 * 60 * 1000

  datatype Settings = Settings(enabled: bool, startsAt: int)

  datatype Phase = Off | Scheduled | Active

  datatype Room = Room(sid: Sid, name: Name)

  /** How far a tick has come. `rooms` and `pending` are what is left of its loops. */
  datatype Tick =
    | Sweeping(rooms: seq<Room>, active: bool)
    | Marked(rooms: seq<Room>)                                         // the first room's row is committed
    | Cleaning(remaining: set<Sid>, pending: seq<Room>, stage: Stage)

  /** The cleanups of the first pending row that have run in this pass. */
  datatype Stage = Untouched | ControlEnded | RoomCleared

  /** Settings and cleanup rows, the media server's rooms, and what has happened so far: the name
      of every call there has been, SIDs ended by a worker, SIDs whose two cleanups have both run while they were inactive. */
  datatype State = State(
    now: int, settings: Option<Settings>, queue: map<Sid, Name>, rooms: map<Sid, Name>, names: map<Sid, Name>, ended: set<Sid>,
    cleaned: set<Sid>, ticks: map<Worker, Tick>, holder: Option<Worker>)
  {
    function Phase(): Phase {
      if settings.None? || !settings.value.enabled then Off
      else if settings.value.startsAt > now then Scheduled
      else Active
    }

    /** The owner's switch, under the advisory lock. */
    function Change(enabled: bool): State {
      if !enabled && queue != map[] then
        this
      else if settings.Some? && settings.value.enabled && enabled then
        this.(settings := Some(Settings(enabled, settings.value.startsAt)))
      else
        this.(settings := Some(Settings(enabled, now + WARNING_MS)))
    }

    /** Lock, read the settings, list the rooms. */
    function Begin(w: Worker, listed: seq<Room>): State {
      if holder.Some? || settings.None? then
        this
      else
        this.(ticks := ticks[w := Sweeping(listed, Phase() == Active)], holder := Some(w))
    }

    function Progress(w: Worker): Option<Tick> {
      if w in ticks then Some(ticks[w]) else None
    }

    function At(w: Worker, tick: Tick): State {
      this.(ticks := ticks[w := tick])
    }

    function Publish(w: Worker): State {
      match Progress(w)
      case Some(Sweeping(rest, false)) => if rest == [] then this else At(w, Sweeping(rest[1..], false))
      case _ => this
    }

    /** Commit the first room's cleanup row, before anything outside is touched. */
    function Mark(w: Worker): State {
      match Progress(w)
      case Some(Sweeping(rest, true)) =>
        if rest == [] then this
        else this.(queue := if rest[0].sid in queue then queue else queue[rest[0].sid := rest[0].name]).At(w, Marked(rest))
      case _ => this
    }

    /** The media server ends a room by name, whichever call holds that name. */
    function End(w: Worker, applied: bool): State {
      match Progress(w)
      case Some(Marked(rest)) =>
        if rest == [] then this
        else if !applied then At(w, Sweeping(rest[1..], true))
        else
          var hit := set sid | sid in rooms && rooms[sid] == rest[0].name;
          this.(rooms := rooms - hit, ended := ended + hit).At(w, Sweeping(rest[1..], true))
      case _ => this
    }

    /** List the rooms again, then the rows. */
    function List(w: Worker, rows: seq<Room>): State {
      match Progress(w)
      case Some(Sweeping(rest, _)) => if rest != [] then this else At(w, Cleaning(rooms.Keys, rows, Untouched))
      case _ => this
    }

    /** One step of the cleanup of the first pending row; a failure leaves the row for a later tick. */
    function Clean(w: Worker, fails: bool): State {
      match Progress(w)
      case Some(Cleaning(remaining, pending, stage)) =>
        if pending == [] then
          this
        else if fails || pending[0].sid in remaining then
          At(w, Cleaning(remaining, pending[1..], Untouched))
        else (
          match stage
          case Untouched => At(w, Cleaning(remaining, pending, ControlEnded))
          case ControlEnded =>
            this.(cleaned := if pending[0].sid in rooms then cleaned else cleaned + {pending[0].sid})
              .At(w, Cleaning(remaining, pending, RoomCleared))
          case RoomCleared => this.(queue := queue - {pending[0].sid}).At(w, Cleaning(remaining, pending[1..], Untouched)))
      case _ => this
    }

    /** The tick ends, or its process dies: either way the lock is released with its transaction. */
    function Leave(w: Worker): State {
      this.(ticks := ticks - {w}, holder := if holder == Some(w) then None else holder)
    }

    /** The transaction times out, but the tick goes on without its lock. */
    function TimeOut(w: Worker): State {
      this.(holder := if holder == Some(w) then None else holder)
    }

    function Apply(op: Op): State {
      match op
      case Change(enabled) => Change(enabled)
      case Begin(w, listed) => Begin(w, listed)
      case Publish(w) => Publish(w)
      case Mark(w) => Mark(w)
      case End(w, applied) => End(w, applied)
      case List(w, rows) => List(w, rows)
      case Clean(w, fails) => Clean(w, fails)
      case Leave(w) => Leave(w)
      case TimeOut(w) => TimeOut(w)
      case CallStarts(sid, name) => this.(rooms := rooms[sid := name], names := names[sid := name])
      case CallEnds(sid) => this.(rooms := rooms - {sid})
      case Pass(span) => this.(now := now + span)
    }

    /** The lock is exclusive, lists are what they list, a SID is never used again and a name belongs to
        one call at a time. */
    ghost predicate Enabled(op: Op) {
      match op
      case Change(_) => holder.None?
      case Begin(w, listed) => w !in ticks && Lists(listed, rooms)
      case List(_, rows) => Lists(rows, queue)
      case CallStarts(sid, name) => sid !in names && forall other :: other in rooms ==> rooms[other] != name
      case _ => true
    }

    /** A call may start at any time, in any phase, but not under a name that a running sweep has listed
        and not dealt with yet. */
    ghost predicate Undisturbed(op: Op) {
      op.CallStarts? ==> forall w, i :: w in ticks && Ends(ticks[w]) && 0 <= i < |ticks[w].rooms| ==> ticks[w].rooms[i].name != op.name
    }

    /** What holds in every run, whatever calls start and whichever locks are lost. */
    ghost predicate Sane() {
      && Tracks() && Distinct(rooms)
      && (forall w :: w in ticks ==> TickSane(ticks[w]))
      && (forall w :: w in ticks && holder == Some(w) && Ends(ticks[w]) ==> Phase() == Active)
    }

    /** Histories only name calls that have been, and ended or cleaned calls are over. */
    ghost predicate Tracks() {
      && Within(rooms, names) && Within(queue, names)
      && ended <= names.Keys && cleaned <= names.Keys && ended !! rooms.Keys && cleaned !! rooms.Keys
    }

    ghost predicate TickSane(tick: Tick) {
      match tick
      case Sweeping(rest, _) => Known(names, rest)
      case Marked(rest) => rest != [] && Known(names, rest)
      case Cleaning(remaining, pending, stage) =>
        && Known(names, pending) && Gone(rooms, remaining, pending)
        && (stage == RoomCleared && pending != [] && pending[0].sid !in remaining ==> pending[0].sid in cleaned)
    }

    /** Every call a worker has ended still has its row, or both its cleanups have run after its end. */
    ghost predicate Covered() {
      forall sid :: sid in ended ==> sid in queue || sid in cleaned
    }

    /** What a running sweep is about to end is what it has listed, and has a row. */
    ghost predicate Guarded() {
      forall w :: w in ticks && Ends(ticks[w]) ==>
        && StillOurs(rooms, ticks[w].rooms)
        && (ticks[w].Marked? && ticks[w].rooms != [] ==> ticks[w].rooms[0].sid in queue || ticks[w].rooms[0].sid !in rooms)
    }

    /** Only the holder of the lock is at work, and in phase off there is nothing to clean. */
    ghost predicate Locked() {
      && (forall w :: w in ticks ==> holder == Some(w))
      && OffIsEmpty()
    }

    ghost predicate OffIsEmpty() {
      Phase() == Off ==> queue == map[]
    }

    ghost predicate Inv() {
      Sane() && Guarded() && Covered() && Locked()
    }
  }

  /** A sweep that ends rooms. */
  predicate Ends(tick: Tick) {
    tick.Marked? || (tick.Sweeping? && tick.active)
  }

  ghost predicate Within(part: map<Sid, Name>, whole: map<Sid, Name>) {
    forall sid :: sid in part ==> sid in whole && whole[sid] == part[sid]
  }

  ghost predicate Known(names: map<Sid, Name>, listed: seq<Room>) {
    forall i :: 0 <= i < |listed| ==> listed[i].sid in names && names[listed[i].sid] == listed[i].name
  }

  ghost predicate Distinct(rooms: map<Sid, Name>) {
    forall a, b :: a in rooms && b in rooms && rooms[a] == rooms[b] ==> a == b
  }

  /** Each listed name still belongs to the listed call, or to none. */
  ghost predicate StillOurs(rooms: map<Sid, Name>, listed: seq<Room>) {
    forall i, sid :: 0 <= i < |listed| && sid in rooms && rooms[sid] == listed[i].name ==> sid == listed[i].sid
  }

  ghost predicate Pending(queue: map<Sid, Name>, pending: seq<Room>) {
    && (forall i :: 0 <= i < |pending| ==> pending[i].sid in queue && queue[pending[i].sid] == pending[i].name)
    && (forall i, j :: 0 <= i < j < |pending| ==> pending[i].sid != pending[j].sid)
  }

  ghost predicate Gone(rooms: map<Sid, Name>, remaining: set<Sid>, pending: seq<Room>) {
    forall i :: 0 <= i < |pending| ==> pending[i].sid in remaining || pending[i].sid !in rooms
  }

  /** `rows` is the whole table, each row once, in some order. */
  ghost predicate Lists(rows: seq<Room>, table: map<Sid, Name>) {
    && Pending(table, rows)
    && forall sid :: sid in table ==> Room(sid, table[sid]) in rows
  }

  datatype Op =
    | Change(enabled: bool)
    | Begin(worker: Worker, listed: seq<Room>)
    | Publish(worker: Worker)
    | Mark(worker: Worker)
    | End(worker: Worker, applied: bool)
    | List(worker: Worker, rows: seq<Room>)
    | Clean(worker: Worker, fails: bool)
    | Leave(worker: Worker)
    | TimeOut(worker: Worker)
    | CallStarts(sid: Sid, name: Name)
    | CallEnds(sid: Sid)
    | Pass(span: nat)

  lemma SaneStep(s: State, op: Op)
    requires s.Sane() && s.Enabled(op)
    ensures s.Apply(op).Sane()
  {
    match op
    case Mark(w) => SaneMark(s, w);
    case End(w, applied) => SaneEnd(s, w, applied);
    case Clean(w, fails) => SaneClean(s, w, fails);
    case Begin(w, listed) => SaneBegin(s, w, listed);
    case List(w, rows) => SaneList(s, w, rows);
    case CallStarts(sid, name) => SaneStart(s, sid, name);
    case _ => SaneOther(s, op);
  }

  lemma SaneBegin(s: State, w: Worker, listed: seq<Room>)
    requires s.Sane() && w !in s.ticks && Lists(listed, s.rooms)
    ensures s.Begin(w, listed).Sane()
  {
  }

  lemma SaneList(s: State, w: Worker, rows: seq<Room>)
    requires s.Sane() && Lists(rows, s.queue)
    ensures s.List(w, rows).Sane()
  {
  }

  lemma SaneStart(s: State, sid: Sid, name: Name)
    requires s.Sane() && s.Enabled(Op.CallStarts(sid, name))
    ensures s.Apply(Op.CallStarts(sid, name)).Sane()
  {
  }

  lemma SaneMark(s: State, w: Worker)
    requires s.Sane()
    ensures s.Mark(w).Sane()
  {
  }

  lemma SaneEnd(s: State, w: Worker, applied: bool)
    requires s.Sane()
    ensures s.End(w, applied).Sane()
  {
  }

  lemma SaneClean(s: State, w: Worker, fails: bool)
    requires s.Sane()
    ensures s.Clean(w, fails).Sane()
  {
  }

  lemma SaneOther(s: State, op: Op)
    requires s.Sane() && s.Enabled(op) && !op.Mark? && !op.End? && !op.Clean? && !op.Begin? && !op.List? && !op.CallStarts?
    ensures s.Apply(op).Sane()
  {
  }

  lemma GuardStep(s: State, op: Op)
    requires s.Sane() && s.Guarded() && s.Enabled(op) && s.Undisturbed(op)
    ensures s.Apply(op).Guarded()
  {
    match op
    case Begin(w, listed) => GuardBegin(s, w, listed);
    case End(w, applied) => GuardEnd(s, w, applied);
    case Clean(w, fails) => GuardClean(s, w, fails);
    case _ =>
  }

  lemma GuardBegin(s: State, w: Worker, listed: seq<Room>)
    requires s.Sane() && s.Guarded() && w !in s.ticks && Lists(listed, s.rooms)
    ensures s.Begin(w, listed).Guarded()
  {
  }

  lemma GuardEnd(s: State, w: Worker, applied: bool)
    requires s.Sane() && s.Guarded()
    ensures s.End(w, applied).Guarded()
  {
  }

  /** A row that is deleted is not one a sweep is about to rely on: its call is over. */
  lemma GuardClean(s: State, w: Worker, fails: bool)
    requires s.Sane() && s.Guarded()
    ensures s.Clean(w, fails).Guarded()
  {
  }

  /** The step ends a call that has no row: another call has taken the listed name. */
  ghost predicate Strays(s: State, op: Op) {
    && op.End? && op.applied && op.worker in s.ticks && s.ticks[op.worker].Marked? && s.ticks[op.worker].rooms != []
    && exists sid :: sid in s.rooms && s.rooms[sid] == s.ticks[op.worker].rooms[0].name && sid !in s.queue
  }

  /** Of all steps, only such an end leaves an ended call uncovered. */
  lemma CoverKeptIff(s: State, op: Op)
    requires s.Sane() && s.Covered() && s.Enabled(op)
    ensures s.Apply(op).Covered() <==> !Strays(s, op)
  {
    if Strays(s, op) {
      var sid :| sid in s.rooms && s.rooms[sid] == s.ticks[op.worker].rooms[0].name && sid !in s.queue;
      assert sid in s.Apply(op).ended && sid !in s.Apply(op).queue && sid !in s.Apply(op).cleaned;
    } else if op.Clean? {
      CoverClean(s, op.worker, op.fails);
    }
  }

  lemma CoverClean(s: State, w: Worker, fails: bool)
    requires s.Sane() && s.Covered()
    ensures s.Clean(w, fails).Covered()
  {
  }

  lemma GuardedNeverStrays(s: State, op: Op)
    requires s.Sane() && s.Guarded()
    ensures !Strays(s, op)
  {
  }

  /** The tick commits a row while maintenance is off. */
  ghost predicate MarksWhenOff(s: State, op: Op) {
    && op.Mark? && op.worker in s.ticks && s.ticks[op.worker].Sweeping? && s.ticks[op.worker].active && s.ticks[op.worker].rooms != []
    && s.Phase() == Off
  }

  /** Of all steps, only that one puts a row in the queue of phase off, and the tick has lost its lock. */
  lemma OffKeptIff(s: State, op: Op)
    requires s.Sane() && s.OffIsEmpty() && s.Enabled(op)
    ensures s.Apply(op).OffIsEmpty() <==> !MarksWhenOff(s, op)
    ensures MarksWhenOff(s, op) ==> s.holder != Some(op.worker)
  {
    if MarksWhenOff(s, op) {
      assert s.ticks[op.worker].rooms[0].sid in s.Apply(op).queue;
    }
  }

  lemma LockStep(s: State, op: Op)
    requires s.Sane() && s.Locked() && s.Enabled(op) && !op.TimeOut?
    ensures s.Apply(op).Locked()
  {
    OffKeptIff(s, op);
  }

  function Quiet(now: int): State {
    State(now, None, map[], map[], map[], {}, {}, map[], None)
  }

  function Run(s: State, ops: seq<Op>): State {
    if ops == [] then s else Run(s, ops[..|ops| - 1]).Apply(ops[|ops| - 1])
  }

  ghost predicate IsRun(s: State, ops: seq<Op>) {
    ops != [] ==> IsRun(s, ops[..|ops| - 1]) && Run(s, ops[..|ops| - 1]).Enabled(ops[|ops| - 1])
  }

  lemma {:induction false} RunPrefix(s: State, ops: seq<Op>, n: nat)
    requires IsRun(s, ops) && n <= |ops|
    ensures IsRun(s, ops[..n])
    ensures n < |ops| ==> Run(s, ops[..n]).Enabled(ops[n]) && Run(s, ops[..n + 1]) == Run(s, ops[..n]).Apply(ops[n])
  {
    if n < |ops| {
      assert ops[..n + 1][..n] == ops[..n];
      if n < |ops| - 1 {
        assert ops[..|ops| - 1][..n] == ops[..n] && ops[..|ops| - 1][..n + 1] == ops[..n + 1];
        RunPrefix(s, ops[..|ops| - 1], n);
      }
    } else {
      assert ops[..n] == ops;
    }
  }

  lemma {:induction false} RunSane(now: int, ops: seq<Op>)
    requires IsRun(Quiet(now), ops)
    ensures Run(Quiet(now), ops).Sane()
  {
    if ops != [] {
      RunSane(now, ops[..|ops| - 1]);
      SaneStep(Run(Quiet(now), ops[..|ops| - 1]), ops[|ops| - 1]);
    }
  }

  /** In every run, whatever calls start, whoever crashes and whichever locks are lost: ended calls are
      covered all along if and only if no step ends a call that has no row. */
  lemma CoveredThroughoutIff(now: int, ops: seq<Op>)
    requires IsRun(Quiet(now), ops)
    ensures (forall n :: 0 <= n <= |ops| ==> Run(Quiet(now), ops[..n]).Covered())
       <==> (forall n :: 0 <= n < |ops| ==> !Strays(Run(Quiet(now), ops[..n]), ops[n]))
  {
    if forall n :: 0 <= n < |ops| ==> !Strays(Run(Quiet(now), ops[..n]), ops[n]) {
      forall n | 0 <= n <= |ops|
        ensures Run(Quiet(now), ops[..n]).Covered()
      {
        CoveredUpTo(now, ops, n);
      }
    } else {
      var n :| 0 <= n < |ops| && Strays(Run(Quiet(now), ops[..n]), ops[n]);
      if Run(Quiet(now), ops[..n]).Covered() {
        RunPrefix(Quiet(now), ops, n);
        RunSane(now, ops[..n]);
        CoverKeptIff(Run(Quiet(now), ops[..n]), ops[n]);
        assert !Run(Quiet(now), ops[..n + 1]).Covered();
      }
    }
  }

  lemma {:induction false} CoveredUpTo(now: int, ops: seq<Op>, n: nat)
    requires IsRun(Quiet(now), ops) && n <= |ops|
    requires forall k :: 0 <= k < |ops| ==> !Strays(Run(Quiet(now), ops[..k]), ops[k])
    ensures Run(Quiet(now), ops[..n]).Covered()
  {
    if n > 0 {
      CoveredUpTo(now, ops, n - 1);
      RunPrefix(Quiet(now), ops, n - 1);
      RunSane(now, ops[..n - 1]);
      CoverKeptIff(Run(Quiet(now), ops[..n - 1]), ops[n - 1]);
    }
  }

  ghost predicate IsUndisturbed(s: State, ops: seq<Op>) {
    ops != [] ==> IsUndisturbed(s, ops[..|ops| - 1]) && Run(s, ops[..|ops| - 1]).Undisturbed(ops[|ops| - 1])
  }

  /** With crashes between any two writes, and even with sweeps that outlive their lock: a call that a
      worker has ended keeps its committed row until both cleanups have run after its end, as long as no
      call starts under a name that a running sweep still has to deal with. */
  lemma {:induction false} EndedCallsAreCleaned(now: int, ops: seq<Op>)
    requires IsRun(Quiet(now), ops) && IsUndisturbed(Quiet(now), ops)
    ensures var s := Run(Quiet(now), ops);
            s.Guarded() && forall sid :: sid in s.ended ==> sid !in s.rooms && (sid in s.queue || sid in s.cleaned)
  {
    RunSane(now, ops);
    if ops != [] {
      var s, op := Run(Quiet(now), ops[..|ops| - 1]), ops[|ops| - 1];
      EndedCallsAreCleaned(now, ops[..|ops| - 1]);
      RunSane(now, ops[..|ops| - 1]);
      GuardStep(s, op);
      GuardedNeverStrays(s, op);
      CoverKeptIff(s, op);
    }
  }

  ghost predicate NeverTimesOut(ops: seq<Op>) {
    forall i :: 0 <= i < |ops| ==> !ops[i].TimeOut?
  }

  /** As long as every tick keeps its lock, phase off implies an empty queue, whatever calls start. */
  lemma {:induction false} OffMeansEmpty(now: int, ops: seq<Op>)
    requires IsRun(Quiet(now), ops) && NeverTimesOut(ops)
    ensures Run(Quiet(now), ops).Locked()
  {
    if ops != [] {
      OffMeansEmpty(now, ops[..|ops| - 1]);
      RunSane(now, ops[..|ops| - 1]);
      LockStep(Run(Quiet(now), ops[..|ops| - 1]), ops[|ops| - 1]);
    }
  }

  /** In every run, whichever locks are lost: the queue of phase off is empty all along if and only if no
      step commits a row in phase off. */
  lemma OffThroughoutIff(now: int, ops: seq<Op>)
    requires IsRun(Quiet(now), ops)
    ensures (forall n :: 0 <= n <= |ops| ==> Run(Quiet(now), ops[..n]).OffIsEmpty())
       <==> (forall n :: 0 <= n < |ops| ==> !MarksWhenOff(Run(Quiet(now), ops[..n]), ops[n]))
  {
    if forall n :: 0 <= n < |ops| ==> !MarksWhenOff(Run(Quiet(now), ops[..n]), ops[n]) {
      forall n | 0 <= n <= |ops|
        ensures Run(Quiet(now), ops[..n]).OffIsEmpty()
      {
        OffUpTo(now, ops, n);
      }
    } else {
      var n :| 0 <= n < |ops| && MarksWhenOff(Run(Quiet(now), ops[..n]), ops[n]);
      if Run(Quiet(now), ops[..n]).OffIsEmpty() {
        RunPrefix(Quiet(now), ops, n);
        RunSane(now, ops[..n]);
        OffKeptIff(Run(Quiet(now), ops[..n]), ops[n]);
        assert !Run(Quiet(now), ops[..n + 1]).OffIsEmpty();
      }
    }
  }

  lemma {:induction false} OffUpTo(now: int, ops: seq<Op>, n: nat)
    requires IsRun(Quiet(now), ops) && n <= |ops|
    requires forall k :: 0 <= k < |ops| ==> !MarksWhenOff(Run(Quiet(now), ops[..k]), ops[k])
    ensures Run(Quiet(now), ops[..n]).OffIsEmpty()
  {
    if n > 0 {
      OffUpTo(now, ops, n - 1);
      RunPrefix(Quiet(now), ops, n - 1);
      RunSane(now, ops[..n - 1]);
      OffKeptIff(Run(Quiet(now), ops[..n - 1]), ops[n - 1]);
    }
  }

  /** In every run a row, of whichever call, leaves the queue only after both cleanups, and only once its
      call is over. */
  lemma RowsLeaveClean(now: int, ops: seq<Op>, op: Op, sid: Sid)
    requires IsRun(Quiet(now), ops) && Run(Quiet(now), ops).Enabled(op)
    requires sid in Run(Quiet(now), ops).queue && sid !in Run(Quiet(now), ops).Apply(op).queue
    ensures sid in Run(Quiet(now), ops).cleaned && sid !in Run(Quiet(now), ops).rooms
  {
    RunSane(now, ops);
    RowLeaves(Run(Quiet(now), ops), op, sid);
  }

  lemma RowLeaves(s: State, op: Op, sid: Sid)
    requires s.Sane() && sid in s.queue && sid !in s.Apply(op).queue
    ensures sid in s.cleaned && sid !in s.rooms
  {
    assert op.Clean?;
  }

  /** The worker is about to run a cleanup of this row. */
  ghost predicate Cleans(s: State, w: Worker, row: Room) {
    && w in s.ticks && s.ticks[w].Cleaning? && s.ticks[w].pending != [] && s.ticks[w].pending[0] == row
    && row.sid !in s.ticks[w].remaining
  }

  /** The call started under the row's name when the row's own call had been and was over. */
  ghost predicate StartedSince(now: int, ops: seq<Op>, j: nat, other: Sid, row: Room) {
    && j < |ops| && ops[j] == Op.CallStarts(other, row.name)
    && row.sid in Run(Quiet(now), ops[..j]).names && row.sid !in Run(Quiet(now), ops[..j]).rooms
  }

  /** A cleanup acts on a room by name. In every run it meets a call in progress exactly when a call has
      started under the row's name since the row's own call ended, and is still on. */
  lemma CleanupMeetsCallIff(now: int, ops: seq<Op>, w: Worker, row: Room)
    requires IsRun(Quiet(now), ops) && Cleans(Run(Quiet(now), ops), w, row)
    ensures var s := Run(Quiet(now), ops);
            (exists sid :: sid in s.rooms && s.rooms[sid] == row.name)
            <==> exists j, other :: StartedSince(now, ops, j, other, row) && other in s.rooms
  {
    var s := Run(Quiet(now), ops);
    RunSane(now, ops);
    assert s.TickSane(s.ticks[w]);
    if sid :| sid in s.rooms && s.rooms[sid] == row.name {
      var j := StartOf(now, ops, sid);
      RunPrefix(Quiet(now), ops, j);
      RunSane(now, ops[..j]);
      assert row.sid in Run(Quiet(now), ops[..j]).names;
      assert StartedSince(now, ops, j, sid, row);
    }
    if j, other :| StartedSince(now, ops, j, other, row) && other in s.rooms {
      NamesStay(now, ops, j);
    }
  }

  lemma CallsStep(s: State, op: Op)
    ensures s.Apply(op).names == if op.CallStarts? then s.names[op.sid := op.name] else s.names
    ensures forall sid :: sid in s.Apply(op).rooms ==>
              || (sid in s.rooms && s.Apply(op).rooms[sid] == s.rooms[sid])
              || (op.CallStarts? && op.sid == sid && s.Apply(op).rooms[sid] == op.name)
  {
  }

  /** When a call in progress started; no other call has started under its name since. */
  lemma {:induction false} StartOf(now: int, ops: seq<Op>, sid: Sid) returns (j: nat)
    requires IsRun(Quiet(now), ops) && sid in Run(Quiet(now), ops).rooms
    ensures var s := Run(Quiet(now), ops);
            && j < |ops| && ops[j] == Op.CallStarts(sid, s.rooms[sid])
            && forall x :: x in s.names && x != sid && s.names[x] == s.rooms[sid] ==>
                 x in Run(Quiet(now), ops[..j]).names && Run(Quiet(now), ops[..j]).names[x] == s.names[x]
  {
    var init, op := ops[..|ops| - 1], ops[|ops| - 1];
    var s := Run(Quiet(now), init);
    CallsStep(s, op);
    assert s.Enabled(op) && Run(Quiet(now), ops) == s.Apply(op);
    if sid in s.rooms && s.Apply(op).rooms[sid] == s.rooms[sid] {
      j := StartOf(now, init, sid);
      assert init[..j] == ops[..j];
    } else {
      j := |ops| - 1;
    }
  }

  /** A call keeps its name for ever. */
  lemma {:induction false} NamesStay(now: int, ops: seq<Op>, j: nat)
    requires IsRun(Quiet(now), ops) && j < |ops| && ops[j].CallStarts?
    ensures ops[j].sid in Run(Quiet(now), ops).names && Run(Quiet(now), ops).names[ops[j].sid] == ops[j].name
  {
    var init, op := ops[..|ops| - 1], ops[|ops| - 1];
    var s := Run(Quiet(now), init);
    CallsStep(s, op);
    assert s.Enabled(op) && Run(Quiet(now), ops) == s.Apply(op);
    if j < |ops| - 1 {
      NamesStay(now, init, j);
    }
  }

  ghost predicate NeverDisabled(ops: seq<Op>) {
    forall i :: 0 <= i < |ops| && ops[i].Change? ==> ops[i].enabled
  }

  lemma StepKeepsStart(s: State, op: Op)
    requires s.settings.Some? && s.settings.value.enabled && (op.Change? ==> op.enabled)
    ensures s.Apply(op).settings == s.settings && s.Apply(op).now >= s.now
  {
  }

  /** Enabling again, however often and whenever, moves neither the start nor the phase backwards. */
  lemma {:induction false} EnableNeverMovesStart(s: State, ops: seq<Op>)
    requires s.settings.Some? && s.settings.value.enabled && NeverDisabled(ops)
    ensures Run(s, ops).settings == s.settings && Run(s, ops).now >= s.now
    ensures s.Phase() == Active ==> Run(s, ops).Phase() == Active
  {
    if ops != [] {
      EnableNeverMovesStart(s, ops[..|ops| - 1]);
      StepKeepsStart(Run(s, ops[..|ops| - 1]), ops[|ops| - 1]);
    }
  }

  lemma Continue(s: State, ops: seq<Op>, t: State, op: Op) returns (more: seq<Op>, u: State)
    requires IsRun(s, ops) && Run(s, ops) == t && t.Enabled(op)
    ensures more == ops + [op] && u == t.Apply(op) && IsRun(s, more) && Run(s, more) == u
  {
    more, u := ops + [op], t.Apply(op);
    assert more[..|more| - 1] == ops;
  }

  /** A worker that holds the lock, has listed one call and reads maintenance as active. */
  lemma Sweep(now: int, w: Worker, sid: Sid, name: Name) returns (ops: seq<Op>, s: State)
    ensures IsRun(Quiet(now), ops) && s == Run(Quiet(now), ops) && NeverTimesOut(ops) && IsUndisturbed(Quiet(now), ops)
    ensures s == State(now + WARNING_MS, Some(Settings(true, now + WARNING_MS)), map[], map[sid := name], map[sid := name], {}, {},
                       map[w := Sweeping([Room(sid, name)], true)], Some(w))
  {
    ops, s := [], Quiet(now);
    ops, s := Quietly(now, ops, s, Op.CallStarts(sid, name));
    assert s == Quiet(now).(rooms := map[sid := name], names := map[sid := name]);
    ops, s := Quietly(now, ops, s, Op.Change(true));
    assert s == Quiet(now).(rooms := map[sid := name], names := map[sid := name], settings := Some(Settings(true, now + WARNING_MS)));
    ops, s := Quietly(now, ops, s, Op.Pass(WARNING_MS));
    ops, s := Quietly(now, ops, s, Op.Begin(w, [Room(sid, name)]));
  }

  /** A token issued before maintenance can start a call at any time. If one does so under a name that the
      running sweep has listed and whose call has ended by itself, that call is ended without a row. */
  lemma ReusedNameIsLost(now: int, w: Worker, sid: Sid, other: Sid, name: Name) returns (ops: seq<Op>)
    requires sid != other
    ensures IsRun(Quiet(now), ops)
    ensures var s := Run(Quiet(now), ops); other in s.ended && other !in s.queue && other !in s.cleaned
  {
    var s: State;
    ops, s := Sweep(now, w, sid, name);
    ops, s := Continue(Quiet(now), ops, s, Op.Mark(w));
    ops, s := Continue(Quiet(now), ops, s, Op.CallEnds(sid));
    ops, s := Continue(Quiet(now), ops, s, Op.CallStarts(other, name));
    ops, s := Continue(Quiet(now), ops, s, Op.End(w, true));
  }

  /** And if it does so between the end of the listed call and the second listing, the cleanup of that
      call, which goes by name, meets the new one in full maintenance. */
  lemma CleanupCanMeetCall(now: int, w: Worker, sid: Sid, other: Sid, name: Name) returns (ops: seq<Op>)
    requires sid != other
    ensures IsRun(Quiet(now), ops) && NeverTimesOut(ops) && IsUndisturbed(Quiet(now), ops)
    ensures var s := Run(Quiet(now), ops);
            Cleans(s, w, Room(sid, name)) && other in s.rooms && s.rooms[other] == name && s.Phase() == Active
  {
    var s: State;
    ops, s := Sweep(now, w, sid, name);
    var t := s;
    ops, s := Quietly(now, ops, s, Op.Mark(w));
    ops, s := Quietly(now, ops, s, Op.End(w, true));
    assert s == t.(queue := map[sid := name], rooms := map[], ended := {sid}, ticks := map[w := Sweeping([], true)]) by {
      EndOnly(t, w, sid, name);
    }
    ops, s := Quietly(now, ops, s, Op.CallStarts(other, name));
    ops, s := Quietly(now, ops, s, Op.List(w, [Room(sid, name)]));
  }

  lemma Quietly(now: int, ops: seq<Op>, t: State, op: Op) returns (more: seq<Op>, u: State)
    requires IsRun(Quiet(now), ops) && Run(Quiet(now), ops) == t && t.Enabled(op)
    requires NeverTimesOut(ops) && IsUndisturbed(Quiet(now), ops) && !op.TimeOut? && t.Undisturbed(op)
    ensures u == t.Apply(op) && IsRun(Quiet(now), more) && Run(Quiet(now), more) == u
    ensures NeverTimesOut(more) && IsUndisturbed(Quiet(now), more)
  {
    more, u := Continue(Quiet(now), ops, t, op);
    assert more[..|more| - 1] == ops;
  }

  /** And a tick that outlives its transaction can queue a row after maintenance was switched off. */
  lemma TimeOutBreaksOff(now: int, w: Worker, sid: Sid, name: Name) returns (ops: seq<Op>)
    ensures IsRun(Quiet(now), ops)
    ensures var s := Run(Quiet(now), ops); s.Phase() == Off && s.queue != map[]
  {
    var s: State;
    ops, s := Sweep(now, w, sid, name);
    ops, s := Continue(Quiet(now), ops, s, Op.TimeOut(w));
    ops, s := Continue(Quiet(now), ops, s, Op.Change(false));
    ops, s := Continue(Quiet(now), ops, s, Op.Mark(w));
    assert sid in s.queue;
  }

  /** No call starts under a name still to be dealt with, and no lock is lost. */
  ghost predicate Orderly(s: State, op: Op) {
    s.Enabled(op) && s.Undisturbed(op) && !op.TimeOut?
  }

  ghost predicate IsOrderly(s: State, ops: seq<Op>) {
    ops != [] ==> IsOrderly(s, ops[..|ops| - 1]) && Orderly(Run(s, ops[..|ops| - 1]), ops[|ops| - 1])
  }

  lemma {:induction false} OrderlyKeeps(s: State, ops: seq<Op>)
    requires s.Inv() && IsOrderly(s, ops)
    ensures Run(s, ops).Inv()
  {
    if ops != [] {
      OrderlyKeeps(s, ops[..|ops| - 1]);
      StepKeeps(Run(s, ops[..|ops| - 1]), ops[|ops| - 1]);
    }
  }

  lemma StepKeeps(s: State, op: Op)
    requires s.Inv() && Orderly(s, op)
    ensures s.Apply(op).Inv()
  {
    SaneStep(s, op);
    GuardStep(s, op);
    GuardedNeverStrays(s, op);
    CoverKeptIff(s, op);
    LockStep(s, op);
  }

  /** `t` comes from `s` by an orderly run. */
  ghost predicate Reaches(s: State, t: State) {
    exists ops :: IsOrderly(s, ops) && Run(s, ops) == t
  }

  lemma ReachesItself(s: State)
    ensures Reaches(s, s)
  {
    assert IsOrderly(s, []) && Run(s, []) == s;
  }

  lemma ReachesStep(s: State, t: State, op: Op)
    requires Reaches(s, t) && Orderly(t, op)
    ensures Reaches(s, t.Apply(op))
  {
    var ops :| IsOrderly(s, ops) && Run(s, ops) == t;
    var more := ops + [op];
    assert more[..|more| - 1] == ops;
    assert IsOrderly(s, more) && Run(s, more) == t.Apply(op);
  }

  lemma ReachesPublish(s: State, t: State, w: Worker, rest: seq<Room>)
    requires Reaches(s, t) && rest != [] && t.ticks == map[w := Sweeping(rest, false)]
    ensures Reaches(s, t.(ticks := map[w := Sweeping(rest[1..], false)]))
  {
    assert t.Publish(w) == t.(ticks := map[w := Sweeping(rest[1..], false)]) by {
      assert t.Progress(w) == Some(Sweeping(rest, false));
    }
    assert Orderly(t, Op.Publish(w)) && t.Apply(Op.Publish(w)) == t.Publish(w);
    ReachesStep(s, t, Op.Publish(w));
  }

  lemma ReachesBegin(s: State, w: Worker, listed: seq<Room>)
    requires s.ticks == map[] && s.holder.None? && s.settings.Some? && Lists(listed, s.rooms)
    ensures Reaches(s, s.(ticks := map[w := Sweeping(listed, s.Phase() == Active)], holder := Some(w)))
  {
    ReachesItself(s);
    ReachesStep(s, s, Op.Begin(w, listed));
  }

  lemma ReachesList(s: State, t: State, w: Worker, active: bool, rows: seq<Room>)
    requires Reaches(s, t) && t.ticks == map[w := Sweeping([], active)] && Lists(rows, t.queue)
    ensures Reaches(s, t.(ticks := map[w := Cleaning(t.rooms.Keys, rows, Untouched)]))
  {
    assert t.List(w, rows) == t.(ticks := map[w := Cleaning(t.rooms.Keys, rows, Untouched)]) by {
      assert t.Progress(w) == Some(Sweeping([], active));
    }
    assert Orderly(t, Op.List(w, rows)) && t.Apply(Op.List(w, rows)) == t.List(w, rows);
    ReachesStep(s, t, Op.List(w, rows));
  }

  lemma ReachesEnd(s: State, t: State, w: Worker, applied: bool)
    requires Reaches(s, t)
    ensures Reaches(s, t.Mark(w).End(w, applied))
  {
    ReachesStep(s, t, Op.Mark(w));
    ReachesStep(s, t.Mark(w), Op.End(w, applied));
  }

  lemma ReachesClean(s: State, t: State, w: Worker)
    requires Reaches(s, t)
    ensures Reaches(s, t.Clean(w, false).Clean(w, false).Clean(w, false)) && Reaches(s, t.Clean(w, true))
  {
    ReachesStep(s, t, Op.Clean(w, true));
    ReachesStep(s, t, Op.Clean(w, false));
    ReachesStep(s, t.Clean(w, false), Op.Clean(w, false));
    ReachesStep(s, t.Clean(w, false).Clean(w, false), Op.Clean(w, false));
  }

  lemma ReachesLeave(s: State, t: State, w: Worker, tick: Tick)
    requires Reaches(s, t) && t.ticks == map[w := tick] && t.holder == Some(w)
    ensures Reaches(s, t.(ticks := map[], holder := None))
  {
    ReachesStep(s, t, Op.Leave(w));
    assert t.Leave(w) == t.(ticks := map[], holder := None);
  }

  /** The table's rows, each once, in the order the database happens to return them. */
  method Rows(table: map<Sid, Name>) returns (rows: seq<Room>)
    ensures Lists(rows, table)
  {
    rows := [];
    var rest := table.Keys;
    while rest != {}
      invariant rest <= table.Keys && Pending(table, rows)
      invariant forall sid :: sid in table ==> sid in rest || Room(sid, table[sid]) in rows
      invariant forall i :: 0 <= i < |rows| ==> rows[i].sid !in rest
      decreases rest
    {
      var sid :| sid in rest;
      rows, rest := rows + [Room(sid, table[sid])], rest - {sid};
    }
  }

  /** What is left of a table once the first `n` listed rows are dealt with. */
  ghost predicate Unlisted(left: map<Sid, Name>, table: map<Sid, Name>, listed: seq<Room>, n: nat)
    requires n <= |listed|
  {
    && left.Keys <= table.Keys && (forall sid :: sid in left ==> left[sid] == table[sid])
    && forall sid, i :: sid in left && 0 <= i < n ==> listed[i] != Room(sid, table[sid])
  }

  lemma UnlistedStep(left: map<Sid, Name>, less: map<Sid, Name>, table: map<Sid, Name>, listed: seq<Room>, n: nat)
    requires n < |listed| && Unlisted(left, table, listed, n)
    requires less.Keys <= left.Keys && (forall sid :: sid in less ==> less[sid] == left[sid])
    requires listed[n].sid in less ==> less[listed[n].sid] != listed[n].name
    ensures Unlisted(less, table, listed, n + 1)
  {
  }

  lemma NothingLeft(left: map<Sid, Name>, table: map<Sid, Name>, listed: seq<Room>)
    requires Lists(listed, table) && Unlisted(left, table, listed, |listed|)
    ensures left == map[]
  {
    assert forall sid :: sid in left ==> Room(sid, table[sid]) in listed;
    assert left.Keys == {};
  }

  /** So a tick keeps all that orderly runs keep. */
  lemma ReachedIsInv(s: State, t: State)
    requires Reaches(s, t)
    ensures s.Inv() ==> t.Inv()
  {
    if s.Inv() {
      var ops :| IsOrderly(s, ops) && Run(s, ops) == t;
      OrderlyKeeps(s, ops);
    }
  }

  lemma MarkThenEnd(s: State, w: Worker, rest: seq<Room>, applied: bool)
    requires s.ticks == map[w := Sweeping(rest, true)] && rest != []
    ensures var hit := if applied then set sid | sid in s.rooms && s.rooms[sid] == rest[0].name else {};
            s.Mark(w).End(w, applied) ==
              s.(queue := if rest[0].sid in s.queue then s.queue else s.queue[rest[0].sid := rest[0].name],
                 rooms := s.rooms - hit, ended := s.ended + hit, ticks := map[w := Sweeping(rest[1..], true)])
  {
    var t := s.Mark(w);
    assert t.Progress(w) == Some(Marked(rest)) && t.rooms == s.rooms;
    assert s.rooms - {} == s.rooms;
  }

  lemma EndOnly(s: State, w: Worker, sid: Sid, name: Name)
    requires s.ticks == map[w := Sweeping([Room(sid, name)], true)] && s.queue == map[] && s.rooms == map[sid := name] && s.ended == {}
    ensures s.Mark(w).End(w, true) == s.(queue := map[sid := name], rooms := map[], ended := {sid}, ticks := map[w := Sweeping([], true)])
  {
    MarkThenEnd(s, w, [Room(sid, name)], true);
    assert (set x | x in s.rooms && s.rooms[x] == name) == {sid};
    assert s.rooms - {sid} == map[];
    assert [Room(sid, name)][1..] == [];
  }

  /** What happens to one request of a tick: a failure the tick goes on after, or the end of its process. */
  datatype Fate = Succeeds | Fails | Dies

  datatype Status = Status(phase: Phase, startsAt: Option<int>)

  datatype Reply = Changed(status: Status) | Forbidden | StillCleaning

  /** The settings row, the cleanup rows and the media server, as one process works on them. */
  class Maintenance {
    var now: int
    var settings: Option<Settings>
    var queue: map<Sid, Name>
    var rooms: map<Sid, Name>
    ghost var names: map<Sid, Name>
    ghost var ended: set<Sid>
    ghost var cleaned: set<Sid>

    ghost function During(ticks: map<Worker, Tick>, holder: Option<Worker>): State
      reads this
    {
      State(now, settings, queue, rooms, names, ended, cleaned, ticks, holder)
    }

    /** In the middle of the only tick. */
    ghost function Alone(w: Worker, tick: Tick): State
      reads this
    {
      During(map[w := tick], Some(w))
    }

    /** Between ticks. */
    ghost function View(): State
      reads this
    {
      During(map[], None)
    }

    constructor (now: int)
      ensures View() == Quiet(now)
    {
      this.now, settings, queue, rooms, names, ended, cleaned := now, None, map[], map[], map[], {}, {};
    }

    method CurrentStatus() returns (status: Status)
      ensures status.phase == View().Phase()
      ensures status.phase == Off <==> settings.None? || !settings.value.enabled
      ensures status.phase == Active <==> settings.Some? && settings.value.enabled && settings.value.startsAt <= now
      ensures status.startsAt == if status.phase == Off then None else Some(settings.value.startsAt)
    {
      if settings.None? || !settings.value.enabled {
        return Status(Off, None);
      }
      return Status(if settings.value.startsAt > now then Scheduled else Active, Some(settings.value.startsAt));
    }

    method Change(owner: bool, enabled: bool) returns (reply: Reply)
      modifies this`settings
      ensures View() == if owner then old(View()).Change(enabled) else old(View())
      ensures reply == Forbidden <==> !owner
      ensures reply.Changed? ==> settings == Some(Settings(enabled,
        if enabled && old(settings).Some? && old(settings).value.enabled then old(settings).value.startsAt else now + 5 * 60_000))
      ensures !reply.Changed? ==> settings == old(settings)
      ensures reply == StillCleaning <==> owner && !enabled && queue != map[]
      ensures reply.Changed? ==> owner && (reply.status.phase == Off <==> !enabled) && reply.status.phase == View().Phase()
    {
      if !owner {
        return Forbidden;
      }
      if !enabled && queue != map[] {
        return StillCleaning;
      }
      var kept := settings.Some? && settings.value.enabled && enabled;
      settings := Some(Settings(enabled, if kept then settings.value.startsAt else now + WARNING_MS));
      var status := CurrentStatus();
      return Changed(status);
    }

    /** One listed room: its row first, then the room, then the room after it. */
    method EndRoom(ghost w: Worker, rest: seq<Room>, fate: Fate)
      requires rest != []
      modifies this`queue, this`rooms, this`ended
      ensures Alone(w, Sweeping(rest[1..], true)) ==
              old(Alone(w, Sweeping(rest, true))).Mark(w).End(w, fate.Succeeds?)
      ensures rooms.Keys <= old(rooms).Keys && (forall sid :: sid in rooms ==> rooms[sid] == old(rooms)[sid])
      ensures fate.Succeeds? && rest[0].sid in rooms ==> rooms[rest[0].sid] != rest[0].name
    {
      MarkThenEnd(Alone(w, Sweeping(rest, true)), w, rest, fate.Succeeds?);
      if rest[0].sid !in queue {
        queue := queue[rest[0].sid := rest[0].name];
      }
      if fate.Succeeds? {
        var hit := set sid | sid in rooms && rooms[sid] == rest[0].name;
        rooms, ended := rooms - hit, ended + hit;
      }
    }

    /** The first pending row: both cleanups, then the row; any failure leaves the row. */
    method CleanRow(ghost w: Worker, remaining: set<Sid>, pending: seq<Room>, fate: Fate)
      requires pending != []
      modifies this`queue, this`cleaned
      ensures Alone(w, Cleaning(remaining, pending[1..], Untouched)) ==
              var s := old(Alone(w, Cleaning(remaining, pending, Untouched)));
              if pending[0].sid in remaining || !fate.Succeeds? then s.Clean(w, true)
              else s.Clean(w, false).Clean(w, false).Clean(w, false)
      ensures queue.Keys <= old(queue).Keys && (forall sid :: sid in queue ==> queue[sid] == old(queue)[sid])
      ensures fate.Succeeds? && pending[0].sid !in remaining ==> pending[0].sid !in queue
    {
      if pending[0].sid !in remaining && fate.Succeeds? {
        cleaned := if pending[0].sid in rooms then cleaned else cleaned + {pending[0].sid};
        queue := queue - {pending[0].sid};
      }
    }
  
    /** The sweep over the listed rooms. */
    method SweepRooms(ghost w: Worker, listed: seq<Room>, active: bool, fate: nat -> Fate, ghost s0: State) returns (alive: bool)
      requires Reaches(s0, Alone(w, Sweeping(listed, active)))
      modifies this`queue, this`rooms, this`ended
      ensures Reaches(s0, if alive then Alone(w, Sweeping([], active)) else View())
      ensures s0.Inv() ==> (if alive then Alone(w, Sweeping([], active)) else View()).Inv()
      ensures (forall k: nat :: fate(k).Succeeds?) ==> alive && (active ==> Unlisted(rooms, old(rooms), listed, |listed|))
    {
      for i := 0 to |listed|
        invariant Reaches(s0, Alone(w, Sweeping(listed[i..], active)))
        invariant (forall k: nat :: fate(k).Succeeds?) && active ==> Unlisted(rooms, old(rooms), listed, i)
      {
        var luck := fate(i);
        ghost var s := Alone(w, Sweeping(listed[i..], active));
        if luck.Dies? {
          ReachesLeave(s0, s, w, Sweeping(listed[i..], active));
          ReachedIsInv(s0, View());
          return false;
        }
        assert listed[i..][1..] == listed[i + 1..];
        if active {
          ghost var left := rooms;
          EndRoom(w, listed[i..], luck);
          ReachesEnd(s0, s, w, luck.Succeeds?);
          if Unlisted(left, old(rooms), listed, i) && luck.Succeeds? {
            UnlistedStep(left, rooms, old(rooms), listed, i);
          }
        } else {
          ReachesPublish(s0, s, w, listed[i..]);
        }
      }
      ReachedIsInv(s0, Alone(w, Sweeping([], active)));
      return true;
    }

    method CleanRows(ghost w: Worker, remaining: set<Sid>, pending: seq<Room>, fate: nat -> Fate, ghost s0: State)
      requires Reaches(s0, Alone(w, Cleaning(remaining, pending, Untouched)))
      modifies this`queue, this`cleaned
      ensures Reaches(s0, View()) && (s0.Inv() ==> View().Inv())
      ensures (forall k: nat :: fate(k).Succeeds?) && remaining == {} ==> Unlisted(queue, old(queue), pending, |pending|)
    {
      for i := 0 to |pending|
        invariant Reaches(s0, Alone(w, Cleaning(remaining, pending[i..], Untouched)))
        invariant (forall k: nat :: fate(k).Succeeds?) && remaining == {} ==> Unlisted(queue, old(queue), pending, i)
      {
        var luck := fate(i);
        ghost var s := Alone(w, Cleaning(remaining, pending[i..], Untouched));
        if luck.Dies? {
          ReachesLeave(s0, s, w, Cleaning(remaining, pending[i..], Untouched));
          ReachedIsInv(s0, View());
          return;
        }
        assert pending[i..][1..] == pending[i + 1..];
        ghost var left := queue;
        CleanRow(w, remaining, pending[i..], luck);
        ReachesClean(s0, s, w);
        if Unlisted(left, old(queue), pending, i) && luck.Succeeds? && remaining == {} {
          UnlistedStep(left, queue, old(queue), pending, i);
        }
      }
      ReachesLeave(s0, Alone(w, Cleaning(remaining, [], Untouched)), w, Cleaning(remaining, [], Untouched));
      ReachedIsInv(s0, View());
    }

    /** The second half of a tick. */
    method CleanUp(ghost w: Worker, ghost active: bool, fate: nat -> Fate, ghost s0: State)
      requires Reaches(s0, Alone(w, Sweeping([], active)))
      modifies this`queue, this`cleaned
      ensures Reaches(s0, View()) && (s0.Inv() ==> View().Inv())
      ensures (forall k: nat :: fate(k).Succeeds?) && rooms == map[] ==> queue == map[]
    {
      var rows := Rows(queue);
      ReachesList(s0, Alone(w, Sweeping([], active)), w, active, rows);
      CleanRows(w, rooms.Keys, rows, fate, s0);
      if Unlisted(queue, old(queue), rows, |rows|) {
        NothingLeft(queue, old(queue), rows);
      }
    }

    /** One tick. It is an orderly run of the machine, wherever it fails or dies; and when maintenance is
        active and nothing fails, one tick leaves no call running and no cleanup to do. */
    method Tick(ghost w: Worker, locked: bool, fates: nat -> Fate, cleanupFates: nat -> Fate)
      modifies this
      ensures Reaches(old(View()), View()) && (old(View()).Inv() ==> View().Inv())
      ensures locked && old(View()).Phase() == Active && (forall k: nat :: fates(k).Succeeds? && cleanupFates(k).Succeeds?) ==>
        rooms == map[] && queue == map[]
    {
      ghost var s0 := View();
      if !locked || settings.None? {
        ReachesItself(s0);
        return;
      }
      var active := settings.value.enabled && settings.value.startsAt <= now;
      var listed := Rows(rooms);
      ReachesBegin(s0, w, listed);
      var alive := SweepRooms(w, listed, active, fates, s0);
      if alive {
        if Unlisted(rooms, old(rooms), listed, |listed|) {
          NothingLeft(rooms, old(rooms), listed);
        }
        CleanUp(w, active, cleanupFates, s0);
      }
    }
  }
}
