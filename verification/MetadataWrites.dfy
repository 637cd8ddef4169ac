/** Concurrent writers of one room's LiveKit metadata. Each reads the whole object, edits it and
    writes it back; the promise chain makes that equivalent to editing in submission order. */
module MetadataWrites {
  import opened Options
  import C = PromiseChain

  /** The fields the service writes; any other name is `Other`. */
  datatype Key =
    | RemoteControl | MuteOnEntry | Recording | RecordingStartedAt | RecordingId | RecordingShareAvailable
    | StartedAt | Maintenance | ServerTime | Other(name: string)

  datatype Json = Null | Bool(b: bool) | Num(n: int) | Str(s: string) | Obj(fields: map<string, Json>)

  type Metadata = map<Key, Json>

  /** An edit at a given time; None when it finds nothing to change. */
  type Mutator = (Metadata, int) -> Option<Metadata>

  /** What became of a call: the edit reached the server at some time, or it had no effect. */
  datatype Effect = Applied(time: int) | Skipped

  datatype Desk = Empty | Holding(copy: Metadata)

  datatype State = State(chain: C.Chain, mutators: seq<Mutator>, desks: seq<Desk>, server: Metadata, effects: seq<Effect>)

  datatype Event =
    | Submit(mutate: Mutator)
    | Enter(i: nat)
    | Read(i: nat)
    | ReadFails(i: nat)
    | Write(i: nat, time: int, stored: bool)
    | Cleanup(i: nat)

  function Edited(mutate: Mutator, metadata: Metadata, time: int): Option<Metadata> {
    match mutate(metadata, time)
    case None => None
    case Some(changed) => Some(changed[ServerTime := Num(time)])
  }

  predicate Enabled(s: State, e: Event) {
    match e
    case Submit(_) => true
    case Enter(i) => C.Enabled(s.chain, C.Enter(i))
    case Read(i) => C.Enabled(s.chain, C.Settle(i)) && i < |s.desks| && s.desks[i].Empty?
    case ReadFails(i) => C.Enabled(s.chain, C.Settle(i)) && i < |s.desks| && s.desks[i].Empty?
    case Write(i, _, _) => C.Enabled(s.chain, C.Settle(i)) && i < |s.desks| == |s.mutators| && s.desks[i].Holding?
    case Cleanup(i) => C.Enabled(s.chain, C.Cleanup(i))
  }

  function Next(s: State, e: Event): State
    requires Enabled(s, e)
  {
    match e
    case Submit(mutate) =>
      s.(chain := C.Next(s.chain, C.Submit), mutators := s.mutators + [mutate], desks := s.desks + [Empty])
    case Enter(i) => s.(chain := C.Next(s.chain, C.Enter(i)))
    case Read(i) => s.(desks := s.desks[i := Holding(s.server)])
    case ReadFails(i) => s.(chain := C.Next(s.chain, C.Settle(i)), effects := s.effects + [Skipped])
    case Write(i, time, stored) =>
      var edited := Edited(s.mutators[i], s.desks[i].copy, time);
      var settled := s.(chain := C.Next(s.chain, C.Settle(i)));
      if stored && edited.Some? then settled.(server := edited.value, effects := s.effects + [Applied(time)])
      else settled.(effects := s.effects + [Skipped])
    case Cleanup(i) => s.(chain := C.Next(s.chain, C.Cleanup(i)))
  }

  /** The sequential meaning: edit after edit, in submission order. */
  function Replay(start: Metadata, mutators: seq<Mutator>, effects: seq<Effect>): Metadata
    requires |effects| <= |mutators|
    decreases |effects|
  {
    if effects == [] then start
    else
      var n := |effects| - 1;
      var before := Replay(start, mutators, effects[..n]);
      match effects[n]
      case Skipped => before
      case Applied(time) =>
        var edited := Edited(mutators[n], before, time);
        if edited.Some? then edited.value else before
  }

  ghost predicate Inv(start: Metadata, s: State) {
    && C.Inv(s.chain)
    && |s.mutators| == |s.desks| == |s.chain.calls| && |s.effects| <= |s.mutators|
    && (forall i :: 0 <= i < |s.chain.calls| ==> (s.chain.calls[i].phase.Settled? <==> i < |s.effects|))
    && (forall i :: 0 <= i < |s.desks| && s.chain.calls[i].phase.Waiting? ==> s.desks[i].Empty?)
    && (forall i :: 0 <= i < |s.desks| && s.desks[i].Holding? && s.chain.calls[i].phase.Running? ==> s.desks[i].copy == s.server)
    && s.server == Replay(start, s.mutators, s.effects)
  }

  lemma {:induction false} ReplayIgnoresTheRest(start: Metadata, mutators: seq<Mutator>, more: seq<Mutator>, effects: seq<Effect>)
    requires |effects| <= |mutators|
    ensures Replay(start, mutators + more, effects) == Replay(start, mutators, effects)
    decreases |effects|
  {
    if effects != [] {
      ReplayIgnoresTheRest(start, mutators, more, effects[..|effects| - 1]);
    }
  }

  lemma NextKeeps(start: Metadata, s: State, e: Event)
    requires Inv(start, s) && Enabled(s, e)
    ensures Inv(start, Next(s, e))
  {
    match e
    case Submit(mutate) =>
      C.NextKeeps(s.chain, C.Submit);
      ReplayIgnoresTheRest(start, s.mutators, [mutate], s.effects);
    case Enter(i) => C.NextKeeps(s.chain, C.Enter(i));
    case Read(i) =>
    case ReadFails(i) => SettleKeeps(start, s, i, Next(s, e));
    case Write(i, time, stored) => SettleKeeps(start, s, i, Next(s, e));
    case Cleanup(i) => C.NextKeeps(s.chain, C.Cleanup(i));
  }

  /** The caller that settles is the first unsettled one, so its effect goes at the end of the log. */
  lemma SettleKeeps(start: Metadata, s: State, i: nat, b: State)
    requires Inv(start, s) && C.Enabled(s.chain, C.Settle(i))
    requires b.chain == C.Next(s.chain, C.Settle(i)) && b.mutators == s.mutators && b.desks == s.desks
    requires |b.effects| == |s.effects| + 1 && b.effects[..|s.effects|] == s.effects
    requires match b.effects[|s.effects|]
             case Skipped => b.server == s.server
             case Applied(time) =>
               var edited := Edited(s.mutators[i], s.server, time);
               edited.Some? && b.server == edited.value
    ensures Inv(start, b)
  {
    C.NextKeeps(s.chain, C.Settle(i));
    assert C.SettledBefore(s.chain, i);
    assert i > 0 ==> s.chain.calls[i - 1].phase.Settled?;
    assert i == |s.effects|;
    forall j | 0 <= j < |s.desks| && s.chain.calls[j].phase.Running? ensures j == i {
      C.Exclusive(s.chain, i, j);
    }
  }

  ghost predicate Initial(s: State) {
    s.chain == C.Chain([], None) && s.mutators == [] && s.desks == [] && s.effects == []
  }

  ghost predicate IsRun(states: seq<State>, events: seq<Event>) {
    && |states| == |events| + 1 && Initial(states[0])
    && (forall i :: 0 <= i < |events| ==> Enabled(states[i], events[i]) && states[i + 1] == Next(states[i], events[i]))
  }

  /** Every interleaving is equivalent to applying the edits one after another in submission order,
      a failed write counting as a skip. */
  lemma {:induction false} Serializable(states: seq<State>, events: seq<Event>, i: nat)
    requires IsRun(states, events) && i < |states|
    ensures Inv(states[0].server, states[i])
    ensures |states[i].effects| <= |states[i].mutators|
         && states[i].server == Replay(states[0].server, states[i].mutators, states[i].effects)
  {
    if i > 0 {
      Serializable(states, events, i - 1);
      NextKeeps(states[0].server, states[i - 1], events[i - 1]);
    }
  }

  /** What an event does to the chain. */
  function ChainStep(e: Event): Option<C.Step> {
    match e
    case Submit(_) => Some(C.Submit)
    case Enter(i) => Some(C.Enter(i))
    case Read(_) => None
    case ReadFails(i) => Some(C.Settle(i))
    case Write(i, _, _) => Some(C.Settle(i))
    case Cleanup(i) => Some(C.Cleanup(i))
  }

  lemma ChainFollows(s: State, e: Event)
    requires Enabled(s, e)
    ensures C.Follows(s.chain, ChainStep(e), Next(s, e).chain)
  {
  }

  ghost function Turns(events: seq<Event>, a: nat, b: nat): seq<Option<C.Step>>
    requires a <= b <= |events|
  {
    seq(b - a, k requires 0 <= k < b - a => ChainStep(events[a + k]))
  }

  ghost function Chains(states: seq<State>, a: nat, b: nat): seq<C.Chain>
    requires a <= b < |states|
  {
    seq(b - a + 1, k requires 0 <= k <= b - a => states[a + k].chain)
  }

  lemma ChainRuns(states: seq<State>, events: seq<Event>, a: nat, b: nat)
    requires IsRun(states, events) && a <= b < |states|
    ensures C.IsRun(Chains(states, a, b), Turns(events, a, b))
  {
    var steps := Turns(events, a, b);
    var chains := Chains(states, a, b);
    forall k | 0 <= k < |steps|
      ensures C.Follows(chains[k], steps[k], chains[k + 1])
    {
      ChainFollows(states[a + k], events[a + k]);
    }
  }

  /** Writers start in submission order, and none waits for ever: once as many have been let in or have
      settled as were ahead of it, a writer and all before it have settled, whichever of them failed. */
  lemma WritersAreServed(states: seq<State>, events: seq<Event>, a: nat, b: nat, i: nat)
    requires IsRun(states, events) && a <= b < |states| && i < |states[a].chain.calls|
    ensures C.Fifo(states[b].chain) && i < |states[b].chain.calls|
    ensures C.Moves(Turns(events, a, b)) >= C.Ahead(states[a].chain, i) <==> C.SettledBefore(states[b].chain, i + 1)
  {
    Serializable(states, events, a);
    ChainRuns(states, events, a, b);
    C.ReleasedInRun(Chains(states, a, b), Turns(events, a, b), i);
  }

  /** The edit leaves `key` alone, whatever it finds. */
  ghost predicate Spares(mutate: Mutator, key: Key) {
    forall metadata, time :: mutate(metadata, time).Some? ==>
      var changed := mutate(metadata, time).value;
      (key in changed <==> key in metadata) && (key in metadata ==> changed[key] == metadata[key])
  }

  /** A key keeps the value it had after edit `n` as long as later edits spare it. */
  lemma {:induction false} NoLostKey(start: Metadata, mutators: seq<Mutator>, effects: seq<Effect>, n: nat, key: Key)
    requires n <= |effects| <= |mutators| && key != ServerTime
    requires forall j :: n <= j < |effects| ==> Spares(mutators[j], key)
    ensures var then_, now := Replay(start, mutators, effects[..n]), Replay(start, mutators, effects);
      (key in now <==> key in then_) && (key in now ==> now[key] == then_[key])
    decreases |effects|
  {
    if n == |effects| {
      assert effects[..n] == effects;
    } else {
      var last := |effects| - 1;
      assert effects[..last][..n] == effects[..n];
      NoLostKey(start, mutators, effects[..last], n, key);
      assert Spares(mutators[last], key);
    }
  }

  // ---- The edits the service makes ----

  function SetRemoteControl(state: Option<Json>): Mutator {
    (metadata: Metadata, time: int) =>
      match state
      case Some(value) => Some(metadata[RemoteControl := value])
      case None => if RemoteControl in metadata then Some(metadata - {RemoteControl}) else None
  }

  function SetMuteOnEntry(muted: bool): Mutator {
    (metadata: Metadata, time: int) =>
      if MuteOnEntry in metadata && metadata[MuteOnEntry] == Bool(muted) then None
      else Some(metadata[MuteOnEntry := Bool(muted)])
  }

  function SetRecordingActive(active: bool): Mutator {
    (metadata: Metadata, time: int) =>
      if (Recording in metadata && metadata[Recording] == Bool(true)) == active then None
      else if active then Some(metadata[Recording := Bool(true)][RecordingStartedAt := Num(time)])
      else Some(metadata[Recording := Bool(false)] - {RecordingStartedAt, RecordingId, RecordingShareAvailable})
  }

  function SetRecordingState(id: string, shareAvailable: bool): Mutator {
    (metadata: Metadata, time: int) =>
      Some(metadata[Recording := Bool(true)][RecordingStartedAt := Num(time)][RecordingId := Str(id)]
                   [RecordingShareAvailable := Bool(shareAvailable)])
  }

  predicate Truthy(metadata: Metadata, key: Key) {
    key in metadata && metadata[key] !in {Null, Bool(false), Num(0), Str("")}
  }

  function StampStartedAt(): Mutator {
    (metadata: Metadata, time: int) => if Truthy(metadata, StartedAt) then None else Some(metadata[StartedAt := Num(time)])
  }

  function ClearStartedAt(): Mutator {
    (metadata: Metadata, time: int) => if Truthy(metadata, StartedAt) then Some(metadata - {StartedAt}) else None
  }

  /** The maintenance notice; `off` says that it is the notice of phase off, `isOff` which notices are. */
  function PublishMaintenance(notice: Json, off: bool, isOff: Json -> bool): Mutator {
    (metadata: Metadata, time: int) =>
      if off && (!Truthy(metadata, Maintenance) || isOff(metadata[Maintenance])) then None
      else Some(metadata[Maintenance := notice])
  }

  const RECORDING_KEYS := {Recording, RecordingStartedAt, RecordingId, RecordingShareAvailable}

  lemma ConsentEditSpares(state: Option<Json>, key: Key)
    ensures key != RemoteControl ==> Spares(SetRemoteControl(state), key)
  {
  }

  lemma MuteEditSpares(muted: bool, key: Key)
    ensures key != MuteOnEntry ==> Spares(SetMuteOnEntry(muted), key)
  {
  }

  lemma RecordingEditsSpare(active: bool, id: string, share: bool, key: Key)
    ensures key !in RECORDING_KEYS ==> Spares(SetRecordingActive(active), key) && Spares(SetRecordingState(id, share), key)
  {
  }

  lemma StartEditsSpare(key: Key)
    ensures key != StartedAt ==> Spares(StampStartedAt(), key) && Spares(ClearStartedAt(), key)
  {
  }

  lemma NoticeSpares(notice: Json, off: bool, isOff: Json -> bool, key: Key)
    ensures key != Maintenance ==> Spares(PublishMaintenance(notice, off, isOff), key)
  {
  }

  /** Each edit the service makes touches its own keys only. */
  lemma EditsAreIndependent(state: Option<Json>, muted: bool, active: bool, id: string, share: bool, notice: Json, off: bool,
                            isOff: Json -> bool, key: Key)
    ensures key != RemoteControl ==> Spares(SetRemoteControl(state), key)
    ensures key != MuteOnEntry ==> Spares(SetMuteOnEntry(muted), key)
    ensures key !in RECORDING_KEYS ==> Spares(SetRecordingActive(active), key) && Spares(SetRecordingState(id, share), key)
    ensures key != StartedAt ==> Spares(StampStartedAt(), key) && Spares(ClearStartedAt(), key)
    ensures key != Maintenance ==> Spares(PublishMaintenance(notice, off, isOff), key)
  {
    ConsentEditSpares(state, key);
    MuteEditSpares(muted, key);
    RecordingEditsSpare(active, id, share, key);
    StartEditsSpare(key);
    NoticeSpares(notice, off, isOff, key);
  }

  /** What each edit leaves in its own keys, and when it finds nothing to change. */
  lemma EditsLeave(metadata: Metadata, time: int, value: Json, muted: bool, id: string, share: bool)
    ensures var shown := SetRemoteControl(Some(value))(metadata, time); shown.Some? && RemoteControl in shown.value && shown.value[RemoteControl] == value
    ensures var hidden := SetRemoteControl(None)(metadata, time);
      (hidden.None? <==> RemoteControl !in metadata) && (hidden.Some? ==> RemoteControl !in hidden.value)
    ensures var mute := SetMuteOnEntry(muted)(metadata, time);
      && (mute.None? <==> MuteOnEntry in metadata && metadata[MuteOnEntry] == Bool(muted))
      && (mute.Some? ==> MuteOnEntry in mute.value && mute.value[MuteOnEntry] == Bool(muted))
    ensures var on := SetRecordingActive(true)(metadata, time);
      && (on.None? <==> Recording in metadata && metadata[Recording] == Bool(true))
      && (on.Some? ==> {Recording, RecordingStartedAt} <= on.value.Keys && on.value[Recording] == Bool(true) && on.value[RecordingStartedAt] == Num(time))
    ensures var off := SetRecordingActive(false)(metadata, time);
      && (off.Some? <==> Recording in metadata && metadata[Recording] == Bool(true))
      && (off.Some? ==> Recording in off.value && off.value[Recording] == Bool(false)
                        && RecordingStartedAt !in off.value && RecordingId !in off.value && RecordingShareAvailable !in off.value)
    ensures var state := SetRecordingState(id, share)(metadata, time);
      && state.Some? && {Recording, RecordingStartedAt, RecordingId, RecordingShareAvailable} <= state.value.Keys
      && state.value[Recording] == Bool(true) && state.value[RecordingStartedAt] == Num(time)
      && state.value[RecordingId] == Str(id) && state.value[RecordingShareAvailable] == Bool(share)
    ensures var stamp, clear := StampStartedAt()(metadata, time), ClearStartedAt()(metadata, time);
      && (stamp.None? <==> Truthy(metadata, StartedAt)) && (stamp.Some? ==> StartedAt in stamp.value && stamp.value[StartedAt] == Num(time))
      && (clear.Some? <==> Truthy(metadata, StartedAt)) && (clear.Some? ==> StartedAt !in clear.value)
  {
  }

  lemma NoticeLeaves(metadata: Metadata, time: int, notice: Json, off: bool, isOff: Json -> bool)
    ensures var shown := PublishMaintenance(notice, off, isOff)(metadata, time);
      && (shown.Some? ==> Maintenance in shown.value && shown.value[Maintenance] == notice)
      && (shown.None? <==> off && (!Truthy(metadata, Maintenance) || isOff(metadata[Maintenance])))
  {
  }

  /** An edit that reaches the server also leaves its time there. */
  lemma EditsAreStamped(mutate: Mutator, metadata: Metadata, time: int)
    ensures Edited(mutate, metadata, time).Some? <==> mutate(metadata, time).Some?
    ensures Edited(mutate, metadata, time).Some? ==>
      && ServerTime in Edited(mutate, metadata, time).value && Edited(mutate, metadata, time).value[ServerTime] == Num(time)
      && forall key :: key != ServerTime ==>
           var edited, changed := Edited(mutate, metadata, time).value, mutate(metadata, time).value;
           (key in edited <==> key in changed) && (key in changed ==> edited[key] == changed[key])
  {
  }

  /** The edits of the service other than those of consent itself. */
  ghost predicate OtherEdit(mutate: Mutator) {
    || (exists muted :: mutate == SetMuteOnEntry(muted))
    || (exists active :: mutate == SetRecordingActive(active))
    || (exists id, share :: mutate == SetRecordingState(id, share))
    || mutate == StampStartedAt() || mutate == ClearStartedAt()
    || (exists notice, off, isOff :: mutate == PublishMaintenance(notice, off, isOff))
  }

  lemma OtherEditsSpareConsent(mutate: Mutator)
    requires OtherEdit(mutate)
    ensures Spares(mutate, RemoteControl)
  {
    if muted :| mutate == SetMuteOnEntry(muted) {
      MuteEditSpares(muted, RemoteControl);
    } else if active :| mutate == SetRecordingActive(active) {
      RecordingEditsSpare(active, "", false, RemoteControl);
    } else if id, share :| mutate == SetRecordingState(id, share) {
      RecordingEditsSpare(false, id, share, RemoteControl);
    } else if notice, off, isOff :| mutate == PublishMaintenance(notice, off, isOff) {
      NoticeSpares(notice, off, isOff, RemoteControl);
    } else {
      StartEditsSpare(RemoteControl);
    }
  }

  /** So a remote-control edit that has been applied is still there after any number of later edits of any
      other kind, whatever else failed in between. */
  lemma ConsentSurvives(start: Metadata, mutators: seq<Mutator>, effects: seq<Effect>, n: nat, state: Json)
    requires n < |effects| <= |mutators| && mutators[n] == SetRemoteControl(Some(state)) && effects[n].Applied?
    requires forall j :: n < j < |effects| ==> OtherEdit(mutators[j])
    ensures var now := Replay(start, mutators, effects);
      RemoteControl in now && now[RemoteControl] == state
  {
    forall j | n < j < |effects| ensures Spares(mutators[j], RemoteControl) {
      OtherEditsSpareConsent(mutators[j]);
    }
    NoLostKey(start, mutators, effects, n + 1, RemoteControl);
    assert effects[..n + 1][..n] == effects[..n];
  }
}
