/** The native agent's authority gate: what a command packet must satisfy before it touches the
    desktop, and what follows end to end from the server side's guarantees. */
module GrantGate {
  import opened Options
  import opened RemoteControlState
  import opened RemoteControlService
  import opened RemoteControlInvariants
  import opened RemoteControlRuns

  datatype Rejection =
    | Disconnected | TokenMetadataMismatch | RoomMetadataMissing | RoomMetadataMismatch
    | Inactive | Expired | WrongSession | WrongSender | ReplayedSequence

  datatype Command<+C> = StopIntent | Privileged(command: C)

  datatype Packet<+C> = Packet(sessionId: Id, sequence: nat, command: Command<C>)

  /** The metadata signed into the agent's own token. */
  datatype TokenMetadata = TokenMetadata(
    protocolVersion: int, role: Role, room: Room, sessionId: Id, sharer: Identity, controller: Identity, agent: Identity)

  /** One packet together with everything the agent sees when it arrives. */
  datatype Arrival<+C> = Arrival(
    packet: Packet<C>, sender: Identity, localAgent: Identity, token: Option<TokenMetadata>,
    projection: Option<Projection>, connected: bool, now: int)

  datatype Answer<+C> = Accepted(command: Command<C>) | Refused(rejection: Rejection)

  predicate MatchingToken(b: Snapshot, token: Option<TokenMetadata>, localAgent: Identity) {
    && token.Some?
    && token.value == TokenMetadata(2, ControlAgent, b.room, b.sessionId, b.sharer, b.controller, b.agent)
    && localAgent == b.agent
  }

  predicate SameSession(b: Snapshot, p: Projection) {
    p.sessionId == b.sessionId && p.sharer == b.sharer && p.controller == b.controller && p.agent == b.agent
  }

  predicate ActiveProjection(b: Snapshot, projection: Option<Projection>, now: int) {
    && projection.Some?
    && SameSession(b, projection.value)
    && projection.value.status == AgentActive && projection.value.agentConnected
    && now < projection.value.renewalDueAt && b.renewalDueAt <= projection.value.renewalDueAt
  }

  predicate CanPublishDesktop(b: Snapshot, token: Option<TokenMetadata>, localAgent: Identity,
                              projection: Option<Projection>, now: int) {
    MatchingToken(b, token, localAgent) && ActiveProjection(b, projection, now)
  }

  /** The checks before the sequence gate: what the packet would yield if its number is new. */
  function Screen<C>(b: Snapshot, a: Arrival<C>): Answer<C> {
    if !a.connected then Refused(Disconnected)
    else if !MatchingToken(b, a.token, a.localAgent) then Refused(TokenMetadataMismatch)
    else if a.projection.None? then Refused(RoomMetadataMissing)
    else if !SameSession(b, a.projection.value) then Refused(RoomMetadataMismatch)
    else if a.projection.value.status != AgentActive || !a.projection.value.agentConnected then Refused(Inactive)
    else if a.projection.value.renewalDueAt <= a.now || a.projection.value.renewalDueAt < b.renewalDueAt then Refused(Expired)
    else if a.packet.sessionId != b.sessionId then Refused(WrongSession)
    else if a.packet.command.StopIntent? then
      if a.sender == b.controller || a.sender == b.sharer then Accepted(StopIntent) else Refused(WrongSender)
    else if a.sender != b.controller then Refused(WrongSender)
    else Accepted(a.packet.command)
  }

  predicate Fresh(last: Option<nat>, sequence: nat) {
    last.None? || last.value < sequence
  }

  /** One call of `authorize`: the new last sequence number and the answer. */
  function Decide<C>(b: Snapshot, last: Option<nat>, a: Arrival<C>): (Option<nat>, Answer<C>) {
    var screened := Screen(b, a);
    if screened.Refused? || screened.command.StopIntent? then (last, screened)
    else if Fresh(last, a.packet.sequence) then (Some(a.packet.sequence), screened)
    else (last, Refused(ReplayedSequence))
  }

  class SequenceGate {
    var lastSequence: Option<nat>

    constructor ()
      ensures lastSequence == None
    {
      lastSequence := None;
    }

    method Accept(sequence: nat) returns (accepted: bool)
      modifies this
      ensures accepted == Fresh(old(lastSequence), sequence)
      ensures lastSequence == if accepted then Some(sequence) else old(lastSequence)
    {
      if lastSequence.Some? && sequence <= lastSequence.value {
        return false;
      }
      lastSequence := Some(sequence);
      return true;
    }

    method Reset()
      modifies this
      ensures lastSequence == None
    {
      lastSequence := None;
    }
  }

  class Gate<C> {
    const bootstrap: Snapshot
    const sequence: SequenceGate

    constructor (bootstrap: Snapshot)
      ensures this.bootstrap == bootstrap && fresh(sequence) && sequence.lastSequence == None
    {
      this.bootstrap := bootstrap;
      sequence := new SequenceGate();
    }

    method ResetSequence()
      modifies sequence
      ensures sequence.lastSequence == None
    {
      sequence.Reset();
    }

    method Authorize(a: Arrival<C>) returns (answer: Answer<C>)
      modifies sequence
      ensures (sequence.lastSequence, answer) == Decide(bootstrap, old(sequence.lastSequence), a)
      ensures a.packet.command.Privileged? ==>
        (answer == Accepted(a.packet.command) <==>
           AllInOrder(bootstrap, a) && a.sender == bootstrap.controller
           && (old(sequence.lastSequence).Some? ==> old(sequence.lastSequence).value < a.packet.sequence))
      ensures a.packet.command.StopIntent? ==>
        (answer == Accepted(StopIntent) <==> AllInOrder(bootstrap, a) && (a.sender == bootstrap.controller || a.sender == bootstrap.sharer))
    {
      AcceptedIff(bootstrap, sequence.lastSequence, a);
      if !a.connected {
        return Refused(Disconnected);
      }
      if !MatchingToken(bootstrap, a.token, a.localAgent) {
        return Refused(TokenMetadataMismatch);
      }
      if a.projection.None? {
        return Refused(RoomMetadataMissing);
      }
      var projection := a.projection.value;
      if !SameSession(bootstrap, projection) {
        return Refused(RoomMetadataMismatch);
      }
      if projection.status != AgentActive || !projection.agentConnected {
        return Refused(Inactive);
      }
      if projection.renewalDueAt <= a.now || projection.renewalDueAt < bootstrap.renewalDueAt {
        return Refused(Expired);
      }
      if a.packet.sessionId != bootstrap.sessionId {
        return Refused(WrongSession);
      }
      if a.packet.command.StopIntent? {
        if a.sender != bootstrap.controller && a.sender != bootstrap.sharer {
          return Refused(WrongSender);
        }
        return Accepted(StopIntent);
      }
      if a.sender != bootstrap.controller {
        return Refused(WrongSender);
      }
      var accepted := sequence.Accept(a.packet.sequence);
      if !accepted {
        return Refused(ReplayedSequence);
      }
      return Accepted(a.packet.command);
    }
  }

  // ---- Exactly what passes ----

  /** Everything the gate asks of an arrival before it looks at the sender and the number, field by field. */
  ghost predicate AllInOrder<C>(b: Snapshot, a: Arrival<C>) {
    && a.connected && a.localAgent == b.agent
    && a.token.Some?
    && a.token.value.protocolVersion == 2 && a.token.value.role == ControlAgent && a.token.value.room == b.room
    && a.token.value.sessionId == b.sessionId && a.token.value.sharer == b.sharer && a.token.value.controller == b.controller
    && a.token.value.agent == b.agent
    && a.projection.Some?
    && a.projection.value.sessionId == b.sessionId && a.projection.value.sharer == b.sharer
    && a.projection.value.controller == b.controller && a.projection.value.agent == b.agent
    && a.projection.value.status == AgentActive && a.projection.value.agentConnected
    && a.now < a.projection.value.renewalDueAt && b.renewalDueAt <= a.projection.value.renewalDueAt
    && a.packet.sessionId == b.sessionId
  }

  /** A privileged packet is carried out exactly when everything is in order, it comes from the Controller
      and its number is above the last one carried out; a stop intent is accepted exactly when everything
      is in order and it comes from either party, whatever its number. Only the former moves the number. */
  lemma AcceptedIff<C>(b: Snapshot, last: Option<nat>, a: Arrival<C>)
    ensures var (next, answer) := Decide(b, last, a);
      && (a.packet.command.Privileged? ==>
            && (answer.Accepted? <==>
                  AllInOrder(b, a) && a.sender == b.controller && (last.Some? ==> last.value < a.packet.sequence))
            && (answer.Accepted? ==> answer.command == a.packet.command && next == Some(a.packet.sequence)))
      && (a.packet.command.StopIntent? ==>
            && (answer.Accepted? <==> AllInOrder(b, a) && (a.sender == b.controller || a.sender == b.sharer))
            && (answer.Accepted? ==> answer.command == StopIntent) && next == last)
      && (answer.Refused? ==> next == last)
  {
  }

  /** The reason given for a refusal is true. */
  lemma RefusalsAreTrue<C>(b: Snapshot, last: Option<nat>, a: Arrival<C>)
    requires Decide(b, last, a).1.Refused?
    ensures match Decide(b, last, a).1.rejection
      case Disconnected => !a.connected
      case TokenMetadataMismatch =>
        a.localAgent != b.agent || a.token != Some(TokenMetadata(2, ControlAgent, b.room, b.sessionId, b.sharer, b.controller, b.agent))
      case RoomMetadataMissing => a.projection.None?
      case RoomMetadataMismatch =>
        && a.projection.Some?
        && (|| a.projection.value.sessionId != b.sessionId || a.projection.value.sharer != b.sharer
            || a.projection.value.controller != b.controller || a.projection.value.agent != b.agent)
      case Inactive => a.projection.Some? && (a.projection.value.status == AwaitingAgent || !a.projection.value.agentConnected)
      case Expired => a.projection.Some? && (a.projection.value.renewalDueAt <= a.now || a.projection.value.renewalDueAt < b.renewalDueAt)
      case WrongSession => a.packet.sessionId != b.sessionId
      case WrongSender => a.sender != b.controller && (a.packet.command.StopIntent? ==> a.sender != b.sharer)
      case ReplayedSequence => last.Some? && a.packet.sequence <= last.value
  {
  }

  /** The desktop may be published exactly under the same signed metadata and projection. */
  lemma CanPublishIff<C>(b: Snapshot, a: Arrival<C>)
    requires a.connected && a.packet.sessionId == b.sessionId
    ensures CanPublishDesktop(b, a.token, a.localAgent, a.projection, a.now) <==> AllInOrder(b, a)
  {
  }

  // ---- Packet histories ----

  function LastAfter<C>(b: Snapshot, last: Option<nat>, arrivals: seq<Arrival<C>>): Option<nat>
    decreases arrivals
  {
    if arrivals == [] then last else LastAfter(b, Decide(b, last, arrivals[0]).0, arrivals[1..])
  }

  /** The arrivals whose privileged command was carried out, in order. */
  function Executed<C>(b: Snapshot, last: Option<nat>, arrivals: seq<Arrival<C>>): seq<Arrival<C>>
    decreases arrivals
  {
    if arrivals == [] then []
    else
      var (next, answer) := Decide(b, last, arrivals[0]);
      (if Executes(answer) then [arrivals[0]] else []) + Executed(b, next, arrivals[1..])
  }

  /** What an executed arrival has passed. */
  ghost predicate Entitled<C>(b: Snapshot, last: Option<nat>, a: Arrival<C>) {
    && a.sender == b.controller && a.packet.command.Privileged? && a.packet.sessionId == b.sessionId
    && Fresh(last, a.packet.sequence)
    && CanPublishDesktop(b, a.token, a.localAgent, a.projection, a.now)
  }

  ghost predicate InOrder<C>(out: seq<Arrival<C>>) {
    forall i, j :: 0 <= i < j < |out| ==> out[i].packet.sequence < out[j].packet.sequence
  }

  predicate Executes<C>(answer: Answer<C>) {
    answer.Accepted? && answer.command.Privileged?
  }

  lemma DecideEntitles<C>(b: Snapshot, last: Option<nat>, a: Arrival<C>)
    ensures var (next, answer) := Decide(b, last, a);
      if Executes(answer) then Entitled(b, last, a) && next == Some(a.packet.sequence) else next == last
  {
  }

  lemma EntitledEarlier<C>(b: Snapshot, last: Option<nat>, a: Arrival<C>, later: Arrival<C>)
    requires Entitled(b, Decide(b, last, a).0, later)
    ensures Entitled(b, last, later)
    ensures Executes(Decide(b, last, a).1) ==> a.packet.sequence < later.packet.sequence
  {
  }

  /** Executed commands come from the Controller alone and their numbers strictly increase. */
  lemma {:induction false} ExecutedIncreases<C>(b: Snapshot, last: Option<nat>, arrivals: seq<Arrival<C>>)
    ensures forall i :: 0 <= i < |Executed(b, last, arrivals)| ==> Entitled(b, last, Executed(b, last, arrivals)[i])
    ensures InOrder(Executed(b, last, arrivals))
    decreases arrivals
  {
    if arrivals != [] {
      var (next, answer) := Decide(b, last, arrivals[0]);
      var rest := Executed(b, next, arrivals[1..]);
      ExecutedIncreases(b, next, arrivals[1..]);
      DecideEntitles(b, last, arrivals[0]);
      forall i | 0 <= i < |rest|
        ensures Entitled(b, last, rest[i]) && (Executes(answer) ==> arrivals[0].packet.sequence < rest[i].packet.sequence)
      {
        EntitledEarlier(b, last, arrivals[0], rest[i]);
      }
      assert Executed(b, last, arrivals) == (if Executes(answer) then [arrivals[0]] else []) + rest;
    }
  }

  /** Drop, anywhere in the history, arrivals the gate refuses and stop intents: what is executed
      does not change. `keep` says which of the droppable arrivals stay. */
  function Thin<C>(b: Snapshot, last: Option<nat>, arrivals: seq<Arrival<C>>, keep: seq<bool>): seq<Arrival<C>>
    requires |keep| == |arrivals|
    decreases arrivals
  {
    if arrivals == [] then []
    else
      var (next, answer) := Decide(b, last, arrivals[0]);
      (if Executes(answer) || keep[0] then [arrivals[0]] else []) + Thin(b, next, arrivals[1..], keep[1..])
  }

  lemma {:induction false} RefusalsLeaveNoTrace<C>(b: Snapshot, last: Option<nat>, arrivals: seq<Arrival<C>>, keep: seq<bool>)
    requires |keep| == |arrivals|
    ensures Executed(b, last, Thin(b, last, arrivals, keep)) == Executed(b, last, arrivals)
    ensures LastAfter(b, last, Thin(b, last, arrivals, keep)) == LastAfter(b, last, arrivals)
    decreases arrivals
  {
    if arrivals != [] {
      var (next, answer) := Decide(b, last, arrivals[0]);
      var rest := Thin(b, next, arrivals[1..], keep[1..]);
      RefusalsLeaveNoTrace(b, next, arrivals[1..], keep[1..]);
      if Executes(answer) || keep[0] {
        assert ([arrivals[0]] + rest)[1..] == rest;
      } else {
        assert [] + rest == rest;
      }
    }
  }

  // ---- End to end ----

  /** Whatever stale projection the agent still sees, a command it accepts lies within both tokens. */
  lemma AcceptedWithinTokens<C>(states: seq<World>, ops: seq<Op>, i: nat, b: Snapshot, last: Option<nat>, a: Arrival<C>)
    requires IsRun(states, ops) && i < |states|
    requires a.projection.Some? ==> a.projection.value in states[i].history.published
    requires Decide(b, last, a).1.Accepted?
    ensures var tokens := states[i].history.tokens;
      && b.sessionId in tokens && tokens[b.sessionId].sharer.Some?
      && a.now < tokens[b.sessionId].controller && a.now < tokens[b.sessionId].sharer.value
  {
    RunInv(states, ops, i);
    assert PublishedOk(states[i].audit, states[i].history.tokens, a.projection.value);
  }

  /** Every publication made for the session after the code was redeemed, even of a projection seen
      before, passes the deadline comparison: only its status and its own deadline can make the agent
      refuse it. */
  lemma GenuineProjectionsPass(states: seq<World>, ops: seq<Op>, i: nat, j: nat, b: Snapshot, k: nat, now: int)
    requires IsRun(states, ops) && i <= j < |states| && b in states[i].history.redeemed
    requires |states[i].history.published| <= k < |states[j].history.published|
    requires states[j].history.published[k].sessionId == b.sessionId
    ensures var p := states[j].history.published[k];
      && SameSession(b, p) && b.renewalDueAt <= p.renewalDueAt
      && (ActiveProjection(b, Some(p), now) <==> p.status == AgentActive && p.agentConnected && now < p.renewalDueAt)
  {
    RunLater(states, ops, i, j);
    assert ProjectsFrom(b, states[j].history.published[k]);
  }

  /** So after a redemption the session is never dead at the gate: with any publication made for it since
      that is active, connected and unexpired, a Controller's packet with a new number is carried out. */
  lemma FreshPacketsExecute<C>(states: seq<World>, ops: seq<Op>, i: nat, j: nat, b: Snapshot, k: nat, last: Option<nat>, a: Arrival<C>)
    requires IsRun(states, ops) && i <= j < |states| && b in states[i].history.redeemed
    requires |states[i].history.published| <= k < |states[j].history.published|
    requires a.projection == Some(states[j].history.published[k]) && a.projection.value.sessionId == b.sessionId
    requires a.projection.value.status == AgentActive && a.projection.value.agentConnected && a.now < a.projection.value.renewalDueAt
    requires a.connected && a.localAgent == b.agent
    requires a.token == Some(TokenMetadata(2, ControlAgent, b.room, b.sessionId, b.sharer, b.controller, b.agent))
    requires a.packet.sessionId == b.sessionId && a.packet.command.Privileged? && a.sender == b.controller
    requires last.None? || last.value < a.packet.sequence
    ensures Decide(b, last, a) == (Some(a.packet.sequence), Accepted(a.packet.command))
  {
    GenuineProjectionsPass(states, ops, i, j, b, k, a.now);
    AcceptedIff(b, last, a);
  }
}
