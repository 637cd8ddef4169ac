/** Host decisions on one room's waiting list. `admit` takes the promise chain around reading the
    knock, minting a token and writing the knock back; denials, cancellations and expiry do not take
    it and may land between any two of those steps, and so may the two halves of a profile update, which
    writes back whole knocks that it has read as pending. */
module Admissions {
  import opened Options
  import C = PromiseChain

  type KnockId(==, !new)

  datatype Status = Pending | Admitted | Denied

  /** How far an admission has got. */
  datatype Stage = Outside | Reading | Loaded | Minted

  datatype State = State(
    chain: C.Chain, requests: seq<KnockId>, stages: seq<Stage>,
    knocks: map<KnockId, Status>, used: set<KnockId>,
    tokens: multiset<KnockId>, failedWrites: multiset<KnockId>, syncs: multiset<KnockId>, reopened: multiset<KnockId>)

  datatype Event =
    | Arrive(id: KnockId)             // a guest knocks
    | Vanish(id: KnockId)             // cancelled, cleared or expired
    | Deny(id: KnockId)               // the write of a denial
    | SyncRead(id: KnockId)           // a profile update lists the pending knock
    | SyncWrite(id: KnockId)          // and writes it back, as it was, with the new name
    | Submit(id: KnockId)             // the synchronous prefix of admit
    | Enter(i: nat)
    | Read(i: nat)
    | Mint(i: nat, ok: bool)
    | Write(i: nat, ok: bool)
    | Cleanup(i: nat)

  predicate IsPending(s: State, id: KnockId) {
    id in s.knocks && s.knocks[id].Pending?
  }

  predicate Inside(s: State, i: nat, stage: Stage) {
    i < |s.stages| == |s.requests| && s.stages[i] == stage && C.Enabled(s.chain, C.Settle(i))
  }

  predicate Enabled(s: State, e: Event) {
    match e
    case Arrive(id) => id !in s.used
    case Vanish(_) => true
    case Deny(id) => id in s.used
    case SyncRead(id) => IsPending(s, id)
    case SyncWrite(id) => id in s.syncs
    case Submit(_) => true
    case Enter(i) => C.Enabled(s.chain, C.Enter(i)) && i < |s.stages|
    case Read(i) => Inside(s, i, Reading)
    case Mint(i, _) => Inside(s, i, Loaded)
    case Write(i, _) => Inside(s, i, Minted)
    case Cleanup(i) => C.Enabled(s.chain, C.Cleanup(i))
  }

  /** `release()` in the finally block: the call is over, whether it returned or threw. */
  function Finish(s: State, i: nat): State
    requires C.Enabled(s.chain, C.Settle(i)) && i < |s.stages|
  {
    s.(chain := C.Next(s.chain, C.Settle(i)), stages := s.stages[i := Outside])
  }

  function Next(s: State, e: Event): State
    requires Enabled(s, e)
  {
    match e
    case Arrive(id) => s.(knocks := s.knocks[id := Pending], used := s.used + {id})
    case Vanish(id) => s.(knocks := s.knocks - {id})
    case Deny(id) => s.(knocks := s.knocks[id := Denied])
    case SyncRead(id) => s.(syncs := s.syncs + multiset{id})
    case SyncWrite(id) =>
      s.(knocks := s.knocks[id := Pending], syncs := s.syncs - multiset{id},
         reopened := if IsPending(s, id) then s.reopened else s.reopened + multiset{id})
    case Submit(id) =>
      s.(chain := C.Next(s.chain, C.Submit), requests := s.requests + [id], stages := s.stages + [Outside])
    case Enter(i) => s.(chain := C.Next(s.chain, C.Enter(i)), stages := s.stages[i := Reading])
    case Read(i) =>
      if s.requests[i] in s.knocks && s.knocks[s.requests[i]].Pending?
      then s.(stages := s.stages[i := Loaded]) else Finish(s, i)
    case Mint(i, ok) =>
      if ok then s.(stages := s.stages[i := Minted], tokens := s.tokens + multiset{s.requests[i]}) else Finish(s, i)
    case Write(i, ok) =>
      if ok then Finish(s, i).(knocks := s.knocks[s.requests[i] := Admitted])
      else Finish(s, i).(failedWrites := s.failedWrites + multiset{s.requests[i]})
    case Cleanup(i) => s.(chain := C.Next(s.chain, C.Cleanup(i)))
  }

  ghost predicate InStage(s: State, id: KnockId, stage: Stage) {
    exists i :: 0 <= i < |s.stages| && s.stages[i] == stage && i < |s.requests| && s.requests[i] == id
  }

  /** A token can still be minted for the knock with no further write failing or reopening it. */
  ghost predicate Open(s: State, id: KnockId) {
    || InStage(s, id, Loaded)
    || (IsPending(s, id) && !InStage(s, id, Minted))
  }

  ghost predicate Counts(s: State) {
    forall id :: Bounded(s, id)
  }

  ghost predicate Shape(s: State) {
    && C.Inv(s.chain)
    && |s.requests| == |s.stages| == |s.chain.calls|
    && (forall i :: 0 <= i < |s.stages| ==> (s.stages[i] != Outside <==> s.chain.calls[i].phase.Running?))
    && (forall id :: id in s.knocks ==> id in s.used)
    && (forall id :: id in s.tokens || id in s.syncs ==> id in s.used)
    && (forall i :: 0 <= i < |s.stages| && (s.stages[i].Loaded? || s.stages[i].Minted?) ==> s.requests[i] in s.used)
  }

  ghost predicate Inv(s: State) {
    Shape(s) && Counts(s)
  }

  lemma ShapeKept(s: State, e: Event)
    requires Shape(s) && Enabled(s, e)
    ensures Shape(Next(s, e))
  {
    match e
    case Submit(_) => C.NextKeeps(s.chain, C.Submit);
    case Enter(i) => ShapeEnter(s, i);
    case Read(i) => ShapeRead(s, i);
    case Mint(i, ok) => ShapeMint(s, i, ok);
    case Write(i, ok) => ShapeWrite(s, i, ok);
    case Cleanup(i) => C.NextKeeps(s.chain, C.Cleanup(i));
    case _ =>
  }

  lemma ShapeEnter(s: State, i: nat)
    requires Shape(s) && Enabled(s, Enter(i))
    ensures Shape(Next(s, Enter(i)))
  {
    C.NextKeeps(s.chain, C.Enter(i));
  }

  lemma ShapeFinish(s: State, i: nat)
    requires Shape(s) && C.Enabled(s.chain, C.Settle(i))
    ensures Shape(Finish(s, i))
  {
    C.NextKeeps(s.chain, C.Settle(i));
  }

  lemma ShapeRead(s: State, i: nat)
    requires Shape(s) && Enabled(s, Read(i))
    ensures Shape(Next(s, Read(i)))
  {
    ShapeFinish(s, i);
  }

  lemma ShapeMint(s: State, i: nat, ok: bool)
    requires Shape(s) && Enabled(s, Mint(i, ok))
    ensures Shape(Next(s, Mint(i, ok)))
  {
    ShapeFinish(s, i);
  }

  lemma ShapeWrite(s: State, i: nat, ok: bool)
    requires Shape(s) && Enabled(s, Write(i, ok))
    ensures Shape(Next(s, Write(i, ok)))
  {
    ShapeFinish(s, i);
  }

  /** At most one admission is inside. */
  lemma OneInside(s: State, i: nat, j: nat)
    requires Shape(s) && i < |s.stages| && j < |s.stages| && s.stages[i] != Outside && s.stages[j] != Outside
    ensures i == j
  {
    C.Exclusive(s.chain, i, j);
  }

  ghost predicate Bounded(s: State, id: KnockId) {
    s.tokens[id] <= s.failedWrites[id] + s.reopened[id] + if Open(s, id) then 0 else 1
  }

  /** With one admission inside, its stage is the stage of its knock and of no other. */
  lemma StageOf(s: State, i: nat, id: KnockId)
    requires i < |s.stages| == |s.requests| && forall j :: 0 <= j < |s.stages| && s.stages[j] != Outside ==> j == i
    ensures forall stage :: stage != Outside ==> (InStage(s, id, stage) <==> s.requests[i] == id && s.stages[i] == stage)
  {
  }

  /** The three steps of an admission that is inside. */
  lemma StepOf(s: State, e: Event, i: nat, id: KnockId)
    requires Shape(s) && Enabled(s, e) && (e.Read? || e.Mint? || e.Write?) && e.i == i && Bounded(s, id)
    ensures Bounded(Next(s, e), id)
  {
    var b := Next(s, e);
    forall j | 0 <= j < |s.stages| && s.stages[j] != Outside ensures j == i {
      OneInside(s, i, j);
    }
    StageOf(s, i, id);
    StageOf(b, i, id);
    if s.requests[i] == id {
      StepOfOwn(s, e, i, id);
    }
  }

  lemma StepOfOwn(s: State, e: Event, i: nat, id: KnockId)
    requires Enabled(s, e) && (e.Read? || e.Mint? || e.Write?) && e.i == i && Bounded(s, id) && s.requests[i] == id
    requires forall stage :: stage != Outside ==> (InStage(s, id, stage) <==> s.stages[i] == stage)
    requires forall stage :: stage != Outside ==> (InStage(Next(s, e), id, stage) <==> Next(s, e).stages[i] == stage)
    ensures Bounded(Next(s, e), id)
  {
  }

  lemma StagesKept(s: State, e: Event, id: KnockId, stage: Stage)
    requires Shape(s) && Enabled(s, e) && !e.Read? && !e.Mint? && !e.Write? && (stage == Loaded || stage == Minted)
    ensures InStage(Next(s, e), id, stage) <==> InStage(s, id, stage)
  {
    var b := Next(s, e);
    if InStage(s, id, stage) {
      var i :| 0 <= i < |s.stages| && s.stages[i] == stage && i < |s.requests| && s.requests[i] == id;
      assert b.stages[i] == stage && b.requests[i] == id;
    }
  }

  /** Everybody else's steps. */
  lemma OtherStep(s: State, e: Event, id: KnockId)
    requires Shape(s) && Enabled(s, e) && !e.Read? && !e.Mint? && !e.Write? && Bounded(s, id)
    ensures Bounded(Next(s, e), id)
  {
    StagesKept(s, e, id, Loaded);
    StagesKept(s, e, id, Minted);
    assert e.Arrive? ==> e.id !in s.tokens;
  }

  lemma NextKeeps(s: State, e: Event)
    requires Inv(s) && Enabled(s, e)
    ensures Inv(Next(s, e))
  {
    ShapeKept(s, e);
    forall id ensures Bounded(Next(s, e), id) {
      assert Bounded(s, id);
      if e.Read? || e.Mint? || e.Write? {
        StepOf(s, e, e.i, id);
      } else {
        OtherStep(s, e, id);
      }
    }
  }

  ghost predicate Initial(s: State) {
    s == State(C.Chain([], None), [], [], map[], {}, multiset{}, multiset{}, multiset{}, multiset{})
  }

  ghost predicate IsRun(states: seq<State>, events: seq<Event>) {
    IsRunFrom(states, events) && Initial(states[0])
  }

  ghost predicate IsRunFrom(states: seq<State>, events: seq<Event>) {
    && |states| == |events| + 1
    && (forall i :: 0 <= i < |events| ==> Enabled(states[i], events[i]) && states[i + 1] == Next(states[i], events[i]))
  }

  lemma {:induction false} RunInv(states: seq<State>, events: seq<Event>, i: nat)
    requires IsRun(states, events) && i < |states|
    ensures Inv(states[i])
  {
    if i > 0 {
      RunInv(states, events, i - 1);
      NextKeeps(states[i - 1], events[i - 1]);
    }
  }

  /** However many hosts click, and whatever denials and cancellations interleave, a knock is given
      one token, plus at most one more for each time writing the admitted knock failed, or a profile update
      wrote a decided knock back as pending. */
  lemma OneTokenPerKnock(states: seq<State>, events: seq<Event>, i: nat, id: KnockId)
    requires IsRun(states, events) && i < |states|
    ensures states[i].tokens[id] <= 1 + states[i].failedWrites[id] + states[i].reopened[id]
    ensures forall a, b :: 0 <= a < b < |states[i].stages| ==> states[i].stages[a] == Outside || states[i].stages[b] == Outside
  {
    RunInv(states, events, i);
    assert Bounded(states[i], id);
    forall a, b | 0 <= a < b < |states[i].stages| && states[i].stages[a] != Outside
      ensures states[i].stages[b] == Outside
    {
      if states[i].stages[b] != Outside {
        OneInside(states[i], a, b);
      }
    }
  }

  /** What a knock's status becomes, and by whose hand: pending when the guest arrives or a profile update
      writes it back, admitted when its own admission is written, denied by a denial, gone by withdrawal or
      expiry; and its tokens grow by one exactly when its own admission mints one. */
  lemma StatusChanges(s: State, e: Event, id: KnockId)
    requires Shape(s) && Enabled(s, e)
    ensures var b := Next(s, e);
      var before, after := if id in s.knocks then Some(s.knocks[id]) else None, if id in b.knocks then Some(b.knocks[id]) else None;
      && (match e
          case Arrive(i) => after == if i == id then Some(Pending) else before
          case SyncWrite(i) => after == if i == id then Some(Pending) else before
          case Deny(i) => after == if i == id then Some(Denied) else before
          case Vanish(i) => after == if i == id then None else before
          case Write(i, ok) => after == if ok && s.requests[i] == id then Some(Admitted) else before
          case _ => after == before)
      && b.tokens[id] == s.tokens[id] + (if e.Mint? && e.ok && s.requests[e.i] == id then 1 else 0)
  {
  }

  // ---- Exactly when a decided knock can get another token ----

  /** The knock is decided, or gone, and no admission is at work on it. */
  ghost predicate AtRest(s: State, id: KnockId) {
    id in s.used && !IsPending(s, id) && !InStage(s, id, Loaded) && !InStage(s, id, Minted)
  }

  lemma RestKept(s: State, e: Event, id: KnockId)
    requires Shape(s) && Enabled(s, e) && AtRest(s, id) && id !in s.syncs
    ensures AtRest(Next(s, e), id) && id !in Next(s, e).syncs && Next(s, e).tokens[id] == s.tokens[id]
  {
    if e.Read? || e.Mint? || e.Write? {
      RestKeptInside(s, e, id);
    } else {
      StagesKept(s, e, id, Loaded);
      StagesKept(s, e, id, Minted);
    }
  }

  lemma RestKeptInside(s: State, e: Event, id: KnockId)
    requires Shape(s) && Enabled(s, e) && AtRest(s, id) && id !in s.syncs && (e.Read? || e.Mint? || e.Write?)
    ensures AtRest(Next(s, e), id) && id !in Next(s, e).syncs && Next(s, e).tokens[id] == s.tokens[id]
  {
    var i, b := e.i, Next(s, e);
    forall j | 0 <= j < |s.stages| && s.stages[j] != Outside ensures j == i {
      OneInside(s, i, j);
    }
    StageOf(s, i, id);
    StageOf(b, i, id);
    assert (e.Mint? || e.Write?) ==> s.requests[i] != id;
  }

  lemma {:induction false} RestLasts(states: seq<State>, events: seq<Event>, n: nat, id: KnockId)
    requires IsRunFrom(states, events) && n < |states|
    requires Shape(states[0]) && AtRest(states[0], id) && id !in states[0].syncs
    ensures Shape(states[n]) && AtRest(states[n], id) && id !in states[n].syncs && states[n].tokens[id] == states[0].tokens[id]
  {
    if n > 0 {
      RestLasts(states, events, n - 1, id);
      ShapeKept(states[n - 1], events[n - 1]);
      RestKept(states[n - 1], events[n - 1], id);
    }
  }

  /** A run from `start` that ends in `t`. */
  ghost predicate Leads(start: State, states: seq<State>, events: seq<Event>, t: State) {
    IsRunFrom(states, events) && states[0] == start && states[|events|] == t && Shape(t)
  }

  lemma Continue(start: State, states: seq<State>, events: seq<Event>, s: State, e: Event)
    returns (more: seq<State>, done: seq<Event>, t: State)
    requires Leads(start, states, events, s) && Enabled(s, e)
    ensures t == Next(s, e) && Leads(start, more, done, t)
  {
    t := Next(s, e);
    more, done := states + [t], events + [e];
    ShapeKept(s, e);
  }

  /** The knock is still pending and has the same tokens, and the chain is as long as it was. */
  ghost predicate Unmoved(s: State, t: State, id: KnockId) {
    IsPending(t, id) && t.tokens == s.tokens && |t.chain.calls| == |s.chain.calls|
  }

  /** Whatever stage call `k` is at, it can come to its end without a token and without a decision. */
  lemma Drain(start: State, states: seq<State>, events: seq<Event>, s: State, k: nat, id: KnockId)
    returns (more: seq<State>, done: seq<Event>, t: State)
    requires Leads(start, states, events, s) && IsPending(s, id) && k < |s.chain.calls| && C.SettledBefore(s.chain, k)
    ensures Leads(start, more, done, t) && Unmoved(s, t, id) && C.SettledBefore(t.chain, k + 1)
  {
    if s.chain.calls[k].phase.Settled? {
      more, done, t := states, events, s;
    } else if s.chain.calls[k].phase.Waiting? {
      more, done, t := Continue(start, states, events, s, Enter(k));
      more, done, t := DrainReading(start, more, done, t, k, id);
    } else if s.stages[k] == Reading {
      more, done, t := DrainReading(start, states, events, s, k, id);
    } else if s.stages[k] == Loaded {
      more, done, t := Continue(start, states, events, s, Mint(k, false));
    } else {
      more, done, t := Continue(start, states, events, s, Write(k, false));
    }
  }

  lemma DrainReading(start: State, states: seq<State>, events: seq<Event>, s: State, k: nat, id: KnockId)
    returns (more: seq<State>, done: seq<Event>, t: State)
    requires Leads(start, states, events, s) && IsPending(s, id) && Inside(s, k, Reading) && C.SettledBefore(s.chain, k)
    ensures Leads(start, more, done, t) && Unmoved(s, t, id) && C.SettledBefore(t.chain, k + 1)
  {
    more, done, t := Continue(start, states, events, s, Read(k));
    if t.stages[k] == Loaded {
      more, done, t := Continue(start, more, done, t, Mint(k, false));
    }
  }

  lemma {:induction false} DrainAll(start: State, states: seq<State>, events: seq<Event>, s: State, k: nat, id: KnockId)
    returns (more: seq<State>, done: seq<Event>, t: State)
    requires Leads(start, states, events, s) && IsPending(s, id) && k <= |s.chain.calls| && C.SettledBefore(s.chain, k)
    ensures Leads(start, more, done, t) && Unmoved(s, t, id) && C.SettledBefore(t.chain, |t.chain.calls|)
    decreases |s.chain.calls| - k
  {
    if k == |s.chain.calls| {
      more, done, t := states, events, s;
    } else {
      more, done, t := Drain(start, states, events, s, k, id);
      more, done, t := DrainAll(start, more, done, t, k + 1, id);
    }
  }

  /** A new call of a free chain mints a token for a pending knock. */
  lemma Minting(start: State, states: seq<State>, events: seq<Event>, s: State, id: KnockId)
    returns (more: seq<State>, done: seq<Event>, t: State)
    requires Leads(start, states, events, s) && IsPending(s, id) && C.SettledBefore(s.chain, |s.chain.calls|)
    ensures Leads(start, more, done, t) && t.tokens == s.tokens + multiset{id}
    ensures t.syncs == s.syncs && t.failedWrites == s.failedWrites && t.knocks == s.knocks
    ensures var i := |s.chain.calls|; |t.chain.calls| == i + 1 && C.SettledBefore(t.chain, i) && Inside(t, i, Minted) && t.requests[i] == id
  {
    var i := |s.chain.calls|;
    more, done, t := Continue(start, states, events, s, Submit(id));
    more, done, t := Continue(start, more, done, t, Enter(i));
    more, done, t := Continue(start, more, done, t, Read(i));
    more, done, t := Continue(start, more, done, t, Mint(i, true));
  }

  /** A profile update in progress can always lead to one more token. */
  lemma SyncReadmits(s: State, id: KnockId) returns (states: seq<State>, events: seq<Event>, t: State)
    requires Shape(s) && id in s.syncs
    ensures Leads(s, states, events, t) && t.tokens[id] > s.tokens[id]
  {
    states, events, t := Continue(s, [s], [], s, SyncWrite(id));
    states, events, t := DrainAll(s, states, events, t, 0, id);
    states, events, t := Minting(s, states, events, t, id);
  }

  ghost predicate NoMoreTokens(states: seq<State>, events: seq<Event>, id: KnockId)
    requires IsRunFrom(states, events)
  {
    states[|events|].tokens[id] == states[0].tokens[id]
  }

  /** A knock that is decided, with no admission at work on it, never gets another token, in any run, if and
      only if no profile update has read it as pending and not written it back yet. */
  lemma ReadmittedIff(s: State, id: KnockId)
    requires Inv(s) && AtRest(s, id)
    ensures id !in s.syncs <==>
      forall states, events :: IsRunFrom(states, events) && states[0] == s ==> NoMoreTokens(states, events, id)
  {
    if id !in s.syncs {
      forall states, events | IsRunFrom(states, events) && states[0] == s
        ensures NoMoreTokens(states, events, id)
      {
        RestLasts(states, events, |events|, id);
      }
    } else {
      var states, events, t := SyncReadmits(s, id);
      assert !NoMoreTokens(states, events, id);
    }
  }

  /** A knock that a profile update has listed, and that is admitted before the update writes. */
  lemma ListedAndAdmitted(start: State, id: KnockId) returns (states: seq<State>, events: seq<Event>, t: State)
    requires Initial(start)
    ensures Leads(start, states, events, t) && C.SettledBefore(t.chain, |t.chain.calls|)
    ensures t.tokens == multiset{id} && t.syncs == multiset{id} && t.failedWrites == multiset{}
  {
    states, events, t := Listed(start, id);
    states, events, t := Minting(start, states, events, t, id);
    states, events, t := Continue(start, states, events, t, Write(0, true));
  }

  lemma Listed(start: State, id: KnockId) returns (states: seq<State>, events: seq<Event>, t: State)
    requires Initial(start)
    ensures Leads(start, states, events, t) && IsPending(t, id) && t.chain.calls == []
    ensures t.tokens == multiset{} && t.syncs == multiset{id} && t.failedWrites == multiset{}
  {
    states, events, t := Continue(start, [start], [], start, Arrive(id));
    states, events, t := Continue(start, states, events, t, SyncRead(id));
  }

  /** It happens: after the update has written the knock back, the next click admits it again, without any
      failed write. */
  lemma SyncCanReadmit(start: State, id: KnockId) returns (states: seq<State>, events: seq<Event>)
    requires Initial(start)
    ensures IsRun(states, events) && states[|events|].tokens[id] == 2 && states[|events|].failedWrites[id] == 0
  {
    var t: State;
    states, events, t := ListedAndAdmitted(start, id);
    states, events, t := Continue(start, states, events, t, SyncWrite(id));
    states, events, t := Minting(start, states, events, t, id);
  }

  /** What an event does to the chain. */
  function ChainStep(s: State, e: Event): Option<C.Step> {
    match e
    case Submit(_) => Some(C.Submit)
    case Enter(i) => Some(C.Enter(i))
    case Read(i) =>
      if i < |s.requests| && s.requests[i] in s.knocks && s.knocks[s.requests[i]].Pending? then None else Some(C.Settle(i))
    case Mint(i, ok) => if ok then None else Some(C.Settle(i))
    case Write(i, _) => Some(C.Settle(i))
    case Cleanup(i) => Some(C.Cleanup(i))
    case _ => None
  }

  lemma ChainFollows(s: State, e: Event)
    requires Enabled(s, e)
    ensures C.Follows(s.chain, ChainStep(s, e), Next(s, e).chain)
  {
  }

  /** How often, between two points of a run, an admission was let in or came to its end. */
  ghost function Turns(states: seq<State>, events: seq<Event>, a: nat, b: nat): seq<Option<C.Step>>
    requires a <= b <= |events| < |states|
  {
    seq(b - a, k requires 0 <= k < b - a => ChainStep(states[a + k], events[a + k]))
  }

  ghost function Chains(states: seq<State>, a: nat, b: nat): seq<C.Chain>
    requires a <= b < |states|
  {
    seq(b - a + 1, k requires 0 <= k <= b - a => states[a + k].chain)
  }

  lemma ChainRuns(states: seq<State>, events: seq<Event>, a: nat, b: nat)
    requires IsRun(states, events) && a <= b < |states|
    ensures C.IsRun(Chains(states, a, b), Turns(states, events, a, b))
  {
    var steps := Turns(states, events, a, b);
    var chains := Chains(states, a, b);
    forall k | 0 <= k < |steps|
      ensures C.Follows(chains[k], steps[k], chains[k + 1])
    {
      ChainFollows(states[a + k], events[a + k]);
    }
  }

  /** Admissions start in the order of the clicks, and none waits for ever: once as many have been let in or
      come to an end as were ahead of it, a call and all before it are through, however they ended. */
  lemma AdmissionsAreServed(states: seq<State>, events: seq<Event>, a: nat, b: nat, i: nat)
    requires IsRun(states, events) && a <= b < |states| && i < |states[a].chain.calls|
    ensures C.Fifo(states[b].chain) && i < |states[b].chain.calls|
    ensures C.Moves(Turns(states, events, a, b)) >= C.Ahead(states[a].chain, i) <==> C.SettledBefore(states[b].chain, i + 1)
  {
    RunInv(states, events, a);
    ChainRuns(states, events, a, b);
    C.ReleasedInRun(Chains(states, a, b), Turns(states, events, a, b), i);
  }
}
