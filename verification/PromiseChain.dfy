/** The hand-written per-room lock that both `mutateRoomMetadata` and `admit` build from promises:
    a caller remembers the promise it finds in the map, leaves its own there, waits for the one it
    found, works, settles, and finally removes its own promise if it is still the one in the map.

    Callers are numbered in the order in which they run their synchronous prefix. */
module PromiseChain {
  import opened Options

  datatype Phase = Waiting | Running | Settled

  datatype Call = Call(previous: Option<nat>, phase: Phase, cleaned: bool)

  datatype Chain = Chain(calls: seq<Call>, tail: Option<nat>)

  datatype Step = Submit | Enter(i: nat) | Settle(i: nat) | Cleanup(i: nat)

  predicate Ready(c: Chain, previous: Option<nat>) {
    previous.None? || (previous.value < |c.calls| && c.calls[previous.value].phase.Settled?)
  }

  predicate Enabled(c: Chain, step: Step) {
    match step
    case Submit => true
    case Enter(i) => i < |c.calls| && c.calls[i].phase.Waiting? && Ready(c, c.calls[i].previous)
    case Settle(i) => i < |c.calls| && c.calls[i].phase.Running?
    case Cleanup(i) => i < |c.calls| && c.calls[i].phase.Settled? && !c.calls[i].cleaned
  }

  function Next(c: Chain, step: Step): Chain
    requires Enabled(c, step)
  {
    match step
    case Submit => Chain(c.calls + [Call(c.tail, Waiting, false)], Some(|c.calls|))
    case Enter(i) => c.(calls := c.calls[i := c.calls[i].(phase := Running)])
    case Settle(i) => c.(calls := c.calls[i := c.calls[i].(phase := Settled)])
    case Cleanup(i) =>
      Chain(c.calls[i := c.calls[i].(cleaned := true)], if c.tail == Some(i) then None else c.tail)
  }

  /** A caller has started only if everybody before it has settled. */
  ghost predicate Fifo(c: Chain) {
    forall i, j :: 0 <= i < j < |c.calls| && !c.calls[j].phase.Waiting? ==> c.calls[i].phase.Settled?
  }

  ghost predicate SettledBefore(c: Chain, i: nat)
    requires i <= |c.calls|
  {
    forall j :: 0 <= j < i ==> c.calls[j].phase.Settled?
  }

  ghost predicate Inv(c: Chain) {
    && Fifo(c)
    && (forall i :: 0 <= i < |c.calls| ==>
          match c.calls[i].previous
          case Some(p) => p == i - 1
          case None => SettledBefore(c, i))
    && (match c.tail
        case Some(t) => t == |c.calls| - 1
        case None => SettledBefore(c, |c.calls|))
  }

  lemma NextKeeps(c: Chain, step: Step)
    requires Inv(c) && Enabled(c, step)
    ensures Inv(Next(c, step))
  {
    if step.Enter? {
      var i := step.i;
      assert SettledBefore(c, i) by {
        if c.calls[i].previous.Some? {
          assert c.calls[i - 1].phase.Settled?;
        }
      }
    }
  }

  /** No two callers are inside, and the one inside is next in submission order. */
  lemma Exclusive(c: Chain, i: nat, j: nat)
    requires Inv(c) && i < |c.calls| && j < |c.calls|
    requires c.calls[i].phase.Running? && c.calls[j].phase.Running?
    ensures i == j && SettledBefore(c, i)
  {
  }

  // ---- Nobody waits for ever ----

  function Weight(call: Call): nat {
    if call.phase.Waiting? then 2 else if call.phase.Running? then 1 else 0
  }

  /** How many Enter and Settle steps are left until caller `i` is through. */
  function Ahead(c: Chain, i: nat): nat
    requires i < |c.calls|
  {
    Weight(c.calls[i]) + if i == 0 then 0 else Ahead(c, i - 1)
  }

  lemma {:induction false} AheadUnchanged(a: Chain, b: Chain, i: nat)
    requires i < |a.calls| && i < |b.calls| && forall j :: 0 <= j <= i ==> b.calls[j].phase == a.calls[j].phase
    ensures Ahead(b, i) == Ahead(a, i)
  {
    if i > 0 {
      AheadUnchanged(a, b, i - 1);
    }
  }

  lemma {:induction false} AheadDrops(a: Chain, b: Chain, i: nat, k: nat)
    requires k <= i < |a.calls| && |a.calls| == |b.calls| && Weight(b.calls[k]) == Weight(a.calls[k]) - 1
    requires forall j :: 0 <= j <= i && j != k ==> b.calls[j].phase == a.calls[j].phase
    ensures Ahead(b, i) == Ahead(a, i) - 1
  {
    if k < i {
      AheadDrops(a, b, i - 1, k);
    } else if i > 0 {
      AheadUnchanged(a, b, i - 1);
    }
  }

  /** While caller `i` is not through, every Enter or Settle brings it one step closer, whoever takes
      it and however many callers join behind; and one such step is always possible. */
  lemma EverybodyIsReleased(c: Chain, i: nat, step: Step)
    requires Inv(c) && i < |c.calls| && !c.calls[i].phase.Settled? && Enabled(c, step)
    ensures i < |Next(c, step).calls|
    ensures Ahead(Next(c, step), i) == if step.Enter? || step.Settle? then Ahead(c, i) - 1 else Ahead(c, i)
    ensures exists s: Step :: (s.Enter? || s.Settle?) && Enabled(c, s)
  {
    var b := Next(c, step);
    if step.Enter? || step.Settle? {
      NextKeeps(c, step);
      assert step.i <= i;
      AheadDrops(c, b, i, step.i);
    } else {
      AheadUnchanged(c, b, i);
    }
    SomebodyCanMove(c, i);
  }

  lemma SomebodyCanMove(c: Chain, i: nat)
    requires Inv(c) && i < |c.calls| && !c.calls[i].phase.Settled?
    ensures exists s: Step :: (s.Enter? || s.Settle?) && Enabled(c, s)
  {
    var k: nat := i;
    while !SettledBefore(c, k)
      invariant k <= i && !c.calls[k].phase.Settled?
      decreases k
    {
      var j: nat :| j < k && !c.calls[j].phase.Settled?;
      k := j;
    }
    if c.calls[k].phase.Running? {
      assert Enabled(c, Settle(k));
    } else {
      assert Enabled(c, Enter(k));
    }
  }

  lemma {:induction false} AheadIsZero(c: Chain, i: nat)
    requires Inv(c) && i < |c.calls|
    ensures Ahead(c, i) == 0 <==> SettledBefore(c, i + 1)
  {
    if i > 0 {
      AheadIsZero(c, i - 1);
    }
  }

  // ---- Over runs ----

  /** One step of the chain, or of others while the chain stands still (None). */
  predicate Follows(c: Chain, step: Option<Step>, d: Chain) {
    if step.Some? then Enabled(c, step.value) && d == Next(c, step.value) else d == c
  }

  ghost predicate IsRun(chains: seq<Chain>, steps: seq<Option<Step>>) {
    && |chains| == |steps| + 1
    && forall k :: 0 <= k < |steps| ==> Follows(chains[k], steps[k], chains[k + 1])
  }

  function Advances(step: Option<Step>): nat {
    if step.Some? && (step.value.Enter? || step.value.Settle?) then 1 else 0
  }

  /** How many callers have been let in or have settled. */
  function Moves(steps: seq<Option<Step>>): nat {
    if steps == [] then 0 else Moves(steps[..|steps| - 1]) + Advances(steps[|steps| - 1])
  }

  lemma OneStepAhead(c: Chain, i: nat, step: Step)
    requires Inv(c) && i < |c.calls| && Enabled(c, step)
    ensures i < |Next(c, step).calls|
    ensures Ahead(Next(c, step), i) == if Ahead(c, i) == 0 then 0 else Ahead(c, i) - Advances(Some(step))
  {
    AheadIsZero(c, i);
    if c.calls[i].phase.Settled? {
      assert SettledBefore(c, i + 1);
      NextKeeps(c, step);
      AheadIsZero(Next(c, step), i);
    } else {
      EverybodyIsReleased(c, i, step);
    }
  }

  /** In every run each caller is as many Enter and Settle steps nearer its end as have been taken, whoever
      took them; so after as many as were ahead of it, it and everybody before it has settled. */
  lemma {:induction false} ReleasedInRun(chains: seq<Chain>, steps: seq<Option<Step>>, i: nat)
    requires IsRun(chains, steps) && Inv(chains[0]) && i < |chains[0].calls|
    ensures Inv(chains[|steps|]) && i < |chains[|steps|].calls|
    ensures Ahead(chains[|steps|], i) == if Moves(steps) <= Ahead(chains[0], i) then Ahead(chains[0], i) - Moves(steps) else 0
    ensures Moves(steps) >= Ahead(chains[0], i) <==> SettledBefore(chains[|steps|], i + 1)
  {
    if steps != [] {
      var n := |steps| - 1;
      forall k | 0 <= k < n
        ensures Follows(chains[..n + 1][k], steps[..n][k], chains[..n + 1][k + 1])
      {
        assert Follows(chains[k], steps[k], chains[k + 1]);
      }
      ReleasedInRun(chains[..n + 1], steps[..n], i);
      assert Follows(chains[n], steps[n], chains[n + 1]);
      if steps[n].Some? {
        NextKeeps(chains[n], steps[n].value);
        OneStepAhead(chains[n], i, steps[n].value);
      }
    }
    AheadIsZero(chains[|steps|], i);
  }
}
