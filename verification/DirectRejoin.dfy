/** Direct Rejoin Grants of one room: a grant per account, an index from participant identity back to
    the account, and the set of accounts. The three are updated separately and must stay one relation. */
module DirectRejoin {
  import opened Options

  type User(==, !new)
  type Identity(==, !new)
  type GrantId(==, !new)
  type Sid(==, !new)

  datatype Grant = Grant(grantId: GrantId, roomSid: Sid, userId: User, identity: Identity)

  datatype Grants = Grants(byUser: map<User, Grant>, byIdentity: map<Identity, User>, users: set<User>)
  {
    function Get(user: User): Option<Grant> {
      if user in byUser && byUser[user].userId == user then Some(byUser[user]) else None
    }

    function GetByIdentity(identity: Identity): Option<Grant> {
      if identity !in byIdentity then None
      else
        var grant := Get(byIdentity[identity]);
        if grant.Some? && grant.value.identity == identity then grant else None
    }

    /** A new grant replaces the account's previous one and forgets the identity it was under. */
    function Add(grant: Grant): Grants {
      var previous := Get(grant.userId);
      var cleared := if previous.Some? then byIdentity - {previous.value.identity} else byIdentity;
      Grants(byUser[grant.userId := grant], cleared[grant.identity := grant.userId], users + {grant.userId})
    }

    /** Removing a grant that has been replaced meanwhile does nothing. */
    function Remove(grant: Grant): Grants {
      var current := Get(grant.userId);
      if current.None? || current.value.grantId != grant.grantId then this
      else Grants(byUser - {grant.userId}, byIdentity - {grant.identity}, users - {grant.userId})
    }

    function RevokeByIdentity(identity: Identity): Grants {
      var grant := GetByIdentity(identity);
      if grant.Some? then Remove(grant.value) else this
    }

    /** What is left once every grant of a finished room instance is gone. */
    function Without(sid: Sid): Grants {
      var left := map u | u in byUser && byUser[u].roomSid != sid :: byUser[u];
      Grants(left, map i | i in byIdentity && byIdentity[i] in left :: byIdentity[i], left.Keys)
    }

    /** `isDirectRejoinParticipantValid`: the join presents a token minted for `grantId` in `tokenSid`. */
    predicate Admits(sid: Sid, identity: Identity, grantId: GrantId, tokenSid: Sid) {
      var grant := GetByIdentity(identity);
      tokenSid == sid && grant.Some? && grant.value.grantId == grantId && grant.value.roomSid == sid
    }
  }

  /** The two maps are inverse to each other and the set is their domain. */
  ghost predicate Coherent(g: Grants) {
    && (forall u :: u in g.byUser ==>
          g.byUser[u].userId == u && g.byUser[u].identity in g.byIdentity && g.byIdentity[g.byUser[u].identity] == u)
    && (forall i :: i in g.byIdentity ==> g.byIdentity[i] in g.byUser && g.byUser[g.byIdentity[i]].identity == i)
    && g.users == g.byUser.Keys
  }

  /** Lookup by identity is a scan of all the room's grants: it finds the only grant under that
      identity, and finds none only when there is none. */
  lemma LookupIsScan(g: Grants, identity: Identity)
    requires Coherent(g)
    ensures match g.GetByIdentity(identity)
      case Some(grant) =>
        && grant.userId in g.byUser && g.byUser[grant.userId] == grant && grant.identity == identity
        && (forall u :: u in g.byUser && g.byUser[u].identity == identity ==> u == grant.userId)
      case None => forall u :: u in g.byUser ==> g.byUser[u].identity != identity
  {
  }

  /** Adding keeps the indexes coherent exactly when no other account holds the identity. */
  lemma AddIsCoherent(g: Grants, grant: Grant)
    requires Coherent(g)
    ensures Coherent(g.Add(grant))
      <==> (grant.identity !in g.byIdentity || g.byIdentity[grant.identity] == grant.userId)
  {
    var b := g.Add(grant);
    if grant.identity in g.byIdentity && g.byIdentity[grant.identity] != grant.userId {
      var other := g.byIdentity[grant.identity];
      assert other in b.byUser && b.byUser[other] == g.byUser[other] && b.byIdentity[grant.identity] == grant.userId;
    }
  }

  lemma RemoveIsCoherent(g: Grants, grant: Grant)
    requires Coherent(g) && (grant.userId in g.byUser && g.byUser[grant.userId].grantId == grant.grantId ==> g.byUser[grant.userId] == grant)
    ensures Coherent(g.Remove(grant))
  {
  }

  /** Adding makes the grant the account's only one, found by account and by identity; every other account's
      grant is found as before. */
  lemma AddFinds(g: Grants, grant: Grant, user: User, identity: Identity)
    requires Coherent(g) && (grant.identity !in g.byIdentity || g.byIdentity[grant.identity] == grant.userId)
    ensures var b := g.Add(grant);
      && b.Get(grant.userId) == Some(grant) && b.GetByIdentity(grant.identity) == Some(grant)
      && (user != grant.userId ==> b.Get(user) == g.Get(user))
      && (identity != grant.identity ==>
            b.GetByIdentity(identity) ==
              if g.GetByIdentity(identity).Some? && g.GetByIdentity(identity).value.userId == grant.userId then None else g.GetByIdentity(identity))
  {
  }

  /** Removing takes exactly the account's current grant, if it is this one. */
  lemma RemoveFinds(g: Grants, grant: Grant, user: User)
    requires Coherent(g)
    ensures var b := g.Remove(grant);
      var current := grant.userId in g.byUser && g.byUser[grant.userId].grantId == grant.grantId;
      b.Get(user) == if current && user == grant.userId then None else g.Get(user)
  {
  }

  /** Revoking takes exactly the grant under the identity. */
  lemma RevokeFinds(g: Grants, identity: Identity, user: User)
    requires Coherent(g)
    ensures var b := g.RevokeByIdentity(identity);
      && b.GetByIdentity(identity) == None
      && b.Get(user) == if user in g.byUser && g.byUser[user].identity == identity then None else g.Get(user)
  {
    LookupIsScan(g, identity);
  }

  /** A join is let in exactly with a token of this room instance for the grant some account holds under the
      identity, in this room instance. */
  lemma AdmitsIff(g: Grants, sid: Sid, identity: Identity, grantId: GrantId, tokenSid: Sid)
    requires Coherent(g)
    ensures g.Admits(sid, identity, grantId, tokenSid) <==>
      tokenSid == sid && exists u :: u in g.byUser && g.byUser[u] == Grant(grantId, sid, u, identity)
  {
    LookupIsScan(g, identity);
    if g.GetByIdentity(identity).Some? {
      var grant := g.GetByIdentity(identity).value;
      assert g.byUser[grant.userId] == grant;
    }
  }

  /** Clearing a finished instance removes exactly its grants. */
  lemma ClearIsExact(g: Grants, sid: Sid, user: User)
    requires Coherent(g)
    ensures Coherent(g.Without(sid))
    ensures g.Without(sid).Get(user)
         == if user in g.byUser && g.byUser[user].roomSid != sid then Some(g.byUser[user]) else None
  {
  }

  lemma RemoveThenWithout(g: Grants, grant: Grant)
    requires Coherent(g) && grant.userId in g.byUser && g.byUser[grant.userId] == grant
    ensures Coherent(g.Remove(grant)) && g.Remove(grant).Without(grant.roomSid) == g.Without(grant.roomSid)
  {
    var b := g.Remove(grant);
    assert b.Without(grant.roomSid).byUser == g.Without(grant.roomSid).byUser;
    assert b.Without(grant.roomSid).byIdentity == g.Without(grant.roomSid).byIdentity;
  }

  class RoomState {
    var byUser: map<User, Grant>
    var byIdentity: map<Identity, User>
    var users: set<User>

    ghost function View(): Grants
      reads this
    {
      Grants(byUser, byIdentity, users)
    }

    constructor ()
      ensures View() == Grants(map[], map[], {})
    {
      byUser, byIdentity, users := map[], map[], {};
    }

    method Get(user: User) returns (grant: Option<Grant>)
      ensures grant == View().Get(user)
    {
      grant := None;
      if user in byUser && byUser[user].userId == user {
        grant := Some(byUser[user]);
      }
    }

    method GetByIdentity(identity: Identity) returns (grant: Option<Grant>)
      ensures grant == View().GetByIdentity(identity)
    {
      if identity !in byIdentity {
        return None;
      }
      grant := Get(byIdentity[identity]);
      if grant.Some? && grant.value.identity != identity {
        grant := None;
      }
    }

    method Add(grant: Grant)
      modifies this
      ensures View() == old(View()).Add(grant)
    {
      var previous := Get(grant.userId);
      if previous.Some? {
        byIdentity := byIdentity - {previous.value.identity};
      }
      byUser := byUser[grant.userId := grant];
      byIdentity := byIdentity[grant.identity := grant.userId];
      users := users + {grant.userId};
    }

    method Remove(grant: Grant)
      modifies this
      ensures View() == old(View()).Remove(grant)
    {
      var current := Get(grant.userId);
      if current.None? || current.value.grantId != grant.grantId {
        return;
      }
      byUser := byUser - {grant.userId};
      byIdentity := byIdentity - {grant.identity};
      users := users - {grant.userId};
    }

    method RevokeByIdentity(identity: Identity) returns (revoked: Option<Grant>)
      modifies this
      ensures View() == old(View()).RevokeByIdentity(identity)
      ensures revoked == old(View()).GetByIdentity(identity)
    {
      revoked := GetByIdentity(identity);
      if revoked.Some? {
        Remove(revoked.value);
      }
    }

    /** The loop over the room's accounts, in any order. */
    method Clear(sid: Sid)
      requires Coherent(View())
      modifies this
      ensures Coherent(View()) && View() == old(View()).Without(sid)
    {
      var rest := users;
      while rest != {}
        invariant Coherent(View()) && View().Without(sid) == old(View()).Without(sid)
        invariant rest <= old(users)
        invariant forall u :: u in byUser && byUser[u].roomSid == sid ==> u in rest
        decreases rest
      {
        var user :| user in rest;
        if user in byUser && byUser[user].roomSid == sid {
          RemoveThenWithout(View(), byUser[user]);
          Remove(byUser[user]);
        }
        rest := rest - {user};
      }
      assert View().Without(sid).byUser == byUser;
      assert View().Without(sid).byIdentity == byIdentity;
    }

    method IsParticipantValid(sid: Sid, identity: Identity, grantId: GrantId, tokenSid: Sid) returns (valid: bool)
      ensures valid == View().Admits(sid, identity, grantId, tokenSid)
    {
      if tokenSid != sid {
        return false;
      }
      var grant := GetByIdentity(identity);
      valid := grant.Some? && grant.value.grantId == grantId && grant.value.roomSid == sid;
    }
  }

  // ---- Runs ----

  datatype Op = Adding(grant: Grant) | Removing(grant: Grant) | Revoking(identity: Identity) | Clearing(sid: Sid)

  datatype State = State(grants: Grants, issued: set<GrantId>)

  function Apply(s: State, op: Op): State {
    match op
    case Adding(grant) => State(s.grants.Add(grant), s.issued + {grant.grantId})
    case Removing(grant) => s.(grants := s.grants.Remove(grant))
    case Revoking(identity) => s.(grants := s.grants.RevokeByIdentity(identity))
    case Clearing(sid) => s.(grants := s.grants.Without(sid))
  }

  /** Grant ids and identities are made fresh, and only issued grants are handed back for removal. */
  ghost predicate Enabled(s: State, op: Op) {
    match op
    case Adding(grant) => grant.grantId !in s.issued && grant.identity !in s.grants.byIdentity
    case Removing(grant) =>
      grant.userId in s.grants.byUser && s.grants.byUser[grant.userId].grantId == grant.grantId ==>
        s.grants.byUser[grant.userId] == grant
    case _ => true
  }

  ghost predicate Inv(s: State) {
    && Coherent(s.grants)
    && (forall u :: u in s.grants.byUser ==> s.grants.byUser[u].grantId in s.issued)
  }

  ghost predicate Current(s: State, id: GrantId) {
    exists u :: u in s.grants.byUser && s.grants.byUser[u].grantId == id
  }

  lemma ApplyKeeps(s: State, op: Op)
    requires Inv(s) && Enabled(s, op)
    ensures Inv(Apply(s, op)) && s.issued <= Apply(s, op).issued
    ensures forall id :: Current(Apply(s, op), id) ==> Current(s, id) || id !in s.issued
  {
    match op
    case Adding(grant) => AddIsCoherent(s.grants, grant);
    case Removing(grant) => RemoveIsCoherent(s.grants, grant);
    case Revoking(identity) =>
      LookupIsScan(s.grants, identity);
      if s.grants.GetByIdentity(identity).Some? {
        RemoveIsCoherent(s.grants, s.grants.GetByIdentity(identity).value);
      }
    case Clearing(sid) => assert Coherent(s.grants.Without(sid));
  }

  ghost predicate IsRun(states: seq<State>, ops: seq<Op>) {
    && |states| == |ops| + 1 && states[0] == State(Grants(map[], map[], {}), {})
    && (forall i :: 0 <= i < |ops| ==> Enabled(states[i], ops[i]) && states[i + 1] == Apply(states[i], ops[i]))
  }

  lemma {:induction false} RunInv(states: seq<State>, ops: seq<Op>, i: nat)
    requires IsRun(states, ops) && i < |states|
    ensures Inv(states[i])
  {
    if i > 0 {
      RunInv(states, ops, i - 1);
      ApplyKeeps(states[i - 1], ops[i - 1]);
    }
  }

  lemma {:induction false} NeverCurrentAgain(states: seq<State>, ops: seq<Op>, j: nat, k: nat, id: GrantId)
    requires IsRun(states, ops) && j <= k < |states| && id in states[j].issued && !Current(states[j], id)
    ensures id in states[k].issued && !Current(states[k], id)
    decreases k
  {
    if j < k {
      NeverCurrentAgain(states, ops, j, k - 1, id);
      RunInv(states, ops, k - 1);
      ApplyKeeps(states[k - 1], ops[k - 1]);
    }
  }

  /** A grant that was removed, replaced, revoked or cleared never validates a later join. */
  lemma RemovedNeverAdmits(states: seq<State>, ops: seq<Op>, i: nat, j: nat, k: nat, id: GrantId,
                           sid: Sid, identity: Identity, tokenSid: Sid)
    requires IsRun(states, ops) && i <= j <= k < |states| && Current(states[i], id) && !Current(states[j], id)
    ensures !states[k].grants.Admits(sid, identity, id, tokenSid)
  {
    RunInv(states, ops, i);
    IssuedGrows(states, ops, i, j);
    NeverCurrentAgain(states, ops, j, k, id);
    RunInv(states, ops, k);
    LookupIsScan(states[k].grants, identity);
  }

  lemma {:induction false} IssuedGrows(states: seq<State>, ops: seq<Op>, i: nat, j: nat)
    requires IsRun(states, ops) && i <= j < |states|
    ensures states[i].issued <= states[j].issued
    decreases j
  {
    if i < j {
      IssuedGrows(states, ops, i, j - 1);
      RunInv(states, ops, j - 1);
      ApplyKeeps(states[j - 1], ops[j - 1]);
    }
  }
}
