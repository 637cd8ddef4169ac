/** The in-memory Redis stand-in drops an expired string only when somebody touches it. This module
    proves that callers cannot tell: under any command sequence its replies are those of a store that
    loses every key at the moment it expires. The one exception is the count DEL returns. */
module FakeRedis {
  import opened Options

  datatype Mode = Always | IfAbsent | IfPresent

  datatype Slot<+V> = Slot(value: V, expiresAt: Option<int>)

  type Store<K, V> = map<K, Slot<V>>

  datatype Command<K, V> =
    | Get(key: K)
    | Set(key: K, value: V, seconds: Option<int>, mode: Mode)
    | GetDel(key: K)
    | Del(key: K)
    | Expire(key: K, ttl: int)

  datatype Reply<+V> = Value(found: Option<V>) | Done(ok: bool) | Count(n: nat)

  predicate Gone<V>(slot: Slot<V>, now: int) {
    slot.expiresAt.Some? && slot.expiresAt.value <= now
  }

  function Deadline(seconds: Option<int>, now: int): Option<int> {
    if seconds.Some? then Some(now + seconds.value * 1000) else None
  }

  function Lookup<K, V>(store: Store<K, V>, key: K): Option<V> {
    if key in store then Some(store[key].value) else None
  }

  /** The command on a store that holds live entries only. */
  function Run<K, V>(store: Store<K, V>, command: Command<K, V>, now: int): (Store<K, V>, Reply<V>) {
    match command
    case Get(key) => (store, Value(Lookup(store, key)))
    case Set(key, value, seconds, mode) =>
      if (mode.IfAbsent? && key in store) || (mode.IfPresent? && key !in store) then (store, Done(false))
      else (store[key := Slot(value, Deadline(seconds, now))], Done(true))
    case GetDel(key) => (store - {key}, Value(Lookup(store, key)))
    case Del(key) => (store - {key}, Count(if key in store then 1 else 0))
    case Expire(key, ttl) =>
      if key in store then (store[key := store[key].(expiresAt := Some(now + ttl * 1000))], Count(1)) else (store, Count(0))
  }

  /** What each command means on live entries: SET writes unless NX finds the key or XX does not, and then
      the key holds the value until its new deadline, or for good; GETDEL returns what it removes; EXPIRE
      moves the deadline of a key that is there. No command touches another key. */
  lemma RunMeans<K, V>(store: Store<K, V>, command: Command<K, V>, now: int)
    ensures var (after, reply) := Run(store, command, now);
      && (forall k :: k != command.key ==> (k in after <==> k in store) && (k in store ==> after[k] == store[k]))
      && match command
         case Get(key) => after == store && reply == Value(if key in store then Some(store[key].value) else None)
         case Set(key, value, seconds, mode) =>
           var writes := match mode case Always => true case IfAbsent => key !in store case IfPresent => key in store;
           && reply == Done(writes)
           && (if writes then key in after && after[key] == Slot(value, if seconds.Some? then Some(now + 1000 * seconds.value) else None)
               else after == store)
         case GetDel(key) => key !in after && reply == Value(if key in store then Some(store[key].value) else None)
         case Del(key) => key !in after && reply == Count(if key in store then 1 else 0)
         case Expire(key, ttl) =>
           && (key in after <==> key in store) && reply == Count(if key in store then 1 else 0)
           && (key in store ==> after[key] == Slot(store[key].value, Some(now + 1000 * ttl)))
  {
  }

  function Cleanup<K, V>(store: Store<K, V>, key: K, now: int): Store<K, V> {
    if key in store && Gone(store[key], now) then store - {key} else store
  }

  /** The stand-in: clean up the key it touches, then act. DEL deletes without cleaning up first. */
  function RunLazily<K, V>(store: Store<K, V>, command: Command<K, V>, now: int): (Store<K, V>, Reply<V>) {
    Run(if command.Del? then store else Cleanup(store, command.key, now), command, now)
  }

  /** What a reader at `now` can see. */
  function Live<K, V>(store: Store<K, V>, now: int): Store<K, V> {
    map k | k in store && !Gone(store[k], now) :: store[k]
  }

  lemma LiveLater<K, V>(store: Store<K, V>, now: int, later: int)
    requires now <= later
    ensures Live(Live(store, now), later) == Live(store, later)
  {
  }

  lemma CleanupIsInvisible<K, V>(store: Store<K, V>, key: K, now: int)
    ensures Live(Cleanup(store, key, now), now) == Live(store, now)
    ensures Lookup(Cleanup(store, key, now), key) == Lookup(Live(store, now), key)
  {
  }

  /** Acting on the whole store or on its live part gives the same live store. A TTL that is not
      positive stores an entry that is gone at once, in both. */
  lemma RunOnLive<K, V>(store: Store<K, V>, command: Command<K, V>, now: int)
    requires command.key in store ==> !Gone(store[command.key], now)
    ensures Run(store, command, now).1 == Run(Live(store, now), command, now).1
    ensures Live(Run(store, command, now).0, now) == Live(Run(Live(store, now), command, now).0, now)
  {
  }

  predicate StaleDel<K, V>(store: Store<K, V>, command: Command<K, V>, now: int) {
    command.Del? && command.key in store && Gone(store[command.key], now)
  }

  /** One command: same live store, and the same reply exactly when it is not a DEL of a stale key. */
  lemma LazyMatches<K, V>(store: Store<K, V>, command: Command<K, V>, now: int)
    ensures var (lazy, reply) := RunLazily(store, command, now);
      var (eager, expected) := Run(Live(store, now), command, now);
      && Live(lazy, now) == Live(eager, now)
      && (reply == expected <==> !StaleDel(store, command, now))
  {
    if !command.Del? {
      CleanupIsInvisible(store, command.key, now);
      RunOnLive(Cleanup(store, command.key, now), command, now);
    } else if StaleDel(store, command, now) {
      assert Live(store - {command.key}, now) == Live(store, now) - {command.key};
    } else {
      RunOnLive(store, command, now);
    }
  }

  /** A value set for some seconds is there, for the lazy store as for a reader, exactly until they are over. */
  lemma SetLasts<K, V>(store: Store<K, V>, key: K, value: V, seconds: int, now: int, later: int)
    requires now <= later
    ensures var after := RunLazily(store, Set(key, value, Some(seconds), Always), now).0;
      RunLazily(after, Get(key), later).1 == Value(if later < now + 1000 * seconds then Some(value) else None)
  {
  }

  datatype Timed<K, V> = Timed(command: Command<K, V>, now: int)

  ghost predicate InTime<K, V>(script: seq<Timed<K, V>>, start: int) {
    && (forall i :: 0 <= i < |script| ==> start <= script[i].now)
    && (forall i, j :: 0 <= i < j < |script| ==> script[i].now <= script[j].now)
  }

  function Replies<K, V>(store: Store<K, V>, script: seq<Timed<K, V>>, lazily: bool): seq<Reply<V>>
    decreases script
  {
    if script == [] then []
    else
      var (command, now) := (script[0].command, script[0].now);
      var (next, reply) := if lazily then RunLazily(store, command, now) else Run(Live(store, now), command, now);
      [reply] + Replies(next, script[1..], lazily)
  }

  ghost predicate Agree<V>(a: Reply<V>, b: Reply<V>) {
    a == b || (a.Count? && b.Count?)
  }

  /** Over any timed script the lazy store answers like the eager one, up to counts. */
  lemma {:induction false} LazyIsUnobservable<K, V>(lazy: Store<K, V>, eager: Store<K, V>, script: seq<Timed<K, V>>, start: int)
    requires InTime(script, start) && Live(lazy, start) == Live(eager, start)
    ensures |Replies(lazy, script, true)| == |Replies(eager, script, false)| == |script|
    ensures forall i :: 0 <= i < |script| ==> Agree(Replies(lazy, script, true)[i], Replies(eager, script, false)[i])
    ensures forall i :: 0 <= i < |script| && !script[i].command.Del? ==>
              Replies(lazy, script, true)[i] == Replies(eager, script, false)[i]
    decreases script
  {
    if script != [] {
      var command, now := script[0].command, script[0].now;
      LiveLater(lazy, start, now);
      LiveLater(eager, start, now);
      LazyMatches(lazy, command, now);
      var next, simple := RunLazily(lazy, command, now).0, Run(Live(eager, now), command, now).0;
      LazyIsUnobservable(next, simple, script[1..], now);
      assert Replies(lazy, script, true)[1..] == Replies(next, script[1..], true);
      assert Replies(eager, script, false)[1..] == Replies(simple, script[1..], false);
    }
  }

  class FakeRedis<K(==), V> {
    var strings: Store<K, V>

    constructor ()
      ensures strings == map[]
    {
      strings := map[];
    }

    method CleanupString(key: K, now: int)
      modifies this
      ensures strings == Cleanup(old(strings), key, now)
    {
      if key in strings && Gone(strings[key], now) {
        strings := strings - {key};
      }
    }

    method GetString(key: K, now: int) returns (reply: Option<V>)
      modifies this
      ensures (strings, Value(reply)) == RunLazily(old(strings), Get(key), now)
    {
      CleanupString(key, now);
      reply := if key in strings then Some(strings[key].value) else None;
    }

    method SetString(key: K, value: V, seconds: Option<int>, mode: Mode, now: int) returns (ok: bool)
      modifies this
      ensures (strings, Done(ok)) == RunLazily(old(strings), Set(key, value, seconds, mode), now)
    {
      CleanupString(key, now);
      var present := key in strings;
      if mode.IfAbsent? && present {
        return false;
      }
      if mode.IfPresent? && !present {
        return false;
      }
      strings := strings[key := Slot(value, Deadline(seconds, now))];
      return true;
    }

    method GetDelString(key: K, now: int) returns (reply: Option<V>)
      modifies this
      ensures (strings, Value(reply)) == RunLazily(old(strings), GetDel(key), now)
    {
      reply := GetString(key, now);
      strings := strings - {key};
    }

    method DelString(key: K, now: int) returns (removed: nat)
      modifies this
      ensures (strings, Count(removed)) == RunLazily(old(strings), Del(key), now)
    {
      removed := if key in strings then 1 else 0;
      strings := strings - {key};
    }

    method ExpireString(key: K, ttl: int, now: int) returns (count: nat)
      modifies this
      ensures (strings, Count(count)) == RunLazily(old(strings), Expire(key, ttl), now)
    {
      CleanupString(key, now);
      if key !in strings {
        return 0;
      }
      strings := strings[key := strings[key].(expiresAt := Some(now + ttl * 1000))];
      return 1;
    }
  }
}
