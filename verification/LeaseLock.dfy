/** The distributed lock (`src/shared/distributedLock.js`): one lease lock with two backends, a
    database row and a Redis key.  Every call is one step; times are milliseconds. */
module LeaseLock {
  import opened EventTable

  type Key = string
  type Client = nat

  // ----- the abstract lease lock -----

  /** For each key that was taken, the time its lease ends. */
  type Leases = map<Key, int>

  predicate Held(l: Leases, key: Key, now: int)
  {
    key in l && now < l[key]
  }

  datatype Call =
    | Acquire(client: Client, key: Key)
    | Renew(client: Client, key: Key)
    | Release(client: Client, key: Key)

  /** A call and the time it is made. */
  datatype Event = Event(now: int, call: Call)

  /** What the caller learns.  The two backends disagree on the return value of a release. */
  datatype Answer = Granted | Refused | Released

  function LeaseStep(l: Leases, e: Event, expiry: Key -> nat): (Leases, Answer)
  {
    match e.call
    case Acquire(_, key) =>
      if Held(l, key, e.now) then (l, Refused) else (l[key := e.now + expiry(key)], Granted)
    case Renew(_, key) => (l[key := e.now + expiry(key)], Granted)
    case Release(_, key) => (l - {key}, Released)
  }

  // ----- the database backend -----

  datatype LockRow = LockRow(createdAt: int, value: string)

  /** An insert that finds the row already there fails; then the lease decides, or the override. */
  function DbAcquire(rows: map<Key, LockRow>, key: Key, expiryTime: int, value: string, overrideValue: bool, now: int)
    : (map<Key, LockRow>, bool)
  {
    if key !in rows || overrideValue || rows[key].createdAt + expiryTime <= now
    then (rows[key := LockRow(now, value)], true)
    else (rows, false)
  }

  class DbLock {
    var rows: map<Key, LockRow>
    var existingLocks: map<Key, string>

    constructor ()
      ensures rows == map[] && existingLocks == map[]
    {
      rows, existingLocks := map[], map[];
    }

    method AcquireLockDB(tenant: string, key: Key, expiryTime: int, value: string, overrideValue: bool,
                         keepTrackOfLock: bool, now: int) returns (result: bool)
      modifies this
      ensures (rows, result) == DbAcquire(old(rows), key, expiryTime, value, overrideValue, now)
      ensures existingLocks == if result && keepTrackOfLock then old(existingLocks)[key := tenant] else old(existingLocks)
    {
      if key !in rows {
        rows := rows[key := LockRow(now, value)];
        result := true;
      } else {
        var currentEntry := if overrideValue then None else Some(rows[key]);
        if overrideValue || (currentEntry.Some? && currentEntry.value.createdAt + expiryTime <= now) {
          rows := rows[key := LockRow(now, value)];
          result := true;
        } else {
          result := false;
        }
      }
      if result && keepTrackOfLock {
        existingLocks := existingLocks[key := tenant];
      }
    }

    method ReleaseLockDb(key: Key) returns (result: bool)
      modifies this
      ensures rows == old(rows) - {key} && existingLocks == old(existingLocks) - {key} && result
    {
      rows := rows - {key};
      existingLocks := existingLocks - {key};
      return true;
    }
  }

  function DbStep(rows: map<Key, LockRow>, e: Event, expiry: Key -> nat): (map<Key, LockRow>, Answer)
  {
    match e.call
    case Acquire(_, key) =>
      var (r, ok) := DbAcquire(rows, key, expiry(key), "true", false, e.now);
      (r, if ok then Granted else Refused)
    case Renew(_, key) =>
      var (r, ok) := DbAcquire(rows, key, expiry(key), "true", true, e.now);
      (r, if ok then Granted else Refused)
    case Release(_, key) => (rows - {key}, Released)
  }

  // ----- the Redis backend -----

  /** A stored value and the time it expires. */
  datatype Entry = Entry(value: string, expiresAt: int)

  /** SET with NX, XX or neither: OK unless the condition fails. */
  datatype Condition = Always | OnlyIfAbsent | OnlyIfPresent

  predicate Present(store: map<Key, Entry>, key: Key, now: int)
  {
    key in store && now < store[key].expiresAt
  }

  /** SET with NX, or without it to override. */
  function RedisAcquire(store: map<Key, Entry>, key: Key, px: int, value: string, overrideValue: bool, now: int)
    : (map<Key, Entry>, bool)
  {
    if overrideValue || !Present(store, key, now) then (store[key := Entry(value, now + px)], true) else (store, false)
  }

  class RedisLock {
    var store: map<Key, Entry>
    var existingLocks: map<Key, string>

    constructor ()
      ensures store == map[] && existingLocks == map[]
    {
      store, existingLocks := map[], map[];
    }

    method Set(key: Key, value: string, px: int, condition: Condition, now: int) returns (ok: bool)
      modifies this`store
      ensures ok <==> condition == Always || (condition == OnlyIfPresent <==> Present(old(store), key, now))
      ensures store == if ok then old(store)[key := Entry(value, now + px)] else old(store)
    {
      var present := Present(store, key, now);
      ok := condition == Always || (condition == OnlyIfPresent && present) || (condition == OnlyIfAbsent && !present);
      if ok { store := store[key := Entry(value, now + px)]; }
    }

    method AcquireLockRedis(tenant: string, key: Key, expiryTime: int, value: string, overrideValue: bool,
                            keepTrackOfLock: bool, now: int) returns (isOk: bool)
      modifies this
      ensures (store, isOk) == RedisAcquire(old(store), key, expiryTime, value, overrideValue, now)
      ensures existingLocks == if isOk && keepTrackOfLock then old(existingLocks)[key := tenant] else old(existingLocks)
    {
      isOk := Set(key, value, expiryTime, if overrideValue then Always else OnlyIfAbsent, now);
      if isOk && keepTrackOfLock {
        existingLocks := existingLocks[key := tenant];
      }
    }

    /** Three commands: refresh the key if it is there; if not, look, and set it if it is still gone.
        Taken as one step, a renewal always succeeds. */
    method RenewLockRedis(key: Key, expiryTime: int, value: string, now: int) returns (isOk: bool)
      modifies this`store
      ensures isOk && (store, isOk) == RedisAcquire(old(store), key, expiryTime, value, true, now)
    {
      isOk := Set(key, value, expiryTime, OnlyIfPresent, now);
      if !isOk {
        if !Present(store, key, now) {
          isOk := Set(key, value, expiryTime, Always, now);
        }
      }
    }

    method ReleaseLockRedis(key: Key, now: int) returns (deleted: bool)
      modifies this
      ensures store == old(store) - {key} && existingLocks == old(existingLocks) - {key}
      ensures deleted <==> Present(old(store), key, now)
    {
      deleted := Present(store, key, now);
      store := store - {key};
      existingLocks := existingLocks - {key};
    }
  }

  function RedisStep(store: map<Key, Entry>, e: Event, expiry: Key -> nat): (map<Key, Entry>, Answer)
  {
    match e.call
    case Acquire(_, key) =>
      var (r, ok) := RedisAcquire(store, key, expiry(key), "true", false, e.now);
      (r, if ok then Granted else Refused)
    case Renew(_, key) =>
      var (r, ok) := RedisAcquire(store, key, expiry(key), "true", true, e.now);
      (r, if ok then Granted else Refused)
    case Release(_, key) => (store - {key}, Released)
  }

  // ----- both refine the abstract lock -----

  /** The lease a database row stands for. */
  function DbLeases(rows: map<Key, LockRow>, expiry: Key -> nat): Leases
  {
    map key | key in rows :: rows[key].createdAt + expiry(key)
  }

  function RedisLeases(store: map<Key, Entry>): Leases
  {
    map key | key in store :: store[key].expiresAt
  }

  lemma DbRefines(rows: map<Key, LockRow>, e: Event, expiry: Key -> nat)
    ensures var (next, answer) := DbStep(rows, e, expiry);
            (DbLeases(next, expiry), answer) == LeaseStep(DbLeases(rows, expiry), e, expiry)
  {
    var (next, answer) := DbStep(rows, e, expiry);
    var key := e.call.key;
    if next == rows[key := LockRow(e.now, "true")] {
      assert DbLeases(next, expiry) == DbLeases(rows, expiry)[key := e.now + expiry(key)];
    } else if e.call.Release? {
      assert DbLeases(next, expiry) == DbLeases(rows, expiry) - {key};
    }
  }

  lemma RedisRefines(store: map<Key, Entry>, e: Event, expiry: Key -> nat)
    ensures var (next, answer) := RedisStep(store, e, expiry);
            (RedisLeases(next), answer) == LeaseStep(RedisLeases(store), e, expiry)
  {
    var (next, answer) := RedisStep(store, e, expiry);
    var key := e.call.key;
    if next == store[key := Entry("true", e.now + expiry(key))] {
      assert RedisLeases(next) == RedisLeases(store)[key := e.now + expiry(key)];
    } else if e.call.Release? {
      assert RedisLeases(next) == RedisLeases(store) - {key};
    }
  }

  function LeaseAnswers(l: Leases, trace: seq<Event>, expiry: Key -> nat): seq<Answer>
    decreases |trace|
  {
    if trace == [] then []
    else
      var (next, answer) := LeaseStep(l, trace[0], expiry);
      [answer] + LeaseAnswers(next, trace[1..], expiry)
  }

  function DbAnswers(rows: map<Key, LockRow>, trace: seq<Event>, expiry: Key -> nat): seq<Answer>
    decreases |trace|
  {
    if trace == [] then []
    else
      var (next, answer) := DbStep(rows, trace[0], expiry);
      [answer] + DbAnswers(next, trace[1..], expiry)
  }

  function RedisAnswers(store: map<Key, Entry>, trace: seq<Event>, expiry: Key -> nat): seq<Answer>
    decreases |trace|
  {
    if trace == [] then []
    else
      var (next, answer) := RedisStep(store, trace[0], expiry);
      [answer] + RedisAnswers(next, trace[1..], expiry)
  }

  lemma {:induction false} DbAnswersAreLeaseAnswers(rows: map<Key, LockRow>, trace: seq<Event>, expiry: Key -> nat)
    ensures DbAnswers(rows, trace, expiry) == LeaseAnswers(DbLeases(rows, expiry), trace, expiry)
    decreases |trace|
  {
    if trace != [] {
      DbRefines(rows, trace[0], expiry);
      DbAnswersAreLeaseAnswers(DbStep(rows, trace[0], expiry).0, trace[1..], expiry);
    }
  }

  lemma {:induction false} RedisAnswersAreLeaseAnswers(store: map<Key, Entry>, trace: seq<Event>, expiry: Key -> nat)
    ensures RedisAnswers(store, trace, expiry) == LeaseAnswers(RedisLeases(store), trace, expiry)
    decreases |trace|
  {
    if trace != [] {
      RedisRefines(store, trace[0], expiry);
      RedisAnswersAreLeaseAnswers(RedisStep(store, trace[0], expiry).0, trace[1..], expiry);
    }
  }

  /** On every trace of acquires, renewals and releases the two backends give the same answers,
      as long as every key is always used with one expiry time. */
  lemma BackendsAgree(trace: seq<Event>, expiry: Key -> nat)
    ensures DbAnswers(map[], trace, expiry) == RedisAnswers(map[], trace, expiry)
  {
    DbAnswersAreLeaseAnswers(map[], trace, expiry);
    RedisAnswersAreLeaseAnswers(map[], trace, expiry);
    assert DbLeases(map[], expiry) == map[] && RedisLeases(map[]) == map[];
  }

  /** With two expiry times they can disagree: the database measures a held lease with the
      newcomer's expiry time, Redis with the holder's. */
  lemma BackendsDisagreeIff(key: Key, taken: int, first: nat, second: nat, now: int)
    ensures var dbGrants := DbAcquire(map[key := LockRow(taken, "true")], key, second, "true", false, now).1;
            var redisGrants := !Present(map[key := Entry("", taken + first)], key, now);
            dbGrants != redisGrants <==> (taken + second <= now < taken + first) || (taken + first <= now < taken + second)
  {
  }

  // ----- mutual exclusion -----

  datatype World = World(leases: Leases, holders: map<Key, set<Client>>)

  function HoldersOf(w: World, key: Key): set<Client>
  {
    if key in w.holders then w.holders[key] else {}
  }

  /** A client holds the lock from a granted acquire until its own release. */
  function WorldStep(w: World, e: Event, expiry: Key -> nat): World
  {
    var (next, answer) := LeaseStep(w.leases, e, expiry);
    var key, client := e.call.key, e.call.client;
    match e.call
    case Acquire(_, _) =>
      World(next, if answer == Granted then w.holders[key := HoldersOf(w, key) + {client}] else w.holders)
    case Renew(_, _) => World(next, w.holders)
    case Release(_, _) => World(next, w.holders[key := HoldersOf(w, key) - {client}])
  }

  /** Renew and release only what one holds; and hold nothing beyond the end of its lease. */
  ghost predicate Disciplined(w: World, e: Event)
  {
    && (!e.call.Acquire? ==> e.call.client in HoldersOf(w, e.call.key))
    && forall key | HoldersOf(w, key) != {} :: Held(w.leases, key, e.now)
  }

  ghost predicate DisciplinedRun(w: World, trace: seq<Event>, expiry: Key -> nat)
    decreases |trace|
  {
    trace != [] ==> Disciplined(w, trace[0]) && DisciplinedRun(WorldStep(w, trace[0], expiry), trace[1..], expiry)
  }

  function WorldRun(w: World, trace: seq<Event>, expiry: Key -> nat): World
    decreases |trace|
  {
    if trace == [] then w else WorldRun(WorldStep(w, trace[0], expiry), trace[1..], expiry)
  }

  ghost predicate AtMostOne(w: World)
  {
    forall key, a, b | a in HoldersOf(w, key) && b in HoldersOf(w, key) :: a == b
  }

  lemma {:induction false} OneHolder(w: World, trace: seq<Event>, expiry: Key -> nat)
    requires AtMostOne(w) && DisciplinedRun(w, trace, expiry)
    ensures AtMostOne(WorldRun(w, trace, expiry))
    decreases |trace|
  {
    if trace != [] {
      var e := trace[0];
      var next := WorldStep(w, e, expiry);
      forall key, a, b | a in HoldersOf(next, key) && b in HoldersOf(next, key) ensures a == b {
        if key == e.call.key && e.call.Acquire? {
          assert HoldersOf(w, key) != {} ==> Held(w.leases, key, e.now);
          assert Held(w.leases, key, e.now) ==> HoldersOf(next, key) == HoldersOf(w, key);
          assert !Held(w.leases, key, e.now) ==> HoldersOf(next, key) == {e.call.client};
        } else {
          assert HoldersOf(next, key) <= HoldersOf(w, key);
        }
      }
      OneHolder(next, trace[1..], expiry);
    }
  }

  /** At most one holder per key, on every trace on which holders let go in time. */
  lemma MutualExclusion(trace: seq<Event>, expiry: Key -> nat)
    requires DisciplinedRun(World(map[], map[]), trace, expiry)
    ensures AtMostOne(WorldRun(World(map[], map[]), trace, expiry))
  {
    OneHolder(World(map[], map[]), trace, expiry);
  }

  /** The discipline is needed: a holder whose lease has run out is joined by the next one. */
  lemma LateHolderIsJoined(key: Key, a: Client, b: Client, expiry: Key -> nat)
    ensures var trace := [Event(0, Acquire(a, key)), Event(expiry(key), Acquire(b, key))];
            HoldersOf(WorldRun(World(map[], map[]), trace, expiry), key) == {a, b}
  {
    var trace := [Event(0, Acquire(a, key)), Event(expiry(key), Acquire(b, key))];
    assert trace[1..] == [trace[1]] && trace[1..][1..] == [];
    var one := WorldStep(World(map[], map[]), trace[0], expiry);
    assert HoldersOf(one, key) == {a} && !Held(one.leases, key, expiry(key));
    var two := WorldStep(one, trace[1], expiry);
    assert WorldRun(one, trace[1..], expiry) == WorldRun(two, [], expiry);
  }
}
