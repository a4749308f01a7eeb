/** Reconciliation of the periodic events in the table with the configured ones
    (`src/periodicEvents.js`). */
module PeriodicEvents {
  import opened EventTable

  datatype Key = Key(namespace: string, kind: string, subType: string)

  /** A configured schedule: an interval in seconds, or a cron expression, known by the function that
      gives the next time after a given one, with the random offset allowed for it. */
  datatype Schedule = Interval(seconds: int) | Cron(next: int -> int, offset: int)

  type Plan = map<Key, Schedule>

  datatype Periodic = Periodic(key: Key, createdAt: int, startAfter: Option<int>, status: Status)

  type Rows = map<nat, Periodic>

  /** A group of the SELECT. */
  datatype Group = Group(key: Key, createdAt: int, startAfter: Option<int>)

  const ALLOWED_PERIODIC_SEC_DIFF := 30

  predicate Active(p: Periodic)
  {
    p.status == Open || p.status == InProgress
  }

  /** A missing date is the epoch. */
  function Ms(date: Option<int>): int
  {
    if date.Some? then date.value else 0
  }

  function Abs(n: int): int { if n < 0 then -n else n }

  /** The row no longer fits its schedule. */
  predicate Changed(schedule: Schedule, g: Group, now: int)
  {
    match schedule
    case Interval(seconds) => Ms(g.startAfter) >= now + seconds * 1000
    case Cron(next, offset) => Abs(next(g.createdAt) - Ms(g.startAfter)) > (ALLOWED_PERIODIC_SEC_DIFF + offset) * 1000
  }

  function FirstStart(schedule: Schedule, now: int): int
  {
    match schedule
    case Interval(_) => now
    case Cron(next, _) => next(now)
  }

  /** An active row of the group of `key` and `createdAt`. */
  predicate InGroup(t: Rows, id: nat, key: Key, createdAt: int)
  {
    id in t && Active(t[id]) && t[id].key == key && t[id].createdAt == createdAt
  }

  predicate NotAfter(a: Option<int>, b: Option<int>)
  {
    a.None? || (b.Some? && a.value <= b.value)
  }

  /** A group with the latest start of its rows. */
  ghost predicate IsGroup(t: Rows, g: Group)
  {
    && (exists id :: InGroup(t, id, g.key, g.createdAt) && t[id].startAfter == g.startAfter)
    && (forall id | InGroup(t, id, g.key, g.createdAt) :: NotAfter(t[id].startAfter, g.startAfter))
  }

  predicate ActiveFor(t: Rows, id: nat, key: Key)
  {
    id in t && Active(t[id]) && t[id].key == key
  }

  /** The map of existing events: for every configured key with an active row, one of its groups. */
  ghost predicate IsExisting(plan: Plan, t: Rows, existing: map<Key, Group>)
  {
    && (forall k | k in existing :: k in plan && existing[k].key == k && IsGroup(t, existing[k]))
    && (forall id | id in t && Active(t[id]) && t[id].key in plan :: t[id].key in existing)
  }

  function ChangedKeys(plan: Plan, existing: map<Key, Group>, now: int): set<Key>
  {
    set k | k in existing && k in plan && Changed(plan[k], existing[k], now)
  }

  function ChangedGroups(plan: Plan, existing: map<Key, Group>, now: int): set<Group>
  {
    set k | k in ChangedKeys(plan, existing, now) :: existing[k]
  }

  /** The configured keys that are new or changed. */
  function KeysToInsert(plan: Plan, existing: map<Key, Group>, now: int): set<Key>
  {
    set k | k in plan && (k !in existing || k in ChangedKeys(plan, existing, now))
  }

  /** The condition of the DELETE: it names neither the namespace nor the status. */
  predicate Matches(p: Periodic, g: Group)
  {
    p.key.kind == g.key.kind && p.key.subType == g.key.subType && p.createdAt == g.createdAt && p.startAfter == g.startAfter
  }

  predicate Deleted(p: Periodic, changed: set<Group>)
  {
    exists g :: g in changed && Matches(p, g)
  }

  function NewRow(plan: Plan, k: Key, now: int, createdAt: int): Periodic
    requires k in plan
  {
    Periodic(k, createdAt, Some(FirstStart(plan[k], now)), Open)
  }

  /** `t'` is `t` without the rows the DELETE matches and with one new row for each of `keys`. */
  ghost predicate Replaced(plan: Plan, t: Rows, changed: set<Group>, keys: set<Key>, now: int, createdAt: int, t': Rows)
  {
    && (forall k | k in keys :: k in plan)
    && (forall id | id in t && !Deleted(t[id], changed) :: id in t' && t'[id] == t[id])
    && (forall id | id in t' && id in t :: !Deleted(t[id], changed) && t'[id] == t[id])
    && (forall id | id in t' && id !in t :: t'[id].key in keys && t'[id] == NewRow(plan, t'[id].key, now, createdAt))
    && (forall k | k in keys :: exists id :: id in t' && id !in t && t'[id].key == k)
    && (forall i, j | i in t' && i !in t && j in t' && j !in t && t'[i].key == t'[j].key :: i == j)
  }

  /** One pass. */
  ghost predicate Pass(plan: Plan, t: Rows, existing: map<Key, Group>, now: int, createdAt: int, t': Rows)
  {
    && IsExisting(plan, t, existing)
    && Replaced(plan, t, ChangedGroups(plan, existing, now), KeysToInsert(plan, existing, now), now, createdAt, t')
  }

  // ----- what a pass achieves -----

  ghost predicate AtMostOne(plan: Plan, t: Rows)
  {
    forall i, j | i in t && j in t && Active(t[i]) && Active(t[j]) && t[i].key == t[j].key && t[i].key in plan :: i == j
  }

  ghost predicate ExactlyOne(t: Rows, k: Key)
  {
    && (exists id :: ActiveFor(t, id, k))
    && (forall i, j | ActiveFor(t, i, k) && ActiveFor(t, j, k) :: i == j)
  }

  function GroupOf(p: Periodic): Group
  {
    Group(p.key, p.createdAt, p.startAfter)
  }

  predicate ChangedRow(plan: Plan, t: Rows, id: nat, now: int)
  {
    id in t && Active(t[id]) && t[id].key in plan && Changed(plan[t[id].key], GroupOf(t[id]), now)
  }

  predicate UnchangedRow(plan: Plan, t: Rows, id: nat, now: int)
  {
    id in t && Active(t[id]) && t[id].key in plan && !Changed(plan[t[id].key], GroupOf(t[id]), now)
  }

  /** A row that still fits is hit by the DELETE for one of another namespace. */
  ghost predicate Collateral(plan: Plan, t: Rows, now: int)
  {
    exists i, j :: ChangedRow(plan, t, i, now) && UnchangedRow(plan, t, j, now) && Matches(t[j], GroupOf(t[i]))
  }

  /** With at most one active row for a key, its group is that row. */
  lemma ExistingIsTheRow(plan: Plan, t: Rows, existing: map<Key, Group>, k: Key)
    requires AtMostOne(plan, t) && IsExisting(plan, t, existing) && k in existing
    ensures exists id :: ActiveFor(t, id, k) && existing[k] == GroupOf(t[id])
  {
    var id :| InGroup(t, id, k, existing[k].createdAt) && t[id].startAfter == existing[k].startAfter;
    assert ActiveFor(t, id, k);
  }

  lemma DeletedIff(plan: Plan, t: Rows, existing: map<Key, Group>, now: int, id: nat)
    requires AtMostOne(plan, t) && IsExisting(plan, t, existing) && id in t
    ensures Deleted(t[id], ChangedGroups(plan, existing, now))
       <==> exists i :: ChangedRow(plan, t, i, now) && Matches(t[id], GroupOf(t[i]))
  {
    var changed := ChangedKeys(plan, existing, now);
    var groups := ChangedGroups(plan, existing, now);
    if Deleted(t[id], groups) {
      var g :| g in groups && Matches(t[id], g);
      ExistingIsTheRow(plan, t, existing, g.key);
      var i :| ActiveFor(t, i, g.key) && existing[g.key] == GroupOf(t[i]);
      assert ChangedRow(plan, t, i, now);
    }
    if i :| ChangedRow(plan, t, i, now) && Matches(t[id], GroupOf(t[i])) {
      var k := t[i].key;
      ExistingIsTheRow(plan, t, existing, k);
      assert existing[k] == GroupOf(t[i]);
      assert k in changed && existing[k] in groups;
    }
  }

  /** One pass leaves exactly one active row for every configured key, from a table with at most one
      each, if and only if no row that fits shares type, sub type, creation and start with a row of
      another namespace that does not. */
  lemma ExactlyOneIff(plan: Plan, t: Rows, existing: map<Key, Group>, now: int, createdAt: int, t': Rows)
    requires AtMostOne(plan, t) && Pass(plan, t, existing, now, createdAt, t')
    ensures (forall k | k in plan :: ExactlyOne(t', k)) <==> !Collateral(plan, t, now)
  {
    forall k | k in plan ensures ExactlyOne(t', k) <==> !LosesRow(plan, t, k, now) {
      OneKey(plan, t, existing, now, createdAt, t', k);
    }
    if Collateral(plan, t, now) {
      var i, j :| ChangedRow(plan, t, i, now) && UnchangedRow(plan, t, j, now) && Matches(t[j], GroupOf(t[i]));
      assert LosesRow(plan, t, t[j].key, now);
    }
  }

  ghost predicate LosesRow(plan: Plan, t: Rows, k: Key, now: int)
  {
    exists i, j ::
      ChangedRow(plan, t, i, now) && UnchangedRow(plan, t, j, now) && t[j].key == k && Matches(t[j], GroupOf(t[i]))
  }

  lemma OneKey(plan: Plan, t: Rows, existing: map<Key, Group>, now: int, createdAt: int, t': Rows, k: Key)
    requires AtMostOne(plan, t) && Pass(plan, t, existing, now, createdAt, t') && k in plan
    ensures ExactlyOne(t', k) <==> !LosesRow(plan, t, k, now)
  {
    var inserted := KeysToInsert(plan, existing, now);
    if k in existing {
      ExistingIsTheRow(plan, t, existing, k);
      var id :| ActiveFor(t, id, k) && existing[k] == GroupOf(t[id]);
      assert ChangedRow(plan, t, id, now) <==> k in inserted;
      DeletedIff(plan, t, existing, now, id);
      if k in inserted {
        assert Matches(t[id], GroupOf(t[id]));
        OldRowGone(plan, t, existing, now, createdAt, t', k, id);
      } else {
        OldRowStays(plan, t, existing, now, createdAt, t', k, id);
      }
    } else {
      NoOldRow(plan, t, existing, now, createdAt, t', k);
    }
  }

  lemma NoOldRow(plan: Plan, t: Rows, existing: map<Key, Group>, now: int, createdAt: int, t': Rows, k: Key)
    requires Pass(plan, t, existing, now, createdAt, t') && k in plan && k !in existing
    ensures ExactlyOne(t', k) && !LosesRow(plan, t, k, now)
  {
    assert k in KeysToInsert(plan, existing, now);
    var id :| id in t' && id !in t && t'[id].key == k;
    assert ActiveFor(t', id, k);
    assert forall i | ActiveFor(t', i, k) :: i !in t;
  }

  lemma OldRowGone(plan: Plan, t: Rows, existing: map<Key, Group>, now: int, createdAt: int, t': Rows, k: Key, at: nat)
    requires AtMostOne(plan, t) && Pass(plan, t, existing, now, createdAt, t')
    requires k in KeysToInsert(plan, existing, now) && ActiveFor(t, at, k) && ChangedRow(plan, t, at, now)
    requires Deleted(t[at], ChangedGroups(plan, existing, now))
    ensures ExactlyOne(t', k) && !LosesRow(plan, t, k, now)
  {
    var id :| id in t' && id !in t && t'[id].key == k;
    assert ActiveFor(t', id, k);
    assert forall i | ActiveFor(t', i, k) :: i !in t;
  }

  lemma OldRowStays(plan: Plan, t: Rows, existing: map<Key, Group>, now: int, createdAt: int, t': Rows, k: Key, id: nat)
    requires AtMostOne(plan, t) && Pass(plan, t, existing, now, createdAt, t')
    requires k !in KeysToInsert(plan, existing, now) && k in plan && ActiveFor(t, id, k) && UnchangedRow(plan, t, id, now)
    requires Deleted(t[id], ChangedGroups(plan, existing, now))
        <==> exists i :: ChangedRow(plan, t, i, now) && Matches(t[id], GroupOf(t[i]))
    ensures ExactlyOne(t', k) <==> !LosesRow(plan, t, k, now)
  {
    assert forall i | ActiveFor(t', i, k) :: i == id;
    assert ExactlyOne(t', k) <==> id in t' by {
      if id in t' { assert ActiveFor(t', id, k); }
    }
  }

  // ----- what the table looks like afterwards -----

  /** The row starts within one interval from now, or about when its cron expression says. */
  predicate Fits(schedule: Schedule, p: Periodic, now: int)
  {
    var start := if p.startAfter.Some? then p.startAfter.value else 0;
    match schedule
    case Interval(seconds) => start < now + 1000 * seconds
    case Cron(next, offset) =>
      var allowed := 1000 * (30 + offset);
      next(p.createdAt) - allowed <= start <= next(p.createdAt) + allowed
  }

  lemma ChangedIff(schedule: Schedule, p: Periodic, now: int)
    ensures Changed(schedule, GroupOf(p), now) <==> !Fits(schedule, p, now)
  {
  }

  /** An active configured row that does not fit its schedule. */
  predicate MisfitRow(plan: Plan, t: Rows, i: nat, now: int)
  {
    i in t && (t[i].status == Open || t[i].status == InProgress) && t[i].key in plan && !Fits(plan[t[i].key], t[i], now)
  }

  lemma MisfitIsChanged(plan: Plan, t: Rows, i: nat, now: int)
    ensures MisfitRow(plan, t, i, now) <==> ChangedRow(plan, t, i, now)
  {
    if i in t && t[i].key in plan { ChangedIff(plan[t[i].key], t[i], now); }
  }

  /** The row agrees in type, sub type, creation and start with an active configured row that does not fit
      its schedule. */
  ghost predicate Hit(plan: Plan, t: Rows, id: nat, now: int)
    requires id in t
  {
    exists i :: MisfitRow(plan, t, i, now)
      && t[i].key.kind == t[id].key.kind && t[i].key.subType == t[id].key.subType
      && t[i].createdAt == t[id].createdAt && t[i].startAfter == t[id].startAfter
  }

  /** The table after a pass.  Exactly the rows that are hit are gone, the others untouched.  A new row is for
      a key without a row that fits, and starts now or at the next cron time; an old active one fits, so
      that with a positive interval each starts within that interval. */
  ghost predicate AsScheduled(plan: Plan, t: Rows, t': Rows, now: int)
  {
    && (forall id | id in t :: if Hit(plan, t, id, now) then id !in t' else id in t' && t'[id] == t[id])
    && (forall id | id in t' && id !in t :: NewAsScheduled(plan, t, t'[id], now))
    && (forall id | id in t' && id in t && (t'[id].status == Open || t'[id].status == InProgress) && t'[id].key in plan :: Fits(plan[t'[id].key], t'[id], now))
    && (forall id | id in t' && Active(t'[id]) && t'[id].key in plan ::
          var schedule := plan[t'[id].key];
          schedule.Interval? && schedule.seconds > 0 ==> Ms(t'[id].startAfter) < now + 1000 * schedule.seconds)
  }

  ghost predicate NewAsScheduled(plan: Plan, t: Rows, p: Periodic, now: int)
  {
    && p.status == Open && p.key in plan
    && p.startAfter == Some(match plan[p.key] case Interval(_) => now case Cron(next, _) => next(now))
    && forall i | i in t && Active(t[i]) && t[i].key == p.key :: !Fits(plan[p.key], t[i], now)
  }

  lemma AfterPass(plan: Plan, t: Rows, existing: map<Key, Group>, now: int, createdAt: int, t': Rows)
    requires AtMostOne(plan, t) && Pass(plan, t, existing, now, createdAt, t')
    ensures AsScheduled(plan, t, t', now)
  {
    forall id | id in t ensures if Hit(plan, t, id, now) then id !in t' else id in t' && t'[id] == t[id] {
      GoneIff(plan, t, existing, now, createdAt, t', id);
    }
    forall id | id in t' && id !in t ensures NewAsScheduled(plan, t, t'[id], now) {
      NewRowIsDue(plan, t, existing, now, createdAt, t', id);
    }
    forall id | id in t' && id in t && Active(t'[id]) && t'[id].key in plan ensures Fits(plan[t'[id].key], t'[id], now) {
      KeptRowFits(plan, t, existing, now, createdAt, t', t'[id].key, id);
      ChangedIff(plan[t'[id].key], t[id], now);
    }
  }

  lemma GoneIff(plan: Plan, t: Rows, existing: map<Key, Group>, now: int, createdAt: int, t': Rows, id: nat)
    requires AtMostOne(plan, t) && Pass(plan, t, existing, now, createdAt, t') && id in t
    ensures if Hit(plan, t, id, now) then id !in t' else id in t' && t'[id] == t[id]
  {
    DeletedIff(plan, t, existing, now, id);
    HitIff(plan, t, id, now);
  }

  lemma HitIff(plan: Plan, t: Rows, id: nat, now: int)
    requires id in t
    ensures Hit(plan, t, id, now) <==> exists i :: ChangedRow(plan, t, i, now) && Matches(t[id], GroupOf(t[i]))
  {
    if i :| ChangedRow(plan, t, i, now) && Matches(t[id], GroupOf(t[i])) {
      MisfitIsChanged(plan, t, i, now);
    }
    if Hit(plan, t, id, now) {
      var i :| MisfitRow(plan, t, i, now)
        && t[i].key.kind == t[id].key.kind && t[i].key.subType == t[id].key.subType
        && t[i].createdAt == t[id].createdAt && t[i].startAfter == t[id].startAfter;
      MisfitIsChanged(plan, t, i, now);
      assert ChangedRow(plan, t, i, now) && Matches(t[id], GroupOf(t[i]));
    }
  }

  lemma NewRowIsDue(plan: Plan, t: Rows, existing: map<Key, Group>, now: int, createdAt: int, t': Rows, id: nat)
    requires AtMostOne(plan, t) && Pass(plan, t, existing, now, createdAt, t') && id in t' && id !in t
    ensures NewAsScheduled(plan, t, t'[id], now)
  {
    var k := t'[id].key;
    forall i | i in t && Active(t[i]) && t[i].key == k ensures !Fits(plan[k], t[i], now) {
      assert ActiveFor(t, i, k) && k in existing;
      ExistingIsTheRow(plan, t, existing, k);
      assert existing[k] == GroupOf(t[i]);
      ChangedIff(plan[k], t[i], now);
    }
  }

  // ----- a second pass -----

  /** A row inserted at `now` fits its schedule at once. */
  predicate FitsAtOnce(schedule: Schedule, now: int, createdAt: int)
  {
    match schedule
    case Interval(seconds) => seconds > 0
    case Cron(next, offset) => Abs(next(createdAt) - next(now)) <= (ALLOWED_PERIODIC_SEC_DIFF + offset) * 1000
  }

  /** A second pass at the same time deletes and inserts nothing, if and only if the rows of the first
      one fit at once: positive intervals, and the database's creation time leads to about the same
      cron time as the time of the pass. */
  lemma SecondPassIsIdleIff(plan: Plan, t: Rows, existing: map<Key, Group>, now: int, createdAt: int, t': Rows,
                            existing': map<Key, Group>, createdAt': int, t'': Rows)
    requires AtMostOne(plan, t) && !Collateral(plan, t, now) && Pass(plan, t, existing, now, createdAt, t')
    requires Pass(plan, t', existing', now, createdAt', t'')
    ensures t'' == t' <==> forall k | k in KeysToInsert(plan, existing, now) :: FitsAtOnce(plan[k], now, createdAt)
  {
    ExactlyOneIff(plan, t, existing, now, createdAt, t');
    forall k | k in plan
      ensures k in KeysToInsert(plan, existing', now)
         <==> k in KeysToInsert(plan, existing, now) && !FitsAtOnce(plan[k], now, createdAt)
    {
      InsertedAgainIff(plan, t, existing, now, createdAt, t', existing', k);
    }
    IdleIff(plan, t', existing', now, createdAt', t'');
  }

  lemma IdleIff(plan: Plan, t: Rows, existing: map<Key, Group>, now: int, createdAt: int, t': Rows)
    requires Pass(plan, t, existing, now, createdAt, t')
    ensures t' == t <==> KeysToInsert(plan, existing, now) == {}
  {
    assert ChangedKeys(plan, existing, now) <= KeysToInsert(plan, existing, now);
    if k :| k in KeysToInsert(plan, existing, now) {
      var id :| id in t' && id !in t && t'[id].key == k;
      assert t' != t;
    } else {
      assert ChangedKeys(plan, existing, now) == {};
      assert t'.Keys == t.Keys;
    }
  }

  lemma InsertedAgainIff(plan: Plan, t: Rows, existing: map<Key, Group>, now: int, createdAt: int, t': Rows,
                         existing': map<Key, Group>, k: Key)
    requires AtMostOne(plan, t) && Pass(plan, t, existing, now, createdAt, t') && IsExisting(plan, t', existing')
    requires k in plan && ExactlyOne(t', k)
    ensures k in KeysToInsert(plan, existing', now)
       <==> k in KeysToInsert(plan, existing, now) && !FitsAtOnce(plan[k], now, createdAt)
  {
    var id :| ActiveFor(t', id, k);
    OneRowIsTheGroup(plan, t', existing', k, id);
    if id in t {
      KeptRowFits(plan, t, existing, now, createdAt, t', k, id);
    } else {
      assert t'[id] == NewRow(plan, k, now, createdAt);
    }
  }

  lemma OneRowIsTheGroup(plan: Plan, t: Rows, existing: map<Key, Group>, k: Key, id: nat)
    requires IsExisting(plan, t, existing) && k in plan && ExactlyOne(t, k) && ActiveFor(t, id, k)
    ensures k in existing && existing[k] == GroupOf(t[id])
  {
    var g := existing[k];
    var j :| InGroup(t, j, k, g.createdAt) && t[j].startAfter == g.startAfter;
    assert ActiveFor(t, j, k);
  }

  /** A row that a pass has kept fits its schedule. */
  lemma KeptRowFits(plan: Plan, t: Rows, existing: map<Key, Group>, now: int, createdAt: int, t': Rows, k: Key, id: nat)
    requires AtMostOne(plan, t) && Pass(plan, t, existing, now, createdAt, t') && k in plan
    requires ActiveFor(t', id, k) && id in t
    ensures k !in KeysToInsert(plan, existing, now) && t'[id] == t[id] && !Changed(plan[k], GroupOf(t'[id]), now)
  {
    assert ActiveFor(t, id, k);
    ExistingIsTheRow(plan, t, existing, k);
    assert existing[k] == GroupOf(t[id]);
    DeletedIff(plan, t, existing, now, id);
    assert Matches(t[id], GroupOf(t[id]));
    assert !ChangedRow(plan, t, id, now);
  }

  /** Rows that one pass inserts for two namespaces on the same schedule share creation and start. When
      the schedule of one is then changed, the next pass loses the row of the other. */
  lemma SharedCreationLosesARow(a: Key, b: Key, was: Schedule, later: Schedule, first: int, createdAt: int, now: int)
    requires a.kind == b.kind && a.subType == b.subType && a.namespace != b.namespace
    requires Changed(later, Group(a, createdAt, Some(FirstStart(was, first))), now)
    requires !Changed(was, Group(b, createdAt, Some(FirstStart(was, first))), now)
    ensures var before: Plan := map[a := was, b := was];
            var t: Rows := map[0 := NewRow(before, a, first, createdAt), 1 := NewRow(before, b, first, createdAt)];
            AtMostOne(map[a := later, b := was], t) && Collateral(map[a := later, b := was], t, now)
  {
    var before: Plan := map[a := was, b := was];
    var plan: Plan := map[a := later, b := was];
    var t: Rows := map[0 := NewRow(before, a, first, createdAt), 1 := NewRow(before, b, first, createdAt)];
    assert ChangedRow(plan, t, 0, now) && UnchangedRow(plan, t, 1, now) && Matches(t[1], GroupOf(t[0]));
  }

  // ----- the code -----

  /** The place of a group in the result of the SELECT. */
  datatype Spot = Spot(key: Key, createdAt: int)

  function Later(a: Option<int>, b: Option<int>): (r: Option<int>)
    ensures NotAfter(a, r) && NotAfter(b, r) && (r == a || r == b)
  {
    if NotAfter(a, b) then b else a
  }

  /** The groups of the rows `ids`. */
  ghost predicate Selected(plan: Plan, t: Rows, ids: set<nat>, groups: map<Spot, Option<int>>)
  {
    && (forall spot | spot in groups ::
          && spot.key in plan
          && (exists id :: id in ids && InGroup(t, id, spot.key, spot.createdAt) && t[id].startAfter == groups[spot])
          && (forall id | id in ids && InGroup(t, id, spot.key, spot.createdAt) && t[id].startAfter.Some? ::
                groups[spot].Some? && t[id].startAfter.value <= groups[spot].value))
    && (forall id | id in ids && id in t && Active(t[id]) && t[id].key in plan :: Spot(t[id].key, t[id].createdAt) in groups)
  }

  /** For every key among the groups looked at, one of them. */
  ghost predicate OneGroupEach(groups: map<Spot, Option<int>>, seen: set<Spot>, existing: map<Key, Group>)
  {
    && (forall k | k in existing ::
          var g := existing[k];
          g.key == k && Spot(k, g.createdAt) in groups && groups[Spot(k, g.createdAt)] == g.startAfter)
    && (forall spot | spot in seen :: spot.key in existing)
  }

  lemma SpotIsGroup(plan: Plan, t: Rows, groups: map<Spot, Option<int>>, g: Group)
    requires Selected(plan, t, t.Keys, groups) && Spot(g.key, g.createdAt) in groups && groups[Spot(g.key, g.createdAt)] == g.startAfter
    ensures g.key in plan && IsGroup(t, g)
  {
  }

  lemma GroupsAreExisting(plan: Plan, t: Rows, groups: map<Spot, Option<int>>, existing: map<Key, Group>)
    requires Selected(plan, t, t.Keys, groups) && OneGroupEach(groups, groups.Keys, existing)
    ensures IsExisting(plan, t, existing)
  {
    forall k | k in existing ensures k in plan && existing[k].key == k && IsGroup(t, existing[k]) {
      SpotIsGroup(plan, t, groups, existing[k]);
    }
    forall id | id in t && Active(t[id]) && t[id].key in plan ensures t[id].key in existing {
      assert Spot(t[id].key, t[id].createdAt) in groups;
    }
  }

  lemma SkipOne(plan: Plan, t: Rows, ids: set<nat>, groups: map<Spot, Option<int>>, id: nat)
    requires Selected(plan, t, ids, groups) && id in t && !(Active(t[id]) && t[id].key in plan)
    ensures Selected(plan, t, ids + {id}, groups)
  {
  }

  lemma SelectOneMore(plan: Plan, t: Rows, ids: set<nat>, groups: map<Spot, Option<int>>, id: nat)
    requires Selected(plan, t, ids, groups) && id in t && id !in ids && Active(t[id]) && t[id].key in plan
    ensures var spot := Spot(t[id].key, t[id].createdAt);
            Selected(plan, t, ids + {id}, groups[spot := if spot in groups then Later(groups[spot], t[id].startAfter) else t[id].startAfter])
  {
  }

  function Remaining(t: Rows, changed: set<Group>): Rows
  {
    map id | id in t && !Deleted(t[id], changed) :: t[id]
  }

  lemma RemainingAll(t: Rows)
    ensures Remaining(t, {}) == t
  {
  }

  lemma RemainingIsReplaced(plan: Plan, t: Rows, changed: set<Group>, now: int, createdAt: int)
    ensures Replaced(plan, t, changed, {}, now, createdAt, Remaining(t, changed))
  {
  }

  class PeriodicTable {
    const plan: Plan
    var rows: Rows

    constructor (plan: Plan, rows: Rows)
      ensures this.plan == plan && this.rows == rows
    {
      this.plan, this.rows := plan, rows;
    }

    /** The SELECT with its grouping. */
    method SelectCurrent() returns (groups: map<Spot, Option<int>>)
      ensures Selected(plan, rows, rows.Keys, groups)
    {
      groups := map[];
      var todo := rows.Keys;
      ghost var seen := {};
      while todo != {}
        invariant todo <= rows.Keys && seen == rows.Keys - todo
        invariant Selected(plan, rows, seen, groups)
      {
        var id :| id in todo;
        if Active(rows[id]) && rows[id].key in plan {
          SelectOneMore(plan, rows, seen, groups, id);
          var spot := Spot(rows[id].key, rows[id].createdAt);
          groups := groups[spot := if spot in groups then Later(groups[spot], rows[id].startAfter) else rows[id].startAfter];
        } else {
          SkipOne(plan, rows, seen, groups, id);
        }
        todo, seen := todo - {id}, seen + {id};
      }
      assert seen == rows.Keys;
    }

    /** One group a key; of several the last one counts. */
    method ExistingEvents(groups: map<Spot, Option<int>>) returns (existing: map<Key, Group>)
      requires Selected(plan, rows, rows.Keys, groups)
      ensures IsExisting(plan, rows, existing)
    {
      existing := map[];
      var todo := groups.Keys;
      while todo != {}
        invariant todo <= groups.Keys
        invariant OneGroupEach(groups, groups.Keys - todo, existing)
      {
        var spot :| spot in todo;
        existing := existing[spot.key := Group(spot.key, spot.createdAt, groups[spot])];
        todo := todo - {spot};
      }
      assert groups.Keys - todo == groups.Keys;
      GroupsAreExisting(plan, rows, groups, existing);
    }

    method DeleteMatching(changed: set<Group>)
      modifies this
      ensures rows == Remaining(old(rows), changed)
    {
      rows := Remaining(rows, changed);
    }

    /** One row for each key, under IDs that were never used (`used` holds those that were). */
    method InsertPeriodicEvents(keys: set<Key>, now: int, createdAt: int, ghost t: Rows, ghost changed: set<Group>, used: set<nat>)
      requires keys <= plan.Keys && rows.Keys <= used && t.Keys <= used
      requires Replaced(plan, t, changed, {}, now, createdAt, rows)
      modifies this
      ensures Replaced(plan, t, changed, keys, now, createdAt, rows)
    {
      var todo, taken := keys, used;
      while todo != {}
        invariant todo <= keys
        invariant rows.Keys <= taken && t.Keys <= taken
        invariant Replaced(plan, t, changed, keys - todo, now, createdAt, rows)
      {
        var k :| k in todo;
        var id := Unused(taken);
        ReplaceOneMore(plan, t, changed, keys - todo, now, createdAt, rows, k, id);
        rows := rows[id := NewRow(plan, k, now, createdAt)];
        assert keys - (todo - {k}) == keys - todo + {k};
        todo, taken := todo - {k}, taken + {id};
      }
      assert keys - todo == keys;
    }

    method CheckAndInsertPeriodicEvents(now: int, createdAt: int) returns (ghost existing: map<Key, Group>)
      modifies this
      ensures Pass(plan, old(rows), existing, now, createdAt, rows)
      ensures AtMostOne(plan, old(rows)) ==> AsScheduled(plan, old(rows), rows, now)
    {
      existing := Reconcile(now, createdAt);
      if AtMostOne(plan, old(rows)) { AfterPass(plan, old(rows), existing, now, createdAt, rows); }
    }

    method Reconcile(now: int, createdAt: int) returns (ghost existing: map<Key, Group>)
      modifies this
      ensures Pass(plan, old(rows), existing, now, createdAt, rows)
    {
      var used := rows.Keys;
      var groups := SelectCurrent();
      if groups == map[] {
        existing := map[];
        RemainingAll(rows);
        RemainingIsReplaced(plan, rows, {}, now, createdAt);
        InsertPeriodicEvents(plan.Keys, now, createdAt, rows, {}, used);
        assert KeysToInsert(plan, existing, now) == plan.Keys;
        return;
      }
      var found := ExistingEvents(groups);
      existing := found;
      var changed := ChangedGroups(plan, found, now);
      if changed != {} {
        DeleteMatching(changed);
      } else {
        RemainingAll(rows);
      }
      RemainingIsReplaced(plan, old(rows), changed, now, createdAt);
      InsertPeriodicEvents(KeysToInsert(plan, found, now), now, createdAt, old(rows), changed, used);
    }
  }

  method Unused(ids: set<nat>) returns (r: nat)
    ensures r !in ids
  {
    r := 0;
    var todo := ids;
    while todo != {}
      invariant todo <= ids && forall j | j in ids :: j in todo || j < r
    {
      var i :| i in todo;
      r := if i < r then r else i + 1;
      todo := todo - {i};
    }
  }

  lemma ReplaceOneMore(plan: Plan, t: Rows, changed: set<Group>, keys: set<Key>, now: int, createdAt: int, t': Rows, k: Key, id: nat)
    requires Replaced(plan, t, changed, keys, now, createdAt, t')
    requires k in plan && k !in keys && id !in t && id !in t'
    ensures Replaced(plan, t, changed, keys + {k}, now, createdAt, t'[id := NewRow(plan, k, now, createdAt)])
  {
    var t'' := t'[id := NewRow(plan, k, now, createdAt)];
    forall q | q in keys + {k} ensures exists i :: i in t'' && i !in t && t''[i].key == q {
      if q == k {
        assert t''[id].key == q;
      } else {
        var i :| i in t' && i !in t && t'[i].key == q;
        assert t''[i].key == q;
      }
    }
  }
}
