/** One processor at work (`src/EventQueueProcessorBase.js`, `src/processEventQueue.js`): the
    object whose maps the methods update, and one full iteration over a claimed chunk. */
module Processor {
  import opened EventTable
  import opened StatusReports
  import opened RowProtocol
  import opened ChunkOutcome
  import opened Collections

  /** The event table, shared by reference. */
  class Store {
    var rows: Table

    constructor (rows: Table)
      ensures this.rows == rows
    {
      this.rows := rows;
    }
  }

  /** From `before` to `after` only selected rows changed, and those carry the stamp `now` and an allowed
      status. */
  ghost predicate Touched(before: Table, after: Table, selected: set<Id>, now: int)
  {
    && after.Keys == before.Keys
    && forall e | e in before ::
         || after[e] == before[e]
         || (e in selected && after[e].lastAttempt == Some(now) && AllowedStatus(after[e].status))
  }

  /** Every row is as if written on its own, up to its start time. */
  ghost predicate WrittenAs(before: Table, after: Table, writes: map<Id, Update>, now: int, cfg: Config)
  {
    after.Keys == before.Keys && forall e | e in after :: SameWrite(after[e], WriteRows(before, writes, now, cfg)[e])
  }

  lemma WrittenIsTouched(before: Table, after: Table, m: StatusMap, selected: set<Id>, now: int, cfg: Config)
    requires WrittenAs(before, after, Writes(m, selected), now, cfg)
    requires forall e | e in before && e !in Writes(m, selected) :: after[e] == before[e]
    ensures Touched(before, after, selected, now)
  {
  }

  lemma WrittenIsPut(before: Table, after: Table, m: StatusMap, selected: set<Id>, now: int, cfg: Config)
    requires WrittenAs(before, after, Writes(m, selected), now, cfg)
    ensures Put(before, after, StatusesOf(m, selected))
  {
  }

  /** Which transactions of an iteration fail to commit, besides those of the clusters: that of the
      rows set to Exceeded without a hook, those of the hooks, the one around the clusters and the
      final status write. */
  datatype Failures = Failures(last: bool, hook: Id -> bool, chunk: bool, finalWrite: bool)

  /** The rows whose hook transaction commits: the first that fails ends the iteration. */
  function HooksReached(entries: seq<Id>, fails: Id -> bool): set<Id>
  {
    set i | 0 <= i < |entries| && NoneFails(entries, i + 1, fails) :: entries[i]
  }

  /** The first `n` commit. */
  predicate NoneFails(entries: seq<Id>, n: nat, fails: Id -> bool)
    requires n <= |entries|
  {
    forall k | 0 <= k < n :: !fails(entries[k])
  }

  function Elements(s: seq<Id>): set<Id>
  {
    set i | 0 <= i < |s| :: s[i]
  }

  function KindIn(rows: Table, base: int, cfg: Config): Id -> Option<Kind>
  {
    (e: Id) => if e in rows then Some(KindOf(rows[e], base, cfg)) else None
  }

  /** The entries of `s` of one kind, in order. */
  function PickKind(s: seq<Id>, rows: Table, kind: Kind, base: int, cfg: Config): seq<Id>
  {
    Pick(s, KindIn(rows, base, cfg), Some(kind))
  }

  lemma {:induction false} PickIsOfKind(s: seq<Id>, rows: Table, kind: Kind, base: int, cfg: Config)
    ensures Elements(PickKind(s, rows, kind, base, cfg)) == OfKind(rows, Elements(s), kind, base, cfg)
  {
    if s != [] {
      var front, e := s[..|s| - 1], s[|s| - 1];
      PickIsOfKind(front, rows, kind, base, cfg);
      ElementsAppend(front, e);
      assert front + [e] == s;
      ElementsAppend(PickKind(front, rows, kind, base, cfg), e);
    }
  }

  lemma ElementsAppend(s: seq<Id>, e: Id)
    ensures Elements(s + [e]) == Elements(s) + {e}
  {
    var t := s + [e];
    assert forall i | 0 <= i < |s| :: t[i] == s[i];
    forall x | x in Elements(s) + {e} ensures x in Elements(t) {
      if x == e { assert t[|s|] == e; } else { var i :| 0 <= i < |s| && s[i] == x; assert t[i] == x; }
    }
  }

  lemma PicksAreNewProc(s: seq<Id>, rows: Table, base: int, now: int, cfg: Config)
    requires forall i | 0 <= i < |s| :: s[i] in rows
    ensures var p := NewProc(rows, Elements(s), base, now, cfg);
            var ready := Elements(PickKind(s, rows, Ready, base, cfg));
            var hooks := Elements(PickKind(s, rows, ExceededTries, base, cfg));
            var last := Elements(PickKind(s, rows, ExceededTriesExceeded, base, cfg));
            && ready == p.ready && hooks == p.hooks && last == p.last
            && ready + hooks + last == p.seen.Keys && ready !! hooks + last && hooks !! last
            && Elements(PickKind(s, rows, Delayed, base, cfg)) == Elements(s) - p.seen.Keys
            && p.etag == (map e | e in ready :: now)
            && forall e | e in p.seen :: e in rows && ClaimRows(rows, p.seen.Keys, now)[e].status == InProgress
  {
    PickIsOfKind(s, rows, Ready, base, cfg);
    PickIsOfKind(s, rows, ExceededTries, base, cfg);
    PickIsOfKind(s, rows, ExceededTriesExceeded, base, cfg);
    PickIsOfKind(s, rows, Delayed, base, cfg);
  }

  class EventProcessor {
    const cfg: Config
    const isolated: bool
    /** How the grouping prints the further fields of a report. */
    const printed: Report -> string

    var queueEntries: seq<Id>
    var selected: set<Id>
    var exceededTries: seq<Id>
    var exceededTriesExceeded: seq<Id>
    var delayed: seq<Id>
    var withPayload: set<Id>
    var statusMap: StatusMap
    var committed: set<Id>
    var notCommitted: set<Id>
    var outdated: set<Id>
    var etag: map<Id, int>
    var violated: bool

    constructor (cfg: Config, isolated: bool, printed: Report -> string)
      ensures this.cfg == cfg && this.isolated == isolated && this.printed == printed
      ensures Fresh()
    {
      this.cfg, this.isolated, this.printed := cfg, isolated, printed;
      queueEntries, selected, exceededTries, exceededTriesExceeded, delayed := [], {}, [], [], [];
      withPayload, statusMap, committed, notCommitted, outdated := {}, map[], {}, {}, {};
      etag, violated := map[], false;
    }

    ghost predicate Fresh()
      reads this
    {
      && queueEntries == [] && selected == {} && exceededTries == [] && exceededTriesExceeded == [] && delayed == []
      && withPayload == {} && statusMap == map[] && committed == {} && notCommitted == {} && outdated == {}
      && etag == map[] && !violated
    }

    /** Right after the claim: all selected rows are in progress. */
    ghost predicate Claimed(db: Store)
      reads this, db
    {
      && selected == Elements(queueEntries) + Elements(exceededTries) + Elements(exceededTriesExceeded)
      && Elements(queueEntries) !! Elements(exceededTries) + Elements(exceededTriesExceeded)
      && Elements(exceededTries) !! Elements(exceededTriesExceeded)
      && forall e | e in selected :: e in db.rows && db.rows[e].status == InProgress
    }

    ghost function WorkFor(check: Id -> Check, clustering: Clustering, outcomes: nat -> Outcome, hookOk: Id -> bool): Work
      reads this
    {
      Work(Elements(queueEntries), Elements(exceededTries), Elements(exceededTriesExceeded), check, clustering, outcomes, hookOk)
    }

    /** What the keep-alive works on. */
    ghost function KeepView(): Proc
      reads this
    {
      Proc(0, map[], {}, {}, {}, {}, etag, notCommitted, {}, {}, map[], outdated, violated, {}, {}, true)
    }

    // ----- claiming a chunk -----

    method ClusterEvents(entries: seq<Id>, rows: Table, base: int)
      returns (ready: seq<Id>, exceeded: seq<Id>, last: seq<Id>, late: seq<Id>)
      requires forall i | 0 <= i < |entries| :: entries[i] in rows
      ensures ready == PickKind(entries, rows, Ready, base, cfg)
      ensures exceeded == PickKind(entries, rows, ExceededTries, base, cfg)
      ensures last == PickKind(entries, rows, ExceededTriesExceeded, base, cfg)
      ensures late == PickKind(entries, rows, Delayed, base, cfg)
    {
      ready, exceeded, last, late := [], [], [], [];
      for i := 0 to |entries|
        invariant ready == PickKind(entries[..i], rows, Ready, base, cfg)
        invariant exceeded == PickKind(entries[..i], rows, ExceededTries, base, cfg)
        invariant last == PickKind(entries[..i], rows, ExceededTriesExceeded, base, cfg)
        invariant late == PickKind(entries[..i], rows, Delayed, base, cfg)
      {
        var e := entries[i];
        var row := rows[e];
        assert entries[..i + 1][..i] == entries[..i];
        if row.attempts == cfg.retryAttempts + TRIES_FOR_EXCEEDED_EVENTS {
          last := last + [e];
        } else if row.attempts >= cfg.retryAttempts {
          exceeded := exceeded + [e];
        } else if row.startAfter.Some? && !(base + EVENT_START_AFTER_HEADROOM >= row.startAfter.value) {
          late := late + [e];
        } else {
          ready := ready + [e];
        }
      }
      assert entries[..|entries|] == entries;
    }

    /** The update of the claim and the bookkeeping that goes with it. */
    method SetToInProgress(db: Store, ready: seq<Id>, exceeded: seq<Id>, last: seq<Id>, now: int)
      modifies this`selected, this`exceededTries, this`exceededTriesExceeded, this`queueEntries
      modifies this`notCommitted, this`etag, db
      ensures selected == Elements(ready) + Elements(exceeded) + Elements(last)
      ensures queueEntries == ready && exceededTries == exceeded && exceededTriesExceeded == last
      ensures notCommitted == Elements(ready) && etag == map e | e in Elements(ready) :: now
      ensures db.rows == ClaimRows(old(db.rows), selected, now)
    {
      selected := Elements(ready) + Elements(exceeded) + Elements(last);
      exceededTries, exceededTriesExceeded := exceeded, last;
      db.rows := ClaimRows(db.rows, selected, now);
      queueEntries := ready;
      notCommitted := Elements(ready);
      etag := map e | e in Elements(ready) :: now;
    }

    /** The claim: `entries` is what the select returned at `base`, `now` the time of the update.
        The object ends up as the new processor of the row protocol. */
    method GetQueueEntriesAndSetToInProgress(db: Store, entries: seq<Id>, base: int, now: int)
      requires Fresh() && forall i | 0 <= i < |entries| :: entries[i] in db.rows
      modifies this, db
      ensures var p := NewProc(old(db.rows), Elements(entries), base, now, cfg);
              && db.rows == ClaimRows(old(db.rows), p.seen.Keys, now)
              && selected == p.seen.Keys
              && Elements(queueEntries) == p.ready && notCommitted == p.ready && etag == p.etag
              && Elements(exceededTries) == p.hooks && Elements(exceededTriesExceeded) == p.last
              && Elements(delayed) == Elements(entries) - p.seen.Keys
      ensures Claimed(db) && statusMap == map[] && withPayload == {} && committed == {} && outdated == {}
    {
      var ready, exceeded, last, late := ClusterEvents(entries, db.rows, base);
      PicksAreNewProc(entries, db.rows, base, now, cfg);
      delayed := late;
      SetToInProgress(db, ready, exceeded, last, now);
    }

    // ----- the keep-alive -----

    /** The comparison loop over the rows the select returned. */
    static method CompareTags(rows: Table, events: set<Id>, tags: map<Id, int>, now: int)
      returns (valid: set<Id>, newTags: map<Id, int>)
      requires events <= tags.Keys && events <= rows.Keys
      ensures valid == set e | e in events && rows[e].lastAttempt == Some(tags[e])
      ensures newTags == map e | e in tags :: if e in valid then now else tags[e]
    {
      valid, newTags := {}, tags;
      var todo := events;
      while todo != {}
        invariant todo <= events && valid !! todo
        invariant valid == set e | e in events - todo && rows[e].lastAttempt == Some(tags[e])
        invariant newTags == map e | e in tags :: if e in valid then now else tags[e]
        decreases |todo|
      {
        var e :| e in todo;
        todo := todo - {e};
        if Some(newTags[e]) == rows[e].lastAttempt {
          valid := valid + {e};
          newTags := newTags[e := now];
        }
      }
    }

    method KeepAlive(db: Store, now: int)
      requires notCommitted <= etag.Keys
      modifies this`etag, this`outdated, this`violated, db
      ensures db.rows == KeepAliveRows(old(db.rows), old(KeepView()), now)
      ensures KeepView() == AfterKeepAlive(old(db.rows), old(KeepView()), now)
    {
      ghost var view := KeepView();
      if violated { return; }
      var events := set e | e in notCommitted && e in db.rows && db.rows[e].status == InProgress;
      assert events == Watched(db.rows, view);
      var valid, tags := CompareTags(db.rows, events, etag, now);
      assert valid == Valid(db.rows, view);
      var stale := events - valid;
      etag := tags;
      if stale != {} {
        violated := true;
        outdated := outdated + stale;
      }
      db.rows := RefreshRows(db.rows, valid, now);
    }

    // ----- reports -----

    /** `setEventStatus`: the tuples one by one; the first that throws sets all entries to Error. */
    method CollectReports(m: StatusMap, entries: set<Id>, answer: Answer) returns (r: StatusMap)
      ensures r == SetEventStatus(m, entries, answer)
    {
      if !answer.Tuples? { return AddErrors(m, entries); }
      var tuples := answer.tuples;
      r := m;
      for i := 0 to |tuples|
        invariant AddReports(r, tuples[i..]) == AddReports(m, tuples)
      {
        assert tuples[i..][1..] == tuples[i + 1..];
        var c := if tuples[i].Malformed? then None else Combine(Lookup(r, tuples[i].id), tuples[i].report);
        if c.None? { return AddErrors(r, entries); }
        r := r[tuples[i].id := c.value];
      }
    }

    /** The status write: unknown ids and disallowed statuses are dropped, the rest is written in
        groups.  The bookkeeping is done before the transaction commits, also if it `fails`. */
    method PersistEventStatus(db: Store, m: StatusMap, now: int, fails: bool)
      requires !HasNull(m)
      modifies this`committed, this`notCommitted, db
      ensures committed == old(committed) + Writes(m, selected).Keys
      ensures notCommitted == old(notCommitted) - Writes(m, selected).Keys
      ensures db.rows.Keys == old(db.rows.Keys)
      ensures fails ==> db.rows == old(db.rows)
      ensures !fails ==> WrittenAs(old(db.rows), db.rows, Writes(m, selected), now, cfg)
      ensures !fails && PrintedApart(ToData(m)) ==> db.rows == WriteRows(old(db.rows), Writes(m, selected), now, cfg)
      ensures !fails ==> Restarts(old(db.rows), db.rows, ToData(m), now)
      ensures Touched(old(db.rows), db.rows, selected, now)
    {
      var data := ToData(m);
      committed := committed + data.Keys;
      notCommitted := notCommitted - data.Keys;
      if !fails {
        var rows := WriteReports(db.rows, m, now);
        WrittenIsTouched(db.rows, rows, m, selected, now, cfg);
        db.rows := rows;
      }
    }

    method WriteReports(rows: Table, m: StatusMap, now: int) returns (after: Table)
      ensures WrittenAs(rows, after, Writes(m, selected), now, cfg)
      ensures forall e | e in rows && e !in Writes(m, selected) :: after[e] == rows[e]
      ensures PrintedApart(ToData(m)) ==> after == WriteRows(rows, Writes(m, selected), now, cfg)
      ensures Restarts(rows, after, ToData(m), now)
    {
      after := PersistGrouped(rows, ToData(m), now, cfg);
    }

    /** Every written row has the start time its status calls for. */
    ghost predicate Restarts(before: Table, after: Table, data: map<Id, Data>, now: int)
    {
      forall e | e in before && e in after && e in data ::
        StartsLike(data, GroupKey, before[e].startAfter, after[e].startAfter, data[e], now, cfg)
    }

    /** Normalized entries of the map, for the ids and statuses that are kept. */
    function ToData(m: StatusMap): (data: map<Id, Data>)
      reads this
      ensures Updates(data) == Writes(m, selected) && data.Keys == Writes(m, selected).Keys
      ensures forall e | e in data :: m[e].Object? && data[e].update.startAfter == m[e].startAfter
    {
      map id | id in m && id in selected && UpdateOf(m[id]).Some? ::
        Data(UpdateOf(m[id]).value, printed(m[id]), "", "")
    }

    /** The status map with Done for every entry that nobody said anything about. */
    function EnsureEveryQueueEntryHasStatus(): (m: StatusMap)
      reads this
      ensures forall e | e in Elements(queueEntries) && e !in committed && e !in outdated :: e in m
      ensures forall e | e in m :: if e in statusMap then m[e] == statusMap[e] else m[e] == DONE_REPORT
    {
      statusMap + map e | e in Elements(queueEntries) - statusMap.Keys - committed - outdated :: DONE_REPORT
    }

    // ----- one iteration -----

    ghost predicate Settled(db: Store, e: Id)
      reads db
    {
      e in db.rows && AllowedStatus(db.rows[e].status)
    }

    method Preprocess(check: Id -> Check)
      requires statusMap == map[] && withPayload == {}
      modifies this`statusMap, this`withPayload
      ensures withPayload == set e | e in Elements(queueEntries) && check(e) == Payload
      ensures statusMap == CheckMap(Elements(queueEntries), check)
    {
      for i := 0 to |queueEntries|
        invariant withPayload == set e | e in Elements(queueEntries[..i]) && check(e) == Payload
        invariant statusMap == CheckMap(Elements(queueEntries[..i]), check)
      {
        var e := queueEntries[i];
        assert queueEntries[..i + 1] == queueEntries[..i] + [e];
        ElementsAppend(queueEntries[..i], e);
        CheckOneMore(Elements(queueEntries[..i]), check, e);
        match check(e)
        case Payload => withPayload := withPayload + {e};
        case NullPayload => AddReport(e, DONE_REPORT);
        case UndefinedPayload => AddReport(e, ERROR_REPORT);
        case CheckThrows => AddReport(e, ERROR_REPORT);
      }
      assert queueEntries[..|queueEntries|] == queueEntries;
    }

    method AddReport(e: Id, report: Report)
      requires report == DONE_REPORT || report == ERROR_REPORT
      requires e in statusMap ==> statusMap[e] == report
      modifies this`statusMap
      ensures statusMap == old(statusMap)[e := report]
    {
      statusMap := statusMap[e := Combine(Lookup(statusMap, e), report).value];
    }

    /** An exception around the whole chunk: Error for every entry. */
    method AddErrorsForAll()
      modifies this`statusMap
      ensures statusMap == AddErrors(old(statusMap), Elements(queueEntries))
    {
      statusMap := AddErrors(statusMap, Elements(queueEntries));
    }

    /** The write, seen from the iteration: what it reaches gets its status, the rest keeps the one it had. */
    method Write(db: Store, m: StatusMap, now: int, fails: bool)
      requires !HasNull(m)
      modifies this`committed, this`notCommitted, db
      ensures committed == old(committed) + Writes(m, selected).Keys
      ensures Touched(old(db.rows), db.rows, selected, now)
      ensures Put(old(db.rows), db.rows, if fails then map[] else StatusesOf(m, selected))
    {
      PersistEventStatus(db, m, now, fails);
      if !fails { WrittenIsPut(old(db.rows), db.rows, m, selected, now, cfg); }
    }

    method HandleExceeded(db: Store, e: Id, ok: bool, now: int, fails: bool)
      requires e in selected && e in db.rows
      modifies this`committed, this`notCommitted, db
      ensures Touched(old(db.rows), db.rows, selected, now)
      ensures Put(old(db.rows), db.rows, if fails then map[] else map[e := if ok then Exceeded else Error])
      ensures committed == old(committed) + {e}
    {
      var m := map[e := if ok then Object(Some(4), None) else ERROR_REPORT];
      assert Writes(m, selected) == map[e := Update(if ok then Exceeded else Error, None)];
      Write(db, m, now, fails);
    }

    method HandleExceededTriesExceeded(db: Store, now: int, fails: bool) returns (ok: bool)
      requires Claimed(db)
      modifies this`committed, this`notCommitted, db
      ensures Touched(old(db.rows), db.rows, selected, now)
      ensures ok <==> exceededTriesExceeded == [] || !fails
      ensures Put(old(db.rows), db.rows, if ok then map e | e in Elements(exceededTriesExceeded) :: Exceeded else map[])
      ensures committed <= old(committed) + Elements(exceededTriesExceeded)
    {
      if exceededTriesExceeded == [] { return true; }
      var m := map e | e in Elements(exceededTriesExceeded) :: Object(Some(4), None);
      ExceededStatuses(Elements(exceededTriesExceeded), selected);
      Write(db, m, now, fails);
      return !fails;
    }

    /** The hooks, one transaction each; a hook that fails sets the row to Error in a new one. A
        transaction that does not commit ends the iteration. */
    method RunHooks(db: Store, hookOk: Id -> bool, now: int, fails: Id -> bool) returns (ok: bool)
      requires forall i | 0 <= i < |exceededTries| :: exceededTries[i] in selected && exceededTries[i] in db.rows
      modifies this`committed, this`notCommitted, db
      ensures Touched(old(db.rows), db.rows, selected, now)
      ensures ok <==> NoneFails(exceededTries, |exceededTries|, fails)
      ensures Put(old(db.rows), db.rows, HookPuts(HooksReached(exceededTries, fails), hookOk))
      ensures committed <= old(committed) + Elements(exceededTries)
    {
      for i := 0 to |exceededTries|
        invariant Touched(old(db.rows), db.rows, selected, now)
        invariant NoneFails(exceededTries, i, fails)
        invariant Put(old(db.rows), db.rows, HookPuts(Elements(exceededTries[..i]), hookOk))
        invariant committed <= old(committed) + Elements(exceededTries)
      {
        var e := exceededTries[i];
        HandleExceeded(db, e, hookOk(e), now, fails(e));
        assert exceededTries[..i + 1] == exceededTries[..i] + [e];
        if fails(e) {
          ReachedUntil(exceededTries, i, fails);
          return false;
        }
        ElementsAppend(exceededTries[..i], e);
      }
      ReachedUntil(exceededTries, |exceededTries|, fails);
      assert exceededTries[..|exceededTries|] == exceededTries;
      return true;
    }

    method HandleExceededEvents(db: Store, hookOk: Id -> bool, now: int, failures: Failures) returns (ok: bool)
      requires Claimed(db)
      modifies this`committed, this`notCommitted, db
      ensures Touched(old(db.rows), db.rows, selected, now)
      ensures ok <==> ExceededCommit(failures)
      ensures Put(old(db.rows), db.rows, ExceededPuts(hookOk, failures))
      ensures committed <= old(committed) + Elements(exceededTriesExceeded) + Elements(exceededTries)
    {
      assert forall i | 0 <= i < |exceededTries| :: exceededTries[i] in Elements(exceededTries);
      ok := HandleExceededTriesExceeded(db, now, failures.last);
      if !ok { return; }
      ghost var rows := db.rows;
      ok := RunHooks(db, hookOk, now, failures.hook);
      PutTwice(old(db.rows), rows, db.rows, map e | e in Elements(exceededTriesExceeded) :: Exceeded,
               HookPuts(HooksReached(exceededTries, failures.hook), hookOk));
    }

    ghost predicate ExceededCommit(failures: Failures)
      reads this
    {
      (exceededTriesExceeded == [] || !failures.last) && NoneFails(exceededTries, |exceededTries|, failures.hook)
    }

    ghost function ExceededReached(failures: Failures): set<Id>
      reads this
    {
      if exceededTriesExceeded != [] && failures.last then {}
      else Elements(exceededTriesExceeded) + HooksReached(exceededTries, failures.hook)
    }

    /** The rows in their last try are Exceeded, the others too or, after a hook that fails, Error. */
    ghost function ExceededPuts(hookOk: Id -> bool, failures: Failures): map<Id, Status>
      reads this
    {
      if exceededTriesExceeded != [] && failures.last then map[]
      else (map e | e in Elements(exceededTriesExceeded) :: Exceeded) + HookPuts(HooksReached(exceededTries, failures.hook), hookOk)
    }

    /** What the handler of a cluster reports; an exception is also noted for the final write. */
    method ClusterReports(cluster: set<Id>, outcome: Outcome) returns (m: StatusMap)
      modifies this`statusMap
      ensures m == ReportsOf(cluster, outcome)
      ensures statusMap == if outcome.threw then AddErrors(old(statusMap), cluster) else old(statusMap)
    {
      if outcome.threw {
        statusMap := AddErrors(statusMap, cluster);
        m := map e | e in cluster :: ERROR_REPORT;
      } else {
        m := CollectReports(map[], cluster, outcome.answer);
      }
    }

    /** One cluster in isolated mode.  The status is written in the handler's transaction, or in a
        new one after a rollback; `rejected` says that the transaction failed. */
    method ProcessIsolated(db: Store, cluster: set<Id>, outcome: Outcome, now: int) returns (rejected: bool)
      modifies this`statusMap, this`committed, this`notCommitted, db
      ensures Touched(old(db.rows), db.rows, selected, now)
      ensures statusMap == if outcome.threw then AddErrors(old(statusMap), cluster) else old(statusMap)
      ensures rejected <==> Rejects(cluster, outcome)
      ensures rejected ==> db.rows == old(db.rows)
      ensures !rejected ==> WrittenAs(old(db.rows), db.rows, Writes(ReportsOf(cluster, outcome), selected), now, cfg)
      ensures Put(old(db.rows), db.rows, ClusterPuts(cluster, outcome, selected))
      ensures old(committed) <= committed
      ensures !rejected ==> committed == old(committed) + ClusterPuts(cluster, outcome, selected).Keys
    {
      var m := ClusterReports(cluster, outcome);
      if HasNull(m) { return true; }
      // After an Error or on demand the handler's transaction is rolled back and a new one writes.
      PersistEventStatus(db, m, now, outcome.commitFails);
      if !outcome.commitFails { WrittenIsPut(old(db.rows), db.rows, m, selected, now, cfg); }
      return outcome.commitFails;
    }

    /** One cluster outside isolated mode: its reports are noted for the final write. */
    method ProcessShared(cluster: set<Id>, outcome: Outcome)
      modifies this`statusMap
      ensures statusMap == OutcomeMap(old(statusMap), cluster, outcome)
    {
      if outcome.threw {
        statusMap := AddErrors(statusMap, cluster);
      } else {
        statusMap := CollectReports(statusMap, cluster, outcome.answer);
      }
    }

    method ProcessClusters(db: Store, clusters: seq<set<Id>>, outcomes: nat -> Outcome, now: int)
      requires Plain(statusMap) && committed !! Elements(queueEntries)
      modifies this`statusMap, this`committed, this`notCommitted, db
      ensures Touched(old(db.rows), db.rows, selected, now)
      ensures isolated ==> Put(old(db.rows), db.rows, ClustersPut(clusters, outcomes, selected))
      ensures isolated ==> Noted(old(statusMap), statusMap, Elements(queueEntries), AnyRejects(clusters, outcomes), clusters, outcomes)
      ensures isolated ==> forall e | e in Elements(queueEntries) && e in committed ::
                e in statusMap || e in ClustersPut(clusters, outcomes, selected)
      ensures isolated ==> ClustersPut(clusters, outcomes, selected).Keys <= committed
      ensures !isolated ==> db.rows == old(db.rows) && committed == old(committed)
      ensures !isolated ==> statusMap == SharedMap(old(statusMap), clusters, outcomes)
    {
      var rejected := false;
      for i := 0 to |clusters|
        invariant Touched(old(db.rows), db.rows, selected, now)
        invariant isolated ==> Put(old(db.rows), db.rows, ClustersPut(clusters[..i], outcomes, selected))
        invariant isolated && !rejected ==> forall e | e in Elements(queueEntries) && e in committed ::
                    e in ClustersPut(clusters[..i], outcomes, selected)
        invariant isolated ==> (rejected <==> AnyRejects(clusters[..i], outcomes))
        invariant isolated ==> Noted(old(statusMap), statusMap, Elements(queueEntries), false, clusters[..i], outcomes)
        invariant isolated ==> ClustersPut(clusters[..i], outcomes, selected).Keys <= committed
        invariant !isolated ==> db.rows == old(db.rows) && committed == old(committed) && !rejected
        invariant !isolated ==> statusMap == SharedMap(old(statusMap), clusters[..i], outcomes)
      {
        assert clusters[..i + 1][..i] == clusters[..i];
        if isolated {
          ghost var before, noted := db.rows, statusMap;
          var r := ProcessIsolated(db, clusters[i], outcomes(i), now);
          TouchedTwice(old(db.rows), before, db.rows, selected, now);
          PutTwice(old(db.rows), before, db.rows, ClustersPut(clusters[..i], outcomes, selected),
                   ClusterPuts(clusters[i], outcomes(i), selected));
          NotedOneMore(old(statusMap), noted, statusMap, Elements(queueEntries), clusters, i, outcomes);
          rejected := rejected || r;
        } else {
          ProcessShared(clusters[i], outcomes(i));
        }
      }
      assert clusters[..|clusters|] == clusters;
      if rejected {
        NotedForAll(old(statusMap), statusMap, Elements(queueEntries), clusters, outcomes);
        AddErrorsForAll();
      }
    }

    method ProcessChunk(db: Store, clustering: Clustering, outcomes: nat -> Outcome, now: int)
      requires Plain(statusMap) && committed !! Elements(queueEntries)
      modifies this`statusMap, this`committed, this`notCommitted, db
      ensures Touched(old(db.rows), db.rows, selected, now)
      ensures isolated ==> Put(old(db.rows), db.rows, ChunkPuts(clustering, outcomes, selected))
      ensures isolated ==> NotedAtEnd(old(statusMap), statusMap, Elements(queueEntries), clustering, outcomes)
      ensures isolated ==> forall e | e in Elements(queueEntries) && e !in statusMap ::
                e in committed <==> e in ChunkPuts(clustering, outcomes, selected)
      ensures !isolated ==> db.rows == old(db.rows) && committed == old(committed)
      ensures !isolated ==> statusMap == ChunkMap(old(statusMap), Elements(queueEntries), clustering, outcomes)
    {
      match clustering {
        case ClusteringThrows => AddErrorsForAll();
        case Clusters(clusters) => ProcessClusters(db, clusters, outcomes, now);
      }
    }

    /** The final transaction of the iteration. */
    method PersistAll(db: Store, now: int, fails: bool) returns (completed: bool)
      modifies this`statusMap, this`committed, this`notCommitted, db
      ensures Touched(old(db.rows), db.rows, selected, now)
      ensures completed <==> !fails && !HasNull(old(statusMap))
      ensures Put(old(db.rows), db.rows,
                  if completed then StatusesOf(LastMap(old(statusMap), Elements(queueEntries), old(committed) + outdated), selected)
                  else map[])
    {
      var m := EnsureEveryQueueEntryHasStatus();
      assert m == LastMap(statusMap, Elements(queueEntries), committed + outdated);
      LastMapNull(statusMap, Elements(queueEntries), committed + outdated);
      if HasNull(m) { return false; }
      statusMap := m;
      Write(db, m, now, fails);
      return !fails;
    }

    ghost predicate RestCommits(payload: bool, failures: Failures)
    {
      !(payload && failures.chunk) && !failures.finalWrite
    }

    /** The handlers and the final write. */
    method HandleEntries(db: Store, clustering: Clustering, outcomes: nat -> Outcome, now: int, failures: Failures, ghost w: Work)
      returns (completed: bool)
      requires w.entries == Elements(queueEntries) && w.clustering == clustering && w.outcomes == outcomes
      requires statusMap == CheckMap(w.entries, w.check) && (withPayload != {} <==> AnyPayload(w))
      requires committed !! Elements(queueEntries) && outdated == {}
      requires forall e | e in selected :: e in db.rows && db.rows[e].status == HookStatus(w, e)
      modifies this`statusMap, this`committed, this`notCommitted, db
      ensures Touched(old(db.rows), db.rows, selected, now)
      ensures completed <==> RestCommits(AnyPayload(w), failures) && (isolated || !NullReported(w))
      ensures forall e | e in selected :: e in db.rows &&
                db.rows[e].status == if completed then EndStatus(isolated, w, selected, e) else HandledStatus(isolated, w, selected, e)
    {
      ghost var puts := map[];
      PlainChecks(w);
      if withPayload != {} {
        ProcessChunk(db, clustering, outcomes, now);
        puts := if isolated then ChunkPuts(clustering, outcomes, selected) else map[];
        if failures.chunk { return false; }
      }
      ghost var rows, m, written := db.rows, statusMap, committed;
      assert written + outdated == written;
      completed := PersistAll(db, now, failures.finalWrite);
      HandledIsEnd(isolated, w, selected, m, written, puts);
      PutTwice(old(db.rows), rows, db.rows, puts, if completed then StatusesOf(LastMap(m, w.entries, written), selected) else map[]);
    }

    /** Everything after the preparation. */
    method HandleChunk(db: Store, clustering: Clustering, outcomes: nat -> Outcome, hookOk: Id -> bool, now: int,
                       failures: Failures, ghost w: Work) returns (completed: bool)
      requires Claimed(db) && committed == {} && outdated == {} && w == WorkFor(w.check, clustering, outcomes, hookOk)
      requires statusMap == CheckMap(w.entries, w.check) && (withPayload != {} <==> AnyPayload(w))
      modifies this`statusMap, this`committed, this`notCommitted, db
      ensures Touched(old(db.rows), db.rows, selected, now)
      ensures completed <==> ExceededCommit(failures) && RestCommits(AnyPayload(w), failures) && (isolated || !NullReported(w))
      ensures forall e | e in selected :: e in db.rows &&
                db.rows[e].status == StatusAfter(isolated, w, selected, ExceededCommit(failures), completed, ExceededReached(failures), e)
    {
      completed := HandleExceededEvents(db, hookOk, now, failures);
      ExceededIsHookStatus(failures, w);
      if !completed { return; }
      completed := HandleEntries(db, clustering, outcomes, now, failures, w);
    }

    /** One iteration over a claimed chunk: which of its rows end with which status, for every mode, whatever
        the checks say, however the chunk is clustered, whatever the handlers and hooks do and whichever
        transactions fail.  In isolated mode nothing claimed is left behind: the iteration completes
        unless one of its own transactions fails, and then every row it claimed has an allowed status. */
    method Iterate(db: Store, check: Id -> Check, clustering: Clustering, outcomes: nat -> Outcome,
                   hookOk: Id -> bool, now: int, failures: Failures) returns (completed: bool)
      requires Claimed(db) && statusMap == map[] && withPayload == {} && committed == {} && outdated == {}
      modifies this, db
      ensures queueEntries == old(queueEntries) && selected == old(selected)
      ensures exceededTries == old(exceededTries) && exceededTriesExceeded == old(exceededTriesExceeded)
      ensures Touched(old(db.rows), db.rows, selected, now)
      ensures var w := WorkFor(check, clustering, outcomes, hookOk);
              completed <==> ExceededCommit(failures) && RestCommits(AnyPayload(w), failures) && (isolated || !NullReported(w))
      ensures var w := WorkFor(check, clustering, outcomes, hookOk);
              forall e | e in selected :: e in db.rows &&
                db.rows[e].status == StatusAfter(isolated, w, selected, ExceededCommit(failures), completed, ExceededReached(failures), e)
      ensures isolated && completed ==> forall e | e in selected :: Settled(db, e)
    {
      Preprocess(check);
      ghost var w := WorkFor(check, clustering, outcomes, hookOk);
      assert withPayload != {} <==> AnyPayload(w) by {
        if e :| e in w.entries && check(e) == Payload { assert e in withPayload; }
      }
      completed := HandleChunk(db, clustering, outcomes, hookOk, now, failures, w);
      if isolated && completed {
        forall e | e in selected ensures Settled(db, e) { IsolatedEndAllowed(w, selected, e); }
      }
    }

    lemma ExceededIsHookStatus(failures: Failures, w: Work)
      requires w == WorkFor(w.check, w.clustering, w.outcomes, w.hookOk) && w.hooks !! w.last
      ensures var puts := ExceededPuts(w.hookOk, failures);
              && puts.Keys == ExceededReached(failures) && (forall e | e in puts :: puts[e] == HookStatus(w, e))
              && (ExceededCommit(failures) ==> puts.Keys == w.last + w.hooks)
    {
      if ExceededCommit(failures) {
        ReachedUntil(exceededTries, |exceededTries|, failures.hook);
        assert exceededTries[..|exceededTries|] == exceededTries;
      }
    }
  }

  lemma ExceededStatuses(ids: set<Id>, selected: set<Id>)
    requires ids <= selected
    ensures var m: StatusMap := map e | e in ids :: Object(Some(4), None);
            && Writes(m, selected).Keys == ids && !HasNull(m) && StatusesOf(m, selected) == map e | e in ids :: Exceeded
  {
  }

  function HookPuts(ids: set<Id>, hookOk: Id -> bool): map<Id, Status>
  {
    map e | e in ids :: if hookOk(e) then Exceeded else Error
  }

  lemma TouchedTwice(a: Table, b: Table, c: Table, selected: set<Id>, now: int)
    requires Touched(a, b, selected, now) && Touched(b, c, selected, now)
    ensures Touched(a, c, selected, now)
  {
  }

  lemma ReachedUntil(entries: seq<Id>, i: nat, fails: Id -> bool)
    requires i <= |entries| && NoneFails(entries, i, fails) && (i < |entries| ==> fails(entries[i]))
    ensures HooksReached(entries, fails) == Elements(entries[..i])
  {
    assert forall k | 0 <= k < i :: entries[..i][k] == entries[k];
  }
}
