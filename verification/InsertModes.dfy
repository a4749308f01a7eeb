/** The two ways a handler's events are inserted (`src/publishEvent.js`), and what they do to the saga
    follow-ups (`src/outbox/EventQueueGenericOutboxHandler.js`). */
module InsertModes {
  import opened EventTable
  import opened SagaFollowups
  import opened StatusReports

  function EventsOf<T>(events: Option<seq<T>>): seq<T>
  {
    if events.Some? then events.value else []
  }

  /** What a transaction carries: the events published in it, whether they are inserted right before
      its commit, and the rows it has inserted already. */
  class Tx<T> {
    var events: Option<seq<T>>
    var handlerRegistered: bool
    var inserted: seq<T>

    constructor ()
      ensures events == None && !handlerRegistered && inserted == []
    {
      events, handlerRegistered, inserted := None, false, [];
    }

    method PublishEvent(name: T, beforeCommit: bool)
      modifies this
      ensures EventsOf(events) == EventsOf(old(events)) + [name] && events.Some?
      ensures handlerRegistered == (old(handlerRegistered) || beforeCommit)
      ensures inserted == if beforeCommit then old(inserted) else old(inserted) + [name]
    {
      events := Some(EventsOf(events) + [name]);
      if beforeCommit {
        handlerRegistered := true;
      } else {
        inserted := inserted + [name];
      }
    }

    /** The rows that are there after the commit. */
    function Committed(): seq<T>
      reads this
    {
      inserted + if handlerRegistered then EventsOf(events) else []
    }
  }

  function HasError(results: seq<Status>): bool
  {
    exists i | 0 <= i < |results| :: results[i] == Error
  }

  /** Direct inserts are lost with a rollback; these are inserted again with the status. */
  function Again<T(==)>(names: seq<T>, failed: Option<T>, done: Option<T>, hasError: bool): seq<T>
  {
    if names == [] then []
    else
      var n := names[|names| - 1];
      Again(names[..|names| - 1], failed, done, hasError)
      + if failed == Some(n) || (hasError && done == Some(n)) then [n] else []
  }

  /** `nextSagaEvents`: what the status write inserts. */
  function NextSaga<T(==)>(steps: Steps<T>, results: seq<Status>, beforeCommit: bool): seq<T>
  {
    if beforeCommit then AllNames(steps, results)
    else Again(AllNames(steps, results), steps.failed, steps.done, HasError(results))
  }

  /** Published in this transaction since `before`, when it had inserted `rows`. */
  ghost predicate Published<T>(tx: Tx<T>, before: seq<T>, rows: seq<T>, names: seq<T>, beforeCommit: bool)
    reads tx
  {
    && EventsOf(tx.events) == before + names
    && tx.inserted == if beforeCommit then rows else rows + names
  }

  method PublishName<T>(tx: Tx<T>, h: Option<T>, when: bool, beforeCommit: bool,
                        ghost before: seq<T>, ghost rows: seq<T>, ghost names: seq<T>)
    requires Published(tx, before, rows, names, beforeCommit)
    modifies tx
    ensures Published(tx, before, rows, names + Name(h, when), beforeCommit)
    ensures old(tx.events.Some?) ==> tx.events.Some?
    ensures tx.handlerRegistered == (old(tx.handlerRegistered) || (beforeCommit && h.Some? && when))
  {
    if h.Some? && when {
      tx.PublishEvent(h.value, beforeCommit);
      assert before + names + [h.value] == before + (names + [h.value]);
      assert rows + names + [h.value] == rows + (names + [h.value]);
    } else {
      assert names + [] == names;
    }
  }

  /** The follow-ups of one entry of the status tuple. */
  method PublishResult<T>(tx: Tx<T>, steps: Steps<T>, result: Status, beforeCommit: bool,
                          ghost before: seq<T>, ghost rows: seq<T>, ghost names: seq<T>)
    requires Published(tx, before, rows, names, beforeCommit) && !steps.last
    modifies tx
    ensures Published(tx, before, rows, names + Names(steps, result), beforeCommit)
    ensures old(tx.events.Some?) ==> tx.events.Some?
    ensures old(tx.handlerRegistered) ==> tx.handlerRegistered
    ensures !beforeCommit ==> tx.handlerRegistered == old(tx.handlerRegistered)
  {
    ghost var a := Name(steps.succeeded, result == Done && steps.plain);
    ghost var b := Name(steps.failed, result == Error);
    ghost var c := Name(steps.done, steps.plain);
    PublishName(tx, steps.succeeded, result == Done && steps.plain, beforeCommit, before, rows, names);
    PublishName(tx, steps.failed, result == Error, beforeCommit, before, rows, names + a);
    PublishName(tx, steps.done, steps.plain, beforeCommit, before, rows, names + a + b);
    assert names + a + b + c == names + (a + b + c);
  }

  method PublishResults<T>(tx: Tx<T>, steps: Steps<T>, results: seq<Status>, beforeCommit: bool)
    requires EventsOf(tx.events) == [] && !steps.last
    modifies tx
    ensures Published(tx, [], old(tx.inserted), AllNames(steps, results), beforeCommit)
    ensures old(tx.events.Some?) ==> tx.events.Some?
    ensures old(tx.handlerRegistered) ==> tx.handlerRegistered
    ensures !beforeCommit ==> tx.handlerRegistered == old(tx.handlerRegistered)
  {
    for i := 0 to |results|
      invariant Published(tx, [], old(tx.inserted), AllNames(steps, results[..i]), beforeCommit)
      invariant old(tx.events.Some?) ==> tx.events.Some?
      invariant old(tx.handlerRegistered) ==> tx.handlerRegistered
      invariant !beforeCommit ==> tx.handlerRegistered == old(tx.handlerRegistered)
    {
      assert results[..i + 1][..i] == results[..i] && results[..i + 1][i] == results[i];
      PublishResult(tx, steps, results[i], beforeCommit, [], old(tx.inserted), AllNames(steps, results[..i]));
    }
    assert results[..|results|] == results;
  }

  /** `#publishFollowupEvents`: the handler's own events are set aside, the follow-ups are published
      in its transaction, and the list of events is put back. `field` is `nextSagaEvents`, one for
      the whole processor: without a saga handler it keeps what is in it. */
  method PublishFollowupEvents<T(==)>(tx: Tx<T>, steps: Steps<T>, results: seq<Status>, beforeCommit: bool, field: seq<T>)
    returns (nextSaga: seq<T>)
    modifies tx
    ensures nextSaga == if steps.last || (steps.succeeded.None? && steps.failed.None? && steps.done.None?) then field
                        else NextSaga(steps, results, beforeCommit)
    ensures EventsOf(tx.events) == EventsOf(old(tx.events))
    ensures tx.inserted == if beforeCommit then old(tx.inserted) else old(tx.inserted) + AllNames(steps, results)
    ensures old(tx.handlerRegistered) ==> tx.handlerRegistered
    ensures !beforeCommit ==> tx.handlerRegistered == old(tx.handlerRegistered)
  {
    if Silent(steps) {
      NothingPublished(steps, results);
      return field;
    }
    var nextEvents := tx.events;
    if EventsOf(nextEvents) != [] { tx.events := Some([]); }
    PublishResults(tx, steps, results, beforeCommit);
    assert EventsOf(tx.events) == AllNames(steps, results);
    nextSaga := if beforeCommit then EventsOf(tx.events)
                else Again(EventsOf(tx.events), steps.failed, steps.done, HasError(results));
    if tx.events.Some? { tx.events := Some(EventsOf(nextEvents)); }
  }

  /** Nothing is published for such an event. */
  predicate Silent<T>(steps: Steps<T>)
  {
    (steps.succeeded.None? && steps.failed.None? && steps.done.None?) || steps.last
  }

  lemma {:induction false} NothingPublished<T>(steps: Steps<T>, results: seq<Status>)
    requires Silent(steps)
    ensures AllNames(steps, results) == []
  {
    if results != [] { NothingPublished(steps, results[..|results| - 1]); }
  }

  /** The status write drops the statuses that are not allowed. */
  predicate SomeAllowed(results: seq<Status>)
  {
    exists i | 0 <= i < |results| :: AllowedStatus(results[i])
  }

  /** One handled event: its saga handlers, what its handler published, its results and whether the
      handler asked for a rollback. */
  datatype Handled<T> = Handled(steps: Steps<T>, own: seq<T>, results: seq<Status>, rollback: bool)
  {
    predicate RolledBack() { HasError(results) || rollback }
  }

  /** What is in the field when the status is written. */
  function FieldFor<T(==)>(h: Handled<T>, field: seq<T>, beforeCommit: bool): seq<T>
  {
    if Silent(h.steps) then field else NextSaga(h.steps, h.results, beforeCommit)
  }

  /** The events in the table after an event was handled and its status written. A status write
      that has nothing to write ends before it gets to the field. */
  function Inserted<T(==)>(h: Handled<T>, field: seq<T>, beforeCommit: bool): seq<T>
  {
    (if h.RolledBack() then [] else if beforeCommit then h.own else h.own + AllNames(h.steps, h.results))
    + if SomeAllowed(h.results) then FieldFor(h, field, beforeCommit) else []
  }

  function FieldAfter<T(==)>(h: Handled<T>, field: seq<T>, beforeCommit: bool): seq<T>
  {
    if SomeAllowed(h.results) then [] else FieldFor(h, field, beforeCommit)
  }

  method PublishOwn<T>(tx: Tx<T>, own: seq<T>, beforeCommit: bool)
    requires tx.events == None && !tx.handlerRegistered && tx.inserted == []
    modifies tx
    ensures EventsOf(tx.events) == own && tx.inserted == if beforeCommit then [] else own
    ensures tx.handlerRegistered == (beforeCommit && own != [])
  {
    for i := 0 to |own|
      invariant EventsOf(tx.events) == own[..i] && tx.inserted == if beforeCommit then [] else own[..i]
      invariant tx.handlerRegistered == (beforeCommit && i > 0)
    {
      tx.PublishEvent(own[i], beforeCommit);
      assert own[..i + 1] == own[..i] + [own[i]];
    }
    assert own[..|own|] == own;
  }

  /** Handles one cluster.  An Error rolls its transaction back and a new one writes the status. */
  method ProcessEvent<T(==)>(h: Handled<T>, field: seq<T>, beforeCommit: bool) returns (rows: seq<T>, left: seq<T>)
    ensures rows == Inserted(h, field, beforeCommit) && left == FieldAfter(h, field, beforeCommit)
  {
    var tx := new Tx<T>();
    PublishOwn(tx, h.own, beforeCommit);
    left := PublishFollowupEvents(tx, h.steps, h.results, beforeCommit, field);
    assert tx.inserted + [] == tx.inserted && [] + h.own == h.own;
    rows := if h.RolledBack() then [] else tx.Committed();
    if SomeAllowed(h.results) {
      rows, left := rows + left, [];
    }
  }

  /** Some follow-up of the list is a #succeeded event. */
  ghost predicate PublishesSucceeded(names: seq<string>)
  {
    exists i | 0 <= i < |names| :: EndsWith(names[i], SUCCEEDED)
  }

  lemma {:induction false} NameOf<T>(steps: Steps<T>, results: seq<Status>, f: T)
    requires f in AllNames(steps, results)
    ensures Some(f) == steps.succeeded || (Some(f) == steps.failed && HasError(results)) || Some(f) == steps.done
  {
    var front, last := results[..|results| - 1], results[|results| - 1];
    if f in AllNames(steps, front) {
      NameOf(steps, front, f);
      if HasError(front) {
        var i :| 0 <= i < |front| && front[i] == Error;
        assert results[i] == Error;
      }
    } else if last == Error {
      assert HasError(results);
    }
  }

  /** What is inserted again: everything but the #succeeded events after an Error, nothing otherwise. */
  lemma {:induction false} AgainIs(names: seq<string>, succeeded: Option<string>, failed: Option<string>,
                                   done: Option<string>, hasError: bool)
    requires forall i | 0 <= i < |names| ::
      && (Some(names[i]) == succeeded || (Some(names[i]) == failed && hasError) || Some(names[i]) == done)
    requires succeeded.Some? ==> EndsWith(succeeded.value, SUCCEEDED)
    requires failed.Some? ==> EndsWith(failed.value, FAILED)
    requires done.Some? ==> EndsWith(done.value, DONE)
    ensures |Again(names, failed, done, hasError)| <= |names|
    ensures !hasError ==> Again(names, failed, done, hasError) == []
    ensures hasError ==> (Again(names, failed, done, hasError) == names
              <==> forall i | 0 <= i < |names| :: !EndsWith(names[i], SUCCEEDED))
    ensures hasError && Again(names, failed, done, hasError) != names ==> |Again(names, failed, done, hasError)| < |names|
  {
    if names != [] {
      var front, n := names[..|names| - 1], names[|names| - 1];
      AgainIs(front, succeeded, failed, done, hasError);
      SuffixRank(n);
      assert names == front + [n];
    }
  }

  /** The two insert modes, and both starting with nothing left over. */
  ghost predicate ModesAgree<T>(h: Handled<T>)
  {
    multiset(Inserted(h, [], true)) == multiset(Inserted(h, [], false))
  }

  /** When do the two modes leave the same events in the table?  If nothing is published; if some
      status is written, exactly when nothing is rolled back or the rollback is due to an Error and no
      #succeeded event is published next to it; if no status is written, exactly when the handler
      asked for a rollback. */
  lemma ModesAgreeIff(handlers: set<string>, event: string, own: seq<string>, results: seq<Status>, rollback: bool)
    ensures ModesAgree(Handled(StepsOf(handlers, event), own, results, rollback))
       <==> FollowUps(handlers, event, results) == []
            || if Any(results, {Open, Done, Error, Exceeded})
               then !(Any(results, {Error}) || rollback)
                    || (Any(results, {Error}) && !PublishesSucceeded(FollowUps(handlers, event, results)))
               else rollback
  {
    var published := FollowUps(handlers, event, results);
    var steps := StepsOf(handlers, event);
    forall i | 0 <= i < |published|
      ensures Some(published[i]) == steps.succeeded || (Some(published[i]) == steps.failed && HasError(results))
           || Some(published[i]) == steps.done
    {
      NameOf(steps, results, published[i]);
    }
    AgainIs(published, steps.succeeded, steps.failed, steps.done, HasError(results));
    AgreeIff(Handled(steps, own, results, rollback), !PublishesSucceeded(published));
    AnyOf(results);
  }

  /** One of the results is one of these. */
  predicate Any(results: seq<Status>, these: set<Status>)
  {
    exists i | 0 <= i < |results| :: results[i] in these
  }

  lemma AnyOf(results: seq<Status>)
    ensures SomeAllowed(results) <==> Any(results, {Open, Done, Error, Exceeded})
    ensures HasError(results) <==> Any(results, {Error})
  {
  }

  lemma AgreeIff<T>(h: Handled<T>, clean: bool)
    requires var published := AllNames(h.steps, h.results);
             var again := Again(published, h.steps.failed, h.steps.done, HasError(h.results));
             && (!HasError(h.results) ==> again == [])
             && (HasError(h.results) ==> (again == published <==> clean))
             && (HasError(h.results) && again != published ==> |again| < |published|)
    ensures ModesAgree(h)
       <==> AllNames(h.steps, h.results) == []
            || if SomeAllowed(h.results) then !h.RolledBack() || (HasError(h.results) && clean) else h.rollback
  {
    var published := AllNames(h.steps, h.results);
    if Silent(h.steps) { NothingPublished(h.steps, h.results); }
    assert h.own + published + [] == h.own + published && h.own + [] == h.own;
    SameMultisetSameLength(Inserted(h, [], true), Inserted(h, [], false));
    if HasError(h.results) {
      var i :| 0 <= i < |h.results| && h.results[i] == Error;
      assert AllowedStatus(h.results[i]);
    }
  }

  lemma SameMultisetSameLength<T>(a: seq<T>, b: seq<T>)
    ensures multiset(a) == multiset(b) ==> |a| == |b|
  {
    assert |multiset(a)| == |a| && |multiset(b)| == |b|;
  }

  // ----- one event at a time, one entry each -----

  /** A handled event of one entry, without an explicit rollback, whose #failed handler is not also
      registered for another step. */
  ghost predicate Single<T>(h: Handled<T>)
  {
    && |h.results| == 1 && !h.rollback
    && (h.steps.failed.Some? ==> h.steps.failed != h.steps.succeeded && h.steps.failed != h.steps.done)
  }

  /** The follow-ups of the event, and what is committed with them of the handler's own. */
  function PublishedBy<T>(h: Handled<T>): seq<T>
  {
    AllNames(h.steps, h.results)
  }

  function OwnOf<T>(h: Handled<T>): seq<T>
  {
    if h.RolledBack() then [] else h.own
  }

  lemma SingleResult<T>(h: Handled<T>)
    requires Single(h)
    ensures PublishedBy(h) == Names(h.steps, h.results[0])
    ensures HasError(h.results) <==> h.results[0] == Error
    ensures SomeAllowed(h.results) <==> AllowedStatus(h.results[0])
    ensures HasError(h.results) ==> SomeAllowed(h.results)
  {
    assert h.results == [h.results[0]] && h.results[..0] == [];
    assert AllNames(h.steps, h.results) == [] + Names(h.steps, h.results[0]);
  }

  /** Inserted again are all follow-ups of an Error and none of another result. */
  lemma SingleAgain<T>(h: Handled<T>)
    requires Single(h)
    ensures NextSaga(h.steps, h.results, false) == if h.RolledBack() then PublishedBy(h) else []
  {
    SingleResult(h);
    var steps, error := h.steps, h.results[0] == Error;
    forall n | n in PublishedBy(h) ensures Some(n) == steps.failed || (error && Some(n) == steps.done) <==> error {
    }
    AgainAllOrNothing(PublishedBy(h), steps.failed, steps.done, error);
  }

  lemma {:induction false} AgainAllOrNothing<T>(names: seq<T>, failed: Option<T>, done: Option<T>, error: bool)
    requires forall n | n in names :: failed == Some(n) || (error && done == Some(n)) <==> error
    ensures Again(names, failed, done, error) == if error then names else []
  {
    if names != [] {
      var front, n := names[..|names| - 1], names[|names| - 1];
      assert names == front + [n];
      AgainAllOrNothing(front, failed, done, error);
    }
  }

  /** Inserting at once leaves nothing in the field and every follow-up in the table. */
  lemma DirectMode<T>(h: Handled<T>)
    requires Single(h)
    ensures multiset(Inserted(h, [], false)) == multiset(OwnOf(h)) + multiset(PublishedBy(h))
    ensures FieldAfter(h, [], false) == []
  {
    SingleResult(h);
    SingleAgain(h);
    if Silent(h.steps) { NothingPublished(h.steps, h.results); }
    assert multiset(h.own + PublishedBy(h)) == multiset(h.own) + multiset(PublishedBy(h));
    assert h.own + PublishedBy(h) + [] == h.own + PublishedBy(h);
  }

  /** Inserting before the commit leaves the follow-ups of a dropped status in the field; a saga event
      that comes next takes their place. */
  lemma CommitMode<T>(h: Handled<T>, field: seq<T>)
    requires Single(h)
    ensures multiset(Inserted(h, field, true)) + multiset(FieldAfter(h, field, true)) + multiset(LostBy(h, field))
         == multiset(OwnOf(h)) + multiset(PublishedBy(h)) + multiset(field)
  {
    SingleResult(h);
    if Silent(h.steps) { NothingPublished(h.steps, h.results); }
    assert multiset(OwnOf(h) + FieldFor(h, field, true)) == multiset(OwnOf(h)) + multiset(FieldFor(h, field, true));
  }

  function LostBy<T>(h: Handled<T>, field: seq<T>): seq<T>
  {
    if Silent(h.steps) then [] else field
  }

  /** The events in the table at the end of the iteration. An event whose status was dropped gets Done
      in the final status write, so that one always comes to the field when there is something in it. */
  function RowsOf<T(==)>(hs: seq<Handled<T>>, field: seq<T>, beforeCommit: bool): seq<T>
  {
    if hs == [] then field
    else Inserted(hs[0], field, beforeCommit) + RowsOf(hs[1..], FieldAfter(hs[0], field, beforeCommit), beforeCommit)
  }

  function Lost<T(==)>(hs: seq<Handled<T>>, field: seq<T>): seq<T>
  {
    if hs == [] then [] else LostBy(hs[0], field) + Lost(hs[1..], FieldAfter(hs[0], field, true))
  }

  /** How often an event is in a list. */
  function Amount<T(==)>(s: seq<T>, x: T): nat
  {
    multiset(s)[x]
  }

  lemma AmountConcat<T>(a: seq<T>, b: seq<T>, x: T)
    ensures Amount(a + b, x) == Amount(a, x) + Amount(b, x)
  {
  }

  /** The modes differ by exactly what is lost. */
  lemma {:induction false} RunModes<T>(hs: seq<Handled<T>>, field: seq<T>, x: T)
    requires forall i | 0 <= i < |hs| :: Single(hs[i])
    ensures Amount(RowsOf(hs, field, true), x) + Amount(Lost(hs, field), x)
         == Amount(RowsOf(hs, [], false), x) + Amount(field, x)
  {
    if hs != [] {
      var h, rest := hs[0], hs[1..];
      var next := FieldAfter(h, field, true);
      OneMode(h, field, x);
      DirectMode(h);
      RunModes(rest, next, x);
      AmountConcat(Inserted(h, field, true), RowsOf(rest, next, true), x);
      AmountConcat(LostBy(h, field), Lost(rest, next), x);
      AmountConcat(Inserted(h, [], false), RowsOf(rest, [], false), x);
    }
  }

  lemma OneMode<T>(h: Handled<T>, field: seq<T>, x: T)
    requires Single(h)
    ensures Amount(Inserted(h, field, true), x) + Amount(FieldAfter(h, field, true), x) + Amount(LostBy(h, field), x)
         == Amount(Inserted(h, [], false), x) + Amount(field, x)
  {
    DirectMode(h);
    CommitMode(h, field);
    var a, b, c := multiset(Inserted(h, field, true)), multiset(FieldAfter(h, field, true)), multiset(LostBy(h, field));
    assert (a + b + c)[x] == a[x] + b[x] + c[x];
    assert (multiset(Inserted(h, [], false)) + multiset(field))[x] == multiset(Inserted(h, [], false))[x] + multiset(field)[x];
  }

  ghost predicate StatusDropped<T>(h: Handled<T>)
  {
    !SomeAllowed(h.results)
  }

  /** Neither inserts what is in the field nor replaces it. */
  ghost predicate LeavesField<T>(hs: seq<Handled<T>>, a: nat, b: nat)
    requires b <= |hs|
  {
    forall k | a <= k < b :: Silent(hs[k].steps) && StatusDropped(hs[k])
  }

  ghost predicate ReplacesField<T>(hs: seq<Handled<T>>, a: nat, j: nat)
  {
    a <= j < |hs| && !Silent(hs[j].steps) && LeavesField(hs, a, j)
  }

  /** An event publishes follow-ups and has its status dropped, and a saga event is handled before the
      next status write. */
  ghost predicate Replaces<T>(hs: seq<Handled<T>>)
  {
    exists i: nat, j: nat :: Replaced(hs, i, j)
  }

  ghost predicate Replaced<T>(hs: seq<Handled<T>>, i: nat, j: nat)
  {
    i < |hs| && StatusDropped(hs[i]) && PublishedBy(hs[i]) != [] && ReplacesField(hs, i + 1, j)
  }

  lemma {:induction false} LostIff<T>(hs: seq<Handled<T>>, field: seq<T>)
    requires forall i | 0 <= i < |hs| :: Single(hs[i])
    ensures Lost(hs, field) != [] <==> (field != [] && exists j: nat :: ReplacesField(hs, 0, j)) || Replaces(hs)
  {
    if hs != [] {
      var h, rest := hs[0], hs[1..];
      LostIff(rest, FieldAfter(h, field, true));
      SingleResult(h);
      if Silent(h.steps) { NothingPublished(h.steps, h.results); }
      ReplacesFieldCons(hs);
      ReplacesCons(hs);
    }
  }

  lemma ShiftReplaces<T>(hs: seq<Handled<T>>, a: nat, j: nat)
    requires hs != [] && a > 0 && j > 0
    ensures ReplacesField(hs, a, j) <==> ReplacesField(hs[1..], a - 1, j - 1)
  {
    var rest := hs[1..];
    if ReplacesField(rest, a - 1, j - 1) {
      forall k | a <= k < j ensures Silent(hs[k].steps) && StatusDropped(hs[k]) { assert rest[k - 1] == hs[k]; }
    }
    if ReplacesField(hs, a, j) {
      forall k | a - 1 <= k < j - 1 ensures Silent(rest[k].steps) && StatusDropped(rest[k]) { assert rest[k] == hs[k + 1]; }
    }
  }

  lemma ReplacesFieldCons<T>(hs: seq<Handled<T>>)
    requires hs != []
    ensures (exists j: nat :: ReplacesField(hs, 0, j))
       <==> !Silent(hs[0].steps) || (StatusDropped(hs[0]) && exists j: nat :: ReplacesField(hs[1..], 0, j))
  {
    if !Silent(hs[0].steps) {
      assert ReplacesField(hs, 0, 0);
    } else {
      if j: nat :| ReplacesField(hs, 0, j) {
        assert ReplacesField(hs, 1, j);
        ShiftReplaces(hs, 1, j);
      }
      if j: nat :| ReplacesField(hs[1..], 0, j) {
        ShiftReplaces(hs, 1, j + 1);
        if StatusDropped(hs[0]) { assert ReplacesField(hs, 0, j + 1); }
      }
    }
  }

  lemma ReplacesCons<T>(hs: seq<Handled<T>>)
    requires hs != []
    ensures Replaces(hs)
       <==> || (StatusDropped(hs[0]) && PublishedBy(hs[0]) != [] && exists j: nat :: ReplacesField(hs[1..], 0, j))
            || Replaces(hs[1..])
  {
    var rest := hs[1..];
    if i: nat, j: nat :| Replaced(hs, i, j) {
      ShiftReplaces(hs, i + 1, j);
      if i > 0 { assert Replaced(rest, i - 1, j - 1); }
    }
    if StatusDropped(hs[0]) && PublishedBy(hs[0]) != [] {
      if j: nat :| ReplacesField(rest, 0, j) {
        ShiftReplaces(hs, 1, j + 1);
        assert Replaced(hs, 0, j + 1);
      }
    }
    if i: nat, j: nat :| Replaced(rest, i, j) {
      ShiftReplaces(hs, i + 2, j + 1);
      assert Replaced(hs, i + 1, j + 1);
    }
  }

  /** The promise of the outbox, for a whole iteration of events handled one at a time, of one entry
      each and without explicit rollback: the modes leave the same events in the table, for every
      result, if and only if no event with a dropped status loses its follow-ups to a later saga
      event. */
  lemma IterationModesAgreeIff<T(!new)>(hs: seq<Handled<T>>)
    requires forall i | 0 <= i < |hs| :: Single(hs[i])
    ensures multiset(RowsOf(hs, [], true)) == multiset(RowsOf(hs, [], false)) <==> !Replaces(hs)
  {
    LostIff(hs, []);
    if Lost(hs, []) != [] { SomethingLost(hs); } else { NothingLost(hs); }
  }

  lemma SomethingLost<T>(hs: seq<Handled<T>>)
    requires (forall i | 0 <= i < |hs| :: Single(hs[i])) && Lost(hs, []) != []
    ensures multiset(RowsOf(hs, [], true)) != multiset(RowsOf(hs, [], false))
  {
    var x := Lost(hs, [])[0];
    RunModes(hs, [], x);
    assert x in multiset(Lost(hs, []));
    assert Amount(RowsOf(hs, [], true), x) != Amount(RowsOf(hs, [], false), x);
  }

  lemma NothingLost<T(!new)>(hs: seq<Handled<T>>)
    requires (forall i | 0 <= i < |hs| :: Single(hs[i])) && Lost(hs, []) == []
    ensures multiset(RowsOf(hs, [], true)) == multiset(RowsOf(hs, [], false))
  {
    forall x ensures multiset(RowsOf(hs, [], true))[x] == multiset(RowsOf(hs, [], false))[x] {
      RunModes(hs, [], x);
      assert Amount(RowsOf(hs, [], true), x) == Amount(RowsOf(hs, [], false), x);
    }
  }

  /** A single event: its own status write leaves the same events in both modes if and only if its
      status is allowed or nothing is published; inserting at once leaves its own events and each
      follow-up once, for every result, also if its transaction was rolled back. */
  lemma ModesAgreeForSingleEntry(handlers: set<string>, event: string, own: seq<string>, result: Status)
    ensures var h := Handled(StepsOf(handlers, event), own, [result], false);
            && Single(h)
            && multiset(Inserted(h, [], false))
               == multiset(if result == Error then [] else own) + multiset(FollowUpsOf(handlers, event, result))
            && (ModesAgree(h) <==> AllowedStatus(result) || FollowUpsOf(handlers, event, result) == [])
  {
    var h := Handled(StepsOf(handlers, event), own, [result], false);
    StepsAreSeparate(handlers, event);
    SingleResult(h);
    DirectMode(h);
    CommitMode(h, []);
    assert |multiset(FieldAfter(h, [], true))| == |FieldAfter(h, [], true)|;
    if Silent(h.steps) { NothingPublished(h.steps, h.results); }
  }

  lemma StepsAreSeparate(handlers: set<string>, event: string)
    ensures var steps := StepsOf(handlers, event);
            steps.failed.Some? ==> steps.failed != steps.succeeded && steps.failed != steps.done
  {
    var steps := StepsOf(handlers, event);
    if steps.failed.Some? { SuffixRank(steps.failed.value); }
  }

  /** The exception is real: two events with a #done handler, the first of which ends as InProgress.
      Inserted at once, both #done events are there; inserted before the commit, one is missing. */
  lemma InProgressLosesDone<T>(hs: seq<Handled<T>>, done: T)
    requires |hs| == 2 && forall i | 0 <= i < |hs| :: OnlyDone(hs[i], done)
    requires hs[0].results == [InProgress] && hs[1].results == [Done]
    ensures RowsOf(hs, [], true) == [done] && RowsOf(hs, [], false) == [done, done]
  {
    OneIsMissing(hs, done);
    BothAreThere(hs, done);
  }

  lemma OneIsMissing<T>(hs: seq<Handled<T>>, done: T)
    requires |hs| == 2 && OnlyDone(hs[0], done) && OnlyDone(hs[1], done)
    requires hs[0].results[0] == InProgress && hs[1].results[0] == Done
    ensures RowsOf(hs, [], true) == [done]
  {
    DoneBeforeCommit(hs[0], [], done);
    DoneBeforeCommit(hs[1], [done], done);
    RowsOfTwo(hs, true, [done], [], [done]);
  }

  lemma BothAreThere<T>(hs: seq<Handled<T>>, done: T)
    requires |hs| == 2 && OnlyDone(hs[0], done) && OnlyDone(hs[1], done)
    ensures RowsOf(hs, [], false) == [done, done]
  {
    DoneAtOnce(hs[0], done);
    DoneAtOnce(hs[1], done);
    RowsOfTwo(hs, false, [], [done], [done]);
  }

  /** One event with nothing but a #done handler, whose own handler publishes nothing. */
  ghost predicate OnlyDone<T>(h: Handled<T>, done: T)
  {
    h.steps == Steps(None, None, Some(done), true, false) && h.own == [] && Single(h) && h.results[0] != Error
  }

  lemma DoneIsPublished<T>(h: Handled<T>, done: T)
    requires OnlyDone(h, done)
    ensures PublishedBy(h) == [done] && !h.RolledBack() && (SomeAllowed(h.results) <==> AllowedStatus(h.results[0]))
  {
    SingleResult(h);
    assert PublishedBy(h) == [] + [] + [done] == [done];
  }

  lemma DoneAtOnce<T>(h: Handled<T>, done: T)
    requires OnlyDone(h, done)
    ensures FieldAfter(h, [], false) == [] && Inserted(h, [], false) == [done]
  {
    DoneIsPublished(h, done);
    SingleAgain(h);
    assert [] + [done] + [] == [done];
  }

  lemma DoneBeforeCommit<T>(h: Handled<T>, field: seq<T>, done: T)
    requires OnlyDone(h, done)
    ensures FieldAfter(h, field, true) == if AllowedStatus(h.results[0]) then [] else [done]
    ensures Inserted(h, field, true) == if AllowedStatus(h.results[0]) then [done] else []
  {
    DoneIsPublished(h, done);
    assert [] + [done] == [done];
  }

  lemma RowsOfTwo<T>(hs: seq<Handled<T>>, beforeCommit: bool, field: seq<T>, first: seq<T>, second: seq<T>)
    requires |hs| == 2 && field == FieldAfter(hs[0], [], beforeCommit) && FieldAfter(hs[1], field, beforeCommit) == []
    requires Inserted(hs[0], [], beforeCommit) == first && Inserted(hs[1], field, beforeCommit) == second
    ensures RowsOf(hs, [], beforeCommit) == first + second
  {
    assert hs[1..] == [hs[1]] && hs[1..][1..] == [];
    assert RowsOf(hs[1..], field, beforeCommit) == second + [] == second;
  }

  /** A service with one handler, for "#done", gives every plain event these steps. */
  lemma DoneHandlerOnly(event: string)
    requires Rank(event) == 2
    ensures StepsOf({DONE}, event) == Steps(None, None, Some(DONE), true, false)
  {
    SuffixRank(event);
    assert forall e: string, saga: string :: |e + "/" + saga| == |e| + 1 + |saga|;
    assert |DONE| == 5 && |SUCCEEDED| == 10 && |FAILED| == 7;
  }
}
