/** Saga follow-ups of the generic outbox handler (`src/outbox/EventQueueGenericOutboxHandler.js`). */
module SagaFollowups {
  import opened EventTable

  const SUCCEEDED: string := "#succeeded"
  const FAILED: string := "#failed"
  const DONE: string := "#done"

  predicate EndsWith(s: string, suffix: string)
  {
    |suffix| <= |s| && s[|s| - |suffix|..] == suffix
  }

  /** The part before the first slash. */
  function BeforeSlash(s: string): string
  {
    if s == "" || s[0] == '/' then "" else [s[0]] + BeforeSlash(s[1..])
  }

  /** The handler for a saga step of `event`, if one is registered: the specific one first. */
  function CheckHandlerExists(handlers: set<string>, event: string, saga: string): (h: Option<string>)
    ensures h.Some? ==> h.value in handlers && EndsWith(h.value, saga)
  {
    var base := if EndsWith(event, SUCCEEDED) || EndsWith(event, DONE) then BeforeSlash(event) else event;
    if base + "/" + saga in handlers then Some(base + "/" + saga)
    else if saga in handlers then Some(saga)
    else None
  }

  /** A plain event, a #succeeded event, and the two that end a saga. */
  function Rank(event: string): nat
  {
    if EndsWith(event, FAILED) || EndsWith(event, DONE) then 0
    else if EndsWith(event, SUCCEEDED) then 1
    else 2
  }

  function Name<T>(h: Option<T>, when: bool): seq<T>
  {
    if h.Some? && when then [h.value] else []
  }

  /** The registered saga handlers of an event; whether it is `plain`, that is no #succeeded event
      itself, and whether it is the `last` of its saga, a #failed or #done event. */
  datatype Steps<T> = Steps(succeeded: Option<T>, failed: Option<T>, done: Option<T>, plain: bool, last: bool)

  function StepsOf(handlers: set<string>, event: string): Steps<string>
  {
    Steps(CheckHandlerExists(handlers, event, SUCCEEDED), CheckHandlerExists(handlers, event, FAILED),
          CheckHandlerExists(handlers, event, DONE), !EndsWith(event, SUCCEEDED), Rank(event) == 0)
  }

  function Names<T>(steps: Steps<T>, result: Status): seq<T>
  {
    if steps.last then []
    else
      Name(steps.succeeded, result == Done && steps.plain)
      + Name(steps.failed, result == Error)
      + Name(steps.done, steps.plain)
  }

  function AllNames<T>(steps: Steps<T>, results: seq<Status>): seq<T>
  {
    if results == [] then []
    else AllNames(steps, results[..|results| - 1]) + Names(steps, results[|results| - 1])
  }

  /** What one result of `event` publishes. */
  function FollowUpsOf(handlers: set<string>, event: string, result: Status): seq<string>
  {
    Names(StepsOf(handlers, event), result)
  }

  function FollowUps(handlers: set<string>, event: string, results: seq<Status>): seq<string>
  {
    AllNames(StepsOf(handlers, event), results)
  }

  // ----- which follow-ups there are -----

  /** By event and result: #succeeded after a Done, #failed after an Error, #done always, of a plain event; of
      a #succeeded event only #failed after an Error; none of a #failed or #done event.  Each of them is
      published once, where a handler for it is registered. */
  lemma FollowUpsAre(handlers: set<string>, event: string, result: Status)
    ensures var succeeded, failed, done := CheckHandlerExists(handlers, event, SUCCEEDED),
                                           CheckHandlerExists(handlers, event, FAILED), CheckHandlerExists(handlers, event, DONE);
            multiset(FollowUpsOf(handlers, event, result)) ==
              if EndsWith(event, FAILED) || EndsWith(event, DONE) then multiset{}
              else if EndsWith(event, SUCCEEDED) then (if result == Error then OneOf(failed) else multiset{})
              else match result {
                     case Done => OneOf(succeeded) + OneOf(done)
                     case Error => OneOf(failed) + OneOf(done)
                     case _ => OneOf(done)
                   }
  {
    SuffixRank(event);
  }

  function OneOf(h: Option<string>): multiset<string>
  {
    if h.Some? then multiset{h.value} else multiset{}
  }

  predicate NoSlash(s: string)
  {
    '/' !in s
  }

  lemma {:induction false} NameBeforeSlash(name: string, rest: string)
    requires NoSlash(name)
    ensures BeforeSlash(name + "/" + rest) == name
  {
    if name != "" {
      NameBeforeSlash(name[1..], rest);
      assert (name + "/" + rest)[1..] == name[1..] + "/" + rest;
    } else {
      assert name + "/" + rest == "/" + rest;
    }
  }

  /** The specific handler of an action is used if there is one, otherwise the general one; and the follow-ups
      of its #succeeded event are those of the action itself. */
  lemma HandlersOfAction(handlers: set<string>, name: string, saga: string)
    requires NoSlash(name) && !EndsWith(name, SUCCEEDED) && !EndsWith(name, DONE)
    ensures CheckHandlerExists(handlers, name, saga) ==
              if name + "/" + saga in handlers then Some(name + "/" + saga) else if saga in handlers then Some(saga) else None
    ensures CheckHandlerExists(handlers, name + "/" + SUCCEEDED, saga) == CheckHandlerExists(handlers, name, saga)
  {
    var event := name + "/" + SUCCEEDED;
    assert event[|event| - |SUCCEEDED|..] == SUCCEEDED;
    NameBeforeSlash(name, SUCCEEDED);
  }

  // ----- sagas are finite -----

  lemma CharFromEnd(s: string, suffix: string, k: nat)
    requires EndsWith(s, suffix) && k < |suffix|
    ensures s[|s| - |suffix| + k] == suffix[k]
  {
    assert s[|s| - |suffix|..][k] == suffix[k];
  }

  lemma SuffixRank(s: string)
    ensures EndsWith(s, SUCCEEDED) ==> Rank(s) == 1
    ensures EndsWith(s, FAILED) ==> Rank(s) == 0 && !EndsWith(s, SUCCEEDED) && !EndsWith(s, DONE)
    ensures EndsWith(s, DONE) ==> Rank(s) == 0 && !EndsWith(s, SUCCEEDED) && !EndsWith(s, FAILED)
  {
    if EndsWith(s, SUCCEEDED) { CharFromEnd(s, SUCCEEDED, 9); CharFromEnd(s, SUCCEEDED, 3); }
    if EndsWith(s, FAILED) { CharFromEnd(s, FAILED, 6); CharFromEnd(s, FAILED, 0); }
    if EndsWith(s, DONE) { CharFromEnd(s, DONE, 4); }
  }

  /** Every follow-up ranks strictly below its trigger. */
  lemma RankFalls(handlers: set<string>, event: string, result: Status, f: string)
    requires f in FollowUpsOf(handlers, event, result)
    ensures Rank(f) < Rank(event)
  {
    SuffixRank(event);
    SuffixRank(f);
  }

  /** An event in the queue and how often its handler has been called. */
  datatype Live = Live(event: string, tries: nat)

  datatype Saga = Saga(live: seq<Live>, created: nat, calls: nat)

  /** One call of a handler, for a cluster of one entry: event `i` ends with `result`.  Only an Error
      leaves the event in the queue, until its retries are used up. */
  datatype Call = Call(i: nat, result: Status)

  function Fresh(events: seq<string>): (r: seq<Live>)
    ensures |r| == |events| && forall i | 0 <= i < |r| :: r[i] == Live(events[i], 0)
  {
    seq(|events|, i requires 0 <= i < |events| => Live(events[i], 0))
  }

  predicate CanCall(s: Saga, c: Call, R: nat)
  {
    c.i < |s.live| && s.live[c.i].tries < R && c.result != Open
  }

  function Remaining(l: Live, result: Status, R: nat): seq<Live>
  {
    if result == Error && l.tries + 1 < R then [l.(tries := l.tries + 1)] else []
  }

  /** The follow-ups of an event with a result. */
  type Follow = (string, Status) -> seq<string>

  function FollowUp(handlers: set<string>): Follow
  {
    (event: string, result: Status) => FollowUpsOf(handlers, event, result)
  }

  function CallStep(s: Saga, c: Call, follow: Follow, R: nat): Saga
    requires CanCall(s, c, R)
  {
    var l := s.live[c.i];
    var new_ := follow(l.event, c.result);
    Replace(s, c.i, Remaining(l, c.result, R), new_)
  }

  /** How many events can still come from a live one: the measure behind the bound. */
  function Weight(l: Live, R: nat): nat
    requires l.tries <= R
  {
    var left := R - l.tries;
    match Rank(l.event)
    case 0 => 0
    case 1 => left
    case _ => if left == 0 then 0 else 2 * left + R
  }

  predicate InBounds(live: seq<Live>, R: nat)
  {
    forall i | 0 <= i < |live| :: live[i].tries <= R
  }

  function Weights(live: seq<Live>, R: nat): nat
    requires InBounds(live, R)
  {
    if live == [] then 0 else Weight(live[0], R) + Weights(live[1..], R)
  }

  function TriesLeft(live: seq<Live>, R: nat): nat
    requires InBounds(live, R)
  {
    if live == [] then 0 else (R - live[0].tries) + TriesLeft(live[1..], R)
  }

  lemma {:induction false} WeightsConcat(a: seq<Live>, b: seq<Live>, R: nat)
    requires InBounds(a, R) && InBounds(b, R)
    ensures InBounds(a + b, R)
    ensures Weights(a + b, R) == Weights(a, R) + Weights(b, R)
    ensures TriesLeft(a + b, R) == TriesLeft(a, R) + TriesLeft(b, R)
  {
    if a == [] {
      assert a + b == b;
    } else {
      WeightsConcat(a[1..], b, R);
      assert (a + b)[1..] == a[1..] + b;
    }
  }

  lemma {:induction false} FreshBounds(events: seq<string>, R: nat)
    ensures InBounds(Fresh(events), R) && TriesLeft(Fresh(events), R) == Times(|events|, R)
  {
    if events != [] {
      FreshBounds(events[1..], R);
      assert Fresh(events)[1..] == Fresh(events[1..]);
    }
  }

  /** `n * k`, by addition. */
  function Times(n: nat, k: nat): nat
  {
    if n == 0 then 0 else k + Times(n - 1, k)
  }

  lemma {:induction false} TimesAdd(a: nat, b: nat, k: nat)
    ensures Times(a + b, k) == Times(a, k) + Times(b, k)
  {
    if a > 0 { TimesAdd(a - 1, b, k); }
  }

  lemma {:induction false} TimesIsProduct(n: nat, k: nat)
    ensures Times(n, k) == n * k
  {
    if n > 0 {
      TimesIsProduct(n - 1, k);
      assert n * k == k + (n - 1) * k;
    }
  }

  /** The arithmetic of one call: at most one follow-up of each kind, and a #succeeded one only
      when the event is plain and does not stay. */
  lemma PaidFor(succ: seq<string>, fail: seq<string>, done: seq<string>, l: Live, result: Status, R: nat)
    requires l.tries < R && |succ| <= 1 && |fail| <= 1 && |done| <= 1
    requires |succ| == 1 ==> result == Done && Rank(l.event) == 2
    requires |fail| == 1 ==> result == Error && Rank(l.event) > 0
    requires |done| == 1 ==> Rank(l.event) == 2
    requires InBounds(Fresh(succ), R) && Weights(Fresh(succ), R) <= if |succ| == 1 then R else 0
    requires InBounds(Fresh(fail), R) && Weights(Fresh(fail), R) == 0
    requires InBounds(Fresh(done), R) && Weights(Fresh(done), R) == 0
    ensures InBounds(Remaining(l, result, R), R)
    ensures |succ| + |fail| + |done| + Weights(Fresh(succ), R) + Weights(Remaining(l, result, R), R) <= Weight(l, R)
    ensures TriesLeft(Remaining(l, result, R), R) + 1 <= R - l.tries
  {
    var rest := Remaining(l, result, R);
    if rest != [] {
      assert rest[1..] == [];
      assert Weights(rest, R) == Weight(rest[0], R);
    }
  }

  /** The follow-ups `begun` of one call and what they can still cause are paid for by the call. */
  ghost predicate Pays(begun: seq<string>, l: Live, result: Status, R: nat)
    requires l.tries <= R
  {
    && InBounds(Fresh(begun), R) && InBounds(Remaining(l, result, R), R)
    && |begun| + Weights(Fresh(begun), R) + Weights(Remaining(l, result, R), R) <= Weight(l, R)
    && TriesLeft(Remaining(l, result, R), R) + 1 <= R - l.tries
  }

  /** What a follow-up of this handler can cause is at most `most`. */
  ghost predicate Cheap(h: Option<string>, most: nat, R: nat)
  {
    h.Some? ==> InBounds(Fresh([h.value]), R) && Weights(Fresh([h.value]), R) <= most
  }

  lemma CallPays(handlers: set<string>, l: Live, result: Status, R: nat)
    requires l.tries < R
    ensures Pays(FollowUpsOf(handlers, l.event, result), l, result, R)
  {
    StepsAreCheap(handlers, l.event, R);
    NamesPay(StepsOf(handlers, l.event), l, result, R);
  }

  lemma StepsAreCheap(handlers: set<string>, event: string, R: nat)
    ensures var steps := StepsOf(handlers, event);
            && Cheap(steps.succeeded, R, R) && Cheap(steps.failed, 0, R) && Cheap(steps.done, 0, R)
            && (steps.last <==> Rank(event) == 0) && (!steps.last ==> (steps.plain <==> Rank(event) == 2))
  {
    SuffixRank(event);
    HandlerIsCheap(handlers, event, SUCCEEDED, R);
    HandlerIsCheap(handlers, event, FAILED, R);
    HandlerIsCheap(handlers, event, DONE, R);
  }

  lemma HandlerIsCheap(handlers: set<string>, event: string, saga: string, R: nat)
    requires saga == SUCCEEDED || saga == FAILED || saga == DONE
    ensures Cheap(CheckHandlerExists(handlers, event, saga), if saga == SUCCEEDED then R else 0, R)
  {
    var h := CheckHandlerExists(handlers, event, saga);
    if h.Some? {
      SuffixRank(h.value);
      FreshOne(h.value, R);
    }
  }

  lemma NamesPay(steps: Steps<string>, l: Live, result: Status, R: nat)
    requires l.tries < R && Cheap(steps.succeeded, R, R) && Cheap(steps.failed, 0, R) && Cheap(steps.done, 0, R)
    requires (steps.last <==> Rank(l.event) == 0) && (!steps.last ==> (steps.plain <==> Rank(l.event) == 2))
    ensures Pays(Names(steps, result), l, result, R)
  {
    if steps.last {
      PaidFor([], [], [], l, result, R);
    } else {
      var succ, fail, done := Name(steps.succeeded, result == Done && steps.plain), Name(steps.failed, result == Error),
                              Name(steps.done, steps.plain);
      PaidFor(succ, fail, done, l, result, R);
      FreshThree(succ, fail, done, R);
    }
  }

  lemma FreshThree(a: seq<string>, b: seq<string>, c: seq<string>, R: nat)
    requires InBounds(Fresh(a), R) && InBounds(Fresh(b), R) && InBounds(Fresh(c), R)
    ensures InBounds(Fresh(a + b + c), R)
    ensures Weights(Fresh(a + b + c), R) == Weights(Fresh(a), R) + Weights(Fresh(b), R) + Weights(Fresh(c), R)
  {
    FreshConcat(a + b, c);
    FreshConcat(a, b);
    WeightsConcat(Fresh(a), Fresh(b), R);
    WeightsConcat(Fresh(a) + Fresh(b), Fresh(c), R);
  }

  lemma FreshConcat(a: seq<string>, b: seq<string>)
    ensures Fresh(a + b) == Fresh(a) + Fresh(b)
  {
  }

  lemma FreshOne(event: string, R: nat)
    ensures Fresh([event]) == [Live(event, 0)]
    ensures InBounds(Fresh([event]), R) && Weights(Fresh([event]), R) == Weight(Live(event, 0), R)
  {
    assert [event][1..] == [];
    assert [Live(event, 0)][1..] == [];
  }

  ghost predicate Bounded(s: Saga, R: nat)
  {
    && InBounds(s.live, R)
    && s.created + Weights(s.live, R) <= 3 * R
    && s.calls + TriesLeft(s.live, R) <= R + Times(s.created, R)
  }

  lemma ReplaceOne(a: seq<Live>, l: Live, b: seq<Live>, rest: seq<Live>, begun: seq<Live>, R: nat)
    requires InBounds(a + [l] + b, R) && InBounds(rest, R) && InBounds(begun, R)
    ensures l.tries <= R && InBounds(a + rest + b + begun, R)
    ensures Weights(a + rest + b + begun, R) + Weight(l, R)
         == Weights(a + [l] + b, R) + Weights(rest, R) + Weights(begun, R)
    ensures TriesLeft(a + rest + b + begun, R) + (R - l.tries)
         == TriesLeft(a + [l] + b, R) + TriesLeft(rest, R) + TriesLeft(begun, R)
  {
    var all := a + [l] + b;
    assert forall i | 0 <= i < |a| :: a[i] == all[i];
    assert forall i | 0 <= i < |b| :: b[i] == all[|a| + 1 + i];
    assert all[|a|] == l && [l][1..] == [];
    WeightsConcat(a, [l], R);
    WeightsConcat(a + [l], b, R);
    WeightsConcat(a, rest, R);
    WeightsConcat(a + rest, b, R);
    WeightsConcat(a + rest + b, begun, R);
  }

  /** One step in totals. */
  lemma Totals(a: seq<Live>, l: Live, b: seq<Live>, rest: seq<Live>, begun: seq<Live>, R: nat, n: nat, more: nat)
    requires InBounds(a + [l] + b, R) && InBounds(rest, R) && InBounds(begun, R) && l.tries <= R
    requires n + Weights(begun, R) + Weights(rest, R) <= Weight(l, R)
    requires TriesLeft(rest, R) + 1 <= R - l.tries && TriesLeft(begun, R) == more
    ensures InBounds(a + rest + b + begun, R)
    ensures n + Weights(a + rest + b + begun, R) <= Weights(a + [l] + b, R)
    ensures 1 + TriesLeft(a + rest + b + begun, R) <= TriesLeft(a + [l] + b, R) + more
  {
    ReplaceOne(a, l, b, rest, begun, R);
  }

  /** From `s` to `t`, what was created and called is paid for. */
  ghost predicate Paid(s: Saga, t: Saga, R: nat)
    requires InBounds(s.live, R)
  {
    && InBounds(t.live, R)
    && t.created >= s.created
    && t.created + Weights(t.live, R) <= s.created + Weights(s.live, R)
    && t.calls + TriesLeft(t.live, R) <= s.calls + TriesLeft(s.live, R) + Times(t.created - s.created, R)
  }

  /** One call, by what it leaves of its event and what it begins. */
  function Replace(s: Saga, i: nat, rest: seq<Live>, begun: seq<string>): Saga
    requires i < |s.live|
  {
    Saga(s.live[..i] + rest + s.live[i + 1..] + Fresh(begun), s.created + |begun|, s.calls + 1)
  }

  lemma ReplaceIsPaid(s: Saga, i: nat, rest: seq<Live>, begun: seq<string>, R: nat)
    requires InBounds(s.live, R) && i < |s.live| && InBounds(rest, R) && InBounds(Fresh(begun), R)
    requires |begun| + Weights(Fresh(begun), R) + Weights(rest, R) <= Weight(s.live[i], R)
    requires TriesLeft(rest, R) + 1 <= R - s.live[i].tries
    ensures Paid(s, Replace(s, i, rest, begun), R)
  {
    var a, l, b := s.live[..i], s.live[i], s.live[i + 1..];
    assert s.live == a + [l] + b;
    FreshBounds(begun, R);
    Totals(a, l, b, rest, Fresh(begun), R, |begun|, Times(|begun|, R));
  }

  lemma CallIsPaid(s: Saga, c: Call, handlers: set<string>, R: nat)
    requires InBounds(s.live, R) && CanCall(s, c, R)
    ensures Paid(s, CallStep(s, c, FollowUp(handlers), R), R)
  {
    var l := s.live[c.i];
    CallPays(handlers, l, c.result, R);
    ReplaceIsPaid(s, c.i, Remaining(l, c.result, R), FollowUpsOf(handlers, l.event, c.result), R);
  }

  lemma CallKeepsBound(s: Saga, c: Call, handlers: set<string>, R: nat)
    requires Bounded(s, R) && CanCall(s, c, R)
    ensures Bounded(CallStep(s, c, FollowUp(handlers), R), R)
  {
    CallIsPaid(s, c, handlers, R);
    BoundFromTotals(s, CallStep(s, c, FollowUp(handlers), R), R);
  }

  lemma BoundFromTotals(s: Saga, t: Saga, R: nat)
    requires Bounded(s, R) && Paid(s, t, R)
    ensures Bounded(t, R)
  {
    TimesAdd(s.created, t.created - s.created, R);
  }

  ghost predicate CanRun(s: Saga, calls: seq<Call>, follow: Follow, R: nat)
    decreases |calls|
  {
    calls != [] ==> CanCall(s, calls[0], R) && CanRun(CallStep(s, calls[0], follow, R), calls[1..], follow, R)
  }

  ghost function RunCalls(s: Saga, calls: seq<Call>, follow: Follow, R: nat): Saga
    requires CanRun(s, calls, follow, R)
    decreases |calls|
  {
    if calls == [] then s else RunCalls(CallStep(s, calls[0], follow, R), calls[1..], follow, R)
  }

  lemma {:induction false} RunKeepsBound(s: Saga, calls: seq<Call>, handlers: set<string>, R: nat)
    requires Bounded(s, R) && CanRun(s, calls, FollowUp(handlers), R)
    ensures Bounded(RunCalls(s, calls, FollowUp(handlers), R), R)
    ensures RunCalls(s, calls, FollowUp(handlers), R).calls == s.calls + |calls|
    decreases |calls|
  {
    if calls != [] {
      CallKeepsBound(s, calls[0], handlers, R);
      RunKeepsBound(CallStep(s, calls[0], FollowUp(handlers), R), calls[1..], handlers, R);
    }
  }

  /** Sagas are finite, whatever the results and in whatever order the events are handled: with R
      tries per event one root event causes at most 3R follow-ups, and the whole saga at most
      R + 3R * R handler calls. */
  lemma SagaIsFinite(root: string, calls: seq<Call>, handlers: set<string>, R: nat)
    requires CanRun(Saga([Live(root, 0)], 0, 0), calls, FollowUp(handlers), R)
    ensures RunCalls(Saga([Live(root, 0)], 0, 0), calls, FollowUp(handlers), R).created <= 3 * R
    ensures |calls| <= R + 3 * R * R
  {
    var s := Saga([Live(root, 0)], 0, 0);
    assert s.live[1..] == [];
    assert Weights(s.live, R) == Weight(s.live[0], R) && TriesLeft(s.live, R) == R;
    RunKeepsBound(s, calls, handlers, R);
    var t := RunCalls(s, calls, FollowUp(handlers), R);
    TimesIsProduct(t.created, R);
    Scale(t.created, 3 * R, R);
  }

  lemma Scale(a: nat, b: nat, k: nat)
    requires a <= b
    ensures a * k <= b * k
  {
  }

  // ----- the bound is reached -----

  lemma NamesWithAll<T>(steps: Steps<T>)
    requires steps.succeeded.Some? && steps.failed.Some? && steps.done.Some? && !steps.last
    ensures steps.plain ==> |Names(steps, Error)| == 2 && Names(steps, Done) == [steps.succeeded.value, steps.done.value]
    ensures !steps.plain ==> |Names(steps, Error)| == 1
  {
  }

  lemma HowMany(handlers: set<string>, root: string)
    requires SUCCEEDED in handlers && FAILED in handlers && DONE in handlers && Rank(root) == 2
    ensures |FollowUpsOf(handlers, root, Error)| == |FollowUpsOf(handlers, root, Done)| == 2
    ensures EndsWith(FollowUpsOf(handlers, root, Done)[0], SUCCEEDED)
  {
    SuffixRank(root);
    NamesWithAll(StepsOf(handlers, root));
  }

  lemma OneAfterSucceeded(handlers: set<string>, event: string)
    requires SUCCEEDED in handlers && FAILED in handlers && DONE in handlers && EndsWith(event, SUCCEEDED)
    ensures |FollowUpsOf(handlers, event, Error)| == 1
  {
    SuffixRank(event);
    NamesWithAll(StepsOf(handlers, event));
  }

  /** Some calls lead from `s` to `t`. */
  ghost predicate Leads(s: Saga, t: Saga, follow: Follow, R: nat)
  {
    exists calls :: CanRun(s, calls, follow, R) && RunCalls(s, calls, follow, R) == t
  }

  lemma {:induction false} RunOneMore(s: Saga, calls: seq<Call>, c: Call, follow: Follow, R: nat)
    requires CanRun(s, calls, follow, R) && CanCall(RunCalls(s, calls, follow, R), c, R)
    ensures CanRun(s, calls + [c], follow, R)
    ensures RunCalls(s, calls + [c], follow, R) == CallStep(RunCalls(s, calls, follow, R), c, follow, R)
    decreases |calls|
  {
    if calls == [] {
      assert calls + [c] == [c] && [c][1..] == [];
      assert CanRun(CallStep(s, c, follow, R), [], follow, R);
    } else {
      RunOneMore(CallStep(s, calls[0], follow, R), calls[1..], c, follow, R);
      assert (calls + [c])[0] == calls[0] && (calls + [c])[1..] == calls[1..] + [c];
    }
  }

  lemma LeadsFurther(s0: Saga, s: Saga, c: Call, follow: Follow, R: nat)
    requires Leads(s0, s, follow, R) && CanCall(s, c, R)
    ensures Leads(s0, CallStep(s, c, follow, R), follow, R)
  {
    var calls :| CanRun(s0, calls, follow, R) && RunCalls(s0, calls, follow, R) == s;
    RunOneMore(s0, calls, c, follow, R);
    assert RunCalls(s0, calls + [c], follow, R) == CallStep(s, c, follow, R);
  }

  /** Event `i` fails `k` times and stays in the queue; each time `n` follow-ups are published. */
  lemma {:induction false} FailsAgain(s0: Saga, s: Saga, i: nat, k: nat, n: nat, follow: Follow, R: nat) returns (t: Saga)
    requires Leads(s0, s, follow, R) && i < |s.live| && s.live[i].tries + k < R
    requires n == |follow(s.live[i].event, Error)|
    ensures Leads(s0, t, follow, R) && t.created == s.created + k * n
    ensures |t.live| == |s.live| + k * n && t.live[i] == Live(s.live[i].event, s.live[i].tries + k)
    decreases k
  {
    t := s;
    if k > 0 {
      LeadsFurther(s0, s, Call(i, Error), follow, R);
      OneFailure(s, i, n, follow, R);
      t := FailsAgain(s0, CallStep(s, Call(i, Error), follow, R), i, k - 1, n, follow, R);
      assert (k - 1) * n + n == k * n;
    }
  }

  lemma OneFailure(s: Saga, i: nat, n: nat, follow: Follow, R: nat)
    requires i < |s.live| && s.live[i].tries + 1 < R && n == |follow(s.live[i].event, Error)|
    ensures var t := CallStep(s, Call(i, Error), follow, R);
            && t.created == s.created + n && |t.live| == |s.live| + n
            && t.live[i] == Live(s.live[i].event, s.live[i].tries + 1)
  {
  }

  /** With handlers for all three follow-ups every plain event can cause exactly 3R of them: it fails until its
      last try, in which it succeeds, and its #succeeded event fails in all of its tries. */
  lemma BoundIsReached(root: string, handlers: set<string>, R: nat)
    requires SUCCEEDED in handlers && FAILED in handlers && DONE in handlers && Rank(root) == 2 && R > 0
    ensures exists t :: Leads(Saga([Live(root, 0)], 0, 0), t, FollowUp(handlers), R) && t.created == 3 * R
  {
    HowMany(handlers, root);
    OneAfterSucceeded(handlers, FollowUpsOf(handlers, root, Done)[0]);
    var t := WorstSaga(root, FollowUp(handlers), R);
  }

  lemma WorstSaga(root: string, follow: Follow, R: nat) returns (t: Saga)
    requires |follow(root, Error)| == |follow(root, Done)| == 2 && |follow(follow(root, Done)[0], Error)| == 1 && R > 0
    ensures Leads(Saga([Live(root, 0)], 0, 0), t, follow, R) && t.created == 3 * R
  {
    var s0 := Saga([Live(root, 0)], 0, 0);
    assert CanRun(s0, [], follow, R) && RunCalls(s0, [], follow, R) == s0;
    var s1 := FailsAgain(s0, s0, 0, R - 1, 2, follow, R);
    LeadsFurther(s0, s1, Call(0, Done), follow, R);
    var s2 := CallStep(s1, Call(0, Done), follow, R);
    var i := |s1.live| - 1;
    assert |s2.live| == i + 2 && s2.live[i] == Live(follow(root, Done)[0], 0);
    var s3 := FailsAgain(s0, s2, i, R - 1, 1, follow, R);
    LeadsFurther(s0, s3, Call(i, Error), follow, R);
    t := CallStep(s3, Call(i, Error), follow, R);
  }
}
