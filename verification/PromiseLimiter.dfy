/** The promise limiter of `src/shared/common.js`: calls an iterator for every payload with a bounded
    number of calls in flight. Payloads are known by their index; what an iterator answers, and when,
    is up to the environment. */
module PromiseLimiter {
  import opened Collections

  datatype Outcome<V, E> = Fulfilled(value: V) | Rejected(reason: E)

  /** A limiter in the middle of its work. `settled` holds the promises that have settled; `running`
      is the array of the same name; `raced` is the array as it was when the loop started to wait in
      `Promise.race`, empty when the loop does not wait; `calls` logs the iterator's calls. */
  datatype State<V, E> = State(
    next: nat, calls: seq<nat>, settled: map<nat, Outcome<V, E>>, running: seq<nat>, raced: seq<nat>)

  function Start<V, E>(): State<V, E>
  {
    State(0, [], map[], [], [])
  }

  /** What can happen: a promise settles; its `finally` callback takes it out of the running array;
      the loop wakes up from the race. */
  datatype Step<V, E> = Settle(i: nat, outcome: Outcome<V, E>) | Cleanup(i: nat) | Resume

  predicate Tracks(limit: int, n: nat) { limit <= n }

  /** Starts the payload `next`. */
  function Call<V, E>(limit: int, n: nat, s: State<V, E>): State<V, E>
  {
    s.(next := s.next + 1, calls := s.calls + [s.next],
       running := if Tracks(limit, n) then s.running + [s.next] else s.running)
  }

  predicate MustWait<V, E>(limit: int, n: nat, s: State<V, E>)
  {
    Tracks(limit, n) && limit <= |s.running|
  }

  /** The loop, up to the next race or its end. */
  function Loop<V, E>(limit: int, n: nat, s: State<V, E>): State<V, E>
    decreases n - s.next
  {
    if s.next >= n then s
    else
      var t := Call(limit, n, s);
      if MustWait(limit, n, t) then t.(raced := t.running) else Loop(limit, n, t)
  }

  predicate InFlight<V, E>(s: State<V, E>, i: nat)
  {
    i < s.next && i !in s.settled
  }

  predicate Enabled<V, E>(s: State<V, E>, step: Step<V, E>)
  {
    match step
    case Settle(i, _) => InFlight(s, i)
    case Cleanup(i) => i in s.settled && i in s.running
    case Resume => exists i :: 0 <= i < |s.raced| && s.raced[i] !in s.running
  }

  /** The array without its first `i`. */
  function Without(a: seq<nat>, i: nat): seq<nat>
  {
    if a == [] then [] else if a[0] == i then a[1..] else [a[0]] + Without(a[1..], i)
  }

  function Apply<V, E>(limit: int, n: nat, s: State<V, E>, step: Step<V, E>): State<V, E>
  {
    match step
    case Settle(i, outcome) => s.(settled := s.settled[i := outcome])
    case Cleanup(i) => s.(running := Without(s.running, i))
    case Resume => Loop(limit, n, s.(raced := []))
  }

  function Run<V, E>(limit: int, n: nat, steps: seq<Step<V, E>>): State<V, E>
  {
    if steps == [] then Loop(limit, n, Start())
    else Apply(limit, n, Run(limit, n, steps[..|steps| - 1]), steps[|steps| - 1])
  }

  predicate Legal<V, E>(limit: int, n: nat, steps: seq<Step<V, E>>)
  {
    steps == []
    || (Legal(limit, n, steps[..|steps| - 1]) && Enabled(Run(limit, n, steps[..|steps| - 1]), steps[|steps| - 1]))
  }

  // ----- what every step keeps -----

  /** A limit below one works like one. */
  function Cap(limit: int): nat { if limit < 1 then 1 else limit }

  function UpTo(k: nat): (r: seq<nat>)
    ensures |r| == k && forall i | 0 <= i < k :: r[i] == i
  {
    seq(k, i requires 0 <= i < k => i)
  }

  ghost predicate Ascending(a: seq<nat>)
  {
    forall i, j | 0 <= i < j < |a| :: a[i] < a[j]
  }

  ghost predicate Counted<V, E>(limit: int, n: nat, s: State<V, E>)
  {
    && s.next <= n
    && s.calls == UpTo(s.next)
    && (forall i | i in s.settled :: i < s.next)
    && Ascending(s.running)
    && (forall i | i in s.running :: i < s.next)
    && (Tracks(limit, n) ==> forall i | InFlight(s, i) :: i in s.running)
    && (!Tracks(limit, n) ==> s.running == [] && s.raced == [])
  }

  /** Between steps the loop waits in a race or has ended; a race that can end has lost a member. */
  ghost predicate Inv<V, E>(limit: int, n: nat, s: State<V, E>)
  {
    && Counted(limit, n, s)
    && |s.running| <= Cap(limit)
    && |s.raced| <= Cap(limit)
    && (s.raced == [] ==> s.next == n)
    && (s.raced != [] ==> s.running == s.raced || |s.running| < |s.raced|)
  }

  lemma {:induction false} LoopKeeps<V, E>(limit: int, n: nat, s: State<V, E>)
    requires Counted(limit, n, s) && s.raced == [] && (|s.running| < Cap(limit) || s.next == n)
    requires |s.running| <= Cap(limit)
    ensures Inv(limit, n, Loop(limit, n, s))
    ensures Loop(limit, n, s).settled == s.settled
    ensures Loop(limit, n, s).next >= s.next
    ensures Measure(n, Loop(limit, n, s)) <= Measure(n, s)
    decreases n - s.next
  {
    if s.next < n {
      var t := Call(limit, n, s);
      assert forall i | InFlight(t, i) :: i == s.next || InFlight(s, i);
      assert forall i | 0 <= i < |s.running| :: s.running[i] in s.running;
      if !MustWait(limit, n, t) { LoopKeeps(limit, n, t); }
    }
  }

  lemma {:induction false} WithoutKeeps(a: seq<nat>, i: nat)
    requires Ascending(a) && i in a
    ensures Ascending(Without(a, i)) && |Without(a, i)| == |a| - 1
    ensures forall j :: j in Without(a, i) <==> j in a && j != i
  {
    if a[0] != i {
      WithoutKeeps(a[1..], i);
      var w := Without(a[1..], i);
      forall j, k | 0 <= j < k < |w| + 1 ensures ([a[0]] + w)[j] < ([a[0]] + w)[k] {
        assert w[k - 1] in a[1..];
      }
    }
  }

  /** Bounds the steps still to come. */
  function Measure<V, E>(n: nat, s: State<V, E>): int
  {
    3 * (n - s.next) + (s.next - |s.settled|) + |s.running| + if s.raced != [] then 1 else 0
  }

  lemma StepKeepsInv<V, E>(limit: int, n: nat, s: State<V, E>, step: Step<V, E>)
    requires Inv(limit, n, s) && Enabled(s, step)
    ensures Inv(limit, n, Apply(limit, n, s, step))
    ensures Measure(n, Apply(limit, n, s, step)) < Measure(n, s)
    ensures Apply(limit, n, s, step).settled == if step.Settle? then s.settled[step.i := step.outcome] else s.settled
  {
    match step
    case Settle(i, outcome) =>
      assert Apply(limit, n, s, step).settled.Keys == s.settled.Keys + {i};
    case Cleanup(i) =>
      WithoutKeeps(s.running, i);
    case Resume =>
      LoopKeeps(limit, n, s.(raced := []));
  }

  lemma {:induction false} RunKeepsInv<V, E>(limit: int, n: nat, steps: seq<Step<V, E>>)
    requires Legal(limit, n, steps)
    ensures Inv(limit, n, Run(limit, n, steps))
    ensures Measure(n, Run(limit, n, steps)) + |steps| <= 3 * n
  {
    if steps == [] {
      LoopKeeps<V, E>(limit, n, Start());
    } else {
      RunKeepsInv(limit, n, steps[..|steps| - 1]);
      StepKeepsInv(limit, n, Run(limit, n, steps[..|steps| - 1]), steps[|steps| - 1]);
    }
  }

  // ----- the results -----

  function Members(a: seq<nat>): (r: set<nat>)
    ensures |r| <= |a| && forall i :: i in r <==> i in a
  {
    if a == [] then {} else {a[0]} + Members(a[1..])
  }

  function Flying<V, E>(s: State<V, E>): set<nat>
  {
    set i | i in Below(s.next) && InFlight(s, i)
  }

  /** At every moment: at most `limit` calls in flight (one, for a limit below one), and the
      iterator was called for the first payloads, each once, in order. */
  lemma AtMostLimitInFlight<V, E>(limit: int, n: nat, steps: seq<Step<V, E>>)
    requires Legal(limit, n, steps)
    ensures var s := Run(limit, n, steps);
            |Flying(s)| <= (if limit < 1 then 1 else limit) && s.calls == UpTo(s.next) && s.next <= n
  {
    RunKeepsInv(limit, n, steps);
    var s := Run(limit, n, steps);
    if Tracks(limit, n) {
      CardMono(Flying(s), Members(s.running));
    } else {
      CardMono(Flying(s), Below(n));
    }
  }

  /** The run is over: nothing in flight, no callback due. */
  ghost predicate Quiet<V(!new), E(!new)>(s: State<V, E>)
  {
    forall step: Step<V, E> :: !Enabled(s, step)
  }

  /** Every run ends, after at most three steps a payload, and when nothing more can happen, every
      payload was started, in order, and has settled, whatever was rejected on the way. */
  lemma EndsWithAllSettled<V(!new), E(!new)>(limit: int, n: nat, steps: seq<Step<V, E>>, v: V)
    requires Legal(limit, n, steps)
    ensures |steps| <= 3 * n
    ensures var s := Run(limit, n, steps);
            Quiet(s) ==> s.calls == UpTo(n) && AllSettled(n, s)
  {
    RunKeepsInv(limit, n, steps);
    var s := Run(limit, n, steps);
    CardMono(s.settled.Keys, Below(s.next));
    if Quiet(s) {
      forall i: nat | i < s.next ensures i in s.settled {
        assert !Enabled(s, Settle(i, Fulfilled(v)));
      }
      if s.raced != [] { WaitingCanMove(limit, n, s); }
    }
  }

  /** Waiting for settled promises only, the loop is woken up or a callback is due. */
  lemma WaitingCanMove<V, E>(limit: int, n: nat, s: State<V, E>)
    requires Inv(limit, n, s) && s.raced != [] && forall i: nat | i < s.next :: i in s.settled
    ensures Enabled(s, Resume) || Enabled(s, Cleanup(s.raced[0]))
  {
    if s.raced[0] in s.running {
      assert s.raced[0] < s.next;
    }
  }

  /** What a payload's call answered is what is kept for it. */
  lemma {:induction false} AnswerIsKept<V, E>(limit: int, n: nat, steps: seq<Step<V, E>>, k: nat)
    requires Legal(limit, n, steps) && k < |steps| && steps[k].Settle?
    ensures var settled := Run(limit, n, steps).settled;
            steps[k].i in settled && settled[steps[k].i] == steps[k].outcome
  {
    var init := steps[..|steps| - 1];
    RunKeepsInv(limit, n, init);
    StepKeepsInv(limit, n, Run(limit, n, init), steps[|steps| - 1]);
    if k < |steps| - 1 { AnswerIsKept(limit, n, init, k); }
  }

  // ----- what the caller gets -----

  datatype Answer<V, E> = Resolved(values: seq<V>) | One(reason: E) | MultiError(reasons: seq<E>)

  /** `r` holds the places of the rejected outcomes, in order. */
  ghost predicate AreRejects<V, E>(results: seq<Outcome<V, E>>, r: seq<nat>)
  {
    && Ascending(r)
    && (forall k | 0 <= k < |r| :: r[k] < |results| && results[r[k]].Rejected?)
    && (forall i | 0 <= i < |results| && results[i].Rejected? :: i in r)
  }

  function Rejects<V, E>(results: seq<Outcome<V, E>>): (r: seq<nat>)
    ensures AreRejects(results, r)
  {
    if results == [] then []
    else
      var n := |results| - 1;
      var front := Rejects(results[..n]);
      assert forall k | 0 <= k < |front| :: front[k] < n && results[..n][front[k]] == results[front[k]];
      assert forall i | 0 <= i < n && results[i].Rejected? :: results[..n][i].Rejected?;
      if results[n].Rejected? then front + [n] else front
  }

  function PromiseAllDone<V, E>(results: seq<Outcome<V, E>>): (r: Answer<V, E>)
    ensures r.Resolved? <==> forall i | 0 <= i < |results| :: results[i].Fulfilled?
    ensures r.Resolved? ==> |r.values| == |results|
    ensures r.Resolved? ==> forall i | 0 <= i < |results| :: results[i] == Fulfilled(r.values[i])
    ensures r.One? ==> exists at: nat :: AreRejects(results, [at]) && results[at].reason == r.reason
    ensures r.MultiError? ==> exists rejects ::
              && AreRejects(results, rejects) && |rejects| == |r.reasons| > 1
              && forall k | 0 <= k < |rejects| :: results[rejects[k]].reason == r.reasons[k]
  {
    var rejects := Rejects(results);
    if |rejects| == 1 then
      assert rejects == [rejects[0]];
      One(results[rejects[0]].reason)
    else if |rejects| > 1 then MultiError(seq(|rejects|, k requires 0 <= k < |rejects| => results[rejects[k]].reason))
    else Resolved(seq(|results|, i requires 0 <= i < |results| => results[i].value))
  }

  ghost predicate AllSettled<V, E>(n: nat, s: State<V, E>)
  {
    forall i: nat :: i in s.settled <==> i < n
  }

  /** The results in payload order, once all have settled. */
  ghost function Results<V, E>(n: nat, s: State<V, E>): (r: seq<Outcome<V, E>>)
    requires AllSettled(n, s)
    ensures |r| == n && forall i | 0 <= i < |r| :: r[i] == s.settled[i]
  {
    seq(n, i requires 0 <= i < n => s.settled[i])
  }

  /** It resolves exactly when no call was rejected, with what each call answered at its payload's
      place. */
  ghost predicate Reflects<V, E>(steps: seq<Step<V, E>>, answer: Answer<V, E>)
  {
    && (answer.Resolved? <==> forall k | 0 <= k < |steps| && steps[k].Settle? :: steps[k].outcome.Fulfilled?)
    && (answer.Resolved? ==>
          forall k | 0 <= k < |steps| && steps[k].Settle? ::
            steps[k].i < |answer.values| && steps[k].outcome == Fulfilled(answer.values[steps[k].i]))
  }

  /** The caller's answer depends on what the calls answered and not on the order in which they did. */
  lemma AnswerOfRun<V(!new), E(!new)>(limit: int, n: nat, steps: seq<Step<V, E>>, v: V)
    requires Legal(limit, n, steps) && Quiet(Run(limit, n, steps))
    ensures AllSettled(n, Run(limit, n, steps))
    ensures Reflects(steps, PromiseAllDone(Results(n, Run(limit, n, steps))))
  {
    EndsWithAllSettled(limit, n, steps, v);
    ResultsAreDelivered(limit, n, steps);
    DeliveredAnswer(steps, Results(n, Run(limit, n, steps)));
  }

  /** The results are what the settle steps brought, each at its payload's place. */
  ghost predicate Delivered<V, E>(steps: seq<Step<V, E>>, results: seq<Outcome<V, E>>)
  {
    && (forall k | 0 <= k < |steps| && steps[k].Settle? ::
          steps[k].i < |results| && results[steps[k].i] == steps[k].outcome)
    && (forall i | 0 <= i < |results| :: Brought(steps, results[i]))
  }

  ghost predicate Brought<V, E>(steps: seq<Step<V, E>>, outcome: Outcome<V, E>)
  {
    exists k :: 0 <= k < |steps| && steps[k].Settle? && steps[k].outcome == outcome
  }

  lemma ResultsAreDelivered<V, E>(limit: int, n: nat, steps: seq<Step<V, E>>)
    requires Legal(limit, n, steps)
    requires AllSettled(n, Run(limit, n, steps))
    ensures Delivered(steps, Results(n, Run(limit, n, steps)))
  {
    var results := Results(n, Run(limit, n, steps));
    forall k | 0 <= k < |steps| && steps[k].Settle?
      ensures steps[k].i < |results| && results[steps[k].i] == steps[k].outcome
    {
      AnswerIsKept(limit, n, steps, k);
    }
    forall i | 0 <= i < |results| ensures Brought(steps, results[i]) {
      SettledByAStep(limit, n, steps, i);
      var k :| 0 <= k < |steps| && steps[k].Settle? && steps[k].i == i;
      AnswerIsKept(limit, n, steps, k);
    }
  }

  lemma DeliveredAnswer<V, E>(steps: seq<Step<V, E>>, results: seq<Outcome<V, E>>)
    requires Delivered(steps, results)
    ensures Reflects(steps, PromiseAllDone(results))
  {
    var answer := PromiseAllDone(results);
    if answer.Resolved? {
      forall k | 0 <= k < |steps| && steps[k].Settle? ensures steps[k].outcome == Fulfilled(answer.values[steps[k].i]) {
        assert results[steps[k].i] == steps[k].outcome;
      }
    }
  }

  lemma {:induction false} SettledByAStep<V, E>(limit: int, n: nat, steps: seq<Step<V, E>>, i: nat)
    requires Legal(limit, n, steps) && i in Run(limit, n, steps).settled
    ensures exists k :: 0 <= k < |steps| && steps[k].Settle? && steps[k].i == i
  {
    if steps == [] {
      LoopKeeps<V, E>(limit, n, Start());
    } else {
      var init := steps[..|steps| - 1];
      RunKeepsInv(limit, n, init);
      StepKeepsInv(limit, n, Run(limit, n, init), steps[|steps| - 1]);
      if i in Run(limit, n, init).settled {
        SettledByAStep(limit, n, init, i);
        var k :| 0 <= k < |init| && init[k].Settle? && init[k].i == i;
        assert steps[k] == init[k];
      } else {
        assert steps[|steps| - 1].Settle? && steps[|steps| - 1].i == i;
      }
    }
  }

  // ----- the code -----

  /** One call of `limiter`, cut at the points where other code runs. */
  class Limiter<V, E> {
    const limit: int
    const n: nat
    var next: nat
    var calls: seq<nat>
    var settled: map<nat, Outcome<V, E>>
    var running: seq<nat>
    var raced: seq<nat>

    function Now(): State<V, E>
      reads this
    {
      State(next, calls, settled, running, raced)
    }

    constructor (limit: int, n: nat)
      ensures this.limit == limit && this.n == n
      ensures Now() == Loop(limit, n, Start()) && Inv(limit, n, Now())
    {
      this.limit, this.n := limit, n;
      next, calls, settled, running, raced := 0, [], map[], [], [];
      new;
      LoopKeeps(limit, n, Now());
      StartPayloads();
    }

    /** The loop over the payloads, until it has to wait. */
    method StartPayloads()
      modifies this
      ensures Now() == Loop(limit, n, old(Now()))
    {
      while next < n
        invariant Loop(limit, n, Now()) == Loop(limit, n, old(Now()))
        decreases n - next
      {
        calls := calls + [next];
        if limit <= n {
          running := running + [next];
          if limit <= |running| {
            next := next + 1;
            raced := running;
            return;
          }
        }
        next := next + 1;
      }
    }

    method OnSettled(i: nat, outcome: Outcome<V, E>)
      requires Inv(limit, n, Now()) && Enabled(Now(), Settle(i, outcome))
      modifies this
      ensures Now() == Apply(limit, n, old(Now()), Settle(i, outcome)) && Inv(limit, n, Now())
    {
      StepKeepsInv(limit, n, Now(), Settle(i, outcome));
      settled := settled[i := outcome];
    }

    /** Removes a promise from the running array by its position. */
    method OnFinally(i: nat)
      requires Inv(limit, n, Now()) && Enabled(Now(), Cleanup(i))
      modifies this
      ensures Now() == Apply(limit, n, old(Now()), Cleanup(i)) && Inv(limit, n, Now())
    {
      StepKeepsInv(limit, n, Now(), Cleanup(i));
      var at := IndexOf(running, i);
      SpliceIsWithout(running, at);
      running := running[..at] + running[at + 1..];
    }

    method OnWakeUp()
      requires Inv(limit, n, Now()) && Enabled(Now(), Resume)
      modifies this
      ensures Now() == Apply(limit, n, old(Now()), Resume) && Inv(limit, n, Now())
    {
      StepKeepsInv(limit, n, Now(), Resume);
      raced := [];
      StartPayloads();
    }
  }

  method IndexOf(a: seq<nat>, i: nat) returns (at: nat)
    requires i in a
    ensures at < |a| && a[at] == i && i !in a[..at]
  {
    at := 0;
    while a[at] != i
      invariant 0 <= at < |a| && i !in a[..at]
      decreases |a| - at
    {
      assert a == a[..at + 1] + a[at + 1..];
      at := at + 1;
    }
  }

  lemma {:induction false} SpliceIsWithout(a: seq<nat>, at: nat)
    requires at < |a| && a[at] !in a[..at]
    ensures a[..at] + a[at + 1..] == Without(a, a[at])
  {
    if at > 0 {
      var b := a[1..];
      assert a[0] == a[..at][0] && forall k | 0 <= k < at - 1 :: b[k] == a[..at][k + 1];
      SpliceIsWithout(b, at - 1);
      assert a[..at] + a[at + 1..] == [a[0]] + (b[..at - 1] + b[at..]);
    }
  }
}
