/** The expiring cache of `src/shared/lazyCache.js`: `getSetCb` asks a callback for a value and its
    lifetime, and serves that value until shortly before the lifetime is over. */
module ExpiringCache {
  import opened EventTable

  /** A JavaScript number as far as it matters here. */
  datatype Number = Finite(n: int) | Infinity | NaN

  /** What a callback comes to: a lifetime with a value, a rejection, a promise whose result the
      extractor cannot read, or an exception in the call itself (or in reading its result), which
      leaves `setCb` before it stores anything. */
  datatype Outcome<V> = Returned(lifetime: Number, value: V) | Rejected | Unreadable | ThrewAtOnce

  datatype Slot<V> = Promise(call: nat) | Value(value: V)

  datatype Entry<V> = Entry(expires: Number, slot: Slot<V>)

  datatype Call<K> = Call(key: K, start: int)

  /** The cache, with a log of the callbacks called so far and of what has come of them. Promises are
      known by their callback's place in the log. */
  datatype State<!K, V> = State(data: map<K, Entry<V>>, calls: seq<Call<K>>, outcomes: map<nat, Outcome<V>>)

  /** `answer`: what the callback returns, `None` for a promise. Times are what the caller passes, or
      the clock; they need not grow. */
  datatype Step<K, V> =
    | GetSetCb(key: K, time: int, answer: Option<Outcome<V>>)
    | SetCb(key: K, time: int, answer: Option<Outcome<V>>)
    | Set(key: K, time: int, lifetime: Number, value: V)
    | Settle(call: nat, outcome: Outcome<V>)
    | Delete(key: K)
    | Clear

  function Expiry(start: int, lifetime: Number, gap: int): Number
  {
    match lifetime
    case Finite(n) => Finite(start + n - gap)
    case Infinity => Infinity
    case NaN => NaN
  }

  /** Zero and NaN are falsy. */
  predicate IsValid(expires: Number, time: int)
  {
    match expires
    case Finite(n) => n != 0 && time <= n
    case Infinity => true
    case NaN => false
  }

  predicate Has<K, V>(s: State<K, V>, key: K, time: int)
  {
    key in s.data && IsValid(s.data[key].expires, time)
  }

  function Get<K, V>(s: State<K, V>, key: K, time: int): Option<Slot<V>>
  {
    if Has(s, key, time) then Some(s.data[key].slot) else None
  }

  /** Calls the callback and stores what it returns. */
  function CallAndStore<K, V>(gap: int, s: State<K, V>, key: K, time: int, answer: Option<Outcome<V>>): State<K, V>
  {
    var id := |s.calls|;
    var calls := s.calls + [Call(key, time)];
    match answer
    case None => State(s.data[key := Entry(Infinity, Promise(id))], calls, s.outcomes)
    case Some(Returned(lifetime, value)) =>
      State(s.data[key := Entry(Expiry(time, lifetime, gap), Value(value))], calls, s.outcomes[id := answer.value])
    case Some(_) => State(s.data, calls, s.outcomes[id := ThrewAtOnce])
  }

  predicate InFlight<K, V>(s: State<K, V>, call: nat)
  {
    call < |s.calls| && call !in s.outcomes
  }

  predicate Enabled<K, V>(s: State<K, V>, step: Step<K, V>)
  {
    step.Settle? ==> InFlight(s, step.call) && !step.outcome.ThrewAtOnce?
  }

  function Apply<K, V>(gap: int, s: State<K, V>, step: Step<K, V>): State<K, V>
    requires Enabled(s, step)
  {
    match step
    case GetSetCb(key, time, answer) => if Has(s, key, time) then s else CallAndStore(gap, s, key, time, answer)
    case SetCb(key, time, answer) => CallAndStore(gap, s, key, time, answer)
    case Set(key, time, lifetime, value) => s.(data := s.data[key := Entry(Expiry(time, lifetime, gap), Value(value))])
    case Settle(call, outcome) =>
      var Call(key, start) := s.calls[call];
      State(match outcome
            case Returned(lifetime, value) => s.data[key := Entry(Expiry(start, lifetime, gap), Value(value))]
            case Unreadable => s.data
            case _ => s.data - {key},
            s.calls, s.outcomes[call := outcome])
    case Delete(key) => s.(data := s.data - {key})
    case Clear => s.(data := map[])
  }

  function Start<K, V>(): State<K, V>
  {
    State(map[], [], map[])
  }

  /** `t` comes out of `s` by the steps, each possible when it is taken. */
  ghost predicate ReachesFrom<K(!new), V(!new)>(gap: int, s: State<K, V>, steps: seq<Step<K, V>>, t: State<K, V>)
  {
    if steps == [] then t == s
    else
      var last := steps[|steps| - 1];
      exists before: State<K, V> ::
        ReachesFrom(gap, s, steps[..|steps| - 1], before) && Enabled(before, last) && t == Apply(gap, before, last)
  }

  ghost predicate Reaches<K(!new), V(!new)>(gap: int, steps: seq<Step<K, V>>, s: State<K, V>)
  {
    ReachesFrom(gap, Start(), steps, s)
  }

  /** Runs that use the cache through `getSetCb`. */
  predicate Plain<K, V>(steps: seq<Step<K, V>>)
  {
    forall i | 0 <= i < |steps| :: steps[i].GetSetCb? || steps[i].Settle?
  }

  // ----- the cache is a function of the log -----

  /** The last callback called for the key that got as far as storing something. */
  function Last<K(==), V>(calls: seq<Call<K>>, outcomes: map<nat, Outcome<V>>, key: K): (r: Option<nat>)
    ensures r.Some? ==> r.value < |calls| && calls[r.value].key == key
  {
    if calls == [] then None
    else
      var c := |calls| - 1;
      if calls[c].key == key && !(c in outcomes && outcomes[c].ThrewAtOnce?) then Some(c)
      else Last(calls[..c], outcomes, key)
  }

  /** What is stored for a key, by the log alone. */
  function Derived<K(==), V>(gap: int, s: State<K, V>, key: K): Option<Entry<V>>
  {
    match Last(s.calls, s.outcomes, key)
    case None => None
    case Some(c) =>
      if c !in s.outcomes || s.outcomes[c].Unreadable? then Some(Entry(Infinity, Promise(c)))
      else match s.outcomes[c]
           case Returned(lifetime, value) => Some(Entry(Expiry(s.calls[c].start, lifetime, gap), Value(value)))
           case _ => None
  }

  function Stored<K, V>(s: State<K, V>, key: K): Option<Entry<V>>
  {
    if key in s.data then Some(s.data[key]) else None
  }

  /** The cache holds what the log says, and every callback in flight is the last of its key. */
  ghost predicate Inv<K(!new), V>(gap: int, s: State<K, V>)
  {
    && (forall key :: Stored(s, key) == Derived(gap, s, key))
    && (forall c: nat | InFlight(s, c) :: Last(s.calls, s.outcomes, s.calls[c].key) == Some(c))
    && (forall c | c in s.outcomes :: c < |s.calls|)
  }

  lemma {:induction false} LastFrame<K, V>(
    calls: seq<Call<K>>, outcomes: map<nat, Outcome<V>>, outcomes': map<nat, Outcome<V>>, key: K)
    requires forall c: nat | c < |calls| ::
               (c in outcomes && outcomes[c].ThrewAtOnce?) == (c in outcomes' && outcomes'[c].ThrewAtOnce?)
    ensures Last(calls, outcomes, key) == Last(calls, outcomes', key)
  {
    if calls != [] { LastFrame(calls[..|calls| - 1], outcomes, outcomes', key); }
  }

  lemma CallKeeps<K(!new), V>(gap: int, s: State<K, V>, key: K, time: int, answer: Option<Outcome<V>>)
    requires Inv(gap, s) && forall c: nat | InFlight(s, c) :: s.calls[c].key != key
    ensures Inv(gap, CallAndStore(gap, s, key, time, answer))
  {
    var t := CallAndStore(gap, s, key, time, answer);
    forall k ensures Stored(t, k) == Derived(gap, t, k) {
      CallOneKey(gap, s, key, time, answer, k);
    }
    forall c: nat | InFlight(t, c) ensures Last(t.calls, t.outcomes, t.calls[c].key) == Some(c) {
      CallOneCallback(gap, s, key, time, answer, c);
    }
  }

  lemma CallOneCallback<K(!new), V>(gap: int, s: State<K, V>, key: K, time: int, answer: Option<Outcome<V>>, c: nat)
    requires Inv(gap, s) && (forall d: nat | InFlight(s, d) :: s.calls[d].key != key)
    requires InFlight(CallAndStore(gap, s, key, time, answer), c)
    ensures var t := CallAndStore(gap, s, key, time, answer); Last(t.calls, t.outcomes, t.calls[c].key) == Some(c)
  {
    if c < |s.calls| {
      assert InFlight(s, c) && s.calls[c].key != key;
      var k := s.calls[c].key;
      assert Stored(s, k) == Derived(gap, s, k);
      CallOneKey(gap, s, key, time, answer, k);
    }
  }

  /** A call changes what is last for its own key only. */
  lemma CallOneKey<K, V>(gap: int, s: State<K, V>, key: K, time: int, answer: Option<Outcome<V>>, k: K)
    requires Stored(s, k) == Derived(gap, s, k) && forall c | c in s.outcomes :: c < |s.calls|
    ensures var t := CallAndStore(gap, s, key, time, answer);
            && Stored(t, k) == Derived(gap, t, k)
            && (k != key ==> Last(t.calls, t.outcomes, k) == Last(s.calls, s.outcomes, k))
  {
    var t := CallAndStore(gap, s, key, time, answer);
    assert t.calls[..|s.calls|] == s.calls;
    LastFrame(s.calls, s.outcomes, t.outcomes, k);
  }

  lemma SettleKeeps<K(!new), V>(gap: int, s: State<K, V>, call: nat, outcome: Outcome<V>)
    requires Inv(gap, s) && InFlight(s, call) && !outcome.ThrewAtOnce?
    ensures Inv(gap, Apply(gap, s, Settle(call, outcome)))
  {
    var t := Apply(gap, s, Settle(call, outcome));
    forall k { LastFrame(s.calls, s.outcomes, t.outcomes, k); }
    forall k ensures Stored(t, k) == Derived(gap, t, k) {
      assert Stored(s, k) == Derived(gap, s, k);
    }
    forall c: nat | InFlight(t, c) ensures Last(t.calls, t.outcomes, t.calls[c].key) == Some(c) {
      assert InFlight(s, c);
    }
  }

  /** A callback in flight keeps its key valid, so `getSetCb` calls no second one. */
  lemma InFlightIsServed<K(!new), V>(gap: int, s: State<K, V>, call: nat, time: int)
    requires Inv(gap, s) && InFlight(s, call)
    ensures Get(s, s.calls[call].key, time) == Some(Promise(call))
  {
    assert Stored(s, s.calls[call].key) == Derived(gap, s, s.calls[call].key);
  }

  lemma {:induction false} RunKeepsInv<K(!new), V(!new)>(gap: int, steps: seq<Step<K, V>>, s: State<K, V>)
    requires Plain(steps) && Reaches(gap, steps, s)
    ensures Inv(gap, s)
  {
    if steps != [] {
      var last := steps[|steps| - 1];
      var before: State<K, V> :|
        ReachesFrom(gap, Start(), steps[..|steps| - 1], before) && Enabled(before, last) && s == Apply(gap, before, last);
      RunKeepsInv(gap, steps[..|steps| - 1], before);
      PlainStepKeeps(gap, before, last);
    }
  }

  lemma PlainStepKeeps<K(!new), V>(gap: int, s: State<K, V>, step: Step<K, V>)
    requires Inv(gap, s) && Enabled(s, step) && (step.GetSetCb? || step.Settle?)
    ensures Inv(gap, Apply(gap, s, step))
  {
    if step.Settle? {
      SettleKeeps(gap, s, step.call, step.outcome);
    } else if !Has(s, step.key, step.time) {
      forall c: nat | InFlight(s, c) ensures s.calls[c].key != step.key {
        InFlightIsServed(gap, s, c, step.time);
      }
      CallKeeps(gap, s, step.key, step.time, step.answer);
    }
  }

  // ----- what users of the cache see -----

  /** The entry is what callback `c` of the key left: its promise, as long as that is in flight or if
      its result could not be read, or the value it returned with the lifetime counted from its call. */
  ghost predicate FromCall<K, V>(gap: int, s: State<K, V>, key: K, entry: Entry<V>, c: nat)
  {
    && c < |s.calls| && s.calls[c].key == key
    && match entry.slot
       case Promise(d) =>
         d == c && entry.expires == Infinity && (c in s.outcomes ==> s.outcomes[c].Unreadable?)
       case Value(v) =>
         && c in s.outcomes && s.outcomes[c].Returned? && s.outcomes[c].value == v
         && entry.expires == Expiry(s.calls[c].start, s.outcomes[c].lifetime, gap)
  }

  /** The entry is what step `k` has set. */
  ghost predicate FromSet<K, V>(gap: int, steps: seq<Step<K, V>>, key: K, entry: Entry<V>, k: nat)
  {
    && k < |steps| && steps[k].Set? && steps[k].key == key
    && entry == Entry(Expiry(steps[k].time, steps[k].lifetime, gap), Value(steps[k].value))
  }

  ghost predicate HasSource<K, V>(gap: int, steps: seq<Step<K, V>>, s: State<K, V>, key: K)
    requires key in s.data
  {
    (exists c: nat :: FromCall(gap, s, key, s.data[key], c)) || (exists k: nat :: FromSet(gap, steps, key, s.data[key], k))
  }

  ghost predicate Sourced<K, V>(gap: int, steps: seq<Step<K, V>>, s: State<K, V>)
  {
    (forall c | c in s.outcomes :: c < |s.calls|) && forall key | key in s.data :: HasSource(gap, steps, s, key)
  }

  lemma StepKeepsSource<K, V>(gap: int, steps: seq<Step<K, V>>, s: State<K, V>, step: Step<K, V>, key: K)
    requires Sourced(gap, steps, s) && Enabled(s, step) && key in Apply(gap, s, step).data
    ensures HasSource(gap, steps + [step], Apply(gap, s, step), key)
  {
    var t, all := Apply(gap, s, step), steps + [step];
    if key in s.data && t.data[key] == s.data[key] && !(step.Settle? && s.calls[step.call].key == key) {
      assert HasSource(gap, steps, s, key);
      if c: nat :| FromCall(gap, s, key, s.data[key], c) { assert FromCall(gap, t, key, t.data[key], c); }
      if k: nat :| FromSet(gap, steps, key, s.data[key], k) { assert FromSet(gap, all, key, t.data[key], k); }
    } else {
      NewSource(gap, steps, s, step, key);
    }
  }

  lemma NewSource<K, V>(gap: int, steps: seq<Step<K, V>>, s: State<K, V>, step: Step<K, V>, key: K)
    requires Sourced(gap, steps, s) && Enabled(s, step) && key in Apply(gap, s, step).data
    requires key !in s.data || Apply(gap, s, step).data[key] != s.data[key] || (step.Settle? && s.calls[step.call].key == key)
    ensures HasSource(gap, steps + [step], Apply(gap, s, step), key)
  {
    var t, all := Apply(gap, s, step), steps + [step];
    match step
    case GetSetCb(_, _, _) => assert FromCall(gap, t, key, t.data[key], |s.calls|);
    case SetCb(_, _, _) => assert FromCall(gap, t, key, t.data[key], |s.calls|);
    case Set(_, _, _, _) => assert FromSet(gap, all, key, t.data[key], |steps|);
    case Settle(call, outcome) =>
      if outcome.Returned? {
        assert FromCall(gap, t, key, t.data[key], call);
      } else {
        assert HasSource(gap, steps, s, key);
        if c: nat :| FromCall(gap, s, key, s.data[key], c) { assert FromCall(gap, t, key, t.data[key], c); }
        if k: nat :| FromSet(gap, steps, key, s.data[key], k) { assert FromSet(gap, all, key, t.data[key], k); }
      }
  }

  lemma {:induction false} RunIsSourced<K(!new), V(!new)>(gap: int, steps: seq<Step<K, V>>, s: State<K, V>)
    requires Reaches(gap, steps, s)
    ensures Sourced(gap, steps, s)
  {
    if steps != [] {
      var front, last := steps[..|steps| - 1], steps[|steps| - 1];
      var before: State<K, V> :| ReachesFrom(gap, Start(), front, before) && Enabled(before, last) && s == Apply(gap, before, last);
      RunIsSourced(gap, front, before);
      assert steps == front + [last];
      StepKeepsSourced(gap, front, before, last);
    }
  }

  lemma StepKeepsSourced<K, V>(gap: int, steps: seq<Step<K, V>>, s: State<K, V>, step: Step<K, V>)
    requires Sourced(gap, steps, s) && Enabled(s, step)
    ensures Sourced(gap, steps + [step], Apply(gap, s, step))
  {
    var t := Apply(gap, s, step);
    forall key | key in t.data ensures HasSource(gap, steps + [step], t, key) { StepKeepsSource(gap, steps, s, step, key); }
    forall c | c in t.outcomes ensures c < |t.calls| { assert c in s.outcomes || c <= |s.calls|; }
  }

  /** `time` is within the lifetime that began at `start`, less the gap. */
  predicate InTime(gap: int, start: int, lifetime: Number, time: int)
  {
    lifetime == Infinity || (lifetime.Finite? && time <= start + lifetime.n - gap)
  }

  /** In every run of all operations: a value is served at `time` only if a callback of the key returned
      it and its lifetime since the call, less the gap, reaches to `time`, or if `set` was called with
      it and the same holds from then on; a promise only if it is in flight or its result could not be
      read. */
  lemma ServedFromLog<K(!new), V(!new)>(gap: int, steps: seq<Step<K, V>>, s: State<K, V>, key: K, time: int)
    requires Reaches(gap, steps, s)
    ensures match Get(s, key, time)
            case None => true
            case Some(Promise(c)) =>
              && c < |s.calls| && s.calls[c].key == key
              && (InFlight(s, c) || (c in s.outcomes && s.outcomes[c].Unreadable?))
            case Some(Value(v)) =>
              || (exists c: nat :: FromCall(gap, s, key, s.data[key], c) && InTime(gap, s.calls[c].start, s.outcomes[c].lifetime, time))
              || (exists k: nat :: FromSet(gap, steps, key, s.data[key], k) && InTime(gap, steps[k].time, steps[k].lifetime, time))
  {
    RunIsSourced(gap, steps, s);
    if Has(s, key, time) {
      assert HasSource(gap, steps, s, key);
    }
  }

  /** A value is served exactly as long as the lifetime of the key's last callback allows; the one
      exception is an expiry time that comes out as zero. */
  lemma ServedIff<K(!new), V(!new)>(gap: int, steps: seq<Step<K, V>>, s: State<K, V>, key: K, time: int, c: nat, e: int, v: V)
    requires Plain(steps) && Reaches(gap, steps, s)
    requires Last(s.calls, s.outcomes, key) == Some(c) && c in s.outcomes && s.outcomes[c] == Returned(Finite(e), v)
    ensures var expires := s.calls[c].start + e - gap;
            Get(s, key, time) == if expires != 0 && time <= expires then Some(Value(v)) else None
  {
    RunKeepsInv(gap, steps, s);
    assert Stored(s, key) == Derived(gap, s, key);
  }

  lemma AtMostOneInFlight<K(!new), V(!new)>(gap: int, steps: seq<Step<K, V>>, s: State<K, V>, c: nat, d: nat)
    requires Plain(steps) && Reaches(gap, steps, s)
    requires InFlight(s, c) && InFlight(s, d) && s.calls[c].key == s.calls[d].key
    ensures c == d
  {
    RunKeepsInv(gap, steps, s);
  }

  /** The step stores something for the key, or could. */
  predicate Stores<K(==), V>(calls: seq<Call<K>>, step: Step<K, V>, key: K)
  {
    match step
    case GetSetCb(k, _, _) => k == key
    case SetCb(k, _, _) => k == key
    case Set(k, _, _, _) => k == key
    case Settle(c, outcome) => c < |calls| && calls[c].key == key && outcome.Returned?
    case _ => false
  }

  /** A rejected callback leaves nothing, in every run of all operations: as long as nothing is stored for
      its key after the rejection, there is no entry. */
  lemma {:induction false} RejectedLeavesNothing<K(!new), V(!new)>(
    gap: int, steps: seq<Step<K, V>>, s: State<K, V>, k: nat, c: nat)
    requires Reaches(gap, steps, s) && k < |steps| && steps[k] == Settle(c, Rejected) && c < |s.calls|
    requires forall i | k < i < |steps| :: !Stores(s.calls, steps[i], s.calls[c].key)
    ensures s.calls[c].key !in s.data
    decreases |steps|
  {
    var front, last := steps[..|steps| - 1], steps[|steps| - 1];
    var before: State<K, V> :| ReachesFrom(gap, Start(), front, before) && Enabled(before, last) && s == Apply(gap, before, last);
    if k < |steps| - 1 {
      CalledBefore(gap, front, before, k, c);
      assert forall d: nat | d < |before.calls| :: s.calls[d] == before.calls[d];
      RejectedLeavesNothing(gap, front, before, k, c);
    }
  }

  /** A callback that settles was called. */
  lemma {:induction false} CalledBefore<K(!new), V(!new)>(gap: int, steps: seq<Step<K, V>>, s: State<K, V>, k: nat, c: nat)
    requires Reaches(gap, steps, s) && k < |steps| && steps[k].Settle? && steps[k].call == c
    ensures c < |s.calls|
    decreases |steps|
  {
    var front, last := steps[..|steps| - 1], steps[|steps| - 1];
    var before: State<K, V> :| ReachesFrom(gap, Start(), front, before) && Enabled(before, last) && s == Apply(gap, before, last);
    if k < |steps| - 1 { CalledBefore(gap, front, before, k, c); }
  }

  /** Every promise that is served is in flight, if and only if no last callback of a key had a result
      that could not be read. */
  lemma PromisesAreInFlightIff<K(!new), V(!new)>(gap: int, steps: seq<Step<K, V>>, s: State<K, V>, time: int)
    requires Plain(steps) && Reaches(gap, steps, s)
    ensures (forall key | Get(s, key, time).Some? && Get(s, key, time).value.Promise? ::
               InFlight(s, Get(s, key, time).value.call))
       <==> forall key :: !LastUnreadable(s, key)
  {
    RunKeepsInv(gap, steps, s);
    forall key ensures LastUnreadable(s, key)
                  <==> Get(s, key, time).Some? && Get(s, key, time).value.Promise? && !InFlight(s, Get(s, key, time).value.call) {
      assert Stored(s, key) == Derived(gap, s, key);
    }
  }

  ghost predicate LastUnreadable<K, V>(s: State<K, V>, key: K)
  {
    match Last(s.calls, s.outcomes, key)
    case None => false
    case Some(c) => c in s.outcomes && s.outcomes[c].Unreadable?
  }

  /** Such a promise is served for good: it has no expiry, and the rejection it turned into was not
      caught. No callback of the key is ever called again. */
  lemma {:induction false} UnreadableForGood<K(!new), V(!new)>(
    gap: int, steps: seq<Step<K, V>>, s: State<K, V>, more: seq<Step<K, V>>, t: State<K, V>, key: K, time: int)
    requires Plain(steps) && Reaches(gap, steps, s) && LastUnreadable(s, key)
    requires Plain(more) && ReachesFrom(gap, s, more, t)
    ensures LastUnreadable(t, key) && Last(t.calls, t.outcomes, key) == Last(s.calls, s.outcomes, key)
    ensures Get(t, key, time) == Some(Promise(Last(s.calls, s.outcomes, key).value))
    decreases |more|
  {
    RunKeepsInv(gap, steps, s);
    KeptUnreadable(gap, s, more, t, key);
    assert Stored(t, key) == Derived(gap, t, key);
  }

  /** It takes one callback whose promise resolves to something that is no pair. */
  lemma UnreadableInput<K(!new), V(!new)>(gap: int, steps: seq<Step<K, V>>, key: K, time: int, t: State<K, V>)
    requires |steps| == 2 && steps[0] == GetSetCb(key, time, None) && steps[1] == Settle(0, Unreadable)
    requires t == Apply(gap, Apply(gap, Start(), steps[0]), steps[1])
    ensures Reaches(gap, steps, t) && LastUnreadable(t, key)
  {
    TwoSteps(gap, Start(), steps);
    assert t.calls == [Call(key, time)] && t.calls[0].key == key;
  }

  lemma TwoSteps<K(!new), V(!new)>(gap: int, s: State<K, V>, steps: seq<Step<K, V>>)
    requires |steps| == 2 && Enabled(s, steps[0]) && Enabled(Apply(gap, s, steps[0]), steps[1])
    ensures ReachesFrom(gap, s, steps, Apply(gap, Apply(gap, s, steps[0]), steps[1]))
  {
    OneMoreStep(gap, s, [], s, steps[0]);
    assert [] + [steps[0]] == [steps[0]];
    OneMoreStep(gap, s, [steps[0]], Apply(gap, s, steps[0]), steps[1]);
    assert [steps[0]] + [steps[1]] == steps;
  }

  lemma OneMoreStep<K(!new), V(!new)>(gap: int, s: State<K, V>, steps: seq<Step<K, V>>, t: State<K, V>, step: Step<K, V>)
    requires ReachesFrom(gap, s, steps, t) && Enabled(t, step)
    ensures ReachesFrom(gap, s, steps + [step], Apply(gap, t, step))
  {
    var all := steps + [step];
    assert all[..|all| - 1] == steps && all[|all| - 1] == step;
    assert ReachesFrom(gap, s, all[..|all| - 1], t);
  }

  lemma {:induction false} KeptUnreadable<K(!new), V(!new)>(
    gap: int, s: State<K, V>, more: seq<Step<K, V>>, t: State<K, V>, key: K)
    requires Inv(gap, s) && LastUnreadable(s, key) && Plain(more) && ReachesFrom(gap, s, more, t)
    ensures Inv(gap, t) && LastUnreadable(t, key) && Last(t.calls, t.outcomes, key) == Last(s.calls, s.outcomes, key)
    decreases |more|
  {
    if more != [] {
      var last := more[|more| - 1];
      var before: State<K, V> :|
        ReachesFrom(gap, s, more[..|more| - 1], before) && Enabled(before, last) && t == Apply(gap, before, last);
      KeptUnreadable(gap, s, more[..|more| - 1], before, key);
      PlainStepKeeps(gap, before, last);
      StepKeepsUnreadable(gap, before, last, key);
    }
  }

  lemma StepKeepsUnreadable<K(!new), V>(gap: int, s: State<K, V>, step: Step<K, V>, key: K)
    requires Inv(gap, s) && LastUnreadable(s, key) && (step.GetSetCb? || step.Settle?) && Enabled(s, step)
    ensures var t := Apply(gap, s, step);
            LastUnreadable(t, key) && Last(t.calls, t.outcomes, key) == Last(s.calls, s.outcomes, key)
  {
    assert Stored(s, key) == Derived(gap, s, key);
    var t := Apply(gap, s, step);
    if step.Settle? {
      LastFrame(s.calls, s.outcomes, t.outcomes, key);
    } else if !Has(s, step.key, step.time) {
      assert step.key != key;
      assert Stored(s, key) == Derived(gap, s, key);
      CallOneKey(gap, s, step.key, step.time, step.answer, key);
    }
  }

  // ----- with the other operations -----

  /** Every callback in flight is what is stored for its key. */
  ghost predicate Covered<K, V>(s: State<K, V>)
  {
    && (forall c: nat | InFlight(s, c) :: Stored(s, s.calls[c].key) == Some(Entry(Infinity, Promise(c))))
    && (forall c | c in s.outcomes :: c < |s.calls|)
  }

  /** The step takes away or replaces what is stored for the callback. */
  predicate DisturbsCall<K(==), V>(s: State<K, V>, step: Step<K, V>, c: nat)
  {
    InFlight(s, c) && match step
      case Delete(key) => key == s.calls[c].key
      case Set(key, _, _, _) => key == s.calls[c].key
      case SetCb(key, _, answer) => key == s.calls[c].key && (answer.None? || answer.value.Returned?)
      case Clear => true
      case _ => false
  }

  ghost predicate Disturbs<K, V>(s: State<K, V>, step: Step<K, V>)
  {
    exists c: nat :: DisturbsCall(s, step, c)
  }

  lemma CoveredIsOne<K, V>(s: State<K, V>, c: nat, d: nat)
    requires Covered(s) && InFlight(s, c) && InFlight(s, d) && s.calls[c].key == s.calls[d].key
    ensures c == d
  {
    assert Stored(s, s.calls[c].key) == Stored(s, s.calls[d].key);
  }

  lemma OthersElsewhere<K, V>(s: State<K, V>, c: nat, d: nat)
    requires Covered(s) && InFlight(s, c) && InFlight(s, d) && c != d
    ensures s.calls[c].key != s.calls[d].key
  {
    if s.calls[c].key == s.calls[d].key { CoveredIsOne(s, c, d); }
  }

  /** Every operation keeps the callbacks in flight covered, and so one for a key, if and only if it does
      not disturb one. */
  lemma CoveredIff<K, V>(gap: int, s: State<K, V>, step: Step<K, V>)
    requires Covered(s) && Enabled(s, step)
    ensures Covered(Apply(gap, s, step)) <==> !Disturbs(s, step)
  {
    var t := Apply(gap, s, step);
    if Disturbs(s, step) {
      var c: nat :| DisturbsCall(s, step, c);
      assert InFlight(t, c) && t.calls[c] == s.calls[c];
    } else {
      QuietKeepsCovered(gap, s, step);
    }
  }

  lemma QuietKeepsCovered<K, V>(gap: int, s: State<K, V>, step: Step<K, V>)
    requires Covered(s) && Enabled(s, step) && !Disturbs(s, step)
    ensures Covered(Apply(gap, s, step))
  {
    var t := Apply(gap, s, step);
    forall c: nat | InFlight(t, c) ensures Stored(t, t.calls[c].key) == Some(Entry(Infinity, Promise(c))) {
      if c < |s.calls| {
        assert InFlight(s, c) && t.calls[c] == s.calls[c] && !DisturbsCall(s, step, c);
        if step.Settle? { OthersElsewhere(s, c, step.call); }
      }
    }
  }

  /** `delete` while a callback is in flight lets a second one start, and when the first then fails,
      it takes away the entry of the second. */
  lemma DeleteAllowsSecond<K, V>(gap: int, s: State<K, V>, c: nat, time: int)
    requires InFlight(s, c) && forall d | d in s.outcomes :: d < |s.calls|
    ensures var key := s.calls[c].key;
            var t := Apply(gap, Apply(gap, s, Delete(key)), GetSetCb(key, time, None));
            && InFlight(t, c) && InFlight(t, |s.calls|) && t.calls[|s.calls|].key == key
            && Get(t, key, time) == Some(Promise(|s.calls|))
            && key !in Apply(gap, t, Settle(c, Rejected)).data
  {
    var key := s.calls[c].key;
    var u := Apply(gap, s, Delete(key));
    assert !Has(u, key, time) && |u.calls| !in u.outcomes;
    var t := Apply(gap, u, GetSetCb(key, time, None));
    assert t.calls[c] == s.calls[c];
  }

  /** So does `setCb` on a key in flight. */
  lemma SetCbAllowsSecond<K, V>(gap: int, s: State<K, V>, c: nat, time: int)
    requires InFlight(s, c) && forall d | d in s.outcomes :: d < |s.calls|
    ensures var t := Apply(gap, s, SetCb(s.calls[c].key, time, None));
            InFlight(t, c) && InFlight(t, |s.calls|) && t.calls[c].key == t.calls[|s.calls|].key
  {
    var t := Apply(gap, s, SetCb(s.calls[c].key, time, None));
    assert t.calls[c] == s.calls[c] && |s.calls| !in s.outcomes;
  }

  /** And `set`, once what it stored has expired. */
  lemma SetAllowsSecond<K, V>(gap: int, s: State<K, V>, c: nat, time: int, lifetime: Number, v: V, later: int)
    requires InFlight(s, c) && (forall d | d in s.outcomes :: d < |s.calls|) && !IsValid(Expiry(time, lifetime, gap), later)
    ensures var key := s.calls[c].key;
            var t := Apply(gap, Apply(gap, s, Set(key, time, lifetime, v)), GetSetCb(key, later, None));
            InFlight(t, c) && InFlight(t, |s.calls|) && t.calls[c].key == t.calls[|s.calls|].key
  {
    var key := s.calls[c].key;
    var u := Apply(gap, s, Set(key, time, lifetime, v));
    assert !Has(u, key, later) && |u.calls| !in u.outcomes;
    var t := Apply(gap, u, GetSetCb(key, later, None));
    assert t.calls[c] == s.calls[c];
  }

  // ----- the code -----

  class ExpiringLazyCache<!K(==), V> {
    const gap: int
    var data: map<K, Entry<V>>
    var calls: seq<Call<K>>
    var outcomes: map<nat, Outcome<V>>

    function Now(): State<K, V>
      reads this
    {
      State(data, calls, outcomes)
    }

    constructor (gap: int)
      ensures this.gap == gap && Now() == Start()
    {
      this.gap := gap;
      data, calls, outcomes := map[], [], map[];
    }

    method SetEntry(key: K, lifetime: Number, slot: Slot<V>, time: int)
      modifies this
      ensures data == old(data)[key := Entry(Expiry(time, lifetime, gap), slot)]
      ensures calls == old(calls) && outcomes == old(outcomes)
    {
      data := data[key := Entry(Expiry(time, lifetime, gap), slot)];
    }

    method SetValue(key: K, lifetime: Number, value: V, time: int)
      modifies this
      ensures Now() == Apply(gap, old(Now()), Set(key, time, lifetime, value))
    {
      SetEntry(key, lifetime, Value(value), time);
    }

    /** `answer` is what the callback does when it is called. */
    method CallBack(key: K, time: int, answer: Option<Outcome<V>>)
      modifies this
      ensures Now() == Apply(gap, old(Now()), SetCb(key, time, answer))
    {
      var id := |calls|;
      calls := calls + [Call(key, time)];
      match answer
      case None =>
        SetEntry(key, Infinity, Promise(id), time);
      case Some(Returned(lifetime, value)) =>
        outcomes := outcomes[id := Returned(lifetime, value)];
        SetEntry(key, lifetime, Value(value), time);
      case Some(_) =>
        outcomes := outcomes[id := ThrewAtOnce];
    }

    /** `None`: the callback threw. */
    method GetOrCall(key: K, time: int, answer: Option<Outcome<V>>) returns (r: Option<Slot<V>>)
      modifies this
      ensures Now() == Apply(gap, old(Now()), GetSetCb(key, time, answer))
      ensures r == if Has(old(Now()), key, time) then Get(old(Now()), key, time)
                   else if answer.None? then Some(Promise(old(|calls|)))
                   else if answer.value.Returned? then Some(Value(answer.value.value))
                   else None
    {
      if key !in data || !IsValid(data[key].expires, time) {
        CallBack(key, time, answer);
        if answer.Some? && !answer.value.Returned? { return None; }
        return Some(data[key].slot);
      }
      return Get(Now(), key, time);
    }

    /** The callbacks registered on a pending promise. */
    method OnSettled(call: nat, outcome: Outcome<V>)
      requires Enabled(Now(), Settle(call, outcome))
      modifies this
      ensures Now() == Apply(gap, old(Now()), Settle(call, outcome))
    {
      var Call(key, start) := calls[call];
      outcomes := outcomes[call := outcome];
      if outcome.Returned? {
        SetEntry(key, outcome.lifetime, Value(outcome.value), start);
      } else if outcome.Rejected? {
        Remove(key);
      }
    }

    method Remove(key: K)
      modifies this
      ensures Now() == Apply(gap, old(Now()), Delete(key))
    {
      data := data - {key};
    }
  }
}
