/** The load-limited priority scheduler (`src/shared/WorkerQueue.js`).

    The scheduler starts a job, and then looks again from the top of all queues, until
    nothing fits.  `Dispatch` below is the one-pass reading of that search: walk all waiting
    jobs once, highest priority first, and start each one that still fits.  The class is
    proved to do exactly that, and the run-level results are proved about `Dispatch`. */
module WorkerQueue {

  /** One queue entry.  `shifts` are the times pushed behind the original start time when a
      job is promoted: the code reads only the first of them (array index 7). */
  datatype Job = Job(id: nat, load: int, promote: bool, queuedAt: int, shifts: seq<int>)

  /** Queue number 0 is veryHigh, 1 high, 2 medium, 3 low: the order of the search. */
  const PRIORITIES: seq<string> := ["veryHigh", "high", "medium", "low"]

  const NANO_TO_MS: int := 1_000_000
  const INCREASE_PRIORITY_AFTER_MS: int := 3 * 60 * 1000

  /** What the scheduler holds: its limit, the waiting jobs by priority, the running jobs. */
  datatype State = State(limit: int, queues: seq<seq<Job>>, running: seq<Job>, nextId: nat)

  function Load(jobs: seq<Job>): int
  {
    if jobs == [] then 0 else jobs[0].load + Load(jobs[1..])
  }

  function Flat(queues: seq<seq<Job>>): seq<Job>
  {
    if queues == [] then [] else queues[0] + Flat(queues[1..])
  }

  predicate NonNegative(jobs: seq<Job>)
  {
    forall j <- jobs :: j.load >= 0
  }

  /** A job can be started: the search is not even begun when the limit is reached. */
  predicate Fits(j: Job, free: int)
  {
    free != 0 && j.load <= free
  }

  predicate NoneFits(jobs: seq<Job>, free: int)
  {
    forall j <- jobs :: !Fits(j, free)
  }

  // ----- dispatch, as one pass -----

  /** The jobs of one queue that the pass starts when `free` capacity is left. */
  function Started(jobs: seq<Job>, free: int): seq<Job>
  {
    if jobs == [] then []
    else if Fits(jobs[0], free) then [jobs[0]] + Started(jobs[1..], free - jobs[0].load)
    else Started(jobs[1..], free)
  }

  /** The jobs of one queue that the pass leaves waiting. */
  function Left(jobs: seq<Job>, free: int): seq<Job>
  {
    if jobs == [] then []
    else if Fits(jobs[0], free) then Left(jobs[1..], free - jobs[0].load)
    else [jobs[0]] + Left(jobs[1..], free)
  }

  function FreeAfter(jobs: seq<Job>, free: int): int
  {
    free - Load(Started(jobs, free))
  }

  function StartedAll(queues: seq<seq<Job>>, free: int): seq<Job>
  {
    if queues == [] then []
    else Started(queues[0], free) + StartedAll(queues[1..], FreeAfter(queues[0], free))
  }

  function LeftAll(queues: seq<seq<Job>>, free: int): (r: seq<seq<Job>>)
    ensures |r| == |queues|
  {
    if queues == [] then []
    else [Left(queues[0], free)] + LeftAll(queues[1..], FreeAfter(queues[0], free))
  }

  function Free(s: State): int
  {
    s.limit - Load(s.running)
  }

  function Dispatch(s: State): State
  {
    s.(queues := LeftAll(s.queues, Free(s)), running := s.running + StartedAll(s.queues, Free(s)))
  }

  ghost function AllJobs(s: State): multiset<Job>
  {
    multiset(Flat(s.queues)) + multiset(s.running)
  }

  /** The promise of the scheduler: the running load is within the limit, no waiting job
      can be started, every waiting job could run alone. */
  ghost predicate Safe(s: State)
  {
    && |s.queues| == 4 && s.limit > 0
    && NonNegative(s.running) && NonNegative(Flat(s.queues))
    && Load(s.running) <= s.limit
    && NoneFits(Flat(s.queues), Free(s))
    && (forall j <- Flat(s.queues) :: j.load <= s.limit)
  }

  lemma {:induction false} LoadConcat(a: seq<Job>, b: seq<Job>)
    ensures Load(a + b) == Load(a) + Load(b)
  {
    if a == [] {
      assert a + b == b;
    } else {
      LoadConcat(a[1..], b);
      assert (a + b)[1..] == a[1..] + b;
    }
  }

  lemma {:induction false} LoadRemove(a: seq<Job>, i: nat)
    requires i < |a|
    ensures Load(a[..i] + a[i + 1..]) == Load(a) - a[i].load
  {
    var less := a[..i] + a[i + 1..];
    if i == 0 {
      assert less == a[1..];
    } else {
      assert less[1..] == a[1..][..i - 1] + a[1..][i..];
      LoadRemove(a[1..], i - 1);
    }
  }

  /** Without negative loads the pass never overruns and what it leaves does not fit. */
  lemma {:induction false} PassLeavesNothingFitting(jobs: seq<Job>, free: int)
    requires NonNegative(jobs) && free >= 0
    ensures 0 <= FreeAfter(jobs, free) <= free
    ensures NoneFits(Left(jobs, free), FreeAfter(jobs, free))
    ensures NonNegative(Left(jobs, free)) && NonNegative(Started(jobs, free))
  {
    if jobs != [] {
      var j, rest := jobs[0], jobs[1..];
      assert jobs == [j] + rest;
      if Fits(j, free) {
        PassLeavesNothingFitting(rest, free - j.load);
        LoadConcat([j], Started(rest, free - j.load));
      } else {
        PassLeavesNothingFitting(rest, free);
      }
    }
  }

  lemma {:induction false} PassConserves(jobs: seq<Job>, free: int)
    ensures multiset(jobs) == multiset(Left(jobs, free)) + multiset(Started(jobs, free))
  {
    if jobs != [] {
      assert jobs == [jobs[0]] + jobs[1..];
      PassConserves(jobs[1..], if Fits(jobs[0], free) then free - jobs[0].load else free);
    }
  }

  lemma {:induction false} PassLeavesNothingFittingAll(queues: seq<seq<Job>>, free: int)
    requires NonNegative(Flat(queues)) && free >= 0
    ensures 0 <= free - Load(StartedAll(queues, free)) <= free
    ensures NoneFits(Flat(LeftAll(queues, free)), free - Load(StartedAll(queues, free)))
    ensures NonNegative(Flat(LeftAll(queues, free))) && NonNegative(StartedAll(queues, free))
  {
    if queues != [] {
      var q, rest := queues[0], queues[1..];
      assert NonNegative(q) && NonNegative(Flat(rest)) by {
        assert forall j <- q :: j in Flat(queues);
        assert forall j <- Flat(rest) :: j in Flat(queues);
      }
      PassLeavesNothingFitting(q, free);
      var f := FreeAfter(q, free);
      PassLeavesNothingFittingAll(rest, f);
      LoadConcat(Started(q, free), StartedAll(rest, f));
      var left := LeftAll(queues, free);
      assert left[0] == Left(q, free) && left[1..] == LeftAll(rest, f);
      assert Flat(left) == Left(q, free) + Flat(LeftAll(rest, f));
    }
  }

  /** Safety and work conservation of one dispatch: whatever was waiting and running before,
      afterwards the limit holds, nothing waiting fits, and no job is lost or invented. */
  lemma DispatchIsSafe(s: State)
    requires |s.queues| == 4 && s.limit > 0
    requires NonNegative(s.running) && NonNegative(Flat(s.queues))
    requires Load(s.running) <= s.limit
    requires forall j <- Flat(s.queues) :: j.load <= s.limit
    ensures Safe(Dispatch(s))
    ensures AllJobs(Dispatch(s)) == AllJobs(s)
  {
    var left, started := LeftAll(s.queues, Free(s)), StartedAll(s.queues, Free(s));
    PassLeavesNothingFittingAll(s.queues, Free(s));
    LoadConcat(s.running, started);
    MovedToRunning(s);
    assert NonNegative(s.running + started);
    forall j | j in Flat(left) ensures j.load <= s.limit {
      LeftAllFrom(s.queues, Free(s), j);
    }
  }

  lemma MovedToRunning(s: State)
    ensures AllJobs(Dispatch(s)) == AllJobs(s)
  {
    var started := StartedAll(s.queues, Free(s));
    PassConservesAll(s.queues, Free(s));
    assert multiset(s.running + started) == multiset(s.running) + multiset(started);
  }

  lemma {:induction false} PassConservesAll(queues: seq<seq<Job>>, free: int)
    ensures multiset(Flat(queues)) == multiset(Flat(LeftAll(queues, free))) + multiset(StartedAll(queues, free))
  {
    if queues != [] {
      var q, rest, f := queues[0], queues[1..], FreeAfter(queues[0], free);
      PassConserves(q, free);
      PassConservesAll(rest, f);
      assert LeftAll(queues, free)[1..] == LeftAll(rest, f);
      assert Flat(LeftAll(queues, free)) == Left(q, free) + Flat(LeftAll(rest, f));
    }
  }

  /** Work conservation: a job waits only while another one runs. */
  lemma WaitingMeansRunning(s: State)
    requires Safe(s) && Flat(s.queues) != []
    ensures s.running != []
  {
    var j := Flat(s.queues)[0];
    assert j in Flat(s.queues);
  }

  lemma {:induction false} PassOverNothingFitting(jobs: seq<Job>, free: int)
    requires NoneFits(jobs, free)
    ensures Left(jobs, free) == jobs && Started(jobs, free) == []
  {
    if jobs != [] {
      assert jobs == [jobs[0]] + jobs[1..];
      PassOverNothingFitting(jobs[1..], free);
    }
  }

  lemma {:induction false} DispatchNothing(queues: seq<seq<Job>>, free: int)
    requires NoneFits(Flat(queues), free)
    ensures LeftAll(queues, free) == queues && StartedAll(queues, free) == []
  {
    if queues != [] {
      assert queues == [queues[0]] + queues[1..];
      assert forall j <- queues[0] :: j in Flat(queues);
      assert forall j <- Flat(queues[1..]) :: j in Flat(queues);
      PassOverNothingFitting(queues[0], free);
      DispatchNothing(queues[1..], free);
    }
  }

  lemma PassOverQueue(queues: seq<seq<Job>>, free: int)
    requires queues != [] && NoneFits(queues[0], free)
    ensures LeftAll(queues, free) == [queues[0]] + LeftAll(queues[1..], free)
    ensures StartedAll(queues, free) == StartedAll(queues[1..], free)
  {
    PassOverNothingFitting(queues[0], free);
    assert FreeAfter(queues[0], free) == free;
    assert [] + StartedAll(queues[1..], free) == StartedAll(queues[1..], free);
  }

  /** Jobs that do not fit are passed over; the first one that fits starts. */
  lemma {:induction false} PassToFirstFit(a: seq<Job>, j: Job, b: seq<Job>, free: int)
    requires NoneFits(a, free) && j.load >= 0 && Fits(j, free)
    ensures Left(a + [j] + b, free) == Left(a + b, free - j.load)
    ensures Started(a + [j] + b, free) == [j] + Started(a + b, free - j.load)
  {
    if a == [] {
      assert a + [j] + b == [j] + b && a + b == b;
    } else {
      PassToFirstFit(a[1..], j, b, free);
      assert (a + [j] + b)[1..] == a[1..] + [j] + b;
      assert (a + b)[1..] == a[1..] + b;
    }
  }

  function Without(queues: seq<seq<Job>>, p: nat, i: nat): (r: seq<seq<Job>>)
    requires p < |queues| && i < |queues[p]|
    ensures |r| == |queues|
  {
    queues[p := queues[p][..i] + queues[p][i + 1..]]
  }

  lemma RestartInQueue(q: seq<Job>, i: nat, free: int)
    requires i < |q| && NoneFits(q[..i], free) && q[i].load >= 0 && Fits(q[i], free)
    ensures var less := q[..i] + q[i + 1..];
            && Left(q, free) == Left(less, free - q[i].load)
            && Started(q, free) == [q[i]] + Started(less, free - q[i].load)
            && FreeAfter(q, free) == FreeAfter(less, free - q[i].load)
  {
    var a, j, b := q[..i], q[i], q[i + 1..];
    assert q == a + [j] + b;
    PassToFirstFit(a, j, b, free);
    LoadConcat([j], Started(a + b, free - j.load));
  }

  /** The heart of the refinement: starting the first job that fits and searching again from
      the top is the same as going on with the single pass. */
  lemma {:induction false} RestartIsOnePass(queues: seq<seq<Job>>, p: nat, i: nat, free: int)
    requires p < |queues| && i < |queues[p]|
    requires forall k | 0 <= k < p :: NoneFits(queues[k], free)
    requires NoneFits(queues[p][..i], free)
    requires queues[p][i].load >= 0 && Fits(queues[p][i], free)
    ensures LeftAll(queues, free) == LeftAll(Without(queues, p, i), free - queues[p][i].load)
    ensures StartedAll(queues, free)
         == [queues[p][i]] + StartedAll(Without(queues, p, i), free - queues[p][i].load)
  {
    var j, less := queues[p][i], Without(queues, p, i);
    var q, rest := queues[0], queues[1..];
    if p == 0 {
      RestartInQueue(q, i, free);
      assert less[0] == q[..i] + q[i + 1..] && less[1..] == rest;
      var f := FreeAfter(q, free);
      assert StartedAll(less, free - j.load) == Started(less[0], free - j.load) + StartedAll(rest, f);
      assert [j] + StartedAll(less, free - j.load)
          == ([j] + Started(less[0], free - j.load)) + StartedAll(rest, f);
    } else {
      assert less[0] == q && less[1..] == Without(rest, p - 1, i);
      PassOverQueue(queues, free);
      PassOverQueue(less, free - j.load);
      RestartIsOnePass(rest, p - 1, i, free);
    }
  }

  lemma {:induction false} FlatHas(queues: seq<seq<Job>>, p: nat, j: Job)
    requires p < |queues| && j in queues[p]
    ensures j in Flat(queues)
  {
    if p > 0 { FlatHas(queues[1..], p - 1, j); }
  }

  lemma {:induction false} FlatFrom(queues: seq<seq<Job>>, j: Job) returns (p: nat)
    requires j in Flat(queues)
    ensures p < |queues| && j in queues[p]
  {
    if j in queues[0] { p := 0; } else { p := FlatFrom(queues[1..], j); p := p + 1; }
  }

  /** How often `x` waits, summed over the queues. */
  lemma {:induction false} FlatUpdate(queues: seq<seq<Job>>, p: nat, q: seq<Job>, x: Job)
    requires p < |queues|
    ensures multiset(Flat(queues[p := q]))[x] + multiset(queues[p])[x]
         == multiset(Flat(queues))[x] + multiset(q)[x]
  {
    var updated := queues[p := q];
    assert multiset(Flat(updated))[x] == multiset(updated[0])[x] + multiset(Flat(updated[1..]))[x];
    assert multiset(Flat(queues))[x] == multiset(queues[0])[x] + multiset(Flat(queues[1..]))[x];
    if p == 0 {
      assert updated[1..] == queues[1..];
    } else {
      assert updated[1..] == queues[1..][p - 1 := q];
      FlatUpdate(queues[1..], p - 1, q, x);
    }
  }

  lemma WithoutDropsOne(queues: seq<seq<Job>>, p: nat, i: nat)
    requires p < |queues| && i < |queues[p]|
    ensures multiset(Flat(Without(queues, p, i))) + multiset{queues[p][i]} == multiset(Flat(queues))
    ensures |Flat(Without(queues, p, i))| == |Flat(queues)| - 1
  {
    var q := queues[p];
    var rest := q[..i] + q[i + 1..];
    var less := Flat(Without(queues, p, i));
    assert q == q[..i] + ([q[i]] + q[i + 1..]);
    assert multiset(q) == multiset(rest) + multiset{q[i]};
    forall x: Job ensures (multiset(less) + multiset{q[i]})[x] == multiset(Flat(queues))[x] {
      FlatUpdate(queues, p, rest, x);
      assert multiset(q)[x] == multiset(rest)[x] + multiset{q[i]}[x];
    }
    assert |multiset(less) + multiset{q[i]}| == |less| + 1;
    assert |multiset(Flat(queues))| == |Flat(queues)|;
  }

  lemma NothingToStart(s: State)
    requires (forall p | 0 <= p < |s.queues| :: s.queues[p] == []) || Free(s) == 0
    ensures Dispatch(s) == s
  {
    FlatEmpty(s.queues);
    DispatchNothing(s.queues, Free(s));
    assert s.running + [] == s.running;
  }

  lemma TakeOut(s: State, p: nat, i: nat)
    requires p < |s.queues| && i < |s.queues[p]|
    ensures AllJobs(s.(queues := Without(s.queues, p, i))) + multiset{s.queues[p][i]} == AllJobs(s)
    ensures |Flat(Without(s.queues, p, i))| < |Flat(s.queues)|
  {
    WithoutDropsOne(s.queues, p, i);
  }

  lemma StartFirstFit(s: State, p: nat, i: nat)
    requires p < |s.queues| && i < |s.queues[p]| && NonNegative(Flat(s.queues))
    requires forall k | 0 <= k < p :: NoneFits(s.queues[k], Free(s))
    requires NoneFits(s.queues[p][..i], Free(s)) && Fits(s.queues[p][i], Free(s))
    ensures s.queues[p][i].load >= 0 && NonNegative(Flat(Without(s.queues, p, i)))
    ensures Dispatch(s) == Dispatch(s.(queues := Without(s.queues, p, i), running := s.running + [s.queues[p][i]]))
  {
    var job, less := s.queues[p][i], Without(s.queues, p, i);
    FlatHas(s.queues, p, job);
    RestartIsOnePass(s.queues, p, i, Free(s));
    LoadConcat(s.running, [job]);
    assert s.running + ([job] + StartedAll(less, Free(s) - job.load))
        == (s.running + [job]) + StartedAll(less, Free(s) - job.load);
    WithoutDropsOne(s.queues, p, i);
    forall j | j in Flat(less) ensures j.load >= 0 {
      assert j in multiset(Flat(less)) + multiset{job};
      assert j in multiset(Flat(s.queues));
    }
  }

  lemma {:induction false} FlatEmpty(queues: seq<seq<Job>>)
    ensures Flat(queues) == [] <==> forall p | 0 <= p < |queues| :: queues[p] == []
  {
    if queues != [] {
      assert queues == [queues[0]] + queues[1..];
      FlatEmpty(queues[1..]);
      assert |Flat(queues)| == |queues[0]| + |Flat(queues[1..])|;
      assert forall p | 0 < p < |queues| :: queues[p] == queues[1..][p - 1];
    }
  }

  // ----- promotion -----

  /** `Math.round` of nanoseconds to milliseconds. */
  function RoundToMs(nanos: int): int
  {
    (nanos + NANO_TO_MS / 2) / NANO_TO_MS
  }

  function WaitingSince(j: Job): int
  {
    if j.shifts == [] then j.queuedAt else j.shifts[0]
  }

  predicate Eligible(j: Job, now: int)
  {
    j.promote && RoundToMs(now - WaitingSince(j)) > INCREASE_PRIORITY_AFTER_MS
  }

  /** In nanoseconds: a flagged job is eligible from three minutes and half a millisecond on, counted from when it
      was queued, or from its first promotion. */
  lemma EligibleFrom(j: Job, now: int)
    ensures Eligible(j, now) <==> j.promote && now - (if |j.shifts| > 0 then j.shifts[0] else j.queuedAt) >= 180_000_500_000
  {
  }

  function Shift(j: Job, now: int): Job
  {
    j.(shifts := j.shifts + [now])
  }

  /** What one queue keeps: the entry right behind a promoted one is not looked at, because the
      index moves on over the gap that the splice closed. */
  function Kept(jobs: seq<Job>, now: int, skip: bool): seq<Job>
  {
    if jobs == [] then []
    else if !skip && Eligible(jobs[0], now) then Kept(jobs[1..], now, true)
    else [jobs[0]] + Kept(jobs[1..], now, false)
  }

  function Moved(jobs: seq<Job>, now: int, skip: bool): seq<Job>
  {
    if jobs == [] then []
    else if !skip && Eligible(jobs[0], now) then [Shift(jobs[0], now)] + Moved(jobs[1..], now, true)
    else Moved(jobs[1..], now, false)
  }

  lemma PassHead(done: seq<Job>, rest: seq<Job>, now: int, skip: bool)
    requires rest != [] && (skip || !Eligible(rest[0], now))
    ensures done + Kept(rest, now, skip) == (done + [rest[0]]) + Kept(rest[1..], now, false)
    ensures Moved(rest, now, skip) == Moved(rest[1..], now, false)
    ensures done + rest == (done + [rest[0]]) + rest[1..]
  {
    assert Kept(rest, now, skip) == [rest[0]] + Kept(rest[1..], now, false);
  }

  lemma TakeHead(done: seq<Job>, rest: seq<Job>, above: seq<Job>, now: int)
    requires rest != [] && Eligible(rest[0], now)
    ensures Kept(rest, now, false) == Kept(rest[1..], now, true)
    ensures above + Moved(rest, now, false) == (above + [Shift(rest[0], now)]) + Moved(rest[1..], now, true)
    ensures (done + rest)[..|done|] + (done + rest)[|done| + 1..] == done + rest[1..]
  {
  }

  /** Promotion from queue `p` to the next higher one. */
  function PromoteOne(queues: seq<seq<Job>>, p: nat, now: int): (r: seq<seq<Job>>)
    requires 0 < p < |queues|
    ensures |r| == |queues|
  {
    queues[p := Kept(queues[p], now, false)][p - 1 := queues[p - 1] + Moved(queues[p], now, false)]
  }

  /** The whole pass: low to medium, then medium to high, then high to veryHigh. */
  function PromoteFrom(queues: seq<seq<Job>>, p: nat, now: int): (r: seq<seq<Job>>)
    requires p < |queues|
    ensures |r| == |queues|
    decreases p
  {
    if p == 0 then queues else PromoteFrom(PromoteOne(queues, p, now), p - 1, now)
  }

  /** The job without its promotion marks: what a promotion pass must not change. */
  function Strip(j: Job): Job
  {
    j.(shifts := [])
  }

  /** How many of the jobs are `x` up to their promotion marks. */
  function Copies(jobs: seq<Job>, x: Job): nat
  {
    if jobs == [] then 0 else (if Strip(jobs[0]) == Strip(x) then 1 else 0) + Copies(jobs[1..], x)
  }

  lemma {:induction false} CopiesConcat(a: seq<Job>, b: seq<Job>, x: Job)
    ensures Copies(a + b, x) == Copies(a, x) + Copies(b, x)
  {
    if a == [] {
      assert a + b == b;
    } else {
      CopiesConcat(a[1..], b, x);
      assert (a + b)[1..] == a[1..] + b;
    }
  }

  lemma {:induction false} CopiesUpdate(queues: seq<seq<Job>>, p: nat, q: seq<Job>, x: Job)
    requires p < |queues|
    ensures Copies(Flat(queues[p := q]), x) + Copies(queues[p], x) == Copies(Flat(queues), x) + Copies(q, x)
  {
    var updated := queues[p := q];
    CopiesConcat(updated[0], Flat(updated[1..]), x);
    CopiesConcat(queues[0], Flat(queues[1..]), x);
    if p == 0 {
      assert updated[1..] == queues[1..];
    } else {
      assert updated[1..] == queues[1..][p - 1 := q];
      CopiesUpdate(queues[1..], p - 1, q, x);
    }
  }

  lemma {:induction false} KeptAndMoved(jobs: seq<Job>, now: int, skip: bool, x: Job)
    ensures Copies(Kept(jobs, now, skip), x) + Copies(Moved(jobs, now, skip), x) == Copies(jobs, x)
  {
    if jobs != [] {
      var j := jobs[0];
      var moves := !skip && Eligible(j, now);
      KeptAndMoved(jobs[1..], now, moves, x);
      assert Strip(Shift(j, now)) == Strip(j);
    }
  }

  lemma PromoteOneConserves(queues: seq<seq<Job>>, p: nat, now: int, x: Job)
    requires 0 < p < |queues|
    ensures Copies(Flat(PromoteOne(queues, p, now)), x) == Copies(Flat(queues), x)
  {
    var kept, moved := Kept(queues[p], now, false), Moved(queues[p], now, false);
    KeptAndMoved(queues[p], now, false, x);
    CopiesUpdate(queues, p, kept, x);
    CopiesUpdate(queues[p := kept], p - 1, queues[p - 1] + moved, x);
    CopiesConcat(queues[p - 1], moved, x);
  }

  /** A promotion pass loses and invents nothing: every job waits as often as before, whatever
      its promotion marks. */
  lemma {:induction false} PromotionConserves(queues: seq<seq<Job>>, p: nat, now: int, x: Job)
    requires p < |queues|
    ensures Copies(Flat(PromoteFrom(queues, p, now)), x) == Copies(Flat(queues), x)
    decreases p
  {
    if p > 0 {
      PromoteOneConserves(queues, p, now, x);
      PromotionConserves(PromoteOne(queues, p, now), p - 1, now, x);
    }
  }

  lemma {:induction false} KeptFrom(jobs: seq<Job>, now: int, skip: bool, j: Job)
    ensures j in Kept(jobs, now, skip) ==> j in jobs
    ensures j in jobs && !Eligible(j, now) ==> j in Kept(jobs, now, skip)
  {
    if jobs != [] {
      KeptFrom(jobs[1..], now, !skip && Eligible(jobs[0], now), j);
    }
  }

  lemma {:induction false} MovedFrom(jobs: seq<Job>, now: int, skip: bool, j: Job) returns (from: Job)
    requires j in Moved(jobs, now, skip)
    ensures from in jobs && Eligible(from, now) && j == Shift(from, now)
  {
    if !skip && Eligible(jobs[0], now) && j == Shift(jobs[0], now) {
      from := jobs[0];
    } else {
      from := MovedFrom(jobs[1..], now, !skip && Eligible(jobs[0], now), j);
    }
  }

  /** Where a waiting job can stand after a pass: it never falls back, and it rises only if it
      is flagged and has waited for more than three minutes. */
  lemma {:induction false} PromotionOnlyRaises(queues: seq<seq<Job>>, p: nat, now: int, k: nat, j: Job)
    returns (m: nat, from: Job)
    requires p < |queues| && k < |queues| && j in PromoteFrom(queues, p, now)[k]
    ensures k <= m < |queues| && from in queues[m] && Strip(from) == Strip(j)
    ensures m == k ==> from == j
    ensures m > k ==> Eligible(from, now)
    decreases p
  {
    if p == 0 {
      m, from := k, j;
    } else {
      var one := PromoteOne(queues, p, now);
      m, from := PromotionOnlyRaises(one, p - 1, now, k, j);
      if m == p {
        KeptFrom(queues[p], now, false, from);
      } else if m == p - 1 && from !in queues[p - 1] {
        m := p;
        from := MovedFrom(queues[p], now, false, from);
      }
    }
  }

  /** `a` stands somewhere before `b`. */
  ghost predicate Before(jobs: seq<Job>, a: Job, b: Job)
  {
    jobs != [] && ((jobs[0] == a && b in jobs[1..]) || Before(jobs[1..], a, b))
  }

  lemma {:induction false} BeforeAppend(x: seq<Job>, y: seq<Job>, a: Job, b: Job)
    requires Before(x, a, b)
    ensures Before(x + y, a, b)
  {
    assert (x + y)[1..] == x[1..] + y;
    if !(x[0] == a && b in x[1..]) { BeforeAppend(x[1..], y, a, b); }
  }

  lemma {:induction false} BeforeHas(x: seq<Job>, a: Job, b: Job)
    requires Before(x, a, b)
    ensures a in x && b in x
  {
    if !(x[0] == a && b in x[1..]) { BeforeHas(x[1..], a, b); }
  }

  lemma {:induction false} KeptInOrder(jobs: seq<Job>, now: int, skip: bool, a: Job, b: Job)
    requires !Eligible(a, now) && !Eligible(b, now) && Before(jobs, a, b)
    ensures Before(Kept(jobs, now, skip), a, b)
  {
    var next := !skip && Eligible(jobs[0], now);
    if jobs[0] == a && b in jobs[1..] {
      KeptFrom(jobs[1..], now, false, b);
    } else {
      KeptInOrder(jobs[1..], now, next, a, b);
    }
  }

  /** Jobs that the pass does not move keep their queue and their relative order. */
  lemma {:induction false} PromotionKeepsOrder(queues: seq<seq<Job>>, p: nat, now: int, k: nat, a: Job, b: Job)
    requires p < |queues| && k < |queues|
    requires !Eligible(a, now) && !Eligible(b, now) && Before(queues[k], a, b)
    ensures Before(PromoteFrom(queues, p, now)[k], a, b)
    decreases p
  {
    if p > 0 {
      if k == p {
        KeptInOrder(queues[p], now, false, a, b);
      } else if k == p - 1 {
        BeforeAppend(queues[k], Moved(queues[p], now, false), a, b);
      }
      PromotionKeepsOrder(PromoteOne(queues, p, now), p - 1, now, k, a, b);
    }
  }

  lemma PromotionKeepsSafe(s: State, now: int)
    requires Safe(s)
    ensures Safe(s.(queues := PromoteFrom(s.queues, 3, now)))
  {
    var after := PromoteFrom(s.queues, 3, now);
    forall j | j in Flat(after) ensures 0 <= j.load <= s.limit && !Fits(j, Free(s)) {
      var k := FlatFrom(after, j);
      var m, from := PromotionOnlyRaises(s.queues, 3, now, k, j);
      FlatHas(s.queues, m, from);
      assert from.load == Strip(from).load;
    }
  }

  ghost predicate NoTwoInARow(jobs: seq<Job>, now: int)
  {
    forall i | 0 <= i < |jobs| - 1 :: !(Eligible(jobs[i], now) && Eligible(jobs[i + 1], now))
  }

  /** "Every eligible job is promoted" is false in general.  It holds for a queue exactly when
      no two eligible jobs stand next to each other in it. */
  lemma {:induction false} AllPromotedIff(jobs: seq<Job>, now: int, skip: bool)
    ensures (forall j <- Kept(jobs, now, skip) :: !Eligible(j, now))
       <==> NoTwoInARow(jobs, now) && (skip && jobs != [] ==> !Eligible(jobs[0], now))
  {
    if jobs != [] {
      var rest := jobs[1..];
      AllPromotedIff(rest, now, !skip && Eligible(jobs[0], now));
      assert jobs == [jobs[0]] + rest;
      assert NoTwoInARow(jobs, now)
        <==> NoTwoInARow(rest, now) && (rest != [] ==> !(Eligible(jobs[0], now) && Eligible(rest[0], now))) by {
        if NoTwoInARow(rest, now) && (rest != [] ==> !(Eligible(jobs[0], now) && Eligible(rest[0], now))) {
          forall i | 0 <= i < |jobs| - 1 ensures !(Eligible(jobs[i], now) && Eligible(jobs[i + 1], now)) {
            if i > 0 { assert jobs[i] == rest[i - 1] && jobs[i + 1] == rest[i]; }
          }
        }
        if NoTwoInARow(jobs, now) {
          forall i | 0 <= i < |rest| - 1 ensures !(Eligible(rest[i], now) && Eligible(rest[i + 1], now)) {
            assert rest[i] == jobs[i + 1] && rest[i + 1] == jobs[i + 2];
          }
        }
      }
      if !skip && Eligible(jobs[0], now) {
      } else {
        var k := Kept(rest, now, false);
        assert Kept(jobs, now, skip) == [jobs[0]] + k;
        assert forall j <- k :: j in Kept(jobs, now, skip);
      }
    }
  }

  /** A job is still eligible after its promotion exactly when it had been promoted in an earlier
      pass. */
  lemma StillEligibleIff(j: Job, now: int)
    requires Eligible(j, now)
    ensures Eligible(Shift(j, now), now) <==> j.shifts != []
  {
    if j.shifts == [] {
      assert WaitingSince(Shift(j, now)) == now;
      assert RoundToMs(0) == 0;
    } else {
      assert Shift(j, now).shifts[0] == j.shifts[0];
    }
  }

  /** The scan over `jobs` ends on a job it promotes, so that it skips the next one. */
  predicate EndsOnPromoted(jobs: seq<Job>, now: int, skip: bool)
  {
    if jobs == [] then skip else EndsOnPromoted(jobs[1..], now, !skip && Eligible(jobs[0], now))
  }

  lemma {:induction false} ScanConcat(a: seq<Job>, b: seq<Job>, now: int, skip: bool)
    ensures Moved(a + b, now, skip) == Moved(a, now, skip) + Moved(b, now, EndsOnPromoted(a, now, skip))
    ensures Kept(a + b, now, skip) == Kept(a, now, skip) + Kept(b, now, EndsOnPromoted(a, now, skip))
  {
    if a == [] {
      assert a + b == b;
    } else {
      ScanConcat(a[1..], b, now, !skip && Eligible(a[0], now));
      assert (a + b)[1..] == a[1..] + b;
    }
  }

  /** How many levels a pass lifts the job `j` that stands behind `front` in queue `m`. */
  function Rise(queues: seq<seq<Job>>, m: nat, front: seq<Job>, j: Job, now: int): (r: nat)
    requires m < |queues|
    ensures r <= m
    decreases m
  {
    if m == 0 || EndsOnPromoted(front, now, false) || !Eligible(j, now) then 0
    else 1 + Rise(queues, m - 1, queues[m - 1] + Moved(front, now, false), Shift(j, now), now)
  }

  lemma {:induction false} RiseFrame(queues: seq<seq<Job>>, other: seq<seq<Job>>, m: nat, front: seq<Job>, j: Job, now: int)
    requires m < |queues| && m < |other| && forall k | 0 <= k < m :: queues[k] == other[k]
    ensures Rise(queues, m, front, j, now) == Rise(other, m, front, j, now)
    decreases m
  {
    if m > 0 { RiseFrame(queues, other, m - 1, queues[m - 1] + Moved(front, now, false), Shift(j, now), now); }
  }

  /** The same job, whatever its promotion marks. */
  ghost predicate Holds(q: seq<Job>, j: Job)
  {
    exists i :: 0 <= i < |q| && Strip(q[i]) == Strip(j)
  }

  lemma {:induction false} HigherUntouched(queues: seq<seq<Job>>, p: nat, now: int, k: nat)
    requires p < k < |queues|
    ensures PromoteFrom(queues, p, now)[k] == queues[k]
    decreases p
  {
    if p > 0 { HigherUntouched(PromoteOne(queues, p, now), p - 1, now, k); }
  }

  /** Where the pass puts a job. */
  lemma {:induction false} LandsAt(
    queues: seq<seq<Job>>, p: nat, now: int, m: nat, front: seq<Job>, j: Job, back: seq<Job>)
    requires m <= p < |queues| && queues[m] == front + [j] + back
    ensures Holds(PromoteFrom(queues, p, now)[m - Rise(queues, m, front, j, now)], j)
    decreases p
  {
    if p > 0 {
      var one := PromoteOne(queues, p, now);
      if m < p {
        var behind := if m == p - 1 then back + Moved(queues[p], now, false) else back;
        assert one[m] == front + [j] + behind;
        RiseFrame(queues, one, m, front, j, now);
        LandsAt(one, p - 1, now, m, front, j, behind);
      } else {
        MovesOrStays(front, j, back, now);
        if EndsOnPromoted(front, now, false) || !Eligible(j, now) {
          HigherUntouched(one, p - 1, now, p);
        } else {
          var land := queues[p - 1] + Moved(front, now, false);
          assert one[p - 1] == land + [Shift(j, now)] + Moved(back, now, true);
          RiseFrame(queues, one, p - 1, land, Shift(j, now), now);
          LandsAt(one, p - 1, now, p - 1, land, Shift(j, now), Moved(back, now, true));
        }
      }
    } else {
      assert Strip((front + [j] + back)[|front|]) == Strip(j);
    }
  }

  lemma MovesOrStays(front: seq<Job>, j: Job, back: seq<Job>, now: int)
    ensures EndsOnPromoted(front, now, false) || !Eligible(j, now) ==> Holds(Kept(front + [j] + back, now, false), j)
    ensures !EndsOnPromoted(front, now, false) && Eligible(j, now) ==>
              Moved(front + [j] + back, now, false) == Moved(front, now, false) + [Shift(j, now)] + Moved(back, now, true)
  {
    var skip := EndsOnPromoted(front, now, false);
    assert front + [j] + back == front + ([j] + back);
    ScanConcat(front, [j] + back, now, false);
    assert ([j] + back)[1..] == back;
    if skip || !Eligible(j, now) {
      var kept := Kept(front + [j] + back, now, false);
      assert kept == Kept(front, now, false) + ([j] + Kept(back, now, false));
      assert kept[|Kept(front, now, false)|] == j;
    }
  }

  lemma {:induction false} HoldsCopies(q: seq<Job>, j: Job)
    ensures Holds(q, j) <==> Copies(q, j) > 0
  {
    if q != [] {
      HoldsCopies(q[1..], j);
      if i :| 0 <= i < |q| && Strip(q[i]) == Strip(j) {
        if i > 0 { assert q[1..][i - 1] == q[i]; }
      }
      if i :| 0 <= i < |q[1..]| && Strip(q[1..][i]) == Strip(j) { assert q[i + 1] == q[1..][i]; }
    }
  }

  lemma {:induction false} CopiesAbove(queues: seq<seq<Job>>, a: nat, j: Job)
    requires a < |queues|
    ensures Copies(Flat(queues), j) >= Copies(queues[a], j)
  {
    CopiesConcat(queues[0], Flat(queues[1..]), j);
    if a > 0 { CopiesAbove(queues[1..], a - 1, j); }
  }

  /** A job that waits once is in one queue only. */
  lemma {:induction false} InOneQueue(queues: seq<seq<Job>>, a: nat, b: nat, j: Job)
    requires a < |queues| && b < |queues| && Holds(queues[a], j) && Holds(queues[b], j)
    requires Copies(Flat(queues), j) == 1
    ensures a == b
  {
    HoldsCopies(queues[a], j);
    HoldsCopies(queues[b], j);
    CopiesConcat(queues[0], Flat(queues[1..]), j);
    if a > 0 && b > 0 {
      CopiesAbove(queues[1..], a - 1, j);
      InOneQueue(queues[1..], a - 1, b - 1, j);
    } else {
      if a > 0 { CopiesAbove(queues[1..], a - 1, j); }
      if b > 0 { CopiesAbove(queues[1..], b - 1, j); }
    }
  }

  /** The job is promoted, has been promoted in an earlier pass, and does not land behind a job that
      is promoted out of the queue it lands in. */
  predicate PromotedTwice(queues: seq<seq<Job>>, m: nat, front: seq<Job>, j: Job, now: int)
    requires 2 <= m < |queues|
  {
    && Eligible(j, now) && !EndsOnPromoted(front, now, false)
    && j.shifts != []
    && !EndsOnPromoted(queues[m - 1] + Moved(front, now, false), now, false)
  }

  lemma RiseTwoIff(queues: seq<seq<Job>>, m: nat, front: seq<Job>, j: Job, now: int)
    requires 2 <= m < |queues|
    ensures Rise(queues, m, front, j, now) >= 2 <==> PromotedTwice(queues, m, front, j, now)
  {
    if Eligible(j, now) && !EndsOnPromoted(front, now, false) {
      StillEligibleIff(j, now);
      var land := queues[m - 1] + Moved(front, now, false);
      assert Rise(queues, m, front, j, now) == 1 + Rise(queues, m - 1, land, Shift(j, now), now);
    }
  }

  /** "One level per pass" is false. A job that waits once rises by two levels or more exactly if
      that holds. */
  lemma RisesTwoLevelsIff(queues: seq<seq<Job>>, p: nat, now: int, m: nat, i: nat)
    requires 2 <= m <= p < |queues| && i < |queues[m]| && Copies(Flat(queues), queues[m][i]) == 1
    ensures (exists k: nat :: k + 2 <= m && Holds(PromoteFrom(queues, p, now)[k], queues[m][i]))
       <==> PromotedTwice(queues, m, queues[m][..i], queues[m][i], now)
  {
    var j, front, back := queues[m][i], queues[m][..i], queues[m][i + 1..];
    assert queues[m] == front + [j] + back;
    var rise, end := Rise(queues, m, front, j, now), PromoteFrom(queues, p, now);
    LandsAt(queues, p, now, m, front, j, back);
    PromotionConserves(queues, p, now, j);
    RiseTwoIff(queues, m, front, j, now);
    if rise >= 2 { assert (m - rise) + 2 <= m && Holds(end[m - rise], j); }
    if k: nat :| k + 2 <= m && Holds(end[k], j) { InOneQueue(end, k, m - rise, j); }
  }

  /** So a job that was never promoted before rises by one level at most. */
  lemma FreshJobRisesOneLevel(queues: seq<seq<Job>>, p: nat, now: int, m: nat, i: nat, k: nat)
    requires m <= p < |queues| && i < |queues[m]| && Copies(Flat(queues), queues[m][i]) == 1
    requires queues[m][i].shifts == [] && k < |queues| && Holds(PromoteFrom(queues, p, now)[k], queues[m][i])
    ensures m - 1 <= k <= m
  {
    var j, front, back := queues[m][i], queues[m][..i], queues[m][i + 1..];
    assert queues[m] == front + [j] + back;
    LandsAt(queues, p, now, m, front, j, back);
    PromotionConserves(queues, p, now, j);
    InOneQueue(PromoteFrom(queues, p, now), k, m - Rise(queues, m, front, j, now), j);
    if m >= 2 { RiseTwoIff(queues, m, front, j, now); }
  }

  /** Two neighbours that have both waited long enough: the second one stays behind. */
  lemma NeighbourIsSkipped()
    ensures var now := 200_000 * NANO_TO_MS;
            var a, b := Job(0, 1, true, 0, []), Job(1, 1, true, 0, []);
            && Eligible(a, now) && Eligible(b, now)
            && Kept([a, b], now, false) == [b]
  {
    var now := 200_000 * NANO_TO_MS;
    var a, b := Job(0, 1, true, 0, []), Job(1, 1, true, 0, []);
    assert [a, b][1..] == [b] && [b][1..] == [];
    assert RoundToMs(now) == 200_000;
    assert Kept([b], now, true) == [b] + Kept([], now, false);
  }

  /** A job promoted in an earlier pass climbs two levels in one. */
  lemma TwoLevelsInOnePass()
    ensures var now := 400_000 * NANO_TO_MS;
            var j := Job(0, 1, true, 0, [100 * NANO_TO_MS]);
            PromoteFrom([[], [], [j]], 2, now) == [[Shift(Shift(j, now), now)], [], []]
  {
    var now := 400_000 * NANO_TO_MS;
    var j := Job(0, 1, true, 0, [100 * NANO_TO_MS]);
    assert RoundToMs(now - 100 * NANO_TO_MS) == 399_900;
    var j1 := Shift(j, now);
    var j2 := Shift(j1, now);
    assert j1.shifts[0] == j.shifts[0];
    SingleMoves(j, now);
    SingleMoves(j1, now);
    var none: seq<Job> := [];
    assert PromoteOne([none, none, [j]], 2, now) == [none, [j1], none];
    assert PromoteOne([none, [j1], none], 1, now) == [[j2], none, none];
  }

  lemma SingleMoves(j: Job, now: int)
    requires Eligible(j, now)
    ensures Kept([j], now, false) == [] && Moved([j], now, false) == [Shift(j, now)]
    ensures [] + Moved([j], now, false) == [Shift(j, now)]
  {
    assert [j][1..] == [];
    assert Moved([j], now, false) == [Shift(j, now)] + Moved([], now, true);
  }

  // ----- the scheduler object -----

  datatype AddResult = LoadHigherThanLimit | PriorityNotAllowed | Queued(id: nat)

  /** The queue of a priority name; 4 for a name outside the list, which is refused. */
  function QueueOf(priority: string): (p: nat)
    ensures p < 4 <==> priority in PRIORITIES
    ensures (p == 0 <==> priority == "veryHigh") && (p == 1 <==> priority == "high")
    ensures (p == 2 <==> priority == "medium") && (p == 3 <==> priority == "low")
  {
    if priority == PRIORITIES[0] then 0
    else if priority == PRIORITIES[1] then 1
    else if priority == PRIORITIES[2] then 2
    else if priority == PRIORITIES[3] then 3
    else 4
  }

  class Scheduler {
    var limit: int
    var runningLoad: int
    var running: seq<Job>
    var queues: seq<seq<Job>>
    var nextId: nat

    ghost predicate Valid()
      reads this
    {
      limit > 0 && |queues| == 4 && runningLoad == Load(running)
    }

    ghost function View(): State
      reads this
    {
      State(limit, queues, running, nextId)
    }

    /** What a single dispatch needs to be the one-pass dispatch. */
    ghost predicate WithinLimit()
      reads this
    {
      NonNegative(running) && NonNegative(Flat(queues)) && Load(running) <= limit
    }

    constructor (concurrency: int, isNaN: bool)
      ensures Valid() && Safe(View())
      ensures limit == if isNaN || concurrency <= 0 then 1 else concurrency
      ensures queues == [[], [], [], []] && running == [] && nextId == 0
    {
      limit := if isNaN || concurrency <= 0 then 1 else concurrency;
      runningLoad := 0;
      running := [];
      queues := [[], [], [], []];
      nextId := 0;
      new;
      FlatEmpty(queues);
    }

    method AddToQueue(load: int, priority: string, promote: bool, now: int) returns (result: AddResult)
      requires Valid()
      modifies this
      ensures Valid() && limit == old(limit)
      ensures result.LoadHigherThanLimit? <==> load > limit
      ensures result.PriorityNotAllowed? <==> load <= limit && QueueOf(priority) >= 4
      ensures !result.Queued? ==> View() == old(View())
      ensures result.Queued? ==> result.id == old(nextId)
      ensures result.Queued? && old(WithinLimit()) && load >= 0 ==>
                View() == Dispatch(Enqueue(old(View()), QueueOf(priority), load, promote, now))
      ensures result.Queued? && old(Safe(View())) && load >= 0 ==> Safe(View())
    {
      if load > limit { return LoadHigherThanLimit; }
      var p := QueueOf(priority);
      if p >= 4 { return PriorityNotAllowed; }
      ghost var before := View();
      var job := Job(nextId, load, promote, now, []);
      queues := queues[p := queues[p] + [job]];
      nextId := nextId + 1;
      assert View() == Enqueue(before, p, load, promote, now);
      ghost var allowed := load >= 0 && NonNegative(before.running) && NonNegative(Flat(before.queues));
      EnqueueWithinLimit(before, p, load, promote, now);
      assert allowed && Load(before.running) <= limit ==> WithinLimit();
      CheckForNext();
      result := Queued(job.id);
    }

    /** A running promise settles; `k` is the place `indexOf` finds it at. */
    method Complete(k: nat)
      requires Valid() && k < |running|
      modifies this
      ensures Valid() && limit == old(limit)
      ensures old(WithinLimit()) ==> View() == Dispatch(Finish(old(View()), k))
      ensures old(Safe(View())) ==> Safe(View())
    {
      ghost var before := View();
      LoadRemove(running, k);
      runningLoad := runningLoad - running[k].load;
      running := running[..k] + running[k + 1..];
      ghost var finished := View();
      CheckForNext();
      if Safe(before) { DispatchIsSafe(finished); }
    }

    /** The search loop: the first job, from the top priority down, that fits. */
    method FindNext() returns (found: bool, p: nat, i: nat)
      requires Valid() && runningLoad != limit
      ensures found ==> p < 4 && i < |queues[p]| && Fits(queues[p][i], Free(View()))
      ensures found ==> NoneFits(queues[p][..i], Free(View()))
      ensures found ==> forall k | 0 <= k < p :: NoneFits(queues[k], Free(View()))
      ensures !found ==> NoneFits(Flat(queues), Free(View()))
    {
      p := 0;
      while p < 4
        invariant 0 <= p <= 4
        invariant forall k | 0 <= k < p :: NoneFits(queues[k], Free(View()))
      {
        i := 0;
        while i < |queues[p]|
          invariant 0 <= i <= |queues[p]|
          invariant NoneFits(queues[p][..i], Free(View()))
        {
          if runningLoad + queues[p][i].load <= limit {
            return true, p, i;
          }
          assert queues[p][..i + 1] == queues[p][..i] + [queues[p][i]];
          i := i + 1;
        }
        assert queues[p][..i] == queues[p];
        p := p + 1;
      }
      forall j | j in Flat(queues) ensures !Fits(j, Free(View())) {
        var k := FlatFrom(queues, j);
      }
      return false, 0, 0;
    }

    method CheckForNext()
      requires Valid()
      modifies this
      ensures Valid() && limit == old(limit) && nextId == old(nextId)
      ensures AllJobs(View()) == AllJobs(old(View()))
      ensures old(WithinLimit()) ==> View() == Dispatch(old(View()))
      decreases |Flat(queues)|, 0
    {
      ghost var before := View();
      if (queues[0] == [] && queues[1] == [] && queues[2] == [] && queues[3] == []) || runningLoad == limit {
        if WithinLimit() { NothingToStart(before); }
        return;
      }
      var found, p, i := FindNext();
      if found {
        var job := queues[p][i];
        TakeOut(before, p, i);
        ghost var within := WithinLimit();
        if within { StartFirstFit(before, p, i); }
        queues := Without(queues, p, i);
        assert within ==> WithinLimit();
        ExecuteFunction(job);
      } else {
        DispatchNothing(queues, Free(before));
        assert running + [] == running;
      }
    }

    method ExecuteFunction(job: Job)
      requires Valid() && runningLoad + job.load <= limit
      modifies this
      ensures Valid() && limit == old(limit) && nextId == old(nextId)
      ensures AllJobs(View()) == AllJobs(old(View())) + multiset{job}
      ensures old(WithinLimit()) && job.load >= 0 ==>
                View() == Dispatch(old(View()).(running := old(running) + [job]))
      decreases |Flat(queues)|, 1
    {
      LoadConcat(running, [job]);
      running := running + [job];
      runningLoad := runningLoad + job.load;
      if runningLoad != limit {
        CheckForNext();
      } else if WithinLimit() {
        NothingToStart(View());
      }
    }

    /** The inner loop of the pass: the index moves on although a splice closed the gap.
        `done` and `rest` split the queue; with `skip` the head of `rest` is passed over. */
    method PromoteQueue(p: nat, now: int)
      requires Valid() && 0 < p < 4
      modifies this`queues
      ensures Valid() && queues == PromoteOne(old(queues), p, now)
    {
      var i := 0;
      ghost var start := queues;
      ghost var skip := false;
      ghost var done, rest: seq<Job> := [], start[p];
      assert queues[p] == done + rest;
      while i < |queues[p]|
        invariant |queues| == 4 && queues == start[p := queues[p]][p - 1 := queues[p - 1]]
        invariant i == |done| + (if skip then 1 else 0)
        invariant queues[p] == done + rest
        invariant done + Kept(rest, now, skip) == Kept(start[p], now, false)
        invariant queues[p - 1] + Moved(rest, now, skip) == start[p - 1] + Moved(start[p], now, false)
        decreases |rest|
      {
        if skip {
          PassHead(done, rest, now, true);
          done, rest, skip := done + [rest[0]], rest[1..], false;
        }
        var entry := queues[p][i];
        assert entry == rest[0];
        if Eligible(entry, now) {
          TakeHead(done, rest, queues[p - 1], now);
          queues := queues[p := queues[p][..i] + queues[p][i + 1..]];
          queues := queues[p - 1 := queues[p - 1] + [Shift(entry, now)]];
          rest, skip := rest[1..], true;
        } else {
          PassHead(done, rest, now, false);
          done, rest := done + [rest[0]], rest[1..];
        }
        i := i + 1;
      }
      if rest != [] {
        assert rest[1..] == [];
        assert Kept(rest, now, true) == [rest[0]] + Kept(rest[1..], now, false) == rest;
      }
      assert queues[p - 1] + [] == queues[p - 1];
    }

    /** The timer's pass over the queues; it starts no job. */
    method AdjustPriority(now: int)
      requires Valid()
      modifies this`queues
      ensures Valid()
      ensures queues == PromoteFrom(old(queues), 3, now)
      ensures old(Safe(View())) ==> Safe(View())
    {
      ghost var before := View();
      var p := 3;
      while p > 0
        invariant 0 <= p <= 3 && Valid()
        invariant PromoteFrom(queues, p, now) == PromoteFrom(before.queues, 3, now)
      {
        PromoteQueue(p, now);
        p := p - 1;
      }
      if Safe(before) { PromotionKeepsSafe(before, now); }
    }
  }

  // ----- the scheduler as steps over its state -----

  function Enqueue(s: State, p: nat, load: int, promote: bool, now: int): State
    requires p < |s.queues|
  {
    s.(queues := s.queues[p := s.queues[p] + [Job(s.nextId, load, promote, now, [])]], nextId := s.nextId + 1)
  }

  function Finish(s: State, k: nat): State
    requires k < |s.running|
  {
    s.(running := s.running[..k] + s.running[k + 1..])
  }

  lemma AppendOne(queues: seq<seq<Job>>, p: nat, job: Job)
    requires p < |queues|
    ensures multiset(Flat(queues[p := queues[p] + [job]])) == multiset(Flat(queues)) + multiset{job}
  {
    var longer := queues[p] + [job];
    var after := Flat(queues[p := longer]);
    forall x: Job ensures multiset(after)[x] == multiset(Flat(queues))[x] + multiset{job}[x] {
      FlatUpdate(queues, p, longer, x);
      assert multiset(longer)[x] == multiset(queues[p])[x] + multiset{job}[x];
    }
  }

  lemma EnqueueKeeps(s: State, p: nat, load: int, promote: bool, now: int)
    requires p < |s.queues|
    ensures multiset(Flat(Enqueue(s, p, load, promote, now).queues))
         == multiset(Flat(s.queues)) + multiset{Job(s.nextId, load, promote, now, [])}
    ensures forall j <- Flat(Enqueue(s, p, load, promote, now).queues) ::
              j in Flat(s.queues) || j == Job(s.nextId, load, promote, now, [])
  {
    var job := Job(s.nextId, load, promote, now, []);
    AppendOne(s.queues, p, job);
    var after := Flat(Enqueue(s, p, load, promote, now).queues);
    forall j | j in after ensures j in Flat(s.queues) || j == job {
      assert j in multiset(after);
    }
  }

  lemma EnqueueWithinLimit(s: State, p: nat, load: int, promote: bool, now: int)
    requires p < |s.queues| == 4
    ensures NonNegative(Flat(s.queues)) && load >= 0 ==> NonNegative(Flat(Enqueue(s, p, load, promote, now).queues))
    ensures Safe(s) && 0 <= load <= s.limit ==> Safe(Dispatch(Enqueue(s, p, load, promote, now)))
  {
    EnqueueKeeps(s, p, load, promote, now);
    if Safe(s) && 0 <= load <= s.limit { DispatchIsSafe(Enqueue(s, p, load, promote, now)); }
  }

  // ----- every run of the scheduler -----

  datatype Op =
    | Add(queue: nat, load: int, promote: bool, time: int)
    | Settle(place: nat)
    | Promote(time: int)

  ghost predicate AllowedOp(op: Op)
  {
    op.Add? ==> op.load >= 0
  }

  /** One call from outside; a call the scheduler refuses, or that cannot happen, changes nothing. */
  function Step(s: State, op: Op): (r: State)
    requires |s.queues| == 4
    ensures |r.queues| == 4 && r.limit == s.limit
  {
    match op
    case Add(p, load, promote, now) =>
      if load > s.limit || p >= 4 then s else Dispatch(Enqueue(s, p, load, promote, now))
    case Settle(k) =>
      if k >= |s.running| then s else Dispatch(Finish(s, k))
    case Promote(now) => s.(queues := PromoteFrom(s.queues, 3, now))
  }

  function Run(s: State, ops: seq<Op>): (r: State)
    requires |s.queues| == 4
    ensures |r.queues| == 4 && r.limit == s.limit
    decreases |ops|
  {
    if ops == [] then s else Run(Step(s, ops[0]), ops[1..])
  }

  lemma StepIsSafe(s: State, op: Op)
    requires Safe(s) && AllowedOp(op)
    ensures Safe(Step(s, op))
  {
    match op
    case Add(p, load, promote, now) =>
      if load <= s.limit && p < 4 {
        EnqueueWithinLimit(s, p, load, promote, now);
      }
    case Settle(k) =>
      if k < |s.running| {
        LoadRemove(s.running, k);
        assert s.running[k] in s.running;
        DispatchIsSafe(Finish(s, k));
      }
    case Promote(now) => PromotionKeepsSafe(s, now);
  }

  /** Safety and work conservation in every state of every run. */
  lemma {:induction false} RunIsSafe(s: State, ops: seq<Op>)
    requires Safe(s) && forall op <- ops :: AllowedOp(op)
    ensures Safe(Run(s, ops))
    ensures Flat(Run(s, ops).queues) != [] ==> Run(s, ops).running != []
    decreases |ops|
  {
    if ops == [] {
      if Flat(s.queues) != [] { WaitingMeansRunning(s); }
    } else {
      StepIsSafe(s, ops[0]);
      RunIsSafe(Step(s, ops[0]), ops[1..]);
    }
  }

  /** Work conservation in every run: what waits does not fit the free capacity, with one exception,
      a job of load zero while the limit is reached. */
  lemma WaitingFitsIff(s: State, ops: seq<Op>, j: Job)
    requires Safe(s) && (forall op <- ops :: AllowedOp(op)) && j in Flat(Run(s, ops).queues)
    ensures j.load <= Free(Run(s, ops)) <==> j.load == 0 && Free(Run(s, ops)) == 0
  {
    RunIsSafe(s, ops);
  }

  /** The exception is real: added while the limit is reached, such a job waits although it needs
      nothing. */
  lemma ZeroLoadWaits()
    ensures var s := State(1, [[], [], [], []], [Job(0, 1, false, 0, [])], 1);
            Safe(s) && Free(s) == 0 && Step(s, Add(2, 0, false, 0)) == Enqueue(s, 2, 0, false, 0)
  {
    var s := State(1, [[], [], [], []], [Job(0, 1, false, 0, [])], 1);
    FlatEmpty(s.queues);
    assert s.running[1..] == [];
    NothingToStart(Enqueue(s, 2, 0, false, 0));
  }

  const NONE: seq<seq<Job>> := [[], [], [], []]

  /** With nothing waiting, a job that can be started is. */
  lemma AddStarts(s: State, load: int)
    requires s.queues == NONE && load <= s.limit && load <= Free(s) && Free(s) != 0
    ensures var t := Step(s, Add(0, load, false, 0));
            && t == State(s.limit, NONE, s.running + [Job(s.nextId, load, false, 0, [])], s.nextId + 1)
            && Free(t) == Free(s) - load
  {
    var job, rest := Job(s.nextId, load, false, 0, []), NONE[1..];
    var e := Enqueue(s, 0, load, false, 0);
    LoadConcat(s.running, [job]);
    FlatEmpty(rest);
    DispatchNothing(rest, FreeAfter([job], Free(s)));
    assert [] + [job] == [job] && e.queues[0] == [job] && e.queues[1..] == rest && [job][1..] == [];
    assert Started([job], Free(s)) == [job] && Left([job], Free(s)) == [];
    assert [[]] + rest == NONE;
  }

  /** A negative load breaks the limit: it makes room for jobs that stay when it ends. */
  lemma NegativeLoadBreaksLimit(limit: int, load: int)
    requires limit > 0 > load
    ensures Load(Run(Start(limit), Breaking(limit, load)).running) == limit + 1
  {
    var ops := Breaking(limit, load);
    var s0 := Start(limit);
    AddStarts(s0, load);
    var s1 := Step(s0, ops[0]);
    AddStarts(s1, limit);
    var s2 := Step(s1, ops[1]);
    AddStarts(s2, 1);
    var s3 := Step(s2, ops[2]);
    assert s3.running[0] == Job(0, load, false, 0, []);
    SettleFirst(s3);
    RunFour(s0, ops[0], ops[1], ops[2], ops[3]);
  }

  lemma SettleFirst(s: State)
    requires s.queues == NONE && s.running != []
    ensures Load(Step(s, Settle(0)).running) == Load(s.running) - s.running[0].load
  {
    FlatEmpty(NONE);
    NothingToStart(Finish(s, 0));
    LoadRemove(s.running, 0);
  }

  function Breaking(limit: int, load: int): seq<Op>
  {
    [Add(0, load, false, 0), Add(0, limit, false, 0), Add(0, 1, false, 0), Settle(0)]
  }

  lemma RunFour(s: State, a: Op, b: Op, c: Op, d: Op)
    requires |s.queues| == 4
    ensures Run(s, [a, b, c, d]) == Step(Step(Step(Step(s, a), b), c), d)
  {
    var s1 := Step(s, a);
    var s2 := Step(s1, b);
    var s3 := Step(s2, c);
    assert [d][1..] == [] && Run(s3, [d]) == Step(s3, d);
    assert [c, d][1..] == [d] && Run(s2, [c, d]) == Run(s3, [d]);
    assert [b, c, d][1..] == [c, d] && Run(s1, [b, c, d]) == Run(s2, [c, d]);
    assert [a, b, c, d][1..] == [b, c, d];
  }

  /** The limit holds in every run, whatever it is, if and only if no load is negative: `least` is the
      least load that is ever added. */
  lemma LimitHoldsIff(limit: int, least: int)
    requires limit > 0
    ensures (forall ops: seq<Op> | AtLeast(ops, least) :: Load(Run(Start(limit), ops).running) <= limit)
       <==> least >= 0
  {
    if least >= 0 {
      forall ops: seq<Op> | AtLeast(ops, least) ensures Load(Run(Start(limit), ops).running) <= limit {
        FlatEmpty(Start(limit).queues);
        RunIsSafe(Start(limit), ops);
      }
    } else {
      NegativeLoadBreaksLimit(limit, least);
      assert AtLeast(Breaking(limit, least), least);
    }
  }

  ghost predicate AtLeast(ops: seq<Op>, least: int)
  {
    forall op <- ops | op.Add? :: op.load >= least
  }

  lemma {:induction false} TooBigStays(jobs: seq<Job>, free: int, b: Job)
    requires NonNegative(jobs) && b in jobs && free >= 0 && (free == 0 || b.load > free)
    ensures b in Left(jobs, free)
  {
    if jobs[0] != b {
      TooBigStays(jobs[1..], if Fits(jobs[0], free) then free - jobs[0].load else free, b);
    }
  }

  lemma {:induction false} LeftInOrder(jobs: seq<Job>, free: int, a: Job, b: Job)
    requires NonNegative(jobs) && Before(jobs, a, b) && a.load <= b.load
    requires free >= 0 && multiset(jobs)[a] <= 1 && a in Left(jobs, free)
    ensures Before(Left(jobs, free), a, b)
  {
    var rest := jobs[1..];
    assert jobs == [jobs[0]] + rest;
    var fits := Fits(jobs[0], free);
    if jobs[0] == a {
      assert multiset(jobs)[a] == 1 + multiset(rest)[a];
      assert a !in rest;
      LeftFrom(rest, if fits then free - a.load else free, a);
      if Before(rest, a, b) { BeforeHas(rest, a, b); }
      TooBigStays(rest, free, b);
    } else {
      LeftInOrder(rest, if fits then free - jobs[0].load else free, a, b);
    }
  }

  lemma {:induction false} LeftFrom(jobs: seq<Job>, free: int, j: Job)
    ensures j in Left(jobs, free) ==> j in jobs
  {
    if jobs != [] {
      LeftFrom(jobs[1..], if Fits(jobs[0], free) then free - jobs[0].load else free, j);
    }
  }

  lemma {:induction false} LeftAllInOrder(queues: seq<seq<Job>>, free: int, k: nat, a: Job, b: Job)
    requires k < |queues| && NonNegative(Flat(queues)) && Before(queues[k], a, b) && a.load <= b.load
    requires free >= 0 && multiset(Flat(queues))[a] <= 1 && a in Flat(LeftAll(queues, free))
    ensures Before(LeftAll(queues, free)[k], a, b)
  {
    var q, rest := queues[0], queues[1..];
    var f := FreeAfter(q, free);
    assert forall j <- q :: j in Flat(queues);
    assert forall j <- Flat(rest) :: j in Flat(queues);
    assert multiset(Flat(queues)) == multiset(q) + multiset(Flat(rest));
    assert LeftAll(queues, free)[1..] == LeftAll(rest, f);
    PassLeavesNothingFitting(q, free);
    if k == 0 {
      BeforeHas(q, a, b);
      assert multiset(q)[a] >= 1;
      LeftAllFrom(rest, f, a);
      assert a in Flat(rest) ==> multiset(Flat(rest))[a] >= 1;
      LeftInOrder(q, free, a, b);
    } else {
      BeforeHas(queues[k], a, b);
      FlatHas(rest, k - 1, a);
      assert multiset(Flat(rest))[a] >= 1;
      LeftFrom(q, free, a);
      assert a in q ==> multiset(q)[a] >= 1;
      LeftAllInOrder(rest, f, k - 1, a, b);
    }
  }

  lemma {:induction false} LeftAllFrom(queues: seq<seq<Job>>, free: int, j: Job)
    ensures j in Flat(LeftAll(queues, free)) ==> j in Flat(queues)
  {
    if queues != [] {
      var f := FreeAfter(queues[0], free);
      assert LeftAll(queues, free)[1..] == LeftAll(queues[1..], f);
      LeftFrom(queues[0], free, j);
      LeftAllFrom(queues[1..], f, j);
    }
  }

  /** `a` is an entry that was handed out once, cannot be promoted, and waits at most once. */
  ghost predicate OneOf(s: State, a: Job)
  {
    !a.promote && a.id < s.nextId && multiset(Flat(s.queues))[a] <= 1
  }

  lemma PromotionKeepsCount(s: State, now: int, a: Job)
    requires |s.queues| == 4 && OneOf(s, a)
    ensures multiset(Flat(PromoteFrom(s.queues, 3, now)))[a] <= multiset(Flat(s.queues))[a]
  {
    PromoteCount(s.queues, 3, now, a);
  }

  lemma {:induction false} KeptCount(jobs: seq<Job>, now: int, skip: bool, a: Job)
    requires !a.promote
    ensures multiset(Kept(jobs, now, skip))[a] <= multiset(jobs)[a] && multiset(Moved(jobs, now, skip))[a] == 0
  {
    if jobs != [] {
      assert jobs == [jobs[0]] + jobs[1..];
      KeptCount(jobs[1..], now, !skip && Eligible(jobs[0], now), a);
    }
  }

  lemma MoveCount(queues: seq<seq<Job>>, p: nat, kept: seq<Job>, moved: seq<Job>, a: Job)
    requires 0 < p < |queues| && multiset(moved)[a] == 0 && multiset(kept)[a] <= multiset(queues[p])[a]
    ensures multiset(Flat(queues[p := kept][p - 1 := queues[p - 1] + moved]))[a] <= multiset(Flat(queues))[a]
  {
    var longer := queues[p - 1] + moved;
    FlatUpdate(queues, p, kept, a);
    FlatUpdate(queues[p := kept], p - 1, longer, a);
    assert multiset(longer)[a] == multiset(queues[p - 1])[a] + multiset(moved)[a];
  }

  lemma {:induction false} PromoteCount(queues: seq<seq<Job>>, p: nat, now: int, a: Job)
    requires p < |queues| && !a.promote
    ensures multiset(Flat(PromoteFrom(queues, p, now)))[a] <= multiset(Flat(queues))[a]
    decreases p
  {
    if p > 0 {
      var kept, moved := Kept(queues[p], now, false), Moved(queues[p], now, false);
      KeptCount(queues[p], now, false, a);
      MoveCount(queues, p, kept, moved, a);
      PromoteCount(PromoteOne(queues, p, now), p - 1, now, a);
    }
  }

  lemma {:induction false} LeftAllCount(queues: seq<seq<Job>>, free: int, a: Job)
    ensures multiset(Flat(LeftAll(queues, free)))[a] <= multiset(Flat(queues))[a]
  {
    if queues != [] {
      var q, rest := queues[0], queues[1..];
      PassConserves(q, free);
      LeftAllCount(rest, FreeAfter(q, free), a);
      assert LeftAll(queues, free)[1..] == LeftAll(rest, FreeAfter(q, free));
    }
  }

  lemma DispatchKeepsCount(s: State, a: Job)
    ensures multiset(Flat(Dispatch(s).queues))[a] <= multiset(Flat(s.queues))[a]
  {
    LeftAllCount(s.queues, Free(s), a);
  }

  lemma StepKeepsOneOf(s: State, op: Op, a: Job)
    requires Safe(s) && AllowedOp(op) && OneOf(s, a)
    ensures OneOf(Step(s, op), a)
    ensures multiset(Flat(Step(s, op).queues))[a] <= multiset(Flat(s.queues))[a]
  {
    match op
    case Add(p, load, promote, now) =>
      if load <= s.limit && p < 4 {
        EnqueueKeeps(s, p, load, promote, now);
        DispatchKeepsCount(Enqueue(s, p, load, promote, now), a);
      }
    case Settle(k) =>
      if k < |s.running| { DispatchKeepsCount(Finish(s, k), a); }
    case Promote(now) => PromotionKeepsCount(s, now, a);
  }

  lemma StepKeepsOrder(s: State, op: Op, k: nat, a: Job, b: Job)
    requires Safe(s) && AllowedOp(op) && OneOf(s, a) && k < 4
    requires Before(s.queues[k], a, b) && !b.promote && a.load <= b.load
    requires a in Flat(Step(s, op).queues)
    ensures Before(Step(s, op).queues[k], a, b)
  {
    match op
    case Add(p, load, promote, now) =>
      if load <= s.limit && p < 4 {
        var e := Enqueue(s, p, load, promote, now);
        EnqueueKeeps(s, p, load, promote, now);
        EnqueueWithinLimit(s, p, load, promote, now);
        assert multiset(Flat(e.queues))[a] == multiset(Flat(s.queues))[a];
        if p == k { BeforeAppend(s.queues[k], [Job(s.nextId, load, promote, now, [])], a, b); }
        LeftAllInOrder(e.queues, Free(e), k, a, b);
      }
    case Settle(i) =>
      if i < |s.running| {
        LoadRemove(s.running, i);
        assert s.running[i] in s.running;
        LeftAllInOrder(s.queues, Free(Finish(s, i)), k, a, b);
      }
    case Promote(now) => PromotionKeepsOrder(s.queues, 3, now, k, a, b);
  }

  /** No overtaking, in every run: as long as `a` waits, a job `b` behind it in the same queue,
      with at least its load and neither of them promotable, waits behind it too. */
  lemma {:induction false} NoOvertaking(s: State, ops: seq<Op>, k: nat, a: Job, b: Job)
    requires Safe(s) && OneOf(s, a) && k < 4 && forall op <- ops :: AllowedOp(op)
    requires Before(s.queues[k], a, b) && !b.promote && a.load <= b.load
    ensures a in Flat(Run(s, ops).queues) ==> Before(Run(s, ops).queues[k], a, b)
    decreases |ops|
  {
    if ops != [] {
      var next := Step(s, ops[0]);
      StepIsSafe(s, ops[0]);
      StepKeepsOneOf(s, ops[0], a);
      if a in Flat(next.queues) {
        StepKeepsOrder(s, ops[0], k, a, b);
        NoOvertaking(next, ops[1..], k, a, b);
      } else {
        assert multiset(Flat(next.queues))[a] == 0;
        StaysGone(next, ops[1..], a);
      }
    }
  }

  lemma {:induction false} StaysGone(s: State, ops: seq<Op>, a: Job)
    requires Safe(s) && OneOf(s, a) && a !in Flat(s.queues) && forall op <- ops :: AllowedOp(op)
    ensures a !in Flat(Run(s, ops).queues)
    decreases |ops|
  {
    if ops != [] {
      StepIsSafe(s, ops[0]);
      StepKeepsOneOf(s, ops[0], a);
      assert multiset(Flat(s.queues))[a] == 0;
      assert multiset(Flat(Step(s, ops[0]).queues))[a] == 0;
      StaysGone(Step(s, ops[0]), ops[1..], a);
    }
  }

  function Start(limit: int): State
  {
    State(limit, [[], [], [], []], [], 0)
  }

  /** Entries are handed out once each: no two waiting jobs that stay as they are are equal. */
  ghost predicate Issued(s: State)
  {
    forall a: Job | !a.promote :: multiset(Flat(s.queues))[a] <= if a.id < s.nextId then 1 else 0
  }

  lemma StepIssued(s: State, op: Op)
    requires |s.queues| == 4 && Issued(s)
    ensures Issued(Step(s, op))
  {
    var next := Step(s, op);
    forall a: Job | !a.promote
      ensures multiset(Flat(next.queues))[a] <= if a.id < next.nextId then 1 else 0
    {
      match op
      case Add(p, load, promote, now) =>
        if load <= s.limit && p < 4 {
          EnqueueKeeps(s, p, load, promote, now);
          DispatchKeepsCount(Enqueue(s, p, load, promote, now), a);
        }
      case Settle(k) =>
        if k < |s.running| { DispatchKeepsCount(Finish(s, k), a); }
      case Promote(now) => PromoteCount(s.queues, 3, now, a);
    }
  }

  lemma {:induction false} RunIssued(s: State, ops: seq<Op>)
    requires |s.queues| == 4 && Issued(s)
    ensures Issued(Run(s, ops))
    decreases |ops|
  {
    if ops != [] {
      StepIssued(s, ops[0]);
      RunIssued(Step(s, ops[0]), ops[1..]);
    }
  }

  /** The same from the moment the scheduler is created: `earlier` is any history, `later` any
      continuation. */
  lemma NoOvertakingFromStart(limit: int, earlier: seq<Op>, later: seq<Op>, k: nat, a: Job, b: Job)
    requires limit > 0 && k < 4
    requires (forall op <- earlier :: AllowedOp(op)) && (forall op <- later :: AllowedOp(op))
    requires Before(Run(Start(limit), earlier).queues[k], a, b)
    requires !a.promote && !b.promote && a.load <= b.load
    ensures var final := Run(Run(Start(limit), earlier), later);
            a in Flat(final.queues) ==> Before(final.queues[k], a, b)
  {
    var s := Run(Start(limit), earlier);
    FlatEmpty(Start(limit).queues);
    RunIsSafe(Start(limit), earlier);
    RunIssued(Start(limit), earlier);
    BeforeHas(s.queues[k], a, b);
    FlatHas(s.queues, k, a);
    assert multiset(Flat(s.queues))[a] >= 1;
    NoOvertaking(s, later, k, a, b);
  }
}
