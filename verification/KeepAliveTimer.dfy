/** The drift-safe timer (`src/shared/SetIntervalDriftSafe.js`) and what it is for: how much a
    keep-alive may be late, or missing, before a row can be claimed by somebody else.
    All times are milliseconds. */
module KeepAliveTimer {
  import opened EventTable
  import opened RowProtocol
  import opened ExclusiveOwnership

  /** `setTimeout` waits at least one millisecond. */
  function Delay(requested: int): int
  {
    if requested < 1 then 1 else requested
  }

  function Max(a: int, b: int): int
  {
    if a < b then b else a
  }

  class SetIntervalDriftSafe {
    const interval: int
    var adjustedInterval: int
    var expectedCycleTime: int
    var shouldRun: bool
    /** When the pending timeout is due; None without one. */
    var due: Option<int>

    constructor (interval: int)
      ensures this.interval == interval && adjustedInterval == interval
      ensures expectedCycleTime == 0 && shouldRun && due == None
    {
      this.interval := interval;
      adjustedInterval, expectedCycleTime, shouldRun, due := interval, 0, true, None;
    }

    /** Arms the next timeout.  Whatever the delay of this call, the timer aims at the time one
        interval after the one it aimed at before; only if that is already over it hurries. */
    method Run(now: int)
      modifies this
      ensures shouldRun == old(shouldRun)
      ensures !shouldRun ==> due == old(due) && expectedCycleTime == old(expectedCycleTime)
      ensures shouldRun ==>
        && expectedCycleTime == (if old(expectedCycleTime) == 0 then now else old(expectedCycleTime)) + interval
        && (old(expectedCycleTime) != 0 ==> due == Some(Max(expectedCycleTime, now + 1)))
        && (old(expectedCycleTime) == 0 ==> due == Some(now + Delay(old(adjustedInterval))))
    {
      if !shouldRun { return; }
      if expectedCycleTime == 0 {
        expectedCycleTime := now + interval;
      } else {
        adjustedInterval := interval - (now - expectedCycleTime);
        expectedCycleTime := expectedCycleTime + interval;
      }
      due := Some(now + Delay(adjustedInterval));
    }

    method Start(now: int)
      modifies this
      ensures shouldRun
      ensures expectedCycleTime == (if old(expectedCycleTime) == 0 then now else old(expectedCycleTime)) + interval
      ensures old(expectedCycleTime) != 0 ==> due == Some(Max(expectedCycleTime, now + 1))
      ensures old(expectedCycleTime) == 0 ==> due == Some(now + Delay(old(adjustedInterval)))
    {
      shouldRun := true;
      Run(now);
    }

    /** The timeout fires at `now`; `tick` says whether the callback is called. */
    method Fire(now: int) returns (tick: bool)
      requires due.Some? && now >= due.value
      modifies this
      ensures tick == old(shouldRun) && shouldRun == old(shouldRun)
      ensures tick && old(expectedCycleTime) != 0 ==>
        && expectedCycleTime == old(expectedCycleTime) + interval
        && due == Some(Max(expectedCycleTime, now + 1))
      ensures !tick ==> expectedCycleTime == old(expectedCycleTime)
    {
      if !shouldRun { return false; }
      Run(now);
      return true;
    }

    method Stop()
      modifies this
      ensures !shouldRun && due == None && expectedCycleTime == old(expectedCycleTime)
    {
      shouldRun := false;
      due := None;
    }

    /** A whole run of the timer from its start at `begin`: tick `n` (from 1 on) fires `late[n - 1]`
        after it is due.  Every tick aims at `begin + n * interval`, however late the earlier ones
        were, and never fires before that. */
    method RunTicks(begin: int, late: seq<nat>) returns (fired: seq<int>)
      requires interval > 0 && begin > 0
      requires expectedCycleTime == 0 && adjustedInterval == interval && due == None
      modifies this
      ensures |fired| == |late|
      ensures forall n | 0 <= n < |fired| :: fired[n] == FireTime(begin, interval, late, n + 1)
      ensures due == Some(DueTime(begin, interval, late, |late| + 1))
      ensures expectedCycleTime == Aim(begin, interval, |late| + 1)
    {
      Start(begin);
      fired := [];
      AimNext(begin, interval, 0);
      for n := 0 to |late|
        invariant |fired| == n && shouldRun
        invariant forall k | 0 <= k < n :: fired[k] == FireTime(begin, interval, late, k + 1)
        invariant expectedCycleTime == Aim(begin, interval, n + 1)
        invariant due == Some(DueTime(begin, interval, late, n + 1))
      {
        var at := due.value + late[n];
        AimNext(begin, interval, n + 1);
        AimAfterStart(begin, interval, n + 1);
        var tick := Fire(at);
        fired := fired + [at];
      }
    }
  }

  /** The grid the timer aims at. */
  function Aim(begin: int, interval: int, n: nat): int
  {
    begin + n * interval
  }

  lemma AimNext(begin: int, interval: int, n: nat)
    ensures Aim(begin, interval, n + 1) == Aim(begin, interval, n) + interval
  {
  }

  lemma AimAfterStart(begin: int, interval: int, n: nat)
    requires interval > 0
    ensures Aim(begin, interval, n) >= begin
  {
  }

  /** When tick `n` is due and when it fires, given how late each tick is. */
  function DueTime(begin: int, interval: int, late: seq<nat>, n: nat): int
    requires 0 < n <= |late| + 1
    decreases n, 0
  {
    if n == 1 then begin + Delay(interval)
    else Max(Aim(begin, interval, n), FireTime(begin, interval, late, n - 1) + 1)
  }

  function FireTime(begin: int, interval: int, late: seq<nat>, n: nat): int
    requires 0 < n <= |late|
    decreases n, 1
  {
    DueTime(begin, interval, late, n) + late[n - 1]
  }

  /** No tick comes early. */
  lemma {:induction false} NeverEarly(begin: int, interval: int, late: seq<nat>, n: nat)
    requires interval > 0 && 0 < n <= |late|
    ensures FireTime(begin, interval, late, n) >= Aim(begin, interval, n)
  {
  }

  /** Ticks come off the event loop less than half an interval late: measured against the grid. */
  ghost predicate HalfLate(begin: int, interval: int, late: seq<nat>)
  {
    forall n | 0 < n <= |late| :: 2 * (FireTime(begin, interval, late, n) - Aim(begin, interval, n)) < interval
  }

  /** The drift is not carried over: if every single delay is less than half an interval, then so
      is every tick's distance from the grid, after any number of ticks. */
  lemma {:induction false} DelaysDoNotAddUp(begin: int, interval: int, late: seq<nat>, n: nat)
    requires interval > 1 && 0 < n <= |late|
    requires forall k | 0 <= k < |late| :: 2 * late[k] < interval
    ensures DueTime(begin, interval, late, n) == Aim(begin, interval, n)
    ensures 2 * (FireTime(begin, interval, late, n) - Aim(begin, interval, n)) < interval
    decreases n
  {
    if n > 1 {
      DelaysDoNotAddUp(begin, interval, late, n - 1);
      AimNext(begin, interval, n - 1);
    }
  }

  // ----- what the slack is worth -----

  /** keepAliveMaxInProgressTime is 3.5 intervals: twice that is a whole number. */
  ghost predicate Stuck(stamp: int, now: int, interval: int)
  {
    2 * (now - stamp) >= 7 * interval
  }

  /** The stamp on the row at time `now`: that of the last tick that wrote it. At the time of a tick
      the row may still carry the stamp before. */
  ghost predicate IsStampAt(begin: int, interval: int, late: seq<nat>, wrote: seq<bool>, n: nat, now: int)
    requires |wrote| == |late| && 0 < n <= |late|
  {
    && wrote[n - 1] && FireTime(begin, interval, late, n) <= now
    && forall k | n < k <= |late| && wrote[k - 1] :: now <= FireTime(begin, interval, late, k)
  }

  /** At most two ticks in a row go missing. */
  ghost predicate MissesAtMostTwo(wrote: seq<bool>)
  {
    forall n | 0 <= n && n + 2 < |wrote| :: wrote[n] || wrote[n + 1] || wrote[n + 2]
  }

  lemma {:induction false} FiresInOrder(begin: int, interval: int, late: seq<nat>, m: nat, n: nat)
    requires 0 < m <= n <= |late|
    ensures FireTime(begin, interval, late, m) <= FireTime(begin, interval, late, n)
    decreases n - m
  {
    if m < n { FiresInOrder(begin, interval, late, m, n - 1); }
  }

  /** The slack theorem: with ticks less than half an interval late and at most two of them missing
      in a row, the row can never be reclaimed between the first tick that wrote it and the last
      tick considered. */
  lemma NeverStuckBetweenTicks(begin: int, interval: int, late: seq<nat>, wrote: seq<bool>, n: nat, now: int)
    requires interval > 0 && |wrote| == |late| && 0 < n <= |late| - 3
    requires HalfLate(begin, interval, late) && MissesAtMostTwo(wrote)
    requires IsStampAt(begin, interval, late, wrote, n, now)
    ensures !Stuck(FireTime(begin, interval, late, n), now, interval)
  {
    NeverEarly(begin, interval, late, n);
    assert wrote[n] || wrote[n + 1] || wrote[n + 2];
    var k := if wrote[n] then n + 1 else if wrote[n + 1] then n + 2 else n + 3;
    assert wrote[k - 1] && now <= FireTime(begin, interval, late, k);
    FiresInOrder(begin, interval, late, k, n + 3);
    assert 2 * (FireTime(begin, interval, late, n + 3) - Aim(begin, interval, n + 3)) < interval;
    AimNext(begin, interval, n);
    AimNext(begin, interval, n + 1);
    AimNext(begin, interval, n + 2);
  }

  /** Exclusive ownership asks for owners that are on time; this is one. */
  lemma TickIsRecent(begin: int, interval: int, late: seq<nat>, wrote: seq<bool>, n: nat, now: int, maxInProgress: int)
    requires interval > 1 && |wrote| == |late| && 0 < n <= |late| - 3
    requires (forall k | 0 <= k < |late| :: 2 * late[k] < interval) && MissesAtMostTwo(wrote)
    requires IsStampAt(begin, interval, late, wrote, n, now) && 2 * maxInProgress == 7 * interval
    ensures now - FireTime(begin, interval, late, n) < maxInProgress
  {
    forall k | 0 < k <= |late|
      ensures 2 * (FireTime(begin, interval, late, k) - Aim(begin, interval, k)) < interval
    {
      DelaysDoNotAddUp(begin, interval, late, k);
    }
    NeverStuckBetweenTicks(begin, interval, late, wrote, n, now);
  }

  /** From the claim on, which precedes the start of the timer, there is that much less: with the
      timer started at most `lag` after the claim, two missing ticks are survived if and only if
      (in the worst case) the third one is less than half an interval minus `lag` late. */
  lemma FirstWindow(claim: int, begin: int, interval: int, late: seq<nat>, lag: nat)
    requires interval > 0 && |late| >= 3 && begin == claim + lag
    ensures !Stuck(claim, FireTime(begin, interval, late, 3), interval) <==>
      2 * (FireTime(begin, interval, late, 3) - Aim(begin, interval, 3) + lag) < interval
  {
    AimNext(begin, interval, 0);
    AimNext(begin, interval, 1);
    AimNext(begin, interval, 2);
  }

  /** The bound is tight: three missing ticks, all punctual, and the row can be claimed again
      before the fourth. */
  lemma ThreeMissesAreTooMany(begin: int, interval: int)
    requires interval > 1
    ensures var late: seq<nat> := [0, 0, 0, 0, 0];
            && FireTime(begin, interval, late, 1) == begin + interval
            && FireTime(begin, interval, late, 5) == begin + 5 * interval
            && Stuck(FireTime(begin, interval, late, 1), FireTime(begin, interval, late, 5), interval)
  {
    var late: seq<nat> := [0, 0, 0, 0, 0];
    DelaysDoNotAddUp(begin, interval, late, 1);
    DelaysDoNotAddUp(begin, interval, late, 5);
  }

  /** The same bound as the claim's where clause states it. */
  lemma StuckIsSelectable(row: Row, startTime: int, now: int, interval: int, cfg: Config)
    requires row.status == InProgress && row.lastAttempt.Some? && row.startAfter.None?
    requires 2 * cfg.maxInProgress == 7 * interval
    ensures Selectable(row, startTime, now, cfg) <==> Stuck(row.lastAttempt.value, now, interval)
  {
  }

  // ----- the owners' stamps are the timer's ticks -----

  /** The time of the last keep-alive of `p` in the run, or `stamp` if there is none. */
  ghost function LastBeat(u: Setup, s: System, steps: seq<Step>, p: ProcId, stamp: int): int
    requires Legal(u, s, steps)
    decreases |steps|
  {
    if steps == [] then stamp
    else LastBeat(u, Apply(u, s, steps[0]), steps[1..], p, if steps[0] == KeepAlive(p) then s.now else stamp)
  }

  lemma TouchMoves(u: Setup, s: System, step: Step, p: ProcId, e: Id)
    requires Inv(s) && Enabled(u, s, step) && p in s.procs && s.procs[p].live && e in s.procs[p].unwritten
    ensures p in Apply(u, s, step).procs
    ensures Touch(Apply(u, s, step).procs[p], e) == if step == KeepAlive(p) then s.now else Touch(s.procs[p], e)
  {
    var x := s.procs[p];
    assert ProcOk(s, x) && Holds(s, x, e);
    if step == KeepAlive(p) { assert e in Valid(s.table, x); }
  }

  lemma StillUnwritten(u: Setup, s: System, steps: seq<Step>, p: ProcId, e: Id)
    requires Legal(u, s, steps) && p in s.procs && Owns(Run(u, s, steps), p, e) && e in Run(u, s, steps).procs[p].unwritten
    ensures s.procs[p].live && e in s.procs[p].unwritten
    decreases |steps|
  {
    if steps != [] {
      UnwrittenShrinks(u, s, steps[0], p);
      StillUnwritten(u, Apply(u, s, steps[0]), steps[1..], p, e);
    }
  }

  lemma UnwrittenShrinks(u: Setup, s: System, step: Step, p: ProcId)
    requires Enabled(u, s, step) && p in s.procs
    ensures p in Apply(u, s, step).procs && Apply(u, s, step).procs[p].unwritten <= s.procs[p].unwritten
    ensures Apply(u, s, step).procs[p].live ==> s.procs[p].live
  {
  }

  /** In a careful run the stamp of an owner that still has to write its row is the time of its last
      keep-alive. */
  lemma {:induction false} TouchIsLastBeat(u: Setup, s: System, steps: seq<Step>, p: ProcId, e: Id)
    requires Inv(s) && Legal(u, s, steps) && CarefulRun(u, s, steps) && p in s.procs
    requires Owns(Run(u, s, steps), p, e) && e in Run(u, s, steps).procs[p].unwritten
    ensures Touch(Run(u, s, steps).procs[p], e) == LastBeat(u, s, steps, p, Touch(s.procs[p], e))
    decreases |steps|
  {
    if steps != [] {
      StillUnwritten(u, s, steps, p, e);
      TouchMoves(u, s, steps[0], p, e);
      StepKeepsInv(u, s, steps[0]);
      TouchIsLastBeat(u, Apply(u, s, steps[0]), steps[1..], p, e);
    }
  }

  /** A timer: when it was started, how late its ticks are, which of them write. */
  datatype Timer = Timer(begin: int, late: seq<nat>, wrote: seq<bool>)

  /** `stamp` is the last tick that wrote, of a timer with small delays that misses at most two in a
      row. */
  ghost predicate OnTick(t: Timer, interval: int, stamp: int, now: int)
  {
    && |t.wrote| == |t.late|
    && (forall k | 0 <= k < |t.late| :: 2 * t.late[k] < interval) && MissesAtMostTwo(t.wrote)
    && exists n: nat :: 0 < n <= |t.late| - 3 && IsTick(t, interval, n, stamp, now)
  }

  ghost predicate IsTick(t: Timer, interval: int, n: nat, stamp: int, now: int)
    requires |t.wrote| == |t.late| && 0 < n <= |t.late|
  {
    IsStampAt(t.begin, interval, t.late, t.wrote, n, now) && stamp == FireTime(t.begin, interval, t.late, n)
  }

  /** `stamp` is the claim's, and the third tick, early enough, is still to come. */
  ghost predicate InFirstWindow(t: Timer, interval: int, stamp: int, now: int)
  {
    && t.begin >= stamp && |t.late| >= 3 && now <= FireTime(t.begin, interval, t.late, 3)
    && 2 * (FireTime(t.begin, interval, t.late, 3) - Aim(t.begin, interval, 3) + (t.begin - stamp)) < interval
  }

  /** So a system whose owners are driven by such timers meets the assumption of exclusive ownership,
      with 3.5 intervals as the time after which a row is stuck. */
  lemma TimersKeepTimely(u: Setup, s: System, interval: int, timer: ProcId -> Timer)
    requires interval > 1 && 2 * u.cfg.maxInProgress == 7 * interval
    requires forall p, e | Owns(s, p, e) ::
               || OnTick(timer(p), interval, Touch(s.procs[p], e), s.now)
               || InFirstWindow(timer(p), interval, Touch(s.procs[p], e), s.now)
    ensures Timely(u, s)
  {
    forall p, e | Owns(s, p, e) ensures s.now - Touch(s.procs[p], e) < u.cfg.maxInProgress {
      StampIsRecent(timer(p), interval, Touch(s.procs[p], e), s.now, u.cfg.maxInProgress);
    }
  }

  // ----- whole runs -----

  /** When each processor has last stamped the rows it handles: at its claim or its last keep-alive. */
  function NextBeats(s: System, step: Step, beats: map<ProcId, int>): map<ProcId, int>
  {
    if step.Claim? || step.KeepAlive? then beats[step.p := s.now] else beats
  }

  /** Processors with rows for handlers have stamped them by a tick or are in their first window; hooks,
      whose rows no keep-alive reaches, are over in time. */
  ghost predicate Beating(u: Setup, s: System, interval: int, timer: ProcId -> Timer, beats: map<ProcId, int>)
  {
    forall p | p in s.procs && s.procs[p].live :: BeatingProc(u, s, p, interval, timer(p), beats)
  }

  ghost predicate BeatingProc(u: Setup, s: System, p: ProcId, interval: int, t: Timer, beats: map<ProcId, int>)
    requires p in s.procs
  {
    var x := s.procs[p];
    && (x.unwritten != {} ==>
          p in beats && (OnTick(t, interval, beats[p], s.now) || InFirstWindow(t, interval, beats[p], s.now)))
    && (x.hooks + x.hooking + x.last != {} ==> s.now - x.claimedAt < u.cfg.maxInProgress)
  }

  /** Along the run the keep-alives come at ticks, and handlers answer for their own events. */
  ghost predicate BeatingRun(u: Setup, s: System, steps: seq<Step>, interval: int, timer: ProcId -> Timer, beats: map<ProcId, int>)
    requires Legal(u, s, steps)
    decreases |steps|
  {
    && Beating(u, s, interval, timer, beats)
    && (steps != [] ==>
          && Disciplined(u, s, steps[0])
          && BeatingRun(u, Apply(u, s, steps[0]), steps[1..], interval, timer, NextBeats(s, steps[0], beats)))
  }

  /** The stamps on the rows are the beats. */
  ghost predicate Stamped(s: System, beats: map<ProcId, int>)
  {
    forall p, e | p in s.procs && s.procs[p].live && e in s.procs[p].unwritten ::
      p in beats && Touch(s.procs[p], e) == beats[p]
  }

  lemma BeatingIsTimely(u: Setup, s: System, interval: int, timer: ProcId -> Timer, beats: map<ProcId, int>)
    requires Inv(s) && Stamped(s, beats) && Beating(u, s, interval, timer, beats)
    requires interval > 1 && 2 * u.cfg.maxInProgress == 7 * interval
    ensures Timely(u, s)
  {
    forall p, e | Owns(s, p, e) ensures s.now - Touch(s.procs[p], e) < u.cfg.maxInProgress {
      var x, t := s.procs[p], timer(p);
      assert ProcOk(s, x) && BeatingProc(u, s, p, interval, t, beats);
      if e in x.unwritten {
        StampIsRecent(t, interval, beats[p], s.now, u.cfg.maxInProgress);
      }
    }
  }

  lemma StampIsRecent(t: Timer, interval: int, stamp: int, now: int, maxInProgress: int)
    requires interval > 1 && 2 * maxInProgress == 7 * interval
    requires OnTick(t, interval, stamp, now) || InFirstWindow(t, interval, stamp, now)
    ensures now - stamp < maxInProgress
  {
    if OnTick(t, interval, stamp, now) {
      var n: nat :| 0 < n <= |t.late| - 3 && IsTick(t, interval, n, stamp, now);
      TickIsRecent(t.begin, interval, t.late, t.wrote, n, now, maxInProgress);
    } else {
      FirstWindow(stamp, t.begin, interval, t.late, t.begin - stamp);
    }
  }

  lemma StepKeepsStamped(u: Setup, s: System, step: Step, beats: map<ProcId, int>)
    requires Inv(s) && Stamped(s, beats) && Enabled(u, s, step)
    ensures Stamped(Apply(u, s, step), NextBeats(s, step, beats))
  {
    var t := Apply(u, s, step);
    forall p, e | p in t.procs && t.procs[p].live && e in t.procs[p].unwritten
      ensures p in NextBeats(s, step, beats) && Touch(t.procs[p], e) == NextBeats(s, step, beats)[p]
    {
      if p in s.procs {
        UnwrittenShrinks(u, s, step, p);
        assert p in beats && Touch(s.procs[p], e) == beats[p];
        TouchMoves(u, s, step, p, e);
      } else {
        NewStamp(u, s, step, p, e);
      }
    }
  }

  lemma NewStamp(u: Setup, s: System, step: Step, p: ProcId, e: Id)
    requires Enabled(u, s, step) && p !in s.procs && p in Apply(u, s, step).procs && e in Apply(u, s, step).procs[p].unwritten
    ensures step.Claim? && step.p == p && Touch(Apply(u, s, step).procs[p], e) == s.now
  {
  }

  /** The run-level slack theorem: in every run whose keep-alives come at the ticks of such timers every
      owner is always on time, so that exclusive ownership and the retry bound hold for it. */
  lemma {:induction false} BeatingRunIsGood(
    u: Setup, s: System, steps: seq<Step>, interval: int, timer: ProcId -> Timer, beats: map<ProcId, int>)
    requires Inv(s) && Tight(s) && Stamped(s, beats) && interval > 1 && 2 * u.cfg.maxInProgress == 7 * interval
    requires Legal(u, s, steps) && BeatingRun(u, s, steps, interval, timer, beats)
    ensures GoodRun(u, s, steps)
    decreases |steps|
  {
    BeatingIsTimely(u, s, interval, timer, beats);
    if steps != [] {
      DisciplinedIsCareful(u, s, steps[0]);
      StepKeepsInv(u, s, steps[0]);
      StepKeepsTight(u, s, steps[0]);
      StepKeepsStamped(u, s, steps[0], beats);
      BeatingRunIsGood(u, Apply(u, s, steps[0]), steps[1..], interval, timer, NextBeats(s, steps[0], beats));
    }
  }

  /** From a table nobody works on: such timers keep every event with one live owner at most. */
  lemma TimersKeepOneOwner(u: Setup, s: System, steps: seq<Step>, interval: int, timer: ProcId -> Timer)
    requires Initial(s) && interval > 1 && 2 * u.cfg.maxInProgress == 7 * interval
    requires Legal(u, s, steps) && BeatingRun(u, s, steps, interval, timer, map[])
    ensures Exclusive(Run(u, s, steps))
  {
    BeatingRunIsGood(u, s, steps, interval, timer, map[]);
    NoTwoLiveOwners(u, s, steps);
  }

  // ----- such a run, with two keep-alives -----

  /** A row is stuck after 7 ms, the timer ticks every 2 ms, always on time. */
  const QUICK: Setup := Setup(Config(3, 7, 0, 0, 0), true)
  const EVERY_TICK: Timer := Timer(10, [0, 0, 0, 0, 0, 0], [true, true, true, true, true, true])

  lemma TickTime(n: nat)
    requires 0 < n <= 6
    ensures FireTime(10, 2, EVERY_TICK.late, n) == 10 + 2 * n && Aim(10, 2, n) == 10 + 2 * n
  {
    DelaysDoNotAddUp(10, 2, EVERY_TICK.late, n);
  }

  /** From the claim to the first tick, and between the first ticks. */
  lemma StampsInTime(stamp: int, now: int)
    requires StampInTime(stamp, now)
    ensures OnTick(EVERY_TICK, 2, stamp, now) || InFirstWindow(EVERY_TICK, 2, stamp, now)
  {
    var t := EVERY_TICK;
    TickTime(3);
    if stamp > 10 {
      var n := if stamp == 12 then 1 else 2;
      TickTime(n);
      forall k | n < k <= |t.late| && t.wrote[k - 1] ensures now <= FireTime(t.begin, 2, t.late, k) { TickTime(k); }
      assert IsTick(t, 2, n, stamp, now);
    }
  }

  /** Processor 0 has the row, stamped at `stamp`. */
  ghost predicate HasOne(s: System, stamp: int, now: int)
  {
    && s.table == map[0 := Row(InProgress, 1, Some(stamp), None)] && s.now == now && s.procs.Keys == {0}
    && var x := s.procs[0];
    && x.live && x.unwritten == x.ready == {0} && x.etag == map[0 := stamp]
    && x.hooks == x.hooking == x.last == {} && !x.violated
  }

  predicate StampInTime(stamp: int, now: int)
  {
    stamp == 10 <= now <= 12 || stamp == 12 <= now <= 14 || stamp == 14 <= now <= 16
  }

  lemma HasOneIsBeating(s: System, stamp: int, now: int, timer: ProcId -> Timer)
    requires HasOne(s, stamp, now) && StampInTime(stamp, now) && timer(0) == EVERY_TICK
    ensures Beating(QUICK, s, 2, timer, map[0 := stamp])
  {
    StampsInTime(stamp, now);
  }

  lemma ClaimOne()
    ensures Enabled(QUICK, OneOpenRow(), Claim(0, 10, 10, {0}))
    ensures HasOne(Apply(QUICK, OneOpenRow(), Claim(0, 10, 10, {0})), 10, 10)
  {
    assert OfKind(OneOpenRow().table, {0}, Ready, 10, QUICK.cfg) == {0};
    assert OfKind(OneOpenRow().table, {0}, ExceededTries, 10, QUICK.cfg) == {};
    assert OfKind(OneOpenRow().table, {0}, ExceededTriesExceeded, 10, QUICK.cfg) == {};
  }

  lemma BeatOne(s: System, stamp: int, now: int)
    requires HasOne(s, stamp, now)
    ensures Enabled(QUICK, s, KeepAlive(0)) && HasOne(Apply(QUICK, s, KeepAlive(0)), now, now)
  {
    assert Watched(s.table, s.procs[0]) == {0} && Valid(s.table, s.procs[0]) == {0};
  }

  ghost predicate BeatsFrom(u: Setup, s: System, steps: seq<Step>, timer: ProcId -> Timer, beats: map<ProcId, int>)
  {
    Legal(u, s, steps) && BeatingRun(u, s, steps, 2, timer, beats)
  }

  lemma BeatOneMore(u: Setup, s: System, step: Step, rest: seq<Step>, timer: ProcId -> Timer, beats: map<ProcId, int>)
    requires Enabled(u, s, step) && Disciplined(u, s, step) && Beating(u, s, 2, timer, beats)
    requires BeatsFrom(u, Apply(u, s, step), rest, timer, NextBeats(s, step, beats))
    ensures BeatsFrom(u, s, [step] + rest, timer, beats)
  {
    assert ([step] + rest)[1..] == rest;
  }

  lemma Wait(s: System, stamp: int, now: int, later: int, rest: seq<Step>, timer: ProcId -> Timer)
    requires HasOne(s, stamp, now) && StampInTime(stamp, now) && now <= later && timer(0) == EVERY_TICK
    requires BeatsFrom(QUICK, s.(now := later), rest, timer, map[0 := stamp])
    ensures BeatsFrom(QUICK, s, [Tick(later)] + rest, timer, map[0 := stamp])
  {
    HasOneIsBeating(s, stamp, now, timer);
    BeatOneMore(QUICK, s, Tick(later), rest, timer, map[0 := stamp]);
  }

  lemma Beat(s: System, stamp: int, now: int, rest: seq<Step>, timer: ProcId -> Timer)
    requires HasOne(s, stamp, now) && StampInTime(stamp, now) && timer(0) == EVERY_TICK && Enabled(QUICK, s, KeepAlive(0))
    requires BeatsFrom(QUICK, Apply(QUICK, s, KeepAlive(0)), rest, timer, map[0 := now])
    ensures BeatsFrom(QUICK, s, [KeepAlive(0)] + rest, timer, map[0 := stamp])
  {
    HasOneIsBeating(s, stamp, now, timer);
    assert NextBeats(s, KeepAlive(0), map[0 := stamp]) == map[0 := now];
    BeatOneMore(QUICK, s, KeepAlive(0), rest, timer, map[0 := stamp]);
  }

  /** From any state with a row stamped at `stamp`, the run that waits until `later`, keeps the row alive
      and goes on with `rest`. */
  lemma WaitAndBeat(s: System, stamp: int, now: int, later: int, rest: seq<Step>, timer: ProcId -> Timer)
    requires HasOne(s, stamp, now) && StampInTime(stamp, now) && now <= later && StampInTime(stamp, later) && timer(0) == EVERY_TICK
    requires forall v | HasOne(v, later, later) :: BeatsFrom(QUICK, v, rest, timer, map[0 := later])
    ensures BeatsFrom(QUICK, s, BeatAt(later, rest), timer, map[0 := stamp])
  {
    var t := s.(now := later);
    BeatOne(t, stamp, later);
    Beat(t, stamp, later, rest, timer);
    Wait(s, stamp, now, later, [KeepAlive(0)] + rest, timer);
  }

  function BeatAt(later: int, rest: seq<Step>): seq<Step>
  {
    [Tick(later)] + ([KeepAlive(0)] + rest)
  }

  lemma ClaimAndGoOn(rest: seq<Step>, timer: ProcId -> Timer)
    requires forall v | HasOne(v, 10, 10) :: BeatsFrom(QUICK, v, rest, timer, map[0 := 10])
    ensures BeatsFrom(QUICK, OneOpenRow(), [Claim(0, 10, 10, {0})] + rest, timer, map[])
  {
    var claim := Claim(0, 10, 10, {0});
    ClaimOne();
    assert NextBeats(OneOpenRow(), claim, map[]) == map[0 := 10];
    BeatOneMore(QUICK, OneOpenRow(), claim, rest, timer, map[]);
  }

  /** A run of this kind: a processor claims a row at 10 and keeps it alive at 12 and at 14. */
  lemma BeatsTwice(timer: ProcId -> Timer)
    requires timer(0) == EVERY_TICK
    ensures BeatsFrom(QUICK, OneOpenRow(), [Claim(0, 10, 10, {0})] + BeatAt(12, BeatAt(14, [])), timer, map[])
  {
    forall v | HasOne(v, 14, 14) ensures BeatsFrom(QUICK, v, [], timer, map[0 := 14]) {
      HasOneIsBeating(v, 14, 14, timer);
    }
    SecondBeat(timer);
    FirstBeat(BeatAt(14, []), timer);
    ClaimAndGoOn(BeatAt(12, BeatAt(14, [])), timer);
  }

  lemma SecondBeat(timer: ProcId -> Timer)
    requires timer(0) == EVERY_TICK && forall v | HasOne(v, 14, 14) :: BeatsFrom(QUICK, v, [], timer, map[0 := 14])
    ensures forall v | HasOne(v, 12, 12) :: BeatsFrom(QUICK, v, BeatAt(14, []), timer, map[0 := 12])
  {
    forall v | HasOne(v, 12, 12) ensures BeatsFrom(QUICK, v, BeatAt(14, []), timer, map[0 := 12]) {
      WaitAndBeat(v, 12, 12, 14, [], timer);
    }
  }

  lemma FirstBeat(rest: seq<Step>, timer: ProcId -> Timer)
    requires timer(0) == EVERY_TICK && forall v | HasOne(v, 12, 12) :: BeatsFrom(QUICK, v, rest, timer, map[0 := 12])
    ensures forall v | HasOne(v, 10, 10) :: BeatsFrom(QUICK, v, BeatAt(12, rest), timer, map[0 := 10])
  {
    forall v | HasOne(v, 10, 10) ensures BeatsFrom(QUICK, v, BeatAt(12, rest), timer, map[0 := 10]) {
      WaitAndBeat(v, 10, 10, 12, rest, timer);
    }
  }
}
