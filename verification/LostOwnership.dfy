/** Lost ownership is noticed.  Nothing is assumed about timeliness here, nor about what the
    handlers do: only that a claim is kept for a positive time. */
module LostOwnership {
  import opened EventTable
  import opened StatusReports
  import opened RowProtocol

  /** Stamps never come from the future, and no row is older than an owner thinks it is. */
  ghost predicate Clock(s: System)
  {
    && (forall e <- s.table :: s.table[e].lastAttempt.Some? ==> s.table[e].lastAttempt.value <= s.now)
    && (forall p <- s.procs :: s.procs[p].unwritten <= s.procs[p].etag.Keys)
    && (forall p, e | p in s.procs && e in s.procs[p].etag :: NotAhead(s, s.procs[p], e))
  }

  ghost predicate NotAhead(s: System, x: Proc, e: Id)
    requires e in x.etag
  {
    e in s.table && s.table[e].lastAttempt.Some? && x.etag[e] <= s.table[e].lastAttempt.value
  }

  /** Somebody else has put a later stamp on the row. */
  ghost predicate Lost(s: System, p: ProcId, e: Id)
  {
    && p in s.procs && e in s.procs[p].etag
    && e in s.table && s.table[e].lastAttempt.Some?
    && s.procs[p].etag[e] < s.table[e].lastAttempt.value
  }

  /** A step keeps a row's stamp or sets it to the current time. */
  lemma StampsMove(u: Setup, s: System, step: Step, e: Id)
    requires Enabled(u, s, step) && e in s.table
    ensures e in Apply(u, s, step).table
    ensures var row := Apply(u, s, step).table[e];
            row.lastAttempt == s.table[e].lastAttempt || row.lastAttempt == Some(s.now)
  {
  }

  /** A processor's own stamp moves only in its own keep-alive, together with the row's. */
  lemma TagsMove(u: Setup, s: System, step: Step, p: ProcId, e: Id)
    requires Enabled(u, s, step) && p in s.procs && e in s.procs[p].etag
    ensures var t := Apply(u, s, step);
            && p in t.procs && e in t.procs[p].etag
            && (t.procs[p].etag[e] == s.procs[p].etag[e]
                || (&& step == KeepAlive(p) && e in Valid(s.table, s.procs[p])
                    && t.procs[p].etag[e] == s.now && t.table[e].lastAttempt == Some(s.now)))
  {
  }

  lemma NewProcTags(u: Setup, s: System, step: Step)
    requires Enabled(u, s, step) && step.Claim?
    ensures var t := Apply(u, s, step);
            forall e <- t.procs[step.p].etag :: NotAhead(t, t.procs[step.p], e)
  {
  }

  lemma StepKeepsUnwritten(u: Setup, s: System, step: Step, p: ProcId)
    requires Enabled(u, s, step) && p in Apply(u, s, step).procs
    requires p in s.procs ==> s.procs[p].unwritten <= s.procs[p].etag.Keys
    ensures Apply(u, s, step).procs[p].unwritten <= Apply(u, s, step).procs[p].etag.Keys
  {
    if p in s.procs {
      var x, y := s.procs[p], Apply(u, s, step).procs[p];
      assert y.unwritten <= x.unwritten && y.etag.Keys == x.etag.Keys;
    }
  }

  lemma StepKeepsClock(u: Setup, s: System, step: Step)
    requires Clock(s) && Enabled(u, s, step)
    ensures Clock(Apply(u, s, step))
  {
    var t := Apply(u, s, step);
    forall e | e in t.table && t.table[e].lastAttempt.Some? ensures t.table[e].lastAttempt.value <= t.now {
      if e in s.table { StampsMove(u, s, step, e); }
    }
    forall p | p in t.procs ensures t.procs[p].unwritten <= t.procs[p].etag.Keys {
      StepKeepsUnwritten(u, s, step, p);
    }
    forall p, e | p in t.procs && e in t.procs[p].etag ensures NotAhead(t, t.procs[p], e) {
      if p in s.procs && e in s.procs[p].etag {
        assert NotAhead(s, s.procs[p], e);
        StampsMove(u, s, step, e);
        TagsMove(u, s, step, p, e);
      } else {
        TagsOnlyFromClaim(u, s, step, p, e);
        NewProcTags(u, s, step);
      }
    }
  }

  lemma TagsOnlyFromClaim(u: Setup, s: System, step: Step, p: ProcId, e: Id)
    requires Enabled(u, s, step)
    requires p in Apply(u, s, step).procs && e in Apply(u, s, step).procs[p].etag
    requires !(p in s.procs && e in s.procs[p].etag)
    ensures step.Claim? && step.p == p
  {
  }

  /** Taking over a row that is still in progress makes its old owner lose it. */
  lemma ReclaimMakesLost(u: Setup, s: System, step: Step, p: ProcId, e: Id)
    requires Clock(s) && u.cfg.maxInProgress > 0
    requires Enabled(u, s, step) && step.Claim? && p in s.procs && e in s.procs[p].etag
    requires e in step.chunk && s.table[e].status == InProgress
    requires KindOf(s.table[e], step.base, u.cfg) != Delayed
    ensures Lost(Apply(u, s, step), p, e)
  {
    assert NotAhead(s, s.procs[p], e);
    assert KindOf(s.table[e], step.base, u.cfg) in {Ready, ExceededTries, ExceededTriesExceeded};
  }

  lemma StepKeepsLost(u: Setup, s: System, step: Step, p: ProcId, e: Id)
    requires Clock(s) && Enabled(u, s, step) && Lost(s, p, e)
    ensures Lost(Apply(u, s, step), p, e)
  {
    StampsMove(u, s, step, e);
    TagsMove(u, s, step, p, e);
  }

  /** The old owner's keep-alive does not refresh the row; if the row is still in progress and
      the owner has not written it, the keep-alive marks it outdated and raises the alarm. */
  lemma KeepAliveNotices(u: Setup, s: System, p: ProcId, e: Id)
    requires Enabled(u, s, KeepAlive(p)) && Lost(s, p, e)
    ensures Apply(u, s, KeepAlive(p)).table[e] == s.table[e]
    ensures e in s.procs[p].unwritten && s.table[e].status == InProgress && !s.procs[p].violated ==>
      var x := Apply(u, s, KeepAlive(p)).procs[p]; x.violated && e in x.outdated
  {
    var x := s.procs[p];
    assert e !in Valid(s.table, x);
    if e in x.unwritten && s.table[e].status == InProgress {
      assert e in Watched(s.table, x) - Valid(s.table, x);
    }
  }

  lemma StepKeepsViolated(u: Setup, s: System, step: Step, p: ProcId)
    requires Enabled(u, s, step) && p in s.procs && s.procs[p].violated
    ensures p in Apply(u, s, step).procs && Apply(u, s, step).procs[p].violated
    ensures !(step.StartHandler? && step.p == p)
    ensures Apply(u, s, step).procs[p].started == s.procs[p].started
  {
  }

  lemma {:induction false} RunKeepsClock(u: Setup, s: System, steps: seq<Step>)
    requires Clock(s) && Legal(u, s, steps)
    ensures Clock(Run(u, s, steps))
    decreases |steps|
  {
    if steps != [] {
      StepKeepsClock(u, s, steps[0]);
      RunKeepsClock(u, Apply(u, s, steps[0]), steps[1..]);
    }
  }

  /** No keep-alive of `p` along the run changes the row of `e`. */
  ghost predicate NeverRefreshed(u: Setup, s: System, steps: seq<Step>, p: ProcId, e: Id)
    requires Legal(u, s, steps)
    decreases |steps|
  {
    steps != [] ==>
      var t := Apply(u, s, steps[0]);
      && (steps[0] == KeepAlive(p) ==> e in s.table && e in t.table && t.table[e] == s.table[e])
      && NeverRefreshed(u, t, steps[1..], p, e)
  }

  /** Once lost, always lost, in every continuation; and the old owner never refreshes it. */
  lemma {:induction false} LostForGood(u: Setup, s: System, steps: seq<Step>, p: ProcId, e: Id)
    requires Clock(s) && Lost(s, p, e) && Legal(u, s, steps)
    ensures Lost(Run(u, s, steps), p, e) && NeverRefreshed(u, s, steps, p, e)
    decreases |steps|
  {
    if steps != [] {
      if steps[0] == KeepAlive(p) { KeepAliveNotices(u, s, p, e); }
      StepKeepsClock(u, s, steps[0]);
      StepKeepsLost(u, s, steps[0], p, e);
      LostForGood(u, Apply(u, s, steps[0]), steps[1..], p, e);
    }
  }

  /** After the alarm the processor starts no handler in any continuation. */
  lemma {:induction false} AlarmStopsHandlers(u: Setup, s: System, steps: seq<Step>, p: ProcId)
    requires Legal(u, s, steps) && p in s.procs && s.procs[p].violated
    ensures forall i | 0 <= i < |steps| :: !(steps[i].StartHandler? && steps[i].p == p)
    ensures p in Run(u, s, steps).procs && Run(u, s, steps).procs[p].violated
    ensures Run(u, s, steps).procs[p].started == s.procs[p].started
    decreases |steps|
  {
    if steps != [] {
      StepKeepsViolated(u, s, steps[0], p);
      AlarmStopsHandlers(u, Apply(u, s, steps[0]), steps[1..], p);
      forall i | 0 <= i < |steps| ensures !(steps[i].StartHandler? && steps[i].p == p) {
        if i > 0 { assert steps[i] == steps[1..][i - 1]; }
      }
    }
  }

  /** The theorem, over a whole history: `claim` takes over a row of `p` that is in progress;
      anything happens (`between`); `p` runs a keep-alive while the row is still in progress and
      unwritten; anything happens (`later`).  Then `p` has marked the row outdated, has never
      refreshed it since it was taken over, and starts no further handler. */
  lemma LostOwnerStops(u: Setup, s: System, claim: Step, p: ProcId, e: Id, between: seq<Step>, later: seq<Step>)
    requires Clock(s) && u.cfg.maxInProgress > 0
    requires Enabled(u, s, claim) && claim.Claim? && p in s.procs && e in s.procs[p].etag
    requires e in claim.chunk && s.table[e].status == InProgress
    requires KindOf(s.table[e], claim.base, u.cfg) != Delayed
    requires Legal(u, Apply(u, s, claim), between)
    requires var t := Run(u, Apply(u, s, claim), between);
             && Enabled(u, t, KeepAlive(p)) && e in t.procs[p].unwritten && e in t.table
             && t.table[e].status == InProgress && !t.procs[p].violated
             && Legal(u, Apply(u, t, KeepAlive(p)), later)
    ensures var t := Run(u, Apply(u, s, claim), between);
            var alarmed := Apply(u, t, KeepAlive(p));
            && alarmed.procs[p].violated && e in alarmed.procs[p].outdated
            && alarmed.table[e] == t.table[e]
            && NeverRefreshed(u, Apply(u, s, claim), between, p, e)
            && NeverRefreshed(u, alarmed, later, p, e)
            && (forall i | 0 <= i < |later| :: !(later[i].StartHandler? && later[i].p == p))
  {
    var s1 := Apply(u, s, claim);
    ReclaimMakesLost(u, s, claim, p, e);
    StepKeepsClock(u, s, claim);
    LostForGood(u, s1, between, p, e);
    RunKeepsClock(u, s1, between);
    var t := Run(u, s1, between);
    KeepAliveNotices(u, t, p, e);
    StepKeepsClock(u, t, KeepAlive(p));
    StepKeepsLost(u, t, KeepAlive(p), p, e);
    var alarmed := Apply(u, t, KeepAlive(p));
    LostForGood(u, alarmed, later, p, e);
    AlarmStopsHandlers(u, alarmed, later, p);
  }

  /** The stamps of every run from a fresh table are in order, so the theorem applies to it. */
  lemma ReachableClock(u: Setup, s: System, steps: seq<Step>)
    requires Initial(s) && Legal(u, s, steps)
    ensures Clock(Run(u, s, steps))
  {
    RunKeepsClock(u, s, steps);
  }
}
