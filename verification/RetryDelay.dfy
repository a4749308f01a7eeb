/** How long a row waits after Open or Error before any processor takes it again. */
module RetryDelay {
  import opened EventTable
  import opened StatusReports
  import opened RowProtocol
  import opened RetryBound

  /** Nobody writes or claims the row along the run. */
  ghost predicate LeftAlone(u: Setup, s: System, steps: seq<Step>, e: Id)
    requires Legal(u, s, steps)
    decreases |steps|
  {
    steps != [] ==>
      && e !in StepWrites(u, s, steps[0]) && !ClaimsRow(u, s, steps[0], e)
      && LeftAlone(u, Apply(u, s, steps[0]), steps[1..], e)
  }

  /** A row that is not in progress changes by writes and claims only: no keep-alive reaches it. */
  lemma StepLeavesAlone(u: Setup, s: System, step: Step, e: Id)
    requires Enabled(u, s, step) && e in s.table && s.table[e].status != InProgress
    requires e !in StepWrites(u, s, step) && !ClaimsRow(u, s, step, e)
    ensures e in Apply(u, s, step).table && Apply(u, s, step).table[e] == s.table[e]
  {
  }

  lemma {:induction false} RunLeavesAlone(u: Setup, s: System, steps: seq<Step>, e: Id)
    requires Legal(u, s, steps) && LeftAlone(u, s, steps, e) && e in s.table && s.table[e].status != InProgress
    ensures e in Run(u, s, steps).table && Run(u, s, steps).table[e] == s.table[e]
    decreases |steps|
  {
    if steps != [] {
      StepLeavesAlone(u, s, steps[0], e);
      RunLeavesAlone(u, Apply(u, s, steps[0]), steps[1..], e);
    }
  }

  /** The time a report gives, or the delay configured for its status after the write. */
  function RetryTime(update: Update, now: int, cfg: Config): int
  {
    if update.startAfter.Some? then update.startAfter.value
    else if update.status == Error then now + cfg.retryFailedAfter
    else now + cfg.retryOpenAfter
  }

  /** In every run, a row that was written as Open or Error and left alone since can be selected if and only
      if its retry time is at most `lookAhead` ahead and the selecting run began after the write. */
  lemma SelectableAgainIff(u: Setup, s: System, step: Step, between: seq<Step>, e: Id, startTime: int, base: int)
    requires Enabled(u, s, step) && e in s.table && e in StepWrites(u, s, step)
    requires StepWrites(u, s, step)[e].status == Open || StepWrites(u, s, step)[e].status == Error
    requires Legal(u, Apply(u, s, step), between) && LeftAlone(u, Apply(u, s, step), between, e)
    ensures var t := Run(u, Apply(u, s, step), between);
            && e in t.table && t.table[e].startAfter == Some(RetryTime(StepWrites(u, s, step)[e], s.now, u.cfg))
            && (Selectable(t.table[e], startTime, base, u.cfg)
                <==> RetryTime(StepWrites(u, s, step)[e], s.now, u.cfg) <= base + u.cfg.lookAhead && s.now <= startTime)
  {
    RowWritten(u, s, step, e);
    RunLeavesAlone(u, Apply(u, s, step), between, e);
  }

  /** A select that returns it began after the write, and less than `lookAhead` before its retry time; of what is
      returned exactly the rows whose tries are used up and those due within three seconds are claimed. */
  lemma ClaimedAgainIff(u: Setup, s: System, step: Step, between: seq<Step>, claim: Step, e: Id)
    requires Enabled(u, s, step) && e in s.table && e in StepWrites(u, s, step)
    requires StepWrites(u, s, step)[e].status == Open || StepWrites(u, s, step)[e].status == Error
    requires Legal(u, Apply(u, s, step), between) && LeftAlone(u, Apply(u, s, step), between, e)
    requires Enabled(u, Run(u, Apply(u, s, step), between), claim) && claim.Claim? && e in claim.chunk
    ensures var t, time := Run(u, Apply(u, s, step), between), RetryTime(StepWrites(u, s, step)[e], s.now, u.cfg);
            && e in t.table && s.now <= claim.startTime <= claim.base <= t.now && time <= claim.base + u.cfg.lookAhead
            && (ClaimsRow(u, t, claim, e) <==> t.table[e].attempts >= u.cfg.retryAttempts || time <= claim.base + 3000)
  {
    SelectableAgainIff(u, s, step, between, e, claim.startTime, claim.base);
    ClaimedIff(u, Run(u, Apply(u, s, step), between), claim, e);
  }

  lemma RowWritten(u: Setup, s: System, step: Step, e: Id)
    requires Enabled(u, s, step) && e in s.table && e in StepWrites(u, s, step)
    ensures e in Apply(u, s, step).table
    ensures Apply(u, s, step).table[e] == WriteRow(s.table[e], StepWrites(u, s, step)[e], s.now, u.cfg)
  {
  }

  lemma ClaimedIff(u: Setup, s: System, claim: Step, e: Id)
    requires Enabled(u, s, claim) && claim.Claim? && e in claim.chunk
    ensures e in s.table && (ClaimsRow(u, s, claim, e) <==> KindOf(s.table[e], claim.base, u.cfg) != Delayed)
  {
    var kind := KindOf(s.table[e], claim.base, u.cfg);
    assert e in OfKind(s.table, claim.chunk, kind, claim.base, u.cfg);
  }

  /** A row that was inserted and left alone can be selected if and only if it has no start time, or one at most
      `lookAhead` ahead. */
  lemma InsertedSelectableIff(u: Setup, s: System, e: Id, startAfter: Option<int>, between: seq<Step>, startTime: int, base: int)
    requires Enabled(u, s, Insert(e, startAfter))
    requires var t := Apply(u, s, Insert(e, startAfter)); Legal(u, t, between) && LeftAlone(u, t, between, e)
    ensures var t := Run(u, Apply(u, s, Insert(e, startAfter)), between);
            e in t.table && (Selectable(t.table[e], startTime, base, u.cfg)
                             <==> startAfter.None? || startAfter.value <= base + u.cfg.lookAhead)
  {
    RunLeavesAlone(u, Apply(u, s, Insert(e, startAfter)), between, e);
  }

  /** The row is not written as Open or Error along the run. */
  ghost predicate NotPutOff(u: Setup, s: System, steps: seq<Step>, e: Id)
    requires Legal(u, s, steps)
    decreases |steps|
  {
    steps != [] ==>
      && (e in StepWrites(u, s, steps[0]) ==> StepWrites(u, s, steps[0])[e].status !in {Open, Error})
      && NotPutOff(u, Apply(u, s, steps[0]), steps[1..], e)
  }

  /** Nothing else moves a start time: no claim, no keep-alive, no other status. */
  lemma {:induction false} StartTimeStays(u: Setup, s: System, steps: seq<Step>, e: Id)
    requires Legal(u, s, steps) && e in s.table && NotPutOff(u, s, steps, e)
    ensures e in Run(u, s, steps).table && Run(u, s, steps).table[e].startAfter == s.table[e].startAfter
    decreases |steps|
  {
    if steps != [] {
      StepKeepsStartTime(u, s, steps[0], e);
      StartTimeStays(u, Apply(u, s, steps[0]), steps[1..], e);
    }
  }

  lemma StepKeepsStartTime(u: Setup, s: System, step: Step, e: Id)
    requires Enabled(u, s, step) && e in s.table
    requires e in StepWrites(u, s, step) ==> StepWrites(u, s, step)[e].status !in {Open, Error}
    ensures e in Apply(u, s, step).table && Apply(u, s, step).table[e].startAfter == s.table[e].startAfter
  {
  }
}
