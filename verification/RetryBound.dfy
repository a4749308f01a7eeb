/** How often an event is tried, over every run of any number of processors. */
module RetryBound {
  import opened EventTable
  import opened StatusReports
  import opened RowProtocol
  import opened ExclusiveOwnership
  import opened Collections

  // ----- the ledger of attempts -----

  /** The status write of a step, if it is one. */
  ghost function StepWrites(u: Setup, s: System, step: Step): map<Id, Update>
    requires Enabled(u, s, step)
  {
    match step
    case HandlerAnswers(p, cluster, answer) =>
      if u.isolated then Writes(AnswerMap(u, s.procs[p], cluster, answer), s.procs[p].seen.Keys) else map[]
    case HandlerThrows(p, cluster) => if u.isolated then ErrorFor(cluster) else map[]
    case EndHook(p, e, ok) => if ok then ExceededFor({e}) else ErrorFor({e})
    case WriteLast(p) => ExceededFor(s.procs[p].last)
    case Finish(p) => Writes(FinalMap(s.procs[p]), s.procs[p].seen.Keys)
    case _ => map[]
  }

  ghost predicate ClaimsRow(u: Setup, s: System, step: Step, e: Id)
    requires Enabled(u, s, step)
  {
    step.Claim? && e in NewProc(s.table, step.chunk, step.base, s.now, u.cfg).seen
  }

  ghost predicate WritesOpen(u: Setup, s: System, step: Step, e: Id)
    requires Enabled(u, s, step)
  {
    e in StepWrites(u, s, step) && StepWrites(u, s, step)[e].status == Open
  }

  ghost function Claims(u: Setup, s: System, steps: seq<Step>, e: Id): nat
    requires Legal(u, s, steps)
    decreases |steps|
  {
    if steps == [] then 0
    else (if ClaimsRow(u, s, steps[0], e) then 1 else 0) + Claims(u, Apply(u, s, steps[0]), steps[1..], e)
  }

  ghost function Opens(u: Setup, s: System, steps: seq<Step>, e: Id): nat
    requires Legal(u, s, steps)
    decreases |steps|
  {
    if steps == [] then 0
    else (if WritesOpen(u, s, steps[0], e) then 1 else 0) + Opens(u, Apply(u, s, steps[0]), steps[1..], e)
  }

  /** What one step does to one row. */
  lemma RowMoves(u: Setup, s: System, step: Step, e: Id)
    requires Enabled(u, s, step) && e in s.table
    ensures var t := Apply(u, s, step);
            && e in t.table
            && (ClaimsRow(u, s, step, e) ==> t.table[e] == ClaimRow(s.table[e], s.now))
            && (e in StepWrites(u, s, step) ==>
                  t.table[e] == WriteRow(s.table[e], StepWrites(u, s, step)[e], s.now, u.cfg))
            && (!ClaimsRow(u, s, step, e) && e !in StepWrites(u, s, step) ==>
                  t.table[e].attempts == s.table[e].attempts && t.table[e].status == s.table[e].status)
  {
  }

  /** Attempts are conserved: they are what they were, plus the claims, minus the Open results. */
  lemma {:induction false} AttemptsLedger(u: Setup, s: System, steps: seq<Step>, e: Id)
    requires Legal(u, s, steps) && e in s.table
    ensures e in Run(u, s, steps).table
    ensures Run(u, s, steps).table[e].attempts
         == s.table[e].attempts + Claims(u, s, steps, e) - Opens(u, s, steps, e)
    decreases |steps|
  {
    if steps != [] {
      RowMoves(u, s, steps[0], e);
      AttemptsLedger(u, Apply(u, s, steps[0]), steps[1..], e);
    }
  }

  // ----- how often the handler is called -----

  ghost predicate NoOpens(u: Setup, s: System, steps: seq<Step>)
    requires Legal(u, s, steps)
    decreases |steps|
  {
    steps != [] ==>
      && (forall e | e in StepWrites(u, s, steps[0]) :: StepWrites(u, s, steps[0])[e].status != Open)
      && NoOpens(u, Apply(u, s, steps[0]), steps[1..])
  }

  /** The attempts a processor saw decide what it may do with the row. */
  ghost predicate Sorted(u: Setup, x: Proc)
  {
    var R := u.cfg.retryAttempts;
    && (forall e | e in x.ready + x.waiting + x.started :: e in x.seen && x.seen[e] < R)
    && (forall e | e in x.hooks + x.hooking + x.hooked :: e in x.seen && R <= x.seen[e] && x.seen[e] != R + 3)
    && (forall e | e in x.last :: e in x.seen && x.seen[e] == R + 3)
  }

  ghost predicate SeenBefore(s: System, x: Proc)
  {
    forall e | e in x.seen :: e in s.table && 0 <= x.seen[e] < s.table[e].attempts
  }

  ghost predicate Apart(x: Proc, y: Proc)
  {
    forall e | e in x.seen && e in y.seen :: x.seen[e] != y.seen[e]
  }

  /** Every claim saw another number of attempts. */
  ghost predicate Counted(u: Setup, s: System)
  {
    && (forall e | e in s.table :: s.table[e].attempts >= 0)
    && (forall p | p in s.procs :: Sorted(u, s.procs[p]) && SeenBefore(s, s.procs[p]))
    && (forall p, q | p in s.procs && q in s.procs && p != q :: Apart(s.procs[p], s.procs[q]))
  }

  lemma ProcMoves(u: Setup, s: System, step: Step, p: ProcId)
    requires Enabled(u, s, step) && p in s.procs
    ensures p in Apply(u, s, step).procs
    ensures var x, y := s.procs[p], Apply(u, s, step).procs[p];
            && y.seen == x.seen && y.ready == x.ready && y.last <= x.last
            && y.waiting <= x.waiting && y.started <= x.started + x.waiting
            && y.hooks + y.hooking + y.hooked <= x.hooks + x.hooking + x.hooked
  {
  }

  lemma StepKeepsSorted(u: Setup, s: System, step: Step, p: ProcId)
    requires Enabled(u, s, step) && p in s.procs && Sorted(u, s.procs[p])
    ensures p in Apply(u, s, step).procs && Sorted(u, Apply(u, s, step).procs[p])
    ensures Apply(u, s, step).procs[p].seen == s.procs[p].seen
  {
    ProcMoves(u, s, step, p);
  }

  lemma NewProcSorted(u: Setup, s: System, step: Step)
    requires Enabled(u, s, step) && step.Claim?
    ensures Sorted(u, NewProc(s.table, step.chunk, step.base, s.now, u.cfg))
  {
  }

  lemma OnlyClaimAddsProc(u: Setup, s: System, step: Step)
    requires Enabled(u, s, step)
    ensures Apply(u, s, step).procs.Keys == s.procs.Keys + if step.Claim? then {step.p} else {}
  {
  }

  lemma AttemptsGrow(u: Setup, s: System, step: Step, e: Id)
    requires Enabled(u, s, step) && e in s.table
    requires e in StepWrites(u, s, step) ==> StepWrites(u, s, step)[e].status != Open
    ensures e in Apply(u, s, step).table
    ensures Apply(u, s, step).table[e].attempts
         == s.table[e].attempts + if ClaimsRow(u, s, step, e) then 1 else 0
  {
    RowMoves(u, s, step, e);
  }

  lemma StepKeepsSeen(u: Setup, s: System, step: Step, p: ProcId)
    requires Counted(u, s) && Enabled(u, s, step) && p in Apply(u, s, step).procs
    requires forall e | e in StepWrites(u, s, step) :: StepWrites(u, s, step)[e].status != Open
    ensures Sorted(u, Apply(u, s, step).procs[p]) && SeenBefore(Apply(u, s, step), Apply(u, s, step).procs[p])
  {
    OnlyClaimAddsProc(u, s, step);
    if p in s.procs {
      assert Sorted(u, s.procs[p]) && SeenBefore(s, s.procs[p]);
      StepKeepsSorted(u, s, step, p);
      forall e | e in s.procs[p].seen
        ensures e in Apply(u, s, step).table && s.procs[p].seen[e] < Apply(u, s, step).table[e].attempts
      {
        AttemptsGrow(u, s, step, e);
      }
    } else {
      NewProcSorted(u, s, step);
    }
  }

  lemma StepKeepsApart(u: Setup, s: System, step: Step, p: ProcId, q: ProcId)
    requires Counted(u, s) && Enabled(u, s, step)
    requires p in Apply(u, s, step).procs && q in Apply(u, s, step).procs && p != q
    ensures Apart(Apply(u, s, step).procs[p], Apply(u, s, step).procs[q])
  {
    OnlyClaimAddsProc(u, s, step);
    if p in s.procs { assert Sorted(u, s.procs[p]) && SeenBefore(s, s.procs[p]); StepKeepsSorted(u, s, step, p); }
    if q in s.procs { assert Sorted(u, s.procs[q]) && SeenBefore(s, s.procs[q]); StepKeepsSorted(u, s, step, q); }
    assert p in s.procs && q in s.procs ==> Apart(s.procs[p], s.procs[q]);
  }

  lemma StepKeepsCounted(u: Setup, s: System, step: Step)
    requires Counted(u, s) && Enabled(u, s, step)
    requires forall e | e in StepWrites(u, s, step) :: StepWrites(u, s, step)[e].status != Open
    ensures Counted(u, Apply(u, s, step))
  {
    var t := Apply(u, s, step);
    forall e | e in t.table ensures t.table[e].attempts >= 0 {
      if e in s.table { AttemptsGrow(u, s, step, e); }
    }
    forall p | p in t.procs ensures Sorted(u, t.procs[p]) && SeenBefore(t, t.procs[p]) {
      StepKeepsSeen(u, s, step, p);
    }
    forall p, q | p in t.procs && q in t.procs && p != q ensures Apart(t.procs[p], t.procs[q]) {
      StepKeepsApart(u, s, step, p, q);
    }
  }

  lemma {:induction false} RunKeepsCounted(u: Setup, s: System, steps: seq<Step>)
    requires Counted(u, s) && Legal(u, s, steps) && NoOpens(u, s, steps)
    ensures Counted(u, Run(u, s, steps))
    decreases |steps|
  {
    if steps != [] {
      StepKeepsCounted(u, s, steps[0]);
      RunKeepsCounted(u, Apply(u, s, steps[0]), steps[1..]);
    }
  }

  /** A set of processors that saw pairwise different attempts within [lo, hi) is that small. */
  lemma {:induction false} FewProcs(s: System, ps: set<ProcId>, e: Id, lo: int, hi: int)
    requires lo <= hi
    requires forall p | p in ps :: p in s.procs && e in s.procs[p].seen && lo <= s.procs[p].seen[e] < hi
    requires forall p, q | p in ps && q in ps && p != q :: s.procs[p].seen[e] != s.procs[q].seen[e]
    ensures |ps| <= hi - lo
    decreases hi - lo
  {
    if lo == hi {
      if p :| p in ps { assert false; }
      assert ps == {};
    } else if top :| top in ps && s.procs[top].seen[e] == hi - 1 {
      FewProcs(s, ps - {top}, e, lo, hi - 1);
    } else {
      FewProcs(s, ps, e, lo, hi - 1);
    }
  }

  /** The processors that called the handler with the event; each of them did so once. */
  ghost function HandledBy(s: System, e: Id): set<ProcId>
  {
    set p | p in s.procs && e in s.procs[p].started
  }

  ghost function HookedBy(s: System, e: Id): set<ProcId>
  {
    set p | p in s.procs && e in s.procs[p].hooked
  }

  ghost function ClaimedBy(s: System, e: Id): set<ProcId>
  {
    set p | p in s.procs && e in s.procs[p].seen
  }

  lemma CountedIsFew(u: Setup, s: System, ps: set<ProcId>, e: Id, lo: int, hi: int)
    requires Counted(u, s) && lo <= hi
    requires forall p | p in ps :: p in s.procs && e in s.procs[p].seen && lo <= s.procs[p].seen[e] < hi
    ensures |ps| <= hi - lo
  {
    forall p, q | p in ps && q in ps && p != q ensures s.procs[p].seen[e] != s.procs[q].seen[e] {
      assert Apart(s.procs[p], s.procs[q]);
    }
    FewProcs(s, ps, e, lo, hi);
  }

  /** In every run without Open results the handler is called with an event at most
      `retryAttempts` times.  Crashes, late owners and throwing handlers change nothing. */
  lemma HandlerCalledAtMostR(u: Setup, s: System, steps: seq<Step>, e: Id)
    requires Initial(s) && Legal(u, s, steps) && NoOpens(u, s, steps)
    requires u.cfg.retryAttempts >= 0 && forall d <- s.table :: s.table[d].attempts >= 0
    ensures |HandledBy(Run(u, s, steps), e)| <= u.cfg.retryAttempts
  {
    RunKeepsCounted(u, s, steps);
    var t := Run(u, s, steps);
    forall p | p in HandledBy(t, e)
      ensures e in t.procs[p].seen && 0 <= t.procs[p].seen[e] < u.cfg.retryAttempts
    {
      assert Sorted(u, t.procs[p]) && SeenBefore(t, t.procs[p]);
    }
    CountedIsFew(u, t, HandledBy(t, e), e, 0, u.cfg.retryAttempts);
  }

  /** What has been called is no longer waiting to be called. */
  ghost predicate Once(x: Proc)
  {
    x.waiting !! x.started && x.hooks !! x.hooked
  }

  lemma StepKeepsOnce(u: Setup, s: System, step: Step, p: ProcId)
    requires Enabled(u, s, step) && p in Apply(u, s, step).procs
    requires p in s.procs ==> Once(s.procs[p])
    ensures Once(Apply(u, s, step).procs[p])
  {
  }

  lemma {:induction false} RunKeepsOnce(u: Setup, s: System, steps: seq<Step>)
    requires Legal(u, s, steps) && forall p | p in s.procs :: Once(s.procs[p])
    ensures forall p | p in Run(u, s, steps).procs :: Once(Run(u, s, steps).procs[p])
    decreases |steps|
  {
    if steps != [] {
      var t := Apply(u, s, steps[0]);
      forall p | p in t.procs ensures Once(t.procs[p]) { StepKeepsOnce(u, s, steps[0], p); }
      RunKeepsOnce(u, t, steps[1..]);
    }
  }

  /** One processor calls handler and hook at most once per event, in every run: so the sets of
      processors above count the calls. */
  lemma CalledOncePerClaim(u: Setup, s: System, steps: seq<Step>, next: Step)
    requires Initial(s) && Legal(u, s, steps) && Enabled(u, Run(u, s, steps), next)
    ensures var t := Run(u, s, steps);
            && (next.StartHandler? ==> next.cluster !! t.procs[next.p].started)
            && (next.StartHook? ==> next.e !in t.procs[next.p].hooked)
  {
    RunKeepsOnce(u, s, steps);
    var t := Run(u, s, steps);
    assert next.StartHandler? ==> Once(t.procs[next.p]);
    assert next.StartHook? ==> Once(t.procs[next.p]);
  }

  // ----- the end of all retries -----

  /** No processor dies between its claim of a row for the last time and the write for it. */
  ghost predicate NoCrashInLastClaim(u: Setup, s: System, steps: seq<Step>)
    requires Legal(u, s, steps)
    decreases |steps|
  {
    steps != [] ==>
      && (steps[0].Crash? && s.procs[steps[0].p].live ==> s.procs[steps[0].p].last == {})
      && NoCrashInLastClaim(u, Apply(u, s, steps[0]), steps[1..])
  }

  ghost predicate InLastClaim(s: System, e: Id)
  {
    exists p :: p in s.procs && s.procs[p].live && e in s.procs[p].last
  }

  /** At most R + 4 attempts, and after that many the row is Exceeded or about to be. */
  ghost predicate Ends(u: Setup, s: System)
  {
    forall e | e in s.table ::
      && s.table[e].attempts <= u.cfg.retryAttempts + 4
      && (s.table[e].attempts == u.cfg.retryAttempts + 4 ==> s.table[e].status == Exceeded || InLastClaim(s, e))
  }

  /** In a careful run a status write reaches only rows its processor owns or nobody owns, and a row
      in its last claim only through the write that sets it to Exceeded. */
  lemma WritesAreOwned(u: Setup, s: System, step: Step, e: Id)
    requires Inv(s) && Enabled(u, s, step) && AnswersOwn(u, s, step) && e in StepWrites(u, s, step)
    ensures step.HandlerAnswers? || step.HandlerThrows? || step.EndHook? || step.WriteLast? || step.Finish?
    ensures Owns(s, step.p, e) || Dangles(s, step.p, e)
  {
    var x := s.procs[step.p];
    assert ProcOk(s, x);
    if step.HandlerAnswers? {
      AnswerStaysInCluster(map[], x.seen.Keys, step.cluster, step.answer);
    }
  }

  /** What a live processor still has to write, again or for the first time, nobody else has claimed
      since. */
  ghost predicate StillIts(s: System, p: ProcId, e: Id)
  {
    p in s.procs && e in s.table && e in s.procs[p].seen && s.table[e].attempts == s.procs[p].seen[e] + 1
  }

  ghost predicate Same(s: System)
  {
    forall p, e | p in s.procs && s.procs[p].live && e in Pending(s.procs[p]) :: StillIts(s, p, e) && e in s.procs[p].ready
  }

  /** What a processor still has to write, again or for the first time. */
  function Pending(x: Proc): set<Id>
  {
    x.unwritten + x.reported.Keys * x.seen.Keys
  }

  lemma StepKeepsSame(u: Setup, s: System, step: Step)
    requires Inv(s) && Same(s) && Enabled(u, s, step) && Careful(u, s, step) && AnswersOwn(u, s, step)
    requires forall e | e in StepWrites(u, s, step) :: StepWrites(u, s, step)[e].status != Open
    ensures Same(Apply(u, s, step))
  {
    var t := Apply(u, s, step);
    forall p, e | p in t.procs && t.procs[p].live && e in Pending(t.procs[p])
      ensures StillIts(t, p, e) && e in t.procs[p].ready
    {
      if p in s.procs {
        LiveBefore(u, s, step, p);
        assert ProcOk(s, s.procs[p]);
        PendingBefore(u, s, step, p, e);
        assert StillIts(s, p, e);
        ProcMoves(u, s, step, p);
        AttemptsGrow(u, s, step, e);
        PendingNotClaimed(u, s, step, p, e);
      }
    }
  }

  lemma LiveBefore(u: Setup, s: System, step: Step, p: ProcId)
    requires Enabled(u, s, step) && p in s.procs && p in Apply(u, s, step).procs && Apply(u, s, step).procs[p].live
    ensures s.procs[p].live
  {
  }

  lemma PendingBefore(u: Setup, s: System, step: Step, p: ProcId, e: Id)
    requires Enabled(u, s, step) && AnswersOwn(u, s, step) && p in s.procs && p in Apply(u, s, step).procs
    requires Shape(s.procs[p]) && e in Pending(Apply(u, s, step).procs[p])
    ensures e in Pending(s.procs[p])
  {
    if step.HandlerAnswers? {
      var x := s.procs[step.p];
      AnswerStaysInCluster(if u.isolated then map[] else x.reported, x.seen.Keys, step.cluster, step.answer);
    }
  }

  lemma PendingNotClaimed(u: Setup, s: System, step: Step, p: ProcId, e: Id)
    requires Inv(s) && Enabled(u, s, step) && Careful(u, s, step)
    requires p in s.procs && s.procs[p].live && e in Pending(s.procs[p])
    ensures !ClaimsRow(u, s, step, e)
  {
    if step.Claim? {
      if e in Owned(s.procs[p]) {
        assert Owns(s, p, e);
        OwnedNotClaimed(u, s, step, p, e);
      } else {
        assert e in Dangling(s.procs[p]);
      }
    }
  }

  lemma OwnedNotClaimed(u: Setup, s: System, step: Step, p: ProcId, e: Id)
    requires Inv(s) && Enabled(u, s, step) && step.Claim? && Timely(u, s) && Owns(s, p, e)
    ensures e !in step.chunk
  {
    OwnerHolds(s, p, e);
    assert s.now - Touch(s.procs[p], e) < u.cfg.maxInProgress;
  }

  lemma OwnerHolds(s: System, p: ProcId, e: Id)
    requires Inv(s) && Owns(s, p, e)
    ensures Holds(s, s.procs[p], e)
  {
    assert ProcOk(s, s.procs[p]);
  }

  lemma LastClaimOf(u: Setup, s: System, step: Step, p: ProcId, e: Id)
    requires Enabled(u, s, step) && p in s.procs && s.procs[p].live && e in s.procs[p].last && e in s.table
    requires step.Crash? && s.procs[step.p].live ==> s.procs[step.p].last == {}
    ensures var t := Apply(u, s, step);
            && p in t.procs && e in t.table
            && (if step == WriteLast(p) then t.table[e].status == Exceeded else t.procs[p].live && e in t.procs[p].last)
  {
  }

  lemma LastClaimStays(u: Setup, s: System, step: Step, e: Id)
    requires Enabled(u, s, step) && InLastClaim(s, e) && e in s.table
    requires step.Crash? && s.procs[step.p].live ==> s.procs[step.p].last == {}
    ensures var t := Apply(u, s, step);
            e in t.table && (InLastClaim(t, e) || t.table[e].status == Exceeded)
  {
    var p :| p in s.procs && s.procs[p].live && e in s.procs[p].last;
    LastClaimOf(u, s, step, p, e);
  }

  /** The invariant of careful runs without Open results. */
  ghost predicate EndInv(u: Setup, s: System)
  {
    Inv(s) && Ends(u, s) && Counted(u, s) && Same(s) && u.cfg.retryAttempts >= 0
  }

  lemma StepKeepsEnds(u: Setup, s: System, step: Step)
    requires EndInv(u, s) && Enabled(u, s, step) && Careful(u, s, step) && AnswersOwn(u, s, step)
    requires forall e | e in StepWrites(u, s, step) :: StepWrites(u, s, step)[e].status != Open
    requires step.Crash? && s.procs[step.p].live ==> s.procs[step.p].last == {}
    ensures Ends(u, Apply(u, s, step))
  {
    var t := Apply(u, s, step);
    forall e | e in t.table
      ensures && t.table[e].attempts <= u.cfg.retryAttempts + 4
              && (t.table[e].attempts == u.cfg.retryAttempts + 4 ==> t.table[e].status == Exceeded || InLastClaim(t, e))
    {
      if e in s.table {
        AttemptsGrow(u, s, step, e);
        if s.table[e].attempts == u.cfg.retryAttempts + 4 {
          FinishedRowStays(u, s, step, e);
        } else if ClaimsRow(u, s, step, e) && s.table[e].attempts == u.cfg.retryAttempts + 3 {
          assert e in t.procs[step.p].last && t.procs[step.p].live;
        }
      }
    }
  }

  /** Rows a processor still has to write, it has handed to a handler. */
  lemma PendingIsEarly(u: Setup, s: System, p: ProcId, e: Id)
    requires EndInv(u, s) && p in s.procs && s.procs[p].live && e in Pending(s.procs[p])
    ensures e in s.table && s.table[e].attempts <= u.cfg.retryAttempts
  {
    assert ProcOk(s, s.procs[p]) && Sorted(u, s.procs[p]);
    assert StillIts(s, p, e);
  }

  /** So nobody writes a row with R + 4 attempts once more. */
  lemma NothingDanglesOnIt(u: Setup, s: System, p: ProcId, e: Id)
    requires EndInv(u, s) && e in s.table && s.table[e].attempts == u.cfg.retryAttempts + 4
    ensures !Dangles(s, p, e)
  {
    if Dangles(s, p, e) { PendingIsEarly(u, s, p, e); }
  }

  lemma FinishedRowStays(u: Setup, s: System, step: Step, e: Id)
    requires EndInv(u, s) && Enabled(u, s, step) && Careful(u, s, step) && AnswersOwn(u, s, step)
    requires e in s.table && s.table[e].attempts == u.cfg.retryAttempts + 4
    requires step.Crash? && s.procs[step.p].live ==> s.procs[step.p].last == {}
    ensures !ClaimsRow(u, s, step, e)
    ensures var t := Apply(u, s, step);
            e in t.table && (t.table[e].status == Exceeded || InLastClaim(t, e))
  {
    if InLastClaim(s, e) {
      var p :| p in s.procs && s.procs[p].live && e in s.procs[p].last;
      assert Owns(s, p, e);
      if step.Claim? { OwnedNotClaimed(u, s, step, p, e); }
      LastClaimStays(u, s, step, e);
    } else {
      RowMoves(u, s, step, e);
      if e in StepWrites(u, s, step) { ExceededNotWritten(u, s, step, e); }
    }
  }

  lemma ExceededNotWritten(u: Setup, s: System, step: Step, e: Id)
    requires EndInv(u, s) && Enabled(u, s, step) && Careful(u, s, step) && AnswersOwn(u, s, step)
    requires e in s.table && s.table[e].attempts == u.cfg.retryAttempts + 4 && s.table[e].status == Exceeded
    ensures e !in StepWrites(u, s, step)
  {
    if e in StepWrites(u, s, step) {
      WritesAreOwned(u, s, step, e);
      NothingDanglesOnIt(u, s, step.p, e);
      OwnerHolds(s, step.p, e);
    }
  }

  lemma {:induction false} RunKeepsEnds(u: Setup, s: System, steps: seq<Step>)
    requires EndInv(u, s)
    requires Legal(u, s, steps) && CarefulRun(u, s, steps) && Answering(u, s, steps) && NoOpens(u, s, steps) && NoCrashInLastClaim(u, s, steps)
    ensures EndInv(u, Run(u, s, steps))
    decreases |steps|
  {
    if steps != [] {
      StepKeepsInv(u, s, steps[0]);
      StepKeepsEnds(u, s, steps[0]);
      StepKeepsCounted(u, s, steps[0]);
      StepKeepsSame(u, s, steps[0]);
      RunKeepsEnds(u, Apply(u, s, steps[0]), steps[1..]);
    }
  }

  /** At most R + 4 claims, R handler calls and 3 hook calls; and with R + 4 attempts and nobody
      owning the row, it is Exceeded. */
  ghost predicate Bounded(u: Setup, t: System, e: Id)
  {
    var R := u.cfg.retryAttempts;
    && |ClaimedBy(t, e)| <= R + 4 && |HandledBy(t, e)| <= R && |HookedBy(t, e)| <= 3
    && (e in t.table && t.table[e].attempts >= R + 4 && !(exists p :: Owns(t, p, e)) ==>
          t.table[e].status == Exceeded)
  }

  /** The retry bound for careful runs: handlers may answer or throw, in both modes. */
  lemma RetriesEndInCarefulRuns(u: Setup, s: System, steps: seq<Step>, e: Id)
    requires Initial(s) && u.cfg.retryAttempts >= 0
    requires forall d <- s.table :: 0 <= s.table[d].attempts <= u.cfg.retryAttempts + 3
    requires Legal(u, s, steps) && CarefulRun(u, s, steps) && Answering(u, s, steps)
    requires NoOpens(u, s, steps) && NoCrashInLastClaim(u, s, steps)
    ensures Bounded(u, Run(u, s, steps), e)
  {
    RunKeepsEnds(u, s, steps);
    HandlerCalledAtMostR(u, s, steps, e);
    var t, R := Run(u, s, steps), u.cfg.retryAttempts;
    forall p | p in ClaimedBy(t, e) ensures 0 <= t.procs[p].seen[e] < R + 4 {
      assert SeenBefore(t, t.procs[p]);
    }
    CountedIsFew(u, t, ClaimedBy(t, e), e, 0, R + 4);
    forall p | p in HookedBy(t, e) ensures e in t.procs[p].seen && R <= t.procs[p].seen[e] < R + 3 {
      assert Sorted(u, t.procs[p]) && SeenBefore(t, t.procs[p]);
    }
    CountedIsFew(u, t, HookedBy(t, e), e, R, R + 3);
    if InLastClaim(t, e) {
      var p :| p in t.procs && t.procs[p].live && e in t.procs[p].last;
      assert Owns(t, p, e);
    }
  }

  lemma {:induction false} GoodIsAnswering(u: Setup, s: System, steps: seq<Step>)
    requires Legal(u, s, steps) && GoodRun(u, s, steps)
    ensures Answering(u, s, steps)
    decreases |steps|
  {
    if steps != [] { GoodIsAnswering(u, Apply(u, s, steps[0]), steps[1..]); }
  }

  lemma {:induction false} OneAtATimeIsAnswering(u: Setup, s: System, steps: seq<Step>)
    requires Legal(u, s, steps) && OneAtATime(u, s, steps)
    ensures Answering(u, s, steps)
    decreases |steps|
  {
    if steps != [] { OneAtATimeIsAnswering(u, Apply(u, s, steps[0]), steps[1..]); }
  }

  /** The retry bound for runs in which the owners are on time and handlers answer. */
  lemma RetriesEnd(u: Setup, s: System, steps: seq<Step>, e: Id)
    requires Initial(s) && u.cfg.retryAttempts >= 0
    requires forall d <- s.table :: 0 <= s.table[d].attempts <= u.cfg.retryAttempts + 3
    requires Legal(u, s, steps) && GoodRun(u, s, steps) && NoOpens(u, s, steps) && NoCrashInLastClaim(u, s, steps)
    ensures Bounded(u, Run(u, s, steps), e)
  {
    GoodIsCareful(u, s, steps);
    GoodIsAnswering(u, s, steps);
    RetriesEndInCarefulRuns(u, s, steps, e);
  }

  /** The retry bound for one processor at a time, the lock's normal case: no assumption on timing,
      and handlers may throw. */
  lemma RetriesEndOneAtATime(u: Setup, s: System, steps: seq<Step>, e: Id)
    requires Initial(s) && u.cfg.retryAttempts >= 0
    requires forall d <- s.table :: 0 <= s.table[d].attempts <= u.cfg.retryAttempts + 3
    requires Legal(u, s, steps) && OneAtATime(u, s, steps) && NoOpens(u, s, steps) && NoCrashInLastClaim(u, s, steps)
    ensures Bounded(u, Run(u, s, steps), e)
  {
    OneAtATimeIsCareful(u, s, steps);
    OneAtATimeIsAnswering(u, s, steps);
    RetriesEndInCarefulRuns(u, s, steps, e);
  }

  // ----- when the hook is called more often -----

  /** The claims that found the row with more attempts than the equality looks for. */
  ghost function LateClaims(u: Setup, s: System, e: Id): set<ProcId>
  {
    set p | p in s.procs && e in s.procs[p].seen && s.procs[p].seen[e] >= u.cfg.retryAttempts + 4
  }

  /** In every run without Open results, whatever is late, throws or crashes, there are at most three
      hook calls and one more for each late claim. */
  lemma HookCalls(u: Setup, s: System, steps: seq<Step>, e: Id)
    requires Initial(s) && u.cfg.retryAttempts >= 0 && forall d <- s.table :: s.table[d].attempts >= 0
    requires Legal(u, s, steps) && NoOpens(u, s, steps)
    ensures var t := Run(u, s, steps); |HookedBy(t, e)| <= 3 + |LateClaims(u, t, e)|
  {
    RunKeepsCounted(u, s, steps);
    var t, R := Run(u, s, steps), u.cfg.retryAttempts;
    var early := HookedBy(t, e) - LateClaims(u, t, e);
    forall p | p in early ensures e in t.procs[p].seen && R <= t.procs[p].seen[e] < R + 3 {
      assert Sorted(u, t.procs[p]);
    }
    CountedIsFew(u, t, early, e, R, R + 3);
    var late := HookedBy(t, e) * LateClaims(u, t, e);
    assert HookedBy(t, e) == early + late;
    CardMono(late, LateClaims(u, t, e));
  }

  /** A row past the equality, whose hook has failed: nothing but a hook that succeeds ends this. */
  ghost predicate PastTheEnd(u: Setup, s: System, e: Id)
  {
    && e in s.table && s.table[e].status == Error && s.table[e].attempts >= u.cfg.retryAttempts + 4
    && s.table[e].lastAttempt.Some? && s.table[e].lastAttempt.value <= s.now
  }

  ghost predicate Possible(u: Setup, s: System, steps: seq<Step>)
  {
    Legal(u, s, steps) && NoOpens(u, s, steps)
  }

  lemma {:induction false} PossibleConcat(u: Setup, s: System, a: seq<Step>, b: seq<Step>)
    requires Possible(u, s, a) && Possible(u, Run(u, s, a), b)
    ensures Possible(u, s, a + b) && Run(u, s, a + b) == Run(u, Run(u, s, a), b)
    decreases |a|
  {
    if a == [] {
      assert a + b == b;
    } else {
      PossibleConcat(u, Apply(u, s, a[0]), a[1..], b);
      assert (a + b)[1..] == a[1..] + b;
    }
  }

  lemma PossibleStep(u: Setup, s: System, step: Step)
    requires Enabled(u, s, step) && forall e | e in StepWrites(u, s, step) :: StepWrites(u, s, step)[e].status != Open
    ensures Possible(u, s, [step]) && Run(u, s, [step]) == Apply(u, s, step)
  {
    assert [step][1..] == [];
    assert Legal(u, Apply(u, s, step), []) && NoOpens(u, Apply(u, s, step), []);
  }

  /** A hook that is due is called and fails. */
  lemma HookFails(u: Setup, s: System, p: ProcId, e: Id) returns (steps: seq<Step>)
    requires p in s.procs && s.procs[p].live && e in s.procs[p].hooks && p !in HookedBy(s, e) && e in s.table
    requires s.table[e].attempts >= u.cfg.retryAttempts + 4
    ensures Possible(u, s, steps) && PastTheEnd(u, Run(u, s, steps), e)
    ensures HookedBy(Run(u, s, steps), e) == HookedBy(s, e) + {p}
  {
    var s1 := Apply(u, s, StartHook(p, e));
    PossibleStep(u, s, StartHook(p, e));
    var s2 := Apply(u, s1, EndHook(p, e, false));
    PossibleStep(u, s1, EndHook(p, e, false));
    PossibleConcat(u, s, [StartHook(p, e)], [EndHook(p, e, false)]);
    steps := [StartHook(p, e)] + [EndHook(p, e, false)];
    assert s2.table[e] == WriteRow(s.table[e], Update(Error, None), s.now, u.cfg);
  }

  /** A row that can be claimed, now or after some time. */
  ghost predicate Takeable(s: System, e: Id)
  {
    && e in s.table && (s.table[e].lastAttempt.Some? ==> s.table[e].lastAttempt.value <= s.now)
    && (s.table[e].status == Open
        || ((s.table[e].status == Error || s.table[e].status == InProgress) && s.table[e].lastAttempt.Some?))
  }

  /** A time at which it is due and, if it was in progress, stuck. */
  function DueAt(u: Setup, s: System, e: Id): (t: int)
    requires e in s.table
    ensures t >= s.now
  {
    var row := s.table[e];
    var due := if row.startAfter.Some? && row.startAfter.value > s.now then row.startAfter.value else s.now;
    if row.lastAttempt.Some? && row.lastAttempt.value + u.cfg.maxInProgress > due
    then row.lastAttempt.value + u.cfg.maxInProgress else due
  }

  /** At that time a new processor claims it. */
  lemma ClaimWhenDue(u: Setup, s: System, e: Id) returns (steps: seq<Step>, p: ProcId)
    requires Takeable(s, e) && u.cfg.lookAhead >= 0
    ensures Possible(u, s, steps) && p !in s.procs
    ensures var t := Run(u, s, steps);
            && t.procs.Keys == s.procs.Keys + {p} && (forall q | q in s.procs :: t.procs[q] == s.procs[q])
            && TakenBy(u, s, t, p, e)
  {
    var now := DueAt(u, s, e);
    SomeUnused(s.procs.Keys);
    p :| p !in s.procs.Keys;
    var wait, claim := Tick(now), Claim(p, now, now, {e});
    var s1 := Apply(u, s, wait);
    PossibleStep(u, s, wait);
    ClaimDue(u, s1, p, e);
    PossibleStep(u, s1, claim);
    PossibleConcat(u, s, [wait], [claim]);
    steps := [wait] + [claim];
  }

  /** Processor `p` has claimed the row as it was in `s`. */
  ghost predicate TakenBy(u: Setup, s: System, t: System, p: ProcId, e: Id)
  {
    && e in s.table && e in t.table && p in t.procs && t.procs[p].live
    && t.table[e] == ClaimRow(s.table[e], t.now)
    && e in t.procs[p].seen && t.procs[p].seen[e] == s.table[e].attempts && t.procs[p].hooked == {}
    && (s.table[e].attempts >= u.cfg.retryAttempts + 4 ==> e in t.procs[p].hooks)
  }

  lemma ClaimDue(u: Setup, s: System, p: ProcId, e: Id)
    requires Takeable(s, e) && u.cfg.lookAhead >= 0 && p !in s.procs
    requires s.table[e].startAfter.Some? ==> s.table[e].startAfter.value <= s.now
    requires s.table[e].lastAttempt.Some? ==> s.table[e].lastAttempt.value + u.cfg.maxInProgress <= s.now
    ensures Enabled(u, s, Claim(p, s.now, s.now, {e}))
    ensures TakenBy(u, s, Apply(u, s, Claim(p, s.now, s.now, {e})), p, e)
  {
    var kind := KindOf(s.table[e], s.now, u.cfg);
    assert e in OfKind(s.table, {e}, kind, s.now, u.cfg);
  }

  /** As soon as it is due again the row is claimed for its hook. */
  lemma ClaimAgain(u: Setup, s: System, e: Id) returns (steps: seq<Step>, p: ProcId)
    requires PastTheEnd(u, s, e) && u.cfg.lookAhead >= 0
    ensures Possible(u, s, steps)
    ensures var t := Run(u, s, steps);
            && p in t.procs && t.procs[p].live && e in t.procs[p].hooks && p !in HookedBy(t, e)
            && e in t.table && t.table[e].attempts == s.table[e].attempts + 1 && HookedBy(t, e) == HookedBy(s, e)
  {
    steps, p := ClaimWhenDue(u, s, e);
  }

  /** So its hook is called any number of times more. */
  lemma {:induction false} HookedForever(u: Setup, s: System, e: Id, n: nat) returns (steps: seq<Step>)
    requires PastTheEnd(u, s, e) && u.cfg.lookAhead >= 0
    ensures Possible(u, s, steps) && |HookedBy(Run(u, s, steps), e)| == |HookedBy(s, e)| + n
    decreases n
  {
    steps := [];
    if n > 0 {
      var first, p := ClaimAgain(u, s, e);
      var s1 := Run(u, s, first);
      var second := HookFails(u, s1, p, e);
      PossibleConcat(u, s, first, second);
      var third := HookedForever(u, Run(u, s1, second), e, n - 1);
      PossibleConcat(u, s, first + second, third);
      steps := first + second + third;
    }
  }

  /** A late claim is made by some step of the run; right after it the hook is due. */
  lemma {:induction false} FindLateClaim(u: Setup, s: System, steps: seq<Step>, p: ProcId, e: Id) returns (start: seq<Step>)
    requires Possible(u, s, steps) && p !in s.procs && p in LateClaims(u, Run(u, s, steps), e)
    ensures Possible(u, s, start)
    ensures var t := Run(u, s, start);
            && p in t.procs && t.procs[p].live && e in t.procs[p].hooks && p !in HookedBy(t, e)
            && e in t.table && t.table[e].attempts >= u.cfg.retryAttempts + 5
    decreases |steps|
  {
    var step := steps[0];
    var s1 := Apply(u, s, step);
    PossibleStep(u, s, step);
    if p in s1.procs {
      OnlyClaimAddsProc(u, s, step);
      SeenStays(u, s1, steps[1..], p);
      start := [step];
    } else {
      var rest := FindLateClaim(u, s1, steps[1..], p, e);
      PossibleConcat(u, s, [step], rest);
      start := [step] + rest;
    }
  }

  lemma {:induction false} SeenStays(u: Setup, s: System, steps: seq<Step>, p: ProcId)
    requires Legal(u, s, steps) && p in s.procs
    ensures p in Run(u, s, steps).procs && Run(u, s, steps).procs[p].seen == s.procs[p].seen
    decreases |steps|
  {
    if steps != [] {
      ProcMoves(u, s, steps[0], p);
      SeenStays(u, Apply(u, s, steps[0]), steps[1..], p);
    }
  }

  /** Some possible run calls the hook at least `n` times. */
  ghost predicate CanCallHook(u: Setup, s: System, e: Id, n: nat)
  {
    exists steps :: Possible(u, s, steps) && |HookedBy(Run(u, s, steps), e)| >= n
  }

  ghost predicate CanClaimLate(u: Setup, s: System, e: Id)
  {
    exists steps :: Possible(u, s, steps) && LateClaims(u, Run(u, s, steps), e) != {}
  }

  /** Claims followed by crashes raise the attempts as far as one likes. */
  lemma {:induction false} ClaimAndCrash(u: Setup, s: System, e: Id, n: nat) returns (steps: seq<Step>)
    requires Takeable(s, e) && u.cfg.lookAhead >= 0
    ensures Possible(u, s, steps) && Takeable(Run(u, s, steps), e)
    ensures Run(u, s, steps).table[e].attempts == s.table[e].attempts + n
    decreases n
  {
    steps := [];
    if n > 0 {
      var first, p := ClaimWhenDue(u, s, e);
      var s1 := Run(u, s, first);
      PossibleStep(u, s1, Crash(p));
      PossibleConcat(u, s, first, [Crash(p)]);
      var rest := ClaimAndCrash(u, Apply(u, s1, Crash(p)), e, n - 1);
      PossibleConcat(u, s, first + [Crash(p)], rest);
      steps := first + [Crash(p)] + rest;
    }
  }

  lemma TakeableIsClaimedLate(u: Setup, s: System, e: Id) returns (steps: seq<Step>)
    requires Takeable(s, e) && u.cfg.lookAhead >= 0 && s.table[e].attempts >= 0 && u.cfg.retryAttempts >= 0
    ensures Possible(u, s, steps) && LateClaims(u, Run(u, s, steps), e) != {}
  {
    var first := ClaimAndCrash(u, s, e, u.cfg.retryAttempts + 4);
    var s1 := Run(u, s, first);
    var second, p := ClaimWhenDue(u, s1, e);
    PossibleConcat(u, s, first, second);
    assert p in LateClaims(u, Run(u, s1, second), e);
    steps := first + second;
  }

  /** Nobody will ever select the row, and nobody has anything to do with it. */
  ghost predicate Dead(s: System, e: Id)
  {
    && e in s.table && !(s.table[e].status == Open
                         || ((s.table[e].status == Error || s.table[e].status == InProgress) && s.table[e].lastAttempt.Some?))
    && forall p | p in s.procs :: Unconcerned(s.procs[p], e)
  }

  ghost predicate Unconcerned(x: Proc, e: Id)
  {
    e !in x.seen && e !in x.waiting + x.running + x.hooks + x.hooking + x.last + x.unwritten
  }

  lemma DeadStaysDead(u: Setup, s: System, step: Step, e: Id)
    requires Dead(s, e) && Enabled(u, s, step)
    ensures Dead(Apply(u, s, step), e)
  {
    var t := Apply(u, s, step);
    assert e !in StepWrites(u, s, step) && !ClaimsRow(u, s, step, e);
    forall p | p in t.procs ensures Unconcerned(t.procs[p], e) {
      if p in s.procs { assert Unconcerned(s.procs[p], e); }
    }
    DeadRow(u, s, step, e);
  }

  lemma DeadRow(u: Setup, s: System, step: Step, e: Id)
    requires Dead(s, e) && Enabled(u, s, step)
    ensures e in Apply(u, s, step).table && Apply(u, s, step).table[e] == s.table[e]
  {
    if step.KeepAlive? || step.HandlerAnswers? || step.HandlerThrows? || step.EndHook? || step.WriteLast? || step.Finish? {
      assert Unconcerned(s.procs[step.p], e);
    }
  }

  lemma {:induction false} DeadForever(u: Setup, s: System, steps: seq<Step>, e: Id)
    requires Dead(s, e) && Legal(u, s, steps)
    ensures Dead(Run(u, s, steps), e)
    decreases |steps|
  {
    if steps != [] {
      DeadStaysDead(u, s, steps[0], e);
      DeadForever(u, Apply(u, s, steps[0]), steps[1..], e);
    }
  }

  /** By the row at the start: a late claim is possible if and only if the row is not there yet, or is
      Open, Error or InProgress (the latter two with a time of their last attempt). */
  lemma CanClaimLateIff(u: Setup, s: System, e: Id)
    requires Initial(s) && u.cfg.retryAttempts >= 0 && u.cfg.lookAhead >= 0
    requires forall d <- s.table :: s.table[d].attempts >= 0
    ensures CanClaimLate(u, s, e) <==> e !in s.table || Takeable(s, e)
  {
    if e !in s.table {
      var insert := Insert(e, None);
      var t := Apply(u, s, insert);
      PossibleStep(u, s, insert);
      var rest := TakeableIsClaimedLate(u, t, e);
      PossibleConcat(u, s, [insert], rest);
      LateRun(u, s, [insert] + rest, e);
    } else if Takeable(s, e) {
      var steps := TakeableIsClaimedLate(u, s, e);
      LateRun(u, s, steps, e);
    } else {
      assert Dead(s, e);
      forall steps | Possible(u, s, steps) ensures LateClaims(u, Run(u, s, steps), e) == {} {
        DeadForever(u, s, steps, e);
        assert forall p | p in Run(u, s, steps).procs :: Unconcerned(Run(u, s, steps).procs[p], e);
      }
    }
  }

  /** The bound of three hook calls can fail if and only if some claim can take the row with R + 4
      attempts or more; and then there is no bound at all. */
  lemma HookBoundFailsIff(u: Setup, s: System, e: Id)
    requires Initial(s) && u.cfg.retryAttempts >= 0 && u.cfg.lookAhead >= 0
    requires forall d <- s.table :: s.table[d].attempts >= 0
    ensures CanCallHook(u, s, e, 4) <==> CanClaimLate(u, s, e)
    ensures CanClaimLate(u, s, e) ==> forall n :: CanCallHook(u, s, e, n)
    ensures CanClaimLate(u, s, e) <==> e !in s.table || Takeable(s, e)
  {
    CanClaimLateIff(u, s, e);
    if CanCallHook(u, s, e, 4) {
      var steps :| Possible(u, s, steps) && |HookedBy(Run(u, s, steps), e)| >= 4;
      HookCalls(u, s, steps, e);
      assert LateClaims(u, Run(u, s, steps), e) != {};
    }
    if CanClaimLate(u, s, e) {
      forall n ensures CanCallHook(u, s, e, n) { HookedAnyNumber(u, s, e, n); }
    }
  }

  lemma HookedAnyNumber(u: Setup, s: System, e: Id, n: nat)
    requires Initial(s) && u.cfg.lookAhead >= 0 && CanClaimLate(u, s, e)
    ensures CanCallHook(u, s, e, n)
  {
    var steps :| Possible(u, s, steps) && LateClaims(u, Run(u, s, steps), e) != {};
    var p :| p in LateClaims(u, Run(u, s, steps), e);
    var first := FindLateClaim(u, s, steps, p, e);
    var second := HookedFromThen(u, Run(u, s, first), p, e, n);
    PossibleConcat(u, s, first, second);
    assert Possible(u, s, first + second);
  }

  /** From the moment a late claim has made the hook due. */
  lemma HookedFromThen(u: Setup, s: System, p: ProcId, e: Id, n: nat) returns (steps: seq<Step>)
    requires p in s.procs && s.procs[p].live && e in s.procs[p].hooks && p !in HookedBy(s, e) && e in s.table
    requires s.table[e].attempts >= u.cfg.retryAttempts + 4 && u.cfg.lookAhead >= 0
    ensures Possible(u, s, steps) && |HookedBy(Run(u, s, steps), e)| >= n
  {
    var first := HookFails(u, s, p, e);
    var second := HookedForever(u, Run(u, s, first), e, n);
    PossibleConcat(u, s, first, second);
    steps := first + second;
  }

  // ----- a crash in the last claim does it -----

  const CRASHING: seq<Step> := [Claim(0, 10, 10, {0}), Crash(0), Tick(110)]

  /** R = 3, and the hook has been called for attempts 3, 4 and 5. */
  function LastTry(): System
  {
    System(map[0 := Row(Error, 6, Some(10), None)], map[], 10)
  }

  lemma CrashLeavesStuckRow()
    ensures Legal(SETUP, LastTry(), CRASHING)
    ensures var t := Run(SETUP, LastTry(), CRASHING);
            t.table == map[0 := Row(InProgress, 7, Some(10), None)] && t.now == 110 && t.procs.Keys == {0}
  {
    var s := LastTry();
    var s1 := Apply(SETUP, s, CRASHING[0]);
    assert OfKind(s.table, {0}, ExceededTriesExceeded, 10, SETUP.cfg) == {0};
    assert s1.table[0] == Row(InProgress, 7, Some(10), None);
    var s2 := Apply(SETUP, s1, CRASHING[1]);
    var s3 := Apply(SETUP, s2, CRASHING[2]);
    RunThree(SETUP, s, CRASHING[0], CRASHING[1], CRASHING[2]);
  }

  lemma StuckRowIsClaimedLate(s: System)
    requires s.table == map[0 := Row(InProgress, 7, Some(10), None)] && s.now == 110 && s.procs.Keys == {0}
    ensures Enabled(SETUP, s, Claim(1, 110, 110, {0}))
    ensures 1 in LateClaims(SETUP, Apply(SETUP, s, Claim(1, 110, 110, {0})), 0)
  {
    var s1 := Apply(SETUP, s, Claim(1, 110, 110, {0}));
    assert 0 in OfKind(s.table, {0}, ExceededTries, 110, SETUP.cfg);
    assert 0 in s1.procs[1].seen;
  }

  /** A row that is claimed for the last time and whose processor then crashes has its hook called
      without limit. */
  lemma CrashInLastClaimCallsHookForever(n: nat)
    ensures CanCallHook(SETUP, LastTry(), 0, n)
  {
    var s := LastTry();
    CrashLeavesStuckRow();
    var t := Run(SETUP, s, CRASHING);
    StuckRowIsClaimedLate(t);
    PossibleStep(SETUP, t, Claim(1, 110, 110, {0}));
    NoOpensInCrash();
    PossibleConcat(SETUP, s, CRASHING, [Claim(1, 110, 110, {0})]);
    LateRun(SETUP, s, CRASHING + [Claim(1, 110, 110, {0})], 0);
    HookedAnyNumber(SETUP, s, 0, n);
  }

  lemma LateRun(u: Setup, s: System, steps: seq<Step>, e: Id)
    requires Possible(u, s, steps) && LateClaims(u, Run(u, s, steps), e) != {}
    ensures CanClaimLate(u, s, e)
  {
  }

  lemma NoOpensInCrash()
    ensures Possible(SETUP, LastTry(), CRASHING)
  {
    CrashLeavesStuckRow();
    var s := LastTry();
    var s1 := Apply(SETUP, s, CRASHING[0]);
    var s2 := Apply(SETUP, s1, CRASHING[1]);
    var s3 := Apply(SETUP, s2, CRASHING[2]);
    assert CRASHING[1..] == [CRASHING[1], CRASHING[2]] && CRASHING[1..][1..] == [CRASHING[2]] && CRASHING[1..][1..][1..] == [];
    assert NoOpens(SETUP, s3, []);
    assert NoOpens(SETUP, s2, [CRASHING[2]]);
    assert NoOpens(SETUP, s1, [CRASHING[1], CRASHING[2]]);
  }
}
