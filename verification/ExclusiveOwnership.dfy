/** No event ever has two live owners: over every interleaving of any number of processors, as
    long as every live owner renews its claim in time and no answer gets at rows it should not. */
module ExclusiveOwnership {
  import opened EventTable
  import opened StatusReports
  import opened RowProtocol

  // ----- the assumptions -----

  /** Every live owner has put a stamp on its row within the last `maxInProgress`. */
  ghost predicate Timely(u: Setup, s: System)
  {
    forall p, e | Owns(s, p, e) :: s.now - Touch(s.procs[p], e) < u.cfg.maxInProgress
  }

  /** A handler reports on the events it was given; reports on events that were never selected are
      dropped and do no harm. */
  ghost predicate AnswersFor(selected: set<Id>, cluster: set<Id>, answer: Answer)
  {
    answer.Tuples? ==>
      forall i | 0 <= i < |answer.tuples| && answer.tuples[i].Pair? ::
        answer.tuples[i].id in cluster || answer.tuples[i].id !in selected
  }

  /** Rows a processor is going to write in its final transaction although it has given them up, for
      example those of a handler that threw in isolated mode. */
  function Dangling(x: Proc): set<Id>
  {
    x.reported.Keys * x.seen.Keys - Owned(x)
  }

  /** The selected rows an answer gets at: in isolated mode they are written at once. */
  function Answered(u: Setup, x: Proc, cluster: set<Id>, answer: Answer): set<Id>
  {
    if u.isolated then Writes(AnswerMap(u, x, cluster, answer), x.seen.Keys).Keys
    else AnswerMap(u, x, cluster, answer).Keys * x.seen.Keys
  }

  /** What an answer must keep its hands off: rows of other live owners; and, where it is written at
      once, the processor's own rows whose handler or hook is still to come or is running. */
  ghost predicate Harmless(u: Setup, s: System, step: Step)
    requires step.HandlerAnswers? && step.p in s.procs
  {
    var x := s.procs[step.p];
    var answered := Answered(u, x, step.cluster, step.answer);
    && (forall q, e | e in answered && Owns(s, q, e) :: q == step.p)
    && (u.isolated ==> answered !! x.waiting + (x.running - step.cluster) + x.hooks + x.hooking + x.last)
  }

  /** Answers are harmless. At a claim, the live owners are on time, and no row is taken that a live
      processor is going to write once more. */
  ghost predicate Careful(u: Setup, s: System, step: Step)
    requires Enabled(u, s, step)
  {
    && (step.HandlerAnswers? ==> Harmless(u, s, step))
    && (step.Claim? ==> Timely(u, s) && forall q | q in s.procs && s.procs[q].live :: step.chunk !! Dangling(s.procs[q]))
  }

  ghost predicate CarefulRun(u: Setup, s: System, steps: seq<Step>)
    requires Legal(u, s, steps)
    decreases |steps|
  {
    steps != [] ==> Careful(u, s, steps[0]) && CarefulRun(u, Apply(u, s, steps[0]), steps[1..])
  }

  /** Handlers report on the events they were given, along the run. */
  ghost predicate Answering(u: Setup, s: System, steps: seq<Step>)
    requires Legal(u, s, steps)
    decreases |steps|
  {
    steps != [] ==> AnswersOwn(u, s, steps[0]) && Answering(u, Apply(u, s, steps[0]), steps[1..])
  }

  ghost predicate AnswersOwn(u: Setup, s: System, step: Step)
    requires Enabled(u, s, step)
  {
    step.HandlerAnswers? ==> AnswersFor(s.procs[step.p].seen.Keys, step.cluster, step.answer)
  }

  /** A handler reports on the events it was given; in isolated mode it does not throw. */
  ghost predicate Disciplined(u: Setup, s: System, step: Step)
    requires Enabled(u, s, step)
  {
    AnswersOwn(u, s, step) && (step.HandlerThrows? ==> !u.isolated)
  }

  ghost predicate GoodRun(u: Setup, s: System, steps: seq<Step>)
    requires Legal(u, s, steps)
    decreases |steps|
  {
    Timely(u, s) &&
    (steps != [] ==> Disciplined(u, s, steps[0]) && GoodRun(u, Apply(u, s, steps[0]), steps[1..]))
  }

  ghost predicate Exclusive(s: System)
  {
    forall p, q, e | Owns(s, p, e) && Owns(s, q, e) :: p == q
  }

  // ----- the invariant -----

  /** The row is in progress and carries the owner's own stamp. */
  ghost predicate Holds(s: System, x: Proc, e: Id)
  {
    && e in s.table && s.table[e].status == InProgress
    && s.table[e].lastAttempt == Some(Touch(x, e)) && Touch(x, e) <= s.now
  }

  ghost predicate Shape(x: Proc)
  {
    && x.etag.Keys == x.ready
    && x.unwritten <= x.ready
    && x.waiting + x.running <= x.unwritten
    && x.waiting !! x.running
    && x.hooks !! x.hooking && x.hooks !! x.last && x.hooking !! x.last
    && x.ready !! x.hooks + x.hooking + x.last
    && x.ready + x.hooks + x.hooking + x.last <= x.seen.Keys
    && x.outdated == {} && !x.violated
  }

  ghost predicate ProcOk(s: System, x: Proc)
  {
    Shape(x) && forall e <- Owned(x) :: Holds(s, x, e)
  }

  ghost predicate Inv(s: System)
  {
    && (forall p | p in s.procs && s.procs[p].live :: ProcOk(s, s.procs[p]))
    && Exclusive(s)
    && (forall p, q, e | Dangles(s, p, e) :: !Owns(s, q, e))
  }

  ghost predicate Dangles(s: System, p: ProcId, e: Id)
  {
    p in s.procs && s.procs[p].live && e in Dangling(s.procs[p])
  }

  /** A step of one processor that changes only rows it owns or nobody owns, and takes no new row.
      `free` are rows that nobody else owns. */
  lemma LocalStep(s: System, t: System, p: ProcId, x: Proc, free: set<Id>)
    requires Inv(s) && p in s.procs && s.procs[p].live
    requires t.procs == s.procs[p := x] && t.now == s.now && t.table.Keys == s.table.Keys
    requires forall q, e | e in free && Owns(s, q, e) :: q == p
    requires forall e | e in s.table && e !in Mine(s.procs[p]) + free :: t.table[e] == s.table[e]
    requires Owned(x) <= Owned(s.procs[p]) && Dangling(x) <= Mine(s.procs[p]) + free
    requires x.live ==> ProcOk(t, x)
    ensures Inv(t)
  {
    forall q | q in t.procs && t.procs[q].live ensures ProcOk(t, t.procs[q]) {
      if q != p {
        var y := s.procs[q];
        assert ProcOk(s, y);
        forall e | e in Owned(y) ensures Holds(t, y, e) {
          assert Holds(s, y, e);
          assert Owns(s, q, e);
          assert e in Owned(s.procs[p]) ==> Owns(s, p, e);
          assert e in Dangling(s.procs[p]) ==> Dangles(s, p, e);
        }
      }
    }
    forall a, b, e | Owns(t, a, e) && Owns(t, b, e) ensures a == b {
      assert Owns(s, a, e) && Owns(s, b, e);
    }
    LocalDangles(s, t, p, x, free);
  }

  /** What a processor may write without getting in anybody's way. */
  function Mine(x: Proc): set<Id>
  {
    Owned(x) + Dangling(x)
  }

  lemma LocalDangles(s: System, t: System, p: ProcId, x: Proc, free: set<Id>)
    requires Exclusive(s) && (forall a, b, e | Dangles(s, a, e) :: !Owns(s, b, e))
    requires p in s.procs && s.procs[p].live && t.procs == s.procs[p := x]
    requires forall q, e | e in free && Owns(s, q, e) :: q == p
    requires Owned(x) <= Owned(s.procs[p]) && Dangling(x) <= Mine(s.procs[p]) + free
    ensures forall a, b, e | Dangles(t, a, e) :: !Owns(t, b, e)
  {
    forall a, b, e | Dangles(t, a, e) ensures !Owns(t, b, e) {
      assert Owns(t, b, e) ==> Owns(s, b, e);
      assert Dangles(s, a, e) || (a == p && (Owns(s, p, e) || e in free));
    }
  }

  lemma CommitStep(u: Setup, s: System, p: ProcId, x: Proc, writes: map<Id, Update>, free: set<Id>)
    requires Inv(s) && p in s.procs && s.procs[p].live
    requires forall q, e | e in free && Owns(s, q, e) :: q == p
    requires writes.Keys <= Mine(s.procs[p]) + free
    requires x.reported.Keys * x.seen.Keys <= Mine(s.procs[p]) + free
    requires x.etag == s.procs[p].etag && x.claimedAt == s.procs[p].claimedAt
    requires Owned(x) <= Owned(s.procs[p])
    requires (x.hooks + x.hooking + x.last) !! writes.Keys
    requires x.live ==> Shape(x.(unwritten := x.unwritten - writes.Keys))
    ensures Inv(Commit(u, s, p, x, writes))
  {
    var t := Commit(u, s, p, x, writes);
    var y := t.procs[p];
    if y.live {
      forall e | e in Owned(y) ensures Holds(t, y, e) {
        assert Holds(s, s.procs[p], e);
        assert e !in writes;
      }
    }
    LocalStep(s, t, p, y, free);
  }

  lemma ClaimStep(u: Setup, s: System, step: Step)
    requires Inv(s) && step.Claim? && Enabled(u, s, step) && Careful(u, s, step)
    ensures Inv(Apply(u, s, step))
  {
    var t := Apply(u, s, step);
    var new_ := t.procs[step.p];
    forall q, e | Owns(s, q, e) ensures e !in new_.seen.Keys {
      assert ProcOk(s, s.procs[q]);
      assert Holds(s, s.procs[q], e);
      assert s.now - Touch(s.procs[q], e) < u.cfg.maxInProgress;
    }
    forall q | q in t.procs && t.procs[q].live ensures ProcOk(t, t.procs[q]) {
      if q != step.p {
        assert ProcOk(s, s.procs[q]);
        forall e | e in Owned(s.procs[q]) ensures Holds(t, s.procs[q], e) {
          assert Holds(s, s.procs[q], e) && Owns(s, q, e);
        }
      }
    }
    forall a, b, e | Owns(t, a, e) && Owns(t, b, e) ensures a == b {
      assert a != step.p ==> Owns(s, a, e);
      assert b != step.p ==> Owns(s, b, e);
      assert (a == step.p || b == step.p) ==> e in new_.seen.Keys || a == b;
    }
    ClaimDangles(u, s, step);
  }

  lemma ClaimDangles(u: Setup, s: System, step: Step)
    requires step.Claim? && Enabled(u, s, step) && Careful(u, s, step)
    requires forall a, b, e | Dangles(s, a, e) :: !Owns(s, b, e)
    ensures forall a, b, e | Dangles(Apply(u, s, step), a, e) :: !Owns(Apply(u, s, step), b, e)
  {
    var t := Apply(u, s, step);
    assert Owned(t.procs[step.p]) <= step.chunk && Dangling(t.procs[step.p]) == {};
    forall a, b, e | Dangles(t, a, e) ensures !Owns(t, b, e) {
      assert Dangles(s, a, e);
      assert b != step.p && Owns(t, b, e) ==> Owns(s, b, e);
    }
  }

  lemma KeepAliveStep(u: Setup, s: System, p: ProcId)
    requires Inv(s) && Enabled(u, s, KeepAlive(p))
    ensures Inv(Apply(u, s, KeepAlive(p)))
  {
    var t := Apply(u, s, KeepAlive(p));
    var x, y := s.procs[p], t.procs[p];
    assert ProcOk(s, x);
    forall e | e in x.unwritten ensures e in Valid(s.table, x) {
      assert e in Owned(x);
      assert Holds(s, x, e);
    }
    assert Watched(s.table, x) - Valid(s.table, x) == {};
    forall e | e in Owned(y) ensures Holds(t, y, e) {
      assert Holds(s, x, e);
    }
    LocalStep(s, t, p, y, {});
  }

  /** An answer reports on what was reported before, on the cluster, or on events never selected. */
  lemma AnswerStaysInCluster(m: StatusMap, selected: set<Id>, cluster: set<Id>, answer: Answer)
    requires AnswersFor(selected, cluster, answer)
    ensures forall id | id in SetEventStatus(m, cluster, answer) :: id in m || id in cluster || id !in selected
  {
    forall id | id in ReportedBefore(m, answer) && id !in m ensures id in cluster || id !in selected {
      var t :| t in answer.tuples && t.Pair? && t.id == id;
      var i :| 0 <= i < |answer.tuples| && answer.tuples[i] == t;
    }
  }

  /** Answers about the own cluster are harmless. */
  lemma OwnAnswersAreHarmless(u: Setup, s: System, step: Step)
    requires Inv(s) && Enabled(u, s, step) && step.HandlerAnswers? && AnswersOwn(u, s, step)
    ensures Harmless(u, s, step)
  {
    var p := step.p;
    var x := s.procs[p];
    assert ProcOk(s, x);
    AnswerStaysInCluster(if u.isolated then map[] else x.reported, x.seen.Keys, step.cluster, step.answer);
    forall q, e | e in Answered(u, x, step.cluster, step.answer) && Owns(s, q, e) ensures q == p {
      assert e in Mine(x);
      assert Owns(s, p, e) || Dangles(s, p, e);
    }
  }

  lemma AnswerStep(u: Setup, s: System, step: Step)
    requires Inv(s) && step.HandlerAnswers? && Enabled(u, s, step) && Harmless(u, s, step)
    ensures Inv(Apply(u, s, step))
  {
    var p := step.p;
    var x := s.procs[p];
    assert ProcOk(s, x);
    var m := AnswerMap(u, x, step.cluster, step.answer);
    var answered := Answered(u, x, step.cluster, step.answer);
    var y := x.(running := x.running - step.cluster);
    if u.isolated {
      CommitStep(u, s, p, y, Writes(m, x.seen.Keys), answered);
    } else {
      var t := Apply(u, s, step);
      assert forall e | e in Owned(y) :: Holds(s, x, e);
      LocalStep(s, t, p, t.procs[p], answered);
    }
  }

  /** Exactly the harmless answers keep the invariant. */
  lemma AnswerKeepsInvIff(u: Setup, s: System, step: Step)
    requires Inv(s) && step.HandlerAnswers? && Enabled(u, s, step)
    ensures Inv(Apply(u, s, step)) <==> Harmless(u, s, step)
  {
    if Harmless(u, s, step) { AnswerStep(u, s, step); } else { HarmfulAnswer(u, s, step); }
  }

  lemma HarmfulAnswer(u: Setup, s: System, step: Step)
    requires Inv(s) && step.HandlerAnswers? && Enabled(u, s, step) && !Harmless(u, s, step)
    ensures !Inv(Apply(u, s, step))
  {
    var x := s.procs[step.p];
    var answered := Answered(u, x, step.cluster, step.answer);
    if q, e :| e in answered && Owns(s, q, e) && q != step.p {
      HitsOtherOwner(u, s, step, q, e);
    } else {
      var e :| e in answered && e in x.waiting + (x.running - step.cluster) + x.hooks + x.hooking + x.last;
      HitsOwnRow(u, s, step, e);
    }
  }

  lemma HitsOtherOwner(u: Setup, s: System, step: Step, q: ProcId, e: Id)
    requires Inv(s) && step.HandlerAnswers? && Enabled(u, s, step)
    requires e in Answered(u, s.procs[step.p], step.cluster, step.answer) && Owns(s, q, e) && q != step.p
    ensures !Inv(Apply(u, s, step))
  {
    var p, t := step.p, Apply(u, s, step);
    assert ProcOk(s, s.procs[q]) && Holds(s, s.procs[q], e);
    assert Owns(t, q, e) && t.procs[q] == s.procs[q];
    if u.isolated {
      assert !Holds(t, t.procs[q], e);
    } else {
      assert !Owns(s, p, e);
      assert Dangles(t, p, e);
    }
  }

  lemma HitsOwnRow(u: Setup, s: System, step: Step, e: Id)
    requires Inv(s) && step.HandlerAnswers? && Enabled(u, s, step) && u.isolated
    requires e in Answered(u, s.procs[step.p], step.cluster, step.answer)
    requires var x := s.procs[step.p]; e in x.waiting + (x.running - step.cluster) + x.hooks + x.hooking + x.last
    ensures !Inv(Apply(u, s, step))
  {
    var p, t := step.p, Apply(u, s, step);
    var x, y := s.procs[p], t.procs[p];
    assert ProcOk(s, x) && Holds(s, x, e);
    assert y.live && !ProcOk(t, y) by {
      if e in x.waiting + x.running { assert !Shape(y); } else { assert e in Owned(y) && !Holds(t, y, e); }
    }
  }

  ghost predicate Quiet(u: Setup, step: Step)
  {
    || step.Prepare? || step.LeaveOut? || step.StartHandler? || step.SkipHandler? || step.StartHook? || step.Crash?
    || (step.HandlerThrows? && !u.isolated)
  }

  /** What a quiet step does to its processor. */
  lemma QuietProc(u: Setup, s: System, step: Step)
    requires Enabled(u, s, step) && Quiet(u, step) && Shape(s.procs[step.p])
    ensures var x, t := s.procs[step.p], Apply(u, s, step);
            && step.p in t.procs && t == s.(procs := s.procs[step.p := t.procs[step.p]])
            && var y := t.procs[step.p];
            && Shape(y) && Owned(y) == Owned(x) && y.etag == x.etag && y.claimedAt == x.claimedAt
            && y.reported.Keys * y.seen.Keys <= Mine(x)
  {
  }

  /** Steps that touch no row. */
  lemma QuietStep(u: Setup, s: System, step: Step)
    requires Inv(s) && Enabled(u, s, step) && Quiet(u, step) && s.procs[step.p].live
    ensures Inv(Apply(u, s, step))
  {
    var x := s.procs[step.p];
    assert ProcOk(s, x);
    QuietProc(u, s, step);
    QuietKeeps(s, Apply(u, s, step), step.p);
  }

  lemma QuietKeeps(s: System, t: System, p: ProcId)
    requires Inv(s) && p in s.procs && s.procs[p].live && p in t.procs && t == s.(procs := s.procs[p := t.procs[p]])
    requires var x, y := s.procs[p], t.procs[p];
             && Shape(y) && Owned(y) == Owned(x) && y.etag == x.etag && y.claimedAt == x.claimedAt
             && y.reported.Keys * y.seen.Keys <= Mine(x)
    ensures Inv(t)
  {
    var x := s.procs[p];
    assert ProcOk(s, x);
    assert forall e | e in Owned(x) :: Holds(s, x, e);
    LocalStep(s, t, p, t.procs[p], {});
  }

  /** A handler that throws in isolated mode gives its rows up, and will write them again. */
  lemma ThrowStep(u: Setup, s: System, step: Step)
    requires Inv(s) && Enabled(u, s, step) && step.HandlerThrows? && u.isolated
    ensures Inv(Apply(u, s, step))
  {
    var x := s.procs[step.p];
    assert ProcOk(s, x);
    CommitStep(u, s, step.p,
               x.(running := x.running - step.cluster, reported := AddErrors(x.reported, step.cluster)),
               ErrorFor(step.cluster), {});
  }

  lemma FinishStep(u: Setup, s: System, p: ProcId)
    requires Inv(s) && Enabled(u, s, Finish(p))
    ensures Inv(Apply(u, s, Finish(p)))
  {
    var x := s.procs[p];
    assert ProcOk(s, x);
    CommitStep(u, s, p, x.(live := false), Writes(FinalMap(x), x.seen.Keys), {});
  }

  lemma HookStep(u: Setup, s: System, p: ProcId, e: Id, ok: bool)
    requires Inv(s) && Enabled(u, s, EndHook(p, e, ok))
    ensures Inv(Apply(u, s, EndHook(p, e, ok)))
  {
    var x := s.procs[p];
    assert ProcOk(s, x);
    CommitStep(u, s, p, x.(hooking := x.hooking - {e}), if ok then ExceededFor({e}) else ErrorFor({e}), {});
  }

  lemma LastStep(u: Setup, s: System, p: ProcId)
    requires Inv(s) && Enabled(u, s, WriteLast(p))
    ensures Inv(Apply(u, s, WriteLast(p)))
  {
    var x := s.procs[p];
    assert ProcOk(s, x);
    CommitStep(u, s, p, x.(last := {}), ExceededFor(x.last), {});
  }

  /** Steps of no processor: time passes, or a row is inserted. */
  lemma OutsideStep(s: System, t: System)
    requires Inv(s) && t.procs == s.procs && t.now >= s.now
    requires forall e | e in s.table :: e in t.table && t.table[e] == s.table[e]
    ensures Inv(t)
  {
    forall q | q in t.procs && t.procs[q].live ensures ProcOk(t, t.procs[q]) {
      assert ProcOk(s, s.procs[q]);
      assert forall e | e in Owned(s.procs[q]) :: Holds(s, s.procs[q], e);
    }
    assert forall q, e | Owns(t, q, e) :: Owns(s, q, e);
    assert forall q, e | Dangles(t, q, e) :: Dangles(s, q, e);
  }

  lemma StepKeepsInv(u: Setup, s: System, step: Step)
    requires Inv(s) && Enabled(u, s, step) && Careful(u, s, step)
    ensures Inv(Apply(u, s, step))
  {
    match step
    case Claim(_, _, _, _) => ClaimStep(u, s, step);
    case HandlerAnswers(_, _, _) => AnswerStep(u, s, step);
    case EndHook(p, e, ok) => HookStep(u, s, p, e, ok);
    case WriteLast(p) => LastStep(u, s, p);
    case KeepAlive(p) => KeepAliveStep(u, s, p);
    case Finish(p) => FinishStep(u, s, p);
    case Tick(_) => OutsideStep(s, Apply(u, s, step));
    case Insert(_, _) => OutsideStep(s, Apply(u, s, step));
    case HandlerThrows(_, _) => if u.isolated { ThrowStep(u, s, step); } else { QuietStep(u, s, step); }
    case Crash(p) =>
      if s.procs[p].live { QuietStep(u, s, step); } else { assert s.procs[p := s.procs[p].(live := false)] == s.procs; }
    case _ => QuietStep(u, s, step);
  }

  lemma {:induction false} RunKeepsInv(u: Setup, s: System, steps: seq<Step>)
    requires Inv(s) && Legal(u, s, steps) && CarefulRun(u, s, steps)
    ensures Inv(Run(u, s, steps))
    decreases |steps|
  {
    if steps != [] {
      StepKeepsInv(u, s, steps[0]);
      RunKeepsInv(u, Apply(u, s, steps[0]), steps[1..]);
    }
  }

  /** The theorem: in every careful run no event has two live owners, each owner's row is in progress
      under the owner's own stamp, and no keep-alive ever sees a foreign one.  Handlers may throw. */
  lemma OneOwnerInCarefulRuns(u: Setup, s: System, steps: seq<Step>)
    requires Initial(s) && Legal(u, s, steps) && CarefulRun(u, s, steps)
    ensures Exclusive(Run(u, s, steps))
    ensures forall p, e | Owns(Run(u, s, steps), p, e) ::
              Holds(Run(u, s, steps), Run(u, s, steps).procs[p], e)
    ensures forall p | p in Run(u, s, steps).procs && Run(u, s, steps).procs[p].live ::
              !Run(u, s, steps).procs[p].violated
  {
    RunKeepsInv(u, s, steps);
    var t := Run(u, s, steps);
    forall p, e | Owns(t, p, e) ensures Holds(t, t.procs[p], e) {
      assert ProcOk(t, t.procs[p]);
    }
    forall p | p in t.procs && t.procs[p].live ensures !t.procs[p].violated {
      assert ProcOk(t, t.procs[p]);
    }
  }

  /** Nothing is ever going to be written twice. */
  ghost predicate Tight(s: System)
  {
    forall p | p in s.procs && s.procs[p].live :: TightProc(s.procs[p])
  }

  ghost predicate TightProc(x: Proc)
  {
    x.reported.Keys * x.seen.Keys <= x.unwritten && x.reported.Keys !! x.waiting + x.running
  }

  lemma StepKeepsTight(u: Setup, s: System, step: Step)
    requires Inv(s) && Tight(s) && Enabled(u, s, step) && Disciplined(u, s, step)
    ensures Tight(Apply(u, s, step))
  {
    var t := Apply(u, s, step);
    forall p | p in t.procs && t.procs[p].live ensures TightProc(t.procs[p]) {
      if p in s.procs {
        assert ProcOk(s, s.procs[p]) && TightProc(s.procs[p]);
        TightStep(u, s, step, p);
      }
    }
  }

  lemma TightStep(u: Setup, s: System, step: Step, p: ProcId)
    requires Enabled(u, s, step) && Disciplined(u, s, step) && p in s.procs && p in Apply(u, s, step).procs
    requires Apply(u, s, step).procs[p].live && Shape(s.procs[p]) && TightProc(s.procs[p])
    ensures TightProc(Apply(u, s, step).procs[p])
  {
    if step.HandlerAnswers? {
      var x := s.procs[step.p];
      AnswerStaysInCluster(if u.isolated then map[] else x.reported, x.seen.Keys, step.cluster, step.answer);
    }
  }

  lemma DisciplinedIsCareful(u: Setup, s: System, step: Step)
    requires Inv(s) && Tight(s) && Timely(u, s) && Enabled(u, s, step) && Disciplined(u, s, step)
    ensures Careful(u, s, step)
  {
    if step.HandlerAnswers? {
      OwnAnswersAreHarmless(u, s, step);
    }
    forall q | q in s.procs && s.procs[q].live ensures Dangling(s.procs[q]) == {} { assert TightProc(s.procs[q]); }
  }

  /** If no handler throws in isolated mode, no row is ever written twice, so that a run in which the
      owners are on time is careful. */
  lemma {:induction false} GoodIsCareful(u: Setup, s: System, steps: seq<Step>)
    requires Inv(s) && Tight(s) && Legal(u, s, steps) && GoodRun(u, s, steps)
    ensures CarefulRun(u, s, steps)
    decreases |steps|
  {
    if steps != [] {
      StepKeepsTight(u, s, steps[0]);
      DisciplinedIsCareful(u, s, steps[0]);
      StepKeepsInv(u, s, steps[0]);
      GoodIsCareful(u, Apply(u, s, steps[0]), steps[1..]);
    }
  }

  /** Every live owner renews its claim in time, and handlers answer: then no event ever has two live
      owners. */
  lemma NoTwoLiveOwners(u: Setup, s: System, steps: seq<Step>)
    requires Initial(s) && Legal(u, s, steps) && GoodRun(u, s, steps)
    ensures Exclusive(Run(u, s, steps))
    ensures forall p, e | Owns(Run(u, s, steps), p, e) ::
              Holds(Run(u, s, steps), Run(u, s, steps).procs[p], e)
    ensures forall p | p in Run(u, s, steps).procs && Run(u, s, steps).procs[p].live ::
              !Run(u, s, steps).procs[p].violated
  {
    GoodIsCareful(u, s, steps);
    OneOwnerInCarefulRuns(u, s, steps);
  }

  /** One processor at a time, as the lock provides: a claim finds no live processor. */
  ghost predicate OneAtATime(u: Setup, s: System, steps: seq<Step>)
    requires Legal(u, s, steps)
    decreases |steps|
  {
    steps != [] ==>
      && AnswersOwn(u, s, steps[0])
      && (steps[0].Claim? ==> forall q | q in s.procs :: !s.procs[q].live)
      && OneAtATime(u, Apply(u, s, steps[0]), steps[1..])
  }

  /** Then neither timing nor throwing handlers matter. */
  lemma {:induction false} OneAtATimeIsCareful(u: Setup, s: System, steps: seq<Step>)
    requires Inv(s) && Legal(u, s, steps) && OneAtATime(u, s, steps)
    ensures CarefulRun(u, s, steps)
    decreases |steps|
  {
    if steps != [] {
      if steps[0].HandlerAnswers? { OwnAnswersAreHarmless(u, s, steps[0]); }
      StepKeepsInv(u, s, steps[0]);
      OneAtATimeIsCareful(u, Apply(u, s, steps[0]), steps[1..]);
    }
  }

  /** The guard behind it: an owned row can be claimed again exactly when its owner's stamp is
      `maxInProgress` old (and its start time, if any, has come). */
  lemma OwnedRowClaimableIff(u: Setup, s: System, p: ProcId, e: Id, startTime: int, base: int)
    requires Inv(s) && Owns(s, p, e)
    ensures e in s.table
    ensures Selectable(s.table[e], startTime, base, u.cfg) <==>
      && base - Touch(s.procs[p], e) >= u.cfg.maxInProgress
      && (s.table[e].startAfter.None? || s.table[e].startAfter.value <= base + u.cfg.lookAhead)
  {
    assert ProcOk(s, s.procs[p]);
    assert Holds(s, s.procs[p], e);
  }

  // ----- the assumptions are needed -----

  const SETUP: Setup := Setup(Config(3, 100, 0, 0, 0), true)

  function OneOpenRow(): System
  {
    System(map[0 := Row(Open, 0, None, None)], map[], 10)
  }

  /** An owner that is late: a second processor takes the row over while the first one lives. */
  lemma LateOwnerIsReplaced()
    ensures var steps := [Claim(0, 10, 10, {0}), Tick(110), Claim(1, 110, 110, {0})];
            && Legal(SETUP, OneOpenRow(), steps)
            && Owns(Run(SETUP, OneOpenRow(), steps), 0, 0)
            && Owns(Run(SETUP, OneOpenRow(), steps), 1, 0)
  {
    var steps := [Claim(0, 10, 10, {0}), Tick(110), Claim(1, 110, 110, {0})];
    var s0 := OneOpenRow();
    var s1 := Apply(SETUP, s0, steps[0]);
    assert s1.table[0] == Row(InProgress, 1, Some(10), None);
    assert 0 in s1.procs[0].unwritten;
    var s2 := Apply(SETUP, s1, steps[1]);
    var s3 := Apply(SETUP, s2, steps[2]);
    assert 0 in s3.procs[1].unwritten && s3.procs[0] == s1.procs[0];
    RunThree(SETUP, s0, steps[0], steps[1], steps[2]);
  }

  lemma RunThree(u: Setup, s: System, a: Step, b: Step, c: Step)
    requires Enabled(u, s, a) && Enabled(u, Apply(u, s, a), b) && Enabled(u, Apply(u, Apply(u, s, a), b), c)
    ensures Legal(u, s, [a, b, c])
    ensures Run(u, s, [a, b, c]) == Apply(u, Apply(u, Apply(u, s, a), b), c)
  {
    assert [a, b, c][1..] == [b, c] && [b, c][1..] == [c] && [c][1..] == [];
    var s1 := Apply(u, s, a);
    var s2 := Apply(u, s1, b);
    var s3 := Apply(u, s2, c);
    assert Legal(u, s3, []) && Run(u, s3, []) == s3;
    assert Legal(u, s2, [c]) && Run(u, s2, [c]) == s3;
    assert Legal(u, s1, [b, c]) && Run(u, s1, [b, c]) == s3;
  }

  lemma {:induction false} RunConcat(u: Setup, s: System, a: seq<Step>, b: seq<Step>)
    requires Legal(u, s, a) && Legal(u, Run(u, s, a), b)
    ensures Legal(u, s, a + b) && Run(u, s, a + b) == Run(u, Run(u, s, a), b)
    decreases |a|
  {
    if a == [] {
      assert a + b == b;
    } else {
      RunConcat(u, Apply(u, s, a[0]), a[1..], b);
      assert (a + b)[1..] == a[1..] + b;
    }
  }

  /** What the throwing handler leaves: the row is Error and free, and the processor, still
      live, is going to write Error once more. */
  ghost predicate Thrown(s: System)
  {
    && s.table == map[0 := Row(Error, 1, Some(10), Some(10))] && s.now == 10
    && s.procs.Keys == {0}
    && var x := s.procs[0];
    && x.live && x.waiting == x.running == x.hooks == x.hooking == x.last == {}
    && x.unwritten == {} && x.reported == map[0 := ERROR_REPORT] && 0 in x.seen
  }

  const FIRST: seq<Step> := [Claim(0, 10, 10, {0}), StartHandler(0, {0}), HandlerThrows(0, {0})]
  const SECOND: seq<Step> := [Claim(1, 10, 10, {0}), Finish(0), Claim(2, 10, 10, {0})]

  /** The row is claimed and its handler runs. */
  ghost predicate Started(s: System)
  {
    && s.table == map[0 := Row(InProgress, 1, Some(10), None)] && s.now == 10
    && s.procs.Keys == {0}
    && var x := s.procs[0];
    && x.live && x.running == {0} && x.waiting == x.hooks == x.hooking == x.last == {}
    && x.unwritten == {0} && x.reported == map[] && 0 in x.seen
  }

  lemma ClaimAndStart()
    ensures Enabled(SETUP, OneOpenRow(), FIRST[0])
    ensures Enabled(SETUP, Apply(SETUP, OneOpenRow(), FIRST[0]), FIRST[1])
    ensures Started(Apply(SETUP, Apply(SETUP, OneOpenRow(), FIRST[0]), FIRST[1]))
  {
    var s0 := OneOpenRow();
    var s1 := Apply(SETUP, s0, FIRST[0]);
    assert OfKind(s0.table, {0}, Ready, 10, SETUP.cfg) == {0};
    assert s1.table[0] == Row(InProgress, 1, Some(10), None);
    var s2 := Apply(SETUP, s1, FIRST[1]);
    assert s2.procs[0].running == {0} && s2.procs[0].waiting == {};
  }

  lemma ThrowWritesError(s: System)
    requires Started(s)
    ensures Enabled(SETUP, s, FIRST[2]) && Thrown(Apply(SETUP, s, FIRST[2]))
  {
  }

  lemma ThrowLeavesThrown()
    ensures Legal(SETUP, OneOpenRow(), FIRST) && Thrown(Run(SETUP, OneOpenRow(), FIRST))
  {
    var s0 := OneOpenRow();
    ClaimAndStart();
    ThrowWritesError(Apply(SETUP, Apply(SETUP, s0, FIRST[0]), FIRST[1]));
    RunThree(SETUP, s0, FIRST[0], FIRST[1], FIRST[2]);
    assert [FIRST[0], FIRST[1], FIRST[2]] == FIRST;
  }

  lemma SecondWriteFreesTheRow(s: System)
    requires Thrown(s)
    ensures Legal(SETUP, s, SECOND)
    ensures Owns(Run(SETUP, s, SECOND), 1, 0) && Owns(Run(SETUP, s, SECOND), 2, 0)
  {
    TakeThrown(s);
    var s4 := Apply(SETUP, s, SECOND[0]);
    WriteTwice(s4);
    var s5 := Apply(SETUP, s4, SECOND[1]);
    var s6 := Apply(SETUP, s5, SECOND[2]);
    assert 0 in OfKind(s5.table, {0}, Ready, 10, SETUP.cfg);
    assert 0 in s6.procs[2].unwritten;
    RunThree(SETUP, s, SECOND[0], SECOND[1], SECOND[2]);
    assert [SECOND[0], SECOND[1], SECOND[2]] == SECOND;
  }

  /** The next processor owns the row that the first is going to write again. */
  ghost predicate TwiceWritten(s: System)
  {
    && s.table == map[0 := Row(InProgress, 2, Some(10), Some(10))] && s.now == 10
    && s.procs.Keys == {0, 1} && Owns(s, 1, 0)
    && var x := s.procs[0];
    && x.live && x.waiting == x.running == x.hooks == x.hooking == x.last == {}
    && x.unwritten == {} && x.reported == map[0 := ERROR_REPORT] && 0 in x.seen
  }

  lemma TakeThrown(s: System)
    requires Thrown(s)
    ensures Enabled(SETUP, s, SECOND[0]) && TwiceWritten(Apply(SETUP, s, SECOND[0]))
  {
    assert OfKind(s.table, {0}, Ready, 10, SETUP.cfg) == {0};
  }

  lemma WriteTwice(s: System)
    requires TwiceWritten(s)
    ensures Enabled(SETUP, s, SECOND[1])
    ensures var t := Apply(SETUP, s, SECOND[1]);
            t.table == map[0 := Row(Error, 2, Some(10), Some(10))] && t.now == 10 && t.procs.Keys == {0, 1} && Owns(t, 1, 0)
  {
    var x := s.procs[0];
    assert FinalMap(x) == map[0 := ERROR_REPORT];
    assert Writes(FinalMap(x), x.seen.Keys) == map[0 := Update(Error, None)];
  }

  /** A handler that throws in isolated mode has its Error written twice.  The second write hits
      the next owner's row, and a third processor can take it while that owner lives, although
      no time passes and every owner is on time. */
  lemma ThrowingHandlerBreaksIt()
    ensures Legal(SETUP, OneOpenRow(), FIRST + SECOND)
    ensures !Exclusive(Run(SETUP, OneOpenRow(), FIRST + SECOND))
  {
    ThrowLeavesThrown();
    SecondWriteFreesTheRow(Run(SETUP, OneOpenRow(), FIRST));
    RunConcat(SETUP, OneOpenRow(), FIRST, SECOND);
  }

  // ----- an answer about another entry of the chunk -----

  function TwoOpenRows(): System
  {
    System(map[0 := Row(Open, 0, None, None), 1 := Row(Open, 0, None, None)], map[], 10)
  }

  const ABOUT_ONE: Answer := Tuples([Pair(1, ERROR_REPORT)])
  const EARLY: seq<Step> := [Claim(0, 10, 10, {0, 1}), StartHandler(0, {0}), HandlerAnswers(0, {0}, ABOUT_ONE)]
  const LATE: seq<Step> := [Claim(1, 10, 10, {1}), StartHandler(0, {1}), HandlerAnswers(0, {1}, ABOUT_ONE)]

  lemma OneErrorReported(cluster: set<Id>)
    ensures SetEventStatus(map[], cluster, ABOUT_ONE) == map[1 := ERROR_REPORT]
  {
    assert ABOUT_ONE.tuples[1..] == [];
    var m: StatusMap := map[];
    assert AddReports(m, ABOUT_ONE.tuples) == AddReports(m[1 := ERROR_REPORT], []);
  }

  /** Processor 0 has claimed both rows. */
  ghost predicate HasBoth(s: System)
  {
    && s.table == map[0 := Row(InProgress, 1, Some(10), None), 1 := Row(InProgress, 1, Some(10), None)] && s.now == 10
    && s.procs.Keys == {0} && JustClaimed(s.procs[0])
  }

  ghost predicate JustClaimed(x: Proc)
  {
    && x.live && x.ready == x.unwritten == x.waiting == x.seen.Keys == {0, 1} && x.reported == map[]
    && x.running == x.hooks == x.hooking == x.last == x.started == {} && x.outdated == {} && !x.violated
    && x.etag == map[0 := 10, 1 := 10]
  }

  lemma ClaimBoth(s: System)
    requires s == TwoOpenRows()
    ensures Enabled(SETUP, s, EARLY[0]) && HasBoth(Apply(SETUP, s, EARLY[0]))
  {
    BothAreReady(s.table);
    var t := Apply(SETUP, s, EARLY[0]);
    assert t.procs == map[0 := NewProc(s.table, {0, 1}, 10, 10, SETUP.cfg)];
    assert t.table == ClaimRows(s.table, {0, 1}, 10);
  }

  lemma BothAreReady(table: Table)
    requires table == TwoOpenRows().table
    ensures JustClaimed(NewProc(table, {0, 1}, 10, 10, SETUP.cfg))
  {
    assert OfKind(table, {0, 1}, Ready, 10, SETUP.cfg) == {0, 1};
    assert OfKind(table, {0, 1}, ExceededTries, 10, SETUP.cfg) == {};
    assert OfKind(table, {0, 1}, ExceededTriesExceeded, 10, SETUP.cfg) == {};
  }

  /** Row 1 is free, and processor 0 is going to handle it. */
  ghost predicate GivenUp(s: System)
  {
    && s.table.Keys == {0, 1} && s.table[1] == Row(Error, 1, Some(10), Some(10)) && s.now == 10
    && s.procs.Keys == {0}
    && var x := s.procs[0];
    && x.live && x.waiting == {1} && x.running == {} && x.seen.Keys == {0, 1} && x.reported == map[] && !x.violated
  }

  lemma AnswerTooEarly(s: System)
    requires HasBoth(s)
    ensures Enabled(SETUP, s, EARLY[1]) && Enabled(SETUP, Apply(SETUP, s, EARLY[1]), EARLY[2])
    ensures GivenUp(Apply(SETUP, Apply(SETUP, s, EARLY[1]), EARLY[2]))
  {
    OneErrorReported({0});
    var t := Apply(SETUP, s, EARLY[1]);
    var m := AnswerMap(SETUP, t.procs[0], {0}, ABOUT_ONE);
    assert Writes(m, t.procs[0].seen.Keys) == map[1 := Update(Error, None)];
  }

  /** Processor 1 owns row 1, but the row is free. */
  ghost predicate Robbed(s: System)
  {
    && 1 in s.table && s.table[1] == Row(Error, 2, Some(10), Some(10)) && s.now == 10
    && s.procs.Keys == {0, 1} && Owns(s, 1, 1)
  }

  /** Processor 1 has claimed row 1. */
  ghost predicate TakenUp(s: System)
  {
    && 1 in s.table && s.table[1] == Row(InProgress, 2, Some(10), Some(10)) && s.now == 10
    && s.procs.Keys == {0, 1} && Owns(s, 1, 1)
    && var x := s.procs[0];
    && x.live && x.waiting == {1} && x.running == {} && x.seen.Keys == {0, 1} && x.reported == map[] && !x.violated
  }

  lemma TakeUp(s: System)
    requires GivenUp(s)
    ensures Enabled(SETUP, s, LATE[0]) && TakenUp(Apply(SETUP, s, LATE[0]))
  {
    assert OfKind(s.table, {1}, Ready, 10, SETUP.cfg) == {1};
  }

  lemma AnswerAgain(s: System)
    requires TakenUp(s)
    ensures Enabled(SETUP, s, LATE[1]) && Enabled(SETUP, Apply(SETUP, s, LATE[1]), LATE[2])
    ensures Robbed(Apply(SETUP, Apply(SETUP, s, LATE[1]), LATE[2]))
  {
    OneErrorReported({1});
    var t := Apply(SETUP, s, LATE[1]);
    assert t.procs[0].running == {1};
    var m := AnswerMap(SETUP, t.procs[0], {1}, ABOUT_ONE);
    assert Writes(m, t.procs[0].seen.Keys) == map[1 := Update(Error, None)];
  }

  /** A handler that reports on another entry of its chunk: that row is written and free before its own
      handler is called, whose answer then hits the next owner's row. Without any delay, throw or
      failed transaction two live processors own it. */
  lemma AnswerAboutOtherBreaksIt()
    ensures Legal(SETUP, TwoOpenRows(), EARLY + LATE + [Claim(2, 10, 10, {1})])
    ensures !Exclusive(Run(SETUP, TwoOpenRows(), EARLY + LATE + [Claim(2, 10, 10, {1})]))
  {
    var s := TwoOpenRows();
    ClaimBoth(s);
    AnswerTooEarly(Apply(SETUP, s, EARLY[0]));
    RunThree(SETUP, s, EARLY[0], EARLY[1], EARLY[2]);
    assert [EARLY[0], EARLY[1], EARLY[2]] == EARLY;
    var t := Run(SETUP, s, EARLY);
    TakeUp(t);
    AnswerAgain(Apply(SETUP, t, LATE[0]));
    RunThree(SETUP, t, LATE[0], LATE[1], LATE[2]);
    assert [LATE[0], LATE[1], LATE[2]] == LATE;
    RunConcat(SETUP, s, EARLY, LATE);
    ClaimRobbed(Run(SETUP, t, LATE));
    RunConcat(SETUP, s, EARLY + LATE, [Claim(2, 10, 10, {1})]);
  }

  lemma ClaimRobbed(s: System)
    requires Robbed(s)
    ensures Legal(SETUP, s, [Claim(2, 10, 10, {1})]) && !Exclusive(Run(SETUP, s, [Claim(2, 10, 10, {1})]))
  {
    var claim := Claim(2, 10, 10, {1});
    var t := Apply(SETUP, s, claim);
    assert OfKind(s.table, {1}, Ready, 10, SETUP.cfg) == {1};
    assert Owns(t, 2, 1) && Owns(t, 1, 1);
    assert [claim][1..] == [] && Legal(SETUP, t, []) && Run(SETUP, t, []) == t;
  }
}
