/** What the final status write of an iteration does to rows about which nothing useful was reported:
    it sets rows to Done whose handler was never called, it leaves rows behind whose status is not
    allowed, and it writes rows again that were given up. */
module FinalWrite {
  import opened EventTable
  import opened StatusReports
  import opened ReportSequences
  import opened RowProtocol
  import opened ExclusiveOwnership

  // ----- bookkeeping about one row that holds in every run -----

  predicate Names(answer: Answer, e: Id)
  {
    answer.Tuples? && exists i | 0 <= i < |answer.tuples| :: answer.tuples[i].Pair? && answer.tuples[i].id == e
  }

  /** No handler of `p` reports on the row, except its own. Other rows, and other processors, may be
      reported on by anybody. */
  predicate Spares(step: Step, p: ProcId, e: Id)
  {
    step.HandlerAnswers? && step.p == p && Names(step.answer, e) ==> e in step.cluster
  }

  predicate AllSpare(steps: seq<Step>, p: ProcId, e: Id)
  {
    forall i | 0 <= i < |steps| :: Spares(steps[i], p, e)
  }

  predicate KeptRow(x: Proc, e: Id)
  {
    && (e in x.waiting + x.running ==> e in x.unwritten && e in x.ready && e !in x.reported)
    && (e in x.waiting ==> e !in x.running && e !in x.started)
    && (e in x.ready ==> e in x.seen && e !in x.hooks + x.hooking + x.last)
  }

  ghost predicate Kept(s: System, p: ProcId, e: Id)
  {
    p in s.procs ==> KeptRow(s.procs[p], e) && (e in s.procs[p].seen ==> e in s.table)
  }

  /** An answer leaves the reports on rows alone that it neither names nor is about. */
  lemma OthersKeepReports(m: StatusMap, cluster: set<Id>, answer: Answer, e: Id)
    requires e !in cluster && !Names(answer, e)
    ensures Lookup(SetEventStatus(m, cluster, answer), e) == Lookup(m, e)
  {
    if answer.Tuples? { OtherTuplesKeep(m, answer.tuples, e); }
  }

  lemma {:induction false} OtherTuplesKeep(m: StatusMap, tuples: seq<Tuple>, e: Id)
    requires forall i | 0 <= i < |tuples| :: !(tuples[i].Pair? && tuples[i].id == e)
    ensures Lookup(AddReports(m, tuples).0, e) == Lookup(m, e)
    decreases |tuples|
  {
    if tuples != [] && tuples[0].Pair? {
      var c := Combine(Lookup(m, tuples[0].id), tuples[0].report);
      assert forall i | 0 <= i < |tuples[1..]| :: tuples[1..][i] == tuples[i + 1];
      if c.Some? { OtherTuplesKeep(m[tuples[0].id := c.value], tuples[1..], e); }
    }
  }

  lemma StepKeepsRow(u: Setup, s: System, step: Step, p: ProcId, e: Id)
    requires Enabled(u, s, step) && p in s.procs && KeptRow(s.procs[p], e) && Spares(step, p, e)
    ensures p in Apply(u, s, step).procs && KeptRow(Apply(u, s, step).procs[p], e)
    ensures Apply(u, s, step).procs[p].seen == s.procs[p].seen
  {
    if step.HandlerAnswers? && step.p == p && e !in step.cluster {
      OthersKeepReports(if u.isolated then map[] else s.procs[p].reported, step.cluster, step.answer, e);
    }
  }

  lemma StepKeeps(u: Setup, s: System, step: Step, p: ProcId, e: Id)
    requires Kept(s, p, e) && Enabled(u, s, step) && Spares(step, p, e)
    ensures Kept(Apply(u, s, step), p, e)
  {
    if p in s.procs { StepKeepsRow(u, s, step, p, e); }
  }

  lemma {:induction false} RunKeeps(u: Setup, s: System, steps: seq<Step>, p: ProcId, e: Id)
    requires Kept(s, p, e) && Legal(u, s, steps) && AllSpare(steps, p, e)
    ensures Kept(Run(u, s, steps), p, e)
    decreases |steps|
  {
    if steps != [] {
      StepKeeps(u, s, steps[0], p, e);
      assert AllSpare(steps[1..], p, e) by { assert forall i | 0 <= i < |steps| - 1 :: steps[1..][i] == steps[i + 1]; }
      RunKeeps(u, Apply(u, s, steps[0]), steps[1..], p, e);
    }
  }

  /** The processor is done with the row, but for its final write. */
  ghost predicate Parked(x: Proc, e: Id)
  {
    e !in x.waiting + x.running + x.hooks + x.hooking + x.last
  }

  /** From `x` to `y` nothing about the row has changed, except that it may have been found outdated,
      and not even that after the alarm. */
  ghost predicate SameFor(x: Proc, y: Proc, e: Id)
  {
    && Lookup(y.reported, e) == Lookup(x.reported, e)
    && (e in y.unwritten <==> e in x.unwritten) && (e in y.started <==> e in x.started)
    && y.seen == x.seen && (e in x.outdated ==> e in y.outdated)
    && (x.violated ==> y.violated && y.outdated == x.outdated)
  }

  lemma ParkedStep(u: Setup, s: System, step: Step, p: ProcId, e: Id)
    requires Enabled(u, s, step) && p in s.procs && Parked(s.procs[p], e) && step != Finish(p) && Spares(step, p, e)
    ensures var t := Apply(u, s, step); p in t.procs && Parked(t.procs[p], e) && SameFor(s.procs[p], t.procs[p], e)
  {
    if step.HandlerAnswers? && step.p == p {
      OthersKeepReports(if u.isolated then map[] else s.procs[p].reported, step.cluster, step.answer, e);
    }
  }

  /** Steps between, in which `p` does not finish. */
  ghost predicate Between(steps: seq<Step>, p: ProcId, e: Id)
  {
    AllSpare(steps, p, e) && forall i | 0 <= i < |steps| :: steps[i] != Finish(p)
  }

  lemma {:induction false} ParkedRun(u: Setup, s: System, steps: seq<Step>, p: ProcId, e: Id)
    requires Legal(u, s, steps) && p in s.procs && Parked(s.procs[p], e) && Between(steps, p, e)
    ensures var t := Run(u, s, steps); p in t.procs && Parked(t.procs[p], e) && SameFor(s.procs[p], t.procs[p], e)
    decreases |steps|
  {
    if steps != [] {
      ParkedStep(u, s, steps[0], p, e);
      assert Between(steps[1..], p, e) by { assert forall i | 0 <= i < |steps| - 1 :: steps[1..][i] == steps[i + 1]; }
      ParkedRun(u, Apply(u, s, steps[0]), steps[1..], p, e);
    }
  }

  /** What the final write does to a row. */
  lemma FinishRow(u: Setup, s: System, p: ProcId, e: Id)
    requires Enabled(u, s, Finish(p)) && e in s.table
    ensures var x := s.procs[p];
            var writes := Writes(FinalMap(x), x.seen.Keys);
            && e in Apply(u, s, Finish(p)).table
            && (e in writes ==> Apply(u, s, Finish(p)).table[e].status == writes[e].status)
            && (e !in writes ==> Apply(u, s, Finish(p)).table[e] == s.table[e])
  {
  }

  // ----- Done without a handler call -----

  /** Exactly when the final write sets a row to Done: it was reported so, or nothing was reported and
      the row is still to be written and not outdated. */
  lemma FinalDoneIff(x: Proc, e: Id)
    requires e in x.seen
    ensures (e in Writes(FinalMap(x), x.seen.Keys) && Writes(FinalMap(x), x.seen.Keys)[e].status == Done)
       <==> if e in x.reported then UpdateOf(x.reported[e]).Some? && UpdateOf(x.reported[e]).value.status == Done
            else e in x.unwritten && e !in x.outdated
  {
    if e in FinalMap(x) && e !in x.reported { assert FinalMap(x)[e] == DONE_REPORT; }
  }

  /** Once a row is skipped because of the alarm, its handler is never called, and whatever happens
      until then, the final write sets it to Done if and only if it had not been found outdated
      itself. */
  lemma SkippedIsDoneIff(u: Setup, s: System, before: seq<Step>, p: ProcId, cluster: set<Id>, between: seq<Step>, e: Id)
    requires Initial(s) && Legal(u, s, before) && AllSpare(before, p, e) && Between(between, p, e) && e in cluster
    requires Enabled(u, Run(u, s, before), SkipHandler(p, cluster))
    requires Legal(u, Apply(u, Run(u, s, before), SkipHandler(p, cluster)), between)
    requires Enabled(u, Run(u, Apply(u, Run(u, s, before), SkipHandler(p, cluster)), between), Finish(p))
    ensures var t := Run(u, s, before);
            var v := Run(u, Apply(u, t, SkipHandler(p, cluster)), between);
            var f := Apply(u, v, Finish(p));
            && e in v.table && e in f.table && e !in f.procs[p].started
            && (if e in t.procs[p].outdated then f.table[e] == v.table[e] else f.table[e].status == Done)
  {
    RunKeeps(u, s, before, p, e);
    var t := Run(u, s, before);
    var skipped := Apply(u, t, SkipHandler(p, cluster));
    StepKeeps(u, t, SkipHandler(p, cluster), p, e);
    RunKeeps(u, skipped, between, p, e);
    ParkedRun(u, skipped, between, p, e);
    var v := Run(u, skipped, between);
    assert KeptRow(t.procs[p], e) && e in v.procs[p].seen;
    FinalDoneIff(v.procs[p], e);
    FinishRow(u, v, p, e);
  }

  const TAKEN_OVER: seq<Step> := [Claim(0, 10, 10, {0, 1}), Tick(110), Claim(1, 110, 110, {0})]
  const SKIPPED: seq<Step> := [KeepAlive(0), SkipHandler(0, {0, 1}), Finish(0)]

  lemma LoseOne(s: System)
    requires HasBoth(s)
    ensures Enabled(SETUP, s, TAKEN_OVER[1]) && Enabled(SETUP, Apply(SETUP, s, TAKEN_OVER[1]), TAKEN_OVER[2])
    ensures HalfTaken(Apply(SETUP, Apply(SETUP, s, TAKEN_OVER[1]), TAKEN_OVER[2]))
  {
    var t := Apply(SETUP, s, TAKEN_OVER[1]);
    assert OfKind(t.table, {0}, Ready, 110, SETUP.cfg) == {0};
  }

  lemma TakeOverOne()
    ensures Legal(SETUP, TwoOpenRows(), TAKEN_OVER)
    ensures HalfTaken(Run(SETUP, TwoOpenRows(), TAKEN_OVER))
  {
    var s := TwoOpenRows();
    ClaimBoth(s);
    LoseOne(Apply(SETUP, s, TAKEN_OVER[0]));
    RunThree(SETUP, s, TAKEN_OVER[0], TAKEN_OVER[1], TAKEN_OVER[2]);
    assert [TAKEN_OVER[0], TAKEN_OVER[1], TAKEN_OVER[2]] == TAKEN_OVER;
  }

  /** Processor 0 has claimed both rows and lost one of them. */
  ghost predicate HalfTaken(s: System)
  {
    && s.table.Keys == {0, 1} && s.now == 110
    && s.table[0] == Row(InProgress, 2, Some(110), None) && s.table[1] == Row(InProgress, 1, Some(10), None)
    && 0 in s.procs && JustClaimed(s.procs[0])
  }

  lemma AlarmSkipsBoth(s: System)
    requires HalfTaken(s)
    ensures Legal(SETUP, s, SKIPPED)
    ensures var t := Run(SETUP, s, SKIPPED);
            1 in t.table && t.table[1].status == Done && 0 in t.procs && t.procs[0].started == {}
  {
    var s1 := Apply(SETUP, s, SKIPPED[0]);
    assert Watched(s.table, s.procs[0]) == {0, 1} && Valid(s.table, s.procs[0]) == {1};
    assert 0 in s1.procs[0].outdated && s1.procs[0].violated && 1 !in s1.procs[0].outdated;
    var s2 := Apply(SETUP, s1, SKIPPED[1]);
    assert s2.procs[0].waiting == {};
    var s3 := Apply(SETUP, s2, SKIPPED[2]);
    FinalDoneIff(s2.procs[0], 1);
    FinishRow(SETUP, s2, 0, 1);
    RunThree(SETUP, s, SKIPPED[0], SKIPPED[1], SKIPPED[2]);
  }

  /** It does happen: one of two rows is taken over, the keep-alive raises the alarm, and the other row
      is written as Done although no handler was called. */
  lemma SkippedRowIsDone()
    ensures Legal(SETUP, TwoOpenRows(), TAKEN_OVER + SKIPPED)
    ensures var t := Run(SETUP, TwoOpenRows(), TAKEN_OVER + SKIPPED);
            1 in t.table && t.table[1].status == Done && 0 in t.procs && t.procs[0].started == {}
  {
    TakeOverOne();
    AlarmSkipsBoth(Run(SETUP, TwoOpenRows(), TAKEN_OVER));
    RunConcat(SETUP, TwoOpenRows(), TAKEN_OVER, SKIPPED);
  }

  // ----- rows left behind -----

  /** What one step reports on a row of `p`, outside isolated mode. */
  function StepReports(s: System, step: Step, p: ProcId, e: Id): seq<Report>
    requires p in s.procs
  {
    match step
    case Prepare(q, d, report) => if q == p && d == e then [report] else []
    case HandlerAnswers(q, cluster, answer) => if q == p then Effective(s.procs[p].reported, cluster, answer, e) else []
    case HandlerThrows(q, cluster) => if q == p && e in cluster then [ERROR_REPORT] else []
    case _ => []
  }

  function FirstReports(s: System, step: Step, p: ProcId, e: Id): seq<Report>
  {
    if p in s.procs then StepReports(s, step, p, e) else []
  }

  /** `before`, and then everything that is reported on a row of `p` along a run, by whatever handler. */
  ghost function ReportsAlong(u: Setup, s: System, steps: seq<Step>, p: ProcId, e: Id, before: seq<Report>): seq<Report>
    requires Legal(u, s, steps)
    decreases |steps|
  {
    if steps == [] then before
    else ReportsAlong(u, Apply(u, s, steps[0]), steps[1..], p, e, before + FirstReports(s, steps[0], p, e))
  }

  lemma StepRecords(u: Setup, s: System, step: Step, p: ProcId, e: Id, before: seq<Report>)
    requires !u.isolated && Enabled(u, s, step) && p in s.procs && RecordsReports(Lookup(s.procs[p].reported, e), before)
    ensures p in Apply(u, s, step).procs
    ensures RecordsReports(Lookup(Apply(u, s, step).procs[p].reported, e), before + StepReports(s, step, p, e))
  {
    var m, reports := s.procs[p].reported, StepReports(s, step, p, e);
    assert before + [] == before;
    if step.HandlerAnswers? && step.p == p {
      AnswerRecords(m, step.cluster, step.answer, e, before);
    } else if reports != [] {
      ReportOneMore(Lookup(m, e), before, reports[0]);
    }
  }

  ghost predicate RecordedFor(s: System, p: ProcId, e: Id, reports: seq<Report>)
  {
    if p in s.procs then RecordsReports(Lookup(s.procs[p].reported, e), reports) else reports == []
  }

  lemma {:induction false} RunRecords(u: Setup, s: System, steps: seq<Step>, p: ProcId, e: Id, before: seq<Report>)
    requires !u.isolated && Legal(u, s, steps) && RecordedFor(s, p, e, before)
    ensures RecordedFor(Run(u, s, steps), p, e, ReportsAlong(u, s, steps, p, e, before))
    decreases |steps|
  {
    if steps != [] {
      FirstRecords(u, s, steps[0], p, e, before);
      RunRecords(u, Apply(u, s, steps[0]), steps[1..], p, e, before + FirstReports(s, steps[0], p, e));
    }
  }

  lemma FirstRecords(u: Setup, s: System, step: Step, p: ProcId, e: Id, before: seq<Report>)
    requires !u.isolated && Enabled(u, s, step) && RecordedFor(s, p, e, before)
    ensures RecordedFor(Apply(u, s, step), p, e, before + FirstReports(s, step, p, e))
  {
    if p in s.procs { StepRecords(u, s, step, p, e, before); }
  }

  /** Outside isolated mode a row for a handler is still to be written until the final write. */
  ghost predicate ToBeWritten(x: Proc, e: Id)
  {
    e in x.ready ==> e in x.unwritten && e in x.seen && e !in x.hooks + x.hooking + x.last
  }

  lemma {:induction false} RunToBeWritten(u: Setup, s: System, steps: seq<Step>, p: ProcId, e: Id)
    requires !u.isolated && Legal(u, s, steps) && (p in s.procs ==> s.procs[p].live ==> ToBeWritten(s.procs[p], e))
    requires p in s.procs ==> e in s.procs[p].seen ==> e in s.table
    ensures var t := Run(u, s, steps); p in t.procs ==> t.procs[p].live ==> ToBeWritten(t.procs[p], e)
    ensures var t := Run(u, s, steps); p in t.procs ==> e in t.procs[p].seen ==> e in t.table
    decreases |steps|
  {
    if steps != [] {
      ToBeWrittenStep(u, s, steps[0], p, e);
      RunToBeWritten(u, Apply(u, s, steps[0]), steps[1..], p, e);
    }
  }

  lemma ToBeWrittenStep(u: Setup, s: System, step: Step, p: ProcId, e: Id)
    requires !u.isolated && Enabled(u, s, step) && (p in s.procs ==> s.procs[p].live ==> ToBeWritten(s.procs[p], e))
    requires p in s.procs ==> e in s.procs[p].seen ==> e in s.table
    ensures var t := Apply(u, s, step); p in t.procs ==> t.procs[p].live ==> ToBeWritten(t.procs[p], e)
    ensures var t := Apply(u, s, step); p in t.procs ==> e in t.procs[p].seen ==> e in t.table
  {
  }

  /** Outside isolated mode, in every run, whatever the handlers answer and about which rows: the final
      write of `p` reaches a row it has claimed for a handler, and that is not outdated, if and only if
      all that was reported on it does not lead to a status that is not allowed.  Otherwise the row
      stays as it is, and nobody owns it through `p` any more. */
  lemma LeftBehindIff(u: Setup, s: System, steps: seq<Step>, p: ProcId, e: Id)
    requires !u.isolated && Initial(s) && Legal(u, s, steps) && Enabled(u, Run(u, s, steps), Finish(p))
    requires var x := Run(u, s, steps).procs[p]; e in x.ready && e !in x.outdated
    ensures var reports, t := ReportsAlong(u, s, steps, p, e, []), Run(u, s, steps);
            var f := Apply(u, t, Finish(p));
            && e in t.table && e in f.table && !Owns(f, p, e)
            && (e in Writes(FinalMap(t.procs[p]), t.procs[p].seen.Keys) <==> !NotAllowed(reports))
            && (if NotAllowed(reports) then f.table[e] == t.table[e] else f.table[e].status == EndOf(reports))
  {
    var t, reports := Run(u, s, steps), ReportsAlong(u, s, steps, p, e, []);
    RunRecords(u, s, steps, p, e, []);
    RunToBeWritten(u, s, steps, p, e);
    assert ToBeWritten(t.procs[p], e);
    ReachedIff(t.procs[p], reports, e);
    FinishRow(u, t, p, e);
  }

  /** The status reports lead to, if they do not lead to one that is not allowed; Done without any. */
  function EndOf(reports: seq<Report>): Status
    requires !NotAllowed(reports)
  {
    if reports == [] then Done else StatusFrom(reports).value
  }

  lemma ReachedIff(x: Proc, reports: seq<Report>, e: Id)
    requires RecordsReports(Lookup(x.reported, e), reports) && e in x.seen && e in x.unwritten && e !in x.outdated
    ensures e in Writes(FinalMap(x), x.seen.Keys) <==> !NotAllowed(reports)
    ensures e in Writes(FinalMap(x), x.seen.Keys) ==> Writes(FinalMap(x), x.seen.Keys)[e].status == EndOf(reports)
  {
    if reports != [] { AllowedIff(Lookup(x.reported, e), reports); } else { FinalDoneIff(x, e); }
  }

  // ----- a status that is not allowed -----

  const SHARED: Setup := SETUP.(isolated := false)
  const INPROGRESS_ANSWER: Answer := Tuples([Pair(0, Object(Some(1), None))])
  const ANSWERED: seq<Step> := [Claim(0, 10, 10, {0}), StartHandler(0, {0}), HandlerAnswers(0, {0}, INPROGRESS_ANSWER)]

  lemma AnswerRecorded()
    ensures Legal(SHARED, OneOpenRow(), ANSWERED)
    ensures var t := Run(SHARED, OneOpenRow(), ANSWERED);
            && t.table == map[0 := Row(InProgress, 1, Some(10), None)] && t.procs.Keys == {0}
            && Enabled(SHARED, t, Finish(0)) && t.procs[0].reported == map[0 := Object(Some(1), None)] && t.procs[0].unwritten == {0}
  {
    var s0 := OneOpenRow();
    RowTaken(s0);
    var s1 := Apply(SHARED, s0, ANSWERED[0]);
    OneReport();
    AnswerStored(s1);
    var s2 := Apply(SHARED, s1, ANSWERED[1]);
    RunThree(SHARED, s0, ANSWERED[0], ANSWERED[1], ANSWERED[2]);
    assert [ANSWERED[0], ANSWERED[1], ANSWERED[2]] == ANSWERED;
  }

  ghost predicate Taken(s: System)
  {
    && s.table == map[0 := Row(InProgress, 1, Some(10), None)] && s.procs.Keys == {0}
    && var x := s.procs[0];
    && x.live && x.waiting == x.unwritten == {0} && x.running == x.hooks == x.hooking == x.last == {}
    && x.reported == map[] && !x.violated
  }

  lemma RowTaken(s: System)
    requires s == OneOpenRow()
    ensures Enabled(SHARED, s, ANSWERED[0]) && Taken(Apply(SHARED, s, ANSWERED[0]))
  {
    assert OfKind(s.table, {0}, Ready, 10, SHARED.cfg) == {0};
    assert OfKind(s.table, {0}, ExceededTries, 10, SHARED.cfg) == {};
    assert OfKind(s.table, {0}, ExceededTriesExceeded, 10, SHARED.cfg) == {};
    var t := Apply(SHARED, s, ANSWERED[0]);
    assert t.table[0] == Row(InProgress, 1, Some(10), None);
  }

  lemma AnswerStored(s: System)
    requires Taken(s) && SetEventStatus(map[], {0}, INPROGRESS_ANSWER) == map[0 := Object(Some(1), None)]
    ensures Enabled(SHARED, s, ANSWERED[1]) && Enabled(SHARED, Apply(SHARED, s, ANSWERED[1]), ANSWERED[2])
    ensures var t := Apply(SHARED, Apply(SHARED, s, ANSWERED[1]), ANSWERED[2]);
            && t.table == s.table && t.procs.Keys == {0} && Enabled(SHARED, t, Finish(0))
            && t.procs[0].reported == map[0 := Object(Some(1), None)] && t.procs[0].unwritten == {0}
  {
    var t := Apply(SHARED, s, ANSWERED[1]);
    assert t.procs[0].running == {0} && t.procs[0].waiting == {};
  }

  lemma OneReport()
    ensures SetEventStatus(map[], {0}, INPROGRESS_ANSWER) == map[0 := Object(Some(1), None)]
  {
    var tuples := INPROGRESS_ANSWER.tuples;
    assert tuples[1..] == [];
    var m: StatusMap := map[];
    assert AddReports(m, tuples) == AddReports(m[0 := Object(Some(1), None)], []);
  }

  /** A handler that answers InProgress, outside isolated mode: its row stays in progress and nobody
      owns it. */
  lemma InProgressAnswerLeavesRow()
    ensures Legal(SHARED, OneOpenRow(), ANSWERED + [Finish(0)])
    ensures var t := Run(SHARED, OneOpenRow(), ANSWERED + [Finish(0)]);
            0 in t.table && t.table[0].status == InProgress && forall p :: !Owns(t, p, 0)
  {
    AnswerRecorded();
    var s := Run(SHARED, OneOpenRow(), ANSWERED);
    FinishLeavesRow(s);
    RunConcat(SHARED, OneOpenRow(), ANSWERED, [Finish(0)]);
  }

  lemma FinishLeavesRow(s: System)
    requires s.table == map[0 := Row(InProgress, 1, Some(10), None)] && s.procs.Keys == {0} && Enabled(SHARED, s, Finish(0))
    requires s.procs[0].reported == map[0 := Object(Some(1), None)] && s.procs[0].unwritten == {0}
    ensures Legal(SHARED, s, [Finish(0)])
    ensures var t := Run(SHARED, s, [Finish(0)]);
            0 in t.table && t.table[0].status == InProgress && forall p :: !Owns(t, p, 0)
  {
    var t := Apply(SHARED, s, Finish(0));
    assert [Finish(0)][1..] == [] && Legal(SHARED, t, []) && Run(SHARED, t, []) == t;
    FinishRow(SHARED, s, 0, 0);
  }

  // ----- rows written twice -----

  /** The final write reaches a row its processor does not own exactly if an allowed status was reported
      for it and the processor has written it before. */
  lemma WritesGivenUpRowIff(x: Proc, e: Id)
    requires e in x.seen && e !in Owned(x)
    ensures e in Writes(FinalMap(x), x.seen.Keys) <==> e in x.reported && UpdateOf(x.reported[e]).Some?
  {
  }

  /** Owners come from claims. */
  lemma {:induction false} OwnerHasClaimed(u: Setup, s: System, steps: seq<Step>, q: ProcId, e: Id)
    requires Legal(u, s, steps) && !Owns(s, q, e) && Owns(Run(u, s, steps), q, e)
    ensures exists k :: 0 <= k < |steps| && steps[k].Claim? && steps[k].p == q && e in steps[k].chunk && q !in s.procs
    decreases |steps|
  {
    if steps != [] {
      var t := Apply(u, s, steps[0]);
      if Owns(t, q, e) {
        NewOwnerClaims(u, s, steps[0], q, e);
      } else {
        OwnerHasClaimed(u, t, steps[1..], q, e);
        var k :| 0 <= k < |steps[1..]| && steps[1..][k].Claim? && steps[1..][k].p == q && e in steps[1..][k].chunk;
        assert steps[k + 1] == steps[1..][k];
        assert q !in t.procs;
        ProcsStay(u, s, steps[0]);
      }
    }
  }

  lemma NewOwnerClaims(u: Setup, s: System, step: Step, q: ProcId, e: Id)
    requires Enabled(u, s, step) && !Owns(s, q, e) && Owns(Apply(u, s, step), q, e)
    ensures step.Claim? && step.p == q && e in step.chunk && q !in s.procs
  {
  }

  lemma ProcsStay(u: Setup, s: System, step: Step)
    requires Enabled(u, s, step)
    ensures s.procs.Keys <= Apply(u, s, step).procs.Keys
  {
  }

  /** The final write of `p` hits a row that another live processor owns, and takes it out of progress. */
  ghost predicate HitsOther(u: Setup, t: System, p: ProcId, e: Id)
    requires Enabled(u, t, Finish(p))
  {
    exists q :: q != p && Owns(t, q, e) && Owns(Apply(u, t, Finish(p)), q, e)
                && e in Apply(u, t, Finish(p)).table && Apply(u, t, Finish(p)).table[e].status == Error
  }

  ghost predicate ClaimedMeanwhile(between: seq<Step>, t: System, e: Id)
  {
    exists k :: 0 <= k < |between| && between[k].Claim? && e in between[k].chunk && Owns(t, between[k].p, e)
  }

  /** A handler of `p` throws in isolated mode; anything happens; `p` finishes.  Its second write hits
      another owner's row if and only if that one has claimed the row in between and still owns it. */
  lemma SecondWriteHitsIff(u: Setup, s: System, p: ProcId, cluster: set<Id>, between: seq<Step>, e: Id)
    requires Inv(s) && Kept(s, p, e) && u.isolated && Enabled(u, s, HandlerThrows(p, cluster)) && e in cluster
    requires Legal(u, Apply(u, s, HandlerThrows(p, cluster)), between) && Between(between, p, e)
    requires Enabled(u, Run(u, Apply(u, s, HandlerThrows(p, cluster)), between), Finish(p))
    ensures HitsOther(u, Run(u, Apply(u, s, HandlerThrows(p, cluster)), between), p, e)
       <==> ClaimedMeanwhile(between, Run(u, Apply(u, s, HandlerThrows(p, cluster)), between), e)
  {
    var thrown := Apply(u, s, HandlerThrows(p, cluster));
    ThrownThenParked(u, s, p, cluster, between, e);
    var t := Run(u, thrown, between);
    SecondWrite(u, t, p, e);
    if HitsOther(u, t, p, e) {
      var q :| q != p && Owns(t, q, e);
      OwnerHasClaimed(u, thrown, between, q, e);
    }
    if ClaimedMeanwhile(between, t, e) {
      var k :| 0 <= k < |between| && between[k].Claim? && e in between[k].chunk && Owns(t, between[k].p, e);
      OwnerHasClaimed(u, thrown, between, between[k].p, e);
      assert Owns(Apply(u, t, Finish(p)), between[k].p, e);
    }
  }

  /** After the throw nobody owns the row, and its second Error waits for the final write. */
  lemma ThrownThenParked(u: Setup, s: System, p: ProcId, cluster: set<Id>, between: seq<Step>, e: Id)
    requires Inv(s) && Kept(s, p, e) && u.isolated && Enabled(u, s, HandlerThrows(p, cluster)) && e in cluster
    requires Legal(u, Apply(u, s, HandlerThrows(p, cluster)), between) && Between(between, p, e)
    ensures p in Apply(u, s, HandlerThrows(p, cluster)).procs
    ensures forall q :: !Owns(Apply(u, s, HandlerThrows(p, cluster)), q, e)
    ensures var t := Run(u, Apply(u, s, HandlerThrows(p, cluster)), between);
            && p in t.procs && e in t.table && e in t.procs[p].seen && e !in Owned(t.procs[p])
            && Lookup(t.procs[p].reported, e) == Some(ERROR_REPORT)
  {
    var step := HandlerThrows(p, cluster);
    var thrown := Apply(u, s, step);
    ThrowStep(u, s, step);
    assert ProcOk(s, s.procs[p]) && KeptRow(s.procs[p], e);
    assert Dangles(thrown, p, e);
    StepKeeps(u, s, step, p, e);
    RunKeeps(u, thrown, between, p, e);
    ParkedRun(u, thrown, between, p, e);
  }

  lemma SecondWrite(u: Setup, t: System, p: ProcId, e: Id)
    requires Enabled(u, t, Finish(p)) && e in t.table && e in t.procs[p].seen && e !in Owned(t.procs[p])
    requires Lookup(t.procs[p].reported, e) == Some(ERROR_REPORT)
    ensures e in Apply(u, t, Finish(p)).table && Apply(u, t, Finish(p)).table[e].status == Error
  {
    WritesGivenUpRowIff(t.procs[p], e);
    FinishRow(u, t, p, e);
  }
}
