/** Why the retry bound asks more of answers than exclusive ownership does: a harmless answer can revive a
    row that has been set to Exceeded. */
module RevivedRow {
  import opened EventTable
  import opened StatusReports
  import opened RowProtocol
  import opened ExclusiveOwnership
  import opened RetryBound

  /** A run that keeps all assumptions of the retry bound but one: what handlers report on. */
  ghost predicate Allowed(s: System, steps: seq<Step>)
  {
    && Legal(SETUP, s, steps) && CarefulRun(SETUP, s, steps)
    && NoOpens(SETUP, s, steps) && NoCrashInLastClaim(SETUP, s, steps)
  }

  lemma {:induction false} AllowedConcat(s: System, a: seq<Step>, b: seq<Step>)
    requires Allowed(s, a) && Allowed(Run(SETUP, s, a), b)
    ensures Allowed(s, a + b) && Run(SETUP, s, a + b) == Run(SETUP, Run(SETUP, s, a), b)
    decreases |a|
  {
    if a == [] {
      assert a + b == b;
    } else {
      assert (a + b)[0] == a[0] && (a + b)[1..] == a[1..] + b;
      AllowedConcat(Apply(SETUP, s, a[0]), a[1..], b);
    }
  }

  lemma AllowedStep(s: System, step: Step)
    requires Enabled(SETUP, s, step) && Careful(SETUP, s, step) && !step.Crash?
    requires forall e | e in StepWrites(SETUP, s, step) :: StepWrites(SETUP, s, step)[e].status != Open
    ensures Allowed(s, [step]) && Run(SETUP, s, [step]) == Apply(SETUP, s, step)
  {
    var t := Apply(SETUP, s, step);
    assert [step][1..] == [];
    assert Allowed(t, []) && Run(SETUP, t, []) == t;
  }

  /** Some such run leads from `s` to `t`. */
  ghost predicate Can(s: System, t: System)
  {
    exists steps :: Allowed(s, steps) && Run(SETUP, s, steps) == t
  }

  lemma CanStep(s: System, t: System, step: Step)
    requires Can(s, t) && Enabled(SETUP, t, step) && Careful(SETUP, t, step) && !step.Crash?
    requires forall e | e in StepWrites(SETUP, t, step) :: StepWrites(SETUP, t, step)[e].status != Open
    ensures Can(s, Apply(SETUP, t, step))
  {
    var a :| Allowed(s, a) && Run(SETUP, s, a) == t;
    AllowedStep(t, step);
    AllowedConcat(s, a, [step]);
    assert Allowed(s, a + [step]) && Run(SETUP, s, a + [step]) == Apply(SETUP, t, step);
  }

  const BUSY := Row(InProgress, 1, Some(10), None)

  /** Row 0 is as given; processor 0 handles row 1, for which it waits or which is running; processor `q`
      has row 0 in these sets; the others have nothing to do. */
  ghost predicate Scene(s: System, row: Row, q: ProcId, hooks: set<Id>, hooking: set<Id>, last: set<Id>)
  {
    && s.table.Keys == {0, 1} && s.table[0] == row && s.table[1] == BUSY && s.now == 10
    && 0 in s.procs && Main(s.procs[0]) && q in s.procs && q != 0
    && (forall p | p in s.procs && p != 0 && p != q :: Idle(s.procs[p]))
    && var x := s.procs[q];
    && x.live && x.hooks == hooks && x.hooking == hooking && x.last == last && x.unwritten == {} && x.reported == map[]
  }

  /** The same, with nobody having row 0. */
  ghost predicate Stage(s: System, row: Row)
  {
    && s.table.Keys == {0, 1} && s.table[0] == row && s.table[1] == BUSY && s.now == 10
    && 0 in s.procs && Main(s.procs[0]) && forall q | q in s.procs && q != 0 :: Idle(s.procs[q])
  }

  ghost predicate Main(x: Proc)
  {
    && x.live && x.waiting == x.unwritten == {1} && x.running == x.hooks == x.hooking == x.last == {}
    && x.seen.Keys == {0, 1} && x.reported == map[] && !x.violated && 1 in x.etag && x.etag[1] == 10
  }

  ghost predicate Idle(x: Proc)
  {
    Owned(x) == {} && x.reported == map[]
  }

  function Failed(a: int): Row
  {
    Row(Error, a, Some(10), Some(10))
  }

  function Claimed(a: int): Row
  {
    Row(InProgress, a, Some(10), Some(10))
  }

  lemma StageIsTimely(s: System, row: Row, q: ProcId)
    requires Stage(s, row) && Enabled(SETUP, s, Claim(q, 10, 10, {0}))
    ensures Careful(SETUP, s, Claim(q, 10, 10, {0}))
  {
    forall p, e | Owns(s, p, e) ensures s.now - Touch(s.procs[p], e) < SETUP.cfg.maxInProgress {
      assert p == 0 && e == 1;
    }
  }

  lemma NewProcFor(table: Table, a: int)
    requires 0 in table && table[0] == Failed(a) && 3 <= a <= 6
    ensures var x := NewProc(table, {0}, 10, 10, SETUP.cfg);
            && x.seen.Keys == {0} && x.live && x.hooking == x.unwritten == {} && x.reported == map[]
            && (a < 6 ==> x.hooks == {0} && x.last == {}) && (a == 6 ==> x.hooks == {} && x.last == {0})
  {
    assert OfKind(table, {0}, Ready, 10, SETUP.cfg) == {};
    assert OfKind(table, {0}, ExceededTries, 10, SETUP.cfg) == if a < 6 then {0} else {};
    assert OfKind(table, {0}, ExceededTriesExceeded, 10, SETUP.cfg) == if a < 6 then {} else {0};
  }

  lemma TakeScene(s: System, a: int, q: ProcId)
    requires Stage(s, Failed(a)) && 3 <= a <= 6 && q !in s.procs
    ensures Enabled(SETUP, s, Claim(q, 10, 10, {0}))
    ensures var t := Apply(SETUP, s, Claim(q, 10, 10, {0}));
            && t.procs.Keys == s.procs.Keys + {q}
            && (a < 6 ==> Scene(t, Claimed(a + 1), q, {0}, {}, {})) && (a == 6 ==> Scene(t, Claimed(7), q, {}, {}, {0}))
  {
    NewProcFor(s.table, a);
    var x := NewProc(s.table, {0}, 10, 10, SETUP.cfg);
    var t := Apply(SETUP, s, Claim(q, 10, 10, {0}));
    assert t == System(ClaimRows(s.table, {0}, 10), s.procs[q := x], 10);
    TakeRows(s, t, a, q, x);
  }

  lemma TakeRows(s: System, t: System, a: int, q: ProcId, x: Proc)
    requires Stage(s, Failed(a)) && q !in s.procs && t == System(ClaimRows(s.table, {0}, 10), s.procs[q := x], 10)
    requires x.live && x.hooking == x.unwritten == {} && x.reported == map[]
    ensures t.procs.Keys == s.procs.Keys + {q} && Scene(t, Claimed(a + 1), q, x.hooks, {}, x.last)
  {
  }

  lemma Take(s0: System, s: System, a: int, q: ProcId) returns (t: System)
    requires Can(s0, s) && Stage(s, Failed(a)) && 3 <= a <= 6 && q !in s.procs
    ensures Can(s0, t) && t.procs.Keys == s.procs.Keys + {q}
    ensures a < 6 ==> Scene(t, Claimed(a + 1), q, {0}, {}, {})
    ensures a == 6 ==> Scene(t, Claimed(7), q, {}, {}, {0})
  {
    var claim := Claim(q, 10, 10, {0});
    TakeScene(s, a, q);
    StageIsTimely(s, s.table[0], q);
    CanStep(s0, s, claim);
    t := Apply(SETUP, s, claim);
  }

  lemma CallHook(s0: System, s: System, a: int, q: ProcId) returns (t: System)
    requires Can(s0, s) && Scene(s, Claimed(a), q, {0}, {}, {})
    ensures Can(s0, t) && Scene(t, Claimed(a), q, {}, {0}, {}) && t.procs.Keys == s.procs.Keys
  {
    CanStep(s0, s, StartHook(q, 0));
    t := Apply(SETUP, s, StartHook(q, 0));
  }

  lemma HookFailed(s0: System, s: System, a: int, q: ProcId) returns (t: System)
    requires Can(s0, s) && Scene(s, Claimed(a), q, {}, {0}, {})
    ensures Can(s0, t) && Stage(t, Failed(a)) && t.procs.Keys == s.procs.Keys
  {
    CanStep(s0, s, EndHook(q, 0, false));
    t := Apply(SETUP, s, EndHook(q, 0, false));
    HookCommitted(s, a, q);
  }

  lemma HookCommitted(s: System, a: int, q: ProcId)
    requires Scene(s, Claimed(a), q, {}, {0}, {}) && Enabled(SETUP, s, EndHook(q, 0, false))
    ensures var t := Apply(SETUP, s, EndHook(q, 0, false)); Stage(t, Failed(a)) && t.procs.Keys == s.procs.Keys
  {
    var t := Apply(SETUP, s, EndHook(q, 0, false));
    assert ErrorFor({0}) == map[0 := Update(Error, None)];
    assert t.procs == s.procs[q := t.procs[q]] && Idle(t.procs[q]);
    FailedScene(s, t, a, q);
  }

  lemma FailedScene(s: System, t: System, a: int, q: ProcId)
    requires Scene(s, Claimed(a), q, {}, {0}, {}) && q in t.procs && t.procs == s.procs[q := t.procs[q]]
    requires Idle(t.procs[q]) && t.now == 10 && t.table == WriteRows(s.table, map[0 := Update(Error, None)], 10, SETUP.cfg)
    ensures Stage(t, Failed(a)) && t.procs.Keys == s.procs.Keys
  {
  }

  /** The row is claimed for its hook, which fails. */
  lemma HookFailsOnce(s0: System, s: System, a: int, q: ProcId) returns (t: System)
    requires Can(s0, s) && Stage(s, Failed(a)) && 3 <= a < 6 && q !in s.procs
    ensures Can(s0, t) && Stage(t, Failed(a + 1)) && t.procs.Keys == s.procs.Keys + {q}
  {
    t := Take(s0, s, a, q);
    t := CallHook(s0, t, a + 1, q);
    t := HookFailed(s0, t, a + 1, q);
  }

  /** In its last try it is set to Exceeded without a hook. */
  lemma ExceededAtLast(s0: System, s: System, q: ProcId) returns (t: System)
    requires Can(s0, s) && Stage(s, Failed(6)) && q !in s.procs
    ensures Can(s0, t) && Stage(t, Row(Exceeded, 7, Some(10), Some(10)))
  {
    var s1 := Take(s0, s, 6, q);
    t := GiveUp(s0, s1, q);
  }

  lemma GiveUp(s0: System, s: System, q: ProcId) returns (t: System)
    requires Can(s0, s) && Scene(s, Claimed(7), q, {}, {}, {0})
    ensures Can(s0, t) && Stage(t, Row(Exceeded, 7, Some(10), Some(10)))
  {
    CanStep(s0, s, WriteLast(q));
    t := Apply(SETUP, s, WriteLast(q));
  }

  const ABOUT_ZERO: Answer := Tuples([Pair(0, ERROR_REPORT)])

  lemma ZeroReported(cluster: set<Id>)
    ensures SetEventStatus(map[], cluster, ABOUT_ZERO) == map[0 := ERROR_REPORT]
  {
    assert ABOUT_ZERO.tuples[1..] == [];
    var m: StatusMap := map[];
    assert AddReports(m, ABOUT_ZERO.tuples) == AddReports(m[0 := ERROR_REPORT], []);
  }

  /** An answer of processor 0 that reports an Error on row 0, which nobody else owns and which is not
      to be handled any more. */
  lemma ReportOnZero(s0: System, s: System, cluster: set<Id>) returns (t: System)
    requires Can(s0, s) && 0 in s.procs && 0 in s.table && s.now == 10
    requires var x := s.procs[0];
             && x.live && cluster <= x.running && 0 in x.seen && x.reported == map[]
             && 0 !in x.waiting + (x.running - cluster) + x.hooks + x.hooking + x.last
    requires forall q | q in s.procs && q != 0 :: !Owns(s, q, 0)
    ensures Can(s0, t) && t.table == s.table[0 := Row(Error, s.table[0].attempts, Some(10), Some(10))] && t.now == 10
    ensures var x := s.procs[0]; t.procs == s.procs[0 := x.(running := x.running - cluster, unwritten := x.unwritten - {0})]
  {
    var answer := HandlerAnswers(0, cluster, ABOUT_ZERO);
    ZeroWritten(s.procs[0], cluster);
    CanStep(s0, s, answer);
    t := Apply(SETUP, s, answer);
    assert t == Commit(SETUP, s, 0, s.procs[0].(running := s.procs[0].running - cluster), map[0 := Update(Error, None)]);
    ZeroCommitted(s, cluster);
  }

  lemma ZeroWritten(x: Proc, cluster: set<Id>)
    requires 0 in x.seen
    ensures AnswerMap(SETUP, x, cluster, ABOUT_ZERO) == map[0 := ERROR_REPORT]
    ensures Writes(AnswerMap(SETUP, x, cluster, ABOUT_ZERO), x.seen.Keys) == map[0 := Update(Error, None)]
    ensures Answered(SETUP, x, cluster, ABOUT_ZERO) == {0}
  {
    ZeroReported(cluster);
  }

  lemma ZeroCommitted(s: System, cluster: set<Id>)
    requires 0 in s.procs && 0 in s.table && s.now == 10
    ensures var x := s.procs[0];
            var t := Commit(SETUP, s, 0, x.(running := x.running - cluster), map[0 := Update(Error, None)]);
            && t.table == s.table[0 := Row(Error, s.table[0].attempts, Some(10), Some(10))] && t.now == 10
            && t.procs == s.procs[0 := x.(running := x.running - cluster, unwritten := x.unwritten - {0})]
  {
    assert (map[0 := Update(Error, None)]).Keys == {0};
  }

  /** Processor 0 calls its other handler, which reports on row 0 once more. */
  lemma Revive(s0: System, s: System) returns (t: System)
    requires Can(s0, s) && Stage(s, Row(Exceeded, 7, Some(10), Some(10)))
    ensures Can(s0, t) && 0 in t.table && t.table[0] == Failed(7) && forall p :: !Owns(t, p, 0)
  {
    OtherStarts(s, s.table[0]);
    CanStep(s0, s, StartHandler(0, {1}));
    t := ReportOnZero(s0, Apply(SETUP, s, StartHandler(0, {1})), {1});
  }

  lemma OtherStarts(s: System, row: Row)
    requires Stage(s, row)
    ensures Enabled(SETUP, s, StartHandler(0, {1})) && StepWrites(SETUP, s, StartHandler(0, {1})) == map[]
    ensures var t, x := Apply(SETUP, s, StartHandler(0, {1})), s.procs[0];
            t == s.(procs := s.procs[0 := x.(waiting := {}, running := {1}, started := x.started + {1})])
  {
    var x := s.procs[0];
    assert x.waiting - {1} == {} && x.running + {1} == {1};
  }

  function Begin(): System
  {
    System(map[0 := Row(Open, 2, None, None), 1 := Row(Open, 0, None, None)], map[], 10)
  }

  /** Processor 0 claims both rows, and its first handler reports an Error on row 0. */
  lemma FirstTry(s0: System) returns (t: System)
    requires s0 == Begin()
    ensures Can(s0, t) && Stage(t, Failed(3)) && t.procs.Keys == {0}
  {
    assert Allowed(s0, []) && Run(SETUP, s0, []) == s0;
    var s1 := ClaimBegin(s0);
    CanStep(s0, s1, StartHandler(0, {0}));
    var s2 := Apply(SETUP, s1, StartHandler(0, {0}));
    t := ReportOnZero(s0, s2, {0});
  }

  lemma ClaimBegin(s0: System) returns (t: System)
    requires s0 == Begin() && Can(s0, s0)
    ensures Can(s0, t) && t.procs.Keys == {0} && t.now == 10 && t.table.Keys == {0, 1}
    ensures t.table[0] == Row(InProgress, 3, Some(10), None) && t.table[1] == BUSY
    ensures var x := t.procs[0];
            && x.live && x.waiting == x.unwritten == x.seen.Keys == {0, 1} && x.running == x.hooks == x.hooking == x.last == {}
            && x.reported == map[] && !x.violated && x.etag == map[0 := 10, 1 := 10]
  {
    CanStep(s0, s0, Claim(0, 10, 10, {0, 1}));
    t := Apply(SETUP, s0, Claim(0, 10, 10, {0, 1}));
    BeginClaimed(s0);
  }

  lemma BeginClaimed(s0: System)
    requires s0 == Begin() && Enabled(SETUP, s0, Claim(0, 10, 10, {0, 1}))
    ensures var t := Apply(SETUP, s0, Claim(0, 10, 10, {0, 1}));
            && t.procs.Keys == {0} && t.now == 10 && t.table.Keys == {0, 1}
            && t.table[0] == Row(InProgress, 3, Some(10), None) && t.table[1] == BUSY
            && var x := t.procs[0];
            && x.live && x.waiting == x.unwritten == x.seen.Keys == {0, 1} && x.running == x.hooks == x.hooking == x.last == {}
            && x.reported == map[] && !x.violated && x.etag == map[0 := 10, 1 := 10]
  {
    BothReady(s0.table);
    var t := Apply(SETUP, s0, Claim(0, 10, 10, {0, 1}));
    assert t.procs == map[0 := NewProc(s0.table, {0, 1}, 10, 10, SETUP.cfg)];
    assert t.table == ClaimRows(s0.table, {0, 1}, 10);
  }

  lemma BothReady(table: Table)
    requires table == Begin().table
    ensures var x := NewProc(table, {0, 1}, 10, 10, SETUP.cfg);
            && x.live && x.waiting == x.unwritten == x.seen.Keys == {0, 1} && x.running == x.hooks == x.hooking == x.last == {}
            && x.reported == map[] && !x.violated && x.etag == map[0 := 10, 1 := 10]
  {
    assert OfKind(table, {0, 1}, Ready, 10, SETUP.cfg) == {0, 1};
    assert OfKind(table, {0, 1}, ExceededTries, 10, SETUP.cfg) == {};
    assert OfKind(table, {0, 1}, ExceededTriesExceeded, 10, SETUP.cfg) == {};
  }

  /** So the retry bound fails in some run that keeps its other assumptions: a row with R + 4 attempts that
      nobody owns is Error, and will be claimed again. */
  lemma HarmlessAnswerRevivesRow()
    ensures exists steps :: Allowed(Begin(), steps) && !Bounded(SETUP, Run(SETUP, Begin(), steps), 0)
  {
    var t := WholeRun(Begin());
    var steps :| Allowed(Begin(), steps) && Run(SETUP, Begin(), steps) == t;
    NotBounded(t);
  }

  lemma WholeRun(s0: System) returns (t: System)
    requires s0 == Begin()
    ensures Can(s0, t) && 0 in t.table && t.table[0] == Failed(7) && forall p :: !Owns(t, p, 0)
  {
    t := FirstTry(s0);
    t := AfterFirstTry(s0, t);
  }

  lemma AfterFirstTry(s0: System, s: System) returns (t: System)
    requires Can(s0, s) && Stage(s, Failed(3)) && s.procs.Keys == {0}
    ensures Can(s0, t) && 0 in t.table && t.table[0] == Failed(7) && forall p :: !Owns(t, p, 0)
  {
    t := AllHooksFail(s0, s, 3, 1);
    var q :| FreeFrom(t, q);
    NotUsed(t, q);
    t := ExceededAtLast(s0, t, q);
    t := Revive(s0, t);
  }

  lemma {:induction false} AllHooksFail(s0: System, s: System, a: int, q: ProcId) returns (t: System)
    requires Can(s0, s) && Stage(s, Failed(a)) && 3 <= a <= 6 && FreeFrom(s, q)
    ensures Can(s0, t) && Stage(t, Failed(6)) && exists q :: FreeFrom(t, q)
    decreases 6 - a
  {
    t := s;
    if a < 6 {
      NotUsed(s, q);
      t := HookFailsOnce(s0, s, a, q);
      OneMore(s, t, q);
      t := AllHooksFail(s0, t, a + 1, q + 1);
    }
  }

  ghost predicate FreeFrom(s: System, q: ProcId)
  {
    forall p | p in s.procs.Keys :: p < q
  }

  lemma NotUsed(s: System, q: ProcId)
    requires FreeFrom(s, q)
    ensures q !in s.procs
  {
  }

  lemma OneMore(s: System, t: System, q: ProcId)
    requires FreeFrom(s, q) && t.procs.Keys == s.procs.Keys + {q}
    ensures FreeFrom(t, q + 1)
  {
  }

  lemma NotBounded(t: System)
    requires 0 in t.table && t.table[0] == Failed(7) && forall p :: !Owns(t, p, 0)
    ensures !Bounded(SETUP, t, 0)
  {
  }

  /** An answer that keeps exclusive ownership, or the final write of a processor. */
  ghost predicate Writing(u: Setup, s: System, step: Step)
    requires Enabled(u, s, step)
  {
    (step.HandlerAnswers? && Harmless(u, s, step)) || step.Finish?
  }

  /** In both modes exactly those that turn no row with R + 4 attempts into anything but Exceeded keep the
      end of all retries. */
  lemma WriteKeepsEndsIff(u: Setup, s: System, step: Step)
    requires Inv(s) && Ends(u, s) && Enabled(u, s, step) && Writing(u, s, step)
    requires forall e | e in StepWrites(u, s, step) :: StepWrites(u, s, step)[e].status != Open
    ensures Ends(u, Apply(u, s, step))
       <==> forall e | e in StepWrites(u, s, step) && e in s.table && s.table[e].attempts == u.cfg.retryAttempts + 4 ::
              StepWrites(u, s, step)[e].status == Exceeded
  {
    var t, writes := Apply(u, s, step), StepWrites(u, s, step);
    assert t.table.Keys == s.table.Keys;
    forall e | e in s.table
      ensures t.table[e].attempts == s.table[e].attempts && (InLastClaim(t, e) <==> InLastClaim(s, e))
      ensures e in writes ==> t.table[e].status == writes[e].status && !InLastClaim(s, e)
      ensures e !in writes ==> t.table[e] == s.table[e]
    {
      LastClaimsStay(u, s, step, e);
    }
  }

  lemma LastClaimsStay(u: Setup, s: System, step: Step, e: Id)
    requires Inv(s) && Enabled(u, s, step) && Writing(u, s, step) && e in s.table
    requires e in StepWrites(u, s, step) ==> StepWrites(u, s, step)[e].status != Open
    ensures var t := Apply(u, s, step);
            && e in t.table && t.table[e].attempts == s.table[e].attempts && (InLastClaim(t, e) <==> InLastClaim(s, e))
            && (e in StepWrites(u, s, step) ==> t.table[e].status == StepWrites(u, s, step)[e].status && !InLastClaim(s, e))
            && (e !in StepWrites(u, s, step) ==> t.table[e] == s.table[e])
  {
    var t := Apply(u, s, step);
    assert t.procs.Keys == s.procs.Keys;
    assert forall q | q in s.procs && s.procs[q].last != {} :: t.procs[q].live == s.procs[q].live && t.procs[q].last == s.procs[q].last;
    if e in StepWrites(u, s, step) {
      NotInLastClaim(u, s, step, e);
    }
  }

  lemma NotInLastClaim(u: Setup, s: System, step: Step, e: Id)
    requires Inv(s) && Enabled(u, s, step) && Writing(u, s, step) && e in StepWrites(u, s, step)
    ensures !InLastClaim(s, e)
  {
    assert step.Finish? ==> Owns(s, step.p, e) || Dangles(s, step.p, e);
    if InLastClaim(s, e) {
      var q :| q in s.procs && s.procs[q].live && e in s.procs[q].last;
      assert Owns(s, q, e);
      assert false;
    }
  }
}
