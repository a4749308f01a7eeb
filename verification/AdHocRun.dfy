/** One run over the queue of an ad-hoc event (`processEventQueue` and
    `reevaluateShouldContinue` in `src/processEventQueue.js`): chunk after chunk until the select
    comes back empty. */
module AdHocRun {
  import opened EventTable
  import opened StatusReports
  import opened RowProtocol
  import opened ReportSequences
  import opened ChunkOutcome
  import opened Processor
  import opened Collections

  ghost predicate IsMin(s: set<Id>, m: Id)
  {
    m in s && forall e | e in s :: m <= e
  }

  function Min(s: set<Id>): (m: Id)
    requires s != {}
    ensures IsMin(s, m)
  {
    MinExists(s);
    var m :| m in s && forall e | e in s :: m <= e;
    m
  }

  lemma {:induction false} MinExists(s: set<Id>)
    requires s != {}
    ensures exists m :: IsMin(s, m)
    decreases |s|
  {
    var x :| x in s;
    if s == {x} {
      assert IsMin(s, x);
    } else {
      MinExists(s - {x});
      var m :| IsMin(s - {x}, m);
      MinOfBoth(s, x, m);
    }
  }

  lemma MinOfBoth(s: set<Id>, x: Id, m: Id)
    requires x in s && IsMin(s - {x}, m)
    ensures IsMin(s, if x <= m then x else m)
  {
    forall e | e in s ensures e == x || m <= e {
      if e != x { assert e in s - {x}; }
    }
  }

  /** ORDER BY and LIMIT: the first `limit` of the candidates. */
  function First(candidates: set<Id>, limit: nat): (chunk: seq<Id>)
    ensures IsFirst(candidates, limit, chunk)
    decreases limit
  {
    if limit == 0 || candidates == {} then []
    else
      var m := Min(candidates);
      var rest := First(candidates - {m}, limit - 1);
      FirstOneMore(candidates, limit, m, rest);
      [m] + rest
  }

  /** In order, at most `limit`, and whatever is left out comes later, when the chunk is full. */
  ghost predicate IsFirst(candidates: set<Id>, limit: nat, chunk: seq<Id>)
  {
    && Elements(chunk) <= candidates && |chunk| <= limit
    && (forall i, j | 0 <= i < j < |chunk| :: chunk[i] < chunk[j])
    && (forall e | e in candidates && e !in Elements(chunk) ::
          |chunk| == limit && forall i | 0 <= i < |chunk| :: chunk[i] < e)
  }

  lemma FirstOneMore(candidates: set<Id>, limit: nat, m: Id, rest: seq<Id>)
    requires limit > 0 && IsMin(candidates, m) && IsFirst(candidates - {m}, limit - 1, rest)
    ensures IsFirst(candidates, limit, [m] + rest)
  {
    var chunk := [m] + rest;
    ElementsOneMore(m, rest);
    assert forall i | 0 <= i < |rest| :: rest[i] in Elements(rest);
    forall i, j | 0 <= i < j < |chunk| ensures chunk[i] < chunk[j] {
      assert chunk[j] == rest[j - 1] && rest[j - 1] in candidates - {m};
      if i > 0 { assert chunk[i] == rest[i - 1]; }
    }
    forall e | e in candidates && e !in Elements(chunk)
      ensures |chunk| == limit && forall i | 0 <= i < |chunk| :: chunk[i] < e
    {
      assert e in candidates - {m} && e !in Elements(rest);
    }
  }

  lemma ElementsOneMore(m: Id, rest: seq<Id>)
    ensures Elements([m] + rest) == {m} + Elements(rest)
  {
    var chunk := [m] + rest;
    assert forall i | 0 <= i < |rest| :: chunk[i + 1] == rest[i];
    assert chunk[0] == m;
  }

  function Candidates(rows: Table, startTime: int, base: int, cfg: Config, excluded: set<Id>): set<Id>
  {
    set e | e in rows && e !in excluded && Selectable(rows[e], startTime, base, cfg)
  }

  /** How a run ends; `Failed` when a transaction of an iteration does not commit. */
  datatype Ending = OneChunkOnly | EmptyChunk | TimeExceeded | Failed | GoOn

  /** A row nobody touches becomes selectable at some time and stays so. */
  lemma SelectableLater(row: Row, startTime: int, base: int, later: int, cfg: Config)
    requires Selectable(row, startTime, base, cfg) && base <= later
    ensures Selectable(row, startTime, later, cfg)
  {
  }

  /** A row that was due earlier is not delayed later. */
  lemma DueLater(row: Row, base: int, later: int, cfg: Config)
    requires base <= later && KindOf(row, later, cfg) == Delayed
    ensures KindOf(row, base, cfg) == Delayed
  {
  }

  /** The rows this run has not touched are as they were; those it claimed are settled, under a
      stamp of this run. */
  ghost predicate Progress(before: Table, rows: Table, claimed: set<Id>, startTime: int)
  {
    && Stamped(before, rows, claimed, startTime)
    && forall e | e in claimed :: AllowedStatus(rows[e].status)
  }

  /** What an iteration that completes guarantees: in isolated mode no claimed row is left in progress. */
  ghost predicate After(isolated: bool, before: Table, rows: Table, claimed: set<Id>, startTime: int)
  {
    if isolated then Progress(before, rows, claimed, startTime) else Stamped(before, rows, claimed, startTime)
  }

  /** The same, except that claimed rows may still be in progress. */
  ghost predicate Stamped(before: Table, rows: Table, claimed: set<Id>, startTime: int)
  {
    && rows.Keys == before.Keys
    && (forall e | e in rows && e !in claimed :: rows[e] == before[e])
    && (forall e | e in claimed ::
          && e in rows && (rows[e].status == InProgress || AllowedStatus(rows[e].status))
          && rows[e].lastAttempt.Some? && rows[e].lastAttempt.value > startTime)
  }

  /** No transaction of an iteration that has claimed these rows fails, other than those of the clusters. */
  ghost predicate AllCommit(failures: Failures, claimed: set<Id>)
  {
    !failures.last && !failures.chunk && !failures.finalWrite && forall e | e in claimed :: !failures.hook(e)
  }

  /** Rows that were too early for an iteration at `base`. */
  ghost predicate PutOff(before: Table, delayed: set<Id>, base: int, cfg: Config)
  {
    forall e | e in delayed :: e in before && KindOf(before[e], base, cfg) == Delayed
  }

  lemma PutOffGrows(before: Table, old_: set<Id>, delayed: set<Id>, first: int, base: int, cfg: Config)
    requires first <= base && PutOff(before, old_, first, cfg) && PutOff(before, delayed - old_, base, cfg)
    ensures PutOff(before, delayed, first, cfg)
  {
    forall e | e in delayed ensures e in before && KindOf(before[e], first, cfg) == Delayed {
      if e !in old_ {
        assert e in delayed - old_;
        DueLater(before[e], first, base, cfg);
      }
    }
  }

  /** What was claimed in this run cannot be selected again by it; a row that was left in progress not
      before it is stuck. */
  lemma ClaimedNotSelectable(isolated: bool, before: Table, rows: Table, claimed: set<Id>, startTime: int, base: int,
                             cfg: Config, e: Id)
    requires After(isolated, before, rows, claimed, startTime) && e in claimed
    requires isolated || base < startTime + cfg.maxInProgress
    ensures !Selectable(rows[e], startTime, base, cfg)
  {
  }

  /** What an iteration selects is as it was, and was neither claimed nor put off before. */
  lemma ChosenAreNew(isolated: bool, before: Table, rows: Table, claimed: set<Id>, delayed: set<Id>, startTime: int, base: int,
                     cfg: Config, entries: seq<Id>)
    requires After(isolated, before, rows, claimed, startTime) && (isolated || base < startTime + cfg.maxInProgress)
    requires Elements(entries) <= Candidates(rows, startTime, base, cfg, delayed)
    ensures forall i | 0 <= i < |entries| :: entries[i] in rows
    ensures forall e | e in Elements(entries) :: e !in claimed && e !in delayed && e in before && rows[e] == before[e]
  {
    assert forall i | 0 <= i < |entries| :: entries[i] in Elements(entries);
    forall e | e in Elements(entries) ensures e !in claimed && e !in delayed && e in before && rows[e] == before[e] {
      assert e in Candidates(rows, startTime, base, cfg, delayed);
      if e in claimed { ClaimedNotSelectable(isolated, before, rows, claimed, startTime, base, cfg, e); }
    }
  }

  /** One iteration: its time, and what happens in it. */
  datatype Iteration = Iteration(base: int, check: Id -> Check, clustering: Clustering, outcomes: nat -> Outcome,
                                 hookOk: Id -> bool, failures: Failures)

  /** Of `n` iterations, every one but the first began before the run's time was over. */
  ghost predicate InTime(its: nat -> Iteration, n: nat, limit: int)
  {
    forall k: nat | 0 < k < n :: its(k).base < limit
  }

  lemma InTimeOneMore(its: nat -> Iteration, n: nat, limit: int)
    requires InTime(its, n, limit) && (n > 0 ==> its(n).base < limit)
    ensures InTime(its, n + 1, limit)
  {
  }

  /** What happens to the rows an iteration has claimed. */
  function WorkOn(rows: Table, taken: set<Id>, it: Iteration, cfg: Config): Work
  {
    Work(OfKind(rows, taken, Ready, it.base, cfg), OfKind(rows, taken, ExceededTries, it.base, cfg),
         OfKind(rows, taken, ExceededTriesExceeded, it.base, cfg), it.check, it.clustering, it.outcomes, it.hookOk)
  }

  /** The claimed rows have the status the iteration decides on. */
  ghost predicate Decided(isolated: bool, before: Table, rows: Table, taken: set<Id>, it: Iteration, cfg: Config)
  {
    forall e | e in taken :: e in rows && rows[e].status == EndStatus(isolated, WorkOn(before, taken, it, cfg), taken, e)
  }

  /** Nothing that the handlers report is null. */
  ghost predicate NullFree(outcomes: nat -> Outcome)
  {
    forall i: nat, j | outcomes(i).answer.Tuples? && 0 <= j < |outcomes(i).answer.tuples| ::
      outcomes(i).answer.tuples[j].Pair? ==> !outcomes(i).answer.tuples[j].report.Null?
  }

  /** No transaction of its own fails, and the final write does not throw. */
  ghost predicate GoesThrough(isolated: bool, it: Iteration, taken: set<Id>)
  {
    AllCommit(it.failures, taken) && (isolated || NullFree(it.outcomes))
  }

  ghost predicate ProcessedAt(row: Row, base: int)
  {
    row.lastAttempt == Some(base) && (row.status == InProgress || AllowedStatus(row.status))
  }

  /** Claims `entries` and processes them, to the end unless a transaction fails. */
  method ClaimAndProcess(db: Store, cfg: Config, isolated: bool, printed: Report -> string, entries: seq<Id>, it: Iteration)
    returns (taken: set<Id>, late: set<Id>, completed: bool)
    requires forall i | 0 <= i < |entries| :: entries[i] in db.rows
    modifies db
    ensures taken + late == Elements(entries) && taken !! late
    ensures forall e | e in late :: e in old(db.rows) && KindOf(old(db.rows)[e], it.base, cfg) == Delayed
    ensures db.rows.Keys == old(db.rows.Keys)
    ensures forall e | e in db.rows && e !in taken :: db.rows[e] == old(db.rows)[e]
    ensures forall e | e in taken :: e in db.rows && ProcessedAt(db.rows[e], it.base)
    ensures isolated && completed ==> forall e | e in taken :: AllowedStatus(db.rows[e].status)
    ensures completed ==> Decided(isolated, old(db.rows), db.rows, taken, it, cfg)
    ensures GoesThrough(isolated, it, taken) ==> completed
  {
    var p := new EventProcessor(cfg, isolated, printed);
    p.GetQueueEntriesAndSetToInProgress(db, entries, it.base, it.base);
    taken, late := p.selected, Elements(p.delayed);
    NewProcTakes(old(db.rows), Elements(entries), it.base, cfg);
    ghost var w := p.WorkFor(it.check, it.clustering, it.outcomes, it.hookOk);
    assert w == WorkOn(old(db.rows), taken, it, cfg) by { KindsOfTaken(old(db.rows), Elements(entries), it, cfg); }
    assert AllCommit(it.failures, taken) ==> p.ExceededCommit(it.failures) by { HooksTaken(p.exceededTries); }
    if NullFree(it.outcomes) { NeverNull(w); }
    completed := p.Iterate(db, it.check, it.clustering, it.outcomes, it.hookOk, it.base, it.failures);
  }

  lemma HooksTaken(tries: seq<Id>)
    ensures forall i | 0 <= i < |tries| :: tries[i] in Elements(tries)
  {
  }

  lemma KindsOfTaken(rows: Table, chunk: set<Id>, it: Iteration, cfg: Config)
    requires chunk <= rows.Keys
    ensures var p := NewProc(rows, chunk, it.base, it.base, cfg);
            var w := WorkOn(rows, p.seen.Keys, it, cfg);
            w.entries == p.ready && w.hooks == p.hooks && w.last == p.last
  {
  }

  lemma {:induction false} NoNullReport(tuples: seq<Tuple>, e: Id)
    requires forall j | 0 <= j < |tuples| && tuples[j].Pair? :: !tuples[j].report.Null?
    ensures Null !in ReportsOn(tuples, e)
  {
    if tuples != [] { NoNullReport(tuples[..|tuples| - 1], e); }
  }

  lemma NoNullOutcome(m: StatusMap, cluster: set<Id>, outcome: Outcome, e: Id)
    requires outcome.answer.Tuples? ==>
               forall j | 0 <= j < |outcome.answer.tuples| && outcome.answer.tuples[j].Pair? :: !outcome.answer.tuples[j].report.Null?
    ensures Null !in OutcomeReports(m, cluster, outcome, e)
  {
    if outcome.answer.Tuples? { NoNullReport(outcome.answer.tuples[..Accepted(m, outcome.answer.tuples)], e); }
  }

  lemma {:induction false} NoNullShared(m: StatusMap, clusters: seq<set<Id>>, outcomes: nat -> Outcome, e: Id, before: seq<Report>)
    requires NullFree(outcomes) && Null !in before
    ensures Null !in SharedReports(m, clusters, outcomes, e, before)
  {
    if clusters != [] {
      var n := |clusters| - 1;
      NoNullShared(m, clusters[..n], outcomes, e, before);
      NoNullOutcome(SharedMap(m, clusters[..n], outcomes), clusters[n], outcomes(n), e);
    }
  }

  lemma NeverNull(w: Work)
    requires NullFree(w.outcomes)
    ensures !NullReported(w)
  {
    forall e: Id ensures !LeadsToNull(AllReports(w, e)) {
      var checked := if e in w.entries then CheckReports(w.check(e)) else [];
      if w.clustering.Clusters? {
        NoNullShared(CheckMap(w.entries, w.check), w.clustering.clusters, w.outcomes, e, checked);
      }
      assert Null !in AllReports(w, e);
    }
  }

  lemma NewProcTakes(rows: Table, chunk: set<Id>, base: int, cfg: Config)
    requires chunk <= rows.Keys
    ensures var p := NewProc(rows, chunk, base, base, cfg);
            && p.seen.Keys <= chunk
            && forall e | e in chunk - p.seen.Keys :: KindOf(rows[e], base, cfg) == Delayed
  {
    forall e | e in chunk ensures e in NewProc(rows, chunk, base, base, cfg).seen || KindOf(rows[e], base, cfg) == Delayed {
      match KindOf(rows[e], base, cfg)
      case Delayed =>
      case Ready => assert e in OfKind(rows, chunk, Ready, base, cfg);
      case ExceededTries => assert e in OfKind(rows, chunk, ExceededTries, base, cfg);
      case ExceededTriesExceeded => assert e in OfKind(rows, chunk, ExceededTriesExceeded, base, cfg);
    }
  }

  /** What a run starts from: the table, and its parameters; its time is over at `limit`. */
  datatype Frame = Frame(before: Table, isolated: bool, startTime: int, limit: int, cfg: Config)

  /** Where a run is: the table, what each iteration claimed, all of it together, and the rows put off. */
  datatype Trail = Trail(rows: Table, chunks: seq<set<Id>>, claimed: set<Id>, delayed: set<Id>)

  /** No row is claimed by two iterations. */
  ghost predicate ClaimedOnce(t: Trail)
  {
    && (forall i | 0 <= i < |t.chunks| :: t.chunks[i] <= t.claimed)
    && (forall i, j | 0 <= i < j < |t.chunks| :: t.chunks[i] !! t.chunks[j])
  }

  /** The rows of the first `n` iterations ended as these decided. */
  ghost predicate AllDecided(f: Frame, its: nat -> Iteration, t: Trail, n: nat)
    requires n <= |t.chunks|
  {
    n == 0 || (AllDecided(f, its, t, n - 1) && Decided(f.isolated, f.before, t.rows, t.chunks[n - 1], its(n - 1), f.cfg))
  }

  /** The rows of the table a run has neither claimed nor put off. */
  function Untouched(f: Frame, t: Trail): set<Id>
  {
    f.before.Keys - t.claimed - t.delayed
  }

  /** A run between two iterations. */
  ghost predicate Going(f: Frame, its: nat -> Iteration, t: Trail)
  {
    && After(f.isolated, f.before, t.rows, t.claimed, f.startTime)
    && ClaimedOnce(t) && InTime(its, |t.chunks|, f.limit)
    && PutOff(f.before, t.delayed, its(0).base, f.cfg) && AllDecided(f, its, t, |t.chunks|)
  }

  /** A run whose last iteration did not complete. */
  ghost predicate Stopped(f: Frame, its: nat -> Iteration, t: Trail)
  {
    var n := |t.chunks| - 1;
    && n >= 0 && Stamped(f.before, t.rows, t.claimed, f.startTime)
    && ClaimedOnce(t) && InTime(its, n + 1, f.limit)
    && !GoesThrough(f.isolated, its(n), t.chunks[n]) && AllDecided(f, its, t, n)
  }

  /** The endings of a run that is to look for `more` after its first chunk, or not. */
  ghost predicate EndsAs(f: Frame, its: nat -> Iteration, t: Trail, more: bool, ending: Ending)
  {
    && (if ending.Failed? then Stopped(f, its, t) else Going(f, its, t))
    && (!more ==> |t.chunks| <= 1 && (ending.OneChunkOnly? || ending.Failed?))
    && (more ==> !ending.OneChunkOnly?) && !ending.GoOn?
    && (ending.EmptyChunk? ==> NothingLeft(f, its(0).base, its(|t.chunks|).base, t))
    && (ending.TimeExceeded? ==> |t.chunks| > 0 && f.limit <= its(|t.chunks|).base)
  }

  /** `reevaluateShouldContinue`. */
  function Reevaluate(more: bool, empty: bool, now: int, limit: int): Ending
  {
    if !more then OneChunkOnly
    else if empty then EmptyChunk
    else if limit > now then GoOn
    else TimeExceeded
  }

  lemma Ends(f: Frame, its: nat -> Iteration, t: Trail, more: bool, empty: bool, completed: bool)
    requires if completed then Going(f, its, t) else Stopped(f, its, t)
    requires (!more ==> |t.chunks| <= 1) && (t.chunks == [] ==> empty)
    requires empty ==> NothingLeft(f, its(0).base, its(|t.chunks|).base, t)
    ensures var ending := if completed then Reevaluate(more, empty, its(|t.chunks|).base, f.limit) else Failed;
            if ending.GoOn? then Going(f, its, t) else EndsAs(f, its, t, more, ending)
  {
  }

  /** With time left after every iteration and no failure a run that is to look for more ends on an empty
      chunk. */
  lemma EndsOnEmptyChunk(f: Frame, its: nat -> Iteration, t: Trail, ending: Ending)
    requires EndsAs(f, its, t, true, ending) && Unhindered(f, its, t)
    ensures ending.EmptyChunk?
  {
  }

  /** There was time left after every iteration, and none failed. */
  ghost predicate Unhindered(f: Frame, its: nat -> Iteration, t: Trail)
  {
    && InTime(its, |t.chunks| + 1, f.limit)
    && forall k: nat | k < |t.chunks| :: GoesThrough(f.isolated, its(k), t.chunks[k])
  }

  /** What an iteration that is not empty does: it claims rows that were not touched, and only those change. */
  ghost predicate Moved(f: Frame, it: Iteration, t: Trail, t': Trail, completed: bool)
  {
    var taken := t'.claimed - t.claimed;
    && t'.chunks == t.chunks + [taken] && t.claimed <= t'.claimed && t.delayed <= t'.delayed
    && Stamped(f.before, t'.rows, t'.claimed, f.startTime)
    && (completed ==> After(f.isolated, f.before, t'.rows, t'.claimed, f.startTime))
    && (completed ==> Decided(f.isolated, f.before, t'.rows, taken, it, f.cfg))
    && (!completed ==> !GoesThrough(f.isolated, it, taken))
    && (forall e | e in t.claimed && e in t.rows :: e in t'.rows && t'.rows[e] == t.rows[e])
    && PutOff(f.before, t'.delayed - t.delayed, it.base, f.cfg)
    && Untouched(f, t') < Untouched(f, t)
  }

  /** Claiming and processing some of the untouched rows. */
  lemma ItMoved(f: Frame, it: Iteration, t: Trail, rows: Table, entries: seq<Id>, taken: set<Id>, late: set<Id>, completed: bool)
    requires After(f.isolated, f.before, t.rows, t.claimed, f.startTime) && it.base > f.startTime
    requires entries != [] && taken + late == Elements(entries) && taken !! late && rows.Keys == t.rows.Keys
    requires forall e | e in Elements(entries) :: e !in t.claimed && e !in t.delayed && e in f.before && t.rows[e] == f.before[e]
    requires forall e | e in late :: KindOf(t.rows[e], it.base, f.cfg) == Delayed
    requires forall e | e in rows && e !in taken :: rows[e] == t.rows[e]
    requires forall e | e in taken :: ProcessedAt(rows[e], it.base)
    requires f.isolated && completed ==> forall e | e in taken :: AllowedStatus(rows[e].status)
    requires completed ==> Decided(f.isolated, t.rows, rows, taken, it, f.cfg)
    requires GoesThrough(f.isolated, it, taken) ==> completed
    ensures Moved(f, it, t, Trail(rows, t.chunks + [taken], t.claimed + taken, t.delayed + late), completed)
  {
    var t' := Trail(rows, t.chunks + [taken], t.claimed + taken, t.delayed + late);
    assert t'.claimed - t.claimed == taken;
    SameWork(f.before, t.rows, taken, it, f.cfg);
    assert entries[0] in Elements(entries);
    assert entries[0] in Untouched(f, t) && entries[0] !in Untouched(f, t');
  }

  lemma ClaimedOnceMore(f: Frame, it: Iteration, t: Trail, t': Trail, completed: bool)
    requires ClaimedOnce(t) && Moved(f, it, t, t', completed)
    ensures ClaimedOnce(t')
  {
  }

  /** Later iterations do not touch what earlier ones have claimed. */
  lemma {:induction false} StillDecided(f: Frame, its: nat -> Iteration, it: Iteration, t: Trail, t': Trail, completed: bool, n: nat)
    requires n <= |t.chunks| && ClaimedOnce(t) && AllDecided(f, its, t, n) && Moved(f, it, t, t', completed)
    ensures AllDecided(f, its, t', n)
  {
    if n > 0 {
      StillDecided(f, its, it, t, t', completed, n - 1);
      assert t'.chunks[n - 1] == t.chunks[n - 1] && t.chunks[n - 1] <= t.claimed;
    }
  }

  lemma Begins(f: Frame, its: nat -> Iteration)
    ensures Going(f, its, Trail(f.before, [], {}, {}))
  {
  }

  lemma GoesOn(f: Frame, its: nat -> Iteration, t: Trail, t': Trail)
    requires Going(f, its, t) && Moved(f, its(|t.chunks|), t, t', true)
    requires its(0).base <= its(|t.chunks|).base && (|t.chunks| > 0 ==> its(|t.chunks|).base < f.limit)
    ensures Going(f, its, t')
  {
    ClaimedOnceMore(f, its(|t.chunks|), t, t', true);
    StillDecided(f, its, its(|t.chunks|), t, t', true, |t.chunks|);
    InTimeOneMore(its, |t.chunks|, f.limit);
    PutOffGrows(f.before, t.delayed, t'.delayed, its(0).base, its(|t.chunks|).base, f.cfg);
  }

  lemma Stops(f: Frame, its: nat -> Iteration, t: Trail, t': Trail)
    requires Going(f, its, t) && Moved(f, its(|t.chunks|), t, t', false)
    requires |t.chunks| > 0 ==> its(|t.chunks|).base < f.limit
    ensures Stopped(f, its, t')
  {
    ClaimedOnceMore(f, its(|t.chunks|), t, t', false);
    StillDecided(f, its, its(|t.chunks|), t, t', false, |t.chunks|);
    InTimeOneMore(its, |t.chunks|, f.limit);
  }

  class QueueRun {
    const cfg: Config
    const isolated: bool
    const startTime: int
    const chunkSize: nat
    const checkForNextChunk: bool
    const runInterval: int
    const printed: Report -> string

    var chunks: seq<set<Id>>
    var claimed: set<Id>
    var delayed: set<Id>

    constructor (cfg: Config, isolated: bool, startTime: int, chunkSize: nat, checkForNextChunk: bool, runInterval: int,
                 printed: Report -> string)
      ensures this.cfg == cfg && this.isolated == isolated && this.startTime == startTime && this.chunkSize == chunkSize
      ensures this.checkForNextChunk == checkForNextChunk && this.runInterval == runInterval
      ensures chunks == [] && claimed == {} && delayed == {}
    {
      this.cfg, this.isolated, this.startTime, this.chunkSize := cfg, isolated, startTime, chunkSize;
      this.checkForNextChunk, this.runInterval, this.printed := checkForNextChunk, runInterval, printed;
      chunks, claimed, delayed := [], {}, {};
    }

    ghost function TrailIn(db: Store): Trail
      reads this, db
    {
      Trail(db.rows, chunks, claimed, delayed)
    }

    ghost predicate Frames(f: Frame)
    {
      f == Frame(f.before, isolated, startTime, startTime + runInterval, cfg)
    }

    /** One iteration: select, claim, process, write back. */
    method Chunk(db: Store, it: Iteration, ghost f: Frame) returns (empty: bool, completed: bool)
      requires Frames(f) && After(isolated, f.before, db.rows, claimed, startTime) && it.base > startTime && chunkSize > 0
      requires isolated || it.base < startTime + cfg.maxInProgress
      modifies this, db
      ensures empty <==> Candidates(old(db.rows), startTime, it.base, cfg, old(delayed)) == {}
      ensures empty ==> completed && TrailIn(db) == old(TrailIn(db))
      ensures !empty ==> Moved(f, it, old(TrailIn(db)), TrailIn(db), completed)
    {
      var entries := First(Candidates(db.rows, startTime, it.base, cfg, delayed), chunkSize);
      if entries == [] { return true, true; }
      ghost var t := TrailIn(db);
      ChosenAreNew(isolated, f.before, db.rows, claimed, delayed, startTime, it.base, cfg, entries);
      var taken, late;
      taken, late, completed := ClaimAndProcess(db, cfg, isolated, printed, entries, it);
      ItMoved(f, it, t, db.rows, entries, taken, late, completed);
      chunks, claimed, delayed := chunks + [taken], claimed + taken, delayed + late;
      empty := false;
    }

    /** Iteration number |chunks|. */
    method Advance(db: Store, its: nat -> Iteration, ghost f: Frame) returns (empty: bool, completed: bool, ghost t: Trail)
      requires Frames(f) && Going(f, its, TrailIn(db)) && chunkSize > 0
      requires var it := its(|chunks|);
               && startTime < it.base && its(0).base <= it.base && (|chunks| > 0 ==> it.base < startTime + runInterval)
               && (isolated || it.base < startTime + cfg.maxInProgress)
      modifies this, db
      ensures t == TrailIn(db)
      ensures if completed then Going(f, its, t) else Stopped(f, its, t)
      ensures empty ==> completed && chunks == old(chunks) && NothingLeft(f, its(0).base, its(|t.chunks|).base, t)
      ensures !empty ==> |chunks| == old(|chunks|) + 1 && |Untouched(f, t)| < |Untouched(f, old(TrailIn(db)))|
    {
      ghost var was := TrailIn(db);
      var it := its(|chunks|);
      empty, completed := Chunk(db, it, f);
      t := TrailIn(db);
      if empty {
        NothingDueLeft(f, its(0).base, it.base, t);
      } else {
        CardMono(Untouched(f, t), Untouched(f, was));
        if completed { GoesOn(f, its, was, t); } else { Stops(f, its, was, t); }
      }
    }

    /** The same, and then the decision whether to go on. */
    method Next(db: Store, its: nat -> Iteration, ghost f: Frame) returns (ending: Ending, ghost t: Trail)
      requires Frames(f) && Going(f, its, TrailIn(db)) && chunkSize > 0
      requires var it := its(|chunks|);
               && startTime < it.base && its(0).base <= it.base && (|chunks| > 0 ==> it.base < startTime + runInterval)
               && (isolated || it.base < startTime + cfg.maxInProgress)
      requires |chunks| > 0 ==> checkForNextChunk
      modifies this, db
      ensures t == TrailIn(db)
      ensures if ending.GoOn? then Going(f, its, t) else EndsAs(f, its, t, checkForNextChunk, ending)
      ensures ending.GoOn? ==>
                && checkForNextChunk && its(|chunks|).base < startTime + runInterval
                && |Untouched(f, t)| < |Untouched(f, old(TrailIn(db)))|
    {
      var empty, completed;
      empty, completed, t := Advance(db, its, f);
      Ends(f, its, t, checkForNextChunk, empty, completed);
      ending := if completed then Reevaluate(checkForNextChunk, empty, its(|chunks|).base, startTime + runInterval) else Failed;
    }

    /** The run.  `its(k)` is what happens in iteration `k`.  It always ends, and claims no row twice; if it
        ends on an empty chunk, then it has claimed every row that could be selected and was due when it
        began, and the only rows that can be selected at its end are those it has put off, however many
        they are.  It ends otherwise only when it is not to look for more, when its time is over, or when a
        transaction of an iteration failed; except for that last iteration every row it claimed has the
        status its iteration decided on.  Outside isolated mode rows can be left in progress, and all
        this holds for runs that are over before such a row is stuck. */
    method ProcessEventQueue(db: Store, its: nat -> Iteration) returns (ending: Ending, ghost f: Frame, ghost t: Trail)
      requires chunks == [] && claimed == {} && delayed == {} && chunkSize > 0
      requires forall k: nat :: startTime < its(k).base && its(0).base <= its(k).base
      requires isolated || forall k: nat :: its(k).base < startTime + cfg.maxInProgress
      modifies this, db
      ensures Frames(f) && f.before == old(db.rows) && t == TrailIn(db)
      ensures EndsAs(f, its, t, checkForNextChunk, ending)
    {
      f, t := Frame(db.rows, isolated, startTime, startTime + runInterval, cfg), TrailIn(db);
      Begins(f, its);
      while true
        invariant t == TrailIn(db) && Going(f, its, t)
        invariant |chunks| > 0 ==> checkForNextChunk && its(|chunks|).base < startTime + runInterval
        decreases |Untouched(f, t)|
      {
        ending, t := Next(db, its, f);
        if !ending.GoOn? { return; }
      }
    }
  }

  lemma SameWork(before: Table, rows: Table, taken: set<Id>, it: Iteration, cfg: Config)
    requires forall e | e in taken :: e in before && e in rows && rows[e] == before[e]
    ensures WorkOn(before, taken, it, cfg) == WorkOn(rows, taken, it, cfg)
  {
  }

  /** The rows that can be selected at `base` are those put off, and all that could be selected and were due
      at `first` are claimed. */
  ghost predicate NothingLeft(f: Frame, first: int, base: int, t: Trail)
  {
    && (forall e | e in t.rows && Selectable(t.rows[e], f.startTime, base, f.cfg) :: e in t.delayed)
    && (forall e | e in f.before && Selectable(f.before[e], f.startTime, first, f.cfg)
          && KindOf(f.before[e], first, f.cfg) != Delayed :: e in t.claimed)
  }

  lemma NothingDueLeft(f: Frame, first: int, base: int, t: Trail)
    requires Stamped(f.before, t.rows, t.claimed, f.startTime) && first <= base
    requires Candidates(t.rows, f.startTime, base, f.cfg, t.delayed) == {}
    requires PutOff(f.before, t.delayed, first, f.cfg)
    ensures NothingLeft(f, first, base, t)
  {
    forall e | e in t.rows && Selectable(t.rows[e], f.startTime, base, f.cfg) ensures e in t.delayed {
      assert e !in Candidates(t.rows, f.startTime, base, f.cfg, t.delayed);
    }
    forall e | e in f.before && Selectable(f.before[e], f.startTime, first, f.cfg) && KindOf(f.before[e], first, f.cfg) != Delayed
      ensures e in t.claimed
    {
      SelectableLater(f.before[e], f.startTime, first, base, f.cfg);
    }
  }
}
