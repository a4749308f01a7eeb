/** Several processors working on one event table (`src/EventQueueProcessorBase.js`,
    `src/processEventQueue.js`), as a step system.  Every database transaction is one step.
    A processor is one iteration of one run: it claims a chunk, handles it and ends. */
module RowProtocol {
  import opened EventTable
  import opened StatusReports

  type ProcId = nat

  datatype Proc = Proc(
    claimedAt: int,           // the stamp of its claim
    seen: map<Id, int>,       // every claimed row, with the attempts the select returned
    ready: set<Id>,           // __queueEntries: the rows handed to handlers
    hooks: set<Id>,           // rows whose exceeded hook is still to be called
    hooking: set<Id>,         // rows whose exceeded hook is running
    last: set<Id>,            // rows to be set to Exceeded without a hook
    etag: map<Id, int>,       // #etagMap
    unwritten: set<Id>,       // __notCommitedStatusMap
    waiting: set<Id>,         // rows whose handler has not been called
    running: set<Id>,         // rows whose handler is running
    reported: StatusMap,      // __statusMap, written by the final transaction
    outdated: set<Id>,        // __outdatedEventMap
    violated: bool,           // __keepAliveViolated
    started: set<Id>,         // rows whose handler has been called
    hooked: set<Id>,          // rows whose exceeded hook has been called
    live: bool)               // neither crashed nor finished

  datatype System = System(table: Table, procs: map<ProcId, Proc>, now: int)

  datatype Setup = Setup(cfg: Config, isolated: bool)

  datatype Step =
    | Claim(p: ProcId, startTime: int, base: int, chunk: set<Id>)
    | Prepare(p: ProcId, e: Id, report: Report)        // decided without calling the handler
    | LeaveOut(p: ProcId, e: Id)                       // clustering forgets the row
    | StartHandler(p: ProcId, cluster: set<Id>)
    | SkipHandler(p: ProcId, cluster: set<Id>)         // after a keep-alive violation
    | HandlerAnswers(p: ProcId, cluster: set<Id>, answer: Answer)
    | HandlerThrows(p: ProcId, cluster: set<Id>)
    | StartHook(p: ProcId, e: Id)
    | EndHook(p: ProcId, e: Id, ok: bool)
    | WriteLast(p: ProcId)
    | KeepAlive(p: ProcId)
    | Finish(p: ProcId)                                // the final status write
    | Crash(p: ProcId)
    | Tick(time: int)
    | Insert(e: Id, startAfter: Option<int>)

  // ----- what the steps do -----

  /** The rows a status write reaches: selected before, with an allowed status. */
  function Writes(m: StatusMap, selected: set<Id>): map<Id, Update>
  {
    map id | id in m && id in selected && UpdateOf(m[id]).Some? :: UpdateOf(m[id]).value
  }

  function ErrorFor(ids: set<Id>): map<Id, Update>
  {
    map id | id in ids :: Update(Error, None)
  }

  function ExceededFor(ids: set<Id>): map<Id, Update>
  {
    map id | id in ids :: Update(Exceeded, None)
  }

  function NewProc(table: Table, chunk: set<Id>, base: int, now: int, cfg: Config): Proc
  {
    var ready := OfKind(table, chunk, Ready, base, cfg);
    var hooks := OfKind(table, chunk, ExceededTries, base, cfg);
    var last := OfKind(table, chunk, ExceededTriesExceeded, base, cfg);
    Proc(now, map e | e in ready + hooks + last && e in table :: table[e].attempts,
         ready, hooks, {}, last, map e | e in ready :: now, ready, ready, {},
         map[], {}, false, {}, {}, true)
  }

  /** The rows the keep-alive select returns. */
  function Watched(table: Table, p: Proc): set<Id>
  {
    set e | e in p.unwritten && e in table && table[e].status == InProgress
  }

  function Valid(table: Table, p: Proc): set<Id>
  {
    set e | e in Watched(table, p) && e in p.etag && table[e].lastAttempt == Some(p.etag[e])
  }

  function AfterKeepAlive(table: Table, p: Proc, now: int): Proc
  {
    if p.violated then p else
      var valid := Valid(table, p);
      var outdated := Watched(table, p) - valid;
      p.(etag := map e | e in p.etag :: if e in valid then now else p.etag[e],
         outdated := p.outdated + outdated,
         violated := outdated != {})
  }

  function KeepAliveRows(table: Table, p: Proc, now: int): Table
  {
    if p.violated then table else RefreshRows(table, Valid(table, p), now)
  }

  /** The status map of the final write: what was reported, and Done for what is missing. */
  function FinalMap(p: Proc): StatusMap
  {
    p.reported + (map e | e in p.unwritten - p.reported.Keys - p.outdated :: DONE_REPORT)
  }

  function AnswerMap(u: Setup, p: Proc, cluster: set<Id>, answer: Answer): StatusMap
  {
    SetEventStatus(if u.isolated then map[] else p.reported, cluster, answer)
  }

  ghost predicate Enabled(u: Setup, s: System, step: Step)
  {
    match step
    case Claim(p, startTime, base, chunk) =>
      && p !in s.procs && startTime <= base <= s.now
      && forall e <- chunk :: e in s.table && Selectable(s.table[e], startTime, base, u.cfg)
    case Prepare(p, e, report) =>
      && p in s.procs && s.procs[p].live && e in s.procs[p].waiting
      && (report == DONE_REPORT || report == ERROR_REPORT)
    case LeaveOut(p, e) => p in s.procs && s.procs[p].live && e in s.procs[p].waiting
    case StartHandler(p, cluster) =>
      p in s.procs && s.procs[p].live && cluster <= s.procs[p].waiting && !s.procs[p].violated
    case SkipHandler(p, cluster) =>
      p in s.procs && s.procs[p].live && cluster <= s.procs[p].waiting && s.procs[p].violated
    case HandlerAnswers(p, cluster, answer) =>
      && p in s.procs && s.procs[p].live && cluster <= s.procs[p].running
      && var m := AnswerMap(u, s.procs[p], cluster, answer); forall id <- m :: !m[id].Null?
    case HandlerThrows(p, cluster) => p in s.procs && s.procs[p].live && cluster <= s.procs[p].running
    case StartHook(p, e) => p in s.procs && s.procs[p].live && e in s.procs[p].hooks
    case EndHook(p, e, ok) => p in s.procs && s.procs[p].live && e in s.procs[p].hooking
    case WriteLast(p) => p in s.procs && s.procs[p].live
    case KeepAlive(p) => p in s.procs && s.procs[p].live
    case Finish(p) =>
      && p in s.procs && s.procs[p].live
      && s.procs[p].waiting == s.procs[p].running == s.procs[p].hooks == s.procs[p].hooking == s.procs[p].last == {}
    case Crash(p) => p in s.procs
    case Tick(time) => s.now <= time
    case Insert(e, _) => e !in s.table
  }

  /** Processor `p` writes: the rows change, and what was written is no longer unwritten. */
  function Commit(u: Setup, s: System, p: ProcId, changed: Proc, writes: map<Id, Update>): System
  {
    System(WriteRows(s.table, writes, s.now, u.cfg),
           s.procs[p := changed.(unwritten := changed.unwritten - writes.Keys)], s.now)
  }

  function Apply(u: Setup, s: System, step: Step): System
    requires Enabled(u, s, step)
  {
    match step
    case Claim(p, startTime, base, chunk) =>
      var new_ := NewProc(s.table, chunk, base, s.now, u.cfg);
      System(ClaimRows(s.table, new_.seen.Keys, s.now), s.procs[p := new_], s.now)
    case Prepare(p, e, report) =>
      var x := s.procs[p];
      s.(procs := s.procs[p := x.(waiting := x.waiting - {e},
                                  reported := x.reported[e := Combine(Lookup(x.reported, e), report).value])])
    case LeaveOut(p, e) =>
      var x := s.procs[p];
      s.(procs := s.procs[p := x.(waiting := x.waiting - {e})])
    case StartHandler(p, cluster) =>
      var x := s.procs[p];
      s.(procs := s.procs[p := x.(waiting := x.waiting - cluster, running := x.running + cluster,
                                  started := x.started + cluster)])
    case SkipHandler(p, cluster) =>
      var x := s.procs[p];
      s.(procs := s.procs[p := x.(waiting := x.waiting - cluster)])
    case HandlerAnswers(p, cluster, answer) =>
      var x := s.procs[p].(running := s.procs[p].running - cluster);
      var m := AnswerMap(u, s.procs[p], cluster, answer);
      if u.isolated then Commit(u, s, p, x, Writes(m, x.seen.Keys))
      else s.(procs := s.procs[p := x.(reported := m)])
    case HandlerThrows(p, cluster) =>
      var x := s.procs[p].(running := s.procs[p].running - cluster,
                           reported := AddErrors(s.procs[p].reported, cluster));
      if u.isolated then Commit(u, s, p, x, ErrorFor(cluster)) else s.(procs := s.procs[p := x])
    case StartHook(p, e) =>
      var x := s.procs[p];
      s.(procs := s.procs[p := x.(hooks := x.hooks - {e}, hooking := x.hooking + {e}, hooked := x.hooked + {e})])
    case EndHook(p, e, ok) =>
      Commit(u, s, p, s.procs[p].(hooking := s.procs[p].hooking - {e}), if ok then ExceededFor({e}) else ErrorFor({e}))
    case WriteLast(p) =>
      Commit(u, s, p, s.procs[p].(last := {}), ExceededFor(s.procs[p].last))
    case KeepAlive(p) =>
      System(KeepAliveRows(s.table, s.procs[p], s.now),
             s.procs[p := AfterKeepAlive(s.table, s.procs[p], s.now)], s.now)
    case Finish(p) =>
      Commit(u, s, p, s.procs[p].(live := false), Writes(FinalMap(s.procs[p]), s.procs[p].seen.Keys))
    case Crash(p) => s.(procs := s.procs[p := s.procs[p].(live := false)])
    case Tick(time) => s.(now := time)
    case Insert(e, startAfter) => s.(table := s.table[e := Row(Open, 0, None, startAfter)])
  }

  // ----- runs -----

  ghost predicate Legal(u: Setup, s: System, steps: seq<Step>)
    decreases |steps|
  {
    steps == [] || (Enabled(u, s, steps[0]) && Legal(u, Apply(u, s, steps[0]), steps[1..]))
  }

  ghost function Run(u: Setup, s: System, steps: seq<Step>): System
    requires Legal(u, s, steps)
    decreases |steps|
  {
    if steps == [] then s else Run(u, Apply(u, s, steps[0]), steps[1..])
  }

  /** A table nobody works on yet. */
  ghost predicate Initial(s: System)
  {
    && s.procs == map[]
    && forall e <- s.table :: s.table[e].lastAttempt.Some? ==> s.table[e].lastAttempt.value <= s.now
  }

  // ----- ownership -----

  /** What a processor has claimed and not yet written a status for. */
  function Owned(p: Proc): set<Id>
  {
    p.unwritten + p.hooks + p.hooking + p.last
  }

  ghost predicate Owns(s: System, p: ProcId, e: Id)
  {
    p in s.procs && s.procs[p].live && e in Owned(s.procs[p])
  }

  /** The stamp the processor itself last put on the row. */
  function Touch(p: Proc, e: Id): int
  {
    if e in p.etag then p.etag[e] else p.claimedAt
  }
}
