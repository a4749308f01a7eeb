/** What an iteration makes of a claimed chunk, from what the checks, handlers and hooks do: the status every
    row ends with, in both modes. */
module ChunkOutcome {
  import opened EventTable
  import opened StatusReports
  import opened ReportSequences
  import opened RowProtocol

  /** What the payload check says about one entry. */
  datatype Check = Payload | NullPayload | UndefinedPayload | CheckThrows

  /** What happens to one cluster: the handler answers or throws, and the transaction that writes
      its status may fail. */
  datatype Outcome = Outcome(threw: bool, answer: Answer, commitFails: bool)

  /** Clustering and preparation of the whole chunk: some clusters, or an exception. */
  datatype Clustering = Clusters(clusters: seq<set<Id>>) | ClusteringThrows

  predicate HasNull(m: StatusMap)
  {
    exists id | id in m :: m[id].Null?
  }

  /** From `before` to `after` the rows in `put` got these statuses, the others kept theirs. */
  ghost predicate Put(before: Table, after: Table, put: map<Id, Status>)
  {
    && after.Keys == before.Keys
    && forall e | e in before :: after[e].status == if e in put then put[e] else before[e].status
  }

  lemma PutTwice(a: Table, b: Table, c: Table, first: map<Id, Status>, second: map<Id, Status>)
    requires Put(a, b, first) && Put(b, c, second)
    ensures Put(a, c, first + second)
  {
  }

  /** The statuses a write puts on rows. */
  function StatusesOf(m: StatusMap, selected: set<Id>): map<Id, Status>
  {
    map e | e in Writes(m, selected) :: Writes(m, selected)[e].status
  }

  /** The reports a cluster ends up with in isolated mode. */
  function ReportsOf(cluster: set<Id>, outcome: Outcome): StatusMap
  {
    if outcome.threw then map e | e in cluster :: ERROR_REPORT
    else SetEventStatus(map[], cluster, outcome.answer)
  }

  predicate Rejects(cluster: set<Id>, outcome: Outcome)
  {
    outcome.commitFails || HasNull(ReportsOf(cluster, outcome))
  }

  predicate AnyRejects(clusters: seq<set<Id>>, outcomes: nat -> Outcome)
  {
    exists i | 0 <= i < |clusters| :: Rejects(clusters[i], outcomes(i))
  }

  predicate Threw(clusters: seq<set<Id>>, outcomes: nat -> Outcome, e: Id)
  {
    exists i | 0 <= i < |clusters| :: outcomes(i).threw && e in clusters[i]
  }

  /** What one cluster's transaction writes, in isolated mode. */
  function ClusterPuts(cluster: set<Id>, outcome: Outcome, selected: set<Id>): map<Id, Status>
  {
    if Rejects(cluster, outcome) then map[] else StatusesOf(ReportsOf(cluster, outcome), selected)
  }

  /** What the clusters' transactions write, one after the other. */
  function ClustersPut(clusters: seq<set<Id>>, outcomes: nat -> Outcome, selected: set<Id>): map<Id, Status>
  {
    if clusters == [] then map[]
    else
      var n := |clusters| - 1;
      ClustersPut(clusters[..n], outcomes, selected) + ClusterPuts(clusters[n], outcomes(n), selected)
  }

  function ChunkPuts(clustering: Clustering, outcomes: nat -> Outcome, selected: set<Id>): map<Id, Status>
  {
    if clustering.Clusters? then ClustersPut(clustering.clusters, outcomes, selected) else map[]
  }

  // ----- what the reports on an entry add up to -----

  /** What a cluster reports on an entry, when `m` is recorded already: a throw is an Error for each of its
      own entries. */
  function OutcomeReports(m: StatusMap, cluster: set<Id>, outcome: Outcome, e: Id): seq<Report>
  {
    if !outcome.threw then Effective(m, cluster, outcome.answer, e)
    else if e in cluster then [ERROR_REPORT]
    else []
  }

  /** In isolated mode a cluster's transaction writes the entries on which its reports lead to an allowed
      status, with that status. */
  lemma ClusterPutsByReports(cluster: set<Id>, outcome: Outcome, selected: set<Id>, e: Id)
    ensures var puts, status := ClusterPuts(cluster, outcome, selected), StatusFrom(OutcomeReports(map[], cluster, outcome, e));
            && (e in puts <==> !Rejects(cluster, outcome) && e in selected && status.Some?)
            && (e in puts ==> puts[e] == status.value)
  {
    var reports := OutcomeReports(map[], cluster, outcome, e);
    OutcomeRecords(map[], cluster, outcome, e, []);
    assert [] + reports == reports;
    var r := Lookup(ReportsOf(cluster, outcome), e);
    assert RecordsReports(r, reports) by { IsolatedRecords(cluster, outcome, e); }
    if reports != [] { AllowedIff(r, reports); }
  }

  lemma IsolatedRecords(cluster: set<Id>, outcome: Outcome, e: Id)
    ensures Lookup(ReportsOf(cluster, outcome), e) == Lookup(OutcomeMap(map[], cluster, outcome), e)
  {
  }

  /** The status map after one cluster outside isolated mode. */
  function OutcomeMap(m: StatusMap, cluster: set<Id>, outcome: Outcome): StatusMap
  {
    if outcome.threw then AddErrors(m, cluster) else SetEventStatus(m, cluster, outcome.answer)
  }

  lemma OutcomeRecords(m: StatusMap, cluster: set<Id>, outcome: Outcome, e: Id, before: seq<Report>)
    requires RecordsReports(Lookup(m, e), before)
    ensures RecordsReports(Lookup(OutcomeMap(m, cluster, outcome), e), before + OutcomeReports(m, cluster, outcome, e))
  {
    if !outcome.threw {
      AnswerRecords(m, cluster, outcome.answer, e, before);
    } else if e in cluster {
      ReportOneMore(Lookup(m, e), before, ERROR_REPORT);
    } else {
      assert before + [] == before;
    }
  }

  /** The status map after all clusters outside isolated mode. */
  function SharedMap(m: StatusMap, clusters: seq<set<Id>>, outcomes: nat -> Outcome): StatusMap
  {
    if clusters == [] then m
    else var n := |clusters| - 1; OutcomeMap(SharedMap(m, clusters[..n], outcomes), clusters[n], outcomes(n))
  }

  /** `before`, and then everything the clusters report on an entry. */
  function SharedReports(m: StatusMap, clusters: seq<set<Id>>, outcomes: nat -> Outcome, e: Id, before: seq<Report>): seq<Report>
  {
    if clusters == [] then before
    else
      var n := |clusters| - 1;
      SharedReports(m, clusters[..n], outcomes, e, before)
      + OutcomeReports(SharedMap(m, clusters[..n], outcomes), clusters[n], outcomes(n), e)
  }

  lemma {:induction false} SharedRecords(m: StatusMap, clusters: seq<set<Id>>, outcomes: nat -> Outcome, e: Id, before: seq<Report>)
    requires RecordsReports(Lookup(m, e), before)
    ensures RecordsReports(Lookup(SharedMap(m, clusters, outcomes), e), SharedReports(m, clusters, outcomes, e, before))
  {
    if clusters != [] {
      var n := |clusters| - 1;
      SharedRecords(m, clusters[..n], outcomes, e, before);
      OutcomeRecords(SharedMap(m, clusters[..n], outcomes), clusters[n], outcomes(n), e, SharedReports(m, clusters[..n], outcomes, e, before));
    }
  }

  /** What the payload check reports on an entry. */
  function CheckReports(check: Check): seq<Report>
  {
    match check
    case Payload => []
    case NullPayload => [DONE_REPORT]
    case UndefinedPayload => [ERROR_REPORT]
    case CheckThrows => [ERROR_REPORT]
  }

  function CheckMap(entries: set<Id>, check: Id -> Check): StatusMap
  {
    map e | e in entries && check(e) != Payload :: CheckReports(check(e))[0]
  }

  /** The status map after the handlers outside isolated mode, and everything reported on an entry by then. */
  function ChunkMap(m: StatusMap, entries: set<Id>, clustering: Clustering, outcomes: nat -> Outcome): StatusMap
  {
    if clustering.Clusters? then SharedMap(m, clustering.clusters, outcomes) else AddErrors(m, entries)
  }

  function ChunkReports(m: StatusMap, entries: set<Id>, clustering: Clustering, outcomes: nat -> Outcome, e: Id, before: seq<Report>): seq<Report>
  {
    if clustering.Clusters? then SharedReports(m, clustering.clusters, outcomes, e, before)
    else if e in entries then before + [ERROR_REPORT]
    else before
  }

  lemma ChunkRecords(m: StatusMap, entries: set<Id>, clustering: Clustering, outcomes: nat -> Outcome, e: Id, before: seq<Report>)
    requires RecordsReports(Lookup(m, e), before)
    ensures RecordsReports(Lookup(ChunkMap(m, entries, clustering, outcomes), e),
                           ChunkReports(m, entries, clustering, outcomes, e, before))
  {
    if clustering.Clusters? {
      SharedRecords(m, clustering.clusters, outcomes, e, before);
    } else if e in entries {
      ReportOneMore(Lookup(m, e), before, ERROR_REPORT);
    }
  }

  // ----- the status every row ends with -----

  /** What happens to a chunk, besides failing transactions. */
  datatype Work = Work(entries: set<Id>, hooks: set<Id>, last: set<Id>,
                       check: Id -> Check, clustering: Clustering, outcomes: nat -> Outcome, hookOk: Id -> bool)

  predicate AnyPayload(w: Work)
  {
    exists e | e in w.entries :: w.check(e) == Payload
  }

  /** After the exceeded events were handled. */
  function HookStatus(w: Work, e: Id): Status
  {
    if e in w.last || (e in w.hooks && w.hookOk(e)) then Exceeded
    else if e in w.hooks then Error
    else InProgress
  }

  /** All that is reported on an entry outside isolated mode. */
  function AllReports(w: Work, e: Id): seq<Report>
  {
    var checked := if e in w.entries then CheckReports(w.check(e)) else [];
    if AnyPayload(w) then ChunkReports(CheckMap(w.entries, w.check), w.entries, w.clustering, w.outcomes, e, checked) else checked
  }

  /** Outside isolated mode the final write decides: by the reports, if they lead to an allowed status, with
      Done for an entry without any report. */
  function SharedEnd(w: Work, e: Id): Status
  {
    var reports := AllReports(w, e);
    if StatusFrom(reports).Some? then StatusFrom(reports).value
    else if reports == [] && e in w.entries then Done
    else HookStatus(w, e)
  }

  /** The final write sets a row to Error, whatever was committed for it before: its handler threw, or the
      clustering threw or the transaction of any cluster of the chunk failed. */
  predicate ErrorAtEnd(entries: set<Id>, clustering: Clustering, outcomes: nat -> Outcome, e: Id)
  {
    || (e in entries && (clustering.ClusteringThrows? || AnyRejects(clustering.clusters, outcomes)))
    || (clustering.Clusters? && Threw(clustering.clusters, outcomes, e))
  }

  /** In isolated mode the check decides, then an Error at the end, then what the clusters have committed;
      an entry without any report is Done. */
  function IsolatedEnd(w: Work, selected: set<Id>, e: Id): Status
  {
    var puts := ChunkPuts(w.clustering, w.outcomes, selected);
    if e in w.entries && w.check(e) == NullPayload then Done
    else if e in w.entries && w.check(e) != Payload then Error
    else if AnyPayload(w) && ErrorAtEnd(w.entries, w.clustering, w.outcomes, e) then Error
    else if AnyPayload(w) && e in puts then puts[e]
    else if e in w.entries then Done
    else HookStatus(w, e)
  }

  /** The status of a row after an iteration that completes. */
  function EndStatus(isolated: bool, w: Work, selected: set<Id>, e: Id): Status
  {
    if isolated then IsolatedEnd(w, selected, e) else SharedEnd(w, e)
  }

  /** Before the final write. */
  function HandledStatus(isolated: bool, w: Work, selected: set<Id>, e: Id): Status
  {
    var puts := ChunkPuts(w.clustering, w.outcomes, selected);
    if isolated && AnyPayload(w) && e in puts then puts[e] else HookStatus(w, e)
  }

  /** After an iteration that gets through the exceeded events, or not, and completes, or not. */
  function StatusAfter(isolated: bool, w: Work, selected: set<Id>, exceeded: bool, completed: bool, reached: set<Id>, e: Id): Status
  {
    if completed then EndStatus(isolated, w, selected, e)
    else if exceeded then HandledStatus(isolated, w, selected, e)
    else if e in reached then HookStatus(w, e)
    else InProgress
  }

  predicate LeadsToNull(reports: seq<Report>)
  {
    reports != [] && Codes(reports) == [] && reports[|reports| - 1].Null?
  }

  /** Some id ends up with a null, which makes the final write throw. */
  ghost predicate NullReported(w: Work)
  {
    exists e: Id :: LeadsToNull(AllReports(w, e))
  }

  /** A row that was committed as Done ends as Error because another cluster's transaction failed. */
  lemma FailedClusterUndoesDone(w: Work)
    requires w.entries == {0, 1} && w.check(0) == w.check(1) == Payload && w.clustering == Clusters([{0}, {1}])
    requires w.outcomes(0) == Outcome(false, Tuples([Pair(0, DONE_REPORT)]), false) && w.outcomes(1).commitFails
    ensures var puts := ChunkPuts(w.clustering, w.outcomes, {0, 1});
            0 in puts && puts[0] == Done && IsolatedEnd(w, {0, 1}, 0) == Error
  {
    var clusters: seq<set<Id>> := [{0}, {1}];
    var tuples := [Pair(0, DONE_REPORT)];
    assert tuples[1..] == [];
    var m: StatusMap := map[];
    assert AddReports(m, tuples) == AddReports(m[0 := DONE_REPORT], []);
    assert ReportsOf({0}, w.outcomes(0)) == map[0 := DONE_REPORT];
    assert clusters[..1] == [{0}] && clusters[..1][..0] == [];
    assert Writes(ReportsOf({0}, w.outcomes(0)), {0, 1}) == map[0 := Update(Done, None)];
    assert ClustersPut(clusters[..1], w.outcomes, {0, 1}) == map[0 := Done];
    assert Rejects(clusters[1], w.outcomes(1));
  }

  lemma CheckOneMore(entries: set<Id>, check: Id -> Check, e: Id)
    ensures CheckMap(entries + {e}, check) ==
            if check(e) == Payload then CheckMap(entries, check) else CheckMap(entries, check)[e := CheckReports(check(e))[0]]
  {
  }

  /** The status map of the final write. */
  function LastMap(m: StatusMap, entries: set<Id>, committed: set<Id>): StatusMap
  {
    m + map e | e in entries - m.Keys - committed :: DONE_REPORT
  }

  lemma LastMapNull(m: StatusMap, entries: set<Id>, committed: set<Id>)
    ensures HasNull(LastMap(m, entries, committed)) <==> HasNull(m)
  {
    var all := LastMap(m, entries, committed);
    if id :| id in m && m[id].Null? { assert all[id].Null?; }
  }

  /** Nothing but Done and Error is noted. */
  ghost predicate Plain(m: StatusMap)
  {
    forall e | e in m :: m[e] == DONE_REPORT || m[e] == ERROR_REPORT
  }

  lemma PlainChecks(w: Work)
    ensures Plain(CheckMap(w.entries, w.check)) && !HasNull(CheckMap(w.entries, w.check))
  {
  }

  /** In isolated mode, from `m` to `after`, a row that had no status has an Error exactly if its handler threw
      or all entries are rejected. */
  ghost predicate Noted(m: StatusMap, after: StatusMap, entries: set<Id>, rejected: bool, clusters: seq<set<Id>>, outcomes: nat -> Outcome)
  {
    && (forall e | e in m :: e in after && after[e] == m[e])
    && (forall e: Id | e !in m :: e in after <==> (rejected && e in entries) || Threw(clusters, outcomes, e))
    && (forall e | e in after && e !in m :: after[e] == ERROR_REPORT)
  }

  ghost predicate NotedAtEnd(m: StatusMap, after: StatusMap, entries: set<Id>, clustering: Clustering, outcomes: nat -> Outcome)
  {
    && (forall e | e in m :: e in after && after[e] == m[e])
    && (forall e: Id | e !in m :: e in after <==> ErrorAtEnd(entries, clustering, outcomes, e))
    && (forall e | e in after && e !in m :: after[e] == ERROR_REPORT)
  }

  lemma NotedOneMore(m: StatusMap, noted: StatusMap, after: StatusMap, entries: set<Id>, clusters: seq<set<Id>>, i: nat,
                     outcomes: nat -> Outcome)
    requires i < |clusters| && Plain(m) && Noted(m, noted, entries, false, clusters[..i], outcomes)
    requires after == if outcomes(i).threw then AddErrors(noted, clusters[i]) else noted
    ensures Noted(m, after, entries, false, clusters[..i + 1], outcomes)
    ensures AnyRejects(clusters[..i + 1], outcomes) <==> AnyRejects(clusters[..i], outcomes) || Rejects(clusters[i], outcomes(i))
  {
    var longer := clusters[..i + 1];
    assert forall k | 0 <= k < i :: longer[k] == clusters[..i][k];
    assert longer[i] == clusters[i];
    forall e: Id ensures Threw(longer, outcomes, e) <==> Threw(clusters[..i], outcomes, e) || (outcomes(i).threw && e in clusters[i]) {
      ThrewOneMore(clusters, i, outcomes, e);
    }
  }

  lemma ThrewOneMore(clusters: seq<set<Id>>, i: nat, outcomes: nat -> Outcome, e: Id)
    requires i < |clusters|
    ensures Threw(clusters[..i + 1], outcomes, e) <==> Threw(clusters[..i], outcomes, e) || (outcomes(i).threw && e in clusters[i])
  {
    var longer := clusters[..i + 1];
    if k :| 0 <= k < |longer| && outcomes(k).threw && e in longer[k] {
      if k < i { assert e in clusters[..i][k]; }
    }
    if k :| 0 <= k < i && outcomes(k).threw && e in clusters[..i][k] { assert e in longer[k]; }
    if outcomes(i).threw && e in clusters[i] { assert e in longer[i]; }
  }

  lemma NotedForAll(m: StatusMap, noted: StatusMap, entries: set<Id>, clusters: seq<set<Id>>, outcomes: nat -> Outcome)
    requires Plain(m) && Noted(m, noted, entries, false, clusters, outcomes)
    ensures Noted(m, AddErrors(noted, entries), entries, true, clusters, outcomes)
  {
  }

  // ----- from the maps to the status of each row -----

  /** What the status map holds for an entry before the final write, in isolated mode and outside it. */
  ghost predicate NotedFor(isolated: bool, w: Work, m: StatusMap)
  {
    var checks := CheckMap(w.entries, w.check);
    if !AnyPayload(w) then m == checks
    else if isolated then NotedAtEnd(checks, m, w.entries, w.clustering, w.outcomes)
    else m == ChunkMap(checks, w.entries, w.clustering, w.outcomes)
  }

  lemma SharedRecorded(w: Work, m: StatusMap, e: Id)
    requires NotedFor(false, w, m)
    ensures RecordsReports(Lookup(m, e), AllReports(w, e))
  {
    var checks, told := CheckMap(w.entries, w.check), if e in w.entries then CheckReports(w.check(e)) else [];
    assert RecordsReports(Lookup(checks, e), told) by {
      if told != [] {
        assert [] + told == told && told[..0] == [];
        ReportOneMore(None, [], told[0]);
      }
    }
    if AnyPayload(w) { ChunkRecords(checks, w.entries, w.clustering, w.outcomes, e, told); }
  }

  lemma SharedEndIs(w: Work, selected: set<Id>, m: StatusMap, committed: set<Id>, e: Id)
    requires NotedFor(false, w, m) && e in selected && committed !! w.entries
    ensures var puts := StatusesOf(LastMap(m, w.entries, committed), selected);
            SharedEnd(w, e) == if e in puts then puts[e] else HookStatus(w, e)
  {
    SharedRecorded(w, m, e);
    if AllReports(w, e) != [] { AllowedIff(Lookup(m, e), AllReports(w, e)); }
  }

  lemma SharedNullIff(w: Work, m: StatusMap)
    requires NotedFor(false, w, m)
    ensures HasNull(m) <==> NullReported(w)
  {
    if id :| id in m && m[id].Null? {
      SharedRecorded(w, m, id);
      assert LeadsToNull(AllReports(w, id));
    }
    if e :| LeadsToNull(AllReports(w, e)) {
      SharedRecorded(w, m, e);
      assert e in m && m[e].Null?;
    }
  }

  lemma IsolatedEndIs(w: Work, selected: set<Id>, m: StatusMap, committed: set<Id>, puts: map<Id, Status>, e: Id)
    requires NotedFor(true, w, m) && e in selected
    requires puts == if AnyPayload(w) then ChunkPuts(w.clustering, w.outcomes, selected) else map[]
    requires e in w.entries && e !in m ==> (e in committed <==> e in puts)
    ensures var all := puts + StatusesOf(LastMap(m, w.entries, committed), selected);
            IsolatedEnd(w, selected, e) == if e in all then all[e] else HookStatus(w, e)
  {
    LastStatus(m, w.entries, committed, selected, e);
    assert e in CheckMap(w.entries, w.check) <==> e in w.entries && w.check(e) != Payload;
  }

  lemma LastStatus(m: StatusMap, entries: set<Id>, committed: set<Id>, selected: set<Id>, e: Id)
    requires e in selected
    ensures var puts := StatusesOf(LastMap(m, entries, committed), selected);
            && (e in m && m[e] == ERROR_REPORT ==> e in puts && puts[e] == Error)
            && (e in m && m[e] == DONE_REPORT ==> e in puts && puts[e] == Done)
            && (e !in m ==> (e in puts <==> e in entries && e !in committed))
            && (e !in m && e in puts ==> puts[e] == Done)
  {
  }

  lemma IsolatedNoNull(w: Work, m: StatusMap)
    requires NotedFor(true, w, m)
    ensures !HasNull(m)
  {
    PlainChecks(w);
  }

  lemma HandledIsEnd(isolated: bool, w: Work, selected: set<Id>, m: StatusMap, committed: set<Id>, puts: map<Id, Status>)
    requires NotedFor(isolated, w, m)
    requires puts == if isolated && AnyPayload(w) then ChunkPuts(w.clustering, w.outcomes, selected) else map[]
    requires !isolated || !AnyPayload(w) ==> committed !! w.entries
    requires isolated ==> forall e | e in w.entries && e !in m :: e in committed <==> e in puts
    ensures HasNull(m) <==> !isolated && NullReported(w)
    ensures var all := puts + StatusesOf(LastMap(m, w.entries, committed), selected);
            forall e | e in selected :: EndStatus(isolated, w, selected, e) == if e in all then all[e] else HookStatus(w, e)
    ensures forall e | e in selected :: HandledStatus(isolated, w, selected, e) == if e in puts then puts[e] else HookStatus(w, e)
  {
    if isolated { IsolatedNoNull(w, m); } else { SharedNullIff(w, m); }
    forall e | e in selected
      ensures var all := puts + StatusesOf(LastMap(m, w.entries, committed), selected);
              EndStatus(isolated, w, selected, e) == (if e in all then all[e] else HookStatus(w, e))
    {
      if isolated { IsolatedEndIs(w, selected, m, committed, puts, e); }
      else { SharedEndIs(w, selected, m, committed, e); }
    }
  }

  lemma IsolatedEndAllowed(w: Work, selected: set<Id>, e: Id)
    requires e in w.entries + w.hooks + w.last
    ensures AllowedStatus(IsolatedEnd(w, selected, e))
  {
    var puts := ChunkPuts(w.clustering, w.outcomes, selected);
    if w.clustering.Clusters? && e in puts { ClustersPutAllowed(w.clustering.clusters, w.outcomes, selected, e); }
  }

  lemma {:induction false} ClustersPutAllowed(clusters: seq<set<Id>>, outcomes: nat -> Outcome, selected: set<Id>, e: Id)
    requires e in ClustersPut(clusters, outcomes, selected)
    ensures AllowedStatus(ClustersPut(clusters, outcomes, selected)[e])
  {
    var n := |clusters| - 1;
    if e !in ClusterPuts(clusters[n], outcomes(n), selected) { ClustersPutAllowed(clusters[..n], outcomes, selected, e); }
  }
}
