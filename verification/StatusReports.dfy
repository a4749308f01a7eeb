/** From what a handler reports to what the rows get: aggregation of reports
    (`setEventStatus`, `#determineAndAddEventStatusToMap`) and the grouped status write
    (`persistEventStatus`). */
module StatusReports {
  import opened EventTable

  /** A reported value.  A plain number becomes an object with that status; a missing or
      non-numeric status is None, and so is that of a non-empty string or `true`, which act like
      an object without fields; Falsy is the empty string or `false`. */
  datatype Report =
    | Object(status: Option<int>, startAfter: Option<int>)
    | Falsy
    | Undefined
    | Null

  type StatusMap = map<Id, Report>

  const ERROR_REPORT: Report := Object(Some(3), None)
  const DONE_REPORT: Report := Object(Some(2), None)

  /** One tuple of the handler's answer; a value that cannot be destructured is Malformed. */
  datatype Tuple = Pair(id: Id, report: Report) | Malformed

  /** The answer: nothing, something that is no array, or an array of tuples. */
  datatype Answer = Nothing | NoArray | Tuples(tuples: seq<Tuple>)

  predicate AllowedCode(code: int)
  {
    code == 0 || code == 2 || code == 3 || code == 4
  }

  predicate AllowedStatus(s: Status)
  {
    s == Open || s == Done || s == Error || s == Exceeded
  }

  function StatusOf(code: int): (s: Option<Status>)
    ensures s.Some? <==> AllowedCode(code)
    ensures s.Some? ==> AllowedStatus(s.value)
  {
    if code == 0 then Some(Open)
    else if code == 2 then Some(Done)
    else if code == 3 then Some(Error)
    else if code == 4 then Some(Exceeded)
    else None
  }

  /** The update an allowed report leads to; None for a status that is not allowed. */
  function UpdateOf(r: Report): Option<Update>
  {
    if !r.Object? || r.status.None? then None
    else
      var s := StatusOf(r.status.value);
      if s.None? then None else Some(Update(s.value, r.startAfter))
  }

  /** The aggregation rule for one id; None if it throws, which it does when it has to compare
      with a value whose properties cannot be read. */
  function Combine(recorded: Option<Report>, report: Report): (r: Option<Report>)
    ensures report.Object? ==> r.Some? && r.value.Object?
  {
    if recorded.None? || !recorded.value.Object? then Some(report)
    else if recorded.value.status == Some(3) || recorded.value.status == Some(4) then recorded
    else if report.Undefined? || report.Null? then None
    else if report.Object? && recorded.value.status.Some? && report.status.Some?
            && recorded.value.status.value >= report.status.value then Some(report)
    else recorded
  }

  function Lookup(m: StatusMap, id: Id): Option<Report>
  {
    if id in m then Some(m[id]) else None
  }

  /** Reports in order, up to the first one that throws. */
  function AddReports(m: StatusMap, tuples: seq<Tuple>): (r: (StatusMap, bool))
    ensures m.Keys <= r.0.Keys
    ensures forall id <- r.0 :: id in m || exists t <- tuples :: t.Pair? && t.id == id
    decreases |tuples|
  {
    if tuples == [] then (m, true)
    else if tuples[0].Malformed? then (m, false)
    else
      var c := Combine(Lookup(m, tuples[0].id), tuples[0].report);
      if c.None? then (m, false) else AddReports(m[tuples[0].id := c.value], tuples[1..])
  }

  /** An Error report for every entry, still subject to the aggregation rule. */
  function AddErrors(m: StatusMap, entries: set<Id>): (r: StatusMap)
    ensures r.Keys == m.Keys + entries
  {
    map id | id in m.Keys + entries :: if id in entries then Combine(Lookup(m, id), ERROR_REPORT).value else m[id]
  }

  /** `setEventStatus`: an answer that cannot be read sets the handed-out entries to Error. */
  function SetEventStatus(m: StatusMap, entries: set<Id>, answer: Answer): (r: StatusMap)
    ensures m.Keys <= r.Keys
    ensures !Readable(m, answer) ==> entries <= r.Keys
    ensures !Readable(m, answer) ==> forall id | id in entries && id !in ReportedBefore(m, answer) :: r[id] == ERROR_REPORT
    ensures Readable(m, answer) ==> r == ReportedBefore(m, answer)
  {
    match answer
    case Nothing => AddErrors(m, entries)
    case NoArray => AddErrors(m, entries)
    case Tuples(tuples) =>
      var added := AddReports(m, tuples);
      if added.1 then added.0 else AddErrors(added.0, entries)
  }

  /** An array of tuples that can all be added. */
  predicate Readable(m: StatusMap, answer: Answer)
  {
    answer.Tuples? && AddReports(m, answer.tuples).1
  }

  /** What is recorded before an unreadable answer is noticed. */
  function ReportedBefore(m: StatusMap, answer: Answer): StatusMap
  {
    if answer.Tuples? then AddReports(m, answer.tuples).0 else m
  }

  // ----- what a sequence of reports adds up to -----

  predicate AllowedTuple(t: Tuple)
  {
    t.Pair? && UpdateOf(t.report).Some?
  }

  predicate AllAllowed(tuples: seq<Tuple>)
  {
    forall i | 0 <= i < |tuples| :: AllowedTuple(tuples[i])
  }

  /** The status codes reported for `id`, in order. */
  function CodesFor(tuples: seq<Tuple>, id: Id): seq<int>
    requires AllAllowed(tuples)
  {
    if tuples == [] then []
    else (if tuples[0].id == id then [tuples[0].report.status.value] else []) + CodesFor(tuples[1..], id)
  }

  /** The documented outcome: the first report if it is Error or Exceeded, otherwise Open if any
      report is Open, otherwise Done. */
  function Outcome(codes: seq<int>): int
    requires codes != []
  {
    if codes[0] == 3 || codes[0] == 4 then codes[0] else if 0 in codes then 0 else 2
  }

  ghost predicate Records(r: Option<Report>, codes: seq<int>)
  {
    if codes == [] then r.None?
    else r.Some? && r.value.Object? && r.value.status == Some(Outcome(codes))
  }

  lemma {:induction false} AddReportsRecords(m: StatusMap, tuples: seq<Tuple>, id: Id, before: seq<int>)
    requires AllAllowed(tuples)
    requires forall i | 0 <= i < |before| :: AllowedCode(before[i])
    requires forall k <- m :: m[k].Object?
    requires Records(Lookup(m, id), before)
    ensures AddReports(m, tuples).1
    ensures Records(Lookup(AddReports(m, tuples).0, id), before + CodesFor(tuples, id))
    decreases |tuples|
  {
    if tuples == [] {
      assert before + [] == before;
    } else {
      var t := tuples[0];
      var code := t.report.status.value;
      var c := Combine(Lookup(m, t.id), t.report);
      var next := m[t.id := c.value];
      if t.id == id {
        var longer := before + [code];
        assert longer + CodesFor(tuples[1..], id) == before + CodesFor(tuples, id);
        assert Records(Lookup(next, id), longer) by {
          if before != [] {
            assert longer[0] == before[0];
            assert 0 in longer <==> 0 in before || code == 0;
          }
        }
        AddReportsRecords(next, tuples[1..], id, longer);
      } else {
        assert [] + CodesFor(tuples[1..], id) == CodesFor(tuples[1..], id);
        AddReportsRecords(next, tuples[1..], id, before);
      }
    }
  }

  /** For every sequence of allowed reports, whatever is reported about other events in between. */
  lemma RecordedStatus(tuples: seq<Tuple>, id: Id)
    requires AllAllowed(tuples)
    ensures var m, codes := AddReports(map[], tuples).0, CodesFor(tuples, id);
            && (codes == [] <==> id !in m)
            && (codes != [] ==> m[id].Object? && m[id].status == Some(Outcome(codes)))
  {
    AddReportsRecords(map[], tuples, id, []);
    assert [] + CodesFor(tuples, id) == CodesFor(tuples, id);
  }

  /** The aggregation is not "the worst report wins": an Error after a Done is dropped. */
  lemma ErrorAfterDoneIsDropped(id: Id)
    ensures var m := AddReports(map[], [Pair(id, DONE_REPORT), Pair(id, ERROR_REPORT)]).0;
            id in m && m[id] == DONE_REPORT
  {
    var tuples := [Pair(id, DONE_REPORT), Pair(id, ERROR_REPORT)];
    assert tuples[1..] == [Pair(id, ERROR_REPORT)] && tuples[1..][1..] == [];
    assert Lookup(map[id := DONE_REPORT], id) == Some(DONE_REPORT);
    assert Combine(Some(DONE_REPORT), ERROR_REPORT) == Some(DONE_REPORT);
    var m1: StatusMap := map[id := DONE_REPORT];
    assert AddReports(map[], tuples) == AddReports(m1, tuples[1..]);
    assert AddReports(m1, tuples[1..]) == AddReports(m1[id := DONE_REPORT], tuples[1..][1..]);
  }

  // ----- the grouped status write -----

  /** A normalized entry of the status map, with its further fields as the grouping prints them. */
  datatype Data = Data(update: Update, startAfterText: string, errorText: string, nextDataText: string)

  function Digit(s: Status): char
  {
    match s
    case Open => '0'
    case InProgress => '1'
    case Done => '2'
    case Error => '3'
    case Exceeded => '4'
    case Suspended => '5'
  }

  /** The grouping key: the allowed fields with their names, joined by "##". */
  function GroupKey(d: Data): string
  {
    "status##" + [Digit(d.update.status)] + "##startAfter##" + (d.startAfterText + ErrorPart(d))
  }

  /** The texts may contain "##" themselves, but the status cannot be misread. */
  lemma EqualKeysEqualStatus(a: Data, b: Data)
    requires GroupKey(a) == GroupKey(b)
    ensures a.update.status == b.update.status
  {
    assert GroupKey(a)[8] == Digit(a.update.status);
    assert GroupKey(b)[8] == Digit(b.update.status);
  }

  lemma SplitAtHash(a: string, x: string, b: string, y: string)
    requires '#' !in a && '#' !in b && x != "" && y != "" && x[0] == y[0] == '#' && a + x == b + y
    ensures a == b && x == y
  {
    var s := a + x;
    assert s[|a|] == '#' && (b + y)[|b|] == '#';
    assert forall i | 0 <= i < |a| :: s[i] == a[i];
    assert forall i | 0 <= i < |b| :: s[i] == b[i];
    assert |a| == |b|;
    SameRest(a, x, y);
  }

  lemma SameRest(p: string, a: string, b: string)
    requires p + a == p + b
    ensures a == b
  {
    assert (p + a)[|p|..] == a && (p + b)[|p|..] == b;
  }

  function ErrorPart(d: Data): string
  {
    "##error##" + (d.errorText + NextDataPart(d))
  }

  function NextDataPart(d: Data): string
  {
    "##nextData##" + d.nextDataText
  }

  /** Where start time and error contain no "#", equal keys mean equal texts: a group then has one status, start
      time, error and follow-up data. */
  lemma EqualKeysEqualTexts(a: Data, b: Data)
    requires GroupKey(a) == GroupKey(b)
    requires '#' !in a.startAfterText && '#' !in b.startAfterText && '#' !in a.errorText && '#' !in b.errorText
    ensures a.startAfterText == b.startAfterText && a.errorText == b.errorText && a.nextDataText == b.nextDataText
  {
    EqualKeysEqualStatus(a, b);
    var p := "status##" + [Digit(a.update.status)] + "##startAfter##";
    SameRest(p, a.startAfterText + ErrorPart(a), b.startAfterText + ErrorPart(b));
    SplitAtHash(a.startAfterText, ErrorPart(a), b.startAfterText, ErrorPart(b));
    SameRest("##error##", a.errorText + NextDataPart(a), b.errorText + NextDataPart(b));
    SplitAtHash(a.errorText, NextDataPart(a), b.errorText, NextDataPart(b));
    SameRest("##nextData##", a.nextDataText, b.nextDataText);
  }

  datatype Group = Group(data: Data, ids: set<Id>)

  /** Equal but for the start time, which a group takes from its first member. */
  predicate SameWrite(a: Row, b: Row)
  {
    a.status == b.status && a.attempts == b.attempts && a.lastAttempt == b.lastAttempt
  }

  function Updates(writes: map<Id, Data>): map<Id, Update>
  {
    map id | id in writes :: writes[id].update
  }

  ghost predicate Grouped<K>(writes: map<Id, Data>, keyOf: Data -> K, groups: map<K, Group>, done: set<Id>)
  {
    && (forall id | id in done && id in writes ::
          keyOf(writes[id]) in groups && id in groups[keyOf(writes[id])].ids)
    && (forall key | key in groups :: keyOf(groups[key].data) == key && FromMember(writes, groups[key]))
    && (forall key, id | key in groups && id in groups[key].ids :: id in writes && keyOf(writes[id]) == key)
  }

  ghost predicate FromMember(writes: map<Id, Data>, g: Group)
  {
    exists id :: id in g.ids && id in writes && writes[id] == g.data
  }

  /** Written with the data of some id that has the same key. */
  ghost predicate LikeMember<K>(writes: map<Id, Data>, keyOf: Data -> K, row: Row, after: Row, d: Data, now: int, cfg: Config)
  {
    exists id :: id in writes && keyOf(writes[id]) == keyOf(d) && after == WriteRow(row, writes[id].update, now, cfg)
  }

  /** When a written row starts again: after Open and Error at the time in a report with the same key, or
      the delay configured for that status after the write; any other status leaves the start time. */
  ghost predicate StartsLike<K>(writes: map<Id, Data>, keyOf: Data -> K, was: Option<int>, start: Option<int>, d: Data, now: int, cfg: Config)
  {
    match d.update.status
    case Open => exists id :: id in writes && keyOf(writes[id]) == keyOf(d) && start == Some(OwnTime(writes[id], now + cfg.retryOpenAfter))
    case Error => exists id :: id in writes && keyOf(writes[id]) == keyOf(d) && start == Some(OwnTime(writes[id], now + cfg.retryFailedAfter))
    case _ => start == was
  }

  function OwnTime(d: Data, otherwise: int): int
  {
    if d.update.startAfter.Some? then d.update.startAfter.value else otherwise
  }

  lemma LikeMemberStarts<K>(writes: map<Id, Data>, keyOf: Data -> K, row: Row, after: Row, d: Data, now: int, cfg: Config)
    requires LikeMember(writes, keyOf, row, after, d, now, cfg)
    requires forall id | id in writes && keyOf(writes[id]) == keyOf(d) :: writes[id].update.status == d.update.status
    ensures StartsLike(writes, keyOf, row.startAfter, after.startAfter, d, now, cfg)
  {
  }

  /** Exactly: the time in the report if there is one, otherwise `retryOpenAfter` or `retryFailedAfter` after
      the write, where no other start time is printed alike. */
  lemma StartsExactly(writes: map<Id, Data>, was: Option<int>, start: Option<int>, d: Data, now: int, cfg: Config)
    requires StartsLike(writes, GroupKey, was, start, d, now, cfg)
    requires forall id | id in writes && GroupKey(writes[id]) == GroupKey(d) :: writes[id].update.startAfter == d.update.startAfter
    ensures d.update.status == Open ==> start == Some(if d.update.startAfter.Some? then d.update.startAfter.value else now + cfg.retryOpenAfter)
    ensures d.update.status == Error ==> start == Some(if d.update.startAfter.Some? then d.update.startAfter.value else now + cfg.retryFailedAfter)
    ensures d.update.status != Open && d.update.status != Error ==> start == was
  {
  }

  method GroupBy<K(==)>(writes: map<Id, Data>, keyOf: Data -> K) returns (groups: map<K, Group>)
    ensures Grouped(writes, keyOf, groups, writes.Keys)
  {
    groups := map[];
    var todo := writes.Keys;
    while todo != {}
      invariant todo <= writes.Keys
      invariant Grouped(writes, keyOf, groups, writes.Keys - todo)
      decreases |todo|
    {
      var id :| id in todo;
      var key := keyOf(writes[id]);
      GroupOneMore(writes, keyOf, groups, writes.Keys - todo, id);
      groups := groups[key := Join(writes, groups, key, id)];
      todo := todo - {id};
    }
  }

  /** The group under the key with one id more; its data is that of the first. */
  function Join<K>(writes: map<Id, Data>, groups: map<K, Group>, key: K, id: Id): Group
    requires id in writes
  {
    if key in groups then Group(groups[key].data, groups[key].ids + {id}) else Group(writes[id], {id})
  }

  lemma GroupOneMore<K>(writes: map<Id, Data>, keyOf: Data -> K, groups: map<K, Group>, done: set<Id>, id: Id)
    requires Grouped(writes, keyOf, groups, done) && id in writes
    ensures var key := keyOf(writes[id]);
            forall more | more <= done + {id} ::
              Grouped(writes, keyOf, groups[key := Join(writes, groups, key, id)], more)
  {
    var key := keyOf(writes[id]);
    if key in groups {
      assert FromMember(writes, groups[key]);
      var first :| first in groups[key].ids && first in writes && writes[first] == groups[key].data;
      assert first in Join(writes, groups, key, id).ids;
    }
    assert FromMember(writes, Join(writes, groups, key, id));
  }

  /** One UPDATE per group leaves every row as if each id had been written on its own: exactly
      once, with its own status and its own change of attempts, and with the start time of an id
      that has the same key. */
  method WriteGroups<K(==)>(table: Table, writes: map<Id, Data>, keyOf: Data -> K, now: int, cfg: Config)
    returns (rows: Table)
    requires forall a: Data, b: Data | keyOf(a) == keyOf(b) :: a.update.status == b.update.status
    ensures rows.Keys == table.Keys
    ensures forall e | e in table && e in writes ::
              SameWrite(rows[e], WriteRow(table[e], writes[e].update, now, cfg))
    ensures forall e | e in table && e in writes :: LikeMember(writes, keyOf, table[e], rows[e], writes[e], now, cfg)
    ensures forall e | e in table && e in writes ::
              StartsLike(writes, keyOf, table[e].startAfter, rows[e].startAfter, writes[e], now, cfg)
    ensures forall e | e in table && e !in writes :: rows[e] == table[e]
  {
    var groups := GroupBy(writes, keyOf);
    rows := UpdateGroups(table, writes, keyOf, groups, now, cfg);
    forall e | e in table && e in writes
      ensures SameWrite(rows[e], WriteRow(table[e], writes[e].update, now, cfg))
      ensures LikeMember(writes, keyOf, table[e], rows[e], writes[e], now, cfg)
      ensures StartsLike(writes, keyOf, table[e].startAfter, rows[e].startAfter, writes[e], now, cfg)
    {
      assert FromMember(writes, groups[keyOf(writes[e])]);
      LikeMemberStarts(writes, keyOf, table[e], rows[e], writes[e], now, cfg);
    }
  }

  method UpdateGroups<K(==)>(table: Table, writes: map<Id, Data>, keyOf: Data -> K, groups: map<K, Group>, now: int, cfg: Config)
    returns (rows: Table)
    requires Grouped(writes, keyOf, groups, writes.Keys)
    ensures rows.Keys == table.Keys
    ensures forall e | e in table && e in writes ::
              rows[e] == WriteRow(table[e], groups[keyOf(writes[e])].data.update, now, cfg)
    ensures forall e | e in table && e !in writes :: rows[e] == table[e]
  {
    rows := table;
    var rest := groups.Keys;
    while rest != {}
      invariant rest <= groups.Keys && rows.Keys == table.Keys
      invariant forall e | e in table && e in writes && keyOf(writes[e]) !in rest ::
        rows[e] == WriteRow(table[e], groups[keyOf(writes[e])].data.update, now, cfg)
      invariant forall e | e in table && (e !in writes || keyOf(writes[e]) in rest) :: rows[e] == table[e]
      decreases |rest|
    {
      var key :| key in rest;
      var g := groups[key];
      rows := map e | e in rows :: if e in g.ids then WriteRow(rows[e], g.data.update, now, cfg) else rows[e];
      rest := rest - {key};
    }
  }

  /** Reports that are printed alike have the same update. */
  ghost predicate PrintedApart(writes: map<Id, Data>)
  {
    forall a, b | a in writes && b in writes && GroupKey(writes[a]) == GroupKey(writes[b]) ::
      writes[a].update == writes[b].update
  }

  /** The status write of `persistEventStatus`: each row gets its own status and change of attempts,
      and all of its own update unless different start times are printed alike. */
  method PersistGrouped(table: Table, writes: map<Id, Data>, now: int, cfg: Config) returns (rows: Table)
    ensures rows.Keys == table.Keys
    ensures forall e | e in table :: SameWrite(rows[e], WriteRows(table, Updates(writes), now, cfg)[e])
    ensures forall e | e in table && e in writes :: LikeMember(writes, GroupKey, table[e], rows[e], writes[e], now, cfg)
    ensures forall e | e in table && e in writes ::
              StartsLike(writes, GroupKey, table[e].startAfter, rows[e].startAfter, writes[e], now, cfg)
    ensures PrintedApart(writes) ==> rows == WriteRows(table, Updates(writes), now, cfg)
    ensures forall e | e in table && e !in writes :: rows[e] == table[e]
  {
    forall a: Data, b: Data | GroupKey(a) == GroupKey(b) ensures a.update.status == b.update.status {
      EqualKeysEqualStatus(a, b);
    }
    rows := WriteGroups(table, writes, GroupKey, now, cfg);
    if PrintedApart(writes) { OwnUpdates(table, writes, rows, now, cfg); }
  }

  lemma OwnUpdates(table: Table, writes: map<Id, Data>, rows: Table, now: int, cfg: Config)
    requires rows.Keys == table.Keys && PrintedApart(writes)
    requires forall e | e in table && e in writes :: LikeMember(writes, GroupKey, table[e], rows[e], writes[e], now, cfg)
    requires forall e | e in table && e !in writes :: rows[e] == table[e]
    ensures rows == WriteRows(table, Updates(writes), now, cfg)
  {
    forall e | e in table ensures rows[e] == WriteRows(table, Updates(writes), now, cfg)[e] {
      if e in writes {
        var id :| id in writes && GroupKey(writes[id]) == GroupKey(writes[e])
          && rows[e] == WriteRow(table[e], writes[id].update, now, cfg);
      }
    }
  }
}
