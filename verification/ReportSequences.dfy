/** What a sequence of reports on one event amounts to, allowed or not: the rule of
    `#determineAndAddEventStatusToMap` seen from the reports. */
module ReportSequences {
  import opened EventTable
  import opened StatusReports

  /** How many tuples are added before one throws. */
  function Accepted(m: StatusMap, tuples: seq<Tuple>): (k: nat)
    ensures k <= |tuples|
    decreases |tuples|
  {
    if tuples == [] || tuples[0].Malformed? then 0
    else
      var c := Combine(Lookup(m, tuples[0].id), tuples[0].report);
      if c.None? then 0 else 1 + Accepted(m[tuples[0].id := c.value], tuples[1..])
  }

  /** The reports on `e`, in order. */
  function ReportsOn(tuples: seq<Tuple>, e: Id): seq<Report>
  {
    if tuples == [] then []
    else
      var n := |tuples| - 1;
      ReportsOn(tuples[..n], e) + if tuples[n].Pair? && tuples[n].id == e then [tuples[n].report] else []
  }

  /** The reports on a row before a tuple that throws. */
  function Told(m: StatusMap, answer: Answer, e: Id): seq<Report>
  {
    if answer.Tuples? then ReportsOn(answer.tuples[..Accepted(m, answer.tuples)], e) else []
  }

  /** The reports on a row that an answer amounts to: those before a tuple that throws, and then, for an
      entry of the cluster, an Error; just that Error for an answer that is no array. */
  function Effective(m: StatusMap, cluster: set<Id>, answer: Answer, e: Id): seq<Report>
  {
    Told(m, answer, e) + if e in cluster && !Readable(m, answer) then [ERROR_REPORT] else []
  }

  /** The status codes from the first object on; a value that is no object overwrites nothing then. */
  function Codes(reports: seq<Report>): seq<Option<int>>
  {
    if reports == [] then []
    else
      var front, last := Codes(reports[..|reports| - 1]), reports[|reports| - 1];
      if last.Object? then front + [last.status] else if front == [] then [] else front + [None]
  }

  /** The least of the codes, where the first is one. */
  function Least(codes: seq<Option<int>>): int
    requires codes != [] && codes[0].Some?
  {
    if |codes| == 1 then codes[0].value
    else
      var n := |codes| - 1;
      var least := Least(codes[..n]);
      if codes[n].Some? && codes[n].value <= least then codes[n].value else least
  }

  /** Error or Exceeded has been the least code at some point. */
  predicate SettlesOnError(codes: seq<Option<int>>)
    requires codes != [] && codes[0].Some?
  {
    exists k | 0 < k <= |codes| :: Least(codes[..k]) == 3 || Least(codes[..k]) == 4
  }

  /** The reports lead to a status that is not allowed: the first has no status at all, or neither
      Error nor Exceeded was ever the least of them and the least of all is neither Open nor Done. */
  predicate Dropped(codes: seq<Option<int>>)
  {
    codes != [] && (codes[0].None? || (!SettlesOnError(codes) && Least(codes) != 0 && Least(codes) != 2))
  }

  /** The least code when it first is Error or Exceeded, otherwise the least of all. */
  function Settled(codes: seq<Option<int>>): int
    requires codes != [] && codes[0].Some?
  {
    var n := |codes| - 1;
    if n > 0 && SettlesOnError(codes[..n]) then Settled(codes[..n]) else Least(codes)
  }

  lemma {:induction false} SettledIff(codes: seq<Option<int>>)
    requires codes != [] && codes[0].Some?
    ensures SettlesOnError(codes) <==> Settled(codes) == 3 || Settled(codes) == 4
    ensures !SettlesOnError(codes) ==> Settled(codes) == Least(codes)
  {
    var n := |codes| - 1;
    assert codes[..n + 1] == codes;
    if n > 0 {
      SettledIff(codes[..n]);
      assert forall k | 0 < k <= n :: codes[..n][..k] == codes[..k];
    }
  }

  /** What is recorded for `e` after reports with these codes. */
  ghost predicate RecordsCodes(r: Option<Report>, codes: seq<Option<int>>)
  {
    if codes == [] then r.None?
    else r.Some? && r.value.Object? && r.value.status == if codes[0].None? then None else Some(Settled(codes))
  }

  /** The reports lead to a status that is not allowed: none is an object, or their codes do. */
  predicate NotAllowed(reports: seq<Report>)
  {
    reports != [] && (Codes(reports) == [] || Dropped(Codes(reports)))
  }

  ghost predicate RecordsReports(r: Option<Report>, reports: seq<Report>)
  {
    if reports == [] then r.None?
    else if Codes(reports) == [] then r == Some(reports[|reports| - 1]) && !r.value.Object?
    else RecordsCodes(r, Codes(reports))
  }

  lemma ReportOneMore(r: Option<Report>, reports: seq<Report>, report: Report)
    requires RecordsReports(r, reports) && Combine(r, report).Some?
    ensures RecordsReports(Combine(r, report), reports + [report])
  {
    var longer, codes := reports + [report], Codes(reports);
    assert longer[..|reports|] == reports;
    if report.Object? {
      if codes == [] { assert codes + [report.status] == [report.status] && RecordsCodes(Some(report), [report.status]) by { CodeAlone(report); } }
      else { CodeOneMore(r, codes, report); }
    } else if codes != [] {
      IgnoredCode(r, codes);
    }
  }

  lemma CodeAlone(report: Report)
    requires report.Object?
    ensures RecordsCodes(Some(report), [report.status])
  {
    assert [report.status][..1] == [report.status];
  }

  /** A value that is no object changes nothing. */
  lemma IgnoredCode(r: Option<Report>, codes: seq<Option<int>>)
    requires codes != [] && RecordsCodes(r, codes)
    ensures RecordsCodes(r, codes + [None])
  {
    var longer: seq<Option<int>> := codes + [None];
    assert longer[..|codes|] == codes;
    if codes[0].Some? { SettledIff(codes); }
  }

  lemma CodeOneMore(r: Option<Report>, codes: seq<Option<int>>, report: Report)
    requires RecordsCodes(r, codes) && report.Object?
    ensures RecordsCodes(Combine(r, report), codes + [report.status])
  {
    var longer := codes + [report.status];
    assert longer[..|codes|] == codes;
    if codes != [] && codes[0].Some? { SettledIff(codes); }
  }

  lemma {:induction false} AddReportsSplit(m: StatusMap, a: seq<Tuple>, b: seq<Tuple>)
    ensures AddReports(m, a + b) == if AddReports(m, a).1 then AddReports(AddReports(m, a).0, b) else AddReports(m, a)
    decreases |a|
  {
    if a == [] {
      assert a + b == b;
    } else {
      assert (a + b)[1..] == a[1..] + b;
      if a[0].Pair? {
        var c := Combine(Lookup(m, a[0].id), a[0].report);
        if c.Some? { AddReportsSplit(m[a[0].id := c.value], a[1..], b); }
      }
    }
  }

  /** Reading a property of the report throws: it is null or undefined, and an object is recorded that is
      neither Error nor Exceeded, so that the two are compared. */
  predicate ComparesBlank(recorded: Option<Report>, report: Report)
  {
    && (report.Null? || report.Undefined?)
    && recorded.Some? && recorded.value.Object? && recorded.value.status != Some(3) && recorded.value.status != Some(4)
  }

  /** An array of tuples can be read if and only if each is a pair and none throws against what is recorded by
      then. */
  lemma {:induction false} ReadableIff(m: StatusMap, tuples: seq<Tuple>)
    ensures AddReports(m, tuples).1 <==> forall i | 0 <= i < |tuples| ::
              tuples[i].Pair? && !ComparesBlank(Lookup(AddReports(m, tuples[..i]).0, tuples[i].id), tuples[i].report)
    decreases |tuples|
  {
    if tuples != [] {
      var n := |tuples| - 1;
      var front := tuples[..n];
      assert tuples == front + [tuples[n]] && [tuples[n]][1..] == [];
      AddReportsSplit(m, front, [tuples[n]]);
      ReadableIff(m, front);
      assert forall i | 0 <= i < n :: front[..i] == tuples[..i] && front[i] == tuples[i];
    }
  }

  lemma {:induction false} AcceptedPrefix(m: StatusMap, tuples: seq<Tuple>)
    ensures var k := Accepted(m, tuples);
            && AddReports(m, tuples).0 == AddReports(m, tuples[..k]).0 && AddReports(m, tuples[..k]).1
            && (AddReports(m, tuples).1 <==> k == |tuples|)
    decreases |tuples|
  {
    if tuples != [] && tuples[0].Pair? {
      var c := Combine(Lookup(m, tuples[0].id), tuples[0].report);
      if c.Some? {
        var next, k := m[tuples[0].id := c.value], Accepted(m, tuples);
        AcceptedPrefix(next, tuples[1..]);
        assert tuples[..k][0] == tuples[0] && tuples[..k][1..] == tuples[1..][..k - 1];
      }
    }
  }

  lemma {:induction false} AddReportsRecord(m: StatusMap, tuples: seq<Tuple>, e: Id, before: seq<Report>)
    requires RecordsReports(Lookup(m, e), before) && AddReports(m, tuples).1
    ensures RecordsReports(Lookup(AddReports(m, tuples).0, e), before + ReportsOn(tuples, e))
    decreases |tuples|
  {
    if tuples == [] {
      assert before + [] == before;
    } else {
      var n := |tuples| - 1;
      var front, last := tuples[..n], tuples[n];
      assert tuples == front + [last];
      AddReportsSplit(m, front, [last]);
      AddReportsRecord(m, front, e, before);
      var r, reports := AddReports(m, front).0, before + ReportsOn(front, e);
      assert [last][1..] == [];
      if last.Pair? && last.id == e {
        ReportOneMore(Lookup(r, e), reports, last.report);
        assert before + ReportsOn(tuples, e) == reports + [last.report];
      } else {
        assert before + ReportsOn(tuples, e) == reports;
      }
    }
  }

  /** What an answer records about a row. */
  lemma AnswerRecords(m: StatusMap, cluster: set<Id>, answer: Answer, e: Id, before: seq<Report>)
    requires RecordsReports(Lookup(m, e), before)
    ensures RecordsReports(Lookup(SetEventStatus(m, cluster, answer), e), before + Effective(m, cluster, answer, e))
  {
    var told := Told(m, answer, e);
    ToldRecords(m, answer, e, before);
    if e in cluster && !Readable(m, answer) {
      ReportOneMore(Lookup(ReportedBefore(m, answer), e), before + told, ERROR_REPORT);
      ErrorsRecord(m, cluster, answer, e);
      assert before + (told + [ERROR_REPORT]) == (before + told) + [ERROR_REPORT];
    } else {
      OthersNoError(m, cluster, answer, e);
      assert told + [] == told;
    }
  }

  lemma ToldRecords(m: StatusMap, answer: Answer, e: Id, before: seq<Report>)
    requires RecordsReports(Lookup(m, e), before)
    ensures RecordsReports(Lookup(ReportedBefore(m, answer), e), before + Told(m, answer, e))
  {
    if answer.Tuples? {
      AcceptedPrefix(m, answer.tuples);
      AddReportsRecord(m, answer.tuples[..Accepted(m, answer.tuples)], e, before);
    } else {
      assert before + [] == before;
    }
  }

  lemma ErrorsRecord(m: StatusMap, cluster: set<Id>, answer: Answer, e: Id)
    requires e in cluster && !Readable(m, answer)
    ensures Lookup(SetEventStatus(m, cluster, answer), e) == Combine(Lookup(ReportedBefore(m, answer), e), ERROR_REPORT)
  {
  }

  lemma OthersNoError(m: StatusMap, cluster: set<Id>, answer: Answer, e: Id)
    requires e !in cluster || Readable(m, answer)
    ensures Lookup(SetEventStatus(m, cluster, answer), e) == Lookup(ReportedBefore(m, answer), e)
  {
  }

  /** The status a sequence of reports leads to, if it is an allowed one. */
  function StatusFrom(reports: seq<Report>): (status: Option<Status>)
    ensures status.Some? <==> reports != [] && !NotAllowed(reports)
  {
    if reports == [] || NotAllowed(reports) then None
    else
      SettledIff(Codes(reports));
      StatusOf(Settled(Codes(reports)))
  }

  lemma AllowedIff(r: Option<Report>, reports: seq<Report>)
    requires RecordsReports(r, reports) && reports != []
    ensures UpdateOf(r.value).Some? <==> !NotAllowed(reports)
    ensures UpdateOf(r.value).Some? ==> Some(UpdateOf(r.value).value.status) == StatusFrom(reports)
  {
    var codes := Codes(reports);
    if codes != [] && codes[0].Some? { SettledIff(codes); }
  }

  predicate AllowedReports(reports: seq<Report>)
  {
    forall i | 0 <= i < |reports| :: UpdateOf(reports[i]).Some?
  }

  /** If all reports are allowed, they lead to the first if that is Error or Exceeded, otherwise to Open if
      any of them is Open, otherwise to Done. */
  lemma AllowedReportsLeadTo(reports: seq<Report>)
    requires AllowedReports(reports) && reports != []
    ensures StatusFrom(reports) == Some(
              if ReportedAs(reports[0], Error) then Error
              else if ReportedAs(reports[0], Exceeded) then Exceeded
              else if exists i | 0 <= i < |reports| :: ReportedAs(reports[i], Open) then Open
              else Done)
  {
    var codes := Codes(reports);
    CodesOfAllowed(reports);
    SettledAllowed(codes);
    SettledIff(codes);
    if i :| 0 <= i < |reports| && ReportedAs(reports[i], Open) { assert codes[i] == Some(0); }
    if Some(0) in codes {
      var i :| 0 <= i < |codes| && codes[i] == Some(0);
      assert ReportedAs(reports[i], Open);
    }
  }

  lemma {:induction false} CodesOfAllowed(reports: seq<Report>)
    requires AllowedReports(reports)
    ensures |Codes(reports)| == |reports|
    ensures forall i | 0 <= i < |reports| :: Codes(reports)[i] == reports[i].status && AllowedCode(reports[i].status.value)
  {
    if reports != [] { CodesOfAllowed(reports[..|reports| - 1]); }
  }

  lemma {:induction false} SettledAllowed(codes: seq<Option<int>>)
    requires codes != [] && forall i | 0 <= i < |codes| :: codes[i].Some? && AllowedCode(codes[i].value)
    ensures Settled(codes) == if codes[0].value >= 3 then codes[0].value else if Some(0) in codes then 0 else 2
  {
    var n := |codes| - 1;
    if n > 0 {
      var front := codes[..n];
      SettledAllowed(front);
      SettledIff(front);
      SettlesOneMore(codes, front);
      InOneMore(codes, front);
    }
  }

  lemma SettlesOneMore(codes: seq<Option<int>>, front: seq<Option<int>>)
    requires |codes| > 1 && codes[0].Some? && codes[|codes| - 1].Some? && front == codes[..|codes| - 1]
    requires !SettlesOnError(front) ==> Least(front) == Settled(front)
    ensures var last := codes[|codes| - 1].value;
            Settled(codes) == if SettlesOnError(front) || last > Settled(front) then Settled(front) else last
  {
  }

  lemma InOneMore(codes: seq<Option<int>>, front: seq<Option<int>>)
    requires codes != [] && front == codes[..|codes| - 1]
    ensures Some(0) in codes <==> Some(0) in front || codes[|codes| - 1] == Some(0)
  {
    assert codes == front + [codes[|codes| - 1]];
  }

  /** The last report of a status. */
  function LastWith(reports: seq<Report>, status: Status): Option<Report>
  {
    if reports == [] then None
    else
      var n := |reports| - 1;
      if ReportedAs(reports[n], status) then Some(reports[n]) else LastWith(reports[..n], status)
  }

  /** The report that counts, with its start time and its other fields: the first if it is Error or Exceeded,
      otherwise the last that is Open if there is one, otherwise the last that is Done. */
  function Chosen(reports: seq<Report>): Option<Report>
  {
    if reports == [] then None
    else if ReportedAs(reports[0], Error) || ReportedAs(reports[0], Exceeded) then Some(reports[0])
    else if LastWith(reports, Open).Some? then LastWith(reports, Open)
    else LastWith(reports, Done)
  }

  lemma {:induction false} LastWithIs(reports: seq<Report>, status: Status)
    ensures LastWith(reports, status).Some? ==> ReportedAs(LastWith(reports, status).value, status)
    ensures LastWith(reports, status).None? ==> forall i | 0 <= i < |reports| :: !ReportedAs(reports[i], status)
  {
    if reports != [] { LastWithIs(reports[..|reports| - 1], status); }
  }

  lemma ChosenOneMore(reports: seq<Report>, report: Report)
    requires AllowedReports(reports) && UpdateOf(report).Some?
    ensures Combine(Chosen(reports), report) == Chosen(reports + [report])
  {
    var longer := reports + [report];
    assert longer[..|reports|] == reports;
    LastWithIs(reports, Open);
    LastWithIs(reports, Done);
    if reports != [] { assert longer[0] == reports[0] && (ReportedAs(reports[0], Open) || ReportedAs(reports[0], Done) || ReportedAs(reports[0], Error) || ReportedAs(reports[0], Exceeded)); }
  }

  /** For every sequence of allowed reports, whatever is reported about other events in between. */
  lemma {:induction false} RecordedReport(m: StatusMap, tuples: seq<Tuple>, e: Id, before: seq<Report>)
    requires AllAllowed(tuples) && AllowedReports(before) && Lookup(m, e) == Chosen(before) && AddReports(m, tuples).1
    ensures Lookup(AddReports(m, tuples).0, e) == Chosen(before + ReportsOn(tuples, e))
    ensures AllowedReports(before + ReportsOn(tuples, e))
    decreases |tuples|
  {
    if tuples == [] {
      assert before + [] == before;
    } else {
      var n := |tuples| - 1;
      var front, last := tuples[..n], tuples[n];
      assert tuples == front + [last];
      AddReportsSplit(m, front, [last]);
      RecordedReport(m, front, e, before);
      assert [last][1..] == [];
      if last.id == e {
        ChosenOneMore(before + ReportsOn(front, e), last.report);
        assert before + ReportsOn(tuples, e) == before + ReportsOn(front, e) + [last.report];
      } else {
        assert before + ReportsOn(tuples, e) == before + ReportsOn(front, e);
      }
    }
  }

  predicate ReportedAs(report: Report, status: Status)
  {
    UpdateOf(report).Some? && UpdateOf(report).value.status == status
  }
}
