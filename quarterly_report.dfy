/**
 * The historical quarterly report: for every unit, every quarter the portal
 * lists is fetched as a nested `sections[].rows[]` report and flattened into
 * one dict of columns; the per-unit lists are concatenated into one table.
 * The two portal calls are oracles (`Api`).
 */
module QuarterlyReports {
  import opened Wrappers
  import opened Values
  import opened Quarters
  import opened Units

  /** One flattened row: column name to value; a column a row lacks is absent (NaN). */
  type Row = map<string, Value>

  /** The two portal calls the aggregation makes. */
  datatype Api = Api(
    // `available_report_quarters`: the quarter labels the portal lists for a unit number
    availableReportQuarters: Scalar -> Result<seq<string>, PyError>,
    // `quarterly_report(unit_number, quarter, year)`: the decoded JSON report
    quarterlyReport: (Scalar, PyInt, int) -> Result<Value, PyError>)

  /** The table as pandas builds it from a list of dicts. */
  datatype Frame = Frame(columns: set<string>, rows: seq<Row>)

  /** The fields of one report row that the flattening reads. */
  datatype RowRecord = RowRecord(id: string, actual: Value, potential: Value)

  /** `prefix + rest` when `rest` was computed without an exception. */
  function Prepend<T>(prefix: seq<T>, rest: Result<seq<T>, PyError>): (r: Result<seq<T>, PyError>)
    ensures r.Success? <==> rest.Success?
    ensures r.Success? ==> r.value == prefix + rest.value
    ensures r.Failure? ==> r.error == rest.error
  {
    if rest.Success? then Success(prefix + rest.value) else Failure(rest.error)
  }

  lemma PrependNothing<T>(rest: Result<seq<T>, PyError>)
    ensures Prepend([], rest) == rest
  {
    if rest.Success? {
      assert [] + rest.value == rest.value;
    }
  }

  lemma PrependTwice<T>(a: seq<T>, b: seq<T>, rest: Result<seq<T>, PyError>)
    ensures Prepend(a, Prepend(b, rest)) == Prepend(a + b, rest)
  {
    if rest.Success? {
      assert a + (b + rest.value) == (a + b) + rest.value;
    }
  }

  // ---------------------------------------------------------------------------
  // Reading the nested report

  /**
   * The reads of lines 25-28 in Python's evaluation order: `actualValue`, then
   * `nameResourceId`, then `potentialValue`.
   */
  function ReadRow(row: Value): (r: Result<RowRecord, PyError>)
    ensures r.Success? <==>
              && row.Object?
              && "actualValue" in row.fields && "nameResourceId" in row.fields && "potentialValue" in row.fields
              && row.fields["nameResourceId"].Str?
    ensures r.Success? ==>
              r.value == RowRecord(row.fields["nameResourceId"].s, row.fields["actualValue"], row.fields["potentialValue"])
  {
    var actual :- Field(row, "actualValue");
    var id :- Field(row, "nameResourceId");
    if !id.Str? then Failure(UnsupportedKey)
    else
      var potential :- Field(row, "potentialValue");
      Success(RowRecord(id.s, actual, potential))
  }

  /** The items of `section["rows"]`. */
  function SectionRows(section: Value): Result<seq<Value>, PyError> {
    var rows :- Field(section, "rows");
    Items(rows)
  }

  /** The items of `qrp["sections"]`. */
  function ReportSections(report: Value): Result<seq<Value>, PyError> {
    var sections :- Field(report, "sections");
    Items(sections)
  }

  /** The rows of one section in order; the first malformed row aborts. */
  function RowsRecords(rows: seq<Value>): (r: Result<seq<RowRecord>, PyError>)
    ensures r.Success? ==> |r.value| == |rows|
  {
    if rows == [] then Success([])
    else
      var record :- ReadRow(rows[0]);
      Prepend([record], RowsRecords(rows[1..]))
  }

  /** The rows of all sections, sections then rows in order; the first malformed part aborts. */
  function SectionsRecords(sections: seq<Value>): Result<seq<RowRecord>, PyError> {
    if sections == [] then Success([])
    else
      var rows :- SectionRows(sections[0]);
      var records :- RowsRecords(rows);
      Prepend(records, SectionsRecords(sections[1..]))
  }

  function ReportRecords(report: Value): Result<seq<RowRecord>, PyError> {
    var sections :- ReportSections(report);
    SectionsRecords(sections)
  }

  // ---------------------------------------------------------------------------
  // Flattening

  /** The dict writes the loops perform, in order: `id`, then `id.potential`, per row. */
  function Writes(records: seq<RowRecord>): (w: seq<(string, Value)>)
    ensures |w| == 2 * |records|
  {
    if records == [] then []
    else
      var last := records[|records| - 1];
      Writes(records[..|records| - 1]) + [(last.id, last.actual), (last.id + ".potential", last.potential)]
  }

  /** The dict after performing `writes` in order on `m`. */
  function Overlay(m: Row, writes: seq<(string, Value)>): Row {
    if writes == [] then m
    else
      var last := writes[|writes| - 1];
      Overlay(m, writes[..|writes| - 1])[last.0 := last.1]
  }

  /** The five context columns of a row (lines 16-22). */
  function Context(unitName: Scalar, unitNumber: Scalar, year: int, quarter: PyInt): (ctx: Row)
    ensures ctx.Keys == ContextKeys()
    ensures |ctx| == 5
  {
    ContextKeysCount();
    map[
      "year" := Int(year),
      "quarter.num" := quarter,
      "quarter" := Str(Label(year, quarter)),
      "unitId" := unitNumber,
      "unitName" := unitName]
  }

  function ContextKeys(): set<string> {
    {"year", "quarter.num", "quarter", "unitId", "unitName"}
  }

  lemma ContextKeysCount()
    ensures |ContextKeys()| == 5
  {
    var s1: set<string> := {"year"};
    assert |"quarter.num"| == 11 && |"quarter"| == 7 && |"unitId"| == 6 && |"unitName"| == 8 && |"year"| == 4;
    var s2 := s1 + {"quarter.num"};
    var s3 := s2 + {"quarter"};
    var s4 := s3 + {"unitId"};
    var s5 := s4 + {"unitName"};
    assert |s2| == 2;
    assert |s3| == 3;
    assert |s4| == 4;
    assert |s5| == 5;
    assert s5 == ContextKeys();
  }

  /** A name longer than every context column name is not one of them. */
  lemma LongNameNotContext(k: string)
    requires |k| > 11
    ensures k !in ContextKeys()
  {
    assert |"quarter.num"| == 11 && |"quarter"| == 7 && |"unitId"| == 6 && |"unitName"| == 8 && |"year"| == 4;
  }

  /** The flattened row of a report on top of its context columns. */
  function ReportRow(context: Row, report: Value): Result<Row, PyError> {
    var records :- ReportRecords(report);
    Success(Overlay(context, Writes(records)))
  }

  lemma WritesSnoc(records: seq<RowRecord>, r: RowRecord)
    ensures Writes(records + [r]) == Writes(records) + [(r.id, r.actual), (r.id + ".potential", r.potential)]
  {
    assert (records + [r])[..|records|] == records;
  }

  lemma OverlaySnoc2(m: Row, writes: seq<(string, Value)>, a: (string, Value), b: (string, Value))
    ensures Overlay(m, writes + [a, b]) == Overlay(m, writes)[a.0 := a.1][b.0 := b.1]
  {
    assert (writes + [a, b])[..|writes| + 1] == writes + [a];
    assert (writes + [a])[..|writes|] == writes;
  }

  lemma {:induction false} WritesAppend(a: seq<RowRecord>, b: seq<RowRecord>)
    ensures Writes(a + b) == Writes(a) + Writes(b)
  {
    if b != [] {
      var n := |b| - 1;
      assert (a + b)[..|a| + n] == a + b[..n];
      WritesAppend(a, b[..n]);
    } else {
      assert a + b == a;
    }
  }

  lemma {:induction false} OverlayAppend(m: Row, a: seq<(string, Value)>, b: seq<(string, Value)>)
    ensures Overlay(m, a + b) == Overlay(Overlay(m, a), b)
  {
    if b != [] {
      var n := |b| - 1;
      assert (a + b)[..|a| + n] == a + b[..n];
      OverlayAppend(m, a, b[..n]);
    } else {
      assert a + b == a;
    }
  }

  /** Reading row `j` either aborts the section with its exception or extends what was read. */
  lemma RowStep(rows: seq<Value>, j: nat, here: seq<RowRecord>)
    requires j < |rows|
    requires RowsRecords(rows) == Prepend(here, RowsRecords(rows[j..]))
    ensures ReadRow(rows[j]).Failure? ==> RowsRecords(rows) == Failure(ReadRow(rows[j]).error)
    ensures ReadRow(rows[j]).Success? ==>
              RowsRecords(rows) == Prepend(here + [ReadRow(rows[j]).value], RowsRecords(rows[j + 1..]))
  {
    assert rows[j..][0] == rows[j] && rows[j..][1..] == rows[j + 1..];
    if ReadRow(rows[j]).Success? {
      PrependTwice(here, [ReadRow(rows[j]).value], RowsRecords(rows[j + 1..]));
    }
  }

  /** The two dict writes of one report row. */
  lemma WriteStep(start: Row, here: seq<RowRecord>, record: RowRecord)
    ensures Overlay(start, Writes(here + [record]))
         == Overlay(start, Writes(here))[record.id := record.actual][record.id + ".potential" := record.potential]
  {
    WritesSnoc(here, record);
    OverlaySnoc2(start, Writes(here), (record.id, record.actual), (record.id + ".potential", record.potential));
  }

  /** The inner loop of lines 24-28 over the rows of one section. */
  method FlattenRows(start: Row, rows: seq<Value>) returns (r: Result<Row, PyError>)
    ensures RowsRecords(rows).Success? <==> r.Success?
    ensures r.Failure? ==> r.error == RowsRecords(rows).error
    ensures r.Success? ==> r.value == Overlay(start, Writes(RowsRecords(rows).value))
  {
    var row := start;
    ghost var here: seq<RowRecord> := [];
    var j := 0;
    assert rows[0..] == rows;
    PrependNothing(RowsRecords(rows));
    while j < |rows|
      invariant 0 <= j <= |rows|
      invariant RowsRecords(rows) == Prepend(here, RowsRecords(rows[j..]))
      invariant row == Overlay(start, Writes(here))
    {
      RowStep(rows, j, here);
      var actual := Field(rows[j], "actualValue");
      if actual.Failure? {
        return Failure(actual.error);
      }
      var id := Field(rows[j], "nameResourceId");
      if id.Failure? {
        return Failure(id.error);
      }
      if !id.value.Str? {
        return Failure(UnsupportedKey);
      }
      row := row[id.value.s := actual.value];
      var potential := Field(rows[j], "potentialValue");
      if potential.Failure? {
        return Failure(potential.error);
      }
      row := row[id.value.s + ".potential" := potential.value];
      ghost var record := RowRecord(id.value.s, actual.value, potential.value);
      WriteStep(start, here, record);
      here := here + [record];
      j := j + 1;
    }
    assert rows[j..] == [];
    assert here + [] == here;
    r := Success(row);
  }

  /** One section of the walk: its rows, then the sections after it. */
  lemma SectionStep(sections: seq<Value>, i: nat)
    requires i < |sections|
    ensures var rows := SectionRows(sections[i]);
            var all := SectionsRecords(sections[i..]);
            && (rows.Failure? ==> all == Failure(rows.error))
            && (rows.Success? && RowsRecords(rows.value).Failure? ==> all == Failure(RowsRecords(rows.value).error))
            && (rows.Success? && RowsRecords(rows.value).Success? ==>
                  all == Prepend(RowsRecords(rows.value).value, SectionsRecords(sections[i + 1..])))
  {
    assert sections[i..][0] == sections[i] && sections[i..][1..] == sections[i + 1..];
  }

  /** The flattened row of a report whose sections are `sections`. */
  lemma ReportRowOf(context: Row, report: Value, sections: seq<Value>)
    requires ReportSections(report) == Success(sections)
    ensures SectionsRecords(sections).Failure? ==> ReportRow(context, report) == Failure(SectionsRecords(sections).error)
    ensures SectionsRecords(sections).Success? ==>
              ReportRow(context, report) == Success(Overlay(context, Writes(SectionsRecords(sections).value)))
  {
  }

  /** `__get_report_row` after the fetch: the nested loop of lines 23-28. */
  method FlattenReport(context: Row, report: Value) returns (r: Result<Row, PyError>)
    ensures r == ReportRow(context, report)
  {
    var sections :- ReportSections(report);
    ReportRowOf(context, report, sections);
    var row := context;
    ghost var done: seq<RowRecord> := [];
    var i := 0;
    assert sections[0..] == sections;
    PrependNothing(SectionsRecords(sections));
    while i < |sections|
      invariant 0 <= i <= |sections|
      invariant SectionsRecords(sections) == Prepend(done, SectionsRecords(sections[i..]))
      invariant row == Overlay(context, Writes(done))
    {
      SectionStep(sections, i);
      var rows := SectionRows(sections[i]);
      if rows.Failure? {
        return Failure(rows.error);
      }
      var next := FlattenRows(row, rows.value);
      if next.Failure? {
        return Failure(next.error);
      }
      ghost var here := RowsRecords(rows.value).value;
      WritesAppend(done, here);
      OverlayAppend(context, Writes(done), Writes(here));
      PrependTwice(done, here, SectionsRecords(sections[i + 1..]));
      row := next.value;
      done := done + here;
      i := i + 1;
    }
    assert sections[i..] == [];
    assert done + [] == done;
    r := Success(row);
  }

  // ---------------------------------------------------------------------------
  // Properties of the flattening

  /** The columns of the flattened dict: the initial ones and every written one. */
  lemma {:induction false} OverlayKeys(m: Row, writes: seq<(string, Value)>, k: string)
    ensures k in Overlay(m, writes) <==> k in m || exists i :: 0 <= i < |writes| && writes[i].0 == k
  {
    if writes != [] {
      var n := |writes| - 1;
      OverlayKeys(m, writes[..n], k);
      if exists i :: 0 <= i < n + 1 && writes[i].0 == k {
        var i :| 0 <= i < n + 1 && writes[i].0 == k;
        if i < n { assert writes[..n][i].0 == k; }
      }
    }
  }

  /** Last write wins: a key takes the value of the last write to it. */
  lemma {:induction false} LastWriteWins(m: Row, writes: seq<(string, Value)>, i: nat)
    requires i < |writes|
    requires forall j :: i < j < |writes| ==> writes[j].0 != writes[i].0
    ensures writes[i].0 in Overlay(m, writes) && Overlay(m, writes)[writes[i].0] == writes[i].1
  {
    var n := |writes| - 1;
    if i < n {
      LastWriteWins(m, writes[..n], i);
    }
  }

  /** A key no write touches keeps its initial value (or stays absent). */
  lemma {:induction false} UnwrittenKeyKept(m: Row, writes: seq<(string, Value)>, k: string)
    requires forall j :: 0 <= j < |writes| ==> writes[j].0 != k
    ensures k in Overlay(m, writes) <==> k in m
    ensures k in m ==> Overlay(m, writes)[k] == m[k]
  {
    if writes != [] {
      UnwrittenKeyKept(m, writes[..|writes| - 1], k);
    }
  }

  /** No two writes share a key, and none hits an initial key. */
  ghost predicate FreshKeys(m: Row, writes: seq<(string, Value)>) {
    && (forall i, j :: 0 <= i < j < |writes| ==> writes[i].0 != writes[j].0)
    && (forall i :: 0 <= i < |writes| ==> writes[i].0 !in m)
  }

  /** At most one new column per write; exactly one when the keys are fresh. */
  lemma {:induction false} OverlaySize(m: Row, writes: seq<(string, Value)>)
    ensures |Overlay(m, writes)| <= |m| + |writes|
    ensures FreshKeys(m, writes) ==> |Overlay(m, writes)| == |m| + |writes|
  {
    if writes != [] {
      var n := |writes| - 1;
      var prefix := writes[..n];
      OverlaySize(m, prefix);
      if FreshKeys(m, writes) {
        assert FreshKeys(m, prefix);
        assert forall i :: 0 <= i < n ==> prefix[i].0 != writes[n].0;
        OverlayKeys(m, prefix, writes[n].0);
      }
    }
  }

  /** Row `k` of a report writes `id` at position `2k` and `id.potential` at `2k + 1`. */
  lemma {:induction false} WritesAt(records: seq<RowRecord>, k: nat)
    requires k < |records|
    ensures Writes(records)[2 * k] == (records[k].id, records[k].actual)
    ensures Writes(records)[2 * k + 1] == (records[k].id + ".potential", records[k].potential)
  {
    var n := |records| - 1;
    if k < n {
      WritesAt(records[..n], k);
    }
  }

  /** The column written at position `p` comes from row `p / 2`. */
  lemma WriteKey(records: seq<RowRecord>, p: nat)
    requires p < 2 * |records|
    ensures Writes(records)[p].0 == if p % 2 == 0 then records[p / 2].id else records[p / 2].id + ".potential"
  {
    WritesAt(records, p / 2);
  }

  /**
   * The flattened row has at most 5 + 2N columns for N report rows, and
   * exactly 5 + 2N when the written names are pairwise distinct and none is a
   * context name.
   */
  lemma FlattenedColumnCount(unitName: Scalar, unitNumber: Scalar, year: int, quarter: PyInt, report: Value, records: seq<RowRecord>)
    requires ReportRecords(report) == Success(records)
    ensures var ctx := Context(unitName, unitNumber, year, quarter);
            var row := Overlay(ctx, Writes(records));
            && ReportRow(ctx, report) == Success(row)
            && |row| <= 5 + 2 * |records|
            && (FreshKeys(ctx, Writes(records)) ==> |row| == 5 + 2 * |records|)
  {
    OverlaySize(Context(unitName, unitNumber, year, quarter), Writes(records));
  }

  /** Every context column and both columns of every report row are in the flattened row. */
  lemma FlattenedColumnsPresent(context: Row, report: Value, records: seq<RowRecord>)
    requires ReportRecords(report) == Success(records)
    ensures var row := Overlay(context, Writes(records));
            && ReportRow(context, report) == Success(row)
            && (forall k :: k in context ==> k in row)
            && (forall p :: 0 <= p < |records| ==> records[p].id in row && records[p].id + ".potential" in row)
  {
    var row := Overlay(context, Writes(records));
    forall k | k in context ensures k in row {
      OverlayKeys(context, Writes(records), k);
    }
    forall p | 0 <= p < |records|
      ensures records[p].id in row && records[p].id + ".potential" in row
    {
      WritesAt(records, p);
      OverlayKeys(context, Writes(records), records[p].id);
      OverlayKeys(context, Writes(records), records[p].id + ".potential");
    }
  }

  /**
   * Last write wins across rows and sections: a report row's values survive
   * unless a later row writes the same column name.
   */
  lemma LaterRowWins(context: Row, report: Value, records: seq<RowRecord>, p: nat)
    requires ReportRecords(report) == Success(records)
    requires p < |records|
    requires forall q :: p < q < |records| ==>
               records[q].id != records[p].id && records[q].id + ".potential" != records[p].id
    requires forall q :: p < q < |records| ==> records[q].id != records[p].id + ".potential"
    ensures ReportRow(context, report).Success?
    ensures records[p].id in ReportRow(context, report).value
    ensures records[p].id + ".potential" in ReportRow(context, report).value
    ensures ReportRow(context, report).value[records[p].id] == records[p].actual
    ensures ReportRow(context, report).value[records[p].id + ".potential"] == records[p].potential
  {
    var w := Writes(records);
    WritesAt(records, p);
    forall j | 2 * p < j < |w| ensures w[j].0 != w[2 * p].0 {
      WriteKey(records, j);
      if j == 2 * p + 1 {
        assert |w[j].0| == |w[2 * p].0| + 10;
      }
    }
    LastWriteWins(context, w, 2 * p);
    forall j | 2 * p + 1 < j < |w| ensures w[j].0 != w[2 * p + 1].0 {
      WriteKey(records, j);
      PotentialInjective(records[j / 2].id, records[p].id);
    }
    LastWriteWins(context, w, 2 * p + 1);
  }

  /** Different ids have different `.potential` columns. */
  lemma PotentialInjective(a: string, b: string)
    ensures a + ".potential" == b + ".potential" ==> a == b
  {
    if a + ".potential" == b + ".potential" {
      assert a == (a + ".potential")[..|a|];
      assert b == (b + ".potential")[..|b|];
    }
  }

  /** A context column survives unless a report row writes that name. */
  lemma ContextKeptUnlessOverwritten(context: Row, report: Value, records: seq<RowRecord>, k: string)
    requires ReportRecords(report) == Success(records)
    requires k in context
    requires forall q :: 0 <= q < |records| ==> records[q].id != k && records[q].id + ".potential" != k
    ensures ReportRow(context, report).Success?
    ensures k in ReportRow(context, report).value
    ensures ReportRow(context, report).value[k] == context[k]
  {
    forall j | 0 <= j < |Writes(records)| ensures Writes(records)[j].0 != k {
      WriteKey(records, j);
    }
    UnwrittenKeyKept(context, Writes(records), k);
  }

  /** A malformed section anywhere aborts the whole flattening. */
  lemma {:induction false} MalformedSectionAborts(sections: seq<Value>, i: nat)
    requires i < |sections|
    requires SectionRows(sections[i]).Failure?
    ensures SectionsRecords(sections).Failure?
  {
    if i > 0 {
      MalformedSectionAborts(sections[1..], i - 1);
    }
  }

  /** A row lacking a field anywhere aborts the whole flattening: nothing is skipped. */
  lemma {:induction false} MalformedRowAborts(sections: seq<Value>, i: nat, rows: seq<Value>, j: nat)
    requires i < |sections| && SectionRows(sections[i]) == Success(rows)
    requires j < |rows| && ReadRow(rows[j]).Failure?
    ensures SectionsRecords(sections).Failure?
  {
    if i > 0 {
      MalformedRowAborts(sections[1..], i - 1, rows, j);
    } else {
      MalformedRowAbortsSection(rows, j);
    }
  }

  lemma {:induction false} MalformedRowAbortsSection(rows: seq<Value>, j: nat)
    requires j < |rows| && ReadRow(rows[j]).Failure?
    ensures RowsRecords(rows).Failure?
  {
    if j > 0 {
      MalformedRowAbortsSection(rows[1..], j - 1);
    }
  }

  /**
   * A string or a dict under a section's `rows` is iterated as well. It yields
   * strings, and `row["actualValue"]` on a string raises `TypeError`, so it
   * adds no row when it is empty and aborts otherwise.
   */
  lemma RowsOfText(section: Value)
    requires section.Object? && "rows" in section.fields
    requires section.fields["rows"].Str? || section.fields["rows"].Object?
    ensures SectionRows(section).Success?
    ensures var rows := section.fields["rows"];
            var empty := if rows.Str? then |rows.s| == 0 else |rows.fields| == 0;
            RowsRecords(SectionRows(section).value) == if empty then Success([]) else Failure(TypeError)
  {
    ItemsOfText(section.fields["rows"]);
  }

  /** The same for a string or a dict under `sections`, where `section["rows"]` raises. */
  lemma SectionsOfText(report: Value)
    requires report.Object? && "sections" in report.fields
    requires report.fields["sections"].Str? || report.fields["sections"].Object?
    ensures var sections := report.fields["sections"];
            var empty := if sections.Str? then |sections.s| == 0 else |sections.fields| == 0;
            ReportRecords(report) == if empty then Success([]) else Failure(TypeError)
  {
    ItemsOfText(report.fields["sections"]);
  }

  // ---------------------------------------------------------------------------
  // Fetching and aggregating

  /** `Quarter(s)` for every label of the list, in order; the first bad label aborts. */
  function ParseAll(labels: seq<string>): (r: Result<seq<Period>, PyError>)
    ensures r.Success? ==> |r.value| == |labels|
    ensures r.Success? ==> forall k :: 0 <= k < |labels| ==> Parse(labels[k]) == Success(r.value[k])
    ensures r.Success? <==> forall k :: 0 <= k < |labels| ==> Parse(labels[k]).Success?
  {
    if labels == [] then Success([])
    else
      var p :- Parse(labels[0]);
      var rest := ParseAll(labels[1..]);
      assert forall k :: 1 <= k < |labels| ==> labels[k] == labels[1..][k - 1];
      Prepend([p], rest)
  }

  /** The periods for which the portal has a report for a unit number. */
  function PeriodsFor(api: Api, unitNumber: Scalar): Result<seq<Period>, PyError> {
    var labels :- api.availableReportQuarters(unitNumber);
    ParseAll(labels)
  }

  /** The fetch of line 15 with the context of lines 16-22, then the flattening. */
  function ReportRowFor(api: Api, unitName: Scalar, unitNumber: Scalar, year: int, quarter: PyInt): Result<Row, PyError> {
    var report :- api.quarterlyReport(unitNumber, quarter, year);
    ReportRow(Context(unitName, unitNumber, year, quarter), report)
  }

  function RowsForPeriods(api: Api, unitName: Scalar, unitNumber: Scalar, periods: seq<Period>): Result<seq<Row>, PyError> {
    if periods == [] then Success([])
    else
      var row :- ReportRowFor(api, unitName, unitNumber, periods[0].year, Int(periods[0].quarter));
      Prepend([row], RowsForPeriods(api, unitName, unitNumber, periods[1..]))
  }

  /** The fetch for the `k`-th period, or an error. */
  function FetchAt(api: Api, unitName: Scalar, unitNumber: Scalar, periods: seq<Period>, k: nat): Result<Row, PyError>
    requires k < |periods|
  {
    ReportRowFor(api, unitName, unitNumber, periods[k].year, Int(periods[k].quarter))
  }

  /** One step of the walk: the first fetch, then the rest. */
  lemma RowsForPeriodsStep(api: Api, unitName: Scalar, unitNumber: Scalar, periods: seq<Period>)
    requires periods != []
    ensures var r := RowsForPeriods(api, unitName, unitNumber, periods);
            var head := FetchAt(api, unitName, unitNumber, periods, 0);
            var tail := RowsForPeriods(api, unitName, unitNumber, periods[1..]);
            && (r.Success? <==> head.Success? && tail.Success?)
            && (r.Success? ==> r.value == [head.value] + tail.value)
  {
  }

  /** A successful walk has one row per period. */
  lemma {:induction false} RowsForPeriodsLength(api: Api, unitName: Scalar, unitNumber: Scalar, periods: seq<Period>)
    ensures var r := RowsForPeriods(api, unitName, unitNumber, periods);
            r.Success? ==> |r.value| == |periods|
  {
    if periods != [] {
      RowsForPeriodsStep(api, unitName, unitNumber, periods);
      RowsForPeriodsLength(api, unitName, unitNumber, periods[1..]);
    }
  }

  /** In a successful walk the `k`-th row is the `k`-th period's fetch. */
  lemma {:induction false} RowsForPeriodsAt(api: Api, unitName: Scalar, unitNumber: Scalar, periods: seq<Period>, k: nat)
    requires k < |periods|
    ensures var r := RowsForPeriods(api, unitName, unitNumber, periods);
            r.Success? ==> |r.value| == |periods| && FetchAt(api, unitName, unitNumber, periods, k) == Success(r.value[k])
  {
    RowsForPeriodsLength(api, unitName, unitNumber, periods);
    RowsForPeriodsStep(api, unitName, unitNumber, periods);
    if k > 0 {
      var rest := periods[1..];
      RowsForPeriodsAt(api, unitName, unitNumber, rest, k - 1);
      assert periods[k] == rest[k - 1];
    }
  }

  /** The walk succeeds when every fetch does. */
  lemma {:induction false} RowsForPeriodsComplete(api: Api, unitName: Scalar, unitNumber: Scalar, periods: seq<Period>)
    requires forall k :: 0 <= k < |periods| ==> FetchAt(api, unitName, unitNumber, periods, k).Success?
    ensures RowsForPeriods(api, unitName, unitNumber, periods).Success?
  {
    if periods != [] {
      var rest := periods[1..];
      forall k | 0 <= k < |rest|
        ensures FetchAt(api, unitName, unitNumber, rest, k).Success?
      {
        assert FetchAt(api, unitName, unitNumber, rest, k) == FetchAt(api, unitName, unitNumber, periods, k + 1) by {
          assert rest[k] == periods[k + 1];
        }
      }
      RowsForPeriodsComplete(api, unitName, unitNumber, rest);
      assert FetchAt(api, unitName, unitNumber, periods, 0).Success?;
    }
  }

  /**
   * One row per period, in the portal's order, each fetched with that
   * period's year and quarter; it fails exactly when some fetch or flattening does.
   */
  lemma RowsForPeriodsRows(api: Api, unitName: Scalar, unitNumber: Scalar, periods: seq<Period>)
    ensures var r := RowsForPeriods(api, unitName, unitNumber, periods);
            && (r.Success? <==> forall k :: 0 <= k < |periods| ==> FetchAt(api, unitName, unitNumber, periods, k).Success?)
            && (r.Success? ==> |r.value| == |periods|)
            && (r.Success? ==> forall k :: 0 <= k < |periods| ==> r.value[k] == FetchAt(api, unitName, unitNumber, periods, k).value)
  {
    var r := RowsForPeriods(api, unitName, unitNumber, periods);
    RowsForPeriodsLength(api, unitName, unitNumber, periods);
    if r.Success? {
      forall k | 0 <= k < |periods|
        ensures FetchAt(api, unitName, unitNumber, periods, k) == Success(r.value[k])
      {
        RowsForPeriodsAt(api, unitName, unitNumber, periods, k);
      }
    }
    if forall k :: 0 <= k < |periods| ==> FetchAt(api, unitName, unitNumber, periods, k).Success? {
      RowsForPeriodsComplete(api, unitName, unitNumber, periods);
    }
  }

  /** The rows of one unit, one per listed period. */
  function UnitReport(api: Api, unitName: Scalar, unitNumber: Scalar): Result<seq<Row>, PyError> {
    var periods :- PeriodsFor(api, unitNumber);
    RowsForPeriods(api, unitName, unitNumber, periods)
  }

  /** The (name, number) pairs of the units. */
  function UnitFields(units: seq<Unit>): (fields: seq<(Scalar, Scalar)>)
    reads units
    ensures |fields| == |units|
    ensures forall k :: 0 <= k < |units| ==> fields[k] == (units[k].storedName, units[k].storedNumber)
  {
    if units == [] then [] else [(units[0].storedName, units[0].storedNumber)] + UnitFields(units[1..])
  }

  /** The whole table: the per-unit lists concatenated in unit order. */
  function Table(api: Api, units: seq<(Scalar, Scalar)>): Result<seq<Row>, PyError> {
    if units == [] then Success([])
    else
      var first :- UnitReport(api, units[0].0, units[0].1);
      Prepend(first, Table(api, units[1..]))
  }

  /** The columns pandas gives the table: every key of every row. */
  function Columns(rows: seq<Row>): (cols: set<string>)
    ensures forall c :: c in cols <==> exists k :: 0 <= k < |rows| && c in rows[k]
  {
    if rows == [] then {}
    else
      var n := |rows| - 1;
      var cols := Columns(rows[..n]) + rows[n].Keys;
      assert forall c, k :: 0 <= k < n && c in rows[..n][k] ==> c in rows[k];
      cols
  }

  /** One step of `ParseAll` at position `i`. */
  lemma LabelStep(labels: seq<string>, i: nat)
    requires i < |labels|
    ensures Parse(labels[i]).Failure? ==> ParseAll(labels[i..]) == Failure(Parse(labels[i]).error)
    ensures Parse(labels[i]).Success? ==> ParseAll(labels[i..]) == Prepend([Parse(labels[i]).value], ParseAll(labels[i + 1..]))
  {
    assert labels[i..][0] == labels[i] && labels[i..][1..] == labels[i + 1..];
  }

  /** The quarters carry the periods' years and quarter numbers, in order. */
  ghost predicate Carries(quarters: seq<Quarter>, periods: seq<Period>)
    reads set k | 0 <= k < |quarters| :: quarters[k]
  {
    && |quarters| == |periods|
    && forall k :: 0 <= k < |quarters| ==>
         quarters[k].storedYear == periods[k].year && quarters[k].storedQuarter == Int(periods[k].quarter)
  }

  lemma CarriesStep(quarters: seq<Quarter>, periods: seq<Period>, q: Quarter, p: Period)
    requires Carries(quarters, periods)
    requires q.storedYear == p.year && q.storedQuarter == Int(p.quarter)
    ensures Carries(quarters + [q], periods + [p])
  {
  }

  /** `lcr.available_report_quarters(unit)`: one fresh `Quarter` per listed label. */
  method AvailableReportQuarters(api: Api, unit: Unit) returns (r: Result<seq<Quarter>, PyError>)
    ensures r.Success? <==> PeriodsFor(api, unit.storedNumber).Success?
    ensures r.Failure? ==> r.error == PeriodsFor(api, unit.storedNumber).error
    ensures r.Success? ==> |r.value| == |PeriodsFor(api, unit.storedNumber).value|
    ensures r.Success? ==> forall k :: 0 <= k < |r.value| ==>
              && fresh(r.value[k])
              && r.value[k].storedYear == PeriodsFor(api, unit.storedNumber).value[k].year
              && r.value[k].storedQuarter == Int(PeriodsFor(api, unit.storedNumber).value[k].quarter)
  {
    var labels :- api.availableReportQuarters(unit.Number());
    ghost var all := ParseAll(labels);
    assert PeriodsFor(api, unit.storedNumber) == all;
    var quarters: seq<Quarter> := [];
    ghost var periods: seq<Period> := [];
    var i := 0;
    assert labels[0..] == labels;
    PrependNothing(all);
    while i < |labels|
      invariant 0 <= i <= |labels| && |quarters| == |periods| == i
      invariant all == Prepend(periods, ParseAll(labels[i..]))
      invariant forall k :: 0 <= k < i ==> fresh(quarters[k])
      invariant Carries(quarters, periods)
    {
      LabelStep(labels, i);
      var q := Quarter.Create(labels[i]);
      if q.Failure? {
        return Failure(q.error);
      }
      ghost var p := Parse(labels[i]).value;
      PrependTwice(periods, [p], ParseAll(labels[i + 1..]));
      CarriesStep(quarters, periods, q.value, p);
      quarters := quarters + [q.value];
      periods := periods + [p];
      i := i + 1;
    }
    assert labels[i..] == [];
    assert periods + [] == periods;
    return Success(quarters);
  }

  /** `__get_report_row`: fetch the report with `(unit.number, q.quarter, q.year)` and flatten it. */
  method GetReportRow(api: Api, unit: Unit, quarter: Quarter) returns (r: Result<Row, PyError>)
    ensures r == ReportRowFor(api, unit.storedName, unit.storedNumber, quarter.storedYear, quarter.storedQuarter)
  {
    var report :- api.quarterlyReport(unit.Number(), quarter.QuarterOfYear(), quarter.Year());
    var context := map[
      "year" := Int(quarter.Year()),
      "quarter.num" := quarter.Number(),
      "quarter" := Str(quarter.ToString()),
      "unitId" := unit.Number(),
      "unitName" := unit.Name()];
    r := FlattenReport(context, report);
  }

  /** One step of `RowsForPeriods` at position `i`. */
  lemma PeriodStep(api: Api, unitName: Scalar, unitNumber: Scalar, periods: seq<Period>, i: nat)
    requires i < |periods|
    ensures var fetched := ReportRowFor(api, unitName, unitNumber, periods[i].year, Int(periods[i].quarter));
            RowsForPeriods(api, unitName, unitNumber, periods[i..])
              == if fetched.Failure? then Failure(fetched.error)
                 else Prepend([fetched.value], RowsForPeriods(api, unitName, unitNumber, periods[i + 1..]))
  {
    assert periods[i..][0] == periods[i] && periods[i..][1..] == periods[i + 1..];
  }

  /** The loop of `__get_quarterly_report_for_unit`: one row per quarter, appended in order. */
  method ReportRows(api: Api, unit: Unit, quarters: seq<Quarter>, ghost periods: seq<Period>) returns (r: Result<seq<Row>, PyError>)
    requires |quarters| == |periods|
    requires forall k :: 0 <= k < |quarters| ==>
               quarters[k].storedYear == periods[k].year && quarters[k].storedQuarter == Int(periods[k].quarter)
    ensures r == RowsForPeriods(api, unit.storedName, unit.storedNumber, periods)
  {
    ghost var rows := RowsForPeriods(api, unit.storedName, unit.storedNumber, periods);
    var unitReport: seq<Row> := [];
    var i := 0;
    assert periods[0..] == periods;
    PrependNothing(rows);
    while i < |quarters|
      invariant 0 <= i <= |quarters|
      invariant rows == Prepend(unitReport, RowsForPeriods(api, unit.storedName, unit.storedNumber, periods[i..]))
    {
      PeriodStep(api, unit.storedName, unit.storedNumber, periods, i);
      var row := GetReportRow(api, unit, quarters[i]);
      if row.Failure? {
        assert rows == Failure(row.error);
        return Failure(row.error);
      }
      PrependTwice(unitReport, [row.value], RowsForPeriods(api, unit.storedName, unit.storedNumber, periods[i + 1..]));
      unitReport := unitReport + [row.value];
      i := i + 1;
    }
    assert periods[i..] == [];
    assert unitReport + [] == unitReport;
    return Success(unitReport);
  }

  /** `__get_quarterly_report_for_unit`: one row per listed quarter, appended in order. */
  method ReportForUnit(unit: Unit, api: Api) returns (r: Result<seq<Row>, PyError>)
    ensures r == UnitReport(api, unit.storedName, unit.storedNumber)
  {
    var available := AvailableReportQuarters(api, unit);
    if available.Failure? {
      return Failure(available.error);
    }
    ghost var periods := PeriodsFor(api, unit.storedNumber).value;
    r := ReportRows(api, unit, available.value, periods);
  }

  /** `__get_quarterly_report`: the per-unit lists concatenated in unit order, as a table. */
  method QuarterlyReport(units: seq<Unit>, api: Api) returns (r: Result<Frame, PyError>)
    ensures Table(api, UnitFields(units)).Success? <==> r.Success?
    ensures r.Failure? ==> r.error == Table(api, UnitFields(units)).error
    ensures r.Success? ==> r.value == Frame(Columns(Table(api, UnitFields(units)).value), Table(api, UnitFields(units)).value)
  {
    ghost var fields := UnitFields(units);
    var reportTable: seq<Row> := [];
    var i := 0;
    assert fields[0..] == fields;
    PrependNothing(Table(api, fields));
    while i < |units|
      invariant 0 <= i <= |units|
      invariant Table(api, fields) == Prepend(reportTable, Table(api, fields[i..]))
    {
      assert fields[i..][0] == (units[i].storedName, units[i].storedNumber) && fields[i..][1..] == fields[i + 1..];
      var unitReport := ReportForUnit(units[i], api);
      if unitReport.Failure? {
        return Failure(unitReport.error);
      }
      PrependTwice(reportTable, unitReport.value, Table(api, fields[i + 1..]));
      reportTable := reportTable + unitReport.value;
      i := i + 1;
    }
    assert fields[i..] == [];
    assert reportTable + [] == reportTable;
    return Success(Frame(Columns(reportTable), reportTable));
  }

  // ---------------------------------------------------------------------------
  // Properties of the table

  /** The per-unit lists joined end to end. */
  function Concat(reports: seq<seq<Row>>): seq<Row> {
    if reports == [] then [] else reports[0] + Concat(reports[1..])
  }

  /** When every unit's report succeeds, the table is their concatenation in unit order. */
  lemma {:induction false} TableOfReports(api: Api, units: seq<(Scalar, Scalar)>, reports: seq<seq<Row>>)
    requires |reports| == |units|
    requires forall k :: 0 <= k < |units| ==> UnitReport(api, units[k].0, units[k].1) == Success(reports[k])
    ensures Table(api, units) == Success(Concat(reports))
  {
    if units != [] {
      TableOfReports(api, units[1..], reports[1..]);
    }
  }

  /** The number of rows of all the per-unit lists. */
  function TotalRows(reports: seq<seq<Row>>): nat {
    if reports == [] then 0 else |reports[0]| + TotalRows(reports[1..])
  }

  lemma {:induction false} ConcatLength(reports: seq<seq<Row>>)
    ensures |Concat(reports)| == TotalRows(reports)
  {
    if reports != [] {
      ConcatLength(reports[1..]);
    }
  }

  /** Row `k` of unit `u` sits after all rows of the units before it. */
  lemma {:induction false} ConcatAt(reports: seq<seq<Row>>, u: nat, k: nat)
    requires u < |reports| && k < |reports[u]|
    ensures TotalRows(reports[..u]) + k < |Concat(reports)|
    ensures Concat(reports)[TotalRows(reports[..u]) + k] == reports[u][k]
  {
    ConcatLength(reports);
    if u == 0 {
      assert reports[..0] == [];
    } else {
      ConcatAt(reports[1..], u - 1, k);
      assert reports[..u][0] == reports[0] && reports[..u][1..] == reports[1..][..u - 1];
    }
  }

  /**
   * When every unit's report succeeds, the table has as many rows as the
   * reports together, and row `k` of unit `u` is at position
   * (rows of the units before `u`) + `k`.
   */
  lemma TableLayout(api: Api, units: seq<(Scalar, Scalar)>, reports: seq<seq<Row>>, u: nat, k: nat)
    requires |reports| == |units|
    requires forall j :: 0 <= j < |units| ==> UnitReport(api, units[j].0, units[j].1) == Success(reports[j])
    requires u < |units| && k < |reports[u]|
    ensures Table(api, units).Success? && |Table(api, units).value| == TotalRows(reports)
    ensures TotalRows(reports[..u]) + k < TotalRows(reports)
    ensures Table(api, units).value[TotalRows(reports[..u]) + k] == reports[u][k]
  {
    TableOfReports(api, units, reports);
    ConcatLength(reports);
    ConcatAt(reports, u, k);
  }

  /** The first unit whose report fails decides the error; nothing after it is kept. */
  lemma {:induction false} TableFirstError(api: Api, units: seq<(Scalar, Scalar)>, k: nat)
    requires k < |units|
    requires forall j :: 0 <= j < k ==> UnitReport(api, units[j].0, units[j].1).Success?
    requires UnitReport(api, units[k].0, units[k].1).Failure?
    ensures Table(api, units) == Failure(UnitReport(api, units[k].0, units[k].1).error)
  {
    if k > 0 {
      assert units[1..][k - 1] == units[k];
      TableFirstError(api, units[1..], k - 1);
    }
  }

  /** The table of a list of units is the table of its first part followed by that of the rest. */
  lemma {:induction false} TableAppend(api: Api, us: seq<(Scalar, Scalar)>, vs: seq<(Scalar, Scalar)>)
    ensures Table(api, us + vs) ==
              if Table(api, us).Failure? then Failure(Table(api, us).error) else Prepend(Table(api, us).value, Table(api, vs))
  {
    if us == [] {
      assert us + vs == vs;
      PrependNothing(Table(api, vs));
    } else {
      assert (us + vs)[0] == us[0] && (us + vs)[1..] == us[1..] + vs;
      TableAppend(api, us[1..], vs);
      var first := UnitReport(api, us[0].0, us[0].1);
      if first.Success? && Table(api, us[1..]).Success? {
        PrependTwice(first.value, Table(api, us[1..]).value, Table(api, vs));
      }
    }
  }

  /** A unit listed twice contributes its rows twice: there is no de-duplication. */
  lemma UnitListedTwice(api: Api, unit: (Scalar, Scalar), rows: seq<Row>)
    requires UnitReport(api, unit.0, unit.1) == Success(rows)
    ensures Table(api, [unit, unit]) == Success(rows + rows)
  {
    TableOfReports(api, [unit, unit], [rows, rows]);
    assert Concat([rows, rows]) == rows + (rows + Concat([]));
    assert rows + (rows + []) == rows + rows;
  }

  // ---------------------------------------------------------------------------
  // Worked examples

  /** A report with one section holding one row. */
  function OneRowReport(id: string, actual: Value, potential: Value): Value {
    Object(map["sections" := Array([Object(map["rows" := Array([
      Object(map["nameResourceId" := Str(id), "actualValue" := actual, "potentialValue" := potential])])])])])
  }

  lemma OneRowRecords(id: string, actual: Value, potential: Value)
    ensures ReportRecords(OneRowReport(id, actual, potential)) == Success([RowRecord(id, actual, potential)])
  {
    var row := Object(map["nameResourceId" := Str(id), "actualValue" := actual, "potentialValue" := potential]);
    var section := Object(map["rows" := Array([row])]);
    var record := RowRecord(id, actual, potential);
    assert ReadRow(row) == Success(record);
    assert [row][1..] == [];
    assert [record] + [] == [record];
    assert RowsRecords([row]) == Success([record]);
    assert SectionRows(section) == Success([row]);
    assert [section][1..] == [];
    assert SectionsRecords([section]) == Success([record]);
  }

  /** A single report row writes its two columns on top of the context. */
  lemma OneRecordRow(context: Row, record: RowRecord)
    ensures Overlay(context, Writes([record])) ==
              context[record.id := record.actual][record.id + ".potential" := record.potential]
  {
    WritesSnoc([], record);
    assert [] + [record] == [record];
    OverlaySnoc2(context, [], (record.id, record.actual), (record.id + ".potential", record.potential));
  }

  /** The example's quarter is labelled "2024-Q1" in the table. */
  lemma Label2024Q1()
    ensures Label(2024, Int(1)) == "2024-Q1"
  {
    assert NatToDecimal(2) == "2";
    assert NatToDecimal(20) == "20";
    assert NatToDecimal(202) == "202";
    assert NatToDecimal(2024) == "2024";
    assert Render(Int(1)) == "1";
  }

  /** The fetch and flattening of a quarter whose report has one row. */
  lemma OneRowFetched(api: Api, unitName: Scalar, unitNumber: Scalar, year: int, quarter: PyInt,
                      id: string, actual: Value, potential: Value)
    requires api.quarterlyReport(unitNumber, quarter, year) == Success(OneRowReport(id, actual, potential))
    ensures ReportRowFor(api, unitName, unitNumber, year, quarter) ==
              Success(Context(unitName, unitNumber, year, quarter)[id := actual][id + ".potential" := potential])
  {
    OneRowRecords(id, actual, potential);
    OneRecordRow(Context(unitName, unitNumber, year, quarter), RowRecord(id, actual, potential));
  }

  /** The five context columns hold what lines 16-22 put there. */
  lemma ContextColumns(unitName: Scalar, unitNumber: Scalar, year: int, quarter: PyInt)
    ensures var ctx := Context(unitName, unitNumber, year, quarter);
            && ctx["year"] == Int(year) && ctx["quarter.num"] == quarter
            && ctx["quarter"] == Str(Label(year, quarter)) && ctx["unitId"] == unitNumber && ctx["unitName"] == unitName
  {
    assert |"quarter.num"| == 11 && |"quarter"| == 7 && |"unitId"| == 6 && |"unitName"| == 8 && |"year"| == 4;
  }

  /** A unit with one listed quarter gets exactly the row of that quarter. */
  lemma OneQuarterUnit(api: Api, unitName: Scalar, unitNumber: Scalar, text: string, period: Period)
    requires api.availableReportQuarters(unitNumber) == Success([text])
    requires Parse(text) == Success(period)
    ensures UnitReport(api, unitName, unitNumber) ==
              Prepend([], RowsForPeriods(api, unitName, unitNumber, [period]))
    ensures var fetched := ReportRowFor(api, unitName, unitNumber, period.year, Int(period.quarter));
            UnitReport(api, unitName, unitNumber) ==
              if fetched.Failure? then Failure(fetched.error) else Success([fetched.value])
  {
    assert PeriodsFor(api, unitNumber) == Success([period]) by {
      assert [text][1..] == [];
      assert [period] + [] == [period];
    }
    PrependNothing(RowsForPeriods(api, unitName, unitNumber, [period]));
    var fetched := ReportRowFor(api, unitName, unitNumber, period.year, Int(period.quarter));
    assert RowsForPeriods(api, unitName, unitNumber, [period]) ==
             if fetched.Failure? then Failure(fetched.error) else Success([fetched.value]) by {
      assert [period][1..] == [];
      if fetched.Success? {
        assert [fetched.value] + [] == [fetched.value];
      }
    }
  }

  /** A one-row report that collides with no context column keeps all five and adds two. */
  lemma OneRowColumns(unitName: Scalar, unitNumber: Scalar, year: int, quarter: PyInt, id: string, actual: Value, potential: Value)
    requires id !in ContextKeys() && id + ".potential" !in ContextKeys()
    ensures var row := Context(unitName, unitNumber, year, quarter)[id := actual][id + ".potential" := potential];
            && row.Keys == ContextKeys() + {id, id + ".potential"}
            && row["year"] == Int(year) && row["quarter.num"] == quarter && row["quarter"] == Str(Label(year, quarter))
            && row["unitId"] == unitNumber && row["unitName"] == unitName
            && row[id] == actual && row[id + ".potential"] == potential
  {
    ContextColumns(unitName, unitNumber, year, quarter);
    assert |id + ".potential"| == |id| + 10;
  }

  /**
   * Unit 123 with the one listed quarter "2024-1" and a report with one row
   * `id` (a name no context column has) of 250 out of 300 gives one table row:
   * its context columns label the quarter "2024-Q1" and the row adds its two columns.
   */
  lemma OakHillsExample(api: Api, name: string, id: string)
    requires api.availableReportQuarters(Int(123)) == Success(["2024-1"])
    requires api.quarterlyReport(Int(123), Int(1), 2024) == Success(OneRowReport(id, Int(250), Int(300)))
    ensures UnitReport(api, Str(name), Int(123)) ==
              Success([Context(Str(name), Int(123), 2024, Int(1))[id := Int(250)][id + ".potential" := Int(300)]])
    ensures Table(api, [(Str(name), Int(123))]) ==
              Success([Context(Str(name), Int(123), 2024, Int(1))[id := Int(250)][id + ".potential" := Int(300)]])
  {
    var row := Context(Str(name), Int(123), 2024, Int(1))[id := Int(250)][id + ".potential" := Int(300)];
    assert ReportRowFor(api, Str(name), Int(123), 2024, Int(1)) == Success(row) by {
      OneRowFetched(api, Str(name), Int(123), 2024, Int(1), id, Int(250), Int(300));
    }
    assert Parse("2024-1") == Success(Period(2024, 1)) by {
      AcceptsAnyQuarterNumber();
      DashOne();
    }
    OneQuarterUnit(api, Str(name), Int(123), "2024-1", Period(2024, 1));
    OneUnitTable(api, (Str(name), Int(123)));
  }

  /** The table of a single unit is that unit's report. */
  lemma OneUnitTable(api: Api, unit: (Scalar, Scalar))
    ensures Table(api, [unit]) == UnitReport(api, unit.0, unit.1)
  {
    assert [unit][1..] == [];
    var first := UnitReport(api, unit.0, unit.1);
    if first.Success? {
      assert first.value + [] == first.value;
    }
  }

  /** A report row named like a context column overwrites that column. */
  lemma ContextColumnOverwritten(context: Row, actual: Value, potential: Value)
    ensures ReportRow(context, OneRowReport("year", actual, potential)) ==
              Success(context["year" := actual]["year.potential" := potential])
  {
    OneRowRecords("year", actual, potential);
    OneRecordRow(context, RowRecord("year", actual, potential));
    assert "year" + ".potential" == "year.potential";
  }
}
