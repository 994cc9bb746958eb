/**
 * The analytics helpers over the quarterly table: first-match lookups in a
 * nested report, the year filter, the derived "melch.not.attending" column,
 * and the trace, legend and grid bookkeeping of the two chart builders. The
 * drawing itself is left to the plotting library; a figure here is the list
 * of traces and dashed lines the builders add, in order.
 */
module StakeQuarterlies {
  import opened Wrappers
  import opened Values
  import opened QuarterlyReports

  // ---------------------------------------------------------------------------
  // First-match lookups (lines 28-46)

  /** `item.get("nameResourceId") == id` for a dict `item`. */
  predicate Labelled(item: Value, id: string)
    requires item.Object?
  {
    "nameResourceId" in item.fields && item.fields["nameResourceId"] == Str(id)
  }

  /**
   * `next(item for item in items[from..] if item.get("nameResourceId") == id)`:
   * the index of the first labelled item, or `None`; an item that is not a
   * dict raises when it is reached before a match.
   */
  function FirstLabelled(items: seq<Value>, id: string, from: nat): (r: Result<Option<nat>, PyError>)
    requires from <= |items|
    ensures r.Success? && r.value.Some? ==>
              from <= r.value.value < |items| && items[r.value.value].Object? && Labelled(items[r.value.value], id)
    ensures r.Success? ==>
              forall k :: from <= k < (if r.value.Some? then r.value.value else |items|) ==>
                items[k].Object? && !Labelled(items[k], id)
    ensures r.Failure? ==>
              && r.error == AttributeError
              && exists k :: from <= k < |items| && !items[k].Object? &&
                   forall j :: from <= j < k ==> items[j].Object? && !Labelled(items[j], id)
    decreases |items| - from
  {
    if from == |items| then Success(None)
    else if !items[from].Object? then Failure(AttributeError)
    else if Labelled(items[from], id) then Success(Some(from))
    else FirstLabelled(items, id, from + 1)
  }

  /** The item `next(...)` yields from the items of an iteration, or `None`. */
  function FirstLabelledItem(items: seq<Value>, id: string): (r: Result<Option<Value>, PyError>)
    ensures r.Success? && r.value.Some? ==> r.value.value in items && r.value.value.Object?
  {
    var k :- FirstLabelled(items, id, 0);
    Success(if k.Some? then Some(items[k.value]) else None)
  }

  /** `get_section_by_label`: the first section of `qrp["sections"]` labelled `sectionId`, or `None`. */
  function GetSectionByLabel(qrp: Value, sectionId: string): (r: Result<Option<Value>, PyError>)
    ensures r.Success? ==> qrp.Object? && "sections" in qrp.fields
    ensures r.Success? && r.value.Some? ==>
              qrp.fields["sections"].Array? && r.value.value in qrp.fields["sections"].items
  {
    var sections :- Field(qrp, "sections");
    var items :- Items(sections);
    DictsOnlyFromLists(sections);
    FirstLabelledItem(items, sectionId)
  }

  /** `get_row_by_label`: the first row of `section["rows"]` labelled `rowId`; a `None` section raises. */
  function GetRowByLabel(section: Option<Value>, rowId: string): (r: Result<Option<Value>, PyError>)
    ensures section.None? ==> r == Failure(TypeError)
    ensures r.Success? ==> section.Some? && section.value.Object? && "rows" in section.value.fields
    ensures r.Success? && r.value.Some? ==>
              section.value.fields["rows"].Array? && r.value.value in section.value.fields["rows"].items
  {
    if section.None? then Failure(TypeError)
    else
      var rows :- Field(section.value, "rows");
      var items :- Items(rows);
      DictsOnlyFromLists(rows);
      FirstLabelledItem(items, rowId)
  }

  /** `get_value_for_field`: `(rowId, actualValue)` of the first matching row of the first matching section. */
  function GetValueForField(qrp: Value, sectionId: string, rowId: string): (r: Result<(string, Value), PyError>)
    ensures r.Success? ==> r.value.0 == rowId
  {
    var section :- GetSectionByLabel(qrp, sectionId);
    var row :- GetRowByLabel(section, rowId);
    if row.None? then Failure(TypeError)
    else
      var actual :- Field(row.value, "actualValue");
      Success((rowId, actual))
  }

  /**
   * The outcomes of `get_value_for_field` once both lookups have run: a
   * missing section or a missing row is subscripted as `None` and raises
   * `TypeError`; a row found without `actualValue` raises `KeyError`;
   * otherwise its `actualValue` is returned.
   */
  lemma ValueForFieldOutcomes(qrp: Value, sectionId: string, rowId: string)
    ensures GetSectionByLabel(qrp, sectionId).Failure? ==>
              GetValueForField(qrp, sectionId, rowId) == Failure(GetSectionByLabel(qrp, sectionId).error)
    ensures GetSectionByLabel(qrp, sectionId) == Success(None) ==>
              GetValueForField(qrp, sectionId, rowId) == Failure(TypeError)
    ensures forall section :: GetSectionByLabel(qrp, sectionId) == Success(Some(section)) ==>
              var row := GetRowByLabel(Some(section), rowId);
              && (row.Failure? ==> GetValueForField(qrp, sectionId, rowId) == Failure(row.error))
              && (row == Success(None) ==> GetValueForField(qrp, sectionId, rowId) == Failure(TypeError))
              && (row.Success? && row.value.Some? ==>
                    && (row.value.value.Object? && "actualValue" !in row.value.value.fields ==>
                          GetValueForField(qrp, sectionId, rowId) == Failure(KeyError("actualValue")))
                    && (row.value.value.Object? && "actualValue" in row.value.value.fields ==>
                          GetValueForField(qrp, sectionId, rowId) == Success((rowId, row.value.value.fields["actualValue"]))))
  {
  }

  /**
   * A string or a dict under `sections` is iterated too: it yields strings,
   * which have no `get`, so the lookup finds nothing when it is empty and
   * raises `AttributeError` at its first item otherwise.
   */
  lemma SectionsInText(qrp: Value, sectionId: string)
    requires qrp.Object? && "sections" in qrp.fields
    requires qrp.fields["sections"].Str? || qrp.fields["sections"].Object?
    ensures var sections := qrp.fields["sections"];
            var empty := if sections.Str? then |sections.s| == 0 else |sections.fields| == 0;
            GetSectionByLabel(qrp, sectionId) == if empty then Success(None) else Failure(AttributeError)
  {
    ItemsOfText(qrp.fields["sections"]);
  }

  /** The same for a string or a dict under a section's `rows`. */
  lemma RowsInText(section: Value, rowId: string)
    requires section.Object? && "rows" in section.fields
    requires section.fields["rows"].Str? || section.fields["rows"].Object?
    ensures var rows := section.fields["rows"];
            var empty := if rows.Str? then |rows.s| == 0 else |rows.fields| == 0;
            GetRowByLabel(Some(section), rowId) == if empty then Success(None) else Failure(AttributeError)
  {
    ItemsOfText(section.fields["rows"]);
  }

  /**
   * The value found is the `actualValue` of row `j` of section `i` when
   * section `i` is the first labelled `sectionId` and row `j` the first of it
   * labelled `rowId`.
   */
  lemma ValueOfFirstMatches(qrp: Value, sectionId: string, rowId: string, i: nat, j: nat)
    requires qrp.Object? && "sections" in qrp.fields && qrp.fields["sections"].Array?
    requires var sections := qrp.fields["sections"].items;
             && i < |sections| && sections[i].Object? && Labelled(sections[i], sectionId)
             && (forall k :: 0 <= k < i ==> sections[k].Object? && !Labelled(sections[k], sectionId))
             && "rows" in sections[i].fields && sections[i].fields["rows"].Array?
    requires var rows := qrp.fields["sections"].items[i].fields["rows"].items;
             && j < |rows| && rows[j].Object? && Labelled(rows[j], rowId)
             && (forall k :: 0 <= k < j ==> rows[k].Object? && !Labelled(rows[k], rowId))
             && "actualValue" in rows[j].fields
    ensures GetValueForField(qrp, sectionId, rowId) ==
              Success((rowId, qrp.fields["sections"].items[i].fields["rows"].items[j].fields["actualValue"]))
  {
    var sections := qrp.fields["sections"].items;
    FirstLabelledAt(sections, sectionId, i);
    FirstLabelledAt(sections[i].fields["rows"].items, rowId, j);
  }

  /** An item that is labelled and preceded only by unlabelled dicts is the one found. */
  lemma FirstLabelledAt(items: seq<Value>, id: string, i: nat)
    requires i < |items| && items[i].Object? && Labelled(items[i], id)
    requires forall k :: 0 <= k < i ==> items[k].Object? && !Labelled(items[k], id)
    ensures FirstLabelled(items, id, 0) == Success(Some(i))
  {
  }

  /**
   * Only the first section with the id is searched: when it lacks the row,
   * the lookup raises even though a later section with the same id holds it.
   */
  lemma LaterSectionIgnored(sectionId: string, rowId: string, value: Value)
    ensures var row := Object(map["nameResourceId" := Str(rowId), "actualValue" := value]);
            var empty := Object(map["nameResourceId" := Str(sectionId), "rows" := Array([])]);
            var full := Object(map["nameResourceId" := Str(sectionId), "rows" := Array([row])]);
            GetValueForField(Object(map["sections" := Array([empty, full])]), sectionId, rowId) == Failure(TypeError)
  {
    var row := Object(map["nameResourceId" := Str(rowId), "actualValue" := value]);
    var empty := Object(map["nameResourceId" := Str(sectionId), "rows" := Array([])]);
    var full := Object(map["nameResourceId" := Str(sectionId), "rows" := Array([row])]);
    var qrp := Object(map["sections" := Array([empty, full])]);
    assert Labelled(empty, sectionId);
    FirstLabelledAt([empty, full], sectionId, 0);
    assert GetSectionByLabel(qrp, sectionId) == Success(Some(empty));
    assert GetRowByLabel(Some(empty), rowId) == Success(None);
  }

  // ---------------------------------------------------------------------------
  // Grid layout (lines 52-60)

  /** `ceil(sqrt(n))`: the least `g` with `g * g >= n`. */
  function GridSize(n: nat): (g: nat)
    ensures g * g >= n
    ensures g == 0 || (g - 1) * (g - 1) < n
  {
    GridSizeFrom(n, 0)
  }

  function GridSizeFrom(n: nat, g: nat): (r: nat)
    requires g == 0 || (g - 1) * (g - 1) < n
    ensures r * r >= n
    ensures r == 0 || (r - 1) * (r - 1) < n
    decreases n - g
  {
    if g * g >= n then g
    else
      assert g <= g * g;
      GridSizeFrom(n, g + 1)
  }

  lemma {:induction false} SquareMonotone(a: nat, b: nat)
    requires a <= b
    ensures a * a <= b * b
  {
    assert a * a <= a * b <= b * b;
  }

  /** No smaller square grid holds `n` cells. */
  lemma GridSizeLeast(n: nat, h: nat)
    requires h * h >= n
    ensures GridSize(n) <= h
  {
    var g := GridSize(n);
    if h < g {
      SquareMonotone(h, g - 1);
    }
  }

  /** Only the empty list of wards gets the empty grid. */
  lemma GridSizePositive(n: nat)
    ensures GridSize(n) == 0 <==> n == 0
  {
  }

  /** The 1-based subplot cell of ward `i`: `(i // g + 1, i % g + 1)`. */
  function Cell(i: nat, g: nat): (nat, nat)
    requires g > 0
  {
    (i / g + 1, i % g + 1)
  }

  /** Every ward's cell lies inside the `g` by `g` grid. */
  lemma CellInBounds(n: nat, i: nat)
    requires i < n
    ensures GridSize(n) > 0
    ensures var c := Cell(i, GridSize(n));
            1 <= c.0 <= GridSize(n) && 1 <= c.1 <= GridSize(n)
  {
    var g := GridSize(n);
    assert g > 0;
    var q := i / g;
    assert i == g * q + i % g;
    ProductBound(g, q, g);
  }

  lemma ProductBound(g: nat, q: nat, b: nat)
    requires g > 0 && g * q < g * b
    ensures q < b
  {
  }

  /** Distinct wards get distinct cells. */
  lemma CellsDistinct(g: nat, i: nat, j: nat)
    requires g > 0 && i != j
    ensures Cell(i, g) != Cell(j, g)
  {
    assert i == g * (i / g) + i % g;
    assert j == g * (j / g) + j % g;
  }

  // ---------------------------------------------------------------------------
  // Columns of a frame

  /** A frame cell; a row without the column holds NaN, written `Null`. */
  function CellValue(row: Row, column: string): Value {
    if column in row then row[column] else Null
  }

  function ColumnValues(rows: seq<Row>, column: string): (vs: seq<Value>)
    ensures |vs| == |rows|
    ensures forall k :: 0 <= k < |rows| ==> vs[k] == CellValue(rows[k], column)
  {
    if rows == [] then [] else [CellValue(rows[0], column)] + ColumnValues(rows[1..], column)
  }

  /** `Series.unique()`: the distinct values in order of first appearance. */
  function Unique(vs: seq<Value>): (u: seq<Value>)
    ensures forall v :: v in u <==> v in vs
    ensures forall a, b :: 0 <= a < b < |u| ==> u[a] != u[b]
  {
    if vs == [] then []
    else
      var n := |vs| - 1;
      var prefix := Unique(vs[..n]);
      assert forall v :: v in vs <==> v in vs[..n] || v == vs[n];
      if vs[n] in prefix then prefix else prefix + [vs[n]]
  }

  /** Values that are already distinct keep their order. */
  lemma {:induction false} UniqueOfDistinct(vs: seq<Value>)
    requires forall a, b :: 0 <= a < b < |vs| ==> vs[a] != vs[b]
    ensures Unique(vs) == vs
  {
    if vs != [] {
      var n := |vs| - 1;
      UniqueOfDistinct(vs[..n]);
      assert vs[..n] + [vs[n]] == vs;
    }
  }

  /** `df["unitName"].unique()`. */
  function UnitNames(frame: Frame): (r: Result<seq<Value>, PyError>)
    ensures r.Failure? <==> "unitName" !in frame.columns
    ensures r.Failure? ==> r.error == KeyError("unitName")
  {
    if "unitName" !in frame.columns then Failure(KeyError("unitName")) else Success(Unique(ColumnValues(frame.rows, "unitName")))
  }

  /** The wards are exactly the names in the `unitName` column, each once. */
  lemma UnitNamesWards(frame: Frame)
    requires "unitName" in frame.columns
    ensures var wards := UnitNames(frame).value;
            && (forall w :: w in wards <==> exists k :: 0 <= k < |frame.rows| && CellValue(frame.rows[k], "unitName") == w)
            && (forall a, b :: 0 <= a < b < |wards| ==> wards[a] != wards[b])
  {
    var names := ColumnValues(frame.rows, "unitName");
    assert forall w :: w in names <==> exists k :: 0 <= k < |frame.rows| && names[k] == w;
  }

  // ---------------------------------------------------------------------------
  // The year filter (line 185)

  /** `row["year"] >= start`: NaN compares false, text cannot be compared with a number. */
  function YearAtLeast(row: Row, start: int): Result<bool, PyError> {
    match CellValue(row, "year")
    case Null => Success(false)
    case Int(y) => Success(y >= start)
    case Bool(b) => Success((if b then 1 else 0) >= start)
    case _ => Failure(TypeError)
  }

  function FilterRows(rows: seq<Row>, start: int): (r: Result<seq<Row>, PyError>)
    ensures r.Success? <==> forall k :: 0 <= k < |rows| ==> YearAtLeast(rows[k], start).Success?
    ensures r.Failure? ==> r.error == TypeError
    ensures r.Success? ==> |r.value| <= |rows|
  {
    if rows == [] then Success([])
    else
      var n := |rows| - 1;
      var kept :- FilterRows(rows[..n], start);
      var keep :- YearAtLeast(rows[n], start);
      Success(if keep then kept + [rows[n]] else kept)
  }

  /** A row is kept exactly when it is one of the rows and its year is at least `start`. */
  lemma {:induction false} FilterKeeps(rows: seq<Row>, start: int)
    requires FilterRows(rows, start).Success?
    ensures forall row :: row in FilterRows(rows, start).value <==> row in rows && YearAtLeast(row, start) == Success(true)
  {
    if rows != [] {
      var n := |rows| - 1;
      FilterKeeps(rows[..n], start);
      assert forall row :: row in rows <==> row in rows[..n] || row == rows[n];
    }
  }

  /** `df[df["year"] >= start]`: the same columns and the rows of at least that year, in order. */
  function FilterByYear(frame: Frame, start: int): (r: Result<Frame, PyError>)
    ensures "year" !in frame.columns ==> r == Failure(KeyError("year"))
    ensures r.Success? ==> r.value.columns == frame.columns
  {
    if "year" !in frame.columns then Failure(KeyError("year"))
    else
      var rows :- FilterRows(frame.rows, start);
      Success(Frame(frame.columns, rows))
  }

  /** One step of the filter: the rows before the last, then the last row. */
  lemma FilterStep(rows: seq<Row>, start: int)
    requires rows != []
    ensures var n := |rows| - 1;
            var kept := FilterRows(rows[..n], start);
            var keep := YearAtLeast(rows[n], start);
            && (FilterRows(rows, start).Success? <==> kept.Success? && keep.Success?)
            && (FilterRows(rows, start).Success? ==>
                  FilterRows(rows, start).value == if keep.value then kept.value + [rows[n]] else kept.value)
  {
  }

  /** Filtering a concatenation filters each part: the original order is kept. */
  lemma {:induction false} FilterAppend(a: seq<Row>, b: seq<Row>, start: int)
    requires FilterRows(a, start).Success? && FilterRows(b, start).Success?
    ensures FilterRows(a + b, start) == Success(FilterRows(a, start).value + FilterRows(b, start).value)
  {
    if b == [] {
      assert a + b == a;
      assert FilterRows(a, start).value + [] == FilterRows(a, start).value;
    } else {
      var n := |b| - 1;
      var ab := a + b;
      assert ab[..|ab| - 1] == a + b[..n];
      assert ab[|ab| - 1] == b[n];
      FilterStep(b, start);
      FilterStep(ab, start);
      FilterAppend(a, b[..n], start);
      var fa, fb := FilterRows(a, start).value, FilterRows(b[..n], start).value;
      Regroup(fa, fb, [b[n]]);
    }
  }

  /** A single row is kept exactly when its year is at least `start`. */
  lemma FilterOne(row: Row, start: int)
    requires YearAtLeast(row, start).Success?
    ensures FilterRows([row], start) == Success(if YearAtLeast(row, start).value then [row] else [])
  {
    assert [row][..0] == [];
    assert [] + [row] == [row];
  }

  /** Every kept row passes the test, so filtering again changes nothing. */
  lemma {:induction false} FilterIdempotent(rows: seq<Row>, start: int)
    requires FilterRows(rows, start).Success?
    ensures FilterRows(FilterRows(rows, start).value, start) == FilterRows(rows, start)
  {
    if rows != [] {
      var n := |rows| - 1;
      FilterIdempotent(rows[..n], start);
      var kept := FilterRows(rows[..n], start).value;
      if YearAtLeast(rows[n], start).value {
        FilterOne(rows[n], start);
        FilterAppend(kept, [rows[n]], start);
      }
    }
  }

  /** Filtering from a later year after an earlier one is filtering from the later year. */
  lemma {:induction false} FilterTwice(rows: seq<Row>, early: int, late: int)
    requires early <= late
    requires FilterRows(rows, early).Success?
    ensures FilterRows(FilterRows(rows, early).value, late) == FilterRows(rows, late)
  {
    if rows != [] {
      var n := |rows| - 1;
      FilterTwice(rows[..n], early, late);
      var kept := FilterRows(rows[..n], early).value;
      if YearAtLeast(rows[n], early).value {
        FilterOne(rows[n], late);
        FilterAppend(kept, [rows[n]], late);
      }
    }
  }

  /** The same on frames: the year filter is idempotent. */
  lemma FilterByYearIdempotent(frame: Frame, start: int)
    requires FilterByYear(frame, start).Success?
    ensures FilterByYear(FilterByYear(frame, start).value, start) == FilterByYear(frame, start)
  {
    FilterIdempotent(frame.rows, start);
  }

  // ---------------------------------------------------------------------------
  // Legend indices of the column chart (lines 95-110)

  /** One visit of `legend_added`: a variable seen for the first time gets the next index. */
  function AddLegend(legend: map<string, nat>, variable: string): map<string, nat> {
    if variable in legend then legend else legend[variable := |legend|]
  }

  /** `legend_added` after the variables `vs`, in order. */
  function Legend(vs: seq<string>): map<string, nat> {
    if vs == [] then map[] else AddLegend(Legend(vs[..|vs| - 1]), vs[|vs| - 1])
  }

  /** One step of the legend: the variables before the last, then the last. */
  lemma LegendStep(vs: seq<string>)
    requires vs != []
    ensures Legend(vs) == AddLegend(Legend(vs[..|vs| - 1]), vs[|vs| - 1])
  {
  }

  /** `legend_added` has exactly the variables seen, with distinct indices below its size. */
  lemma {:induction false} LegendKeys(vs: seq<string>)
    ensures var m := Legend(vs);
            && (forall v :: v in m <==> v in vs)
            && (forall v :: v in m ==> m[v] < |m|)
            && (forall v, w :: v in m && w in m && v != w ==> m[v] != m[w])
  {
    if vs != [] {
      var n := |vs| - 1;
      LegendKeys(vs[..n]);
      LegendStep(vs);
      assert forall v :: v in vs <==> v in vs[..n] || v == vs[n];
    }
  }

  /** Indices never change once given: a later variable does not move an earlier one. */
  lemma {:induction false} LegendStable(vs: seq<string>, ws: seq<string>)
    ensures forall v :: v in Legend(vs) ==> v in Legend(vs + ws) && Legend(vs + ws)[v] == Legend(vs)[v]
  {
    if ws == [] {
      assert vs + ws == vs;
    } else {
      var n := |ws| - 1;
      var all, front := vs + ws, vs + ws[..n];
      LegendStable(vs, ws[..n]);
      assert all[..|all| - 1] == front && all[|all| - 1] == ws[n];
      LegendStep(all);
      var before := Legend(front);
      assert forall v :: v in before ==> v in AddLegend(before, ws[n]) && AddLegend(before, ws[n])[v] == before[v];
    }
  }

  /**
   * A variable seen for the first time gets the number of distinct variables
   * seen before it (the keys of the legend so far), and keeps it.
   */
  lemma LegendFirstSeen(vs: seq<string>, k: nat)
    requires k < |vs| && vs[k] !in vs[..k]
    ensures vs[k] in Legend(vs)
    ensures Legend(vs)[vs[k]] == |Legend(vs[..k])|
  {
    var before, upto := vs[..k], vs[..k + 1];
    assert upto[..k] == before && upto[k] == vs[k];
    assert Legend(upto) == AddLegend(Legend(before), vs[k]);
    LegendKeys(before);
    LegendPrefix(vs, k + 1);
  }

  /** The legend of a prefix is kept by the legend of the whole list. */
  lemma {:induction false} LegendPrefix(vs: seq<string>, k: nat)
    requires k <= |vs|
    ensures forall v :: v in Legend(vs[..k]) ==> v in Legend(vs) && Legend(vs)[v] == Legend(vs[..k])[v]
  {
    if k < |vs| {
      var n := |vs| - 1;
      LegendPrefix(vs[..n], k);
      assert vs[..n][..k] == vs[..k];
    } else {
      assert vs[..k] == vs;
    }
  }

  /** Every index below the number of distinct variables is given to one of them. */
  lemma {:induction false} LegendDense(vs: seq<string>, i: nat)
    requires i < |Legend(vs)|
    ensures exists v :: v in Legend(vs) && Legend(vs)[v] == i
  {
    var n := |vs| - 1;
    var m := Legend(vs[..n]);
    if vs[n] in m {
      LegendDense(vs[..n], i);
    } else if i < |m| {
      LegendDense(vs[..n], i);
      var v :| v in m && m[v] == i;
      assert Legend(vs)[v] == i;
    } else {
      assert Legend(vs)[vs[n]] == i;
    }
  }

  // ---------------------------------------------------------------------------
  // The derived column (line 131)

  /** The number a cell holds; `True` counts as 1. */
  function Numeric(v: Value): int
    requires v.Int? || v.Bool?
  {
    if v.Int? then v.i else if v.b then 1 else 0
  }

  /** `left - right` on one row: text cannot be subtracted, NaN gives NaN. */
  function CellDifference(left: Value, right: Value): (r: Result<Value, PyError>)
    ensures r.Failure? <==> left.Str? || left.Array? || left.Object? || right.Str? || right.Array? || right.Object?
    ensures r.Success? && (left.Null? || right.Null?) ==> r.value == Null
    ensures left.Int? && right.Int? ==> r == Success(Int(left.i - right.i))
  {
    if left.Str? || left.Array? || left.Object? || right.Str? || right.Array? || right.Object? then Failure(TypeError)
    else if left.Null? || right.Null? then Success(Null)
    else Success(Int(Numeric(left) - Numeric(right)))
  }

  /** The difference need not be a count: fewer members than attendees gives a negative number. */
  lemma DifferenceCanBeNegative()
    ensures CellDifference(Int(3), Int(5)) == Success(Int(-2))
  {
  }

  /** `df[left] - df[right]`, row by row; a missing column raises first, `left` before `right`. */
  function Difference(frame: Frame, left: string, right: string): (r: Result<seq<Value>, PyError>)
    ensures left !in frame.columns ==> r == Failure(KeyError(left))
    ensures left in frame.columns && right !in frame.columns ==> r == Failure(KeyError(right))
    ensures r.Success? ==> |r.value| == |frame.rows|
    ensures r.Success? ==> forall k :: 0 <= k < |frame.rows| ==>
              CellDifference(CellValue(frame.rows[k], left), CellValue(frame.rows[k], right)) == Success(r.value[k])
  {
    if left !in frame.columns then Failure(KeyError(left))
    else if right !in frame.columns then Failure(KeyError(right))
    else DifferenceRows(frame.rows, left, right)
  }

  function DifferenceRows(rows: seq<Row>, left: string, right: string): (r: Result<seq<Value>, PyError>)
    ensures r.Success? <==> forall k :: 0 <= k < |rows| ==>
              CellDifference(CellValue(rows[k], left), CellValue(rows[k], right)).Success?
    ensures r.Failure? ==> r.error == TypeError
    ensures r.Success? ==> |r.value| == |rows|
    ensures r.Success? ==> forall k :: 0 <= k < |rows| ==>
              CellDifference(CellValue(rows[k], left), CellValue(rows[k], right)) == Success(r.value[k])
  {
    if rows == [] then Success([])
    else
      var n := |rows| - 1;
      var front :- DifferenceRows(rows[..n], left, right);
      var last :- CellDifference(CellValue(rows[n], left), CellValue(rows[n], right));
      Success(front + [last])
  }

  /** The frame with one more column, `target`, holding `values` row by row. */
  function WithColumn(frame: Frame, target: string, values: seq<Value>): (r: Frame)
    requires |values| == |frame.rows|
    ensures r.columns == frame.columns + {target}
    ensures |r.rows| == |frame.rows|
    ensures forall k :: 0 <= k < |frame.rows| ==> r.rows[k] == frame.rows[k][target := values[k]]
  {
    Frame(frame.columns + {target}, seq(|frame.rows|, k requires 0 <= k < |frame.rows| => frame.rows[k][target := values[k]]))
  }

  /** `df["melch.not.attending"] = df["adult.male.melch"] - df["melch.attending"]` on a frame value. */
  function WithMelchNotAttending(frame: Frame): Result<Frame, PyError> {
    var values :- Difference(frame, "adult.male.melch", "melch.attending");
    Success(WithColumn(frame, "melch.not.attending", values))
  }

  /**
   * Each row gets "melch.not.attending" = "adult.male.melch" - "melch.attending"
   * and keeps every other cell.
   */
  lemma MelchNotAttendingCells(frame: Frame, k: nat, column: string)
    requires WithMelchNotAttending(frame).Success? && k < |frame.rows|
    ensures var derived := WithMelchNotAttending(frame).value;
            && derived.columns == frame.columns + {"melch.not.attending"}
            && |derived.rows| == |frame.rows|
            && CellDifference(CellValue(frame.rows[k], "adult.male.melch"), CellValue(frame.rows[k], "melch.attending"))
                 == Success(CellValue(derived.rows[k], "melch.not.attending"))
            && (column != "melch.not.attending" ==> CellValue(derived.rows[k], column) == CellValue(frame.rows[k], column))
  {
  }

  /** A frame that pandas can hold and whose fields are updated in place. */
  class DataFrame {
    var columns: set<string>
    var rows: seq<Row>

    constructor (frame: Frame)
      ensures columns == frame.columns && rows == frame.rows
    {
      columns := frame.columns;
      rows := frame.rows;
    }

    function Contents(): Frame
      reads this
    {
      Frame(columns, rows)
    }

    /** `df[target] = df[left] - df[right]`: the difference is computed in full, then stored. */
    method AssignDifference(target: string, left: string, right: string) returns (outcome: Outcome<PyError>)
      modifies this
      ensures outcome.Pass? <==> Difference(old(Contents()), left, right).Success?
      ensures outcome.Fail? ==> outcome.error == Difference(old(Contents()), left, right).error
      ensures outcome.Fail? ==> Contents() == old(Contents())
      ensures outcome.Pass? ==> Contents() == WithColumn(old(Contents()), target, Difference(old(Contents()), left, right).value)
    {
      var values := Difference(Contents(), left, right);
      if values.Failure? {
        return Fail(values.error);
      }
      var updated := WithColumn(Contents(), target, values.value);
      columns, rows := updated.columns, updated.rows;
      return Pass;
    }
  }

  // ---------------------------------------------------------------------------
  // Figures

  /** One `go.Bar` trace: its ward, variable, 1-based subplot cell, palette index and legend flag. */
  datatype Trace = Trace(ward: Value, variable: string, row: nat, col: nat, colour: nat, showLegend: bool)

  /** One dashed `add_hline` at height `y` in a subplot. */
  datatype HLine = HLine(y: int, row: nat, col: nat)

  /** The subplot grid, its titles, and the traces and lines added to it, in order. */
  datatype Figure = Figure(rows: nat, cols: nat, titles: seq<Value>, traces: seq<Trace>, hlines: seq<HLine>)

  /** The first variable that is not a column of the frame, if any. */
  function FirstMissing(vars: seq<string>, columns: set<string>): (r: Option<string>)
    ensures r.None? <==> forall k :: 0 <= k < |vars| ==> vars[k] in columns
  {
    if vars == [] then None
    else if vars[0] !in columns then Some(vars[0])
    else
      assert forall k :: 1 <= k < |vars| ==> vars[k] == vars[1..][k - 1];
      FirstMissing(vars[1..], columns)
  }

  /** A variable missing from the columns, after only present ones, is the one reported. */
  lemma {:induction false} FirstMissingAt(vars: seq<string>, columns: set<string>, k: nat)
    requires k < |vars| && vars[k] !in columns
    requires forall j :: 0 <= j < k ==> vars[j] in columns
    ensures FirstMissing(vars, columns) == Some(vars[k])
  {
    if k > 0 {
      assert vars[0] in columns;
      var rest := vars[1..];
      assert rest[k - 1] == vars[k];
      assert forall j :: 0 <= j < k - 1 ==> rest[j] == vars[j + 1];
      FirstMissingAt(rest, columns, k - 1);
    }
  }

  /**
   * The error the first trace of a chart raises, if any: `subset["quarter"]`
   * is read before `subset[variable]`.
   */
  function TraceError(columns: set<string>, vars: seq<string>): (e: Option<PyError>)
    ensures e.None? <==> vars == [] || ("quarter" in columns && forall k :: 0 <= k < |vars| ==> vars[k] in columns)
  {
    if vars == [] then None
    else if "quarter" !in columns then Some(KeyError("quarter"))
    else
      match FirstMissing(vars, columns)
      case None => None
      case Some(v) => Some(KeyError(v))
  }

  // ---------------------------------------------------------------------------
  // `make_bar_chart_per_ward_in_grid` (lines 49-87)

  /** `if min_line:`: no line for `None` or 0. */
  predicate Truthy(minLine: Option<int>) {
    minLine.Some? && minLine.value != 0
  }

  /**
   * Trace `j` of ward `i`: palette index `j`, and a legend entry only for the
   * first ward, only with several variables, only on a variable's first occurrence.
   */
  function GridTrace(ward: Value, i: nat, vars: seq<string>, j: nat, g: nat): Trace
    requires j < |vars| && g > 0
  {
    Trace(ward, vars[j], Cell(i, g).0, Cell(i, g).1, j, i == 0 && |vars| > 1 && vars[j] !in vars[..j])
  }

  /** The first `n` traces of ward `i`. */
  function WardTraces(ward: Value, i: nat, vars: seq<string>, g: nat, n: nat): (ts: seq<Trace>)
    requires n <= |vars| && g > 0
    ensures |ts| == n
    ensures forall j :: 0 <= j < n ==> ts[j] == GridTrace(ward, i, vars, j, g)
  {
    if n == 0 then [] else WardTraces(ward, i, vars, g, n - 1) + [GridTrace(ward, i, vars, n - 1, g)]
  }

  /** The traces of the first `m` wards, ward by ward. */
  function GridTraces(wards: seq<Value>, vars: seq<string>, g: nat, m: nat): seq<Trace>
    requires m <= |wards| && (m == 0 || g > 0)
  {
    if m == 0 then [] else GridTraces(wards, vars, g, m - 1) + WardTraces(wards[m - 1], m - 1, vars, g, |vars|)
  }

  /** The dashed lines of the first `m` wards: one per ward when `min_line` is truthy. */
  function GridLines(minLine: Option<int>, g: nat, m: nat): seq<HLine>
    requires m == 0 || g > 0
  {
    if m == 0 then []
    else GridLines(minLine, g, m - 1) + if Truthy(minLine) then [HLine(minLine.value, Cell(m - 1, g).0, Cell(m - 1, g).1)] else []
  }

  /** The figure of the grid chart, or the error drawing it raises. */
  function GridFigure(frame: Frame, minLine: Option<int>, vars: seq<string>): Result<Figure, PyError> {
    var wards :- UnitNames(frame);
    var g := GridSize(|wards|);
    if |wards| > 0 && TraceError(frame.columns, vars).Some? then Failure(TraceError(frame.columns, vars).value)
    else Success(Figure(g, g, wards, GridTraces(wards, vars, g, |wards|), GridLines(minLine, g, |wards|)))
  }

  /** At most one legend entry per variable. */
  ghost predicate LegendOnce(ts: seq<Trace>) {
    forall a, b :: 0 <= a < b < |ts| && ts[a].showLegend && ts[b].showLegend ==> ts[a].variable != ts[b].variable
  }

  /** Every legend entry comes from the first ward, with more than one variable. */
  lemma {:induction false} GridLegendOnlyFirstWard(wards: seq<Value>, vars: seq<string>, g: nat, m: nat)
    requires 0 < m <= |wards| && g > 0
    ensures GridTraces(wards, vars, g, m)[..|vars|] == WardTraces(wards[0], 0, vars, g, |vars|)
    ensures forall k :: |vars| <= k < |GridTraces(wards, vars, g, m)| ==> !GridTraces(wards, vars, g, m)[k].showLegend
  {
    if m > 1 {
      GridLegendOnlyFirstWard(wards, vars, g, m - 1);
      var front := GridTraces(wards, vars, g, m - 1);
      var last := WardTraces(wards[m - 1], m - 1, vars, g, |vars|);
      assert |front| >= |vars| by {
        GridTracesLength(wards, vars, g, m - 1);
      }
      assert (front + last)[..|vars|] == front[..|vars|];
    } else {
      assert GridTraces(wards, vars, g, m) == [] + WardTraces(wards[0], 0, vars, g, |vars|);
    }
  }

  lemma {:induction false} GridTracesLength(wards: seq<Value>, vars: seq<string>, g: nat, m: nat)
    requires m <= |wards| && (m == 0 || g > 0)
    ensures |GridTraces(wards, vars, g, m)| == m * |vars|
  {
    if m > 0 {
      GridTracesLength(wards, vars, g, m - 1);
    }
  }

  /**
   * In a grid chart a variable's legend entry appears at most once, and only
   * when more than one variable is plotted.
   */
  lemma GridLegend(frame: Frame, minLine: Option<int>, vars: seq<string>)
    requires GridFigure(frame, minLine, vars).Success?
    ensures LegendOnce(GridFigure(frame, minLine, vars).value.traces)
    ensures forall t :: t in GridFigure(frame, minLine, vars).value.traces && t.showLegend ==> |vars| > 1
  {
    var wards := UnitNames(frame).value;
    var g := GridSize(|wards|);
    var ts := GridTraces(wards, vars, g, |wards|);
    if |wards| > 0 {
      GridLegendOnlyFirstWard(wards, vars, g, |wards|);
      GridTracesLength(wards, vars, g, |wards|);
      assert |ts| >= |vars|;
      forall a, b | 0 <= a < b < |ts| && ts[a].showLegend && ts[b].showLegend
        ensures ts[a].variable != ts[b].variable
      {
        assert b < |vars|;
        assert ts[a] == ts[..|vars|][a] && ts[b] == ts[..|vars|][b];
        assert vars[a] in vars[..b];
      }
      forall t | t in ts && t.showLegend ensures |vars| > 1 {
        var k :| 0 <= k < |ts| && ts[k] == t;
        assert ts[k] == ts[..|vars|][k];
      }
    }
  }

  /** With several variables, the first ward shows each variable's legend on its first occurrence. */
  lemma GridLegendShown(frame: Frame, minLine: Option<int>, vars: seq<string>, j: nat)
    requires GridFigure(frame, minLine, vars).Success?
    requires |UnitNames(frame).value| > 0 && |vars| > 1
    requires j < |vars| && vars[j] !in vars[..j]
    ensures j < |GridFigure(frame, minLine, vars).value.traces|
    ensures var t := GridFigure(frame, minLine, vars).value.traces[j];
            t.variable == vars[j] && t.showLegend && t.colour == j
  {
    var wards := UnitNames(frame).value;
    var g := GridSize(|wards|);
    GridLegendOnlyFirstWard(wards, vars, g, |wards|);
    GridTracesLength(wards, vars, g, |wards|);
    var ts := GridTraces(wards, vars, g, |wards|);
    assert ts[j] == ts[..|vars|][j];
  }

  /** Every trace and line of a grid chart lies in a distinct-per-ward cell of the grid. */
  lemma {:induction false} GridCellsInBounds(wards: seq<Value>, vars: seq<string>, minLine: Option<int>, m: nat)
    requires 0 < m <= |wards|
    ensures var g := GridSize(|wards|);
            && (forall t :: t in GridTraces(wards, vars, g, m) ==> 1 <= t.row <= g && 1 <= t.col <= g)
            && (forall h :: h in GridLines(minLine, g, m) ==> 1 <= h.row <= g && 1 <= h.col <= g)
  {
    var g := GridSize(|wards|);
    CellInBounds(|wards|, m - 1);
    if m > 1 {
      GridCellsInBounds(wards, vars, minLine, m - 1);
    }
  }

  /** `legend_added` before trace `j` of ward `i`: every variable of the earlier wards, or of the traces before. */
  ghost predicate AddedBefore(added: set<string>, vars: seq<string>, i: nat, j: nat)
    requires j <= |vars|
  {
    forall v :: v in added <==> |vars| > 1 && (if i > 0 then v in vars else v in vars[..j])
  }

  /** Trace `j` shows a legend exactly as `GridTrace` says, and `legend_added` grows accordingly. */
  lemma AddedStep(added: set<string>, vars: seq<string>, i: nat, j: nat)
    requires j < |vars| && AddedBefore(added, vars, i, j)
    ensures (vars[j] !in added && |vars| > 1) == (i == 0 && |vars| > 1 && vars[j] !in vars[..j])
    ensures AddedBefore(if vars[j] !in added && |vars| > 1 then added + {vars[j]} else added, vars, i, j + 1)
  {
    assert vars[..j + 1] == vars[..j] + [vars[j]];
  }

  /** One more trace of ward `i`, drawn with the legend flag `GridTrace` gives it. */
  lemma WardTracesStep(ward: Value, i: nat, vars: seq<string>, g: nat, j: nat, show: bool)
    requires j < |vars| && g > 0
    requires show == (i == 0 && |vars| > 1 && vars[j] !in vars[..j])
    ensures WardTraces(ward, i, vars, g, j + 1) ==
              WardTraces(ward, i, vars, g, j) + [Trace(ward, vars[j], i / g + 1, i % g + 1, j, show)]
  {
  }

  /** The inner loop of lines 62-77 for ward `i`: its traces, and `legend_added` after them. */
  method AddWardTraces(ward: Value, i: nat, plotVariables: seq<string>, g: nat, columns: set<string>, legendAdded: set<string>)
    returns (r: Result<(seq<Trace>, set<string>), PyError>)
    requires g > 0
    requires forall v :: v in legendAdded <==> i > 0 && |plotVariables| > 1 && v in plotVariables
    requires i > 0 ==> TraceError(columns, plotVariables).None?
    ensures r.Failure? <==> plotVariables != [] && TraceError(columns, plotVariables).Some?
    ensures r.Failure? ==> TraceError(columns, plotVariables) == Some(r.error)
    ensures r.Success? ==> r.value.0 == WardTraces(ward, i, plotVariables, g, |plotVariables|)
    ensures r.Success? ==> forall v :: v in r.value.1 <==> |plotVariables| > 1 && v in plotVariables
  {
    var row, col := i / g + 1, i % g + 1;
    var traces: seq<Trace> := [];
    var added := legendAdded;
    var j := 0;
    assert plotVariables[..0] == [];
    while j < |plotVariables|
      invariant 0 <= j <= |plotVariables|
      invariant traces == WardTraces(ward, i, plotVariables, g, j)
      invariant AddedBefore(added, plotVariables, i, j)
      invariant j > 0 ==> "quarter" in columns
      invariant forall k :: 0 <= k < j ==> plotVariables[k] in columns
    {
      var variable := plotVariables[j];
      AddedStep(added, plotVariables, i, j);
      var showLegend := false;
      if variable !in added && |plotVariables| > 1 {
        showLegend := true;
        added := added + {variable};
      }
      if "quarter" !in columns {
        return Failure(KeyError("quarter"));
      }
      if variable !in columns {
        FirstMissingAt(plotVariables, columns, j);
        return Failure(KeyError(variable));
      }
      WardTracesStep(ward, i, plotVariables, g, j, showLegend);
      traces := traces + [Trace(ward, variable, row, col, j, showLegend)];
      j := j + 1;
    }
    assert plotVariables[..j] == plotVariables;
    return Success((traces, added));
  }

  /** One more ward: its traces and its line, after those of the wards before it. */
  lemma GridStep(wards: seq<Value>, vars: seq<string>, minLine: Option<int>, g: nat, i: nat)
    requires i < |wards| && g > 0
    ensures GridTraces(wards, vars, g, i + 1) == GridTraces(wards, vars, g, i) + WardTraces(wards[i], i, vars, g, |vars|)
    ensures GridLines(minLine, g, i + 1) ==
              GridLines(minLine, g, i) + if Truthy(minLine) then [HLine(minLine.value, i / g + 1, i % g + 1)] else []
  {
  }

  /** The grid chart when every ward drew. */
  lemma GridFigureDrawn(frame: Frame, minLine: Option<int>, vars: seq<string>, wards: seq<Value>)
    requires UnitNames(frame) == Success(wards)
    requires |wards| > 0 ==> TraceError(frame.columns, vars).None?
    ensures var g := GridSize(|wards|);
            GridFigure(frame, minLine, vars) ==
              Success(Figure(g, g, wards, GridTraces(wards, vars, g, |wards|), GridLines(minLine, g, |wards|)))
  {
  }

  /** The grid chart when a ward could not draw. */
  lemma GridFigureFails(frame: Frame, minLine: Option<int>, vars: seq<string>, wards: seq<Value>, e: PyError)
    requires UnitNames(frame) == Success(wards) && |wards| > 0
    requires TraceError(frame.columns, vars) == Some(e)
    ensures GridFigure(frame, minLine, vars) == Failure(e)
  {
  }

  /** `make_bar_chart_per_ward_in_grid` without the drawing: the figure it builds. */
  method GridChart(frame: Frame, minLine: Option<int>, plotVariables: seq<string>) returns (r: Result<Figure, PyError>)
    ensures r == GridFigure(frame, minLine, plotVariables)
  {
    var unique := UnitNames(frame);
    if unique.Failure? {
      return Failure(unique.error);
    }
    var wards := unique.value;
    var g := GridSize(|wards|);
    var traces: seq<Trace> := [];
    var hlines: seq<HLine> := [];
    var legendAdded: set<string> := {};
    var i := 0;
    while i < |wards|
      invariant 0 <= i <= |wards| && (i == 0 || g > 0)
      invariant traces == GridTraces(wards, plotVariables, g, i)
      invariant hlines == GridLines(minLine, g, i)
      invariant forall v :: v in legendAdded <==> i > 0 && |plotVariables| > 1 && v in plotVariables
      invariant i > 0 ==> TraceError(frame.columns, plotVariables).None?
    {
      assert g > 0 by {
        CellInBounds(|wards|, i);
      }
      var row, col := i / g + 1, i % g + 1;
      var added := AddWardTraces(wards[i], i, plotVariables, g, frame.columns, legendAdded);
      if added.Failure? {
        GridFigureFails(frame, minLine, plotVariables, wards, added.error);
        return Failure(added.error);
      }
      GridStep(wards, plotVariables, minLine, g, i);
      traces := traces + added.value.0;
      legendAdded := added.value.1;
      if Truthy(minLine) {
        hlines := hlines + [HLine(minLine.value, row, col)];
      }
      i := i + 1;
    }
    GridFigureDrawn(frame, minLine, plotVariables, wards);
    return Success(Figure(g, g, wards, traces, hlines));
  }

  // ---------------------------------------------------------------------------
  // `make_charts_colum_per_ward` (lines 90-127)

  /** One entry of the `rows` argument: a y-axis title, the variables stacked, an optional standard. */
  datatype ChartRow = ChartRow(name: string, variables: seq<string>, standard: Option<int>)

  /** One pass of the innermost loop: a ward in 1-based column `col`, row `row`, one variable. */
  datatype Visit = Visit(ward: Value, col: nat, row: nat, variable: string)

  /** The visits of the variables `vars[j..]` of one row of one ward. */
  function VariableVisits(ward: Value, col: nat, row: nat, vars: seq<string>, j: nat): seq<Visit>
    requires j <= |vars|
    decreases |vars| - j
  {
    if j == |vars| then [] else [Visit(ward, col, row, vars[j])] + VariableVisits(ward, col, row, vars, j + 1)
  }

  /** The visits of the rows `rows[r..]` of one ward. */
  function RowVisits(ward: Value, col: nat, rows: seq<ChartRow>, r: nat): seq<Visit>
    requires r <= |rows|
    decreases |rows| - r
  {
    if r == |rows| then []
    else VariableVisits(ward, col, r + 1, rows[r].variables, 0) + RowVisits(ward, col, rows, r + 1)
  }

  /** The visits of the wards `wards[c..]`, column by column. */
  function WardVisits(wards: seq<Value>, rows: seq<ChartRow>, c: nat): seq<Visit>
    requires c <= |wards|
    decreases |wards| - c
  {
    if c == |wards| then [] else RowVisits(wards[c], c + 1, rows, 0) + WardVisits(wards, rows, c + 1)
  }

  /** The variables of a list of visits. */
  function Variables(vs: seq<Visit>): (names: seq<string>)
    ensures |names| == |vs|
    ensures forall k :: 0 <= k < |vs| ==> names[k] == vs[k].variable
  {
    if vs == [] then [] else Variables(vs[..|vs| - 1]) + [vs[|vs| - 1].variable]
  }

  /** The trace of a visit, given `legend_added` before it. */
  function VisitTrace(legend: map<string, nat>, v: Visit): Trace {
    Trace(v.ward, v.variable, v.row, v.col, AddLegend(legend, v.variable)[v.variable], v.variable !in legend)
  }

  /** The traces of the visits, in order, each with the legend of the visits before it. */
  function ColumnTraces(vs: seq<Visit>): (ts: seq<Trace>)
    ensures |ts| == |vs|
  {
    if vs == [] then []
    else
      var n := |vs| - 1;
      ColumnTraces(vs[..n]) + [VisitTrace(Legend(Variables(vs[..n])), vs[n])]
  }

  /** The dashed lines of the rows `rows[r..]` of the ward in column `col`: one per row with a standard. */
  function RowLines(col: nat, rows: seq<ChartRow>, r: nat): seq<HLine>
    requires r <= |rows|
    decreases |rows| - r
  {
    if r == |rows| then []
    else (if rows[r].standard.Some? then [HLine(rows[r].standard.value, r + 1, col)] else []) + RowLines(col, rows, r + 1)
  }

  /** The dashed lines of the wards in columns `c + 1 ..= n`. */
  function WardLines(n: nat, rows: seq<ChartRow>, c: nat): seq<HLine>
    requires c <= n
    decreases n - c
  {
    if c == n then [] else RowLines(c + 1, rows, 0) + WardLines(n, rows, c + 1)
  }

  /** The figure of the column chart, or the error drawing it raises. */
  function ColumnFigure(frame: Frame, rows: seq<ChartRow>): Result<Figure, PyError> {
    var wards :- UnitNames(frame);
    var visits := WardVisits(wards, rows, 0);
    match TraceError(frame.columns, Variables(visits))
    case Some(e) => Failure(e)
    case None => Success(Figure(|rows|, |wards|, wards, ColumnTraces(visits), WardLines(|wards|, rows, 0)))
  }

  lemma VariablesPrefix(vs: seq<Visit>, k: nat)
    requires k <= |vs|
    ensures Variables(vs[..k]) == Variables(vs)[..k]
  {
    assert forall i :: 0 <= i < k ==> Variables(vs[..k])[i] == vs[i].variable;
  }

  /** Trace `k` is the trace of visit `k` with the legend of the visits before it. */
  lemma {:induction false} ColumnTracesAt(vs: seq<Visit>, k: nat)
    requires k < |vs|
    ensures ColumnTraces(vs)[k] == VisitTrace(Legend(Variables(vs[..k])), vs[k])
  {
    var n := |vs| - 1;
    var front := ColumnTraces(vs[..n]);
    var last := VisitTrace(Legend(Variables(vs[..n])), vs[n]);
    assert ColumnTraces(vs) == front + [last];
    if k < n {
      var shorter := vs[..n];
      assert shorter[..k] == vs[..k] && shorter[k] == vs[k];
      assert front[k] == VisitTrace(Legend(Variables(vs[..k])), vs[k]) by {
        ColumnTracesAt(shorter, k);
      }
      assert (front + [last])[k] == front[k];
    } else {
      assert (front + [last])[k] == last;
    }
  }

  /** The index a variable gets when visited is the one it has in the final legend. */
  lemma LegendAt(names: seq<string>, k: nat)
    requires k < |names|
    ensures names[k] in Legend(names)
    ensures AddLegend(Legend(names[..k]), names[k])[names[k]] == Legend(names)[names[k]]
  {
    assert names[..k + 1][..k] == names[..k] && names[..k + 1][k] == names[k];
    LegendKeys(names);
    LegendPrefix(names, k + 1);
  }

  /**
   * Trace `k` of the column chart has the palette index its variable has in
   * the final legend (indices never change) and shows the legend exactly on
   * the variable's first occurrence.
   */
  lemma ColumnTraceAt(vs: seq<Visit>, k: nat)
    requires k < |vs|
    ensures vs[k].variable in Legend(Variables(vs))
    ensures ColumnTraces(vs)[k] ==
              Trace(vs[k].ward, vs[k].variable, vs[k].row, vs[k].col, Legend(Variables(vs))[vs[k].variable],
                    vs[k].variable !in Variables(vs)[..k])
  {
    ColumnTracesAt(vs, k);
    VariablesPrefix(vs, k);
    LegendKeys(Variables(vs)[..k]);
    LegendAt(Variables(vs), k);
  }

  /** Over any visits: colours are final-legend indices, one per variable, and legends appear once. */
  lemma TracesLegend(vs: seq<Visit>)
    ensures var legend := Legend(Variables(vs));
            var ts := ColumnTraces(vs);
            && (forall k :: 0 <= k < |ts| ==> ts[k].variable in legend && ts[k].colour == legend[ts[k].variable] < |legend|)
            && (forall a, b :: 0 <= a < b < |ts| && ts[a].variable != ts[b].variable ==> ts[a].colour != ts[b].colour)
            && (forall a, b :: 0 <= a < b < |ts| && ts[a].variable == ts[b].variable ==> ts[a].colour == ts[b].colour)
  {
    LegendKeys(Variables(vs));
    forall k | 0 <= k < |vs| ensures ColumnTraces(vs)[k].variable == vs[k].variable {
      ColumnTraceAt(vs, k);
    }
    forall k | 0 <= k < |vs|
      ensures ColumnTraces(vs)[k].variable in Legend(Variables(vs))
      ensures ColumnTraces(vs)[k].colour == Legend(Variables(vs))[ColumnTraces(vs)[k].variable]
    {
      ColumnTraceAt(vs, k);
    }
  }

  /** Over any visits: a legend entry is shown exactly on a variable's first visit. */
  lemma TracesLegendOnce(vs: seq<Visit>)
    ensures forall k :: 0 <= k < |vs| ==> ColumnTraces(vs)[k].showLegend == (vs[k].variable !in Variables(vs)[..k])
    ensures LegendOnce(ColumnTraces(vs))
  {
    var names := Variables(vs);
    var ts := ColumnTraces(vs);
    forall k | 0 <= k < |vs|
      ensures ts[k].variable == names[k] && ts[k].showLegend == (names[k] !in names[..k])
    {
      ColumnTraceAt(vs, k);
    }
    forall a, b | 0 <= a < b < |ts| && ts[a].showLegend && ts[b].showLegend
      ensures ts[a].variable != ts[b].variable
    {
      assert names[a] == names[..b][a];
    }
  }

  /** The column chart's legend indices are dense, distinct and in first-seen order. */
  lemma ColumnLegend(frame: Frame, rows: seq<ChartRow>)
    requires ColumnFigure(frame, rows).Success?
    ensures var legend := Legend(Variables(WardVisits(UnitNames(frame).value, rows, 0)));
            var ts := ColumnFigure(frame, rows).value.traces;
            && (forall k :: 0 <= k < |ts| ==> ts[k].variable in legend && ts[k].colour == legend[ts[k].variable] < |legend|)
            && (forall a, b :: 0 <= a < b < |ts| && ts[a].variable != ts[b].variable ==> ts[a].colour != ts[b].colour)
            && (forall a, b :: 0 <= a < b < |ts| && ts[a].variable == ts[b].variable ==> ts[a].colour == ts[b].colour)
            && LegendOnce(ts)
  {
    var vs := WardVisits(UnitNames(frame).value, rows, 0);
    assert ColumnFigure(frame, rows).value.traces == ColumnTraces(vs);
    TracesLegend(vs);
    TracesLegendOnce(vs);
  }

  lemma VisitStep(done: seq<Visit>, v: Visit)
    ensures ColumnTraces(done + [v]) == ColumnTraces(done) + [VisitTrace(Legend(Variables(done)), v)]
    ensures Legend(Variables(done + [v])) == AddLegend(Legend(Variables(done)), v.variable)
  {
    assert (done + [v])[..|done|] == done;
    assert Variables(done + [v])[..|done|] == Variables(done);
  }

  /** Every visit so far drew its trace: the frame has "quarter" and each visited variable. */
  ghost predicate Drawable(done: seq<Visit>, columns: set<string>) {
    (done != [] ==> "quarter" in columns) && forall k :: 0 <= k < |done| ==> done[k].variable in columns
  }

  lemma DrawableStep(done: seq<Visit>, v: Visit, columns: set<string>)
    requires Drawable(done, columns) && "quarter" in columns && v.variable in columns
    ensures Drawable(done + [v], columns)
  {
  }

  /** The error the visit after `done` raises, when every earlier visit drew. */
  lemma VisitError(all: seq<Visit>, done: seq<Visit>, v: Visit, more: seq<Visit>, columns: set<string>)
    requires all == done + [v] + more
    requires Drawable(done, columns)
    requires "quarter" !in columns || v.variable !in columns
    ensures TraceError(columns, Variables(all)) ==
              Some(KeyError(if "quarter" !in columns then "quarter" else v.variable))
  {
    var names := Variables(all);
    assert names[|done|] == v.variable;
    if "quarter" in columns {
      assert forall k :: 0 <= k < |done| ==> names[k] == done[k].variable;
      FirstMissingAt(names, columns, |done|);
    }
  }

  lemma VisitShift(all: seq<Visit>, done: seq<Visit>, v: Visit, next: seq<Visit>, rest: seq<Visit>)
    requires all == done + ([v] + next) + rest
    ensures all == (done + [v]) + next + rest
    ensures all == done + [v] + (next + rest)
  {
  }

  lemma Regroup<T>(a: seq<T>, b: seq<T>, c: seq<T>)
    ensures a + (b + c) == a + b + c
  {
  }

  lemma VisitsRegroup(done: seq<Visit>, head: seq<Visit>, tail: seq<Visit>, rest: seq<Visit>)
    ensures done + (head + tail) + rest == done + head + (tail + rest)
    ensures done + (head + tail) == done + head + tail
  {
  }

  /** One pass of the innermost loop body (lines 100-115): the legend update, then the trace. */
  method AddVisitTrace(columns: set<string>, ward: Value, col: nat, row: nat, variable: string,
                       traces: seq<Trace>, legend: map<string, nat>)
    returns (r: Result<(seq<Trace>, map<string, nat>), PyError>)
    ensures r.Failure? <==> "quarter" !in columns || variable !in columns
    ensures r.Failure? ==> r.error == KeyError(if "quarter" !in columns then "quarter" else variable)
    ensures r.Success? ==> r.value == (traces + [VisitTrace(legend, Visit(ward, col, row, variable))],
                                       AddLegend(legend, variable))
  {
    var showLegend := false;
    var added: map<string, nat> := legend;
    if variable !in added {
      showLegend := true;
      var entries := |added|;
      added := added[variable := entries];
    }
    if "quarter" !in columns {
      return Failure(KeyError("quarter"));
    }
    if variable !in columns {
      return Failure(KeyError(variable));
    }
    return Success((traces + [Trace(ward, variable, row, col, added[variable], showLegend)], added));
  }

  /** The innermost loop of lines 99-115 for one row of one ward. */
  method AddVariableTraces(ghost all: seq<Visit>, ghost rest: seq<Visit>, columns: set<string>,
                           ward: Value, col: nat, row: nat, vars: seq<string>,
                           ghost done: seq<Visit>, traces: seq<Trace>, legend: map<string, nat>)
    returns (r: Result<(seq<Trace>, map<string, nat>), PyError>, ghost done': seq<Visit>)
    requires all == done + VariableVisits(ward, col, row, vars, 0) + rest
    requires traces == ColumnTraces(done) && legend == Legend(Variables(done))
    requires Drawable(done, columns)
    ensures r.Failure? ==> TraceError(columns, Variables(all)) == Some(r.error)
    ensures r.Success? ==> && all == done' + rest
                           && r.value.0 == ColumnTraces(done') && r.value.1 == Legend(Variables(done'))
                           && Drawable(done', columns)
  {
    var ts, added := traces, legend;
    done' := done;
    var j := 0;
    while j < |vars|
      invariant 0 <= j <= |vars|
      invariant all == done' + VariableVisits(ward, col, row, vars, j) + rest
      invariant ts == ColumnTraces(done') && added == Legend(Variables(done'))
      invariant Drawable(done', columns)
      decreases |vars| - j
    {
      ghost var visit := Visit(ward, col, row, vars[j]);
      ghost var next := VariableVisits(ward, col, row, vars, j + 1);
      assert all == (done' + [visit]) + next + rest && all == done' + [visit] + (next + rest) by {
        VisitShift(all, done', visit, next, rest);
      }
      var step := AddVisitTrace(columns, ward, col, row, vars[j], ts, added);
      if step.Failure? {
        VisitError(all, done', visit, next + rest, columns);
        return Failure(step.error), done';
      }
      assert step.value.0 == ColumnTraces(done' + [visit]) && step.value.1 == Legend(Variables(done' + [visit]))
          && Drawable(done' + [visit], columns) by {
        VisitStep(done', visit);
        DrawableStep(done', visit, columns);
      }
      ts, added := step.value.0, step.value.1;
      done' := done' + [visit];
      j := j + 1;
    }
    assert done' + VariableVisits(ward, col, row, vars, j) == done';
    return Success((ts, added)), done';
  }

  /** When every visit drew, drawing raises nothing. */
  lemma DrawableNoError(vs: seq<Visit>, columns: set<string>)
    requires Drawable(vs, columns)
    ensures TraceError(columns, Variables(vs)).None?
  {
  }

  /** The middle loop of lines 98-120 for the ward in 1-based column `col`. */
  method AddRowTraces(ghost all: seq<Visit>, ghost rest: seq<Visit>, columns: set<string>,
                      ward: Value, col: nat, rows: seq<ChartRow>,
                      ghost done: seq<Visit>, traces: seq<Trace>, legend: map<string, nat>, lines: seq<HLine>)
    returns (r: Result<(seq<Trace>, map<string, nat>, seq<HLine>), PyError>, ghost done': seq<Visit>)
    requires all == done + RowVisits(ward, col, rows, 0) + rest
    requires traces == ColumnTraces(done) && legend == Legend(Variables(done))
    requires Drawable(done, columns)
    ensures r.Failure? ==> TraceError(columns, Variables(all)) == Some(r.error)
    ensures r.Success? ==> && all == done' + rest
                           && r.value.0 == ColumnTraces(done') && r.value.1 == Legend(Variables(done'))
                           && r.value.2 == lines + RowLines(col, rows, 0)
                           && Drawable(done', columns)
  {
    var ts, added, ls := traces, legend, lines;
    done' := done;
    var i := 0;
    while i < |rows|
      invariant 0 <= i <= |rows|
      invariant all == done' + RowVisits(ward, col, rows, i) + rest
      invariant ts == ColumnTraces(done') && added == Legend(Variables(done'))
      invariant ls + RowLines(col, rows, i) == lines + RowLines(col, rows, 0)
      invariant Drawable(done', columns)
      decreases |rows| - i
    {
      ghost var later := RowVisits(ward, col, rows, i + 1);
      VisitsRegroup(done', VariableVisits(ward, col, i + 1, rows[i].variables, 0), later, rest);
      var drawn;
      drawn, done' := AddVariableTraces(all, later + rest, columns, ward, col, i + 1, rows[i].variables,
                                        done', ts, added);
      if drawn.Failure? {
        return Failure(drawn.error), done';
      }
      Regroup(done', later, rest);
      ts, added := drawn.value.0, drawn.value.1;
      ghost var line := if rows[i].standard.Some? then [HLine(rows[i].standard.value, i + 1, col)] else [];
      assert RowLines(col, rows, i) == line + RowLines(col, rows, i + 1);
      Regroup(ls, line, RowLines(col, rows, i + 1));
      if rows[i].standard.Some? {
        ls := ls + [HLine(rows[i].standard.value, i + 1, col)];
      } else {
        assert ls + line == ls;
      }
      i := i + 1;
    }
    assert ls + RowLines(col, rows, i) == ls;
    assert done' + RowVisits(ward, col, rows, i) == done';
    return Success((ts, added, ls)), done';
  }

  /** The column chart when every visit drew. */
  lemma ColumnFigureDrawn(frame: Frame, rows: seq<ChartRow>, wards: seq<Value>, vs: seq<Visit>)
    requires UnitNames(frame) == Success(wards)
    requires vs == WardVisits(wards, rows, 0) && Drawable(vs, frame.columns)
    ensures ColumnFigure(frame, rows) ==
              Success(Figure(|rows|, |wards|, wards, ColumnTraces(vs), WardLines(|wards|, rows, 0)))
  {
    DrawableNoError(vs, frame.columns);
  }

  /** The column chart when a visit could not draw. */
  lemma ColumnFigureFails(frame: Frame, rows: seq<ChartRow>, wards: seq<Value>, e: PyError)
    requires UnitNames(frame) == Success(wards)
    requires TraceError(frame.columns, Variables(WardVisits(wards, rows, 0))) == Some(e)
    ensures ColumnFigure(frame, rows) == Failure(e)
  {
  }

  /** `make_charts_colum_per_ward` (lines 90-127): the figure it draws, or the error it raises. */
  method ColumnChart(frame: Frame, rows: seq<ChartRow>) returns (r: Result<Figure, PyError>)
    ensures r == ColumnFigure(frame, rows)
  {
    var names := UnitNames(frame);
    if names.Failure? {
      return Failure(names.error);
    }
    var wards := names.value;
    ghost var all := WardVisits(wards, rows, 0);
    ghost var done: seq<Visit> := [];
    var traces: seq<Trace> := [];
    var legend: map<string, nat> := map[];
    var lines: seq<HLine> := [];
    var c := 0;
    assert all == done + WardVisits(wards, rows, c);
    while c < |wards|
      invariant 0 <= c <= |wards|
      invariant all == done + WardVisits(wards, rows, c)
      invariant traces == ColumnTraces(done) && legend == Legend(Variables(done))
      invariant lines + WardLines(|wards|, rows, c) == WardLines(|wards|, rows, 0)
      invariant Drawable(done, frame.columns)
      decreases |wards| - c
    {
      ghost var later := WardVisits(wards, rows, c + 1);
      Regroup(done, RowVisits(wards[c], c + 1, rows, 0), later);
      var drawn;
      drawn, done := AddRowTraces(all, later, frame.columns, wards[c], c + 1, rows, done, traces, legend, lines);
      if drawn.Failure? {
        ColumnFigureFails(frame, rows, wards, drawn.error);
        return Failure(drawn.error);
      }
      ghost var here := RowLines(c + 1, rows, 0);
      assert WardLines(|wards|, rows, c) == here + WardLines(|wards|, rows, c + 1);
      Regroup(lines, here, WardLines(|wards|, rows, c + 1));
      traces, legend, lines := drawn.value.0, drawn.value.1, drawn.value.2;
      c := c + 1;
    }
    assert lines + WardLines(|wards|, rows, c) == lines;
    assert done + WardVisits(wards, rows, c) == done;
    ColumnFigureDrawn(frame, rows, wards, all);
    return Success(Figure(|rows|, |wards|, wards, traces, lines));
  }

  // ---------------------------------------------------------------------------
  // The standards and the report's charts (lines 10-20, 130-217)

  /** `STANDARDS_2024`: the minimum unit sizes in force from 2024. */
  const Standards2024: map<string, int> := map[
    "stake.membership" := 2000,
    "stake.melch.leadership" := 150,
    "stake.active.adults" := 500,
    "stake.active.youth" := 100,
    "stake.wards" := 5,
    "ward.membership" := 250,
    "ward.melch.leadership" := 20,
    "ward.active.adults" := 100,
    "ward.active.youth" := 20
  ]

  /** The four ward standards the charts draw. */
  lemma WardStandards()
    ensures "ward.membership" in Standards2024 && Standards2024["ward.membership"] == 250
    ensures "ward.melch.leadership" in Standards2024 && Standards2024["ward.melch.leadership"] == 20
    ensures "ward.active.adults" in Standards2024 && Standards2024["ward.active.adults"] == 100
    ensures "ward.active.youth" in Standards2024 && Standards2024["ward.active.youth"] == 20
  {
    assert |"ward.active.adults"| == 18 && |"ward.active.youth"| == 17;
    assert "ward.active.adults"[0] != "stake.active.youth"[0];
  }

  /** A chart as shown: the title given to `update_layout` and the figure. */
  datatype Chart = Chart(title: string, figure: Figure)

  /** The arguments of one call to `make_bar_chart_per_ward_in_grid`. */
  datatype GridSpec = GridSpec(title: string, minLine: Option<int>, variables: seq<string>)

  /** The grid chart `spec` draws over `frame`, or the error it raises. */
  function GridChartFor(frame: Frame, spec: GridSpec): Result<Chart, PyError> {
    var figure :- GridFigure(frame, spec.minLine, spec.variables);
    Success(Chart(spec.title, figure))
  }

  /** Lines 132-137, 141-145, 149-154, 158-163 and 167-172. */
  function MelchSpec(): GridSpec {
    GridSpec("Melchizedek Priesthood Attendance", Some(20), ["melch.attending", "melch.not.attending"])
  }

  function PrimarySpec(): GridSpec {
    GridSpec("Primary Attendance", None, ["children.attending.primary.2019.1"])
  }

  function MembershipSpec(): GridSpec {
    GridSpec("Ward Membership", Some(250), ["total.members"])
  }

  function AdultsSpec(): GridSpec {
    GridSpec("Active Adults", Some(100), ["melch.attending", "women.attending.meetings"])
  }

  function YouthSpec(): GridSpec {
    GridSpec("Active Youth", Some(20), ["young.men.attending", "young.women.attending"])
  }

  /** The minimum lines of the five grid charts are the 2024 ward standards (or none for Primary). */
  lemma SpecsUseStandards()
    ensures MelchSpec().minLine == Some(Standards2024["ward.melch.leadership"])
    ensures MembershipSpec().minLine == Some(Standards2024["ward.membership"])
    ensures AdultsSpec().minLine == Some(Standards2024["ward.active.adults"])
    ensures YouthSpec().minLine == Some(Standards2024["ward.active.youth"])
    ensures PrimarySpec().minLine.None?
  {
    WardStandards();
  }

  /** The rows of the column chart (lines 187-216). */
  function AnalyticsRows(): seq<ChartRow> {
    [
      ChartRow("Membership", ["total.members"], Some(250)),
      ChartRow("Melchizedek Priesthood", ["melch.attending"], Some(20)),
      ChartRow("Adults", ["melch.attending", "women.attending.meetings"], Some(100)),
      ChartRow("Youth", ["young.men.attending", "young.women.attending"], Some(20)),
      ChartRow("Sacrament", ["sacrament.attendance"], None),
      ChartRow("Primary", ["children.attending.primary.2019.1"], None)
    ]
  }

  /** The four rows with a standard take it from the 2024 ward standards; the last two have none. */
  lemma AnalyticsRowsUseStandards()
    ensures var rows := AnalyticsRows();
            && rows[0].standard == Some(Standards2024["ward.membership"])
            && rows[1].standard == Some(Standards2024["ward.melch.leadership"])
            && rows[2].standard == Some(Standards2024["ward.active.adults"])
            && rows[3].standard == Some(Standards2024["ward.active.youth"])
            && rows[4].standard.None? && rows[5].standard.None?
  {
    WardStandards();
  }

  /** The number of rows that carry a standard. */
  function StandardCount(rows: seq<ChartRow>): nat {
    if rows == [] then 0 else (if rows[0].standard.Some? then 1 else 0) + StandardCount(rows[1..])
  }

  /** Every ward draws one dashed line per row with a standard. */
  lemma {:induction false} RowLinesCount(col: nat, rows: seq<ChartRow>, r: nat)
    requires r <= |rows|
    ensures |RowLines(col, rows, r)| == StandardCount(rows[r..])
    decreases |rows| - r
  {
    if r < |rows| {
      RowLinesCount(col, rows, r + 1);
      assert rows[r..][1..] == rows[r + 1..];
    }
  }

  lemma {:induction false} WardLinesCount(n: nat, rows: seq<ChartRow>, c: nat)
    requires c <= n
    ensures |WardLines(n, rows, c)| == (n - c) * StandardCount(rows)
    decreases n - c
  {
    if c < n {
      WardLinesCount(n, rows, c + 1);
      RowLinesCount(c + 1, rows, 0);
      assert rows[0..] == rows;
    }
  }

  /** The column chart of the report: six rows, one column per ward, four dashed lines per ward. */
  lemma AnalyticsColumnShape(frame: Frame)
    requires ColumnFigure(frame, AnalyticsRows()).Success?
    ensures var figure := ColumnFigure(frame, AnalyticsRows()).value;
            && figure.rows == 6 && figure.cols == |UnitNames(frame).value| && figure.titles == UnitNames(frame).value
            && |figure.hlines| == 4 * figure.cols
  {
    var rows := AnalyticsRows();
    assert StandardCount(rows) == 4 by {
      assert rows[1..][1..][1..][1..][1..][1..] == [];
    }
    WardLinesCount(|UnitNames(frame).value|, rows, 0);
  }

  /** `chart_melch_per_ward` (lines 130-137): adds the derived column to `df` in place, then draws. */
  method ChartMelchPerWard(df: DataFrame) returns (r: Result<Chart, PyError>)
    modifies df
    ensures var derived := WithMelchNotAttending(old(df.Contents()));
            && (derived.Failure? ==> r == Failure(derived.error) && df.Contents() == old(df.Contents()))
            && (derived.Success? ==> df.Contents() == derived.value && r == GridChartFor(derived.value, MelchSpec()))
  {
    var stored := df.AssignDifference("melch.not.attending", "adult.male.melch", "melch.attending");
    if stored.Fail? {
      return Failure(stored.error);
    }
    var spec := MelchSpec();
    var figure := GridChart(df.Contents(), spec.minLine, spec.variables);
    if figure.Failure? {
      return Failure(figure.error);
    }
    return Success(Chart(spec.title, figure.value));
  }

  /** One of `chart_primary_per_ward`, `chart_membership_per_ward`, `chart_adult_active_per_ward`, `chart_youth_active_per_ward`. */
  method ChartPerWard(df: DataFrame, spec: GridSpec) returns (r: Result<Chart, PyError>)
    ensures r == GridChartFor(df.Contents(), spec)
  {
    var figure := GridChart(df.Contents(), spec.minLine, spec.variables);
    if figure.Failure? {
      return Failure(figure.error);
    }
    return Success(Chart(spec.title, figure.value));
  }

  /** The five grid charts over a frame that already has "melch.not.attending", in the order drawn. */
  function IndividualCharts(derived: Frame): Result<seq<Chart>, PyError> {
    var melch :- GridChartFor(derived, MelchSpec());
    var primary :- GridChartFor(derived, PrimarySpec());
    var membership :- GridChartFor(derived, MembershipSpec());
    var adults :- GridChartFor(derived, AdultsSpec());
    var youth :- GridChartFor(derived, YouthSpec());
    Success([melch, primary, membership, adults, youth])
  }

  /** `make_individual_charts` (lines 175-180): the first chart's column stays on `df` even when a chart fails. */
  method MakeIndividualCharts(df: DataFrame) returns (r: Result<seq<Chart>, PyError>)
    modifies df
    ensures var derived := WithMelchNotAttending(old(df.Contents()));
            && (derived.Failure? ==> r == Failure(derived.error) && df.Contents() == old(df.Contents()))
            && (derived.Success? ==> df.Contents() == derived.value && r == IndividualCharts(derived.value))
  {
    var melch := ChartMelchPerWard(df);
    if melch.Failure? {
      return Failure(melch.error);
    }
    var primary := ChartPerWard(df, PrimarySpec());
    if primary.Failure? {
      return Failure(primary.error);
    }
    var membership := ChartPerWard(df, MembershipSpec());
    if membership.Failure? {
      return Failure(membership.error);
    }
    var adults := ChartPerWard(df, AdultsSpec());
    if adults.Failure? {
      return Failure(adults.error);
    }
    var youth := ChartPerWard(df, YouthSpec());
    if youth.Failure? {
      return Failure(youth.error);
    }
    return Success([melch.value, primary.value, membership.value, adults.value, youth.value]);
  }

  /** All six charts of the report over the rows read from the file, or the error that stops it. */
  function AnalyticsCharts(frame: Frame, startingYear: int, unitName: string): Result<seq<Chart>, PyError> {
    var filtered :- FilterByYear(frame, startingYear);
    var derived :- WithMelchNotAttending(filtered);
    var individual :- IndividualCharts(derived);
    var column :- ColumnFigure(derived, AnalyticsRows());
    Success(individual + [Chart(unitName, column)])
  }

  /** `create_quarterly_analytics` (lines 183-217), given the frame `pd.read_csv` returns. */
  method CreateQuarterlyAnalytics(frame: Frame, startingYear: int, unitName: string) returns (r: Result<seq<Chart>, PyError>)
    ensures r == AnalyticsCharts(frame, startingYear, unitName)
  {
    var filtered := FilterByYear(frame, startingYear);
    if filtered.Failure? {
      return Failure(filtered.error);
    }
    var df := new DataFrame(filtered.value);
    var individual := MakeIndividualCharts(df);
    if individual.Failure? {
      return Failure(individual.error);
    }
    var rows := AnalyticsRows();
    var column := ColumnChart(df.Contents(), rows);
    if column.Failure? {
      return Failure(column.error);
    }
    return Success(individual.value + [Chart(unitName, column.value)]);
  }

  /** On success the report shows six charts: the five grid charts, then the column chart titled by the unit. */
  lemma AnalyticsChartsShape(frame: Frame, startingYear: int, unitName: string)
    requires AnalyticsCharts(frame, startingYear, unitName).Success?
    ensures var charts := AnalyticsCharts(frame, startingYear, unitName).value;
            && |charts| == 6
            && charts[0].title == "Melchizedek Priesthood Attendance"
            && charts[5].title == unitName
            && charts[5].figure.rows == 6
            && |charts[5].figure.hlines| == 4 * charts[5].figure.cols
  {
    var derived := WithMelchNotAttending(FilterByYear(frame, startingYear).value).value;
    AnalyticsColumnShape(derived);
  }
}
