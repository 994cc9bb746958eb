/**
 * A reporting period label as the portal hands it out: `Quarter(encoded)`
 * splits the string on `-` and converts both parts with `int()`; `str()`
 * renders `{year}-Q{quarter}`, a form the same constructor does not accept.
 */
module Quarters {
  import opened Wrappers
  import opened Values

  // ---------------------------------------------------------------------------
  // `str.split(sep)`

  /** The number of occurrences of `c` in `s`. */
  function Count(s: string, c: char): (n: nat)
    ensures n == 0 <==> c !in s
  {
    if s == [] then 0 else (if s[0] == c then 1 else 0) + Count(s[1..], c)
  }

  lemma {:induction false} CountAppend(a: string, b: string, c: char)
    ensures Count(a + b, c) == Count(a, c) + Count(b, c)
  {
    if a == [] {
      assert a + b == b;
    } else {
      assert (a + b)[0] == a[0];
      assert (a + b)[1..] == a[1..] + b;
      CountAppend(a[1..], b, c);
    }
  }

  /** `s.split(sep)`: the pieces between consecutive separators, empty pieces included. */
  function Split(s: string, sep: char): (parts: seq<string>)
    ensures |parts| == Count(s, sep) + 1
    ensures forall k :: 0 <= k < |parts| ==> sep !in parts[k]
    ensures s != [] && s[0] != sep ==> parts[0] != [] && parts[0][0] == s[0]
  {
    if s == [] then [""]
    else
      var rest := Split(s[1..], sep);
      if s[0] == sep then [""] + rest
      else [[s[0]] + rest[0]] + rest[1..]
  }

  /** `sep.join(parts)`. */
  function Join(parts: seq<string>, sep: char): string
    requires |parts| > 0
  {
    if |parts| == 1 then parts[0] else parts[0] + [sep] + Join(parts[1..], sep)
  }

  /** Splitting loses nothing: joining the pieces gives the string back. */
  lemma {:induction false} JoinSplit(s: string, sep: char)
    ensures Join(Split(s, sep), sep) == s
  {
    if s != [] {
      var rest := Split(s[1..], sep);
      JoinSplit(s[1..], sep);
      if s[0] == sep {
        assert ([""] + rest)[1..] == rest;
      } else {
        var parts := [[s[0]] + rest[0]] + rest[1..];
        if |rest| > 1 {
          assert parts[1..] == rest[1..];
          assert Join(rest, sep) == rest[0] + [sep] + Join(rest[1..], sep);
        }
      }
    }
  }

  /** A string without the separator is a single piece. */
  lemma SplitWithoutSeparator(s: string, sep: char)
    requires sep !in s
    ensures Split(s, sep) == [s]
  {
    JoinSplit(s, sep);
  }

  /** The first separator ends the first piece. */
  lemma {:induction false} SplitAtFirst(a: string, b: string, sep: char)
    requires sep !in a
    ensures Split(a + [sep] + b, sep) == [a] + Split(b, sep)
  {
    if a != [] {
      var s := a + [sep] + b;
      assert s[0] == a[0] && s[1..] == a[1..] + [sep] + b;
      SplitAtFirst(a[1..], b, sep);
      var rest := Split(s[1..], sep);
      assert rest[0] == a[1..] && rest[1..] == Split(b, sep);
      assert [a[0]] + a[1..] == a;
    }
  }

  // ---------------------------------------------------------------------------
  // Parsing and formatting

  /** The year and quarter a label decodes to. */
  datatype Period = Period(year: int, quarter: int)

  /** `y, q = encoded.split("-")`, then `int(y)` and `int(q)` (lines 7-9). */
  function Parse(encoded: string): (r: Result<Period, PyError>)
    ensures Count(encoded, '-') != 1 ==> r == Failure(UnpackError(Count(encoded, '-') + 1))
  {
    var parts := Split(encoded, '-');
    if |parts| != 2 then Failure(UnpackError(|parts|))
    else
      var year :- ParseInt(parts[0]);
      var quarter :- ParseInt(parts[1]);
      Success(Period(year, quarter))
  }

  /** A label with exactly one `-` decodes part by part, the year part first. */
  lemma ParseTwoParts(y: string, q: string)
    requires '-' !in y && '-' !in q
    ensures ParseInt(y).Failure? ==> Parse(y + "-" + q) == Failure(IntLiteralError(y))
    ensures ParseInt(y).Success? && ParseInt(q).Failure? ==> Parse(y + "-" + q) == Failure(IntLiteralError(q))
    ensures ParseInt(y).Success? && ParseInt(q).Success? ==>
              Parse(y + "-" + q) == Success(Period(ParseInt(y).value, ParseInt(q).value))
  {
    SplitAtFirst(y, q, '-');
    SplitWithoutSeparator(q, '-');
    assert y + "-" + q == y + ['-'] + q;
  }

  /** Decimal parts are read back as the numbers they render. */
  lemma ParseDecimalPair(year: nat, quarter: nat)
    ensures Parse(IntToDecimal(year) + "-" + IntToDecimal(quarter)) == Success(Period(year, quarter))
  {
    ParseIntOfDecimal(year);
    ParseIntOfDecimal(quarter);
    ParseTwoParts(IntToDecimal(year), IntToDecimal(quarter));
  }

  /** `str(quarter)`: `{year}-Q{quarter}` (line 32). */
  function Label(year: int, quarter: Scalar): (s: string)
    ensures Parse(s).Failure?
  {
    LabelNeverParses(IntToDecimal(year), Render(quarter));
    IntToDecimal(year) + "-Q" + Render(quarter)
  }

  /** Nothing of the form `{s}-Q{t}` is accepted: the rendered form does not parse back. */
  lemma LabelNeverParses(s: string, t: string)
    ensures Parse(s + "-Q" + t).Failure?
  {
    var e := s + "-Q" + t;
    assert e == s + ("-Q" + t);
    CountAppend(s, "-Q" + t, '-');
    assert ("-Q" + t)[0] == '-';
    if '-' !in s {
      assert e == s + ['-'] + ("Q" + t);
      SplitAtFirst(s, "Q" + t, '-');
      var tail := Split("Q" + t, '-');
      if |tail| == 1 {
        var parts := Split(e, '-');
        assert parts[1] == tail[0] && tail[0][0] == 'Q';
        assert !IsIntLiteral(parts[1]);
      }
    }
  }

  /** For a canonical label `Y-N` the rendered form is `Y-QN`: not the input, and not accepted back. */
  lemma RenderedFormDiffers(year: nat, quarter: nat)
    ensures var encoded := IntToDecimal(year) + "-" + IntToDecimal(quarter);
            && Parse(encoded) == Success(Period(year, quarter))
            && Label(year, Int(quarter)) != encoded
            && Parse(Label(year, Int(quarter))).Failure?
  {
    ParseDecimalPair(year, quarter);
    assert |Label(year, Int(quarter))| == |IntToDecimal(year) + "-" + IntToDecimal(quarter)| + 1;
  }

  lemma Year2024()
    ensures ParseInt("2024") == Success(2024)
  {
    assert "2024"[..3] == "202" && "202"[..2] == "20" && "20"[..1] == "2" && "2"[..0] == "";
    assert DigitsValue("2") == 2;
    assert DigitsValue("20") == 20;
    assert DigitsValue("202") == 202;
  }

  /** The portal's quarter labels are accepted without a range check: any digit, 0 and 7 included. */
  lemma AcceptsAnyQuarterNumber()
    ensures forall c :: IsDigit(c) ==> Parse("2024-" + [c]) == Success(Period(2024, c as int - '0' as int))
  {
    forall c | IsDigit(c)
      ensures Parse("2024-" + [c]) == Success(Period(2024, c as int - '0' as int))
    {
      Year2024();
      var q := [c];
      assert DigitsValue(q) == c as int - '0' as int by {
        assert q[..0] == [];
      }
      ParseTwoParts("2024", q);
      assert "2024-" + [c] == "2024" + "-" + q;
    }
  }

  lemma DashOne()
    ensures "2024-1" == "2024-" + ['1'] && IsDigit('1')
  {
  }

  /** The rendered `Y-QN` form, such as `str()` gives, is rejected: `int("Q1")` fails. */
  lemma RejectsRenderedForm()
    ensures Parse("2024-Q1") == Failure(IntLiteralError("Q1"))
  {
    Year2024();
    ParseTwoParts("2024", "Q1");
    assert "2024-Q1" == "2024" + "-" + "Q1";
    assert !IsIntLiteral("Q1");
  }

  /** A label without a dash fails to unpack into two parts. */
  lemma RejectsMissingDash()
    ensures Parse("2024") == Failure(UnpackError(1))
  {
    SplitWithoutSeparator("2024", '-');
  }

  /** A label with two dashes fails to unpack into two parts. */
  lemma RejectsExtraDash()
    ensures Parse("2024-1-2") == Failure(UnpackError(3))
  {
    var y, m, q := "2024", "1", "2";
    assert '-' !in y && '-' !in m && '-' !in q;
    SplitWithoutSeparator(q, '-');
    SplitAtFirst(m, q, '-');
    SplitAtFirst(y, m + ['-'] + q, '-');
    assert y + ['-'] + (m + ['-'] + q) == "2024-1-2";
  }

  // ---------------------------------------------------------------------------
  // The Quarter object

  class Quarter {
    var storedYear: int                 // `_year`
    var storedQuarter: PyInt            // `_quarter`: an int, or any value the `number` setter admits
    var storedName: Option<PyInt>       // `_name`: not set until the `name` setter runs

    /** The field assignments of lines 8-9 once both parts of the label are converted. */
    constructor Decoded(p: Period)
      ensures storedYear == p.year && storedQuarter == Int(p.quarter) && storedName == None
    {
      storedYear := p.year;
      storedQuarter := Int(p.quarter);
      storedName := None;
    }

    /** `Quarter(encoded)`: the only constructor, since the second `__init__` replaces the first. */
    static method Create(encoded: string) returns (r: Result<Quarter, PyError>)
      ensures r.Failure? ==> Parse(encoded) == Failure(r.error)
      ensures r.Success? ==> Parse(encoded).Success? && fresh(r.value)
      ensures r.Success? ==> r.value.storedYear == Parse(encoded).value.year
      ensures r.Success? ==> r.value.storedQuarter == Int(Parse(encoded).value.quarter)
      ensures r.Success? ==> r.value.storedName == None
    {
      var p := Parse(encoded);
      if p.Failure? {
        return Failure(p.error);
      }
      var q := new Quarter.Decoded(p.value);
      return Success(q);
    }

    /** The read-only `year` property. */
    function Year(): (y: int)
      reads this
      ensures y == storedYear
    {
      storedYear
    }

    /** The `name` property: its getter is the `year` getter, so it reads `_year`, not `_name`. */
    function Name(): (y: int)
      reads this
      ensures y == Year()
    {
      storedYear
    }

    /** The read-only `quarter` property. */
    function QuarterOfYear(): (q: PyInt)
      reads this
      ensures q == storedQuarter
    {
      storedQuarter
    }

    /** The `number` property: its getter is the `quarter` getter. */
    function Number(): (q: PyInt)
      reads this
      ensures q == QuarterOfYear()
    {
      storedQuarter
    }

    /** Assigning `name`: rejects a non-int, otherwise writes `_name` only. */
    method SetName(value: Value) returns (outcome: Outcome<PyError>)
      modifies this
      ensures outcome == if IsInstanceInt(value) then Pass else Fail(ValueError("Year must be an integer."))
      ensures storedName == if IsInstanceInt(value) then Some(value) else old(storedName)
      ensures storedYear == old(storedYear) && storedQuarter == old(storedQuarter)
    {
      if !IsInstanceInt(value) {
        return Fail(ValueError("Year must be an integer."));
      }
      storedName := Some(value);
      return Pass;
    }

    /** Assigning `number`: rejects a non-int, otherwise replaces `_quarter` only. */
    method SetNumber(value: Value) returns (outcome: Outcome<PyError>)
      modifies this
      ensures outcome == if IsInstanceInt(value) then Pass else Fail(ValueError("Quarter must be an integer"))
      ensures storedQuarter == if IsInstanceInt(value) then value else old(storedQuarter)
      ensures storedYear == old(storedYear) && storedName == old(storedName)
    {
      if !IsInstanceInt(value) {
        return Fail(ValueError("Quarter must be an integer"));
      }
      storedQuarter := value;
      return Pass;
    }

    /** `str(quarter)`. */
    function ToString(): (s: string)
      reads this
      ensures s == Label(Year(), Number())
      ensures Parse(s).Failure?
    {
      Label(storedYear, storedQuarter)
    }
  }

  /** Whatever is assigned to `name`, both `name` and `year` still read the parsed year. */
  method AssignName(p: Period, value: Value) returns (outcome: Outcome<PyError>, name: int, year: int)
    ensures outcome.Pass? <==> IsInstanceInt(value)
    ensures name == p.year && year == p.year
  {
    var q := new Quarter.Decoded(p);
    outcome := q.SetName(value);
    name := q.Name();
    year := q.Year();
  }

  /** An accepted `number` is what `number`, `quarter` and the label then show; the year stays. */
  method AssignNumber(p: Period, value: Value) returns (outcome: Outcome<PyError>, number: PyInt, year: int, rendered: string)
    ensures outcome.Pass? <==> IsInstanceInt(value)
    ensures number == if IsInstanceInt(value) then value else Int(p.quarter)
    ensures year == p.year
    ensures rendered == Label(p.year, number)
  {
    var q := new Quarter.Decoded(p);
    outcome := q.SetNumber(value);
    number := q.QuarterOfYear();
    year := q.Year();
    rendered := q.ToString();
  }
}
