/** What the feature transform promises about its result: when it fails and
    with which error, the shape of the table it returns, the value of every
    output cell, the ranges of the two sums, and the day count's imputation. */
module FeatureProperties {
  import opened Wrappers
  import opened Calendar
  import opened DateFormat
  import opened Frames
  import opened Columns
  import opened FeatureEngineering

  /** A raw date cell that `to_datetime(..., format="%Y-%m-%d")` accepts:
      missing, a text that spells a missing date, or a text the strict
      parser reads. */
  predicate Parses(c: Cell) {
    c.NaN? || (c.Str? && (IsNullText(c.s) || ParseDate(c.s).Some?))
  }

  /** No text that spells a missing date is read as a date. */
  lemma NullTextUnreadable(s: string)
    requires IsNullText(s)
    ensures ParseDate(s).None?
  {
    if ParseDate(s).Some? {
      ParseDateSound(s);
      assert false;
    }
  }

  /** A raw date column: text or missing in every cell. */
  predicate IsDateColumn(col: seq<Cell>) {
    forall i | 0 <= i < |col| :: col[i].Str? || col[i].NaN?
  }

  /** Lines 12 and 13: a raw date column parses exactly when every cell does,
      and a parsed cell is a date exactly when the raw cell names one. */
  lemma ParseDatesRaw(col: seq<Cell>, column: Column)
    requires IsDateColumn(col)
    ensures ParseDates(col, column).Ok? <==> forall i | 0 <= i < |col| :: Parses(col[i])
    ensures ParseDates(col, column).Ok? ==>
              forall i | 0 <= i < |col| :: ParseDates(col, column).value[i].Stamp? <==> HasDateText(col[i])
  {
    var r := ParseDates(col, column);
    forall i | 0 <= i < |col| ensures ParseCell(col[i], column).Ok? <==> Parses(col[i]) {
    }
    if r.Ok? {
      forall i | 0 <= i < |col| ensures r.value[i].Stamp? <==> HasDateText(col[i]) {
        assert r.value[i] == ParseCell(col[i], column).value;
      }
    }
  }

  /** Lines 12 to 17: the day count succeeds exactly when both date columns
      parse and some row names both dates (so an empty batch fails). */
  lemma DayCountOk(created: seq<Cell>, signup: seq<Cell>)
    requires |created| == |signup| && IsDateColumn(created) && IsDateColumn(signup)
    ensures DayCount(created, signup).Ok? <==>
              && (forall i | 0 <= i < |created| :: Parses(created[i]))
              && (forall i | 0 <= i < |signup| :: Parses(signup[i]))
              && (exists i | 0 <= i < |created| :: HasDateText(created[i]) && HasDateText(signup[i]))
  {
    ParseDatesRaw(created, CreatedAt);
    ParseDatesRaw(signup, SignupDate);
    var c := ParseDates(created, CreatedAt);
    var s := ParseDates(signup, SignupDate);
    if c.Ok? && s.Ok? {
      var ds := Deltas(c.value, s.value);
      assert forall i | 0 <= i < |ds| :: ds[i].Some? <==> HasDateText(created[i]) && HasDateText(signup[i]);
      if exists i | 0 <= i < |created| :: HasDateText(created[i]) && HasDateText(signup[i]) {
        var i :| 0 <= i < |created| && HasDateText(created[i]) && HasDateText(signup[i]);
        assert ds[i].Some?;
      }
    }
  }

  /** Which error stops the day count: an unreadable created_at first, then an
      unreadable signup_date, and otherwise a batch where no row names both dates,
      the empty batch included. */
  lemma DayCountError(created: seq<Cell>, signup: seq<Cell>)
    requires |created| == |signup| && IsDateColumn(created) && IsDateColumn(signup)
    requires DayCount(created, signup).Err?
    ensures DayCount(created, signup).error ==
              if exists i | 0 <= i < |created| :: !Parses(created[i]) then UnparsableDate(CreatedAt)
              else if exists i | 0 <= i < |signup| :: !Parses(signup[i]) then UnparsableDate(SignupDate)
              else UncomputableDayCount
  {
    ParseDatesRaw(created, CreatedAt);
    ParseDatesRaw(signup, SignupDate);
  }

  /** Lines 12 to 17 within the transform: it succeeds exactly when both date
      columns parse and some row names both dates, so an empty batch fails.
      The ids play no part, so duplicate ids are accepted. */
  lemma WrangleOk(t: Table<Column>)
    requires IsRawTable(t)
    ensures Wrangle(t).Ok? <==>
              && (forall i | 0 <= i < |t.index| :: Parses(t.data[CreatedAt][i]))
              && (forall i | 0 <= i < |t.index| :: Parses(t.data[SignupDate][i]))
              && (exists i | 0 <= i < |t.index| :: HasDateText(t.data[CreatedAt][i]) && HasDateText(t.data[SignupDate][i]))
  {
    DayCountOk(t.data[CreatedAt], t.data[SignupDate]);
  }

  /** An empty batch fails: line 16 finds no column 0 to read the counts from. */
  lemma EmptyBatchFails(t: Table<Column>)
    requires IsRawTable(t) && |t.index| == 0
    ensures Wrangle(t) == Err(UncomputableDayCount)
  {
    DayCountOk(t.data[CreatedAt], t.data[SignupDate]);
    DayCountError(t.data[CreatedAt], t.data[SignupDate]);
  }

  /** The error a failing transform reports. */
  lemma WrangleError(t: Table<Column>)
    requires IsRawTable(t) && Wrangle(t).Err?
    ensures Wrangle(t).error ==
              if exists i | 0 <= i < |t.index| :: !Parses(t.data[CreatedAt][i]) then UnparsableDate(CreatedAt)
              else if exists i | 0 <= i < |t.index| :: !Parses(t.data[SignupDate][i]) then UnparsableDate(SignupDate)
              else UncomputableDayCount
  {
    DayCountError(t.data[CreatedAt], t.data[SignupDate]);
  }

  /** The three output columns are distinct, and are the keys of the map
      the transform's result holds. */
  lemma OutputLayout()
    ensures Distinct(OutputColumns)
    ensures (set c | c in OutputColumns) == {ProductsPurchased, SumUserActivities, SumCamp}
  {
  }

  /** The output table is well formed, keyed by the input ids, and has
      exactly the three output columns. */
  lemma FeaturesShape(t: Table<Column>)
    requires IsRawTable(t)
    ensures Features(t).index == Ids(t) && Features(t).columns == OutputColumns
    ensures Features(t).data.Keys == {ProductsPurchased, SumUserActivities, SumCamp}
    ensures Features(t).WellFormed()
  {
    OutputLayout();
    RawTableColumns(t);
    var r := Features(t);
    assert |r.data[ProductsPurchased]| == |r.index|;
    assert |r.data[SumUserActivities]| == |r.index|;
    assert |r.data[SumCamp]| == |r.index|;
  }

  /** Lines 6 and 27: the result has one row per input row, keyed by the input
      ids in input order, and exactly the columns products_purchased,
      sum_user_activities and sum_camp, in that order; the dates, the campaign
      variables and the activity flags are gone. */
  lemma WrangleShape(t: Table<Column>)
    requires IsRawTable(t) && Wrangle(t).Ok?
    ensures var r := Wrangle(t).value;
            && r.WellFormed()
            && r.columns == [ProductsPurchased, SumUserActivities, SumCamp]
            && |r.index| == |t.index|
            && (forall i | 0 <= i < |t.index| :: t.data[Id][i] == Int(r.index[i]))
            && (forall c | c in DroppedColumns :: c !in r.data)
  {
    assert Wrangle(t).value == Features(t);
    FeaturesShape(t);
    DropLayout();
  }

  /** A one-row batch with both dates given as text: the transform succeeds
      exactly when both read as dates. Otherwise it names the first text that
      is neither a date nor a missing-date spelling, and failing that reports
      that there is no count to fill from. */
  lemma OneRowOutcome(t: Table<Column>)
    requires IsRawTable(t) && |t.index| == 1
    requires t.data[CreatedAt][0].Str? && t.data[SignupDate][0].Str?
    ensures Wrangle(t).Ok? <==>
              ParseDate(t.data[CreatedAt][0].s).Some? && ParseDate(t.data[SignupDate][0].s).Some?
    ensures Wrangle(t).Err? ==>
              Wrangle(t).error ==
                if !IsNullText(t.data[CreatedAt][0].s) && ParseDate(t.data[CreatedAt][0].s).None?
                then UnparsableDate(CreatedAt)
                else if !IsNullText(t.data[SignupDate][0].s) && ParseDate(t.data[SignupDate][0].s).None?
                then UnparsableDate(SignupDate)
                else UncomputableDayCount
  {
    OneRowDates(t.data[CreatedAt], t.data[SignupDate]);
  }

  /** The day count of one row whose two dates are texts: it succeeds exactly
      when both read as dates, and otherwise fails as OneRowOutcome says. */
  lemma OneRowDates(created: seq<Cell>, signup: seq<Cell>)
    requires |created| == 1 && |signup| == 1 && created[0].Str? && signup[0].Str?
    ensures DayCount(created, signup).Ok? <==>
              ParseDate(created[0].s).Some? && ParseDate(signup[0].s).Some?
    ensures DayCount(created, signup).Err? ==>
              DayCount(created, signup).error ==
                if !IsNullText(created[0].s) && ParseDate(created[0].s).None? then UnparsableDate(CreatedAt)
                else if !IsNullText(signup[0].s) && ParseDate(signup[0].s).None? then UnparsableDate(SignupDate)
                else UncomputableDayCount
  {
    OneRowCells(created[0], signup[0]);
    DayCountOk(created, signup);
    if DayCount(created, signup).Err? {
      DayCountError(created, signup);
    }
  }

  /** The two date cells of a one-row batch, both texts: both are accepted and
      name dates exactly when the strict reader reads both. */
  lemma OneRowCells(a: Cell, b: Cell)
    requires a.Str? && b.Str?
    ensures Parses(a) && Parses(b) && HasDateText(a) && HasDateText(b)
            <==> ParseDate(a.s).Some? && ParseDate(b.s).Some?
    ensures !Parses(a) <==> !IsNullText(a.s) && ParseDate(a.s).None?
    ensures !Parses(b) <==> !IsNullText(b.s) && ParseDate(b.s).None?
  {
    if IsNullText(a.s) {
      NullTextUnreadable(a.s);
    }
    if IsNullText(b.s) {
      NullTextUnreadable(b.s);
    }
  }

  /** Line 24, row by row: a missing purchase count becomes 0, a present one
      is kept. */
  lemma PurchasesRow(t: Table<Column>, i: nat)
    requires IsRawTable(t) && Wrangle(t).Ok? && i < |t.index|
    ensures ProductsPurchased in t.data
    ensures var pp := t.data[ProductsPurchased][i];
            Wrangle(t).value.data[ProductsPurchased][i] == if pp.NaN? then Int(0) else pp
  {
    assert Wrangle(t).value == Features(t);
    RawTableColumns(t);
  }

  /** Lines 8 and 9, row by row: sum_user_activities is the total of the
      twelve activity flags, or missing when one of them is. */
  lemma ActivitySumRow(t: Table<Column>, i: nat)
    requires IsRawTable(t) && Wrangle(t).Ok? && i < |t.index|
    ensures forall c | c in ActivityColumns :: c in t.data
    ensures var flags := RowOf(t, ActivityColumns, i);
            Wrangle(t).value.data[SumUserActivities][i] ==
              if forall k | 0 <= k < 12 :: flags[k].Int? then Int(Total(flags)) else NaN
  {
    assert Wrangle(t).value == Features(t);
    RawTableColumns(t);
    SumCellsTotal(RowOf(t, ActivityColumns, i));
  }

  /** The element-wise sum of the two campaign columns at row i. */
  lemma CampaignRowSum(t: Table<Column>, i: nat)
    requires t.WellFormed() && i < |t.index| && CampaignVar(1) in t.data && CampaignVar(2) in t.data
    ensures var c1, c2 := t.data[CampaignVar(1)][i], t.data[CampaignVar(2)][i];
            RowSums(t, CampaignColumns)[i] == if c1.Int? && c2.Int? then Int(c1.n + c2.n) else NaN
  {
    var c1, c2 := t.data[CampaignVar(1)][i], t.data[CampaignVar(2)][i];
    assert RowOf(t, CampaignColumns, i) == [c1, c2];
    SumOfTwo(c1, c2);
  }

  /** Lines 20 and 21, row by row: sum_camp is campaign_var_1 +
      campaign_var_2, or missing when either is. */
  lemma CampaignSumRow(t: Table<Column>, i: nat)
    requires IsRawTable(t) && Wrangle(t).Ok? && i < |t.index|
    ensures CampaignVar(1) in t.data && CampaignVar(2) in t.data
    ensures var c1, c2 := t.data[CampaignVar(1)][i], t.data[CampaignVar(2)][i];
            Wrangle(t).value.data[SumCamp][i] == if c1.Int? && c2.Int? then Int(c1.n + c2.n) else NaN
  {
    assert Wrangle(t).value == Features(t);
    RawTableColumns(t);
    CampaignRowSum(t, i);
  }

  /** With every activity flag 0 or 1, as the request form demands,
      sum_user_activities is a count from 0 to 12. */
  lemma ActivitySumRange(t: Table<Column>, i: nat)
    requires IsRawTable(t) && Wrangle(t).Ok? && i < |t.index|
    requires forall c | c in ActivityColumns :: c in t.data && (t.data[c][i] == Int(0) || t.data[c][i] == Int(1))
    ensures Wrangle(t).value.data[SumUserActivities][i].Int?
    ensures 0 <= Wrangle(t).value.data[SumUserActivities][i].n <= 12
  {
    assert Wrangle(t).value == Features(t);
    var flags := RowOf(t, ActivityColumns, i);
    assert forall k | 0 <= k < |flags| :: flags[k] == t.data[ActivityColumns[k]][i];
    FlagSumRange(flags);
  }

  /** With both campaign variables present and non-negative, as the request
      form demands, sum_camp is non-negative. */
  lemma CampaignSumNonNegative(t: Table<Column>, i: nat)
    requires IsRawTable(t) && Wrangle(t).Ok? && i < |t.index|
    requires forall c | c in CampaignColumns :: c in t.data && t.data[c][i].Int? && t.data[c][i].n >= 0
    ensures Wrangle(t).value.data[SumCamp][i].Int? && Wrangle(t).value.data[SumCamp][i].n >= 0
  {
    assert Wrangle(t).value == Features(t);
    var camp := RowOf(t, CampaignColumns, i);
    assert forall k | 0 <= k < |camp| :: camp[k] == t.data[CampaignColumns[k]][i];
    NonNegativeSum(camp);
  }

  /** The campaign sum of a one-row table whose two campaign variables are
      c1 and c2. */
  lemma CampaignSumCell(t: Table<Column>, c1: int, c2: int)
    requires t.WellFormed() && |t.index| == 1
    requires CampaignVar(1) in t.data && t.data[CampaignVar(1)][0] == Int(c1)
    requires CampaignVar(2) in t.data && t.data[CampaignVar(2)][0] == Int(c2)
    ensures RowSums(t, CampaignColumns) == [Int(c1 + c2)]
  {
    assert RowOf(t, CampaignColumns, 0) == [Int(c1), Int(c2)];
    SumOfTwo(Int(c1), Int(c2));
  }

  /** The activity sum of a one-row table whose twelve flags are the given
      integer cells. */
  lemma ActivitySumCell(t: Table<Column>, flags: seq<Cell>)
    requires t.WellFormed() && |t.index| == 1
    requires forall c | c in ActivityColumns :: c in t.data
    requires |flags| == 12 && forall k | 0 <= k < 12 :: flags[k].Int?
    requires forall k | 0 <= k < 12 :: t.data[ActivityColumns[k]][0] == flags[k]
    ensures RowSums(t, ActivityColumns) == [Int(Total(flags))]
  {
    assert RowOf(t, ActivityColumns, 0) == flags;
    SumCellsTotal(flags);
  }

  /** The three output columns in terms of the raw ones. */
  lemma FeaturesData(t: Table<Column>)
    requires IsRawTable(t)
    ensures ProductsPurchased in t.data
    ensures forall c | c in ActivityColumns :: c in t.data
    ensures forall c | c in CampaignColumns :: c in t.data
    ensures Features(t).data[ProductsPurchased] == FillNa(t.data[ProductsPurchased], 0)
    ensures Features(t).data[SumUserActivities] == RowSums(t, ActivityColumns)
    ensures Features(t).data[SumCamp] == RowSums(t, CampaignColumns)
  {
    RawTableColumns(t);
  }

  /** A one-row batch with every number present transforms into the row
      (pp, the total of the twelve flags, c1 + c2). */
  lemma OneRowFeatures(t: Table<Column>, pp: int, flags: seq<Cell>, c1: int, c2: int)
    requires IsRawTable(t) && |t.index| == 1 && Wrangle(t).Ok?
    requires ProductsPurchased in t.data && t.data[ProductsPurchased][0] == Int(pp)
    requires |flags| == 12 && forall k | 0 <= k < 12 :: flags[k].Int?
    requires forall k | 0 <= k < 12 :: ActivityColumns[k] in t.data && t.data[ActivityColumns[k]][0] == flags[k]
    requires CampaignVar(1) in t.data && t.data[CampaignVar(1)][0] == Int(c1)
    requires CampaignVar(2) in t.data && t.data[CampaignVar(2)][0] == Int(c2)
    ensures var out := Wrangle(t).value;
            && ProductsPurchased in out.data && SumUserActivities in out.data && SumCamp in out.data
            && out.data[ProductsPurchased] == [Int(pp)]
            && out.data[SumUserActivities] == [Int(Total(flags))]
            && out.data[SumCamp] == [Int(c1 + c2)]
  {
    FeaturesData(t);
    assert Wrangle(t).value == Features(t);
    CampaignSumCell(t, c1, c2);
    ActivitySumCell(t, flags);
    assert FillNa(t.data[ProductsPurchased], 0) == [Int(pp)];
  }

  /** Line 15: a missing day count takes the largest signed difference of the
      batch before `abs` is applied, which need not be the largest absolute
      difference: here the fill is 3, not 10. */
  lemma ImputationUsesSignedMaximum()
    ensures DayCounts([Some(-10), None, Some(3)]) == Ok([10, 3, 3])
  {
    var ds: seq<Option<int>> := [Some(-10), None, Some(3)];
    assert ds[..2][..1] == ds[..1] && |ds[..1][..0]| == 0;
    assert MaxPresent(ds[..1]) == Some(-10);
    assert MaxPresent(ds[..2]) == Some(-10);
    assert MaxPresent(ds) == Some(3);
    var r := DayCounts(ds);
    assert r.Ok? && |r.value| == 3;
    assert r.value[0] == 10 && r.value[1] == 3 && r.value[2] == 3;
    assert r.value == [10, 3, 3];
  }

  /** The digit fields of the example below. */
  lemma ExampleFields()
    ensures DecimalValue("2020") == 2020 && DecimalValue("01") == 1 && DecimalValue("10") == 10
  {
    assert "2020"[..3] == "202" && "202"[..2] == "20" && "20"[..1] == "2" && "2"[..0] == "";
    assert "01"[..1] == "0" && "0"[..0] == "";
    assert "10"[..1] == "1" && "1"[..0] == "";
  }

  /** The created_at text of the example below reads as 10 January 2020. */
  lemma ExampleCreatedParses()
    ensures ParseDate("2020-01-10") == Some(Date(2020, 1, 10))
  {
    ExampleFields();
    ParseDateComplete("2020", "01", "10");
    assert "2020" + "-" + "01" + "-" + "10" == "2020-01-10";
  }

  /** The signup_date text of the example below reads as 1 January 2020. */
  lemma ExampleSignupParses()
    ensures ParseDate("2020-01-01") == Some(Date(2020, 1, 1))
  {
    ExampleFields();
    ParseDateComplete("2020", "01", "01");
    assert "2020" + "-" + "01" + "-" + "01" == "2020-01-01";
  }

  /** A one-cell date column whose text reads as date d parses to d's day number. */
  lemma OneDateParses(s: string, d: Date, column: Column)
    requires ParseDate(s) == Some(d)
    ensures ParseDates([Str(s)], column) == Ok([Stamp(DaysFromCivil(d))])
  {
    var col := [Str(s)];
    assert col[1..] == [] && ParseDates(col[1..], column) == Ok([]);
    assert [Stamp(DaysFromCivil(d))] + [] == [Stamp(DaysFromCivil(d))];
  }

  /** 10 January 2020 is nine days after 1 January 2020. */
  lemma ExampleDayDifference()
    ensures DaysFromCivil(Date(2020, 1, 10)) - DaysFromCivil(Date(2020, 1, 1)) == 9
  {
  }

  /** A one-row batch whose day count is present keeps that count's size. */
  lemma OneDayCount(n: int)
    ensures DayCounts([Some(n)]) == Ok([Abs(n)])
  {
    var r := DayCounts([Some(n)]);
    assert [Some(n)][0].Some?;
    assert r.Ok? && |r.value| == 1 && r.value[0] == Abs(n);
    assert r.value == [Abs(n)];
  }

  /** Lines 12 to 17 on a one-row batch whose two dates parse: the count is
      the absolute difference of their day numbers. */
  lemma OneRowDayCount(created: string, signup: string, c: Date, d: Date)
    requires ParseDate(created) == Some(c) && ParseDate(signup) == Some(d)
    ensures DayCount([Str(created)], [Str(signup)]) == Ok([Abs(DaysFromCivil(c) - DaysFromCivil(d))])
  {
    OneDateParses(created, c, CreatedAt);
    OneDateParses(signup, d, SignupDate);
    assert Deltas([Stamp(DaysFromCivil(c))], [Stamp(DaysFromCivil(d))]) == [Some(DaysFromCivil(c) - DaysFromCivil(d))];
    OneDayCount(DaysFromCivil(c) - DaysFromCivil(d));
  }

  /** Lines 12 to 17 on one row: signed up on 1 January 2020, created on
      10 January 2020, nine days apart. */
  lemma NineDaysApart()
    ensures DayCount([Str("2020-01-10")], [Str("2020-01-01")]) == Ok([9])
  {
    ExampleCreatedParses();
    ExampleSignupParses();
    OneRowDayCount("2020-01-10", "2020-01-01", Date(2020, 1, 10), Date(2020, 1, 1));
    ExampleDayDifference();
  }

  /** An empty created_at text and a readable one parse to a missing date
      and that date's day number. */
  lemma EmptyAndDateParse()
    ensures ParseDates([Str(""), Str("2020-01-10")], CreatedAt)
            == Ok([NaN, Stamp(DaysFromCivil(Date(2020, 1, 10)))])
  {
    var c := [Str(""), Str("2020-01-10")];
    var d := Stamp(DaysFromCivil(Date(2020, 1, 10)));
    ExampleCreatedParses();
    OneDateParses("2020-01-10", Date(2020, 1, 10), CreatedAt);
    assert c[1..] == [Str("2020-01-10")];
    assert ParseCell(c[0], CreatedAt) == Ok(NaN);
    assert [NaN] + [d] == [NaN, d];
  }

  /** Two readable signup_date texts of 1 January 2020 parse to its day number twice. */
  lemma TwoDatesParse()
    ensures ParseDates([Str("2020-01-01"), Str("2020-01-01")], SignupDate)
            == Ok([Stamp(DaysFromCivil(Date(2020, 1, 1))), Stamp(DaysFromCivil(Date(2020, 1, 1)))])
  {
    var s := [Str("2020-01-01"), Str("2020-01-01")];
    var d := Stamp(DaysFromCivil(Date(2020, 1, 1)));
    ExampleSignupParses();
    OneDateParses("2020-01-01", Date(2020, 1, 1), SignupDate);
    assert s[1..] == [Str("2020-01-01")];
    assert [d] + [d] == [d, d];
  }

  /** An empty created_at reads as a missing date, not as an error: its
      count is filled from the other row's nine days. */
  lemma EmptyTextFilled()
    ensures DayCount([Str(""), Str("2020-01-10")], [Str("2020-01-01"), Str("2020-01-01")]) == Ok([9, 9])
  {
    EmptyAndDateParse();
    TwoDatesParse();
    ExampleDayDifference();
    MissingThenNine(DaysFromCivil(Date(2020, 1, 10)), DaysFromCivil(Date(2020, 1, 1)));
    FillFromOtherRow();
  }

  /** A row missing its created_at beside a row nine days apart. */
  lemma MissingThenNine(a: int, b: int)
    requires a - b == 9
    ensures Deltas([NaN, Stamp(a)], [Stamp(b), Stamp(b)]) == [None, Some(9)]
  {
    var ds := Deltas([NaN, Stamp(a)], [Stamp(b), Stamp(b)]);
    assert ds[0] == None && ds[1] == Some(9);
  }

  /** A missing count beside a count of 9 is filled with 9. */
  lemma FillFromOtherRow()
    ensures DayCounts([None, Some(9)]) == Ok([9, 9])
  {
    var ds: seq<Option<int>> := [None, Some(9)];
    assert ds[..1][..0] == [];
    assert MaxPresent(ds[..1]) == None;
    assert MaxPresent(ds) == Some(9);
    var r := DayCounts(ds);
    assert r.Ok? && |r.value| == 2 && r.value[0] == 9 && r.value[1] == 9;
    assert r.value == [9, 9];
  }
}
