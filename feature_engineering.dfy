/** The feature transform `wrangling_test`: from a batch of raw customer rows to
    the rows the model reads, keyed by `id`, with the activity flags and the two
    campaign variables summed, missing purchase counts set to 0, and the raw
    columns dropped. The day count between the two dates is computed and then
    discarded (it is written into a local series, not into the table), but its
    failures still fail the transform. */
module FeatureEngineering {
  import opened Wrappers
  import opened Calendar
  import opened DateFormat
  import opened Frames
  import opened Columns

  /** The twelve binary activity indicators. */
  const ActivityColumns: seq<Column> := [
    UserActivityVar(1), UserActivityVar(2), UserActivityVar(3), UserActivityVar(4),
    UserActivityVar(5), UserActivityVar(6), UserActivityVar(7), UserActivityVar(8),
    UserActivityVar(9), UserActivityVar(10), UserActivityVar(11), UserActivityVar(12)]

  const CampaignColumns: seq<Column> := [CampaignVar(1), CampaignVar(2)]

  /** The five fields between the key and the activity flags. */
  const LeadColumns: seq<Column> := [CreatedAt, CampaignVar(1), CampaignVar(2), ProductsPurchased, SignupDate]

  /** The 18 raw fields, in the order the service builds its one-row table. */
  const RawColumns: seq<Column> := [Id] + LeadColumns + ActivityColumns

  /** What the transform returns, in order. */
  const OutputColumns: seq<Column> := [ProductsPurchased, SumUserActivities, SumCamp]

  datatype Error =
    | UnparsableDate(column: Column)  // a date cell that `%Y-%m-%d` rejects
    | UncomputableDayCount            // no day count to fill the missing ones from, or no rows at all

  /** A field that holds a number: the campaign variables, the purchase count
      and the activity flags. */
  predicate IsNumericField(c: Column) {
    c.CampaignVar? || c.ProductsPurchased? || c.UserActivityVar?
  }

  /** A raw batch: the 18 fields, an integer id in every row, dates as text or
      missing, every other field an integer or missing. */
  predicate IsRawTable(t: Table<Column>) {
    && t.WellFormed()
    && t.columns == RawColumns
    && Id in t.data && CreatedAt in t.data && SignupDate in t.data
    && (forall i | 0 <= i < |t.index| :: t.data[Id][i].Int?)
    && (forall i | 0 <= i < |t.index| ::
          (t.data[CreatedAt][i].Str? || t.data[CreatedAt][i].NaN?)
          && (t.data[SignupDate][i].Str? || t.data[SignupDate][i].NaN?))
    && (forall c | c in t.data && IsNumericField(c) ::
          forall i | 0 <= i < |t.index| :: t.data[c][i].Int? || t.data[c][i].NaN?)
  }

  /** The raw columns are the 18 fields and no others. */
  lemma RawTableColumns(t: Table<Column>)
    requires IsRawTable(t)
    ensures ProductsPurchased in t.data
    ensures forall c | c in ActivityColumns :: c in t.data
    ensures forall c | c in CampaignColumns :: c in t.data
  {
    assert RawColumns[4] == ProductsPurchased;
    assert forall k | 0 <= k < |ActivityColumns| :: ActivityColumns[k] == RawColumns[6 + k];
    assert RawColumns[2] == CampaignVar(1) && RawColumns[3] == CampaignVar(2);
  }

  /** The 17 columns left once `id` has become the row key. */
  const KeyedColumns: seq<Column> := LeadColumns + ActivityColumns

  /** The columns the transform drops at line 27, in the order it lists them. */
  const DroppedColumns: seq<Column> := CampaignColumns + [CreatedAt, SignupDate] + ActivityColumns

  // The lemmas below state facts about the column constants alone; the
  // transform combines them with the list lemmas of Frames and Columns.

  /** Line 6: the key column comes first and only once. */
  lemma KeyLayout()
    ensures RawColumns == [Id] + KeyedColumns && Id !in KeyedColumns
  {
  }

  /** Lines 9 and 21: the two sums are new columns. */
  lemma SumsAreNew()
    ensures SumUserActivities !in KeyedColumns
    ensures SumCamp !in KeyedColumns + [SumUserActivities]
  {
  }

  /** Line 8: among the keyed columns, the ones whose names start with "user"
      are exactly the trailing twelve activity flags. */
  lemma UserLayout()
    ensures KeyedColumns == LeadColumns + ActivityColumns + []
    ensures forall x | x in LeadColumns + [] :: !StartsWith(x.Name(), ActivityPrefix)
    ensures forall x | x in ActivityColumns :: StartsWith(x.Name(), ActivityPrefix)
  {
    forall x | x in LeadColumns + [] ensures !StartsWith(x.Name(), ActivityPrefix) {
      UserPrefix(x);
    }
    forall x | x in ActivityColumns ensures StartsWith(x.Name(), ActivityPrefix) {
      UserPrefix(x);
    }
  }

  /** Line 20: once sum_user_activities has been appended, the columns whose
      names start with "camp" are the two campaign variables, second and third. */
  lemma CampLayout()
    ensures KeyedColumns + [SumUserActivities]
            == [CreatedAt] + CampaignColumns + ([ProductsPurchased, SignupDate] + ActivityColumns + [SumUserActivities])
    ensures forall x | x in [CreatedAt] + ([ProductsPurchased, SignupDate] + ActivityColumns + [SumUserActivities]) ::
              !StartsWith(x.Name(), CampaignPrefix)
    ensures forall x | x in CampaignColumns :: StartsWith(x.Name(), CampaignPrefix)
  {
    forall x | x in [CreatedAt] + ([ProductsPurchased, SignupDate] + ActivityColumns + [SumUserActivities])
      ensures !StartsWith(x.Name(), CampaignPrefix)
    {
      CampPrefix(x);
    }
    forall x | x in CampaignColumns ensures StartsWith(x.Name(), CampaignPrefix) {
      CampPrefix(x);
    }
  }

  /** Line 27: the 19 columns present before the drop alternate between runs
      that are dropped and runs that are kept, and the kept ones are the output. */
  lemma DropLayout()
    ensures KeyedColumns + [SumUserActivities] + [SumCamp]
            == ([CreatedAt] + CampaignColumns) + [ProductsPurchased]
               + ([SignupDate] + ActivityColumns) + [SumUserActivities, SumCamp]
    ensures forall x | x in ([CreatedAt] + CampaignColumns) + ([SignupDate] + ActivityColumns) :: x in DroppedColumns
    ensures forall x | x in [ProductsPurchased] + [SumUserActivities, SumCamp] :: x !in DroppedColumns
    ensures OutputColumns == [ProductsPurchased] + [SumUserActivities, SumCamp]
    ensures forall x | x in DroppedColumns :: x in KeyedColumns + [SumUserActivities] + [SumCamp]
  {
  }

  /** The row keys: the `id` column's values, in row order. */
  function Ids(t: Table<Column>): (ids: seq<int>)
    requires IsRawTable(t)
    ensures |ids| == |t.index|
    ensures forall i | 0 <= i < |ids| :: Int(ids[i]) == t.data[Id][i]
  {
    seq(|t.index|, i requires 0 <= i < |t.index| => t.data[Id][i].n)
  }

  /** The texts `to_datetime` reads as a missing date instead of parsing
      them: the empty text and the spellings of "not a time" and "not a number". */
  predicate IsNullText(s: string) {
    s == "" || s == "NaT" || s == "nat" || s == "NAT" || s == "nan" || s == "NaN" || s == "NAN"
  }

  /** A cell holding a text that names a date, as opposed to a missing one. */
  predicate HasDateText(c: Cell) {
    c.Str? && !IsNullText(c.s)
  }

  /** `to_datetime(x, format="%Y-%m-%d")` on one cell. */
  function ParseCell(c: Cell, column: Column): (r: Result<Cell, Error>)
    ensures r.Ok? ==> r.value.Stamp? || r.value.NaN?
    ensures r.Ok? ==> (r.value.NaN? <==> c.NaN? || (c.Str? && IsNullText(c.s)))
    ensures c.Str? ==> (r.Ok? <==> IsNullText(c.s) || ParseDate(c.s).Some?)
    ensures c.NaN? ==> r.Ok?
    ensures r.Err? ==> r.error == UnparsableDate(column)
  {
    match c
    case Str(s) =>
      if IsNullText(s) then Ok(NaN)
      else
        (match ParseDate(s)
         case Some(d) => Ok(Stamp(DaysFromCivil(d)))
         case None => Err(UnparsableDate(column)))
    case NaN => Ok(NaN)
    case Stamp(_) => Ok(c)
    case Int(_) => Err(UnparsableDate(column))
  }

  /** `to_datetime` on a whole column: fails on the first cell that does not parse. */
  function ParseDates(col: seq<Cell>, column: Column): (r: Result<seq<Cell>, Error>)
    ensures r.Ok? <==> forall i | 0 <= i < |col| :: ParseCell(col[i], column).Ok?
    ensures r.Ok? ==> |r.value| == |col|
    ensures r.Ok? ==> forall i | 0 <= i < |col| :: r.value[i] == ParseCell(col[i], column).value
    ensures r.Err? ==> r.error == UnparsableDate(column)
  {
    if col == [] then Ok([])
    else
      var head :- ParseCell(col[0], column);
      var rest :- ParseDates(col[1..], column);
      Ok([head] + rest)
  }

  /** `created_at - signup_date`, in whole days; missing when either date is. */
  function Deltas(created: seq<Cell>, signup: seq<Cell>): (ds: seq<Option<int>>)
    requires |created| == |signup|
    ensures |ds| == |created|
    ensures forall i | 0 <= i < |ds| ::
              ds[i].Some? <==> created[i].Stamp? && signup[i].Stamp?
    ensures forall i | 0 <= i < |ds| && ds[i].Some? ::
              ds[i].value == created[i].day - signup[i].day
  {
    seq(|created|, i requires 0 <= i < |created| =>
      if created[i].Stamp? && signup[i].Stamp? then Some(created[i].day - signup[i].day) else None)
  }

  /** `day.max()`: the largest present value, skipping missing ones. */
  function MaxPresent(ds: seq<Option<int>>): (m: Option<int>)
    ensures m.None? <==> forall i | 0 <= i < |ds| :: ds[i].None?
    ensures m.Some? ==> exists i | 0 <= i < |ds| :: ds[i] == m
    ensures m.Some? ==> forall i | 0 <= i < |ds| && ds[i].Some? :: ds[i].value <= m.value
  {
    if ds == [] then None
    else
      var m := MaxPresent(ds[..|ds| - 1]);
      var last := ds[|ds| - 1];
      assert forall i | 0 <= i < |ds| - 1 :: ds[..|ds| - 1][i] == ds[i];
      if last.None? then m
      else if m.None? || m.value < last.value then last
      else m
  }

  /** Row j holds a delta, and no row holds a larger one. */
  predicate IsLargestDelta(ds: seq<Option<int>>, j: int) {
    && 0 <= j < |ds| && ds[j].Some?
    && forall k | 0 <= k < |ds| && ds[k].Some? :: ds[k].value <= ds[j].value
  }

  function Abs(x: int): nat {
    if x < 0 then -x else x
  }

  /** Lines 14 to 17 of the transform: the day counts, missing ones replaced by
      the largest signed count of the batch, then made non-negative. Casting a
      count that is still missing to an integer fails (line 17), and so does an
      empty batch: splitting an empty series gives no column 0 (line 16). */
  function DayCounts(ds: seq<Option<int>>): (r: Result<seq<nat>, Error>)
    ensures r.Ok? <==> exists i | 0 <= i < |ds| :: ds[i].Some?
    ensures r.Err? ==> r.error == UncomputableDayCount
    ensures r.Ok? ==> |r.value| == |ds|
    ensures r.Ok? ==> forall i | 0 <= i < |ds| && ds[i].Some? :: r.value[i] == Abs(ds[i].value)
    ensures r.Ok? ==> forall i | 0 <= i < |ds| && ds[i].None? ::
              exists j | 0 <= j < |ds| :: IsLargestDelta(ds, j) && r.value[i] == Abs(ds[j].value)
  {
    var fill := MaxPresent(ds);
    if fill.None? then Err(UncomputableDayCount)
    else
      var counts := seq(|ds|, i requires 0 <= i < |ds| => Abs(if ds[i].Some? then ds[i].value else fill.value));
      Ok(counts)
  }

  /** Lines 12 to 17 of the transform as a value: both date columns parsed,
      then the day counts. The transform discards the counts, but fails when
      this fails. */
  function DayCount(created: seq<Cell>, signup: seq<Cell>): (r: Result<seq<nat>, Error>)
    requires |created| == |signup|
    ensures r.Ok? ==> |r.value| == |created|
    ensures r.Err? ==> r.error in {UnparsableDate(CreatedAt), UnparsableDate(SignupDate), UncomputableDayCount}
  {
    var c :- ParseDates(created, CreatedAt);
    var s :- ParseDates(signup, SignupDate);
    DayCounts(Deltas(c, s))
  }

  /** The three output columns of a raw batch, keyed by its ids. */
  function Features(t: Table<Column>): (r: Table<Column>)
    requires IsRawTable(t)
    ensures r.index == Ids(t) && r.columns == OutputColumns
  {
    RawTableColumns(t);
    Table(Ids(t), OutputColumns, map[
      ProductsPurchased := FillNa(t.data[ProductsPurchased], 0),
      SumUserActivities := RowSums(t, ActivityColumns),
      SumCamp := RowSums(t, CampaignColumns)])
  }

  /** The transform's result as a value: the output columns, or the error of
      the day count that stops it. */
  function Wrangle(t: Table<Column>): (r: Result<Table<Column>, Error>)
    requires IsRawTable(t)
    ensures r.Ok? <==> DayCount(t.data[CreatedAt], t.data[SignupDate]).Ok?
    ensures r.Ok? ==> r.value.index == Ids(t) && r.value.columns == OutputColumns
    ensures r.Err? ==> r.error in {UnparsableDate(CreatedAt), UnparsableDate(SignupDate), UncomputableDayCount}
  {
    var days :- DayCount(t.data[CreatedAt], t.data[SignupDate]);
    Ok(Features(t))
  }

  /** Lines 8 and 9: the columns whose names start with "user" are summed
      into a new column sum_user_activities, appended at the end. */
  method AddActivitySum(f: DataFrame<Column>, ghost t: Table<Column>) returns (userCols: seq<Column>)
    requires f.Valid() && t.WellFormed() && |f.index| == |t.index|
    requires f.columns == KeyedColumns
    requires forall c | c in ActivityColumns :: c in t.data && c in f.data && f.data[c] == t.data[c]
    modifies f
    ensures f.Valid() && f.index == old(f.index)
    ensures userCols == ActivityColumns
    ensures f.columns == KeyedColumns + [SumUserActivities]
    ensures f.data == old(f.data)[SumUserActivities := RowSums(t, ActivityColumns)]
  {
    SumsAreNew();
    assert SumUserActivities !in f.data;
    userCols := WithPrefix(f.columns, ActivityPrefix);
    UserLayout();
    WithPrefixMiddle(LeadColumns, ActivityColumns, [], ActivityPrefix);
    RowSumsAgree(f.View(), t, userCols);
    f.Assign(SumUserActivities, RowSums(f.View(), userCols));
  }

  /** A date column after `to_datetime`, or as it was when that fails. */
  function ParsedOrKept(col: seq<Cell>, column: Column): (r: seq<Cell>)
    ensures |r| == |col|
  {
    match ParseDates(col, column)
    case Ok(parsed) => parsed
    case Err(_) => col
  }

  /** Lines 12 to 17: both date columns are parsed in place, one after the
      other, and the day counts are computed from them. */
  method ParseDateColumns(f: DataFrame<Column>) returns (day: Result<seq<nat>, Error>)
    requires f.Valid() && CreatedAt in f.data && SignupDate in f.data
    modifies f
    ensures f.Valid() && f.index == old(f.index) && f.columns == old(f.columns)
    ensures day == DayCount(old(f.data[CreatedAt]), old(f.data[SignupDate]))
    ensures f.data == old(f.data)[CreatedAt := ParsedOrKept(old(f.data[CreatedAt]), CreatedAt)]
                                 [SignupDate := if ParseDates(old(f.data[CreatedAt]), CreatedAt).Ok?
                                                then ParsedOrKept(old(f.data[SignupDate]), SignupDate)
                                                else old(f.data[SignupDate])]
  {
    var created := ParseDates(f.data[CreatedAt], CreatedAt);
    if created.Err? {
      return Err(created.error);
    }
    f.Assign(CreatedAt, created.value);
    var signup := ParseDates(f.data[SignupDate], SignupDate);
    if signup.Err? {
      return Err(signup.error);
    }
    f.Assign(SignupDate, signup.value);
    day := DayCounts(Deltas(f.data[CreatedAt], f.data[SignupDate]));
  }

  /** Lines 20 and 21: once sum_user_activities is there, the columns whose
      names start with "camp" are summed into a new column sum_camp. */
  method AddCampaignSum(f: DataFrame<Column>, ghost t: Table<Column>) returns (campCols: seq<Column>)
    requires f.Valid() && t.WellFormed() && |f.index| == |t.index|
    requires f.columns == KeyedColumns + [SumUserActivities]
    requires forall c | c in CampaignColumns :: c in t.data && c in f.data && f.data[c] == t.data[c]
    modifies f
    ensures f.Valid() && f.index == old(f.index)
    ensures campCols == CampaignColumns
    ensures f.columns == KeyedColumns + [SumUserActivities] + [SumCamp]
    ensures f.data == old(f.data)[SumCamp := RowSums(t, CampaignColumns)]
  {
    SumsAreNew();
    assert SumCamp !in f.data;
    campCols := WithPrefix(f.columns, CampaignPrefix);
    CampLayout();
    WithPrefixMiddle([CreatedAt], CampaignColumns,
                     [ProductsPurchased, SignupDate] + ActivityColumns + [SumUserActivities], CampaignPrefix);
    RowSumsAgree(f.View(), t, campCols);
    f.Assign(SumCamp, RowSums(f.View(), campCols));
  }

  /** Line 27: dropping the campaign, date and activity columns leaves the
      three output columns, with their contents. */
  method DropInputs(f: DataFrame<Column>, names: seq<Column>)
    requires f.Valid() && f.columns == KeyedColumns + [SumUserActivities] + [SumCamp]
    requires names == DroppedColumns
    modifies f
    ensures f.Valid() && f.index == old(f.index)
    ensures f.columns == OutputColumns
    ensures f.data == map[
              ProductsPurchased := old(f.data[ProductsPurchased]),
              SumUserActivities := old(f.data[SumUserActivities]),
              SumCamp := old(f.data[SumCamp])]
  {
    assert Without(f.columns, names) == OutputColumns && forall x | x in names :: x in f.data by {
      DropLayout();
      WithoutAlternating([CreatedAt] + CampaignColumns, [ProductsPurchased],
                         [SignupDate] + ActivityColumns, [SumUserActivities, SumCamp], names);
    }
    f.Drop(names);
    ThreeEntries(f.data, f.columns);
  }

  /** Lines 24 and 27: missing purchase counts become 0, then the campaign,
      date and activity columns are dropped, leaving the three output columns. */
  method FillAndDrop(f: DataFrame<Column>, campCols: seq<Column>, userCols: seq<Column>)
    requires f.Valid() && f.columns == KeyedColumns + [SumUserActivities] + [SumCamp]
    requires campCols == CampaignColumns && userCols == ActivityColumns
    modifies f
    ensures f.Valid() && f.index == old(f.index)
    ensures f.columns == OutputColumns
    ensures f.data == map[
              ProductsPurchased := FillNa(old(f.data[ProductsPurchased]), 0),
              SumUserActivities := old(f.data[SumUserActivities]),
              SumCamp := old(f.data[SumCamp])]
  {
    f.Assign(ProductsPurchased, FillNa(f.data[ProductsPurchased], 0));
    DropInputs(f, campCols + [CreatedAt, SignupDate] + userCols);
  }

  /** Lines 20 to 27, once the activity sum is in place and the dates have
      parsed: the rest of the transform leaves exactly the output columns.
      `userCols` is the selection made at line 8, dropped again at line 27. */
  method FinishFeatures(f: DataFrame<Column>, ghost t: Table<Column>, userCols: seq<Column>)
    requires IsRawTable(t) && f.Valid() && f.index == Ids(t)
    requires userCols == ActivityColumns
    requires f.columns == KeyedColumns + [SumUserActivities]
    requires SumUserActivities in f.data && f.data[SumUserActivities] == RowSums(t, ActivityColumns)
    requires ProductsPurchased in t.data && ProductsPurchased in f.data
             && f.data[ProductsPurchased] == t.data[ProductsPurchased]
    requires forall c | c in CampaignColumns :: c in t.data && c in f.data && f.data[c] == t.data[c]
    modifies f
    ensures f.Valid() && f.View() == Features(t)
  {
    RawTableColumns(t);
    var campCols := AddCampaignSum(f, t);
    ghost var sums := f.data[SumUserActivities];
    FillAndDrop(f, campCols, userCols);
    assert f.data[SumUserActivities] == sums;
  }

  /** Lines 12 to 27, once the activity sum is in place: the transform fails
      exactly when the day count does, and otherwise leaves exactly the output
      columns. */
  method DatesThenFinish(f: DataFrame<Column>, ghost t: Table<Column>, userCols: seq<Column>)
    returns (err: Option<Error>)
    requires IsRawTable(t) && f.Valid() && f.index == Ids(t)
    requires userCols == ActivityColumns
    requires f.columns == KeyedColumns + [SumUserActivities]
    requires SumUserActivities in f.data && f.data[SumUserActivities] == RowSums(t, ActivityColumns)
    requires CreatedAt in f.data && f.data[CreatedAt] == t.data[CreatedAt]
    requires SignupDate in f.data && f.data[SignupDate] == t.data[SignupDate]
    requires ProductsPurchased in t.data && ProductsPurchased in f.data
             && f.data[ProductsPurchased] == t.data[ProductsPurchased]
    requires forall c | c in CampaignColumns :: c in t.data && c in f.data && f.data[c] == t.data[c]
    modifies f
    ensures err.None? <==> DayCount(t.data[CreatedAt], t.data[SignupDate]).Ok?
    ensures err.Some? ==> err.value == DayCount(t.data[CreatedAt], t.data[SignupDate]).error
    ensures err.None? ==> f.Valid() && f.View() == Features(t)
  {
    var day := ParseDateColumns(f);
    if day.Err? {
      return Some(day.error);
    }
    // the day counts themselves go nowhere
    FinishFeatures(f, t, userCols);
    err := None;
  }

  /** The keyed table once sum_user_activities has been appended still holds
      the raw date, campaign and purchase columns. */
  lemma AfterActivitySum(d: map<Column, seq<Cell>>, t: Table<Column>, sums: seq<Cell>)
    requires IsRawTable(t)
    requires d == (t.data - {Id})[SumUserActivities := sums]
    ensures SumUserActivities in d && d[SumUserActivities] == sums
    ensures CreatedAt in d && d[CreatedAt] == t.data[CreatedAt]
    ensures SignupDate in d && d[SignupDate] == t.data[SignupDate]
    ensures ProductsPurchased in t.data && ProductsPurchased in d
            && d[ProductsPurchased] == t.data[ProductsPurchased]
    ensures forall c | c in CampaignColumns :: c in t.data && c in d && d[c] == t.data[c]
  {
    RawTableColumns(t);
  }

  /** Lines 8 to 27 on the table keyed by id. */
  method TransformKeyed(f: DataFrame<Column>, ghost t: Table<Column>) returns (err: Option<Error>)
    requires IsRawTable(t) && f.Valid() && f.index == Ids(t)
    requires f.columns == KeyedColumns && f.data == t.data - {Id}
    modifies f
    ensures err.None? <==> DayCount(t.data[CreatedAt], t.data[SignupDate]).Ok?
    ensures err.Some? ==> err.value == DayCount(t.data[CreatedAt], t.data[SignupDate]).error
    ensures err.None? ==> f.Valid() && f.View() == Features(t)
  {
    RawTableColumns(t);
    var userCols := AddActivitySum(f, t);
    AfterActivitySum(f.data, t, RowSums(t, ActivityColumns));
    err := DatesThenFinish(f, t, userCols);
  }

  /** `wrangling_test(df)`, step by step on a new table; `df` is left as it was. */
  method WranglingTest(df: DataFrame<Column>) returns (r: Result<DataFrame<Column>, Error>)
    requires df.Valid() && IsRawTable(df.View())
    ensures unchanged(df)
    ensures r.Ok? <==> Wrangle(df.View()).Ok?
    ensures r.Ok? ==> fresh(r.value) && r.value.Valid() && r.value.View() == Wrangle(df.View()).value
    ensures r.Err? ==> r.error == Wrangle(df.View()).error
  {
    ghost var t := df.View();
    var f := df.SetIndex(Id);
    KeyLayout();
    WithoutHead(Id, KeyedColumns);
    var err := TransformKeyed(f, t);
    if err.Some? {
      return Err(err.value);
    }
    r := Ok(f);
  }
}
