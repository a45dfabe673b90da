/** The web service around the transform: the home page's constant reply, and
    the prediction endpoint, which validates the submitted form fields, fills
    in the defaults, builds a one-row raw table from them, runs the feature
    transform on it, asks the model for a class and turns that class into a
    label. The model itself is a parameter. */
module App {
  import opened Wrappers
  import opened Calendar
  import opened DateFormat
  import opened Frames
  import opened Columns
  import opened FeatureEngineering
  import opened FeatureProperties

  /** A submitted form, field by field: the integer fields and the text
      fields the client sent, under their columns. A field the client left out
      has no entry; fields that are not part of the form are ignored. */
  datatype Request = Request(numbers: map<Column, int>, texts: map<Column, string>)

  /** Why the form binding turns a request away. */
  datatype Violation =
    | Missing(field: Column)          // a required field was not sent
    | OutOfRange(field: Column)       // a `ge`/`le` bound does not hold
    | PatternMismatch(field: Column)  // a date field does not have the date shape

  /** Why the prediction endpoint does not answer with a label. */
  datatype Failure =
    | Rejected(violations: seq<Violation>)  // the form binding refused the request
    | TransformFailed(error: Error)         // the feature transform raised

  /** The fields declared with `ge=0` and no default. */
  const CountColumns: seq<Column> := [CampaignVar(1), CampaignVar(2), ProductsPurchased]

  /** The label the endpoint reports. */
  const NotBought: string := "Item not bought"

  // ---------------------------------------------------------------------
  // The date pattern of the two date fields
  // ---------------------------------------------------------------------

  /** `[0-9]{4,}-[0-9]{1,2}-[0-9]{1,2}` over the whole text, read left to
      right: at least four digits, a dash, one or two digits, a dash, one or
      two digits. Digit runs are read whole, which loses nothing because a
      dash is not a digit. */
  predicate MatchesDatePattern(s: string)
    ensures MatchesDatePattern(s) ==> 8 <= |s| && IsDigit(s[0]) && IsDigit(s[|s| - 1])
  {
    var a := DigitRun(s, 0);
    && 4 <= a < |s| && s[a] == '-'
    && var b := DigitRun(s, a + 1);
       && 1 <= b <= 2 && a + 1 + b < |s| && s[a + 1 + b] == '-'
       && var c := DigitRun(s, a + 2 + b);
          1 <= c <= 2 && a + 2 + b + c == |s|
  }

  /** The pattern as fields: s is ys-ms-ds with at least four year digits and
      one or two month and day digits. */
  predicate PatternText(s: string, ys: string, ms: string, ds: string) {
    && s == ys + "-" + ms + "-" + ds
    && |ys| >= 4 && 1 <= |ms| <= 2 && 1 <= |ds| <= 2
    && IsDigits(ys) && IsDigits(ms) && IsDigits(ds)
  }

  /** Where the three fields and the two dashes of ys-ms-ds sit. */
  lemma PatternLayout(ys: string, ms: string, ds: string)
    ensures var s := ys + "-" + ms + "-" + ds;
            && |s| == |ys| + |ms| + |ds| + 2
            && s[..|ys|] == ys && s[0..|ys|] == ys && s[|ys|] == '-'
            && s[|ys| + 1..|ys| + 1 + |ms|] == ms && s[|ys| + 1 + |ms|] == '-'
            && s[|ys| + 2 + |ms|..] == ds && s[|ys| + 2 + |ms|..|ys| + 2 + |ms| + |ds|] == ds
  {
    var s := ys + "-" + ms + "-" + ds;
    assert s == ys + ("-" + (ms + ("-" + ds)));
  }

  /** The digit runs of ys-ms-ds are its three fields. */
  lemma PatternRuns(ys: string, ms: string, ds: string)
    requires IsDigits(ys) && IsDigits(ms) && IsDigits(ds)
    ensures var s := ys + "-" + ms + "-" + ds;
            && |s| == |ys| + |ms| + |ds| + 2
            && DigitRun(s, 0) == |ys| && s[|ys|] == '-'
            && DigitRun(s, |ys| + 1) == |ms| && s[|ys| + 1 + |ms|] == '-'
            && DigitRun(s, |ys| + 2 + |ms|) == |ds|
  {
    var s := ys + "-" + ms + "-" + ds;
    PatternLayout(ys, ms, ds);
    FieldRun(s, 0, ys);
    FieldRun(s, |ys| + 1, ms);
    FieldRun(s, |ys| + 2 + |ms|, ds);
  }

  /** Every text with the three digit fields matches the pattern. */
  lemma PatternComplete(ys: string, ms: string, ds: string)
    requires PatternText(ys + "-" + ms + "-" + ds, ys, ms, ds)
    ensures MatchesDatePattern(ys + "-" + ms + "-" + ds)
  {
    PatternRuns(ys, ms, ds);
  }

  /** Every text that matches the pattern is made of the three digit fields. */
  lemma PatternSound(s: string)
    requires MatchesDatePattern(s)
    ensures exists ys, ms, ds :: PatternText(s, ys, ms, ds)
  {
    var a := DigitRun(s, 0);
    var b := DigitRun(s, a + 1);
    var ys, ms, ds := s[..a], s[a + 1..a + 1 + b], s[a + 2 + b..];
    assert s == ys + "-" + ms + "-" + ds;
    assert PatternText(s, ys, ms, ds);
  }

  /** The pattern refuses every text that `to_datetime` would read as a
      missing date, so the service never sends one to the transform. */
  lemma NullTextRefused(s: string)
    ensures IsNullText(s) ==> !MatchesDatePattern(s)
  {
  }

  /** Every date the strict parser reads matches the pattern: the pattern
      turns away no date the transform could use. */
  lemma ParsedDatesMatch(s: string)
    requires ParseDate(s).Some?
    ensures MatchesDatePattern(s)
  {
    ParseDateSound(s);
    var ys, ms, ds :| DateText(s, ys, ms, ds);
    PatternComplete(ys, ms, ds);
  }

  /** A text with a four-digit year whose fields do not write an existing
      date is refused by the strict parser. */
  lemma ParseRejectsFields(ys: string, ms: string, ds: string)
    requires |ys| == 4 && 1 <= |ms| <= 2 && 1 <= |ds| <= 2
    requires IsDigits(ys) && IsDigits(ms) && IsDigits(ds)
    requires !ValidDate(Date(DecimalValue(ys), DecimalValue(ms), DecimalValue(ds)))
    ensures ParseDate(ys + "-" + ms + "-" + ds).None?
  {
    var s := ys + "-" + ms + "-" + ds;
    DateTextLayout(ys, ms, ds);
    FieldRun(s, 0, ys);
    FieldRun(s, 5, ms);
    FieldRun(s, 6 + |ms|, ds);
  }

  /** A text whose year has more than four digits is refused by the strict
      parser. */
  lemma ParseRejectsLongYear(ys: string, ms: string, ds: string)
    requires |ys| > 4 && IsDigits(ys)
    ensures ParseDate(ys + "-" + ms + "-" + ds).None?
  {
    var s := ys + "-" + ms + "-" + ds;
    PatternLayout(ys, ms, ds);
    FieldRun(s, 0, ys);
  }

  /** The pattern lets through a thirteenth month, which the strict parser
      refuses. */
  lemma BadMonthMatches()
    ensures MatchesDatePattern("2020-13-01") && ParseDate("2020-13-01").None?
  {
    assert "2020" + "-" + "13" + "-" + "01" == "2020-13-01";
    PatternComplete("2020", "13", "01");
    assert "13"[..1] == "1" && "1"[..0] == "";
    assert DecimalValue("13") == 13;
    ParseRejectsFields("2020", "13", "01");
  }

  /** The pattern lets through a five-digit year, which the strict parser
      refuses. */
  lemma LongYearMatches()
    ensures MatchesDatePattern("20201-01-01") && ParseDate("20201-01-01").None?
  {
    assert "20201" + "-" + "01" + "-" + "01" == "20201-01-01";
    PatternComplete("20201", "01", "01");
    ParseRejectsLongYear("20201", "01", "01");
  }

  // ---------------------------------------------------------------------
  // Form binding
  // ---------------------------------------------------------------------

  /** A date field: required, and it must have the date shape. The form
      framework treats an empty value as one not sent. */
  function DateCheck(texts: map<Column, string>, c: Column): (v: Option<Violation>)
    ensures v.None? <==> c in texts && MatchesDatePattern(texts[c])
    ensures v.Some? && v.value.Missing? <==> c !in texts || texts[c] == ""
  {
    if c !in texts || texts[c] == "" then Some(Missing(c))
    else if !MatchesDatePattern(texts[c]) then Some(PatternMismatch(c))
    else None
  }

  /** A count field: required, and at least 0. */
  function CountCheck(numbers: map<Column, int>, c: Column): (v: Option<Violation>)
    ensures v.None? <==> c in numbers && numbers[c] >= 0
  {
    if c !in numbers then Some(Missing(c))
    else if numbers[c] < 0 then Some(OutOfRange(c))
    else None
  }

  /** An activity flag: 0 when left out, and otherwise 0 or 1. */
  function FlagCheck(numbers: map<Column, int>, c: Column): (v: Option<Violation>)
    ensures v.None? <==> c !in numbers || 0 <= numbers[c] <= 1
  {
    if c in numbers && !(0 <= numbers[c] <= 1) then Some(OutOfRange(c)) else None
  }

  /** The check one field's declaration asks for: the two dates are required
      and must have the date shape; the campaign variables and the purchase
      count are required and at least 0; an activity flag, when sent, is 0 or
      1; the id may be any integer. */
  function Check(req: Request, c: Column): (v: Option<Violation>)
    ensures v.Some? ==> v.value.field == c
  {
    match c
    case CreatedAt => DateCheck(req.texts, c)
    case SignupDate => DateCheck(req.texts, c)
    case CampaignVar(_) => CountCheck(req.numbers, c)
    case ProductsPurchased => CountCheck(req.numbers, c)
    case UserActivityVar(_) => FlagCheck(req.numbers, c)
    case _ => None
  }

  /** The failed checks of the given fields, in field order. */
  function Collect(req: Request, cols: seq<Column>): (r: seq<Violation>)
    ensures |r| <= |cols|
  {
    if cols == [] then []
    else
      var rest := Collect(req, cols[1..]);
      match Check(req, cols[0])
      case Some(v) => [v] + rest
      case None => rest
  }

  /** Every failed check of the listed fields is reported, and only those. */
  lemma {:induction false} CollectMembers(req: Request, cols: seq<Column>)
    ensures forall v | v in Collect(req, cols) :: v.field in cols && Check(req, v.field) == Some(v)
    ensures forall c | c in cols && Check(req, c).Some? :: Check(req, c).value in Collect(req, cols)
  {
    if cols != [] {
      CollectMembers(req, cols[1..]);
      forall c | c in cols[1..] ensures c in cols {
      }
    }
  }

  /** No two reported violations name the same field, when the fields are
      distinct: at most one violation per field. */
  lemma {:induction false} CollectDistinctFields(req: Request, cols: seq<Column>)
    ensures Distinct(cols) ==>
              forall i, j | 0 <= i < j < |Collect(req, cols)| :: Collect(req, cols)[i].field != Collect(req, cols)[j].field
  {
    if cols != [] && Distinct(cols) {
      var rest := cols[1..];
      assert Distinct(rest) by {
        forall i, j | 0 <= i < j < |rest| ensures rest[i] != rest[j] {
          assert rest[i] == cols[i + 1] && rest[j] == cols[j + 1];
        }
      }
      CollectDistinctFields(req, rest);
      CollectMembers(req, rest);
      assert cols[0] !in rest by {
        forall k | 0 <= k < |rest| ensures rest[k] != cols[0] {
          assert rest[k] == cols[k + 1];
        }
      }
    }
  }

  /** Fields that all pass their checks produce no violation. */
  lemma {:induction false} CollectNone(req: Request, cols: seq<Column>)
    requires forall c | c in cols :: Check(req, c).None?
    ensures Collect(req, cols) == []
  {
    if cols != [] {
      assert cols[0] in cols;
      forall c | c in cols[1..] ensures Check(req, c).None? {
        assert c in cols;
      }
      CollectNone(req, cols[1..]);
    }
  }

  /** All violations of a request, in the order the fields are declared. */
  function Violations(req: Request): (r: seq<Violation>)
    ensures |r| <= |RawColumns|
  {
    Collect(req, RawColumns)
  }

  /** The request-acceptance predicate, field by field. */
  predicate Accepted(req: Request)
    ensures Accepted(req) ==> CreatedAt in req.texts && SignupDate in req.texts
                              && 8 <= |req.texts[CreatedAt]| && 8 <= |req.texts[SignupDate]|
    ensures Accepted(req) ==> forall c | c in CountColumns :: c in req.numbers && req.numbers[c] >= 0
  {
    && CreatedAt in req.texts && MatchesDatePattern(req.texts[CreatedAt])
    && SignupDate in req.texts && MatchesDatePattern(req.texts[SignupDate])
    && CampaignVar(1) in req.numbers && req.numbers[CampaignVar(1)] >= 0
    && CampaignVar(2) in req.numbers && req.numbers[CampaignVar(2)] >= 0
    && ProductsPurchased in req.numbers && req.numbers[ProductsPurchased] >= 0
    && forall c | c in ActivityColumns && c in req.numbers :: 0 <= req.numbers[c] <= 1
  }

  /** The raw fields are the id, the two dates, the counts and the flags. */
  lemma RawMember(c: Column)
    requires c in RawColumns
    ensures c == Id || c == CreatedAt || c == SignupDate || c in CountColumns || c in ActivityColumns
  {
  }

  /** An accepted request passes every field's check. */
  lemma AcceptedChecks(req: Request)
    requires Accepted(req)
    ensures forall c | c in RawColumns :: Check(req, c).None?
  {
    forall c | c in RawColumns ensures Check(req, c).None? {
      RawMember(c);
    }
  }

  /** A request that passes every field's check is accepted. */
  lemma ChecksAccepted(req: Request)
    requires forall c | c in RawColumns :: Check(req, c).None?
    ensures Accepted(req)
  {
    ChecksFields(req);
    ChecksFlags(req);
  }

  /** The required fields of a request that passes every check are present
      and within their bounds. */
  lemma ChecksFields(req: Request)
    requires forall c | c in RawColumns :: Check(req, c).None?
    ensures CreatedAt in req.texts && MatchesDatePattern(req.texts[CreatedAt])
    ensures SignupDate in req.texts && MatchesDatePattern(req.texts[SignupDate])
    ensures CampaignVar(1) in req.numbers && req.numbers[CampaignVar(1)] >= 0
    ensures CampaignVar(2) in req.numbers && req.numbers[CampaignVar(2)] >= 0
    ensures ProductsPurchased in req.numbers && req.numbers[ProductsPurchased] >= 0
  {
    RawPositions();
    assert CreatedAt in req.texts && MatchesDatePattern(req.texts[CreatedAt]) by {
      assert Check(req, RawColumns[1]).None?;
    }
    assert SignupDate in req.texts && MatchesDatePattern(req.texts[SignupDate]) by {
      assert Check(req, RawColumns[5]).None?;
    }
    assert CampaignVar(1) in req.numbers && req.numbers[CampaignVar(1)] >= 0 by {
      assert Check(req, RawColumns[2]).None?;
    }
    assert CampaignVar(2) in req.numbers && req.numbers[CampaignVar(2)] >= 0 by {
      assert Check(req, RawColumns[3]).None?;
    }
    assert ProductsPurchased in req.numbers && req.numbers[ProductsPurchased] >= 0 by {
      assert Check(req, RawColumns[4]).None?;
    }
  }

  /** The activity flags of a request that passes every check are 0 or 1. */
  lemma ChecksFlags(req: Request)
    requires forall c | c in RawColumns :: Check(req, c).None?
    ensures forall c | c in ActivityColumns && c in req.numbers :: 0 <= req.numbers[c] <= 1
  {
    RawPositions();
    forall c | c in ActivityColumns && c in req.numbers ensures 0 <= req.numbers[c] <= 1 {
      var k :| 0 <= k < 12 && ActivityColumns[k] == c;
      assert Check(req, RawColumns[6 + k]).None?;
    }
  }

  /** The binding reports no violation exactly when the request is accepted. */
  lemma ViolationsEmpty(req: Request)
    ensures Violations(req) == [] <==> Accepted(req)
  {
    if Accepted(req) {
      AcceptedChecks(req);
      CollectNone(req, RawColumns);
    } else {
      CollectMembers(req, RawColumns);
      if Violations(req) == [] {
        ChecksAccepted(req);
      }
    }
  }

  // ---------------------------------------------------------------------
  // The one-row raw table
  // ---------------------------------------------------------------------

  /** Where each raw field stands in the row. */
  function Position(c: Column): int {
    match c
    case Id => 0
    case CreatedAt => 1
    case CampaignVar(k) => 1 + k
    case ProductsPurchased => 4
    case SignupDate => 5
    case UserActivityVar(k) => 5 + k
    case SumUserActivities => 18
    case SumCamp => 19
  }

  /** The 18 raw fields are distinct: each stands at its own position. */
  lemma RawColumnsDistinct()
    ensures Distinct(RawColumns)
  {
    assert forall i | 0 <= i < |RawColumns| :: Position(RawColumns[i]) == i;
  }

  /** A request has at most one violation for each of its 18 fields. */
  lemma ViolationsDistinctFields(req: Request)
    ensures forall i, j | 0 <= i < j < |Violations(req)| :: Violations(req)[i].field != Violations(req)[j].field
  {
    RawColumnsDistinct();
    CollectDistinctFields(req, RawColumns);
  }

  /** The value an accepted request gives an activity flag: the one sent, or 0. */
  function Flag(req: Request, c: Column): int {
    if c in req.numbers then req.numbers[c] else 0
  }

  /** The values of the twelve activity flags, 0 for a flag not sent. */
  function Flags(req: Request): (flags: seq<Cell>)
    requires Accepted(req)
    ensures |flags| == 12
    ensures forall k | 0 <= k < 12 :: flags[k] == Int(0) || flags[k] == Int(1)
  {
    seq(12, k requires 0 <= k < 12 => Int(Flag(req, ActivityColumns[k])))
  }

  /** The `features` row: the values of the 18 raw fields in declaration
      order, with 1 for a missing id and 0 for a missing activity flag. */
  function FormRow(req: Request): (row: seq<Cell>)
    requires Accepted(req)
    ensures |row| == |RawColumns|
    ensures row[1].Str? && row[5].Str?
    ensures forall i | 0 <= i < |row| && i != 1 && i != 5 :: row[i].Int?
    ensures row[1] == Str(req.texts[CreatedAt]) && row[5] == Str(req.texts[SignupDate])
    ensures row[4] == Int(req.numbers[ProductsPurchased])
    ensures row[2] == Int(req.numbers[CampaignVar(1)]) && row[3] == Int(req.numbers[CampaignVar(2)])
    ensures row[2].n >= 0 && row[3].n >= 0
    ensures forall k | 6 <= k < |row| :: row[k] == Int(0) || row[k] == Int(1)
  {
    [ Int(if Id in req.numbers then req.numbers[Id] else 1),
      Str(req.texts[CreatedAt]),
      Int(req.numbers[CampaignVar(1)]),
      Int(req.numbers[CampaignVar(2)]),
      Int(req.numbers[ProductsPurchased]),
      Str(req.texts[SignupDate]) ]
    + Flags(req)
  }

  /** The raw fields, position by position. */
  lemma RawPositions()
    ensures |RawColumns| == 18
    ensures RawColumns[0] == Id && RawColumns[1] == CreatedAt && RawColumns[5] == SignupDate
    ensures RawColumns[2] == CampaignVar(1) && RawColumns[3] == CampaignVar(2)
    ensures RawColumns[4] == ProductsPurchased
    ensures forall k | 0 <= k < 12 :: RawColumns[6 + k] == ActivityColumns[k]
  {
  }

  /** In a one-row table over the raw fields, the numeric fields hold
      integers when every position but the two date positions does. */
  lemma RawRowNumbers(values: seq<Cell>)
    requires |values| == |RawColumns|
    requires forall i | 0 <= i < |values| && i != 1 && i != 5 :: values[i].Int?
    ensures Distinct(RawColumns)
    ensures var t := OneRow(RawColumns, values);
            forall c | c in t.data && IsNumericField(c) ::
              forall i | 0 <= i < |t.index| :: t.data[c][i].Int? || t.data[c][i].NaN?
  {
    RawColumnsDistinct();
    var t := OneRow(RawColumns, values);
    forall c | c in t.data && IsNumericField(c) ensures t.data[c][0].Int? {
      var i :| 0 <= i < |RawColumns| && RawColumns[i] == c;
      assert RawColumns[1] == CreatedAt && RawColumns[5] == SignupDate;
      assert t.data[c] == [values[i]];
    }
  }

  /** In a one-row table over the raw fields, the id is an integer and the
      dates are texts when the values in those positions are. */
  lemma RawRowKeys(values: seq<Cell>)
    requires |values| == |RawColumns| && values[0].Int? && values[1].Str? && values[5].Str?
    ensures Distinct(RawColumns)
    ensures var t := OneRow(RawColumns, values);
            && Id in t.data && CreatedAt in t.data && SignupDate in t.data
            && (forall i | 0 <= i < |t.index| :: t.data[Id][i].Int?)
            && (forall i | 0 <= i < |t.index| ::
                  (t.data[CreatedAt][i].Str? || t.data[CreatedAt][i].NaN?)
                  && (t.data[SignupDate][i].Str? || t.data[SignupDate][i].NaN?))
  {
    RawRowCells(values);
  }

  /** Any row of 18 values with text in the two date positions and integers
      elsewhere makes a raw table. */
  lemma RawRowTable(values: seq<Cell>)
    requires |values| == |RawColumns| && values[1].Str? && values[5].Str?
    requires forall i | 0 <= i < |values| && i != 1 && i != 5 :: values[i].Int?
    ensures Distinct(RawColumns)
    ensures IsRawTable(OneRow(RawColumns, values))
  {
    RawRowNumbers(values);
    assert values[0].Int?;
    RawRowKeys(values);
  }

  /** The row turned into a table: `DataFrame(data=[features.values()],
      columns=features.keys())`. */
  function RawFrame(req: Request): (t: Table<Column>)
    requires Accepted(req)
    ensures IsRawTable(t) && t.index == [0]
  {
    RawRowTable(FormRow(req));
    OneRow(RawColumns, FormRow(req))
  }

  /** The names of the 18 raw fields, in the order the row lists them. */
  lemma FieldNames()
    ensures |RawColumns| == 18
    ensures RawColumns[0].Name() == "id" && RawColumns[1].Name() == "created_at"
    ensures RawColumns[2].Name() == "campaign_var_1" && RawColumns[3].Name() == "campaign_var_2"
    ensures RawColumns[4].Name() == "products_purchased" && RawColumns[5].Name() == "signup_date"
    ensures forall k | 0 <= k < 12 ::
              RawColumns[6 + k] == ActivityColumns[k] && ActivityColumns[k].Name() == "user_activity_var_" + NatText(k + 1)
  {
    RawPositions();
    assert NatText(1) == "1" && NatText(2) == "2";
  }

  /** The cells of a one-row raw table, by field. */
  lemma RawRowCells(values: seq<Cell>)
    requires |values| == |RawColumns|
    ensures Distinct(RawColumns)
    ensures var t := OneRow(RawColumns, values);
            && t.data[Id] == [values[0]]
            && t.data[CreatedAt] == [values[1]]
            && t.data[CampaignVar(1)] == [values[2]] && t.data[CampaignVar(2)] == [values[3]]
            && t.data[ProductsPurchased] == [values[4]]
            && t.data[SignupDate] == [values[5]]
            && forall k | 0 <= k < 12 :: ActivityColumns[k] in t.data && t.data[ActivityColumns[k]] == [values[6 + k]]
  {
    RawColumnsDistinct();
    RawPositions();
  }

  /** The row's cells: the submitted values, with 1 for a missing id and 0
      for a missing activity flag. */
  lemma RowCells(req: Request)
    requires Accepted(req)
    ensures var t := RawFrame(req);
            && t.data[Id] == [Int(if Id in req.numbers then req.numbers[Id] else 1)]
            && t.data[CreatedAt] == [Str(req.texts[CreatedAt])]
            && t.data[SignupDate] == [Str(req.texts[SignupDate])]
            && t.data[CampaignVar(1)] == [Int(req.numbers[CampaignVar(1)])]
            && t.data[CampaignVar(2)] == [Int(req.numbers[CampaignVar(2)])]
            && t.data[ProductsPurchased] == [Int(req.numbers[ProductsPurchased])]
            && forall k | 0 <= k < 12 :: t.data[ActivityColumns[k]] == [Int(Flag(req, ActivityColumns[k]))]
  {
    RawRowCells(FormRow(req));
    assert forall k | 0 <= k < 12 :: FormRow(req)[6 + k] == Flags(req)[k];
  }

  // ---------------------------------------------------------------------
  // The endpoints
  // ---------------------------------------------------------------------

  /** The label for a predicted class. */
  function Label(predicted: int): (text: string)
    ensures text == NotBought
  {
    if predicted == 0 then NotBought else NotBought
  }

  /** GET /: the introduction. */
  function Home(): (reply: map<string, string>)
    ensures reply.Keys == {"predict"} && reply["predict"] == "Customer Purchase Prediction"
  {
    map["predict" := "Customer Purchase Prediction"]
  }

  /** The two date fields are sent and the strict parser reads both. */
  predicate DatesParse(req: Request) {
    && CreatedAt in req.texts && ParseDate(req.texts[CreatedAt]).Some?
    && SignupDate in req.texts && ParseDate(req.texts[SignupDate]).Some?
  }

  /** The answer to an accepted request's raw table: transform it, ask the
      model (`predict`, the first prediction it makes for the table) and
      report the label, or the transform's error. */
  function Answer(t: Table<Column>, predict: Table<Column> -> int): (r: Result<map<string, string>, Failure>)
    requires IsRawTable(t)
    ensures r.Ok? ==> r.value.Keys == {"prediction"} && r.value["prediction"] == NotBought
    ensures r.Err? <==> Wrangle(t).Err?
    ensures r.Err? ==> r.error == TransformFailed(Wrangle(t).error)
  {
    match Wrangle(t)
    case Err(e) => Err(TransformFailed(e))
    case Ok(out) => Ok(map["prediction" := Label(predict(out))])
  }

  /** POST /predict: bind the form, then answer. */
  function Prediction(req: Request, predict: Table<Column> -> int): (r: Result<map<string, string>, Failure>)
    ensures r.Ok? ==> r.value.Keys == {"prediction"} && r.value["prediction"] == NotBought
    ensures r.Err? && r.error.Rejected? <==> !Accepted(req)
    ensures r.Err? && r.error.Rejected? ==> r.error.violations != []
  {
    ViolationsEmpty(req);
    var v := Violations(req);
    if v != [] then Err(Rejected(v)) else Answer(RawFrame(req), predict)
  }

  /** An accepted request is answered exactly when both of its dates parse;
      the date pattern alone does not guarantee that. */
  lemma PredictionOk(req: Request, predict: Table<Column> -> int)
    ensures Prediction(req, predict).Ok? <==> Accepted(req) && DatesParse(req)
  {
    if Accepted(req) {
      RowCells(req);
      OneRowOutcome(RawFrame(req));
    }
  }

  /** An accepted request that is not answered failed on its created_at
      date, or else on its signup_date. */
  lemma PredictionError(req: Request, predict: Table<Column> -> int)
    requires Accepted(req) && Prediction(req, predict).Err?
    ensures Prediction(req, predict).error ==
              TransformFailed(UnparsableDate(
                if ParseDate(req.texts[CreatedAt]).None? then CreatedAt else SignupDate))
  {
    NullTextRefused(req.texts[CreatedAt]);
    NullTextRefused(req.texts[SignupDate]);
    RowCells(req);
    OneRowOutcome(RawFrame(req));
  }

  /** A transformed one-row table: the purchase count pp, an activity count
      from 0 to 12 and a non-negative campaign sum. */
  predicate SumsInRange(out: Table<Column>, pp: int) {
    && ProductsPurchased in out.data && |out.data[ProductsPurchased]| == 1
    && out.data[ProductsPurchased][0] == Int(pp)
    && SumUserActivities in out.data && |out.data[SumUserActivities]| == 1
    && out.data[SumUserActivities][0].Int? && 0 <= out.data[SumUserActivities][0].n <= 12
    && SumCamp in out.data && |out.data[SumCamp]| == 1
    && out.data[SumCamp][0].Int? && out.data[SumCamp][0].n >= 0
  }

  /** A transformed one-row table holding exactly the purchase count pp, the
      activity sum activity and the campaign sum c1 + c2. */
  predicate OutputRow(out: Table<Column>, pp: int, activity: int, c1: int, c2: int) {
    && ProductsPurchased in out.data && out.data[ProductsPurchased] == [Int(pp)]
    && SumUserActivities in out.data && out.data[SumUserActivities] == [Int(activity)]
    && SumCamp in out.data && out.data[SumCamp] == [Int(c1 + c2)]
  }

  /** A one-row raw table within the form's bounds transforms into a row
      within SumsInRange. */
  lemma OneRowSums(t: Table<Column>)
    requires IsRawTable(t) && |t.index| == 1 && Wrangle(t).Ok?
    requires ProductsPurchased in t.data && t.data[ProductsPurchased][0].Int?
    requires forall k | 0 <= k < 12 :: ActivityColumns[k] in t.data &&
               (t.data[ActivityColumns[k]][0] == Int(0) || t.data[ActivityColumns[k]][0] == Int(1))
    requires forall c | c in CampaignColumns :: c in t.data && t.data[c][0].Int? && t.data[c][0].n >= 0
    ensures SumsInRange(Wrangle(t).value, t.data[ProductsPurchased][0].n)
  {
    WrangleShape(t);
    PurchasesRow(t, 0);
    forall c | c in ActivityColumns ensures c in t.data && (t.data[c][0] == Int(0) || t.data[c][0] == Int(1)) {
      var k :| 0 <= k < 12 && ActivityColumns[k] == c;
    }
    ActivitySumRange(t, 0);
    CampaignSumNonNegative(t, 0);
  }

  /** A one-row raw table whose flags are 0 or 1 and whose campaign
      variables are non-negative integers, by position. */
  lemma RawRowBounds(values: seq<Cell>)
    requires |values| == |RawColumns|
    requires values[2].Int? && values[2].n >= 0 && values[3].Int? && values[3].n >= 0
    requires forall k | 6 <= k < |values| :: values[k] == Int(0) || values[k] == Int(1)
    ensures Distinct(RawColumns)
    ensures var t := OneRow(RawColumns, values);
            && (forall k | 0 <= k < 12 :: ActivityColumns[k] in t.data &&
                  (t.data[ActivityColumns[k]][0] == Int(0) || t.data[ActivityColumns[k]][0] == Int(1)))
            && (forall c | c in CampaignColumns :: c in t.data && t.data[c][0].Int? && t.data[c][0].n >= 0)
  {
    RawRowCells(values);
  }

  /** A one-row table built from values within the form's bounds whose two
      dates parse transforms into a row within SumsInRange. */
  lemma RowOutcome(values: seq<Cell>)
    requires |values| == |RawColumns| && values[1].Str? && values[5].Str?
    requires forall i | 0 <= i < |values| && i != 1 && i != 5 :: values[i].Int?
    requires values[2].n >= 0 && values[3].n >= 0
    requires forall k | 6 <= k < |values| :: values[k] == Int(0) || values[k] == Int(1)
    requires ParseDate(values[1].s).Some? && ParseDate(values[5].s).Some?
    ensures Distinct(RawColumns) && IsRawTable(OneRow(RawColumns, values))
    ensures Wrangle(OneRow(RawColumns, values)).Ok?
    ensures SumsInRange(Wrangle(OneRow(RawColumns, values)).value, values[4].n)
  {
    RawRowTable(values);
    RawRowCells(values);
    RawRowBounds(values);
    var t := OneRow(RawColumns, values);
    assert t.data[CreatedAt][0] == values[1] && t.data[SignupDate][0] == values[5];
    OneRowOutcome(t);
    OneRowSums(t);
  }

  /** The flag cells of a one-row table, as the slice of the row after the
      six leading fields. */
  lemma FlagCells(t: Table<Column>, values: seq<Cell>)
    requires |values| == |RawColumns|
    requires forall i | 0 <= i < |values| && i != 1 && i != 5 :: values[i].Int?
    requires forall k | 0 <= k < 12 :: ActivityColumns[k] in t.data && t.data[ActivityColumns[k]] == [values[6 + k]]
    ensures |values[6..]| == 12
    ensures forall k | 0 <= k < 12 :: values[6..][k].Int?
    ensures forall k | 0 <= k < 12 :: ActivityColumns[k] in t.data && t.data[ActivityColumns[k]][0] == values[6..][k]
  {
    forall k | 0 <= k < 12
      ensures values[6..][k].Int? && t.data[ActivityColumns[k]][0] == values[6..][k]
    {
      assert values[6..][k] == values[6 + k];
    }
  }

  /** RowFeatures for any one-row raw table holding the given values. */
  lemma TableFeatures(t: Table<Column>, values: seq<Cell>, pp: int, c1: int, c2: int)
    requires IsRawTable(t) && |t.index| == 1 && Wrangle(t).Ok?
    requires |values| == |RawColumns|
    requires forall i | 0 <= i < |values| && i != 1 && i != 5 :: values[i].Int?
    requires values[2] == Int(c1) && values[3] == Int(c2) && values[4] == Int(pp)
    requires && t.data[CampaignVar(1)] == [values[2]] && t.data[CampaignVar(2)] == [values[3]]
             && t.data[ProductsPurchased] == [values[4]]
             && forall k | 0 <= k < 12 :: ActivityColumns[k] in t.data && t.data[ActivityColumns[k]] == [values[6 + k]]
    ensures OutputRow(Wrangle(t).value, pp, Total(values[6..]), c1, c2)
  {
    FlagCells(t, values);
    OneRowFeatures(t, pp, values[6..], c1, c2);
  }

  /** The transformed row, cell by cell: the purchase count, the total of the
      twelve flags and the sum of the two campaign variables. */
  lemma RowFeatures(values: seq<Cell>, pp: int, c1: int, c2: int)
    requires |values| == |RawColumns| && values[1].Str? && values[5].Str?
    requires forall i | 0 <= i < |values| && i != 1 && i != 5 :: values[i].Int?
    requires values[2] == Int(c1) && values[3] == Int(c2) && values[4] == Int(pp)
    requires c1 >= 0 && c2 >= 0
    requires forall k | 6 <= k < |values| :: values[k] == Int(0) || values[k] == Int(1)
    requires ParseDate(values[1].s).Some? && ParseDate(values[5].s).Some?
    ensures Distinct(RawColumns) && IsRawTable(OneRow(RawColumns, values))
    ensures Wrangle(OneRow(RawColumns, values)).Ok?
    ensures OutputRow(Wrangle(OneRow(RawColumns, values)).value, pp, Total(values[6..]), c1, c2)
  {
    RowOutcome(values);
    RawRowCells(values);
    TableFeatures(OneRow(RawColumns, values), values, pp, c1, c2);
  }

  /** What the model is given for an accepted request whose dates parse: the
      purchase count as sent, an activity count from 0 to 12 and a
      non-negative campaign sum. */
  lemma AcceptedSums(req: Request)
    requires Accepted(req) && DatesParse(req)
    ensures Wrangle(RawFrame(req)).Ok?
    ensures SumsInRange(Wrangle(RawFrame(req)).value, req.numbers[ProductsPurchased])
  {
    RowOutcome(FormRow(req));
  }

  /** What the model is given for an accepted request whose dates parse,
      cell by cell: the purchase count as sent, the total of the twelve flags
      (a flag not sent counting as 0) and the sum of the two campaign
      variables. */
  lemma AcceptedFeatures(req: Request)
    requires Accepted(req) && DatesParse(req)
    ensures Wrangle(RawFrame(req)).Ok?
    ensures OutputRow(Wrangle(RawFrame(req)).value, req.numbers[ProductsPurchased], Total(Flags(req)),
                      req.numbers[CampaignVar(1)], req.numbers[CampaignVar(2)])
  {
    var values := FormRow(req);
    RowFeatures(values, req.numbers[ProductsPurchased], req.numbers[CampaignVar(1)], req.numbers[CampaignVar(2)]);
  }

  /** A request for a customer who signed up nine days before the account was
      created: created 2020-01-10, signed up 2020-01-01, campaign variables 2
      and 3, five purchases and every activity flag set.
      The request is accepted and answered with "Item not bought", and the
      model is given 5 purchases, an activity sum of 12 and a campaign sum of
      5. */
  lemma NineDayRequest(req: Request, predict: Table<Column> -> int)
    requires CreatedAt in req.texts && req.texts[CreatedAt] == "2020-01-10"
    requires SignupDate in req.texts && req.texts[SignupDate] == "2020-01-01"
    requires CampaignVar(1) in req.numbers && req.numbers[CampaignVar(1)] == 2
    requires CampaignVar(2) in req.numbers && req.numbers[CampaignVar(2)] == 3
    requires ProductsPurchased in req.numbers && req.numbers[ProductsPurchased] == 5
    requires forall c | c in ActivityColumns :: c in req.numbers && req.numbers[c] == 1
    ensures Accepted(req)
    ensures Prediction(req, predict) == Ok(map["prediction" := NotBought])
    ensures OutputRow(Wrangle(RawFrame(req)).value, 5, 12, 2, 3)
  {
    NineDayDates(req);
    AcceptedFeatures(req);
    forall k | 0 <= k < 12 ensures Flags(req)[k] == Int(1) {
      assert ActivityColumns[k] in ActivityColumns;
    }
    AllSetTotal(Flags(req));
    PredictionOk(req, predict);
    LabelReply(Prediction(req, predict).value);
  }

  /** The two dates of NineDayRequest match the pattern and parse. */
  lemma NineDayDates(req: Request)
    requires CreatedAt in req.texts && req.texts[CreatedAt] == "2020-01-10"
    requires SignupDate in req.texts && req.texts[SignupDate] == "2020-01-01"
    ensures MatchesDatePattern(req.texts[CreatedAt]) && MatchesDatePattern(req.texts[SignupDate])
    ensures DatesParse(req)
  {
    ExampleCreatedParses();
    ExampleSignupParses();
    ParsedDatesMatch("2020-01-10");
    ParsedDatesMatch("2020-01-01");
  }

  /** A reply with the single key "prediction" holding the label is that
      one-entry map. */
  lemma LabelReply(reply: map<string, string>)
    requires reply.Keys == {"prediction"} && reply["prediction"] == NotBought
    ensures reply == map["prediction" := NotBought]
  {
  }

  /** A request whose created_at is "2020-13-01" passes the form check but
      fails in the transform. */
  lemma BadMonthFails(req: Request, predict: Table<Column> -> int)
    requires Accepted(req) && req.texts[CreatedAt] == "2020-13-01"
    ensures Prediction(req, predict) == Err(TransformFailed(UnparsableDate(CreatedAt)))
  {
    BadMonthMatches();
    PredictionOk(req, predict);
    PredictionError(req, predict);
  }
}
