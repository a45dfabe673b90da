# Customer purchase prediction: feature transform and service, in Dafny

This project models the core of a small purchase-prediction service. The service has two parts:
- the feature transform `wrangling_test`, which turns a batch of raw customer rows into the rows a pre-trained classifier reads;
- the web endpoints around that transform. `home` returns a constant. `prediction` validates a form, builds a one-row table from it, transforms the table, asks the model for a class and reports a label.

The transform works as follows:
- It keys the rows by `id`.
- It sums the columns whose names start with `user` (the twelve activity flags) into `sum_user_activities`.
- It parses `created_at` and `signup_date` under `%Y-%m-%d`.
- It computes the day count between the two dates. A missing count is filled with the batch's largest signed count, and then `abs` is applied. The counts are then discarded, but a parse failure, or a batch with no count to fill from, still fails the transform.
- It sums the columns whose names start with `camp` into `sum_camp`.
- It fills a missing `products_purchased` with 0.
- It drops the dates, the campaign variables and the activity flags.

The result has exactly the columns `products_purchased`, `sum_user_activities` and `sum_camp`, in that order.

Modules, one per file:
- `Wrappers` (wrappers.dfy): `Option` and `Result`.
- `Calendar` (calendar.dfy): proleptic Gregorian dates, month lengths and day numbers counted from 1970-01-01.
- `DateFormat` (date_format.dfy): the strict `%Y-%m-%d` reader.
- `Frames` (frames.dfy): the table operations the transform uses.
  - A table is a value `Table` or a mutable `DataFrame` class.
  - The operations are `set_index`, column assignment, in-place `drop`, row sums that propagate missing values, `fillna`, and building a one-row table.
- `Columns` (columns.dfy): the column names and the `startswith` prefix selection.
- `FeatureEngineering` (feature_engineering.dfy): the transform.
  - `Wrangle` is the transform as a value.
  - The method `WranglingTest` performs it step by step on a new `DataFrame`, one method per group of source lines, and each method is proved against `Wrangle` and its parts.
- `FeatureProperties` (feature_properties.dfy): what the transform promises. This covers:
  - when it fails and with which error;
  - the result's shape;
  - every output cell;
  - the ranges of the sums;
  - the imputation, with worked examples.
- `App` (app.py's model, app.dfy): the form binding, the date pattern, the 18-field row, the label, both endpoints, and end-to-end properties.

Cells are `Int`, `Str` (raw text), `Stamp` (a parsed date as a day number) or `NaN` (missing).

Three facts of the code shape the model:
- There is no `day` output column. The code writes the day counts into a local series (feature_engineering.py:17), not into the table.
- Duplicate ids are accepted. `set_index` (feature_engineering.py:6) does not check them.
- Both dates are required. The form declares `created_at` and `signup_date` with a pattern and no default (app.py:32), so a request without either is turned away.

## Model

| member | source | states |
|---|---|---|
| Calendar.DaysInMonth | feature_engineering.py:12-13 | Months have 28 to 31 days, and February has 29 exactly in a leap year. |
| Calendar.NextDay | feature_engineering.py:14 | The next day of a valid date is valid, in the same year or on 1 January of the next. |
| Calendar.DaysFromCivilNextDay | feature_engineering.py:14 | Consecutive dates have consecutive day numbers. |
| Calendar.DaysAfter | feature_engineering.py:14 | The date n days after a valid date is valid. |
| Calendar.DaysFromCivilDaysAfter | feature_engineering.py:14 | The date n days after d has day number DaysFromCivil(d) + n. |
| Calendar.DaysFromCivil | feature_engineering.py:14 | A valid date's day number is non-negative exactly from 1970 on. DaysFromCivilNextDay and DaysFromCivilDaysAfter tie the numbers to the calendar's successor. |
| Calendar.EpochIsDayZero | feature_engineering.py:14 | Day numbers count from 1970-01-01, the table library's epoch. |
| Calendar.LeapYearPeriodic | feature_engineering.py:12-13 | The Gregorian leap rule repeats every 400 years: 4-divisible years are leap, except centuries not divisible by 400. |
| DateFormat.ParseDate | feature_engineering.py:12-13 | A text the strict reader accepts denotes a valid date with a year from 1 to 9999. |
| DateFormat.ParseDateSound | feature_engineering.py:12-13 | Every accepted text is four year digits, a dash, one or two month digits, a dash and one or two day digits, and the result is the date those fields write. |
| DateFormat.ParseDateComplete | feature_engineering.py:12-13 | Every such text of an existing date with a year of at least 1 is accepted, with that date as result. |
| DateFormat.DigitRun | feature_engineering.py:12-13 | The digit run at a position is all digits and ends at a non-digit or at the end. |
| Frames.DataFrame.SetIndex | feature_engineering.py:6 | A fresh table whose row labels are the key column's values in row order, duplicates allowed. It lacks the key column, and the receiver is left as it was. |
| Frames.DataFrame.Assign | feature_engineering.py:9 | Assignment replaces an existing column where it stands or appends a new one at the end. Nothing else changes. |
| Frames.DataFrame.Drop | feature_engineering.py:27 | In-place drop removes exactly the named columns. The remaining ones keep their order and contents. |
| Frames.WithoutMembers | feature_engineering.py:27 | The columns left after a drop are exactly those not named, and they stay distinct. |
| Frames.WithoutAlternating | feature_engineering.py:27 | Dropping runs of named columns that alternate with kept runs leaves the kept runs, in order. |
| Frames.Without | feature_engineering.py:27 | The columns left after a drop are no more than before. WithoutMembers states exactly which remain. |
| Frames.Add | feature_engineering.py:21 | Adding two cells gives a number exactly when both are numbers, and then their sum. A missing operand makes the result missing. |
| Frames.SumCells | feature_engineering.py:9 | A row sum is a number exactly when every summed cell is, and missing otherwise. |
| Frames.SumCellsTotal | feature_engineering.py:9 | A row sum is the total of the cells when none is missing, and missing otherwise. |
| Frames.SumOfTwo | feature_engineering.py:21 | The sum of two cells is a + b when both are present, and missing otherwise. |
| Frames.FlagSumRange | feature_engineering.py:9 | The sum of cells that are all 0 or 1 is a number from 0 to their count. |
| Frames.AllSetTotal | feature_engineering.py:9 | A row of flags that are all set totals to the number of flags. |
| Frames.NonNegativeSum | feature_engineering.py:21 | The sum of non-negative numbers is a non-negative number. |
| Frames.RowSumsAgree | feature_engineering.py:9 | Row sums depend only on the summed columns' contents. |
| Frames.RowSums | feature_engineering.py:9 | There is one sum per row. |
| Frames.FillNa | feature_engineering.py:24 | Every missing cell becomes the fill value, and every other cell is kept. |
| Frames.OneRow | app.py:45 | A one-row table labelled 0 whose named columns each hold the value at the same position. |
| Columns.StartsWith | feature_engineering.py:8 | A text starting with the prefix is the prefix followed by the rest of the text. |
| Columns.WithPrefix | feature_engineering.py:8 | The selection is no longer than the column list. WithPrefixMembers states exactly which columns it holds. |
| Columns.UserPrefix | feature_engineering.py:8 | A column's name starts with "user" exactly when it is an activity flag. |
| Columns.CampPrefix | feature_engineering.py:20 | A column's name starts with "camp" exactly when it is a campaign variable. |
| Columns.WithPrefixAll | feature_engineering.py:8 | When every listed name has the prefix, the selection is the whole list, in order. |
| Columns.WithPrefixNone | feature_engineering.py:20 | When no listed name has the prefix, nothing is selected. |
| Columns.WithPrefixMembers | feature_engineering.py:8 | The prefix selection holds exactly the columns whose names have the prefix, without duplicates. |
| Columns.WithPrefixMiddle | feature_engineering.py:20 | When only a middle run of columns has the prefix, the selection is that run, in order. |
| FeatureEngineering.RawTableColumns | feature_engineering.py:4 | A raw batch holds the purchase count, the activity flags and the campaign variables. |
| FeatureEngineering.KeyLayout | feature_engineering.py:6 | The key comes first and only once, and the other 17 fields follow it. |
| FeatureEngineering.DropLayout | feature_engineering.py:27 | The drop list names exactly the dates, the campaign variables and the flags, and what is left is the three output columns. |
| FeatureEngineering.Ids | feature_engineering.py:6 | The row keys are the id column's values, one per row, in row order. |
| FeatureEngineering.ParseCell | feature_engineering.py:12-13 | A text cell parses exactly when it spells a missing date ("", "NaT", "nat", "NAT", "nan", "NaN" or "NAN") or the strict reader accepts it. The result is missing exactly when the cell is missing or spells a missing date. A failure names the column. |
| FeatureEngineering.ParseDates | feature_engineering.py:12-13 | A column parses exactly when every cell does, cell by cell. A failure names the column. |
| FeatureEngineering.Deltas | feature_engineering.py:14 | A row's day difference is present exactly when both dates are, and is created minus signup in days. |
| FeatureEngineering.MaxPresent | feature_engineering.py:15 | The largest present difference is missing only when all are. It is one of them and no smaller than any. |
| FeatureEngineering.DayCounts | feature_engineering.py:15-17 | Counts exist exactly when some difference is present, so an empty batch fails. A present difference gives its absolute value, and a missing one gives the absolute value of the largest signed difference. |
| FeatureEngineering.DayCount | feature_engineering.py:12-17 | Counts exist one per row, and a failure is an unreadable created_at, an unreadable signup_date or no count to fill from. DayCountOk and DayCountError say which. |
| FeatureEngineering.Features | feature_engineering.py:8-27 | The output is keyed by the input ids and has exactly the three output columns. FeaturesShape, PurchasesRow, ActivitySumRow and CampaignSumRow state its cells. |
| FeatureEngineering.Wrangle | feature_engineering.py:4-28 | The transform succeeds exactly when the day count does. A result is keyed by the input ids with exactly the three output columns, and an error is one of the day count's three. |
| FeatureEngineering.AddActivitySum | feature_engineering.py:8-9 | It selects exactly the twelve activity flags and appends sum_user_activities as their row sums. Nothing else changes. |
| FeatureEngineering.ParseDateColumns | feature_engineering.py:12-17 | The day-count outcome is DayCount of the raw columns. Each date column is replaced by its parsed form up to the first failure. |
| FeatureEngineering.ParsedOrKept | feature_engineering.py:12-13 | A date column after parsing, or as it was, has its length. |
| FeatureEngineering.AddCampaignSum | feature_engineering.py:20-21 | It selects exactly the two campaign variables and appends sum_camp as their row sums. Nothing else changes. |
| FeatureEngineering.DropInputs | feature_engineering.py:27 | The drop leaves exactly products_purchased, sum_user_activities and sum_camp, in that order, with their contents. |
| FeatureEngineering.FillAndDrop | feature_engineering.py:24-27 | The purchase count is filled with 0, and then only the three output columns remain. |
| FeatureEngineering.FinishFeatures | feature_engineering.py:20-27 | Once the dates have parsed, the remaining steps leave exactly the value Features of the raw batch. |
| FeatureEngineering.DatesThenFinish | feature_engineering.py:12-27 | The steps fail exactly when the day count does, with its error, and otherwise leave Features of the raw batch. |
| FeatureEngineering.AfterActivitySum | feature_engineering.py:9 | Appending the activity sum keeps the raw date, purchase and campaign columns. |
| FeatureEngineering.TransformKeyed | feature_engineering.py:8-27 | The steps after set_index fail exactly when the day count does, and otherwise leave Features of the raw batch. |
| FeatureEngineering.WranglingTest | feature_engineering.py:4-28 | The transform works on a new table and leaves the input unchanged. It fails exactly when Wrangle does, with Wrangle's error, and otherwise returns Wrangle's table. |
| FeatureProperties.ParseDatesRaw | feature_engineering.py:12-13 | A raw date column parses exactly when every cell is missing or readable, and a parsed cell is a date exactly when the raw cell is a text that does not spell a missing date. |
| FeatureProperties.DayCountOk | feature_engineering.py:12-17 | The day count succeeds exactly when both columns parse and some row names both dates (texts that do not spell a missing date). An empty batch fails. |
| FeatureProperties.DayCountError | feature_engineering.py:12-17 | A failure names created_at first, then signup_date, and otherwise reports that there is no count to fill from (the empty batch included). |
| FeatureProperties.WrangleOk | feature_engineering.py:12-17 | The transform succeeds exactly when both date columns parse and some row names both dates, so an empty batch fails. The ids play no part, so duplicate ids are accepted. |
| FeatureProperties.EmptyBatchFails | feature_engineering.py:16 | A batch with no rows fails with UncomputableDayCount: splitting the empty series gives no column 0. |
| FeatureProperties.NullTextUnreadable | feature_engineering.py:12-13 | No text that spells a missing date is read as a date by the strict reader. |
| FeatureProperties.WrangleError | feature_engineering.py:12-17 | The error a failing transform reports, in the same order as DayCountError. |
| FeatureProperties.OutputLayout | feature_engineering.py:27 | The three output columns are distinct. |
| FeatureProperties.FeaturesShape | feature_engineering.py:27 | The output is well formed, keyed by the input ids, and has exactly the three output columns. |
| FeatureProperties.WrangleShape | feature_engineering.py:4-28 | The result has one row per input row, keyed by the input ids in order. Its columns are exactly products_purchased, sum_user_activities and sum_camp, and every dropped column and any day column is absent. |
| FeatureProperties.OneRowOutcome | feature_engineering.py:12-13 | A one-row batch with both dates as text succeeds exactly when both read as dates. Otherwise it names the first text that is neither a date nor a missing-date spelling, and failing that reports no count to fill from. |
| FeatureProperties.OneRowDates | feature_engineering.py:12-17 | On one row of two date texts, the day count succeeds exactly when both read as dates, and otherwise fails on the first text that is neither a date nor a missing-date spelling, or for lack of a count. |
| FeatureProperties.PurchasesRow | feature_engineering.py:24 | In each row, a missing purchase count becomes 0 and a present one is kept. |
| FeatureProperties.ActivitySumRow | feature_engineering.py:8-9 | In each row, sum_user_activities is the total of the twelve flags, or missing when one of them is. |
| FeatureProperties.CampaignSumRow | feature_engineering.py:20-21 | In each row, sum_camp is campaign_var_1 + campaign_var_2, or missing when either is. |
| FeatureProperties.CampaignRowSum | feature_engineering.py:21 | In a row, the sum of the two campaign variables is c1 + c2 when both are present, and missing otherwise. |
| FeatureProperties.ActivitySumRange | feature_engineering.py:9 | With every flag 0 or 1, sum_user_activities is from 0 to 12. |
| FeatureProperties.CampaignSumNonNegative | feature_engineering.py:21 | With both campaign variables non-negative, sum_camp is non-negative. |
| FeatureProperties.ActivitySumCell | feature_engineering.py:9 | In a one-row table whose twelve flags are integers, the activity sum is exactly their total. |
| FeatureProperties.CampaignSumCell | feature_engineering.py:21 | In a one-row table with campaign variables c1 and c2, the campaign sum is exactly c1 + c2. |
| FeatureProperties.OneRowFeatures | feature_engineering.py:8-27 | A one-row batch with every number present transforms into exactly the row (pp, the total of the flags, c1 + c2). |
| FeatureProperties.ImputationUsesSignedMaximum | feature_engineering.py:15-17 | With signed differences -10, missing and 3, the counts are 10, 3 and 3. The fill is the largest signed difference, not the largest absolute one. |
| FeatureProperties.OneDateParses | feature_engineering.py:12-13 | A date column of one readable text parses to that date's day number. |
| FeatureProperties.OneDayCount | feature_engineering.py:15-17 | A single present difference gives its absolute value as the count. |
| FeatureProperties.OneRowDayCount | feature_engineering.py:12-17 | On one row whose two dates parse, the count is the absolute difference of their day numbers. |
| FeatureProperties.NineDaysApart | feature_engineering.py:12-17 | Created 2020-01-10 and signed up 2020-01-01 gives a count of 9. |
| FeatureProperties.FillFromOtherRow | feature_engineering.py:15-17 | A missing count beside a count of 9 is filled with 9. |
| FeatureProperties.EmptyTextFilled | feature_engineering.py:12-17 | An empty created_at is a missing date, not an error: beside a row nine days apart, both counts are 9. |
| App.MatchesDatePattern | app.py:32 | A text matching the date pattern has at least eight characters and starts and ends with a digit. PatternSound and PatternComplete characterise it. |
| App.PatternComplete | app.py:32 | Every text of at least four digits, a dash, one or two digits, a dash and one or two digits matches the date pattern. |
| App.PatternSound | app.py:32 | Every text that matches the date pattern is made of those three digit fields. |
| App.NullTextRefused | app.py:32 | The date pattern refuses every missing-date spelling, so the service never sends one to the transform. |
| App.ParsedDatesMatch | app.py:32 | Every text the strict reader accepts matches the date pattern. |
| App.BadMonthMatches | app.py:32 | "2020-13-01" matches the pattern but the strict reader refuses it. |
| App.LongYearMatches | app.py:32 | "20201-01-01" matches the pattern but the strict reader refuses it. |
| App.ParseRejectsFields | feature_engineering.py:12-13 | Four year digits with month and day fields that name no existing date are refused by the strict reader. |
| App.ParseRejectsLongYear | feature_engineering.py:12-13 | A year of more than four digits is refused by the strict reader. |
| App.DateCheck | app.py:32 | A date field passes exactly when it is sent and matches the pattern. A field left out or sent empty is reported missing. |
| App.CountCheck | app.py:32 | A campaign variable or the purchase count passes exactly when it is sent and is at least 0. |
| App.FlagCheck | app.py:32 | An activity flag passes exactly when it is not sent, or is 0 or 1. |
| App.Check | app.py:32 | A reported violation names the field checked. |
| App.CollectMembers | app.py:32 | Every failed check of a field is reported, and nothing else is. |
| App.Collect | app.py:32 | The binding reports no more violations than there are fields. CollectMembers states exactly which, and CollectDistinctFields that no field is reported twice. |
| App.CollectDistinctFields | app.py:32 | Over distinct fields, no two reported violations name the same field. |
| App.Violations | app.py:32 | A request has no more violations than its 18 fields. |
| App.ViolationsDistinctFields | app.py:32 | No two violations of a request name the same field: at most one per field. |
| App.Accepted | app.py:32 | An accepted request has both dates, each at least eight characters long, and the campaign variables and the purchase count sent and at least 0. ViolationsEmpty ties it to the binding. |
| App.ViolationsEmpty | app.py:32 | The binding reports no violation exactly when the request is accepted: both dates are sent and match the pattern, the campaign variables and the purchase count are sent and at least 0, and every sent flag is 0 or 1. |
| App.FormRow | app.py:42 | The row has 18 values: text in the two date positions and integers elsewhere. The sent dates, campaign variables and purchase count are in their places, and every flag is 0 or 1. |
| App.Flags | app.py:42 | The twelve activity values of an accepted request are each 0 or 1. |
| App.FieldNames | app.py:42 | The row's fields, by name and in order: id, created_at, campaign_var_1, campaign_var_2, products_purchased, signup_date, user_activity_var_1 to user_activity_var_12. |
| App.RowCells | app.py:32 | Each field holds the submitted value. A missing id becomes 1 and a missing activity flag becomes 0. |
| App.RawFrame | app.py:45 | The one-row table built from the form is a raw batch the transform accepts as input, with row label 0. |
| App.RawRowTable | app.py:45 | Any 18 values with text in the date positions and integers elsewhere make a raw batch under the field names. |
| App.Label | app.py:54-57 | The label is "Item not bought" whatever class the model predicts. |
| App.Home | app.py:27 | The home page's reply has the single key "predict" with the text "Customer Purchase Prediction". |
| App.Answer | app.py:48-58 | Answering a raw table fails exactly when the transform does, with its error. Otherwise the reply has the single key "prediction" with the label. |
| App.Prediction | app.py:32-58 | A request is rejected exactly when it is not accepted, with at least one violation. A reply has the single key "prediction" with the text "Item not bought". |
| App.PredictionOk | app.py:48 | A request is answered exactly when it is accepted and both of its dates parse. |
| App.PredictionError | app.py:48 | An accepted request that is not answered failed on created_at, or else on signup_date. |
| App.AcceptedSums | app.py:48 | For an accepted request whose dates parse, the model sees the purchase count as sent, an activity sum from 0 to 12 and a non-negative campaign sum. |
| App.RowFeatures | app.py:45-48 | A row with readable dates, non-negative campaign variables c1 and c2, purchase count pp and 0/1 flags transforms into exactly (pp, the total of the flags, c1 + c2). |
| App.AcceptedFeatures | app.py:42-51 | For an accepted request whose dates parse, the model is given exactly the purchase count as sent, the total of the twelve flags (an unsent flag counting 0) and the sum of the two campaign variables. |
| App.NineDayRequest | app.py:31-58 | Created 2020-01-10, signed up 2020-01-01, campaign variables 2 and 3, 5 purchases and every flag set: the reply is {"prediction": "Item not bought"}, and the model is given 5, 12 and 5. |
| App.RowOutcome | app.py:45-48 | A row with readable dates, non-negative campaign variables and 0/1 flags transforms. The model sees the purchase count unchanged, an activity sum from 0 to 12 and a non-negative campaign sum. |
| App.BadMonthFails | app.py:32 | A request with created_at "2020-13-01" passes the form check but fails in the transform. |

## Left out

- The web framework is not modelled: routing, `async`, the server, and the error response a rejected form produces. A rejection is modelled as the list of violations in field order.
- Form values arrive as numbers and texts. The conversion of form text to integers, and the type error for a non-numeric value, are not modelled.
- The date pattern is matched against the whole text. Whether the framework anchors the pattern at both ends is decided outside the shown code.
- Loading the pickled model from disk at app.py:17-18 is left out, because it is I/O.
- `model.predict` at app.py:51 is foreign code. It is the parameter `predict`, which gives the first prediction for the table.
- Column dtypes and floating point are not modelled. Integer columns turning float after a missing value or `fillna` are cells `Int` and `NaN`.
- The round trip of a time difference through text at feature_engineering.py:16 is left out. It is modelled as the whole-day difference of two day numbers. The one failure of that line the model keeps is the empty batch: splitting an empty series gives no column 0, which is the error `UncomputableDayCount`.
- The assignment into the local series at feature_engineering.py:17 is modelled as discarded. The cast of a still-missing count to an integer is the error `UncomputableDayCount`.
- FeatureEngineering.ParseCell: it follows the ISO 8601 path of `to_datetime` in the table library's 2.x releases. It refuses "now" and "today", which the library reads as the current time from the clock. It refuses the strptime fallback's space-padded day ("2020-01- 5") and non-ASCII digits. It refuses the wider ISO 8601 texts ("2020-01", "2020-01-10T12:00") that 1.x releases accept under this format. The form's date pattern refuses all of these, so only the transform called on its own is affected.
- The strict reader accepts years 1 to 9999. The table library's narrower timestamp range, 1677 to 2262, is not modelled.
- `to_datetime` on an integer cell is modelled as a failure. A raw batch has only text or missing dates, so this case does not arise.
- The transform is modelled for the 18-field raw schema the service builds, in its column order. Other tables are not modelled.
- FeatureEngineering.ParseDateColumns: on failure, the model states the intermediate state it leaves. The transform stops there, so nothing reads that state.
