# Slate dashboard: a verified model of its data-shaping core

The slate dashboard is a Monday.com board view for a film studio. It reads the
titles of a board and shows them as a five-year slate (2025 to 2029), with
per-year totals, filters, a drag-to-move year grid, an inline editor and two
timeline widgets. This project models in Dafny the logic that shapes that
data, and proves what it promises:

- **Board-item normaliser** (`Normalize`). A board item (id, name, column
  values) becomes one canonical slate item. Column values are flattened into an
  object keyed by column id; a later duplicate id overwrites an earlier one.
  Each field is then found through an ordered alias list: for each alias, only
  the first column whose id contains it (case-insensitively) is consulted, and
  an empty text moves on to the next alias. After that come the fixed defaults.
  The year is the first run of four digits, or `2025`. Numbers come from
  `parseInt(...) || default`, so NaN and 0 both fall back and negatives are
  kept. `parseInt` itself is modelled in `Text`: leading white space, one sign,
  an optional `0x` prefix, then the longest digit run. This live normaliser
  never consults the user's column mapping, and it never sets
  `productionCompany` or `distributionPartner`.
- **Year totals and summary** (`Aggregate`). `calculateYearTotals` is an
  imperative method with the same three loops as the source. It is proved
  equal to a table that is defined year by year, and that table is in turn
  proved to count each year's titles. Items filed under another year are
  ignored. ROI is computed exactly over reals, with its zero-investment guard.
  `getTotalMetrics` over that table is proved to count exactly the items of
  the display years.
- **Views and local edits** (`Projection`, `Columns`, `Palette`). Covered
  here:
  - the three-way filter with its `All` sentinel, and the option lists;
  - the grouping by year;
  - the optimistic title move and the edit merge;
  - the column toggle and the presets;
  - the theme cycle, the genre colours and `autoMapColumns`.
- **Data source** (`DataSource`). The component's start-up and fallback logic
  is a class, `Dashboard`, with one method per event:
  - start-up;
  - the 3-second timer;
  - the context answer, the context rejection and a context change;
  - a finished board fetch;
  - the one live demo button ("Load Demo Mode", on the loading screen inside Monday), and the dev-mode "Column Mapping" label that brings the troubleshooter back;
  - a title move, and the three editor events.

  The `initialized` flag makes the first of the timer and the context answer
  win. Every failure ends on the 20-title preview slate, with loading off and
  no error. Two behaviours of the code are modelled as written:
  - The context listener compares against the board id captured when it was
    set up, which is always the empty string. So every non-empty board id
    refetches, even the board already shown.
  - A null context sets `initialized` and then throws. The catch does nothing,
    so the dashboard stays loading.

  The `error` state is only ever set to the empty string, and `Dashboard.Valid`
  keeps that as an invariant.
- **Timelines** (`CustomTimeline`, `ExecutiveTimeline`, `Calendar`). Dates are
  civil `(year, month, day)` triples, and `parseDate` is a parameter. Modelled
  here:
  - the year, month and day tick loops, and the 1st/15th day-tick rule;
  - the item source and the pills;
  - the genre swim lanes in first-appearance order;
  - the render gate;
  - the executive timeline's ticks over one date field, its `genresList` and
    `genreItems` buckets, and its initial date key.

Loops in the source are `method`s with invariants, each proved equal to a
recursive specification function. The properties are proved about those
functions.

## Model

| member | source | states |
|---|---|---|
| Seqs.IndexOf | src/App.js:67-70 | `indexOf`: -1 exactly when the value is absent, otherwise the first position holding it |
| Seqs.Distinct | src/App.js:1469-1471 | `Array.from(new Set(xs))`: no duplicates, exactly the values of the input, in first-appearance order |
| Text.FirstFourDigitsIndex | src/App.js:833 | the match position of `/\d{4}/` is a run of four digits and no earlier position holds one; none means no run anywhere |
| Text.MatchFourDigits | src/App.js:833 | a match is four ASCII digits |
| Text.LeadingSpace | src/App.js:840-842 | the white space `parseInt` skips: the first n characters are all white space and the next one is not, which fixes n exactly |
| Text.LeadingSpaceAppend | src/App.js:840-842 | white space put in front of a text adds exactly its length to the skipped prefix |
| Text.DigitRun | src/App.js:840-842 | the digit prefix `parseInt` reads is maximal: all digits, and the next character is not one |
| Text.ParseInt | src/App.js:840-842 | reference definition of `parseInt`: skip the leading white space, one optional sign, an optional `0x` prefix, then the longest digit run, or NaN when there is none; its properties are the `ParseInt...` and `NumberOr...` lemmas |
| Text.ParseIntSkipsLeadingSpace | src/App.js:840-842 | any amount of leading white space leaves `parseInt`'s result unchanged |
| Text.ParseIntOfDecimalString | src/ExecutiveTimeline.js:43 | `parseInt` reads back exactly the integer that `toString` wrote, negatives included |
| Normalize.Flatten | src/App.js:816-819 | the `forEach` that builds the column-value object builds the object defined by `Flattened` |
| Normalize.PutKeys | src/App.js:818 | `obj[k] = v` keeps the property order and appends a new key last |
| Normalize.PutLookup | src/App.js:818 | after `obj[k] = v`, `k` reads `v` and every other key reads as before |
| Normalize.FlattenedKeys | src/App.js:816-819 | the object has one property per distinct column id, in first-appearance order |
| Normalize.FlattenedLookup | src/App.js:816-819 | each id reads the text of its last column value (a null text reads as the empty string) |
| Normalize.FirstMatch | src/App.js:824-826 | the `find` fails exactly when no column id contains the alias, case-insensitively |
| Normalize.FirstMatchIsFirst | src/App.js:824-826 | a found value is that of the first column whose id contains the alias, empty or not |
| Normalize.Extract | src/App.js:822-830 | `getValue` never returns the empty string |
| Normalize.ExtractIsFirstUsable | src/App.js:822-830 | `getValue` is null exactly when no alias's first matching column has a non-empty text; otherwise it is the text of the first alias that has one |
| Normalize.GetValue | src/App.js:822-830 | the `for...of` loop with early return computes `Extract` |
| Normalize.NoMatchingColumn | src/App.js:822-830 | when no column id contains any alias the lookup is null |
| Normalize.TextField | src/App.js:839 | `getValue(...) \|\| default` is never empty when the default is not |
| Normalize.NumberField | src/App.js:840-842 | `parseInt(getValue(...)) \|\| default` is never 0 when the default is not |
| Normalize.YearField | src/App.js:832-838 | the year is always four digits |
| Normalize.NormalizeAll | src/App.js:814 | one item per board item, in board order, with the same `id` and `name` |
| Normalize.Normalized | src/App.js:814-849 | reference definition of one normalised item, field by field; `NormalizedIsPopulated`, `DefaultsWhenNoColumn` and `YearIsFirstFourDigits` state what it promises |
| Normalize.NumberOr | src/App.js:840-842 | reference definition of `parseInt(v) \|\| default`; its meaning is stated by `NumberField` and the `NumberOr...` lemmas |
| Normalize.YearOf | src/App.js:832-838 | reference definition of the year rule; `YearOfText` states it is the first four-digit run or `2025` |
| Normalize.NormalizeItem | src/App.js:814-849 | the `map` callback, step by step, yields `Normalized` |
| Normalize.NormalizedIsPopulated | src/App.js:835-848 | every field is filled, the year is four digits, the numbers are non-zero, and `productionCompany` and `distributionPartner` are absent |
| Normalize.FieldDefault | src/App.js:839-847 | a text or numeric field whose lookup yields null takes its default; with `NoMatchingColumn` this covers a field that no column answers to |
| Normalize.YearDefault | src/App.js:832-838 | a year whose lookup yields null is `2025` |
| Normalize.DefaultsWhenNoColumn | src/App.js:832-848 | each field whose lookup yields null (no column answers to it, or the first one that does holds null) takes its fixed default: 2025, Drama, 100, 50, 200, Development, TBD, Feature Film, Medium, Medium |
| Normalize.YearIsFirstFourDigits | src/App.js:832-838 | the year is the first run of four digits in the extracted text, or `2025` when there is none |
| Normalize.YearOfText | src/App.js:832-838 | the same, for the year text on its own |
| Normalize.YearOfReleaseNote | src/App.js:832-838 | "Q1 2027 release" gives 2027 |
| Normalize.NumberOrKeepsNegative | src/App.js:840-842 | "-5" is kept as -5 |
| Normalize.NumberOrReadsLeadingDigits | src/App.js:840-842 | " 12M" reads as 12: leading space skipped, trailing letters ignored |
| Normalize.NumberOrZeroFallsBack | src/App.js:840-842 | "0" is falsy and gives way to the default |
| Normalize.NumberOrNaNFallsBack | src/App.js:840-842 | a text without digits, and a null lookup, give way to the default |
| Normalize.NoLeadingDigit | src/App.js:840-842 | text that starts with an ASCII letter is NaN to `parseInt` |
| Normalize.NumberOrOfDecimal | src/App.js:840-842 | any integer written in decimal is read back unless it is 0, which falls back to the default |
| Aggregate.Add | src/App.js:1243-1246 | reference definition of one accumulation step: the item's budgets and revenue are added, and titles goes up by one |
| Aggregate.Roi | src/App.js:1251-1254 | reference definition of the ROI formula with its zero-investment guard; `RoiMeaning` states what it means |
| Aggregate.Table | src/App.js:1226-1267 | reference definition of the totals: one row per display year, each the sum over that year's items; `TitlesCountItems`, `TablePermutation` and `TotalMetricsCountsDisplayedItems` state its properties |
| Aggregate.TotalMetrics | src/App.js:190-196 | reference definition of `getTotalMetrics` as running sums over the totals; `TotalMetricsCountsDisplayedItems` states its meaning |
| Aggregate.CalculateYearTotals | src/App.js:1226-1267 | the three `forEach` loops build exactly `Table(items)` and its chart rows, in `YEARS` order |
| Aggregate.AccumulateStep | src/App.js:1240-1248 | one pass of the accumulation loop adds the item to its year's totals, or leaves all totals alone when its year is not displayed |
| Aggregate.TableAndRows | src/App.js:1251-1263 | totals and rows that agree with each year's totals and row are the table and its chart |
| Aggregate.TitlesCountItems | src/App.js:1240-1248 | a year's `titles` is the number of items filed under that year |
| Aggregate.SingleYear | src/App.js:1240-1248 | items all of one year count there and leave every other year at zero |
| Aggregate.OutsideYearsIgnored | src/App.js:1242 | an item whose year is not in `YEARS` changes no total |
| Aggregate.EmptyTable | src/App.js:1230-1238 | with no items every display year is all zero, ROI included |
| Aggregate.RoiMeaning | src/App.js:1251-1254 | ROI is exactly 0 when investment is not positive; otherwise ROI times investment is (revenue - investment) * 100, and ROI is positive exactly when revenue exceeds investment |
| Aggregate.AccumulatedAppend | src/App.js:1240-1248 | the totals of two batches add up |
| Aggregate.OrderIrrelevant | src/App.js:1240-1248 | swapping two batches of items leaves the totals as they were |
| Aggregate.AccumulatedRemove | src/App.js:1240-1248 | taking one item out of a batch takes exactly its contribution out of the year's totals |
| Aggregate.AccumulatedPermutation | src/App.js:1240-1248 | two batches with the same items, as a multiset, accumulate the same totals for every year |
| Aggregate.TablePermutation | src/App.js:1226-1267 | the totals do not depend on the order of the items: any permutation gives the same table |
| Aggregate.TwoTitleExample | src/App.js:1226-1267 | two 2025 titles (100, 50, 300) and (200, 0, 100) give (300, 50, 400), 2 titles, ROI 100/7 |
| Aggregate.AcrossStep | src/App.js:190-196 | one more item changes the sums over distinct years only when its year is one of them |
| Aggregate.YearsAreDistinct | src/App.js:238 | `YEARS` has no duplicates |
| Aggregate.AcrossIsInYears | src/App.js:190-196 | summing the accumulated totals over `YEARS` sums the items of the display years |
| Aggregate.TotalMetricsOfPrefix | src/App.js:190-196 | the running sums over the first k totals are the sums over the first k years |
| Aggregate.TotalMetricsCountsDisplayedItems | src/App.js:190-196 | `getTotalMetrics` gives the revenue, investment and number of exactly the items filed under a display year |
| Projection.Filter | src/App.js:1474-1478 | the result is no longer than the list and every item in it passes all three selections |
| Projection.FilterAppend | src/App.js:1474-1478 | filtering a concatenation filters each part and keeps their order |
| Projection.FilterSingle | src/App.js:1474-1478 | one item is kept exactly when it passes |
| Projection.FilterMembership | src/App.js:1474-1478 | an item is in the result exactly when it is in the list and passes |
| Projection.FilterAllIsIdentity | src/App.js:1474-1478 | with all three selections on `All` the list is unchanged |
| Projection.FilterIdempotent | src/App.js:1474-1478 | filtering twice changes nothing more |
| Projection.NonEmpty | src/App.js:1470-1471 | `.filter(Boolean)` drops exactly the empty strings |
| Projection.NonEmptyAppend | src/App.js:1470-1471 | `.filter(Boolean)` distributes over concatenation, so the kept strings stay in list order |
| Projection.NonEmptySingle | src/App.js:1470-1471 | a single string is kept exactly when it is non-empty |
| Projection.Options | src/App.js:1469-1471 | reference definition of an option list; `OptionsMeaning` states its meaning |
| Projection.OptionsMeaning | src/App.js:1469-1471 | an option list is `All` followed by each value once, in first-appearance order |
| Projection.YearOptionsOffer | src/App.js:1469 | every item's year is offered, the empty one included |
| Projection.GenreOptionsOffer | src/App.js:1470 | a genre is offered exactly when it is non-empty and some item has it |
| Projection.StatusOptionsOffer | src/App.js:1471 | a status is offered exactly when it is non-empty and some item has it |
| Projection.OfYear | src/App.js:1805-1809 | the items of one year all have that year |
| Projection.BucketAbsent | src/App.js:1806 | a year with no bucket reads as absent |
| Projection.PushKeys | src/App.js:1806-1807 | a push creates a bucket, at the end, only for a new year |
| Projection.PushBucket | src/App.js:1806-1807 | a push appends the item to its year's bucket and leaves the other buckets alone |
| Projection.GroupByYear | src/App.js:1805-1809 | reference definition of `itemsByYear` as a list of year buckets; `GroupKeys` and `GroupBuckets` state its meaning |
| Projection.GroupKeys | src/App.js:1805-1809 | the model's bucket list has one bucket per distinct year, in first-appearance order (the source only reads `itemsByYear[year]`, so its key order is never observed) |
| Projection.GroupBuckets | src/App.js:1805-1809 | each year's bucket holds exactly that year's items, in list order; other years have no bucket |
| Projection.OfYearSplits | src/App.js:1805-1809 | a year's bucket size is the number of items of that year |
| Projection.MoveTitle | src/App.js:1275-1277 | the list keeps its length, only `year` changes, and it changes to the new year exactly on the items with the id |
| Projection.MoveKeepsOthers | src/App.js:1275-1277 | items with another id are untouched |
| Projection.MoveIdempotent | src/App.js:1275-1277 | moving twice to the same year is moving once |
| Projection.MoveBack | src/App.js:1275-1277 | moving a title with a unique id and then moving it back restores the list |
| Projection.Merge | src/App.js:1541 | `{ ...item, ...editValues }`: each edited field takes the edit value; every other field is kept |
| Projection.MergeUnchanged | src/App.js:1485-1494 | saving the buffer as the editor filled it, or an empty buffer, leaves the item as it was |
| Projection.MergeIdempotent | src/App.js:1541 | merging the same buffer twice is merging it once |
| Projection.ApplyEdit | src/App.js:1539-1543 | the list keeps its length and every id, name and year; items with another id are untouched |
| Projection.EditKeepsYears | src/App.js:1539-1543 | an edit never moves a title between years |
| Projection.NextTheme | src/App.js:1577-1580 | the next theme is always one of the three themes |
| Projection.ThemeIndices | src/App.js:1577-1578 | regular, dark and night sit at indices 0, 1 and 2 |
| Projection.ThemeCycle | src/App.js:1577-1580 | regular goes to dark, dark to night, night to regular, and an unknown mode to regular |
| Projection.ThemeThreeSteps | src/App.js:1577-1580 | three presses return to a known theme; from an unknown mode they end on night |
| Columns.Without | src/App.js:1408 | the filtered list no longer holds the key |
| Columns.WithoutKeepsOthers | src/App.js:1408 | every other column stays exactly when it was there |
| Columns.WithoutAbsent | src/App.js:1408 | filtering out an absent key changes nothing |
| Columns.WithoutAppend | src/App.js:1408 | the filter distributes over concatenation |
| Columns.Toggle | src/App.js:1406-1412 | reference definition of the column toggle; `ToggleFlips` and `ToggleTwice` state its meaning |
| Columns.ToggleFlips | src/App.js:1406-1412 | a toggle flips the key's visibility and no other column's, and the preset becomes `custom` |
| Columns.ToggleTwice | src/App.js:1407-1409 | showing a hidden column and toggling it again gives back the same list |
| Columns.ChoosePreset | src/App.js:1425-1430 | reference definition of choosing a preset; `PresetMeaning` states its meaning |
| Columns.PresetMeaning | src/App.js:1425-1430 | a known preset replaces the columns and names itself active; an unknown key changes nothing |
| Columns.PresetsUseAvailableColumns | src/App.js:129-146 | every preset shows only available columns, each once |
| Columns.FindColumn | src/App.js:176 | `columns.find`: the first column, in board order, whose lower-cased title contains one of the names; none when no title does |
| Columns.AutoMapColumns | src/App.js:173-181 | the `for...in` loop with its inner `find` builds `AutoMapped(columns, COMMON_COLUMN_NAMES)` |
| Columns.FindColumnIsFirst | src/App.js:176 | a matching column with no match before it is what `find` returns |
| Columns.FindColumnNone | src/App.js:176 | with no matching column `find` fails |
| Columns.AutoMapped | src/App.js:173-181 | reference definition of `autoMapColumns`' result; `AutoMappedKeysFrom` and `AutoMappedMeaning` state its meaning |
| Columns.AutoMappedKeysFrom | src/App.js:173-181 | every mapped field is one of the field names |
| Columns.AutoMappedMeaning | src/App.js:173-181 | a field is mapped exactly when some column title names it, and then only to the first such column |
| Columns.MarketingBudgetTakenForProduction | src/App.js:164-171 | an alias quirk: `budget` lets a "Marketing Budget" column listed first be taken for the production budget |
| Palette.GenreColor | src/App.js:56-70 | the colour is always one of the eight colours |
| Palette.GenreColorTable | src/ExecutiveTimeline.js:12-26 | the i-th listed genre gets the i-th colour; any other string, and `Other`, gets `#34495e` |
| Calendar.DaysIn | src/CustomTimeline.jsx:50 | months have 28 to 31 days |
| Calendar.OrdIsChronological | src/CustomTimeline.jsx:42 | the order used for `d <= end` is the order of (year, month, day), and equal rank means the same day |
| Calendar.MonthStart | src/CustomTimeline.jsx:41 | the 1st of the same month, not after the date |
| Calendar.Fifteenth | src/CustomTimeline.jsx:65 | the 15th of the same month |
| Calendar.NextMonth | src/CustomTimeline.jsx:44 | `setMonth(+1)` on a 1st: the 1st of the next month, rolling December into January, strictly later |
| Calendar.NextDay | src/CustomTimeline.jsx:50 | `setDate(+1)`: the next day of the month, or the 1st of the next month after its last day, strictly later |
| Calendar.NextDayIsNext | src/CustomTimeline.jsx:50 | no calendar day lies strictly between a day and the next |
| Calendar.NextMonthIsNext | src/CustomTimeline.jsx:44 | no 1st of a month lies strictly between a 1st and the next month's |
| Calendar.YearWalkMeaning | src/CustomTimeline.jsx:37-39 | the year walk is Jan 1 of each year from the first to the last, last - first + 1 of them |
| Calendar.MonthWalkMeaning | src/CustomTimeline.jsx:41-45 | the month walk is 1sts, each the month after the last, from the start on, none after the end, stopping at the first one past it |
| Calendar.MonthWalkIncreases | src/CustomTimeline.jsx:41-45 | the month walk strictly increases |
| Calendar.DayWalkMeaning | src/CustomTimeline.jsx:46-51 | the day walk is consecutive days from the start, none after the end, stopping at the first one past it |
| Calendar.DayWalkComplete | src/CustomTimeline.jsx:46-51 | every day from the start to the end is on the day walk |
| Calendar.Earliest | src/CustomTimeline.jsx:169 | `Math.min` of the dates: one of them, and not after any |
| Calendar.Latest | src/CustomTimeline.jsx:170 | `Math.max` of the dates: one of them, and not before any |
| Calendar.ParseDate | src/CustomTimeline.jsx:27-31 | an empty text is no date; any other text is what the date parser gives |
| Records.FieldOr | src/CustomTimeline.jsx:91-94 | `item[key] \|\| fallback`: the field when present and non-empty, else the fallback |
| CustomTimeline.TimeTicks | src/CustomTimeline.jsx:33-54 | reference definition of `getTimeTicks`; `YearTicks`, `MonthTicksMeaning` and `DayTicksMeaning` state its meaning |
| CustomTimeline.GetTimeTicks | src/CustomTimeline.jsx:33-54 | the three loops compute `TimeTicks`: no ticks without both bounds, else the year, month or day walk |
| CustomTimeline.YearTicks | src/CustomTimeline.jsx:33-40 | no bound gives no ticks; at year zoom Jan 1 of each year from the start's year to the end's, end - start + 1 of them |
| CustomTimeline.MonthTicks | src/CustomTimeline.jsx:74-83 | reference definition of `getMonthTicks`; `MonthTicksMeaning` states its meaning |
| CustomTimeline.GetMonthTicks | src/CustomTimeline.jsx:74-83 | the loop computes `MonthTicks` |
| CustomTimeline.MonthTicksMeaning | src/CustomTimeline.jsx:41-45 | `getMonthTicks` agrees with month-zoom `getTimeTicks`: 1sts from the start's month, one month apart, strictly increasing, none after the end |
| CustomTimeline.DayTicksMeaning | src/CustomTimeline.jsx:46-51 | day-zoom ticks are all consecutive calendar days from the start to the end, inclusive |
| CustomTimeline.DayTicks | src/CustomTimeline.jsx:56-72 | reference definition of `getDayTicks`; `FirstsAreMonthWalk` and `FifteenthsInRange` state its meaning |
| CustomTimeline.GetDayTicks | src/CustomTimeline.jsx:56-72 | the loop computes `DayTicks` |
| CustomTimeline.DayMarksStep | src/CustomTimeline.jsx:61-70 | one pass adds the 1st, then the 15th when it is in range, and leaves the rest of the walk to do |
| CustomTimeline.LabelledAppend | src/CustomTimeline.jsx:63-67 | the ticks with one label distribute over concatenation |
| CustomTimeline.LabelledOne | src/CustomTimeline.jsx:63-67 | a single tick is selected exactly when it bears the label |
| CustomTimeline.FirstsAreMonthWalk | src/CustomTimeline.jsx:56-72 | the ticks labelled 1 are exactly the month walk from the start's month: every month's 1st, even one before the start |
| CustomTimeline.FifteenthsInRange | src/CustomTimeline.jsx:64-68 | a tick labelled 15 exists exactly for each 15th of a walked month that lies within [start, end] |
| CustomTimeline.FirstTickMayPrecedeStart | src/CustomTimeline.jsx:60-63 | when the start is past the 1st, the first day tick is still its month's 1st, before the start |
| CustomTimeline.SelectItems | src/CustomTimeline.jsx:87-88 | non-empty given items are used as they are; otherwise the mock titles when local, none in Monday |
| CustomTimeline.ColumnIdsOf | src/CustomTimeline.jsx:91-94 | each column id is the configured entry when it is present and non-empty, else its default (date, genre, revenue, title); without settings all four are the defaults; none is ever empty |
| CustomTimeline.PillOf | src/CustomTimeline.jsx:97-103 | the pill keeps the id; its title is the title field, else the name; its genre is the genre field, else `Other`; its revenue is `$` + the value, or empty when the value is; its date is the date field or empty |
| CustomTimeline.Pills | src/CustomTimeline.jsx:97-103 | one pill per item, same order |
| CustomTimeline.OfGenre | src/CustomTimeline.jsx:183 | a lane holds only pills of its genre |
| CustomTimeline.OfGenreMembership | src/CustomTimeline.jsx:183 | a pill is in the genre filter exactly when it is a pill of that genre |
| CustomTimeline.OfGenreAppend | src/CustomTimeline.jsx:183 | the genre filter keeps pill order |
| CustomTimeline.Lanes | src/CustomTimeline.jsx:181-185 | reference definition of the swim lanes; `LaneKeys`, `EveryPillHasItsLane` and `LaneContents` state its meaning |
| CustomTimeline.LaneKeys | src/CustomTimeline.jsx:181 | the lanes are the distinct pill genres, in first-appearance order |
| CustomTimeline.EveryPillHasItsLane | src/CustomTimeline.jsx:181-185 | every pill's genre has a lane |
| CustomTimeline.LaneContents | src/CustomTimeline.jsx:181-185 | a pill is in a lane exactly when it has that lane's genre, and lanes keep pill order |
| CustomTimeline.PillDates | src/CustomTimeline.jsx:168 | a date is in the list exactly when some pill's date parses to it; at most one per pill |
| CustomTimeline.Bounds | src/CustomTimeline.jsx:168-170 | with dates, the bounds are the earliest and the latest of them; without, both are null |
| CustomTimeline.AxisOf | src/CustomTimeline.jsx:168-178 | reference definition of the three tick lists drawn; `AxisMeaning` states its meaning |
| CustomTimeline.AxisMeaning | src/CustomTimeline.jsx:168-178 | with no parsable date there are no ticks; away from day zoom there are no day or month ticks |
| CustomTimeline.RenderScreen | src/CustomTimeline.jsx:157-162 | settings mode shows the settings panel first; otherwise missing settings show the configure prompt; otherwise the timeline |
| ExecutiveTimeline.InitialDateKey | src/ExecutiveTimeline.js:61-64 | without columns, `releaseDate`; a given list whose first key is non-empty gives that key; an empty list or empty first key gives `releaseDate`; the key is never empty and is `releaseDate` or the key of an offered column |
| ExecutiveTimeline.InitialDateKeyDefaults | src/ExecutiveTimeline.js:61-64 | with no date columns, or an empty list, the key is `releaseDate` |
| ExecutiveTimeline.DatesOf | src/ExecutiveTimeline.js:36 | a date is in the list exactly when some item's date field parses to it; at most one per item |
| ExecutiveTimeline.YearTicks | src/ExecutiveTimeline.js:41-44 | one tick per year, captioned with the year in decimal |
| ExecutiveTimeline.CaptionedTicks | src/ExecutiveTimeline.js:45-57 | one tick per walked date, carrying that date |
| ExecutiveTimeline.YearTicksStep | src/ExecutiveTimeline.js:42-43 | the year ticks start with this year's tick, then the rest |
| ExecutiveTimeline.CaptionedTicksStep | src/ExecutiveTimeline.js:47-49 | the captioned ticks start with this date's tick, then the rest |
| ExecutiveTimeline.TimeTicks | src/ExecutiveTimeline.js:34-59 | reference definition of `getTimeTicks`; `YearTicksMeaning`, `MonthTicksMeaning`, `DayTicksMeaning` and `NoDatesNoTicks` state its meaning |
| ExecutiveTimeline.GetTimeTicks | src/ExecutiveTimeline.js:34-59 | the method computes `TimeTicks`: the undated items are dropped, then the walk goes from the earliest date to the latest |
| ExecutiveTimeline.YearLoop | src/ExecutiveTimeline.js:41-44 | the `for` loop yields the year ticks from the first year to the last |
| ExecutiveTimeline.MonthLoop | src/ExecutiveTimeline.js:45-50 | the `while` loop yields the captioned month walk |
| ExecutiveTimeline.DayLoop | src/ExecutiveTimeline.js:51-56 | the `while` loop yields the captioned day walk |
| ExecutiveTimeline.UndatedItemsIgnored | src/ExecutiveTimeline.js:36 | an item whose date field is missing or does not parse adds no date |
| ExecutiveTimeline.NoDatesNoTicks | src/ExecutiveTimeline.js:36-37 | with no parsable date there are no ticks, at any zoom |
| ExecutiveTimeline.NoDates | src/ExecutiveTimeline.js:36 | items with no parsable date give no dates |
| ExecutiveTimeline.YearTicksMeaning | src/ExecutiveTimeline.js:38-44 | at year zoom: max - min + 1 ticks, the i-th on Jan 1 of year min + i and captioned with it |
| ExecutiveTimeline.YearCaptionsReadBack | src/ExecutiveTimeline.js:43 | each year caption reads back as its tick's year |
| ExecutiveTimeline.MonthTicksMeaning | src/ExecutiveTimeline.js:45-50 | at month zoom: from the 1st of the earliest date's month, 1sts only, strictly increasing, none after the latest date |
| ExecutiveTimeline.DayTicksMeaning | src/ExecutiveTimeline.js:51-56 | at day zoom: from the earliest date, consecutive days, none after the latest date |
| ExecutiveTimeline.GenreOf | src/ExecutiveTimeline.js:84 | `item.genre \|\| 'Other'` is never empty |
| ExecutiveTimeline.GenresList | src/ExecutiveTimeline.js:77 | the distinct genres: no duplicates, none empty, every item's genre present, in first-appearance order |
| ExecutiveTimeline.GenreItems | src/ExecutiveTimeline.js:80-89 | the `forEach` loops build `GenreBuckets`: one bucket per listed genre, in that order |
| ExecutiveTimeline.BucketsBeforeAndAfter | src/ExecutiveTimeline.js:81-82 | before the loop every bucket is empty; after all items they are the genre buckets |
| ExecutiveTimeline.PushItem | src/ExecutiveTimeline.js:83-87 | the callback takes the buckets of n items to those of n + 1 |
| ExecutiveTimeline.BucketsStep | src/ExecutiveTimeline.js:83-87 | pushing a dated item onto its genre's bucket, or skipping an undated one, gives the buckets of one more item |
| ExecutiveTimeline.DatedOfGenreStep | src/ExecutiveTimeline.js:86 | one more item extends only its own genre's bucket, and only when its date parses |
| ExecutiveTimeline.GenreBuckets | src/ExecutiveTimeline.js:80-89 | reference definition of `genreItems`; `BucketKeys` and `DatedOfGenreMembership` state its meaning |
| ExecutiveTimeline.BucketKeys | src/ExecutiveTimeline.js:80-89 | the buckets have exactly the keys of `genresList` |
| ExecutiveTimeline.DatedOfGenreMembership | src/ExecutiveTimeline.js:83-87 | an item is in a genre's bucket exactly when it has that genre and its date parses, and then with that date |
| Sample.SampleIdsArePreview | src/App.js:875-1205 | 20 preview titles, every id starting with `sample` |
| Sample.SampleYears | src/App.js:875-1205 | the years of the preview titles, in list order |
| Sample.RunsHaveOneYear | src/App.js:875-1205 | the preview slate comes in runs of one year each: 2024 to 2028 |
| Sample.SampleIsRuns | src/App.js:875-1205 | a year's totals on the preview slate add up the totals of the runs |
| Sample.RunContributes | src/App.js:1240-1248 | a run counts its length toward its own year and nothing toward any other |
| Sample.YearTitles | src/App.js:1240-1248 | a year's title count on the preview slate adds up what each run contributes |
| Sample.RunTitles | src/App.js:1240-1248 | a display year's title count on the preview slate is the length of its run |
| Sample.SampleTitlesPerYear | src/App.js:875-1205 | the preview slate shows 5, 4, 3, 4 and 0 titles in 2025 to 2029; its four 2024 titles count nowhere |
| DataSource.ContextBoard | src/App.js:300-302 | the board is `boardId` when truthy, else the first of `boardIds`, else none |
| DataSource.Dashboard.constructor | src/App.js:205-234 | the first render: no items, loading, no error, not bypassed, no board, no editor |
| DataSource.Dashboard.SetItems | src/App.js:855-856 | the items, and their totals and chart from `calculateYearTotals`; nothing else changes |
| DataSource.Dashboard.LoadSample | src/App.js:872-1224 | the preview slate with its totals, loading off, no error |
| DataSource.Dashboard.BeginFetch | src/App.js:779-781 | loading is switched on and one more fetch is in flight |
| DataSource.Dashboard.Start | src/App.js:254-276 | dev mode outside Monday, or a failed SDK, shows the preview slate with the troubleshooter bypassed; otherwise the timer and the context request are armed, with items, totals, loading and bypass as they were; the board, the fetch count and the editor are unchanged on both paths |
| DataSource.Dashboard.Timeout | src/App.js:284-291 | the timer shows the preview slate with its totals and sets `initialized`, unless the context came first, when it changes nothing; the board, fetch count, armed and started flags and the editor are unchanged |
| DataSource.Dashboard.ContextResolved | src/App.js:294-323 | too late after the timer changes nothing; a board is fetched; no board shows the preview slate; a null context sets `initialized` and leaves every other field as it was; on every path the armed and started flags and the editor are unchanged |
| DataSource.Dashboard.ContextRejected | src/App.js:324-331 | a rejected context request shows the preview slate with its totals and sets `initialized`, unless the timer came first, when it changes nothing; the board, fetch count, armed and started flags and the editor are unchanged |
| DataSource.Dashboard.ContextChanged | src/App.js:339-351 | every non-empty board id starts a fetch, even the board already shown, leaving items, totals, error, bypass, `initialized`, the flags and the editor as they were; an empty one changes nothing |
| DataSource.Dashboard.FetchSettled | src/App.js:800-869 | a non-empty board shows its normalised items; every failure, and an empty board, shows the preview slate; loading ends with no error, the totals are those of the items shown, and the board, bypass, flags and editor are unchanged |
| DataSource.Dashboard.LoadDemoClicked | src/App.js:1779-1785 | the "Load Demo Mode" button of the loading screen shows the preview slate with its totals and the troubleshooter bypassed; the board, fetch count, flags and editor are unchanged |
| DataSource.Dashboard.MoveTitleTo | src/App.js:1269-1331 | the move is applied to the list at once; an unknown id, or a failed board update of a board title, refetches the board; the totals follow the moved list, and the board, bypass, flags and editor are unchanged |
| DataSource.Dashboard.EditStarted | src/App.js:1485-1494 | the editor opens on the item with its four editable fields copied; every other field is unchanged |
| DataSource.Dashboard.EditCancelled | src/App.js:1564-1567 | the editor closes and the buffer empties; every other field is unchanged |
| DataSource.Dashboard.EditSaved | src/App.js:1496-1562 | a preview title only closes the editor; a board title is merged once the update succeeds, with the totals of the merged list; a failed update changes nothing; the buffer, loading, board, bypass and flags are unchanged on every path |
| DataSource.Dashboard.ColumnMappingClicked | src/App.js:1832-1835 | in dev mode with the troubleshooter bypassed, the floating label un-bypasses it; otherwise, and for every other field, nothing changes |
| DataSource.DevModeRun | src/App.js:262-268 | local development shows the preview slate at once and arms nothing |
| DataSource.TimeoutWinsRun | src/App.js:282-298 | when the timer fires first, a later context with a board changes nothing |
| DataSource.ContextWinsRun | src/App.js:294-316 | when a context with a board comes first, the board is fetched and the late timer does nothing |
| DataSource.EmptyBoardRun | src/App.js:851-853 | a board with no items ends on the preview slate |
| DataSource.BoardLoadedRun | src/App.js:814-858 | a board with items shows them normalised, one per board item, with their totals |
| DataSource.NoBoardRun | src/App.js:319-323 | a context with no board ends on the preview slate |
| DataSource.NullContextRun | src/App.js:294-331 | a null context leaves the dashboard loading, with no items |
| DataSource.SameBoardRefetchRun | src/App.js:339-351 | the listener refetches the board already shown |
| DataSource.SampleMoveRun | src/App.js:1275-1290 | moving a preview title moves it locally and never refetches |

## Left out

- Monday SDK traffic is not modelled: `safeApiCall`, `monday.get`, `listen`, `execute` and `setSettings`, and the GraphQL query and mutation strings. API outcomes are parameters: `FetchOutcome`, `updateSucceeds` and the context value. Notices are omitted.
- Timers, the 100 ms start-up delay and async scheduling are not concurrency here. Each callback is one `Dashboard` method that runs whole, in any order the caller picks.
- The board response can also fail because `column_values` is missing on an item, and the catch then falls back to the preview slate. `BoardItem` always has a list of column values, so that path is not distinguished from the other failures.
- The `updating` flag, `draggedItem`, `editingItem` rendering and all other purely presentational state are left out, as are JSX rendering, drag and touch handlers, theme class toggling and PPTX/canvas export.
- Float numerics are left out. `formatCurrency` and `calculateROI` (`toFixed`), `getYoYGrowth`, `getMovingAverage` and the pie-label trigonometry are not modelled.
- Aggregate.Roi: exact real division; the JavaScript double rounding is not modelled.
- Projection.Merge: money fields are integers. `handleEditChange` parses them with `parseFloat`, and that parsing, with its fractional values, is not modelled. The edit buffer holds only the four fields the editor fills.
- Aggregate.Add: reads revenue as the projected revenue. The `revenue` fallback of `projectedRevenue || revenue || 0` is not modelled, because no slate item carries `revenue`. Budgets are integers, so `|| 0` only matters for missing fields, and slate items have none.
- `parseInt` works on unbounded integers. Precision loss above 2^53 and exponent notation (`parseInt` stops at `e` anyway) are not modelled.
- `toLowerCase` is modelled for ASCII letters only.
- `Object.entries` moves integer-like keys to the front, and `totals[year]` and `COLUMN_PRESETS[presetKey]` are truthy for prototype names such as `constructor`. Objects are association lists in insertion order, so none of these quirks is modelled. For `handlePresetChange("constructor")` the source would set the visible columns to `undefined` and name `constructor` the active preset; the model changes nothing, as for any other unknown key.
- Columns.PresetMeaning: `handleColumnToggle` and `handlePresetChange` (src/App.js:1406, 1425) are defined but not called anywhere in src/App.js; they are modelled as written.
- The troubleshooter screen for missing columns (src/App.js:1666-1745) sits inside `if (false)`, so it is never shown and its "Load Demo Dashboard" button is not a live event. It is not modelled.
- Records of the timeline components map field names to strings, so an `id` or a revenue given as a number is its decimal text. A numeric 0 (falsy in JavaScript) is not distinguished from the string "0".
- `YearStart` and the year walk keep the year as it is. `new Date(y, 0, 1)` maps years 0 to 99 to 1900 + y, and that is not modelled; `parseDate` is a parameter, so nothing bounds the years it yields.
- JavaScript `Date` parsing, time zones, daylight saving and time of day are not modelled. `parseDate` is a parameter from text to a calendar day, and the model makes the empty text no date. `toLocaleString` captions are parameters too.
- CustomTimeline.jsx's own `GENRE_COLORS`, zoom thresholds, wheel handling, pixel and percent positions, and the settings and context listeners that set settings mode are not modelled. Settings mode is a parameter of the render gate.
- Columns.AutoMapColumns: the mapping is a list of (field, column id) pairs in key order rather than an object. `autoMapColumns` is only called from commented-out code.
- Commented-out blocks of src/App.js (357-515, 518-552, 640-703, 706-777) are not live code and are not modelled. That includes the column-mapping precedence.
- src/TimelineSettingsPanel.js, src/VerticalTimeline.js, src/CalendarTimeline.js, src/SimpleUI.jsx and the build scripts are not part of this model.
