# Immunisation dashboard aggregation engine, in Dafny

This project models the aggregation engine of a browser dashboard for two
immunisation programmes:

- **BIAS** is the school-based programme. Its records come in measles
  (campak), DT, TD and HPV arrays, and the HPV arrays are split by school
  grade.
- **UCI** is the infant programme. It has antigen families (rv, rotarix,
  pcv, je, heksavalen), the under-two booster, hb0/bcg and tt, each keyed
  by calendar year.

The user picks a health centre (puskesmas), a year and a category. The
engine then does four things:

1. It filters the raw records.
2. It sums the record fields into achieved (`s`), absent or lost (`t`) and
   target (`sasaran`) figures.
3. It combines the BIAS and UCI figures into header totals and a percentage.
4. It feeds several charts from the same data: the yearly trend, the reasons
   for non-immunisation, the sex breakdown of UCI losses, the per-centre
   bars, and the options of the health-centre selector.

The model covers these parts:

- A JSON record is a `map<string, Value>`, where a value is a number or a
  text.
- `Number(d[k]) || 0` is `JsValues.FieldNum`.
- `a || b || c` over name fields is `JsValues.FirstTruthy`.
- Every `reduce` is a left fold (`SumField`, `RecordKeySum`, `KeySum`).
- Where the program accumulates into a local total inside `forEach` loops,
  the model is a method with loops and invariants, proved against the fold
  it computes. These are `sumS`, `sumT_Uci`, `sumAlasan`,
  `getCapaianAllUCI` and the filling of the option set.
- The module-level `cachedData` is the field of the class `Dashboard.Page`.
  Loading the JSON assigns it, and the filter-change handler reads it.

Modules, in dependency order:

| Module | What it models |
|---|---|
| `JsValues` | values and records, the folds |
| `Normalizer` | `normalizePuskesmasName` |
| `RecordFilter` | the `filterArray` closure |
| `Views` | the dataset and the category-gated filtered views |
| `BiasAggregator` | `processDataBIAS` |
| `UciAggregator` | `processDataUCI` |
| `Composite` | the header totals and the percentage |
| `Dashboard` | `cachedData`, loading, and the handler |
| `Reasons` | the reasons chart |
| `GenderChart` | the UCI sex chart |
| `Trend` | the yearly trend chart |
| `BarChart` | the per-centre bars |
| `FilterOptions` | the selector options |

In two places the code does something other than what its comments and
its field lists suggest. The model follows the code both times:

- **The percentage.** The comment on line 121 of `Frontend/script.js`
  gives the formula as achieved over target. Line 122 divides the target by
  the achieved count instead, and the guard on line 120 tests the target,
  not the divisor. So a positive target with nothing achieved divides by
  zero (see Findings). The handler model shows the card as written
  (`Composite.Totals.PercentCard`); the intended value is kept beside it
  (`Composite.Totals.IntendedPercent`).
- **The loss fallback.** The spelling chains on lines 225-232 read
  `Number(d[a]) || Number(d[b]) || 0`. This looks like "take whichever
  spelling is present", but `||` also skips a field that holds 0, so the
  first non-zero spelling wins (`UciAggregator.FirstNonzero`).

The card and the sex chart also treat `bumil_menolak` differently. It is a
spelling of the male refusal slot in the card (`sumT_Uci`), but of the
female one in the sex chart. The model keeps each as written, and
`GenderChart.RefusedRegrouped` shows that the two sums agree.

## Model

| member | source | states |
|---|---|---|
| JsValues.FirstTruthy | Frontend/script.js:70 | `a \|\| b \|\| c` yields a truthy value, and yields one exactly when some listed field holds a truthy value |
| JsValues.Truthy | Frontend/script.js:70 | JavaScript truthiness of a field value: a non-zero number or a non-empty text; characterised through `FirstTruthy` and `DecimalString` |
| JsValues.FieldNum | Frontend/script.js:152 | `Number(x) \|\| 0`: a numeric field's value, 0 for a missing or text field; `SumFieldAbsent` states the zero case |
| JsValues.SumField | Frontend/script.js:152 | `sumT`, the `reduce` over an array; characterised by `SumFieldEmpty`, `SumFieldAppend`, `SumFieldAbsent` and `SumFieldNonNeg` |
| JsValues.KeySum | Frontend/script.js:1124-1132 | `sumUciMultiKey`; characterised by `KeySumAppend`, `KeySumByField`, `KeySumSingle` and `KeySumNonNeg`, and by `GenderChart.KeySumIsSpellingSum` |
| JsValues.DecimalString | Frontend/script.js:31 | `toString()` of a number is a non-empty text, so a numeric name is never falsy after conversion |
| JsValues.SumFieldEmpty | Frontend/script.js:152 | `sumT` of an empty array is 0 |
| JsValues.SumFieldAppend | Frontend/script.js:152 | `sumT` is additive over concatenation of arrays |
| JsValues.SumFieldAbsent | Frontend/script.js:152 | a field that no record holds as a number sums to 0 (`Number(x) \|\| 0`) |
| JsValues.SumFieldNonNeg | Frontend/script.js:152 | with non-negative fields `sumT` is non-negative |
| JsValues.RecordKeySumNonNeg | Frontend/script.js:1124-1132 | one record's subtotal over several keys is non-negative for non-negative fields |
| JsValues.KeySumAppend | Frontend/script.js:1124-1132 | `sumUciMultiKey` is additive over concatenation of arrays |
| JsValues.KeySumByField | Frontend/script.js:1124-1132 | summing several keys at once equals summing each key separately |
| JsValues.KeySumSingle | Frontend/script.js:1124-1132 | with a single key `sumUciMultiKey` is `sumT` |
| JsValues.KeySumNonNeg | Frontend/script.js:1124-1132 | with non-negative fields `sumUciMultiKey` is non-negative |
| Normalizer.ToUpper | Frontend/script.js:31 | same length; every lower-case ASCII letter becomes its own capital (the code 32 below it); every other character unchanged |
| Normalizer.Trim | Frontend/script.js:31 | the result neither starts nor ends with white space, is no longer than the input, and keeps upper case |
| Normalizer.ReplaceTrailingNumeral | Frontend/script.js:33 | one `\s<numeral>$` replacement never lengthens the name and keeps it upper case |
| Normalizer.RewriteRoman | Frontend/script.js:33 | the three chained numeral rewrites never lengthen the name and keep it upper case |
| Normalizer.StripPrefix | Frontend/script.js:35 | removing the prefix never lengthens the name and keeps it upper case |
| Normalizer.Normalize | Frontend/script.js:29-37 | a falsy name gives `""`; the key is never longer than the name and holds no lower-case letter |
| Normalizer.RewriteRomanAtMostOnce | Frontend/script.js:33 | a trailing ` I`, ` II` or ` III` becomes ` 1`, ` 2` or ` 3`, at most one rewrite applies, and any other name is unchanged |
| Normalizer.StripPrefixOnce | Frontend/script.js:35 | exactly one leading `PUSKESMAS ` or `PUKESMAS ` is removed, the first spelling tried first; otherwise the name is unchanged |
| Normalizer.TrimUnique | Frontend/script.js:31 | `trim()` of a name padded with white space on both sides is exactly the name |
| Normalizer.TrimIdempotent | Frontend/script.js:31 | trimming twice is trimming once |
| Normalizer.ToUpperIdempotent | Frontend/script.js:31 | upper-casing twice is upper-casing once |
| Normalizer.TrimSplit | Frontend/script.js:31 | every string is its trimmed middle between two runs of white space |
| Normalizer.TrimPadding | Frontend/script.js:31 | extra white space on either side does not change `trim()` |
| Normalizer.NormalizeIgnoresCase | Frontend/script.js:29-37 | an upper-cased name has the same key as the name |
| Normalizer.NormalizeIgnoresPadding | Frontend/script.js:29-37 | white space around the name does not change its key |
| Normalizer.NormalizeRomanAndPrefix | Frontend/script.js:29-37 | `"Puskesmas Gamping I"` normalises to `"GAMPING 1"` |
| Normalizer.NormalizeMisspeltPrefix | Frontend/script.js:29-37 | `"PUKESMAS GAMPING 1"` normalises to `"GAMPING 1"` |
| Normalizer.NormalizeTrailingBlanks | Frontend/script.js:29-37 | trailing blanks do not change the key of `"Pukesmas Gamping 1"` |
| Normalizer.NormalizeMixedCase | Frontend/script.js:29-37 | `"Pukesmas Gamping 1"` and `"PUKESMAS GAMPING 1"` share a key |
| Normalizer.NormalizeSpellingsAgree | Frontend/script.js:29-37 | both spellings of the same centre meet at `"GAMPING 1"` |
| Normalizer.NormalizeBareName | Frontend/script.js:29-37 | a selector value without the prefix is only upper-cased |
| RecordFilter.NormalizeValue | Frontend/script.js:70 | the key of a possibly missing name: `""` when missing, else the normalised text; see `Normalizer.Normalize` |
| RecordFilter.NameKeyOf | Frontend/script.js:70 | the key of a record's first truthy name; `FilterKeepsOnlySelectedCentre` states what the filter does with it |
| RecordFilter.MatchPusk | Frontend/script.js:70 | `matchPusk`: every centre selected, or the record's key equals the selected key; used in `FilterRecords`' contract |
| RecordFilter.MatchYear | Frontend/script.js:71 | `matchYear`: no year selected, no year context, or the two equal; `FilterOtherYearIsEmpty` and `FilterYearContextIrrelevant` are about it |
| RecordFilter.FilterArray | Frontend/script.js:69-73 | `filterArray`: a missing array reads as `[]`, then `FilterRecords`; characterised by `FilterMissingArray`, `FilterRecords`, `FilterIsSubsequence`, `FilterIdempotent` and `FilterAppend` |
| RecordFilter.FilterRecords | Frontend/script.js:69-73 | the filter never lengthens the array, and a record is kept exactly when it is in the input and matches both centre and year |
| RecordFilter.FilterIsSubsequence | Frontend/script.js:69-73 | the result is a subsequence of the input: nothing fabricated, order kept |
| RecordFilter.FilterMissingArray | Frontend/script.js:69 | a null or undefined array filters to `[]` |
| RecordFilter.FilterIdempotent | Frontend/script.js:69-73 | filtering twice with the same selection is filtering once |
| RecordFilter.FilterAllIsIdentity | Frontend/script.js:70-71 | with every centre selected and a matching year, the filter returns its input |
| RecordFilter.FilterOtherYearIsEmpty | Frontend/script.js:71 | two concrete, different years give `[]` whatever the centre |
| RecordFilter.FilterKeepsOnlySelectedCentre | Frontend/script.js:70 | unless the selection is `'all'`, every kept record's first truthy name field normalises to `normalizedSelected` |
| RecordFilter.FilterAppend | Frontend/script.js:69-73 | filtering commutes with concatenation |
| RecordFilter.FilterAllKeepsSums | Frontend/script.js:69-73 | with every centre selected and a matching year, every field sum is unchanged by the filter |
| RecordFilter.FilterYearContextIrrelevant | Frontend/script.js:71 | with every year selected, the year context does not change what is kept |
| RecordFilter.FilterSnoc | Frontend/script.js:69-73 | filtering one more record appends it exactly when it matches |
| Views.BuildBiasView | Frontend/script.js:76-88 | the filtered BIAS arrays; characterised by `BiasViewGatedOff` and `BiasViewSelectAll` |
| Views.BuildUciView | Frontend/script.js:91-109 | the filtered UCI slots, each with its year context; characterised by `UciViewGatedOff`, `UciViewSelectAll`, `UciViewYear2024` and `OtherYearSlot` |
| Views.BiasViewGatedOff | Frontend/script.js:76-88 | a category other than `'all'`/`'bias'` empties every BIAS array |
| Views.UciViewGatedOff | Frontend/script.js:91-109 | a category other than `'all'`/`'uci'` empties every UCI slot |
| Views.BiasViewSelectAll | Frontend/script.js:76-88 | with every centre selected the BIAS view is the raw data, with missing arrays as `[]`, for any year |
| Views.SlotSelectAll | Frontend/script.js:91-109 | with every centre and year selected a slot is the raw array of its year |
| Views.UciViewSelectAll | Frontend/script.js:91-109 | with every centre and year selected the UCI view is the raw data, slot by year slot |
| Views.UciViewYear2024 | Frontend/script.js:91-109 | selecting 2024 empties every slot read at 2017, 2022, 2023 or 2025 |
| Views.OtherYearSlot | Frontend/script.js:91-109 | under a 2024 selection a slot read at another year is empty |
| BiasAggregator.ProcessBias | Frontend/script.js:151-185 | `processDataBIAS`; characterised by `SasaranIsSumOfGrades`, `ProcessBiasEmpty`, `ProcessBiasAdditive`, `ProcessBiasNonNeg` and `HpvCountsAsFemale` |
| BiasAggregator.SasaranIsSumOfGrades | Frontend/script.js:155-179 | `sasaran_bias` is the sum of the five entries of `detail_sasaran` |
| BiasAggregator.ProcessBiasEmpty | Frontend/script.js:151-185 | an empty view gives all-zero figures and `detail_sasaran = [0,0,0,0,0]` |
| BiasAggregator.TargetsAdditive | Frontend/script.js:155-159 | each per-grade target of two concatenated views is the sum of the two |
| BiasAggregator.AchievedAdditive | Frontend/script.js:164-170 | each per-vaccine achieved count of two concatenated views is the sum of the two |
| BiasAggregator.AbsentAdditive | Frontend/script.js:165-171 | each per-vaccine absent count of two concatenated views is the sum of the two |
| BiasAggregator.CountsAdditive | Frontend/script.js:176-177 | `total_s` and `total_t` are additive over concatenated views |
| BiasAggregator.SasaranAdditive | Frontend/script.js:178-179 | `sasaran_bias` and every entry of `detail_sasaran` are additive over concatenated views |
| BiasAggregator.JkAdditive | Frontend/script.js:180-183 | the counts by sex are additive over concatenated views |
| BiasAggregator.ProcessBiasAdditive | Frontend/script.js:151-185 | the whole result over two concatenated views is the field-wise sum of the two results |
| BiasAggregator.ProcessBiasNonNeg | Frontend/script.js:175-183 | with non-negative fields every figure is non-negative and `jk.P >= hpv_s` |
| BiasAggregator.HpvCountsAsFemale | Frontend/script.js:180-183 | replacing the HPV arrays leaves `jk.L` unchanged and moves `jk.P` by exactly the change in `hpv_s` |
| UciAggregator.FirstNonzero | Frontend/script.js:225-232 | one slot's `Number(d[a]) \|\| Number(d[b]) \|\| 0` chain; characterised by `FirstNonzeroPicksFirst`, `FirstNonzeroNone`, `FirstNonzeroAbsent` and `FirstNonzeroVersusAllSpellings` |
| UciAggregator.RecordLoss | Frontend/script.js:225-234 | one record's died, moved-away and refused count; characterised by `LossOfSingleDeathField` and `LossNoDoubleCount` |
| UciAggregator.ArrayLoss | Frontend/script.js:217-239 | the loss of one array; characterised by `ArrayLossAppend` and `ArrayLossNonNeg` |
| UciAggregator.GroupLoss | Frontend/script.js:217-239 | the loss of a group of arrays, `sumT_Uci`; `SumTUci` is proved equal to it and `GenderChart.GroupLossAppend` states its additivity |
| UciAggregator.UciOf | Frontend/script.js:187-260 | `processDataUCI`; characterised by `TotalsOfEight`, `UciOfEmpty`, `UciOfAdditive` and `UciOfNonNeg`, and `ProcessUci` is proved equal to it |
| UciAggregator.SumS | Frontend/script.js:212-216 | the nested loops return the sum of every listed key of every record of every array, and 0 for a missing group |
| UciAggregator.SumTUci | Frontend/script.js:217-239 | the nested loops return the first-nonzero loss of every record of every array, and 0 for a missing group |
| UciAggregator.ProcessUci | Frontend/script.js:187-260 | the result is the eight-group totals, the five live-birth targets added up, and `jk = {L:0,P:0}` |
| UciAggregator.FirstNonzeroPicksFirst | Frontend/script.js:222-230 | the first spelling with a non-zero value is counted and later spellings are ignored, with a 0 falling through |
| UciAggregator.FirstNonzeroNone | Frontend/script.js:222-230 | when every spelling is zero, missing or non-numeric, the slot counts 0 |
| UciAggregator.FirstNonzeroVersusAllSpellings | Frontend/script.js:222-230 | with non-negative fields the fallback counts no more than all spellings added, and the same when at most one spelling is non-zero |
| UciAggregator.FirstNonzeroAbsent | Frontend/script.js:222-230 | a record without any spelling of a slot counts 0 in it |
| UciAggregator.LossOfSingleDeathField | Frontend/script.js:217-239 | a record holding only one male-death field loses exactly that count, whichever spelling it uses |
| UciAggregator.LossAcrossSpellings | Frontend/script.js:217-239 | two records of one group, in different year slots and spelling the field differently, are each counted once |
| UciAggregator.LossNoDoubleCount | Frontend/script.js:222-223 | a record carrying both spellings of a slot counts only the first |
| UciAggregator.TotalsOfEight | Frontend/script.js:255-256 | UCI `total_s` and `total_t` are the sums of `s` and `t` over the eight groups |
| UciAggregator.UciOfEmpty | Frontend/script.js:187-260 | an empty view gives all-zero figures |
| UciAggregator.ArrayLossAppend | Frontend/script.js:217-239 | the loss of a concatenation is the sum of the losses |
| UciAggregator.ArrayLossNonNeg | Frontend/script.js:217-239 | with non-negative fields the loss is non-negative |
| UciAggregator.EarlyGroupsAdditive | Frontend/script.js:242-245 | the `s` and `t` of rv, rotarix, pcv and je are additive over concatenated views |
| UciAggregator.LateGroupsAdditive | Frontend/script.js:246-249 | the `s` and `t` of heksavalen, booster, hb0_bcg and tt are additive over concatenated views |
| UciAggregator.EarlyTargetsAdditive | Frontend/script.js:191-199 | the 2017, 2022 and 2023 live-birth targets are additive over concatenated views |
| UciAggregator.LateTargetsAdditive | Frontend/script.js:200-210 | the 2024 and 2025 targets are additive over concatenated views |
| UciAggregator.UciOfAdditive | Frontend/script.js:254-259 | `total_s`, `total_t` and `sasaran_uci` are additive over concatenated views, and `jk` stays zero |
| UciAggregator.UciOfNonNeg | Frontend/script.js:187-260 | with non-negative fields every UCI figure is non-negative |
| Composite.Combine | Frontend/script.js:116-135 | the combined header figures (achieved, absent, target and the counts by sex); characterised by `CombinedJkIsBiasJk`, `CombineBiasOnly`, `CombineUciOnly` and `CombinedPercentCard` |
| Composite.CompositePercent | Frontend/script.js:119-123 | as written: 0 when the combined target is not positive, and +Infinity exactly when the target is positive and nothing was achieved |
| Composite.CoveragePercent | Frontend/script.js:119-123 | corrected: 0 without a positive target, between 0 and 100 when achieved is within the target, 100 at the target, 0 with nothing achieved |
| Composite.CoverageMonotone | Frontend/script.js:119-123 | the corrected percentage grows with the achieved count |
| Composite.CompositeIsReciprocal | Frontend/script.js:122 | with both counts positive the formula as written times the intended one is 10000 |
| Composite.CompositePercentInverted | Frontend/script.js:122 | target 200 with 100 achieved shows 200 %, where 50 % is meant |
| Composite.CompositePercentDividesByZero | Frontend/script.js:122 | target 10 with 0 achieved divides by zero (+Infinity), where 0 % is meant |
| Composite.CombinedJkIsBiasJk | Frontend/script.js:135 | the sex chart receives the BIAS counts by sex, since the UCI side contributes zero |
| Composite.CombineBiasOnly | Frontend/script.js:116-117 | with the UCI side empty the combined figures are the BIAS figures |
| Composite.CombineUciOnly | Frontend/script.js:116-117 | with the BIAS side empty the combined figures are the UCI figures |
| Composite.Totals.PercentCard | Frontend/script.js:119-129 | the percentage card as written: 0 without a positive target, +Infinity exactly when the target is positive and nothing was achieved |
| Composite.Totals.IntendedPercent | Frontend/script.js:121 | the percentage the comment on line 121 asks for; `CoveragePercent` bounds it and `CardVersusIntended` relates it to the card |
| Composite.CombinedPercentCard | Frontend/script.js:116-122 | the combined card divides the added targets by the added achieved counts |
| Composite.CardVersusIntended | Frontend/script.js:119-122 | with both counts positive, the card times the intended percentage is 10000 |
| Dashboard.RefreshOf | Frontend/script.js:56-129 | the handler's outcome; `Page.HandleFilterChange` is proved equal to it, and `NothingBeforeLoad`, `MissingSubtreeThrows`, `RefreshShows`, `BiasCategoryIgnoresUci` and `UciCategoryIgnoresBias` characterise it |
| Dashboard.OrAll | Frontend/script.js:61-62 | `element?.value \|\| 'all'` is `'all'` exactly when the selector is absent, empty or `'all'` |
| Dashboard.SelectionOf | Frontend/script.js:60-64 | the selected centre, its key and the selected year, read through `OrAll`; used by `RefreshShows` and `MeaslesView` |
| Dashboard.Page.constructor | Frontend/script.js:5 | `cachedData` starts as null |
| Dashboard.Page.Load | Frontend/script.js:42-51 | a successful load replaces `cachedData`, and a failed one leaves it alone |
| Dashboard.Page.HandleFilterChange | Frontend/script.js:56-135 | the handler's outcome is the reference `RefreshOf` of the cache and the selectors, and the sex chart gets the BIAS counts |
| Dashboard.NothingBeforeLoad | Frontend/script.js:57 | before the data has arrived the handler does nothing |
| Dashboard.BiasCategoryIgnoresUci | Frontend/script.js:56-117 | under `'bias'` the UCI subtree is never read, the UCI view is empty, the UCI figures are 0 and the combined figures are the BIAS ones |
| Dashboard.UciCategoryIgnoresBias | Frontend/script.js:56-117 | under `'uci'` the BIAS view is empty, the BIAS figures are 0 and the combined figures are the UCI ones |
| Dashboard.OutcomeParts | Frontend/script.js:112-117 | the handler's results are the two aggregators over the two views and their combination |
| Dashboard.ShownPercentCard | Frontend/script.js:116-129 | a shown refresh writes the card as written over the combined target and achieved counts, +Infinity exactly when the target is positive and nothing was achieved |
| Dashboard.ShownIsCombined | Frontend/script.js:116-118 | the totals of a shown refresh are the combination of its two results |
| Dashboard.ShownCard | Frontend/script.js:116-129 | totals that combine two results show the card as written over the added figures |
| Dashboard.MissingSubtreeThrows | Frontend/script.js:65-66 | with both categories on, a missing `bias` or `uci` subtree makes the handler throw |
| Dashboard.SelectAllShowsRawData | Frontend/script.js:56-113 | with every selector on `'all'` both views are the raw data and the figures are computed over them |
| Dashboard.RefreshShows | Frontend/script.js:56-113 | when every switched-on subtree is present the handler shows the outcome over the built views |
| Dashboard.MeaslesNameKey | Frontend/script.js:70 | a record named through `Puskesmas` with `"Puskesmas Gamping I"` has key `"GAMPING 1"` |
| Dashboard.MeaslesRecordKept | Frontend/script.js:69-73 | that record passes the filter for a selection normalising to `"GAMPING 1"` |
| Dashboard.MeaslesFigures | Frontend/script.js:164-177 | a single measles record with 50 given and 5 absent gives `total_s = 50` and `total_t = 5` |
| Dashboard.MeaslesView | Frontend/script.js:64-88 | selector `"Gamping 1"` keeps the record spelt `"Puskesmas Gamping I"` |
| Dashboard.MeaslesScenario | Frontend/script.js:56-127 | end to end under `'bias'`, the cards show 50 vaccinated and 5 absent |
| Reasons.SumAlasan | Frontend/script.js:601-612 | the nested loops return the sum of every listed key of every record, and 0 for a missing or empty array |
| Reasons.ReasonsOf | Frontend/script.js:618-644 | eight bars, bar i summing the i-th reason's spellings over the array |
| Reasons.DataAlasan | Frontend/script.js:618-644 | `getDataAlasan` returns the eight reason sums, with a missing array read as `[]` |
| Reasons.AlasanDatasets | Frontend/script.js:647-672 | the four datasets are measles, DT, TD and the three HPV grades joined |
| Reasons.ReasonsOfNothing | Frontend/script.js:603 | a missing array gives eight zero bars |
| Reasons.ReasonsAdditive | Frontend/script.js:601-644 | joining two arrays adds their bars, reason by reason |
| Reasons.HpvReasonsByGrade | Frontend/script.js:665-669 | each HPV bar is the sum of the grade 5, 6 and 9 bars |
| Reasons.ReasonsNonNeg | Frontend/script.js:601-644 | with non-negative fields every bar is non-negative |
| Reasons.SingleSpellingReasons | Frontend/script.js:633-636 | the single-spelling reasons are plain `sumT` sums |
| GenderChart.AllUciData | Frontend/script.js:1106-1121 | every slot array joined in spread order; `CardLossIsAllData` states that the loss card is its loss |
| GenderChart.SpellingSum | Frontend/script.js:1124-1132 | each spelling's array total added up; `KeySumIsSpellingSum` equates it with `sumUciMultiKey` |
| GenderChart.Bars | Frontend/script.js:1124-1148 | one bar per key list; bar i is the sum, over the spellings of slot i, of that spelling summed over the whole array |
| GenderChart.GenderChartOf | Frontend/script.js:1099-1148 | the chart over `allUciData` has four bars per sex, and its died, moved-away and refused bars add up to the record-by-record loss the lemmas below compare with the card |
| GenderChart.ChartLoss | Frontend/script.js:1135-1148 | the died, moved-away and refused bars of both sexes summed; `ChartLossIsBars` ties it to the bars and `ArrayLossVersusChart` to the card's loss |
| GenderChart.KeySumIsSpellingSum | Frontend/script.js:1124-1132 | adding record by record every listed spelling equals adding each spelling's array total |
| GenderChart.BarsBySpelling | Frontend/script.js:1124-1132 | each bar's record-by-record sum is its per-spelling sum |
| GenderChart.ChartLossIsBars | Frontend/script.js:1135-1148 | the died, moved-away and refused bars of both sexes add up to the record-by-record loss |
| GenderChart.ConcatLoss | Frontend/script.js:1106-1121 | the first-spelling loss of the joined arrays is the group loss of the arrays |
| GenderChart.GroupLossAppend | Frontend/script.js:217-239 | group loss is additive over concatenated lists of arrays |
| GenderChart.CardLossIsAllData | Frontend/script.js:1106-1121 | the UCI loss card is the first-spelling loss of `allUciData` |
| GenderChart.RefusedRegrouped | Frontend/script.js:1140-1148 | the refused bars of both sexes add up to the card's refused slots, even though `bumil_menolak` changes sides |
| GenderChart.RecordLossVersusChart | Frontend/script.js:1124-1148 | per record, with non-negative fields, the card's loss is at most the chart's lost bars, and equal when no slot is filled under two spellings |
| GenderChart.ArrayLossVersusChart | Frontend/script.js:1124-1148 | the same over a whole array |
| GenderChart.CardVersusChart | Frontend/script.js:1099-1148 | the UCI loss card is at most the lost bars of `GenderChartOf(v)` (died, moved away, refused, both sexes), and equal when no record uses two spellings of a slot |
| GenderChart.ChartCountsBothSpellings | Frontend/script.js:1137 | a record holding both male-death spellings adds both to the chart and only the first to the card |
| Trend.DisplayedYears | Frontend/script.js:486-492 | the years shown are distinct and non-empty, contain a concrete selection, and all pass the year test |
| Trend.AddFields | Frontend/script.js:512 | the inner key loop adds the record's subtotal over the keys |
| Trend.AddMatching | Frontend/script.js:509-514 | one array scan adds the key sums of exactly the records of the selected centre |
| Trend.CapaianOf | Frontend/script.js:494-543 | one year's UCI total for a centre; `CapaianAllUci` is proved equal to it, and `TableAbsent`, `AntigenOffYears`, `CapaianAtSlotYears` and `TrendMatchesCard` characterise it |
| Trend.CapaianAllUci | Frontend/script.js:494-543 | `getCapaianAllUCI(year)` is the reference total over the five antigen families, booster, hb0/bcg and tt at that year |
| Trend.CapaianPerYear | Frontend/script.js:546 | one total per year, in order |
| Trend.TrendSeries | Frontend/script.js:492-546 | the series pairs each displayed year with its total |
| Trend.TableAbsent | Frontend/script.js:508-535 | a table with no array for the year adds 0 |
| Trend.SlotIsTable | Frontend/script.js:509-514 | with every year selected, a card slot sums like the trend's scan of the same table |
| Trend.AntigenTotalAll | Frontend/script.js:498-516 | the antigen scan is the sum over rv, rotarix, pcv, je and heksavalen |
| Trend.AntigenOffYears | Frontend/script.js:498-516 | with tables filled only at the card years, the antigen scan is 0 in 2022, 2023 and 2025 |
| Trend.CardAchievedByTable | Frontend/script.js:241-255 | the UCI achieved card with every year selected is the sum of the seventeen table totals |
| Trend.CapaianAtSlotYears | Frontend/script.js:494-543 | with tables filled only at the card years, what each year's bar holds |
| Trend.TrendSum | Frontend/script.js:546 | the five-year series adds up to the sum of the five yearly totals |
| Trend.TrendMatchesCard | Frontend/script.js:494-546 | the trend over every year adds up to the UCI achieved card for the same centre |
| BarChart.FirstIndex | Frontend/script.js:269 | the index of the first measles record carrying a name, or the array length when none does |
| BarChart.RawLabels | Frontend/script.js:269 | the labels are distinct, truthy, exactly the first truthy names of the measles records, and ordered by the index where each name first occurs, as a `Set` keeps insertion order |
| BarChart.RawLabelsOrderStep | Frontend/script.js:269 | one more record keeps the first indices of the names already seen, all below it, and a new name first occurs at that record |
| BarChart.KeptLabelIndex | Frontend/script.js:269 | a name already seen keeps its first index when a record is added |
| BarChart.FirstIndexAtMost | Frontend/script.js:269 | a name's first index is at most any index that carries it |
| BarChart.FirstIndexSnoc | Frontend/script.js:269 | adding a record leaves a found first index alone, and sets a missing one to the new record when it carries the name |
| BarChart.MissingLabelIndex | Frontend/script.js:269 | a name no record carries has the array length as first index |
| BarChart.KeepKey | Frontend/script.js:270 | keeps exactly the labels with the selected key, and keeps them distinct |
| BarChart.SelectLabels | Frontend/script.js:270 | every label for `'all'`, otherwise exactly those with the selected key |
| BarChart.OfCentre | Frontend/script.js:274-281 | the records kept are exactly those whose two-spelling name normalises to the label's key |
| BarChart.BiasBar | Frontend/script.js:272-276 | one centre's measles plus DT doses; `BarMatchesCards` equates it with the cards |
| BarChart.UciBar | Frontend/script.js:279-281 | one centre's completed booster doses of 2023; stated per label in `ChartFor` |
| BarChart.ChartFor | Frontend/script.js:272-282 | one BIAS and one UCI bar per label with the label's sums; throws exactly when there is a label and DT or the 2023 booster array is missing |
| BarChart.BarChartOf | Frontend/script.js:265-282 | no chart before the data has loaded; it throws exactly when the measles array cannot be reached, or when there is a label and the DT or 2023 booster array is missing; otherwise the labels are exactly the measles records' first truthy names with the selected key, distinct and truthy |
| BarChart.SplitChartFor | Frontend/script.js:272-281 | two labels of one centre over two records of that centre give two equal bar pairs |
| BarChart.SelectLabelsKeeps | Frontend/script.js:269-270 | selecting labels keeps them distinct and truthy |
| BarChart.CentreLabels | Frontend/script.js:269 | corrected: labels have distinct keys, are truthy, and cover every named record's centre |
| BarChart.LabelSnoc | Frontend/script.js:269 | adding a label with a new key keeps the keys distinct and loses none |
| BarChart.CorrectedBarChartOf | Frontend/script.js:265-282 | corrected: no chart before load, and one label per centre key |
| BarChart.KeepKeyAtMostOne | Frontend/script.js:270 | among labels with distinct keys at most one is selected |
| BarChart.KeepKeyNone | Frontend/script.js:270 | no label with the key, none selected |
| BarChart.OfCentreIsFilter | Frontend/script.js:274-275 | the bar's per-centre filter is the card filter when no record relies on the lower-case spelling |
| BarChart.BarMatchesCards | Frontend/script.js:272-277 | with a centre selected, every BIAS bar equals measles plus DT achieved on the cards |
| BarChart.RawLabelsPair | Frontend/script.js:269 | two records with different names give two labels |
| BarChart.CentreLabelsPair | Frontend/script.js:269 | corrected: two names with one key give one label, the first spelling |
| BarChart.ChartForOneCentre | Frontend/script.js:272-282 | labels all naming one centre get equal bars |
| BarChart.BarChartAll | Frontend/script.js:269-282 | with every centre selected the chart is built over every raw label |
| BarChart.CorrectedBarChartAll | Frontend/script.js:269-282 | corrected: with every centre selected the chart is built over every centre label |
| BarChart.TwoRecordBars | Frontend/script.js:272-282 | two records of one centre make every bar of that centre hold both doses |
| BarChart.TwoRecordLabels | Frontend/script.js:269 | two differently spelt names give the two raw labels |
| BarChart.SpellingsSplitBars | Frontend/script.js:269-277 | as written: two spellings of one centre give two bars, each with the doses of both records |
| BarChart.SpellingsShareBar | Frontend/script.js:269-277 | corrected: the same data gives one bar with the doses of both records |
| BarChart.DuplicateBars | Frontend/script.js:269-282 | as written: `"Puskesmas Gamping I"` with 10 doses and `"PUKESMAS GAMPING 1"` with 5 give two bars of 15 |
| BarChart.OneBarPerCentre | Frontend/script.js:269-282 | corrected: the same data gives one bar of 15 |
| FilterOptions.OrName | Frontend/script.js:1293 | `d.Pukesmas \|\| d.Puskesmas` is truthy exactly when some name spelling is truthy, and is then the first one |
| FilterOptions.NameSet | Frontend/script.js:1292-1293 | the Set holds each name once, and exactly the names of the records |
| FilterOptions.TruthyNames | Frontend/script.js:1294 | `.filter(Boolean)` keeps exactly the truthy names |
| FilterOptions.Insert | Frontend/script.js:1294 | inserting adds exactly one element |
| FilterOptions.InsertSorted | Frontend/script.js:1294 | inserting into a sorted list keeps it sorted |
| FilterOptions.SortByText | Frontend/script.js:1294 | `.sort()` returns a sorted permutation |
| FilterOptions.OptionsOf | Frontend/script.js:1292-1294 | the option values; characterised by `OptionsSorted`, `OptionsPermuteBarLabels`, `OptionsMembers` and `NamesAreBarLabels` |
| FilterOptions.PopulatePuskesmasFilter | Frontend/script.js:1290-1295 | the set-filling loop yields the deduplicated, truthy, sorted names; it throws exactly when the measles array is missing |
| FilterOptions.LexLeTotal | Frontend/script.js:1294 | the text order is total |
| FilterOptions.LexLeTrans | Frontend/script.js:1294 | the text order is transitive |
| FilterOptions.SortedPairwise | Frontend/script.js:1294 | sorted by neighbours means sorted pairwise |
| FilterOptions.OptionsSorted | Frontend/script.js:1294 | any two options are in text order |
| FilterOptions.NamesAreBarLabels | Frontend/script.js:1292-1294 | before sorting, the options are the bar chart's labels for every centre, in the same order |
| FilterOptions.OptionsPermuteBarLabels | Frontend/script.js:1292-1294 | the options are a permutation of those labels |
| FilterOptions.OptionsMembers | Frontend/script.js:1292-1294 | a value is offered exactly when it is the first truthy name of some measles record |

## Left out

- The DOM is left out: `document.getElementById`, `updateText`, `updateCard`, `toLocaleString`, the sidebar and page navigation, and `goTo`. Each is a side effect with no computation to model.
- Chart.js construction and options, and the chart-instance singletons, are left out. They are widget configuration. The model keeps only the data arrays handed to the charts it covers.
- `fetch` and `response.json()` in `fetchImunisasiData` are network and parsing I/O. The parsed JSON is a parameter of `Dashboard.Page.Load`, and a failed fetch or parse is `None`.
- `Number()` parsing of texts is left out. A field is a decoded number or a text, and a text counts as 0. Booleans, `null` and fractional numbers are not modelled.
- `toFixed(1)` and all floating point are left out. The percentage is a `real`, and the division by zero is an explicit `PosInfinity`.
- Upper-casing is limited to ASCII letters. Unicode case mapping is not modelled.
- The scatter chart (`updateScatterChart`, lines 346-397) is not part of this model, and neither are the grade chart, the logistics charts, the IP-vaccine chart, the UCI status chart, the pie formatter and the hard-coded environment charts. These are rendering functions outside the aggregation engine.
- Dashboard.Page.HandleFilterChange: the model does not call the chart updates (lines 132-144). Their data is modelled as separate functions in `Reasons`, `GenderChart`, `Trend` and `BarChart`.
- Trend.CapaianAllUci: a missing `uci` subtree, which makes the trend throw, is not modelled. The function takes a present UCI source.
- BarChart.BarChartOf: the chart reads the full dataset and ignores the year and category selectors, as the source does. No property relates it to a year selection.
- FilterOptions.SortByText: this models sorting as an insertion sort on the text, compared character by character. JavaScript compares UTF-16 code units, which differ from code points only above U+FFFF. A number-valued name is compared through its decimal text.
- Views: a missing intermediate UCI object (`antigen`, `baduta`, `booster`, a family) is modelled as an empty map. Optional chaining makes it read like a missing key.
- GenderChart.CardVersusChart: the card-versus-chart relation is proved for non-negative fields only. With negative counts the first-spelling fallback can exceed the all-spellings sum.

## Findings

| source | as written | input that shows it | evidently intended | confidence | as-written member | corrected member |
|---|---|---|---|---|---|---|
| Frontend/script.js:119-123 | `totalPersen = (totalSasaran_Gabungan / totalS_Gabungan) * 100`, guarded by `totalSasaran_Gabungan > 0` | target 200 with 100 achieved shows 200 %; target 10 with 0 achieved divides by zero and shows Infinity | achieved over target times 100, guarded on the target (the comment on line 121 says so) | not executed | Composite.CompositePercentInverted, Composite.CompositePercentDividesByZero, Dashboard.ShownPercentCard | Composite.CoveragePercent, Composite.CoverageMonotone |
| Frontend/script.js:269-277 | labels deduplicated by the raw name, bars summed by the normalised name | `"Puskesmas Gamping I"` with 10 doses and `"PUKESMAS GAMPING 1"` with 5 give two bars of 15 each | one bar per centre, labels deduplicated by the normalised name | not executed | BarChart.SpellingsSplitBars, BarChart.DuplicateBars | BarChart.SpellingsShareBar, BarChart.OneBarPerCentre |
