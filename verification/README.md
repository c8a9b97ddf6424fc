# Tabelinha mágica — a verified model of the label core

This project models, in Dafny, the core of a generator of Brazilian food labels (ANVISA). Given a
product's nutrient amounts per 100 g (or 100 ml), its portion size and its allergen declarations, the
generator produces:

- the nutrition table of RDC 429/2020: one formatted row per mandatory nutrient, plus a row for each
  vitamin or mineral that was entered;
- the "ALTO EM" front-of-pack warnings, which fire when added sugar, saturated fat or sodium reaches
  the limit for solids or for liquids;
- the allergen, gluten and lactose declarations of RDC 727/2022;
- the one-paragraph ("linear") form of the table.

The model is organised by source file:

- `Nutrition`: the types, the allergen catalogue, the daily values, the thresholds and the default
  record (`src/types/nutrition.ts`).
- `Calculations`: per-portion amounts, the %DV, number formatting, the table rows and the warnings
  (`src/utils/nutritionCalculations.ts`).
- `AllergenForm`: ticking and unticking allergens, and the gluten and lactose selectors
  (`src/components/AllergenForm.tsx`).
- `AllergenDisplay`: the allergen sentence, in its full and compact builders, and the block of
  declaration lines (`src/components/AllergenDisplay.tsx`).
- `WarningLabels`: the list of active warning labels, the badge and the two warning panels
  (`src/components/FrontWarnings.tsx`).
- `LinearTable`: taking each row label apart with the two regular expressions, the clause of each row,
  and the " • " separators (`src/components/NutritionTableLinear.tsx`).

Three support modules serve them:

- `Strings` models the JavaScript string built-ins used: `join`, `toUpperCase`, a first-occurrence
  `replace` and integer-to-text.
- `Selection` is the common shape of "push each candidate whose condition holds, in a fixed order".
  It also holds the unconditional `map`.
- `Wrappers` holds `Option`.

Each builder that pushes onto an array step by step is a method that mirrors the pushes. The method is
proved equal to a declarative function, and the properties are proved about that function. These
builders are `generateTableRows`, both `buildAllergenText`, the `activeWarnings` list and
`buildLinearContent`.

Numbers are mathematical reals:

- `Math.round` is rounding to the nearest integer, with halves going up.
- `toFixed(1)` is rounding |x|·10 half-up, with a leading minus when x is negative.
- `formatNumber` is therefore exact on every real, and the proofs read its output back (see
  `FormatNumberReadsBack`).

## Model

| member | source | states |
|---|---|---|
| Nutrition.AllergenCatalogWellFormed | src/types/nutrition.ts:2-24 | the catalogue has 21 entries, their ids are pairwise distinct, and every label is non-empty |
| Nutrition.DailyValueEntries | src/types/nutrition.ts:91-112 | the daily-value table has the 18 nutrient entries |
| Nutrition.DailyValuesPositive | src/types/nutrition.ts:91-112 | no daily reference value is zero or negative |
| Nutrition.LiquidThresholdsHalveSolid | src/types/nutrition.ts:115-126 | each liquid threshold is exactly half the solid one, for all three nutrients |
| Nutrition.DefaultRecordDeclaresNothing | src/types/nutrition.ts:128-151 | a new label declares no allergen, is gluten-free, declares no lactose, has a 100 g portion, every mandatory amount zero and no vitamin or mineral entered |
| Calculations.PerPortionScaling | src/utils/nutritionCalculations.ts:3-5 | a 100 g portion gives back the per-100 g amount; the amount is zero for a zero portion or a zero amount; it is additive in the portion and non-negative on non-negative inputs |
| Calculations.Round | src/utils/nutritionCalculations.ts:9 | `Math.round`: the result is within half a unit of x, with a half rounding up |
| Calculations.PercentDVBounds | src/utils/nutritionCalculations.ts:7-10 | a zero daily value gives 0; otherwise the result is the integer nearest to value/dailyValue·100; the full daily value is 100% and a zero amount is 0% |
| Calculations.PercentDVOfPortion | src/utils/nutritionCalculations.ts:32-33 | the %DV of a row is the per-100 amount times the portion over the daily value, rounded |
| Calculations.TenthsIsNearest | src/utils/nutritionCalculations.ts:14 | the tenths that `toFixed(1)` keeps are within 0.05 of the value |
| Calculations.FormatNumberReplacesPoint | src/utils/nutritionCalculations.ts:12-15 | 0 is "0"; any other value is `toFixed(1)` with its decimal point replaced by a comma |
| Calculations.FormatNumberReadsBack | src/utils/nutritionCalculations.ts:12-15 | the text contains no '.', and reading it back as a decimal-comma number gives the value rounded to tenths |
| Calculations.FormatPercentDVReadsBack | src/utils/nutritionCalculations.ts:17-20 | 0 is "0"; the text reads back as the same integer |
| Calculations.CreateRowContents | src/utils/nutritionCalculations.ts:25-42 | a row's label is "name (unit)" and its indent is the nutrient's; per-100 g reads back as the tenths of the amount and per-portion as the tenths of the scaled amount; the %DV reads back as the rounded percentage, or is "0" for a zero daily value |
| Calculations.HundredGramPortionRepeatsColumn | src/utils/nutritionCalculations.ts:32-38 | with a 100 g portion the per-portion column equals the per-100 g column |
| Calculations.MandatoryRowsAt | src/utils/nutritionCalculations.ts:44-55 | the i-th initial row is `createRow` of the i-th mandatory nutrient with its amount |
| Calculations.PushedRowsSelect | src/utils/nutritionCalculations.ts:57-81 | after k pushes, the rows are the mandatory rows followed by the selected candidates among the first k |
| Calculations.PushedRowsAreTable | src/utils/nutritionCalculations.ts:44-83 | after all eight pushes the array is `TableRowsWith(data, createRow)`: the mandatory rows, then the selected candidates |
| Calculations.BuildTableRows | src/utils/nutritionCalculations.ts:22-84 | for any row builder, the pushes produce the mandatory rows, then the declared micronutrient rows in source order |
| Calculations.GenerateTableRows | src/utils/nutritionCalculations.ts:22-84 | `generateTableRows` returns exactly `TableRows(data)` |
| Calculations.NutrientDailyValues | src/utils/nutritionCalculations.ts:45-80 | each mandatory nutrient and each vitamin or mineral is given its own entry of `DAILY_VALUES` |
| Calculations.NutrientDailyValuesPositive | src/utils/nutritionCalculations.ts:45-80 | no nutrient of the table has a zero daily value, so the `dailyValue === 0` branch of `calculatePercentDV` (line 8) is never taken by a row |
| Calculations.PositiveDailyValueRow | src/utils/nutritionCalculations.ts:32-39 | for a positive daily value, a row's %DV reads back as the amount per 100 g times the portion over the daily value, rounded |
| Calculations.MandatoryRowPercentDV | src/utils/nutritionCalculations.ts:44-55 | the %DV of the i-th mandatory row reads back as that nutrient's amount per 100 g times the portion over its daily value, rounded, never from the zero branch |
| Calculations.MicronutrientRowPercentDV | src/utils/nutritionCalculations.ts:57-81 | the %DV of each vitamin or mineral row reads back as its entered amount times the portion over its daily value, rounded, never from the zero branch |
| Calculations.TableRowsCount | src/utils/nutritionCalculations.ts:44-83 | the table holds the 10 mandatory rows plus one row per declared micronutrient, so it has between 10 and 18 rows |
| Calculations.TableRowsMandatory | src/utils/nutritionCalculations.ts:44-55 | row i < 10 is the mandatory nutrient i, formatted from its amount |
| Calculations.TableRowsWithMicronutrientAt | src/utils/nutritionCalculations.ts:57-81 | row 10+j is built from the j-th declared micronutrient, and that micronutrient was entered and is positive |
| Calculations.TableRowsMicronutrients | src/utils/nutritionCalculations.ts:57-81 | the micronutrient rows follow source order with no repeats, and every declared micronutrient has a row |
| Calculations.MandatoryLabels | src/utils/nutritionCalculations.ts:45-54 | the ten mandatory labels and their order, from "Valor energético (kcal)" to "Sódio (mg)", with their indents (sugars and fats indented under their totals) |
| Calculations.DefaultTableRows | src/utils/nutritionCalculations.ts:22-84 | the default record gives the ten mandatory rows, each showing "0" per 100 g, per portion and as %DV |
| Calculations.CalculateFrontWarnings | src/utils/nutritionCalculations.ts:86-94 | each flag is raised exactly when the amount is at least the solid limit (15 g, 6 g, 600 mg) or the liquid limit (7.5 g, 3 g, 300 mg) |
| Calculations.NoWarningIffBelowLimits | src/utils/nutritionCalculations.ts:86-98 | `hasAnyWarning` is false exactly when all three amounts are below their limits |
| Calculations.WarningsMonotone | src/utils/nutritionCalculations.ts:86-98 | raising any of the three amounts never clears a warning |
| Calculations.LiquidLimitsAreStricter | src/utils/nutritionCalculations.ts:87 | a product flagged as a solid is also flagged as a liquid |
| Calculations.DefaultHasNoWarning | src/utils/nutritionCalculations.ts:86-98 | the default record raises no warning |
| AllergenForm.WithCategoryList | src/components/AllergenForm.tsx:28-34 | the chosen category gets the new list and the other two keep theirs |
| AllergenForm.RemoveAll | src/components/AllergenForm.tsx:26 | the filtered list no longer contains the id and is no longer than before |
| AllergenForm.RemoveAllSelects | src/components/AllergenForm.tsx:26 | the filter keeps exactly the entries that differ from the id, in their order |
| AllergenForm.RemoveAllCounts | src/components/AllergenForm.tsx:26 | every other id keeps its number of occurrences, and the removed id has none |
| AllergenForm.RemoveAllAbsent | src/components/AllergenForm.tsx:26 | filtering out an id that is absent leaves the list unchanged |
| AllergenForm.CheckAppends | src/components/AllergenForm.tsx:24-25 | ticking appends the id at the end, even if it is already present |
| AllergenForm.UncheckRemovesEvery | src/components/AllergenForm.tsx:24-26 | unticking drops every occurrence of the id and keeps the other ids in order and multiplicity |
| AllergenForm.ToggleIsChecked | src/components/AllergenForm.tsx:18-42 | after a toggle, `isChecked` answers what was chosen, and no other checkbox in any category changes |
| AllergenForm.ToggleFrame | src/components/AllergenForm.tsx:28-34 | a toggle changes only the chosen list; the other lists and every field outside the allergens stay the same |
| AllergenForm.UncheckIdempotent | src/components/AllergenForm.tsx:18-35 | unticking twice is the same as unticking once, and unticking an unticked id changes nothing |
| AllergenForm.CheckThenUncheck | src/components/AllergenForm.tsx:18-35 | ticking and then unticking is the same as unticking alone |
| AllergenForm.SetGlutenStatus | src/components/AllergenForm.tsx:58-62 | the gluten selector sets `glutenStatus` and nothing else |
| AllergenForm.SetLactoseStatus | src/components/AllergenForm.tsx:87-91 | the lactose selector sets `lactoseStatus` and nothing else |
| AllergenForm.SelectorsKeepChecks | src/components/AllergenForm.tsx:58-91 | neither selector changes any allergen checkbox |
| AllergenDisplay.FindAllergen | src/components/AllergenDisplay.tsx:10 | a match is a catalogue entry with that id; there is no match exactly when no entry has the id |
| AllergenDisplay.FindAllergenFirst | src/components/AllergenDisplay.tsx:10 | `find` returns the first entry with the id |
| AllergenDisplay.LabelInCatalog | src/components/AllergenDisplay.tsx:9-11 | with distinct ids, a catalogued id with a non-empty label gets that label, and an unknown id is shown as itself |
| AllergenDisplay.GetAllergenLabelCases | src/components/AllergenDisplay.tsx:9-11 | the same two cases for the actual catalogue |
| AllergenDisplay.AllergenLabels | src/components/AllergenDisplay.tsx:22 | one label per id, in list order |
| AllergenDisplay.NamesSnoc | src/components/AllergenDisplay.tsx:22 | the names list is the labels joined by ", ", so order and duplicates are kept |
| AllergenDisplay.ClausesInOrder | src/components/AllergenDisplay.tsx:17-36 | one clause per non-empty list: "contém" first, "derivados de" next, "pode conter" last, each naming its list |
| AllergenDisplay.AllergenTextNoneIff | src/components/AllergenDisplay.tsx:38 | there is no sentence exactly when all three lists are empty |
| AllergenDisplay.AllergenTextFrame | src/components/AllergenDisplay.tsx:40 | the sentence begins with "ALÉRGICOS: " and ends with '.' |
| AllergenDisplay.BuildAllergenText | src/components/AllergenDisplay.tsx:17-41 | the three conditional pushes produce `AllergenText` |
| AllergenDisplay.BuildAllergenTextCompact | src/components/AllergenDisplay.tsx:92-113 | the compact builder's pushes produce `CompactAllergenText` |
| AllergenDisplay.UpperSelect | src/components/AllergenDisplay.tsx:40 | upper-casing after selecting is the same as selecting after upper-casing |
| AllergenDisplay.CompactMatchesFull | src/components/AllergenDisplay.tsx:17-41 | the compact builder (lines 92-113) produces the same sentence as the full one for every declaration |
| AllergenDisplay.OnlyGlutenLineIsGluten | src/components/AllergenDisplay.tsx:55-83 | the only gluten statement on display is the one for the record's status |
| AllergenDisplay.DeclarationsBlock | src/components/AllergenDisplay.tsx:43-83 | there is exactly one gluten statement, "CONTÉM GLÚTEN" exactly when the product contains gluten; "CONTÉM LACTOSE" appears exactly when lactose is declared; the note appears exactly when no allergen and no lactose is declared; without the note the block equals the compact one (lines 115-130), whose sentence comes from its own builder |
| AllergenDisplay.DeclarationsMembership | src/components/AllergenDisplay.tsx:43-83 | the lactose line and the note each appear exactly when their condition holds |
| WarningLabels.BuildActiveWarnings | src/components/FrontWarnings.tsx:88-92 | the three pushes give `ActiveWarnings` (lines 104-109 are the same) |
| WarningLabels.ActiveWarningsInOrder | src/components/FrontWarnings.tsx:88-92 | one label per raised flag and nothing else; added sugar comes first and sodium last |
| WarningLabels.ActiveWarningsEmptyIff | src/components/FrontWarnings.tsx:94 | the list is empty exactly when `hasAnyWarning` is false, and it never has more than three labels |
| WarningLabels.WarningBadge | src/components/FrontWarnings.tsx:73-84 | there is no badge for no labels; otherwise the badge shows the labels in order |
| WarningLabels.BadgeLabelsShowUpperCase | src/components/FrontWarnings.tsx:62-71 | the `uppercase` class of each box shows the three labels as "AÇÚCAR ADICIONADO", "GORDURA SATURADA" and "SÓDIO" |
| WarningLabels.PanelsAgree | src/components/FrontWarnings.tsx:87-144 | the compact panel is empty exactly when there is no warning, and the full panel shows its reassurance message exactly then; otherwise both draw the same badge of 1 to 3 labels, and the summary is the notice plus a non-empty count sentence |
| WarningLabels.RecordPanel | src/components/FrontWarnings.tsx:103-144 | for a record, the badge panel is shown exactly when some amount reaches its limit |
| LinearTable.LeftmostSuffix | src/components/NutritionTableLinear.tsx:20-21 | an end-anchored regex matches at the least position whose suffix matches, or nowhere |
| LinearTable.NameSplitsBack | src/components/NutritionTableLinear.tsx:20 | removing the unit from "name (unit)" gives back the name, when the name has no '(' and does not end in a space, and the unit has no ')' |
| LinearTable.UnitSplitsBack | src/components/NutritionTableLinear.tsx:21-22 | the unit match on "name (unit)" gives back the unit under the same conditions, and "" for an empty unit |
| LinearTable.LinearParts | src/components/NutritionTableLinear.tsx:18-30 | one clause per row, in row order |
| LinearTable.BuildLinearContent | src/components/NutritionTableLinear.tsx:15-33 | the `forEach` produces `LinearParts(rows)` |
| LinearTable.CreatedRowClause | src/components/NutritionTableLinear.tsx:20-29 | a row made by `createRow` yields the clause with the nutrient's own name and unit, and "dos quais " exactly for indented nutrients |
| LinearTable.MandatorySplittable | src/utils/nutritionCalculations.ts:45-54 | every mandatory name and unit can be split back apart |
| LinearTable.MicronutrientSplittable | src/utils/nutritionCalculations.ts:59-80 | every micronutrient name and unit can be split back apart, and each is top-level |
| LinearTable.TableClauses | src/components/NutritionTableLinear.tsx:11-30 | for any record, clause i < 10 names mandatory nutrient i with its unit and prefix; clause 10+j names the j-th declared micronutrient with no prefix |
| LinearTable.RenderedParagraph | src/components/NutritionTableLinear.tsx:55-60 | " • " after every part but the last is the same as joining the parts with " • "; its length is the parts' lengths plus one separator per gap |
| LinearTable.RenderFromIsJoin | src/components/NutritionTableLinear.tsx:55-60 | the rendering from part i on is the join of the remaining parts |
| Strings.IntToStringRoundTrip | src/utils/nutritionCalculations.ts:19 | the decimal text of an integer reads back as that integer |
| Strings.UpperJoin | src/components/AllergenDisplay.tsx:40 | upper-casing a joined string is joining the upper-cased parts with the upper-cased separator |
| Strings.ReplaceFirstAt | src/utils/nutritionCalculations.ts:14 | `replace('.', ',')` changes only the first '.' |
| Selection.SelectCharacterization | src/utils/nutritionCalculations.ts:57-81 | the conditional pushes keep exactly the candidates whose guard holds, in candidate order and without repeats |
| Selection.SelectEmptyIff | src/components/FrontWarnings.tsx:94 | nothing is pushed exactly when no guard holds |

## Left out

- Floating point: amounts are exact reals. IEEE rounding error in `value100g * portionSize / 100` and
  `value / dailyValue * 100` is not modelled, and neither is NaN or Infinity.
- `toFixed` switches to exponent notation at 1e21 and above; the model always writes plain decimals.
- `formatNumber` takes a `decimals` parameter, but every caller uses the default of 1, so only one
  decimal is modelled.
- Calculations.CreateRow takes the nutrient's label, unit, daily value and indent bundled in one
  `Nutrient` value rather than as four arguments.
- Calculations.BuildTableRows takes `createRow` as a parameter; `GenerateTableRows` passes the real
  one, which closes over the portion size.
- Strings.UpperChar maps only ASCII and Latin-1 letters (à-þ to À-Þ); full Unicode case mapping is not
  modelled. It is enough for every catalogue label and fixed text.
- WarningLabels.PanelsAgree: proves the count sentence is non-empty for 1 to 3 labels, but not that
  its text names that number.
- WarningLabels.BuildActiveWarnings models once the pushes that `FrontWarningsCompact` and
  `FrontWarningsDisplay` both perform, because the two copies are identical.
- LinearTable.BuildLinearContent builds each clause through the `Clause` template function instead of
  building the string inline.
- The header of the linear table (portion text using `|| '000'` and `String(portionSize)`) and its
  footer are not modelled; only the clauses and separators are.
- WarningLabels.WarningBadge gives the labels as they appear in the DOM, in mixed case; each box
  displays its label through the `uppercase` CSS class, so the symbol reads "AÇÚCAR ADICIONADO",
  "GORDURA SATURADA" and "SÓDIO" (stated by WarningLabels.BadgeLabelsShowUpperCase).
- The header "Informação Nutricional" of the linear table is upper-cased by CSS as well; it is not
  modelled, like the rest of the header.
- JSX layout, the other CSS classes and the SVG drawings (`MagnifyingGlass`, `FrontWarningsPreview`)
  are not modelled.
- Parsing of form input (`parseFloat` in the nutrient form), PDF and image export, the other table
  layouts and the page shell are not part of this model.
- React state and `onChange` callbacks are modelled as functions from the old record to the new one.
