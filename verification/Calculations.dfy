/**
 * The derivation engine: per-portion scaling, percent of daily value,
 * Brazilian number formatting, the ordered nutrition-table rows and the
 * front-of-pack warning flags.
 */
module Calculations {
  import opened Wrappers
  import opened Strings
  import opened Selection
  import opened Nutrition

  // ---------------------------------------------------------------- arithmetic

  /** Amount in one portion of `portionSize` g (or ml), from the amount per 100. No rounding. */
  function CalculatePerPortion(value100g: real, portionSize: real): real
  {
    value100g * portionSize / 100.0
  }

  /** A 100 g portion holds the per-100 amount; scaling is linear in the portion and keeps signs. */
  lemma PerPortionScaling(value100g: real, portionSize: real, otherSize: real)
    ensures CalculatePerPortion(value100g, 100.0) == value100g
    ensures CalculatePerPortion(value100g, 0.0) == 0.0 && CalculatePerPortion(0.0, portionSize) == 0.0
    ensures CalculatePerPortion(value100g, portionSize + otherSize)
            == CalculatePerPortion(value100g, portionSize) + CalculatePerPortion(value100g, otherSize)
    ensures 0.0 <= value100g && 0.0 <= portionSize ==> 0.0 <= CalculatePerPortion(value100g, portionSize)
  {
  }

  /** `Math.round`: the nearest integer, a half going up (towards +infinity). */
  function Round(x: real): (r: int)
    ensures r as real - 0.5 <= x < r as real + 0.5
  {
    (x + 0.5).Floor
  }

  /** Percent of the daily value, rounded; a zero daily value gives 0 instead of dividing. */
  function CalculatePercentDV(value: real, dailyValue: real): int {
    if dailyValue == 0.0 then 0 else Round(value / dailyValue * 100.0)
  }

  /** The percentage is the nearest integer to value/dailyValue*100; a zero daily value gives 0. */
  lemma PercentDVBounds(value: real, dailyValue: real)
    ensures dailyValue == 0.0 ==> CalculatePercentDV(value, dailyValue) == 0
    ensures dailyValue != 0.0 ==>
              CalculatePercentDV(value, dailyValue) as real - 0.5 <= value / dailyValue * 100.0
              < CalculatePercentDV(value, dailyValue) as real + 0.5
    ensures dailyValue != 0.0 && value == dailyValue ==> CalculatePercentDV(value, dailyValue) == 100
    ensures dailyValue != 0.0 && value == 0.0 ==> CalculatePercentDV(value, dailyValue) == 0
  {
    if dailyValue != 0.0 && value == dailyValue {
      assert value / dailyValue == 1.0;
    }
  }

  /** The percentage of a daily value that one portion holds, rounded: what the %DV column should show. */
  function PortionPercent(value100g: real, portionSize: real, dailyValue: real): int
    requires dailyValue != 0.0
  {
    Round(value100g * portionSize / dailyValue)
  }

  /** The %DV of a portion is the per-100 amount scaled by the portion, over the daily value. */
  lemma PercentDVOfPortion(value100g: real, portionSize: real, dailyValue: real)
    requires dailyValue != 0.0
    ensures CalculatePercentDV(CalculatePerPortion(value100g, portionSize), dailyValue)
            == Round(value100g * portionSize / dailyValue)
  {
    var p := value100g * portionSize;
    assert p / 100.0 / dailyValue * 100.0 == p / dailyValue;
  }

  // ---------------------------------------------------------------- number formatting

  /** |x| in tenths, rounded half up, as `toFixed(1)` computes it. */
  function TenthsMagnitude(x: real): (m: nat)
    ensures m as real - 0.5 <= (if x < 0.0 then -x else x) * 10.0 < m as real + 0.5
  {
    Round((if x < 0.0 then -x else x) * 10.0)
  }

  /** The value `toFixed(1)` shows, in tenths, sign included. */
  function Tenths(x: real): int {
    if x < 0.0 then -(TenthsMagnitude(x) as int) else TenthsMagnitude(x)
  }

  /** The shown value is within half a tenth of the true one. */
  lemma TenthsIsNearest(x: real)
    ensures -0.05 <= Tenths(x) as real / 10.0 - x <= 0.05
  {
  }

  /** x rounded to tenths: an optional minus sign, the integer part, `point`, one decimal digit. */
  function DecimalTenths(x: real, point: char): string {
    var m := TenthsMagnitude(x);
    (if x < 0.0 then "-" else "") + NatToString(m / 10) + [point] + [DigitChar(m % 10)]
  }

  /** `x.toFixed(1)`. */
  function ToFixed1(x: real): string {
    DecimalTenths(x, '.')
  }

  /** `formatNumber(value)`: "0" for zero, otherwise one decimal with a decimal comma. */
  function FormatNumber(value: real): string {
    if value == 0.0 then "0" else DecimalTenths(value, ',')
  }

  /** The decimal-comma form is `toFixed(1)` with its (first and only) '.' replaced by ','. */
  lemma FormatNumberReplacesPoint(value: real)
    ensures value == 0.0 ==> FormatNumber(value) == "0"
    ensures value != 0.0 ==> FormatNumber(value) == ReplaceFirst(ToFixed1(value), '.', ',')
  {
    if value != 0.0 {
      var m := TenthsMagnitude(value);
      var head := (if value < 0.0 then "-" else "") + NatToString(m / 10);
      NatToStringDigits(m / 10);
      assert '.' !in head by {
        assert forall i :: 0 <= i < |NatToString(m / 10)| ==> IsDigit(NatToString(m / 10)[i]);
      }
      ReplaceFirstAt(head, [DigitChar(m % 10)], '.', ',');
    }
  }

  /** Reads "[-]digits" or "[-]digits,d" as a number of tenths. */
  function ParseDecimalComma(s: string): Option<int> {
    if |s| > 0 && s[0] == '-' then
      match ParseUnsignedTenths(s[1..])
      case Some(n) => Some(-n)
      case None => None
    else ParseUnsignedTenths(s)
  }

  function ParseUnsignedTenths(s: string): Option<int> {
    if |s| >= 3 && s[|s| - 2] == ',' && AllDigits(s[..|s| - 2]) && IsDigit(s[|s| - 1]) then
      Some(ParseNat(s[..|s| - 2]) * 10 + DigitValue(s[|s| - 1]))
    else if |s| > 0 && AllDigits(s) then Some(ParseNat(s) * 10)
    else None
  }

  /** A count of tenths, written as integer part, ',' and one digit, reads back as that count. */
  lemma UnsignedTenthsReadsBack(m: nat)
    ensures '.' !in NatToString(m / 10) + "," + [DigitChar(m % 10)]
    ensures ParseUnsignedTenths(NatToString(m / 10) + "," + [DigitChar(m % 10)]) == Some(m)
    ensures IsDigit((NatToString(m / 10) + "," + [DigitChar(m % 10)])[0])
  {
    var digits := NatToString(m / 10);
    var last := DigitChar(m % 10);
    var u := digits + "," + [last];
    NatToStringDigits(m / 10);
    ParseNatToString(m / 10);
    assert u[..|u| - 2] == digits;
    assert u[|u| - 2] == ',' && u[|u| - 1] == last;
    assert DigitValue(last) == m % 10;
    assert ParseNat(digits) * 10 + DigitValue(last) == m;
    forall i | 0 <= i < |u|
      ensures u[i] != '.'
    {
      if i < |digits| {
        assert IsDigit(digits[i]);
      }
    }
  }

  /**
   * A formatted number has no '.', and reading it back (decimal comma) gives
   * exactly the value rounded to tenths; zero is shown as the bare "0".
   */
  lemma FormatNumberReadsBack(value: real)
    ensures value == 0.0 ==> FormatNumber(value) == "0"
    ensures '.' !in FormatNumber(value)
    ensures ParseDecimalComma(FormatNumber(value)) == Some(Tenths(value))
  {
    if value == 0.0 {
      assert "0"[..0] == "";
      assert ParseNat("0") == 0;
    } else {
      var m := TenthsMagnitude(value);
      var u := NatToString(m / 10) + "," + [DigitChar(m % 10)];
      UnsignedTenthsReadsBack(m);
      if value < 0.0 {
        assert FormatNumber(value) == "-" + u;
        assert ("-" + u)[1..] == u;
      } else {
        assert FormatNumber(value) == u;
      }
    }
  }

  /** `formatPercentDV(p)`: "0" for zero, otherwise the integer's decimal text. */
  function FormatPercentDV(percent: int): string {
    if percent == 0 then "0" else IntToString(percent)
  }

  /** A formatted percentage reads back as the same integer. */
  lemma FormatPercentDVReadsBack(percent: int)
    ensures percent == 0 ==> FormatPercentDV(percent) == "0"
    ensures ParseInt(FormatPercentDV(percent)) == Some(percent)
  {
    IntToStringRoundTrip(percent);
  }

  // ---------------------------------------------------------------- table rows

  /** A nutrient of the table: display name, unit, daily value and indentation. */
  datatype Nutrient = Nutrient(name: string, unit: string, dailyValue: real, indentLevel: nat)

  const Energy := Nutrient("Valor energético", "kcal", DailyValues.energyKcal, 0)
  const Carbohydrates := Nutrient("Carboidratos", "g", DailyValues.carbohydrates, 0)
  const TotalSugars := Nutrient("Açúcares totais", "g", DailyValues.totalSugars, 1)
  const AddedSugars := Nutrient("Açúcares adicionados", "g", DailyValues.addedSugars, 2)
  const Proteins := Nutrient("Proteínas", "g", DailyValues.proteins, 0)
  const TotalFats := Nutrient("Gorduras totais", "g", DailyValues.totalFats, 0)
  const SaturatedFats := Nutrient("Gorduras saturadas", "g", DailyValues.saturatedFats, 1)
  const TransFats := Nutrient("Gorduras trans", "g", DailyValues.transFats, 1)
  const DietaryFiber := Nutrient("Fibras alimentares", "g", DailyValues.dietaryFiber, 0)
  const Sodium := Nutrient("Sódio", "mg", DailyValues.sodium, 0)
  const VitaminA := Nutrient("Vitamina A", "μg", DailyValues.vitaminA, 0)
  const VitaminC := Nutrient("Vitamina C", "mg", DailyValues.vitaminC, 0)
  const VitaminD := Nutrient("Vitamina D", "μg", DailyValues.vitaminD, 0)
  const VitaminE := Nutrient("Vitamina E", "mg", DailyValues.vitaminE, 0)
  const Calcium := Nutrient("Cálcio", "mg", DailyValues.calcium, 0)
  const Iron := Nutrient("Ferro", "mg", DailyValues.iron, 0)
  const Potassium := Nutrient("Potássio", "mg", DailyValues.potassium, 0)
  const Zinc := Nutrient("Zinco", "mg", DailyValues.zinc, 0)

  /** The ten rows every label shows, in regulation order. */
  const MandatoryNutrients: seq<Nutrient> := [
    Energy, Carbohydrates, TotalSugars, AddedSugars, Proteins,
    TotalFats, SaturatedFats, TransFats, DietaryFiber, Sodium]

  /** The optional rows, in the order they follow sodium. */
  const Micronutrients: seq<Nutrient> := [
    VitaminA, VitaminC, VitaminD, VitaminE, Calcium, Iron, Potassium, Zinc]

  /** The record's amount for each mandatory nutrient, in the same order. */
  function MandatoryAmounts(d: NutritionData): (r: seq<real>)
    ensures |r| == |MandatoryNutrients|
  {
    [d.energyKcal100g, d.carbohydrates100g, d.totalSugars100g, d.addedSugars100g, d.proteins100g,
     d.totalFats100g, d.saturatedFats100g, d.transFats100g, d.dietaryFiber100g, d.sodium100g]
  }

  /** The record's (optional) amount for each micronutrient, in the same order. */
  function MicronutrientAmounts(d: NutritionData): (r: seq<Option<real>>)
    ensures |r| == |Micronutrients|
  {
    [d.vitaminA100g, d.vitaminC100g, d.vitaminD100g, d.vitaminE100g,
     d.calcium100g, d.iron100g, d.potassium100g, d.zinc100g]
  }

  /** An optional amount is declared when it is present and positive (a JavaScript truthy number above 0). */
  predicate IsDeclared(v: Option<real>) {
    v.Some? && v.value > 0.0
  }

  /** The row label: the name followed by the unit in parentheses. */
  function NutrientLabel(n: Nutrient): string {
    n.name + " (" + n.unit + ")"
  }

  /**
   * `createRow` for a portion of `portionSize`: the label is "name (unit)",
   * both amounts are formatted, and the %DV is taken from the per-portion amount.
   */
  function CreateRow(portionSize: real, n: Nutrient, value100g: real): NutritionTableRow {
    var perPortion := CalculatePerPortion(value100g, portionSize);
    var percentDV := CalculatePercentDV(perPortion, n.dailyValue);
    NutritionTableRow(
      labelText := NutrientLabel(n),
      per100g := FormatNumber(value100g),
      perPortion := FormatNumber(perPortion),
      percentDV := FormatPercentDV(percentDV),
      indentLevel := n.indentLevel)
  }

  /** What a row shows: its label, both amounts to the tenth, and the rounded %DV of one portion. */
  lemma CreateRowContents(portionSize: real, n: Nutrient, value100g: real)
    ensures CreateRow(portionSize, n, value100g).labelText == NutrientLabel(n)
    ensures CreateRow(portionSize, n, value100g).indentLevel == n.indentLevel
    ensures ParseDecimalComma(CreateRow(portionSize, n, value100g).per100g) == Some(Tenths(value100g))
    ensures ParseDecimalComma(CreateRow(portionSize, n, value100g).perPortion)
            == Some(Tenths(value100g * portionSize / 100.0))
    ensures n.dailyValue != 0.0 ==>
              ParseInt(CreateRow(portionSize, n, value100g).percentDV)
              == Some(Round(value100g * portionSize / n.dailyValue))
    ensures n.dailyValue == 0.0 ==> CreateRow(portionSize, n, value100g).percentDV == "0"
  {
    var perPortion := CalculatePerPortion(value100g, portionSize);
    FormatNumberReadsBack(value100g);
    FormatNumberReadsBack(perPortion);
    if n.dailyValue != 0.0 {
      PercentDVOfPortion(value100g, portionSize, n.dailyValue);
    }
    FormatPercentDVReadsBack(CalculatePercentDV(perPortion, n.dailyValue));
  }

  /** With a 100 g portion the per-portion column repeats the per-100 column. */
  lemma HundredGramPortionRepeatsColumn(n: Nutrient, value100g: real)
    ensures CreateRow(100.0, n, value100g).perPortion == CreateRow(100.0, n, value100g).per100g
  {
    PerPortionScaling(value100g, 100.0, 0.0);
  }

  /** The `createRow` closure of a record with portion size `portionSize`. */
  function RowMaker(portionSize: real): (Nutrient, real) -> NutritionTableRow {
    (n: Nutrient, value100g: real) => CreateRow(portionSize, n, value100g)
  }

  /** The ten fixed rows, as `createRow` builds them. */
  function MandatoryRows(d: NutritionData, createRow: (Nutrient, real) -> NutritionTableRow): (r: seq<NutritionTableRow>)
    ensures |r| == |MandatoryNutrients|
  {
    [createRow(Energy, d.energyKcal100g), createRow(Carbohydrates, d.carbohydrates100g),
     createRow(TotalSugars, d.totalSugars100g), createRow(AddedSugars, d.addedSugars100g),
     createRow(Proteins, d.proteins100g), createRow(TotalFats, d.totalFats100g),
     createRow(SaturatedFats, d.saturatedFats100g), createRow(TransFats, d.transFats100g),
     createRow(DietaryFiber, d.dietaryFiber100g), createRow(Sodium, d.sodium100g)]
  }

  /** Row i of the fixed part is the i-th mandatory nutrient with the record's i-th amount. */
  lemma MandatoryRowsAt(d: NutritionData, createRow: (Nutrient, real) -> NutritionTableRow, i: nat)
    requires i < |MandatoryNutrients|
    ensures MandatoryRows(d, createRow)[i] == createRow(MandatoryNutrients[i], MandatoryAmounts(d)[i])
  {
  }

  /** The row each micronutrient would get if it were declared. */
  function MicronutrientCandidates(d: NutritionData, createRow: (Nutrient, real) -> NutritionTableRow)
    : (r: seq<NutritionTableRow>)
    ensures |r| == |Micronutrients|
    ensures forall k :: 0 <= k < |r| ==> r[k] == createRow(Micronutrients[k], MicronutrientAmounts(d)[k].GetOr(0.0))
  {
    seq(|Micronutrients|,
        k requires 0 <= k < |Micronutrients| => createRow(Micronutrients[k], MicronutrientAmounts(d)[k].GetOr(0.0)))
  }

  /** Which micronutrients are declared, in table order. */
  function MicronutrientFlags(d: NutritionData): (r: seq<bool>)
    ensures |r| == |Micronutrients|
    ensures forall k :: 0 <= k < |r| ==> r[k] == IsDeclared(MicronutrientAmounts(d)[k])
  {
    seq(|Micronutrients|, k requires 0 <= k < |Micronutrients| => IsDeclared(MicronutrientAmounts(d)[k]))
  }

  /** The table: the ten fixed rows, then the declared micronutrients in table order. */
  function TableRowsWith(d: NutritionData, createRow: (Nutrient, real) -> NutritionTableRow): seq<NutritionTableRow> {
    MandatoryRows(d, createRow) + Select(MicronutrientCandidates(d, createRow), MicronutrientFlags(d))
  }

  /** The table of a record. */
  function TableRows(d: NutritionData): seq<NutritionTableRow> {
    TableRowsWith(d, RowMaker(d.portionSize))
  }

  /** The rows after the fixed ones and the first k conditional pushes. */
  function PushedRows(d: NutritionData, createRow: (Nutrient, real) -> NutritionTableRow, k: nat): seq<NutritionTableRow>
    requires k <= |Micronutrients|
  {
    if k == 0 then MandatoryRows(d, createRow)
    else if IsDeclared(MicronutrientAmounts(d)[k - 1]) then
      PushedRows(d, createRow, k - 1) + [createRow(Micronutrients[k - 1], MicronutrientAmounts(d)[k - 1].value)]
    else PushedRows(d, createRow, k - 1)
  }

  /** After k pushes the rows are the fixed ones, then the declared ones among the first k candidates. */
  lemma {:induction false} PushedRowsSelect(d: NutritionData, createRow: (Nutrient, real) -> NutritionTableRow, k: nat)
    requires k <= |Micronutrients|
    ensures PushedRows(d, createRow, k)
            == MandatoryRows(d, createRow)
               + Select(MicronutrientCandidates(d, createRow)[..k], MicronutrientFlags(d)[..k])
  {
    var m, c, f := MandatoryRows(d, createRow), MicronutrientCandidates(d, createRow), MicronutrientFlags(d);
    if k == 0 {
      assert m + Select(c[..0], f[..0]) == m;
    } else {
      PushedRowsSelect(d, createRow, k - 1);
      var a := MicronutrientAmounts(d)[k - 1];
      var x := if IsDeclared(a) then createRow(Micronutrients[k - 1], a.value) else c[k - 1];
      SelectPushStep(m, c, f, k - 1, x);
    }
  }

  /** All eight pushes done, the rows are the table. */
  lemma PushedRowsAreTable(d: NutritionData, createRow: (Nutrient, real) -> NutritionTableRow)
    ensures PushedRows(d, createRow, |Micronutrients|) == TableRowsWith(d, createRow)
  {
    PushedRowsSelect(d, createRow, |Micronutrients|);
    assert MicronutrientCandidates(d, createRow)[..|Micronutrients|] == MicronutrientCandidates(d, createRow);
    assert MicronutrientFlags(d)[..|Micronutrients|] == MicronutrientFlags(d);
  }

  /**
   * The body of `generateTableRows` once `createRow` is fixed: the ten
   * fixed rows, then one conditional push per micronutrient.
   */
  method BuildTableRows(data: NutritionData, createRow: (Nutrient, real) -> NutritionTableRow)
    returns (rows: seq<NutritionTableRow>)
    ensures rows == TableRowsWith(data, createRow)
  {
    rows := [
      createRow(Energy, data.energyKcal100g),
      createRow(Carbohydrates, data.carbohydrates100g),
      createRow(TotalSugars, data.totalSugars100g),
      createRow(AddedSugars, data.addedSugars100g),
      createRow(Proteins, data.proteins100g),
      createRow(TotalFats, data.totalFats100g),
      createRow(SaturatedFats, data.saturatedFats100g),
      createRow(TransFats, data.transFats100g),
      createRow(DietaryFiber, data.dietaryFiber100g),
      createRow(Sodium, data.sodium100g)
    ];
    assert rows == PushedRows(data, createRow, 0);
    if data.vitaminA100g.Some? && data.vitaminA100g.value > 0.0 {
      rows := rows + [createRow(VitaminA, data.vitaminA100g.value)];
    }
    assert rows == PushedRows(data, createRow, 1);
    if data.vitaminC100g.Some? && data.vitaminC100g.value > 0.0 {
      rows := rows + [createRow(VitaminC, data.vitaminC100g.value)];
    }
    assert rows == PushedRows(data, createRow, 2);
    if data.vitaminD100g.Some? && data.vitaminD100g.value > 0.0 {
      rows := rows + [createRow(VitaminD, data.vitaminD100g.value)];
    }
    assert rows == PushedRows(data, createRow, 3);
    if data.vitaminE100g.Some? && data.vitaminE100g.value > 0.0 {
      rows := rows + [createRow(VitaminE, data.vitaminE100g.value)];
    }
    assert rows == PushedRows(data, createRow, 4);
    if data.calcium100g.Some? && data.calcium100g.value > 0.0 {
      rows := rows + [createRow(Calcium, data.calcium100g.value)];
    }
    assert rows == PushedRows(data, createRow, 5);
    if data.iron100g.Some? && data.iron100g.value > 0.0 {
      rows := rows + [createRow(Iron, data.iron100g.value)];
    }
    assert rows == PushedRows(data, createRow, 6);
    if data.potassium100g.Some? && data.potassium100g.value > 0.0 {
      rows := rows + [createRow(Potassium, data.potassium100g.value)];
    }
    assert rows == PushedRows(data, createRow, 7);
    if data.zinc100g.Some? && data.zinc100g.value > 0.0 {
      rows := rows + [createRow(Zinc, data.zinc100g.value)];
    }
    assert rows == PushedRows(data, createRow, 8);
    PushedRowsAreTable(data, createRow);
  }

  /** `generateTableRows`: the rows of the record's table, built with its `createRow`. */
  method GenerateTableRows(data: NutritionData) returns (rows: seq<NutritionTableRow>)
    ensures rows == TableRows(data)
  {
    rows := BuildTableRows(data, RowMaker(data.portionSize));
  }

  // ---------------------------------------------------------------- facts about the table

  /** Positions (in `Micronutrients`) of the declared micronutrients, ascending. */
  function DeclaredMicronutrients(d: NutritionData): seq<nat> {
    SelectedIndices(MicronutrientFlags(d))
  }

  /** Ten fixed rows plus one per declared micronutrient: between 10 and 18 rows. */
  lemma TableRowsCount(d: NutritionData)
    ensures |TableRows(d)| == |MandatoryNutrients| + |DeclaredMicronutrients(d)|
    ensures |MandatoryNutrients| <= |TableRows(d)| <= |MandatoryNutrients| + |Micronutrients|
  {
    SelectLength(MicronutrientCandidates(d, RowMaker(d.portionSize)), MicronutrientFlags(d));
  }

  /** Row i < 10 is the i-th mandatory nutrient with the record's amount, whatever was declared. */
  lemma TableRowsMandatory(d: NutritionData, i: nat)
    requires i < |MandatoryNutrients|
    ensures i < |TableRows(d)|
    ensures TableRows(d)[i] == CreateRow(d.portionSize, MandatoryNutrients[i], MandatoryAmounts(d)[i])
  {
    MandatoryRowsAt(d, RowMaker(d.portionSize), i);
  }

  /** Row 10+j is built from the micronutrient at the j-th declared position, whatever `createRow` is. */
  lemma TableRowsWithMicronutrientAt(d: NutritionData, createRow: (Nutrient, real) -> NutritionTableRow, j: nat)
    requires j < |DeclaredMicronutrients(d)|
    ensures DeclaredMicronutrients(d)[j] < |Micronutrients|
    ensures IsDeclared(MicronutrientAmounts(d)[DeclaredMicronutrients(d)[j]])
    ensures |MandatoryNutrients| + j < |TableRowsWith(d, createRow)|
    ensures TableRowsWith(d, createRow)[|MandatoryNutrients| + j]
            == createRow(Micronutrients[DeclaredMicronutrients(d)[j]],
                         MicronutrientAmounts(d)[DeclaredMicronutrients(d)[j]].value)
  {
    var c, f := MicronutrientCandidates(d, createRow), MicronutrientFlags(d);
    SelectLength(c, f);
    SelectedIndicesAscending(f);
    SelectAt(c, f);
  }

  /**
   * After the fixed rows come exactly the declared micronutrients, in table
   * order: row 10+j is the micronutrient at the j-th declared position, and a
   * micronutrient has a row if and only if its amount is declared.
   */
  lemma TableRowsMicronutrients(d: NutritionData)
    ensures |TableRows(d)| == |MandatoryNutrients| + |DeclaredMicronutrients(d)|
    ensures forall j :: 0 <= j < |DeclaredMicronutrients(d)| ==>
              DeclaredMicronutrients(d)[j] < |Micronutrients|
              && IsDeclared(MicronutrientAmounts(d)[DeclaredMicronutrients(d)[j]])
              && TableRows(d)[|MandatoryNutrients| + j]
                 == CreateRow(d.portionSize, Micronutrients[DeclaredMicronutrients(d)[j]],
                              MicronutrientAmounts(d)[DeclaredMicronutrients(d)[j]].value)
    ensures forall j1, j2 :: 0 <= j1 < j2 < |DeclaredMicronutrients(d)| ==>
              DeclaredMicronutrients(d)[j1] < DeclaredMicronutrients(d)[j2]
    ensures forall k :: 0 <= k < |Micronutrients| ==>
              (IsDeclared(MicronutrientAmounts(d)[k]) <==> k in DeclaredMicronutrients(d))
  {
    TableRowsCount(d);
    SelectedIndicesAscending(MicronutrientFlags(d));
    SelectedIndicesMembership(MicronutrientFlags(d));
    forall j | 0 <= j < |DeclaredMicronutrients(d)|
      ensures DeclaredMicronutrients(d)[j] < |Micronutrients|
              && IsDeclared(MicronutrientAmounts(d)[DeclaredMicronutrients(d)[j]])
              && TableRows(d)[|MandatoryNutrients| + j]
                 == CreateRow(d.portionSize, Micronutrients[DeclaredMicronutrients(d)[j]],
                              MicronutrientAmounts(d)[DeclaredMicronutrients(d)[j]].value)
    {
      TableRowsWithMicronutrientAt(d, RowMaker(d.portionSize), j);
    }
  }

  /** The labels and indentation of the ten fixed rows, as the regulation lists them. */
  lemma MandatoryLabels()
    ensures |MandatoryNutrients| == 10
    ensures NutrientLabel(MandatoryNutrients[0]) == "Valor energético (kcal)"
    ensures NutrientLabel(MandatoryNutrients[1]) == "Carboidratos (g)"
    ensures NutrientLabel(MandatoryNutrients[2]) == "Açúcares totais (g)"
    ensures NutrientLabel(MandatoryNutrients[3]) == "Açúcares adicionados (g)"
    ensures NutrientLabel(MandatoryNutrients[4]) == "Proteínas (g)"
    ensures NutrientLabel(MandatoryNutrients[5]) == "Gorduras totais (g)"
    ensures NutrientLabel(MandatoryNutrients[6]) == "Gorduras saturadas (g)"
    ensures NutrientLabel(MandatoryNutrients[7]) == "Gorduras trans (g)"
    ensures NutrientLabel(MandatoryNutrients[8]) == "Fibras alimentares (g)"
    ensures NutrientLabel(MandatoryNutrients[9]) == "Sódio (mg)"
    ensures forall i :: 0 <= i < 10 ==>
              MandatoryNutrients[i].indentLevel == [0, 0, 1, 2, 0, 0, 1, 1, 0, 0][i]
  {
  }

  /** A new label's table: just the ten fixed rows, every amount and percentage shown as "0". */
  lemma DefaultTableRows()
    ensures |TableRows(DefaultNutritionData)| == |MandatoryNutrients|
    ensures forall i :: 0 <= i < |TableRows(DefaultNutritionData)| ==>
              TableRows(DefaultNutritionData)[i].per100g == "0"
              && TableRows(DefaultNutritionData)[i].perPortion == "0"
              && TableRows(DefaultNutritionData)[i].percentDV == "0"
  {
    var d := DefaultNutritionData;
    TableRowsCount(d);
    SelectEmptyIff(MicronutrientCandidates(d, RowMaker(d.portionSize)), MicronutrientFlags(d));
    forall i | 0 <= i < |TableRows(d)|
      ensures TableRows(d)[i].per100g == "0" && TableRows(d)[i].perPortion == "0"
              && TableRows(d)[i].percentDV == "0"
    {
      TableRowsMandatory(d, i);
      PercentDVBounds(0.0, MandatoryNutrients[i].dailyValue);
    }
  }

  // ---------------------------------------------------------------- front-of-pack warnings

  /** Each nutrient takes its daily value from the reference table, in table order. */
  lemma NutrientDailyValues()
    ensures forall i :: 0 <= i < |MandatoryNutrients| ==>
              MandatoryNutrients[i].dailyValue == DailyValueEntries(DailyValues)[i]
    ensures forall k :: 0 <= k < |Micronutrients| ==>
              Micronutrients[k].dailyValue == DailyValueEntries(DailyValues)[|MandatoryNutrients| + k]
  {
  }

  /** No nutrient of the table has a zero daily value, so `calculatePercentDV` never takes its zero guard for a row. */
  lemma NutrientDailyValuesPositive()
    ensures forall n :: n in MandatoryNutrients + Micronutrients ==> n.dailyValue > 0.0
  {
    NutrientDailyValues();
    DailyValuesPositive();
    var all := MandatoryNutrients + Micronutrients;
    forall n | n in all
      ensures n.dailyValue > 0.0
    {
      var i :| 0 <= i < |all| && all[i] == n;
      if i < |MandatoryNutrients| {
        assert n == MandatoryNutrients[i];
      } else {
        assert n == Micronutrients[i - |MandatoryNutrients|];
      }
    }
  }

  /**
   * The %DV column of mandatory row i: the percentage of the daily value in
   * one portion, rounded; the daily value is positive, so the row never shows
   * the "0" of the zero-daily-value guard.
   */
  lemma MandatoryRowPercentDV(d: NutritionData, i: nat)
    requires i < |MandatoryNutrients|
    ensures MandatoryNutrients[i].dailyValue > 0.0
    ensures i < |TableRows(d)|
    ensures ParseInt(TableRows(d)[i].percentDV)
            == Some(PortionPercent(MandatoryAmounts(d)[i], d.portionSize, MandatoryNutrients[i].dailyValue))
  {
    MandatoryDailyValuePositive(i);
    TableRowsMandatory(d, i);
    PositiveDailyValueRow(TableRows(d), i, d.portionSize, MandatoryNutrients[i], MandatoryAmounts(d)[i]);
  }

  /** The same for the row of the j-th declared micronutrient. */
  lemma MicronutrientRowPercentDV(d: NutritionData, j: nat)
    requires j < |DeclaredMicronutrients(d)|
    ensures DeclaredMicronutrients(d)[j] < |Micronutrients|
    ensures IsDeclared(MicronutrientAmounts(d)[DeclaredMicronutrients(d)[j]])
    ensures Micronutrients[DeclaredMicronutrients(d)[j]].dailyValue > 0.0
    ensures |MandatoryNutrients| + j < |TableRows(d)|
    ensures ParseInt(TableRows(d)[|MandatoryNutrients| + j].percentDV)
            == Some(PortionPercent(MicronutrientAmounts(d)[DeclaredMicronutrients(d)[j]].value, d.portionSize,
                                   Micronutrients[DeclaredMicronutrients(d)[j]].dailyValue))
  {
    TableRowsWithMicronutrientAt(d, RowMaker(d.portionSize), j);
    var k := DeclaredMicronutrients(d)[j];
    MicronutrientDailyValuePositive(k);
    PositiveDailyValueRow(TableRows(d), |MandatoryNutrients| + j, d.portionSize, Micronutrients[k],
                          MicronutrientAmounts(d)[k].value);
  }

  /** A row made for a nutrient with a positive daily value shows the rounded percentage of its portion. */
  lemma PositiveDailyValueRow(rows: seq<NutritionTableRow>, i: nat, portionSize: real, n: Nutrient, value100g: real)
    requires i < |rows| && rows[i] == CreateRow(portionSize, n, value100g)
    requires n.dailyValue > 0.0
    ensures ParseInt(rows[i].percentDV) == Some(PortionPercent(value100g, portionSize, n.dailyValue))
  {
    CreateRowContents(portionSize, n, value100g);
  }

  lemma MandatoryDailyValuePositive(i: nat)
    requires i < |MandatoryNutrients|
    ensures MandatoryNutrients[i].dailyValue > 0.0
  {
    NutrientDailyValuesPositive();
    assert MandatoryNutrients[i] in MandatoryNutrients + Micronutrients;
  }

  lemma MicronutrientDailyValuePositive(k: nat)
    requires k < |Micronutrients|
    ensures Micronutrients[k].dailyValue > 0.0
  {
    NutrientDailyValuesPositive();
    assert Micronutrients[k] in MandatoryNutrients + Micronutrients;
  }

  /** The limits that apply to a record: the liquid ones per 100 ml, otherwise the solid ones per 100 g. */
  function ApplicableThresholds(d: NutritionData): Thresholds {
    if d.isLiquid then WarningThresholds.liquid else WarningThresholds.solid
  }

  /**
   * `calculateFrontWarnings`: a nutrient is high when its amount per 100
   * reaches the limit (15 g added sugar, 6 g saturated fat, 600 mg sodium
   * for solids; 7.5 g, 3 g and 300 mg for liquids); reaching it exactly counts.
   */
  function CalculateFrontWarnings(d: NutritionData): (w: FrontWarnings)
    ensures w.highAddedSugar <==> d.addedSugars100g >= (if d.isLiquid then 7.5 else 15.0)
    ensures w.highSaturatedFat <==> d.saturatedFats100g >= (if d.isLiquid then 3.0 else 6.0)
    ensures w.highSodium <==> d.sodium100g >= (if d.isLiquid then 300.0 else 600.0)
  {
    var t := ApplicableThresholds(d);
    FrontWarnings(
      highAddedSugar := d.addedSugars100g >= t.addedSugar,
      highSaturatedFat := d.saturatedFats100g >= t.saturatedFat,
      highSodium := d.sodium100g >= t.sodium)
  }

  /** `hasAnyWarning`. */
  function HasAnyWarning(w: FrontWarnings): bool {
    w.highAddedSugar || w.highSaturatedFat || w.highSodium
  }

  /** A record gets no warning exactly when all three amounts are below their limits. */
  lemma NoWarningIffBelowLimits(d: NutritionData)
    ensures !HasAnyWarning(CalculateFrontWarnings(d)) <==>
              d.addedSugars100g < ApplicableThresholds(d).addedSugar
              && d.saturatedFats100g < ApplicableThresholds(d).saturatedFat
              && d.sodium100g < ApplicableThresholds(d).sodium
  {
  }

  /** Raising an amount never clears a warning; only the three warned amounts and the liquid flag matter. */
  lemma WarningsMonotone(d: NutritionData, e: NutritionData)
    requires e.isLiquid == d.isLiquid
    requires e.addedSugars100g >= d.addedSugars100g
    requires e.saturatedFats100g >= d.saturatedFats100g
    requires e.sodium100g >= d.sodium100g
    ensures CalculateFrontWarnings(d).highAddedSugar ==> CalculateFrontWarnings(e).highAddedSugar
    ensures CalculateFrontWarnings(d).highSaturatedFat ==> CalculateFrontWarnings(e).highSaturatedFat
    ensures CalculateFrontWarnings(d).highSodium ==> CalculateFrontWarnings(e).highSodium
    ensures HasAnyWarning(CalculateFrontWarnings(d)) ==> HasAnyWarning(CalculateFrontWarnings(e))
  {
  }

  /** The same amounts declared as a liquid warn at least as often as declared as a solid. */
  lemma LiquidLimitsAreStricter(d: NutritionData)
    ensures CalculateFrontWarnings(d.(isLiquid := false)).highAddedSugar
            ==> CalculateFrontWarnings(d.(isLiquid := true)).highAddedSugar
    ensures CalculateFrontWarnings(d.(isLiquid := false)).highSaturatedFat
            ==> CalculateFrontWarnings(d.(isLiquid := true)).highSaturatedFat
    ensures CalculateFrontWarnings(d.(isLiquid := false)).highSodium
            ==> CalculateFrontWarnings(d.(isLiquid := true)).highSodium
  {
  }

  /** A new label carries no warning. */
  lemma DefaultHasNoWarning()
    ensures !HasAnyWarning(CalculateFrontWarnings(DefaultNutritionData))
  {
  }
}
