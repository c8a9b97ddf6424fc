/**
 * The linear (single paragraph) form of the nutrition table: each row's
 * label "name (unit)" is taken apart again with two regular expressions,
 * one clause "name per100 unit (perPortion unit, %DV%)" is written per row,
 * and the clauses are shown separated by " • ".
 */
module LinearTable {
  import opened Wrappers
  import opened Strings
  import opened Selection
  import opened Nutrition
  import opened Calculations

  // ---------------------------------------------------------------- the two regular expressions

  predicate AllSpaces(s: string) {
    forall i :: 0 <= i < |s| ==> IsSpace(s[i])
  }

  /** The whole of `s` matches `[^)]*\)\s*`. */
  predicate ClosesThenSpaces(s: string)
    decreases |s|
  {
    |s| > 0 && (if s[0] == ')' then AllSpaces(s[1..]) else ClosesThenSpaces(s[1..]))
  }

  /** The whole of `s` matches `\s*\([^)]*\)\s*` (the unit part a label ends with, and the space before it). */
  predicate UnitTail(s: string)
    decreases |s|
  {
    |s| > 0 && (if IsSpace(s[0]) then UnitTail(s[1..]) else s[0] == '(' && ClosesThenSpaces(s[1..]))
  }

  /** The whole of `s` matches `\(([^)]+)\)`; the group is everything between the parentheses. */
  predicate UnitGroup(s: string) {
    |s| >= 3 && s[0] == '(' && s[|s| - 1] == ')' && ')' !in s[1..|s| - 1]
  }

  /**
   * Where a pattern ending in `$` first matches: the least position from
   * `start` on whose suffix matches the pattern, if any.
   */
  function LeftmostSuffix(s: string, matches: string -> bool, start: nat): (r: Option<nat>)
    requires start <= |s|
    ensures r.Some? ==> start <= r.value <= |s| && matches(s[r.value..])
    ensures r.Some? ==> forall q :: start <= q < r.value ==> !matches(s[q..])
    ensures r.None? ==> forall q :: start <= q <= |s| ==> !matches(s[q..])
    decreases |s| - start
  {
    if matches(s[start..]) then Some(start)
    else if start == |s| then None
    else LeftmostSuffix(s, matches, start + 1)
  }

  /** `label.replace(/\s*\([^)]*\)\s*$/, '')`: the label without its trailing unit in parentheses. */
  function NutrientName(labelText: string): string {
    match LeftmostSuffix(labelText, UnitTail, 0)
    case Some(p) => labelText[..p]
    case None => labelText
  }

  /** `label.match(/\(([^)]+)\)$/)`, group 1, or "" without a match. */
  function NutrientUnit(labelText: string): string {
    match LeftmostSuffix(labelText, UnitGroup, 0)
    case Some(p) => if p + 1 <= |labelText| - 1 then labelText[p + 1..|labelText| - 1] else ""
    case None => ""
  }

  /** A name and unit the two expressions can take apart again. */
  predicate Splittable(name: string, unit: string) {
    '(' !in name && (name == [] || !IsSpace(name[|name| - 1])) && ')' !in unit
  }

  /** Text without '(' that ends in a non-space cannot start the unit part. */
  lemma {:induction false} NoUnitTailInName(t: string, rest: string)
    requires |t| > 0 && !IsSpace(t[|t| - 1]) && '(' !in t
    ensures !UnitTail(t + rest)
    decreases |t|
  {
    if IsSpace(t[0]) {
      assert (t + rest)[1..] == t[1..] + rest;
      NoUnitTailInName(t[1..], rest);
    }
  }

  lemma {:induction false} ClosesAtEnd(u: string)
    requires ')' !in u
    ensures ClosesThenSpaces(u + ")")
    decreases |u|
  {
    if u != [] {
      assert (u + ")")[1..] == u[1..] + ")";
      ClosesAtEnd(u[1..]);
    }
  }

  /** Taking the label apart gives back the name it was built from. */
  lemma NameSplitsBack(name: string, unit: string)
    requires Splittable(name, unit)
    ensures NutrientName(name + " (" + unit + ")") == name
  {
    var labelText := name + " (" + unit + ")";
    var tail := " (" + unit + ")";
    assert labelText[|name|..] == tail;
    assert tail[1..] == "(" + unit + ")" && tail[2..] == unit + ")";
    ClosesAtEnd(unit);
    assert UnitTail(tail);
    forall q | 0 <= q < |name|
      ensures !UnitTail(labelText[q..])
    {
      assert labelText[q..] == name[q..] + tail;
      NoUnitTailInName(name[q..], tail);
    }
  }

  /** Taking the label apart gives back the unit it was built from (also when the unit is empty). */
  lemma UnitSplitsBack(name: string, unit: string)
    requires Splittable(name, unit)
    ensures NutrientUnit(name + " (" + unit + ")") == unit
  {
    var labelText := name + " (" + unit + ")";
    var p := |name| + 1;
    assert labelText[..p] == name + " ";
    NoGroupBefore(labelText, p);
    assert labelText[p..] == "(" + unit + ")";
    if unit != [] {
      assert labelText[p..][1..|labelText[p..]| - 1] == unit;
      assert UnitGroup(labelText[p..]);
      assert labelText[p + 1..|labelText| - 1] == unit;
    }
  }

  /** A group cannot start before the first '('. */
  lemma NoGroupBefore(s: string, k: nat)
    requires k <= |s| && '(' !in s[..k]
    ensures forall q :: 0 <= q < k ==> !UnitGroup(s[q..])
  {
    forall q | 0 <= q < k
      ensures !UnitGroup(s[q..])
    {
      assert s[q..][0] == s[..k][q];
    }
  }

  // ---------------------------------------------------------------- clauses

  /** "dos quais " before an indented row, nothing before a top-level one. */
  function Prefix(indentLevel: nat): string {
    if indentLevel > 0 then "dos quais " else ""
  }

  /** The clause `${prefix}${name} ${per100g} ${unit} (${perPortion} ${unit}, ${percentDV}%)` for given name and unit. */
  function Clause(prefix: string, name: string, unit: string, row: NutritionTableRow): string {
    prefix + name + " " + row.per100g + " " + unit + " (" + row.perPortion + " " + unit + ", " + row.percentDV + "%)"
  }

  /** The clause of one row, with name and unit recovered from its label. */
  function LinearPart(row: NutritionTableRow): string {
    Clause(Prefix(row.indentLevel), NutrientName(row.labelText), NutrientUnit(row.labelText), row)
  }

  /** One clause per row, in row order. */
  function LinearParts(rows: seq<NutritionTableRow>): (r: seq<string>)
    ensures |r| == |rows|
    ensures forall i :: 0 <= i < |rows| ==> r[i] == LinearPart(rows[i])
  {
    MapAll(rows, LinearPart)
  }

  /** `buildLinearContent`: a `forEach` over the rows pushing one clause each. */
  method BuildLinearContent(rows: seq<NutritionTableRow>) returns (parts: seq<string>)
    ensures parts == LinearParts(rows)
  {
    parts := [];
    var index := 0;
    while index < |rows|
      invariant 0 <= index <= |rows|
      invariant parts == LinearParts(rows[..index])
    {
      var row := rows[index];
      var nutrientName := NutrientName(row.labelText);
      var nutrientUnit := NutrientUnit(row.labelText);
      var prefix := if row.indentLevel > 0 then "dos quais " else "";
      MapAllSnoc(rows, index, LinearPart);
      parts := parts + [Clause(prefix, nutrientName, nutrientUnit, row)];
      index := index + 1;
    }
    assert rows[..index] == rows;
  }

  /** A row built by `createRow` for a nutrient gets the clause with that nutrient's own name and unit. */
  lemma CreatedRowClause(row: NutritionTableRow, n: Nutrient)
    requires Splittable(n.name, n.unit)
    requires row.labelText == NutrientLabel(n) && row.indentLevel == n.indentLevel
    ensures LinearPart(row) == Clause(Prefix(n.indentLevel), n.name, n.unit, row)
  {
    NameSplitsBack(n.name, n.unit);
    UnitSplitsBack(n.name, n.unit);
  }

  /** Every fixed nutrient has a name and unit that survive the round trip. */
  lemma MandatorySplittable(i: nat)
    requires i < |MandatoryNutrients|
    ensures Splittable(MandatoryNutrients[i].name, MandatoryNutrients[i].unit)
  {
    if i == 0 {
      EnergySplits();
    } else if i == 1 {
      CarbohydratesSplits();
    } else if i == 2 {
      TotalSugarsSplits();
    } else if i == 3 {
      AddedSugarsSplits();
    } else if i == 4 {
      ProteinsSplits();
    } else if i == 5 {
      TotalFatsSplits();
    } else if i == 6 {
      SaturatedFatsSplits();
    } else if i == 7 {
      TransFatsSplits();
    } else if i == 8 {
      DietaryFiberSplits();
    } else {
      SodiumSplits();
    }
  }

  /** Every micronutrient has a name and unit that survive the round trip, and none is indented. */
  lemma MicronutrientSplittable(k: nat)
    requires k < |Micronutrients|
    ensures Splittable(Micronutrients[k].name, Micronutrients[k].unit)
    ensures Micronutrients[k].indentLevel == 0
  {
    if k == 0 {
      VitaminASplits();
    } else if k == 1 {
      VitaminCSplits();
    } else if k == 2 {
      VitaminDSplits();
    } else if k == 3 {
      VitaminESplits();
    } else if k == 4 {
      CalciumSplits();
    } else if k == 5 {
      IronSplits();
    } else if k == 6 {
      PotassiumSplits();
    } else {
      ZincSplits();
    }
  }

  // Each nutrient's name and unit split back apart; the micronutrients are top-level rows.
  lemma EnergySplits() ensures Splittable(Energy.name, Energy.unit) {}
  lemma CarbohydratesSplits() ensures Splittable(Carbohydrates.name, Carbohydrates.unit) {}
  lemma TotalSugarsSplits() ensures Splittable(TotalSugars.name, TotalSugars.unit) {}
  lemma AddedSugarsSplits() ensures Splittable(AddedSugars.name, AddedSugars.unit) {}
  lemma ProteinsSplits() ensures Splittable(Proteins.name, Proteins.unit) {}
  lemma TotalFatsSplits() ensures Splittable(TotalFats.name, TotalFats.unit) {}
  lemma SaturatedFatsSplits() ensures Splittable(SaturatedFats.name, SaturatedFats.unit) {}
  lemma TransFatsSplits() ensures Splittable(TransFats.name, TransFats.unit) {}
  lemma DietaryFiberSplits() ensures Splittable(DietaryFiber.name, DietaryFiber.unit) {}
  lemma SodiumSplits() ensures Splittable(Sodium.name, Sodium.unit) {}
  lemma VitaminASplits() ensures Splittable(VitaminA.name, VitaminA.unit) && VitaminA.indentLevel == 0 {}
  lemma VitaminCSplits() ensures Splittable(VitaminC.name, VitaminC.unit) && VitaminC.indentLevel == 0 {}
  lemma VitaminDSplits() ensures Splittable(VitaminD.name, VitaminD.unit) && VitaminD.indentLevel == 0 {}
  lemma VitaminESplits() ensures Splittable(VitaminE.name, VitaminE.unit) && VitaminE.indentLevel == 0 {}
  lemma CalciumSplits() ensures Splittable(Calcium.name, Calcium.unit) && Calcium.indentLevel == 0 {}
  lemma IronSplits() ensures Splittable(Iron.name, Iron.unit) && Iron.indentLevel == 0 {}
  lemma PotassiumSplits() ensures Splittable(Potassium.name, Potassium.unit) && Potassium.indentLevel == 0 {}
  lemma ZincSplits() ensures Splittable(Zinc.name, Zinc.unit) && Zinc.indentLevel == 0 {}

  /**
   * The linear text of a record's table: one clause per row; the clause of
   * row i < 10 names the i-th fixed nutrient and its unit, that of row 10+j
   * the j-th declared micronutrient; "dos quais" opens exactly the clauses
   * of indented rows.
   */
  lemma TableClauses(d: NutritionData)
    ensures |LinearParts(TableRows(d))| == |TableRows(d)|
    ensures forall i :: 0 <= i < |MandatoryNutrients| ==>
              i < |TableRows(d)|
              && LinearParts(TableRows(d))[i]
                 == Clause(Prefix(MandatoryNutrients[i].indentLevel), MandatoryNutrients[i].name,
                           MandatoryNutrients[i].unit, TableRows(d)[i])
    ensures forall j :: 0 <= j < |DeclaredMicronutrients(d)| ==>
              DeclaredMicronutrients(d)[j] < |Micronutrients|
              && |MandatoryNutrients| + j < |TableRows(d)|
              && LinearParts(TableRows(d))[|MandatoryNutrients| + j]
                 == Clause("", Micronutrients[DeclaredMicronutrients(d)[j]].name,
                           Micronutrients[DeclaredMicronutrients(d)[j]].unit, TableRows(d)[|MandatoryNutrients| + j])
  {
    forall i | 0 <= i < |MandatoryNutrients|
      ensures i < |TableRows(d)|
              && LinearParts(TableRows(d))[i]
                 == Clause(Prefix(MandatoryNutrients[i].indentLevel), MandatoryNutrients[i].name,
                           MandatoryNutrients[i].unit, TableRows(d)[i])
    {
      MandatoryRowClause(d, i);
    }
    TableRowsCount(d);
    forall j | 0 <= j < |DeclaredMicronutrients(d)|
      ensures DeclaredMicronutrients(d)[j] < |Micronutrients|
              && |MandatoryNutrients| + j < |TableRows(d)|
              && LinearParts(TableRows(d))[|MandatoryNutrients| + j]
                 == Clause("", Micronutrients[DeclaredMicronutrients(d)[j]].name,
                           Micronutrients[DeclaredMicronutrients(d)[j]].unit, TableRows(d)[|MandatoryNutrients| + j])
    {
      MicronutrientRowClause(d, j);
    }
  }

  lemma MandatoryRowClause(d: NutritionData, i: nat)
    requires i < |MandatoryNutrients|
    ensures i < |TableRows(d)|
    ensures LinearParts(TableRows(d))[i]
            == Clause(Prefix(MandatoryNutrients[i].indentLevel), MandatoryNutrients[i].name,
                      MandatoryNutrients[i].unit, TableRows(d)[i])
  {
    TableRowsMandatory(d, i);
    MandatorySplittable(i);
    CreatedRowIdentity(d.portionSize, MandatoryNutrients[i], MandatoryAmounts(d)[i]);
    CreatedRowClause(TableRows(d)[i], MandatoryNutrients[i]);
  }

  lemma MicronutrientRowClause(d: NutritionData, j: nat)
    requires j < |DeclaredMicronutrients(d)|
    ensures DeclaredMicronutrients(d)[j] < |Micronutrients|
    ensures |MandatoryNutrients| + j < |TableRows(d)|
    ensures LinearParts(TableRows(d))[|MandatoryNutrients| + j]
            == Clause("", Micronutrients[DeclaredMicronutrients(d)[j]].name,
                      Micronutrients[DeclaredMicronutrients(d)[j]].unit, TableRows(d)[|MandatoryNutrients| + j])
  {
    TableRowsWithMicronutrientAt(d, RowMaker(d.portionSize), j);
    var k := DeclaredMicronutrients(d)[j];
    var n, row := Micronutrients[k], TableRows(d)[|MandatoryNutrients| + j];
    assert row == CreateRow(d.portionSize, n, MicronutrientAmounts(d)[k].value);
    MicronutrientSplittable(k);
    CreatedRowIdentity(d.portionSize, n, MicronutrientAmounts(d)[k].value);
    CreatedRowClause(row, n);
  }

  /** A created row carries its nutrient's label and indentation. */
  lemma CreatedRowIdentity(portionSize: real, n: Nutrient, value100g: real)
    ensures CreateRow(portionSize, n, value100g).labelText == NutrientLabel(n)
    ensures CreateRow(portionSize, n, value100g).indentLevel == n.indentLevel
  {
  }

  // ---------------------------------------------------------------- separators

  const Bullet := " • "

  /**
   * The paragraph as rendered from index `i` on: each part in its own span,
   * followed by " • " when it is not the last part.
   */
  function RenderFrom(parts: seq<string>, i: nat): string
    requires i <= |parts|
    decreases |parts| - i
  {
    if i == |parts| then ""
    else parts[i] + (if i < |parts| - 1 then Bullet else "") + RenderFrom(parts, i + 1)
  }

  /** The spans read as the parts joined by " • ": a separator only between consecutive parts. */
  lemma {:induction false} RenderFromIsJoin(parts: seq<string>, i: nat)
    requires i <= |parts|
    ensures RenderFrom(parts, i) == Join(parts[i..], Bullet)
    decreases |parts| - i
  {
    if i < |parts| {
      RenderFromIsJoin(parts, i + 1);
      assert parts[i..][1..] == parts[i + 1..];
      if i == |parts| - 1 {
        assert parts[i + 1..] == [];
      }
    }
  }

  /** The whole paragraph body: the clauses joined by " • ", with n - 1 separators for n clauses. */
  lemma RenderedParagraph(parts: seq<string>)
    ensures RenderFrom(parts, 0) == Join(parts, Bullet)
    ensures |parts| > 0 ==> |RenderFrom(parts, 0)| == SumLengths(parts) + (|parts| - 1) * |Bullet|
  {
    RenderFromIsJoin(parts, 0);
    assert parts[0..] == parts;
    if |parts| > 0 {
      JoinLength(parts, Bullet);
    }
  }

  function SumLengths(parts: seq<string>): nat
    decreases |parts|
  {
    if parts == [] then 0 else |parts[0]| + SumLengths(parts[1..])
  }

  lemma {:induction false} JoinLength(parts: seq<string>, sep: string)
    requires |parts| > 0
    ensures |Join(parts, sep)| == SumLengths(parts) + (|parts| - 1) * |sep|
    decreases |parts|
  {
    if |parts| > 1 {
      JoinLength(parts[1..], sep);
    }
  }
}
