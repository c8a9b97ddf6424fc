/**
 * The data of a nutrition label and the fixed reference tables of the
 * Brazilian rules: the allergen catalogue of RDC 727/2022, the daily
 * reference values and the front-of-pack warning thresholds of RDC 429/2020,
 * and the record a new label starts from.
 */
module Nutrition {
  import opened Wrappers

  // ---------------------------------------------------------------- allergens

  /** Identifier of an allergen; any string, so that an id outside the catalogue can be represented. */
  type AllergenId = string

  datatype Allergen = Allergen(id: AllergenId, labelText: string)

  /** The 21 declarable allergenic foods, in catalogue order. */
  const Allergens: seq<Allergen> := [
    Allergen("wheat", "Trigo"),
    Allergen("rye", "Centeio"),
    Allergen("barley", "Cevada"),
    Allergen("oats", "Aveia"),
    Allergen("crustaceans", "Crustáceos"),
    Allergen("eggs", "Ovos"),
    Allergen("fish", "Peixes"),
    Allergen("peanuts", "Amendoim"),
    Allergen("soy", "Soja"),
    Allergen("milk", "Leite"),
    Allergen("almonds", "Amêndoa"),
    Allergen("hazelnuts", "Avelãs"),
    Allergen("cashews", "Castanha-de-caju"),
    Allergen("brazilNuts", "Castanha-do-brasil"),
    Allergen("macadamias", "Macadâmias"),
    Allergen("walnuts", "Nozes"),
    Allergen("pecans", "Pecãs"),
    Allergen("pistachios", "Pistaches"),
    Allergen("pineNuts", "Pinoli"),
    Allergen("chestnuts", "Castanhas"),
    Allergen("latex", "Látex natural")
  ]

  /** The three independent declaration lists; one id may sit in several of them, and duplicates are kept. */
  datatype AllergenData = AllergenData(
    contains: seq<AllergenId>,
    containsDerivatives: seq<AllergenId>,
    mayContain: seq<AllergenId>)

  datatype GlutenStatus = GlutenContains | GlutenFree

  datatype LactoseStatus = LactoseContains | LactoseNone

  // ---------------------------------------------------------------- records

  /**
   * One label's input.  Nutrient amounts are per 100 g (or 100 ml when
   * `isLiquid`); a micronutrient that was never entered is `None`.
   */
  datatype NutritionData = NutritionData(
    productName: string,
    portionsPerPackage: real,
    portionSize: real,
    portionDescription: string,
    isLiquid: bool,
    energyKcal100g: real,
    carbohydrates100g: real,
    totalSugars100g: real,
    addedSugars100g: real,
    proteins100g: real,
    totalFats100g: real,
    saturatedFats100g: real,
    transFats100g: real,
    dietaryFiber100g: real,
    sodium100g: real,
    vitaminA100g: Option<real>,
    vitaminC100g: Option<real>,
    vitaminD100g: Option<real>,
    vitaminE100g: Option<real>,
    calcium100g: Option<real>,
    iron100g: Option<real>,
    potassium100g: Option<real>,
    zinc100g: Option<real>,
    allergens: AllergenData,
    glutenStatus: GlutenStatus,
    lactoseStatus: LactoseStatus)

  /** One line of the nutrition table, already formatted for display. */
  datatype NutritionTableRow = NutritionTableRow(
    labelText: string,
    per100g: string,
    perPortion: string,
    percentDV: string,
    indentLevel: nat)

  datatype FrontWarnings = FrontWarnings(
    highAddedSugar: bool,
    highSaturatedFat: bool,
    highSodium: bool)

  // ---------------------------------------------------------------- reference values

  datatype DailyValueTable = DailyValueTable(
    energyKcal: real,
    carbohydrates: real,
    totalSugars: real,
    addedSugars: real,
    proteins: real,
    totalFats: real,
    saturatedFats: real,
    transFats: real,
    dietaryFiber: real,
    sodium: real,
    vitaminA: real,
    vitaminC: real,
    vitaminD: real,
    vitaminE: real,
    calcium: real,
    iron: real,
    potassium: real,
    zinc: real)

  /** Daily reference intakes (kcal, g, mg or μg as the nutrient's row says). */
  const DailyValues := DailyValueTable(
    energyKcal := 2000.0,
    carbohydrates := 300.0,
    totalSugars := 50.0,
    addedSugars := 50.0,
    proteins := 75.0,
    totalFats := 55.0,
    saturatedFats := 22.0,
    transFats := 2.0,
    dietaryFiber := 25.0,
    sodium := 2400.0,
    vitaminA := 600.0,
    vitaminC := 45.0,
    vitaminD := 5.0,
    vitaminE := 10.0,
    calcium := 1000.0,
    iron := 14.0,
    potassium := 3500.0,
    zinc := 7.0)

  /** Every entry of a daily-value table, in table order. */
  function DailyValueEntries(t: DailyValueTable): (r: seq<real>)
    ensures |r| == 18
  {
    [t.energyKcal, t.carbohydrates, t.totalSugars, t.addedSugars, t.proteins, t.totalFats,
     t.saturatedFats, t.transFats, t.dietaryFiber, t.sodium, t.vitaminA, t.vitaminC,
     t.vitaminD, t.vitaminE, t.calcium, t.iron, t.potassium, t.zinc]
  }

  datatype Thresholds = Thresholds(addedSugar: real, saturatedFat: real, sodium: real)

  datatype ThresholdTable = ThresholdTable(solid: Thresholds, liquid: Thresholds)

  /** Front-of-pack limits per 100 g (solid) or 100 ml (liquid). */
  const WarningThresholds := ThresholdTable(
    solid := Thresholds(addedSugar := 15.0, saturatedFat := 6.0, sodium := 600.0),
    liquid := Thresholds(addedSugar := 7.5, saturatedFat := 3.0, sodium := 300.0))

  // ---------------------------------------------------------------- defaults

  const NoAllergens := AllergenData([], [], [])

  /** The record a new label starts from. */
  const DefaultNutritionData := NutritionData(
    productName := "",
    portionsPerPackage := 1.0,
    portionSize := 100.0,
    portionDescription := "(medida caseira)",
    isLiquid := false,
    energyKcal100g := 0.0,
    carbohydrates100g := 0.0,
    totalSugars100g := 0.0,
    addedSugars100g := 0.0,
    proteins100g := 0.0,
    totalFats100g := 0.0,
    saturatedFats100g := 0.0,
    transFats100g := 0.0,
    dietaryFiber100g := 0.0,
    sodium100g := 0.0,
    vitaminA100g := None,
    vitaminC100g := None,
    vitaminD100g := None,
    vitaminE100g := None,
    calcium100g := None,
    iron100g := None,
    potassium100g := None,
    zinc100g := None,
    allergens := NoAllergens,
    glutenStatus := GlutenFree,
    lactoseStatus := LactoseNone)

  // ---------------------------------------------------------------- facts about the tables

  /** The catalogue has 21 entries, no id twice and no empty label. */
  lemma AllergenCatalogWellFormed()
    ensures |Allergens| == 21
    ensures forall i, j :: 0 <= i < j < |Allergens| ==> Allergens[i].id != Allergens[j].id
    ensures forall i :: 0 <= i < |Allergens| ==> Allergens[i].labelText != ""
  {
  }

  /** No daily value is zero or negative. */
  lemma DailyValuesPositive()
    ensures forall i :: 0 <= i < 18 ==> DailyValueEntries(DailyValues)[i] > 0.0
  {
  }

  /** Every liquid limit is half the solid one. */
  lemma LiquidThresholdsHalveSolid()
    ensures WarningThresholds.liquid.addedSugar * 2.0 == WarningThresholds.solid.addedSugar
    ensures WarningThresholds.liquid.saturatedFat * 2.0 == WarningThresholds.solid.saturatedFat
    ensures WarningThresholds.liquid.sodium * 2.0 == WarningThresholds.solid.sodium
  {
  }

  /** A new label declares nothing: no allergen, gluten free, lactose not declared, every mandatory amount zero and no micronutrient entered. */
  lemma DefaultRecordDeclaresNothing()
    ensures DefaultNutritionData.allergens.contains == []
    ensures DefaultNutritionData.allergens.containsDerivatives == []
    ensures DefaultNutritionData.allergens.mayContain == []
    ensures DefaultNutritionData.glutenStatus == GlutenFree
    ensures DefaultNutritionData.lactoseStatus == LactoseNone
    ensures DefaultNutritionData.portionSize == 100.0
    ensures DefaultNutritionData.energyKcal100g == DefaultNutritionData.carbohydrates100g
            == DefaultNutritionData.totalSugars100g == DefaultNutritionData.addedSugars100g
            == DefaultNutritionData.proteins100g == DefaultNutritionData.totalFats100g
            == DefaultNutritionData.saturatedFats100g == DefaultNutritionData.transFats100g
            == DefaultNutritionData.dietaryFiber100g == DefaultNutritionData.sodium100g == 0.0
    ensures DefaultNutritionData.vitaminA100g == DefaultNutritionData.vitaminC100g
            == DefaultNutritionData.vitaminD100g == DefaultNutritionData.vitaminE100g
            == DefaultNutritionData.calcium100g == DefaultNutritionData.iron100g
            == DefaultNutritionData.potassium100g == DefaultNutritionData.zinc100g == None
  {
  }
}
