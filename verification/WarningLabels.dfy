/**
 * The front-of-pack "ALTO EM" symbol of RDC 429/2020: the list of nutrient
 * labels shown next to the magnifying glass, the badge that draws them and
 * the two panels (compact and full) that decide whether a badge is shown.
 */
module WarningLabels {
  import opened Wrappers
  import opened Selection
  import opened Nutrition
  import opened Calculations
  import opened Strings

  const AddedSugarLabel := "Açúcar Adicionado"
  const SaturatedFatLabel := "Gordura Saturada"
  const SodiumLabel := "Sódio"

  /** The candidate labels, in the order they are pushed. */
  const CandidateLabels: seq<string> := [AddedSugarLabel, SaturatedFatLabel, SodiumLabel]

  /** The three flags, in the same order as the labels. */
  function WarningFlags(w: FrontWarnings): (r: seq<bool>)
    ensures |r| == 3
  {
    [w.highAddedSugar, w.highSaturatedFat, w.highSodium]
  }

  /** The `activeWarnings` array: the label of every raised flag, in candidate order. */
  function ActiveWarnings(w: FrontWarnings): seq<string> {
    Select(CandidateLabels, WarningFlags(w))
  }

  /** The construction shared by `FrontWarningsCompact` and `FrontWarningsDisplay`: three conditional pushes. */
  method BuildActiveWarnings(warnings: FrontWarnings) returns (activeWarnings: seq<string>)
    ensures activeWarnings == ActiveWarnings(warnings)
  {
    activeWarnings := [];
    if warnings.highAddedSugar {
      activeWarnings := activeWarnings + ["Açúcar Adicionado"];
    }
    if warnings.highSaturatedFat {
      activeWarnings := activeWarnings + ["Gordura Saturada"];
    }
    if warnings.highSodium {
      activeWarnings := activeWarnings + ["Sódio"];
    }
    SelectThree(CandidateLabels, WarningFlags(warnings));
  }

  /**
   * The list holds one label per raised flag and nothing else: added sugar
   * first, saturated fat next, sodium last.
   */
  lemma ActiveWarningsInOrder(w: FrontWarnings)
    ensures |ActiveWarnings(w)| == (if w.highAddedSugar then 1 else 0) + (if w.highSaturatedFat then 1 else 0)
                                   + (if w.highSodium then 1 else 0)
    ensures AddedSugarLabel in ActiveWarnings(w) <==> w.highAddedSugar
    ensures SaturatedFatLabel in ActiveWarnings(w) <==> w.highSaturatedFat
    ensures SodiumLabel in ActiveWarnings(w) <==> w.highSodium
    ensures w.highAddedSugar ==> ActiveWarnings(w)[0] == AddedSugarLabel
    ensures w.highSodium ==> ActiveWarnings(w)[|ActiveWarnings(w)| - 1] == SodiumLabel
  {
    SelectThree(CandidateLabels, WarningFlags(w));
    assert AddedSugarLabel != SaturatedFatLabel && AddedSugarLabel != SodiumLabel && SaturatedFatLabel != SodiumLabel by {
      assert AddedSugarLabel[0] == 'A' && SaturatedFatLabel[0] == 'G' && SodiumLabel[0] == 'S';
    }
  }

  /** The list is empty exactly when `hasAnyWarning` is false. */
  lemma ActiveWarningsEmptyIff(w: FrontWarnings)
    ensures ActiveWarnings(w) == [] <==> !HasAnyWarning(w)
    ensures |ActiveWarnings(w)| <= 3
  {
    SelectEmptyIff(CandidateLabels, WarningFlags(w));
    assert WarningFlags(w)[0] == w.highAddedSugar;
  }

  // ---------------------------------------------------------------- rendering

  /** `WarningBadge`: nothing for an empty list, otherwise the magnifying glass followed by one box per label. */
  function WarningBadge(labels: seq<string>): (r: Option<seq<string>>)
    ensures r.None? <==> labels == []
    ensures r.Some? ==> r.value == labels
  {
    if |labels| == 0 then None else Some(labels)
  }

  /**
   * Each box draws its label with the `uppercase` class, so the symbol reads
   * in capitals even though the labels are written in mixed case.
   */
  lemma BadgeLabelsShowUpperCase()
    ensures Upper(AddedSugarLabel) == "AÇÚCAR ADICIONADO"
    ensures Upper(SaturatedFatLabel) == "GORDURA SATURADA"
    ensures Upper(SodiumLabel) == "SÓDIO"
  {
  }

  /** `FrontWarningsCompact`: no output without a warning, otherwise a badge with the active labels. */
  function CompactPanel(w: FrontWarnings): Option<seq<string>> {
    var active := ActiveWarnings(w);
    if |active| == 0 then None else WarningBadge(active)
  }

  /** What `FrontWarningsDisplay` shows: a reassurance message, or the badge with its summary sentence. */
  datatype DisplayPanel =
    | NoWarningMessage
    | WarningPanel(badge: Option<seq<string>>, summary: string)

  const SymbolNotice := "Símbolo obrigatório na parte frontal da embalagem conforme ANVISA."

  /** The sentence appended for a given number of labels (only 1, 2 and 3 add one). */
  function CountSentence(n: nat): string {
    if n == 1 then " O produto é alto em 1 nutriente crítico."
    else if n == 2 then " O produto é alto em 2 nutrientes críticos."
    else if n == 3 then " O produto é alto em 3 nutrientes críticos."
    else ""
  }

  function DisplayPanelOf(w: FrontWarnings): DisplayPanel {
    var active := ActiveWarnings(w);
    if !(|active| > 0) then NoWarningMessage
    else WarningPanel(WarningBadge(active), SymbolNotice + CountSentence(|active|))
  }

  /**
   * Both panels agree: the compact one draws a badge exactly when the full
   * one does, with the same labels; neither draws anything without a
   * warning, when the full one shows its reassurance message instead; and
   * the summary always ends with one of the three count sentences.
   */
  lemma PanelsAgree(w: FrontWarnings)
    ensures CompactPanel(w).None? <==> !HasAnyWarning(w)
    ensures DisplayPanelOf(w) == NoWarningMessage <==> !HasAnyWarning(w)
    ensures DisplayPanelOf(w).WarningPanel? ==>
              DisplayPanelOf(w).badge == CompactPanel(w) && CompactPanel(w) == Some(ActiveWarnings(w))
              && 1 <= |ActiveWarnings(w)| <= 3
              && DisplayPanelOf(w).summary == SymbolNotice + CountSentence(|ActiveWarnings(w)|)
              && CountSentence(|ActiveWarnings(w)|) != ""
  {
    ActiveWarningsEmptyIff(w);
  }

  /** For a record, the panel shows the badge exactly when some amount reaches its limit. */
  lemma RecordPanel(d: NutritionData)
    ensures DisplayPanelOf(CalculateFrontWarnings(d)).WarningPanel? <==>
              d.addedSugars100g >= ApplicableThresholds(d).addedSugar
              || d.saturatedFats100g >= ApplicableThresholds(d).saturatedFat
              || d.sodium100g >= ApplicableThresholds(d).sodium
  {
    PanelsAgree(CalculateFrontWarnings(d));
    NoWarningIffBelowLimits(d);
  }
}
