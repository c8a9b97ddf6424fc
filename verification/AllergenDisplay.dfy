/**
 * The mandatory declarations block of the label (RDC 727/2022): the
 * allergen sentence "ALÉRGICOS: CONTÉM …, DERIVADOS DE … E PODE CONTER …."
 * built by the full and the compact view, the lactose line and the gluten
 * line that every label carries.
 */
module AllergenDisplay {
  import opened Wrappers
  import opened Strings
  import opened Selection
  import opened Nutrition

  // ---------------------------------------------------------------- labels

  /** `catalog.find(a => a.id === id)`: the first entry carrying `id`. */
  function FindAllergen(catalog: seq<Allergen>, id: AllergenId): (r: Option<Allergen>)
    ensures r.Some? ==> r.value in catalog && r.value.id == id
    ensures r.None? <==> forall i :: 0 <= i < |catalog| ==> catalog[i].id != id
    decreases |catalog|
  {
    if catalog == [] then None
    else if catalog[0].id == id then Some(catalog[0])
    else FindAllergen(catalog[1..], id)
  }

  /** The entry found is the first one with that id. */
  lemma {:induction false} FindAllergenFirst(catalog: seq<Allergen>, id: AllergenId, i: nat)
    requires i < |catalog| && catalog[i].id == id
    requires forall k :: 0 <= k < i ==> catalog[k].id != id
    ensures FindAllergen(catalog, id) == Some(catalog[i])
    decreases i
  {
    if i > 0 {
      FindAllergenFirst(catalog[1..], id, i - 1);
    }
  }

  /** `find(...)?.label || id` on a given catalogue: a missing entry or an empty label falls back to the id. */
  function AllergenLabelIn(catalog: seq<Allergen>, id: AllergenId): string {
    match FindAllergen(catalog, id)
    case Some(a) => if a.labelText != "" then a.labelText else id
    case None => id
  }

  /** `getAllergenLabel`. */
  function GetAllergenLabel(id: AllergenId): string {
    AllergenLabelIn(Allergens, id)
  }

  /** In a catalogue without repeated ids, an entry with a label is shown by that label; an unknown id by itself. */
  lemma LabelInCatalog(catalog: seq<Allergen>, id: AllergenId)
    requires forall i, j :: 0 <= i < j < |catalog| ==> catalog[i].id != catalog[j].id
    ensures forall i :: 0 <= i < |catalog| && catalog[i].id == id && catalog[i].labelText != "" ==>
              AllergenLabelIn(catalog, id) == catalog[i].labelText
    ensures (forall i :: 0 <= i < |catalog| ==> catalog[i].id != id) ==> AllergenLabelIn(catalog, id) == id
  {
    forall i | 0 <= i < |catalog| && catalog[i].id == id
      ensures FindAllergen(catalog, id) == Some(catalog[i])
    {
      FindAllergenFirst(catalog, id, i);
    }
  }

  /** `getAllergenLabel` never fails: a catalogue id gets its Portuguese name, any other id is shown as it is. */
  lemma GetAllergenLabelCases(id: AllergenId)
    ensures forall i :: 0 <= i < |Allergens| && Allergens[i].id == id ==> GetAllergenLabel(id) == Allergens[i].labelText
    ensures (forall i :: 0 <= i < |Allergens| ==> Allergens[i].id != id) ==> GetAllergenLabel(id) == id
  {
    AllergenCatalogWellFormed();
    LabelInCatalog(Allergens, id);
  }

  /** `ids.map(getAllergenLabel)`. */
  function AllergenLabels(ids: seq<AllergenId>): (r: seq<string>)
    ensures |r| == |ids|
    ensures forall i :: 0 <= i < |ids| ==> r[i] == GetAllergenLabel(ids[i])
  {
    MapAll(ids, GetAllergenLabel)
  }

  /** `ids.map(getAllergenLabel).join(', ')`. */
  function Names(ids: seq<AllergenId>): string {
    Join(AllergenLabels(ids), ", ")
  }

  /** One more id at the end of a list adds ", " and its label at the end of the names: order and repeats are kept. */
  lemma NamesSnoc(ids: seq<AllergenId>, id: AllergenId)
    ensures Names(ids + [id]) == if ids == [] then GetAllergenLabel(id)
                                 else Names(ids) + ", " + GetAllergenLabel(id)
  {
    MapAllSnoc(ids + [id], |ids|, GetAllergenLabel);
    assert (ids + [id])[..|ids|] == ids && (ids + [id])[..|ids| + 1] == ids + [id];
    if ids != [] {
      JoinSnoc(AllergenLabels(ids), GetAllergenLabel(id), ", ");
    }
  }

  // ---------------------------------------------------------------- the allergen sentence

  const SentenceHead := "ALÉRGICOS: "

  /** The three clause openings of the full view, in the order they are pushed. */
  const ClauseIntros: seq<string> := ["contém ", "derivados de ", "pode conter "]

  /** The three declaration lists, in the order the clauses are pushed. */
  function CategoryLists(a: AllergenData): (r: seq<seq<AllergenId>>)
    ensures |r| == 3
  {
    [a.contains, a.containsDerivatives, a.mayContain]
  }

  /** A clause is pushed when its list is non-empty. */
  function ClauseFlags(a: AllergenData): (r: seq<bool>)
    ensures |r| == 3
    ensures forall k :: 0 <= k < 3 ==> (r[k] <==> CategoryLists(a)[k] != [])
  {
    [a.contains != [], a.containsDerivatives != [], a.mayContain != []]
  }

  /** Every candidate clause of the full view, pushed or not. */
  function ClauseCandidates(a: AllergenData): (r: seq<string>)
    ensures |r| == 3
  {
    [ClauseIntros[0] + Names(a.contains),
     ClauseIntros[1] + Names(a.containsDerivatives),
     ClauseIntros[2] + Names(a.mayContain)]
  }

  /** The `parts` array of the full view. */
  function Clauses(a: AllergenData): seq<string> {
    Select(ClauseCandidates(a), ClauseFlags(a))
  }

  /** What `buildAllergenText` in the full view returns; `None` is the `null` of the source. */
  function AllergenText(a: AllergenData): Option<string> {
    var parts := Clauses(a);
    if parts == [] then None else Some(SentenceHead + Upper(Join(parts, " e ")) + ".")
  }

  /** Clause order and presence: "contém" first, "derivados de" next, "pode conter" last, each only for a non-empty list. */
  lemma ClausesInOrder(a: AllergenData)
    ensures |Clauses(a)| == (if a.contains != [] then 1 else 0) + (if a.containsDerivatives != [] then 1 else 0)
                            + (if a.mayContain != [] then 1 else 0)
    ensures a.contains != [] ==> Clauses(a)[0] == "contém " + Names(a.contains)
    ensures a.containsDerivatives != [] ==>
              Clauses(a)[if a.contains != [] then 1 else 0] == "derivados de " + Names(a.containsDerivatives)
    ensures a.mayContain != [] ==> Clauses(a)[|Clauses(a)| - 1] == "pode conter " + Names(a.mayContain)
  {
    SelectThree(ClauseCandidates(a), ClauseFlags(a));
  }

  /** There is no sentence exactly when all three lists are empty. */
  lemma AllergenTextNoneIff(a: AllergenData)
    ensures AllergenText(a).None? <==> a.contains == [] && a.containsDerivatives == [] && a.mayContain == []
  {
    SelectThree(ClauseCandidates(a), ClauseFlags(a));
  }

  /** A sentence always starts with "ALÉRGICOS: " and ends with a full stop. */
  lemma AllergenTextFrame(a: AllergenData)
    ensures AllergenText(a).Some? ==>
              |AllergenText(a).value| > |SentenceHead|
              && AllergenText(a).value[..|SentenceHead|] == SentenceHead
              && AllergenText(a).value[|AllergenText(a).value| - 1] == '.'
  {
  }

  /** The full view's `buildAllergenText`: the clauses are pushed one after the other, then joined and upper-cased. */
  method BuildAllergenText(allergens: AllergenData) returns (text: Option<string>)
    ensures text == AllergenText(allergens)
  {
    ghost var items, keep := ClauseCandidates(allergens), ClauseFlags(allergens);
    var parts: seq<string> := [];
    if |allergens.contains| > 0 {
      var names := Join(AllergenLabels(allergens.contains), ", ");
      parts := parts + ["contém " + names];
    }
    assert parts == if keep[0] then [items[0]] else [];
    if |allergens.containsDerivatives| > 0 {
      var names := Join(AllergenLabels(allergens.containsDerivatives), ", ");
      parts := parts + ["derivados de " + names];
    }
    assert parts == (if keep[0] then [items[0]] else []) + (if keep[1] then [items[1]] else []);
    if |allergens.mayContain| > 0 {
      var names := Join(AllergenLabels(allergens.mayContain), ", ");
      parts := parts + ["pode conter " + names];
    }
    SelectThree(items, keep);
    assert parts == Select(items, keep);
    if |parts| == 0 {
      return None;
    }
    text := Some(SentenceHead + Upper(Join(parts, " e ")) + ".");
  }

  // ---------------------------------------------------------------- the compact sentence

  /** The clauses of the compact view: upper-case openings, names upper-cased one clause at a time. */
  function CompactClauseCandidates(a: AllergenData): (r: seq<string>)
    ensures |r| == 3
  {
    ["CONTÉM " + Upper(Names(a.contains)),
     "DERIVADOS DE " + Upper(Names(a.containsDerivatives)),
     "PODE CONTER " + Upper(Names(a.mayContain))]
  }

  /** What `buildAllergenText` in the compact view returns. */
  function CompactAllergenText(a: AllergenData): Option<string> {
    var parts := Select(CompactClauseCandidates(a), ClauseFlags(a));
    if parts == [] then None else Some(SentenceHead + Join(parts, " E ") + ".")
  }

  /** The compact view's `buildAllergenText`, pushing already upper-cased clauses and joining them with " E ". */
  method BuildAllergenTextCompact(allergens: AllergenData) returns (text: Option<string>)
    ensures text == CompactAllergenText(allergens)
  {
    ghost var items, keep := CompactClauseCandidates(allergens), ClauseFlags(allergens);
    var parts: seq<string> := [];
    if |allergens.contains| > 0 {
      var names := Join(AllergenLabels(allergens.contains), ", ");
      parts := parts + ["CONTÉM " + Upper(names)];
    }
    assert parts == if keep[0] then [items[0]] else [];
    if |allergens.containsDerivatives| > 0 {
      var names := Join(AllergenLabels(allergens.containsDerivatives), ", ");
      parts := parts + ["DERIVADOS DE " + Upper(names)];
    }
    assert parts == (if keep[0] then [items[0]] else []) + (if keep[1] then [items[1]] else []);
    if |allergens.mayContain| > 0 {
      var names := Join(AllergenLabels(allergens.mayContain), ", ");
      parts := parts + ["PODE CONTER " + Upper(names)];
    }
    SelectThree(items, keep);
    assert parts == Select(items, keep);
    if |parts| == 0 {
      return None;
    }
    text := Some(SentenceHead + Join(parts, " E ") + ".");
  }

  /** Upper-casing every selected part is selecting among the upper-cased candidates. */
  lemma {:induction false} UpperSelect(items: seq<string>, keep: seq<bool>)
    requires |items| == |keep|
    ensures MapUpper(Select(items, keep)) == Select(MapUpper(items), keep)
    decreases |items|
  {
    if |items| > 0 {
      var n := |items| - 1;
      UpperSelect(items[..n], keep[..n]);
      assert MapUpper(items)[..n] == MapUpper(items[..n]);
      assert MapUpper(Select(items, keep))
          == MapUpper(Select(items[..n], keep[..n])) + MapUpper(if keep[n] then [items[n]] else []);
    }
  }

  /** The compact view prints the same sentence as the full view. */
  lemma CompactMatchesFull(a: AllergenData)
    ensures CompactAllergenText(a) == AllergenText(a)
  {
    var items, keep := ClauseCandidates(a), ClauseFlags(a);
    var parts := Select(items, keep);
    assert Upper(ClauseIntros[0]) == "CONTÉM ";
    assert Upper(ClauseIntros[1]) == "DERIVADOS DE ";
    assert Upper(ClauseIntros[2]) == "PODE CONTER ";
    assert Upper(" e ") == " E ";
    forall k | 0 <= k < 3
      ensures MapUpper(items)[k] == CompactClauseCandidates(a)[k]
    {
      UpperAppend(ClauseIntros[k], Names(CategoryLists(a)[k]));
    }
    assert MapUpper(items) == CompactClauseCandidates(a);
    UpperSelect(items, keep);
    UpperJoin(parts, " e ");
    assert |MapUpper(parts)| == |parts|;
  }

  // ---------------------------------------------------------------- the declarations block

  const LactoseLine := "CONTÉM LACTOSE"
  const GlutenContainsLine := "CONTÉM GLÚTEN"
  const GlutenFreeLine := "NÃO CONTÉM GLÚTEN"
  const NothingDeclaredNote := "Nenhum alergênico ou lactose declarado." + " A declaração de glúten é sempre obrigatória."

  /** The gluten statement, always present. */
  function GlutenLine(status: GlutenStatus): string {
    if status == GlutenContains then GlutenContainsLine else GlutenFreeLine
  }

  predicate IsGlutenLine(s: string) {
    s == GlutenContainsLine || s == GlutenFreeLine
  }

  /** The layout both views share, top to bottom: the sentence if any, the lactose line if declared, the gluten line. */
  function LinesWith(sentence: Option<string>, d: NutritionData): seq<string> {
    (match sentence case Some(t) => [t] case None => [])
    + (if d.lactoseStatus == LactoseContains then [LactoseLine] else [])
    + [GlutenLine(d.glutenStatus)]
  }

  /** The lines of `AllergenDisplayCompact`, with the sentence of its own builder. */
  function CompactLines(d: NutritionData): seq<string> {
    LinesWith(CompactAllergenText(d.allergens), d)
  }

  /** `hasAnyDeclaration`: a sentence or a lactose declaration. */
  predicate HasAnyDeclaration(d: NutritionData) {
    AllergenText(d.allergens).Some? || d.lactoseStatus == LactoseContains
  }

  /** The text lines of `AllergenDisplay` below its heading: the shared layout with the full sentence, then the note when nothing is declared. */
  function DisplayLines(d: NutritionData): seq<string> {
    LinesWith(AllergenText(d.allergens), d) + (if !HasAnyDeclaration(d) then [NothingDeclaredNote] else [])
  }

  /** Flags marking the gluten lines of a block. */
  function GlutenLineFlags(lines: seq<string>): (r: seq<bool>)
    ensures |r| == |lines|
    ensures forall i :: 0 <= i < |lines| ==> (r[i] <==> IsGlutenLine(lines[i]))
  {
    seq(|lines|, i requires 0 <= i < |lines| => IsGlutenLine(lines[i]))
  }

  /** Neither the sentence, the lactose line nor the note can be mistaken for a gluten line. */
  lemma OnlyGlutenLineIsGluten(d: NutritionData)
    ensures forall i :: 0 <= i < |DisplayLines(d)| ==>
              (IsGlutenLine(DisplayLines(d)[i]) <==> DisplayLines(d)[i] == GlutenLine(d.glutenStatus))
    ensures forall i, j :: 0 <= i < j < |DisplayLines(d)| ==> !(IsGlutenLine(DisplayLines(d)[i]) && IsGlutenLine(DisplayLines(d)[j]))
  {
    AllergenTextFrame(d.allergens);
    assert SentenceHead[0] == 'A' && GlutenContainsLine[0] == 'C' && GlutenFreeLine[0] == 'N';
    assert LactoseLine[7] != GlutenContainsLine[7] && LactoseLine[0] != GlutenFreeLine[0];
    assert |NothingDeclaredNote| > |GlutenFreeLine| > |GlutenContainsLine|;
  }

  /**
   * The declarations block: exactly one gluten line, reading "CONTÉM GLÚTEN"
   * only for gluten; the lactose line only when lactose is declared; the
   * note only when no allergen list has an entry and lactose is not
   * declared; and, the note aside, the same lines as the compact view
   * with its own builder.
   */
  lemma DeclarationsBlock(d: NutritionData)
    ensures Count(GlutenLineFlags(DisplayLines(d))) == 1
    ensures GlutenLine(d.glutenStatus) in DisplayLines(d)
    ensures GlutenLine(d.glutenStatus) == GlutenContainsLine <==> d.glutenStatus == GlutenContains
    ensures LactoseLine in DisplayLines(d) <==> d.lactoseStatus == LactoseContains
    ensures NothingDeclaredNote in DisplayLines(d) <==>
              d.allergens.contains == [] && d.allergens.containsDerivatives == [] && d.allergens.mayContain == []
              && d.lactoseStatus != LactoseContains
    ensures DisplayLines(d) == CompactLines(d) + (if NothingDeclaredNote in DisplayLines(d) then [NothingDeclaredNote] else [])
  {
    OnlyGlutenLineIsGluten(d);
    assert GlutenLine(d.glutenStatus) in DisplayLines(d);
    GlutenCount(DisplayLines(d), GlutenLine(d.glutenStatus));
    AllergenTextNoneIff(d.allergens);
    DeclarationsMembership(d);
    CompactMatchesFull(d.allergens);
  }

  /** Which of the optional lines a block holds. */
  lemma DeclarationsMembership(d: NutritionData)
    ensures LactoseLine in DisplayLines(d) <==> d.lactoseStatus == LactoseContains
    ensures NothingDeclaredNote in DisplayLines(d) <==> !HasAnyDeclaration(d)
  {
    AllergenTextFrame(d.allergens);
    var text := AllergenText(d.allergens);
    if text.Some? {
      assert text.value[0] == text.value[..|SentenceHead|][0] == SentenceHead[0] == 'A';
    }
    var note := if !HasAnyDeclaration(d) then [NothingDeclaredNote] else [];
    LinesMembership(text, d, note);
  }

  /** The shared layout followed by an optional note, for any sentence that starts with 'A'. */
  lemma LinesMembership(text: Option<string>, d: NutritionData, note: seq<string>)
    requires text.Some? ==> |text.value| > 0 && text.value[0] == 'A'
    requires note == [] || note == [NothingDeclaredNote]
    ensures LactoseLine in LinesWith(text, d) + note <==> d.lactoseStatus == LactoseContains
    ensures NothingDeclaredNote in LinesWith(text, d) + note <==> note != []
  {
    var sentence := match text case Some(t) => [t] case None => [];
    var lactose := if d.lactoseStatus == LactoseContains then [LactoseLine] else [];
    assert LinesWith(text, d) + note == sentence + lactose + [GlutenLine(d.glutenStatus)] + note;
    assert forall t :: t in sentence ==> |t| > 0 && t[0] == 'A';
    assert IsGlutenLine(GlutenLine(d.glutenStatus));
    OptionalLinesFound(sentence, lactose, GlutenLine(d.glutenStatus), note);
  }

  /** In a block laid out as sentence, lactose, gluten, note, the lactose line and the note are found only where placed. */
  lemma OptionalLinesFound(sentence: seq<string>, lactose: seq<string>, gluten: string, note: seq<string>)
    requires forall t :: t in sentence ==> |t| > 0 && t[0] == 'A'
    requires lactose == [] || lactose == [LactoseLine]
    requires IsGlutenLine(gluten)
    requires note == [] || note == [NothingDeclaredNote]
    ensures LactoseLine in sentence + lactose + [gluten] + note <==> lactose != []
    ensures NothingDeclaredNote in sentence + lactose + [gluten] + note <==> note != []
  {
    assert LactoseLine[0] != 'A';
    assert NothingDeclaredNote[0] != 'A';
    assert |LactoseLine| != |gluten| && |NothingDeclaredNote| > |gluten| && |NothingDeclaredNote| > |LactoseLine|;
  }

  /** A block holding its gluten line and no other gluten line counts exactly one. */
  lemma {:induction false} GlutenCount(lines: seq<string>, g: string)
    requires g in lines
    requires forall i :: 0 <= i < |lines| ==> (IsGlutenLine(lines[i]) <==> lines[i] == g)
    requires forall i, j :: 0 <= i < j < |lines| ==> !(IsGlutenLine(lines[i]) && IsGlutenLine(lines[j]))
    ensures Count(GlutenLineFlags(lines)) == 1
    decreases |lines|
  {
    var n := |lines| - 1;
    assert GlutenLineFlags(lines)[..n] == GlutenLineFlags(lines[..n]);
    if lines[n] == g {
      NoGlutenCount(lines[..n]);
    } else {
      assert g in lines[..n];
      GlutenCount(lines[..n], g);
    }
  }

  lemma {:induction false} NoGlutenCount(lines: seq<string>)
    requires forall i :: 0 <= i < |lines| ==> !IsGlutenLine(lines[i])
    ensures Count(GlutenLineFlags(lines)) == 0
    decreases |lines|
  {
    if lines != [] {
      var n := |lines| - 1;
      assert GlutenLineFlags(lines)[..n] == GlutenLineFlags(lines[..n]);
      NoGlutenCount(lines[..n]);
    }
  }
}
