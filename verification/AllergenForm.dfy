/**
 * The allergen part of the input form: ticking or unticking an allergen in
 * one of the three declaration lists, and choosing the gluten and lactose
 * statements.  Every change produces a new record; nothing is updated in
 * place.
 */
module AllergenForm {
  import opened Selection
  import opened Nutrition

  /** The three declaration lists a checkbox can belong to. */
  datatype Category = Contains | ContainsDerivatives | MayContain

  /** `data.allergens[category]`. */
  function CategoryList(a: AllergenData, c: Category): seq<AllergenId> {
    match c
    case Contains => a.contains
    case ContainsDerivatives => a.containsDerivatives
    case MayContain => a.mayContain
  }

  /** `{ ...allergens, [category]: ids }`: the category gets `ids`, the other two lists are copied. */
  function WithCategoryList(a: AllergenData, c: Category, ids: seq<AllergenId>): (r: AllergenData)
    ensures CategoryList(r, c) == ids
    ensures forall other :: other != c ==> CategoryList(r, other) == CategoryList(a, other)
  {
    match c
    case Contains => a.(contains := ids)
    case ContainsDerivatives => a.(containsDerivatives := ids)
    case MayContain => a.(mayContain := ids)
  }

  /** `ids.filter(x => x !== id)`: the kept ids pushed in list order. */
  function RemoveAll(ids: seq<AllergenId>, id: AllergenId): (r: seq<AllergenId>)
    ensures id !in r
    ensures |r| <= |ids|
    decreases |ids|
  {
    if ids == [] then []
    else
      var n := |ids| - 1;
      RemoveAll(ids[..n], id) + (if ids[n] != id then [ids[n]] else [])
  }

  /** Which entries the filter keeps. */
  function KeepFlags(ids: seq<AllergenId>, id: AllergenId): (r: seq<bool>)
    ensures |r| == |ids|
    ensures forall i :: 0 <= i < |ids| ==> (r[i] <==> ids[i] != id)
  {
    seq(|ids|, i requires 0 <= i < |ids| => ids[i] != id)
  }

  /**
   * The filter keeps exactly the entries different from `id`, in their
   * original order (so `SelectCharacterization` applies).
   */
  lemma {:induction false} RemoveAllSelects(ids: seq<AllergenId>, id: AllergenId)
    ensures RemoveAll(ids, id) == Select(ids, KeepFlags(ids, id))
    decreases |ids|
  {
    if ids != [] {
      var n := |ids| - 1;
      assert KeepFlags(ids, id)[..n] == KeepFlags(ids[..n], id);
      RemoveAllSelects(ids[..n], id);
    }
  }

  /** Every other id keeps its number of occurrences; `id` has none left. */
  lemma {:induction false} RemoveAllCounts(ids: seq<AllergenId>, id: AllergenId)
    ensures multiset(RemoveAll(ids, id))[id] == 0
    ensures forall other :: other != id ==> multiset(RemoveAll(ids, id))[other] == multiset(ids)[other]
    decreases |ids|
  {
    if ids != [] {
      var n := |ids| - 1;
      RemoveAllCounts(ids[..n], id);
      assert ids == ids[..n] + [ids[n]];
      assert multiset(ids) == multiset(ids[..n]) + multiset{ids[n]};
      assert multiset(RemoveAll(ids, id))
          == multiset(RemoveAll(ids[..n], id)) + (if ids[n] != id then multiset{ids[n]} else multiset{});
    }
  }

  /** Filtering out an id that is not there changes nothing. */
  lemma {:induction false} RemoveAllAbsent(ids: seq<AllergenId>, id: AllergenId)
    requires id !in ids
    ensures RemoveAll(ids, id) == ids
    decreases |ids|
  {
    if ids != [] {
      var n := |ids| - 1;
      assert id !in ids[..n];
      RemoveAllAbsent(ids[..n], id);
      assert ids == ids[..n] + [ids[n]];
    }
  }

  /** `isChecked`: the id occurs in the category's list. */
  predicate IsChecked(d: NutritionData, c: Category, id: AllergenId) {
    id in CategoryList(d.allergens, c)
  }

  /** `toggleAllergen`: ticking appends the id, unticking removes every occurrence; the new record replaces the old. */
  function ToggleAllergen(d: NutritionData, c: Category, id: AllergenId, checked: bool): NutritionData {
    var current := CategoryList(d.allergens, c);
    var updated := if checked then current + [id] else RemoveAll(current, id);
    d.(allergens := WithCategoryList(d.allergens, c, updated))
  }

  /** Ticking appends at the end, even an id already present, so the list grows by exactly one. */
  lemma CheckAppends(d: NutritionData, c: Category, id: AllergenId)
    ensures CategoryList(ToggleAllergen(d, c, id, true).allergens, c) == CategoryList(d.allergens, c) + [id]
    ensures |CategoryList(ToggleAllergen(d, c, id, true).allergens, c)| == |CategoryList(d.allergens, c)| + 1
  {
  }

  /**
   * Unticking keeps the other ids of the list in their order and
   * multiplicity and drops every occurrence of the id.
   */
  lemma UncheckRemovesEvery(d: NutritionData, c: Category, id: AllergenId)
    ensures CategoryList(ToggleAllergen(d, c, id, false).allergens, c)
            == Select(CategoryList(d.allergens, c), KeepFlags(CategoryList(d.allergens, c), id))
    ensures multiset(CategoryList(ToggleAllergen(d, c, id, false).allergens, c))[id] == 0
    ensures forall other :: other != id ==>
              multiset(CategoryList(ToggleAllergen(d, c, id, false).allergens, c))[other]
              == multiset(CategoryList(d.allergens, c))[other]
  {
    RemoveAllSelects(CategoryList(d.allergens, c), id);
    RemoveAllCounts(CategoryList(d.allergens, c), id);
  }

  /** After a toggle the checkbox shows what was chosen, and no other checkbox changes. */
  lemma ToggleIsChecked(d: NutritionData, c: Category, id: AllergenId, checked: bool)
    ensures IsChecked(ToggleAllergen(d, c, id, checked), c, id) == checked
    ensures forall other :: other != id ==>
              IsChecked(ToggleAllergen(d, c, id, checked), c, other) == IsChecked(d, c, other)
    ensures forall c2, other :: c2 != c ==>
              IsChecked(ToggleAllergen(d, c, id, checked), c2, other) == IsChecked(d, c2, other)
  {
    RemoveAllCounts(CategoryList(d.allergens, c), id);
    var r := ToggleAllergen(d, c, id, checked);
    forall other | other != id
      ensures IsChecked(r, c, other) == IsChecked(d, c, other)
    {
      assert other in CategoryList(r.allergens, c) <==> multiset(CategoryList(r.allergens, c))[other] > 0;
    }
  }

  /** A toggle touches only the chosen list: the other two lists and every field outside the allergens stay as they were. */
  lemma ToggleFrame(d: NutritionData, c: Category, id: AllergenId, checked: bool)
    ensures forall other :: other != c ==>
              CategoryList(ToggleAllergen(d, c, id, checked).allergens, other) == CategoryList(d.allergens, other)
    ensures ToggleAllergen(d, c, id, checked).(allergens := d.allergens) == d
    ensures ToggleAllergen(d, c, id, checked).glutenStatus == d.glutenStatus
    ensures ToggleAllergen(d, c, id, checked).lactoseStatus == d.lactoseStatus
  {
  }

  /** Unticking twice is unticking once; unticking an id that is not ticked changes nothing. */
  lemma UncheckIdempotent(d: NutritionData, c: Category, id: AllergenId)
    ensures ToggleAllergen(ToggleAllergen(d, c, id, false), c, id, false) == ToggleAllergen(d, c, id, false)
    ensures !IsChecked(d, c, id) ==> ToggleAllergen(d, c, id, false) == d
  {
    var once := ToggleAllergen(d, c, id, false);
    RemoveAllAbsent(CategoryList(once.allergens, c), id);
    assert WithCategoryList(once.allergens, c, CategoryList(once.allergens, c)) == once.allergens;
    if !IsChecked(d, c, id) {
      RemoveAllAbsent(CategoryList(d.allergens, c), id);
      assert WithCategoryList(d.allergens, c, CategoryList(d.allergens, c)) == d.allergens;
    }
  }

  /** Ticking then unticking an id leaves the list as unticking alone would: earlier ticks of it go too. */
  lemma CheckThenUncheck(d: NutritionData, c: Category, id: AllergenId)
    ensures ToggleAllergen(ToggleAllergen(d, c, id, true), c, id, false) == ToggleAllergen(d, c, id, false)
  {
    var current := CategoryList(d.allergens, c);
    assert RemoveAll(current + [id], id) == RemoveAll(current, id) by {
      assert (current + [id])[..|current|] == current;
    }
    ReplaceListTwice(d.allergens, c, current + [id], RemoveAll(current, id));
  }

  /** Replacing a list twice is replacing it with the second value. */
  lemma ReplaceListTwice(a: AllergenData, c: Category, first: seq<AllergenId>, second: seq<AllergenId>)
    ensures WithCategoryList(WithCategoryList(a, c, first), c, second) == WithCategoryList(a, c, second)
  {
  }

  /** The gluten selector: only `glutenStatus` changes. */
  function SetGlutenStatus(d: NutritionData, status: GlutenStatus): (r: NutritionData)
    ensures r.glutenStatus == status
    ensures r.(glutenStatus := d.glutenStatus) == d
  {
    d.(glutenStatus := status)
  }

  /** The lactose selector: only `lactoseStatus` changes. */
  function SetLactoseStatus(d: NutritionData, status: LactoseStatus): (r: NutritionData)
    ensures r.lactoseStatus == status
    ensures r.(lactoseStatus := d.lactoseStatus) == d
  {
    d.(lactoseStatus := status)
  }

  /** Neither selector touches the allergen lists, so every checkbox keeps its state. */
  lemma SelectorsKeepChecks(d: NutritionData, g: GlutenStatus, l: LactoseStatus, c: Category, id: AllergenId)
    ensures IsChecked(SetGlutenStatus(d, g), c, id) == IsChecked(d, c, id)
    ensures IsChecked(SetLactoseStatus(d, l), c, id) == IsChecked(d, c, id)
  {
  }
}
