/** The app's dish loader: every stored dish gets a full metadata block
    (stored fields over the defaults), dishes named only by their Wikidata
    item id are dropped, and `fetchDishes` hands out the list in a random
    order. The bundled JSON file is a parameter, and the random comparator
    of the sort is represented by a swap schedule. */
module Wikidata {
  import opened Wrappers
  import opened Text
  import opened Collections
  import opened DishTypes
  import opened WikiIds
  import EnrichmentSchema

  /** A stored metadata block: any field may be absent. */
  datatype StoredAi = StoredAi(
    flavorProfile: Option<seq<string>>,
    mealContext: Option<seq<string>>,
    dietaryTags: Option<seq<string>>,
    keyIngredients: Option<seq<string>>,
    textureProfile: Option<seq<string>>,
    servingTemperature: Option<string>,
    spiceLevel: Option<int>,
    allergenRiskTags: Option<seq<string>>,
    proteinType: Option<string>,
    courseType: Option<seq<string>>,
    cookingMethodTags: Option<seq<string>>,
    comfortVsLight: Option<string>,
    adventureLevel: Option<int>,
    aiConfidence: Option<real>)

  /** A dish as the bundled file stores it; `ai` may be missing. */
  datatype StoredDish = StoredDish(
    id: string,
    name: string,
    image: string,
    cuisines: seq<string>,
    ingredients: seq<string>,
    categories: seq<string>,
    ai: Option<StoredAi>)

  /** The loader's own `defaultAiMeta`; it is the enrichment script's
      default record. */
  function DefaultMeta(): (r: AiMeta)
    ensures r == EnrichmentSchema.DefaultAiMeta()
  {
    AiMeta([], [], [], [], [], "mixed", 0, [], "unknown", [], [], "unknown", 3, 0.0)
  }

  /** `{ ...defaultAiMeta, ...dish.ai }`, or the defaults alone when the
      dish has no `ai`. */
  function WithDefaults(ai: Option<StoredAi>): AiMeta {
    var d := DefaultMeta();
    if ai.None? then d
    else
      var s := ai.value;
      AiMeta(
        s.flavorProfile.GetOr(d.flavorProfile),
        s.mealContext.GetOr(d.mealContext),
        s.dietaryTags.GetOr(d.dietaryTags),
        s.keyIngredients.GetOr(d.keyIngredients),
        s.textureProfile.GetOr(d.textureProfile),
        s.servingTemperature.GetOr(d.servingTemperature),
        s.spiceLevel.GetOr(d.spiceLevel),
        s.allergenRiskTags.GetOr(d.allergenRiskTags),
        s.proteinType.GetOr(d.proteinType),
        s.courseType.GetOr(d.courseType),
        s.cookingMethodTags.GetOr(d.cookingMethodTags),
        s.comfortVsLight.GetOr(d.comfortVsLight),
        s.adventureLevel.GetOr(d.adventureLevel),
        s.aiConfidence.GetOr(d.aiConfidence))
  }

  /** A block storing every field. */
  function Stored(m: AiMeta): StoredAi {
    StoredAi(Some(m.flavorProfile), Some(m.mealContext), Some(m.dietaryTags), Some(m.keyIngredients),
      Some(m.textureProfile), Some(m.servingTemperature), Some(m.spiceLevel), Some(m.allergenRiskTags),
      Some(m.proteinType), Some(m.courseType), Some(m.cookingMethodTags), Some(m.comfortVsLight),
      Some(m.adventureLevel), Some(m.aiConfidence))
  }

  /** A block storing no field. */
  const NothingStored := StoredAi(None, None, None, None, None, None, None, None, None, None, None, None, None, None)

  /** A missing block and an empty one both give the defaults; a complete
      block is taken as stored; and a stored field wins over its default
      while an absent one takes it (shown for one list, one enumeration
      and one number field; the rest are alike). */
  lemma WithDefaultsFacts(ai: Option<StoredAi>, m: AiMeta)
    ensures WithDefaults(None) == EnrichmentSchema.DefaultAiMeta()
    ensures WithDefaults(Some(NothingStored)) == EnrichmentSchema.DefaultAiMeta()
    ensures WithDefaults(Some(Stored(m))) == m
    ensures ai.Some? && ai.value.dietaryTags.Some? ==> WithDefaults(ai).dietaryTags == ai.value.dietaryTags.value
    ensures ai.Some? && ai.value.dietaryTags.None? ==> WithDefaults(ai).dietaryTags == []
    ensures ai.Some? && ai.value.proteinType.Some? ==> WithDefaults(ai).proteinType == ai.value.proteinType.value
    ensures ai.Some? && ai.value.proteinType.None? ==> WithDefaults(ai).proteinType == "unknown"
    ensures ai.Some? && ai.value.adventureLevel.Some? ==> WithDefaults(ai).adventureLevel == ai.value.adventureLevel.value
    ensures ai.Some? && ai.value.adventureLevel.None? ==> WithDefaults(ai).adventureLevel == 3
  {
  }

  /** The `map` step: the stored dish with its metadata completed. */
  function Load(d: StoredDish): (r: Dish)
    ensures r.ai == Some(WithDefaults(d.ai))
    ensures r.id == d.id && r.name == d.name && r.image == d.image
    ensures r.cuisines == d.cuisines && r.ingredients == d.ingredients && r.categories == d.categories
  {
    Dish(d.id, d.name, d.image, d.cuisines, d.ingredients, d.categories, Some(WithDefaults(d.ai)))
  }

  /** `isPlaceholderDishName`. */
  predicate IsPlaceholderDishName(d: Dish) {
    IsPlaceholderName(d.id, d.name)
  }

  predicate IsReal(d: Dish) { !IsPlaceholderDishName(d) }

  function LoadAll(raw: seq<StoredDish>): (r: seq<Dish>)
    ensures |r| == |raw|
    ensures forall i :: 0 <= i < |raw| ==> r[i] == Load(raw[i])
  {
    seq(|raw|, i requires 0 <= i < |raw| => Load(raw[i]))
  }

  /** The module-level `dishes` list. */
  function LoadedDishes(raw: seq<StoredDish>): seq<Dish> {
    Filter(LoadAll(raw), IsReal)
  }

  /** Every loaded dish has metadata and is not a placeholder; the loaded
      dishes are exactly the completed stored dishes that are not
      placeholders, in file order, and nothing is added. */
  lemma LoadedFacts(raw: seq<StoredDish>)
    ensures forall d :: d in LoadedDishes(raw) ==> d.ai.Some? && !IsPlaceholderName(d.id, d.name)
    ensures forall i :: 0 <= i < |raw| ==> (Load(raw[i]) in LoadedDishes(raw) <==> !IsPlaceholderName(raw[i].id, raw[i].name))
    ensures forall d :: d in LoadedDishes(raw) ==> exists i :: 0 <= i < |raw| && d == Load(raw[i])
    ensures IsSubsequence(LoadedDishes(raw), LoadAll(raw))
    ensures multiset(LoadedDishes(raw)) <= multiset(LoadAll(raw))
  {
    FilterMembers(LoadAll(raw), IsReal);
    FilterSubsequence(LoadAll(raw), IsReal);
    FilterMultiset(LoadAll(raw), IsReal);
    forall i | 0 <= i < |raw|
      ensures Load(raw[i]) in LoadAll(raw)
    {
      assert LoadAll(raw)[i] == Load(raw[i]);
    }
  }

  /** A dish named after its own item is dropped; a stored dish whose name
      is not an item id is kept. */
  lemma PlaceholderDropped(raw: seq<StoredDish>, i: nat)
    requires i < |raw|
    ensures IsQidText(raw[i].name) && ExtractQid(raw[i].id) == None ==> Load(raw[i]) !in LoadedDishes(raw)
    ensures !IsQidText(Trim(raw[i].name)) ==> Load(raw[i]) in LoadedDishes(raw)
  {
    LoadedFacts(raw);
    TrimOfTrimmedQid(raw[i].name);
  }

  lemma TrimOfTrimmedQid(s: string)
    ensures IsQidText(s) ==> Trim(s) == s
  {
    if IsQidText(s) {
      TrimOfTrimmed(s);
    }
  }

  /** `fetchDishes`: the loaded list in the order the random comparator
      leaves it, here the order a valid swap schedule gives. */
  function FetchDishes(raw: seq<StoredDish>, swaps: nat -> nat): seq<Dish>
    requires ValidSwaps(swaps)
  {
    Shuffled(LoadedDishes(raw), swaps)
  }

  /** The dishes handed out are the loaded ones, each as often, in some
      order. */
  lemma FetchDishesPermutes(raw: seq<StoredDish>, swaps: nat -> nat)
    requires ValidSwaps(swaps)
    ensures multiset(FetchDishes(raw, swaps)) == multiset(LoadedDishes(raw))
    ensures |FetchDishes(raw, swaps)| == |LoadedDishes(raw)|
    ensures forall d :: d in FetchDishes(raw, swaps) <==> d in LoadedDishes(raw)
  {
    ShuffledPermutes(LoadedDishes(raw), swaps);
    var r := FetchDishes(raw, swaps);
    forall d
      ensures d in r <==> d in LoadedDishes(raw)
    {
      assert d in r <==> d in multiset(r);
      assert d in LoadedDishes(raw) <==> d in multiset(LoadedDishes(raw));
    }
  }
}
