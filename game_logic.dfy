/** The question engine of the dish-narrowing game: it mines the remaining
    pool for attribute values that split it, scores them, groups them into
    multiple-choice questions and picks one at random. The random roll is a
    parameter `rnd` in [0, 1). */
module GameLogic {
  import opened Wrappers
  import opened Text
  import opened Collections
  import opened JsValues
  import opened DishTypes

  // ---------------------------------------------------------------------
  // Buckets and constants

  /** The attribute a candidate value belongs to. */
  datatype BucketType =
    | ProteinType | ServingTemperature | SpiceLevel | ComfortVsLight | CourseType
    | FlavorProfile | TextureProfile | MealContext | DietaryTags | CookingMethodTags
    | KeyIngredients | Cuisine | Ingredient | Category

  /** The key order of the bucket record, which is the order candidates are
      emitted in. */
  const BucketOrder: seq<BucketType> := [
    ProteinType, ServingTemperature, SpiceLevel, ComfortVsLight, CourseType,
    FlavorProfile, TextureProfile, MealContext, DietaryTags, CookingMethodTags,
    KeyIngredients, Cuisine, Ingredient, Category]

  const MinRatio: real := 0.07
  const MaxRatio: real := 0.65
  const MinOptions: nat := 3
  const MaxOptions: nat := 4

  /** The bucket's name as it appears in question ids. */
  function TypeName(b: BucketType): string {
    match b
    case ProteinType => "proteinType"
    case ServingTemperature => "servingTemperature"
    case SpiceLevel => "spiceLevel"
    case ComfortVsLight => "comfortVsLight"
    case CourseType => "courseType"
    case FlavorProfile => "flavorProfile"
    case TextureProfile => "textureProfile"
    case MealContext => "mealContext"
    case DietaryTags => "dietaryTags"
    case CookingMethodTags => "cookingMethodTags"
    case KeyIngredients => "keyIngredients"
    case Cuisine => "cuisine"
    case Ingredient => "ingredient"
    case Category => "category"
  }

  /** `TYPE_PRIORITY`. */
  function TypePriority(b: BucketType): real {
    match b
    case ProteinType => 1.6
    case ServingTemperature => 1.5
    case SpiceLevel => 1.45
    case ComfortVsLight => 1.35
    case CourseType => 1.4
    case FlavorProfile => 1.35
    case TextureProfile => 1.25
    case MealContext => 1.15
    case DietaryTags => 1.1
    case CookingMethodTags => 1.05
    case KeyIngredients => 1.0
    case Cuisine => 0.95
    case Ingredient => 0.9
    case Category => 0.85
  }

  /** `questionTextForType`. */
  function QuestionText(b: BucketType): string {
    match b
    case ProteinType => "Pick A Protein Direction"
    case ServingTemperature => "Pick A Temperature Vibe"
    case SpiceLevel => "Choose Your Spice Level"
    case ComfortVsLight => "Pick Your Food Mood"
    case CourseType => "Pick A Course Style"
    case FlavorProfile => "Pick A Flavor Profile"
    case TextureProfile => "Pick A Texture Profile"
    case MealContext => "What Occasion Is This For?"
    case DietaryTags => "Pick A Dietary Preference"
    case CookingMethodTags => "Pick A Cooking Style"
    case KeyIngredients => "Pick An Ingredient Vibe"
    case Cuisine => "Pick A Cuisine Direction"
    case Ingredient => "Pick An Ingredient Direction"
    case Category => "Pick A Food Category"
  }

  /** The buckets fed from the AI metadata block. */
  predicate IsAiBucket(b: BucketType) {
    !(b.Cuisine? || b.Ingredient? || b.Category?)
  }

  // ---------------------------------------------------------------------
  // Value text

  /** `normalize`: trimmed and lower-cased. */
  function Normalize(value: string): (r: string)
    ensures |r| <= |value|
    ensures NoEdgeWhitespace(r)
    ensures forall i :: 0 <= i < |r| ==> !('A' <= r[i] <= 'Z')
  {
    var t := Trim(value);
    LowerKeepsWhitespace(t);
    ToLower(t)
  }

  /** Normalising is idempotent: a normalised value is its own normal form,
      so values compared after `normalize` compare the same way again. */
  lemma NormalizeIdempotent(value: string)
    ensures Normalize(Normalize(value)) == Normalize(value)
  {
    var t := Trim(value);
    LowerKeepsWhitespace(t);
    TrimOfTrimmed(ToLower(t));
    LowerIdempotent(t);
  }

  /** A word with its first character upper-cased and the rest lower-cased. */
  function Capitalize(word: string): (r: string)
    ensures |r| == |word|
    ensures word != [] ==> r[0] == UpperChar(word[0])
    ensures forall i :: 1 <= i < |word| ==> r[i] == LowerChar(word[i])
  {
    if word == [] then [] else ToUpper(word[..1]) + ToLower(word[1..])
  }

  /** Capitalising a capitalised word changes nothing. */
  lemma CapitalizeIdempotent(word: string)
    ensures Capitalize(Capitalize(word)) == Capitalize(word)
  {
    var r := Capitalize(word);
    assert forall i :: 0 <= i < |word| ==> Capitalize(r)[i] == r[i];
  }

  function CapitalizeAll(words: seq<string>): (r: seq<string>)
    ensures |r| == |words|
    ensures forall i :: 0 <= i < |words| ==> r[i] == Capitalize(words[i])
  {
    seq(|words|, i requires 0 <= i < |words| => Capitalize(words[i]))
  }

  /** `titleCase`: underscores become spaces and every whitespace-separated
      word is capitalised; the words are joined with single spaces. */
  function TitleCase(value: string): string {
    if value == "" then value
    else Join(CapitalizeAll(SplitRuns(ReplaceChar(value, '_', ' '), Whitespace)), " ")
  }

  /** Words without white space or underscores, none empty. */
  predicate PlainWords(words: seq<string>) {
    (forall i :: 0 <= i < |words| ==> words[i] != [] && '_' !in words[i])
    && (forall i, j :: 0 <= i < |words| && 0 <= j < |words[i]| ==> !IsWhitespace(words[i][j]))
  }

  /** Capitalising keeps words plain and, on plain words, is idempotent. */
  lemma CapitalizePlain(words: seq<string>)
    requires PlainWords(words)
    ensures PlainWords(CapitalizeAll(words))
    ensures CapitalizeAll(CapitalizeAll(words)) == CapitalizeAll(words)
  {
    var caps := CapitalizeAll(words);
    forall i | 0 <= i < |caps|
      ensures caps[i] != [] && '_' !in caps[i]
      ensures CapitalizeAll(caps)[i] == caps[i]
    {
      assert words[i][0] in words[i];
      CapitalizeIdempotent(words[i]);
    }
  }

  /** Title-casing plain words joined by `sep` (an underscore or a space)
      capitalises each word and joins them by single spaces. */
  lemma {:induction false} TitleCaseJoined(words: seq<string>, sep: char)
    requires |words| >= 1 && PlainWords(words) && (sep == '_' || sep == ' ')
    ensures TitleCase(Join(words, [sep])) == Join(CapitalizeAll(words), " ")
  {
    JoinStartsWithFirst(words, [sep]);
    if sep == '_' {
      ReplaceJoin(words, '_', ' ');
    } else {
      NotInJoin(words, ' ', '_');
      ReplaceNone(Join(words, " "), '_', ' ');
    }
    SplitRunsJoin(words, ' ', Whitespace);
  }

  /** The label of a snake_case value (non-empty words without white space
      or underscores, joined by `_`) is its words, each capitalised, joined
      by single spaces: splitting the label on white space gives exactly
      those words back, in order, and title-casing the label again changes
      nothing. */
  lemma {:induction false} TitleCaseOfSnake(words: seq<string>)
    requires |words| >= 1 && PlainWords(words)
    ensures TitleCase(Join(words, "_")) == Join(CapitalizeAll(words), " ")
    ensures SplitRuns(TitleCase(Join(words, "_")), Whitespace) == CapitalizeAll(words)
    ensures TitleCase(TitleCase(Join(words, "_"))) == TitleCase(Join(words, "_"))
  {
    TitleCaseJoined(words, '_');
    CapitalizePlain(words);
    SplitRunsJoin(CapitalizeAll(words), ' ', Whitespace);
    TitleCaseJoined(CapitalizeAll(words), ' ');
  }

  // ---------------------------------------------------------------------
  // Tallies: a JavaScript `Map<string, number>`, keys in insertion order

  datatype Tally = Tally(keys: seq<string>, counts: map<string, real>)

  const EmptyTally: Tally := Tally([], map[])

  ghost predicate ValidTally(t: Tally) {
    Distinct(t.keys) && t.counts.Keys == set k | k in t.keys
  }

  /** `map.get(key) ?? 0`. */
  function Count(t: Tally, key: string): real {
    if key in t.counts then t.counts[key] else 0.0
  }

  /** `addWeight`: adds `w` to the key's count, appending the key when it is
      new. */
  function AddWeight(t: Tally, key: string, w: real): Tally {
    if key in t.counts then Tally(t.keys, t.counts[key := t.counts[key] + w])
    else Tally(t.keys + [key], t.counts[key := w])
  }

  lemma AddWeightFacts(t: Tally, key: string, w: real)
    ensures Count(AddWeight(t, key, w), key) == Count(t, key) + w
    ensures forall k :: k != key ==> Count(AddWeight(t, key, w), k) == Count(t, k)
    ensures AddWeight(t, key, w).keys == if key in t.counts then t.keys else t.keys + [key]
    ensures ValidTally(t) ==> ValidTally(AddWeight(t, key, w))
  {
  }

  /** `addWeight` for each value in turn. */
  function AddAll(t: Tally, values: seq<string>, w: real): Tally {
    if values == [] then t
    else AddWeight(AddAll(t, values[..|values| - 1], w), values[|values| - 1], w)
  }

  /** Adding distinct values raises each of their counts by `w` once and
      leaves every other count alone. */
  lemma {:induction false} AddAllCounts(t: Tally, values: seq<string>, w: real)
    requires Distinct(values)
    ensures ValidTally(t) ==> ValidTally(AddAll(t, values, w))
    ensures forall k :: Count(AddAll(t, values, w), k) == Count(t, k) + (if k in values then w else 0.0)
  {
    if values != [] {
      var front := values[..|values| - 1];
      AddAllCounts(t, front, w);
      AddWeightFacts(AddAll(t, front, w), values[|values| - 1], w);
      assert values == front + [values[|values| - 1]];
    }
  }

  // ---------------------------------------------------------------------
  // What one dish adds to each bucket

  /** `Math.max(0.2, Math.min(1, ai.aiConfidence))`. */
  function AiWeight(ai: AiMeta): (w: real)
    ensures 0.2 <= w <= 1.0
  {
    MaxReal(0.2, MinReal(1.0, ai.aiConfidence))
  }

  /** A value's normalised form, when that is non-empty. */
  function NonEmptyNormal(value: string): Option<string> {
    var n := Normalize(value);
    if n == "" then None else Some(n)
  }

  /** `new Set(values.map(normalize).filter(Boolean))`, in iteration order. */
  function UniqueNormalized(values: seq<string>): seq<string> {
    Dedupe(FilterMap(values, NonEmptyNormal))
  }

  /** Some entry of the list normalises to `value`. */
  predicate AnyNormalizes(values: seq<string>, value: string) {
    exists i :: 0 <= i < |values| && Normalize(values[i]) == value
  }

  lemma {:induction false} UniqueNormalizedFacts(values: seq<string>)
    ensures Distinct(UniqueNormalized(values))
    ensures forall v :: v in UniqueNormalized(values) <==> v != "" && AnyNormalizes(values, v)
  {
    var f := FilterMap(values, NonEmptyNormal);
    DedupeFacts(f);
    FilterMapMembers(values, NonEmptyNormal);
    forall v | v in UniqueNormalized(values)
      ensures v != "" && AnyNormalizes(values, v)
    {
      var k :| 0 <= k < |values| && NonEmptyNormal(values[k]) == Some(v);
    }
    forall v | v != "" && AnyNormalizes(values, v)
      ensures v in UniqueNormalized(values)
    {
      var k :| 0 <= k < |values| && Normalize(values[k]) == v;
      assert NonEmptyNormal(values[k]) == Some(v);
    }
  }

  /** An enumeration value is counted when it is non-empty and not the
      placeholder value. */
  function EnumValue(raw: string, placeholder: string): seq<string> {
    if raw != "" && raw != placeholder then [Normalize(raw)] else []
  }

  /** Spice level 3 or more is `spicy`, 1 or less is `mild`, 2 is neither. */
  function SpiceValues(level: int): seq<string> {
    (if level >= 3 then ["spicy"] else []) + (if level <= 1 then ["mild"] else [])
  }

  /** The values a dish with metadata `ai` adds to an AI bucket. */
  function AiContribution(ai: AiMeta, b: BucketType): seq<string>
    requires IsAiBucket(b)
  {
    match b
    case ProteinType => EnumValue(ai.proteinType, "unknown")
    case ServingTemperature => EnumValue(ai.servingTemperature, "mixed")
    case ComfortVsLight => EnumValue(ai.comfortVsLight, "unknown")
    case SpiceLevel => SpiceValues(ai.spiceLevel)
    case CourseType => UniqueNormalized(ai.courseType)
    case FlavorProfile => UniqueNormalized(ai.flavorProfile)
    case TextureProfile => UniqueNormalized(ai.textureProfile)
    case MealContext => UniqueNormalized(ai.mealContext)
    case DietaryTags => UniqueNormalized(ai.dietaryTags)
    case CookingMethodTags => UniqueNormalized(ai.cookingMethodTags)
    case KeyIngredients => UniqueNormalized(ai.keyIngredients)
  }

  /** The values one dish adds to bucket `b`. */
  function Contribution(d: Dish, b: BucketType): seq<string> {
    if IsAiBucket(b) then
      (if d.ai.Some? then AiContribution(d.ai.value, b) else [])
    else if b.Cuisine? then UniqueNormalized(d.cuisines)
    else if b.Ingredient? then UniqueNormalized(d.ingredients)
    else UniqueNormalized(d.categories)
  }

  /** The weight each of those values receives. */
  function ContributionWeight(d: Dish, b: BucketType): (w: real)
    ensures 0.2 <= w <= 1.0
  {
    if IsAiBucket(b) && d.ai.Some? then AiWeight(d.ai.value) else 1.0
  }

  /** A dish adds to each value of a bucket at most once. */
  lemma ContributionDistinct(d: Dish, b: BucketType)
    ensures Distinct(Contribution(d, b))
  {
    match b
    case CourseType => if d.ai.Some? { UniqueNormalizedFacts(d.ai.value.courseType); }
    case FlavorProfile => if d.ai.Some? { UniqueNormalizedFacts(d.ai.value.flavorProfile); }
    case TextureProfile => if d.ai.Some? { UniqueNormalizedFacts(d.ai.value.textureProfile); }
    case MealContext => if d.ai.Some? { UniqueNormalizedFacts(d.ai.value.mealContext); }
    case DietaryTags => if d.ai.Some? { UniqueNormalizedFacts(d.ai.value.dietaryTags); }
    case CookingMethodTags => if d.ai.Some? { UniqueNormalizedFacts(d.ai.value.cookingMethodTags); }
    case KeyIngredients => if d.ai.Some? { UniqueNormalizedFacts(d.ai.value.keyIngredients); }
    case Cuisine => UniqueNormalizedFacts(d.cuisines);
    case Ingredient => UniqueNormalizedFacts(d.ingredients);
    case Category => UniqueNormalizedFacts(d.categories);
    case _ =>
  }

  // ---------------------------------------------------------------------
  // The question filter

  /** `matchesCandidate`: whether a dish answers `value` for bucket `b`.
      Missing metadata reads as empty strings, empty lists and spice 0. */
  predicate MatchesCandidate(d: Dish, b: BucketType, value: string) {
    match b
    case ProteinType => Normalize(if d.ai.Some? then d.ai.value.proteinType else "") == value
    case ServingTemperature => Normalize(if d.ai.Some? then d.ai.value.servingTemperature else "") == value
    case SpiceLevel =>
      var level := if d.ai.Some? then d.ai.value.spiceLevel else 0;
      if value == "spicy" then level >= 3 else level <= 1
    case ComfortVsLight => Normalize(if d.ai.Some? then d.ai.value.comfortVsLight else "") == value
    case CourseType => d.ai.Some? && AnyNormalizes(d.ai.value.courseType, value)
    case FlavorProfile => d.ai.Some? && AnyNormalizes(d.ai.value.flavorProfile, value)
    case TextureProfile => d.ai.Some? && AnyNormalizes(d.ai.value.textureProfile, value)
    case MealContext => d.ai.Some? && AnyNormalizes(d.ai.value.mealContext, value)
    case DietaryTags => d.ai.Some? && AnyNormalizes(d.ai.value.dietaryTags, value)
    case CookingMethodTags => d.ai.Some? && AnyNormalizes(d.ai.value.cookingMethodTags, value)
    case KeyIngredients => d.ai.Some? && AnyNormalizes(d.ai.value.keyIngredients, value)
    case Cuisine => AnyNormalizes(d.cuisines, value)
    case Ingredient => AnyNormalizes(d.ingredients, value) || Contains(ToLower(d.name), value)
    case Category => AnyNormalizes(d.categories, value)
  }

  /** A dish counted towards a value passes that value's filter, so
      answering with a mined value keeps every dish that was counted. */
  lemma ContributionMatches(d: Dish, b: BucketType, v: string)
    requires v in Contribution(d, b)
    ensures MatchesCandidate(d, b, v)
  {
    match b
    case CourseType => UniqueNormalizedFacts(d.ai.value.courseType);
    case FlavorProfile => UniqueNormalizedFacts(d.ai.value.flavorProfile);
    case TextureProfile => UniqueNormalizedFacts(d.ai.value.textureProfile);
    case MealContext => UniqueNormalizedFacts(d.ai.value.mealContext);
    case DietaryTags => UniqueNormalizedFacts(d.ai.value.dietaryTags);
    case CookingMethodTags => UniqueNormalizedFacts(d.ai.value.cookingMethodTags);
    case KeyIngredients => UniqueNormalizedFacts(d.ai.value.keyIngredients);
    case Cuisine => UniqueNormalizedFacts(d.cuisines);
    case Ingredient => UniqueNormalizedFacts(d.ingredients);
    case Category => UniqueNormalizedFacts(d.categories);
    case _ =>
  }

  /** Conversely, a list bucket counts every dish whose list holds an entry
      normalising to the (non-empty) value. */
  lemma ListMatchCounted(d: Dish, b: BucketType, v: string)
    requires !(b.ProteinType? || b.ServingTemperature? || b.ComfortVsLight? || b.SpiceLevel?)
    requires v != ""
    requires MatchesCandidate(d, b, v)
    requires b.Ingredient? ==> AnyNormalizes(d.ingredients, v)
    ensures v in Contribution(d, b)
  {
    match b
    case CourseType => UniqueNormalizedFacts(d.ai.value.courseType);
    case FlavorProfile => UniqueNormalizedFacts(d.ai.value.flavorProfile);
    case TextureProfile => UniqueNormalizedFacts(d.ai.value.textureProfile);
    case MealContext => UniqueNormalizedFacts(d.ai.value.mealContext);
    case DietaryTags => UniqueNormalizedFacts(d.ai.value.dietaryTags);
    case CookingMethodTags => UniqueNormalizedFacts(d.ai.value.cookingMethodTags);
    case KeyIngredients => UniqueNormalizedFacts(d.ai.value.keyIngredients);
    case Cuisine => UniqueNormalizedFacts(d.cuisines);
    case Ingredient => UniqueNormalizedFacts(d.ingredients);
    case Category => UniqueNormalizedFacts(d.categories);
  }

  /** The spice rule: the miner counts `spicy` at level 3 or more and `mild`
      at 1 or less, and the filter agrees, reading missing metadata as 0. */
  lemma SpiceRule(d: Dish)
    ensures d.ai.Some? ==>
      ("spicy" in Contribution(d, SpiceLevel) <==> d.ai.value.spiceLevel >= 3)
      && ("mild" in Contribution(d, SpiceLevel) <==> d.ai.value.spiceLevel <= 1)
      && (d.ai.value.spiceLevel == 2 ==> Contribution(d, SpiceLevel) == [])
    ensures d.ai.None? ==> Contribution(d, SpiceLevel) == [] && MatchesCandidate(d, SpiceLevel, "mild")
    ensures MatchesCandidate(d, SpiceLevel, "spicy") <==> d.ai.Some? && d.ai.value.spiceLevel >= 3
  {
  }

  /** The placeholder enumeration values are never counted. */
  lemma PlaceholdersNotCounted(d: Dish)
    requires d.ai.Some?
    ensures d.ai.value.proteinType == "unknown" ==> Contribution(d, ProteinType) == []
    ensures d.ai.value.servingTemperature == "mixed" ==> Contribution(d, ServingTemperature) == []
    ensures d.ai.value.comfortVsLight == "unknown" ==> Contribution(d, ComfortVsLight) == []
  {
  }

  // ---------------------------------------------------------------------
  // Mining candidates

  /** A value of a bucket that splits the pool, with its summed weight
      (`count`) and its score. */
  datatype Candidate = Candidate(bucket: BucketType, value: string, count: real, weight: real)

  /** The bucket `b` after every dish of `pool` has been added. */
  function BucketTally(pool: seq<Dish>, b: BucketType): Tally {
    if pool == [] then EmptyTally
    else
      var last := pool[|pool| - 1];
      AddAll(BucketTally(pool[..|pool| - 1], b), Contribution(last, b), ContributionWeight(last, b))
  }

  /** Every count is positive and at most the number of dishes added. */
  lemma {:induction false} BucketTallyBounds(pool: seq<Dish>, b: BucketType)
    ensures ValidTally(BucketTally(pool, b))
    ensures forall k :: 0.0 <= Count(BucketTally(pool, b), k) <= |pool| as real
    ensures forall k :: k in BucketTally(pool, b).keys ==> Count(BucketTally(pool, b), k) > 0.0
  {
    if pool != [] {
      var front := pool[..|pool| - 1];
      var last := pool[|pool| - 1];
      BucketTallyBounds(front, b);
      ContributionDistinct(last, b);
      AddAllCounts(BucketTally(front, b), Contribution(last, b), ContributionWeight(last, b));
      AddAllKeys(BucketTally(front, b), Contribution(last, b), ContributionWeight(last, b));
    }
  }

  /** The summed weight the dishes of `pool` give `v` in bucket `b`. */
  function ContributorWeight(pool: seq<Dish>, b: BucketType, v: string): real {
    if pool == [] then 0.0
    else
      var last := pool[|pool| - 1];
      ContributorWeight(pool[..|pool| - 1], b, v) + (if v in Contribution(last, b) then ContributionWeight(last, b) else 0.0)
  }

  /** A value's count is the weight of the dishes contributing it, each
      dish once. */
  lemma {:induction false} BucketTallyCount(pool: seq<Dish>, b: BucketType, v: string)
    ensures Count(BucketTally(pool, b), v) == ContributorWeight(pool, b, v)
  {
    if pool != [] {
      var front := pool[..|pool| - 1];
      var last := pool[|pool| - 1];
      BucketTallyCount(front, b, v);
      ContributionDistinct(last, b);
      AddAllCounts(BucketTally(front, b), Contribution(last, b), ContributionWeight(last, b));
    }
  }

  /** The buckets whose values are read from lists, other than the
      ingredient bucket, whose filter also accepts the dish name. */
  predicate IsListBucket(b: BucketType) {
    !(b.ProteinType? || b.ServingTemperature? || b.ComfortVsLight? || b.SpiceLevel? || b.Ingredient?)
  }

  /** The summed weight of the dishes of `pool` that the filter for `v`
      keeps. */
  function MatchWeight(pool: seq<Dish>, b: BucketType, v: string): real {
    if pool == [] then 0.0
    else
      var last := pool[|pool| - 1];
      MatchWeight(pool[..|pool| - 1], b, v) + (if MatchesCandidate(last, b, v) then ContributionWeight(last, b) else 0.0)
  }

  /** The number of dishes of `pool` that the filter for `v` keeps. */
  function MatchCount(pool: seq<Dish>, b: BucketType, v: string): nat {
    if pool == [] then 0
    else MatchCount(pool[..|pool| - 1], b, v) + (if MatchesCandidate(pool[|pool| - 1], b, v) then 1 else 0)
  }

  /** For a list bucket the count of a non-empty value is the weight of the
      dishes that answering it keeps; for the cuisine and category buckets,
      whose weight is 1, it is their number. */
  lemma {:induction false} ListCountIsMatches(pool: seq<Dish>, b: BucketType, v: string)
    requires IsListBucket(b) && v != ""
    ensures Count(BucketTally(pool, b), v) == MatchWeight(pool, b, v)
    ensures !IsAiBucket(b) ==> Count(BucketTally(pool, b), v) == MatchCount(pool, b, v) as real
  {
    BucketTallyCount(pool, b, v);
    ContributorIsMatch(pool, b, v);
  }

  lemma {:induction false} ContributorIsMatch(pool: seq<Dish>, b: BucketType, v: string)
    requires IsListBucket(b) && v != ""
    ensures ContributorWeight(pool, b, v) == MatchWeight(pool, b, v)
    ensures !IsAiBucket(b) ==> MatchWeight(pool, b, v) == MatchCount(pool, b, v) as real
  {
    if pool != [] {
      var last := pool[|pool| - 1];
      ContributorIsMatch(pool[..|pool| - 1], b, v);
      if v in Contribution(last, b) {
        ContributionMatches(last, b, v);
      }
      if MatchesCandidate(last, b, v) {
        ListMatchCounted(last, b, v);
      }
    }
  }

  /** The keys of a tally after adding values: the old keys and the values. */
  lemma {:induction false} AddAllKeys(t: Tally, values: seq<string>, w: real)
    requires ValidTally(t)
    ensures ValidTally(AddAll(t, values, w))
    ensures forall k :: k in AddAll(t, values, w).keys <==> k in t.keys || k in values
  {
    if values != [] {
      var front := values[..|values| - 1];
      AddAllKeys(t, front, w);
      AddWeightFacts(AddAll(t, front, w), values[|values| - 1], w);
      assert values == front + [values[|values| - 1]];
    }
  }

  /** The bucket record of `collectCandidates`: one tally per bucket type. */
  datatype Buckets = Buckets(
    proteinType: Tally, servingTemperature: Tally, spiceLevel: Tally, comfortVsLight: Tally,
    courseType: Tally, flavorProfile: Tally, textureProfile: Tally, mealContext: Tally,
    dietaryTags: Tally, cookingMethodTags: Tally, keyIngredients: Tally,
    cuisine: Tally, ingredient: Tally, category: Tally)

  const EmptyBuckets: Buckets := Buckets(
    EmptyTally, EmptyTally, EmptyTally, EmptyTally, EmptyTally, EmptyTally, EmptyTally,
    EmptyTally, EmptyTally, EmptyTally, EmptyTally, EmptyTally, EmptyTally, EmptyTally)

  /** `buckets[type]`. */
  function Get(bk: Buckets, b: BucketType): Tally {
    match b
    case ProteinType => bk.proteinType
    case ServingTemperature => bk.servingTemperature
    case SpiceLevel => bk.spiceLevel
    case ComfortVsLight => bk.comfortVsLight
    case CourseType => bk.courseType
    case FlavorProfile => bk.flavorProfile
    case TextureProfile => bk.textureProfile
    case MealContext => bk.mealContext
    case DietaryTags => bk.dietaryTags
    case CookingMethodTags => bk.cookingMethodTags
    case KeyIngredients => bk.keyIngredients
    case Cuisine => bk.cuisine
    case Ingredient => bk.ingredient
    case Category => bk.category
  }

  lemma AddAllSingle(t: Tally, key: string, w: real)
    ensures AddAll(t, [key], w) == AddWeight(t, key, w)
  {
    assert [key][..0] == [];
  }

  /** `for (const value of unique) addWeight(map, value, weight)`. */
  method AddEach(tally: Tally, values: seq<string>, w: real) returns (r: Tally)
    ensures r == AddAll(tally, values, w)
  {
    r := tally;
    for j := 0 to |values|
      invariant r == AddAll(tally, values[..j], w)
    {
      assert values[..j + 1][..j] == values[..j];
      r := AddWeight(r, values[j], w);
    }
    assert values[..|values|] == values;
  }

  /** `addList`: adds each distinct normalised value of the list once. */
  method AddList(tally: Tally, values: seq<string>, w: real) returns (r: Tally)
    ensures r == AddAll(tally, UniqueNormalized(values), w)
  {
    var unique := UniqueNormalized(values);
    r := AddEach(tally, unique, w);
  }

  /** `buckets[type] = t`. */
  function Put(bk: Buckets, b: BucketType, t: Tally): (r: Buckets)
    ensures Get(r, b) == t
    ensures forall c :: c != b ==> Get(r, c) == Get(bk, c)
  {
    match b
    case ProteinType => bk.(proteinType := t)
    case ServingTemperature => bk.(servingTemperature := t)
    case SpiceLevel => bk.(spiceLevel := t)
    case ComfortVsLight => bk.(comfortVsLight := t)
    case CourseType => bk.(courseType := t)
    case FlavorProfile => bk.(flavorProfile := t)
    case TextureProfile => bk.(textureProfile := t)
    case MealContext => bk.(mealContext := t)
    case DietaryTags => bk.(dietaryTags := t)
    case CookingMethodTags => bk.(cookingMethodTags := t)
    case KeyIngredients => bk.(keyIngredients := t)
    case Cuisine => bk.(cuisine := t)
    case Ingredient => bk.(ingredient := t)
    case Category => bk.(category := t)
  }

  /** The position of a bucket in `BucketOrder`. */
  function Rank(b: BucketType): (r: nat)
    ensures r < |BucketOrder| && BucketOrder[r] == b
  {
    match b
    case ProteinType => 0
    case ServingTemperature => 1
    case SpiceLevel => 2
    case ComfortVsLight => 3
    case CourseType => 4
    case FlavorProfile => 5
    case TextureProfile => 6
    case MealContext => 7
    case DietaryTags => 8
    case CookingMethodTags => 9
    case KeyIngredients => 10
    case Cuisine => 11
    case Ingredient => 12
    case Category => 13
  }

  lemma RankOfOrder(i: nat)
    requires i < |BucketOrder|
    ensures Rank(BucketOrder[i]) == i
  {
  }

  lemma BucketOrderDistinct()
    ensures Distinct(BucketOrder)
  {
    forall i, j | 0 <= i < j < |BucketOrder|
      ensures BucketOrder[i] != BucketOrder[j]
    {
      assert Rank(BucketOrder[i]) == i && Rank(BucketOrder[j]) == j;
    }
  }

  /** One dish's contribution to one bucket: `addEnum` for the three
      enumerations, the spice rule, and `addList` for the list fields. */
  method AddContribution(tally: Tally, dish: Dish, b: BucketType) returns (r: Tally)
    ensures r == AddAll(tally, Contribution(dish, b), ContributionWeight(dish, b))
  {
    if !IsAiBucket(b) {
      var values := if b.Cuisine? then dish.cuisines else if b.Ingredient? then dish.ingredients else dish.categories;
      r := AddList(tally, values, 1.0);
      return;
    }
    if dish.ai.None? {
      return tally;
    }
    var ai := dish.ai.value;
    // Confidence weighs the AI values instead of cutting them off.
    var aiWeight := AiWeight(ai);
    match b
    case ProteinType => r := AddEnum(tally, ai.proteinType, "unknown", aiWeight);
    case ServingTemperature => r := AddEnum(tally, ai.servingTemperature, "mixed", aiWeight);
    case ComfortVsLight => r := AddEnum(tally, ai.comfortVsLight, "unknown", aiWeight);
    case SpiceLevel => r := AddSpice(tally, ai.spiceLevel, aiWeight);
    case CourseType => r := AddList(tally, ai.courseType, aiWeight);
    case FlavorProfile => r := AddList(tally, ai.flavorProfile, aiWeight);
    case TextureProfile => r := AddList(tally, ai.textureProfile, aiWeight);
    case MealContext => r := AddList(tally, ai.mealContext, aiWeight);
    case DietaryTags => r := AddList(tally, ai.dietaryTags, aiWeight);
    case CookingMethodTags => r := AddList(tally, ai.cookingMethodTags, aiWeight);
    case KeyIngredients => r := AddList(tally, ai.keyIngredients, aiWeight);
  }

  /** An enumeration field: counted, normalised, when it is non-empty and
      not the placeholder. */
  function AddEnum(t: Tally, raw: string, placeholder: string, w: real): (r: Tally)
    ensures r == AddAll(t, EnumValue(raw, placeholder), w)
  {
    AddAllSingle(t, Normalize(raw), w);
    if raw != "" && raw != placeholder then AddWeight(t, Normalize(raw), w) else t
  }

  /** The spice bucket: `spicy` from level 3, `mild` up to level 1. */
  function AddSpice(t: Tally, level: int, w: real): (r: Tally)
    ensures r == AddAll(t, SpiceValues(level), w)
  {
    AddAllSingle(t, "spicy", w);
    AddAllSingle(t, "mild", w);
    assert level >= 3 ==> SpiceValues(level) == ["spicy"];
    assert level <= 1 ==> SpiceValues(level) == ["mild"];
    var afterSpicy := if level >= 3 then AddWeight(t, "spicy", w) else t;
    if level <= 1 then AddWeight(afterSpicy, "mild", w) else afterSpicy
  }

  /** The body of the dish loop of `collectCandidates`: one dish added to
      every bucket. The buckets are independent, so updating them in
      `BucketOrder` gives the same record as the source's order of calls. */
  method AddDish(buckets: Buckets, dish: Dish) returns (next: Buckets)
    ensures forall b :: Get(next, b) == AddAll(Get(buckets, b), Contribution(dish, b), ContributionWeight(dish, b))
  {
    next := buckets;
    for i := 0 to |BucketOrder|
      invariant forall b :: Rank(b) < i ==> Get(next, b) == AddAll(Get(buckets, b), Contribution(dish, b), ContributionWeight(dish, b))
      invariant forall b :: Rank(b) >= i ==> Get(next, b) == Get(buckets, b)
    {
      var b := BucketOrder[i];
      RankOfOrder(i);
      var t := AddContribution(Get(next, b), dish, b);
      next := Put(next, b, t);
    }
  }

  // ---------------------------------------------------------------------
  // Scoring the tallies

  function Abs(x: real): real { if x < 0.0 then -x else x }

  /** `(1 - |0.5 - ratio|) + 0.01`: largest for a value held by half the pool. */
  function SplitScore(ratio: real): real {
    (1.0 - Abs(0.5 - ratio)) + 0.01
  }

  /** A candidate's weight: its split score times its bucket's priority. */
  function Weigh(b: BucketType, count: real, total: nat): real
    requires total > 0
  {
    SplitScore(count / total as real) * TypePriority(b)
  }

  /** What `build` makes of one entry of bucket `b`: nothing for the empty
      value or a share of the pool outside [MinRatio, MaxRatio], else a
      candidate scored by `SplitScore` times the bucket's priority. A pool of
      no dishes has empty buckets, so the `total == 0` guard never decides
      an entry; it only keeps the division defined. */
  function ScoreEntry(b: BucketType, t: Tally, total: nat, value: string): Option<Candidate> {
    if value == "" || total == 0 then None
    else
      var count := Count(t, value);
      var ratio := count / total as real;
      if ratio < MinRatio || ratio > MaxRatio then None
      else Some(Candidate(b, value, count, Weigh(b, count, total)))
  }

  function Scorer(b: BucketType, t: Tally, total: nat): string -> Option<Candidate> {
    value => ScoreEntry(b, t, total, value)
  }

  /** The candidates of one bucket, in the tally's key order. */
  function BuildSpec(b: BucketType, t: Tally, total: nat): seq<Candidate> {
    FilterMap(t.keys, Scorer(b, t, total))
  }

  /** `build`: walks the entries of one tally. */
  method Build(b: BucketType, t: Tally, total: nat) returns (result: seq<Candidate>)
    requires total > 0 || t.keys == []
    ensures result == BuildSpec(b, t, total)
  {
    result := [];
    for i := 0 to |t.keys|
      invariant result == FilterMap(t.keys[..i], Scorer(b, t, total))
    {
      var value := t.keys[i];
      BuildStep(b, t, total, i);
      if value == "" {
        continue;
      }
      var count := Count(t, value);
      var ratio := count / total as real;
      if ratio < MinRatio || ratio > MaxRatio {
        continue;
      }
      var weight := SplitScore(ratio) * TypePriority(b);
      result := result + [Candidate(b, value, count, weight)];
    }
    assert t.keys[..|t.keys|] == t.keys;
  }

  /** The loop step of `build`, case by case. */
  lemma BuildStep(b: BucketType, t: Tally, total: nat, i: nat)
    requires total > 0 && i < |t.keys|
    ensures var value := t.keys[i];
      var ratio := Count(t, value) / total as real;
      var front := FilterMap(t.keys[..i], Scorer(b, t, total));
      FilterMap(t.keys[..i + 1], Scorer(b, t, total)) ==
        (if value == "" || ratio < MinRatio || ratio > MaxRatio then front
         else front + [Candidate(b, value, Count(t, value), SplitScore(ratio) * TypePriority(b))])
  {
    FilterMapStep(t.keys, i, Scorer(b, t, total));
  }

  /** The candidates of the buckets in `order`, bucket after bucket. */
  function CandidatesIn(pool: seq<Dish>, order: seq<BucketType>): seq<Candidate> {
    if order == [] then []
    else
      var b := order[|order| - 1];
      CandidatesIn(pool, order[..|order| - 1]) + BuildSpec(b, BucketTally(pool, b), |pool|)
  }

  /** What `collectCandidates` returns for `pool`. */
  function Candidates(pool: seq<Dish>): seq<Candidate> {
    CandidatesIn(pool, BucketOrder)
  }

  /** `collectCandidates`: tallies every dish into the buckets, then builds
      the candidates of each bucket in `BucketOrder`. */
  method CollectCandidates(pool: seq<Dish>) returns (candidates: seq<Candidate>)
    ensures candidates == Candidates(pool)
  {
    var buckets := EmptyBuckets;
    for i := 0 to |pool|
      invariant forall b :: Get(buckets, b) == BucketTally(pool[..i], b)
    {
      TakeSnoc(pool, i + 1);
      assert pool[..i + 1][..i] == pool[..i];
      buckets := AddDish(buckets, pool[i]);
    }
    assert pool[..|pool|] == pool;
    candidates := [];
    for j := 0 to |BucketOrder|
      invariant candidates == CandidatesIn(pool, BucketOrder[..j])
    {
      var b := BucketOrder[j];
      TakeSnoc(BucketOrder, j + 1);
      assert BucketOrder[..j + 1][..j] == BucketOrder[..j];
      var part := Build(b, Get(buckets, b), |pool|);
      candidates := candidates + part;
    }
    assert BucketOrder[..|BucketOrder|] == BucketOrder;
  }

  /** A scored entry is a non-empty value whose share of the pool lies in
      [MinRatio, MaxRatio], weighed as `build` weighs it. */
  lemma ScoreEntryFacts(b: BucketType, t: Tally, total: nat, v: string)
    ensures ScoreEntry(b, t, total, v).Some? <==>
      v != "" && total > 0 && MinRatio <= Count(t, v) / total as real <= MaxRatio
    ensures ScoreEntry(b, t, total, v).Some? ==>
      ScoreEntry(b, t, total, v).value
        == Candidate(b, v, Count(t, v), Weigh(b, Count(t, v), total))
  {
  }

  lemma BuildSpecMember(b: BucketType, t: Tally, total: nat, c: Candidate)
    requires c in BuildSpec(b, t, total)
    ensures c.value in t.keys && ScoreEntry(b, t, total, c.value) == Some(c)
  {
    FilterMapMembers(t.keys, Scorer(b, t, total));
    var k :| 0 <= k < |t.keys| && Scorer(b, t, total)(t.keys[k]) == Some(c);
    ScoreEntryFacts(b, t, total, t.keys[k]);
  }

  lemma {:induction false} CandidatesInMember(pool: seq<Dish>, order: seq<BucketType>, c: Candidate)
    requires c in CandidatesIn(pool, order)
    ensures c.bucket in order && c.value in BucketTally(pool, c.bucket).keys
    ensures ScoreEntry(c.bucket, BucketTally(pool, c.bucket), |pool|, c.value) == Some(c)
  {
    var b := order[|order| - 1];
    var front := order[..|order| - 1];
    if c in CandidatesIn(pool, front) {
      CandidatesInMember(pool, front, c);
    } else {
      var t := BucketTally(pool, b);
      BuildSpecMember(b, t, |pool|, c);
      ScoreEntryFacts(b, t, |pool|, c.value);
    }
  }

  /** Every mined candidate: a non-empty value counted in its bucket, with
      a share of the pool in [0.07, 0.65], weighed
      `((1 - |0.5 - ratio|) + 0.01) * TYPE_PRIORITY[type]`. */
  lemma CandidateFacts(pool: seq<Dish>, c: Candidate)
    requires c in Candidates(pool)
    ensures c.value != "" && |pool| > 0
    ensures c.value in BucketTally(pool, c.bucket).keys
    ensures c.count == Count(BucketTally(pool, c.bucket), c.value)
    ensures 0.07 <= c.count / |pool| as real <= 0.65
    ensures c.weight == Weigh(c.bucket, c.count, |pool|)
  {
    CandidatesInMember(pool, BucketOrder, c);
    ScoreEntryFacts(c.bucket, BucketTally(pool, c.bucket), |pool|, c.value);
  }

  /** Conversely, every non-empty counted value with a share in
      [0.07, 0.65] becomes a candidate. */
  lemma CandidateComplete(pool: seq<Dish>, b: BucketType, v: string)
    requires v != "" && |pool| > 0 && v in BucketTally(pool, b).keys
    requires 0.07 <= Count(BucketTally(pool, b), v) / |pool| as real <= 0.65
    ensures ScoreEntry(b, BucketTally(pool, b), |pool|, v).Some?
    ensures ScoreEntry(b, BucketTally(pool, b), |pool|, v).value in Candidates(pool)
  {
    var t := BucketTally(pool, b);
    var k :| 0 <= k < |t.keys| && t.keys[k] == v;
    FilterMapMembers(t.keys, Scorer(b, t, |pool|));
    assert Scorer(b, t, |pool|)(t.keys[k]).Some?;
    CandidatesInHas(pool, BucketOrder, Rank(b), ScoreEntry(b, t, |pool|, v).value);
  }

  lemma {:induction false} CandidatesInHas(pool: seq<Dish>, order: seq<BucketType>, i: nat, c: Candidate)
    requires i < |order| && c in BuildSpec(order[i], BucketTally(pool, order[i]), |pool|)
    ensures c in CandidatesIn(pool, order)
  {
    if i < |order| - 1 {
      CandidatesInHas(pool, order[..|order| - 1], i, c);
    }
  }

  // ---------------------------------------------------------------------
  // The name fallback

  const StopWords: set<string> := {"and", "with", "the", "for", "style", "food", "dish"}

  /** A piece of the split name, trimmed, kept when longer than two
      characters and not a stop word. */
  function NameToken(piece: string): Option<string> {
    var token := Trim(piece);
    if |token| > 2 && token !in StopWords then Some(token) else None
  }

  /** The distinct tokens of a dish name: lower-cased, split on runs of
      characters other than `a-z0-9`, filtered by `NameToken`. */
  function NameTokens(name: string): seq<string> {
    Dedupe(FilterMap(SplitRuns(ToLower(name), NotLowerAlnum), NameToken))
  }

  /** A name token is lower-case alphanumeric, longer than two characters
      and not a stop word. */
  lemma NameTokenFacts(name: string)
    ensures forall tok :: tok in NameTokens(name) ==>
      |tok| > 2 && tok !in StopWords && forall k :: 0 <= k < |tok| ==> IsLowerAlnum(tok[k])
  {
    var pieces := SplitRuns(ToLower(name), NotLowerAlnum);
    DedupeFacts(FilterMap(pieces, NameToken));
    FilterMapMembers(pieces, NameToken);
    forall tok | tok in NameTokens(name)
      ensures |tok| > 2 && tok !in StopWords && forall k :: 0 <= k < |tok| ==> IsLowerAlnum(tok[k])
    {
      var i :| 0 <= i < |pieces| && NameToken(pieces[i]) == Some(tok);
      PieceIsToken(pieces[i]);
    }
  }

  /** A piece between runs of other characters is its own trimmed form. */
  lemma PieceIsToken(piece: string)
    requires forall k :: 0 <= k < |piece| ==> IsLowerAlnum(piece[k])
    ensures Trim(piece) == piece
  {
    if piece != [] {
      assert !IsWhitespace(piece[0]) && !IsWhitespace(piece[|piece| - 1]);
    }
    TrimOfTrimmed(piece);
  }

  /** A dish counts each of its name tokens once. */
  lemma NameTokensDistinct(name: string)
    ensures Distinct(NameTokens(name))
  {
    DedupeFacts(FilterMap(SplitRuns(ToLower(name), NotLowerAlnum), NameToken));
  }

  /** The token map after the dishes of `pool`, each adding 1 per token. */
  function TokenTally(pool: seq<Dish>): Tally {
    if pool == [] then EmptyTally
    else AddAll(TokenTally(pool[..|pool| - 1]), NameTokens(pool[|pool| - 1].name), 1.0)
  }

  /** The number of dishes of `pool` whose name holds token `tok`. */
  function TokenDishCount(pool: seq<Dish>, tok: string): nat {
    if pool == [] then 0
    else TokenDishCount(pool[..|pool| - 1], tok) + (if tok in NameTokens(pool[|pool| - 1].name) then 1 else 0)
  }

  /** A token's count is the number of dishes whose name holds it. */
  lemma {:induction false} TokenTallyCount(pool: seq<Dish>, tok: string)
    ensures Count(TokenTally(pool), tok) == TokenDishCount(pool, tok) as real
  {
    if pool != [] {
      var front := pool[..|pool| - 1];
      TokenTallyCount(front, tok);
      NameTokensDistinct(pool[|pool| - 1].name);
      AddAllCounts(TokenTally(front), NameTokens(pool[|pool| - 1].name), 1.0);
    }
  }

  /** The keys of the token map are the tokens of some dish name. */
  lemma {:induction false} TokenTallyKeys(pool: seq<Dish>, tok: string)
    ensures ValidTally(TokenTally(pool))
    ensures tok in TokenTally(pool).keys <==> TokenDishCount(pool, tok) > 0
  {
    if pool != [] {
      var front := pool[..|pool| - 1];
      TokenTallyKeys(front, tok);
      AddAllKeys(TokenTally(front), NameTokens(pool[|pool| - 1].name), 1.0);
    }
  }

  /** `(1 - |0.5 - ratio|) * 0.75 + 0.01`. */
  function FallbackWeight(ratio: real): real {
    (1.0 - Abs(0.5 - ratio)) * 0.75 + 0.01
  }

  /** A token becomes an `ingredient` candidate when its share of the pool
      lies in [0.15, 0.85]. As for `ScoreEntry`, the `total == 0` guard
      only keeps the division defined. */
  function FallbackEntry(t: Tally, total: nat, token: string): Option<Candidate> {
    if total == 0 then None
    else
      var count := Count(t, token);
      var ratio := count / total as real;
      if ratio < 0.15 || ratio > 0.85 then None
      else Some(Candidate(Ingredient, token, count, FallbackWeight(ratio)))
  }

  function FallbackScorer(t: Tally, total: nat): string -> Option<Candidate> {
    token => FallbackEntry(t, total, token)
  }

  /** What `collectNameFallbackCandidates` returns for `pool`. */
  function FallbackCandidates(pool: seq<Dish>): seq<Candidate> {
    var t := TokenTally(pool);
    FilterMap(t.keys, FallbackScorer(t, |pool|))
  }

  /** The loop step over the token map's entries. */
  lemma FallbackStep(t: Tally, total: nat, i: nat)
    requires total > 0 && i < |t.keys|
    ensures var token := t.keys[i];
      var ratio := Count(t, token) / total as real;
      var front := FilterMap(t.keys[..i], FallbackScorer(t, total));
      FilterMap(t.keys[..i + 1], FallbackScorer(t, total)) ==
        (if ratio < 0.15 || ratio > 0.85 then front
         else front + [Candidate(Ingredient, token, Count(t, token), FallbackWeight(ratio))])
  {
    FilterMapStep(t.keys, i, FallbackScorer(t, total));
  }

  /** `collectNameFallbackCandidates`: counts the name tokens of every dish,
      then keeps the tokens with a share of the pool in [0.15, 0.85]. */
  method CollectNameFallback(pool: seq<Dish>) returns (fallback: seq<Candidate>)
    ensures fallback == FallbackCandidates(pool)
  {
    var total := |pool|;
    var tokenCounts := EmptyTally;
    for i := 0 to |pool|
      invariant tokenCounts == TokenTally(pool[..i])
    {
      TakeSnoc(pool, i + 1);
      assert pool[..i + 1][..i] == pool[..i];
      var unique := NameTokens(pool[i].name);
      tokenCounts := AddEach(tokenCounts, unique, 1.0);
    }
    assert pool[..|pool|] == pool;
    fallback := [];
    for i := 0 to |tokenCounts.keys|
      invariant fallback == FilterMap(tokenCounts.keys[..i], FallbackScorer(tokenCounts, total))
    {
      var token := tokenCounts.keys[i];
      if total == 0 {
        // An empty pool has no tokens.
        assert false;
      }
      FallbackStep(tokenCounts, total, i);
      var count := Count(tokenCounts, token);
      var ratio := count / total as real;
      if ratio < 0.15 || ratio > 0.85 {
        continue;
      }
      fallback := fallback + [Candidate(Ingredient, token, count, FallbackWeight(ratio))];
    }
    assert tokenCounts.keys[..|tokenCounts.keys|] == tokenCounts.keys;
  }

  /** Every fallback candidate is an `ingredient` candidate: a name token
      held by a share of the pool in [0.15, 0.85], counted once per dish,
      weighed `(1 - |0.5 - ratio|) * 0.75 + 0.01`. */
  lemma FallbackFacts(pool: seq<Dish>, c: Candidate)
    requires c in FallbackCandidates(pool)
    ensures c.bucket == Ingredient && |pool| > 0
    ensures c.count == TokenDishCount(pool, c.value) as real
    ensures 0.15 <= c.count / |pool| as real <= 0.85
    ensures c.weight == FallbackWeight(c.count / |pool| as real)
  {
    FallbackMember(TokenTally(pool), |pool|, c);
    TokenTallyCount(pool, c.value);
  }

  /** A fallback candidate's value is a name token: lower-case
      alphanumeric, longer than two characters, not a stop word. */
  lemma FallbackValueIsToken(pool: seq<Dish>, c: Candidate)
    requires c in FallbackCandidates(pool)
    ensures |c.value| > 2 && c.value !in StopWords
    ensures forall k :: 0 <= k < |c.value| ==> IsLowerAlnum(c.value[k])
  {
    FallbackMember(TokenTally(pool), |pool|, c);
    TokenTallyKeys(pool, c.value);
    TokenInSomeName(pool, c.value);
  }

  lemma FallbackMember(t: Tally, total: nat, c: Candidate)
    requires c in FilterMap(t.keys, FallbackScorer(t, total))
    ensures c.value in t.keys && total > 0 && 0.15 <= Count(t, c.value) / total as real <= 0.85
    ensures c == Candidate(Ingredient, c.value, Count(t, c.value), FallbackWeight(Count(t, c.value) / total as real))
  {
    FilterMapMembers(t.keys, FallbackScorer(t, total));
    var i :| 0 <= i < |t.keys| && FallbackScorer(t, total)(t.keys[i]) == Some(c);
    FallbackEntryFacts(t, total, t.keys[i]);
  }

  lemma FallbackEntryFacts(t: Tally, total: nat, token: string)
    ensures FallbackEntry(t, total, token).Some? <==>
      total > 0 && 0.15 <= Count(t, token) / total as real <= 0.85
    ensures FallbackEntry(t, total, token).Some? ==>
      FallbackEntry(t, total, token).value
        == Candidate(Ingredient, token, Count(t, token), FallbackWeight(Count(t, token) / total as real))
  {
  }

  lemma {:induction false} TokenInSomeName(pool: seq<Dish>, tok: string)
    requires TokenDishCount(pool, tok) > 0
    ensures |tok| > 2 && tok !in StopWords && forall k :: 0 <= k < |tok| ==> IsLowerAlnum(tok[k])
  {
    var last := pool[|pool| - 1];
    if tok in NameTokens(last.name) {
      NameTokenFacts(last.name);
    } else {
      TokenInSomeName(pool[..|pool| - 1], tok);
    }
  }
}
