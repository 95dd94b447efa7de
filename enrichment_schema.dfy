/** The enrichment schema: the vocabularies of the AI metadata block, the
    snake_case normaliser, the list cleaners, the numeric clamps, the
    sanitiser that turns an untyped model reply into a well-formed block,
    and the calibration that caps confidence by the evidence the raw dish
    carries. */
module EnrichmentSchema {
  import opened Wrappers
  import opened Text
  import opened Collections
  import opened JsValues
  import opened DishTypes

  const PromptVersion: string := "v3-ollama-local"

  /** The most entries a cleaned list keeps. */
  const ListLimit: nat := 8

  const FlavorAllowed: set<string> :=
    {"sweet", "savory", "spicy", "umami", "sour", "bitter", "salty", "rich", "smoky", "tangy"}
  const MealContextAllowed: set<string> :=
    {"breakfast", "lunch", "dinner", "snack", "dessert", "appetizer", "late_night"}
  const DietaryAllowed: set<string> :=
    {"vegetarian", "vegan", "gluten_free", "dairy_free", "nut_free", "egg_free", "halal", "kosher", "pescatarian"}
  const TextureAllowed: set<string> :=
    {"crispy", "crunchy", "creamy", "chewy", "brothy", "tender", "silky", "sticky"}
  const AllergenAllowed: set<string> :=
    {"contains_nuts", "contains_dairy", "contains_gluten", "contains_shellfish",
     "contains_egg", "contains_soy", "contains_fish", "contains_sesame"}
  const CourseAllowed: set<string> :=
    {"starter", "main", "side", "dessert", "street_food", "snack"}
  const MethodAllowed: set<string> :=
    {"fried", "stir_fried", "grilled", "baked", "steamed", "raw", "stewed",
     "boiled", "roasted", "braised", "sauteed", "smoked"}
  const ServingAllowed: set<string> := {"hot", "cold", "room", "mixed"}
  const ProteinAllowed: set<string> := {"meat", "seafood", "vegetarian", "vegan", "mixed", "unknown"}
  const ComfortAllowed: set<string> := {"comfort", "balanced", "light", "unknown"}

  // ---------------------------------------------------------------------
  // snake_case

  predicate SnakeChar(c: char) { IsLowerAlnum(c) || c == '_' }

  /** Only lower-case letters, digits and underscores, and never two
      underscores in a row. */
  ghost predicate SnakeBody(s: string) {
    s == []
    || (SnakeChar(s[0]) && (|s| >= 2 ==> !(s[0] == '_' && s[1] == '_')) && SnakeBody(s[1..]))
  }

  /** Lower-case letters, digits and single inner underscores. */
  ghost predicate IsSnake(s: string) {
    SnakeBody(s) && (s == [] || (s[0] != '_' && s[|s| - 1] != '_'))
  }

  /** `replace(/[^a-z0-9]+/g, '_')`: every maximal run of other characters
      becomes one underscore. */
  function ReplaceRuns(s: string): (r: string)
    ensures SnakeBody(r)
    ensures r == [] <==> s == []
    ensures r != [] ==> (r[0] == '_' <==> !IsLowerAlnum(s[0]))
    decreases |s|
  {
    if s == [] then []
    else if !IsLowerAlnum(s[0]) then
      var rest := ReplaceRuns(DropClass(s[1..], NotLowerAlnum));
      assert ("_" + rest)[1..] == rest;
      "_" + rest
    else
      var rest := ReplaceRuns(s[1..]);
      assert ([s[0]] + rest)[1..] == rest;
      [s[0]] + rest
  }

  /** The length of the run of `c` at the start of `s`. */
  function LeadingRun(s: string, c: char): (n: nat)
    ensures n <= |s|
    ensures n == |s| || s[n] != c
  {
    if s != [] && s[0] == c then 1 + LeadingRun(s[1..], c) else 0
  }

  /** The length of the run of `c` at the end of `s`. */
  function TrailingRun(s: string, c: char): (n: nat)
    ensures n <= |s|
    ensures n == |s| || s[|s| - n - 1] != c
  {
    if s != [] && s[|s| - 1] == c then 1 + TrailingRun(s[..|s| - 1], c) else 0
  }

  lemma {:induction false} SnakeBodyDrop(s: string, a: nat)
    requires a <= |s| && SnakeBody(s)
    ensures SnakeBody(s[a..])
  {
    if a > 0 {
      SnakeBodyDrop(s[1..], a - 1);
      assert s[1..][a - 1..] == s[a..];
    }
  }

  lemma {:induction false} SnakeBodyTake(s: string, b: nat)
    requires b <= |s| && SnakeBody(s)
    ensures SnakeBody(s[..b])
  {
    if b > 0 {
      SnakeBodyTake(s[1..], b - 1);
      assert s[..b][1..] == s[1..][..b - 1];
    }
  }

  /** `toSnakeCase`: trim, lower-case, collapse every run of characters
      other than a-z and 0-9 into `_`, then strip edge underscores. */
  function ToSnakeCase(value: string): (r: string)
    ensures IsSnake(r)
  {
    var replaced := ReplaceRuns(ToLower(Trim(value)));
    var a := LeadingRun(replaced, '_');
    var b := |replaced| - TrailingRun(replaced[a..], '_');
    SnakeBodyDrop(replaced, a);
    SnakeBodyTake(replaced[a..], b - a);
    assert replaced[a..][..b - a] == replaced[a..b];
    replaced[a..b]
  }

  lemma {:induction false} ReplaceRunsOfSnake(s: string)
    requires SnakeBody(s)
    requires s == [] || s[0] != '_'
    ensures ReplaceRuns(s) == s
    decreases |s|
  {
    if s != [] {
      var t := s[1..];
      assert s == [s[0]] + t;
      if t != [] && t[0] == '_' {
        // The underscore after `s[0]` is a run of length one.
        var u := t[1..];
        assert u == [] || u[0] != '_';
        ReplaceRunsOfSnake(u);
        assert DropClass(u, NotLowerAlnum) == u;
        assert t == "_" + u;
      } else {
        ReplaceRunsOfSnake(t);
      }
    }
  }

  lemma {:induction false} SnakeBodyChars(s: string)
    requires SnakeBody(s)
    ensures forall i :: 0 <= i < |s| ==> SnakeChar(s[i])
  {
    if s != [] {
      SnakeBodyChars(s[1..]);
      assert forall i :: 1 <= i < |s| ==> s[i] == s[1..][i - 1];
    }
  }

  /** A snake_case string is its own snake_case form, so normalising twice
      is normalising once. */
  lemma {:induction false} SnakeCaseFixedPoint(s: string)
    requires IsSnake(s)
    ensures ToSnakeCase(s) == s
  {
    SnakeBodyChars(s);
    assert NoEdgeWhitespace(s);
    TrimOfTrimmed(s);
    assert ToLower(s) == s;
    ReplaceRunsOfSnake(s);
  }

  lemma SnakeCaseIdempotent(s: string)
    ensures ToSnakeCase(ToSnakeCase(s)) == ToSnakeCase(s)
  {
    SnakeCaseFixedPoint(ToSnakeCase(s));
  }

  // ---------------------------------------------------------------------
  // List cleaning

  /** What one entry of a list contributes: its snake_case form, when the
      entry is a string whose form is non-empty and, if an allowlist is
      given, allowed. */
  function AdmitOne(v: JsValue, allowed: Option<set<string>>): (r: Option<string>)
    ensures r.Some? ==> r.value != ""
    ensures r.Some? && allowed.Some? ==> r.value in allowed.value
    ensures r.Some? ==> v.Str? && r.value == ToSnakeCase(v.s)
  {
    if !v.Str? then None
    else
      var normalized := ToSnakeCase(v.s);
      if normalized == "" then None
      else if allowed.Some? && normalized !in allowed.value then None
      else Some(normalized)
  }

  /** `AdmitOne` as a function value, for `FilterMap`. */
  function Admitter(allowed: Option<set<string>>): JsValue -> Option<string> {
    v => AdmitOne(v, allowed)
  }

  /** The result of `cleanList(values, allowed, fallback)` (or of
      `cleanFreeList` when `allowed` is `None`). */
  function CleanListSpec(values: JsValue, allowed: Option<set<string>>, fallback: seq<string>): seq<string> {
    if !values.Arr? then fallback
    else Take(Dedupe(FilterMap(values.items, Admitter(allowed))), ListLimit)
  }

  /** A list as the cleaners leave it. */
  ghost predicate IsCleanList(l: seq<string>, allowed: Option<set<string>>) {
    Distinct(l) && |l| <= ListLimit
    && forall i :: 0 <= i < |l| ==> l[i] != "" && IsSnake(l[i]) && (allowed.Some? ==> l[i] in allowed.value)
  }

  /** The loop both cleaners share: collect the distinct values `admit`
      yields, first seen first, until `ListLimit` of them are found. */
  method CollectUnique<A>(items: seq<A>, admit: A -> Option<string>) returns (unique: seq<string>)
    ensures unique == Take(Dedupe(FilterMap(items, admit)), ListLimit)
  {
    unique := [];
    var i := 0;
    while i < |items|
      invariant 0 <= i <= |items|
      invariant unique == Dedupe(FilterMap(items[..i], admit))
      invariant |unique| < ListLimit
    {
      var value := items[i];
      CollectStep(items, i, admit);
      i := i + 1;
      // The entries `admit` rejects are skipped.
      var admitted := admit(value);
      if admitted.None? {
        continue;
      }
      var normalized := admitted.value;
      if normalized !in unique {
        unique := unique + [normalized];
      }
      if |unique| >= ListLimit {
        FullPrefix(items, i, admit);
        return;
      }
    }
    assert items[..i] == items;
  }

  /** One more element either adds its admitted form, when new, to the
      distinct values so far or leaves them as they are. */
  lemma {:induction false} CollectStep<A>(items: seq<A>, i: nat, f: A -> Option<string>)
    requires i < |items|
    ensures f(items[i]).None? ==>
      Dedupe(FilterMap(items[..i + 1], f)) == Dedupe(FilterMap(items[..i], f))
    ensures f(items[i]).Some? ==>
      var d := Dedupe(FilterMap(items[..i], f));
      Dedupe(FilterMap(items[..i + 1], f)) == if f(items[i]).value in d then d else d + [f(items[i]).value]
  {
    assert items[..i + 1] == items[..i] + [items[i]];
    FilterMapSnoc(items[..i], items[i], f);
    if f(items[i]).Some? {
      DedupeSnoc(FilterMap(items[..i], f), f(items[i]).value);
    }
  }

  /** Once the distinct values of a prefix fill the limit, the rest of the
      input cannot change the first `ListLimit` distinct values. */
  lemma {:induction false} FullPrefix<A>(items: seq<A>, i: nat, f: A -> Option<string>)
    requires i <= |items|
    requires |Dedupe(FilterMap(items[..i], f))| == ListLimit
    ensures Dedupe(FilterMap(items[..i], f)) == Take(Dedupe(FilterMap(items, f)), ListLimit)
  {
    FilterMapPrefix(items, i, f);
    var whole := FilterMap(items, f);
    var front := FilterMap(items[..i], f);
    assert whole == front + whole[|front|..];
    DedupePrefix(front, whole[|front|..]);
  }

  /** `cleanList`: the fallback for a non-array, else the distinct allowed
      snake_case forms of the string entries, first seen first, at most
      `ListLimit`. */
  method CleanList(values: JsValue, allowed: set<string>, fallback: seq<string>) returns (r: seq<string>)
    ensures r == CleanListSpec(values, Some(allowed), fallback)
  {
    if !values.Arr? {
      return fallback;
    }
    r := CollectUnique(values.items, Admitter(Some(allowed)));
  }

  /** `cleanFreeList`: as `CleanList` with no allowlist. */
  method CleanFreeList(values: JsValue, fallback: seq<string>) returns (r: seq<string>)
    ensures r == CleanListSpec(values, None, fallback)
  {
    if !values.Arr? {
      return fallback;
    }
    r := CollectUnique(values.items, Admitter(None));
  }

  /** What a cleaned array holds: distinct admitted forms of its entries,
      at most `ListLimit`, and every admitted form unless the limit was
      reached. */
  lemma {:induction false} CleanListFacts(values: JsValue, allowed: Option<set<string>>, fallback: seq<string>)
    requires values.Arr?
    ensures IsCleanList(CleanListSpec(values, allowed, fallback), allowed)
    ensures forall x :: x in CleanListSpec(values, allowed, fallback) ==>
      exists k :: 0 <= k < |values.items| && values.items[k].Str? && ToSnakeCase(values.items[k].s) == x
    ensures forall k :: 0 <= k < |values.items| && AdmitOne(values.items[k], allowed).Some? ==>
      AdmitOne(values.items[k], allowed).value in CleanListSpec(values, allowed, fallback)
      || |CleanListSpec(values, allowed, fallback)| == ListLimit
  {
    var f := Admitter(allowed);
    var a := FilterMap(values.items, f);
    var d := Dedupe(a);
    var r := CleanListSpec(values, allowed, fallback);
    DedupeFacts(a);
    FilterMapMembers(values.items, f);
    assert r == d[..|r|];
    forall x | x in r
      ensures exists k :: 0 <= k < |values.items| && values.items[k].Str? && ToSnakeCase(values.items[k].s) == x
    {
      assert x in a;
      var k :| 0 <= k < |values.items| && f(values.items[k]) == Some(x);
      assert AdmitOne(values.items[k], allowed) == Some(x);
    }
    forall i | 0 <= i < |r| ensures r[i] != "" && IsSnake(r[i]) && (allowed.Some? ==> r[i] in allowed.value) {
      assert r[i] in a;
      var k :| 0 <= k < |values.items| && f(values.items[k]) == Some(r[i]);
      assert AdmitOne(values.items[k], allowed) == Some(r[i]);
    }
    forall k | 0 <= k < |values.items| && AdmitOne(values.items[k], allowed).Some?
      ensures AdmitOne(values.items[k], allowed).value in r || |r| == ListLimit
    {
      assert f(values.items[k]) == AdmitOne(values.items[k], allowed);
      assert AdmitOne(values.items[k], allowed).value in d;
    }
  }

  /** Cleaning an already clean list gives it back. */
  lemma {:induction false} CleanListOfClean(l: seq<string>, allowed: Option<set<string>>, fallback: seq<string>)
    requires IsCleanList(l, allowed)
    ensures CleanListSpec(StrArray(l), allowed, fallback) == l
  {
    var items := StrArray(l).items;
    AdmittedOfClean(l, allowed, |l|);
    assert items[..|l|] == items;
    assert l[..|l|] == l;
    DedupeOfDistinct(l);
  }

  lemma {:induction false} AdmittedOfClean(l: seq<string>, allowed: Option<set<string>>, n: nat)
    requires IsCleanList(l, allowed) && n <= |l|
    ensures FilterMap(StrArray(l).items[..n], Admitter(allowed)) == l[..n]
  {
    if n > 0 {
      var items := StrArray(l).items;
      var f := Admitter(allowed);
      var x := l[n - 1];
      TakeSnoc(items, n);
      TakeSnoc(l, n);
      AdmittedOfClean(l, allowed, n - 1);
      FilterMapSnoc(items[..n - 1], items[n - 1], f);
      assert x != "" && IsSnake(x) && (allowed.Some? ==> x in allowed.value);
      assert items[n - 1] == Str(x);
      SnakeCaseFixedPoint(x);
      assert f(items[n - 1]) == Some(x);
    }
  }

  // ---------------------------------------------------------------------
  // Numeric clamps

  /** `clampInt`: the fallback for a non-number or NaN, else the rounded
      value pushed into `[lo, hi]`. */
  function ClampInt(value: JsValue, lo: int, hi: int, fallback: int): (r: int)
    ensures !value.Num? ==> r == fallback
    ensures value.Num? && lo <= hi ==> lo <= r <= hi
    ensures value.Num? && lo <= Round(value.n) <= hi ==> r == Round(value.n)
  {
    if !value.Num? then fallback else MaxInt(lo, MinInt(hi, Round(value.n)))
  }

  /** `clampFloat`: as `ClampInt` without rounding. */
  function ClampFloat(value: JsValue, lo: real, hi: real, fallback: real): (r: real)
    ensures !value.Num? ==> r == fallback
    ensures value.Num? && lo <= hi ==> lo <= r <= hi
    ensures value.Num? && lo <= value.n <= hi ==> r == value.n
  {
    if !value.Num? then fallback else MaxReal(lo, MinReal(hi, value.n))
  }

  // ---------------------------------------------------------------------
  // Sanitising

  /** The well-formedness the sanitiser establishes. */
  ghost predicate WellFormed(m: AiMeta) {
    IsCleanList(m.flavorProfile, Some(FlavorAllowed))
    && IsCleanList(m.mealContext, Some(MealContextAllowed))
    && IsCleanList(m.dietaryTags, Some(DietaryAllowed))
    && IsCleanList(m.keyIngredients, None)
    && IsCleanList(m.textureProfile, Some(TextureAllowed))
    && m.servingTemperature in ServingAllowed
    && 0 <= m.spiceLevel <= 5
    && IsCleanList(m.allergenRiskTags, Some(AllergenAllowed))
    && m.proteinType in ProteinAllowed
    && IsCleanList(m.courseType, Some(CourseAllowed))
    && IsCleanList(m.cookingMethodTags, Some(MethodAllowed))
    && m.comfortVsLight in ComfortAllowed
    && 1 <= m.adventureLevel <= 5
    && 0.0 <= m.aiConfidence <= 1.0
  }

  /** `defaultAiMeta`. */
  function DefaultAiMeta(): (r: AiMeta)
    ensures WellFormed(r)
    ensures r.servingTemperature == "mixed" && r.proteinType == "unknown" && r.comfortVsLight == "unknown"
    ensures r.spiceLevel == 0 && r.adventureLevel == 3 && r.aiConfidence == 0.0
  {
    AiMeta([], [], [], [], [], "mixed", 0, [], "unknown", [], [], "unknown", 3, 0.0)
  }

  /** An enumeration field: kept when it is one of the allowed strings,
      otherwise the default. */
  function PickEnum(v: JsValue, allowed: set<string>, default: string): (r: string)
    ensures r == default || (v.Str? && r == v.s && r in allowed)
    ensures v.Str? && v.s in allowed ==> r == v.s
  {
    if v.Str? && v.s in allowed then v.s else default
  }

  /** A list property of the input, cleaned, with an empty fallback. */
  function ListField(input: JsValue, key: string, allowed: Option<set<string>>): (r: seq<string>)
    ensures IsCleanList(r, allowed)
  {
    var v := Field(input, key);
    CleanListWellFormed(v, allowed);
    CleanListSpec(v, allowed, [])
  }

  lemma CleanListWellFormed(v: JsValue, allowed: Option<set<string>>)
    ensures IsCleanList(CleanListSpec(v, allowed, []), allowed)
  {
    if v.Arr? {
      CleanListFacts(v, allowed, []);
    }
  }

  /** `sanitizeAiMeta`: a well-formed metadata block from any value. */
  function SanitizeAiMeta(input: JsValue): (r: AiMeta)
    ensures WellFormed(r)
    ensures !IsObject(input) ==> r == DefaultAiMeta()
  {
    var base := DefaultAiMeta();
    if !IsObject(input) then base
    else
      AiMeta(
        ListField(input, "flavorProfile", Some(FlavorAllowed)),
        ListField(input, "mealContext", Some(MealContextAllowed)),
        ListField(input, "dietaryTags", Some(DietaryAllowed)),
        ListField(input, "keyIngredients", None),
        ListField(input, "textureProfile", Some(TextureAllowed)),
        PickEnum(Field(input, "servingTemperature"), ServingAllowed, base.servingTemperature),
        ClampInt(Field(input, "spiceLevel"), 0, 5, base.spiceLevel),
        ListField(input, "allergenRiskTags", Some(AllergenAllowed)),
        PickEnum(Field(input, "proteinType"), ProteinAllowed, base.proteinType),
        ListField(input, "courseType", Some(CourseAllowed)),
        ListField(input, "cookingMethodTags", Some(MethodAllowed)),
        PickEnum(Field(input, "comfortVsLight"), ComfortAllowed, base.comfortVsLight),
        ClampInt(Field(input, "adventureLevel"), 1, 5, base.adventureLevel),
        ClampFloat(Field(input, "aiConfidence"), 0.0, 1.0, base.aiConfidence))
  }

  /** A clean list written as a JSON array is read back unchanged. */
  lemma ListFieldOfClean(input: JsValue, key: string, l: seq<string>, allowed: Option<set<string>>)
    requires Field(input, key) == StrArray(l)
    requires IsCleanList(l, allowed)
    ensures ListField(input, key, allowed) == l
  {
    CleanListOfClean(l, allowed, []);
  }

  /** The JSON object a metadata block is written as. */
  function ToJs(m: AiMeta): (r: JsValue)
    ensures r.Obj?
  {
    Obj(map[
      "flavorProfile" := StrArray(m.flavorProfile),
      "mealContext" := StrArray(m.mealContext),
      "dietaryTags" := StrArray(m.dietaryTags),
      "keyIngredients" := StrArray(m.keyIngredients),
      "textureProfile" := StrArray(m.textureProfile),
      "servingTemperature" := Str(m.servingTemperature),
      "spiceLevel" := Num(m.spiceLevel as real),
      "allergenRiskTags" := StrArray(m.allergenRiskTags),
      "proteinType" := Str(m.proteinType),
      "courseType" := StrArray(m.courseType),
      "cookingMethodTags" := StrArray(m.cookingMethodTags),
      "comfortVsLight" := Str(m.comfortVsLight),
      "adventureLevel" := Num(m.adventureLevel as real),
      "aiConfidence" := Num(m.aiConfidence)])
  }

  lemma ToJsListFields(m: AiMeta)
    ensures Field(ToJs(m), "flavorProfile") == StrArray(m.flavorProfile)
    ensures Field(ToJs(m), "mealContext") == StrArray(m.mealContext)
    ensures Field(ToJs(m), "dietaryTags") == StrArray(m.dietaryTags)
    ensures Field(ToJs(m), "keyIngredients") == StrArray(m.keyIngredients)
    ensures Field(ToJs(m), "textureProfile") == StrArray(m.textureProfile)
    ensures Field(ToJs(m), "allergenRiskTags") == StrArray(m.allergenRiskTags)
    ensures Field(ToJs(m), "courseType") == StrArray(m.courseType)
    ensures Field(ToJs(m), "cookingMethodTags") == StrArray(m.cookingMethodTags)
  {
  }

  lemma ToJsScalarFields(m: AiMeta)
    ensures Field(ToJs(m), "servingTemperature") == Str(m.servingTemperature)
    ensures Field(ToJs(m), "spiceLevel") == Num(m.spiceLevel as real)
    ensures Field(ToJs(m), "proteinType") == Str(m.proteinType)
    ensures Field(ToJs(m), "comfortVsLight") == Str(m.comfortVsLight)
    ensures Field(ToJs(m), "adventureLevel") == Num(m.adventureLevel as real)
    ensures Field(ToJs(m), "aiConfidence") == Num(m.aiConfidence)
  {
  }

  /** A well-formed block survives a write and a re-sanitise unchanged. */
  lemma {:induction false} SanitizeOfWellFormed(m: AiMeta)
    requires WellFormed(m)
    ensures SanitizeAiMeta(ToJs(m)) == m
  {
    ListsOfWellFormed(m);
    ScalarsOfWellFormed(m);
  }

  lemma {:induction false} ScalarsOfWellFormed(m: AiMeta)
    ensures WellFormed(m) ==>
      PickEnum(Field(ToJs(m), "servingTemperature"), ServingAllowed, "mixed") == m.servingTemperature
      && ClampInt(Field(ToJs(m), "spiceLevel"), 0, 5, 0) == m.spiceLevel
      && PickEnum(Field(ToJs(m), "proteinType"), ProteinAllowed, "unknown") == m.proteinType
      && PickEnum(Field(ToJs(m), "comfortVsLight"), ComfortAllowed, "unknown") == m.comfortVsLight
      && ClampInt(Field(ToJs(m), "adventureLevel"), 1, 5, 3) == m.adventureLevel
      && ClampFloat(Field(ToJs(m), "aiConfidence"), 0.0, 1.0, 0.0) == m.aiConfidence
  {
    ToJsScalarFields(m);
    assert Round(m.spiceLevel as real) == m.spiceLevel;
    assert Round(m.adventureLevel as real) == m.adventureLevel;
  }

  lemma {:induction false} ListsOfWellFormed(m: AiMeta)
    ensures WellFormed(m) ==>
      ListField(ToJs(m), "flavorProfile", Some(FlavorAllowed)) == m.flavorProfile
      && ListField(ToJs(m), "mealContext", Some(MealContextAllowed)) == m.mealContext
      && ListField(ToJs(m), "dietaryTags", Some(DietaryAllowed)) == m.dietaryTags
      && ListField(ToJs(m), "keyIngredients", None) == m.keyIngredients
      && ListField(ToJs(m), "textureProfile", Some(TextureAllowed)) == m.textureProfile
      && ListField(ToJs(m), "allergenRiskTags", Some(AllergenAllowed)) == m.allergenRiskTags
      && ListField(ToJs(m), "courseType", Some(CourseAllowed)) == m.courseType
      && ListField(ToJs(m), "cookingMethodTags", Some(MethodAllowed)) == m.cookingMethodTags
  {
    if !WellFormed(m) {
      return;
    }
    var js := ToJs(m);
    ToJsListFields(m);
    ListFieldOfClean(js, "flavorProfile", m.flavorProfile, Some(FlavorAllowed));
    ListFieldOfClean(js, "mealContext", m.mealContext, Some(MealContextAllowed));
    ListFieldOfClean(js, "dietaryTags", m.dietaryTags, Some(DietaryAllowed));
    ListFieldOfClean(js, "keyIngredients", m.keyIngredients, None);
    ListFieldOfClean(js, "textureProfile", m.textureProfile, Some(TextureAllowed));
    ListFieldOfClean(js, "allergenRiskTags", m.allergenRiskTags, Some(AllergenAllowed));
    ListFieldOfClean(js, "courseType", m.courseType, Some(CourseAllowed));
    ListFieldOfClean(js, "cookingMethodTags", m.cookingMethodTags, Some(MethodAllowed));
  }

  /** Sanitising is idempotent. */
  lemma SanitizeIdempotent(input: JsValue)
    ensures SanitizeAiMeta(ToJs(SanitizeAiMeta(input))) == SanitizeAiMeta(input)
  {
    SanitizeOfWellFormed(SanitizeAiMeta(input));
  }

  // ---------------------------------------------------------------------
  // Calibration

  /** The tokens of a lower-cased name longer than two characters. */
  function LongTokens(tokens: seq<string>): (r: seq<string>)
    ensures |r| <= |tokens|
    ensures forall i :: 0 <= i < |r| ==> |r[i]| > 2
  {
    if tokens == [] then []
    else if |tokens[0]| > 2 then [tokens[0]] + LongTokens(tokens[1..])
    else LongTokens(tokens[1..])
  }

  function NameTokenCount(name: string): nat {
    |LongTokens(SplitRuns(ToLower(name), NotLowerAlnum))|
  }

  /** The evidence `calibrateAiMeta` adds up before capping it: bounded
      contributions from the dish's cuisines, ingredients and categories,
      a name with two or more long tokens, and non-empty AI ingredient and
      flavour lists. */
  function RawEvidence(ai: AiMeta, dish: Dish): (e: real)
    ensures 0.0 <= e
  {
    MinReal(0.25, |dish.cuisines| as real * 0.08)
    + MinReal(0.35, |dish.ingredients| as real * 0.06)
    + MinReal(0.2, |dish.categories| as real * 0.07)
    + (if NameTokenCount(dish.name) >= 2 then 0.08 else 0.0)
    + (if |ai.keyIngredients| > 0 then 0.06 else 0.0)
    + (if |ai.flavorProfile| > 0 then 0.06 else 0.0)
  }

  /** The evidence score, capped at 1. */
  function Evidence(ai: AiMeta, dish: Dish): (e: real)
    ensures 0.0 <= e <= 1.0
  {
    MinReal(1.0, RawEvidence(ai, dish))
  }

  /** The block `calibrateAiMeta` returns. */
  function Calibrated(ai: AiMeta, dish: Dish): (r: AiMeta)
    ensures r.aiConfidence <= ai.aiConfidence
    ensures r.aiConfidence <= 0.15 + 0.8 * Evidence(ai, dish)
    ensures WellFormed(ai) ==> WellFormed(r)
  {
    var evidence := Evidence(ai, dish);
    var weak := evidence < 0.25;
    var r := ai.(
      aiConfidence := MinReal(ai.aiConfidence, 0.15 + evidence * 0.8),
      dietaryTags := if weak then [] else ai.dietaryTags,
      allergenRiskTags := if weak then [] else ai.allergenRiskTags,
      proteinType := if weak then "unknown" else ai.proteinType,
      keyIngredients := if |dish.ingredients| == 0 && |ai.keyIngredients| > 4 then ai.keyIngredients[..4] else ai.keyIngredients);
    assert WellFormed(ai) ==> IsCleanList(r.keyIngredients, None) by {
      if WellFormed(ai) {
        assert forall i :: 0 <= i < |r.keyIngredients| ==> r.keyIngredients[i] == ai.keyIngredients[i];
      }
    }
    r
  }

  /** `calibrateAiMeta`, accumulating the evidence and adjusting the copy
      step by step. */
  method CalibrateAiMeta(ai: AiMeta, dish: Dish) returns (calibrated: AiMeta)
    ensures calibrated == Calibrated(ai, dish)
  {
    var evidence := 0.0;
    evidence := evidence + MinReal(0.25, |dish.cuisines| as real * 0.08);
    evidence := evidence + MinReal(0.35, |dish.ingredients| as real * 0.06);
    evidence := evidence + MinReal(0.2, |dish.categories| as real * 0.07);
    var tokenCount := NameTokenCount(dish.name);
    if tokenCount >= 2 {
      evidence := evidence + 0.08;
    }
    if |ai.keyIngredients| > 0 {
      evidence := evidence + 0.06;
    }
    if |ai.flavorProfile| > 0 {
      evidence := evidence + 0.06;
    }
    assert evidence == RawEvidence(ai, dish);
    evidence := MinReal(1.0, evidence);
    var maxConfidence := 0.15 + evidence * 0.8;
    calibrated := ai.(aiConfidence := MinReal(ai.aiConfidence, maxConfidence));
    if evidence < 0.25 {
      calibrated := calibrated.(dietaryTags := [], allergenRiskTags := [], proteinType := "unknown");
    }
    if |dish.ingredients| == 0 && |calibrated.keyIngredients| > 4 {
      calibrated := calibrated.(keyIngredients := calibrated.keyIngredients[..4]);
    }
  }

  /** What calibration changes and what it leaves alone. */
  lemma CalibratedFacts(ai: AiMeta, dish: Dish)
    ensures var r := Calibrated(ai, dish);
      && r.aiConfidence == MinReal(ai.aiConfidence, 0.15 + 0.8 * Evidence(ai, dish))
      && (Evidence(ai, dish) < 0.25 ==> r.dietaryTags == [] && r.allergenRiskTags == [] && r.proteinType == "unknown")
      && (Evidence(ai, dish) >= 0.25 ==> r.dietaryTags == ai.dietaryTags && r.allergenRiskTags == ai.allergenRiskTags && r.proteinType == ai.proteinType)
      && (|dish.ingredients| == 0 ==> |r.keyIngredients| <= 4)
      && r.keyIngredients <= ai.keyIngredients
      && (|dish.ingredients| > 0 ==> r.keyIngredients == ai.keyIngredients)
      && r.flavorProfile == ai.flavorProfile && r.mealContext == ai.mealContext
      && r.textureProfile == ai.textureProfile && r.servingTemperature == ai.servingTemperature
      && r.spiceLevel == ai.spiceLevel && r.courseType == ai.courseType
      && r.cookingMethodTags == ai.cookingMethodTags && r.comfortVsLight == ai.comfortVsLight
      && r.adventureLevel == ai.adventureLevel
  {
  }
}
