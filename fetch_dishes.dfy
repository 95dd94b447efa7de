/** The prefetch script: turning the rows of the Wikidata query into dish
    records (comma-separated lists, case-insensitive de-duplication,
    keyword categories) and merging the pages by dish id. The query text,
    the HTTP requests and their retries are not modelled: the pages of rows
    come in as a parameter. */
module FetchDishes {
  import opened Wrappers
  import opened Text
  import opened Collections
  import opened DishTypes
  import opened WikiIds

  const PageSize: nat := 2000

  /** One row of the query's result; the three lists are optional. */
  datatype Binding = Binding(
    dish: string,
    dishLabel: string,
    image: string,
    cuisines: Option<string>,
    ingredients: Option<string>,
    characteristics: Option<string>)

  // ---------------------------------------------------------------------
  // splitCsv

  predicate IsNonEmpty(s: string) { s != "" }

  function TrimAll(parts: seq<string>): (r: seq<string>)
    ensures |r| == |parts|
    ensures forall i :: 0 <= i < |parts| ==> r[i] == Trim(parts[i])
  {
    seq(|parts|, i requires 0 <= i < |parts| => Trim(parts[i]))
  }

  /** `splitCsv`: nothing for a missing or empty list, otherwise its
      comma-separated parts, trimmed, without the empty ones. */
  function SplitCsv(str: Option<string>): seq<string> {
    if str.None? || str.value == "" then []
    else Filter(TrimAll(Split(str.value, ',')), IsNonEmpty)
  }

  /** The parts are non-empty, trimmed and comma-free; a missing or empty
      list has none. */
  lemma SplitCsvFacts(str: Option<string>)
    ensures str.None? || str == Some("") ==> SplitCsv(str) == []
    ensures forall p :: p in SplitCsv(str) ==> p != "" && NoEdgeWhitespace(p) && ',' !in p
  {
    if str.Some? && str.value != "" {
      var parts := Split(str.value, ',');
      FilterMembers(TrimAll(parts), IsNonEmpty);
      forall p | p in SplitCsv(str)
        ensures ',' !in p
      {
        var k :| 0 <= k < |parts| && TrimAll(parts)[k] == p;
        TrimKeepsChars(parts[k], ',');
      }
    }
  }

  /** Joining non-empty, trimmed, comma-free parts with commas and
      splitting the result gives them back. */
  lemma SplitCsvJoin(parts: seq<string>)
    requires |parts| > 0
    requires forall i :: 0 <= i < |parts| ==> parts[i] != "" && NoEdgeWhitespace(parts[i]) && ',' !in parts[i]
    ensures SplitCsv(Some(Join(parts, ","))) == parts
  {
    SplitJoin(parts, ',');
    forall i | 0 <= i < |parts|
      ensures Trim(parts[i]) == parts[i]
    {
      TrimOfTrimmed(parts[i]);
    }
    assert TrimAll(parts) == parts;
    FilterAll(parts, IsNonEmpty);
  }

  // ---------------------------------------------------------------------
  // uniqueLower

  /** The lower-cased forms of some values. */
  function LowerKeys(values: seq<string>): set<string> {
    set v | v in values :: ToLower(v)
  }

  /** No two values are equal ignoring case. */
  predicate DistinctLower(values: seq<string>) {
    forall i, j :: 0 <= i < j < |values| ==> ToLower(values[i]) != ToLower(values[j])
  }

  /** `uniqueLower`: the values, in order and with their casing, whose
      lower-cased form has not been seen before. */
  function UniqueLowerSpec(values: seq<string>): seq<string> {
    if values == [] then []
    else
      var front := UniqueLowerSpec(values[..|values| - 1]);
      var last := values[|values| - 1];
      if ToLower(last) in LowerKeys(front) then front else front + [last]
  }

  lemma LowerKeysSnoc(values: seq<string>, v: string)
    ensures LowerKeys(values + [v]) == LowerKeys(values) + {ToLower(v)}
  {
    assert forall x :: x in values + [v] <==> x in values || x == v;
  }

  /** `uniqueLower`: a set of the lower-cased values seen so far. */
  method UniqueLower(values: seq<string>) returns (result: seq<string>)
    ensures result == UniqueLowerSpec(values)
  {
    var seen: set<string> := {};
    result := [];
    for i := 0 to |values|
      invariant result == UniqueLowerSpec(values[..i])
      invariant seen == LowerKeys(result)
    {
      assert values[..i + 1][..i] == values[..i];
      var key := ToLower(values[i]);
      if key in seen {
        continue;
      }
      seen := seen + {key};
      LowerKeysSnoc(result, values[i]);
      result := result + [values[i]];
    }
    assert values[..|values|] == values;
  }

  /** The result keeps input values in input order, no two of them equal
      ignoring case, and loses no value's lower-cased form. */
  lemma {:induction false} UniqueLowerFacts(values: seq<string>)
    ensures var r := UniqueLowerSpec(values);
      IsSubsequence(r, values) && DistinctLower(r) && LowerKeys(r) == LowerKeys(values)
  {
    if values == [] {
      EmptySubsequence(values);
    } else {
      var front := values[..|values| - 1];
      var last := values[|values| - 1];
      var r0 := UniqueLowerSpec(front);
      UniqueLowerFacts(front);
      assert values == front + [last];
      LowerKeysSnoc(front, last);
      var keep := ToLower(last) !in LowerKeys(r0);
      SubsequenceSnoc(r0, front, last, keep);
      if keep {
        LowerKeysSnoc(r0, last);
        DistinctLowerSnoc(r0, last);
      }
    }
  }

  lemma DistinctLowerSnoc(values: seq<string>, v: string)
    requires DistinctLower(values) && ToLower(v) !in LowerKeys(values)
    ensures DistinctLower(values + [v])
  {
    forall i | 0 <= i < |values|
      ensures ToLower(values[i]) != ToLower(v)
    {
      assert values[i] in values;
    }
  }

  /** Values already distinct ignoring case are kept as they are. */
  lemma {:induction false} UniqueLowerOfDistinct(values: seq<string>)
    requires DistinctLower(values)
    ensures UniqueLowerSpec(values) == values
  {
    if values != [] {
      var front := values[..|values| - 1];
      var last := values[|values| - 1];
      UniqueLowerOfDistinct(front);
      assert ToLower(last) !in LowerKeys(front) by {
        forall v | v in front
          ensures ToLower(v) != ToLower(last)
        {
          var k :| 0 <= k < |front| && front[k] == v;
          assert values[k] == v;
        }
      }
    }
  }

  /** Applying `uniqueLower` twice is applying it once. */
  lemma UniqueLowerIdempotent(values: seq<string>)
    ensures UniqueLowerSpec(UniqueLowerSpec(values)) == UniqueLowerSpec(values)
  {
    UniqueLowerFacts(values);
    UniqueLowerOfDistinct(UniqueLowerSpec(values));
  }

  /** The first value with a given lower-cased form is the one kept. */
  lemma {:induction false} UniqueLowerKeepsFirst(values: seq<string>, k: nat)
    requires k < |values|
    requires forall m :: 0 <= m < k ==> ToLower(values[m]) != ToLower(values[k])
    ensures values[k] in UniqueLowerSpec(values)
  {
    var front := values[..|values| - 1];
    if k == |values| - 1 {
      UniqueLowerFacts(front);
      assert ToLower(values[k]) !in LowerKeys(front) by {
        forall v | v in front
          ensures ToLower(v) != ToLower(values[k])
        {
          var m :| 0 <= m < |front| && front[m] == v;
          assert values[m] == v;
        }
      }
    } else {
      UniqueLowerKeepsFirst(front, k);
      assert values[k] == front[k];
    }
  }

  // ---------------------------------------------------------------------
  // inferKeywordCategories

  /** The categories of `KEYWORD_CATEGORIES`, in table order. */
  const CategoryNames: seq<string> :=
    ["sweet", "savory", "spicy", "vegetarian", "vegan", "meat", "seafood", "noodle", "rice", "bread", "breakfast", "snack"]

  /** Each category's patterns, as the words `\b<word>\b` matches
      (`grill(?:ed)?` is the two words `grill` and `grilled`). */
  function CategoryWords(category: string): seq<string> {
    match category
    case "sweet" => ["cake", "cookie", "chocolate", "dessert", "ice cream", "sweet"]
    case "savory" => ["soup", "stew", "curry", "roast", "grill", "grilled", "savory"]
    case "spicy" => ["spicy", "chili", "pepper", "masala"]
    case "vegetarian" => ["vegetarian", "veggie", "tofu", "lentil", "chickpea"]
    case "vegan" => ["vegan"]
    case "meat" => ["beef", "pork", "chicken", "lamb", "bacon", "sausage"]
    case "seafood" => ["fish", "salmon", "tuna", "shrimp", "prawn", "crab"]
    case "noodle" => ["noodle", "ramen", "udon", "spaghetti", "pasta"]
    case "rice" => ["rice", "risotto", "biryani", "paella"]
    case "bread" => ["bread", "sandwich", "toast", "pizza", "burger"]
    case "breakfast" => ["breakfast", "omelette", "pancake", "waffle"]
    case "snack" => ["snack", "fry", "fries", "nugget", "chip"]
    case _ => []
  }

  /** `/\b<word>\b/` matches `text` at `k`: the word occurs there with no
      word character just before or just after it. */
  predicate WordAt(text: string, word: string, k: int) {
    OccursAt(text, word, k)
    && (k == 0 || !IsWordChar(text[k - 1]))
    && (k + |word| == |text| || !IsWordChar(text[k + |word|]))
  }

  predicate MatchesWord(text: string, word: string) {
    exists k :: 0 <= k <= |text| - |word| && WordAt(text, word, k)
  }

  /** `patterns.some((regex) => regex.test(haystack))`. */
  predicate MatchesCategory(haystack: string, category: string) {
    exists i :: 0 <= i < |CategoryWords(category)| && MatchesWord(haystack, CategoryWords(category)[i])
  }

  function Matcher(haystack: string): string -> bool {
    c => MatchesCategory(haystack, c)
  }

  /** The lower-cased text the patterns are tested on. */
  function Haystack(name: string, cuisines: seq<string>, ingredients: seq<string>): string {
    ToLower(name + " " + Join(cuisines, " ") + " " + Join(ingredients, " "))
  }

  function InferredCategories(name: string, cuisines: seq<string>, ingredients: seq<string>): seq<string> {
    Filter(CategoryNames, Matcher(Haystack(name, cuisines, ingredients)))
  }

  /** `inferKeywordCategories`. */
  method InferKeywordCategories(name: string, cuisines: seq<string>, ingredients: seq<string>)
    returns (categories: seq<string>)
    ensures categories == InferredCategories(name, cuisines, ingredients)
  {
    var haystack := Haystack(name, cuisines, ingredients);
    categories := [];
    for i := 0 to |CategoryNames|
      invariant categories == Filter(CategoryNames[..i], Matcher(haystack))
    {
      FilterStep(CategoryNames, i, Matcher(haystack));
      var category := CategoryNames[i];
      var patterns := CategoryWords(category);
      var matched := exists j :: 0 <= j < |patterns| && MatchesWord(haystack, patterns[j]);
      if matched {
        categories := categories + [category];
      }
    }
    assert CategoryNames[..|CategoryNames|] == CategoryNames;
  }

  /** The inferred categories are exactly the table's categories with a
      matching pattern, in table order, each once. */
  lemma InferredFacts(name: string, cuisines: seq<string>, ingredients: seq<string>)
    ensures var r := InferredCategories(name, cuisines, ingredients);
      (forall c :: c in r <==> c in CategoryNames && MatchesCategory(Haystack(name, cuisines, ingredients), c))
      && IsSubsequence(r, CategoryNames) && Distinct(r)
  {
    var p := Matcher(Haystack(name, cuisines, ingredients));
    FilterMembers(CategoryNames, p);
    FilterSubsequence(CategoryNames, p);
    FilterDistinct(CategoryNames, p);
  }

  // ---------------------------------------------------------------------
  // normalizeDish

  /** `normalizeDish`. */
  function NormalizeDish(b: Binding): Dish {
    var cuisines := UniqueLowerSpec(SplitCsv(b.cuisines));
    var ingredients := UniqueLowerSpec(SplitCsv(b.ingredients));
    var characteristics := UniqueLowerSpec(SplitCsv(b.characteristics));
    var inferred := InferredCategories(b.dishLabel, cuisines, ingredients);
    Dish(b.dish, b.dishLabel, b.image, cuisines, ingredients, UniqueLowerSpec(characteristics + inferred), None)
  }

  /** The dish keeps the row's id, label and image; its lists are the
      row's lists split and de-duplicated ignoring case, and its categories
      cover, ignoring case, the characteristics and the inferred ones. */
  lemma NormalizeDishFacts(b: Binding)
    ensures var d := NormalizeDish(b);
      d.id == b.dish && d.name == b.dishLabel && d.image == b.image && d.ai.None?
      && DistinctLower(d.cuisines) && LowerKeys(d.cuisines) == LowerKeys(SplitCsv(b.cuisines))
      && DistinctLower(d.ingredients) && LowerKeys(d.ingredients) == LowerKeys(SplitCsv(b.ingredients))
      && DistinctLower(d.categories)
      && LowerKeys(d.categories)
         == LowerKeys(SplitCsv(b.characteristics)) + LowerKeys(InferredCategories(b.dishLabel, d.cuisines, d.ingredients))
  {
    var d := NormalizeDish(b);
    UniqueLowerFacts(SplitCsv(b.cuisines));
    UniqueLowerFacts(SplitCsv(b.ingredients));
    var characteristics := UniqueLowerSpec(SplitCsv(b.characteristics));
    var inferred := InferredCategories(b.dishLabel, d.cuisines, d.ingredients);
    UniqueLowerFacts(SplitCsv(b.characteristics));
    UniqueLowerFacts(characteristics + inferred);
    assert forall x :: x in characteristics + inferred <==> x in characteristics || x in inferred;
  }

  // ---------------------------------------------------------------------
  // The merge inside fetchAllDishes

  /** The `deduped` map: ids in insertion order and the dish of each. */
  datatype Deduped = Deduped(order: seq<string>, byId: map<string, Dish>)

  const NoDishes := Deduped([], map[])

  /** What the merge keeps: rows with an image whose name is not a
      placeholder. */
  predicate Accepted(d: Dish) {
    d.image != "" && !IsPlaceholderName(d.id, d.name)
  }

  /** `deduped.set(dish.id, dish)` for an accepted dish; a known id keeps
      its place and takes the new dish. */
  function Insert(m: Deduped, dish: Dish): Deduped {
    if !Accepted(dish) then m
    else if dish.id in m.byId then m.(byId := m.byId[dish.id := dish])
    else Deduped(m.order + [dish.id], m.byId[dish.id := dish])
  }

  /** The dishes of a page's rows. */
  function NormalizeAll(bindings: seq<Binding>): (r: seq<Dish>)
    ensures |r| == |bindings|
    ensures forall i :: 0 <= i < |bindings| ==> r[i] == NormalizeDish(bindings[i])
  {
    seq(|bindings|, i requires 0 <= i < |bindings| => NormalizeDish(bindings[i]))
  }

  function MergeAll(m: Deduped, dishes: seq<Dish>): Deduped {
    if dishes == [] then m else Insert(MergeAll(m, dishes[..|dishes| - 1]), dishes[|dishes| - 1])
  }

  /** The per-page loop of `fetchAllDishes`. */
  method MergePage(m: Deduped, bindings: seq<Binding>) returns (merged: Deduped)
    ensures merged == MergeAll(m, NormalizeAll(bindings))
  {
    merged := m;
    for i := 0 to |bindings|
      invariant merged == MergeAll(m, NormalizeAll(bindings[..i]))
    {
      MergeAllStep(m, bindings, i);
      var dish := NormalizeDish(bindings[i]);
      // rows without an image or named only by an item id are skipped
      if Accepted(dish) {
        // `deduped.set`: a known id keeps its place in the order
        if dish.id in merged.byId {
          merged := merged.(byId := merged.byId[dish.id := dish]);
        } else {
          merged := Deduped(merged.order + [dish.id], merged.byId[dish.id := dish]);
        }
      }
    }
    assert bindings[..|bindings|] == bindings;
  }

  lemma MergeAllStep(m: Deduped, bindings: seq<Binding>, i: nat)
    requires i < |bindings|
    ensures MergeAll(m, NormalizeAll(bindings[..i + 1]))
      == Insert(MergeAll(m, NormalizeAll(bindings[..i])), NormalizeDish(bindings[i]))
  {
    assert NormalizeAll(bindings[..i + 1])[..i] == NormalizeAll(bindings[..i]);
  }

  /** The map is well kept: each id listed once, the listed ids are the
      keys, each dish sits under its own id and was accepted. */
  ghost predicate ValidDeduped(m: Deduped) {
    Distinct(m.order)
    && (forall id :: id in m.order <==> id in m.byId)
    && (forall id :: id in m.byId ==> m.byId[id].id == id && Accepted(m.byId[id]))
  }

  lemma InsertKeeps(m: Deduped, dish: Dish)
    requires ValidDeduped(m)
    ensures ValidDeduped(Insert(m, dish))
  {
    if Accepted(dish) && dish.id !in m.byId {
      assert dish.id !in m.order;
    }
  }

  /** Inserting a dish under another id, or one that is not accepted,
      leaves the dish under `id` alone. */
  lemma InsertOther(m: Deduped, dish: Dish, id: string)
    requires id in m.byId
    requires !Accepted(dish) || dish.id != id
    ensures id in Insert(m, dish).byId && Insert(m, dish).byId[id] == m.byId[id]
  {
  }

  lemma {:induction false} MergeAllKeeps(m: Deduped, dishes: seq<Dish>)
    requires ValidDeduped(m)
    ensures ValidDeduped(MergeAll(m, dishes))
  {
    if dishes != [] {
      MergeAllKeeps(m, dishes[..|dishes| - 1]);
      InsertKeeps(MergeAll(m, dishes[..|dishes| - 1]), dishes[|dishes| - 1]);
    }
  }

  /** A later row with the same id replaces an earlier one: the dish kept
      for an id is the last accepted row's. */
  lemma {:induction false} LastRowWins(m: Deduped, dishes: seq<Dish>, i: nat)
    requires i < |dishes| && Accepted(dishes[i])
    requires forall j :: i < j < |dishes| && Accepted(dishes[j]) ==> dishes[j].id != dishes[i].id
    ensures dishes[i].id in MergeAll(m, dishes).byId && MergeAll(m, dishes).byId[dishes[i].id] == dishes[i]
  {
    var n := |dishes|;
    var front := dishes[..n - 1];
    if i < n - 1 {
      assert front[i] == dishes[i];
      LastRowWins(m, front, i);
      InsertOther(MergeAll(m, front), dishes[n - 1], dishes[i].id);
    }
  }

  /** The dishes of the map, in insertion order (`[...deduped.values()]`). */
  function Values(m: Deduped): seq<Dish>
    requires forall id :: id in m.order ==> id in m.byId
  {
    seq(|m.order|, i requires 0 <= i < |m.order| => m.byId[m.order[i]])
  }

  /** The pages read: up to the first empty page, and no further than the
      first page shorter than `PageSize`. */
  function FetchAllSpec(m: Deduped, pages: seq<seq<Binding>>): Deduped
    decreases |pages|
  {
    if pages == [] || pages[0] == [] then m
    else
      var merged := MergeAll(m, NormalizeAll(pages[0]));
      if |pages[0]| < PageSize then merged else FetchAllSpec(merged, pages[1..])
  }

  /** `fetchAllDishes`, with `pages[k]` the rows at offset `k * PageSize`
      and running out of pages read as an empty page. */
  method FetchAllDishes(pages: seq<seq<Binding>>) returns (dishes: seq<Dish>)
    ensures ValidDeduped(FetchAllSpec(NoDishes, pages))
    ensures dishes == Values(FetchAllSpec(NoDishes, pages))
  {
    var deduped := NoDishes;
    var page := 0;
    while page < |pages|
      invariant page <= |pages|
      invariant ValidDeduped(deduped)
      invariant FetchAllSpec(NoDishes, pages) == FetchAllSpec(deduped, pages[page..])
      decreases |pages| - page
    {
      var bindings := pages[page];
      if |bindings| == 0 {
        break;
      }
      MergeAllKeeps(deduped, NormalizeAll(bindings));
      deduped := MergePage(deduped, bindings);
      if |bindings| < PageSize {
        break;
      }
      assert pages[page..][1..] == pages[page + 1..];
      page := page + 1;
    }
    dishes := Values(deduped);
  }

  /** Every dish fetched has an image and a real name, and no id is
      fetched twice. */
  lemma FetchedFacts(pages: seq<seq<Binding>>)
    ensures var m := FetchAllSpec(NoDishes, pages);
      ValidDeduped(m)
      && (forall i :: 0 <= i < |Values(m)| ==> Accepted(Values(m)[i]) && Values(m)[i].id == m.order[i])
      && (forall i, j :: 0 <= i < j < |Values(m)| ==> Values(m)[i].id != Values(m)[j].id)
  {
    FetchAllKeeps(NoDishes, pages);
  }

  lemma {:induction false} FetchAllKeeps(m: Deduped, pages: seq<seq<Binding>>)
    requires ValidDeduped(m)
    ensures ValidDeduped(FetchAllSpec(m, pages))
    decreases |pages|
  {
    if pages != [] && pages[0] != [] {
      MergeAllKeeps(m, NormalizeAll(pages[0]));
      if |pages[0]| >= PageSize {
        FetchAllKeeps(MergeAll(m, NormalizeAll(pages[0])), pages[1..]);
      }
    }
  }
}
