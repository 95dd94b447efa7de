/** The clean-up script: drop invalid and placeholder dishes from the two
    dish files, then drop cache entries and saved progress that refer to a
    dish no longer present. Reading and writing the files and the log lines
    are not modelled; each file's parsed content is a parameter and each
    file's new content a result. */
module CleanData {
  import opened Wrappers
  import opened Text
  import opened Collections
  import opened JsValues
  import opened WikiIds

  // ---------------------------------------------------------------------
  // Dish records

  function Id(dish: JsValue): JsValue { Field(dish, "id") }
  function Name(dish: JsValue): JsValue { Field(dish, "name") }
  function Image(dish: JsValue): JsValue { Field(dish, "image") }

  /** `isValidDish`: id, name and image are all truthy. */
  predicate IsValidDish(dish: JsValue) {
    Truthy(Id(dish)) && Truthy(Name(dish)) && Truthy(Image(dish))
  }

  /** `isPlaceholderWikiName`: never for a dish lacking an id or a name;
      otherwise the item-id rule of the other scripts. */
  predicate IsPlaceholderWikiName(dish: JsValue) {
    Truthy(Id(dish)) && Truthy(Name(dish))
    && Id(dish).Str? && Name(dish).Str?
    && IsPlaceholderName(Id(dish).s, Name(dish).s)
  }

  /** For string fields the rule is the shared one except that an empty id
      or name never makes a placeholder; an empty name is never one
      anyway. */
  lemma PlaceholderWikiNameFacts(id: string, name: string, rest: map<string, JsValue>)
    ensures var dish := Obj(rest["id" := Str(id)]["name" := Str(name)]);
      IsPlaceholderWikiName(dish) <==> id != "" && IsPlaceholderName(id, name)
    ensures !IsPlaceholderName(id, "")
  {
    var dish := Obj(rest["id" := Str(id)]["name" := Str(name)]);
    assert Id(dish) == Str(id) && Name(dish) == Str(name);
    assert Trim("") == "";
  }

  predicate KeepDish(dish: JsValue) {
    IsValidDish(dish) && !IsPlaceholderWikiName(dish)
  }

  /** The ids of some dishes. */
  function IdsOf(dishes: seq<JsValue>): set<JsValue> {
    set d | d in dishes :: Id(d)
  }

  /** `cleanDishFile` on the file's content: the kept dishes and the set of
      their ids. */
  function CleanDishFile(dishes: seq<JsValue>): (seq<JsValue>, set<JsValue>) {
    var cleaned := Filter(dishes, KeepDish);
    (cleaned, IdsOf(cleaned))
  }

  /** The file keeps, in order, exactly its valid non-placeholder dishes;
      the ids returned are theirs, and each is truthy. */
  lemma CleanDishFileFacts(dishes: seq<JsValue>)
    ensures var (cleaned, ids) := CleanDishFile(dishes);
      (forall d :: d in cleaned <==> d in dishes && IsValidDish(d) && !IsPlaceholderWikiName(d))
      && IsSubsequence(cleaned, dishes)
      && (forall id :: id in ids <==> exists d :: d in cleaned && Id(d) == id)
      && (forall id :: id in ids ==> Truthy(id))
  {
    FilterMembers(dishes, KeepDish);
    FilterSubsequence(dishes, KeepDish);
  }

  /** Cleaning a cleaned file changes nothing. */
  lemma CleanDishFileIdempotent(dishes: seq<JsValue>)
    ensures CleanDishFile(CleanDishFile(dishes).0) == CleanDishFile(dishes)
  {
    var cleaned := Filter(dishes, KeepDish);
    FilterMembers(dishes, KeepDish);
    forall i | 0 <= i < |cleaned|
      ensures KeepDish(cleaned[i])
    {
      assert cleaned[i] in cleaned;
    }
    FilterAll(cleaned, KeepDish);
  }

  /** `validIds` in `main`: the enriched file's ids when it has any, else
      the raw file's. A missing enriched file has none. */
  function ValidIds(rawIds: set<JsValue>, enrichedIds: set<JsValue>): (r: set<JsValue>)
    ensures r == enrichedIds || r == rawIds
    ensures r == {} ==> enrichedIds == {} && rawIds == {}
    ensures enrichedIds != {} ==> r == enrichedIds
  {
    if |enrichedIds| > 0 then enrichedIds else rawIds
  }

  /** The `TypeError` JavaScript raises on reading a property of `null`. */
  function NullRead(key: string): string {
    "Cannot read properties of null (reading '" + key + "')"
  }

  // ---------------------------------------------------------------------
  // The cache

  /** The cache file: its prompt version and its entries in key order,
      `None` when `entries` is absent. A missing file reads as the empty
      object; a file holding `null` is represented by `None` in place of
      the whole state. */
  datatype CacheState = CacheState(promptVersion: JsValue, entries: Option<seq<(string, JsValue)>>)

  /** `entry.dishId ?? key`. */
  function EntryDishId(key: string, entry: JsValue): JsValue {
    Coalesce(Field(entry, "dishId"), Str(key))
  }

  /** An entry stays when its dish id is truthy and among the valid ids. */
  predicate KeepEntry(validIds: set<JsValue>, e: (string, JsValue)) {
    var dishId := EntryDishId(e.0, e.1);
    Truthy(dishId) && dishId in validIds
  }

  function Keeper(validIds: set<JsValue>): ((string, JsValue)) -> bool {
    e => KeepEntry(validIds, e)
  }

  function EntriesOf(cache: CacheState): seq<(string, JsValue)> {
    if cache.entries.Some? then cache.entries.value else []
  }

  /** Some entry is `null`, so reading its `dishId` throws. */
  predicate HasNullEntry(entries: seq<(string, JsValue)>) {
    exists i :: 0 <= i < |entries| && entries[i].1 == Null
  }

  /** The new cache: the old prompt version and the kept entries, or the
      error of reading `entries` of a `null` file or `dishId` of a `null`
      entry. */
  function CleanCacheSpec(cache: Option<CacheState>, validIds: set<JsValue>): Result<CacheState> {
    if cache.None? then Err(NullRead("entries"))
    else if HasNullEntry(EntriesOf(cache.value)) then Err(NullRead("dishId"))
    else Ok(CacheState(cache.value.promptVersion, Some(Filter(EntriesOf(cache.value), Keeper(validIds)))))
  }

  /** `cleanCache` on the file's content. */
  method CleanCache(cache: Option<CacheState>, validIds: set<JsValue>) returns (next: Result<CacheState>)
    ensures next == CleanCacheSpec(cache, validIds)
  {
    if cache.None? {
      return Err(NullRead("entries"));
    }
    var nextEntries: seq<(string, JsValue)> := [];
    if cache.value.entries.Some? {
      var entries := cache.value.entries.value;
      for i := 0 to |entries|
        invariant nextEntries == Filter(entries[..i], Keeper(validIds))
        invariant forall j :: 0 <= j < i ==> entries[j].1 != Null
      {
        assert entries[..i + 1][..i] == entries[..i];
        var (key, entry) := entries[i];
        if entry.Null? {
          return Err(NullRead("dishId"));
        }
        var dishId := Coalesce(Field(entry, "dishId"), Str(key));
        if !Truthy(dishId) || dishId !in validIds {
          continue;
        }
        nextEntries := nextEntries + [(key, entry)];
      }
      assert entries[..|entries|] == entries;
    }
    next := Ok(CacheState(cache.value.promptVersion, Some(nextEntries)));
  }

  /** A `null` file or a `null` entry is an error, and nothing else is. On
      success the prompt version is copied; an entry is kept, under its own
      key and unchanged, exactly when its dish id (`dishId`, or else its
      key) is a valid id; entries keep their order. */
  lemma CleanCacheFacts(cache: Option<CacheState>, validIds: set<JsValue>)
    ensures cache.None? ==> CleanCacheSpec(cache, validIds) == Err(NullRead("entries"))
    ensures cache.Some? ==>
      (CleanCacheSpec(cache, validIds).Ok? <==> forall i :: 0 <= i < |EntriesOf(cache.value)| ==> EntriesOf(cache.value)[i].1 != Null)
    ensures cache.Some? && CleanCacheSpec(cache, validIds).Err? ==> CleanCacheSpec(cache, validIds) == Err(NullRead("dishId"))
    ensures CleanCacheSpec(cache, validIds).Ok? ==>
      var next := CleanCacheSpec(cache, validIds).value;
      next.promptVersion == cache.value.promptVersion && next.entries.Some?
      && (forall key, entry :: (key, entry) in next.entries.value <==>
            (key, entry) in EntriesOf(cache.value) && Truthy(EntryDishId(key, entry)) && EntryDishId(key, entry) in validIds)
      && IsSubsequence(next.entries.value, EntriesOf(cache.value))
  {
    if cache.Some? {
      FilterMembers(EntriesOf(cache.value), Keeper(validIds));
      FilterSubsequence(EntriesOf(cache.value), Keeper(validIds));
    }
  }

  // ---------------------------------------------------------------------
  // The saved progress

  /** A saved record stays when it is an object, a valid dish whose id is
      valid, and not a placeholder. */
  predicate KeepRecord(validIds: set<JsValue>, v: JsValue) {
    Truthy(v) && IsObject(v) && IsValidDish(v) && Id(v) in validIds && !IsPlaceholderWikiName(v)
  }

  function RecordKeeper(validIds: set<JsValue>): JsValue -> bool {
    v => KeepRecord(validIds, v)
  }

  /** `progress.enriched`, or nothing when it is not an array. */
  function SavedRecords(progress: JsValue): seq<JsValue> {
    var enriched := Field(progress, "enriched");
    if enriched.Arr? then enriched.items else []
  }

  /** The new progress file: the old properties (`...progress`) with
      `enriched` replaced by the kept records, `total` by their number and
      `index` by the old index (0 when absent) capped at that number. A
      missing file stays missing (`Ok(None)`); a file holding `null` is the
      error of reading its `enriched`. */
  function CleanProgress(progress: Option<JsValue>, validIds: set<JsValue>): Result<Option<JsValue>> {
    if progress.None? then Ok(None)
    else if progress.value.Null? then Err(NullRead("enriched"))
    else
      var p := progress.value;
      var cleaned := Filter(SavedRecords(p), RecordKeeper(validIds));
      var index := MinNumber(ToNumber(Coalesce(Field(p, "index"), Num(0.0))), |cleaned| as real);
      Ok(Some(Obj(Spread(p)["enriched" := Arr(cleaned)]["total" := Num(|cleaned| as real)]["index" := index])))
  }

  /** The kept records are exactly the saved ones that pass, in order;
      `total` is their number; a numeric `index` ends at most that number,
      and a missing one at 0; every other field is kept. */
  lemma CleanProgressFacts(progress: JsValue, validIds: set<JsValue>)
    ensures CleanProgress(Some(progress), validIds).Ok? <==> progress != Null
    ensures progress != Null ==>
      var next := CleanProgress(Some(progress), validIds).value.value;
      var cleaned := Field(next, "enriched");
      cleaned.Arr?
      && (forall v :: v in cleaned.items <==> v in SavedRecords(progress) && KeepRecord(validIds, v))
      && IsSubsequence(cleaned.items, SavedRecords(progress))
      && Field(next, "total") == Num(|cleaned.items| as real)
      && (Field(next, "index").Num? ==> Field(next, "index").n <= |cleaned.items| as real)
      && (Field(progress, "index").Num? ==> Field(next, "index").Num?)
      && (Field(progress, "index") == Undefined ==> Field(next, "index") == Num(0.0))
      && (forall k :: k in Spread(progress) && k != "enriched" && k != "total" && k != "index" ==>
            Field(next, k) == Spread(progress)[k])
  {
    var cleaned := Filter(SavedRecords(progress), RecordKeeper(validIds));
    FilterMembers(SavedRecords(progress), RecordKeeper(validIds));
    FilterSubsequence(SavedRecords(progress), RecordKeeper(validIds));
  }

  /** No progress file is written when there was none; a `null` file is
      an error; one whose `enriched` is not an array is saved as empty; an
      array or a string saved in place of the object is spread into its
      elements under their indices, with no record kept. */
  lemma CleanProgressEdges(progress: JsValue, validIds: set<JsValue>)
    ensures CleanProgress(None, validIds) == Ok(None)
    ensures CleanProgress(Some(Null), validIds) == Err(NullRead("enriched"))
    ensures progress != Null && !Field(progress, "enriched").Arr? ==>
      Field(CleanProgress(Some(progress), validIds).value.value, "enriched") == Arr([])
      && Field(CleanProgress(Some(progress), validIds).value.value, "total") == Num(0.0)
    ensures progress.Arr? ==> forall k: nat :: k < |progress.items| ==>
      Field(CleanProgress(Some(progress), validIds).value.value, IntToString(k)) == progress.items[k]
  {
    if progress.Arr? {
      forall k: nat | k < |progress.items|
        ensures Field(CleanProgress(Some(progress), validIds).value.value, IntToString(k)) == progress.items[k]
      {
        var key := IntToString(k);
        assert key in Spread(progress);
        assert key != "enriched" && key != "total" && key != "index" by {
          assert !IsDigit("enriched"[0]) && !IsDigit("total"[0]) && !IsDigit("index"[0]);
        }
      }
    }
  }

  // ---------------------------------------------------------------------
  // The whole run

  /** `main` after its files are read: the two dish files cleaned, then the
      cache and the progress against the chosen ids. A file that is not
      written is `None`; `failure` is the error `main` stops with, if any.
      The dish files are written before the cache is read. */
  datatype Cleaned = Cleaned(
    raw: seq<JsValue>,
    enriched: Option<seq<JsValue>>,
    cache: Option<CacheState>,
    progress: Option<JsValue>,
    failure: Option<string>)

  method CleanAll(raw: seq<JsValue>, enriched: Option<seq<JsValue>>, cache: Option<CacheState>, progress: Option<JsValue>)
    returns (out: Cleaned, validIds: set<JsValue>)
    ensures out.raw == CleanDishFile(raw).0
    ensures enriched.Some? <==> out.enriched.Some?
    ensures enriched.Some? ==> out.enriched.value == CleanDishFile(enriched.value).0
    ensures validIds == ValidIds(CleanDishFile(raw).1, if enriched.Some? then CleanDishFile(enriched.value).1 else {})
    ensures var c := CleanCacheSpec(cache, validIds);
      (c.Err? ==> out.cache == None && out.progress == None && out.failure == Some(c.message))
      && (c.Ok? ==> out.cache == Some(c.value))
    ensures var c := CleanCacheSpec(cache, validIds);
      var p := CleanProgress(progress, validIds);
      (c.Ok? && p.Err? ==> out.progress == None && out.failure == Some(p.message))
      && (c.Ok? && p.Ok? ==> out.progress == p.value && out.failure == None)
  {
    var (rawDishes, rawIds) := CleanDishFile(raw);
    var enrichedDishes: Option<seq<JsValue>> := None;
    var enrichedIds: set<JsValue> := {};
    if enriched.Some? {
      var (dishes, ids) := CleanDishFile(enriched.value);
      enrichedDishes := Some(dishes);
      enrichedIds := ids;
    }
    validIds := ValidIds(rawIds, enrichedIds);
    var nextCache := CleanCache(cache, validIds);
    if nextCache.Err? {
      out := Cleaned(rawDishes, enrichedDishes, None, None, Some(nextCache.message));
      return;
    }
    var nextProgress := CleanProgress(progress, validIds);
    if nextProgress.Err? {
      out := Cleaned(rawDishes, enrichedDishes, Some(nextCache.value), None, Some(nextProgress.message));
    } else {
      out := Cleaned(rawDishes, enrichedDishes, Some(nextCache.value), nextProgress.value, None);
    }
  }

  /** After a run every kept cache entry and every kept progress record
      refers to a dish that is in the cleaned enriched file, or in the
      cleaned raw file when the enriched one has no dish. */
  lemma CleanedRefersToKeptDishes(raw: seq<JsValue>, enriched: Option<seq<JsValue>>, cache: Option<CacheState>, progress: JsValue)
    ensures var rawIds := CleanDishFile(raw).1;
      var enrichedIds := if enriched.Some? then CleanDishFile(enriched.value).1 else {};
      var validIds := ValidIds(rawIds, enrichedIds);
      var source := if enrichedIds != {} then CleanDishFile(enriched.value).0 else CleanDishFile(raw).0;
      (CleanCacheSpec(cache, validIds).Ok? ==>
         forall key, entry :: (key, entry) in CleanCacheSpec(cache, validIds).value.entries.value ==>
           exists d :: d in source && Id(d) == EntryDishId(key, entry))
      && (progress != Null ==>
         var kept := Field(CleanProgress(Some(progress), validIds).value.value, "enriched");
         kept.Arr? && forall v :: v in kept.items ==> exists d :: d in source && Id(d) == Id(v))
  {
    var rawIds := CleanDishFile(raw).1;
    var enrichedIds := if enriched.Some? then CleanDishFile(enriched.value).1 else {};
    var validIds := ValidIds(rawIds, enrichedIds);
    CleanCacheFacts(cache, validIds);
    CleanProgressFacts(progress, validIds);
    CleanDishFileFacts(raw);
    if enriched.Some? {
      CleanDishFileFacts(enriched.value);
    }
  }
}
