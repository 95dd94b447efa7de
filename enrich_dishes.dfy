/** The enrichment script: which raw dishes it takes, when it trusts its
    cache and its saved progress, and the resumable loop that gives every
    dish a metadata block, from the cache, from the model, or empty after a
    failure. Files, the console and the model are not modelled: the files'
    parsed content comes in as parameters, the model's answer for the dish
    at index `i` is `answers(i)` (what the client's result mapping
    returns), and the clock's reading there is `stamps(i)`. */
module EnrichDishes {
  import opened Wrappers
  import opened Text
  import opened Collections
  import opened JsValues
  import opened DishTypes
  import opened WikiIds
  import opened EnrichmentSchema
  import AiClient

  const NoDishesFound: string := "No dishes found. Run `npm run prefetch` first."
  /** The `TypeError` the loop body raises on reading `dishes[i].id` for an
      index that names no dish. */
  const NoDishAtIndex: string := "Cannot read properties of undefined (reading 'id')"

  /** The switches: `--test` and `--fresh` on the command line, the
      `ENRICH_FRESH`, `ENRICH_TEST_STRICT` and `ENRICH_BYPASS_CACHE`
      variables, and the numbers read from `ENRICH_BATCH_SIZE` and
      `ENRICH_TEST_LIMIT`. */
  datatype Options = Options(
    testArg: bool,
    freshArg: bool,
    freshEnv: Option<string>,
    strictEnv: Option<string>,
    bypassEnv: Option<string>,
    batchSize: int,
    testLimit: int)

  predicate ForceFresh(o: Options) { o.freshArg || o.freshEnv == Some("1") || o.testArg }
  predicate TestStrict(o: Options) { o.strictEnv != Some("0") }
  predicate BypassCache(o: Options) { o.bypassEnv == Some("1") || o.testArg }

  // ---------------------------------------------------------------------
  // loadInputDishes

  /** The filter of `loadInputDishes` as it is written there: a record with
      an id, a name and an image, whose trimmed name is not an item id, or
      is one that differs from the item id its URL ends in. A `null` record
      is `None`; a missing string field reads as empty. */
  predicate IsUsableInput(d: Option<Dish>) {
    if d.None? || d.value.id == "" || d.value.name == "" || d.value.image == "" then false
    else
      var trimmedName := Trim(d.value.name);
      var qid := ExtractQid(d.value.id);
      if !IsQidText(trimmedName) then true
      else qid.Some? && ToUpper(trimmedName) != qid.value
  }

  /** The filter is the shared placeholder rule, negated, on complete
      records. */
  lemma UsableInputIsNotPlaceholder(d: Dish)
    ensures IsUsableInput(Some(d)) <==> d.id != "" && d.name != "" && d.image != "" && !IsPlaceholderName(d.id, d.name)
  {
  }

  function Usable(d: Option<Dish>): Option<Dish> {
    if IsUsableInput(d) then d else None
  }

  function LoadInputDishes(raw: seq<Option<Dish>>): seq<Dish> {
    FilterMap(raw, Usable)
  }

  /** A dish is loaded exactly when the file holds it and it passes; none
      is a placeholder or lacks a field. */
  lemma LoadInputFacts(raw: seq<Option<Dish>>)
    ensures forall d :: d in LoadInputDishes(raw) <==> Some(d) in raw && IsUsableInput(Some(d))
    ensures forall d :: d in LoadInputDishes(raw) ==>
      d.id != "" && d.name != "" && d.image != "" && !IsPlaceholderName(d.id, d.name)
  {
    FilterMapMembers(raw, Usable);
    forall d | Some(d) in raw && IsUsableInput(Some(d))
      ensures d in LoadInputDishes(raw)
    {
      var k :| 0 <= k < |raw| && raw[k] == Some(d);
    }
  }

  // ---------------------------------------------------------------------
  // The cache and the saved progress

  /** `toSignature`: the fields the cached metadata depends on. The script
      compares their JSON text; two dishes have the same text exactly when
      these fields agree. */
  datatype Signature = Signature(id: string, name: string, cuisines: seq<string>, ingredients: seq<string>, categories: seq<string>)

  function SignatureOf(d: Dish): Signature {
    Signature(d.id, d.name, d.cuisines, d.ingredients, d.categories)
  }

  datatype CacheEntry = CacheEntry(
    dishId: string,
    promptVersion: string,
    model: string,
    signature: Signature,
    updatedAt: string,
    rawOutput: string,
    ai: JsValue)

  datatype Cache = Cache(promptVersion: string, entries: map<string, CacheEntry>)

  /** The cache file as read: `None` when missing or not an object; its
      `entries` are `None` when not an object. */
  datatype SavedCache = SavedCache(promptVersion: JsValue, entries: Option<map<string, CacheEntry>>)

  const StartCache := Cache(PromptVersion, map[])

  /** `loadCache`. */
  function LoadCache(saved: Option<SavedCache>): Cache {
    if saved.None? || saved.value.entries.None? then StartCache
    else if saved.value.promptVersion != Str(PromptVersion) then StartCache
    else Cache(PromptVersion, saved.value.entries.value)
  }

  /** A missing or malformed cache, or one written for another prompt
      version, is replaced by an empty one; otherwise its entries are
      kept. Either way the cache is for the current prompt version. */
  lemma LoadCacheFacts(saved: Option<SavedCache>)
    ensures LoadCache(saved).promptVersion == PromptVersion
    ensures saved.None? || saved.value.entries.None? || saved.value.promptVersion != Str(PromptVersion)
      ==> LoadCache(saved) == StartCache
    ensures saved.Some? && saved.value.entries.Some? && saved.value.promptVersion == Str(PromptVersion)
      ==> LoadCache(saved).entries == saved.value.entries.value
  {
  }

  /** The progress record; `index` is whatever number the checkpoint held. */
  datatype Progress = Progress(index: JsValue, total: int, enriched: seq<Option<Dish>>)

  /** The checkpoint file as read: `None` when missing or `null`; its
      `enriched` is `None` when not an array. */
  datatype SavedProgress = SavedProgress(index: JsValue, total: JsValue, enriched: Option<seq<Option<Dish>>>)

  function StartProgress(total: nat): Progress {
    Progress(Num(0.0), total, [])
  }

  /** `loadProgress`. */
  function LoadProgress(forceFresh: bool, saved: Option<SavedProgress>, total: nat): Progress {
    if forceFresh then StartProgress(total)
    else if saved.None? || saved.value.enriched.None? || !IsNumber(saved.value.index) then StartProgress(total)
    else if saved.value.total != Num(total as real) then StartProgress(total)
    else Progress(saved.value.index, total, saved.value.enriched.value)
  }

  /** Fresh mode, a missing or malformed checkpoint and one for another
      number of dishes all restart at 0 with nothing enriched; otherwise
      the checkpoint is resumed as saved. */
  lemma LoadProgressFacts(forceFresh: bool, saved: Option<SavedProgress>, total: nat)
    ensures LoadProgress(forceFresh, saved, total).total == total
    ensures forceFresh || saved.None? || saved.value.enriched.None? || !IsNumber(saved.value.index)
      || saved.value.total != Num(total as real)
      ==> LoadProgress(forceFresh, saved, total) == Progress(Num(0.0), total, [])
    ensures !forceFresh && saved.Some? && saved.value.enriched.Some? && IsNumber(saved.value.index)
      && saved.value.total == Num(total as real)
      ==> (LoadProgress(forceFresh, saved, total).index == saved.value.index
        && LoadProgress(forceFresh, saved, total).enriched == saved.value.enriched.value)
  {
  }

  // ---------------------------------------------------------------------
  // One dish

  /** `mergeAiIntoDish`: the raw dish with the sanitised, calibrated
      metadata. */
  function MergeAiIntoDish(dish: Dish, ai: JsValue): (r: Dish)
    ensures r.(ai := dish.ai) == dish
  {
    dish.(ai := Some(Calibrated(SanitizeAiMeta(ai), dish)))
  }

  /** Merging a well-formed block's JSON calibrates the block itself. */
  lemma MergeFacts(dish: Dish, m: AiMeta)
    requires WellFormed(m)
    ensures MergeAiIntoDish(dish, ToJs(m)).ai == Some(Calibrated(m, dish))
  {
    SanitizeOfWellFormed(m);
  }

  /** Merging an empty object calibrates the defaults. */
  lemma MergeEmpty(dish: Dish)
    ensures MergeAiIntoDish(dish, Obj(map[])).ai == Some(Calibrated(DefaultAiMeta(), dish))
  {
    assert SanitizeAiMeta(Obj(map[])) == DefaultAiMeta();
  }

  /** A record written for `dish`: the dish with its raw fields kept and
      a well-formed metadata block. */
  ghost predicate EnrichedFrom(rec: Option<Dish>, dish: Dish) {
    rec.Some? && rec.value.(ai := dish.ai) == dish && rec.value.ai.Some? && WellFormed(rec.value.ai.value)
  }

  lemma MergeEnriches(dish: Dish, ai: JsValue)
    ensures EnrichedFrom(Some(MergeAiIntoDish(dish, ai)), dish)
  {
  }

  /** The cache serves a dish when it is not bypassed and holds an entry
      under the dish's id with the dish's signature and the current prompt
      version. */
  predicate CacheHit(bypass: bool, cache: Cache, dish: Dish) {
    !bypass && dish.id in cache.entries
    && cache.entries[dish.id].signature == SignatureOf(dish)
    && cache.entries[dish.id].promptVersion == PromptVersion
  }

  /** `progress.enriched[i] = dish`: an index past the end leaves holes,
      which are `None`. */
  function SetAt(s: seq<Option<Dish>>, i: nat, d: Dish): (r: seq<Option<Dish>>)
    ensures |r| == if i < |s| then |s| else i + 1
    ensures r[i] == Some(d)
    ensures forall j :: 0 <= j < |s| && j != i ==> r[j] == s[j]
    ensures forall j :: |s| <= j < i ==> r[j] == None
  {
    if i < |s| then s[i := Some(d)] else s + seq(i - |s|, _ => None) + [Some(d)]
  }

  /** `progress.index % BATCH_SIZE === 0 || progress.index === dishes.length`
      for a positive index (a zero batch size divides nothing). */
  predicate SavePoint(index: int, batchSize: int, n: int) {
    (batchSize != 0 && index % batchSize == 0) || index == n
  }

  /** What one run works with. */
  datatype Env = Env(
    dishes: seq<Dish>,
    options: Options,
    answers: nat -> Result<(AiMeta, string)>,
    model: string,
    stamps: nat -> string)

  /** The loop's state: the progress, the cache and the indices at which
      both were saved. */
  datatype RunState = RunState(progress: Progress, cache: Cache, saves: seq<int>)

  function FailureMessage(dish: Dish, message: string): string {
    "Test mode failed for \"" + dish.name + "\": " + message
  }

  /** The record the iteration at index `i` writes: the dish merged with
      the cached block on a hit, with the model's block on a success, and
      with an empty object after a failure. */
  function StepDish(env: Env, i: nat, cache: Cache): (r: Dish)
    requires i < |env.dishes|
    ensures r.(ai := env.dishes[i].ai) == env.dishes[i]
  {
    var dish := env.dishes[i];
    if CacheHit(BypassCache(env.options), cache, dish) then MergeAiIntoDish(dish, cache.entries[dish.id].ai)
    else if env.answers(i).Ok? then MergeAiIntoDish(dish, ToJs(env.answers(i).value.0))
    else MergeAiIntoDish(dish, Obj(map[]))
  }

  /** The cache after the iteration at index `i`: a successful answer is
      stored under the dish's id. */
  function StepCache(env: Env, i: nat, cache: Cache): Cache
    requires i < |env.dishes|
  {
    var dish := env.dishes[i];
    var answer := env.answers(i);
    if CacheHit(BypassCache(env.options), cache, dish) || answer.Err? then cache
    else
      var entry := CacheEntry(dish.id, PromptVersion, env.model, SignatureOf(dish), env.stamps(i), answer.value.1, ToJs(answer.value.0));
      cache.(entries := cache.entries[dish.id := entry])
  }

  /** One iteration of the loop of `run`, at index `i`. */
  function Step(env: Env, i: nat, st: RunState): Result<RunState>
    requires i < |env.dishes|
  {
    var dish := env.dishes[i];
    var p := st.progress;
    var progress := Progress(Num((i + 1) as real), p.total, SetAt(p.enriched, i, StepDish(env, i, st.cache)));
    if CacheHit(BypassCache(env.options), st.cache, dish) then Ok(st.(progress := progress))
    else if env.answers(i).Err? && env.options.testArg && TestStrict(env.options) then
      Err(FailureMessage(dish, env.answers(i).message))
    else
      var saves := if SavePoint(i + 1, env.options.batchSize, |env.dishes|) then st.saves + [i + 1] else st.saves;
      Ok(RunState(progress, StepCache(env, i, st.cache), saves))
  }

  /** The loop from index `i` up to `n`, each iteration done by `step`;
      it stops at the first failure. */
  function Iterate(step: (nat, RunState) -> Result<RunState>, i: nat, n: nat, st: RunState): Result<RunState>
    decreases n - i
  {
    if i >= n then Ok(st)
    else
      var next := step(i, st);
      if next.Err? then next else Iterate(step, i + 1, n, next.value)
  }

  /** The iteration of `run` at any index of the dish list. */
  function StepOf(env: Env): (nat, RunState) -> Result<RunState> {
    (j: nat, s: RunState) => if j < |env.dishes| then Step(env, j, s) else Ok(s)
  }

  /** The loop from index `i` to the end. */
  function RunFrom(env: Env, i: nat, st: RunState): Result<RunState> {
    Iterate(StepOf(env), i, |env.dishes|, st)
  }

  /** Where the loop starts for a loaded index: a whole number below the
      count starts there, NaN or a number at or past the count runs no
      iteration, and a negative or fractional one below the count makes the
      first iteration read a dish that does not exist. */
  function LoopStart(index: JsValue, n: nat): (r: Result<nat>)
    ensures r.Ok? ==> r.value <= n
    ensures r.Ok? && r.value < n ==> index == Num(r.value as real)
    ensures r.Err? <==> index.Num? && index.n < n as real && (index.n < 0.0 || index.n != index.n.Floor as real)
  {
    if !index.Num? || index.n >= n as real then Ok(n)
    else if index.n >= 0.0 && index.n == index.n.Floor as real then Ok(index.n.Floor)
    else Err(NoDishAtIndex)
  }

  /** What a run leaves: the enriched list written out, the cache saved at
      the end, the save points and whether the checkpoint file is kept
      (only in test mode). */
  datatype RunOutcome = RunOutcome(output: seq<Option<Dish>>, cache: Cache, saves: seq<int>, keepCheckpoint: bool)

  /** `s.slice(0, end)` for a whole number `end`; a negative end counts
      back from the length. */
  function SliceTo<T>(s: seq<T>, end: int): seq<T> {
    if end >= 0 then Take(s, end)
    else if |s| + end <= 0 then []
    else s[..|s| + end]
  }

  function InputDishes(raw: seq<Option<Dish>>, options: Options): seq<Dish> {
    var all := LoadInputDishes(raw);
    if options.testArg then SliceTo(all, options.testLimit) else all
  }

  /** `run`. */
  function RunSpec(
    raw: seq<Option<Dish>>, options: Options, savedCache: Option<SavedCache>, savedProgress: Option<SavedProgress>,
    answers: nat -> Result<(AiMeta, string)>, model: string, stamps: nat -> string): Result<RunOutcome>
  {
    var dishes := InputDishes(raw, options);
    if dishes == [] then Err(NoDishesFound)
    else
      var progress := LoadProgress(ForceFresh(options), savedProgress, |dishes|);
      var start := LoopStart(progress.index, |dishes|);
      if start.Err? then Err(start.message)
      else
        var env := Env(dishes, options, answers, model, stamps);
        var last := RunFrom(env, start.value, RunState(progress, LoadCache(savedCache), []));
        if last.Err? then Err(last.message)
        else Ok(RunOutcome(last.value.progress.enriched, last.value.cache, last.value.saves, options.testArg))
  }

  lemma RunFromStep(env: Env, i: nat, st: RunState)
    requires i < |env.dishes|
    ensures RunFrom(env, i, st) == if Step(env, i, st).Err? then Step(env, i, st) else RunFrom(env, i + 1, Step(env, i, st).value)
  {
  }

  /** The loop of `run`, updating the progress and the cache in place. */
  method Run(
    raw: seq<Option<Dish>>, options: Options, savedCache: Option<SavedCache>, savedProgress: Option<SavedProgress>,
    answers: nat -> Result<(AiMeta, string)>, model: string, stamps: nat -> string)
    returns (r: Result<RunOutcome>)
    ensures r == RunSpec(raw, options, savedCache, savedProgress, answers, model, stamps)
  {
    var dishes := InputDishes(raw, options);
    if dishes == [] {
      return Err(NoDishesFound);
    }
    var cache := LoadCache(savedCache);
    var progress := LoadProgress(ForceFresh(options), savedProgress, |dishes|);
    var start := LoopStart(progress.index, |dishes|);
    if start.Err? {
      return Err(start.message);
    }
    var last := RunLoop(dishes, options, answers, model, stamps, start.value, progress, cache);
    r := if last.Err? then Err(last.message)
      else Ok(RunOutcome(last.value.progress.enriched, last.value.cache, last.value.saves, options.testArg));
  }

  /** The loop of `run` from index `start`, updating the progress and the
      cache in place. */
  method RunLoop(
    dishes: seq<Dish>, options: Options, answers: nat -> Result<(AiMeta, string)>, model: string, stamps: nat -> string,
    start: nat, progress0: Progress, cache0: Cache)
    returns (r: Result<RunState>)
    requires start <= |dishes|
    ensures r == RunFrom(Env(dishes, options, answers, model, stamps), start, RunState(progress0, cache0, []))
  {
    ghost var env := Env(dishes, options, answers, model, stamps);
    ghost var first := RunState(progress0, cache0, []);
    var progress := progress0;
    var cache := cache0;
    var bypass := BypassCache(options);
    var saves: seq<int> := [];
    var i := start;
    while i < |dishes|
      invariant i <= |dishes|
      invariant RunFrom(env, start, first) == RunFrom(env, i, RunState(progress, cache, saves))
      decreases |dishes| - i
    {
      RunFromStep(env, i, RunState(progress, cache, saves));
      var dish := dishes[i];
      var signature := SignatureOf(dish);
      if !bypass && dish.id in cache.entries && cache.entries[dish.id].signature == signature
        && cache.entries[dish.id].promptVersion == PromptVersion
      {
        progress := progress.(enriched := SetAt(progress.enriched, i, MergeAiIntoDish(dish, cache.entries[dish.id].ai)));
        progress := progress.(index := Num((i + 1) as real));
        i := i + 1;
        continue;
      }
      var answer := answers(i);
      if answer.Ok? {
        var (ai, rawOutput) := answer.value;
        progress := progress.(enriched := SetAt(progress.enriched, i, MergeAiIntoDish(dish, ToJs(ai))));
        var entry := CacheEntry(dish.id, PromptVersion, model, signature, stamps(i), rawOutput, ToJs(ai));
        cache := cache.(entries := cache.entries[dish.id := entry]);
      } else {
        if options.testArg && TestStrict(options) {
          return Err(FailureMessage(dish, answer.message));
        }
        progress := progress.(enriched := SetAt(progress.enriched, i, MergeAiIntoDish(dish, Obj(map[]))));
      }
      progress := progress.(index := Num((i + 1) as real));
      if SavePoint(i + 1, options.batchSize, |dishes|) {
        saves := saves + [i + 1];
      }
      i := i + 1;
    }
    r := Ok(RunState(progress, cache, saves));
  }

  // ---------------------------------------------------------------------
  // What the loop promises

  /** What an iteration at index `i` that does not fail does to the saved
      records: `enriched[i]` becomes the dish with its raw fields kept and
      a well-formed block, the list grows only to reach `i`, the other
      records stay, and the index moves to `i + 1`. */
  ghost predicate StepKeeps(dishes: seq<Dish>, i: nat, s: RunState, t: RunState)
    requires i < |dishes|
  {
    var p := t.progress;
    p.index == Num((i + 1) as real) && p.total == s.progress.total
    && |p.enriched| == (if i < |s.progress.enriched| then |s.progress.enriched| else i + 1)
    && EnrichedFrom(p.enriched[i], dishes[i])
    && (forall j :: 0 <= j < |s.progress.enriched| && j != i ==> p.enriched[j] == s.progress.enriched[j])
  }

  /** One iteration fails only on a model failure in strict test mode;
      otherwise it writes `enriched[i]` as `StepKeeps` says. */
  lemma StepFacts(env: Env, i: nat, st: RunState)
    requires i < |env.dishes|
    ensures var hit := CacheHit(BypassCache(env.options), st.cache, env.dishes[i]);
      Step(env, i, st).Err? <==> !hit && env.answers(i).Err? && env.options.testArg && TestStrict(env.options)
    ensures Step(env, i, st).Ok? ==>
      Step(env, i, st).value.progress.enriched[i] == Some(StepDish(env, i, st.cache))
      && Step(env, i, st).value.cache == StepCache(env, i, st.cache)
      && StepKeeps(env.dishes, i, st, Step(env, i, st).value)
  {
    StepDishEnriches(env, i, st.cache);
  }

  lemma StepDishEnriches(env: Env, i: nat, cache: Cache)
    requires i < |env.dishes|
    ensures EnrichedFrom(Some(StepDish(env, i, cache)), env.dishes[i])
  {
    var dish := env.dishes[i];
    if CacheHit(BypassCache(env.options), cache, dish) {
      MergeEnriches(dish, cache.entries[dish.id].ai);
    } else if env.answers(i).Ok? {
      MergeEnriches(dish, ToJs(env.answers(i).value.0));
    } else {
      MergeEnriches(dish, Obj(map[]));
    }
  }

  /** The metadata written comes from the cache on a hit, from the model's
      block on a success, and from the defaults after a failure. */
  lemma StepDishSource(env: Env, i: nat, cache: Cache)
    requires i < |env.dishes|
    requires env.answers(i).Ok? ==> WellFormed(env.answers(i).value.0)
    ensures var dish := env.dishes[i];
      var hit := CacheHit(BypassCache(env.options), cache, dish);
      var ai := StepDish(env, i, cache).ai;
      (hit ==> ai == Some(Calibrated(SanitizeAiMeta(cache.entries[dish.id].ai), dish)))
      && (!hit && env.answers(i).Ok? ==> ai == Some(Calibrated(env.answers(i).value.0, dish)))
      && (!hit && env.answers(i).Err? ==> ai == Some(Calibrated(DefaultAiMeta(), dish)))
  {
    var dish := env.dishes[i];
    if env.answers(i).Ok? {
      MergeFacts(dish, env.answers(i).value.0);
    } else {
      MergeEmpty(dish);
    }
  }

  /** The progress and the cache are saved after an iteration exactly when
      the model was asked (no cache hit) and the new index is a multiple of
      the batch size or the number of dishes. */
  lemma SavesFacts(env: Env, i: nat, st: RunState)
    requires i < |env.dishes|
    requires Step(env, i, st).Ok?
    ensures var hit := CacheHit(BypassCache(env.options), st.cache, env.dishes[i]);
      var saves := Step(env, i, st).value.saves;
      (!hit && SavePoint(i + 1, env.options.batchSize, |env.dishes|) ==> saves == st.saves + [i + 1])
      && (hit || !SavePoint(i + 1, env.options.batchSize, |env.dishes|) ==> saves == st.saves)
  {
  }

  /** After a successful answer the cache holds an entry that serves the
      same dish on a later pass (unless the cache is bypassed) and gives
      the same enriched dish. */
  lemma CacheServesAnswer(env: Env, i: nat, cache: Cache)
    requires i < |env.dishes|
    requires !CacheHit(BypassCache(env.options), cache, env.dishes[i]) && env.answers(i).Ok?
    ensures var next := StepCache(env, i, cache);
      var dish := env.dishes[i];
      CacheHit(false, next, dish) && MergeAiIntoDish(dish, next.entries[dish.id].ai) == StepDish(env, i, cache)
  {
    var dish := env.dishes[i];
    assert StepCache(env, i, cache).entries[dish.id].ai == ToJs(env.answers(i).value.0);
  }

  /** The loop over any step that fails only when `strict` holds and
      otherwise keeps `StepKeeps`: unless it fails, every dish from the
      start index on ends up enriched with its raw fields kept, the records
      before it are kept, the list grows no longer than the dish list and
      the index ends at the count. */
  lemma {:induction false} IterateFacts(
    step: (nat, RunState) -> Result<RunState>, dishes: seq<Dish>, strict: bool, i: nat, st: RunState)
    requires i <= |dishes|
    requires forall j: nat, s: RunState :: j < |dishes| ==>
      (step(j, s).Err? ==> strict) && (step(j, s).Ok? ==> StepKeeps(dishes, j, s, step(j, s).value))
    ensures var n := |dishes|;
      Iterate(step, i, n, st).Ok? ==>
        var p := Iterate(step, i, n, st).value.progress;
        (i < n ==> |p.enriched| >= n && p.index == Num(n as real))
        && (|st.progress.enriched| <= n ==> |p.enriched| <= n)
        && (forall j :: i <= j < n ==> EnrichedFrom(p.enriched[j], dishes[j]))
        && (forall j :: 0 <= j < i && j < |st.progress.enriched| ==> p.enriched[j] == st.progress.enriched[j])
    ensures !strict ==> Iterate(step, i, |dishes|, st).Ok?
    decreases |dishes| - i
  {
    var n := |dishes|;
    if i < n {
      var next := step(i, st);
      if next.Ok? {
        assert StepKeeps(dishes, i, st, next.value);
        IterateFacts(step, dishes, strict, i + 1, next.value);
      }
    }
  }

  /** The loop of `run`: outside strict test mode it never fails, and a
      completed loop leaves every dish from the start index on enriched
      with its raw fields kept, keeps the records before it, and ends with
      the index at the count. */
  lemma RunFromFacts(env: Env, i: nat, st: RunState)
    requires i <= |env.dishes|
    ensures var n := |env.dishes|;
      RunFrom(env, i, st).Ok? ==>
        var p := RunFrom(env, i, st).value.progress;
        (i < n ==> |p.enriched| >= n && p.index == Num(n as real))
        && (|st.progress.enriched| <= n ==> |p.enriched| <= n)
        && (forall j :: i <= j < n ==> EnrichedFrom(p.enriched[j], env.dishes[j]))
        && (forall j :: 0 <= j < i && j < |st.progress.enriched| ==> p.enriched[j] == st.progress.enriched[j])
    ensures !(env.options.testArg && TestStrict(env.options)) ==> RunFrom(env, i, st).Ok?
  {
    var strict := env.options.testArg && TestStrict(env.options);
    var step := StepOf(env);
    forall j: nat, s: RunState | j < |env.dishes|
      ensures (step(j, s).Err? ==> strict) && (step(j, s).Ok? ==> StepKeeps(env.dishes, j, s, step(j, s).value))
    {
      StepFacts(env, j, s);
    }
    IterateFacts(step, env.dishes, strict, i, st);
  }

  /** A run without a usable input dish fails with "no dishes"; in fresh
      mode it fails otherwise only in strict test mode, and
      a completed fresh run writes one record per dish, each the dish with
      its raw fields kept and a well-formed block. */
  lemma FreshRunFacts(
    raw: seq<Option<Dish>>, options: Options, savedCache: Option<SavedCache>, savedProgress: Option<SavedProgress>,
    answers: nat -> Result<(AiMeta, string)>, model: string, stamps: nat -> string)
    ensures var r := RunSpec(raw, options, savedCache, savedProgress, answers, model, stamps);
      var dishes := InputDishes(raw, options);
      (dishes == [] ==> r == Err(NoDishesFound))
      && (ForceFresh(options) && dishes != [] && !(options.testArg && TestStrict(options)) ==> r.Ok?)
      && (ForceFresh(options) && r.Ok? ==>
            |r.value.output| == |dishes|
            && forall j :: 0 <= j < |dishes| ==> EnrichedFrom(r.value.output[j], dishes[j]))
  {
    var dishes := InputDishes(raw, options);
    if dishes != [] {
      var progress := LoadProgress(ForceFresh(options), savedProgress, |dishes|);
      var start := LoopStart(progress.index, |dishes|);
      if start.Ok? {
        var env := Env(dishes, options, answers, model, stamps);
        RunFromFacts(env, start.value, RunState(progress, LoadCache(savedCache), []));
        if ForceFresh(options) {
          assert start.value == 0;
        }
      }
    }
  }

  /** A run resumed from a checkpoint for the same number of dishes at a
      whole index `k` before the end never fails outside strict test mode,
      keeps the saved records before `k` and enriches every dish from `k`
      on. */
  lemma ResumeRunFacts(
    raw: seq<Option<Dish>>, options: Options, savedCache: Option<SavedCache>, saved: SavedProgress,
    answers: nat -> Result<(AiMeta, string)>, model: string, stamps: nat -> string, k: nat)
    requires !ForceFresh(options)
    requires saved.enriched.Some? && saved.index == Num(k as real) && k < |InputDishes(raw, options)|
    requires saved.total == Num(|InputDishes(raw, options)| as real)
    ensures !(options.testArg && TestStrict(options)) ==>
      RunSpec(raw, options, savedCache, Some(saved), answers, model, stamps).Ok?
    ensures var r := RunSpec(raw, options, savedCache, Some(saved), answers, model, stamps);
      var dishes := InputDishes(raw, options);
      r.Ok? ==>
        |r.value.output| >= |dishes|
        && (forall j :: 0 <= j < k && j < |saved.enriched.value| ==> r.value.output[j] == saved.enriched.value[j])
        && (forall j :: k <= j < |dishes| ==> EnrichedFrom(r.value.output[j], dishes[j]))
  {
    var dishes := InputDishes(raw, options);
    var progress := LoadProgress(ForceFresh(options), Some(saved), |dishes|);
    assert progress == Progress(saved.index, |dishes|, saved.enriched.value);
    var start := LoopStart(progress.index, |dishes|);
    assert start == Ok(k);
    var env := Env(dishes, options, answers, model, stamps);
    var first := RunState(progress, LoadCache(savedCache), []);
    var last := RunFrom(env, k, first);
    assert RunSpec(raw, options, savedCache, Some(saved), answers, model, stamps)
      == if last.Err? then Err(last.message)
         else Ok(RunOutcome(last.value.progress.enriched, last.value.cache, last.value.saves, options.testArg));
    RunFromFacts(env, k, first);
  }

  /** The dishes worked on are a prefix of the input file's usable
      records: all of them outside test mode; in test mode the first
      `testLimit` of them, or all but the last `-testLimit` for a negative
      limit. */
  lemma InputDishesFacts(raw: seq<Option<Dish>>, options: Options)
    ensures InputDishes(raw, options) <= LoadInputDishes(raw)
    ensures !options.testArg ==> InputDishes(raw, options) == LoadInputDishes(raw)
    ensures options.testArg && options.testLimit >= 0 ==>
      |InputDishes(raw, options)| == MinInt(|LoadInputDishes(raw)|, options.testLimit)
    ensures options.testArg && options.testLimit < 0 ==>
      |InputDishes(raw, options)| == MaxInt(0, |LoadInputDishes(raw)| + options.testLimit)
  {
  }

  /** The answers the client can give are well formed. */
  lemma AnswersWellFormed(response: Option<string>, parse: string -> Result<JsValue>)
    ensures var a := AiClient.EnrichResult(response, parse);
      WellFormed(if a.Ok? then a.value.0 else DefaultAiMeta())
  {
    AiClient.EnrichResultFacts(response, parse);
  }
}
