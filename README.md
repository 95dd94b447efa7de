# LlmFavouriteFood in Dafny

LlmFavouriteFood is a "what do I feel like eating" game. It works on a list of dishes taken from Wikidata and enriched by a local language model.

The app asks multiple-choice questions mined from the dishes' attributes, keeps the dishes that match each answer, and settles the last few in a knock-out bracket of duels and four-way picks. A set of data scripts builds and maintains the dish list:

- `fetch-dishes` pages through a Wikidata query and de-duplicates the rows;
- `enrich-dishes` asks the model for a metadata block per dish, with a cache and a resumable checkpoint;
- `clean-data` drops invalid and placeholder dishes and whatever refers to them.

This project models that core and proves properties of the model.

The modules, one per source file plus shared helpers:

- `GameLogic` (game_logic.dfy): candidate mining (`collectCandidates`, `collectNameFallbackCandidates`), `normalize`, `titleCase`, `addWeight`, `matchesCandidate`.
- `GameQuestions` (game_questions.dfy): `weightedPick`, grouping, `buildMultiChoiceQuestion`, `generateQuestion`, `generateDuel`.
- `GameEngine` (game_engine.dfy): `useGameEngine` as the class `Engine`, plus `shuffle` and `questionTypeFromId`.
- `EnrichmentSchema` (enrichment_schema.dfy): `toSnakeCase`, `cleanList`, `cleanFreeList`, the clamps, `sanitizeAiMeta`, `calibrateAiMeta`.
- `Wikidata` (wikidata.dfy): the app's dish loader and `fetchDishes`.
- `FetchDishes` (fetch_dishes.dfy): `splitCsv`, `uniqueLower`, `inferKeywordCategories`, `normalizeDish`, `fetchAllDishes`.
- `CleanData` (clean_data.dfy): the clean-up script.
- `EnrichDishes` (enrich_dishes.dfy): the enrichment script's filter, cache, checkpoint and loop.
- `AiClient` (ai_client.dfy): `extractJson` and the result mapping of `enrichDish`.
- `WikiIds` (wiki_ids.dfy): item-id extraction and the placeholder-name rule shared by all stages.
- `DishTypes`, `JsValues`, `Text`, `Collections`, `Wrappers` (dish_types.dfy, js_value.dfy, text.dfy, collections.dfy, wrappers.dfy): the dish records, untyped JSON values, JavaScript string operations, sequence helpers, `Option`/`Result`.

Code that changes state step by step is modelled as methods with loops or as a class:

- the engine's handlers;
- the map-filling loops of the miners;
- `shuffle`'s swaps;
- `uniqueLower`;
- the list-cleaning loop;
- `fetchAllDishes`;
- `cleanCache`;
- the enrichment loop.

Each such method is proved equal to a specification function, and the properties are lemmas about those functions.

Some inputs are parameters of the model rather than modelled behaviour:

- randomness: the roll of `weightedPick`, and the swap indices of `shuffle`;
- the model's answers;
- the clock;
- the contents of the files.

Numbers are exact reals.

## Model

| member | source | states |
|---|---|---|
| GameLogic.Normalize | src/utils/gameLogic.ts:56-58 | the normalised value is no longer than the input, has no leading or trailing whitespace and no upper-case letter |
| GameLogic.NormalizeIdempotent | src/utils/gameLogic.ts:56-58 | a normalised value is its own normal form |
| GameLogic.Capitalize | src/utils/gameLogic.ts:52 | a capitalised word keeps its length, its first character is upper-cased and every other one lower-cased |
| GameLogic.CapitalizeIdempotent | src/utils/gameLogic.ts:52 | capitalising a capitalised word changes nothing |
| GameLogic.TitleCase | src/utils/gameLogic.ts:47-54 | `titleCase`: underscores become spaces, the white-space separated words are capitalised and joined by single spaces; its properties are stated by `TitleCaseOfSnake` |
| GameLogic.TitleCaseOfSnake | src/utils/gameLogic.ts:47-54 | the label of a snake_case value is its words, each capitalised, joined by single spaces; splitting the label on white space gives exactly those words back in order, and title-casing the label again changes nothing |
| GameLogic.AddWeightFacts | src/utils/gameLogic.ts:60-62 | `addWeight` raises the key's count by the weight, leaves every other count alone, appends the key to the map's insertion order only when it is new, and keeps the tally consistent |
| GameLogic.AddAllCounts | src/utils/gameLogic.ts:96-99 | adding distinct values raises each of their counts by the weight exactly once and no other count |
| GameLogic.AddAllKeys | src/utils/gameLogic.ts:96-99 | after adding values the tally's keys are the old keys and the values, nothing else |
| GameLogic.AddEach | src/utils/gameLogic.ts:98 | the loop over the set adds every value in turn, as the tally function says |
| GameLogic.AddList | src/utils/gameLogic.ts:96-99 | `addList` adds every distinct, non-empty normalised value of the list once |
| GameLogic.UniqueNormalizedFacts | src/utils/gameLogic.ts:97 | the set of normalised values is duplicate-free and holds exactly the non-empty values some entry normalises to |
| GameLogic.AiWeight | src/utils/gameLogic.ts:105 | the soft confidence weight always lies in [0.2, 1] |
| GameLogic.ContributionWeight | src/utils/gameLogic.ts:105-131 | every dish adds weight between 0.2 and 1 to a value (1 to the buckets not fed from the metadata block) |
| GameLogic.ContributionDistinct | src/utils/gameLogic.ts:96-131 | one dish adds to each value of a bucket at most once |
| GameLogic.ContributionMatches | src/utils/gameLogic.ts:101-234 | a dish counted towards a value passes that value's question filter, so choosing an option never drops a dish that was counted for it |
| GameLogic.MatchesCandidate | src/utils/gameLogic.ts:200-234 | `matchesCandidate`, the filter applied when an option is chosen; `ContributionMatches` and `ListMatchCounted` relate it to the miner in both directions |
| GameLogic.ListMatchCounted | src/utils/gameLogic.ts:120-230 | conversely, in a list bucket a dish that passes a non-empty value's filter is counted for it; for `ingredient` only when an ingredient entry normalises to the value, since a match through the name alone is not counted |
| GameLogic.SpiceRule | src/utils/gameLogic.ts:117-208 | the miner counts `spicy` from level 3 and `mild` up to level 1, level 2 neither; a dish without metadata is never counted, reads as level 0 and so passes `mild`; `spicy` passes exactly the dishes at level 3 or more |
| GameLogic.PlaceholdersNotCounted | src/utils/gameLogic.ts:107-115 | the placeholder values `unknown` protein, `mixed` temperature and `unknown` mood are never counted |
| GameLogic.BucketTallyBounds | src/utils/gameLogic.ts:101-132 | every count of a bucket is between 0 and the pool size, and every key present has a positive count |
| GameLogic.BucketTallyCount | src/utils/gameLogic.ts:101-132 | a value's count is the summed weight of the dishes contributing it |
| GameLogic.ContributorIsMatch | src/utils/gameLogic.ts:120-230 | in a list bucket other than `ingredient` the contributors of a non-empty value are exactly the dishes its filter keeps, so their weight is the filter's weight (for cuisines and categories, the number of matching dishes) |
| GameLogic.ListCountIsMatches | src/utils/gameLogic.ts:120-230 | in a list bucket other than `ingredient` the count of a non-empty value equals the weight (for cuisines and categories, the number) of the pool's dishes its filter keeps |
| GameLogic.Put | src/utils/gameLogic.ts:79-94 | writing one bucket changes that bucket only |
| GameLogic.Rank | src/utils/gameLogic.ts:79-148 | each bucket type has a position in the key order of the bucket record |
| GameLogic.AddEnum | src/utils/gameLogic.ts:107-115 | an enumeration field adds its normalised value when it is non-empty and not the placeholder |
| GameLogic.AddSpice | src/utils/gameLogic.ts:117-118 | the spice field adds `spicy`, `mild` or nothing according to its level |
| GameLogic.AddContribution | src/utils/gameLogic.ts:102-131 | one dish's update to one bucket adds its contribution with its weight |
| GameLogic.AddDish | src/utils/gameLogic.ts:101-132 | the body of the dish loop updates every bucket with that dish's contribution and weight |
| GameLogic.Build | src/utils/gameLogic.ts:134-146 | `build` walks the tally's entries in insertion order and keeps exactly the scored ones |
| GameLogic.BuildStep | src/utils/gameLogic.ts:136-144 | one entry is skipped when empty or outside the ratio band and otherwise yields its candidate |
| GameLogic.CollectCandidates | src/utils/gameLogic.ts:77-149 | `collectCandidates` tallies every dish and builds every bucket in the record's key order |
| GameLogic.ScoreEntryFacts | src/utils/gameLogic.ts:137-143 | an entry becomes a candidate exactly when its value is non-empty and its share of the pool lies in [0.07, 0.65], and then carries its count and the split score times the bucket priority |
| GameLogic.CandidateFacts | src/utils/gameLogic.ts:77-149 | every mined candidate is a non-empty value counted in its bucket, with its count, a share in [0.07, 0.65] and the scored weight |
| GameLogic.CandidateComplete | src/utils/gameLogic.ts:77-149 | conversely every counted non-empty value with a share in the band is mined |
| GameLogic.NameTokenFacts | src/utils/gameLogic.ts:157-161 | every name token is lower-case alphanumeric, longer than two characters and not a stop word |
| GameLogic.NameTokensDistinct | src/utils/gameLogic.ts:162 | a dish counts each of its name tokens once |
| GameLogic.TokenTallyCount | src/utils/gameLogic.ts:156-164 | a token's count is the number of dishes whose name holds it |
| GameLogic.TokenTallyKeys | src/utils/gameLogic.ts:156-164 | the token map's keys are exactly the tokens of some dish name |
| GameLogic.FallbackStep | src/utils/gameLogic.ts:167-176 | one token is skipped outside the [0.15, 0.85] band and otherwise yields its `ingredient` candidate |
| GameLogic.CollectNameFallback | src/utils/gameLogic.ts:151-178 | `collectNameFallbackCandidates` counts every dish's name tokens and keeps the tokens in the band, in the map's order |
| GameLogic.FallbackFacts | src/utils/gameLogic.ts:151-178 | every fallback candidate is an `ingredient` candidate counting the dishes whose name holds it, with a share in [0.15, 0.85] and the fallback weight |
| GameLogic.FallbackValueIsToken | src/utils/gameLogic.ts:157-167 | a fallback value is a lower-case alphanumeric token longer than two characters and not a stop word |
| GameQuestions.OfTypeMembers | src/utils/gameLogic.ts:266-271 | a bucket's group holds exactly the effective candidates of that bucket |
| GameQuestions.OfTypeEmpty | src/utils/gameLogic.ts:266-271 | a bucket has a group exactly when some candidate belongs to it |
| GameQuestions.Group | src/utils/gameLogic.ts:266-271 | the grouping loop yields the buckets in order of first appearance, each mapped to its candidates in order |
| GameQuestions.InsertDescSorted | src/utils/gameLogic.ts:275 | inserting into a list sorted by decreasing weight keeps it sorted |
| GameQuestions.SortDescFacts | src/utils/gameLogic.ts:275 | the sort by decreasing weight yields a sorted permutation of the group |
| GameQuestions.TopOfGroup | src/utils/gameLogic.ts:275-276 | the kept options are sorted, come from the group, and none left out outweighs any kept |
| GameQuestions.FirstReachHit | src/utils/gameLogic.ts:69-73 | the loop of `weightedPick` returns the first item at which the decremented roll reaches zero |
| GameQuestions.FirstReachMiss | src/utils/gameLogic.ts:69-74 | when the loop finds no item, the roll reaches zero at no index |
| GameQuestions.ReachedWithinTotal | src/utils/gameLogic.ts:69-74 | a roll no larger than the total weight is always reached inside the loop |
| GameQuestions.WeightedPick | src/utils/gameLogic.ts:64-75 | `weightedPick` with the random number `rnd` returns what the pick specification gives |
| GameQuestions.PickFacts | src/utils/gameLogic.ts:64-75 | nothing is picked exactly from an empty list; a pick is an item of the list; a list with a total weight at most 0 yields its first item |
| GameQuestions.Pick | src/utils/gameLogic.ts:64-75 | `weightedPick` with the roll as a parameter; `PickFacts` and `PickReached` state what it returns |
| GameQuestions.PickReached | src/utils/gameLogic.ts:66-73 | with a positive total and a random number in [0, 1) the item picked is the first at which the running weight reaches the roll |
| GameQuestions.CollectEffective | src/utils/gameLogic.ts:262-263 | the mined candidates, or the name fallback when there are none |
| GameQuestions.EntriesFromGroups | src/utils/gameLogic.ts:273-281 | the entries built from the grouping loop's result are those built from the candidate list |
| GameQuestions.ChooseEntry | src/utils/gameLogic.ts:261-293 | the entry drawn is the weighted pick among the entries surviving both filters, none for a pool of at most one dish |
| GameQuestions.GenerateQuestion | src/utils/gameLogic.ts:256-296 | `generateQuestion` returns the question built from the chosen entry |
| GameQuestions.Duel | src/utils/gameLogic.ts:298-303 | `generateDuel` gives the first two dishes exactly when there are at least two |
| GameQuestions.EntryIfFullFacts | src/utils/gameLogic.ts:276-281 | an entry is kept only with three or four options |
| GameQuestions.EntryMember | src/utils/gameLogic.ts:273-281 | every entry is its bucket's group, sorted and cut to four, with three or four options |
| GameQuestions.EntryOptionsTop | src/utils/gameLogic.ts:273-281 | an entry's options are sorted, are candidates of its bucket, and outweigh every candidate of the bucket left out |
| GameQuestions.EntriesDistinctBuckets | src/utils/gameLogic.ts:266-281 | no two entries share a bucket |
| GameQuestions.SurvivorMember | src/utils/gameLogic.ts:285-290 | an entry survives exactly when its id was not asked before and it shares no option with the last options of its bucket |
| GameQuestions.QuestionNone | src/utils/gameLogic.ts:261-293 | `generateQuestion` returns `null` exactly for a pool of at most one dish or when no entry survives the filters |
| GameQuestions.ChosenFacts | src/utils/gameLogic.ts:261-293 | a drawn entry is a full entry of its bucket's group, not asked before and not overlapping the last options |
| GameQuestions.BuildQuestionFacts | src/utils/gameLogic.ts:236-254 | the question has the bucket's text, the attribute `category`, one label per value and an id made of the bucket and the values |
| GameQuestions.BuildQuestion | src/utils/gameLogic.ts:236-254 | `buildMultiChoiceQuestion`; `BuildQuestionFacts` and `QuestionShape` state its id, labels and hints |
| GameQuestions.QuestionShape | src/utils/gameLogic.ts:236-296 | a generated question has three or four options, a label and hint per option, an id not in the excluded set, and no option shown last time for its bucket |
| GameQuestions.QuestionOptionsTop | src/utils/gameLogic.ts:273-295 | its options are the values of the heaviest candidates of its bucket, heaviest first |
| GameQuestions.MakeEntryWeight | src/utils/gameLogic.ts:278 | an entry's weight is the summed option weight times the bucket priority |
| GameQuestions.MinedEntryWeight | src/utils/gameLogic.ts:141-278 | for mined candidates the bucket priority is applied twice: once per candidate and once per entry |
| GameQuestions.EffectivePositive | src/utils/gameLogic.ts:137-169 | every effective candidate has a non-empty value and a positive count |
| GameQuestions.HintsInRange | src/utils/gameLogic.ts:239-243 | every hint shows a percentage between 0 and 100 of the options' summed count |
| GameQuestions.OptionCountIsKept | src/utils/gameLogic.ts:120-243 | in a list bucket other than `ingredient` an option's count, which its hint reports, is the weight of the pool's dishes that choosing it keeps |
| GameEngine.TypeOfDashedId | src/hooks/useGameEngine.ts:11-15 | an id `multi-<name>-<rest>` whose name has no dash gives that name as its question type |
| GameEngine.QuestionTypeFromId | src/hooks/useGameEngine.ts:11-15 | `questionTypeFromId`; `TypeOfDashedId`, `QuestionTypeOfId` and `QuestionTypeNeedsPrefix` state when it finds a type and which |
| GameEngine.QuestionTypeOfId | src/hooks/useGameEngine.ts:11-15 | the id of every generated question gives back its bucket's name (round trip with the id `generateQuestion` builds) |
| GameEngine.QuestionTypeNeedsPrefix | src/hooks/useGameEngine.ts:11-15 | a type is found only in an id starting `multi-` with at least three dash-separated parts, and it is the second part |
| GameEngine.OptionSet | src/hooks/useGameEngine.ts:17-115 | the remembered set holds exactly the options normalised as `normalize` does (`normalizeQuestionOption` is the same operation) |
| GameEngine.Shuffle | src/hooks/useGameEngine.ts:19-26 | the in-place swaps from the back leave the shuffle the swap draws describe |
| GameEngine.SeededFacts | src/hooks/useGameEngine.ts:66-69 | more than 34 contenders are cut to exactly 34 of them, none taken twice; otherwise all enter in order |
| GameEngine.Engine.constructor | src/hooks/useGameEngine.ts:29-63 | the hook starts loading with an empty pool, no question, winner, error or queue, and empty refs |
| GameEngine.Engine.ApplyTournamentProgress | src/hooks/useGameEngine.ts:36-60 | the new state is the progress function of the old one |
| GameEngine.Engine.StartTournament | src/hooks/useGameEngine.ts:65-91 | the new state is the tournament-start function of the old one |
| GameEngine.Engine.PrepareNarrowingPhase | src/hooks/useGameEngine.ts:93-122 | the new state is the narrowing function of the old one |
| GameEngine.Engine.Ask | src/hooks/useGameEngine.ts:110-121 | asking adds the id to the asked ids, remembers the normalised options under the id's question type, empties both queues and shows the question in the narrowing phase |
| GameEngine.Engine.Reset | src/hooks/useGameEngine.ts:126-134 | `init`'s reset returns every field and ref to the start |
| GameEngine.Engine.Init | src/hooks/useGameEngine.ts:125-148 | the new state is the `init` function of the load's outcome |
| GameEngine.Engine.AnswerQuestion | src/hooks/useGameEngine.ts:160-179 | the new state is the answer function of the old one |
| GameEngine.Engine.ResolveDuel | src/hooks/useGameEngine.ts:181-188 | the new state is the duel-resolution function of the old one |
| GameEngine.Engine.ResolveQuad | src/hooks/useGameEngine.ts:190-197 | the new state is the four-way-resolution function of the old one |
| GameEngine.StartTournamentCases | src/hooks/useGameEngine.ts:65-91 | no contender sets the error and leaves the phase and pool; one is the winner at once; up to 34 all go to the duel phase; more are cut to 34 distinct draws; the question is always cleared |
| GameEngine.StartTournamentSpec | src/hooks/useGameEngine.ts:65-91 | the state after `startTournament`; `StartTournamentCases`, `StartEstablishes` and `StartPool` state its cases, the bracket invariant it sets up and its pool |
| GameEngine.StartEstablishes | src/hooks/useGameEngine.ts:65-91 | a tournament on some contenders sets up the bracket over their ids, in the duel or result phase |
| GameEngine.CoerceFacts | src/hooks/useGameEngine.ts:185-195 | the recorded winner carries the id of a dish of the matchup; the pick is kept as given exactly when its id is one of them |
| GameEngine.ApplyProgressKeeps | src/hooks/useGameEngine.ts:36-60 | after a pick the pool is the dishes still in play, the phase is the duel or the result, and any winner is a seeded contender |
| GameEngine.ApplyProgress | src/hooks/useGameEngine.ts:36-60 | the state after `applyTournamentProgress`; `ApplyProgressKeeps` states that it keeps the bracket invariant |
| GameEngine.ResolveDuelStep | src/hooks/useGameEngine.ts:181-188 | a duel pick keeps the bracket and takes exactly one dish out of play; outside the duel phase nothing changes |
| GameEngine.ResolveDuelSpec | src/hooks/useGameEngine.ts:181-188 | the state after `resolveDuel`; `ResolveDuelStep` states how the bracket shrinks |
| GameEngine.ResolveQuadStep | src/hooks/useGameEngine.ts:190-197 | a four-way pick keeps the bracket and takes exactly three dishes out of play; with fewer than four queued nothing changes |
| GameEngine.ResolveQuadSpec | src/hooks/useGameEngine.ts:190-197 | the state after `resolveQuad`; `ResolveQuadStep` states how the bracket shrinks |
| GameEngine.CurrentViews | src/hooks/useGameEngine.ts:199-207 | the four-way matchup shows with four or more dishes queued, the duel with two or three, never both, and in the bracket's duel phase one of them always shows |
| GameEngine.CurrentQuad | src/hooks/useGameEngine.ts:199-202 | `currentQuad`; `CurrentViews` states when it shows |
| GameEngine.CurrentDuel | src/hooks/useGameEngine.ts:204-207 | `currentDuel`; `CurrentViews` states when it shows |
| GameEngine.ChooseStep | src/hooks/useGameEngine.ts:181-207 | picking in whatever matchup is shown keeps the bracket and, in the duel phase, shrinks the pool; in the result phase it changes nothing |
| GameEngine.PlayReachesResult | src/hooks/useGameEngine.ts:36-207 | one pick fewer than the dishes in play always reaches the result, with a seeded contender as winner |
| GameEngine.PrepareFacts | src/hooks/useGameEngine.ts:93-122 | at most eight dishes, or no question, start the tournament; otherwise the question's new id joins the asked ids, its bucket's last options are replaced, and narrowing asks it on the same pool |
| GameEngine.PrepareSpec | src/hooks/useGameEngine.ts:93-122 | the state after `prepareNarrowingPhase`; `PrepareFacts` and `PreparePool` state its outcomes |
| GameEngine.PreparePool | src/hooks/useGameEngine.ts:93-122 | after the narrowing step the pool holds only dishes from it and the error is unchanged |
| GameEngine.StartPool | src/hooks/useGameEngine.ts:65-91 | a tournament's pool holds only contenders and the error is unchanged |
| GameEngine.AnswerFacts | src/hooks/useGameEngine.ts:160-179 | without a question nothing happens; the dishes kept are, in order, exactly those the question's filter accepts for the answer; none kept only clears the question; otherwise play goes on with a pool drawn from them |
| GameEngine.AnswerSpec | src/hooks/useGameEngine.ts:160-179 | the state after `answerQuestion`; `AnswerFacts` states which dishes stay |
| GameEngine.InitFacts | src/hooks/useGameEngine.ts:125-148 | a failed load and an empty load each set their message over a reset state; otherwise play starts without an error on dishes from the load |
| GameEngine.InitSpec | src/hooks/useGameEngine.ts:125-148 | the state after `init`; `InitFacts` states its error and start-up outcomes |
| EnrichmentSchema.ReplaceRuns | scripts/lib/enrichmentSchema.ts:86 | collapsing every run of other characters to one underscore leaves only lower-case letters, digits and single underscores, is empty only for empty input, and starts with `_` exactly when the input starts with another character |
| EnrichmentSchema.ToSnakeCase | scripts/lib/enrichmentSchema.ts:82-88 | the result is snake_case: lower-case letters, digits and single inner underscores |
| EnrichmentSchema.SnakeCaseFixedPoint | scripts/lib/enrichmentSchema.ts:82-88 | a snake_case string is its own snake_case form |
| EnrichmentSchema.SnakeCaseIdempotent | scripts/lib/enrichmentSchema.ts:82-88 | normalising twice is normalising once |
| EnrichmentSchema.AdmitOne | scripts/lib/enrichmentSchema.ts:94-110 | an entry is admitted only when it is a string whose non-empty snake_case form (allowed, when there is an allowlist) is what is kept |
| EnrichmentSchema.CollectUnique | scripts/lib/enrichmentSchema.ts:92-114 | the shared loop keeps the first eight distinct admitted forms, in order of first appearance |
| EnrichmentSchema.CleanList | scripts/lib/enrichmentSchema.ts:90-102 | `cleanList` gives the fallback for a non-array, else the first eight distinct allowed snake_case entries |
| EnrichmentSchema.CleanFreeList | scripts/lib/enrichmentSchema.ts:104-115 | `cleanFreeList` is the same without an allowlist |
| EnrichmentSchema.CleanListFacts | scripts/lib/enrichmentSchema.ts:90-115 | a cleaned array is a clean list (distinct, non-empty, snake_case, allowed, at most eight), every value comes from an entry, and every admitted entry is kept unless eight values were already kept |
| EnrichmentSchema.CleanListOfClean | scripts/lib/enrichmentSchema.ts:90-115 | cleaning a clean list written as a JSON array gives it back |
| EnrichmentSchema.ClampInt | scripts/lib/enrichmentSchema.ts:117-120 | a non-number (or NaN) gives the fallback; a number gives a value in the range, its rounding when that is inside |
| EnrichmentSchema.ClampFloat | scripts/lib/enrichmentSchema.ts:122-125 | a non-number (or NaN) gives the fallback; a number gives a value in the range, itself when inside |
| EnrichmentSchema.DefaultAiMeta | scripts/lib/enrichmentSchema.ts:127-144 | the default block is well formed: empty lists, `mixed` temperature, `unknown` protein and mood, spice 0, adventure 3, confidence 0 |
| EnrichmentSchema.PickEnum | scripts/lib/enrichmentSchema.ts:151-161 | an enumeration field keeps a string value only when it is allowed, and otherwise takes the default |
| EnrichmentSchema.ListField | scripts/lib/enrichmentSchema.ts:164-174 | every list property comes out as a clean list |
| EnrichmentSchema.SanitizeAiMeta | scripts/lib/enrichmentSchema.ts:146-179 | any input gives a well-formed block, and a non-object gives the defaults |
| EnrichmentSchema.ListFieldOfClean | scripts/lib/enrichmentSchema.ts:164-174 | a clean list written as a JSON array is read back unchanged |
| EnrichmentSchema.ToJs | scripts/lib/enrichmentSchema.ts:14-29 | a block is written as a JSON object |
| EnrichmentSchema.ToJsListFields | scripts/lib/enrichmentSchema.ts:14-29 | each list field of the block is written as a string array under its own name |
| EnrichmentSchema.ToJsScalarFields | scripts/lib/enrichmentSchema.ts:14-29 | each scalar field is written as a string or number under its own name |
| EnrichmentSchema.SanitizeOfWellFormed | scripts/lib/enrichmentSchema.ts:146-179 | a well-formed block written as JSON and sanitised again comes back unchanged |
| EnrichmentSchema.SanitizeIdempotent | scripts/lib/enrichmentSchema.ts:146-179 | sanitising the JSON of a sanitised block changes nothing |
| EnrichmentSchema.LongTokens | scripts/lib/enrichmentSchema.ts:188-191 | the kept name tokens are the longer-than-two ones |
| EnrichmentSchema.RawEvidence | scripts/lib/enrichmentSchema.ts:182-196 | the summed evidence is never negative |
| EnrichmentSchema.Evidence | scripts/lib/enrichmentSchema.ts:197 | the capped evidence lies in [0, 1] |
| EnrichmentSchema.Calibrated | scripts/lib/enrichmentSchema.ts:181-221 | calibration never raises the confidence, keeps it under 0.15 + 0.8 times the evidence, and keeps a well-formed block well formed |
| EnrichmentSchema.CalibrateAiMeta | scripts/lib/enrichmentSchema.ts:181-221 | the step-by-step adjustment of the copy returns the calibrated block |
| EnrichmentSchema.CalibratedFacts | scripts/lib/enrichmentSchema.ts:181-221 | the confidence becomes the smaller of itself and the ceiling; weak evidence (below 0.25) clears the dietary and allergen tags and the protein, strong evidence keeps them; without source ingredients at most four key ingredients remain, a prefix of the old list; every other field is unchanged |
| AiClient.ExtractJsonFacts | scripts/lib/aiClient.ts:13-25 | the text handed to the parser is the trimmed answer from its first `{` through its last `}`, and the no-object error is raised exactly when there is no `{` or no `}` after it |
| AiClient.ExtractJson | scripts/lib/aiClient.ts:13-25 | `extractJson` up to the parse; `ExtractJsonFacts` and `ExtractedIsBraced` state what it hands to the parser |
| AiClient.ExtractedIsBraced | scripts/lib/aiClient.ts:13-25 | the extracted text starts with `{`, ends with `}` and occurs in the trimmed answer as it stands |
| AiClient.EnrichResultFacts | scripts/lib/aiClient.ts:88-94 | a missing or blank answer is the empty-output error; a successful one returns the trimmed answer as raw output and the sanitised parse of its braced part, which is well formed |
| AiClient.EnrichResult | scripts/lib/aiClient.ts:88-94 | the result mapping of `enrichDish`; `EnrichResultFacts` states its cases |
| JsValues.Field | scripts/clean-data.ts:75 | reading a property of a non-object gives `undefined`, and of an object the stored value |
| JsValues.Spread | scripts/clean-data.ts:100-101 | `{...v}` copies an object's fields, and an array's elements or a string's characters under their decimal indices, which are all digits; other values give nothing |
| JsValues.Round | scripts/lib/enrichmentSchema.ts:119 | `Math.round` lies within one half of its argument, halves going up |
| JsValues.ToNumber | scripts/clean-data.ts:104 | `Number(...)` always gives a number or NaN |
| JsValues.NumberOfNumeral | scripts/clean-data.ts:104 | a whole number written in decimal converts back to itself |
| JsValues.MinNumber | scripts/clean-data.ts:104 | `Math.min` with a number is NaN exactly when the first argument is, and otherwise is the smaller of the two |
| WikiIds.ExtractQid | src/services/wikidata.ts:21-24 | a found item id is `Q` followed by one digit or more |
| WikiIds.ExtractQidOfUrl | src/services/wikidata.ts:21-24 | a URL whose last `/`-part is an item id gives that id upper-cased, and any other last part gives none |
| WikiIds.PlaceholderFacts | src/services/wikidata.ts:26-31 | a placeholder's trimmed name is an item id; when the URL has no item id that is the whole test; when it has one, the URL ends in that id up to case |
| WikiIds.IsPlaceholderName | src/services/wikidata.ts:26-31 | the placeholder-name rule shared by the app and the scripts; `PlaceholderFacts` and `OwnIdIsPlaceholder` state it |
| WikiIds.OwnIdIsPlaceholder | src/services/wikidata.ts:26-31 | a dish named by the item id its own URL ends in is a placeholder |
| Wikidata.DefaultMeta | src/services/wikidata.ts:4-19 | the app's default block is the enrichment script's default block |
| Wikidata.WithDefaultsFacts | src/services/wikidata.ts:36 | a missing or empty stored block gives the defaults, a complete one is kept as stored, a stored field overrides its default and an absent one takes it |
| Wikidata.WithDefaults | src/services/wikidata.ts:36 | `{ ...defaultAiMeta, ...dish.ai }` for typed stored fields; `WithDefaultsFacts` states it |
| Wikidata.Load | src/services/wikidata.ts:34-37 | each dish keeps its own fields and gets its stored metadata completed with the defaults |
| Wikidata.LoadAll | src/services/wikidata.ts:33-37 | the mapped list has one completed dish per stored dish, in file order |
| Wikidata.LoadedFacts | src/services/wikidata.ts:33-38 | every loaded dish has metadata and is no placeholder; a completed stored dish is loaded exactly when it is not a placeholder; loaded dishes come from the file, in file order, none added |
| Wikidata.LoadedDishes | src/services/wikidata.ts:33-38 | the module's `dishes` list; `LoadedFacts` and `PlaceholderDropped` state which dishes it holds |
| Wikidata.PlaceholderDropped | src/services/wikidata.ts:26-38 | a dish named by an item id without an id in its URL is dropped; a dish whose trimmed name is no item id is kept |
| Wikidata.FetchDishesPermutes | src/services/wikidata.ts:40-46 | the dishes handed out are the loaded ones, each as often, in some order |
| Wikidata.FetchDishes | src/services/wikidata.ts:40-46 | `fetchDishes` with the sort's random comparator as a swap schedule; `FetchDishesPermutes` states it |
| CleanData.PlaceholderWikiNameFacts | scripts/clean-data.ts:48-54 | for string fields the clean-up's placeholder test is the shared item-id rule, except that an empty id never makes a placeholder; an empty name is never one |
| CleanData.IsPlaceholderWikiName | scripts/clean-data.ts:48-54 | `isPlaceholderWikiName`; `PlaceholderWikiNameFacts` relates it to the shared rule |
| CleanData.IsValidDish | scripts/clean-data.ts:56-58 | `isValidDish`; `CleanDishFileFacts` states that exactly the valid dishes can stay |
| CleanData.CleanDishFileFacts | scripts/clean-data.ts:56-66 | a dish file keeps, in order, exactly its valid non-placeholder dishes, and the returned ids are exactly theirs, all truthy |
| CleanData.CleanDishFile | scripts/clean-data.ts:60-66 | `cleanDishFile` on the file's content; `CleanDishFileFacts` and `CleanDishFileIdempotent` state it |
| CleanData.CleanDishFileIdempotent | scripts/clean-data.ts:60-66 | cleaning a cleaned dish file changes nothing |
| CleanData.ValidIds | scripts/clean-data.ts:115-119 | the enriched file's ids are used whenever there are any, otherwise the raw file's |
| CleanData.CleanCache | scripts/clean-data.ts:68-88 | the entry loop equals `CleanCacheSpec`: a `null` file or entry throws, otherwise the old prompt version and the entries that pass, in order |
| CleanData.CleanCacheSpec | scripts/clean-data.ts:68-88 | the new cache or the error; `CleanCacheFacts` states it |
| CleanData.CleanCacheFacts | scripts/clean-data.ts:68-88 | a `null` file or a `null` entry is the error of reading a property of `null`, and nothing else is an error; on success the prompt version is copied, an entry is kept unchanged under its key exactly when its `dishId` (or else its key) is a truthy valid id, and order is kept |
| CleanData.CleanProgressFacts | scripts/clean-data.ts:90-108 | a file holding `null` is exactly the error case; otherwise the kept records are exactly the saved objects that are valid dishes with valid ids and no placeholder, in order; `total` is their number; a numeric `index` is capped at it and a missing one becomes 0; every other spread property is kept |
| CleanData.CleanProgress | scripts/clean-data.ts:90-108 | `cleanProgress` on the file's content; `CleanProgressFacts` and `CleanProgressEdges` state it |
| CleanData.CleanProgressEdges | scripts/clean-data.ts:90-108 | a missing progress file stays missing, a `null` one is the error of reading `enriched`, one without an `enriched` array is saved with no records and total 0, and an array is spread into its elements under their indices |
| CleanData.CleanAll | scripts/clean-data.ts:110-123 | a run cleans both dish files and chooses the ids; a cache error stops it before the cache and the progress are written, a progress error after the cache is written; otherwise both are written as cleaned |
| CleanData.CleanedRefersToKeptDishes | scripts/clean-data.ts:110-123 | after a run that cleans them, every kept cache entry and progress record names a dish of the cleaned enriched file, or of the cleaned raw file when the enriched one has no dish |
| FetchDishes.TrimAll | scripts/fetch-dishes.ts:101 | each part is trimmed, one result per part |
| FetchDishes.SplitCsvFacts | scripts/fetch-dishes.ts:97-103 | a missing or empty list gives no parts, and every part is non-empty, trimmed and comma-free |
| FetchDishes.SplitCsv | scripts/fetch-dishes.ts:97-103 | `splitCsv`; `SplitCsvFacts` and `SplitCsvJoin` state it |
| FetchDishes.SplitCsvJoin | scripts/fetch-dishes.ts:97-103 | splitting non-empty, trimmed, comma-free parts joined by commas gives them back |
| FetchDishes.LowerKeysSnoc | scripts/fetch-dishes.ts:121-123 | adding a value adds its lower-cased form to the seen keys |
| FetchDishes.UniqueLower | scripts/fetch-dishes.ts:117-127 | the loop with its set of seen lower-cased keys keeps the first value of each key, in order |
| FetchDishes.UniqueLowerFacts | scripts/fetch-dishes.ts:117-127 | the result is a subsequence of the input, has no two values equal ignoring case, and loses no lower-cased form |
| FetchDishes.UniqueLowerOfDistinct | scripts/fetch-dishes.ts:117-127 | values already distinct ignoring case are kept as they are |
| FetchDishes.UniqueLowerIdempotent | scripts/fetch-dishes.ts:117-127 | de-duplicating twice is de-duplicating once |
| FetchDishes.UniqueLowerKeepsFirst | scripts/fetch-dishes.ts:117-127 | the first value with a given lower-cased form is the one kept |
| FetchDishes.InferKeywordCategories | scripts/fetch-dishes.ts:129-140 | the loop over the category table collects the categories with a matching pattern |
| FetchDishes.InferredFacts | scripts/fetch-dishes.ts:45-140 | the inferred categories are exactly the table's categories with a whole-word match in the lower-cased text, in table order, each once |
| FetchDishes.NormalizeDishFacts | scripts/fetch-dishes.ts:142-159 | a dish keeps the row's id, label and image; cuisines and ingredients are the row's lists, distinct ignoring case and losing no value; categories are the characteristics and the inferred categories, distinct ignoring case |
| FetchDishes.NormalizeDish | scripts/fetch-dishes.ts:142-159 | `normalizeDish`; `NormalizeDishFacts` states its fields |
| FetchDishes.NormalizeAll | scripts/fetch-dishes.ts:204-205 | one normalised dish per row of the page, in order |
| FetchDishes.MergePage | scripts/fetch-dishes.ts:204-209 | the per-row loop skips dishes without an image and placeholders, and sets each other dish under its id |
| FetchDishes.MergeAllStep | scripts/fetch-dishes.ts:204-209 | merging one more row is inserting its dish into the merge of the rows before it |
| FetchDishes.InsertKeeps | scripts/fetch-dishes.ts:206-208 | inserting a dish keeps the map well kept: ids listed once, each dish accepted and under its own id |
| FetchDishes.InsertOther | scripts/fetch-dishes.ts:206-208 | inserting a dish under another id, or one that is skipped, leaves an id's dish unchanged |
| FetchDishes.MergeAllKeeps | scripts/fetch-dishes.ts:204-209 | merging a page keeps the map well kept |
| FetchDishes.LastRowWins | scripts/fetch-dishes.ts:208 | for an id seen twice, the dish of the last accepted row is the one kept |
| FetchDishes.FetchAllDishes | scripts/fetch-dishes.ts:193-223 | the page loop stops at the first empty page or the first page shorter than 2000 rows, and returns the map's dishes in insertion order |
| FetchDishes.FetchedFacts | scripts/fetch-dishes.ts:193-223 | every fetched dish has an image and is no placeholder, sits at its id's insertion place, and no id is fetched twice |
| FetchDishes.FetchAllSpec | scripts/fetch-dishes.ts:193-223 | the dishes `fetchAllDishes` collects from its pages; `FetchedFacts`, `FetchAllKeeps` and `LastRowWins` state it |
| FetchDishes.FetchAllKeeps | scripts/fetch-dishes.ts:198-220 | reading further pages keeps the map well kept |
| EnrichDishes.UsableInputIsNotPlaceholder | scripts/enrich-dishes.ts:57-63 | the input filter keeps exactly the records with an id, a name and an image that are not placeholders by the shared item-id rule |
| EnrichDishes.LoadInputFacts | scripts/enrich-dishes.ts:55-64 | a dish is loaded exactly when the file holds it and it passes the filter, so no loaded dish lacks a field or is a placeholder |
| EnrichDishes.InputDishesFacts | scripts/enrich-dishes.ts:143-144 | the dishes worked on are a prefix of the loaded ones: all of them outside test mode; in test mode the first `testLimit`, or all but the last `-testLimit` for a negative limit, as `slice(0, testLimit)` does |
| EnrichDishes.LoadCacheFacts | scripts/enrich-dishes.ts:76-89 | a missing or malformed cache, or one for another prompt version, is replaced by an empty one; otherwise its entries are kept; either way it is for the current prompt version |
| EnrichDishes.LoadCache | scripts/enrich-dishes.ts:76-89 | `loadCache`; `LoadCacheFacts` states when the saved cache is kept |
| EnrichDishes.LoadProgressFacts | scripts/enrich-dishes.ts:95-111 | fresh mode, a missing or malformed checkpoint and one for another number of dishes restart at index 0 with nothing enriched; otherwise the checkpoint is resumed as saved |
| EnrichDishes.LoadProgress | scripts/enrich-dishes.ts:95-111 | `loadProgress`; `LoadProgressFacts` states when the checkpoint is resumed |
| EnrichDishes.MergeAiIntoDish | scripts/enrich-dishes.ts:117-124 | merging changes only the dish's metadata |
| EnrichDishes.MergeFacts | scripts/enrich-dishes.ts:117-124 | merging a well-formed block written as JSON gives that block calibrated to the dish |
| EnrichDishes.MergeEmpty | scripts/enrich-dishes.ts:117-187 | merging an empty object gives the default block calibrated to the dish |
| EnrichDishes.MergeEnriches | scripts/enrich-dishes.ts:117-124 | any merge yields the dish with its raw fields kept and a well-formed block |
| EnrichDishes.SetAt | scripts/enrich-dishes.ts:165-187 | writing `enriched[i]` sets that record, leaves the others, and past the end grows the list to `i + 1` with holes |
| EnrichDishes.StepDish | scripts/enrich-dishes.ts:161-188 | the record written at index `i` is that dish with only its metadata changed |
| EnrichDishes.StepDishSource | scripts/enrich-dishes.ts:163-188 | the metadata comes from the cached block on a hit, from the model's block on a success, and from the defaults after a failure, each calibrated to the dish |
| EnrichDishes.StepDishEnriches | scripts/enrich-dishes.ts:161-188 | every iteration writes the dish with its raw fields kept and a well-formed block |
| EnrichDishes.StepFacts | scripts/enrich-dishes.ts:160-196 | an iteration fails exactly on a cache miss with a failed answer in strict test mode; otherwise it writes its record and moves the index to `i + 1`, leaving the other records |
| EnrichDishes.Step | scripts/enrich-dishes.ts:160-196 | one iteration of the loop; `StepFacts`, `StepDishSource` and `StepDishEnriches` state its outcome |
| EnrichDishes.SavesFacts | scripts/enrich-dishes.ts:164-195 | the progress and the cache are saved after an iteration exactly when the model was asked and the new index is a multiple of the batch size or the count |
| EnrichDishes.CacheServesAnswer | scripts/enrich-dishes.ts:173-181 | after a successful answer the cache holds an entry that serves the same dish on a later run (when not bypassed) and gives the same record |
| EnrichDishes.LoopStart | scripts/enrich-dishes.ts:160-161 | a whole index below the count starts the loop there; NaN or an index at or past the count runs no iteration; a negative or fractional index below the count fails on reading a missing dish |
| EnrichDishes.RunFromStep | scripts/enrich-dishes.ts:160-196 | the loop from `i` is one iteration, then the loop from `i + 1` unless that iteration failed |
| EnrichDishes.RunLoop | scripts/enrich-dishes.ts:160-196 | the loop, updating the progress and the cache in place, ends in the state the loop specification gives |
| EnrichDishes.Run | scripts/enrich-dishes.ts:142-212 | `run` fails when there is no dish or the start index is bad, and otherwise writes the loop's records and cache |
| EnrichDishes.RunSpec | scripts/enrich-dishes.ts:142-212 | `run` as a function; `RunFromFacts`, `FreshRunFacts` and `ResumeRunFacts` state what a run produces |
| EnrichDishes.IterateFacts | scripts/enrich-dishes.ts:160-196 | a loop whose iterations each write their record and fail only in strict mode ends, unless it fails, with every dish from the start on enriched, earlier records kept and the index at the count |
| EnrichDishes.RunFromFacts | scripts/enrich-dishes.ts:160-196 | the loop of `run` never fails outside strict test mode, and a completed loop enriches every dish from its start, keeps the records before it and ends at the count |
| EnrichDishes.FreshRunFacts | scripts/enrich-dishes.ts:142-198 | a run without a usable dish fails with "no dishes"; a fresh run fails only in strict test mode, and a completed one writes one record per dish, each enriched |
| EnrichDishes.ResumeRunFacts | scripts/enrich-dishes.ts:99-198 | a run resumed at a whole index before the end fails only in strict test mode, keeps the saved records before that index and enriches every dish from it on |
| EnrichDishes.AnswersWellFormed | scripts/lib/aiClient.ts:94 | every block the client hands to the loop is well formed |
| Text.Trim | src/utils/gameLogic.ts:57 | `trim` gives no longer a string with no white space at either end |
| Text.TrimOfTrimmed | src/utils/gameLogic.ts:57 | trimming a string without white space at its ends changes nothing |
| Text.ToLower | src/utils/gameLogic.ts:57 | `toLowerCase` keeps the length and lower-cases each character |
| Text.Split | scripts/fetch-dishes.ts:100 | `split` on one character gives at least one part, none containing the separator |
| Text.SplitJoin | scripts/fetch-dishes.ts:100 | splitting parts joined by a separator none of them contains gives the parts back |
| Text.SplitRuns | src/utils/gameLogic.ts:159 | splitting on runs of a character class gives at least one piece, none containing a character of the class |
| GameQuestions.PercentRange | src/utils/gameLogic.ts:241 | a hint's rounded percentage lies between 0 and 100 |

## Left out

- Floating point: weights, ratios and confidences are exact reals, so rounding drift of IEEE doubles is not modelled; `Math.round` is `floor(x + 0.5)`.
- Calibrated: the confidence is not rounded to two decimals (`toFixed(2)`), so the model's confidence can differ from the source's by up to 0.005 and its ceiling `0.15 + 0.8 * evidence` holds before that rounding only.
- CalibratedFacts: states the confidence before the two-decimal rounding, for the reason given for `Calibrated`.
- Case mapping and white space are ASCII (plus the common Unicode space characters in `trim`); Unicode case folding is not modelled.
- `JSON.parse` and `JSON.stringify` are not modelled: parsing is a parameter, and a cache signature is a record of the five fields the source serialises, equal exactly when those fields are.
- Regular expressions are written out as predicates: `Q\d+` tests, the snake-case replacements, the `\b<word>\b` keyword patterns (word characters taken as ASCII letters, digits and `_`), and the token split of the name fallback.
- Network access: the Wikidata query text, the paged HTTP requests with their retries and delays, and the model's HTTP request, time-out and retries. Pages of rows and the model's answers are inputs.
- File access and logging: reading and writing the JSON files, `existsSync`, `unlinkSync`, console output and `printQualitySummary`. File contents are inputs and outputs.
- Environment and command-line parsing: the switches and the numbers `ENRICH_BATCH_SIZE` and `ENRICH_TEST_LIMIT` are inputs, as whole numbers. A negative test limit is modelled (`slice` then drops that many dishes from the end), and so is a negative batch size. A value that parses to NaN or to a fraction is not: a fractional test limit is truncated by `slice`, and a fractional batch size changes which indices `%` finds to be save points.
- React: rendering, effects, the `setTimeout` start-up and the batching of state updates. Each handler is one atomic transition of the `Engine` object.
- Randomness is not modelled as a distribution: only membership and permutation facts are proved about `shuffle`, `weightedPick` and the random-comparator sort of `fetchDishes`. The sort is represented by a swap schedule, so which orders it can produce is not modelled.
- The error of a strict test run embeds the failure's message, not `String(error)` with its `Error: ` prefix.
- EnrichDishes: cache entries are assumed to have the shape the script writes. Malformed entries inside a well-formed `entries` object are not modelled, and neither are non-string fields in the input records.
- CleanData.PlaceholderWikiNameFacts: a truthy non-string `id` or `name` makes the source throw on `trim`/`match`, while the model reads such a record as no placeholder.
- CleanData: a `null` record in a dish file makes the source throw in `isValidDish`, while the model drops it.
- Wikidata.WithDefaults: stored metadata fields are typed, each present or absent. With the source's spread, a stored `null` or a field of the wrong type overrides its default, and fields outside the metadata record are kept; the model can express neither.
- JsValues.ToNumber: converts decimal integer numerals only. Fractions, exponents, hexadecimal, `Infinity` and the conversion of arrays and objects are not modelled (they give NaN or are absent).
