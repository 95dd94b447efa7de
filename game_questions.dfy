/** The second half of `generateQuestion`: the mined candidates are grouped
    by bucket, each group's best four make a question entry, entries already
    asked or overlapping the previous options of their bucket are dropped,
    and one is drawn at random in proportion to its weight. The random roll
    is the parameter `rnd` in [0, 1). */
module GameQuestions {
  import opened Wrappers
  import opened Text
  import opened Collections
  import opened JsValues
  import opened DishTypes
  import opened GameLogic

  // ---------------------------------------------------------------------
  // Grouping by bucket

  /** The candidates in effect: the mined ones, or the name fallback when
      mining finds none. */
  function Effective(pool: seq<Dish>): seq<Candidate> {
    var candidates := Candidates(pool);
    if |candidates| > 0 then candidates else FallbackCandidates(pool)
  }

  /** The bucket of each candidate, in order. */
  function BucketsOf(cs: seq<Candidate>): (r: seq<BucketType>)
    ensures |r| == |cs|
    ensures forall i :: 0 <= i < |cs| ==> r[i] == cs[i].bucket
  {
    if cs == [] then [] else BucketsOf(cs[..|cs| - 1]) + [cs[|cs| - 1].bucket]
  }

  /** The keys of `grouped`: the buckets in order of first appearance. */
  function GroupTypes(cs: seq<Candidate>): seq<BucketType> {
    Dedupe(BucketsOf(cs))
  }

  /** The list `grouped` holds for bucket `b`: its candidates in order. */
  function OfType(cs: seq<Candidate>, b: BucketType): seq<Candidate> {
    if cs == [] then []
    else
      var front := OfType(cs[..|cs| - 1], b);
      if cs[|cs| - 1].bucket == b then front + [cs[|cs| - 1]] else front
  }

  lemma {:induction false} OfTypeMembers(cs: seq<Candidate>, b: BucketType)
    ensures forall c :: c in OfType(cs, b) <==> c in cs && c.bucket == b
  {
    if cs != [] {
      OfTypeMembers(cs[..|cs| - 1], b);
      assert cs == cs[..|cs| - 1] + [cs[|cs| - 1]];
    }
  }

  lemma {:induction false} OfTypeEmpty(cs: seq<Candidate>, b: BucketType)
    ensures OfType(cs, b) == [] <==> b !in BucketsOf(cs)
  {
    if cs != [] {
      OfTypeEmpty(cs[..|cs| - 1], b);
    }
  }

  /** The loop step of the grouping: one more candidate read. */
  lemma GroupStep(cs: seq<Candidate>, i: nat)
    requires i < |cs|
    ensures GroupTypes(cs[..i + 1]) ==
      if cs[i].bucket in GroupTypes(cs[..i]) then GroupTypes(cs[..i]) else GroupTypes(cs[..i]) + [cs[i].bucket]
    ensures forall b :: OfType(cs[..i + 1], b) == OfType(cs[..i], b) + (if cs[i].bucket == b then [cs[i]] else [])
  {
    assert cs[..i + 1][..i] == cs[..i];
    assert BucketsOf(cs[..i + 1]) == BucketsOf(cs[..i]) + [cs[i].bucket];
    DedupeSnoc(BucketsOf(cs[..i]), cs[i].bucket);
  }

  /** `types` and `lists` are the grouping of `cs`: the buckets in order of
      first appearance, and each bucket's candidates. */
  ghost predicate GroupedAs(cs: seq<Candidate>, types: seq<BucketType>, lists: map<BucketType, seq<Candidate>>) {
    types == GroupTypes(cs)
    && (forall b :: b in lists <==> b in types)
    && (forall b :: b in lists ==> lists[b] == OfType(cs, b))
    && (forall b :: b !in lists ==> OfType(cs, b) == [])
  }

  lemma GroupAdd(cs: seq<Candidate>, i: nat, types: seq<BucketType>, lists: map<BucketType, seq<Candidate>>)
    requires i < |cs| && GroupedAs(cs[..i], types, lists)
    ensures var b := cs[i].bucket;
      GroupedAs(cs[..i + 1], if b in lists then types else types + [b],
        lists[b := (if b in lists then lists[b] else []) + [cs[i]]])
  {
    GroupStep(cs, i);
  }

  /** `grouped`: a map from bucket to its candidates, its keys in insertion
      order. */
  method Group(effective: seq<Candidate>) returns (types: seq<BucketType>, lists: map<BucketType, seq<Candidate>>)
    ensures types == GroupTypes(effective)
    ensures forall b :: b in lists <==> b in types
    ensures forall b :: b in lists ==> lists[b] == OfType(effective, b)
  {
    types := [];
    lists := map[];
    for i := 0 to |effective|
      invariant GroupedAs(effective[..i], types, lists)
    {
      var candidate := effective[i];
      GroupAdd(effective, i, types, lists);
      var existing := if candidate.bucket in lists then lists[candidate.bucket] else [];
      existing := existing + [candidate];
      if candidate.bucket !in lists {
        types := types + [candidate.bucket];
      }
      lists := lists[candidate.bucket := existing];
    }
    assert effective[..|effective|] == effective;
  }

  // ---------------------------------------------------------------------
  // Sorting by weight

  /** Descending weight order. */
  predicate SortedDesc(cs: seq<Candidate>) {
    forall i, j :: 0 <= i < j < |cs| ==> cs[i].weight >= cs[j].weight
  }

  /** Places `c` before the first element that does not outweigh it, so an
      element that came earlier stays ahead of its equals. */
  function InsertDesc(c: Candidate, sorted: seq<Candidate>): (r: seq<Candidate>)
    ensures multiset(r) == multiset(sorted) + multiset{c}
    ensures |r| == |sorted| + 1
  {
    if sorted == [] || sorted[0].weight <= c.weight then [c] + sorted
    else
      assert sorted == [sorted[0]] + sorted[1..];
      [sorted[0]] + InsertDesc(c, sorted[1..])
  }

  lemma {:induction false} InsertDescSorted(c: Candidate, sorted: seq<Candidate>)
    requires SortedDesc(sorted)
    ensures SortedDesc(InsertDesc(c, sorted))
  {
    if sorted != [] && sorted[0].weight > c.weight {
      InsertDescSorted(c, sorted[1..]);
      var rest := InsertDesc(c, sorted[1..]);
      forall k | 0 <= k < |rest|
        ensures sorted[0].weight >= rest[k].weight
      {
        assert rest[k] in multiset(rest);
        assert rest[k] in multiset(sorted[1..]) + multiset{c};
        if rest[k] != c {
          assert rest[k] in sorted[1..];
        }
      }
    }
  }

  /** `[...list].sort((a, b) => b.weight - a.weight)`, a stable sort. */
  function SortDesc(cs: seq<Candidate>): seq<Candidate> {
    if cs == [] then [] else InsertDesc(cs[0], SortDesc(cs[1..]))
  }

  /** The sort orders by descending weight and keeps every candidate. */
  lemma {:induction false} SortDescFacts(cs: seq<Candidate>)
    ensures SortedDesc(SortDesc(cs))
    ensures multiset(SortDesc(cs)) == multiset(cs)
  {
    if cs != [] {
      SortDescFacts(cs[1..]);
      InsertDescSorted(cs[0], SortDesc(cs[1..]));
      assert cs == [cs[0]] + cs[1..];
    }
  }

  // ---------------------------------------------------------------------
  // Question entries

  /** One group turned into a possible question. */
  datatype Entry = Entry(bucket: BucketType, options: seq<Candidate>, questionId: string, weight: real)

  function Values(cs: seq<Candidate>): (r: seq<string>)
    ensures |r| == |cs|
    ensures forall i :: 0 <= i < |cs| ==> r[i] == cs[i].value
  {
    seq(|cs|, i requires 0 <= i < |cs| => cs[i].value)
  }

  function Weights(cs: seq<Candidate>): (r: seq<real>)
    ensures |r| == |cs|
    ensures forall i :: 0 <= i < |cs| ==> r[i] == cs[i].weight
  {
    seq(|cs|, i requires 0 <= i < |cs| => cs[i].weight)
  }

  /** `multi-<type>-<v1|v2|...>`. */
  function QuestionId(b: BucketType, values: seq<string>): string {
    "multi-" + TypeName(b) + "-" + Join(values, "|")
  }

  /** A group's entry: its four heaviest candidates, the id built from
      their values in that order, and the sum of their weights times the
      bucket's priority. */
  function MakeEntry(b: BucketType, list: seq<Candidate>): Entry {
    var options := Take(SortDesc(list), MaxOptions);
    Entry(b, options, QuestionId(b, Values(options)), Sum(Weights(options)) * TypePriority(b))
  }

  /** The entry of bucket `b` when it has at least `MinOptions` options. */
  function EntryIfFull(b: BucketType, list: seq<Candidate>): Option<Entry> {
    var entry := MakeEntry(b, list);
    if |entry.options| >= MinOptions then Some(entry) else None
  }

  function EntryFor(cs: seq<Candidate>): BucketType -> Option<Entry> {
    b => EntryIfFull(b, OfType(cs, b))
  }

  function EntryFromGroups(lists: map<BucketType, seq<Candidate>>): BucketType -> Option<Entry> {
    b => EntryIfFull(b, if b in lists then lists[b] else [])
  }

  /** `questionCandidates`: the full entries, in group order. */
  function Entries(cs: seq<Candidate>): seq<Entry> {
    FilterMap(GroupTypes(cs), EntryFor(cs))
  }

  /** `!excludedQuestionIds.has(entry.questionId)`. */
  function NotAsked(excluded: set<string>): Entry -> bool {
    (e: Entry) => e.questionId !in excluded
  }

  /** No option of the entry is among the options last shown for its
      bucket; a missing or empty set blocks nothing. */
  predicate NoOverlap(e: Entry, lastOptions: map<string, set<string>>) {
    var key := TypeName(e.bucket);
    key !in lastOptions || lastOptions[key] == {}
    || forall i :: 0 <= i < |e.options| ==> e.options[i].value !in lastOptions[key]
  }

  function Fresh(lastOptions: map<string, set<string>>): Entry -> bool {
    (e: Entry) => NoOverlap(e, lastOptions)
  }

  /** The entries left after both filters. */
  function Survivors(entries: seq<Entry>, excluded: set<string>, lastOptions: map<string, set<string>>): seq<Entry> {
    Filter(Filter(entries, NotAsked(excluded)), Fresh(lastOptions))
  }

  // ---------------------------------------------------------------------
  // Weighted pick

  function WeightsOf<T>(items: seq<T>, weight: T -> real): (r: seq<real>)
    ensures |r| == |items|
    ensures forall i :: 0 <= i < |items| ==> r[i] == weight(items[i])
  {
    seq(|items|, i requires 0 <= i < |items| => weight(items[i]))
  }

  function Shift(k: Option<nat>, n: nat): Option<nat> {
    if k.Some? then Some(k.value + n) else None
  }

  /** The index at which `roll`, decreased by each weight in turn, first
      drops to zero or below. */
  function FirstReach(ws: seq<real>, roll: real): (r: Option<nat>)
    ensures r.Some? ==> r.value < |ws|
  {
    if ws == [] then None
    else if roll - ws[0] <= 0.0 then Some(0)
    else Shift(FirstReach(ws[1..], roll - ws[0]), 1)
  }

  /** The roll `random() * total`. */
  function Roll(rnd: real, total: real): real {
    rnd * total
  }

  /** The index `weightedPick` returns: none for no items, the first when
      the weights sum to zero or less, else where the roll `rnd * total` is
      reached, and the last when it never is. */
  function PickIndex(ws: seq<real>, rnd: real): (r: Option<nat>)
    ensures r.Some? ==> r.value < |ws|
  {
    if ws == [] then None
    else
      var total := Sum(ws);
      if total <= 0.0 then Some(0)
      else
        var k := FirstReach(ws, Roll(rnd, total));
        if k.Some? then k else Some(|ws| - 1)
  }

  function Pick<T>(items: seq<T>, weight: T -> real, rnd: real): Option<T> {
    var k := PickIndex(WeightsOf(items, weight), rnd);
    if k.Some? then Some(items[k.value]) else None
  }

  lemma FirstReachStep(ws: seq<real>, i: nat, roll: real)
    requires i < |ws|
    ensures FirstReach(ws[i..], roll) ==
      if roll - ws[i] <= 0.0 then Some(0) else Shift(FirstReach(ws[i + 1..], roll - ws[i]), 1)
  {
    assert ws[i..][1..] == ws[i + 1..];
  }

  /** `weightedPick`: walks the items, subtracting each weight from the
      roll, and returns the item at which the roll drops to zero or below. */
  method WeightedPick<T>(items: seq<T>, weight: T -> real, rnd: real) returns (picked: Option<T>)
    ensures picked == Pick(items, weight, rnd)
  {
    if |items| == 0 {
      return None;
    }
    var ws := WeightsOf(items, weight);
    var total := Sum(ws);
    if total <= 0.0 {
      return Some(items[0]);
    }
    var roll := Roll(rnd, total);
    for i := 0 to |items|
      invariant FirstReach(ws, Roll(rnd, total)) == Shift(FirstReach(ws[i..], roll), i)
    {
      FirstReachStep(ws, i, roll);
      assert ws[i] == weight(items[i]);
      roll := roll - weight(items[i]);
      if roll <= 0.0 {
        assert PickIndex(ws, rnd) == Some(i);
        return Some(items[i]);
      }
    }
    return Some(items[|items| - 1]);
  }

  /** The sum of the weights up to and including index `j`. */
  function RunningSum(ws: seq<real>, j: nat): real
    requires j < |ws|
  {
    Sum(ws[..j + 1])
  }

  lemma RunningSumCons(ws: seq<real>, j: nat)
    requires 1 <= j < |ws|
    ensures RunningSum(ws, j) == ws[0] + RunningSum(ws[1..], j - 1)
  {
    assert ws[..j + 1][1..] == ws[1..][..j];
  }

  /** The roll is used up once the running sum at `j` reaches it. */
  predicate Reaches(ws: seq<real>, roll: real, j: nat)
    requires j < |ws|
  {
    roll - RunningSum(ws, j) <= 0.0
  }

  lemma ReachesCons(ws: seq<real>, roll: real, j: nat)
    requires j < |ws|
    ensures j == 0 ==> (Reaches(ws, roll, j) <==> roll - ws[0] <= 0.0)
    ensures j > 0 ==> (Reaches(ws, roll, j) <==> Reaches(ws[1..], roll - ws[0], j - 1))
  {
    if j > 0 {
      RunningSumCons(ws, j);
    } else {
      assert ws[..1][1..] == [];
      assert Sum(ws[..1]) == ws[0];
    }
  }

  /** A reached index is the first one whose running sum uses up the roll. */
  lemma {:induction false} FirstReachHit(ws: seq<real>, roll: real)
    requires FirstReach(ws, roll).Some?
    ensures Reaches(ws, roll, FirstReach(ws, roll).value)
    ensures forall j :: 0 <= j < FirstReach(ws, roll).value ==> !Reaches(ws, roll, j)
  {
    var k := FirstReach(ws, roll).value;
    ReachesCons(ws, roll, k);
    if roll - ws[0] > 0.0 {
      FirstReachHit(ws[1..], roll - ws[0]);
      forall j | 0 <= j < k
        ensures !Reaches(ws, roll, j)
      {
        ReachesCons(ws, roll, j);
      }
    }
  }

  /** No index is reached only when no running sum uses up the roll. */
  lemma {:induction false} FirstReachMiss(ws: seq<real>, roll: real)
    requires FirstReach(ws, roll).None?
    ensures forall j :: 0 <= j < |ws| ==> !Reaches(ws, roll, j)
  {
    if ws != [] {
      FirstReachMiss(ws[1..], roll - ws[0]);
      forall j | 0 <= j < |ws|
        ensures !Reaches(ws, roll, j)
      {
        ReachesCons(ws, roll, j);
      }
    }
  }

  /** A roll no larger than the total is reached by some index. */
  lemma {:induction false} ReachedWithinTotal(ws: seq<real>, roll: real)
    requires ws != [] && roll <= Sum(ws)
    ensures FirstReach(ws, roll).Some?
  {
    if roll - ws[0] > 0.0 {
      ReachedWithinTotal(ws[1..], roll - ws[0]);
    }
  }

  lemma ScaledBelow(r: real, s: real)
    requires 0.0 <= r < 1.0 && s > 0.0
    ensures Roll(r, s) < s
  {
    var d := 1.0 - r;
    assert d * s > 0.0;
    assert s - r * s == d * s;
  }

  /** `weightedPick` returns nothing only for no items, the first item when
      the weights sum to zero or less, and otherwise an item of the list;
      for a roll in [0, 1) it is the first item whose running weight
      reaches `rnd * total`, so the fall-back to the last item is never
      taken in exact arithmetic. */
  lemma PickFacts<T>(items: seq<T>, weight: T -> real, rnd: real)
    ensures Pick(items, weight, rnd).None? <==> items == []
    ensures Pick(items, weight, rnd).Some? ==> Pick(items, weight, rnd).value in items
    ensures items != [] && Sum(WeightsOf(items, weight)) <= 0.0 ==> Pick(items, weight, rnd) == Some(items[0])
  {
  }

  lemma PickReached<T>(items: seq<T>, weight: T -> real, rnd: real, ws: seq<real>)
    requires ws == WeightsOf(items, weight)
    requires items != [] && Sum(ws) > 0.0 && 0.0 <= rnd < 1.0
    ensures FirstReach(ws, Roll(rnd, Sum(ws))).Some?
    ensures Pick(items, weight, rnd) == Some(items[FirstReach(ws, Roll(rnd, Sum(ws))).value])
  {
    ScaledBelow(rnd, Sum(ws));
    ReachedWithinTotal(ws, Roll(rnd, Sum(ws)));
  }

  // ---------------------------------------------------------------------
  // The question

  /** A multiple-choice question; its `filter` keeps the dishes that match
      the chosen option in `bucket` (see `Keeps`). */
  datatype Question = Question(
    id: string,
    text: string,
    attribute: string,
    options: seq<string>,
    optionLabels: seq<string>,
    optionHints: seq<string>,
    bucket: BucketType)

  /** `question.filter(dish, option)`. */
  predicate Keeps(q: Question, d: Dish, option: string) {
    MatchesCandidate(d, q.bucket, option)
  }

  /** The label shown for a value: underscores to spaces, then title case. */
  function Label(value: string): string {
    TitleCase(ReplaceChar(value, '_', ' '))
  }

  function Counts(cs: seq<Candidate>): (r: seq<real>)
    ensures |r| == |cs|
    ensures forall i :: 0 <= i < |cs| ==> r[i] == cs[i].count
  {
    seq(|cs|, i requires 0 <= i < |cs| => cs[i].count)
  }

  /** An option's share of the options' summed counts, as a rounded
      percentage; 0 when the counts sum to zero or less. */
  function Percent(count: real, total: real): int {
    if total > 0.0 then Round(count / total * 100.0) else 0
  }

  function Hint(count: real, total: real): string {
    IntToString(Percent(count, total)) + "% Of Remaining Dishes"
  }

  /** `buildMultiChoiceQuestion`. */
  function BuildQuestion(b: BucketType, options: seq<Candidate>): Question {
    var values := Values(options);
    var total := Sum(Counts(options));
    Question(
      QuestionId(b, values),
      QuestionText(b),
      "category",
      values,
      seq(|values|, i requires 0 <= i < |values| => Label(values[i])),
      seq(|options|, i requires 0 <= i < |options| => Hint(options[i].count, total)),
      b)
  }

  function EntryWeight(e: Entry): real {
    e.weight
  }

  /** The entry `generateQuestion` draws, or none where it returns `null`. */
  function ChosenEntry(pool: seq<Dish>, excluded: set<string>, lastOptions: map<string, set<string>>, rnd: real): Option<Entry> {
    if |pool| <= 1 then None
    else
      var effective := Effective(pool);
      if effective == [] then None
      else
        var entries := Entries(effective);
        if entries == [] then None
        else Pick(Survivors(entries, excluded, lastOptions), EntryWeight, rnd)
  }

  /** `generateQuestion(pool, excluded, lastOptions)` with `random()`
      returning `rnd`. */
  function QuestionFor(pool: seq<Dish>, excluded: set<string>, lastOptions: map<string, set<string>>, rnd: real): Option<Question> {
    var chosen := ChosenEntry(pool, excluded, lastOptions, rnd);
    if chosen.Some? then Some(BuildQuestion(chosen.value.bucket, chosen.value.options)) else None
  }

  /** The candidates `generateQuestion` works with. */
  method CollectEffective(pool: seq<Dish>) returns (effective: seq<Candidate>)
    ensures effective == Effective(pool)
  {
    effective := CollectCandidates(pool);
    if |effective| == 0 {
      effective := CollectNameFallback(pool);
    }
  }

  /** The entries built from `Group`'s map are those of the candidates. */
  lemma EntriesFromGroups(cs: seq<Candidate>, types: seq<BucketType>, lists: map<BucketType, seq<Candidate>>)
    requires types == GroupTypes(cs)
    requires forall b :: b in lists <==> b in types
    requires forall b :: b in lists ==> lists[b] == OfType(cs, b)
    ensures FilterMap(types, EntryFromGroups(lists)) == Entries(cs)
  {
    forall i | 0 <= i < |types|
      ensures EntryFromGroups(lists)(types[i]) == EntryFor(cs)(types[i])
    {
      assert types[i] in lists;
    }
    FilterMapCongruence(types, EntryFromGroups(lists), EntryFor(cs));
  }

  /** The entry drawn by `generateQuestion`: groups, entries, both filters
      and the weighted pick. */
  method ChooseEntry(pool: seq<Dish>, excluded: set<string>, lastOptions: map<string, set<string>>, rnd: real)
    returns (selected: Option<Entry>)
    ensures selected == ChosenEntry(pool, excluded, lastOptions, rnd)
  {
    if |pool| <= 1 {
      return None;
    }
    var effective := CollectEffective(pool);
    if |effective| == 0 {
      return None;
    }
    var types, lists := Group(effective);
    EntriesFromGroups(effective, types, lists);
    var questionCandidates := FilterMap(types, EntryFromGroups(lists));
    if |questionCandidates| == 0 {
      return None;
    }
    var withoutRepeatIds := Filter(questionCandidates, NotAsked(excluded));
    var withoutOptionOverlap := Filter(withoutRepeatIds, Fresh(lastOptions));
    selected := WeightedPick(withoutOptionOverlap, EntryWeight, rnd);
  }

  /** `generateQuestion`: the drawn entry made into a question. */
  method GenerateQuestion(pool: seq<Dish>, excluded: set<string>, lastOptions: map<string, set<string>>, rnd: real)
    returns (q: Option<Question>)
    ensures q == QuestionFor(pool, excluded, lastOptions, rnd)
  {
    var selected := ChooseEntry(pool, excluded, lastOptions, rnd);
    if selected.None? {
      return None;
    }
    q := Some(BuildQuestion(selected.value.bucket, selected.value.options));
  }

  /** `generateDuel`: the first two dishes, when there are two. */
  function Duel(pool: seq<Dish>): (r: Option<(Dish, Dish)>)
    ensures r.Some? <==> |pool| >= 2
    ensures r.Some? ==> r.value.0 == pool[0] && r.value.1 == pool[1]
  {
    if |pool| < 2 then None else Some((pool[0], pool[1]))
  }

  // ---------------------------------------------------------------------
  // Properties of the entries and the question

  /** In a list sorted by descending weight, nothing after position `n`
      outweighs anything before it. */
  lemma SortedPrefixOutweighs(sorted: seq<Candidate>, n: nat)
    requires SortedDesc(sorted) && n <= |sorted|
    ensures forall c :: c in sorted[n..] ==> forall i :: 0 <= i < n ==> c.weight <= sorted[i].weight
  {
    forall c | c in sorted[n..]
      ensures forall i :: 0 <= i < n ==> c.weight <= sorted[i].weight
    {
      var j :| 0 <= j < |sorted| - n && sorted[n..][j] == c;
      assert sorted[n + j] == c;
    }
  }

  /** The four heaviest of a group come first, heaviest first, and no
      candidate left out outweighs one kept. */
  lemma TopOfGroup(list: seq<Candidate>)
    ensures SortedDesc(Take(SortDesc(list), MaxOptions))
    ensures multiset(Take(SortDesc(list), MaxOptions)) <= multiset(list)
    ensures forall c :: c in multiset(list) - multiset(Take(SortDesc(list), MaxOptions)) ==>
      forall i :: 0 <= i < |Take(SortDesc(list), MaxOptions)| ==> c.weight <= Take(SortDesc(list), MaxOptions)[i].weight
  {
    var sorted := SortDesc(list);
    SortDescFacts(list);
    var top := Take(sorted, MaxOptions);
    var rest := sorted[|top|..];
    SortedPrefixOutweighs(sorted, |top|);
    calc {
      multiset(list);
    ==
      multiset(sorted);
    == { assert sorted == top + rest; }
      multiset(top) + multiset(rest);
    }
  }

  lemma EntryIfFullFacts(b: BucketType, list: seq<Candidate>, e: Entry)
    requires EntryIfFull(b, list) == Some(e)
    ensures e.bucket == b && e == MakeEntry(b, list)
    ensures MinOptions <= |e.options| <= MaxOptions
  {
  }

  /** Every entry is the one its bucket's group makes, with three or four
      options. */
  lemma EntryMember(cs: seq<Candidate>, e: Entry)
    requires e in Entries(cs)
    ensures e.bucket in GroupTypes(cs)
    ensures e == MakeEntry(e.bucket, OfType(cs, e.bucket))
    ensures MinOptions <= |e.options| <= MaxOptions
  {
    var types := GroupTypes(cs);
    FilterMapMembers(types, EntryFor(cs));
    var k :| 0 <= k < |types| && EntryFor(cs)(types[k]) == Some(e);
    EntryIfFullFacts(types[k], OfType(cs, types[k]), e);
  }

  /** An entry's options are candidates of its bucket, heaviest first, and
      no candidate of the bucket left out outweighs one kept. */
  lemma EntryOptionsTop(cs: seq<Candidate>, e: Entry)
    requires e in Entries(cs)
    ensures SortedDesc(e.options)
    ensures forall i :: 0 <= i < |e.options| ==> e.options[i] in cs && e.options[i].bucket == e.bucket
    ensures forall c :: c in multiset(OfType(cs, e.bucket)) - multiset(e.options) ==>
      forall i :: 0 <= i < |e.options| ==> c.weight <= e.options[i].weight
  {
    EntryMember(cs, e);
    TopOfGroup(OfType(cs, e.bucket));
    OfTypeMembers(cs, e.bucket);
    forall i | 0 <= i < |e.options|
      ensures e.options[i] in cs && e.options[i].bucket == e.bucket
    {
      assert e.options[i] in multiset(e.options);
    }
  }

  /** No two entries share a bucket: one possible question per bucket. */
  lemma EntriesDistinctBuckets(cs: seq<Candidate>)
    ensures forall i, j :: 0 <= i < j < |Entries(cs)| ==> Entries(cs)[i].bucket != Entries(cs)[j].bucket
  {
    DedupeFacts(BucketsOf(cs));
    FilterMapKeysDistinct(GroupTypes(cs), EntryFor(cs), (e: Entry) => e.bucket);
  }

  /** An entry survives exactly when it was not asked before and shares no
      option with the last options of its bucket. */
  lemma SurvivorMember(entries: seq<Entry>, excluded: set<string>, lastOptions: map<string, set<string>>, e: Entry)
    ensures e in Survivors(entries, excluded, lastOptions) <==>
      e in entries && e.questionId !in excluded && NoOverlap(e, lastOptions)
  {
    FilterMembers(entries, NotAsked(excluded));
    FilterMembers(Filter(entries, NotAsked(excluded)), Fresh(lastOptions));
  }

  /** `generateQuestion` returns `null` exactly for a pool of at most one
      dish or when no entry survives the filters (which covers finding no
      candidates and building no entry). */
  lemma QuestionNone(pool: seq<Dish>, excluded: set<string>, lastOptions: map<string, set<string>>, rnd: real)
    ensures QuestionFor(pool, excluded, lastOptions, rnd).None? <==>
      |pool| <= 1 || Survivors(Entries(Effective(pool)), excluded, lastOptions) == []
  {
    if |pool| > 1 {
      var entries := Entries(Effective(pool));
      var survivors := Survivors(entries, excluded, lastOptions);
      PickFacts(survivors, EntryWeight, rnd);
      if Effective(pool) == [] {
        assert BucketsOf([]) == [];
      }
      if entries == [] {
        assert Filter(entries, NotAsked(excluded)) == [];
      }
    }
  }

  /** The entry drawn is a full entry of its bucket's group that survived
      the filters. */
  lemma ChosenFacts(pool: seq<Dish>, excluded: set<string>, lastOptions: map<string, set<string>>, rnd: real)
    requires ChosenEntry(pool, excluded, lastOptions, rnd).Some?
    ensures |pool| > 1
    ensures var e := ChosenEntry(pool, excluded, lastOptions, rnd).value;
      e in Entries(Effective(pool)) && e.questionId !in excluded && NoOverlap(e, lastOptions)
      && e == MakeEntry(e.bucket, OfType(Effective(pool), e.bucket))
      && MinOptions <= |e.options| <= MaxOptions
  {
    var e := ChosenEntry(pool, excluded, lastOptions, rnd).value;
    var survivors := Survivors(Entries(Effective(pool)), excluded, lastOptions);
    PickFacts(survivors, EntryWeight, rnd);
    SurvivorMember(Entries(Effective(pool)), excluded, lastOptions, e);
    EntryMember(Effective(pool), e);
  }

  lemma BuildQuestionFacts(b: BucketType, options: seq<Candidate>)
    ensures var q := BuildQuestion(b, options);
      q.bucket == b && q.options == Values(options)
      && |q.optionLabels| == |options| && |q.optionHints| == |options|
      && (forall i :: 0 <= i < |options| ==> q.optionLabels[i] == Label(q.options[i]))
      && q.attribute == "category" && q.text == QuestionText(b) && q.id == QuestionId(b, q.options)
  {
  }

  /** What a generated question looks like: three or four options, a label
      and a hint per option, an id not asked before made from the bucket and
      the values, and no option repeated from the last question of its
      bucket. */
  lemma QuestionShape(pool: seq<Dish>, excluded: set<string>, lastOptions: map<string, set<string>>, rnd: real, q: Question)
    requires QuestionFor(pool, excluded, lastOptions, rnd) == Some(q)
    ensures MinOptions <= |q.options| <= MaxOptions
    ensures |q.optionLabels| == |q.options| && |q.optionHints| == |q.options|
    ensures forall i :: 0 <= i < |q.options| ==> q.optionLabels[i] == Label(q.options[i])
    ensures q.attribute == "category" && q.text == QuestionText(q.bucket)
    ensures q.id == QuestionId(q.bucket, q.options) && q.id !in excluded
    ensures var key := TypeName(q.bucket);
      key !in lastOptions || lastOptions[key] == {}
      || forall i :: 0 <= i < |q.options| ==> q.options[i] !in lastOptions[key]
  {
    var e := ChosenEntry(pool, excluded, lastOptions, rnd).value;
    ChosenFacts(pool, excluded, lastOptions, rnd);
    BuildQuestionFacts(e.bucket, e.options);
  }

  /** The options of a generated question are the values of the heaviest
      candidates of its bucket, heaviest first (see `TopOfGroup`). */
  lemma QuestionOptionsTop(pool: seq<Dish>, excluded: set<string>, lastOptions: map<string, set<string>>, rnd: real, q: Question)
    requires QuestionFor(pool, excluded, lastOptions, rnd) == Some(q)
    ensures q.options == Values(Take(SortDesc(OfType(Effective(pool), q.bucket)), MaxOptions))
  {
    ChosenFacts(pool, excluded, lastOptions, rnd);
  }

  /** The split scores of mined candidates out of `total` dishes. */
  function Scores(cs: seq<Candidate>, total: nat): (r: seq<real>)
    requires total > 0
    ensures |r| == |cs|
    ensures forall i :: 0 <= i < |cs| ==> r[i] == SplitScore(cs[i].count / total as real)
  {
    seq(|cs|, i requires 0 <= i < |cs| => SplitScore(cs[i].count / total as real))
  }

  lemma MakeEntryWeight(b: BucketType, list: seq<Candidate>)
    ensures MakeEntry(b, list).weight == Scale(Sum(Weights(MakeEntry(b, list).options)), TypePriority(b))
  {
  }

  lemma WeighIsScale(b: BucketType, count: real, total: nat)
    requires total > 0
    ensures Weigh(b, count, total) == Scale(SplitScore(count / total as real), TypePriority(b))
  {
  }

  lemma MinedWeights(pool: seq<Dish>, b: BucketType, options: seq<Candidate>)
    requires |pool| > 0
    requires forall i :: 0 <= i < |options| ==> options[i] in Candidates(pool) && options[i].bucket == b
    ensures Sum(Weights(options)) == Scale(Sum(Scores(options, |pool|)), TypePriority(b))
  {
    forall i | 0 <= i < |options|
      ensures Weights(options)[i] == Scale(Scores(options, |pool|)[i], TypePriority(b))
    {
      CandidateFacts(pool, options[i]);
      WeighIsScale(b, options[i].count, |pool|);
    }
    SumScaled(Weights(options), Scores(options, |pool|), TypePriority(b));
  }

  /** An entry of mined candidates weighs the sum of its options' split
      scores times its bucket's priority twice over: once in each
      candidate's weight and once more for the entry. */
  lemma MinedEntryWeight(pool: seq<Dish>, e: Entry)
    requires e in Entries(Candidates(pool))
    ensures |pool| > 0
    ensures e.weight == Scale(Scale(Sum(Scores(e.options, |pool|)), TypePriority(e.bucket)), TypePriority(e.bucket))
  {
    var cs := Candidates(pool);
    EntryMember(cs, e);
    EntryOptionsTop(cs, e);
    CandidateFacts(pool, e.options[0]);
    MinedWeights(pool, e.bucket, e.options);
    MakeEntryWeight(e.bucket, OfType(cs, e.bucket));
  }

  /** Every candidate in effect has a value and a positive count. */
  lemma EffectivePositive(pool: seq<Dish>, c: Candidate)
    requires c in Effective(pool)
    ensures c.value != "" && c.count > 0.0
  {
    if Candidates(pool) != [] {
      CandidateFacts(pool, c);
      PositiveShare(c.count, |pool|, 0.07);
    } else {
      FallbackFacts(pool, c);
      FallbackValueIsToken(pool, c);
      PositiveShare(c.count, |pool|, 0.15);
    }
  }

  lemma PositiveShare(count: real, total: nat, least: real)
    requires total > 0 && least > 0.0 && least <= count / total as real
    ensures count > 0.0
  {
  }

  /** A share of at most the whole rounds to a percentage in [0, 100]. */
  lemma PercentRange(count: real, total: real)
    requires 0.0 <= count <= total
    ensures 0 <= Percent(count, total) <= 100
  {
    if total > 0.0 {
      assert count / total <= 1.0;
    }
  }

  /** Each hint of a question built from candidates of non-negative counts
      gives that option's share of the summed counts as a percentage in
      [0, 100]. */
  lemma HintsInRange(b: BucketType, options: seq<Candidate>)
    requires forall i :: 0 <= i < |options| ==> options[i].count >= 0.0
    ensures var q := BuildQuestion(b, options);
      forall i :: 0 <= i < |options| ==>
        0 <= Percent(options[i].count, Sum(Counts(options))) <= 100
        && q.optionHints[i] == IntToString(Percent(options[i].count, Sum(Counts(options)))) + "% Of Remaining Dishes"
  {
    forall i | 0 <= i < |options|
      ensures 0 <= Percent(options[i].count, Sum(Counts(options))) <= 100
    {
      SumAtLeast(Counts(options), i);
      PercentRange(options[i].count, Sum(Counts(options)));
    }
  }

  /** For mined candidates of a list bucket, the count behind each option's
      hint is the summed weight of the dishes the question's filter keeps
      for that option. */
  lemma OptionCountIsKept(pool: seq<Dish>, e: Entry, i: nat)
    requires e in Entries(Candidates(pool)) && IsListBucket(e.bucket) && i < |e.options|
    ensures e.options[i].count == MatchWeight(pool, e.bucket, e.options[i].value)
  {
    EntryOptionsTop(Candidates(pool), e);
    CandidateFacts(pool, e.options[i]);
    ListCountIsMatches(pool, e.bucket, e.options[i].value);
  }
}
