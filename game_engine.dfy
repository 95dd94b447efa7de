/** The game's state machine (`useGameEngine`) without React: one object
    whose fields are the hook's state and refs, and one method per handler,
    each an atomic transition. Every method is specified by a function on
    an `EngineState` snapshot; the bracket's invariants are proved about
    those functions. Randomness comes in as parameters: the roll `rnd` of
    `generateQuestion` and the swap indices `swaps` of `shuffle`. */
module GameEngine {
  import opened Wrappers
  import opened Text
  import opened Collections
  import opened DishTypes
  import opened GameLogic
  import opened GameQuestions

  const PoolSizeForDuel: nat := 8
  const QuestionTypePrefix: string := "multi-"
  const TournamentEntryCap: nat := 34
  const QuadMinPoolSize: nat := 4

  datatype Phase = Loading | Narrowing | Duel | Result

  // ---------------------------------------------------------------------
  // Helpers

  /** `questionTypeFromId`: the second `-`-separated part of an id that
      starts with `multi-` and has at least three parts. */
  function QuestionTypeFromId(id: string): Option<string> {
    if !(QuestionTypePrefix <= id) then None
    else
      var parts := Split(id, '-');
      if |parts| >= 3 then Some(parts[1]) else None
  }

  lemma NoDashInTypeName(b: BucketType)
    ensures '-' !in TypeName(b)
  {
  }

  /** An id `multi-<name>-<rest>` with no dash in `name` has type `name`. */
  lemma TypeOfDashedId(name: string, rest: string)
    requires '-' !in name
    ensures QuestionTypeFromId("multi-" + name + "-" + rest) == Some(name)
  {
    var id := "multi-" + name + "-" + rest;
    assert id == "multi" + ['-'] + (name + ['-'] + rest);
    assert id[..|QuestionTypePrefix|] == QuestionTypePrefix;
    SplitConcat("multi", name + ['-'] + rest, '-');
    SplitConcat(name, rest, '-');
  }

  /** The id of a generated question gives back its bucket's name, the key
      `generateQuestion` looks the last options up by. */
  lemma QuestionTypeOfId(b: BucketType, values: seq<string>)
    ensures QuestionTypeFromId(QuestionId(b, values)) == Some(TypeName(b))
  {
    NoDashInTypeName(b);
    TypeOfDashedId(TypeName(b), Join(values, "|"));
  }

  /** Ids without the `multi-` prefix have no question type. */
  lemma QuestionTypeNeedsPrefix(id: string)
    requires QuestionTypeFromId(id).Some?
    ensures QuestionTypePrefix <= id && |Split(id, '-')| >= 3
    ensures QuestionTypeFromId(id).value == Split(id, '-')[1]
    ensures '-' !in QuestionTypeFromId(id).value
  {
  }

  /** `new Set(options.map(normalizeQuestionOption))`; the hook's
      `normalizeQuestionOption` is `normalize` of the game logic. */
  function OptionSet(options: seq<string>): (r: set<string>)
    ensures forall i :: 0 <= i < |options| ==> Normalize(options[i]) in r
    ensures forall v :: v in r ==> exists i :: 0 <= i < |options| && v == Normalize(options[i])
  {
    set i | 0 <= i < |options| :: Normalize(options[i])
  }

  // ---------------------------------------------------------------------
  // Shuffle

  /** `shuffle`: copies the items and swaps cells from the back; the cell
      swapped with cell `i` is `swaps(i)`, the draw of
      `Math.floor(Math.random() * (i + 1))`. */
  method Shuffle<T(0)>(items: seq<T>, swaps: nat -> nat) returns (shuffled: seq<T>)
    requires ValidSwaps(swaps)
    ensures shuffled == Shuffled(items, swaps)
  {
    if |items| == 0 {
      return [];
    }
    var copy := new T[|items|](k requires 0 <= k < |items| => items[k]);
    var i := copy.Length - 1;
    assert copy[..] == items;
    while i > 0
      invariant 0 <= i < copy.Length
      invariant ShuffleDown(copy[..], swaps, i) == Shuffled(items, swaps)
    {
      var j := swaps(i);
      ghost var before := copy[..];
      copy[i], copy[j] := copy[j], copy[i];
      assert copy[..] == Swap(before, i, j);
      i := i - 1;
    }
    shuffled := copy[..];
  }

  /** The contenders a tournament starts with: all of them, or the first
      34 of a shuffle when there are more. */
  function Seeded(contenders: seq<Dish>, swaps: nat -> nat): seq<Dish>
    requires ValidSwaps(swaps)
  {
    if |contenders| > TournamentEntryCap then Shuffled(contenders, swaps)[..TournamentEntryCap] else contenders
  }

  /** More than 34 contenders are cut to exactly 34 of them, none taken
      twice; otherwise all enter. */
  lemma SeededFacts(contenders: seq<Dish>, swaps: nat -> nat)
    requires ValidSwaps(swaps)
    ensures |contenders| > TournamentEntryCap ==>
      |Seeded(contenders, swaps)| == TournamentEntryCap && multiset(Seeded(contenders, swaps)) <= multiset(contenders)
    ensures |contenders| <= TournamentEntryCap ==> Seeded(contenders, swaps) == contenders
  {
    if |contenders| > TournamentEntryCap {
      var shuffled := Shuffled(contenders, swaps);
      ShuffledPermutes(contenders, swaps);
      assert shuffled == shuffled[..TournamentEntryCap] + shuffled[TournamentEntryCap..];
    }
  }

  // ---------------------------------------------------------------------
  // The state and its transitions

  datatype EngineState = EngineState(
    pool: seq<Dish>,
    phase: Phase,
    currentQuestion: Option<Question>,
    winner: Option<Dish>,
    error: Option<string>,
    currentRoundQueue: seq<Dish>,
    nextRoundQueue: seq<Dish>,
    askedIds: set<string>,
    lastOptions: map<string, set<string>>)

  /** The hook's initial state. */
  const Initial := EngineState([], Loading, None, None, None, [], [], {}, map[])

  /** `applyTournamentProgress`: a lone leftover gets a bye into the next
      round; a single dish left wins; otherwise the next round begins. */
  function ApplyProgress(s: EngineState, remaining: seq<Dish>, updatedNext: seq<Dish>): EngineState {
    if |remaining| > 1 then
      s.(currentRoundQueue := remaining, nextRoundQueue := updatedNext, pool := remaining + updatedNext)
    else
      var nextWithBye := if |remaining| == 1 then updatedNext + [remaining[0]] else updatedNext;
      if |nextWithBye| == 1 then
        s.(winner := Some(nextWithBye[0]), pool := nextWithBye, currentRoundQueue := [], nextRoundQueue := [],
           currentQuestion := None, phase := Result)
      else
        s.(currentRoundQueue := nextWithBye, nextRoundQueue := [], pool := nextWithBye)
  }

  /** `startTournament`. */
  function StartTournamentSpec(s: EngineState, contenders: seq<Dish>, swaps: nat -> nat): EngineState
    requires ValidSwaps(swaps)
  {
    var seeded := Seeded(contenders, swaps);
    var cleared := s.(currentQuestion := None);
    if |seeded| == 0 then cleared.(error := Some("No Dishes Available For Duels."))
    else if |seeded| == 1 then
      cleared.(pool := seeded, winner := Some(seeded[0]), currentRoundQueue := [], nextRoundQueue := [], phase := Result)
    else cleared.(pool := seeded, currentRoundQueue := seeded, nextRoundQueue := [], phase := Duel)
  }

  /** What `prepareNarrowingPhase` does with a question it generated:
      remember its id and its normalised options, and ask it. */
  function AskSpec(s: EngineState, q: Question): EngineState {
    var questionType := QuestionTypeFromId(q.id);
    var last := if questionType.Some? then s.lastOptions[questionType.value := OptionSet(q.options)] else s.lastOptions;
    s.(askedIds := s.askedIds + {q.id}, lastOptions := last, currentRoundQueue := [], nextRoundQueue := [],
       phase := Narrowing, currentQuestion := Some(q))
  }

  /** `prepareNarrowingPhase` once the question is generated (`next`). */
  function NarrowSpec(s: EngineState, nextPool: seq<Dish>, next: Option<Question>, swaps: nat -> nat): EngineState
    requires ValidSwaps(swaps)
  {
    if next.None? then StartTournamentSpec(s, nextPool, swaps) else AskSpec(s, next.value)
  }

  /** `prepareNarrowingPhase`: a small pool, or one no question splits,
      goes to the tournament; otherwise the question is recorded and asked. */
  function PrepareSpec(s: EngineState, nextPool: seq<Dish>, rnd: real, swaps: nat -> nat): EngineState
    requires ValidSwaps(swaps)
  {
    if |nextPool| <= PoolSizeForDuel then StartTournamentSpec(s, nextPool, swaps)
    else NarrowSpec(s, nextPool, QuestionFor(nextPool, s.askedIds, s.lastOptions, rnd), swaps)
  }

  /** `init` with the outcome of `fetchDishes`: `None` when it throws. */
  function InitSpec(fetched: Option<seq<Dish>>, rnd: real, swaps: nat -> nat): EngineState
    requires ValidSwaps(swaps)
  {
    if fetched.None? then Initial.(error := Some("Failed To Load Dishes."))
    else if |fetched.value| == 0 then Initial.(error := Some("No Dishes Found. Please Try Again."))
    else PrepareSpec(Initial.(pool := fetched.value), fetched.value, rnd, swaps)
  }

  /** The question's filter for one answer. */
  function KeptBy(q: Question, answer: string): Dish -> bool {
    d => Keeps(q, d, answer)
  }

  /** `answerQuestion`. */
  function AnswerSpec(s: EngineState, answer: string, rnd: real, swaps: nat -> nat): EngineState
    requires ValidSwaps(swaps)
  {
    if s.currentQuestion.None? then s
    else
      var newPool := Filter(s.pool, KeptBy(s.currentQuestion.value, answer));
      if |newPool| == 0 then s.(currentQuestion := None)
      else PrepareSpec(s.(pool := newPool), newPool, rnd, swaps)
  }

  /** The dish recorded for a pick: the one picked when its id is among
      the group's, else the group's first. */
  function Coerce(picked: Dish, group: seq<Dish>): Dish
    requires |group| > 0
  {
    if exists k :: 0 <= k < |group| && group[k].id == picked.id then picked else group[0]
  }

  /** `resolveDuel`. */
  function ResolveDuelSpec(s: EngineState, winningDish: Dish): EngineState {
    if s.phase != Duel || |s.currentRoundQueue| < 2 then s
    else
      var q := s.currentRoundQueue;
      ApplyProgress(s, q[2..], s.nextRoundQueue + [Coerce(winningDish, q[..2])])
  }

  /** `resolveQuad`. */
  function ResolveQuadSpec(s: EngineState, winningDish: Dish): EngineState {
    if s.phase != Duel || |s.currentRoundQueue| < 4 then s
    else
      var q := s.currentRoundQueue;
      ApplyProgress(s, q[4..], s.nextRoundQueue + [Coerce(winningDish, q[..4])])
  }

  /** `currentQuad`. */
  function CurrentQuad(s: EngineState): Option<seq<Dish>> {
    if s.phase == Duel && |s.currentRoundQueue| >= QuadMinPoolSize then Some(s.currentRoundQueue[..4]) else None
  }

  /** `currentDuel`. */
  function CurrentDuel(s: EngineState): Option<seq<Dish>> {
    if s.phase == Duel && |s.currentRoundQueue| >= 2 && |s.currentRoundQueue| < QuadMinPoolSize
    then Some(s.currentRoundQueue[..2]) else None
  }

  // ---------------------------------------------------------------------
  // The engine

  class Engine {
    var pool: seq<Dish>
    var phase: Phase
    var currentQuestion: Option<Question>
    var winner: Option<Dish>
    var error: Option<string>
    var currentRoundQueue: seq<Dish>
    var nextRoundQueue: seq<Dish>
    var askedIds: set<string>
    var lastOptions: map<string, set<string>>

    function State(): EngineState
      reads this
    {
      EngineState(pool, phase, currentQuestion, winner, error, currentRoundQueue, nextRoundQueue, askedIds, lastOptions)
    }

    constructor()
      ensures State() == Initial
    {
      pool := [];
      phase := Loading;
      currentQuestion := None;
      winner := None;
      error := None;
      currentRoundQueue := [];
      nextRoundQueue := [];
      askedIds := {};
      lastOptions := map[];
    }

    method ApplyTournamentProgress(remaining: seq<Dish>, updatedNext: seq<Dish>)
      modifies this
      ensures State() == ApplyProgress(old(State()), remaining, updatedNext)
    {
      if |remaining| > 1 {
        currentRoundQueue := remaining;
        nextRoundQueue := updatedNext;
        pool := remaining + updatedNext;
        return;
      }
      var nextWithBye := if |remaining| == 1 then updatedNext + [remaining[0]] else updatedNext;
      if |nextWithBye| == 1 {
        winner := Some(nextWithBye[0]);
        pool := nextWithBye;
        currentRoundQueue := [];
        nextRoundQueue := [];
        currentQuestion := None;
        phase := Result;
        return;
      }
      currentRoundQueue := nextWithBye;
      nextRoundQueue := [];
      pool := nextWithBye;
    }

    method StartTournament(contenders: seq<Dish>, swaps: nat -> nat)
      requires ValidSwaps(swaps)
      modifies this
      ensures State() == StartTournamentSpec(old(State()), contenders, swaps)
    {
      var seededContenders := contenders;
      if |contenders| > TournamentEntryCap {
        var shuffled := Shuffle(contenders, swaps);
        seededContenders := shuffled[..TournamentEntryCap];
      }
      currentQuestion := None;
      if |seededContenders| == 0 {
        error := Some("No Dishes Available For Duels.");
        return;
      }
      if |seededContenders| == 1 {
        pool := seededContenders;
        winner := Some(seededContenders[0]);
        currentRoundQueue := [];
        nextRoundQueue := [];
        phase := Result;
        return;
      }
      pool := seededContenders;
      currentRoundQueue := seededContenders;
      nextRoundQueue := [];
      phase := Duel;
    }

    method PrepareNarrowingPhase(nextPool: seq<Dish>, rnd: real, swaps: nat -> nat)
      requires ValidSwaps(swaps)
      modifies this
      ensures State() == PrepareSpec(old(State()), nextPool, rnd, swaps)
    {
      if |nextPool| <= PoolSizeForDuel {
        StartTournament(nextPool, swaps);
        return;
      }
      var nextQuestion := GenerateQuestion(nextPool, askedIds, lastOptions, rnd);
      if nextQuestion.None? {
        StartTournament(nextPool, swaps);
        return;
      }
      Ask(nextQuestion.value);
    }

    /** The bookkeeping `prepareNarrowingPhase` does for a new question. */
    method Ask(q: Question)
      modifies this
      ensures State() == AskSpec(old(State()), q)
    {
      askedIds := askedIds + {q.id};
      var questionType := QuestionTypeFromId(q.id);
      if questionType.Some? {
        lastOptions := lastOptions[questionType.value := OptionSet(q.options)];
      }
      currentRoundQueue := [];
      nextRoundQueue := [];
      phase := Narrowing;
      currentQuestion := Some(q);
    }

    /** The reset `init` starts with. */
    method Reset()
      modifies this
      ensures State() == Initial
    {
      phase := Loading;
      error := None;
      pool := [];
      winner := None;
      currentQuestion := None;
      currentRoundQueue := [];
      nextRoundQueue := [];
      askedIds := {};
      lastOptions := map[];
    }

    /** `init`, with the outcome of `fetchDishes` passed in. */
    method Init(fetched: Option<seq<Dish>>, rnd: real, swaps: nat -> nat)
      requires ValidSwaps(swaps)
      modifies this
      ensures State() == InitSpec(fetched, rnd, swaps)
    {
      Reset();
      if fetched.None? {
        error := Some("Failed To Load Dishes.");
        return;
      }
      var dishes := fetched.value;
      if |dishes| == 0 {
        error := Some("No Dishes Found. Please Try Again.");
        return;
      }
      pool := dishes;
      PrepareNarrowingPhase(dishes, rnd, swaps);
    }

    method AnswerQuestion(answer: string, rnd: real, swaps: nat -> nat)
      requires ValidSwaps(swaps)
      modifies this
      ensures State() == AnswerSpec(old(State()), answer, rnd, swaps)
    {
      if currentQuestion.None? {
        return;
      }
      var newPool := Filter(pool, KeptBy(currentQuestion.value, answer));
      if |newPool| == 0 {
        currentQuestion := None;
        return;
      }
      pool := newPool;
      PrepareNarrowingPhase(newPool, rnd, swaps);
    }

    method ResolveDuel(winningDish: Dish)
      modifies this
      ensures State() == ResolveDuelSpec(old(State()), winningDish)
    {
      if phase != Duel || |currentRoundQueue| < 2 {
        return;
      }
      var dishA := currentRoundQueue[0];
      var dishB := currentRoundQueue[1];
      var remaining := currentRoundQueue[2..];
      var winnerFromPair := if winningDish.id == dishA.id || winningDish.id == dishB.id then winningDish else dishA;
      assert winnerFromPair == Coerce(winningDish, currentRoundQueue[..2]);
      ApplyTournamentProgress(remaining, nextRoundQueue + [winnerFromPair]);
    }

    method ResolveQuad(winningDish: Dish)
      modifies this
      ensures State() == ResolveQuadSpec(old(State()), winningDish)
    {
      if phase != Duel || |currentRoundQueue| < 4 {
        return;
      }
      var frontFour := currentRoundQueue[..4];
      var remaining := currentRoundQueue[4..];
      var winnerFromQuad := if exists k :: 0 <= k < 4 && frontFour[k].id == winningDish.id then winningDish else frontFour[0];
      ApplyTournamentProgress(remaining, nextRoundQueue + [winnerFromQuad]);
    }
  }

  // ---------------------------------------------------------------------
  // Properties of the transitions

  /** `startTournament` by the number of contenders: none is an error that
      leaves the phase alone; one wins at once; two to 34 all enter the
      first round; more are cut to 34 of them. */
  lemma StartTournamentCases(s: EngineState, contenders: seq<Dish>, swaps: nat -> nat)
    requires ValidSwaps(swaps)
    ensures var r := StartTournamentSpec(s, contenders, swaps);
      r.currentQuestion.None?
      && (|contenders| == 0 ==>
            r.error == Some("No Dishes Available For Duels.") && r.phase == s.phase && r.pool == s.pool
            && r.winner == s.winner)
      && (|contenders| == 1 ==>
            r.phase == Result && r.winner == Some(contenders[0]) && r.pool == contenders
            && r.currentRoundQueue == [] && r.nextRoundQueue == [])
      && (2 <= |contenders| <= TournamentEntryCap ==>
            r.phase == Duel && r.pool == contenders && r.currentRoundQueue == contenders && r.nextRoundQueue == [])
      && (|contenders| > TournamentEntryCap ==>
            r.phase == Duel && |r.currentRoundQueue| == TournamentEntryCap && r.nextRoundQueue == []
            && r.pool == r.currentRoundQueue && multiset(r.currentRoundQueue) <= multiset(contenders))
  {
    SeededFacts(contenders, swaps);
  }

  /** The ids of some dishes. */
  function IdsOf(dishes: seq<Dish>): (r: set<string>)
    ensures forall d :: d in dishes ==> d.id in r
  {
    set d | d in dishes :: d.id
  }

  /** The bracket's invariant, for the ids `ids` of the seeded contenders:
      in the duel phase the current round holds two dishes or more and the
      pool is the two rounds together; every queued dish carries a seeded
      id; in the result phase there is a winner with a seeded id. */
  ghost predicate Bracket(s: EngineState, ids: set<string>) {
    (s.phase == Duel ==> |s.currentRoundQueue| >= 2 && s.pool == s.currentRoundQueue + s.nextRoundQueue)
    && (forall d :: d in s.currentRoundQueue ==> d.id in ids)
    && (forall d :: d in s.nextRoundQueue ==> d.id in ids)
    && (s.phase == Result ==> s.winner.Some? && s.winner.value.id in ids)
  }

  /** A tournament started on some contenders sets up the bracket over
      their ids. */
  lemma StartEstablishes(s: EngineState, contenders: seq<Dish>, swaps: nat -> nat)
    requires ValidSwaps(swaps) && |contenders| > 0
    ensures var r := StartTournamentSpec(s, contenders, swaps);
      Bracket(r, IdsOf(contenders)) && (r.phase == Duel || r.phase == Result)
  {
    var r := StartTournamentSpec(s, contenders, swaps);
    SeededFacts(contenders, swaps);
    forall d | d in r.currentRoundQueue
      ensures d.id in IdsOf(contenders)
    {
      assert d in multiset(r.currentRoundQueue);
    }
  }

  /** The dish recorded for a pick carries the id of one of the group. */
  lemma CoerceFacts(picked: Dish, group: seq<Dish>)
    requires |group| > 0
    ensures exists k :: 0 <= k < |group| && Coerce(picked, group).id == group[k].id
    ensures Coerce(picked, group) == picked <==>
      (exists k :: 0 <= k < |group| && group[k].id == picked.id) || picked == group[0]
  {
    if !(exists k :: 0 <= k < |group| && group[k].id == picked.id) {
      assert Coerce(picked, group).id == group[0].id;
    }
  }

  /** `applyTournamentProgress` after a pick keeps the bracket: the pool is
      the dishes still in play, the phase stays in the duel or becomes the
      result, and whoever wins is a seeded contender. */
  lemma ApplyProgressKeeps(s: EngineState, remaining: seq<Dish>, updatedNext: seq<Dish>, ids: set<string>)
    requires s.phase == Duel && |updatedNext| > 0
    requires forall d :: d in remaining ==> d.id in ids
    requires forall d :: d in updatedNext ==> d.id in ids
    requires s.winner.None? || s.winner.value.id in ids
    ensures var r := ApplyProgress(s, remaining, updatedNext);
      Bracket(r, ids) && (r.phase == Duel || r.phase == Result)
      && |r.pool| == |remaining| + |updatedNext|
  {
    if |remaining| <= 1 {
      var nextWithBye := if |remaining| == 1 then updatedNext + [remaining[0]] else updatedNext;
      assert forall d :: d in nextWithBye ==> d.id in ids;
      if |nextWithBye| == 1 {
        assert nextWithBye[0] in nextWithBye;
      }
    }
  }

  /** A duel pick keeps the bracket and takes exactly one dish out of play;
      outside the duel phase it changes nothing. */
  lemma ResolveDuelStep(s: EngineState, winningDish: Dish, ids: set<string>)
    requires Bracket(s, ids) && (s.winner.None? || s.winner.value.id in ids)
    ensures var r := ResolveDuelSpec(s, winningDish);
      Bracket(r, ids)
      && (s.phase != Duel ==> r == s)
      && (s.phase == Duel ==> (r.phase == Duel || r.phase == Result) && |r.pool| == |s.pool| - 1)
  {
    if s.phase == Duel {
      var q := s.currentRoundQueue;
      var w := Coerce(winningDish, q[..2]);
      CoerceFacts(winningDish, q[..2]);
      assert w.id in ids by {
        var k :| 0 <= k < 2 && w.id == q[..2][k].id;
        assert q[k] in q;
      }
      ApplyProgressKeeps(s, q[2..], s.nextRoundQueue + [w], ids);
    }
  }

  /** A four-way pick keeps the bracket and takes exactly three dishes out
      of play; without four dishes queued in the duel phase it changes
      nothing. */
  lemma ResolveQuadStep(s: EngineState, winningDish: Dish, ids: set<string>)
    requires Bracket(s, ids) && (s.winner.None? || s.winner.value.id in ids)
    ensures var r := ResolveQuadSpec(s, winningDish);
      Bracket(r, ids)
      && (s.phase != Duel || |s.currentRoundQueue| < QuadMinPoolSize ==> r == s)
      && (s.phase == Duel && |s.currentRoundQueue| >= QuadMinPoolSize ==>
            (r.phase == Duel || r.phase == Result) && |r.pool| == |s.pool| - 3)
  {
    if s.phase == Duel && |s.currentRoundQueue| >= 4 {
      var q := s.currentRoundQueue;
      var w := Coerce(winningDish, q[..4]);
      CoerceFacts(winningDish, q[..4]);
      assert w.id in ids by {
        var k :| 0 <= k < 4 && w.id == q[..4][k].id;
        assert q[k] in q;
      }
      ApplyProgressKeeps(s, q[4..], s.nextRoundQueue + [w], ids);
    }
  }

  /** The matchup on screen: the four-way one when `currentQuad` is set,
      else the duel. */
  lemma CurrentViews(s: EngineState, ids: set<string>)
    ensures CurrentQuad(s).Some? <==> s.phase == Duel && |s.currentRoundQueue| >= QuadMinPoolSize
    ensures CurrentDuel(s).Some? <==> s.phase == Duel && 2 <= |s.currentRoundQueue| < QuadMinPoolSize
    ensures !(CurrentQuad(s).Some? && CurrentDuel(s).Some?)
    ensures CurrentQuad(s).Some? ==> CurrentQuad(s).value == s.currentRoundQueue[..4]
    ensures CurrentDuel(s).Some? ==> CurrentDuel(s).value == s.currentRoundQueue[..2]
    ensures Bracket(s, ids) && s.phase == Duel ==> CurrentQuad(s).Some? || CurrentDuel(s).Some?
  {
  }

  /** The pick the screen on show sends: `resolveQuad` under the four-way
      view, `resolveDuel` otherwise. */
  function Choose(s: EngineState, winningDish: Dish): EngineState {
    if CurrentQuad(s).Some? then ResolveQuadSpec(s, winningDish) else ResolveDuelSpec(s, winningDish)
  }

  /** A sequence of picks. */
  function Play(s: EngineState, picks: seq<Dish>): EngineState
    decreases |picks|
  {
    if picks == [] then s else Play(Choose(s, picks[0]), picks[1..])
  }

  lemma ChooseStep(s: EngineState, winningDish: Dish, ids: set<string>)
    requires Bracket(s, ids) && (s.winner.None? || s.winner.value.id in ids)
    requires s.phase == Duel || s.phase == Result
    ensures var r := Choose(s, winningDish);
      Bracket(r, ids) && (r.winner.None? || r.winner.value.id in ids)
      && (r.phase == Duel || r.phase == Result)
      && (s.phase == Result ==> r == s)
      && (s.phase == Duel ==> |r.pool| < |s.pool|)
  {
    if CurrentQuad(s).Some? {
      ResolveQuadStep(s, winningDish, ids);
    } else {
      ResolveDuelStep(s, winningDish, ids);
    }
  }

  /** Play terminates: from the bracket's duel phase, one pick fewer than
      the dishes in play always reaches the result, and the winner is a
      seeded contender. */
  lemma {:induction false} PlayReachesResult(s: EngineState, picks: seq<Dish>, ids: set<string>)
    requires Bracket(s, ids) && (s.winner.None? || s.winner.value.id in ids)
    requires s.phase == Duel || s.phase == Result
    requires s.phase == Duel ==> |picks| >= |s.pool| - 1
    ensures var r := Play(s, picks);
      r.phase == Result && r.winner.Some? && r.winner.value.id in ids
    decreases |picks|
  {
    if picks != [] {
      ChooseStep(s, picks[0], ids);
      PlayReachesResult(Choose(s, picks[0]), picks[1..], ids);
    }
  }

  /** `prepareNarrowingPhase`: a pool of at most eight dishes, or one no
      question splits, goes to the tournament. Otherwise the question's id
      (new) joins the asked ids, its bucket's last options become its
      options trimmed and lower-cased, and the narrowing phase asks it on
      the same pool. */
  lemma PrepareFacts(s: EngineState, nextPool: seq<Dish>, rnd: real, swaps: nat -> nat)
    requires ValidSwaps(swaps)
    ensures var r := PrepareSpec(s, nextPool, rnd, swaps);
      var next := QuestionFor(nextPool, s.askedIds, s.lastOptions, rnd);
      (|nextPool| <= PoolSizeForDuel || next.None? ==> r == StartTournamentSpec(s, nextPool, swaps))
      && (|nextPool| > PoolSizeForDuel && next.Some? ==>
            next.value.id !in s.askedIds
            && r.askedIds == s.askedIds + {next.value.id}
            && r.lastOptions == s.lastOptions[TypeName(next.value.bucket) := OptionSet(next.value.options)]
            && r.phase == Narrowing && r.currentQuestion == next && r.pool == s.pool
            && r.currentRoundQueue == [] && r.nextRoundQueue == [])
  {
    var next := QuestionFor(nextPool, s.askedIds, s.lastOptions, rnd);
    if |nextPool| > PoolSizeForDuel && next.Some? {
      QuestionShape(nextPool, s.askedIds, s.lastOptions, rnd, next.value);
      QuestionTypeOfId(next.value.bucket, next.value.options);
    }
  }

  /** After `prepareNarrowingPhase` on its own (non-empty) pool, the pool
      holds only dishes that were in it. */
  lemma PreparePool(s: EngineState, nextPool: seq<Dish>, rnd: real, swaps: nat -> nat)
    requires ValidSwaps(swaps) && |nextPool| > 0 && s.pool == nextPool
    ensures var r := PrepareSpec(s, nextPool, rnd, swaps);
      multiset(r.pool) <= multiset(nextPool) && r.error == s.error
  {
    StartPool(s, nextPool, swaps);
    if |nextPool| > PoolSizeForDuel {
      var next := QuestionFor(nextPool, s.askedIds, s.lastOptions, rnd);
      assert PrepareSpec(s, nextPool, rnd, swaps) == NarrowSpec(s, nextPool, next, swaps);
    }
  }

  lemma StartPool(s: EngineState, contenders: seq<Dish>, swaps: nat -> nat)
    requires ValidSwaps(swaps) && |contenders| > 0
    ensures var r := StartTournamentSpec(s, contenders, swaps);
      multiset(r.pool) <= multiset(contenders) && r.error == s.error
  {
    SeededFacts(contenders, swaps);
  }

  /** `answerQuestion`: without a question nothing happens. Otherwise the
      dishes kept are, in order, exactly those of the pool the question's
      filter accepts for the answer; when none is, only the question is
      cleared (the phase stays as it was); else narrowing goes on with a
      pool drawn from them. */
  lemma AnswerFacts(s: EngineState, answer: string, rnd: real, swaps: nat -> nat)
    requires ValidSwaps(swaps)
    ensures var r := AnswerSpec(s, answer, rnd, swaps);
      (s.currentQuestion.None? ==> r == s)
      && (s.currentQuestion.Some? ==>
            var kept := Filter(s.pool, KeptBy(s.currentQuestion.value, answer));
            IsSubsequence(kept, s.pool)
            && (forall d :: d in kept <==> d in s.pool && Keeps(s.currentQuestion.value, d, answer))
            && (kept == [] ==> r == s.(currentQuestion := None))
            && (kept != [] ==> multiset(r.pool) <= multiset(kept) && r.error == s.error))
  {
    if s.currentQuestion.Some? {
      var q := s.currentQuestion.value;
      var kept := Filter(s.pool, KeptBy(q, answer));
      FilterSubsequence(s.pool, KeptBy(q, answer));
      FilterMembers(s.pool, KeptBy(q, answer));
      if kept != [] {
        PreparePool(s.(pool := kept), kept, rnd, swaps);
      }
    }
  }

  /** `init`: a failed load and an empty load each set their error and
      leave everything else reset; otherwise the game goes on, without an
      error, with dishes from the load. */
  lemma InitFacts(fetched: Option<seq<Dish>>, rnd: real, swaps: nat -> nat)
    requires ValidSwaps(swaps)
    ensures var r := InitSpec(fetched, rnd, swaps);
      (fetched.None? ==> r == Initial.(error := Some("Failed To Load Dishes.")))
      && (fetched == Some([]) ==> r == Initial.(error := Some("No Dishes Found. Please Try Again.")))
      && (fetched.Some? && fetched.value != [] ==>
            r.error.None? && multiset(r.pool) <= multiset(fetched.value))
  {
    if fetched.Some? && fetched.value != [] {
      PreparePool(Initial.(pool := fetched.value), fetched.value, rnd, swaps);
    }
  }
}
