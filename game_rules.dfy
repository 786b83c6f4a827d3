/**
 * The pure decisions inside OrderTheCardKit/Views/GameView.swift: whether the order is correct, which
 * cards to highlight, what a win is worth, where a level sits in the catalog and what the hint shows.
 */
module GameRules {
  import opened Collections
  import opened Cards
  import opened Levels
  import opened Rewards

  /** Seconds on the clock at the start of every attempt. */
  const RoundSeconds := 30
  const BasePoints := 100
  /** Each of the two bonuses: one for playing without a hint, one for not making a mistake. */
  const StepBonus := 20
  const HintPenalty := 30
  /** Seconds that must remain for the speedster medal. */
  const SpeedsterSeconds := 20
  /** The no-mistake streak that earns the perfectionist medal. */
  const PerfectionistStreak := 3
  /** Milestones, counted in hundreds of points held before the win. */
  const BronzeHundreds := 5
  const SilverHundreds := 15
  const GoldHundreds := 30

  const Speedster := "speedster"
  const Perfectionist := "perfectionist"
  const Bronze := "bronze"
  const Silver := "silver"
  const Gold := "gold"

  /** The ids of the cards that are not in their own slot: what the check highlights. */
  function IncorrectIds(cards: seq<Card>): (ids: set<CardId>)
    ensures ids == {} <==> InCorrectOrder(cards)
    ensures forall i :: 0 <= i < |cards| && cards[i].correctPosition != i ==> cards[i].id in ids
    ensures ids <= set c | c in cards :: c.id
  {
    var ids := set i | 0 <= i < |cards| && cards[i].correctPosition != i :: cards[i].id;
    assert forall i :: 0 <= i < |cards| && cards[i].correctPosition != i ==> cards[i].id in ids;
    ids
  }

  /** Swift's integer division, which truncates toward zero (Dafny's `/` is Euclidean). */
  function TruncatingDiv(a: int, b: int): (q: int)
    requires b > 0
    ensures a >= 0 ==> 0 <= a - b * q < b
    ensures a < 0 ==> -b < a - b * q <= 0
  {
    if a >= 0 then a / b else -((-a) / b)
  }

  /**
   * A milestone of `hundreds` (at least one) is reached exactly when the score is at least that many
   * hundreds; for these thresholds truncating and Euclidean division agree, negative scores included.
   */
  lemma MilestoneReached(score: int, hundreds: int)
    requires hundreds > 0
    ensures TruncatingDiv(score, 100) >= hundreds <==> score >= 100 * hundreds
    ensures TruncatingDiv(score, 100) >= hundreds <==> score / 100 >= hundreds
  {
    if score >= 0 {
      assert score / 100 >= hundreds ==> score >= 100 * hundreds;
      assert score >= 100 * hundreds ==> score / 100 >= hundreds;
    } else {
      assert -((-score) / 100) <= 0;
      assert score / 100 < 0;
    }
  }

  /** Every medal a win can earn, in the order a win reports them. */
  const MedalOrder := [Speedster, Perfectionist, Bronze, Silver, Gold]

  /** `s` is `t` with some elements left out (greedy matching). */
  predicate IsSubsequence<T(==)>(s: seq<T>, t: seq<T>)
    decreases |t|
  {
    if s == [] then true
    else if t == [] then false
    else if s[0] == t[0] then IsSubsequence(s[1..], t[1..])
    else IsSubsequence(s, t[1..])
  }

  lemma {:induction false} SubsequenceMembers<T>(s: seq<T>, t: seq<T>, x: T)
    requires IsSubsequence(s, t) && x in s
    ensures x in t
    decreases |t|
  {
    if s[0] == t[0] {
      if x != s[0] {
        assert x in s[1..];
        SubsequenceMembers(s[1..], t[1..], x);
      }
    } else {
      SubsequenceMembers(s, t[1..], x);
    }
  }

  /** The medal `medal` when `earned`, else nothing. */
  function MedalIf(earned: bool, medal: string): seq<string> {
    if earned then [medal] else []
  }

  /** Keeping or dropping the head of a list extends a subsequence of its tail. */
  lemma KeepOrDropHead<T>(earned: bool, head: T, tail: seq<T>, rest: seq<T>)
    requires IsSubsequence(tail, rest) && head !in rest
    ensures IsSubsequence((if earned then [head] else []) + tail, [head] + rest)
  {
    var s := (if earned then [head] else []) + tail;
    var t := [head] + rest;
    assert t[1..] == rest;
    if earned {
      assert s[1..] == tail;
    } else if tail != [] {
      assert s == tail;
      if tail[0] == head {
        SubsequenceMembers(tail, rest, head);
      }
    }
  }

  /** The medals a win earns, from the seconds left, the updated no-mistake streak and the score before the win. */
  function EarnedMedals(timeLeft: int, noMistakes: int, scoreBefore: int): seq<string> {
    var completed := TruncatingDiv(scoreBefore, 100);
    MedalIf(timeLeft >= SpeedsterSeconds, Speedster)
    + (MedalIf(noMistakes >= PerfectionistStreak, Perfectionist)
    + (MedalIf(completed >= BronzeHundreds, Bronze)
    + (MedalIf(completed >= SilverHundreds, Silver)
    + MedalIf(completed >= GoldHundreds, Gold))))
  }

  /**
   * Speedster for 20 or more seconds left, perfectionist for a no-mistake streak (already counting this
   * win) of 3 or more, bronze, silver and gold for 500, 1500 and 3000 points held before the win; the
   * list keeps the order speedster, perfectionist, bronze, silver, gold, so no medal appears twice.
   */
  lemma EarnedMedalsRules(timeLeft: int, noMistakes: int, scoreBefore: int)
    ensures Speedster in EarnedMedals(timeLeft, noMistakes, scoreBefore) <==> timeLeft >= SpeedsterSeconds
    ensures Perfectionist in EarnedMedals(timeLeft, noMistakes, scoreBefore) <==> noMistakes >= PerfectionistStreak
    ensures Bronze in EarnedMedals(timeLeft, noMistakes, scoreBefore) <==> scoreBefore >= 500
    ensures Silver in EarnedMedals(timeLeft, noMistakes, scoreBefore) <==> scoreBefore >= 1500
    ensures Gold in EarnedMedals(timeLeft, noMistakes, scoreBefore) <==> scoreBefore >= 3000
    ensures IsSubsequence(EarnedMedals(timeLeft, noMistakes, scoreBefore), MedalOrder)
  {
    var completed := TruncatingDiv(scoreBefore, 100);
    MilestoneReached(scoreBefore, BronzeHundreds);
    MilestoneReached(scoreBefore, SilverHundreds);
    MilestoneReached(scoreBefore, GoldHundreds);
    var gold := MedalIf(completed >= GoldHundreds, Gold);
    KeepOrDropHead(completed >= GoldHundreds, Gold, [], []);
    assert IsSubsequence(gold, [Gold]) by { assert gold == MedalIf(completed >= GoldHundreds, Gold) + []; }
    var silver := MedalIf(completed >= SilverHundreds, Silver) + gold;
    KeepOrDropHead(completed >= SilverHundreds, Silver, gold, [Gold]);
    var bronze := MedalIf(completed >= BronzeHundreds, Bronze) + silver;
    KeepOrDropHead(completed >= BronzeHundreds, Bronze, silver, [Silver, Gold]);
    var perfect := MedalIf(noMistakes >= PerfectionistStreak, Perfectionist) + bronze;
    KeepOrDropHead(noMistakes >= PerfectionistStreak, Perfectionist, bronze, [Bronze, Silver, Gold]);
    var all := MedalIf(timeLeft >= SpeedsterSeconds, Speedster) + perfect;
    KeepOrDropHead(timeLeft >= SpeedsterSeconds, Speedster, perfect, [Perfectionist, Bronze, Silver, Gold]);
    assert [Speedster] + [Perfectionist, Bronze, Silver, Gold] == MedalOrder;
  }

  /** What a win reports and the progress it leaves behind. */
  datatype Outcome = Outcome(points: int, bonus: int, medals: seq<string>, after: Progress)

  /**
   * The reward for a correct check, from the attempt's flags, the seconds left and the progress held
   * before it. Each bonus comes with a step of its streak, its absence with a reset of that streak.
   */
  function Award(usedHint: bool, madeMistake: bool, timeLeft: int, before: Progress): (o: Outcome)
    ensures o.points == BasePoints
    ensures o.bonus in {0, 20, 40}
    ensures !usedHint ==> o.after.levelsWithoutHints == before.levelsWithoutHints + 1
    ensures usedHint ==> o.after.levelsWithoutHints == 0
    ensures !madeMistake ==> o.after.levelsNoMistakesInRow == before.levelsNoMistakesInRow + 1
    ensures madeMistake ==> o.after.levelsNoMistakesInRow == 0
    ensures o.bonus == (if usedHint then 0 else StepBonus) + (if madeMistake then 0 else StepBonus)
    ensures o.after.totalScore == before.totalScore + o.points + o.bonus
    ensures Speedster in o.medals <==> timeLeft >= SpeedsterSeconds
    ensures Perfectionist in o.medals <==> o.after.levelsNoMistakesInRow >= PerfectionistStreak
    ensures Bronze in o.medals <==> before.totalScore >= 500
    ensures Silver in o.medals <==> before.totalScore >= 1500
    ensures Gold in o.medals <==> before.totalScore >= 3000
    ensures IsSubsequence(o.medals, MedalOrder)
    ensures o.after.medals == before.medals + SetOf(o.medals)
  {
    var withoutHints := if usedHint then 0 else before.levelsWithoutHints + 1;
    var noMistakes := if madeMistake then 0 else before.levelsNoMistakesInRow + 1;
    var bonus := (if usedHint then 0 else StepBonus) + (if madeMistake then 0 else StepBonus);
    var medals := EarnedMedals(timeLeft, noMistakes, before.totalScore);
    EarnedMedalsRules(timeLeft, noMistakes, before.totalScore);
    Outcome(BasePoints, bonus, medals,
      Progress(before.totalScore + BasePoints + bonus, before.medals + SetOf(medals), withoutHints, noMistakes))
  }

  /** Award spelled out field by field, for callers that build the outcome one step at a time. */
  lemma AwardFields(usedHint: bool, madeMistake: bool, timeLeft: int, before: Progress)
    ensures var noMistakes := if madeMistake then 0 else before.levelsNoMistakesInRow + 1;
      var bonus := (if usedHint then 0 else StepBonus) + (if madeMistake then 0 else StepBonus);
      var medals := EarnedMedals(timeLeft, noMistakes, before.totalScore);
      Award(usedHint, madeMistake, timeLeft, before)
        == Outcome(BasePoints, bonus, medals,
             Progress(before.totalScore + BasePoints + bonus, before.medals + SetOf(medals),
               if usedHint then 0 else before.levelsWithoutHints + 1, noMistakes))
  {
  }

  /** The progress after `n` wins in a row, each without a hint and without a mistake. */
  function PerfectWins(p: Progress, n: nat, timeLeft: int): Progress
    decreases n
  {
    if n == 0 then p else PerfectWins(Award(false, false, timeLeft, p).after, n - 1, timeLeft)
  }

  /** `n` flawless wins raise both streaks by `n` and the score by 140 each, keeping every medal held. */
  lemma {:induction false} PerfectRun(p: Progress, n: nat, timeLeft: int)
    ensures PerfectWins(p, n, timeLeft).levelsWithoutHints == p.levelsWithoutHints + n
    ensures PerfectWins(p, n, timeLeft).levelsNoMistakesInRow == p.levelsNoMistakesInRow + n
    ensures PerfectWins(p, n, timeLeft).totalScore == p.totalScore + 140 * n
    ensures p.medals <= PerfectWins(p, n, timeLeft).medals
    decreases n
  {
    if n > 0 {
      PerfectRun(Award(false, false, timeLeft, p).after, n - 1, timeLeft);
    }
  }

  /** From no progress, the third flawless win in a row is the first to earn the perfectionist medal. */
  lemma ThirdPerfectWinEarnsPerfectionist(t1: int, t2: int, t3: int)
    ensures Perfectionist !in Award(false, false, t1, NoProgress).medals
    ensures Perfectionist !in Award(false, false, t2, Award(false, false, t1, NoProgress).after).medals
    ensures Perfectionist in Award(false, false, t3, Award(false, false, t2, Award(false, false, t1, NoProgress).after).after).medals
  {
  }

  /** A win from no progress, with no hint, no mistake and 25 seconds left. */
  lemma FirstFlawlessWin()
    ensures Award(false, false, 25, NoProgress) == Outcome(100, 40, [Speedster], Progress(140, {Speedster}, 1, 1))
  {
    assert SetOf([Speedster]) == {Speedster};
  }

  /** A plain win at 450 points with 10 seconds left earns no medal: 450 is below the bronze milestone. */
  lemma NoMilestoneBelowFiveHundred(usedHint: bool, madeMistake: bool)
    ensures Award(usedHint, madeMistake, 10, Progress(450, {}, 0, 0)).medals == []
  {
  }

  /** `hasNextLevel`: the catalog continues after this index. */
  predicate HasNextLevel(index: int) {
    index < |SampleLevels| - 1
  }

  /** Within the catalog, only the last level has no successor. */
  lemma LastLevelHasNoNext(index: int)
    requires 0 <= index < |SampleLevels|
    ensures !HasNextLevel(index) <==> index == LevelCount - 1
  {
  }

  /** `firstIndex(where:)` on the level uid: the first position holding that uid, if any. */
  function FirstIndex(levels: seq<GameLevel>, uid: nat): (r: Option<nat>)
    ensures r.Some? ==> r.value < |levels| && levels[r.value].uid == uid
    ensures r.Some? ==> forall j :: 0 <= j < r.value ==> levels[j].uid != uid
    ensures r.None? ==> forall j :: 0 <= j < |levels| ==> levels[j].uid != uid
  {
    if levels == [] then None
    else if levels[0].uid == uid then Some(0)
    else match FirstIndex(levels[1..], uid)
      case None => None
      case Some(i) => Some(i + 1)
  }

  /** The view's starting index: where the level sits in the catalog, or 0 when it is not found. */
  function StartIndex(level: GameLevel): (index: nat)
    ensures index < |SampleLevels|
    ensures (exists k :: 0 <= k < |SampleLevels| && SampleLevels[k].uid == level.uid) ==> SampleLevels[index].uid == level.uid
    ensures (forall k :: 0 <= k < |SampleLevels| ==> SampleLevels[k].uid != level.uid) ==> index == 0
  {
    FirstIndex(SampleLevels, level.uid).GetOr(0)
  }

  /** A level taken from the catalog starts at its own index. */
  lemma StartIndexOfCatalogLevel(k: int)
    requires 0 <= k < |SampleLevels|
    ensures StartIndex(SampleLevels[k]) == k
  {
    CatalogNumbersUnique();
  }

  predicate SortedByPosition(cards: seq<Card>) {
    forall i, j :: 0 <= i < j < |cards| ==> cards[i].correctPosition <= cards[j].correctPosition
  }

  /** Puts one card into a sorted sequence, after the cards with a smaller slot and before the first one whose slot is at least its own. */
  function InsertByPosition(card: Card, sorted: seq<Card>): (r: seq<Card>)
    requires SortedByPosition(sorted)
    ensures SortedByPosition(r)
    ensures multiset(r) == multiset(sorted) + multiset{card}
    ensures forall x :: x in r ==> x == card || x in sorted
    ensures |r| == |sorted| + 1
  {
    if sorted == [] then [card]
    else if sorted[0].correctPosition < card.correctPosition then
      var rest := InsertByPosition(card, sorted[1..]);
      assert sorted == [sorted[0]] + sorted[1..];
      LowerBoundSorted(sorted[0], rest);
      [sorted[0]] + rest
    else [card] + sorted
  }

  /** A card whose slot is not above any slot of a sorted sequence can go in front of it. */
  lemma LowerBoundSorted(first: Card, rest: seq<Card>)
    requires SortedByPosition(rest)
    requires forall x :: x in rest ==> first.correctPosition <= x.correctPosition
    ensures SortedByPosition([first] + rest)
  {
    forall i, j | 0 <= i < j < |[first] + rest|
      ensures ([first] + rest)[i].correctPosition <= ([first] + rest)[j].correctPosition
    {
      if i > 0 {
        assert ([first] + rest)[i] == rest[i - 1];
      }
      assert ([first] + rest)[j] == rest[j - 1] && rest[j - 1] in rest;
    }
  }

  /** What the hint sheet lists: the cards sorted by their correct slot. */
  function HintOrder(cards: seq<Card>): (r: seq<Card>)
    ensures SortedByPosition(r)
    ensures multiset(r) == multiset(cards)
    ensures |r| == |cards|
  {
    if cards == [] then []
    else
      assert cards == [cards[0]] + cards[1..];
      InsertByPosition(cards[0], HintOrder(cards[1..]))
  }

  /** Sorting cards that are already sorted by slot leaves them as they are. */
  lemma {:induction false} HintOrderOfSorted(cards: seq<Card>)
    requires SortedByPosition(cards)
    ensures HintOrder(cards) == cards
  {
    if cards != [] {
      HintOrderOfSorted(cards[1..]);
      assert cards == [cards[0]] + cards[1..];
    }
  }

  /** For every catalog level the hint lists the cards in solved order. */
  lemma HintShowsSolution(k: int)
    requires 0 <= k < |SampleLevels|
    ensures HintOrder(SampleLevels[k].cards) == SampleLevels[k].cards
    ensures InCorrectOrder(HintOrder(SampleLevels[k].cards))
  {
    CatalogShape();
    HintOrderOfSorted(SampleLevels[k].cards);
  }
}
