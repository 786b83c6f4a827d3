/**
 * The play screen of OrderTheCardKit/Views/GameView.swift as a state machine: its state fields, and one
 * method per event (appearing, disappearing, a drag, Check, Hint, a timer tick, Retry, Next Level and the
 * delayed clearing of the highlight). The pure decisions it makes live in module GameRules.
 */
module Game {
  import opened Collections
  import opened Defaults
  import opened Cards
  import opened Levels
  import opened Rewards
  import opened GameRules

  class GameView {
    /** The level the view was opened with. */
    const level: GameLevel
    /** The shared progress object the view scores into. */
    const rewardSystem: RewardSystem

    var cards: seq<Card>
    var showingHint: bool
    var incorrectCards: set<CardId>
    var showFinal: bool
    var currentLevelIndex: int
    var timeLeft: int
    var showLose: bool
    var usedHint: bool
    var madeMistake: bool
    var showWinOverlay: bool
    var lastPoints: int
    var lastBonus: int
    var lastMedals: seq<string>
    /** Whether the repeating one-second timer is scheduled (`timer != nil`). */
    var timerActive: bool

    /** The index names a catalog level and the clock is within its 30 seconds. */
    predicate Valid()
      reads this
    {
      0 <= currentLevelIndex < |SampleLevels| && 0 <= timeLeft <= RoundSeconds
    }

    /** `currentLevel`: always a level of five cards listed in their solved order. */
    function CurrentLevel(): (current: GameLevel)
      reads this
      requires 0 <= currentLevelIndex < |SampleLevels|
      ensures WellFormed(current)
    {
      CatalogShape();
      SampleLevels[currentLevelIndex]
    }

    /** The cards the hint sheet lists: the current level's cards sorted by slot, which is their solved order. */
    function HintCards(): (hint: seq<Card>)
      reads this
      requires 0 <= currentLevelIndex < |SampleLevels|
      ensures multiset(hint) == multiset(CurrentLevel().cards)
      ensures InCorrectOrder(hint)
    {
      HintShowsSolution(currentLevelIndex);
      HintOrder(CurrentLevel().cards)
    }

    /**
     * `init`: the cards are some rearrangement of the level's cards (the shuffle is the caller's input),
     * and the index is the level's place in the catalog, or 0 when it is not found there.
     */
    constructor (level: GameLevel, rewardSystem: RewardSystem, shuffled: seq<Card>)
      requires multiset(shuffled) == multiset(level.cards)
      ensures this.level == level && this.rewardSystem == rewardSystem
      ensures cards == shuffled
      ensures currentLevelIndex == StartIndex(level)
      ensures timeLeft == RoundSeconds && !timerActive
      ensures !usedHint && !madeMistake && incorrectCards == {}
      ensures !showingHint && !showFinal && !showLose && !showWinOverlay
      ensures lastPoints == 0 && lastBonus == 0 && lastMedals == []
      ensures Valid()
    {
      this.level := level;
      this.rewardSystem := rewardSystem;
      cards := shuffled;
      showingHint, incorrectCards, showFinal := false, {}, false;
      currentLevelIndex := StartIndex(level);
      timeLeft, showLose, usedHint, madeMistake := RoundSeconds, false, false, false;
      showWinOverlay, lastPoints, lastBonus, lastMedals := false, 0, 0, [];
      timerActive := false;
    }

    /** `stopTimer`, also run when the view disappears. */
    method StopTimer()
      modifies this`timerActive
      ensures !timerActive
    {
      timerActive := false;
    }

    /** `startTimer`, also run when the view appears: any running timer is replaced and the clock set to 30. */
    method StartTimer()
      modifies this`timerActive, this`timeLeft
      ensures timerActive && timeLeft == RoundSeconds
    {
      StopTimer();
      timeLeft := RoundSeconds;
      timerActive := true;
    }

    /** `moveCard`: a drag rearranges the cards and touches nothing else. */
    method MoveCard(offsets: set<int>, destination: int)
      requires forall i :: i in offsets ==> 0 <= i < |cards|
      requires 0 <= destination <= |cards|
      modifies this`cards
      ensures cards == Move(old(cards), offsets, destination)
      ensures multiset(cards) == multiset(old(cards))
    {
      cards := Move(cards, offsets, destination);
    }

    /**
     * The streak half of a win: each streak grows by one, or drops to 0 when a hint was used (or a mistake
     * made), and each extended streak earns a 20-point step bonus.
     */
    method UpdateStreaks() returns (bonus: int)
      modifies rewardSystem, rewardSystem.defaults
      ensures bonus == (if usedHint then 0 else StepBonus) + (if madeMistake then 0 else StepBonus)
      ensures rewardSystem.Snapshot() == old(rewardSystem.Snapshot()).(
        levelsWithoutHints := if usedHint then 0 else old(rewardSystem.levelsWithoutHints) + 1,
        levelsNoMistakesInRow := if madeMistake then 0 else old(rewardSystem.levelsNoMistakesInRow) + 1)
      ensures rewardSystem.defaults.entries - ProgressKeys == old(rewardSystem.defaults.entries) - ProgressKeys
      ensures old(rewardSystem.Valid()) ==> rewardSystem.Valid()
    {
      bonus := 0;
      if !usedHint {
        bonus := bonus + StepBonus;
        rewardSystem.SetLevelsWithoutHints(rewardSystem.levelsWithoutHints + 1);
      } else {
        rewardSystem.SetLevelsWithoutHints(0);
      }
      if !madeMistake {
        bonus := bonus + StepBonus;
        rewardSystem.SetLevelsNoMistakesInRow(rewardSystem.levelsNoMistakesInRow + 1);
      } else {
        rewardSystem.SetLevelsNoMistakesInRow(0);
      }
    }

    /** One medal test of a win: when it is earned, the medal is listed and added to the collection. */
    method GrantIf(earned: bool, medal: string) returns (granted: seq<string>)
      modifies rewardSystem, rewardSystem.defaults
      ensures granted == MedalIf(earned, medal)
      ensures rewardSystem.Snapshot() == old(rewardSystem.Snapshot()).(medals := old(rewardSystem.medals) + SetOf(granted))
      ensures rewardSystem.defaults.entries - ProgressKeys == old(rewardSystem.defaults.entries) - ProgressKeys
      ensures old(rewardSystem.Valid()) ==> rewardSystem.Valid()
    {
      granted := [];
      if earned {
        rewardSystem.AddMedal(medal);
        granted := [medal];
      }
    }

    /**
     * The medal half of a win, given the no-mistake streak that already counts it: the medals listed are
     * the ones EarnedMedals names for the clock and the score held before the win, and all are collected.
     */
    method GrantMedals(noMistakes: int) returns (medals: seq<string>)
      modifies rewardSystem, rewardSystem.defaults
      ensures medals == EarnedMedals(timeLeft, noMistakes, old(rewardSystem.totalScore))
      ensures rewardSystem.Snapshot() == old(rewardSystem.Snapshot()).(medals := old(rewardSystem.medals) + SetOf(medals))
      ensures rewardSystem.defaults.entries - ProgressKeys == old(rewardSystem.defaults.entries) - ProgressKeys
      ensures old(rewardSystem.Valid()) ==> rewardSystem.Valid()
    {
      ghost var held := rewardSystem.medals;
      var speedster := GrantIf(timeLeft >= SpeedsterSeconds, Speedster);
      var perfectionist := GrantIf(noMistakes >= PerfectionistStreak, Perfectionist);
      var completed := TruncatingDiv(rewardSystem.totalScore, 100);
      var bronze := GrantIf(completed >= BronzeHundreds, Bronze);
      var silver := GrantIf(completed >= SilverHundreds, Silver);
      var gold := GrantIf(completed >= GoldHundreds, Gold);
      medals := speedster + (perfectionist + (bronze + (silver + gold)));
      assert rewardSystem.medals
          == held + SetOf(speedster) + SetOf(perfectionist) + SetOf(bronze) + SetOf(silver) + SetOf(gold);
      CollectedMedals(held, speedster, perfectionist, bronze, silver, gold);
    }

    /**
     * The success branch of `checkOrder`: streaks, medals and points are applied to the progress exactly
     * as Award computes them from the flags, the clock and the progress before, and the overlay shows them.
     */
    method ScoreWin()
      modifies this`lastPoints, this`lastBonus, this`lastMedals, this`showWinOverlay
      modifies rewardSystem, rewardSystem.defaults
      ensures lastPoints == BasePoints
      ensures lastBonus == (if usedHint then 0 else StepBonus) + (if madeMistake then 0 else StepBonus)
      ensures lastMedals == EarnedMedals(timeLeft, if madeMistake then 0 else old(rewardSystem.levelsNoMistakesInRow) + 1,
                                         old(rewardSystem.totalScore))
      ensures rewardSystem.Snapshot() == Progress(old(rewardSystem.totalScore) + lastPoints + lastBonus,
        old(rewardSystem.medals) + SetOf(lastMedals),
        if usedHint then 0 else old(rewardSystem.levelsWithoutHints) + 1,
        if madeMistake then 0 else old(rewardSystem.levelsNoMistakesInRow) + 1)
      ensures showWinOverlay
      ensures rewardSystem.defaults.entries - ProgressKeys == old(rewardSystem.defaults.entries) - ProgressKeys
      ensures old(rewardSystem.Valid()) ==> rewardSystem.Valid()
    {
      ghost var before := rewardSystem.Snapshot();
      ghost var withoutHints := if usedHint then 0 else before.levelsWithoutHints + 1;
      ghost var noMistakes := if madeMistake then 0 else before.levelsNoMistakesInRow + 1;
      var points := BasePoints;
      var bonus := UpdateStreaks();
      assert rewardSystem.Snapshot() == Progress(before.totalScore, before.medals, withoutHints, noMistakes);
      var medals := GrantMedals(rewardSystem.levelsNoMistakesInRow);
      assert medals == EarnedMedals(timeLeft, noMistakes, before.totalScore);
      assert rewardSystem.Snapshot()
          == Progress(before.totalScore, before.medals + SetOf(medals), withoutHints, noMistakes);
      rewardSystem.AddScore(points + bonus);
      assert rewardSystem.Snapshot()
          == Progress(before.totalScore + points + bonus, before.medals + SetOf(medals), withoutHints, noMistakes);
      lastPoints := points;
      lastBonus := bonus;
      lastMedals := medals;
      showWinOverlay := true;
    }

    /** The failure branch of `checkOrder`: the attempt now counts as having a mistake, and the misplaced cards are highlighted. */
    method RecordMistake()
      modifies this`madeMistake, this`incorrectCards
      ensures madeMistake && incorrectCards == IncorrectIds(cards)
    {
      madeMistake := true;
      incorrectCards := IncorrectIds(cards);
    }

    /**
     * `checkOrder`. When every card is in its slot the win is scored as Award says and the overlay
     * shown; the timer keeps running. Otherwise the attempt is marked as having a mistake and the
     * misplaced cards are highlighted, with no effect on the progress or the store.
     */
    method CheckOrder()
      modifies this`madeMistake, this`incorrectCards, this`showWinOverlay
      modifies this`lastPoints, this`lastBonus, this`lastMedals, rewardSystem, rewardSystem.defaults
      ensures timerActive == old(timerActive) && timeLeft == old(timeLeft)
      ensures rewardSystem.defaults.entries - ProgressKeys == old(rewardSystem.defaults.entries) - ProgressKeys
      ensures old(rewardSystem.Valid()) ==> rewardSystem.Valid()
      ensures InCorrectOrder(cards) ==>
        var o := Award(usedHint, old(madeMistake), timeLeft, old(rewardSystem.Snapshot()));
        && rewardSystem.Snapshot() == o.after
        && lastPoints == o.points && lastBonus == o.bonus && lastMedals == o.medals
        && showWinOverlay && madeMistake == old(madeMistake) && incorrectCards == old(incorrectCards)
      ensures !InCorrectOrder(cards) ==>
        && madeMistake && incorrectCards == IncorrectIds(cards) && incorrectCards != {}
        && rewardSystem.Snapshot() == old(rewardSystem.Snapshot())
        && rewardSystem.defaults.entries == old(rewardSystem.defaults.entries)
        && lastPoints == old(lastPoints) && lastBonus == old(lastBonus) && lastMedals == old(lastMedals)
        && showWinOverlay == old(showWinOverlay)
    {
      var isCorrect := InCorrectOrder(cards);
      if isCorrect {
        AwardFields(usedHint, madeMistake, timeLeft, rewardSystem.Snapshot());
        ScoreWin();
      } else {
        RecordMistake();
      }
    }

    /** The delayed clearing of the highlight, one second after a failed check. */
    method ClearHighlight()
      modifies this`incorrectCards
      ensures incorrectCards == {}
    {
      incorrectCards := {};
    }

    /** `showHint`: the hint is marked used and shown, and every call costs 30 points. */
    method ShowHint()
      modifies this`usedHint, this`showingHint, rewardSystem, rewardSystem.defaults
      ensures usedHint && showingHint
      ensures rewardSystem.Snapshot() == old(rewardSystem.Snapshot()).(totalScore := old(rewardSystem.totalScore) - HintPenalty)
      ensures rewardSystem.defaults.entries == old(rewardSystem.defaults.entries)[TotalScoreKey := IntValue(rewardSystem.totalScore)]
      ensures old(rewardSystem.Valid()) ==> rewardSystem.Valid()
    {
      usedHint := true;
      showingHint := true;
      rewardSystem.AddScore(-HintPenalty);
    }

    /** The branch of `goToNextLevel` that has a level to go to: the next index, with everything per-attempt fresh. */
    method Advance(shuffled: seq<Card>)
      modifies this`currentLevelIndex, this`cards, this`incorrectCards, this`timeLeft, this`timerActive
      modifies this`usedHint, this`madeMistake, this`showWinOverlay
      ensures currentLevelIndex == old(currentLevelIndex) + 1 && cards == shuffled
      ensures incorrectCards == {} && timeLeft == RoundSeconds && timerActive
      ensures !usedHint && !madeMistake && !showWinOverlay
    {
      currentLevelIndex := currentLevelIndex + 1;
      cards := shuffled;
      incorrectCards := {};
      timeLeft := RoundSeconds;
      usedHint := false;
      madeMistake := false;
      showWinOverlay := false;
      StartTimer();
    }

    /**
     * `goToNextLevel`: with a next level, move to it with fresh cards, a fresh clock, cleared flags and a
     * new timer; at the last level, only raise the final screen.
     */
    method GoToNextLevel(shuffled: seq<Card>)
      requires Valid()
      requires HasNextLevel(currentLevelIndex) ==> multiset(shuffled) == multiset(SampleLevels[currentLevelIndex + 1].cards)
      modifies this`currentLevelIndex, this`cards, this`incorrectCards, this`timeLeft, this`timerActive
      modifies this`usedHint, this`madeMistake, this`showWinOverlay, this`showFinal
      ensures Valid()
      ensures old(HasNextLevel(currentLevelIndex)) ==>
        && currentLevelIndex == old(currentLevelIndex) + 1
        && cards == shuffled && multiset(cards) == multiset(SampleLevels[currentLevelIndex].cards)
        && incorrectCards == {} && timeLeft == RoundSeconds && timerActive
        && !usedHint && !madeMistake && !showWinOverlay && showFinal == old(showFinal)
      ensures !old(HasNextLevel(currentLevelIndex)) ==>
        && showFinal && currentLevelIndex == old(currentLevelIndex) && cards == old(cards)
        && incorrectCards == old(incorrectCards) && timeLeft == old(timeLeft) && timerActive == old(timerActive)
        && usedHint == old(usedHint) && madeMistake == old(madeMistake) && showWinOverlay == old(showWinOverlay)
    {
      if HasNextLevel(currentLevelIndex) {
        Advance(shuffled);
      } else {
        showFinal := true;
      }
    }

    /**
     * One firing of the timer: a second comes off the clock while any is left; on the firing after it
     * reaches 0, the timer stops and the lose screen is raised. The progress is not touched.
     */
    method Tick()
      requires Valid() && timerActive
      modifies this`timeLeft, this`timerActive, this`showLose
      ensures Valid()
      ensures old(timeLeft) > 0 ==> timeLeft == old(timeLeft) - 1 && timerActive && showLose == old(showLose)
      ensures old(timeLeft) == 0 ==> timeLeft == 0 && !timerActive && showLose
      ensures rewardSystem.Snapshot() == old(rewardSystem.Snapshot())
    {
      if timeLeft > 0 {
        timeLeft := timeLeft - 1;
      } else {
        StopTimer();
        showLose := true;
      }
    }

    /**
     * `restartLevel` (Retry): fresh cards for the same level, a fresh clock and timer, the lose screen gone;
     * the hint and mistake flags and the score stay as they were.
     */
    method RestartLevel(shuffled: seq<Card>)
      requires Valid()
      requires multiset(shuffled) == multiset(CurrentLevel().cards)
      modifies this`cards, this`incorrectCards, this`timeLeft, this`showLose, this`timerActive
      ensures Valid()
      ensures cards == shuffled && incorrectCards == {} && timeLeft == RoundSeconds && !showLose && timerActive
      ensures usedHint == old(usedHint) && madeMistake == old(madeMistake)
      ensures rewardSystem.Snapshot() == old(rewardSystem.Snapshot())
    {
      cards := shuffled;
      incorrectCards := {};
      timeLeft := RoundSeconds;
      showLose := false;
      StartTimer();
    }
  }

  /** Collecting five lists of medals one after another collects their concatenation. */
  lemma CollectedMedals(held: set<string>, a: seq<string>, b: seq<string>, c: seq<string>, d: seq<string>, e: seq<string>)
    ensures held + SetOf(a) + SetOf(b) + SetOf(c) + SetOf(d) + SetOf(e) == held + SetOf(a + (b + (c + (d + e))))
  {
    SetOfConcat(d, e);
    SetOfConcat(c, d + e);
    SetOfConcat(b, c + (d + e));
    SetOfConcat(a, b + (c + (d + e)));
  }

  /**
   * A running clock left alone: ticking until the timer stops takes exactly one tick more than the seconds
   * left, ends on the lose screen and leaves the progress as it was.
   */
  method RunOutTheClock(view: GameView) returns (ticks: nat)
    requires view.Valid() && view.timerActive
    modifies view
    ensures ticks == old(view.timeLeft) + 1
    ensures view.showLose && view.timeLeft == 0 && !view.timerActive
    ensures view.rewardSystem.Snapshot() == old(view.rewardSystem.Snapshot())
  {
    ticks := 0;
    while view.timerActive
      invariant view.Valid()
      invariant view.timerActive ==> ticks + view.timeLeft == old(view.timeLeft)
      invariant !view.timerActive ==> ticks == old(view.timeLeft) + 1 && view.showLose && view.timeLeft == 0
      invariant view.rewardSystem.Snapshot() == old(view.rewardSystem.Snapshot())
      decreases view.timeLeft + (if view.timerActive then 1 else 0)
    {
      view.Tick();
      ticks := ticks + 1;
    }
  }
}
