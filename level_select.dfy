/**
 * The level list of OrderTheCardKit/Views/LevelSelectView.swift: which levels are unlocked, which are
 * recorded as completed, what each row of the list shows, and the two things the screen changes (the
 * stored completed-levels blob and the selected level).
 */
module LevelSelect {
  import opened Collections
  import opened Defaults
  import opened Levels
  import opened Rewards

  /** The key of the JSON blob listing the completed levels' `levelID`s. */
  const CompletedLevelsKey := "completedLevels"

  /**
   * `completedLevels`: the stored blob decoded as a set of integers. A missing key, the empty default blob,
   * a blob that is not a JSON integer array, or a key holding something other than a blob all give {}.
   */
  function CompletedLevelsIn(entries: map<string, Value>): (ids: set<int>)
    ensures !(DataIn(entries, CompletedLevelsKey).Some? && DataIn(entries, CompletedLevelsKey).value.IntArray?) ==> ids == {}
    ensures CompletedLevelsKey !in entries ==> ids == {}
    ensures CompletedLevelsKey in entries && entries[CompletedLevelsKey] == DataValue(NoBytes) ==> ids == {}
  {
    match DataIn(entries, CompletedLevelsKey)
    case Some(IntArray(elems)) => SetOf(elems)
    case _ => {}
  }

  /** Storing a set as an integer array and decoding it gives the set back; no other key matters. */
  lemma CompletedLevelsRoundTrip(entries: map<string, Value>, stored: seq<int>)
    ensures CompletedLevelsIn(entries[CompletedLevelsKey := DataValue(IntArray(stored))]) == SetOf(stored)
  {
  }

  /** A store change confined to the four progress keys (a win, a hint, a reset) leaves the completed set alone. */
  lemma CompletedLevelsSurviveProgressWrites(before: map<string, Value>, after: map<string, Value>)
    requires after - ProgressKeys == before - ProgressKeys
    ensures CompletedLevelsIn(after) == CompletedLevelsIn(before)
  {
    assert CompletedLevelsKey !in ProgressKeys;
    assert CompletedLevelsKey in before <==> CompletedLevelsKey in before - ProgressKeys;
    assert CompletedLevelsKey in after <==> CompletedLevelsKey in after - ProgressKeys;
    if CompletedLevelsKey in before {
      assert before[CompletedLevelsKey] == (before - ProgressKeys)[CompletedLevelsKey];
      assert after[CompletedLevelsKey] == (after - ProgressKeys)[CompletedLevelsKey];
    }
  }

  /** The unlock rule: ordinary levels are always open, special ones once the score reaches their price. */
  predicate IsUnlocked(level: GameLevel, totalScore: int) {
    !level.isSpecial || totalScore >= level.requiredPoints
  }

  /** Over the catalog: the first 20 levels are always open, the two specials open at 300 and 500 points. */
  lemma CatalogUnlocks(k: int, totalScore: int)
    requires 0 <= k < |SampleLevels|
    ensures IsUnlocked(SampleLevels[k], totalScore) <==>
      k < 20 || (k == 20 && totalScore >= 300) || (k == 21 && totalScore >= 500)
  {
    CatalogSpecials();
  }

  /** A level open at one score stays open at any higher score. */
  lemma UnlockIsMonotone(level: GameLevel, low: int, high: int)
    requires low <= high && IsUnlocked(level, low)
    ensures IsUnlocked(level, high)
  {
  }

  /** The inputs of one row of the list (`LevelCardView`). */
  datatype LevelCard = LevelCard(
    title: string,
    description: string,
    isCompleted: bool,
    isLocked: bool,
    isActive: bool,
    isSpecial: bool,
    requiredPoints: int,
    userPoints: int)

  /** The row built for a catalog level, from the completed ids and the current score. */
  function CardFor(level: GameLevel, completed: set<int>, totalScore: int): LevelCard {
    LevelCard(level.title, level.description, level.levelID in completed, !IsUnlocked(level, totalScore),
      false, level.isSpecial, level.requiredPoints, totalScore)
  }

  /** The symbol at the end of a row. */
  datatype Icon = Checkmark | Lock | Star | NoIcon

  /** The trailing symbol, by precedence: completed, then locked, then special, else nothing. */
  function TrailingIcon(card: LevelCard): (icon: Icon)
    ensures icon == Checkmark <==> card.isCompleted
    ensures icon == Lock <==> !card.isCompleted && card.isLocked
    ensures icon == Star <==> !card.isCompleted && !card.isLocked && card.isSpecial
    ensures icon == NoIcon <==> !card.isCompleted && !card.isLocked && !card.isSpecial
  {
    if card.isCompleted then Checkmark
    else if card.isLocked then Lock
    else if card.isSpecial then Star
    else NoIcon
  }

  /**
   * Over the catalog: a completed level shows the checkmark; otherwise a special level short of its price
   * shows the lock, an affordable special the star, and an ordinary level nothing.
   */
  lemma CatalogIcons(k: int, completed: set<int>, totalScore: int)
    requires 0 <= k < |SampleLevels|
    ensures TrailingIcon(CardFor(SampleLevels[k], completed, totalScore)) ==
      if SampleLevels[k].levelID in completed then Checkmark
      else if (k == 20 && totalScore < 300) || (k == 21 && totalScore < 500) then Lock
      else if k >= 20 then Star
      else NoIcon
  {
    CatalogUnlocks(k, totalScore);
    CatalogSpecials();
  }

  /** The lock line of a row: the price, and the shortfall when the player is below it. */
  datatype LockNotice = LockNotice(required: int, more: Option<int>)

  /** Shown only on a locked special row; the "N more" part only when the player has fewer points than the price. */
  function LockNoticeOf(card: LevelCard): (notice: Option<LockNotice>)
    ensures notice.Some? <==> card.isSpecial && card.isLocked
    ensures notice.Some? ==> notice.value.required == card.requiredPoints
    ensures notice.Some? ==> (notice.value.more.Some? <==> card.userPoints < card.requiredPoints)
    ensures notice.Some? && notice.value.more.Some? ==>
      notice.value.more.value == card.requiredPoints - card.userPoints && notice.value.more.value > 0
  {
    if card.isSpecial && card.isLocked then
      Some(LockNotice(card.requiredPoints, if card.userPoints < card.requiredPoints then Some(card.requiredPoints - card.userPoints) else None))
    else None
  }

  /** On a level's own row, a lock notice always comes with a positive shortfall: locked means below the price. */
  lemma LockedRowShowsShortfall(level: GameLevel, completed: set<int>, totalScore: int)
    requires LockNoticeOf(CardFor(level, completed, totalScore)).Some?
    ensures LockNoticeOf(CardFor(level, completed, totalScore)).value.more == Some(level.requiredPoints - totalScore)
    ensures level.requiredPoints - totalScore > 0
  {
  }

  /** Over the catalog: only the two specials can carry a lock notice, each while the score is short of 300 or 500. */
  lemma CatalogLockNotices(k: int, completed: set<int>, totalScore: int)
    requires 0 <= k < |SampleLevels|
    ensures var notice := LockNoticeOf(CardFor(SampleLevels[k], completed, totalScore));
      && (notice.Some? <==> (k == 20 && totalScore < 300) || (k == 21 && totalScore < 500))
      && (notice.Some? ==> notice.value.more == Some(SampleLevels[k].requiredPoints - totalScore))
  {
    CatalogUnlocks(k, totalScore);
    CatalogSpecials();
  }

  class LevelSelectView {
    /** The shared progress object, read for the score. */
    const rewardSystem: RewardSystem
    /** The store behind the `completedLevels` app-storage property. */
    const defaults: UserDefaults
    var selectedLevel: Option<GameLevel>

    constructor (rewardSystem: RewardSystem, defaults: UserDefaults)
      ensures this.rewardSystem == rewardSystem && this.defaults == defaults
      ensures selectedLevel == None
    {
      this.rewardSystem := rewardSystem;
      this.defaults := defaults;
      selectedLevel := None;
    }

    function CompletedLevels(): set<int>
      reads this, defaults
    {
      CompletedLevelsIn(defaults.entries)
    }

    /**
     * `markLevelCompleted`: the decoded set gains `id` (an id already there changes nothing), is encoded
     * as an array and replaces the blob; no other key changes, so the progress stays in step with the store.
     */
    method MarkLevelCompleted(id: int)
      modifies defaults
      ensures CompletedLevels() == old(CompletedLevels()) + {id}
      ensures old(CompletedLevels()) <= CompletedLevels()
      ensures id in old(CompletedLevels()) ==> CompletedLevels() == old(CompletedLevels())
      ensures exists stored :: SetOf(stored) == CompletedLevels() &&
                defaults.entries == old(defaults.entries)[CompletedLevelsKey := DataValue(IntArray(stored))]
      ensures old(rewardSystem.Valid()) ==> rewardSystem.Valid()
    {
      var ids := CompletedLevels();
      ids := ids + {id};
      var stored := ArrayOf(ids);
      LoadIgnoresOtherKeys(defaults.entries, CompletedLevelsKey, DataValue(IntArray(stored)));
      defaults.Set(CompletedLevelsKey, DataValue(IntArray(stored)));
      CompletedLevelsRoundTrip(old(defaults.entries), stored);
    }

    /** A tap on a row opens the level only when it is unlocked; otherwise nothing changes. */
    method Tap(level: GameLevel)
      modifies this`selectedLevel
      ensures IsUnlocked(level, rewardSystem.totalScore) ==> selectedLevel == Some(level)
      ensures !IsUnlocked(level, rewardSystem.totalScore) ==> selectedLevel == old(selectedLevel)
    {
      var isUnlocked := !level.isSpecial || rewardSystem.totalScore >= level.requiredPoints;
      if isUnlocked {
        selectedLevel := Some(level);
      }
    }
  }
}
