/**
 * The older score object of OrderTheCardKit/Models/Score.swift. It persists under the same key as the
 * reward system's total score, and the settings screen resets both, this one first.
 */
module Scores {
  import opened Defaults
  import opened Rewards

  class Score {
    const defaults: UserDefaults
    var totalScore: int

    /** Write-through: the field is what the key reads back as. */
    predicate Valid()
      reads this, defaults
    {
      totalScore == IntegerIn(defaults.entries, TotalScoreKey)
    }

    /** `init`: the score is read from its key, 0 when none is stored. */
    constructor (defaults: UserDefaults)
      ensures this.defaults == defaults
      ensures totalScore == IntegerIn(defaults.entries, TotalScoreKey)
      ensures TotalScoreKey !in defaults.entries ==> totalScore == 0
      ensures Valid()
    {
      this.defaults := defaults;
      totalScore := IntegerIn(defaults.entries, TotalScoreKey);
    }

    /** Assigning `totalScore`, with its write to the store. */
    method SetTotalScore(value: int)
      modifies this, defaults
      ensures totalScore == value
      ensures defaults.entries == old(defaults.entries)[TotalScoreKey := IntValue(value)]
      ensures Valid()
    {
      totalScore := value;
      defaults.Set(TotalScoreKey, IntValue(value));
    }

    /** `addScore`: the score moves by exactly `points`. */
    method AddScore(points: int)
      modifies this, defaults
      ensures totalScore == old(totalScore) + points
      ensures defaults.entries == old(defaults.entries)[TotalScoreKey := IntValue(totalScore)]
      ensures Valid()
    {
      SetTotalScore(totalScore + points);
    }

    /** `resetScore`: the score becomes 0 and 0 is written; the key stays present. */
    method ResetScore()
      modifies this, defaults
      ensures totalScore == 0
      ensures defaults.entries == old(defaults.entries)[TotalScoreKey := IntValue(0)]
      ensures TotalScoreKey in defaults.entries
      ensures Valid()
    {
      SetTotalScore(0);
    }
  }

  /**
   * The settings screen's reset action: `score.resetScore()` and then `rewardSystem.reset()`, on one shared
   * store. The key that the first call writes is removed by the second, and both objects end consistent
   * with the store.
   */
  method ResetProgress(score: Score, rewardSystem: RewardSystem)
    requires score.defaults == rewardSystem.defaults
    modifies score, rewardSystem, rewardSystem.defaults
    ensures TotalScoreKey !in rewardSystem.defaults.entries
    ensures rewardSystem.defaults.entries == old(rewardSystem.defaults.entries) - ProgressKeys
    ensures rewardSystem.Snapshot() == NoProgress && rewardSystem.Valid()
    ensures score.totalScore == 0 && score.Valid()
  {
    score.ResetScore();
    rewardSystem.Reset();
  }
}
