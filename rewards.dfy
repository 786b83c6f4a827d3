/**
 * The persistent progress object of OrderTheCardKit/Models/RewardSystem.swift: the total score,
 * the medal set and two streak counters, each written to its own store key whenever it is assigned.
 */
module Rewards {
  import opened Collections
  import opened Defaults

  const TotalScoreKey := "totalScore"
  const MedalsKey := "medals"
  const LevelsWithoutHintsKey := "levelsWithoutHints"
  const LevelsNoMistakesInRowKey := "levelsNoMistakesInRow"
  const ProgressKeys: set<string> := {TotalScoreKey, MedalsKey, LevelsWithoutHintsKey, LevelsNoMistakesInRowKey}

  /** A snapshot of the four persisted fields. */
  datatype Progress = Progress(
    totalScore: int,
    medals: set<string>,
    levelsWithoutHints: int,
    levelsNoMistakesInRow: int)

  /** What a first launch, or a launch after a reset, starts from. */
  const NoProgress := Progress(0, {}, 0, 0)

  /** What `init` reads from the store: each field from its own key, with 0 or the empty set for a missing key. */
  function Load(entries: map<string, Value>): Progress {
    Progress(
      IntegerIn(entries, TotalScoreKey),
      SetOf(StringArrayIn(entries, MedalsKey).GetOr([])),
      IntegerIn(entries, LevelsWithoutHintsKey),
      IntegerIn(entries, LevelsNoMistakesInRowKey))
  }

  /** A store holding none of the four keys loads as no progress at all. */
  lemma LoadWithoutKeys(entries: map<string, Value>)
    requires entries.Keys !! ProgressKeys
    ensures Load(entries) == NoProgress
  {
  }

  /** Keys other than the four progress keys do not affect what is loaded. */
  lemma LoadIgnoresOtherKeys(entries: map<string, Value>, key: string, value: Value)
    requires key !in ProgressKeys
    ensures Load(entries[key := value]) == Load(entries)
    ensures Load(entries - {key}) == Load(entries)
  {
  }

  /** Writing one of the four progress keys leaves every other key as it was. */
  lemma ProgressWriteKeepsOtherKeys(entries: map<string, Value>, key: string, value: Value)
    requires key in ProgressKeys
    ensures entries[key := value] - ProgressKeys == entries - ProgressKeys
  {
  }

  /** The medal set survives the trip to the store as an array and back. */
  lemma MedalsRoundTrip(entries: map<string, Value>, medals: seq<string>)
    ensures Load(entries[MedalsKey := StringArray(medals)]).medals == SetOf(medals)
  {
  }

  class RewardSystem {
    /** The shared store every assignment writes through to. */
    const defaults: UserDefaults
    var totalScore: int
    var medals: set<string>
    var levelsWithoutHints: int
    var levelsNoMistakesInRow: int

    function Snapshot(): Progress
      reads this
    {
      Progress(totalScore, medals, levelsWithoutHints, levelsNoMistakesInRow)
    }

    /** Write-through: reading the store back would give exactly the current fields. */
    predicate Valid()
      reads this, defaults
    {
      Snapshot() == Load(defaults.entries)
    }

    /** `init`: every field is read from its key; nothing is written. */
    constructor (defaults: UserDefaults)
      ensures this.defaults == defaults
      ensures Snapshot() == Load(defaults.entries)
      ensures Valid()
    {
      this.defaults := defaults;
      totalScore := IntegerIn(defaults.entries, TotalScoreKey);
      medals := SetOf(StringArrayIn(defaults.entries, MedalsKey).GetOr([]));
      levelsWithoutHints := IntegerIn(defaults.entries, LevelsWithoutHintsKey);
      levelsNoMistakesInRow := IntegerIn(defaults.entries, LevelsNoMistakesInRowKey);
    }

    /** Assigning `totalScore`, with its write to the store. */
    method SetTotalScore(value: int)
      modifies this, defaults
      ensures Snapshot() == old(Snapshot()).(totalScore := value)
      ensures defaults.entries == old(defaults.entries)[TotalScoreKey := IntValue(value)]
      ensures defaults.entries - ProgressKeys == old(defaults.entries) - ProgressKeys
      ensures old(Valid()) ==> Valid()
    {
      totalScore := value;
      ProgressWriteKeepsOtherKeys(defaults.entries, TotalScoreKey, IntValue(value));
      defaults.Set(TotalScoreKey, IntValue(value));
    }

    /** Assigning `medals`, with its write to the store as an array. */
    method SetMedals(value: set<string>)
      modifies this, defaults
      ensures Snapshot() == old(Snapshot()).(medals := value)
      ensures exists stored :: SetOf(stored) == value &&
                defaults.entries == old(defaults.entries)[MedalsKey := StringArray(stored)]
      ensures defaults.entries - ProgressKeys == old(defaults.entries) - ProgressKeys
      ensures old(Valid()) ==> Valid()
    {
      medals := value;
      var stored := ArrayOf(value);
      ProgressWriteKeepsOtherKeys(defaults.entries, MedalsKey, StringArray(stored));
      defaults.Set(MedalsKey, StringArray(stored));
    }

    /** Assigning `levelsWithoutHints`, with its write to the store. */
    method SetLevelsWithoutHints(value: int)
      modifies this, defaults
      ensures Snapshot() == old(Snapshot()).(levelsWithoutHints := value)
      ensures defaults.entries == old(defaults.entries)[LevelsWithoutHintsKey := IntValue(value)]
      ensures defaults.entries - ProgressKeys == old(defaults.entries) - ProgressKeys
      ensures old(Valid()) ==> Valid()
    {
      levelsWithoutHints := value;
      ProgressWriteKeepsOtherKeys(defaults.entries, LevelsWithoutHintsKey, IntValue(value));
      defaults.Set(LevelsWithoutHintsKey, IntValue(value));
    }

    /** Assigning `levelsNoMistakesInRow`, with its write to the store. */
    method SetLevelsNoMistakesInRow(value: int)
      modifies this, defaults
      ensures Snapshot() == old(Snapshot()).(levelsNoMistakesInRow := value)
      ensures defaults.entries == old(defaults.entries)[LevelsNoMistakesInRowKey := IntValue(value)]
      ensures defaults.entries - ProgressKeys == old(defaults.entries) - ProgressKeys
      ensures old(Valid()) ==> Valid()
    {
      levelsNoMistakesInRow := value;
      ProgressWriteKeepsOtherKeys(defaults.entries, LevelsNoMistakesInRowKey, IntValue(value));
      defaults.Set(LevelsNoMistakesInRowKey, IntValue(value));
    }

    /** `addScore`: the total moves by exactly `points`, negative amounts included. */
    method AddScore(points: int)
      modifies this, defaults
      ensures Snapshot() == old(Snapshot()).(totalScore := old(totalScore) + points)
      ensures defaults.entries == old(defaults.entries)[TotalScoreKey := IntValue(totalScore)]
      ensures defaults.entries - ProgressKeys == old(defaults.entries) - ProgressKeys
      ensures old(Valid()) ==> Valid()
    {
      SetTotalScore(totalScore + points);
    }

    /** `addMedal`: the medal joins the set; nothing is removed, and adding a held medal changes nothing. */
    method AddMedal(medal: string)
      modifies this, defaults
      ensures Snapshot() == old(Snapshot()).(medals := old(medals) + {medal})
      ensures old(medals) <= medals
      ensures medal in old(medals) ==> Snapshot() == old(Snapshot())
      ensures exists stored :: SetOf(stored) == medals &&
                defaults.entries == old(defaults.entries)[MedalsKey := StringArray(stored)]
      ensures defaults.entries - ProgressKeys == old(defaults.entries) - ProgressKeys
      ensures old(Valid()) ==> Valid()
    {
      SetMedals(medals + {medal});
    }

    /**
     * `reset`: every field is assigned its default (and written), then all four keys are removed,
     * so a later `init` reads the defaults back. Other keys are untouched.
     */
    method Reset()
      modifies this, defaults
      ensures Snapshot() == NoProgress
      ensures defaults.entries == old(defaults.entries) - ProgressKeys
      ensures Valid()
    {
      ZeroProgress();
      ForgetProgress();
      LoadWithoutKeys(defaults.entries);
    }

    /** The first half of `reset`: the four defaults assigned, each written through. */
    method ZeroProgress()
      modifies this, defaults
      ensures Snapshot() == NoProgress
      ensures defaults.entries - ProgressKeys == old(defaults.entries) - ProgressKeys
      ensures Valid()
    {
      SetTotalScore(0);
      SetMedals({});
      SetLevelsWithoutHints(0);
      SetLevelsNoMistakesInRow(0);
    }

    /** The second half of `reset`: the four keys removed from the store, and nothing else. */
    method ForgetProgress()
      modifies defaults
      ensures defaults.entries == old(defaults.entries) - ProgressKeys
    {
      defaults.RemoveObject(TotalScoreKey);
      defaults.RemoveObject(MedalsKey);
      defaults.RemoveObject(LevelsWithoutHintsKey);
      defaults.RemoveObject(LevelsNoMistakesInRowKey);
      assert defaults.entries == old(defaults.entries) - ProgressKeys;
    }
  }
}
