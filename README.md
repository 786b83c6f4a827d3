# OrderTheCardKit, modelled in Dafny

OrderTheCardKit is a card-ordering puzzle for iOS. Each of its 22 levels has five labelled cards. The
player drags them into their target order before a 30-second countdown runs out, and may open a hint
that shows the solved order for a 30-point penalty. A correct check scores 100 points, plus 20 for no
hint and 20 for no mistake, and may award medals. Score, medals and two streak counters persist in the
app's key-value store. Two special levels unlock at 300 and 500 points.

The model follows the source's files, one module per file:

- `Cards` (Card.swift): the immutable card and its identity-only equality.
- `Levels` (GameLevel.swift): the level record and the whole 22-level catalog as a constant, with
  lemmas about its shape.
- `Rewards` (RewardSystem.swift): a `RewardSystem` class. Each field assignment writes to its store key
  (the `didSet` write-through). The invariant `Valid()` says the fields are exactly what `init` would read
  back from the store.
- `Scores` (Score.swift): the older `Score` class, which shares the `totalScore` key. Also the settings
  screen's two-step reset.
- `GameRules` (the pure parts of GameView.swift): the order test, the highlight set, the reward
  computation `Award`, the catalog index lookup and the hint sort.
- `Game` (GameView.swift): a `GameView` class with the screen's state fields and one method per event.
  The events are appear/disappear, a drag, Check, Hint, a timer tick, Retry, Next Level and the delayed
  clearing of the highlight.
- `LevelSelect` (LevelSelectView.swift): the unlock rule, the stored completed-levels set, each row's
  icon and lock notice, and a `LevelSelectView` class for the two changes the screen makes.
- `Defaults` and `Collections`: support modules. `Defaults` holds the store as a class over a map.
  `Collections` models Swift's `Array(set)`, `Set(array)` and `Array.move(fromOffsets:toOffset:)`.

Inputs the app takes from its environment become parameters. The shuffled order is a parameter that
must be a permutation of the level's cards. Timer firings become calls to `Tick`. The one-second delayed
clear becomes calls to `ClearHighlight`.

Some behaviours of the code are easy to miss; the model keeps them:

- A correct check does not stop the countdown.
- Retry keeps the hint and mistake flags.
- Time runs out on the tick after the clock shows 0, not on the tick that reaches 0.
- The progress reset leaves the completed-levels set in place.
- The completion callback is never called, so no level is ever recorded as completed during play.

## Model

| member | source | states |
|---|---|---|
| Cards.SameCard | OrderTheCardKit/Models/Card.swift:8-10 | by definition, the card `==`: two cards are equal exactly when their ids are |
| Cards.InCorrectOrder | OrderTheCardKit/Views/GameView.swift:184-186 | by definition, the success test: every card's slot equals its index |
| Cards.SameCardIgnoresContents | OrderTheCardKit/Models/Card.swift:8-10 | card equality looks only at the id, never at the label or the slot |
| Cards.SameCardIsEquivalence | OrderTheCardKit/Models/Card.swift:8-10 | card equality is reflexive, symmetric and transitive |
| Cards.DistinctIdsDiffer | OrderTheCardKit/Models/Card.swift:4-10 | two separately made cards with the same label and slot are unequal |
| Levels.SampleLevels | OrderTheCardKit/Models/GameLevel.swift:13-316 | by definition, the 22 catalog levels in order, with every title, card label, slot, description, fact, special flag and price as listed |
| Levels.CatalogShape | OrderTheCardKit/Models/GameLevel.swift:13-316 | the catalog has 22 levels; each has 5 cards listed with `correctPosition == i`, so the slots are a permutation of 0..4 |
| Levels.CatalogNumbers | OrderTheCardKit/Models/GameLevel.swift:13-316 | level numbers are 0..19 then 100 and 101 |
| Levels.CatalogNumbersUnique | OrderTheCardKit/Models/GameLevel.swift:13-316 | no two levels share a level number or an identity |
| Levels.CatalogSpecials | OrderTheCardKit/Models/GameLevel.swift:314-315 | exactly the last two levels are special, needing 300 and 500 points; every other level needs 0; no requirement is negative |
| Levels.CatalogCardIds | OrderTheCardKit/Models/GameLevel.swift:13-316 | the card in slot `j` of level `k` has id `5 * k + j` (the model's numbering of the fresh UUIDs) |
| Levels.CatalogCardIdsDistinct | OrderTheCardKit/Models/GameLevel.swift:13-316 | no two cards anywhere in the catalog share an id |
| Collections.SetOf | OrderTheCardKit/Models/RewardSystem.swift:20 | by definition, Swift's `Set(array)`: the elements of the sequence, duplicates merged |
| Collections.ArrayOf | OrderTheCardKit/Models/RewardSystem.swift:9 | `Array(set)` lists every element of the set exactly once and nothing else |
| Collections.Move | OrderTheCardKit/Views/GameView.swift:166-169 | the result of `move(fromOffsets:toOffset:)` has the same length and the same multiset of elements |
| Collections.MoveOneDown | OrderTheCardKit/Views/GameView.swift:166-169 | a single card dragged down lands just before the destination offset, and the cards between move up one place |
| Collections.MoveOneUp | OrderTheCardKit/Views/GameView.swift:166-169 | a single card dragged up lands at the destination offset, and the cards between move down one place |
| Defaults.IntegerIn | OrderTheCardKit/Models/RewardSystem.swift:19 | `integer(forKey:)` is 0 for a missing key |
| Defaults.StringArrayIn | OrderTheCardKit/Models/RewardSystem.swift:20 | `stringArray(forKey:)` finds nothing for a missing key |
| Defaults.DataIn | OrderTheCardKit/Views/LevelSelectView.swift:5 | by definition, the blob under a key, absent when the key is missing or holds no blob |
| Defaults.UserDefaults.Set | OrderTheCardKit/Models/RewardSystem.swift:6 | a write replaces that key's value and leaves every other key alone |
| Defaults.UserDefaults.RemoveObject | OrderTheCardKit/Models/RewardSystem.swift:36-39 | a removal deletes exactly that key |
| Rewards.Load | OrderTheCardKit/Models/RewardSystem.swift:18-23 | by definition, what `init` reads: each field from its own key, 0 or the empty set when absent |
| Rewards.ProgressWriteKeepsOtherKeys | OrderTheCardKit/Models/RewardSystem.swift:5-16 | a `didSet` write to one of the four progress keys leaves every other key of the store as it was |
| Rewards.LoadWithoutKeys | OrderTheCardKit/Models/RewardSystem.swift:18-23 | with none of the four keys stored, `init` reads score 0, no medals and zero streaks |
| Rewards.LoadIgnoresOtherKeys | OrderTheCardKit/Models/RewardSystem.swift:18-23 | writing or removing any other key does not change what `init` reads |
| Rewards.MedalsRoundTrip | OrderTheCardKit/Models/RewardSystem.swift:9-20 | a medal set stored as an array reads back as the same set |
| Rewards.RewardSystem.constructor | OrderTheCardKit/Models/RewardSystem.swift:18-23 | each field is read from its key, defaulting to 0 or the empty set; the object starts consistent with the store |
| Rewards.RewardSystem.SetTotalScore | OrderTheCardKit/Models/RewardSystem.swift:5-7 | assigning the score writes the new value to its key at once; consistency with the store is kept |
| Rewards.RewardSystem.SetMedals | OrderTheCardKit/Models/RewardSystem.swift:8-10 | assigning the medals writes an array holding exactly that set; consistency is kept |
| Rewards.RewardSystem.SetLevelsWithoutHints | OrderTheCardKit/Models/RewardSystem.swift:11-13 | assigning the streak writes it to its key; consistency is kept |
| Rewards.RewardSystem.SetLevelsNoMistakesInRow | OrderTheCardKit/Models/RewardSystem.swift:14-16 | assigning the streak writes it to its key; consistency is kept |
| Rewards.RewardSystem.AddScore | OrderTheCardKit/Models/RewardSystem.swift:25-27 | the score changes by exactly `points`, negative included; nothing else changes |
| Rewards.RewardSystem.AddMedal | OrderTheCardKit/Models/RewardSystem.swift:28-30 | the medal set becomes the old set plus the medal; none is removed; adding a held medal changes nothing |
| Rewards.RewardSystem.Reset | OrderTheCardKit/Models/RewardSystem.swift:31-40 | all fields return to their defaults; the four keys, and only they, are removed; a fresh `init` would read the defaults back |
| Rewards.RewardSystem.ZeroProgress | OrderTheCardKit/Models/RewardSystem.swift:32-35 | the four fields become their defaults, each written through, so the store reads back as the defaults (`Valid`); no key outside the four changes |
| Rewards.RewardSystem.ForgetProgress | OrderTheCardKit/Models/RewardSystem.swift:36-39 | the store loses exactly the four progress keys |
| Scores.Score.constructor | OrderTheCardKit/Models/Score.swift:10-12 | the score is read from `totalScore`, 0 when absent |
| Scores.Score.SetTotalScore | OrderTheCardKit/Models/Score.swift:4-8 | assigning the score writes it to the shared key |
| Scores.Score.AddScore | OrderTheCardKit/Models/Score.swift:14-16 | the score changes by exactly `points` and is written |
| Scores.Score.ResetScore | OrderTheCardKit/Models/Score.swift:18-20 | the score becomes 0 and 0 is written, so the key stays present |
| Scores.ResetProgress | OrderTheCardKit/Views/SettingsView.swift:100-103 | `resetScore` and then `reset` on one store leave the score key absent, the four keys removed and both objects at 0 and consistent |
| GameRules.IncorrectIds | OrderTheCardKit/Views/GameView.swift:224-226 | the highlighted ids are empty exactly when every card is in its slot; every misplaced card's id is included; only ids of cards on the table appear |
| GameRules.TruncatingDiv | OrderTheCardKit/Views/GameView.swift:213 | Swift's `/` rounds toward zero: for `a >= 0` the remainder `a - b * q` lies in `0 .. b-1`, for `a < 0` in `-(b-1) .. 0` |
| GameRules.MilestoneReached | OrderTheCardKit/Views/GameView.swift:213-216 | with Swift's truncating division, `score / 100 >= h` holds exactly when `score >= 100 * h`, negative scores included |
| GameRules.EarnedMedals | OrderTheCardKit/Views/GameView.swift:205-216 | by definition, the medal list a win builds, in the order the checks run; its properties are stated by `EarnedMedalsRules` |
| GameRules.EarnedMedalsRules | OrderTheCardKit/Views/GameView.swift:205-216 | speedster with 20 or more seconds left, perfectionist at a no-mistake streak of 3, bronze, silver and gold at 500, 1500 and 3000 points held before the win; the list follows that order, so no medal is listed twice |
| GameRules.Award | OrderTheCardKit/Views/GameView.swift:188-221 | a win scores 100 points plus a bonus of 0, 20 or 40; each bonus comes with a streak step and its absence with a streak reset; the score grows by points plus bonus; the medal rules are as above; the reported medals are added to the set |
| GameRules.PerfectRun | OrderTheCardKit/Views/GameView.swift:193-204 | `n` wins in a row with no hint and no mistake raise both streaks by `n` and the score by 140 each, and lose no medal |
| GameRules.ThirdPerfectWinEarnsPerfectionist | OrderTheCardKit/Views/GameView.swift:199-212 | from no progress, the first two flawless wins earn no perfectionist medal and the third does |
| GameRules.FirstFlawlessWin | OrderTheCardKit/Views/GameView.swift:188-221 | from no progress, a flawless win with 25 s left reports 100 points, a 40 bonus and only speedster, leaving 140 points |
| GameRules.NoMilestoneBelowFiveHundred | OrderTheCardKit/Views/GameView.swift:205-216 | a win at 450 points with 10 s left earns no medal |
| GameRules.HasNextLevel | OrderTheCardKit/Views/GameView.swift:128-130 | by definition, an index has a next level when it is below the last catalog index |
| GameRules.LastLevelHasNoNext | OrderTheCardKit/Views/GameView.swift:128-130 | in the catalog, only index 21 has no next level |
| GameRules.FirstIndex | OrderTheCardKit/Views/GameView.swift:34 | `firstIndex(where:)` finds the first level with that identity, and finds none only when none exists |
| GameRules.StartIndex | OrderTheCardKit/Views/GameView.swift:34-38 | the starting index is a valid catalog index; it is the level's own place when the level is in the catalog, otherwise 0 |
| GameRules.StartIndexOfCatalogLevel | OrderTheCardKit/Views/GameView.swift:34-38 | a level taken from the catalog starts at its own index |
| GameRules.InsertByPosition | OrderTheCardKit/Views/GameView.swift:388 | inserting into a slot-sorted list keeps it sorted and adds exactly the new card |
| GameRules.HintOrder | OrderTheCardKit/Views/GameView.swift:388 | the hint list is sorted by slot and is a permutation of the level's cards |
| GameRules.HintOrderOfSorted | OrderTheCardKit/Views/GameView.swift:388 | sorting cards that are already in slot order changes nothing |
| GameRules.HintShowsSolution | OrderTheCardKit/Views/GameView.swift:378-388 | for every catalog level, the hint lists the cards in their solved order |
| Game.GameView.CurrentLevel | OrderTheCardKit/Views/GameView.swift:120-122 | the current level is a catalog level of five cards listed in their solved order |
| Game.GameView.HintCards | OrderTheCardKit/Views/GameView.swift:102-104 | the hint sheet shows the current level's cards, each once, in their correct order |
| Game.GameView.constructor | OrderTheCardKit/Views/GameView.swift:28-39 | the cards are a permutation of the level's; the index is found as above; 30 s on the clock; all flags cleared |
| Game.GameView.StartTimer | OrderTheCardKit/Views/GameView.swift:254-265 | any running timer is replaced, the clock is reset to 30, and a timer is running |
| Game.GameView.StopTimer | OrderTheCardKit/Views/GameView.swift:267-270 | no timer is running afterwards |
| Game.GameView.MoveCard | OrderTheCardKit/Views/GameView.swift:166-169 | a drag rearranges the cards (same multiset) and changes no flag and no score |
| Game.GameView.UpdateStreaks | OrderTheCardKit/Views/GameView.swift:193-204 | each streak steps up by one, or drops to 0 after a hint or a mistake; a bonus of 20 for each unbroken streak; store keys other than the four progress keys stay as they were |
| Game.GameView.GrantIf | OrderTheCardKit/Views/GameView.swift:205-216 | one medal test: an earned medal is listed and joins the medal set; store keys other than the four progress keys stay as they were |
| Game.GameView.GrantMedals | OrderTheCardKit/Views/GameView.swift:205-216 | the medals listed are the earned ones, judged on the score before the win, and all of them are collected; store keys other than the four progress keys stay as they were |
| Game.GameView.ScoreWin | OrderTheCardKit/Views/GameView.swift:188-221 | streaks, medals and points are applied and the win overlay is shown with them; store keys other than the four progress keys stay as they were |
| Game.GameView.RecordMistake | OrderTheCardKit/Views/GameView.swift:222-226 | a failed check marks a mistake and highlights exactly the misplaced cards |
| Game.GameView.CheckOrder | OrderTheCardKit/Views/GameView.swift:183-231 | a correct order changes the progress and the overlay exactly as `Award` says, keeps the store consistent with the progress when it was before, leaves every other store key alone, and keeps the timer running; a wrong order sets the mistake flag and a non-empty highlight, and leaves progress and store untouched |
| Game.GameView.ClearHighlight | OrderTheCardKit/Views/GameView.swift:227-229 | the delayed clear empties the highlight |
| Game.GameView.ShowHint | OrderTheCardKit/Views/GameView.swift:233-237 | every hint marks the attempt and opens the sheet, and costs 30 points again, whatever happens later; the store changes only at `totalScore`, which gets the new score |
| Game.GameView.GoToNextLevel | OrderTheCardKit/Views/GameView.swift:239-252 | with a next level: index up by one, new cards permuted from that level, 30 s, flags and highlight cleared, timer running; at the last level only the final screen is raised |
| Game.GameView.Advance | OrderTheCardKit/Views/GameView.swift:240-247 | the next-level branch: index up by one, the given cards, 30 s, hint and mistake flags and the highlight cleared, the win overlay hidden, timer running |
| Game.GameView.Tick | OrderTheCardKit/Views/GameView.swift:257-264 | a second comes off while any is left; the firing after 0 stops the timer and raises the lose screen; the clock stays within 0..30; the score never changes |
| Game.GameView.RestartLevel | OrderTheCardKit/Views/GameView.swift:272-278 | Retry deals the same level again with 30 s and a running timer and hides the lose screen, but keeps the hint and mistake flags and the score |
| Game.RunOutTheClock | OrderTheCardKit/Views/GameView.swift:254-264 | an untouched running clock ends on the lose screen after exactly one more tick than the seconds left, without touching the score |
| LevelSelect.CompletedLevelsIn | OrderTheCardKit/Views/LevelSelectView.swift:9-11 | a missing, empty or undecodable blob reads as the empty set |
| LevelSelect.LevelSelectView.constructor | OrderTheCardKit/Views/LevelSelectView.swift:4-7 | the view keeps the shared progress object and store, and no level is selected |
| LevelSelect.LevelSelectView.CompletedLevels | OrderTheCardKit/Views/LevelSelectView.swift:9-11 | by definition, the view's `completedLevels`: the stored blob decoded as above |
| LevelSelect.CompletedLevelsSurviveProgressWrites | OrderTheCardKit/Views/LevelSelectView.swift:9-11 | a store change confined to the four progress keys (a win, a hint, a reset) leaves the completed-levels set as it was |
| LevelSelect.CompletedLevelsRoundTrip | OrderTheCardKit/Views/LevelSelectView.swift:9-19 | a set encoded as an array and stored decodes back to that set |
| LevelSelect.IsUnlocked | OrderTheCardKit/Views/LevelSelectView.swift:39 | by definition, a level is unlocked when it is not special or the score reaches its price |
| LevelSelect.CatalogUnlocks | OrderTheCardKit/Views/LevelSelectView.swift:39 | the first 20 levels are always open; the specials open at 300 and 500 points |
| LevelSelect.UnlockIsMonotone | OrderTheCardKit/Views/LevelSelectView.swift:39 | a level open at some score stays open at any higher score |
| LevelSelect.CardFor | OrderTheCardKit/Views/LevelSelectView.swift:40-49 | by definition, the `LevelCardView` arguments: title, description, completed, locked, never active, special, price and the current score |
| LevelSelect.CatalogIcons | OrderTheCardKit/Views/LevelSelectView.swift:38-49 | in the catalog, a completed level shows the checkmark; otherwise a special below its price (300 or 500) the lock, an affordable special the star, an ordinary level nothing |
| LevelSelect.TrailingIcon | OrderTheCardKit/Views/LevelSelectView.swift:115-128 | the icon follows the precedence completed, then locked, then special, else none |
| LevelSelect.LockNoticeOf | OrderTheCardKit/Views/LevelSelectView.swift:100-112 | the lock notice shows only on a locked special row; the "N more" part shows only below the price, and then N > 0 |
| LevelSelect.LockedRowShowsShortfall | OrderTheCardKit/Views/LevelSelectView.swift:39-49 | on a level's own row, a lock notice always carries a positive shortfall |
| LevelSelect.CatalogLockNotices | OrderTheCardKit/Views/LevelSelectView.swift:38-49 | in the catalog, only the two specials show a lock notice, each while the score is below 300 or 500 |
| LevelSelect.LevelSelectView.MarkLevelCompleted | OrderTheCardKit/Views/LevelSelectView.swift:13-19 | the stored set becomes the old set plus the id; repeating it changes nothing; no other key changes |
| LevelSelect.LevelSelectView.Tap | OrderTheCardKit/Views/LevelSelectView.swift:50-54 | a tap selects the level exactly when it is unlocked, and otherwise leaves the selection as it was |

## Left out

- SwiftUI layout, colours, opacity and animation: every `body`, the win overlay's text, the final, lose and success screens and the card rows. This is presentation only.
- Audio playback through AVAudioPlayer and AudioServices. This is foreign I/O.
- Wall-clock scheduling. The repeating timer is modelled as calls to `Tick` while `timerActive` holds. The one-second delayed clear is modelled as calls to `ClearHighlight`. The model does not say when either one fires.
- The randomness of `shuffled()`. The shuffled order is a parameter constrained to be a permutation.
- The mechanics of UserDefaults, @AppStorage and JSON. The store is a map from keys to a small set of value kinds. A blob is "empty", "an integer array" or "undecodable". The model does not cover byte-level encoding, or the order in which `Array(set)` lists its elements.
- JSON encoding of the completed set is taken never to fail, as it cannot for a set of integers. The `if let` guard's failure branch is not modelled.
- The `onLevelComplete` and `onLevelSelect` callbacks. GameView never calls `onLevelComplete`, so `markLevelCompleted` is never reached from play. `markLevelCompleted` is modelled on its own.
- The unused `showingSuccess` field, the `nextLevelButtonTitle` text and the `isActive` row highlight, which is always false.
- Opening the level sheet after a tap. The model stops at setting `selectedLevel`.
- The onboarding carousel, the menu, settings toggles, StoreKit review requests and the privacy links. These are navigation or external calls.
- Swift's `Int` is 64-bit. Scores that overflow are not modelled; integers are unbounded.
- GameRules.HintOrder: Swift's `sorted(by:)` does not promise an order among equal slots. The model's insertion sort keeps input order. This makes no difference for the catalog, whose slots are distinct.
