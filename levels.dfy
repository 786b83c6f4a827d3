/** The level record and the fixed level catalog of OrderTheCardKit/Models/GameLevel.swift. */
module Levels {
  import opened Cards

  /**
   * An immutable level. `uid` stands for the UUID the source gives every level value;
   * `levelID` is the stable number the progress store records.
   */
  datatype GameLevel = GameLevel(
    uid: nat,
    levelID: int,
    title: string,
    cards: seq<Card>,
    description: string,
    fact: string,
    isSpecial: bool,
    requiredPoints: int)

  /** `sampleLevels`: twenty ordinary levels, then two special ones gated behind a score. Card ids are 5 * index + slot. */
  const SampleLevels: seq<GameLevel> := [
    GameLevel(
      uid := 0, levelID := 0, title := "Animals by Size",
      cards := [
        Card(0, "Mouse", 0),
        Card(1, "Cat", 1),
        Card(2, "Dog", 2),
        Card(3, "Horse", 3),
        Card(4, "Elephant", 4)
      ],
      description := "Arrange the animals from smallest to largest.",
      fact := "The elephant is the largest land animal on Earth!",
      isSpecial := false, requiredPoints := 0),
    GameLevel(
      uid := 1, levelID := 1, title := "Fruits Alphabetically",
      cards := [
        Card(5, "Apple", 0),
        Card(6, "Banana", 1),
        Card(7, "Kiwi", 2),
        Card(8, "Orange", 3),
        Card(9, "Pear", 4)
      ],
      description := "Arrange the fruits in alphabetical order.",
      fact := "The most popular fruit in the world is the banana!",
      isSpecial := false, requiredPoints := 0),
    GameLevel(
      uid := 2, levelID := 2, title := "Countries by Population",
      cards := [
        Card(10, "Canada", 0),
        Card(11, "Russia", 1),
        Card(12, "USA", 2),
        Card(13, "India", 3),
        Card(14, "China", 4)
      ],
      description := "Arrange the countries by population (from smallest to largest).",
      fact := "China has over 1.4 billion people!",
      isSpecial := false, requiredPoints := 0),
    GameLevel(
      uid := 3, levelID := 3, title := "Colors of the Rainbow",
      cards := [
        Card(15, "Red", 0),
        Card(16, "Orange", 1),
        Card(17, "Yellow", 2),
        Card(18, "Green", 3),
        Card(19, "Blue", 4)
      ],
      description := "Arrange the colors of the rainbow in the correct order.",
      fact := "There are 7 colors in the rainbow, but the human eye can see thousands of shades!",
      isSpecial := false, requiredPoints := 0),
    GameLevel(
      uid := 4, levelID := 4, title := "Historical Events",
      cards := [
        Card(20, "Invention of the Wheel", 0),
        Card(21, "Writing Appears", 1),
        Card(22, "Pyramids Built", 2),
        Card(23, "Discovery of America", 3),
        Card(24, "First Space Flight", 4)
      ],
      description := "Arrange the events in chronological order.",
      fact := "The first human in space was Yuri Gagarin, 1961.",
      isSpecial := false, requiredPoints := 0),
    GameLevel(
      uid := 5, levelID := 5, title := "Planets by Distance from the Sun",
      cards := [
        Card(25, "Mercury", 0),
        Card(26, "Venus", 1),
        Card(27, "Earth", 2),
        Card(28, "Mars", 3),
        Card(29, "Jupiter", 4)
      ],
      description := "Arrange the planets by their distance from the Sun.",
      fact := "Jupiter is the largest planet in the Solar System!",
      isSpecial := false, requiredPoints := 0),
    GameLevel(
      uid := 6, levelID := 6, title := "Numbers Ascending",
      cards := [
        Card(30, "3", 0),
        Card(31, "7", 1),
        Card(32, "12", 2),
        Card(33, "18", 3),
        Card(34, "25", 4)
      ],
      description := "Arrange the numbers in ascending order.",
      fact := "25 is a perfect square (5x5)!",
      isSpecial := false, requiredPoints := 0),
    GameLevel(
      uid := 7, levelID := 7, title := "Continents by Area",
      cards := [
        Card(35, "Australia", 0),
        Card(36, "Europe", 1),
        Card(37, "Africa", 2),
        Card(38, "North America", 3),
        Card(39, "Asia", 4)
      ],
      description := "Arrange the continents from smallest to largest area.",
      fact := "Asia is the largest continent on Earth!",
      isSpecial := false, requiredPoints := 0),
    GameLevel(
      uid := 8, levelID := 8, title := "US Presidents Chronologically",
      cards := [
        Card(40, "George Washington", 0),
        Card(41, "Abraham Lincoln", 1),
        Card(42, "Theodore Roosevelt", 2),
        Card(43, "John F. Kennedy", 3),
        Card(44, "Barack Obama", 4)
      ],
      description := "Arrange the US presidents in chronological order.",
      fact := "George Washington was the first US president.",
      isSpecial := false, requiredPoints := 0),
    GameLevel(
      uid := 9, levelID := 9, title := "Months Alphabetically",
      cards := [
        Card(45, "April", 0),
        Card(46, "August", 1),
        Card(47, "December", 2),
        Card(48, "February", 3),
        Card(49, "January", 4)
      ],
      description := "Arrange the months in alphabetical order.",
      fact := "There are 12 months in a year.",
      isSpecial := false, requiredPoints := 0),
    GameLevel(
      uid := 10, levelID := 10, title := "Largest Oceans",
      cards := [
        Card(50, "Arctic", 0),
        Card(51, "Indian", 1),
        Card(52, "Atlantic", 2),
        Card(53, "Southern", 3),
        Card(54, "Pacific", 4)
      ],
      description := "Arrange the oceans from smallest to largest.",
      fact := "The Pacific Ocean is the largest and deepest ocean.",
      isSpecial := false, requiredPoints := 0),
    GameLevel(
      uid := 11, levelID := 11, title := "Famous Painters",
      cards := [
        Card(55, "Leonardo da Vinci", 0),
        Card(56, "Vincent van Gogh", 1),
        Card(57, "Claude Monet", 2),
        Card(58, "Pablo Picasso", 3),
        Card(59, "Salvador Dal√≠", 4)
      ],
      description := "Arrange the painters by their birth year (oldest to youngest).",
      fact := "Leonardo da Vinci painted the Mona Lisa.",
      isSpecial := false, requiredPoints := 0),
    GameLevel(
      uid := 12, levelID := 12, title := "Planets by Mass",
      cards := [
        Card(60, "Mercury", 0),
        Card(61, "Mars", 1),
        Card(62, "Venus", 2),
        Card(63, "Earth", 3),
        Card(64, "Jupiter", 4)
      ],
      description := "Arrange the planets by their mass (smallest to largest).",
      fact := "Jupiter is more massive than all other planets combined!",
      isSpecial := false, requiredPoints := 0),
    GameLevel(
      uid := 13, levelID := 13, title := "Famous Landmarks",
      cards := [
        Card(65, "Eiffel Tower", 0),
        Card(66, "Statue of Liberty", 1),
        Card(67, "Great Wall of China", 2),
        Card(68, "Colosseum", 3),
        Card(69, "Taj Mahal", 4)
      ],
      description := "Arrange the landmarks by their construction date (oldest to newest).",
      fact := "The Great Wall of China is over 13,000 miles long!",
      isSpecial := false, requiredPoints := 0),
    GameLevel(
      uid := 14, levelID := 14, title := "Sports Alphabetically",
      cards := [
        Card(70, "Baseball", 0),
        Card(71, "Basketball", 1),
        Card(72, "Football", 2),
        Card(73, "Hockey", 3),
        Card(74, "Tennis", 4)
      ],
      description := "Arrange the sports in alphabetical order.",
      fact := "Tennis originated in France in the 12th century.",
      isSpecial := false, requiredPoints := 0),
    GameLevel(
      uid := 15, levelID := 15, title := "Cities by Population",
      cards := [
        Card(75, "Sydney", 0),
        Card(76, "London", 1),
        Card(77, "New York", 2),
        Card(78, "Tokyo", 3),
        Card(79, "Shanghai", 4)
      ],
      description := "Arrange the cities by population (smallest to largest).",
      fact := "Shanghai is the most populous city in the world.",
      isSpecial := false, requiredPoints := 0),
    GameLevel(
      uid := 16, levelID := 16, title := "Inventions Chronologically",
      cards := [
        Card(80, "Printing Press", 0),
        Card(81, "Steam Engine", 1),
        Card(82, "Telephone", 2),
        Card(83, "Airplane", 3),
        Card(84, "Internet", 4)
      ],
      description := "Arrange the inventions in chronological order.",
      fact := "The Internet was invented in the late 20th century.",
      isSpecial := false, requiredPoints := 0),
    GameLevel(
      uid := 17, levelID := 17, title := "Days of the Week",
      cards := [
        Card(85, "Monday", 0),
        Card(86, "Tuesday", 1),
        Card(87, "Wednesday", 2),
        Card(88, "Thursday", 3),
        Card(89, "Friday", 4)
      ],
      description := "Arrange the days of the week in order.",
      fact := "There are 7 days in a week.",
      isSpecial := false, requiredPoints := 0),
    GameLevel(
      uid := 18, levelID := 18, title := "Tallest Buildings",
      cards := [
        Card(90, "Empire State", 0),
        Card(91, "Eiffel Tower", 1),
        Card(92, "Shanghai Tower", 2),
        Card(93, "Burj Khalifa", 3),
        Card(94, "One World Trade", 4)
      ],
      description := "Arrange the buildings by height (shortest to tallest).",
      fact := "Burj Khalifa is the tallest building in the world.",
      isSpecial := false, requiredPoints := 0),
    GameLevel(
      uid := 19, levelID := 19, title := "Famous Authors",
      cards := [
        Card(95, "Shakespeare", 0),
        Card(96, "Tolstoy", 1),
        Card(97, "Hemingway", 2),
        Card(98, "Rowling", 3),
        Card(99, "King", 4)
      ],
      description := "Arrange the authors by their birth year (oldest to youngest).",
      fact := "Shakespeare is the most famous playwright in history.",
      isSpecial := false, requiredPoints := 0),
    GameLevel(
      uid := 20, levelID := 100, title := "Super Challenge",
      cards := [
        Card(100, "Mercury", 0),
        Card(101, "Venus", 1),
        Card(102, "Earth", 2),
        Card(103, "Mars", 3),
        Card(104, "Jupiter", 4)
      ],
      description := "Arrange the planets by their distance from the Sun as fast as you can!",
      fact := "Jupiter is the largest planet in the Solar System!",
      isSpecial := true, requiredPoints := 300),
    GameLevel(
      uid := 21, levelID := 101, title := "Ultimate Order",
      cards := [
        Card(105, "Invention of the Wheel", 0),
        Card(106, "Writing Appears", 1),
        Card(107, "Pyramids Built", 2),
        Card(108, "Discovery of America", 3),
        Card(109, "First Space Flight", 4)
      ],
      description := "Arrange these events in the perfect order. Only for the best!",
      fact := "The first human in space was Yuri Gagarin, 1961.",
      isSpecial := true, requiredPoints := 500)
  ]

  const LevelCount := 22
  const CardsPerLevel := 5

  /** A level whose cards are listed in solved order, so their slots are exactly 0 .. n-1. */
  predicate WellFormed(level: GameLevel) {
    |level.cards| == CardsPerLevel && InCorrectOrder(level.cards)
  }

  /** The catalog has 22 levels, each with five cards listed in their solved order. */
  lemma CatalogShape()
    ensures |SampleLevels| == LevelCount
    ensures forall k :: 0 <= k < |SampleLevels| ==> WellFormed(SampleLevels[k])
  {
  }

  /** Level numbers run 0 .. 19, then 100 and 101; every level value has its own uid. */
  lemma CatalogNumbers()
    ensures forall k :: 0 <= k < |SampleLevels| ==> SampleLevels[k].levelID == (if k < 20 then k else k + 80)
    ensures forall k :: 0 <= k < |SampleLevels| ==> SampleLevels[k].uid == k
  {
  }

  /** No two levels share a level number or a uid. */
  lemma CatalogNumbersUnique()
    ensures forall i, j :: 0 <= i < j < |SampleLevels| ==> SampleLevels[i].levelID != SampleLevels[j].levelID
    ensures forall i, j :: 0 <= i < j < |SampleLevels| ==> SampleLevels[i].uid != SampleLevels[j].uid
  {
    CatalogNumbers();
  }

  /** Only the last two levels are special, needing 300 and 500 points; every other level needs none. */
  lemma CatalogSpecials()
    ensures forall k :: 0 <= k < |SampleLevels| ==> (SampleLevels[k].isSpecial <==> k >= 20)
    ensures forall k :: 0 <= k < |SampleLevels| && !SampleLevels[k].isSpecial ==> SampleLevels[k].requiredPoints == 0
    ensures SampleLevels[20].requiredPoints == 300 && SampleLevels[21].requiredPoints == 500
    ensures forall k :: 0 <= k < |SampleLevels| ==> SampleLevels[k].requiredPoints >= 0
  {
  }

  /** Catalog card ids are 5 * index + slot. */
  lemma CatalogCardIds()
    ensures forall k, j :: 0 <= k < |SampleLevels| && 0 <= j < |SampleLevels[k].cards| ==>
      SampleLevels[k].cards[j].id == CardsPerLevel * k + j
  {
  }

  /** Two different (level, slot) pairs of five-slot levels get different numbers. */
  lemma SlotNumbersDiffer(k1: int, j1: int, k2: int, j2: int)
    requires 0 <= j1 < CardsPerLevel && 0 <= j2 < CardsPerLevel
    requires k1 != k2 || j1 != j2
    ensures CardsPerLevel * k1 + j1 != CardsPerLevel * k2 + j2
  {
    if k1 < k2 {
      assert CardsPerLevel * k1 + j1 < CardsPerLevel * (k1 + 1) <= CardsPerLevel * k2;
    } else if k2 < k1 {
      assert CardsPerLevel * k2 + j2 < CardsPerLevel * (k2 + 1) <= CardsPerLevel * k1;
    }
  }

  /** No two cards anywhere in the catalog share an identity. */
  lemma CatalogCardIdsDistinct()
    ensures forall k1, j1, k2, j2 ::
      (0 <= k1 < |SampleLevels| && 0 <= j1 < |SampleLevels[k1].cards| &&
       0 <= k2 < |SampleLevels| && 0 <= j2 < |SampleLevels[k2].cards| && (k1 != k2 || j1 != j2))
      ==> SampleLevels[k1].cards[j1].id != SampleLevels[k2].cards[j2].id
  {
    CatalogShape();
    CatalogCardIds();
    forall k1, j1, k2, j2 |
      0 <= k1 < |SampleLevels| && 0 <= j1 < |SampleLevels[k1].cards| &&
      0 <= k2 < |SampleLevels| && 0 <= j2 < |SampleLevels[k2].cards| &&
      (k1 != k2 || j1 != j2)
      ensures SampleLevels[k1].cards[j1].id != SampleLevels[k2].cards[j2].id
    {
      SlotNumbersDiffer(k1, j1, k2, j2);
    }
  }

}
