/** The card record of OrderTheCardKit/Models/Card.swift. */
module Cards {

  /** A card's identity; each card the source creates gets a fresh UUID, which the model writes as a number. */
  type CardId = nat

  /** An immutable card: its identity, its label and the slot it occupies in the solved order. */
  datatype Card = Card(id: CardId, value: string, correctPosition: int)

  /** The card type's `==`: two cards are equal when their identities are, whatever their labels and slots. */
  predicate SameCard(a: Card, b: Card) {
    a.id == b.id
  }

  /** Every card of the sequence sits in its own slot. */
  predicate InCorrectOrder(cards: seq<Card>) {
    forall i :: 0 <= i < |cards| ==> cards[i].correctPosition == i
  }

  /** Equality of cards looks at nothing but the identity. */
  lemma SameCardIgnoresContents(a: Card, value: string, correctPosition: int)
    ensures SameCard(a, Card(a.id, value, correctPosition))
  {
  }

  /** Card equality is an equivalence relation. */
  lemma SameCardIsEquivalence(a: Card, b: Card, c: Card)
    ensures SameCard(a, a)
    ensures SameCard(a, b) ==> SameCard(b, a)
    ensures SameCard(a, b) && SameCard(b, c) ==> SameCard(a, c)
  {
  }

  /** Two cards made separately are different cards even with the same label and slot. */
  lemma DistinctIdsDiffer(a: Card, b: Card)
    requires a.value == b.value && a.correctPosition == b.correctPosition
    requires a.id != b.id
    ensures !SameCard(a, b)
  {
  }
}
