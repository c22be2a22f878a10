/** The 52-card deck: suits in the outer loop, ranks in the inner one, each
    enumerated as an inclusive range stepped with `forward_checked`. */
module Deck {
  import opened Common
  import Ranks
  import Suits
  import opened Classifier

  /** Iteration of the inclusive range `start..=end` of ranks: yield `start` and step
      forward by one while `start < end`. */
  function RankRange(start: Ranks.Rank, end: Ranks.Rank): (rs: seq<Ranks.Rank>)
    ensures Ranks.Ord(start) > Ranks.Ord(end) ==> rs == []
    ensures Ranks.Ord(start) <= Ranks.Ord(end) ==> |rs| == Ranks.Ord(end) - Ranks.Ord(start) + 1
    ensures forall k :: 0 <= k < |rs| ==> Ranks.Ord(rs[k]) == Ranks.Ord(start) + k
    decreases 13 - Ranks.Ord(start)
  {
    var cmp := Ranks.PartialCmp(start, end);
    if cmp == Some(Greater) then []
    else if cmp == Some(Less) then
      var next := Ranks.ForwardChecked(start, 1);
      [start] + RankRange(next.value, end)
    else [start]
  }

  /** Iteration of the inclusive range `start..=end` of suits. */
  function SuitRange(start: Suits.Suit, end: Suits.Suit): (ss: seq<Suits.Suit>)
    ensures Suits.Ord(start) > Suits.Ord(end) ==> ss == []
    ensures Suits.Ord(start) <= Suits.Ord(end) ==> |ss| == Suits.Ord(end) - Suits.Ord(start) + 1
    ensures forall k :: 0 <= k < |ss| ==> Suits.Ord(ss[k]) == Suits.Ord(start) + k
    decreases 3 - Suits.Ord(start)
  {
    var cmp := Suits.PartialCmp(start, end);
    if cmp == Some(Greater) then []
    else if cmp == Some(Less) then
      var next := Suits.ForwardChecked(start, 1);
      [start] + SuitRange(next.value, end)
    else [start]
  }

  /** The inner `map`: one card per rank `A..=King` of the given suit. */
  function SuitRow(suit: Suits.Suit): (row: seq<Card>)
    ensures |row| == 13
    ensures forall k :: 0 <= k < 13 ==> Ranks.Ord(row[k].rank) == k + 1 && row[k].suit == suit
  {
    var ranks := RankRange(Ranks.A, Ranks.King);
    seq(|ranks|, k requires 0 <= k < |ranks| => Card(ranks[k], suit))
  }

  /** The outer `flat_map` over a list of suits. */
  function SuitRows(suits: seq<Suits.Suit>): seq<Card>
  {
    if suits == [] then [] else SuitRow(suits[0]) + SuitRows(suits[1..])
  }

  /** `generate_deck` */
  function GenerateDeck(): seq<Card>
  {
    SuitRows(SuitRange(Suits.Clubs, Suits.Diamonds))
  }

  lemma {:induction false} SuitRowsLength(suits: seq<Suits.Suit>)
    ensures |SuitRows(suits)| == 13 * |suits|
  {
    if suits != [] {
      SuitRowsLength(suits[1..]);
    }
  }

  /** Position `13 * q + r` of the rows holds rank ordinal `r + 1` of the `q`-th suit. */
  lemma {:induction false} SuitRowsAt(suits: seq<Suits.Suit>, q: nat, r: nat)
    requires q < |suits| && r < 13
    ensures |SuitRows(suits)| == 13 * |suits|
    ensures Ranks.Ord(SuitRows(suits)[13 * q + r].rank) == r + 1
    ensures SuitRows(suits)[13 * q + r].suit == suits[q]
  {
    SuitRowsLength(suits);
    if q > 0 {
      SuitRowsLength(suits[1..]);
      SuitRowsAt(suits[1..], q - 1, r);
    }
  }

  /** Position `n` of the deck holds the card of suit ordinal `n / 13` and rank ordinal `n % 13 + 1`. */
  lemma DeckAt(n: nat)
    requires n < 52
    ensures |GenerateDeck()| == 52
    ensures Ranks.Ord(GenerateDeck()[n].rank) == n % 13 + 1
    ensures Suits.Ord(GenerateDeck()[n].suit) == n / 13
  {
    SuitRowsAt(SuitRange(Suits.Clubs, Suits.Diamonds), n / 13, n % 13);
  }

  /** Where a card sits in the deck. */
  function DeckIndex(c: Card): (n: nat)
    ensures n < 52
  {
    13 * Suits.Ord(c.suit) + Ranks.Ord(c.rank) - 1
  }

  /** The deck has 52 cards, every card sits at its `DeckIndex`, and no card appears twice. */
  lemma DeckLayout()
    ensures |GenerateDeck()| == 52
    ensures forall c: Card :: GenerateDeck()[DeckIndex(c)] == c
    ensures forall i, j :: 0 <= i < j < 52 ==> GenerateDeck()[i] != GenerateDeck()[j]
  {
    var deck := GenerateDeck();
    DeckAt(0);
    forall c: Card ensures deck[DeckIndex(c)] == c {
      var n := DeckIndex(c);
      DeckAt(n);
      Ranks.OrdInjective(deck[n].rank, c.rank);
      Suits.OrdInjective(deck[n].suit, c.suit);
    }
    forall i, j | 0 <= i < j < 52 ensures deck[i] != deck[j] {
      DeckAt(i);
      DeckAt(j);
    }
  }

  /** Every card is in the deck. */
  lemma DeckComplete(c: Card)
    ensures c in GenerateDeck()
  {
    DeckLayout();
    assert GenerateDeck()[DeckIndex(c)] == c;
  }
}
