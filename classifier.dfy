/** Cards and the three-card classifier: the sequence, suit and rank tests
    and the precedence cascade that maps three cards to a hand category. */
module Classifier {
  import Ranks
  import Suits
  import opened Hands

  datatype Card = Card(rank: Ranks.Rank, suit: Suits.Suit)

  /** Three cards as a tuple, the argument of the four predicates. */
  type Triple = (Card, Card, Card)

  /** Three cards as a fixed-size array `[Card; 3]`. */
  type ThreeCards = s: seq<Card> | |s| == 3
    witness [Card(Ranks.A, Suits.Clubs), Card(Ranks.A, Suits.Clubs), Card(Ranks.A, Suits.Clubs)]

  /** The tuple view of an array of three cards. */
  function AsTriple(cards: ThreeCards): Triple
  {
    (cards[0], cards[1], cards[2])
  }

  /** `vec![a, b, c].sort()`: the three ranks in ascending order of discriminant. */
  function SortRanks(a: Ranks.Rank, b: Ranks.Rank, c: Ranks.Rank): (s: seq<Ranks.Rank>)
    ensures |s| == 3
    ensures Ranks.Ord(s[0]) <= Ranks.Ord(s[1]) <= Ranks.Ord(s[2])
    ensures s == [a, b, c] || s == [a, c, b] || s == [b, a, c] || s == [b, c, a] || s == [c, a, b] || s == [c, b, a]
  {
    var oa, ob, oc := Ranks.Ord(a), Ranks.Ord(b), Ranks.Ord(c);
    if oa <= ob then
      if ob <= oc then [a, b, c]
      else if oa <= oc then [a, c, b]
      else [c, a, b]
    else
      if oa <= oc then [b, a, c]
      else if ob <= oc then [b, c, a]
      else [c, b, a]
  }

  function SortedRanks(t: Triple): seq<Ranks.Rank>
  {
    SortRanks(t.0.rank, t.1.rank, t.2.rank)
  }

  /** `is_sequence`: the sorted ordinals are consecutive, or the sorted ranks are exactly A, Q, K. */
  predicate IsSequence(t: Triple)
  {
    var s := SortedRanks(t);
    var c0, c1, c2 := Ranks.Ord(s[0]), Ranks.Ord(s[1]), Ranks.Ord(s[2]);
    (c0 + 2 == c1 + 1 && c1 + 1 == c2) || s == [Ranks.A, Ranks.Queen, Ranks.King]
  }

  /** `is_same_suit` */
  predicate IsSameSuit(t: Triple)
  {
    t.0.suit == t.1.suit && t.1.suit == t.2.suit
  }

  /** `is_same_rank` */
  predicate IsSameRank(t: Triple)
  {
    t.0.rank == t.1.rank && t.1.rank == t.2.rank
  }

  /** `is_two_same_rank`: two neighbours of the sorted ranks are equal. */
  predicate IsTwoSameRank(t: Triple)
  {
    var s := SortedRanks(t);
    s[0] == s[1] || s[1] == s[2]
  }

  /** `get_hand`: the precedence cascade. */
  function GetHand(cards: ThreeCards): Hand
  {
    var t := AsTriple(cards);
    if IsSequence(t) then
      if IsSameSuit(t) then StraightFlush else Straight
    else if IsSameSuit(t) then Flush
    else if IsSameRank(t) then ThreeOfAKind
    else if IsTwoSameRank(t) then Pair
    else HighCard
  }

  /** The category of each of a sequence of draws. */
  function Classify(draws: seq<ThreeCards>): seq<Hand>
  {
    seq(|draws|, k requires 0 <= k < |draws| => GetHand(draws[k]))
  }

  // ---------------------------------------------------------------------
  // Reference definitions that do not sort, and the classifier against them

  function MinOrd(t: Triple): nat
  {
    var a, b, c := Ranks.Ord(t.0.rank), Ranks.Ord(t.1.rank), Ranks.Ord(t.2.rank);
    if a <= b && a <= c then a else if b <= c then b else c
  }

  function MaxOrd(t: Triple): nat
  {
    var a, b, c := Ranks.Ord(t.0.rank), Ranks.Ord(t.1.rank), Ranks.Ord(t.2.rank);
    if a >= b && a >= c then a else if b >= c then b else c
  }

  predicate HasRank(t: Triple, r: Ranks.Rank)
  {
    t.0.rank == r || t.1.rank == r || t.2.rank == r
  }

  /** Some two of the three cards share a rank. */
  predicate SomeRanksEqual(t: Triple)
  {
    t.0.rank == t.1.rank || t.1.rank == t.2.rank || t.0.rank == t.2.rank
  }

  /** Three distinct ranks that span three consecutive values, or Ace with Queen and King. */
  predicate IsRun(t: Triple)
  {
    !SomeRanksEqual(t) &&
    (MaxOrd(t) - MinOrd(t) == 2 || (HasRank(t, Ranks.A) && HasRank(t, Ranks.Queen) && HasRank(t, Ranks.King)))
  }

  /** Rank equalities of a triple, and its Aces, Queens and Kings, read off the ordinals. */
  lemma OrdFacts(t: Triple)
    ensures t.0.rank == t.1.rank <==> Ranks.Ord(t.0.rank) == Ranks.Ord(t.1.rank)
    ensures t.1.rank == t.2.rank <==> Ranks.Ord(t.1.rank) == Ranks.Ord(t.2.rank)
    ensures t.0.rank == t.2.rank <==> Ranks.Ord(t.0.rank) == Ranks.Ord(t.2.rank)
    ensures forall r | r in {Ranks.A, Ranks.Queen, Ranks.King} ::
      (t.0.rank == r <==> Ranks.Ord(t.0.rank) == Ranks.Ord(r)) &&
      (t.1.rank == r <==> Ranks.Ord(t.1.rank) == Ranks.Ord(r)) &&
      (t.2.rank == r <==> Ranks.Ord(t.2.rank) == Ranks.Ord(r))
  {
    Ranks.OrdInjective(t.0.rank, t.1.rank);
    Ranks.OrdInjective(t.1.rank, t.2.rank);
    Ranks.OrdInjective(t.0.rank, t.2.rank);
    forall r | r in {Ranks.A, Ranks.Queen, Ranks.King}
      ensures (t.0.rank == r <==> Ranks.Ord(t.0.rank) == Ranks.Ord(r))
      ensures (t.1.rank == r <==> Ranks.Ord(t.1.rank) == Ranks.Ord(r))
      ensures (t.2.rank == r <==> Ranks.Ord(t.2.rank) == Ranks.Ord(r))
    {
      Ranks.OrdInjective(t.0.rank, r);
      Ranks.OrdInjective(t.1.rank, r);
      Ranks.OrdInjective(t.2.rank, r);
    }
  }

  /** For a sorted rearrangement p <= q <= r of x, y, z: consecutive neighbours mean three
      distinct values spanning two, and 1, 12, 13 in order mean exactly those three values. */
  lemma SortedOrdinals(x: int, y: int, z: int, p: int, q: int, r: int)
    requires [p, q, r] in {[x, y, z], [x, z, y], [y, x, z], [y, z, x], [z, x, y], [z, y, x]}
    requires p <= q <= r
    ensures (p == q || q == r) <==> (x == y || y == z || x == z)
    ensures (p + 1 == q && q + 1 == r) <==>
      (x != y && y != z && x != z &&
       (if x >= y && x >= z then x else if y >= z then y else z) -
       (if x <= y && x <= z then x else if y <= z then y else z) == 2)
    ensures (p == 1 && q == 12 && r == 13) <==>
      ((x == 1 || y == 1 || z == 1) && (x == 12 || y == 12 || z == 12) && (x == 13 || y == 13 || z == 13))
  {
  }

  /** The sorting test of `is_sequence` is the same as the order-free description of a straight. */
  lemma IsSequenceIff(t: Triple)
    ensures IsSequence(t) <==> IsRun(t)
  {
    var s := SortedRanks(t);
    var x, y, z := Ranks.Ord(t.0.rank), Ranks.Ord(t.1.rank), Ranks.Ord(t.2.rank);
    var p, q, r := Ranks.Ord(s[0]), Ranks.Ord(s[1]), Ranks.Ord(s[2]);
    assert [p, q, r] in {[x, y, z], [x, z, y], [y, x, z], [y, z, x], [z, x, y], [z, y, x]};
    SortedOrdinals(x, y, z, p, q, r);
    assert IsSequence(t) <==> (p + 1 == q && q + 1 == r) || (p == 1 && q == 12 && r == 13) by {
      Ranks.OrdInjective(s[0], Ranks.A);
      Ranks.OrdInjective(s[1], Ranks.Queen);
      Ranks.OrdInjective(s[2], Ranks.King);
    }
    assert IsRun(t) <==> (p + 1 == q && q + 1 == r) || (p == 1 && q == 12 && r == 13) by {
      OrdFacts(t);
    }
  }

  /** The sorting test of `is_two_same_rank` is the same as "some two ranks are equal". */
  lemma IsTwoSameRankIff(t: Triple)
    ensures IsTwoSameRank(t) <==> SomeRanksEqual(t)
  {
    var s := SortedRanks(t);
    var x, y, z := Ranks.Ord(t.0.rank), Ranks.Ord(t.1.rank), Ranks.Ord(t.2.rank);
    var p, q, r := Ranks.Ord(s[0]), Ranks.Ord(s[1]), Ranks.Ord(s[2]);
    assert [p, q, r] in {[x, y, z], [x, z, y], [y, x, z], [y, z, x], [z, x, y], [z, y, x]};
    SortedOrdinals(x, y, z, p, q, r);
    Ranks.OrdInjective(s[0], s[1]);
    Ranks.OrdInjective(s[1], s[2]);
    OrdFacts(t);
  }

  /** What each category of the cascade means, stated without sorting: the stronger
      tests shadow the weaker ones, so a three of a kind or a pair is never of one suit. */
  lemma GetHandMeaning(cards: ThreeCards)
    ensures GetHand(cards) == StraightFlush <==> IsRun(AsTriple(cards)) && IsSameSuit(AsTriple(cards))
    ensures GetHand(cards) == Straight <==> IsRun(AsTriple(cards)) && !IsSameSuit(AsTriple(cards))
    ensures GetHand(cards) == Flush <==> !IsRun(AsTriple(cards)) && IsSameSuit(AsTriple(cards))
    ensures GetHand(cards) == ThreeOfAKind <==> IsSameRank(AsTriple(cards)) && !IsSameSuit(AsTriple(cards))
    ensures GetHand(cards) == Pair <==>
      SomeRanksEqual(AsTriple(cards)) && !IsSameRank(AsTriple(cards)) && !IsSameSuit(AsTriple(cards))
    ensures GetHand(cards) == HighCard <==>
      !SomeRanksEqual(AsTriple(cards)) && !IsRun(AsTriple(cards)) && !IsSameSuit(AsTriple(cards))
  {
    var t := AsTriple(cards);
    IsSequenceIff(t);
    IsTwoSameRankIff(t);
  }

  /** The cascade reads its cards only through the four predicates. */
  lemma SamePredicatesSameHand(x: ThreeCards, y: ThreeCards)
    requires IsSequence(AsTriple(x)) == IsSequence(AsTriple(y))
    requires IsSameSuit(AsTriple(x)) == IsSameSuit(AsTriple(y))
    requires IsSameRank(AsTriple(x)) == IsSameRank(AsTriple(y))
    requires IsTwoSameRank(AsTriple(x)) == IsTwoSameRank(AsTriple(y))
    ensures GetHand(x) == GetHand(y)
  {
  }

  /** The order-free descriptions do not depend on the order of the cards. */
  lemma RunSwaps(a: Card, b: Card, c: Card)
    ensures IsRun((a, b, c)) == IsRun((b, a, c)) == IsRun((a, c, b))
    ensures SomeRanksEqual((a, b, c)) == SomeRanksEqual((b, a, c)) == SomeRanksEqual((a, c, b))
  {
    var x, y, z := Ranks.Ord(a.rank), Ranks.Ord(b.rank), Ranks.Ord(c.rank);
    assert MaxOrd((a, b, c)) == MaxOrd((b, a, c)) == MaxOrd((a, c, b));
    assert MinOrd((a, b, c)) == MinOrd((b, a, c)) == MinOrd((a, c, b));
  }

  lemma SwapFirstTwo(a: Card, b: Card, c: Card)
    ensures GetHand([a, b, c]) == GetHand([b, a, c])
  {
    var t, u := (a, b, c), (b, a, c);
    assert IsSequence(t) == IsSequence(u) by {
      IsSequenceIff(t);
      IsSequenceIff(u);
      RunSwaps(a, b, c);
    }
    assert IsTwoSameRank(t) == IsTwoSameRank(u) by {
      IsTwoSameRankIff(t);
      IsTwoSameRankIff(u);
      RunSwaps(a, b, c);
    }
    SamePredicatesSameHand([a, b, c], [b, a, c]);
  }

  lemma SwapLastTwo(a: Card, b: Card, c: Card)
    ensures GetHand([a, b, c]) == GetHand([a, c, b])
  {
    var t, u := (a, b, c), (a, c, b);
    assert IsSequence(t) == IsSequence(u) by {
      IsSequenceIff(t);
      IsSequenceIff(u);
      RunSwaps(a, b, c);
    }
    assert IsTwoSameRank(t) == IsTwoSameRank(u) by {
      IsTwoSameRankIff(t);
      IsTwoSameRankIff(u);
      RunSwaps(a, b, c);
    }
    SamePredicatesSameHand([a, b, c], [a, c, b]);
  }

  /** The category of three cards does not depend on their order. */
  lemma GetHandPermutation(a: Card, b: Card, c: Card)
    ensures GetHand([a, b, c]) == GetHand([a, c, b]) == GetHand([b, a, c])
         == GetHand([b, c, a]) == GetHand([c, a, b]) == GetHand([c, b, a])
  {
    SwapLastTwo(a, b, c);
    SwapFirstTwo(a, b, c);
    SwapLastTwo(b, a, c);
    SwapFirstTwo(a, c, b);
    SwapLastTwo(c, a, b);
  }

  /** The unit test of `is_sequence`, and the categories of its two hands. */
  lemma ClassifierExamples()
    ensures IsSequence((Card(Ranks.A, Suits.Clubs), Card(Ranks.Two, Suits.Clubs), Card(Ranks.Three, Suits.Clubs)))
    ensures !IsSequence((Card(Ranks.A, Suits.Clubs), Card(Ranks.Two, Suits.Clubs), Card(Ranks.Four, Suits.Clubs)))
    ensures GetHand([Card(Ranks.A, Suits.Clubs), Card(Ranks.Two, Suits.Clubs), Card(Ranks.Three, Suits.Clubs)]) == StraightFlush
    ensures GetHand([Card(Ranks.A, Suits.Clubs), Card(Ranks.Two, Suits.Clubs), Card(Ranks.Four, Suits.Clubs)]) == Flush
  {
  }

  /** The cascade on a few fixed hands: the Ace-Queen-King wrap, and each weaker category. */
  lemma CascadeExamples()
    ensures GetHand([Card(Ranks.A, Suits.Clubs), Card(Ranks.Queen, Suits.Clubs), Card(Ranks.King, Suits.Clubs)]) == StraightFlush
    ensures GetHand([Card(Ranks.A, Suits.Clubs), Card(Ranks.Queen, Suits.Diamonds), Card(Ranks.King, Suits.Hearts)]) == Straight
    ensures GetHand([Card(Ranks.Five, Suits.Clubs), Card(Ranks.Five, Suits.Diamonds), Card(Ranks.Five, Suits.Hearts)]) == ThreeOfAKind
    ensures GetHand([Card(Ranks.Five, Suits.Clubs), Card(Ranks.Five, Suits.Diamonds), Card(Ranks.Seven, Suits.Hearts)]) == Pair
    ensures GetHand([Card(Ranks.King, Suits.Clubs), Card(Ranks.A, Suits.Diamonds), Card(Ranks.Two, Suits.Hearts)]) == HighCard
  {
  }
}
