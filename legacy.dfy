/** The older, tuple-based analyzer of `src/main.rs`. Its predicates, deck and paytable
    search behave as those of `cards/src/main.rs` and are shared with that model;
    what differs is that `get_hand` and `push_sequence` take a tuple, that the return of a
    partial paytable is called `calculate_pay`, and that the table has no `Add` and no
    full-paytable return. */
module Legacy {
  import opened Common
  import opened Hands
  import opened Classifier
  import opened Tallies
  import opened Returns
  import opened Paytables
  import Deck
  import Enumeration

  /** `get_hand` on a tuple: the same precedence cascade as on an array of three cards. */
  function GetTupleHand(t: Triple): (h: Hand)
    ensures h == GetHand([t.0, t.1, t.2])
  {
    assert AsTriple([t.0, t.1, t.2]) == t;
    if IsSequence(t) then
      if IsSameSuit(t) then StraightFlush else Straight
    else if IsSameSuit(t) then Flush
    else if IsSameRank(t) then ThreeOfAKind
    else if IsTwoSameRank(t) then Pair
    else HighCard
  }

  /** The unit test of `src/main.rs`, on the shared `is_sequence`, and the categories
      of the two hands it uses. */
  lemma TupleExamples()
    ensures IsSequence((Card(Ranks.A, Suits.Clubs), Card(Ranks.Two, Suits.Clubs), Card(Ranks.Three, Suits.Clubs)))
    ensures !IsSequence((Card(Ranks.A, Suits.Clubs), Card(Ranks.Two, Suits.Clubs), Card(Ranks.Four, Suits.Clubs)))
    ensures GetTupleHand((Card(Ranks.A, Suits.Clubs), Card(Ranks.Two, Suits.Clubs), Card(Ranks.Three, Suits.Clubs))) == StraightFlush
    ensures GetTupleHand((Card(Ranks.A, Suits.Clubs), Card(Ranks.Two, Suits.Clubs), Card(Ranks.Four, Suits.Clubs))) == Flush
  {
    ClassifierExamples();
  }

  /** `HandTable` of `src/main.rs`: six counters, updated in place. */
  class HandTable {
    const hands: array<nat>

    ghost predicate Valid()
      reads this
    {
      hands.Length == CategoryCount
    }

    /** The counters as a value. */
    function Contents(): Counts
      reads this, hands
      requires Valid()
    {
      hands[..]
    }

    /** `HandTable::default()`: every counter at zero. */
    constructor ()
      ensures Valid() && fresh(hands)
      ensures Contents() == Empty
    {
      hands := new nat[CategoryCount](_ => 0);
    }

    /** `push_sequence` on a tuple: count one more hand of its category. */
    method PushSequence(cards: Triple)
      requires Valid()
      modifies hands
      ensures Contents() == Bump(old(Contents()), GetTupleHand(cards))
      ensures Total(Contents()) == Total(old(Contents())) + 1
    {
      var hand := GetTupleHand(cards);
      hands[Index(hand)] := hands[Index(hand)] + 1;
    }

    /** `calculate_pay`: the expected return of a partial paytable, unfilled slots
        counting as zero; it lies between zero and the largest filled payout. */
    function CalculatePay(guess: Slots): (r: real)
      reads this, hands
      requires Valid() && Total(Contents()) > 0
      ensures 0.0 <= r <= MaxPay(guess) as real
      ensures r == FullReturn(Contents(), ZeroFilled(guess))
    {
      PartialReturnBounds(Contents(), guess);
      UnfilledCountZero(Contents(), guess);
      PartialReturn(Contents(), guess)
    }

    /** `build_paytable`: a found guess has its return in `(low, high]`, keeps every slot
        that was filled, and fills empty slots from the left with strictly decreasing payouts. */
    function BuildPaytable(guess: Slots, low: real, high: real): (r: Option<Slots>)
      reads this, hands
      requires Valid() && Total(Contents()) > 0 && guess[0].Some?
      ensures r.Some? ==> low < CalculatePay(r.value) <= high
      ensures r.Some? ==> SearchExtends(guess, r.value)
    {
      Search(Contents(), guess, low, high)
    }

    /** `build_paytable` is complete: when some extension of the guess that the search
        may build has its return in `(low, high]`, the search finds a paytable. */
    lemma BuildPaytableComplete(guess: Slots, low: real, high: real, r: Slots)
      requires Valid() && Total(Contents()) > 0 && guess[0].Some?
      requires SearchExtends(guess, r) && low < CalculatePay(r) <= high
      ensures BuildPaytable(guess, low, high).Some?
    {
      SearchComplete(Contents(), guess, low, high, r);
    }
  }

  /** The tuple of a draw's cards falls in the category of its three cards. */
  lemma DrawnTuple(deck: seq<Card>, d: Enumeration.Draw)
    requires Enumeration.IsDraw(d) && |deck| == 52
    ensures GetTupleHand((deck[d.0], deck[d.1], deck[d.2])) == GetHand(Enumeration.DrawnCards(deck, d))
  {
  }

  /** The body of the innermost loop of `generate_all_games`: when the three indices are
      distinct, push the tuple of the cards at them. */
  method Visit(table: HandTable, deck: seq<Card>, i: nat, j: nat, k: nat, ghost before: seq<Enumeration.Draw>)
    returns (ghost after: seq<Enumeration.Draw>)
    requires table.Valid() && |deck| == 52 && i < 52 && j < 52 && k < 52
    requires before == Enumeration.DrawsBefore(i, j, k) && table.Contents() == Enumeration.DrawTally(deck, before)
    modifies table.hands
    ensures after == Enumeration.DrawsBefore(i, j, k + 1) && table.Contents() == Enumeration.DrawTally(deck, after)
  {
    Enumeration.DrawsBeforeStep(i, j, k);
    after := before;
    if i != j && j != k && i != k {
      var cards := (deck[i], deck[j], deck[k]);
      DrawnTuple(deck, (i, j, k));
      Enumeration.DrawTallySnoc(deck, before, (i, j, k));
      table.PushSequence(cards);
      after := before + [(i, j, k)];
    }
  }

  /** The innermost loop of `generate_all_games`, for fixed `i` and `j`. */
  method PushRow(table: HandTable, deck: seq<Card>, i: nat, j: nat, ghost before: seq<Enumeration.Draw>)
    returns (ghost after: seq<Enumeration.Draw>)
    requires table.Valid() && |deck| == 52 && i < 52 && j < 52
    requires before == Enumeration.DrawsBefore(i, j, 0) && table.Contents() == Enumeration.DrawTally(deck, before)
    modifies table.hands
    ensures after == Enumeration.DrawsBefore(i, j + 1, 0) && table.Contents() == Enumeration.DrawTally(deck, after)
  {
    after := before;
    for k := 0 to |deck|
      invariant after == Enumeration.DrawsBefore(i, j, k) && table.Contents() == Enumeration.DrawTally(deck, after)
    {
      after := Visit(table, deck, i, j, k, after);
    }
  }

  /** The middle loop of `generate_all_games`, for fixed `i`. */
  method PushBlock(table: HandTable, deck: seq<Card>, i: nat, ghost before: seq<Enumeration.Draw>)
    returns (ghost after: seq<Enumeration.Draw>)
    requires table.Valid() && |deck| == 52 && i < 52
    requires before == Enumeration.DrawsBefore(i, 0, 0)
    requires table.Contents() == Enumeration.DrawTally(deck, before)
    modifies table.hands
    ensures after == Enumeration.DrawsBefore(i + 1, 0, 0)
    ensures table.Contents() == Enumeration.DrawTally(deck, after)
  {
    after := before;
    for j := 0 to |deck|
      invariant after == Enumeration.DrawsBefore(i, j, 0)
      invariant table.Contents() == Enumeration.DrawTally(deck, after)
    {
      after := PushRow(table, deck, i, j, after);
    }
  }

  /** The triple loop of `generate_all_games` in `src/main.rs` over a 52-card deck: each
      ordered triple of distinct deck indices is pushed exactly once, 52 * 51 * 50 hands in all. */
  method PushAllDraws(deck: seq<Card>) returns (table: HandTable, ghost draws: seq<Enumeration.Draw>)
    requires |deck| == 52
    ensures fresh(table.hands) && table.Valid()
    ensures forall d: Enumeration.Draw :: d in draws <==> Enumeration.IsDraw(d)
    ensures forall m, n :: 0 <= m < n < |draws| ==> draws[m] != draws[n]
    ensures |draws| == 132600 && Total(table.Contents()) == 132600
    ensures forall m :: 0 <= m < |draws| ==> Enumeration.IsDraw(draws[m])
    ensures table.Contents() == Enumeration.DrawTally(deck, draws)
  {
    table := new HandTable();
    draws := [];
    for i := 0 to |deck|
      invariant table.Valid() && fresh(table.hands)
      invariant draws == Enumeration.DrawsBefore(i, 0, 0)
      invariant table.Contents() == Enumeration.DrawTally(deck, draws)
    {
      draws := PushBlock(table, deck, i, draws);
    }
    Enumeration.DrawsBeforeMembers(|deck|, 0, 0);
    Enumeration.DrawsBeforeIncreasing(|deck|, 0, 0);
    Enumeration.DrawsBeforeCount(|deck|, 0, 0);
    Enumeration.DrawTallyTotal(deck, draws);
  }

  /** The guess `generate_all_games` starts its paytable search from: a straight flush
      pays 10, a high card pays 0, the rest is open. */
  const StartGuess: Slots := [Some(10), None, None, None, None, Some(0)]

  /** `generate_all_games` of `src/main.rs`, up to the printing: fill the table, then search
      for a paytable paying 10 for a straight flush and 0 for a high card whose return lies
      in `(0.99, 1.00]`; `None` is where `unwrap` panics. */
  method GenerateAllGames() returns (table: HandTable, ghost draws: seq<Enumeration.Draw>, payTable: Option<Slots>)
    ensures fresh(table.hands) && table.Valid()
    ensures forall d: Enumeration.Draw :: d in draws <==> Enumeration.IsDraw(d)
    ensures forall m, n :: 0 <= m < n < |draws| ==> draws[m] != draws[n]
    ensures Total(table.Contents()) == 132600
    ensures forall m :: 0 <= m < |draws| ==> Enumeration.IsDraw(draws[m])
    ensures table.Contents() == Enumeration.DrawTally(Deck.GenerateDeck(), draws)
    ensures payTable == Search(table.Contents(), StartGuess, 0.99, 1.00)
    ensures payTable.Some? ==> 0.99 < table.CalculatePay(payTable.value) <= 1.00
  {
    var deck := Deck.GenerateDeck();
    Deck.DeckLayout();
    table, draws := PushAllDraws(deck);
    payTable := table.BuildPaytable(StartGuess, 0.99, 1.00);
  }
}
