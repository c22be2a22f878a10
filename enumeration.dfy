/** The enumeration loop of `generate_all_games`: every ordered draw of three distinct
    deck cards is classified and pushed into one table. The draws are named by their
    deck indices; the loops visit index triples in lexicographic order. */
module Enumeration {
  import opened Hands
  import opened Classifier
  import opened Deck
  import opened Tallies
  import opened HandTables
  import opened Common
  import opened Returns
  import opened Paytables

  /** Three deck indices `(i, j, k)`, one per loop. */
  type Draw = (nat, nat, nat)

  /** The loops push `(i, j, k)` exactly when the indices are in the deck and pairwise distinct. */
  predicate IsDraw(d: Draw)
  {
    d.0 < 52 && d.1 < 52 && d.2 < 52 && d.0 != d.1 && d.1 != d.2 && d.0 != d.2
  }

  /** The number of loop iterations before `(i, j, k)` is visited. */
  function Code(i: nat, j: nat, k: nat): nat
  {
    i * 2704 + j * 52 + k
  }

  function CodeOf(d: Draw): nat
  {
    Code(d.0, d.1, d.2)
  }

  /** The draws the loops push before they visit `(i, j, k)`, in order; `(i, j, 52)`
      is the same point as `(i, j + 1, 0)`, and `(i, 52, 0)` as `(i + 1, 0, 0)`. Each is a
      draw. */
  function DrawsBefore(i: nat, j: nat, k: nat): (r: seq<Draw>)
    requires j <= 52 && k <= 52 && (j == 52 ==> k == 0)
    ensures forall m :: 0 <= m < |r| ==> IsDraw(r[m])
    decreases i, j, k
  {
    if k > 0 then
      DrawsBefore(i, j, k - 1) + (if IsDraw((i, j, k - 1)) then [(i, j, k - 1)] else [])
    else if j > 0 then DrawsBefore(i, j - 1, 52)
    else if i > 0 then DrawsBefore(i - 1, 52, 0)
    else []
  }

  /** Two index triples within the deck share a code only if they are equal. */
  lemma CodeInjective(d: Draw, e: Draw)
    requires d.0 < 52 && d.1 < 52 && d.2 < 52 && e.0 < 52 && e.1 < 52 && e.2 < 52
    requires CodeOf(d) == CodeOf(e)
    ensures d == e
  {
  }

  /** The number of draws pushed before `(i, j, k)`: 51 * 50 per earlier `i`, 50 per
      earlier `j` other than `i`, and one per earlier `k` other than `i` and `j`. */
  lemma {:induction false} DrawsBeforeCount(i: nat, j: nat, k: nat)
    requires j <= 52 && k <= 52 && (j == 52 ==> k == 0)
    requires i < 52 || (i == 52 && j == 0 && k == 0)
    ensures |DrawsBefore(i, j, k)| == i * 2550 + j * 50 - (if i < j then 50 else 0)
      + (if i == j then 0 else k - (if i < k then 1 else 0) - (if j < k then 1 else 0))
    decreases i, j, k
  {
    if k > 0 {
      DrawsBeforeCount(i, j, k - 1);
    } else if j > 0 {
      DrawsBeforeCount(i, j - 1, 52);
    } else if i > 0 {
      DrawsBeforeCount(i - 1, 52, 0);
    }
  }

  /** One visit of the innermost loop pushes `(i, j, k)` exactly when it is a draw. */
  lemma DrawsBeforeStep(i: nat, j: nat, k: nat)
    requires j < 52 && k < 52
    ensures DrawsBefore(i, j, k + 1) ==
      DrawsBefore(i, j, k) + (if IsDraw((i, j, k)) then [(i, j, k)] else [])
  {
  }

  /** The draws before `(i, j, k)` are exactly the draws with a smaller code. */
  lemma {:induction false} DrawsBeforeMembers(i: nat, j: nat, k: nat)
    requires j <= 52 && k <= 52 && (j == 52 ==> k == 0)
    ensures forall d: Draw :: d in DrawsBefore(i, j, k) <==> IsDraw(d) && CodeOf(d) < Code(i, j, k)
    decreases i, j, k
  {
    if k > 0 {
      DrawsBeforeMembers(i, j, k - 1);
      forall d: Draw | IsDraw(d) && CodeOf(d) == Code(i, j, k - 1)
        ensures d == (i, j, k - 1)
      {
        CodeInjective(d, (i, j, k - 1));
      }
    } else if j > 0 {
      DrawsBeforeMembers(i, j - 1, 52);
    } else if i > 0 {
      DrawsBeforeMembers(i - 1, 52, 0);
    }
  }

  /** The draws before `(i, j, k)` are pushed in strictly increasing code order, so none twice. */
  lemma {:induction false} DrawsBeforeIncreasing(i: nat, j: nat, k: nat)
    requires j <= 52 && k <= 52 && (j == 52 ==> k == 0)
    ensures forall m, n :: 0 <= m < n < |DrawsBefore(i, j, k)| ==>
      CodeOf(DrawsBefore(i, j, k)[m]) < CodeOf(DrawsBefore(i, j, k)[n])
    decreases i, j, k
  {
    if k > 0 {
      DrawsBeforeIncreasing(i, j, k - 1);
      DrawsBeforeMembers(i, j, k - 1);
    } else if j > 0 {
      DrawsBeforeIncreasing(i, j - 1, 52);
    } else if i > 0 {
      DrawsBeforeIncreasing(i - 1, 52, 0);
    }
  }

  /** The three cards of a draw. */
  function DrawnCards(deck: seq<Card>, d: Draw): ThreeCards
    requires IsDraw(d) && |deck| == 52
  {
    [deck[d.0], deck[d.1], deck[d.2]]
  }

  /** The table the loops fill by pushing the cards of `draws`, in order. */
  function DrawTally(deck: seq<Card>, draws: seq<Draw>): Counts
    requires forall m :: 0 <= m < |draws| ==> IsDraw(draws[m])
    requires |deck| == 52
  {
    if draws == [] then Empty
    else
      var last := draws[|draws| - 1];
      assert IsDraw(last);
      Bump(DrawTally(deck, draws[..|draws| - 1]), GetHand(DrawnCards(deck, last)))
  }

  lemma DrawTallySnoc(deck: seq<Card>, draws: seq<Draw>, d: Draw)
    requires forall m :: 0 <= m < |draws| ==> IsDraw(draws[m])
    requires IsDraw(d) && |deck| == 52
    ensures DrawTally(deck, draws + [d]) == Bump(DrawTally(deck, draws), GetHand(DrawnCards(deck, d)))
  {
    assert (draws + [d])[..|draws|] == draws;
  }

  /** The filled table is the tally of the categories of the drawn hands. */
  lemma {:induction false} DrawTallyIsTally(deck: seq<Card>, draws: seq<Draw>)
    requires forall m :: 0 <= m < |draws| ==> IsDraw(draws[m])
    requires |deck| == 52
    ensures DrawTally(deck, draws) ==
      Tally(Classify(seq(|draws|, m requires 0 <= m < |draws| => DrawnCards(deck, draws[m]))))
  {
    var hands := seq(|draws|, m requires 0 <= m < |draws| => DrawnCards(deck, draws[m]));
    if draws != [] {
      var init := draws[..|draws| - 1];
      DrawTallyIsTally(deck, init);
      var initHands := seq(|init|, m requires 0 <= m < |init| => DrawnCards(deck, init[m]));
      assert Classify(hands)[..|draws| - 1] == Classify(initHands);
    }
  }

  /** Every pushed draw counts one hand. */
  lemma {:induction false} DrawTallyTotal(deck: seq<Card>, draws: seq<Draw>)
    requires forall m :: 0 <= m < |draws| ==> IsDraw(draws[m])
    requires |deck| == 52
    ensures Total(DrawTally(deck, draws)) == |draws|
  {
    if draws != [] {
      DrawTallyTotal(deck, draws[..|draws| - 1]);
    }
  }

  /** The body of the innermost loop of `generate_all_games`: when the three indices are
      distinct, push the three cards at them. */
  method Visit(table: HandTable, deck: seq<Card>, i: nat, j: nat, k: nat, ghost before: seq<Draw>)
    returns (ghost after: seq<Draw>)
    requires table.Valid() && |deck| == 52 && i < 52 && j < 52 && k < 52
    requires before == DrawsBefore(i, j, k) && table.Contents() == DrawTally(deck, before)
    modifies table.hands
    ensures after == DrawsBefore(i, j, k + 1) && table.Contents() == DrawTally(deck, after)
  {
    DrawsBeforeStep(i, j, k);
    after := before;
    if i != j && j != k && i != k {
      var drawn := DrawnCards(deck, (i, j, k));
      DrawTallySnoc(deck, before, (i, j, k));
      table.PushSequence(drawn);
      after := before + [(i, j, k)];
    }
  }

  /** The innermost loop of `generate_all_games`, for fixed `i` and `j`: push every
      draw `(i, j, k)`; there are 50 of them unless `i == j`. */
  method PushRow(table: HandTable, deck: seq<Card>, i: nat, j: nat, ghost before: seq<Draw>)
    returns (ghost after: seq<Draw>)
    requires table.Valid() && |deck| == 52 && i < 52 && j < 52
    requires before == DrawsBefore(i, j, 0) && table.Contents() == DrawTally(deck, before)
    modifies table.hands
    ensures after == DrawsBefore(i, j + 1, 0) && table.Contents() == DrawTally(deck, after)
  {
    after := before;
    for k := 0 to |deck|
      invariant after == DrawsBefore(i, j, k) && table.Contents() == DrawTally(deck, after)
    {
      after := Visit(table, deck, i, j, k, after);
    }
  }

  /** The middle loop of `generate_all_games`, for fixed `i`: 51 * 50 draws. */
  method PushBlock(table: HandTable, deck: seq<Card>, i: nat, ghost before: seq<Draw>)
    returns (ghost after: seq<Draw>)
    requires table.Valid() && |deck| == 52 && i < 52
    requires before == DrawsBefore(i, 0, 0) && table.Contents() == DrawTally(deck, before)
    modifies table.hands
    ensures after == DrawsBefore(i + 1, 0, 0) && table.Contents() == DrawTally(deck, after)
  {
    after := before;
    for j := 0 to |deck|
      invariant after == DrawsBefore(i, j, 0) && table.Contents() == DrawTally(deck, after)
    {
      after := PushRow(table, deck, i, j, after);
    }
  }

  /** The triple loop of `generate_all_games` over a 52-card deck. The ghost `draws`
      lists the index triples pushed, in order: each ordered triple of distinct deck
      indices exactly once, so the table holds 52 * 51 * 50 hands. */
  method PushAllDraws(deck: seq<Card>) returns (table: HandTable, ghost draws: seq<Draw>)
    requires |deck| == 52
    ensures fresh(table.hands) && table.Valid()
    ensures forall d: Draw :: d in draws <==> IsDraw(d)
    ensures forall m, n :: 0 <= m < n < |draws| ==> draws[m] != draws[n]
    ensures |draws| == 132600 && Total(table.Contents()) == 132600
    ensures forall m :: 0 <= m < |draws| ==> IsDraw(draws[m])
    ensures table.Contents() == DrawTally(deck, draws)
  {
    table := new HandTable();
    draws := [];
    for i := 0 to |deck|
      invariant table.Valid() && fresh(table.hands)
      invariant draws == DrawsBefore(i, 0, 0) && table.Contents() == DrawTally(deck, draws)
    {
      draws := PushBlock(table, deck, i, draws);
    }
    DrawsBeforeMembers(|deck|, 0, 0);
    DrawsBeforeIncreasing(|deck|, 0, 0);
    DrawsBeforeCount(|deck|, 0, 0);
    DrawTallyTotal(deck, draws);
  }

  /** The guess `generate_all_games` starts its paytable search from: a straight flush
      pays 250, a high card pays 0, the rest is open. */
  const StartGuess: Slots := [Some(250), None, None, None, None, Some(0)]

  /** `generate_all_games`, up to the printing: fill the table with every draw of the
      deck, then search for a paytable paying 250 for a straight flush and 0 for a high card
      whose return lies in `(0.99, 1.00]`; `None` is where `unwrap` panics. */
  method GenerateAllGames() returns (table: HandTable, ghost draws: seq<Draw>, payTable: Option<Slots>)
    ensures fresh(table.hands) && table.Valid()
    ensures forall d: Draw :: d in draws <==> IsDraw(d)
    ensures forall m, n :: 0 <= m < n < |draws| ==> draws[m] != draws[n]
    ensures Total(table.Contents()) == 132600
    ensures forall m :: 0 <= m < |draws| ==> IsDraw(draws[m])
    ensures table.Contents() == DrawTally(GenerateDeck(), draws)
    ensures payTable == Search(table.Contents(), StartGuess, 0.99, 1.00)
    ensures payTable.Some? ==> 0.99 < table.CalculateReturn(payTable.value) <= 1.00
  {
    var deck := GenerateDeck();
    DeckLayout();
    table, draws := PushAllDraws(deck);
    payTable := table.BuildPaytable(StartGuess, 0.99, 1.00);
  }
}
