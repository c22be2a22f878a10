/** `optimal_play`: for a held three-card hand, build one replacement table per
    slot (every other deck card in that slot), and discard the card of the first slot
    with the greatest expected return, but only if that return beats standing pat. */
module Advisor {
  import opened Common
  import opened Hands
  import opened Classifier
  import opened Deck
  import opened Tallies
  import opened Returns
  import opened HandTables

  /** The hands pushed into switch table `i`: for each card of `deck` that is not held,
      the held hand with slot `i` replaced by it, in deck order. */
  function Replacements(cards: ThreeCards, i: nat, deck: seq<Card>): seq<ThreeCards>
    requires i < 3
  {
    if deck == [] then []
    else
      var init, last := deck[..|deck| - 1], deck[|deck| - 1];
      Replacements(cards, i, init) + (if last !in cards then [cards[i := last]] else [])
  }

  /** The counters of switch table `i` once every deck card has been tried. */
  function SwitchCounts(cards: ThreeCards, i: nat): Counts
    requires i < 3
  {
    Tally(Classify(Replacements(cards, i, GenerateDeck())))
  }

  /** The number of cards of `deck` that are held. */
  function CountHeld(deck: seq<Card>, cards: ThreeCards): nat
  {
    if deck == [] then 0
    else CountHeld(deck[..|deck| - 1], cards) + (if deck[|deck| - 1] in cards then 1 else 0)
  }

  function CountEqual(deck: seq<Card>, c: Card): nat
  {
    if deck == [] then 0
    else CountEqual(deck[..|deck| - 1], c) + (if deck[|deck| - 1] == c then 1 else 0)
  }

  ghost predicate Distinct(deck: seq<Card>)
  {
    forall i, j :: 0 <= i < j < |deck| ==> deck[i] != deck[j]
  }

  lemma {:induction false} ReplacementsLength(cards: ThreeCards, i: nat, deck: seq<Card>)
    requires i < 3
    ensures |Replacements(cards, i, deck)| + CountHeld(deck, cards) == |deck|
  {
    if deck != [] {
      ReplacementsLength(cards, i, deck[..|deck| - 1]);
    }
  }

  lemma {:induction false} CountHeldSplit(deck: seq<Card>, cards: ThreeCards)
    ensures CountHeld(deck, cards) <= CountEqual(deck, cards[0]) + CountEqual(deck, cards[1]) + CountEqual(deck, cards[2])
  {
    if deck != [] {
      CountHeldSplit(deck[..|deck| - 1], cards);
    }
  }

  lemma {:induction false} CountEqualAbsent(deck: seq<Card>, c: Card)
    requires c !in deck
    ensures CountEqual(deck, c) == 0
  {
    if deck != [] {
      CountEqualAbsent(deck[..|deck| - 1], c);
    }
  }

  lemma {:induction false} CountEqualDistinct(deck: seq<Card>, c: Card)
    requires Distinct(deck)
    ensures CountEqual(deck, c) <= 1
  {
    if deck != [] {
      var init := deck[..|deck| - 1];
      if deck[|deck| - 1] == c {
        CountEqualAbsent(init, c);
      } else {
        CountEqualDistinct(init, c);
      }
    }
  }

  /** Every switch table holds at least 49 draws: at most three deck cards are held. */
  lemma SwitchTotal(cards: ThreeCards, i: nat)
    requires i < 3
    ensures Total(SwitchCounts(cards, i)) >= 49
  {
    var deck := GenerateDeck();
    DeckLayout();
    ReplacementsLength(cards, i, deck);
    CountHeldSplit(deck, cards);
    CountEqualDistinct(deck, cards[0]);
    CountEqualDistinct(deck, cards[1]);
    CountEqualDistinct(deck, cards[2]);
    TallyCounts(Classify(Replacements(cards, i, deck)));
  }

  /** A held card that is in the deck is counted once. */
  lemma {:induction false} CountEqualPresent(deck: seq<Card>, c: Card)
    requires Distinct(deck) && c in deck
    ensures CountEqual(deck, c) == 1
  {
    var init := deck[..|deck| - 1];
    if deck[|deck| - 1] == c {
      assert c !in init;
      CountEqualAbsent(init, c);
    } else {
      assert c in init;
      CountEqualPresent(init, c);
    }
  }

  /** Three distinct held cards: the held deck cards are the copies of each of them. */
  lemma {:induction false} CountHeldDistinct(deck: seq<Card>, cards: ThreeCards)
    requires cards[0] != cards[1] && cards[1] != cards[2] && cards[0] != cards[2]
    ensures CountHeld(deck, cards) == CountEqual(deck, cards[0]) + CountEqual(deck, cards[1]) + CountEqual(deck, cards[2])
  {
    if deck != [] {
      CountHeldDistinct(deck[..|deck| - 1], cards);
    }
  }

  /** Three distinct held cards leave exactly 49 replacements per slot. */
  lemma SwitchTotalDistinct(cards: ThreeCards, i: nat)
    requires i < 3
    requires cards[0] != cards[1] && cards[1] != cards[2] && cards[0] != cards[2]
    ensures Total(SwitchCounts(cards, i)) == 49
  {
    var deck := GenerateDeck();
    DeckLayout();
    ReplacementsLength(cards, i, deck);
    CountHeldDistinct(deck, cards);
    DeckComplete(cards[0]);
    DeckComplete(cards[1]);
    DeckComplete(cards[2]);
    CountEqualPresent(deck, cards[0]);
    CountEqualPresent(deck, cards[1]);
    CountEqualPresent(deck, cards[2]);
    TallyCounts(Classify(Replacements(cards, i, deck)));
  }

  /** The expected return of replacing slot `i`. */
  function SwitchReturn(cards: ThreeCards, i: nat, pay: Paytable): real
    requires i < 3
  {
    SwitchTotal(cards, i);
    FullReturn(SwitchCounts(cards, i), pay)
  }

  /** A table holding the switch counts of slot `i` yields its switch return. */
  lemma SwitchTableReturn(cards: ThreeCards, i: nat, pay: Paytable, c: Counts)
    requires i < 3 && c == SwitchCounts(cards, i)
    ensures Total(c) > 0
    ensures PartialReturn(c, Filled(pay)) == SwitchReturn(cards, i, pay)
  {
    SwitchTotal(cards, i);
    FullIsPartial(c, pay);
  }

  /** The payout of keeping all three cards. */
  function StandReturn(cards: ThreeCards, pay: Paytable): real
  {
    pay[Index(GetHand(cards))] as real
  }

  function Held(cards: ThreeCards): seq<Option<Card>>
  {
    [Some(cards[0]), Some(cards[1]), Some(cards[2])]
  }

  function Max(x: real, y: real): real
  {
    if x >= y then x else y
  }

  /** The first slot whose return is the greatest of the three. */
  function FirstBest(r: seq<real>): (k: nat)
    requires |r| == 3
    ensures k < 3
    ensures forall j :: 0 <= j < 3 ==> r[j] <= r[k]
    ensures forall j :: 0 <= j < k ==> r[j] < r[k]
  {
    var best := Max(r[0], Max(r[1], r[2]));
    if r[0] == best then 0 else if r[1] == best then 1 else 2
  }

  /** The decision of `optimal_play` on its returns: discard the first best slot when its
      return strictly beats standing pat, else keep everything. */
  function Decide(held: seq<Option<Card>>, r: seq<real>, stand: real): (out: seq<Option<Card>>)
    requires |held| == 3 && |r| == 3
    ensures |out| == 3
    ensures forall k :: 0 <= k < 3 ==> out[k] in {held[k], None}
    ensures forall k, j :: 0 <= k < j < 3 && held[k].Some? && held[j].Some? ==> out[k].Some? || out[j].Some?
    ensures forall k :: 0 <= k < 3 && held[k].Some? && out[k].None? ==>
      && r[k] > stand
      && (forall j :: 0 <= j < 3 ==> r[j] <= r[k])
      && (forall j :: 0 <= j < k ==> r[j] < r[k])
    ensures (forall k :: 0 <= k < 3 ==> held[k].Some?) ==>
      (out == held <==> forall k :: 0 <= k < 3 ==> r[k] <= stand)
  {
    var first := FirstBest(r);
    if r[first] > stand then held[first := None] else held
  }

  /** The returns of replacing each slot. */
  function SwitchReturns(cards: ThreeCards, pay: Paytable): (r: seq<real>)
    ensures |r| == 3
  {
    [SwitchReturn(cards, 0, pay), SwitchReturn(cards, 1, pay), SwitchReturn(cards, 2, pay)]
  }

  /** The advice, stated directly: the best replacement return, the first slot that
      reaches it, and a discard only if it strictly beats standing pat. */
  function Advice(cards: ThreeCards, pay: Paytable): seq<Option<Card>>
  {
    Decide(Held(cards), SwitchReturns(cards, pay), StandReturn(cards, pay))
  }

  /** Trying one more deck card pushes one more draw, or none if the card is held. */
  lemma ReplacementsStep(cards: ThreeCards, i: nat, deck: seq<Card>, j: nat)
    requires i < 3 && j < |deck|
    ensures Tally(Classify(Replacements(cards, i, deck[..j + 1]))) ==
      if deck[j] in cards then Tally(Classify(Replacements(cards, i, deck[..j])))
      else Bump(Tally(Classify(Replacements(cards, i, deck[..j]))), GetHand(cards[i := deck[j]]))
  {
    var before := Replacements(cards, i, deck[..j]);
    assert deck[..j + 1][..j] == deck[..j];
    if deck[j] !in cards {
      var newHand := cards[i := deck[j]];
      assert Classify(before + [newHand]) == Classify(before) + [GetHand(newHand)];
      TallySnoc(Classify(before), GetHand(newHand));
    } else {
      assert before + [] == before;
    }
  }

  /** The inner loop of `optimal_play`: fill a fresh table with every replacement of slot `i`. */
  method BuildSwitchTable(cards: ThreeCards, i: nat, deck: seq<Card>) returns (table: HandTable)
    requires i < 3
    ensures fresh(table.hands) && table.Valid()
    ensures table.Contents() == Tally(Classify(Replacements(cards, i, deck)))
  {
    table := new HandTable();
    for j := 0 to |deck|
      invariant table.Valid() && fresh(table.hands)
      invariant table.Contents() == Tally(Classify(Replacements(cards, i, deck[..j])))
    {
      var card := deck[j];
      ReplacementsStep(cards, i, deck, j);
      if card !in cards {
        var newHand := cards[i := card];
        table.PushSequence(newHand);
      }
    }
    assert deck[..|deck|] == deck;
  }

  /** The scan of `optimal_play` ends with the best replacement return and the first slot
      reaching it, because every return is at least the starting value zero. */
  lemma ScanResult(r: seq<real>, maxIdx: nat, maxReturn: real)
    requires |r| == 3 && maxIdx < 3
    requires forall k :: 0 <= k < 3 ==> 0.0 <= r[k] <= maxReturn
    requires forall k :: 0 <= k < maxIdx ==> r[k] < maxReturn
    requires r[maxIdx] == maxReturn
    ensures maxIdx == FirstBest(r)
  {
  }

  /** Once the three switch returns are known, the advice is the held hand with the
      first best slot discarded exactly when its return beats standing pat. */
  lemma AdviceFromScan(cards: ThreeCards, pay: Paytable, maxIdx: nat, maxReturn: real)
    requires maxIdx == FirstBest(SwitchReturns(cards, pay))
    requires maxReturn == SwitchReturns(cards, pay)[maxIdx]
    ensures Advice(cards, pay) ==
      if maxReturn > StandReturn(cards, pay) then Held(cards)[maxIdx := None] else Held(cards)
  {
  }

  /** The first loop of `optimal_play` over a given deck: one filled table per slot. */
  method FillSwitchTables(cards: ThreeCards, deck: seq<Card>) returns (switchTables: seq<HandTable>)
    ensures |switchTables| == 3
    ensures forall k :: 0 <= k < 3 ==>
      switchTables[k].Valid() && switchTables[k].Contents() == Tally(Classify(Replacements(cards, k, deck)))
  {
    switchTables := [];
    for i := 0 to 3
      invariant |switchTables| == i
      invariant forall k :: 0 <= k < i ==>
        switchTables[k].Valid() && switchTables[k].Contents() == Tally(Classify(Replacements(cards, k, deck)))
    {
      var table := BuildSwitchTable(cards, i, deck);
      switchTables := switchTables + [table];
    }
  }

  /** The first loop of `optimal_play`: one filled switch table per slot, over the deck. */
  method BuildSwitchTables(cards: ThreeCards) returns (switchTables: seq<HandTable>)
    ensures |switchTables| == 3
    ensures forall k :: 0 <= k < 3 ==>
      switchTables[k].Valid() && switchTables[k].Contents() == SwitchCounts(cards, k)
  {
    var deck := GenerateDeck();
    switchTables := FillSwitchTables(cards, deck);
  }

  /** The second loop of `optimal_play`: the first table with the greatest expected
      return, starting from return zero at slot zero. */
  method ScanTables(tables: seq<HandTable>, pay: Paytable) returns (maxIdx: nat, maxReturn: real)
    requires |tables| == 3
    requires forall k :: 0 <= k < 3 ==> tables[k].Valid() && Total(tables[k].Contents()) > 0
    ensures maxIdx == FirstBest([tables[0].CalculateReturnFull(pay), tables[1].CalculateReturnFull(pay),
                                 tables[2].CalculateReturnFull(pay)])
    ensures maxReturn == tables[maxIdx].CalculateReturnFull(pay)
  {
    ghost var r := [tables[0].CalculateReturnFull(pay), tables[1].CalculateReturnFull(pay),
                    tables[2].CalculateReturnFull(pay)];
    maxReturn := 0.0;
    maxIdx := 0;
    for i := 0 to |tables|
      invariant maxIdx < 3 && 0.0 <= maxReturn
      invariant forall k :: 0 <= k < i ==> 0.0 <= r[k] <= maxReturn
      invariant forall k :: 0 <= k < maxIdx ==> r[k] < maxReturn
      invariant i == 0 ==> maxIdx == 0 && maxReturn == 0.0
      invariant i > 0 ==> maxIdx < i && r[maxIdx] == maxReturn
    {
      var ret := tables[i].CalculateReturnFull(pay);
      if ret > maxReturn {
        maxReturn := ret;
        maxIdx := i;
      }
    }
    ScanResult(r, maxIdx, maxReturn);
  }

  /** `optimal_play` */
  method OptimalPlay(cards: ThreeCards, paytable: Paytable) returns (out: seq<Option<Card>>)
    ensures out == Advice(cards, paytable)
  {
    var switchTables := BuildSwitchTables(cards);
    assert forall k :: 0 <= k < 3 ==> switchTables[k].Valid() && Total(switchTables[k].Contents()) > 0 by {
      forall k | 0 <= k < 3
        ensures switchTables[k].Valid() && Total(switchTables[k].Contents()) > 0
      {
        SwitchTableReturn(cards, k, paytable, switchTables[k].Contents());
      }
    }
    var maxIdx, maxReturn := ScanTables(switchTables, paytable);
    SwitchTableReturn(cards, 0, paytable, switchTables[0].Contents());
    SwitchTableReturn(cards, 1, paytable, switchTables[1].Contents());
    SwitchTableReturn(cards, 2, paytable, switchTables[2].Contents());
    assert [switchTables[0].CalculateReturnFull(paytable), switchTables[1].CalculateReturnFull(paytable),
            switchTables[2].CalculateReturnFull(paytable)] == SwitchReturns(cards, paytable);
    AdviceFromScan(cards, paytable, maxIdx, maxReturn);
    var currentHand := GetHand(cards);
    var currentReturn := paytable[Index(currentHand)] as real;
    if maxReturn > currentReturn {
      out := [Some(cards[0]), Some(cards[1]), Some(cards[2])];
      out := out[maxIdx := None];
    } else {
      out := [Some(cards[0]), Some(cards[1]), Some(cards[2])];
    }
  }

  /** With only a straight flush paying, a held three-card straight flush cannot be
      improved: every replacement return is at most the largest payout, 1. */
  lemma StandPatExample()
    ensures Advice([Card(Ranks.Eight, Suits.Clubs), Card(Ranks.Nine, Suits.Clubs), Card(Ranks.Ten, Suits.Clubs)],
                   [1, 0, 0, 0, 0, 0])
      == [Some(Card(Ranks.Eight, Suits.Clubs)), Some(Card(Ranks.Nine, Suits.Clubs)), Some(Card(Ranks.Ten, Suits.Clubs))]
  {
    var cards: ThreeCards := [Card(Ranks.Eight, Suits.Clubs), Card(Ranks.Nine, Suits.Clubs), Card(Ranks.Ten, Suits.Clubs)];
    var pay: Paytable := [1, 0, 0, 0, 0, 0];
    assert GetHand(cards) == StraightFlush;
    var filled: seq<Option<nat>> := [Some(1), Some(0), Some(0), Some(0), Some(0), Some(0)];
    assert Filled(pay) == filled;
    assert MaxPay(filled) == 1;
    forall k | 0 <= k < 3
      ensures SwitchReturn(cards, k, pay) <= StandReturn(cards, pay)
    {
      SwitchTotal(cards, k);
      FullReturnBounds(SwitchCounts(cards, k), pay);
    }
  }
}
