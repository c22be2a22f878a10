/** `HandTable`: six counters, updated in place as classified draws are pushed. */
module HandTables {
  import opened Common
  import opened Hands
  import opened Classifier
  import opened Tallies
  import opened Returns
  import opened Paytables

  class HandTable {
    /** `hands: [usize; 6]`, one counter per category, indexed by `Hand as usize`. */
    const hands: array<nat>

    ghost predicate Valid()
      reads this
    {
      hands.Length == CategoryCount
    }

    /** The counters as a value. */
    function Contents(): Counts
      reads this, hands
      requires Valid()
    {
      hands[..]
    }

    /** `HandTable::default()`: every counter at zero. */
    constructor ()
      ensures Valid() && fresh(hands)
      ensures Contents() == Empty
    {
      hands := new nat[CategoryCount](_ => 0);
    }

    /** `push_sequence`: classify the three cards and count one more hand of that category. */
    method PushSequence(cards: ThreeCards)
      requires Valid()
      modifies hands
      ensures Contents() == Bump(old(Contents()), GetHand(cards))
      ensures Total(Contents()) == Total(old(Contents())) + 1
    {
      var hand := GetHand(cards);
      hands[Index(hand)] := hands[Index(hand)] + 1;
    }

    /** `impl Add for HandTable`: add the other table into this one, counter by counter,
        and hand this table back. */
    method Add(other: HandTable) returns (sum: HandTable)
      requires Valid() && other.Valid() && other.hands != hands
      modifies hands
      ensures sum == this
      ensures Contents() == Pointwise(old(Contents()), other.Contents())
      ensures Total(Contents()) == Total(old(Contents())) + Total(other.Contents())
    {
      for i := 0 to hands.Length
        invariant forall k :: 0 <= k < i ==> hands[k] == old(hands[k]) + other.hands[k]
        invariant forall k :: i <= k < hands.Length ==> hands[k] == old(hands[k])
      {
        hands[i] := hands[i] + other.hands[i];
      }
      sum := this;
      TotalPointwise(old(Contents()), other.Contents());
    }

    /** `calculate_return`: the expected return of a partial paytable, unfilled slots
        counting as zero; it lies between zero and the largest filled payout. */
    function CalculateReturn(guess: Slots): (r: real)
      reads this, hands
      requires Valid() && Total(Contents()) > 0
      ensures 0.0 <= r <= MaxPay(guess) as real
      ensures r == FullReturn(Contents(), ZeroFilled(guess))
    {
      PartialReturnBounds(Contents(), guess);
      UnfilledCountZero(Contents(), guess);
      PartialReturn(Contents(), guess)
    }

    /** `calcualte_return_full`: the expected return of a complete paytable; it lies
        between zero and the largest payout. */
    function CalculateReturnFull(pay: Paytable): (r: real)
      reads this, hands
      requires Valid() && Total(Contents()) > 0
      ensures 0.0 <= r <= MaxPay(Filled(pay)) as real
      ensures r == PartialReturn(Contents(), Filled(pay))
    {
      FullReturnBounds(Contents(), pay);
      FullIsPartial(Contents(), pay);
      FullReturn(Contents(), pay)
    }

    /** `build_paytable`: a found guess has its return in `(low, high]`, keeps every slot
        that was filled, and fills empty slots from the left with strictly decreasing payouts. */
    function BuildPaytable(guess: Slots, low: real, high: real): (r: Option<Slots>)
      reads this, hands
      requires Valid() && Total(Contents()) > 0 && guess[0].Some?
      ensures r.Some? ==> low < CalculateReturn(r.value) <= high
      ensures r.Some? ==> SearchExtends(guess, r.value)
    {
      Search(Contents(), guess, low, high)
    }

    /** `build_paytable` is complete: when some extension of the guess that the search
        may build has its return in `(low, high]`, the search finds a paytable. */
    lemma BuildPaytableComplete(guess: Slots, low: real, high: real, r: Slots)
      requires Valid() && Total(Contents()) > 0 && guess[0].Some?
      requires SearchExtends(guess, r) && low < CalculateReturn(r) <= high
      ensures BuildPaytable(guess, low, high).Some?
    {
      SearchComplete(Contents(), guess, low, high, r);
    }
  }
}
