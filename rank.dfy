/** Card ranks with their integer discriminants, and the ordinal stepping
    (`from_num`, `PartialOrd`, `Step`) used to iterate over them. */
module Ranks {
  import opened Common

  datatype Rank = A | Two | Three | Four | Five | Six | Seven | Eight | Nine | Ten | Jack | Queen | King

  /** The discriminant, `rank as usize`: A is 1, King is 13. */
  function Ord(r: Rank): (n: nat)
    ensures 1 <= n <= 13
  {
    match r
    case A => 1
    case Two => 2
    case Three => 3
    case Four => 4
    case Five => 5
    case Six => 6
    case Seven => 7
    case Eight => 8
    case Nine => 9
    case Ten => 10
    case Jack => 11
    case Queen => 12
    case King => 13
  }

  /** `Rank::from_num`: the rank whose discriminant is `n`, if any. */
  function FromNum(n: nat): (r: Option<Rank>)
    ensures r.Some? <==> 1 <= n <= 13
    ensures r.Some? ==> Ord(r.value) == n
  {
    match n
    case 1 => Some(A)
    case 2 => Some(Two)
    case 3 => Some(Three)
    case 4 => Some(Four)
    case 5 => Some(Five)
    case 6 => Some(Six)
    case 7 => Some(Seven)
    case 8 => Some(Eight)
    case 9 => Some(Nine)
    case 10 => Some(Ten)
    case 11 => Some(Jack)
    case 12 => Some(Queen)
    case 13 => Some(King)
    case _ => None
  }

  /** Decoding the discriminant of a rank gives the rank back. */
  lemma FromNumOrd(r: Rank)
    ensures FromNum(Ord(r)) == Some(r)
  {
    match r
    case A =>
    case Two =>
    case Three =>
    case Four =>
    case Five =>
    case Six =>
    case Seven =>
    case Eight =>
    case Nine =>
    case Ten =>
    case Jack =>
    case Queen =>
    case King =>
  }

  /** Two ranks with the same discriminant are the same rank. */
  lemma OrdInjective(r: Rank, s: Rank)
    ensures Ord(r) == Ord(s) <==> r == s
  {
    FromNumOrd(r);
    FromNumOrd(s);
  }

  /** `partial_cmp` compares the discriminants and never answers `None`. */
  function PartialCmp(a: Rank, b: Rank): (o: Option<Ordering>)
    ensures o.Some?
    ensures o.value == Less <==> Ord(a) < Ord(b)
    ensures o.value == Equal <==> a == b
    ensures o.value == Greater <==> Ord(a) > Ord(b)
  {
    OrdInjective(a, b);
    Some(Compare(Ord(a), Ord(b)))
  }

  /** `Step::forward_checked`: the rank `count` places above `start`, if any. */
  function ForwardChecked(start: Rank, count: nat): (r: Option<Rank>)
    ensures r.Some? <==> Ord(start) + count <= 13
    ensures r.Some? ==> Ord(r.value) == Ord(start) + count
  {
    FromNum(Ord(start) + count)
  }

  /** `Step::backward_checked`: the rank `count` places below `start`, if any.
      A count equal to the ordinal reaches the missing discriminant 0. */
  function BackwardChecked(start: Rank, count: nat): (r: Option<Rank>)
    ensures r.Some? <==> count < Ord(start)
    ensures r.Some? ==> Ord(r.value) == Ord(start) - count
  {
    var startNum := Ord(start);
    if startNum < count then None else FromNum(startNum - count)
  }

  /** `Step::steps_between`: how many forward steps lead from `start` to `end`.
      The unsigned subtraction needs `start <= end`. */
  function StepsBetween(start: Rank, end: Rank): (r: Option<nat>)
    requires Ord(start) <= Ord(end)
    ensures r.Some? && ForwardChecked(start, r.value) == Some(end)
  {
    FromNumOrd(end);
    Some(Ord(end) - Ord(start))
  }

  /** Stepping forward and then back by the same count returns to the start. */
  lemma ForwardThenBackward(s: Rank, c: nat, t: Rank)
    requires ForwardChecked(s, c) == Some(t)
    ensures BackwardChecked(t, c) == Some(s)
  {
    FromNumOrd(s);
  }

  /** Stepping back and then forward by the same count returns to the start. */
  lemma BackwardThenForward(s: Rank, c: nat, t: Rank)
    requires BackwardChecked(s, c) == Some(t)
    ensures ForwardChecked(t, c) == Some(s)
  {
    FromNumOrd(s);
  }
}
