/** Card suits with their integer discriminants, and the ordinal stepping
    (`from_num`, `PartialOrd`, `Step`) used to iterate over them. */
module Suits {
  import opened Common

  datatype Suit = Clubs | Hearts | Spades | Diamonds

  /** The discriminant, `suit as usize`: Clubs is 0, Diamonds is 3. */
  function Ord(s: Suit): (n: nat)
    ensures n <= 3
  {
    match s
    case Clubs => 0
    case Hearts => 1
    case Spades => 2
    case Diamonds => 3
  }

  /** `Suit::from_num`: the suit whose discriminant is `n`, if any. */
  function FromNum(n: nat): (s: Option<Suit>)
    ensures s.Some? <==> n <= 3
    ensures s.Some? ==> Ord(s.value) == n
  {
    match n
    case 0 => Some(Clubs)
    case 1 => Some(Hearts)
    case 2 => Some(Spades)
    case 3 => Some(Diamonds)
    case _ => None
  }

  /** Decoding the discriminant of a suit gives the suit back. */
  lemma FromNumOrd(s: Suit)
    ensures FromNum(Ord(s)) == Some(s)
  {
    match s
    case Clubs =>
    case Hearts =>
    case Spades =>
    case Diamonds =>
  }

  /** Two suits with the same discriminant are the same suit. */
  lemma OrdInjective(s: Suit, t: Suit)
    ensures Ord(s) == Ord(t) <==> s == t
  {
    FromNumOrd(s);
    FromNumOrd(t);
  }

  /** `partial_cmp` compares the discriminants and never answers `None`. */
  function PartialCmp(a: Suit, b: Suit): (o: Option<Ordering>)
    ensures o.Some?
    ensures o.value == Less <==> Ord(a) < Ord(b)
    ensures o.value == Equal <==> a == b
    ensures o.value == Greater <==> Ord(a) > Ord(b)
  {
    OrdInjective(a, b);
    Some(Compare(Ord(a), Ord(b)))
  }

  /** `Step::forward_checked`: the suit `count` places above `start`, if any. */
  function ForwardChecked(start: Suit, count: nat): (r: Option<Suit>)
    ensures r.Some? <==> Ord(start) + count <= 3
    ensures r.Some? ==> Ord(r.value) == Ord(start) + count
  {
    FromNum(Ord(start) + count)
  }

  /** `Step::backward_checked`: the suit `count` places below `start`, if any.
      Unlike ranks, discriminant 0 is a suit, so a count equal to the ordinal succeeds. */
  function BackwardChecked(start: Suit, count: nat): (r: Option<Suit>)
    ensures r.Some? <==> count <= Ord(start)
    ensures r.Some? ==> Ord(r.value) == Ord(start) - count
  {
    var startNum := Ord(start);
    if startNum < count then None else FromNum(startNum - count)
  }

  /** `Step::steps_between`: how many forward steps lead from `start` to `end`.
      The unsigned subtraction needs `start <= end`. */
  function StepsBetween(start: Suit, end: Suit): (r: Option<nat>)
    requires Ord(start) <= Ord(end)
    ensures r.Some? && ForwardChecked(start, r.value) == Some(end)
  {
    FromNumOrd(end);
    Some(Ord(end) - Ord(start))
  }

  /** Stepping forward and then back by the same count returns to the start. */
  lemma ForwardThenBackward(s: Suit, c: nat, t: Suit)
    requires ForwardChecked(s, c) == Some(t)
    ensures BackwardChecked(t, c) == Some(s)
  {
    FromNumOrd(s);
  }

  /** Stepping back and then forward by the same count returns to the start. */
  lemma BackwardThenForward(s: Suit, c: nat, t: Suit)
    requires BackwardChecked(s, c) == Some(t)
    ensures ForwardChecked(t, c) == Some(s)
  {
    FromNumOrd(s);
  }
}
