/** The six hand categories, in the fixed index order used for table slots
    and paytable slots (lower index = rarer, better hand). */
module Hands {
  import opened Common

  datatype Hand = StraightFlush | ThreeOfAKind | Straight | Flush | Pair | HighCard

  /** `Hand::HighCard as usize + 1`: the number of table and paytable slots. */
  const CategoryCount: nat := 6

  /** The discriminant, `hand as usize`. */
  function Index(h: Hand): (i: nat)
    ensures i < CategoryCount
  {
    match h
    case StraightFlush => 0
    case ThreeOfAKind => 1
    case Straight => 2
    case Flush => 3
    case Pair => 4
    case HighCard => 5
  }

  /** `impl From<usize> for Hand`; `None` stands for the panic on an index above 5. */
  function FromIndex(i: nat): (h: Option<Hand>)
    ensures h.Some? <==> i < CategoryCount
    ensures h.Some? ==> Index(h.value) == i
  {
    match i
    case 0 => Some(StraightFlush)
    case 1 => Some(ThreeOfAKind)
    case 2 => Some(Straight)
    case 3 => Some(Flush)
    case 4 => Some(Pair)
    case 5 => Some(HighCard)
    case _ => None
  }

  /** Converting a category to its index and back gives the category. */
  lemma FromIndexIndex(h: Hand)
    ensures FromIndex(Index(h)) == Some(h)
  {
    match h
    case StraightFlush =>
    case ThreeOfAKind =>
    case Straight =>
    case Flush =>
    case Pair =>
    case HighCard =>
  }

  /** `partial_cmp` compares the indices in reverse: the lower index is the greater hand. */
  function PartialCmp(a: Hand, b: Hand): (o: Option<Ordering>)
    ensures o.Some?
    ensures o.value == Greater <==> Index(a) < Index(b)
    ensures o.value == Equal <==> a == b
    ensures o.value == Less <==> Index(a) > Index(b)
  {
    FromIndexIndex(a);
    FromIndexIndex(b);
    Some(Compare(Index(b), Index(a)))
  }
}
