/** Frequency tables as values: six counters, one per hand category, their total,
    the effect of one push, and the table of a whole sequence of classified draws. */
module Tallies {
  import opened Hands

  /** The contents of `HandTable::hands`. */
  type Counts = c: seq<nat> | |c| == CategoryCount witness [0, 0, 0, 0, 0, 0]

  /** `HandTable::default()` */
  const Empty: Counts := [0, 0, 0, 0, 0, 0]

  /** `self.hands.iter().sum()` */
  function Total(c: seq<nat>): nat
  {
    if c == [] then 0 else c[0] + Total(c[1..])
  }

  lemma {:induction false} TotalUpdate(c: seq<nat>, i: nat, v: nat)
    requires i < |c|
    ensures Total(c[i := v]) == Total(c) - c[i] + v
  {
    if i > 0 {
      assert c[i := v][1..] == c[1..][i - 1 := v];
      TotalUpdate(c[1..], i - 1, v);
    }
  }

  /** One push of a hand of category `h`: the total grows by exactly one, the counter
      of `h` by one, and no other counter changes. */
  function Bump(c: Counts, h: Hand): (r: Counts)
    ensures Total(r) == Total(c) + 1
    ensures r[Index(h)] == c[Index(h)] + 1
    ensures forall i :: 0 <= i < CategoryCount && i != Index(h) ==> r[i] == c[i]
  {
    TotalUpdate(c, Index(h), c[Index(h)] + 1);
    c[Index(h) := c[Index(h)] + 1]
  }

  /** The table built by pushing hands of the given categories, in order, into an empty table. */
  function Tally(hs: seq<Hand>): Counts
  {
    if hs == [] then Empty else Bump(Tally(hs[..|hs| - 1]), hs[|hs| - 1])
  }

  /** Pushing one more draw bumps the tally of the draws before it. */
  lemma {:induction false} TallySnoc(hs: seq<Hand>, h: Hand)
    ensures Tally(hs + [h]) == Bump(Tally(hs), h)
  {
    assert (hs + [h])[..|hs + [h]| - 1] == hs;
  }

  /** Each counter of a tally counts the draws of its category, and the total counts all draws. */
  lemma {:induction false} TallyCounts(hs: seq<Hand>)
    ensures Total(Tally(hs)) == |hs|
    ensures forall h :: Tally(hs)[Index(h)] == multiset(hs)[h]
  {
    if hs != [] {
      var init, last := hs[..|hs| - 1], hs[|hs| - 1];
      assert hs == init + [last];
      TallyCounts(init);
      forall h ensures Tally(hs)[Index(h)] == multiset(hs)[h] {
        FromIndexIndex(h);
        FromIndexIndex(last);
      }
    }
  }

  /** Counter-by-counter sum of two tables (`impl Add for HandTable`). */
  function Pointwise(a: seq<nat>, b: seq<nat>): (r: seq<nat>)
    requires |a| == |b|
    ensures |r| == |a|
  {
    seq(|a|, i requires 0 <= i < |a| => a[i] + b[i])
  }

  /** The total of a sum of tables is the sum of their totals. */
  lemma {:induction false} TotalPointwise(a: seq<nat>, b: seq<nat>)
    requires |a| == |b|
    ensures Total(Pointwise(a, b)) == Total(a) + Total(b)
  {
    if a != [] {
      assert Pointwise(a, b)[1..] == Pointwise(a[1..], b[1..]);
      TotalPointwise(a[1..], b[1..]);
    }
  }

  /** Merging the tables of two disjoint runs of draws gives the table of both runs. */
  lemma {:induction false} TallyConcat(xs: seq<Hand>, ys: seq<Hand>)
    ensures Tally(xs + ys) == Pointwise(Tally(xs), Tally(ys))
  {
    if ys == [] {
      assert xs + ys == xs;
    } else {
      var init, last := ys[..|ys| - 1], ys[|ys| - 1];
      assert (xs + ys)[..|xs + ys| - 1] == xs + init;
      TallyConcat(xs, init);
    }
  }
}
