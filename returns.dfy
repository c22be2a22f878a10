/** Expected return of a frequency table against a paytable, in exact rational
    arithmetic: the sum over categories of `count / total * pay`. */
module Returns {
  import opened Common
  import opened Hands
  import opened Tallies

  /** `HandPayGuess::pay`: a partial paytable whose `None` slots are not chosen yet. */
  type Slots = g: seq<Option<nat>> | |g| == CategoryCount witness [None, None, None, None, None, None]

  /** A complete paytable `[usize; 6]`. */
  type Paytable = p: seq<nat> | |p| == CategoryCount witness [0, 0, 0, 0, 0, 0]

  /** The fold of `calculate_return`: `count / total * pay` summed over the filled slots only. */
  function PartialTerms(c: seq<nat>, g: seq<Option<nat>>, total: real): real
    requires |c| == |g| && total > 0.0
  {
    if c == [] then 0.0
    else
      (if g[0].Some? then (c[0] as real / total) * (g[0].value as real) else 0.0)
      + PartialTerms(c[1..], g[1..], total)
  }

  /** The fold of `calcualte_return_full`: `count / total * pay` summed over every slot. */
  function FullTerms(c: seq<nat>, p: seq<nat>, total: real): real
    requires |c| == |p| && total > 0.0
  {
    if c == [] then 0.0
    else (c[0] as real / total) * (p[0] as real) + FullTerms(c[1..], p[1..], total)
  }

  /** `HandTable::calculate_return` (and `calculate_pay` of the older copy). */
  function PartialReturn(c: Counts, g: Slots): real
    requires Total(c) > 0
  {
    PartialTerms(c, g, Total(c) as real)
  }

  /** `HandTable::calcualte_return_full` */
  function FullReturn(c: Counts, p: Paytable): real
    requires Total(c) > 0
  {
    FullTerms(c, p, Total(c) as real)
  }

  /** The payout-weighted count of the filled slots, in whole numbers. */
  function Dot(c: seq<nat>, g: seq<Option<nat>>): nat
    requires |c| == |g|
  {
    if c == [] then 0 else (if g[0].Some? then c[0] * g[0].value else 0) + Dot(c[1..], g[1..])
  }

  /** Every slot of a complete paytable, as a filled slot. */
  function Filled(p: seq<nat>): (g: seq<Option<nat>>)
    ensures |g| == |p|
  {
    seq(|p|, i requires 0 <= i < |p| => Some(p[i]))
  }

  /** A partial paytable with its empty slots read as zero. */
  function ZeroFilled(g: seq<Option<nat>>): (p: seq<nat>)
    ensures |p| == |g|
  {
    seq(|g|, i requires 0 <= i < |g| => if g[i].Some? then g[i].value else 0)
  }

  /** The largest filled payout, or 0 when no slot is filled. */
  function MaxPay(g: seq<Option<nat>>): (m: nat)
    ensures forall i :: 0 <= i < |g| && g[i].Some? ==> g[i].value <= m
    ensures m == 0 || exists i :: 0 <= i < |g| && g[i].Some? && g[i].value == m
  {
    if g == [] then 0
    else
      var rest := MaxPay(g[1..]);
      if g[0].Some? && g[0].value > rest then g[0].value else rest
  }

  /** Summing the probabilities times the payouts is the weighted count divided by the total. */
  lemma {:induction false} PartialTermsIsDot(c: seq<nat>, g: seq<Option<nat>>, total: real)
    requires |c| == |g| && total > 0.0
    ensures PartialTerms(c, g, total) == Dot(c, g) as real / total
  {
    if c != [] {
      PartialTermsIsDot(c[1..], g[1..], total);
      if g[0].Some? {
        CastMul(c[0], g[0].value);
        assert (c[0] as real / total) * (g[0].value as real) == (c[0] as real * g[0].value as real) / total;
      }
    }
  }

  lemma {:induction false} FullTermsIsPartial(c: seq<nat>, p: seq<nat>, total: real)
    requires |c| == |p| && total > 0.0
    ensures FullTerms(c, p, total) == PartialTerms(c, Filled(p), total)
  {
    if c != [] {
      assert Filled(p)[1..] == Filled(p[1..]);
      FullTermsIsPartial(c[1..], p[1..], total);
    }
  }

  lemma {:induction false} ZeroFilledTerms(c: seq<nat>, g: seq<Option<nat>>, total: real)
    requires |c| == |g| && total > 0.0
    ensures PartialTerms(c, g, total) == FullTerms(c, ZeroFilled(g), total)
  {
    if c != [] {
      assert ZeroFilled(g)[1..] == ZeroFilled(g[1..]);
      ZeroFilledTerms(c[1..], g[1..], total);
    }
  }

  /** The full return is the partial return of the same paytable with every slot filled. */
  lemma FullIsPartial(c: Counts, p: Paytable)
    requires Total(c) > 0
    ensures FullReturn(c, p) == PartialReturn(c, Filled(p))
  {
    FullTermsIsPartial(c, p, Total(c) as real);
  }

  /** Unfilled slots contribute zero: the partial return is the full return with zeros in them. */
  lemma UnfilledCountZero(c: Counts, g: Slots)
    requires Total(c) > 0
    ensures PartialReturn(c, g) == FullReturn(c, ZeroFilled(g))
  {
    ZeroFilledTerms(c, g, Total(c) as real);
  }

  lemma {:induction false} DotBound(c: seq<nat>, g: seq<Option<nat>>, m: nat)
    requires |c| == |g|
    requires forall i :: 0 <= i < |g| && g[i].Some? ==> g[i].value <= m
    ensures Dot(c, g) <= m * Total(c)
  {
    if c != [] {
      DotBound(c[1..], g[1..], m);
      if g[0].Some? {
        MulMonotone(c[0], g[0].value, m);
      }
      MulDistributes(m, c[0], Total(c[1..]));
    }
  }

  lemma MulMonotone(a: nat, b: nat, m: nat)
    requires b <= m
    ensures a * b <= a * m
  {
  }

  lemma MulDistributes(m: nat, x: nat, y: nat)
    ensures m * (x + y) == m * x + m * y
  {
  }

  lemma CastMul(a: nat, b: nat)
    ensures (a * b) as real == a as real * b as real
  {
  }

  lemma DivMonotone(x: real, y: real, t: real)
    requires t > 0.0 && x <= y
    ensures x / t <= y / t
  {
  }

  lemma RatioBound(d: real, m: real, t: real)
    requires t > 0.0 && 0.0 <= d <= m * t
    ensures 0.0 <= d / t <= m
  {
    DivMonotone(0.0, d, t);
    DivMonotone(d, m * t, t);
  }

  /** The expected return lies between zero and any bound on the filled payouts. */
  lemma ReturnBelow(c: Counts, g: Slots, m: nat)
    requires Total(c) > 0
    requires forall i :: 0 <= i < |g| && g[i].Some? ==> g[i].value <= m
    ensures 0.0 <= PartialReturn(c, g) <= m as real
  {
    var n, d := Total(c), Dot(c, g);
    var t := n as real;
    PartialTermsIsDot(c, g, t);
    DotBound(c, g, m);
    CastMul(m, n);
    RatioBound(d as real, m as real, t);
  }

  /** The expected return lies between zero and the largest filled payout. */
  lemma PartialReturnBounds(c: Counts, g: Slots)
    requires Total(c) > 0
    ensures 0.0 <= PartialReturn(c, g) <= MaxPay(g) as real
  {
    ReturnBelow(c, g, MaxPay(g));
  }

  /** The full expected return lies between zero and the largest payout. */
  lemma FullReturnBounds(c: Counts, p: Paytable)
    requires Total(c) > 0
    ensures 0.0 <= FullReturn(c, p) <= MaxPay(Filled(p)) as real
  {
    FullIsPartial(c, p);
    PartialReturnBounds(c, Filled(p));
  }

  /** `r` keeps every filled slot of `g` (and may fill more). */
  ghost predicate Covers(g: seq<Option<nat>>, r: seq<Option<nat>>)
  {
    |g| == |r| && forall i :: 0 <= i < |g| && g[i].Some? ==> r[i] == g[i]
  }

  lemma {:induction false} DotMonotone(c: seq<nat>, g: seq<Option<nat>>, r: seq<Option<nat>>)
    requires |c| == |g| && Covers(g, r)
    ensures Dot(c, g) <= Dot(c, r)
  {
    if c != [] {
      DotMonotone(c[1..], g[1..], r[1..]);
    }
  }

  /** Filling more slots never lowers the return: the soundness of pruning a branch
      whose return already exceeds the upper bound. */
  lemma ReturnMonotone(c: Counts, g: Slots, r: Slots)
    requires Total(c) > 0 && Covers(g, r)
    ensures PartialReturn(c, g) <= PartialReturn(c, r)
  {
    var t := Total(c) as real;
    PartialTermsIsDot(c, g, t);
    PartialTermsIsDot(c, r, t);
    DotMonotone(c, g, r);
    DivMonotone(Dot(c, g) as real, Dot(c, r) as real, t);
  }
}
