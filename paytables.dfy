/** The paytable search of `build_paytable`: a depth-first search that fills the
    first empty slot with every value below its left neighbour, from the largest
    down, and accepts the first guess whose return lies in `(low, high]`. */
module Paytables {
  import opened Common
  import opened Hands
  import opened Tallies
  import opened Returns

  /** The number of empty slots. */
  function Holes(g: seq<Option<nat>>): nat
  {
    if g == [] then 0 else (if g[0].None? then 1 else 0) + Holes(g[1..])
  }

  lemma {:induction false} HolesFill(g: seq<Option<nat>>, i: nat, v: nat)
    requires i < |g| && g[i].None?
    ensures Holes(g) > 0 && Holes(g[i := Some(v)]) == Holes(g) - 1
  {
    if i > 0 {
      assert g[i := Some(v)][1..] == g[1..][i - 1 := Some(v)];
      HolesFill(g[1..], i - 1, v);
    }
  }

  function FirstHoleFrom(g: Slots, i: nat): (idx: Option<nat>)
    requires i <= CategoryCount
    ensures idx.None? ==> forall j :: i <= j < CategoryCount ==> g[j].Some?
    ensures idx.Some? ==> i <= idx.value < CategoryCount && g[idx.value].None? &&
                          forall j :: i <= j < idx.value ==> g[j].Some?
    decreases CategoryCount - i
  {
    if i == CategoryCount then None
    else if g[i].None? then Some(i)
    else FirstHoleFrom(g, i + 1)
  }

  /** `check_idx.next()`: the index of the first empty slot, if any. */
  function FirstHole(g: Slots): (idx: Option<nat>)
    ensures idx.None? ==> forall j :: 0 <= j < CategoryCount ==> g[j].Some?
    ensures idx.Some? ==> idx.value < CategoryCount && g[idx.value].None? &&
                          forall j :: 0 <= j < idx.value ==> g[j].Some?
  {
    FirstHoleFrom(g, 0)
  }

  /** What the search may do to a guess `g` to produce `r`: keep every filled slot,
      fill empty slots from the left without skipping one, and put in each filled slot
      a payout strictly below its left neighbour's. */
  ghost predicate SearchExtends(g: Slots, r: Slots)
  {
    && Covers(g, r)
    && (forall i :: 0 < i < CategoryCount && g[i].None? && r[i].Some? ==>
          r[i - 1].Some? && r[i].value < r[i - 1].value)
    && (forall i, j :: 0 <= j < i < CategoryCount && g[j].None? && g[i].None? && r[i].Some? ==> r[j].Some?)
  }

  /** One search step: `g'` is `g` with its first hole filled by a value below the left neighbour. */
  lemma ExtendsStep(g: Slots, idx: nat, v: nat, r: Slots)
    requires FirstHole(g) == Some(idx) && 0 < idx
    requires g[idx - 1].Some? && v < g[idx - 1].value
    requires SearchExtends(g[idx := Some(v)], r)
    ensures SearchExtends(g, r)
  {
  }

  /** `build_paytable`, as written: out of band above gives `None`, in band gives the
      guess itself (empty slots and all), and otherwise the candidates for the first
      empty slot are tried in descending order. */
  function Search(c: Counts, g: Slots, low: real, high: real): (r: Option<Slots>)
    requires Total(c) > 0 && g[0].Some?
    ensures r.Some? ==> low < PartialReturn(c, r.value) <= high
    ensures r.Some? ==> SearchExtends(g, r.value)
    decreases Holes(g), 1, 0
  {
    var expected := PartialReturn(c, g);
    if expected > high then None
    else if expected > low then Some(g)
    else
      match FirstHole(g)
      case None => None
      case Some(idx) => TryCandidates(c, g, idx, g[idx - 1].value, low, high)
  }

  /** The lazily flattened iterator over `(0..v).rev()`: search from the guess with slot
      `idx` set to `v - 1`, then `v - 2`, ..., and return the first success. */
  function TryCandidates(c: Counts, g: Slots, idx: nat, v: nat, low: real, high: real): (r: Option<Slots>)
    requires Total(c) > 0 && g[0].Some?
    requires FirstHole(g) == Some(idx) && 0 < idx && v <= g[idx - 1].value
    ensures r.Some? ==> low < PartialReturn(c, r.value) <= high
    ensures r.Some? ==> SearchExtends(g, r.value)
    ensures r.Some? ==> r.value[idx].Some? && r.value[idx].value < v
    decreases Holes(g), 0, v
  {
    if v == 0 then None
    else
      HolesFill(g, idx, v - 1);
      var next := g[idx := Some(v - 1)];
      match Search(c, next, low, high)
      case Some(found) =>
        ExtendsStep(g, idx, v - 1, found);
        Some(found)
      case None => TryCandidates(c, g, idx, v - 1, low, high)
  }

  /** A guess without holes is the only extension of itself. */
  lemma NoHoleExtends(g: Slots, r: Slots)
    requires FirstHole(g).None? && SearchExtends(g, r)
    ensures r == g
  {
    forall j | 0 <= j < CategoryCount
      ensures r[j] == g[j]
    {
    }
  }

  /** An extension that leaves the first hole empty fills no other hole either. */
  lemma FirstHoleKept(g: Slots, idx: nat, r: Slots)
    requires FirstHole(g) == Some(idx) && SearchExtends(g, r) && r[idx].None?
    ensures r == g
  {
    forall j | 0 <= j < CategoryCount
      ensures r[j] == g[j]
    {
    }
  }

  /** The search is complete: whenever some extension of the guess that the search may
      build has its return in `(low, high]`, `build_paytable` does not give up. */
  lemma {:induction false} SearchComplete(c: Counts, g: Slots, low: real, high: real, r: Slots)
    requires Total(c) > 0 && g[0].Some?
    requires SearchExtends(g, r) && low < PartialReturn(c, r) <= high
    ensures Search(c, g, low, high).Some?
    decreases Holes(g), 1, 0
  {
    var expected := PartialReturn(c, g);
    if expected > high {
      PruneSound(c, g, r, high);
    } else if expected <= low {
      match FirstHole(g)
      case None =>
        NoHoleExtends(g, r);
      case Some(idx) =>
        if r[idx].None? {
          FirstHoleKept(g, idx, r);
        } else {
          assert r[idx - 1] == g[idx - 1];
          TryComplete(c, g, idx, g[idx - 1].value, low, high, r);
        }
    }
  }

  /** Trying the candidates below `v` for the first hole finds a solution whenever some
      extension in the band puts a value below `v` in that hole. */
  lemma {:induction false} TryComplete(c: Counts, g: Slots, idx: nat, v: nat, low: real, high: real, r: Slots)
    requires Total(c) > 0 && g[0].Some?
    requires FirstHole(g) == Some(idx) && 0 < idx && v <= g[idx - 1].value
    requires SearchExtends(g, r) && low < PartialReturn(c, r) <= high
    requires r[idx].Some? && r[idx].value < v
    ensures TryCandidates(c, g, idx, v, low, high).Some?
    decreases Holes(g), 0, v
  {
    HolesFill(g, idx, v - 1);
    var next := g[idx := Some(v - 1)];
    if Search(c, next, low, high).None? {
      if r[idx].value == v - 1 {
        assert SearchExtends(next, r);
        SearchComplete(c, next, low, high, r);
      } else {
        TryComplete(c, g, idx, v - 1, low, high, r);
      }
    }
  }

  /** When `build_paytable` gives up on a guess or accepts it outright. */
  lemma SearchStops(c: Counts, g: Slots, low: real, high: real)
    requires Total(c) > 0 && g[0].Some?
    ensures PartialReturn(c, g) > high ==> Search(c, g, low, high) == None
    ensures low < PartialReturn(c, g) <= high ==> Search(c, g, low, high) == Some(g)
    ensures PartialReturn(c, g) <= low && Holes(g) == 0 ==> Search(c, g, low, high) == None
    ensures PartialReturn(c, g) <= low && FirstHole(g).Some? && g[FirstHole(g).value - 1] == Some(0) ==>
              Search(c, g, low, high) == None
  {
    if Holes(g) == 0 && FirstHole(g).Some? {
      HolesFill(g, FirstHole(g).value, 0);
    }
  }

  /** Pruning is sound: once the return of a guess exceeds `high`, so does the return
      of every guess that keeps its filled slots. */
  lemma PruneSound(c: Counts, g: Slots, r: Slots, high: real)
    requires Total(c) > 0 && Covers(g, r)
    requires PartialReturn(c, g) > high
    ensures PartialReturn(c, r) > high
  {
    ReturnMonotone(c, g, r);
  }
}
