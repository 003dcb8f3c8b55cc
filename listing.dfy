/**
 * The capped listing the example programs write again and again:
 *
 *   for i, x := range xs { if i >= limit { <"N more" line>; break }; <line for x> }
 *
 * shows the first `limit` elements in order and then one line standing for
 * the `len(xs) - limit` that were not shown.
 */
module Listing {

  /** One line of a capped listing: an element, or the line that stands for the rest. */
  datatype Line<T> = Entry(item: T) | More(count: int)

  /** The listing as a recursive definition: take elements while the budget lasts. */
  function Capped<T>(xs: seq<T>, limit: nat): seq<Line<T>>
    decreases |xs|
  {
    if xs == [] then []
    else if limit == 0 then [More(|xs|)]
    else [Entry(xs[0])] + Capped(xs[1..], limit - 1)
  }

  /** How many elements a listing accounts for: one per entry, `count` per summary line. */
  function Covered<T>(lines: seq<Line<T>>): int
    decreases |lines|
  {
    if lines == [] then 0
    else (match lines[0] case Entry(_) => 1 case More(k) => k) + Covered(lines[1..])
  }

  /**
   * At most `limit` entries, the first elements in input order, then one
   * "N more" line with N = |xs| - limit exactly when something was left out.
   */
  lemma {:induction false} CappedShape<T>(xs: seq<T>, limit: nat)
    ensures |Capped(xs, limit)| == if |xs| <= limit then |xs| else limit + 1
    ensures forall k :: 0 <= k < |xs| && k < limit ==> Capped(xs, limit)[k] == Entry(xs[k])
    ensures |xs| > limit ==> Capped(xs, limit)[limit] == More(|xs| - limit)
    decreases |xs|
  {
    if xs != [] && limit > 0 {
      CappedShape(xs[1..], limit - 1);
      var rest := Capped(xs[1..], limit - 1);
      assert Capped(xs, limit) == [Entry(xs[0])] + rest;
      forall k | 0 < k < |xs| && k < limit ensures Capped(xs, limit)[k] == Entry(xs[k]) {
        assert Capped(xs, limit)[k] == rest[k - 1];
        assert xs[1..][k - 1] == xs[k];
      }
    }
  }

  /** Nothing is lost: the listing accounts for every element of the input. */
  lemma {:induction false} CappedCovers<T>(xs: seq<T>, limit: nat)
    ensures Covered(Capped(xs, limit)) == |xs|
    decreases |xs|
  {
    if xs != [] && limit > 0 {
      CappedCovers(xs[1..], limit - 1);
      assert ([Entry(xs[0])] + Capped(xs[1..], limit - 1))[1..] == Capped(xs[1..], limit - 1);
    }
  }

  /** The `for ... range` loop with its `break`, proved to produce the listing. */
  method CapRows<T>(xs: seq<T>, limit: nat) returns (lines: seq<Line<T>>)
    ensures lines == Capped(xs, limit)
  {
    lines := [];
    var i := 0;
    while i < |xs|
      invariant 0 <= i <= |xs| && i <= limit
      invariant lines + Capped(xs[i..], limit - i) == Capped(xs, limit)
    {
      if i >= limit {
        lines := lines + [More(|xs| - limit)];
        break;
      }
      assert xs[i..][1..] == xs[i + 1..];
      lines := lines + [Entry(xs[i])];
      i := i + 1;
    }
  }
}
