/** The array operations the batch code uses: `filter(...).length` and concatenation of chunks. */
module Lists {

  /** `xs.filter(keep).length`. */
  function Count<T>(xs: seq<T>, keep: T -> bool): (n: nat)
    ensures n <= |xs|
    decreases |xs|
  {
    if xs == [] then 0 else (if keep(xs[0]) then 1 else 0) + Count(xs[1..], keep)
  }

  /** Every element is counted by exactly one of a filter and its negation. */
  lemma {:induction false} CountComplement<T>(xs: seq<T>, keep: T -> bool, drop: T -> bool)
    requires forall x :: drop(x) == !keep(x)
    ensures Count(xs, keep) + Count(xs, drop) == |xs|
    decreases |xs|
  {
    if xs != [] {
      CountComplement(xs[1..], keep, drop);
    }
  }

  /** When every element is kept, all of them are counted. */
  lemma {:induction false} CountAll<T>(xs: seq<T>, keep: T -> bool)
    requires forall i :: 0 <= i < |xs| ==> keep(xs[i])
    ensures Count(xs, keep) == |xs|
    decreases |xs|
  {
    if xs != [] {
      CountAll(xs[1..], keep);
    }
  }

  /** The concatenation of a list of chunks. */
  function Flatten<T>(chunks: seq<seq<T>>): (r: seq<T>)
    decreases |chunks|
  {
    if chunks == [] then [] else chunks[0] + Flatten(chunks[1..])
  }

  lemma {:induction false} FlattenAppend<T>(chunks: seq<seq<T>>, last: seq<T>)
    ensures Flatten(chunks + [last]) == Flatten(chunks) + last
    decreases |chunks|
  {
    if chunks == [] {
      assert chunks + [last] == [last];
      assert Flatten([last]) == last + Flatten([last][1..]);
    } else {
      assert (chunks + [last])[1..] == chunks[1..] + [last];
      FlattenAppend(chunks[1..], last);
    }
  }
}
