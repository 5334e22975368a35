/** What every other module shares: an optional value, and counting a finite set of part numbers. */
module Common {
  datatype Option<+T> = None | Some(value: T)

  function Min(a: nat, b: nat): (m: nat) { if a < b then a else b }

  /** `some` are the elements of `all` at these places, in their order. */
  ghost predicate AtPlaces<T>(all: seq<T>, some: seq<T>, at: seq<nat>) {
    && |some| == |at| && (forall k | 0 <= k < |at| :: at[k] < |all| && some[k] == all[at[k]])
    && (forall k, m | 0 <= k < m < |at| :: at[k] < at[m])
  }

  lemma AnotherPlace<T>(all: seq<T>, some: seq<T>, at: seq<nat>, more: T)
    requires AtPlaces(all, some, at)
    ensures AtPlaces(all + [more], some, at) && AtPlaces(all + [more], some + [more], at + [|all|])
  {
  }

  /** The integers from `lo` up to, not including, `hi`. */
  function Span(lo: int, hi: int): (s: set<int>)
    ensures forall n :: n in s <==> lo <= n < hi
    decreases hi - lo
  {
    if lo < hi then Span(lo, hi - 1) + {hi - 1} else {}
  }

  lemma {:induction false} SpanSize(lo: int, hi: int)
    requires lo <= hi
    ensures |Span(lo, hi)| == hi - lo
    decreases hi - lo
  {
    if lo < hi {
      SpanSize(lo, hi - 1);
      assert Span(lo, hi) == Span(lo, hi - 1) + {hi - 1};
    } else {
      assert Span(lo, hi) == {};
    }
  }

  lemma {:induction false} SubsetOfSameSize<T>(small: set<T>, big: set<T>)
    requires small <= big && |small| == |big|
    ensures small == big
  {
    if x :| x in big && x !in small {
      SubsetSize(small, big - {x});
    }
  }

  lemma {:induction false} SubsetSize<T>(small: set<T>, big: set<T>)
    requires small <= big
    ensures |small| <= |big|
    decreases small
  {
    if x :| x in small {
      SubsetSize(small - {x}, big - {x});
    }
  }

  /** Keys that stay in a range and are as many as the range is long are the whole range: counting is enough. */
  lemma CountIsComplete(keys: set<int>, lo: int, n: nat)
    requires keys <= Span(lo, lo + n)
    ensures |keys| == n <==> keys == Span(lo, lo + n)
  {
    SpanSize(lo, lo + n);
    if |keys| == n { SubsetOfSameSize(keys, Span(lo, lo + n)); }
  }
}
