/** Small shared vocabulary: optional values and results, duplicate-freedom
    of a sequence, and the set of a sequence's elements. */
module Basics {

  /** Python's `None` or a present value. */
  datatype Option<+T> = None | Some(value: T)

  /** A returned value, or an exception raised to the caller. */
  datatype Result<+T, +E> = Ok(value: T) | Err(error: E)

  /** No element occurs twice. */
  predicate NoDup<T(==)>(s: seq<T>) {
    forall i, j | 0 <= i < j < |s| :: s[i] != s[j]
  }

  /** The set of elements of `s`. */
  function Elems<T>(s: seq<T>): set<T> {
    set x | x in s
  }

  /** A duplicate-free sequence has as many elements as its set. */
  lemma {:induction false} NoDupCard<T>(s: seq<T>)
    requires NoDup(s)
    ensures |Elems(s)| == |s|
  {
    if s != [] {
      var init := s[..|s| - 1];
      var last := s[|s| - 1];
      assert NoDup(init);
      assert last !in init by {
        forall i | 0 <= i < |init| ensures init[i] != last {
          assert s[i] != s[|s| - 1];
        }
      }
      assert s == init + [last];
      assert Elems(s) == Elems(init) + {last};
      NoDupCard(init);
    }
  }

  /** A duplicate-free sequence drawn from a finite set is no longer than the set. */
  lemma NoDupBounded<T>(s: seq<T>, bound: set<T>)
    requires NoDup(s)
    requires forall i | 0 <= i < |s| :: s[i] in bound
    ensures |s| <= |bound|
  {
    NoDupCard(s);
    assert Elems(s) <= bound;
    SubsetCard(Elems(s), bound);
  }

  lemma SubsetCard<T>(a: set<T>, b: set<T>)
    requires a <= b
    ensures |a| <= |b|
  {
    assert b == a + (b - a);
  }
}
