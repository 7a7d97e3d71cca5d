/**
 * Filtering a list by key, `list.filter(x => key(x) !== id)`, shared by the
 * seller pages (orders, products, categories) and by the size toggle of the
 * product forms.
 */
module ListOps {
  /** The elements whose key differs from `id`, in their original order. */
  function Without<T(==,!new)>(xs: seq<T>, key: T -> string, id: string): (r: seq<T>)
    ensures |r| <= |xs|
    ensures forall x :: x in r <==> x in xs && key(x) != id
  {
    if xs == [] then []
    else (if key(xs[0]) == id then [] else [xs[0]]) + Without(xs[1..], key, id)
  }

  /** Filtering works piece by piece, so the kept elements stay in order. */
  lemma {:induction false} WithoutAppend<T(!new)>(a: seq<T>, b: seq<T>, key: T -> string, id: string)
    ensures Without(a + b, key, id) == Without(a, key, id) + Without(b, key, id)
  {
    if a == [] {
      assert a + b == b;
    } else {
      assert (a + b)[1..] == a[1..] + b;
      WithoutAppend(a[1..], b, key, id);
    }
  }

  /** When no element has the key, nothing is removed. */
  lemma {:induction false} WithoutAbsent<T(!new)>(xs: seq<T>, key: T -> string, id: string)
    requires forall k :: 0 <= k < |xs| ==> key(xs[k]) != id
    ensures Without(xs, key, id) == xs
  {
    if xs != [] {
      WithoutAbsent(xs[1..], key, id);
      assert xs == [xs[0]] + xs[1..];
    }
  }

  /** Filtering twice by the same key is filtering once. */
  lemma {:induction false} WithoutIdempotent<T(!new)>(xs: seq<T>, key: T -> string, id: string)
    ensures Without(Without(xs, key, id), key, id) == Without(xs, key, id)
  {
    var r := Without(xs, key, id);
    forall k | 0 <= k < |r| ensures key(r[k]) != id {
      assert r[k] in r;
    }
    WithoutAbsent(r, key, id);
  }

  /** Exactly the elements with the key are removed: the count drops by their number. */
  lemma {:induction false} WithoutLength<T(!new)>(xs: seq<T>, key: T -> string, id: string)
    ensures |Without(xs, key, id)| == |xs| - Matching(xs, key, id)
  {
    if xs != [] {
      WithoutLength(xs[1..], key, id);
    }
  }

  /** The number of elements whose key is `id`. */
  function Matching<T>(xs: seq<T>, key: T -> string, id: string): nat {
    if xs == [] then 0 else (if key(xs[0]) == id then 1 else 0) + Matching(xs[1..], key, id)
  }
}
