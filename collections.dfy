/**
 * The three list idioms the backend is built from: `next(x for x in xs if
 * key(x) == id, None)`, `len([x for x in xs if p(x)])` and
 * `sum([f(x) for x in xs])`.
 */
module Collections {
  import opened Wrappers

  /** `i` is the position of the first element whose key is `id`. */
  predicate FirstMatchAt<T>(xs: seq<T>, key: T -> string, id: string, i: nat)
  {
    i < |xs| && key(xs[i]) == id && forall j :: 0 <= j < i ==> key(xs[j]) != id
  }

  /** No element has key `id`. */
  predicate NoMatch<T>(xs: seq<T>, key: T -> string, id: string)
  {
    forall j :: 0 <= j < |xs| ==> key(xs[j]) != id
  }

  /** Position of the first element whose key is `id`, scanning from the front. */
  function FirstIndex<T>(xs: seq<T>, key: T -> string, id: string): (r: Option<nat>)
    ensures r.Some? ==> FirstMatchAt(xs, key, id, r.value)
    ensures r.None? <==> NoMatch(xs, key, id)
  {
    if xs == [] then None
    else if key(xs[0]) == id then Some(0)
    else
      match FirstIndex(xs[1..], key, id)
      case None => None
      case Some(k) => Some(k + 1)
  }

  /** No two elements share a key. */
  predicate UniqueKeys<T>(xs: seq<T>, key: T -> string)
  {
    forall i, j :: 0 <= i < j < |xs| ==> key(xs[i]) != key(xs[j])
  }

  /** When keys are unique, the first-match scan is an exact lookup. */
  lemma FirstIndexOfUnique<T>(xs: seq<T>, key: T -> string, i: nat)
    requires UniqueKeys(xs, key)
    requires i < |xs|
    ensures FirstIndex(xs, key, key(xs[i])) == Some(i)
  {
    var r := FirstIndex(xs, key, key(xs[i]));
    assert r.Some?;
  }

  /** `len([x for x in xs if p(x)])` */
  function Count<T>(xs: seq<T>, p: T -> bool): (r: nat)
    ensures r <= |xs|
  {
    if xs == [] then 0
    else (if p(xs[0]) then 1 else 0) + Count(xs[1..], p)
  }

  /** No element is counted exactly when the count is zero; all are exactly when it is the length. */
  lemma {:induction false} CountExtremes<T>(xs: seq<T>, p: T -> bool)
    ensures Count(xs, p) == 0 <==> forall j :: 0 <= j < |xs| ==> !p(xs[j])
    ensures Count(xs, p) == |xs| <==> forall j :: 0 <= j < |xs| ==> p(xs[j])
  {
    if xs != [] {
      CountExtremes(xs[1..], p);
      assert forall j :: 1 <= j < |xs| ==> xs[1..][j - 1] == xs[j];
    }
  }

  /** Two predicates that never hold together count no more than the length between them. */
  lemma {:induction false} CountDisjoint<T>(xs: seq<T>, p: T -> bool, q: T -> bool)
    requires forall j :: 0 <= j < |xs| ==> !(p(xs[j]) && q(xs[j]))
    ensures Count(xs, p) + Count(xs, q) <= |xs|
  {
    if xs != [] {
      assert forall j :: 0 <= j < |xs[1..]| ==> xs[1..][j] == xs[j + 1];
      CountDisjoint(xs[1..], p, q);
    }
  }

  /** `sum([f(x) for x in xs])`; an empty list sums to 0, and non-negative terms give a non-negative sum. */
  function Sum<T>(xs: seq<T>, f: T -> int): (r: int)
    ensures xs == [] ==> r == 0
    ensures (forall j :: 0 <= j < |xs| ==> f(xs[j]) >= 0) ==> r >= 0
  {
    if xs == [] then 0 else f(xs[0]) + Sum(xs[1..], f)
  }

  /** A sum is bounded by the sum of pointwise larger terms. */
  lemma {:induction false} SumMonotone<T>(xs: seq<T>, f: T -> int, g: T -> int)
    requires forall j :: 0 <= j < |xs| ==> f(xs[j]) <= g(xs[j])
    ensures Sum(xs, f) <= Sum(xs, g)
  {
    if xs != [] {
      assert forall j :: 0 <= j < |xs[1..]| ==> xs[1..][j] == xs[j + 1];
      SumMonotone(xs[1..], f, g);
    }
  }
}
