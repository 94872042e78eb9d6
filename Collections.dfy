/**
 * The two loops every response aggregate repeats: the `foreach` that turns each
 * payload entry into a value object (stopping at the first entry that throws),
 * and the `foreach` with an early return that finds the first object for a code.
 */
module Collections {
  import opened Wrappers

  /** The first components of a sequence of pairs, in order: an array's keys or names. */
  function Firsts<A, B>(ps: seq<(A, B)>): (r: seq<A>)
    ensures |r| == |ps| && forall i :: 0 <= i < |ps| ==> r[i] == ps[i].0
  {
    seq(|ps|, i requires 0 <= i < |ps| => ps[i].0)
  }

  /** The first element whose key is k, or None when there is none. */
  function First<T, K(==)>(xs: seq<T>, key: T -> K, k: K): (r: Option<T>)
    ensures r.None? <==> forall i :: 0 <= i < |xs| ==> key(xs[i]) != k
    ensures r.Some? ==>
              exists i :: 0 <= i < |xs| && xs[i] == r.value && key(xs[i]) == k &&
                          forall j :: 0 <= j < i ==> key(xs[j]) != k
  {
    if xs == [] then None
    else if key(xs[0]) == k then Some(xs[0])
    else
      var r := First(xs[1..], key, k);
      assert forall i :: 1 <= i < |xs| ==> xs[i] == xs[1..][i - 1];
      r
  }

  /** The search loop: scan in order and return the first element with key k. */
  method Find<T, K(==)>(xs: seq<T>, key: T -> K, k: K) returns (r: Option<T>)
    ensures r == First(xs, key, k)
  {
    var i := 0;
    while i < |xs|
      invariant 0 <= i <= |xs|
      invariant forall j :: 0 <= j < i ==> key(xs[j]) != k
    {
      if key(xs[i]) == k {
        ghost var f := First(xs, key, k);
        assert f.Some?;
        ghost var w :| 0 <= w < |xs| && xs[w] == f.value && key(xs[w]) == k &&
                       forall j :: 0 <= j < w ==> key(xs[j]) != k;
        assert w == i;
        return Some(xs[i]);
      }
      i := i + 1;
    }
    return None;
  }

  /** Convert every element, in order; the first element that fails decides the error. */
  function All<A, B, E>(xs: seq<A>, f: A -> Result<B, E>): (r: Result<seq<B>, E>)
    ensures r.Success? <==> forall i :: 0 <= i < |xs| ==> f(xs[i]).Success?
    ensures r.Success? ==> |r.value| == |xs| && forall i :: 0 <= i < |xs| ==> f(xs[i]) == Success(r.value[i])
    ensures r.Failure? ==>
              exists i :: 0 <= i < |xs| && f(xs[i]) == Failure(r.error) &&
                          forall j :: 0 <= j < i ==> f(xs[j]).Success?
  {
    if xs == [] then Success([])
    else match f(xs[0])
      case Failure(e) => Failure(e)
      case Success(y) =>
        var rest := All(xs[1..], f);
        assert forall i :: 1 <= i < |xs| ==> xs[i] == xs[1..][i - 1];
        match rest
        case Failure(e) => Failure(e)
        case Success(ys) => Success([y] + ys)
  }

  /** The parse loop: convert entries in order, appending, and stop at the first failure. */
  method Collect<A, B, E>(xs: seq<A>, f: A -> Result<B, E>) returns (r: Result<seq<B>, E>)
    ensures r == All(xs, f)
  {
    var acc: seq<B> := [];
    var i := 0;
    while i < |xs|
      invariant 0 <= i <= |xs| && |acc| == i
      invariant forall j :: 0 <= j < i ==> f(xs[j]) == Success(acc[j])
    {
      var y := f(xs[i]);
      if y.Failure? {
        ghost var all := All(xs, f);
        assert all.Failure?;
        ghost var w :| 0 <= w < |xs| && f(xs[w]) == Failure(all.error) &&
                       forall j :: 0 <= j < w ==> f(xs[j]).Success?;
        assert w == i;
        return Failure(y.error);
      }
      acc := acc + [y.value];
      i := i + 1;
    }
    assert All(xs, f).value == acc;
    return Success(acc);
  }

  /**
   * When xs were built one per keyed entry, each entry's key encoding the key of its
   * element, the first element with key k sits where the first entry keyed by k's
   * encoding sits.
   */
  lemma FirstMatchesTags<T, K, V, W>(entries: seq<(V, W)>, xs: seq<T>, key: T -> K, encode: K -> V, k: K)
    requires |entries| == |xs| && forall i :: 0 <= i < |xs| ==> entries[i].0 == encode(key(xs[i]))
    requires forall a, b :: encode(a) == encode(b) ==> a == b
    ensures First(xs, key, k).None? <==> forall i :: 0 <= i < |entries| ==> entries[i].0 != encode(k)
    ensures First(xs, key, k).Some? ==>
              exists i :: 0 <= i < |entries| && entries[i].0 == encode(k) && xs[i] == First(xs, key, k).value &&
                          forall j :: 0 <= j < i ==> entries[j].0 != encode(k)
  {
    forall i | 0 <= i < |xs|
      ensures entries[i].0 == encode(k) <==> key(xs[i]) == k
    {
      EncodingDecides(encode, key(xs[i]), k);
    }
  }

  lemma EncodingDecides<K, V>(encode: K -> V, a: K, b: K)
    requires forall x, y :: encode(x) == encode(y) ==> x == y
    ensures encode(a) == encode(b) <==> a == b
  {
  }
}
