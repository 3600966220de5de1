/**
 What several parts of the model share.
 */
module Common {
  datatype Option<T> = None | Some(value: T)

  const TWO64: int := 0x1_0000_0000_0000_0000

  type Byte = x: int | 0 <= x < 256
}

/** Sequences without repetition. */
module Lists {
  predicate Distinct(q: seq<nat>) {
    forall i, j :: 0 <= i < j < |q| ==> q[i] != q[j]
  }

  /** The sequence without `p`. */
  function Without(q: seq<nat>, p: nat): (r: seq<nat>)
    ensures forall x :: x in r <==> x in q && x != p
    ensures p !in q ==> r == q
    ensures Distinct(q) ==> Distinct(r)
    ensures |r| <= |q|
  {
    if q == [] then []
    else
      assert q == [q[0]] + q[1..];
      assert Distinct(q) ==> q[0] !in q[1..];
      if q[0] == p then Without(q[1..], p) else [q[0]] + Without(q[1..], p)
  }
}
