/** Values that may be absent, answers that may be an error, and two laws of sequences. */
module Wrappers {

  datatype Option<+T> = None | Some(value: T) {
    function GetOr(default: T): T {
      match this
      case Some(v) => v
      case None => default
    }
  }

  datatype Result<+T, +E> = Ok(value: T) | Err(error: E)

  lemma Assoc<T>(a: seq<T>, b: seq<T>, c: seq<T>)
    ensures a + (b + c) == (a + b) + c
    ensures a + [] == a
  {
  }

  lemma TakeSum<T>(a: seq<T>, b: seq<T>, k: nat)
    requires k <= |a| + |b|
    ensures (a + b)[..k] == if |a| <= k then a + b[..k - |a|] else a[..k]
  {
  }

  predicate Ascending(order: seq<int>) {
    forall j, k | 0 <= j < k < |order| :: order[j] < order[k]
  }

  function Smaller(a: nat, b: nat): nat {
    if a < b then a else b
  }
}
