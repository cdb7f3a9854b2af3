/** Failure and absence as values, for the source's `Option`, `Result` and early error returns. */
module Wrappers {

  datatype Option<+T> = None | Some(value: T)

  datatype Result<+T, +E> = Ok(value: T) | Err(error: E)

  /** The elements of `s`, as a set. */
  function Elements<T(!new)>(s: seq<T>): (r: set<T>)
    ensures forall x :: x in r <==> x in s
  {
    set x | x in s
  }

  /** Removing one index leaves exactly the elements at the other indices. */
  function RemoveAt<T>(s: seq<T>, p: nat): (r: seq<T>)
    requires p < |s|
    ensures |r| == |s| - 1
    ensures forall i :: 0 <= i < |r| ==> r[i] == if i < p then s[i] else s[i + 1]
  {
    s[..p] + s[p + 1..]
  }

  lemma RemoveAtElements<T(!new)>(s: seq<T>, p: nat)
    requires p < |s|
    ensures forall x :: x in RemoveAt(s, p) ==> x in s
    ensures forall x :: x in s && x != s[p] ==> x in RemoveAt(s, p)
  {
    forall x | x in s && x != s[p]
      ensures x in RemoveAt(s, p)
    {
      var i :| 0 <= i < |s| && s[i] == x;
      assert RemoveAt(s, p)[if i < p then i else i - 1] == x;
    }
  }
}
