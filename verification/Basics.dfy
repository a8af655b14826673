/** Small containers shared by every component. */
module Basics {

  datatype Option<+T> = None | Some(value: T)

  /** A call that either returns a value or raises a rejection with a reason code. */
  datatype Result<+T> = Ok(value: T) | Rejected(reason: string)

  function Last<T>(s: seq<T>): T
    requires s != []
  {
    s[|s| - 1]
  }

  function Reversed<T>(s: seq<T>): (r: seq<T>)
    ensures |r| == |s|
    ensures forall i :: 0 <= i < |s| ==> r[i] == s[|s| - 1 - i]
  {
    if s == [] then [] else Reversed(s[1..]) + [s[0]]
  }

  lemma {:induction false} ReversedSame<T>(s: seq<T>)
    ensures forall x :: x in s <==> x in Reversed(s)
  {
    if s != [] {
      ReversedSame(s[1..]);
      assert s == [s[0]] + s[1..];
    }
  }
}
