/** The newest-first in-memory activity buffers of the server and of the client keep at
    most 100 entries: a new entry is put in front (`unshift`) and everything from index 100
    on is dropped (`splice(100)` on the server, `slice(0, 100)` in the client). */
module Bounded {

  const Capacity: nat := 100

  /** The first `Capacity` entries of `s`. */
  function Capped<T>(s: seq<T>): (r: seq<T>)
    ensures |r| <= Capacity
    ensures |r| == if |s| <= Capacity then |s| else Capacity
    ensures r == s[..|r|]
  {
    if |s| > Capacity then s[..Capacity] else s
  }

  /** After putting `e` in front and capping, `e` is the head, the buffer never exceeds
      the capacity, and the earlier entries follow in their earlier order, only the
      oldest one falling off when the buffer was full. */
  lemma PrependThenCap<T>(log: seq<T>, e: T)
    ensures var r := Capped([e] + log);
      && 1 <= |r| <= Capacity
      && r[0] == e
      && |r| == (if |log| < Capacity then |log| + 1 else Capacity)
      && r[1..] == log[..|r| - 1]
  {
    var r := Capped([e] + log);
    assert r == ([e] + log)[..|r|];
    assert r[1..] == log[..|r| - 1];
  }
}
