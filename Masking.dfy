/** The password mask written wherever an attempt is logged: the first three characters
    are kept and every later character becomes `*` (`password.slice(0, 3)` followed by
    `'*'.repeat(Math.max(0, password.length - 3))`). */
module Masking {

  /** `'*'.repeat(n)`. */
  function Stars(n: nat): (r: string)
    ensures |r| == n
    ensures forall i | 0 <= i < n :: r[i] == '*'
  {
    if n == 0 then "" else Stars(n - 1) + "*"
  }

  function Mask(p: string): (r: string)
    ensures |r| == |p|
    ensures forall i | 0 <= i < |p| :: r[i] == if i < 3 then p[i] else '*'
  {
    var keep := if |p| < 3 then |p| else 3;
    p[..keep] + Stars(if |p| > 3 then |p| - 3 else 0)
  }

  /** Passwords of at most three characters are logged verbatim. */
  lemma MaskKeepsShortPasswords(p: string)
    requires |p| <= 3
    ensures Mask(p) == p
  {
    assert forall i | 0 <= i < |p| :: Mask(p)[i] == p[i];
  }

  /** Masking an already masked password changes nothing. */
  lemma MaskIdempotent(p: string)
    ensures Mask(Mask(p)) == Mask(p)
  {
    var m := Mask(p);
    assert forall i | 0 <= i < |m| :: Mask(m)[i] == m[i];
  }

  /** Exactly the length and the first three characters survive the mask: two passwords
      are logged alike iff they agree on both. */
  lemma MaskRetainsOnlyLengthAndPrefix(p: string, q: string)
    ensures Mask(p) == Mask(q) <==>
      |p| == |q| && forall i | 0 <= i < |p| && i < 3 :: p[i] == q[i]
  {
    if Mask(p) == Mask(q) {
      forall i | 0 <= i < |p| && i < 3
        ensures p[i] == q[i]
      {
        assert Mask(p)[i] == Mask(q)[i];
      }
    }
    if |p| == |q| && forall i | 0 <= i < |p| && i < 3 :: p[i] == q[i] {
      assert forall i | 0 <= i < |p| :: Mask(p)[i] == Mask(q)[i];
    }
  }
}
