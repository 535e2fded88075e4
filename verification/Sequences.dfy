/** Sequences without duplicates, and the removal of elements. */
module Sequences {
  predicate Distinct<T(==)>(s: seq<T>) {
    forall i, j :: 0 <= i < j < |s| ==> s[i] != s[j]
  }

  /** The sequence without its element at position `j`. */
  function Without<T>(s: seq<T>, j: nat): seq<T>
    requires j < |s|
  {
    s[..j] + s[j + 1..]
  }

  /** The sequence without the elements equal to `x`. */
  function Remove(s: seq<nat>, x: nat): seq<nat> {
    if s == [] then []
    else
      var init := Remove(s[..|s| - 1], x);
      if s[|s| - 1] == x then init else init + [s[|s| - 1]]
  }

  lemma {:induction false} RemoveMembers(s: seq<nat>, x: nat)
    ensures forall y :: y in Remove(s, x) <==> y in s && y != x
    ensures Distinct(s) ==> Distinct(Remove(s, x))
  {
    if s != [] {
      var init := s[..|s| - 1];
      RemoveMembers(init, x);
      assert s == init + [s[|s| - 1]];
      if Distinct(s) && s[|s| - 1] != x {
        assert s[|s| - 1] !in init;
        assert Remove(s, x) == Remove(init, x) + [s[|s| - 1]];
      }
    }
  }

  lemma {:induction false} RemoveAbsent(s: seq<nat>, x: nat)
    requires x !in s
    ensures Remove(s, x) == s
  {
    if s != [] {
      RemoveAbsent(s[..|s| - 1], x);
      assert s == s[..|s| - 1] + [s[|s| - 1]];
    }
  }
}
