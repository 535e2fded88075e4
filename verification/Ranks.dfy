/** The lexicographic order that the work of an editor goes down in, and why it cannot go down for ever. */
module Ranks {
  /** Compared from left to right: one step of the editor's work makes the first component that changes smaller. */
  datatype Rank = Rank(stale: nat, drafts: nat, retries: nat, wakeUps: nat, phase: nat)

  predicate Below(a: Rank, b: Rank) {
    || a.stale < b.stale
    || (a.stale == b.stale &&
        (a.drafts < b.drafts
         || (a.drafts == b.drafts &&
             (a.retries < b.retries
              || (a.retries == b.retries &&
                  (a.wakeUps < b.wakeUps
                   || (a.wakeUps == b.wakeUps && a.phase < b.phase)))))))
  }

  predicate AtMost(a: Rank, b: Rank) {
    a == b || Below(a, b)
  }

  lemma AtMostTransitive(a: Rank, b: Rank, c: Rank)
    requires AtMost(a, b) && AtMost(b, c)
    ensures AtMost(a, c)
  {
  }

  lemma BelowAtMost(a: Rank, b: Rank, c: Rank)
    requires Below(a, b) && AtMost(b, c)
    ensures Below(a, c)
  {
  }

  /** The rank does not rise from `x` to `x + 1`, and falls if `falls` says so. */
  ghost predicate DownAt(ranks: nat -> Rank, falls: nat -> bool, x: nat) {
    AtMost(ranks(x + 1), ranks(x)) && (falls(x) ==> Below(ranks(x + 1), ranks(x)))
  }

  ghost predicate NeverUp(ranks: nat -> Rank, falls: nat -> bool) {
    forall x: nat :: DownAt(ranks, falls, x)
  }

  lemma {:induction false} NeverRises(ranks: nat -> Rank, falls: nat -> bool, n: nat, m: nat)
    requires NeverUp(ranks, falls) && n <= m
    ensures AtMost(ranks(m), ranks(n))
    decreases m - n
  {
    if n < m {
      NeverRises(ranks, falls, n, m - 1);
      assert DownAt(ranks, falls, m - 1);
      AtMostTransitive(ranks(m), ranks(m - 1), ranks(n));
    }
  }

  lemma FallsBelow(ranks: nat -> Rank, falls: nat -> bool, n: nat, x: nat)
    requires NeverUp(ranks, falls) && n <= x && falls(x)
    ensures Below(ranks(x + 1), ranks(n))
  {
    NeverRises(ranks, falls, n, x);
    assert DownAt(ranks, falls, x);
    BelowAtMost(ranks(x + 1), ranks(x), ranks(n));
  }

  /** A rank that never rises falls only finitely often. */
  lemma {:induction false} StopsFalling(ranks: nat -> Rank, falls: nat -> bool, n: nat) returns (m: nat)
    requires NeverUp(ranks, falls)
    ensures n <= m && forall x: nat :: m <= x ==> !falls(x)
    decreases ranks(n).stale, ranks(n).drafts, ranks(n).retries, ranks(n).wakeUps, ranks(n).phase
  {
    if x: nat :| n <= x && falls(x) {
      FallsBelow(ranks, falls, n, x);
      m := StopsFalling(ranks, falls, x + 1);
    } else {
      m := n;
    }
  }
}
