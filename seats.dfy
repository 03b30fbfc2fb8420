/** Clockwise seat arithmetic: every turn index of the table moves by `(i + 1) % n`. */
module Seats {

  /** The seat after seat `i` at a table of `n` seats. */
  function Next(i: nat, n: nat): (j: nat)
    requires i < n
    ensures j < n
    ensures j == if i + 1 < n then i + 1 else 0
  {
    (i + 1) % n
  }

  /** `(i + k) % n`, the seat `k` places after seat `i`, as the source computes it. */
  function Ahead(i: nat, k: nat, n: nat): (j: nat)
    requires n > 0
    ensures j < n
  {
    (i + k) % n
  }

  /** The seat reached from `start` after `k` clockwise steps. */
  function Walk(start: nat, k: nat, n: nat): (s: nat)
    requires start < n
    ensures s < n
    decreases k
  {
    if k == 0 then start else Walk(Next(start, n), k - 1, n)
  }

  /** One more step from the seat `Walk` reached. */
  lemma {:induction false} WalkStep(start: nat, k: nat, n: nat)
    requires start < n
    ensures Walk(start, k + 1, n) == Next(Walk(start, k, n), n)
    decreases k
  {
    if k > 0 {
      WalkStep(Next(start, n), k - 1, n);
    }
  }

  /** Fewer than `n` steps from `start` reach `start + k`, wrapped once. */
  lemma {:induction false} WalkOffset(start: nat, k: nat, n: nat)
    requires start < n && k < n
    ensures Walk(start, k, n) == if start + k < n then start + k else start + k - n
    decreases k
  {
    if k > 0 {
      WalkOffset(Next(start, n), k - 1, n);
    }
  }

  /** The seat two places clockwise, written as the source writes it. */
  lemma TwoAhead(d: nat, n: nat)
    requires d < n
    ensures (d + 2) % n == Walk(d, 2, n)
  {
    assert (d + 2) % n == if d + 2 < n then d + 2 else if d + 2 < 2 * n then d + 2 - n else 0;
  }

  /** The distance from `start` to `target`, clockwise. */
  function Distance(start: nat, target: nat, n: nat): (k: nat)
    requires start < n && target < n
    ensures k < n && Walk(start, k, n) == target
  {
    var k := if start <= target then target - start else target + n - start;
    WalkOffset(start, k, n);
    k
  }
}
