/**
 The loop that raises the pre-commit index while other threads raise it too. `seen(i)` is the
 index that this thread finds at its i-th access; the other threads only ever raise it.
 */
module PrecommitRace {
  ghost predicate Rising(seen: nat -> nat) {
    forall i: nat, j: nat :: i <= j ==> seen(i) <= seen(j)
  }

  /** Every one of the first `n` exchanges finds a value raised since the access before it. */
  ghost predicate AlwaysRaced(seen: nat -> nat, n: nat) {
    forall i: nat :: i < n ==> seen(i) < seen(i + 1)
  }

  lemma {:induction false} RacesRaise(seen: nat -> nat, n: nat)
    requires AlwaysRaced(seen, n)
    ensures seen(n) >= seen(0) + n
  {
    if n == 0 {
    } else {
      RacesRaise(seen, n - 1);
      assert seen(n - 1) < seen(n - 1 + 1);
    }
  }

  /**
   No limit if `maxAttempts` is 0. The update fails exactly if every exchange allowed was raced
   and the index is still too low; it is then more than `maxAttempts` below the target at the
   start. A write never loses another thread's raise.
   */
  method TryUpdate(seen: nat -> nat, desired: nat, maxAttempts: nat) returns (ok: bool, wrote: bool, last: nat)
    requires Rising(seen)
    ensures ok <==> !(maxAttempts > 0 && AlwaysRaced(seen, maxAttempts) && seen(maxAttempts + 1) < desired)
    ensures !ok ==> desired > seen(0) + maxAttempts
    ensures wrote ==> ok && seen(last) < desired
    ensures ok && !wrote ==> seen(last) >= desired
  {
    var attempts, prev := 0, seen(0);
    wrote := false;
    while prev < desired && (attempts < maxAttempts || maxAttempts == 0)
      invariant prev == seen(attempts) && AlwaysRaced(seen, attempts)
      invariant maxAttempts > 0 ==> attempts <= maxAttempts
      decreases desired - prev
    {
      if seen(attempts + 1) == prev {
        return true, true, attempts + 1;
      }
      attempts, prev := attempts + 1, seen(attempts + 1);
    }
    last := attempts + 1;
    ok := seen(last) >= desired;
    if !ok { RacesRaise(seen, maxAttempts); }
  }
}
