/** The bounded retry loop (internal/retry/retry.go). */
module Retry {

  /** How one call of the operation ended; Retriable stands for an error that shouldRetry accepts. */
  datatype Outcome = Success | Retriable | Fatal

  /** Seconds slept before the second, third and fourth attempt. */
  const DELAYS: seq<nat> := [1, 3, 5]

  const MAX_ATTEMPTS: nat := 4

  function Seconds(xs: seq<nat>): nat {
    if xs == [] then 0 else Seconds(xs[..|xs| - 1]) + xs[|xs| - 1]
  }

  lemma {:induction false} SleepBounded(n: nat)
    requires n <= |DELAYS|
    ensures Seconds(DELAYS[..n]) <= if n == 0 then 0 else if n == 1 then 1 else if n == 2 then 4 else 9
  {
    if n > 0 {
      SleepBounded(n - 1);
      assert DELAYS[..n][..n - 1] == DELAYS[..n - 1];
    }
  }

  /** The retry rule one attempt at a time: after k attempts, make attempt k and see whether another is due.
      The workers of the delivery protocol follow this rule. */
  function Drive(operation: nat -> Outcome, k: nat): (r: (nat, Outcome))
    requires k < MAX_ATTEMPTS
    ensures k < r.0 <= MAX_ATTEMPTS && r.1 == operation(r.0 - 1)
    ensures forall j | k <= j < r.0 - 1 :: operation(j) == Retriable
    ensures r.1 == Retriable ==> r.0 == MAX_ATTEMPTS
    decreases MAX_ATTEMPTS - k
  {
    if operation(k) == Retriable && k + 1 < MAX_ATTEMPTS then Drive(operation, k + 1) else (k + 1, operation(k))
  }

  /** operation(k) is the outcome of the k-th call. The loop stops at the first outcome that is final,
      sleeps once between two attempts, and gives up after the fourth attempt. */
  method DoWithSleeper(operation: nat -> Outcome) returns (err: Outcome, attempts: nat, slept: seq<nat>)
    ensures (attempts, err) == Drive(operation, 0)
    ensures 1 <= attempts <= MAX_ATTEMPTS && err == operation(attempts - 1)
    ensures forall j | 0 <= j < attempts - 1 :: operation(j) == Retriable
    ensures err == Retriable ==> attempts == 4
    ensures slept == [1, 3, 5][..attempts - 1] && Seconds(slept) <= 9
  {
    err, attempts, slept := operation(0), 1, [];
    SleepBounded(0);
    if err != Retriable {
      return;
    }
    var i := 0;
    while i < |DELAYS|
      invariant 0 <= i <= |DELAYS| && attempts == i + 1 && slept == DELAYS[..i] && Seconds(slept) <= 9
      invariant err == Retriable && err == operation(i)
      invariant i < |DELAYS| ==> Drive(operation, 0) == Drive(operation, i + 1)
      invariant i == |DELAYS| ==> Drive(operation, 0) == (MAX_ATTEMPTS, Retriable)
    {
      SleepBounded(i + 1);
      slept := slept + [DELAYS[i]];
      assert slept[..i] == DELAYS[..i];
      err, attempts := operation(i + 1), attempts + 1;
      if err != Retriable {
        return;
      }
      i := i + 1;
    }
  }
}
