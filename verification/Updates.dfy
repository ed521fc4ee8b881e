/**
 How the updates of a refresh end, and how far a refresh gets before the phase is over.
 */
module Updates {

  /** An update goes through, fails, or fails because the phase is over. */
  datatype Update = Applied | Failed | Cancelled

  /** The first `k` of `n` updates, and no more, were tried: all of them, unless the last
      one tried was cancelled. */
  ghost predicate Tried(update: nat -> Update, n: nat, k: nat, cut: bool) {
    && k <= n
    && (forall i: nat :: i < k && update(i) == Cancelled ==> cut && i == k - 1)
    && (if cut then k > 0 && update(k - 1) == Cancelled else k == n)
  }

  /** No update of refresh `t` is cancelled. */
  predicate Runs(update: (nat, nat) -> Update, t: nat, n: nat) {
    forall i: nat :: i < n ==> update(t, i) != Cancelled
  }
}
