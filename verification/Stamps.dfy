/** Where a clock stamp falls among a log of event times. */
module Stamps {

  /** Exactly the first `n` of the logged events happened before `t`. */
  ghost predicate Splits(ts: seq<nat>, t: nat, n: nat) {
    && n <= |ts|
    && (forall x :: 0 <= x < n ==> ts[x] < t)
    && (forall x :: n <= x < |ts| ==> t < ts[x])
  }

  /** Logging a later event does not move an earlier stamp among the events. */
  lemma SplitsKept(ts: seq<nat>, us: seq<nat>, t: nat, n: nat, at: nat)
    requires Splits(ts, t, n) && t < at && (us == ts || us == ts + [at])
    ensures Splits(us, t, n)
  {
  }
}
