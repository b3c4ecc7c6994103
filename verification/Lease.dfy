/** When a lease counts as elapsed: ages are differences of clocks truncated to seconds. */
module Leases {
  import opened Wrappers

  /** strftime('%s', t) of a time in milliseconds. */
  function Seconds(ms: int): int {
    ms / 1000
  }

  /** CAST(strftime('%s','now')) - CAST(strftime('%s', recorded_at)). */
  function AgeSeconds(now: int, recordedAt: int): int {
    Seconds(now) - Seconds(recordedAt)
  }

  /** A missing or negative age fails safe to "not elapsed". */
  function LeaseElapsed(age: Option<int>, lease: nat): bool {
    match age
    case Some(seconds) => seconds >= 0 && seconds >= lease
    case None => false
  }

  /** Whether a pass at `now` finds the lease of an intent recorded at `at` elapsed. */
  predicate Selected(now: int, at: int, lease: nat) {
    LeaseElapsed(Some(AgeSeconds(now, at)), lease)
  }

  /**
    The guarantee in true milliseconds: always from the full lease on, never up
    to one second less, and in between exactly when the fractions of the two
    clocks let a second tick over.
   */
  lemma LeaseBounds(now: int, at: int, lease: nat)
    requires 0 < lease
    ensures now - at >= lease * 1000 ==> Selected(now, at, lease)
    ensures now - at <= (lease - 1) * 1000 ==> !Selected(now, at, lease)
    ensures Selected(now, at, lease) <==> now >= (Seconds(at) + lease) * 1000
    ensures Selected(now, at, lease) ==> now - at > (lease - 1) * 1000
  {
  }

  /** A later pass selects whatever an earlier one did; a bad age selects nothing. */
  lemma SelectionIsMonotone(now: int, later: int, at: int, lease: nat)
    requires now <= later
    ensures Selected(now, at, lease) ==> Selected(later, at, lease)
    ensures Seconds(now) < Seconds(at) ==> !Selected(now, at, lease)
    ensures !LeaseElapsed(None, lease)
  {
  }

  /** The second that truncation takes away is real: one millisecond can cost a whole lease. */
  lemma OneMillisecondLease()
    ensures Selected(1000, 999, 1) && !Selected(1999, 1000, 1)
  {
  }
}
