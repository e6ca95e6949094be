/**
  One request's time budget (lib/TurnBudget.js) and the deadline it hands to the store. The gateway
  measures with a monotonic clock, the store with its own millisecond clock; the two run at the same
  rate with an arbitrary offset, and nothing relates them but one observation.
 */
module TurnBudget {
  import opened Wrappers
  import opened TurnTypes
  import opened TurnStoreSpec

  function Min(a: real, b: real): real { if a <= b then a else b }
  function Ceil(x: real): int { -((-x).Floor) }

  datatype Anchor = Anchor(now: int, at: real)

  /** The store deadline for a budget that ends at `end`, computed from an anchored observation. */
  function DeadlineFrom(anchor: Anchor, end: real): int {
    (anchor.now as real + end - anchor.at).Floor
  }

  class TurnBudget {
    /** End of the budget, on the monotonic clock. */
    var end: real
    var storeClock: Option<Anchor>
    var aborted: Option<string>

    constructor (timeoutMs: nat, deadlineAt: Option<real>, signalled: bool, mono: real, wall: real)
      ensures deadlineAt.None? ==> end - mono == timeoutMs as real
      ensures deadlineAt.Some? && deadlineAt.value >= wall ==> end - mono == Min(timeoutMs as real, deadlineAt.value - wall)
      ensures deadlineAt.Some? && deadlineAt.value < wall ==> end == mono
      ensures end >= mono && storeClock.None?
      ensures aborted.Some? <==> signalled
    {
      var left := timeoutMs as real;
      if deadlineAt.Some? {
        left := Min(left, if deadlineAt.value - wall < 0.0 then 0.0 else deadlineAt.value - wall);
      }
      end := mono + left;
      storeClock := None;
      aborted := if signalled then Some("REQUEST_ABORTED") else None;
    }

    method AnchorStore(now: int, mono: real)
      modifies this`storeClock
      ensures storeClock == Some(Anchor(now, mono))
    {
      storeClock := Some(Anchor(now, mono));
    }

    /** Shortening never extends the budget. */
    method Shorten(ms: nat, mono: real)
      modifies this`end
      ensures end <= old(end) && end <= mono + ms as real
      ensures end == old(end) || end == mono + ms as real
    {
      end := Min(end, mono + ms as real);
    }

    method StoreDeadline() returns (deadline: int)
      requires storeClock.Some?
      ensures deadline == DeadlineFrom(storeClock.value, end)
    {
      deadline := (storeClock.value.now as real + end - storeClock.value.at).Floor;
    }

    /** Whole milliseconds left, rounded up: zero exactly when the end has been reached. */
    method Remaining(mono: real) returns (ms: nat)
      ensures ms == 0 <==> end <= mono
      ensures mono < end ==> ms as real - 1.0 < end - mono <= ms as real
      ensures mono < end ==> ms == Ceil(end - mono)
    {
      var left := Ceil(end - mono);
      ms := if left < 0 then 0 else left;
    }

    method Abort(code: string)
      modifies this`aborted
      ensures aborted == if old(aborted).Some? then old(aborted) else Some(code)
    {
      if aborted.None? { aborted := Some(code); }
    }

    /** The check before each awaited task: it passes only inside an unaborted budget. */
    method Check(mono: real) returns (ok: bool)
      modifies this`aborted
      ensures ok <==> old(aborted).None? && mono < end
      ensures ok ==> aborted.None?
      ensures !ok ==> aborted == if old(aborted).Some? then old(aborted) else Some("TURN_DEADLINE")
    {
      var ms := Remaining(mono);
      if ms == 0 { Abort("TURN_DEADLINE"); }
      ok := aborted.None?;
    }
  }

  /** Real time t read on a clock with offset `offset`; the store reports whole milliseconds. */
  function Monotonic(t: real, offset: real): real { t + offset }
  function StoreTime(t: real, offset: real): int { (t + offset).Floor }

  /** Store time before the computed deadline is gateway time before the budget's end: the store took its reading before the gateway anchored it. */
  lemma CommitBeforeDeadline(deadline: int, readAt: real, anchoredAt: real, commitAt: real, end: real, mono: real, store: real)
    requires readAt <= anchoredAt
    requires deadline == DeadlineFrom(Anchor(StoreTime(readAt, store), Monotonic(anchoredAt, mono)), end)
    requires StoreTime(commitAt, store) < deadline
    ensures Monotonic(commitAt, mono) < end
  {
    assert commitAt + store < deadline as real;
  }

  /**
    The deadline gives away no more than the read's own latency and two milliseconds of rounding: a
    commit that much before the budget end is not refused for being late, if the lease allows it.
   */
  lemma EarlyCommitIsNotLate(claimNow: int, leaseMs: int, readAt: real, anchoredAt: real, commitAt: real, end: real, mono: real, store: real)
    requires readAt <= anchoredAt
    requires Monotonic(commitAt, mono) + (anchoredAt - readAt) + 2.0 <= end
    requires StoreTime(commitAt, store) < claimNow + leaseMs
    ensures OwnerDeadline(claimNow, Some(leaseMs), Some(DeadlineFrom(Anchor(StoreTime(readAt, store), Monotonic(anchoredAt, mono)), end))).value
            > StoreTime(commitAt, store)
  {
  }
}
