/** Machine-width arithmetic and the outbound byte budget (a token bucket) that the forwarder
    charges every packet against. */
module Budget {

  /** The largest value of a 64-bit `usize`. */
  const USIZE_MAX: nat := 0xFFFF_FFFF_FFFF_FFFF

  type Usize = x: nat | x <= USIZE_MAX

  /** `usize::saturating_add`: the sum, or `USIZE_MAX` when the sum does not fit. */
  function SaturatingAdd(a: Usize, b: Usize): (r: Usize)
    ensures a + b <= USIZE_MAX ==> r == a + b
    ensures a + b > USIZE_MAX ==> r == USIZE_MAX
    ensures a <= r && b <= r
  {
    if a + b <= USIZE_MAX then a + b else USIZE_MAX
  }

  /** `usize::saturating_sub`: the difference, or 0 when `b` exceeds `a`. Only the lower bound
      matters here, so the width is not needed. */
  function SaturatingSub(a: nat, b: nat): (r: nat)
    ensures b <= a ==> r + b == a
    ensures a < b ==> r == 0
    ensures r <= a
  {
    if b <= a then a - b else 0
  }

  /** Whether a budget holding `available` bytes can pay for `bytes` more. */
  predicate CanTake(available: Usize, bytes: Usize)
  {
    bytes <= available
  }

  /** What a budget holding `available` bytes holds after a `take(bytes)`: a successful take
      deducts exactly `bytes`, a failed one deducts nothing. */
  function AfterTake(available: Usize, bytes: Usize): (r: Usize)
    ensures CanTake(available, bytes) ==> r + bytes == available
    ensures !CanTake(available, bytes) ==> r == available
  {
    if CanTake(available, bytes) then available - bytes else available
  }

  /** Two takes of `n` bytes from a budget that held exactly `n`: the first succeeds and
      empties the budget, the second pays for nothing unless `n` is zero. */
  lemma TakeTwiceFromExactBudget(n: Usize)
    ensures CanTake(n, n) && AfterTake(n, n) == 0
    ensures CanTake(AfterTake(n, n), n) <==> n == 0
    ensures AfterTake(AfterTake(n, n), n) == 0
  {
  }

  /** The shared outbound byte budget. `available` is what is left to spend in the current
      interval; whether an interval has elapsed since the last refill is decided by a clock
      outside this model and given to `Update` as a flag. */
  class DataBudget {
    var available: Usize

    /** A budget that starts empty, as both the default and the restricted budget do. */
    constructor Empty()
      ensures available == 0
    {
      available := 0;
    }

    /** Applies `refill` to the available bytes when an interval has elapsed, and does
        nothing otherwise. */
    method Update(intervalElapsed: bool, refill: Usize -> Usize)
      modifies this
      ensures available == if intervalElapsed then refill(old(available)) else old(available)
    {
      if intervalElapsed {
        available := refill(available);
      }
    }

    /** Deducts `bytes` and reports true when enough bytes remain; otherwise deducts nothing
        and reports false. */
    method Take(bytes: Usize) returns (ok: bool)
      modifies this
      ensures ok == CanTake(old(available), bytes)
      ensures available == AfterTake(old(available), bytes)
    {
      ok := bytes <= available;
      if ok {
        available := available - bytes;
      }
    }
  }
}
