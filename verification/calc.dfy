/** The pure token arithmetic: amounts are unbounded integers, rates are basis
    points, every division floors, and a negative operand is rejected. */
module Calc {
  import opened Wrappers

  const BPS := 10000
  const HARD_CAP_BPS := 2500
  const PROPOSAL_THRESHOLD_BPS := 1000
  const MAX_SAFE_INTEGER := 9007199254740991
  const MILLION := 1000000

  function Max(a: int, b: int): int {
    if a > b then a else b
  }

  function Min(a: int, b: int): int {
    if a < b then a else b
  }

  /** amount * bps / 10000: base budget, maximum advance and member cap alike. */
  function RateOf(amount: int, bps: int): Result<int> {
    if amount < 0 || bps < 0 then Failure(ValidationError)
    else Success(amount * bps / BPS)
  }

  function EffectiveRegularBudget(base: int, debt: int): Result<int> {
    if base < 0 || debt < 0 then Failure(ValidationError)
    else Success(Max(base - debt, 0))
  }

  function CarriedOverDebt(base: int, debt: int): Result<int> {
    if base < 0 || debt < 0 then Failure(ValidationError)
    else Success(Max(debt - base, 0))
  }

  /** Ownership in millionths; an empty supply gives everyone a zero share. */
  function OwnershipMillionths(balance: int, supply: int): Result<int> {
    if balance < 0 || supply < 0 then Failure(ValidationError)
    else Success(if supply == 0 then 0 else balance * MILLION / supply)
  }

  function CumulativeAdvanceRateBps(advanced: int, requested: int, base: int): Result<int> {
    if advanced < 0 || requested < 0 || base < 0 then Failure(ValidationError)
    else if base == 0 then Success(if requested > 0 then MAX_SAFE_INTEGER else 0)
    else Success((advanced + requested) * BPS / base)
  }

  datatype ApprovalPath = StandardRule | DualAdmin | CommunityProposal | SystemForbidden

  function ResolveAdvanceApproval(cumulativeBps: int, relatedParty: bool, special: bool): ApprovalPath {
    if cumulativeBps > HARD_CAP_BPS then SystemForbidden
    else if relatedParty || special then CommunityProposal
    else if cumulativeBps > PROPOSAL_THRESHOLD_BPS then CommunityProposal
    else if cumulativeBps > 0 then DualAdmin
    else StandardRule
  }

  /** What the flooring makes of a rate threshold: for a positive request the
      rate is at most `cap` bps exactly when the amounts stay strictly under
      (cap + 1) ten-thousandths of the base, so the cap itself may be overrun
      by less than one basis point. */
  lemma RateWithinCap(advanced: int, requested: int, base: int, cap: int)
    requires advanced >= 0 && requested > 0 && base >= 0
    requires 0 <= cap < MAX_SAFE_INTEGER
    ensures CumulativeAdvanceRateBps(advanced, requested, base).Success?
    ensures CumulativeAdvanceRateBps(advanced, requested, base).value <= cap
       <==> (advanced + requested) * BPS < (cap + 1) * base
  {
    if base > 0 {
      FloorBelow((advanced + requested) * BPS, base, cap);
    }
  }

  /** x / d <= q exactly when x < (q + 1) * d. */
  lemma FloorBelow(x: int, d: int, q: int)
    requires x >= 0 && d > 0 && q >= 0
    ensures x / d <= q <==> x < (q + 1) * d
  {
    var k, r := x / d, x % d;
    assert x == k * d + r && 0 <= r < d;
    if k <= q {
      MulMonotone(k, q, d);
    } else {
      MulMonotone(q + 1, k, d);
    }
  }

  lemma MulMonotone(a: int, b: int, d: int)
    requires a <= b && d >= 0
    ensures a * d <= b * d
  {
  }

  /** A larger amount at a larger rate yields no smaller a budget. */
  lemma RateOfMonotone(a: int, a': int, bps: int, bps': int)
    requires 0 <= a <= a' && 0 <= bps <= bps'
    ensures 0 <= a * bps / BPS <= a' * bps' / BPS
  {
    assert a * bps <= a' * bps;
    assert a' * bps <= a' * bps';
  }
}
