/** Ownership shares in millionths: what flooring leaves of 100 percent, and
    how a mint moves them. */
module Ownership {
  import opened Wrappers
  import opened Types
  import opened Calc
  import opened Sums
  import opened LedgerSteps
  import opened LedgerInvariant
  import opened Runs
  import opened LedgerTheorems

  /** The share of a balance where the calculation is defined. */
  function Share(balance: int, supply: int): int {
    match OwnershipMillionths(balance, supply)
    case Success(share) => share
    case Failure(_) => 0
  }

  function Shares(totals: map<Member, int>, supply: int): map<Member, int> {
    map m | m in totals :: Share(totals[m], supply)
  }

  lemma ShareBounds(balance: int, supply: int)
    requires balance >= 0 && supply > 0
    ensures Share(balance, supply) * supply <= balance * MILLION
    ensures balance * MILLION <= Share(balance, supply) * supply + supply - 1
  {
  }

  /** n floored shares lose less than one millionth each. */
  ghost predicate Floored(shares: int, supply: int, sum: int, n: int) {
    shares * supply <= sum * MILLION <= shares * supply + n * (supply - 1)
  }

  lemma {:induction false} SharesSum(totals: map<Member, int>, supply: int)
    requires supply > 0 && forall m | m in totals :: totals[m] >= 0
    ensures Floored(SumMap(Shares(totals, supply)), supply, SumMap(totals), |totals|)
    decreases |totals.Keys|
  {
    hide Share, SumMap, Floored;
    if totals.Keys == {} {
      assert totals == map[] && Shares(totals, supply) == map[];
      SumEmpty();
      NothingFloored(supply);
    } else {
      var m :| m in totals;
      var rest := totals - {m};
      assert rest.Keys == totals.Keys - {m};
      SharesSum(rest, supply);
      SumMapSplit(totals, m);
      SumMapSplit(Shares(totals, supply), m);
      assert Shares(totals, supply) - {m} == Shares(rest, supply);
      assert |totals| == |totals.Keys| == |rest.Keys| + 1 == |rest| + 1;
      ShareFloored(totals[m], supply);
      CombineShares(SumMap(Shares(rest, supply)), Share(totals[m], supply), supply, SumMap(rest), totals[m], |rest|);
    }
  }

  lemma SumEmpty()
    ensures SumMap(map[]) == 0
  {
  }

  lemma NothingFloored(supply: int)
    ensures Floored(0, supply, 0, 0)
  {
  }

  lemma ShareFloored(balance: int, supply: int)
    requires balance >= 0 && supply > 0
    ensures Floored(Share(balance, supply), supply, balance, 1)
  {
    ShareBounds(balance, supply);
  }

  lemma CombineShares(shares: int, share: int, supply: int, sum: int, total: int, n: int)
    requires Floored(shares, supply, sum, n) && Floored(share, supply, total, 1)
    ensures Floored(shares + share, supply, sum + total, n + 1)
  {
    assert (shares + share) * supply == shares * supply + share * supply;
    assert (n + 1) * (supply - 1) == n * (supply - 1) + supply - 1;
  }

  /** With n balance rows and a positive supply the shares sum to at most a
      million and to more than a million less n. */
  lemma SharesNearlySumToWhole(v: Tables)
    requires Reachable(v) && v.ledger.supply > 0
    ensures var sum := SumMap(Shares(Totals(v.ledger.balances), v.ledger.supply));
      MILLION - |v.ledger.balances| < sum <= MILLION
  {
    hide Reachable, LedgerInv, Share, SumMap, Floored;
    ReachableLedger(v);
    BalancesNonNegative(v.ledger, v.policy.rates);
    SupplyConserved(v);
    var totals := Totals(v.ledger.balances);
    forall m | m in totals
      ensures totals[m] >= 0
    {
      LedgerLayers(v.ledger, v.policy.rates, m);
      assert Row(v.ledger.balances, m).active >= 0;
    }
    SharesSum(totals, v.ledger.supply);
    assert totals.Keys == v.ledger.balances.Keys;
    assert |totals| > 0 by {
      if totals.Keys == {} {
        assert totals == map[];
        SumEmpty();
      }
    }
    NearWhole(SumMap(Shares(totals, v.ledger.supply)), v.ledger.supply, |totals|);
  }

  lemma NearWhole(sum: int, supply: int, n: int)
    requires supply > 0 && n > 0
    requires Floored(sum, supply, supply, n)
    ensures MILLION - n < sum <= MILLION
  {
    if sum > MILLION {
      MulMonotone(MILLION + 1, sum, supply);
    }
    if sum <= MILLION - n {
      MulMonotone(sum, MILLION - n, supply);
    }
  }

  // ---- How one leg moves the shares ----

  lemma RecipientShare(balance: int, supply: int, amount: int)
    requires 0 <= balance <= supply && amount > 0
    ensures Share(balance, supply) <= Share(balance + amount, supply + amount)
  {
    if supply > 0 {
      var q := balance * MILLION / supply;
      FloorTimes(balance * MILLION, supply);
      RecipientArithmetic(q, balance, supply, amount);
      AtMostFloor(q, (balance + amount) * MILLION, supply + amount);
    }
  }

  lemma OtherShare(balance: int, supply: int, amount: int)
    requires 0 <= balance <= supply && amount > 0
    ensures Share(balance, supply + amount) <= Share(balance, supply)
  {
    if supply > 0 {
      var q := balance * MILLION / (supply + amount);
      FloorTimes(balance * MILLION, supply + amount);
      OtherArithmetic(q, balance * MILLION, supply, amount);
      AtMostFloor(q, balance * MILLION, supply);
    }
  }

  lemma FloorTimes(x: int, d: int)
    requires x >= 0 && d > 0
    ensures x / d >= 0 && (x / d) * d <= x
  {
  }

  lemma RecipientArithmetic(q: int, balance: int, supply: int, amount: int)
    requires 0 <= balance <= supply && supply > 0 && amount > 0
    requires q * supply <= balance * MILLION
    ensures q * (supply + amount) <= (balance + amount) * MILLION
  {
    if q > MILLION {
      MulMonotone(MILLION + 1, q, supply);
    }
    MulMonotone(q, MILLION, amount);
  }

  lemma OtherArithmetic(q: int, x: int, supply: int, amount: int)
    requires q >= 0 && amount > 0 && q * (supply + amount) <= x
    ensures q * supply <= x
  {
    MulMonotone(0, q, amount);
  }

  lemma AtMostFloor(q: int, x: int, d: int)
    requires d > 0 && x >= 0 && q * d <= x
    ensures q <= x / d
  {
    var k, r := x / d, x % d;
    assert x == k * d + r && 0 <= r < d;
    if q > k {
      MulMonotone(k + 1, q, d);
    }
  }

  /** A mint leg leaves the recipient's share no smaller and every other
      member's share no larger. */
  lemma MintMovesShares(v: Tables, leg: Leg, m: Member)
    requires Reachable(v) && leg.amount > 0
    ensures var l, l' := v.ledger, PostMint(v.ledger, leg);
      var before, after := Share(Row(l.balances, m).total, l.supply), Share(Row(l'.balances, m).total, l'.supply);
      if m == leg.member then before <= after else after <= before
  {
    hide Reachable, LedgerInv, Share;
    ReachableLedger(v);
    BalancesNonNegative(v.ledger, v.policy.rates);
    LedgerLayers(v.ledger, v.policy.rates, m);
    var total := Row(v.ledger.balances, m).total;
    assert Row(v.ledger.balances, m).active >= 0;
    RecipientShare(total, v.ledger.supply, leg.amount);
    OtherShare(total, v.ledger.supply, leg.amount);
  }
}
