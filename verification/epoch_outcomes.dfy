/** What a rollover and a bootstrap return and leave, for every reachable state,
    in terms of the columns alone. */
module EpochOutcomes {
  import opened Wrappers
  import opened Types
  import opened Calc
  import opened LedgerSteps
  import opened LedgerInvariant
  import opened EpochRules
  import opened Invariant
  import opened ServiceInvariants
  import opened Runs
  import opened LedgerTheorems

  /** q is amount * bps / 10000, rounded down. */
  ghost predicate FloorOf(q: int, amount: int, bps: int) {
    q * 10000 <= amount * bps < (q + 1) * 10000
  }

  /** The epoch that opens: its number, the supply of the moment, the budgets of
      the rates, the debt, and meters at zero. */
  ghost predicate Opening(e: Epoch, number: int, supply: int, rates: Rates, debt: int) {
    && FloorOf(e.baseBudget, supply, rates.inflationBps)
    && FloorOf(e.maxAdvance, e.baseBudget, rates.maxAdvanceBps)
    && e == Epoch(number, Active, supply, rates.inflationBps, e.baseBudget, debt,
                  if e.baseBudget > debt then e.baseBudget - debt else 0, e.maxAdvance, 0, 0, 0)
  }

  /** The policy a rollover leaves: the version that was waiting, or the same. */
  function NextPolicy(v: Tables): Policy {
    if v.policy.pendingVersionId.Some? && v.policy.pendingVersionId.value < |v.versions| then
      var row := v.versions[v.policy.pendingVersionId.value];
      Policy(row.version, row.rates, row.rules, None, None)
    else v.policy
  }

  /** Pending power joins the active, and the epoch's earnings restart. */
  function Rolled(b: Balance): Balance {
    Balance(b.total, b.active + b.pending, 0, 0, b.earnedLifetime, b.reversedLifetime)
  }

  /** The last epoch closed and the next one opened; all pending power active in
      both layers; a waiting version live; and nothing else changed. */
  ghost predicate RollsOver(v: Tables, v': Tables)
    requires v.ledger.epochs != []
  {
    var l, l', n := v.ledger, v'.ledger, |v.ledger.epochs|;
    var e := l.epochs[n - 1];
    && v' == v.(ledger := l', policy := NextPolicy(v))
    && l'.supply == l.supply && l'.ledgerSeq == l.ledgerSeq && l'.reversals == l.reversals
    && |l'.epochs| == n + 1
    && (forall i | 0 <= i < n - 1 :: l'.epochs[i] == l.epochs[i])
    && l'.epochs[n - 1] == e.(status := Closed, unusedBudget := e.effectiveBudget - e.regularMinted)
    && Opening(l'.epochs[n], n + 1, l.supply, NextPolicy(v).rates,
               e.advancedMinted + if e.debt > e.baseBudget then e.debt - e.baseBudget else 0)
    && l'.balances.Keys == l.balances.Keys
    && (forall m | m in l.balances :: l'.balances[m] == Rolled(l.balances[m]))
    && |l'.mints| == |l.mints|
    && (forall i | 0 <= i < |l.mints| :: l'.mints[i] == l.mints[i].(status := Effective))
  }

  lemma FloorIs(amount: int, bps: int)
    requires amount >= 0 && bps >= 0
    ensures RateOf(amount, bps).Success? && FloorOf(RateOf(amount, bps).value, amount, bps)
    ensures RateOf(amount, bps).value >= 0
  {
    var x := amount * bps;
    assert x >= 0;
  }

  lemma DerivedIs(number: int, supply: int, debt: int, rates: Rates)
    requires supply >= 0 && debt >= 0 && rates.inflationBps >= 0 && rates.maxAdvanceBps >= 0
    ensures DeriveBudget(supply, debt, rates).Success?
    ensures Opening(NewEpoch(number, supply, rates.inflationBps, debt, DeriveBudget(supply, debt, rates).value),
                    number, supply, rates, debt)
  {
    FloorIs(supply, rates.inflationBps);
    FloorIs(RateOf(supply, rates.inflationBps).value, rates.maxAdvanceBps);
    hide RateOf, FloorOf;
  }

  /** The version waiting, if any, waits for the next epoch and is on record. */
  lemma WaitingVersion(v: Tables)
    requires Inv(v)
    ensures v.policy.pendingVersionId.Some? ==>
      v.policy.pendingVersionId.value < |v.versions| && v.policy.pendingEffectiveEpoch == Some(|v.ledger.epochs| + 1)
    ensures 0 <= NextPolicy(v).rates.inflationBps && 0 <= NextPolicy(v).rates.maxAdvanceBps
  {
    hide BoardOk, RequestsOk, AdvancesOk, SingleUseOk, EpochsOk;
    if v.policy.pendingVersionId.Some? {
      assert VersionOk(v.versions[v.policy.pendingVersionId.value], v.policy.pendingVersionId.value, v.proposals);
    }
  }

  lemma NextIs(v: Tables, opening: int)
    requires v.policy.pendingVersionId.Some? ==>
      v.policy.pendingVersionId.value < |v.versions| && v.policy.pendingEffectiveEpoch == Some(opening)
    ensures PolicyRules.ActivatePendingVersion(v, opening) == Success(v.(policy := NextPolicy(v)))
  {
  }

  /** Closing the last epoch rolls over, closing an earlier one is a no-op. */
  lemma CloseOutcomes(v: Tables, id: nat)
    requires Reachable(v)
    ensures var r := CloseEpoch(v, id);
      if id >= |v.ledger.epochs| then r == Failure(NotFound)
      else if id < |v.ledger.epochs| - 1 then r == Success((v, AlreadyClosed))
      else
        && r.Success? && r.value.1 == RolledTo(|v.ledger.epochs|)
        && RollsOver(v, r.value.0)
  {
    hide Reachable, Inv, LedgerInv, DeriveBudget, Opening, NumberExists;
    ReachableInv(v);
    if id < |v.ledger.epochs| {
      EpochChain(v, id);
      if id == |v.ledger.epochs| - 1 {
        var n, e := |v.ledger.epochs|, v.ledger.epochs[id];
        LastEpoch(v);
        EpochFacts(e, n);
        NumberFree(v);
        WaitingVersion(v);
        NextIs(v, n + 1);
        LedgerOfInv(v);
        BalancesNonNegative(v.ledger, v.policy.rates);
        DerivedIs(n + 1, v.ledger.supply, DebtAfter(e), NextPolicy(v).rates);
        AllPendingActivate(v);
        RowsRoll(v);
        hide PolicyRules.ActivatePendingVersion, NextPolicy;
      }
    }
  }

  lemma NumberFree(v: Tables)
    requires Reachable(v)
    ensures !NumberExists(v.ledger.epochs, |v.ledger.epochs| + 1)
  {
    hide Reachable;
    forall i: nat | i < |v.ledger.epochs|
      ensures v.ledger.epochs[i].number == i + 1
    {
      EpochChain(v, i);
    }
  }

  lemma AllPendingActivate(v: Tables)
    requires Reachable(v)
    ensures forall i | 0 <= i < |v.ledger.mints| ::
      RollMint(v.ledger.mints[i], |v.ledger.epochs| + 1) == v.ledger.mints[i].(status := Effective)
  {
    hide Reachable;
    TwoLayersAgree(v, "");
  }

  lemma RowsRoll(v: Tables)
    requires Reachable(v)
    ensures forall m | m in v.ledger.balances :: RollBalance(v.ledger.balances[m]) == Rolled(v.ledger.balances[m])
  {
    hide Reachable;
    forall m | m in v.ledger.balances
      ensures RollBalance(v.ledger.balances[m]) == Rolled(v.ledger.balances[m])
    {
      TwoLayersAgree(v, m);
    }
  }

  /** The bootstrap finds the active epoch, or opens number 1 without debt. */
  lemma BootstrapOutcomes(v: Tables)
    requires Reachable(v)
    ensures var r := CreateNextEpoch(v);
      && r.Success?
      && var (v', outcome) := r.value;
      if v.ledger.epochs != [] then v' == v && outcome == BootstrapOutcome(|v.ledger.epochs| - 1, false)
      else
        && outcome == BootstrapOutcome(0, true)
        && v' == v.(ledger := v.ledger.(epochs := v'.ledger.epochs))
        && |v'.ledger.epochs| == 1
        && Opening(v'.ledger.epochs[0], 1, v.ledger.supply, v.policy.rates, 0)
  {
    hide Reachable, Inv, LedgerInv, DeriveBudget, Opening;
    ReachableInv(v);
    LastEpoch(v);
    LedgerOfInv(v);
    BalancesNonNegative(v.ledger, v.policy.rates);
    LiveRatesOk(v);
    DerivedIs(1, v.ledger.supply, 0, v.policy.rates);
  }

  lemma LiveRatesOk(v: Tables)
    requires Inv(v)
    ensures 0 <= v.policy.rates.inflationBps && 0 <= v.policy.rates.maxAdvanceBps
  {
    hide BoardOk, VersionsOk, PolicyOk, RequestsOk, AdvancesOk, SingleUseOk, EpochsOk;
  }
}
