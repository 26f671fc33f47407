/** Advance debt over whole runs: nothing evaporates, nothing rolls over while
    debt is owed, and a budget that does not shrink repays it in one epoch. */
module DebtTheorems {
  import opened Wrappers
  import opened Types
  import opened Calc
  import opened LedgerInvariant
  import opened EpochRules
  import opened Invariant
  import opened ServiceInvariants
  import opened Runs
  import opened LedgerTheorems

  function AdvancedSum(epochs: seq<Epoch>): int {
    if epochs == [] then 0 else AdvancedSum(epochs[..|epochs| - 1]) + epochs[|epochs| - 1].advancedMinted
  }

  /** What the base budgets repaid of the debt their epochs opened with. */
  function RepaidSum(epochs: seq<Epoch>): int {
    if epochs == [] then 0
    else
      var e := epochs[|epochs| - 1];
      RepaidSum(epochs[..|epochs| - 1]) + Min(e.baseBudget, e.debt)
  }

  function BaseSum(epochs: seq<Epoch>): int {
    if epochs == [] then 0 else BaseSum(epochs[..|epochs| - 1]) + epochs[|epochs| - 1].baseBudget
  }

  /** Debt conservation: through any epoch, what was ever advanced is what is
      still owed after it plus what base budgets have repaid, and so the two
      meters together never exceed the base budgets plus the debt owed. */
  lemma DebtConserved(v: Tables, k: nat)
    requires Reachable(v) && 1 <= k <= |v.ledger.epochs|
    ensures var epochs := v.ledger.epochs;
      && AdvancedSum(epochs[..k]) == DebtAfter(epochs[k - 1]) + RepaidSum(epochs[..k])
      && MeterTotal(epochs[..k]) <= BaseSum(epochs[..k]) + DebtAfter(epochs[k - 1])
      && (k < |epochs| ==> epochs[k].debt == DebtAfter(epochs[k - 1]))
  {
    hide Reachable, LedgerInv, RatesLive, RatesOk, OpeningsOk, EpochsOk;
    ReachableLedger(v);
    LedgerEpochs(v.ledger, v.policy.rates);
    DebtConservedAlong(v.ledger.epochs, k);
  }

  lemma {:induction false} DebtConservedAlong(epochs: seq<Epoch>, k: nat)
    requires EpochsOk(epochs) && 1 <= k <= |epochs|
    ensures AdvancedSum(epochs[..k]) == DebtAfter(epochs[k - 1]) + RepaidSum(epochs[..k])
    ensures MeterTotal(epochs[..k]) <= BaseSum(epochs[..k]) + DebtAfter(epochs[k - 1])
    ensures k < |epochs| ==> epochs[k].debt == DebtAfter(epochs[k - 1])
  {
    assert epochs[..k][..k - 1] == epochs[..k - 1];
    assert EpochOk(epochs[k - 1], k, k == |epochs|);
    if k > 1 {
      DebtConservedAlong(epochs, k - 1);
    }
  }

  /** No rolling advance, and the hard cap as the flooring leaves it. */
  lemma AdvanceWithinCaps(v: Tables, i: nat)
    requires Reachable(v) && i < |v.ledger.epochs| && v.ledger.epochs[i].advancedMinted > 0
    ensures var e := v.ledger.epochs[i];
      && e.debt == 0
      && 10000 * e.advancedMinted < 2501 * e.baseBudget
      && e.advancedMinted <= e.maxAdvance
  {
    hide Reachable, LedgerInv, RatesLive, RatesOk, OpeningsOk;
    ReachableLedger(v);
    LedgerEpochs(v.ledger, v.policy.rates);
    assert EpochOk(v.ledger.epochs[i], i + 1, i + 1 == |v.ledger.epochs|);
  }

  /** Debt an epoch opens with is gone at its end exactly when its base budget
      covers it: the epoch itself cannot advance anything meanwhile. */
  lemma RepaidInOneEpochIff(v: Tables, i: nat)
    requires Reachable(v) && i < |v.ledger.epochs| && v.ledger.epochs[i].debt > 0
    ensures v.ledger.epochs[i].advancedMinted == 0
    ensures DebtAfter(v.ledger.epochs[i]) == 0 <==> v.ledger.epochs[i].debt <= v.ledger.epochs[i].baseBudget
  {
    hide Reachable, LedgerInv, RatesLive, RatesOk, OpeningsOk;
    ReachableLedger(v);
    LedgerEpochs(v.ledger, v.policy.rates);
    assert EpochOk(v.ledger.epochs[i], i + 1, i + 1 == |v.ledger.epochs|);
  }

  /** From an epoch whose base covers its debt, as long as neither opening
      supply nor inflation rate falls, every debt is covered by the base of the
      epoch it is carried into and gone at that epoch's end. */
  lemma DebtBounded(v: Tables, k: nat, i: nat)
    requires Reachable(v) && k <= i < |v.ledger.epochs|
    requires v.ledger.epochs[k].debt <= v.ledger.epochs[k].baseBudget
    requires Growing(v.ledger.epochs, k, i)
    ensures v.ledger.epochs[i].debt <= v.ledger.epochs[i].baseBudget
    ensures v.ledger.epochs[i].debt > 0 ==> DebtAfter(v.ledger.epochs[i]) == 0
  {
    hide Reachable, LedgerInv, RatesLive, RatesOk, EpochsOk, OpeningsOk, Growing;
    ReachableLedger(v);
    LedgerEpochs(v.ledger, v.policy.rates);
    DebtBoundedAlong(v.ledger.epochs, k, i);
  }

  /** Neither opening supply nor inflation rate falls from epoch k to epoch i. */
  ghost predicate Growing(epochs: seq<Epoch>, k: nat, i: nat)
    requires k <= i < |epochs|
  {
    forall j | k <= j < i :: NoLower(epochs[j], epochs[j + 1])
  }

  ghost predicate NoLower(p: Epoch, e: Epoch) {
    p.openingSupply <= e.openingSupply && p.inflationBps <= e.inflationBps
  }

  lemma {:induction false} DebtBoundedAlong(epochs: seq<Epoch>, k: nat, i: nat)
    requires EpochsOk(epochs) && k <= i < |epochs|
    requires epochs[k].debt <= epochs[k].baseBudget && Growing(epochs, k, i)
    ensures epochs[i].debt <= epochs[i].baseBudget
    ensures epochs[i].debt > 0 ==> DebtAfter(epochs[i]) == 0
    decreases i
  {
    var e := epochs[i];
    assert EpochOk(e, i + 1, i + 1 == |epochs|);
    if k < i {
      var p := epochs[i - 1];
      DebtBoundedAlong(epochs, k, i - 1);
      assert NoLower(epochs[i - 1], epochs[i - 1 + 1]);
      assert EpochOk(p, i, false);
      BaseGrows(p, e);
    }
  }

  /** Debt taken in one epoch is repaid by the next one's budget, and the epoch
      after that opens with none, if from the first to the second neither
      opening supply nor inflation rate fell. What happened elsewhere does not
      matter. */
  lemma RepaidByNextEpoch(v: Tables, i: nat)
    requires Reachable(v) && i + 2 < |v.ledger.epochs| && v.ledger.epochs[i].advancedMinted > 0
    requires NoLower(v.ledger.epochs[i], v.ledger.epochs[i + 1])
    ensures v.ledger.epochs[i + 1].debt == v.ledger.epochs[i].advancedMinted <= v.ledger.epochs[i + 1].baseBudget
    ensures v.ledger.epochs[i + 2].debt == 0
  {
    hide Reachable, LedgerInv, RatesLive, RatesOk, EpochsOk, OpeningsOk;
    AdvanceWithinCaps(v, i);
    ReachableLedger(v);
    LedgerEpochs(v.ledger, v.policy.rates);
    BaseNotNegative(v.ledger.epochs, i);
    DebtBounded(v, i, i + 1);
    DebtConserved(v, i + 1);
    DebtConserved(v, i + 2);
  }

  lemma BaseNotNegative(epochs: seq<Epoch>, i: nat)
    requires EpochsOk(epochs) && i < |epochs|
    ensures epochs[i].baseBudget >= 0
  {
    var e := epochs[i];
    assert EpochOk(e, i + 1, i + 1 == |epochs|);
    RateOfMonotone(e.openingSupply, e.openingSupply, e.inflationBps, e.inflationBps);
  }

  /** With no reversal and no cut of the rate so far that is every epoch. */
  lemma NoReversalNoCut(v: Tables, i: nat)
    requires Reachable(v) && i < |v.ledger.epochs|
    requires v.ledger.reversals == []
    requires forall k | 1 <= k < |v.ledger.epochs| ::
      v.ledger.epochs[k - 1].inflationBps <= v.ledger.epochs[k].inflationBps
    ensures v.ledger.epochs[i].debt <= v.ledger.epochs[i].baseBudget
    ensures v.ledger.epochs[i].debt > 0 ==> DebtAfter(v.ledger.epochs[i]) == 0
  {
    hide Reachable, LedgerInv, RatesLive, RatesOk, EpochsOk;
    ReachableLedger(v);
    LedgerEpochs(v.ledger, v.policy.rates);
    var epochs := v.ledger.epochs;
    forall j | 0 <= j < i
      ensures NoLower(epochs[j], epochs[j + 1])
    {
      assert epochs[j + 1 - 1].openingSupply <= epochs[j + 1].openingSupply;
    }
    BaseNotNegative(epochs, 0);
    FirstWithoutDebt(epochs);
    DebtBounded(v, 0, i);
  }

  lemma FirstWithoutDebt(epochs: seq<Epoch>)
    requires EpochsOk(epochs) && epochs != []
    ensures epochs[0].debt == 0
  {
  }

  lemma BaseGrows(p: Epoch, e: Epoch)
    requires 0 <= p.openingSupply <= e.openingSupply && 0 <= p.inflationBps <= e.inflationBps
    requires p.baseBudget == p.openingSupply * p.inflationBps / BPS
    requires e.baseBudget == e.openingSupply * e.inflationBps / BPS
    ensures p.baseBudget <= e.baseBudget
  {
    RateOfMonotone(p.openingSupply, e.openingSupply, p.inflationBps, e.inflationBps);
  }

  /** A cut of the rate leaves the debt: when a version with a zero inflation
      rate goes live, what the active epoch owes is still owed in full at the
      opening of the epoch after the next. */
  lemma RateCutKeepsDebt(v: Tables)
    requires Reachable(v) && v.ledger.epochs != [] && v.policy.pendingVersionId.Some?
    requires v.versions != [] && v.versions[|v.versions| - 1].rates.inflationBps == 0
    ensures var n := |v.ledger.epochs|;
      && CloseEpoch(v, n - 1).Success?
      && var v1 := CloseEpoch(v, n - 1).value.0;
      && CloseEpoch(v1, n).Success?
      && var v2 := CloseEpoch(v1, n).value.0;
      && |v2.ledger.epochs| == n + 2
      && v2.ledger.epochs[n + 1].debt == DebtAfter(v.ledger.epochs[n - 1])
  {
    hide Inv, Reachable, CloseEpoch, Good, EpochOk;
    ReachableInv(v);
    RolloverSucceeds(v);
    var n := |v.ledger.epochs|;
    CloseEpochKeepsInv(v, n - 1);
    var v1 := CloseEpoch(v, n - 1).value.0;
    RatesAfterClose(v);
    assert Inv(v1) by { GoodInv(v, v1); }
    RolloverSucceeds(v1);
    NoBaseAtZeroRate(v1);
  }

  lemma GoodInv(v: Tables, v': Tables)
    requires Good(v, v')
    ensures Inv(v')
  {
    hide Inv;
  }

  /** The pending version is what the rollover makes live. */
  lemma RatesAfterClose(v: Tables)
    requires Inv(v) && v.ledger.epochs != [] && CloseEpoch(v, |v.ledger.epochs| - 1).Success?
    ensures |v.versions| > 0
    ensures CloseEpoch(v, |v.ledger.epochs| - 1).value.1 != AlreadyClosed
    ensures var v1 := CloseEpoch(v, |v.ledger.epochs| - 1).value.0;
      v1.policy.rates == v.versions[|v.versions| - 1].rates
  {
    hide LedgerInv, BoardOk, RequestsOk, AdvancesOk, SingleUseOk, EpochOk, VersionsOk;
    LastEpoch(v);
    EpochFacts(v.ledger.epochs[|v.ledger.epochs| - 1], |v.ledger.epochs|);
  }

  lemma NoBaseAtZeroRate(v: Tables)
    requires Inv(v) && v.ledger.epochs != [] && v.policy.rates.inflationBps == 0
    ensures var e := v.ledger.epochs[|v.ledger.epochs| - 1];
      e.baseBudget == 0 && DebtAfter(e) == e.debt
  {
    hide Inv, LedgerInv;
    LedgerOfInv(v);
    LedgerEpochs(v.ledger, v.policy.rates);
    var e := v.ledger.epochs[|v.ledger.epochs| - 1];
    assert EpochOk(e, |v.ledger.epochs|, true);
    assert e.openingSupply * 0 == 0;
  }
}
