/** Opening the first epoch and rolling the active one over. */
module EpochRules {
  import opened Wrappers
  import opened Types
  import opened Calc
  import opened LedgerSteps
  import PolicyRules

  function DeriveBudget(openingSupply: int, debt: int, rates: Rates): Result<Budget> {
    var base :- RateOf(openingSupply, rates.inflationBps);
    var effective :- EffectiveRegularBudget(base, debt);
    var maxAdvance :- RateOf(base, rates.maxAdvanceBps);
    Success(Budget(base, effective, maxAdvance))
  }

  predicate NumberExists(epochs: seq<Epoch>, number: int) {
    exists i | 0 <= i < |epochs| :: epochs[i].number == number
  }

  datatype CloseOutcome = AlreadyClosed | RolledTo(nextId: nat)

  function CloseEpoch(v: Tables, id: nat): Result<(Tables, CloseOutcome)> {
    var l := v.ledger;
    if id >= |l.epochs| then Failure(NotFound)
    else if l.epochs[id].status == Closed then Success((v, AlreadyClosed))
    else if l.epochs[id].status != Active then Failure(InvalidStatus)
    else
      var current := l.epochs[id];
      var carried :- CarriedOverDebt(current.baseBudget, current.debt);
      var debt := current.advancedMinted + carried;
      var v1 :- PolicyRules.ActivatePendingVersion(v, current.number + 1);
      var rates := v1.policy.rates;
      var budget :- DeriveBudget(l.supply, debt, rates);
      if NumberExists(l.epochs, current.number + 1) then Failure(Conflict)
      else Success((v1.(ledger := Roll(l, id, rates.inflationBps, debt, budget)), RolledTo(|l.epochs|)))
  }

  /** The largest epoch number so far, 0 when there is none. */
  function LastNumber(epochs: seq<Epoch>): int {
    if epochs == [] then 0
    else Max(epochs[|epochs| - 1].number, LastNumber(epochs[..|epochs| - 1]))
  }

  datatype BootstrapOutcome = BootstrapOutcome(epochId: nat, created: bool)

  function CreateNextEpoch(v: Tables): Result<(Tables, BootstrapOutcome)> {
    var l := v.ledger;
    match ActiveEpoch(l.epochs)
    case Some(id) => Success((v, BootstrapOutcome(id, false)))
    case None =>
      var budget :- DeriveBudget(l.supply, 0, v.policy.rates);
      var e := NewEpoch(LastNumber(l.epochs) + 1, l.supply, v.policy.rates.inflationBps, 0, budget);
      Success((v.(ledger := l.(epochs := l.epochs + [e])), BootstrapOutcome(|l.epochs|, true)))
  }
}
