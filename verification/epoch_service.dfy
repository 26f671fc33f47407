/** The epoch service: the rollover as its steps run, and the bootstrap. */
module EpochServices {
  import opened Wrappers
  import opened Types
  import opened Calc
  import opened LedgerSteps
  import opened EpochRules
  import opened Databases
  import opened PolicyServices
  import PolicyRules

  class EpochService {
    const db: Database
    const policyActivation: PolicyService

    constructor (db: Database, policyActivation: PolicyService)
      ensures this.db == db && this.policyActivation == policyActivation
    {
      this.db, this.policyActivation := db, policyActivation;
    }

    method CloseEpoch(id: nat) returns (r: Result<CloseOutcome>)
      requires policyActivation.db == db
      modifies db
      ensures Commits(old(db.Value()), db.Value(), EpochRules.CloseEpoch(old(db.Value()), id), r)
    {
      var before := db.Value();
      r := CloseInTransaction(id);
      if r.Failure? {
        db.Rollback(before);
      }
    }

    method CloseInTransaction(id: nat) returns (r: Result<CloseOutcome>)
      requires policyActivation.db == db
      modifies db
      ensures Agrees(db.Value(), EpochRules.CloseEpoch(old(db.Value()), id), r)
    {
      hide Roll, DeriveBudget, CarriedOverDebt, NumberExists, PolicyRules.ActivatePendingVersion;
      ghost var v := db.Value();
      if id >= |db.epochs| { return Failure(NotFound); }
      var current := db.epochs[id];
      if current.status == Closed { return Success(AlreadyClosed); }
      if current.status != Active { return Failure(InvalidStatus); }

      var unused := current.effectiveBudget - current.regularMinted;
      db.epochs := db.epochs[id := current.(status := Closing, unusedBudget := unused)];
      var policy := db.policy;
      var supply := db.supply;
      var opening := current.number + 1;
      var carried := CarriedOverDebt(current.baseBudget, current.debt);
      if carried.Failure? { return Failure(carried.error); }
      var debt := current.advancedMinted + carried.value;
      ActivatesBesideEpochs(v, db.epochs, opening);
      var activated := policyActivation.ActivatePendingVersion(opening);
      if activated.Failure? { return Failure(activated.error); }
      if activated.value {
        policy := db.policy;
      }
      var budget := DeriveBudget(supply, debt, policy.rates);
      if budget.Failure? { return Failure(budget.error); }
      FlipGovernance(opening);
      SameNumbers(v.ledger.epochs, db.epochs, opening);
      if NumberExists(db.epochs, opening) { return Failure(Conflict); }
      var nextId := |db.epochs|;
      db.epochs := db.epochs + [NewEpoch(opening, supply, policy.rates.inflationBps, debt, budget.value)];
      db.epochs := db.epochs[id := db.epochs[id].(status := Closed)];
      RollIs(v.ledger, db.Books(), id, policy.rates.inflationBps, debt, budget.value);
      r := Success(RolledTo(nextId));
    }

    /** Both governance layers and the per-epoch meters: three bulk updates. */
    method FlipGovernance(opening: int)
      modifies db`balances, db`mints
      ensures db.balances == RollBalances(old(db.balances))
      ensures db.mints == RollMints(old(db.mints), opening)
    {
      var rows := db.ActivatePendingGovernance();
      db.mints := seq(|db.mints|, i requires 0 <= i < |db.mints| reads db =>
        if db.mints[i].status == Pending && db.mints[i].activationEpoch == Some(opening)
        then db.mints[i].(status := Effective) else db.mints[i]);
      db.balances := map m | m in db.balances :: db.balances[m].(earnedEpoch := 0);
    }

    // ---- Bootstrap ----

    method CreateNextEpoch() returns (r: Result<BootstrapOutcome>)
      modifies db
      ensures Commits(old(db.Value()), db.Value(), EpochRules.CreateNextEpoch(old(db.Value())), r)
    {
      hide LastNumber;
      var active := ActiveEpoch(db.epochs);
      if active.Some? { return Success(BootstrapOutcome(active.value, false)); }
      var maxNumber := MaxNumber(db.epochs);
      var budget := DeriveBudget(db.supply, 0, db.policy.rates);
      if budget.Failure? { return Failure(budget.error); }
      var id := |db.epochs|;
      db.epochs := db.epochs + [NewEpoch(maxNumber + 1, db.supply, db.policy.rates.inflationBps, 0, budget.value)];
      r := Success(BootstrapOutcome(id, true));
    }

    method MaxNumber(epochs: seq<Epoch>) returns (max: int)
      ensures max == LastNumber(epochs)
      ensures max >= 0 && forall e <- epochs :: e.number <= max
      ensures max > 0 ==> NumberExists(epochs, max)
    {
      max := 0;
      for i := 0 to |epochs|
        invariant max == LastNumber(epochs[..i])
        invariant max >= 0 && forall k | 0 <= k < i :: epochs[k].number <= max
        invariant max > 0 ==> exists k | 0 <= k < i :: epochs[k].number == max
      {
        assert epochs[..i + 1][..i] == epochs[..i];
        if epochs[i].number > max {
          max := epochs[i].number;
        }
      }
      assert epochs[..|epochs|] == epochs;
    }
  }

  /** Activating a version neither reads nor writes the epoch rows, and changes
      nothing but the policy row. */
  lemma ActivatesBesideEpochs(v: Tables, epochs: seq<Epoch>, opening: int)
    ensures PolicyRules.ActivatePendingVersion(v.(ledger := v.ledger.(epochs := epochs)), opening)
      == match PolicyRules.ActivatePendingVersion(v, opening)
         case Success(after) => Success(after.(ledger := v.ledger.(epochs := epochs)))
         case Failure(e) => Failure(e)
    ensures match PolicyRules.ActivatePendingVersion(v, opening)
      case Success(after) => after == v.(policy := after.policy)
      case Failure(_) => true
  {
  }

  /** Closing a row does not change which numbers are taken. */
  lemma SameNumbers(epochs: seq<Epoch>, epochs': seq<Epoch>, number: int)
    requires |epochs| == |epochs'| && forall i | 0 <= i < |epochs| :: epochs[i].number == epochs'[i].number
    ensures NumberExists(epochs, number) == NumberExists(epochs', number)
  {
    if NumberExists(epochs, number) {
      var i :| 0 <= i < |epochs| && epochs[i].number == number;
      assert epochs'[i].number == number;
    }
  }

  /** What the steps leave behind is the one-step rollover. */
  lemma RollIs(l: Ledger, l': Ledger, id: nat, inflationBps: int, debt: int, budget: Budget)
    requires id < |l.epochs| && |l'.epochs| == |l.epochs| + 1
    requires l'.epochs == l.epochs[id := CloseRow(l.epochs[id])]
      + [NewEpoch(l.epochs[id].number + 1, l.supply, inflationBps, debt, budget)]
    requires l'.balances == RollBalances(l.balances)
    requires l'.mints == RollMints(l.mints, l.epochs[id].number + 1)
    requires l'.supply == l.supply && l'.ledgerSeq == l.ledgerSeq && l'.reversals == l.reversals
    ensures l' == Roll(l, id, inflationBps, debt, budget)
  {
  }
}
