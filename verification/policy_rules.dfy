/** Versioned rates: a passed proposal arms a pending version, the next epoch
    rollover makes it live. */
module PolicyRules {
  import opened Wrappers
  import opened Types
  import opened Calc
  import opened LedgerSteps

  predicate ValidBps(bps: int) {
    0 <= bps <= BPS
  }

  predicate ValidRates(rates: Rates) {
    ValidBps(rates.inflationBps) && ValidBps(rates.maxAdvanceBps) && ValidBps(rates.memberCapBps)
  }

  predicate VersionExists(versions: seq<PolicyVersion>, version: int) {
    exists i | 0 <= i < |versions| :: versions[i].version == version
  }

  function CreatePendingVersion(v: Tables, proposalId: nat, rates: Rates, rules: Option<seq<Rule>>): Result<Tables> {
    var p := v.policy;
    if p.pendingVersionId.Some? then Failure(Conflict)
    else if !ValidRates(rates) then Failure(ValidationError)
    else match ActiveEpoch(v.ledger.epochs)
      case None => Failure(EpochNotActive)
      case Some(id) =>
        var next := v.ledger.epochs[id].number + 1;
        if VersionExists(v.versions, p.version + 1) then Failure(Conflict)
        else
          var row := PolicyVersion(p.version + 1, next, rates, rules.GetOr(p.rules), Some(proposalId));
          Success(v.(
            versions := v.versions + [row],
            policy := p.(pendingVersionId := Some(|v.versions|), pendingEffectiveEpoch := Some(next))))
  }

  /** Unchanged tables when nothing is pending for the opening epoch. */
  function ActivatePendingVersion(v: Tables, opening: int): Result<Tables> {
    var p := v.policy;
    if p.pendingVersionId.None? || p.pendingEffectiveEpoch != Some(opening) then Success(v)
    else if p.pendingVersionId.value >= |v.versions| then Failure(NotFound)
    else
      var row := v.versions[p.pendingVersionId.value];
      Success(v.(policy := Policy(row.version, row.rates, row.rules, None, None)))
  }
}
