/** The policy service: its two members run inside their callers' transactions. */
module PolicyServices {
  import opened Wrappers
  import opened Types
  import opened Calc
  import opened LedgerSteps
  import opened PolicyRules
  import opened Databases

  class PolicyService {
    const db: Database

    constructor (db: Database)
      ensures this.db == db
    {
      this.db := db;
    }

    method CreatePendingVersion(proposalId: nat, rates: Rates, rules: Option<seq<Rule>>) returns (o: Outcome)
      modifies db`versions, db`policy
      ensures match PolicyRules.CreatePendingVersion(old(db.Value()), proposalId, rates, rules)
        case Success(after) => o == Pass && db.Value() == after
        case Failure(e) => o == Fail(e) && db.Value() == old(db.Value())
    {
      var policy := db.policy;
      if policy.pendingVersionId.Some? { return Fail(Conflict); }
      var values := [rates.inflationBps, rates.maxAdvanceBps, rates.memberCapBps];
      var valid := AssertBps(values);
      assert valid.Pass? ==> ValidBps(values[0]) && ValidBps(values[1]) && ValidBps(values[2]);
      if valid.Fail? { return valid; }
      var active := ActiveEpoch(db.epochs);
      if active.None? { return Fail(EpochNotActive); }
      var next := db.epochs[active.value].number + 1;
      if VersionExists(db.versions, policy.version + 1) { return Fail(Conflict); }
      var id := |db.versions|;
      db.versions := db.versions + [
        PolicyVersion(policy.version + 1, next, rates, rules.GetOr(policy.rules), Some(proposalId))];
      db.policy := policy.(pendingVersionId := Some(id), pendingEffectiveEpoch := Some(next));
      o := Pass;
    }

    /** Every rate lies in [0, 10000]. */
    method AssertBps(values: seq<int>) returns (o: Outcome)
      ensures o == if forall i | 0 <= i < |values| :: ValidBps(values[i]) then Pass else Fail(ValidationError)
    {
      for i := 0 to |values|
        invariant forall k | 0 <= k < i :: ValidBps(values[k])
      {
        if values[i] < 0 || values[i] > BPS { return Fail(ValidationError); }
      }
      o := Pass;
    }

    /** Whether a version became live, or why it could not. */
    method ActivatePendingVersion(opening: int) returns (r: Result<bool>)
      modifies db`policy
      ensures match PolicyRules.ActivatePendingVersion(old(db.Value()), opening)
        case Success(after) => r.Success? && db.Value() == after
        case Failure(e) => r == Failure(e) && db.Value() == old(db.Value())
      ensures r == Success(false) ==> db.policy == old(db.policy)
    {
      var policy := db.policy;
      if policy.pendingVersionId.None? { return Success(false); }
      if policy.pendingEffectiveEpoch != Some(opening) { return Success(false); }
      if policy.pendingVersionId.value >= |db.versions| { return Failure(NotFound); }
      var version := db.versions[policy.pendingVersionId.value];
      db.policy := Policy(version.version, version.rates, version.rules, None, None);
      r := Success(true);
    }
  }
}
