/** The write guard against the services: whatever any run changes in a row of
    an append-only table is something the guard lets through. */
module GuardedUpdates {
  import opened Wrappers
  import opened Types
  import opened ProposalRules
  import opened Invariant
  import opened History
  import opened Runs
  import Guard = ImmutableGuard

  /** A column and whether two versions of the row agree on it. */
  type Compared = (string, bool)

  function Changed(columns: seq<Compared>): set<string> {
    set i | 0 <= i < |columns| && !columns[i].1 :: columns[i].0
  }

  function MintColumns(a: MintEvent, b: MintEvent): seq<Compared> {
    [("memberId", a.leg.member == b.leg.member), ("epochId", a.leg.epochId == b.leg.epochId),
     ("epochNumber", a.leg.epochNumber == b.leg.epochNumber), ("mintType", a.leg.mintType == b.leg.mintType),
     ("budgetSource", a.leg.source == b.leg.source), ("amount", a.leg.amount == b.leg.amount),
     ("tokenPolicyVersion", a.leg.policyVersion == b.leg.policyVersion),
     ("approvedBy", a.leg.approvedBy == b.leg.approvedBy),
     ("secondApprovedBy", a.leg.secondApprovedBy == b.leg.secondApprovedBy),
     ("relatedParty", a.leg.relatedParty == b.leg.relatedParty),
     ("contributionId", a.leg.contributionId == b.leg.contributionId),
     ("proposalId", a.leg.proposalId == b.leg.proposalId), ("advanceRequestId", a.leg.requestId == b.leg.requestId),
     ("governanceStatus", a.status == b.status), ("governanceActivationEpoch", a.activationEpoch == b.activationEpoch),
     ("ledgerSeq", a.ledgerSeq == b.ledgerSeq), ("memberBalanceBefore", a.balanceBefore == b.balanceBefore),
     ("memberBalanceAfter", a.balanceAfter == b.balanceAfter), ("totalSupplyBefore", a.supplyBefore == b.supplyBefore),
     ("totalSupplyAfter", a.supplyAfter == b.supplyAfter), ("activeGovernanceBefore", a.activeBefore == b.activeBefore),
     ("activeGovernanceAfter", a.activeAfter == b.activeAfter)]
  }

  function ReversalColumns(a: ReversalEvent, b: ReversalEvent): seq<Compared> {
    [("memberId", a.member == b.member), ("originalMintEventId", a.mintId == b.mintId),
     ("amount", a.amount == b.amount), ("reason", a.reason == b.reason),
     ("totalBalanceAfter", a.totalAfter == b.totalAfter),
     ("activeGovernanceBalanceAfter", a.activeAfter == b.activeAfter),
     ("pendingGovernanceBalanceAfter", a.pendingAfter == b.pendingAfter),
     ("totalSupplyAfter", a.supplyAfter == b.supplyAfter), ("approvedBy", a.approvedBy == b.approvedBy),
     ("proposalId", a.proposalId == b.proposalId), ("ledgerSeq", a.ledgerSeq == b.ledgerSeq)]
  }

  function VersionColumns(a: PolicyVersion, b: PolicyVersion): seq<Compared> {
    [("version", a.version == b.version), ("effectiveEpoch", a.effectiveEpoch == b.effectiveEpoch),
     ("monthlyInflationRateBps", a.rates.inflationBps == b.rates.inflationBps),
     ("maxAdvanceRateBps", a.rates.maxAdvanceBps == b.rates.maxAdvanceBps),
     ("memberMintCapRateBps", a.rates.memberCapBps == b.rates.memberCapBps), ("rules", a.rules == b.rules),
     ("proposalId", a.proposalId == b.proposalId)]
  }

  function VoteColumns(a: Vote, b: Vote): seq<Compared> {
    [("memberId", a.member == b.member), ("optionId", a.option == b.option),
     ("activeGovernanceBalanceSnapshot", a.weight == b.weight),
     ("totalTokenBalanceSnapshot", a.totalBalance == b.totalBalance)]
  }

  function SnapshotColumns(a: int, b: int): seq<Compared> {
    [("activeGovernanceToken", a == b)]
  }

  /** Any update that writes these columns passes the guard. */
  ghost predicate Passes(model: string, columns: set<string>) {
    forall operation: string :: operation in Guard.UPDATE_OPERATIONS ==>
      Guard.Permits(model, operation, Some(columns))
  }

  /** The record id that the services fill in once on a new row. */
  const BACKFILL := {"publicRecordId"}

  lemma MintUpdatePasses(a: MintEvent, b: MintEvent)
    requires MintKept(a, b)
    ensures Changed(MintColumns(a, b)) <= {"governanceStatus"}
    ensures Passes("TokenMintEvent", Changed(MintColumns(a, b)) + BACKFILL)
  {
    var columns := MintColumns(a, b);
    assert |columns| == 22 && columns[13].0 == "governanceStatus";
    assert forall i | 0 <= i < 22 :: i != 13 ==> columns[i].1;
  }

  lemma Unchanged(columns: seq<Compared>)
    requires forall i | 0 <= i < |columns| :: columns[i].1
    ensures Changed(columns) == {}
  {
  }

  /** Between any reachable state and any later one: no row of the five tables
      is gone, and the columns that differ, with the record id filled in, are
      columns the guard lets an update write. Of a mint event that is the
      governance status, of the other rows nothing. */
  lemma RunUpdatesPass(v: Tables, calls: seq<Call>)
    requires Reachable(v)
    ensures var v' := Run(v, calls);
      && |v.ledger.mints| <= |v'.ledger.mints|
      && (forall i | 0 <= i < |v.ledger.mints| ::
            var changed := Changed(MintColumns(v.ledger.mints[i], v'.ledger.mints[i]));
            changed <= {"governanceStatus"} && Passes("TokenMintEvent", changed + BACKFILL))
      && |v.ledger.reversals| <= |v'.ledger.reversals|
      && (forall k | 0 <= k < |v.ledger.reversals| ::
            var changed := Changed(ReversalColumns(v.ledger.reversals[k], v'.ledger.reversals[k]));
            changed == {} && Passes("TokenReversalEvent", changed + BACKFILL))
      && |v.versions| <= |v'.versions|
      && (forall k | 0 <= k < |v.versions| ::
            var changed := Changed(VersionColumns(v.versions[k], v'.versions[k]));
            changed == {} && Passes("TokenPolicyVersion", changed + BACKFILL))
    ensures var v' := Run(v, calls);
      && (forall pid: nat ::
            && |VotesOf(v.votes, pid)| <= |VotesOf(v'.votes, pid)|
            && forall k | 0 <= k < |VotesOf(v.votes, pid)| ::
                 var changed := Changed(VoteColumns(VotesOf(v.votes, pid)[k], VotesOf(v'.votes, pid)[k]));
                 changed == {} && Passes("Vote", changed))
      && (forall pid | pid in v.snapshots ::
            && pid in v'.snapshots && v'.snapshots[pid].Keys == v.snapshots[pid].Keys
            && forall m | m in v.snapshots[pid] ::
                 var changed := Changed(SnapshotColumns(v.snapshots[pid][m], v'.snapshots[pid][m]));
                 changed == {} && Passes("ProposalMemberSnapshot", changed))
  {
    hide Reachable, Inv, Run, Passes, Changed, MintColumns;
    var v' := Run(v, calls);
    ReachableInv(v);
    RunKeepsInv(v, calls);
    NothingPasses();
    hide EpochsExtend, ProposalsExtend, RequestsExtend, BallotsFinal;
    forall i | 0 <= i < |v.ledger.mints|
      ensures Changed(MintColumns(v.ledger.mints[i], v'.ledger.mints[i])) <= {"governanceStatus"}
      ensures Passes("TokenMintEvent", Changed(MintColumns(v.ledger.mints[i], v'.ledger.mints[i])) + BACKFILL)
    {
      MintUpdatePasses(v.ledger.mints[i], v'.ledger.mints[i]);
    }
    forall k | 0 <= k < |v.ledger.reversals|
      ensures Changed(ReversalColumns(v.ledger.reversals[k], v'.ledger.reversals[k])) == {}
    {
      assert v'.ledger.reversals[..|v.ledger.reversals|][k] == v.ledger.reversals[k];
      Unchanged(ReversalColumns(v.ledger.reversals[k], v'.ledger.reversals[k]));
    }
    forall k | 0 <= k < |v.versions|
      ensures Changed(VersionColumns(v.versions[k], v'.versions[k])) == {}
    {
      assert v'.versions[..|v.versions|][k] == v.versions[k];
      Unchanged(VersionColumns(v.versions[k], v'.versions[k]));
    }
    forall pid: nat, k | 0 <= k < |VotesOf(v.votes, pid)|
      ensures |VotesOf(v.votes, pid)| <= |VotesOf(v'.votes, pid)|
      ensures Changed(VoteColumns(VotesOf(v.votes, pid)[k], VotesOf(v'.votes, pid)[k])) == {}
    {
      assert VotesOf(v'.votes, pid)[..|VotesOf(v.votes, pid)|][k] == VotesOf(v.votes, pid)[k];
      Unchanged(VoteColumns(VotesOf(v.votes, pid)[k], VotesOf(v'.votes, pid)[k]));
    }
    forall pid, m | pid in v.snapshots && m in v.snapshots[pid]
      ensures pid in v'.snapshots && m in v'.snapshots[pid]
      ensures Changed(SnapshotColumns(v.snapshots[pid][m], v'.snapshots[pid][m])) == {}
    {
      Unchanged(SnapshotColumns(v.snapshots[pid][m], v'.snapshots[pid][m]));
    }
  }

  lemma NothingPasses()
    ensures Passes("TokenReversalEvent", {} + BACKFILL) && Passes("TokenPolicyVersion", {} + BACKFILL)
    ensures Passes("Vote", {}) && Passes("ProposalMemberSnapshot", {})
  {
  }
}
