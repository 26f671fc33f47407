/** What a reversal returns and leaves, for every reachable state and every
    argument, in terms of the columns alone. */
module ReversalOutcomes {
  import opened Wrappers
  import opened Types
  import opened Sums
  import LedgerInvariant
  import opened ReversalRules
  import opened Runs
  import opened LedgerTheorems

  ghost predicate LegalReason(reason: string) {
    || reason == "fabricated_evidence" || reason == "duplicate_claim" || reason == "multi_account_abuse"
    || reason == "vote_manipulation" || reason == "entry_error" || reason == "community_proposal"
  }

  /** Recorded with "approve" winning and quorum met. */
  ghost predicate Carried(p: Proposal) {
    && p.status == Recorded && p.result.Some? && p.result.value.winner == "approve"
    && p.result.value.voterCount >= p.minimumVoters
  }

  /** A proposal to reverse this very mint carried. */
  ghost predicate Backed(v: Tables, input: ReversalInput) {
    && input.proposalId.Some? && input.proposalId.value < |v.proposals|
    && Carried(v.proposals[input.proposalId.value])
    && v.proposals[input.proposalId.value].kind == TokenReversal(input.mintId)
  }

  ghost predicate NeedsBacking(v: Tables, input: ReversalInput)
    requires input.mintId < |v.ledger.mints|
  {
    input.reason == "community_proposal" || v.ledger.mints[input.mintId].leg.relatedParty
  }

  ghost predicate AlreadyTaken(v: Tables, mintId: nat) {
    exists k | 0 <= k < |v.ledger.reversals| :: v.ledger.reversals[k].mintId == mintId
  }

  /** What is asked for: the given amount, or the whole mint. */
  function AskedAmount(v: Tables, input: ReversalInput): int
    requires input.mintId < |v.ledger.mints|
  {
    if input.amount.Some? then input.amount.value else v.ledger.mints[input.mintId].leg.amount
  }

  /** Exactly the amount asked for leaves the supply, the member's total and the
      layer the mint is in, and one row says so. Nothing else changes. */
  ghost predicate TakesBack(v: Tables, v': Tables, reversalId: nat, input: ReversalInput)
    requires input.mintId < |v.ledger.mints|
  {
    var l, l' := v.ledger, v'.ledger;
    var mint, a := l.mints[input.mintId], AskedAmount(v, input);
    var m := mint.leg.member;
    && v' == v.(ledger := l')
    && l'.epochs == l.epochs && l'.mints == l.mints
    && l'.supply == l.supply - a && l'.ledgerSeq == l.ledgerSeq + 1
    && m in l.balances && l'.balances.Keys == l.balances.Keys
    && (forall other | other in l.balances && other != m :: l'.balances[other] == l.balances[other])
    && var b := l.balances[m];
    && var active := if mint.status == Effective then b.active - a else b.active;
    && var pending := if mint.status == Effective then b.pending else b.pending - a;
    && l'.balances[m] == Balance(b.total - a, active, pending, b.earnedEpoch, b.earnedLifetime, b.reversedLifetime + a)
    && reversalId == |l.reversals|
    && l'.reversals == l.reversals + [
         ReversalEvent(m, input.mintId, a, input.reason, b.total - a, active, pending, l.supply - a,
                       input.approvedBy, input.proposalId, l.ledgerSeq + 1)]
  }

  lemma ReverseOutcome(v: Tables, input: ReversalInput)
    requires Reachable(v)
    ensures var r := ReverseMint(v, input);
      && (r.Success? <==>
            && LegalReason(input.reason) && input.mintId < |v.ledger.mints|
            && (NeedsBacking(v, input) ==> Backed(v, input))
            && !AlreadyTaken(v, input.mintId)
            && 0 < AskedAmount(v, input) <= v.ledger.mints[input.mintId].leg.amount)
      && (r.Failure? ==>
            r.error == (
              if !LegalReason(input.reason) then InvalidReason
              else if input.mintId >= |v.ledger.mints| then NotFound
              else if NeedsBacking(v, input) && !Backed(v, input) then ProposalRequired
              else if AlreadyTaken(v, input.mintId) then AlreadyReversed
              else ValidationError))
      && (r.Success? ==> TakesBack(v, r.value.0, r.value.1, input))
  {
    hide Reachable;
    ReversalSucceedsIff(v, input);
    assert input.reason in REVERSAL_REASONS <==> LegalReason(input.reason) by { ReasonsListed(input.reason); }
    assert IsReversed(v.ledger.reversals, input.mintId) <==> AlreadyTaken(v, input.mintId);
    hide IsReversed, AlreadyTaken, LegalReason;
    if input.mintId < |v.ledger.mints| {
      MintHasRow(v, input.mintId);
    }
  }

  lemma ReasonsListed(reason: string)
    ensures reason in REVERSAL_REASONS <==> LegalReason(reason)
  {
    assert REVERSAL_REASONS[0] == "fabricated_evidence" && REVERSAL_REASONS[1] == "duplicate_claim";
    assert REVERSAL_REASONS[2] == "multi_account_abuse" && REVERSAL_REASONS[3] == "vote_manipulation";
    assert REVERSAL_REASONS[4] == "entry_error" && REVERSAL_REASONS[5] == "community_proposal";
  }

  lemma MintHasRow(v: Tables, i: nat)
    requires Reachable(v) && i < |v.ledger.mints|
    ensures v.ledger.mints[i].leg.member in v.ledger.balances
  {
    hide Reachable, LedgerInvariant.LedgerInv;
    ReachableLedger(v);
    MemberHasRow(v.ledger, v.policy.rates, i);
  }
}
