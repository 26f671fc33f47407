/** Reversing one mint, once, for at most its amount. */
module ReversalRules {
  import opened Wrappers
  import opened Types
  import opened Sums
  import opened LedgerSteps
  import opened MintRules

  const REVERSAL_REASONS := [
    "fabricated_evidence", "duplicate_claim", "multi_account_abuse",
    "vote_manipulation", "entry_error", "community_proposal"]

  datatype ReversalInput = ReversalInput(
    mintId: nat,
    amount: Option<int>,
    reason: string,
    approvedBy: string,
    proposalId: Option<nat>)

  predicate AuthorizesReversal(proposals: seq<Proposal>, pid: nat, mintId: nat) {
    && pid < |proposals|
    && Passed(proposals[pid])
    && proposals[pid].kind == TokenReversal(mintId)
  }

  function ReverseMint(v: Tables, input: ReversalInput): Result<(Tables, nat)> {
    var l := v.ledger;
    if input.reason !in REVERSAL_REASONS then Failure(InvalidReason)
    else if input.mintId >= |l.mints| then Failure(NotFound)
    else
      var mint := l.mints[input.mintId];
      if mint.leg.member !in l.balances then Failure(NotFound)
      else if (input.reason == "community_proposal" || mint.leg.relatedParty)
              && !(input.proposalId.Some? && AuthorizesReversal(v.proposals, input.proposalId.value, input.mintId))
      then Failure(ProposalRequired)
      else if IsReversed(l.reversals, input.mintId) then Failure(AlreadyReversed)
      else
        var amount := input.amount.GetOr(mint.leg.amount);
        if amount <= 0 || amount > mint.leg.amount then Failure(ValidationError)
        else
          var after := Debit(l.balances[mint.leg.member], mint.status, amount);
          if after.total < 0 || after.active < 0 || after.pending < 0 || l.supply - amount < 0 then Failure(Conflict)
          else
            var l' := PostReversal(l, input.mintId, amount, input.reason, input.approvedBy, input.proposalId);
            Success((v.(ledger := l'), |l.reversals|))
  }
}
