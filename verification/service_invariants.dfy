/** Every service entry point keeps the invariant and extends the history. */
module ServiceInvariants {
  import opened Wrappers
  import opened Types
  import opened Calc
  import opened Sums
  import opened LedgerSteps
  import opened LedgerInvariant
  import opened AdvanceRules
  import opened MintRules
  import opened ReversalRules
  import opened ProposalRules
  import opened EpochRules
  import opened Invariant
  import opened History
  import PolicyRules

  /** The state is good and nothing recorded before it was lost. */
  ghost predicate Good(v: Tables, v': Tables) {
    Inv(v') && Extends(v, v')
  }

  lemma ActiveIsLast(epochs: seq<Epoch>)
    requires EpochsOk(epochs)
    ensures ActiveEpoch(epochs) == if epochs == [] then None else Some(|epochs| - 1)
  {
    if epochs != [] {
      assert EpochOk(epochs[|epochs| - 1], |epochs|, true);
    }
  }

  // ---- Advance requests ----

  /** Rewriting one request row that backs no event. */
  lemma RequestRowKeepsInv(v: Tables, rid: nat, row: AdvanceRequest)
    requires Inv(v) && rid < |v.requests| && v.requests[rid].status != Executed && row.status != Executed
    requires RequestOk(row, rid, v.proposals) && RequestKept(v.requests[rid], row)
    ensures Good(v, v.(requests := v.requests[rid := row]))
  {
    hide LedgerInv, BoardOk, VersionsOk, SingleUseOk, PassedAdvance, PolicyOk;
    var requests' := v.requests[rid := row];
    forall k: nat | k < |requests'|
      ensures RequestOk(requests'[k], k, v.proposals)
    {
      assert RequestOk(v.requests[k], k, v.proposals);
    }
    forall i: nat | i < |v.ledger.mints| && v.ledger.mints[i].leg.source == NextEpochAdvance
      ensures AdvanceEventOk(v.ledger.mints, i, v.ledger.epochs, requests', v.proposals)
    {
      assert AdvanceEventOk(v.ledger.mints, i, v.ledger.epochs, v.requests, v.proposals);
    }
  }

  lemma CreateRequestKeepsInv(v: Tables, input: AdvanceInput, role: Option<Role>)
    requires Inv(v) && CreateRequest(v, input, role).Success?
    ensures Good(v, CreateRequest(v, input, role).value.0)
  {
    hide LedgerInv, BoardOk, VersionsOk, SingleUseOk, PassedAdvance, PolicyOk;
    var v' := CreateRequest(v, input, role).value.0;
    var n := |v.requests|;
    forall k: nat | k < |v'.requests|
      ensures RequestOk(v'.requests[k], k, v.proposals)
    {
      if k < n {
        assert RequestOk(v.requests[k], k, v.proposals);
      }
    }
    forall i: nat | i < |v.ledger.mints| && v.ledger.mints[i].leg.source == NextEpochAdvance
      ensures AdvanceEventOk(v.ledger.mints, i, v.ledger.epochs, v'.requests, v.proposals)
    {
      assert AdvanceEventOk(v.ledger.mints, i, v.ledger.epochs, v.requests, v.proposals);
    }
  }

  lemma SecondApproveKeepsInv(v: Tables, rid: nat, approverId: string)
    requires Inv(v) && SecondApprove(v, rid, approverId).Success?
    ensures Good(v, SecondApprove(v, rid, approverId).value.0)
  {
    hide LedgerInv, BoardOk, VersionsOk, SingleUseOk, PassedAdvance, PolicyOk, AdvancesOk, Good;
    var v' := SecondApprove(v, rid, approverId).value.0;
    StaysGood(v);
    if v' != v {
      assert RequestOk(v.requests[rid], rid, v.proposals);
      RequestRowKeepsInv(v, rid, v'.requests[rid]);
    }
  }

  lemma AttachProposalKeepsInv(v: Tables, rid: nat, proposalId: nat)
    requires Inv(v) && AttachProposal(v, rid, proposalId).Success?
    ensures Good(v, AttachProposal(v, rid, proposalId).value.0)
  {
    hide LedgerInv, BoardOk, VersionsOk, SingleUseOk, PassedAdvance, PolicyOk, AdvancesOk, Good;
    var v' := AttachProposal(v, rid, proposalId).value.0;
    StaysGood(v);
    if v' != v {
      assert RequestOk(v.requests[rid], rid, v.proposals);
      RequestRowKeepsInv(v, rid, v'.requests[rid]);
    }
  }

  lemma RejectKeepsInv(v: Tables, rid: nat)
    requires Inv(v) && Reject(v, rid).Success?
    ensures Good(v, Reject(v, rid).value.0)
  {
    hide LedgerInv, BoardOk, VersionsOk, SingleUseOk, PassedAdvance, PolicyOk, AdvancesOk, Good;
    var v' := Reject(v, rid).value.0;
    StaysGood(v);
    if v' != v {
      assert RequestOk(v.requests[rid], rid, v.proposals);
      RequestRowKeepsInv(v, rid, v'.requests[rid]);
    }
  }

  lemma StaysGood(v: Tables)
    requires Inv(v)
    ensures Good(v, v)
  {
    hide Inv;
    ExtendsReflexive(v);
  }

  // ---- Mints ----

  lemma PostLegExtends(v: Tables, leg: Leg)
    requires leg.amount > 0
    requires leg.epochId.Some? ==>
      leg.epochId.value < |v.ledger.epochs| && v.ledger.epochs[leg.epochId.value].status == Active
    requires leg.requestId.Some? ==>
      leg.requestId.value < |v.requests| && v.requests[leg.requestId.value].status == Approved
    ensures Extends(v, PostLeg(v, leg))
  {
  }

  lemma PostLegGood(v: Tables, leg: Leg)
    requires Inv(v) && LegAllowed(v, leg)
    ensures Good(v, PostLeg(v, leg))
  {
    hide Inv, Extends;
    PostLegKeepsInv(v, leg);
    LegAllowedFacts(v, leg);
    PostLegExtends(v, leg);
  }

  lemma LegAllowedFacts(v: Tables, leg: Leg)
    requires Inv(v) && LegAllowed(v, leg)
    ensures leg.amount > 0
    ensures leg.epochId.Some? ==>
      leg.epochId.value < |v.ledger.epochs| && v.ledger.epochs[leg.epochId.value].status == Active
    ensures leg.requestId.Some? ==>
      leg.requestId.value < |v.requests| && v.requests[leg.requestId.value].status == Approved
  {
    hide BoardOk, VersionsOk, SingleUseOk, PassedAdvance, PolicyOk, AdvancesOk, JournalOk, SupplyOk, LayersOk, EarnedOk;
    if leg.epochId.Some? {
      assert EpochOk(v.ledger.epochs[|v.ledger.epochs| - 1], |v.ledger.epochs|, true);
    }
  }

  /** A positive amount under the floored thresholds, in the terms the
      invariant uses. */
  lemma RateFacts(epoch: Epoch, amount: int, bps: int)
    requires epoch.advancedMinted >= 0 && epoch.baseBudget >= 0 && amount > 0
    requires CumulativeAdvanceRateBps(epoch.advancedMinted, amount, epoch.baseBudget) == Success(bps)
    ensures bps <= HARD_CAP_BPS <==> UnderHardCap(epoch.advancedMinted + amount, epoch.baseBudget)
    ensures bps > PROPOSAL_THRESHOLD_BPS
      <==> (epoch.advancedMinted + amount) * BPS >= (PROPOSAL_THRESHOLD_BPS + 1) * epoch.baseBudget
  {
    RateWithinCap(epoch.advancedMinted, amount, epoch.baseBudget, HARD_CAP_BPS);
    RateWithinCap(epoch.advancedMinted, amount, epoch.baseBudget, PROPOSAL_THRESHOLD_BPS);
  }

  ghost predicate LastEpochOk(epochs: seq<Epoch>) {
    epochs != [] ==> EpochOk(epochs[|epochs| - 1], |epochs|, true)
  }

  lemma LastEpoch(v: Tables)
    requires Inv(v)
    ensures LastEpochOk(v.ledger.epochs)
    ensures v.ledger.epochs != [] ==> v.ledger.epochs[|v.ledger.epochs| - 1].baseBudget >= 0
    ensures ActiveEpoch(v.ledger.epochs)
      == if v.ledger.epochs == [] then None else Some(|v.ledger.epochs| - 1)
    ensures forall i | 0 <= i < |v.ledger.epochs| ::
      v.ledger.epochs[i].status == Active ==> i == |v.ledger.epochs| - 1
  {
    hide BoardOk, VersionsOk, SingleUseOk, PassedAdvance, PolicyOk, AdvancesOk, JournalOk, SupplyOk, LayersOk, EarnedOk;
    ActiveIsLast(v.ledger.epochs);
    forall i | 0 <= i < |v.ledger.epochs|
      ensures v.ledger.epochs[i].status == Active ==> i == |v.ledger.epochs| - 1
    {
      assert EpochOk(v.ledger.epochs[i], i + 1, i + 1 == |v.ledger.epochs|);
    }
    if v.ledger.epochs != [] {
      var e := v.ledger.epochs[|v.ledger.epochs| - 1];
      assert EpochOk(e, |v.ledger.epochs|, true);
      RateOfMonotone(e.openingSupply, e.openingSupply, e.inflationBps, e.inflationBps);
    }
  }

  /** req is the row as some earlier, approved, version of what is stored. */
  ghost predicate ReadEarlier(v: Tables, rid: nat, req: AdvanceRequest) {
    rid < |v.requests| && req.status == Approved && RequestKept(req, v.requests[rid])
  }

  /** A replay writes nothing; a first execution posts one allowed leg. */
  lemma ExecuteLockedStep(v: Tables, rid: nat, req: AdvanceRequest)
    requires Inv(v) && ReadEarlier(v, rid, req) && ExecuteLocked(v, rid, req).Success?
    ensures var v' := ExecuteLocked(v, rid, req).value.0;
      if MintOfRequest(v.ledger.mints, rid).Some? then v' == v
      else
        && req == v.requests[rid]
        && req.epochId < |v.ledger.epochs|
        && var leg := AdvanceLeg(req, rid, v.ledger.epochs[req.epochId], AmountOf(req), v.policy.version);
        LegAllowed(v, leg) && v' == PostLeg(v, leg)
  {
    hide LedgerInv, BoardOk, VersionsOk, SingleUseOk, PassedAdvance, PolicyOk;
    if MintOfRequest(v.ledger.mints, rid).None? {
      LastEpoch(v);
      hide AdvancesOk, EpochOk;
      assert RequestOk(v.requests[rid], rid, v.proposals);
      var epoch := v.ledger.epochs[req.epochId];
      var amount := AmountOf(req);
      assert EpochOk(epoch, |v.ledger.epochs|, true);
      AdvanceLegAllowed(v, rid, epoch, amount);
    }
  }

  lemma AdvanceLegAllowed(v: Tables, rid: nat, epoch: Epoch, amount: int)
    requires rid < |v.requests| && RequestOk(v.requests[rid], rid, v.proposals)
    requires v.requests[rid].status == Approved && amount == AmountOf(v.requests[rid])
    requires v.ledger.epochs != [] && epoch == v.ledger.epochs[|v.ledger.epochs| - 1]
    requires v.requests[rid].epochId == |v.ledger.epochs| - 1
    requires EpochOk(epoch, |v.ledger.epochs|, true) && epoch.baseBudget >= 0
    requires epoch.effectiveBudget - epoch.regularMinted < amount && epoch.debt <= 0
    requires CumulativeAdvanceRateBps(epoch.advancedMinted, amount, epoch.baseBudget).Success?
    requires var bps := CumulativeAdvanceRateBps(epoch.advancedMinted, amount, epoch.baseBudget).value;
      bps <= HARD_CAP_BPS && ApprovalRecheck(v, v.requests[rid], bps).Pass?
    requires epoch.advancedMinted + amount <= epoch.maxAdvance
    ensures LegAllowed(v, AdvanceLeg(v.requests[rid], rid, epoch, amount, v.policy.version))
  {
    hide PassedAdvance, EpochOk;
    assert epoch.advancedMinted >= 0 && amount > 0 && epoch.debt == 0 && epoch.number == |v.ledger.epochs| by {
      assert EpochOk(epoch, |v.ledger.epochs|, true);
      EpochFacts(epoch, |v.ledger.epochs|);
    }
    RateFacts(epoch, amount, CumulativeAdvanceRateBps(epoch.advancedMinted, amount, epoch.baseBudget).value);
  }

  lemma EpochFacts(e: Epoch, number: int)
    requires EpochOk(e, number, true)
    ensures e.number == number && e.status == Active && e.debt >= 0 && e.advancedMinted >= 0
    ensures 0 <= e.regularMinted <= e.effectiveBudget
  {
  }

  lemma ExecuteKeepsInv(v: Tables, rid: nat)
    requires Inv(v) && Execute(v, rid).Success?
    ensures Good(v, Execute(v, rid).value.0)
  {
    hide Inv, Good, LegAllowed, ExecuteLocked;
    StaysGood(v);
    if v.requests[rid].status == Approved {
      ExecuteLockedKeepsInv(v, rid, v.requests[rid]);
    }
  }

  lemma ExecuteLockedKeepsInv(v: Tables, rid: nat, req: AdvanceRequest)
    requires Inv(v) && ReadEarlier(v, rid, req) && ExecuteLocked(v, rid, req).Success?
    ensures Good(v, ExecuteLocked(v, rid, req).value.0)
  {
    hide Inv, Good, LegAllowed, ExecuteLocked;
    StaysGood(v);
    ExecuteLockedStep(v, rid, req);
    if MintOfRequest(v.ledger.mints, rid).None? {
      PostLegGood(v, AdvanceLeg(req, rid, v.ledger.epochs[req.epochId], AmountOf(req), v.policy.version));
    }
  }

  // ---- Contribution mints ----

  /** What a successful split promises about its two parts. */
  ghost predicate SplitOk(v: Tables, epoch: Epoch, amount: int, split: Split) {
    && split.regular >= 0 && split.advance >= 0 && split.regular + split.advance == amount
    && epoch.regularMinted + split.regular <= epoch.effectiveBudget
    && (split.advance == 0 ==> split.requestId.None?)
    && (split.advance > 0 ==>
          && split.requestId.Some? && split.requestId.value < |v.requests|
          && var rid := split.requestId.value;
          && v.requests[rid].status == Approved && split.advance <= v.requests[rid].requestedAmount
          && epoch.debt == 0 && UnderHardCap(epoch.advancedMinted + split.advance, epoch.baseBudget)
          && (NeedsProposal(epoch.advancedMinted + split.advance, epoch.baseBudget, v.requests[rid].relatedParty)
              ==> PassedAdvance(v.proposals, rid)))
  }

  lemma ResolveSplitOk(v: Tables, input: MintInput, epoch: Epoch, amount: int)
    requires RequestsOk(v.requests, v.proposals) && EpochOk(epoch, epoch.number, true) && epoch.baseBudget >= 0
    requires amount > 0 && ResolveSplit(v, input, epoch, amount).Success?
    ensures SplitOk(v, epoch, amount, ResolveSplit(v, input, epoch, amount).value)
  {
    hide PassedAdvance, EpochOk;
    EpochFacts(epoch, epoch.number);
    var split := ResolveSplit(v, input, epoch, amount).value;
    if split.requestId.Some? {
      var rid := split.requestId.value;
      assert RequestOk(v.requests[rid], rid, v.proposals);
      RateFacts(epoch, split.advance,
        CumulativeAdvanceRateBps(epoch.advancedMinted, split.advance, epoch.baseBudget).value);
    }
  }

  /** The checks common to both legs of a contribution. */
  ghost predicate ContributionOk(v: Tables, input: MintInput, m: Member, epoch: Epoch, amount: int, related: bool) {
    && v.ledger.epochs != [] && epoch == v.ledger.epochs[|v.ledger.epochs| - 1] && epoch.number == |v.ledger.epochs|
    && amount > 0
    && Row(v.ledger.balances, m).earnedEpoch + amount <= CapOf(epoch, v.policy.rates)
    && !ContributionMinted(v.ledger.mints, input.contributionId)
    && input.secondApproverId != Some(input.approverId)
    && RelatedPartyGate(v, input, m, related).Pass?
  }

  /** Each leg, posted in turn, is allowed. */
  lemma ContributionLegAllowed(v: Tables, input: MintInput, m: Member, epoch: Epoch, amount: int, related: bool,
                               split: Split, source: BudgetSource)
    requires ContributionOk(v, input, m, epoch, amount, related)
    requires SplitOk(v, epoch, amount, split)
    requires if source == CurrentEpoch then split.regular > 0 else split.advance > 0
    requires source == NextEpochAdvance ==> epoch.advancedMinted + split.advance <= epoch.maxAdvance
    ensures LegAllowed(v, PartLeg(v, input, m, epoch, related, split, source))
  {
    hide PassedAdvance;
    var leg := PartLeg(v, input, m, epoch, related, split, source);
    forall i | 0 <= i < |v.ledger.mints|
      ensures v.ledger.mints[i].leg.contributionId != leg.contributionId
    {
      assert !ContributionMinted(v.ledger.mints, input.contributionId);
    }
    if related && input.proposalId.Some? {
      assert !ProposalConsumed(v.ledger.mints, input.proposalId.value);
    }
  }

  function PartLeg(v: Tables, input: MintInput, m: Member, epoch: Epoch, related: bool, split: Split,
                   source: BudgetSource): Leg
    requires v.ledger.epochs != []
  {
    var id := |v.ledger.epochs| - 1;
    if source == CurrentEpoch
    then ContributionLeg(v, input, m, id, epoch, related, CurrentEpoch, split.regular, None)
    else ContributionLeg(v, input, m, id, epoch, related, NextEpochAdvance, split.advance, split.requestId)
  }

  /** After the regular leg, the advance leg of the same call is allowed. */
  lemma SecondLegAllowed(v: Tables, input: MintInput, m: Member, epoch: Epoch, amount: int, related: bool, split: Split)
    requires Inv(v)
    requires ContributionOk(v, input, m, epoch, amount, related)
    requires SplitOk(v, epoch, amount, split) && split.regular > 0 && split.advance > 0
    requires epoch.advancedMinted + split.advance <= epoch.maxAdvance
    ensures LegAllowed(PostLeg(v, PartLeg(v, input, m, epoch, related, split, CurrentEpoch)),
                       PartLeg(v, input, m, epoch, related, split, NextEpochAdvance))
  {
    hide Inv, PassedAdvance, AuthorizesMember;
    var first := PartLeg(v, input, m, epoch, related, split, CurrentEpoch);
    var second := PartLeg(v, input, m, epoch, related, split, NextEpochAdvance);
    var v1 := PostLeg(v, first);
    ContributionLegAllowed(v, input, m, epoch, amount, related, split, CurrentEpoch);
    ContributionLegAllowed(v, input, m, epoch, amount, related, split, NextEpochAdvance);
    assert Admits(v1.ledger, v1.policy.rates, second);
    assert FirstUse(v1.ledger.mints, second) by {
      forall i | 0 <= i < |v1.ledger.mints|
        ensures v1.ledger.mints[i].leg.contributionId == second.contributionId ==>
          i == |v1.ledger.mints| - 1 && TwoLegsOfOneCall(v1.ledger.mints[i].leg, second)
        ensures SharesAuthority(v1.ledger.mints[i].leg, second) ==>
          v1.ledger.mints[i].leg.contributionId == second.contributionId
      {
        if i < |v.ledger.mints| {
          assert v1.ledger.mints[i] == v.ledger.mints[i];
          assert FirstUse(v.ledger.mints, first) && FirstUse(v.ledger.mints, second);
        }
      }
    }
  }

  lemma PostMintsUnrolled(l: Ledger, a: Leg, b: Leg)
    ensures PostMints(l, [a]) == PostMint(l, a)
    ensures PostMints(l, [a, b]) == PostMint(PostMint(l, a), b)
  {
    assert [a][..0] == [] && [a, b][..1] == [a];
  }

  /** The state a successful contribution mint leaves: its legs posted in turn,
      and nothing else but the executed request. */
  ghost predicate MintStep(v: Tables, v': Tables, input: MintInput, m: Member, epoch: Epoch, amount: int, related: bool,
                           split: Split) {
    && ContributionOk(v, input, m, epoch, amount, related)
    && SplitOk(v, epoch, amount, split)
    && (split.advance > 0 ==> epoch.advancedMinted + split.advance <= epoch.maxAdvance)
    && var first := PartLeg(v, input, m, epoch, related, split, CurrentEpoch);
    && var second := PartLeg(v, input, m, epoch, related, split, NextEpochAdvance);
    v' == if split.advance == 0 then PostLeg(v, first)
          else if split.regular == 0 then PostLeg(v, second)
          else PostLeg(PostLeg(v, first), second)
  }

  /** The legs posted at once are the legs posted in turn. */
  lemma LegsPosted(v: Tables, input: MintInput, m: Member, epoch: Epoch, amount: int, related: bool, split: Split)
    requires v.ledger.epochs != [] && epoch == v.ledger.epochs[|v.ledger.epochs| - 1] && amount > 0
    requires split.regular >= 0 && split.advance >= 0 && split.regular + split.advance == amount
    requires split.advance > 0 <==> split.requestId.Some?
    ensures var first := PartLeg(v, input, m, epoch, related, split, CurrentEpoch);
      var second := PartLeg(v, input, m, epoch, related, split, NextEpochAdvance);
      v.(ledger := PostMints(v.ledger, LegsOf(v, input, m, |v.ledger.epochs| - 1, epoch, related, split)),
         requests := if split.requestId.Some? && split.advance > 0
                     then MarkExecuted(v.requests, split.requestId.value, split.advance) else v.requests)
      == if split.advance == 0 then PostLeg(v, first)
         else if split.regular == 0 then PostLeg(v, second)
         else PostLeg(PostLeg(v, first), second)
  {
    hide PostMint, PostMints, MarkExecuted;
    var first := PartLeg(v, input, m, epoch, related, split, CurrentEpoch);
    var second := PartLeg(v, input, m, epoch, related, split, NextEpochAdvance);
    PostMintsUnrolled(v.ledger, first, second);
    PostMintsUnrolled(v.ledger, second, first);
    var legs := LegsOf(v, input, m, |v.ledger.epochs| - 1, epoch, related, split);
    assert legs == if split.advance == 0 then [first] else if split.regular == 0 then [second] else [first, second];
  }

  lemma MintForContributionStep(v: Tables, input: MintInput, contribution: Option<ContributionRow>, role: Option<Role>)
      returns (epoch: Epoch, amount: int, related: bool, split: Split)
    requires Inv(v) && MintForContribution(v, input, contribution, role).Success?
    ensures contribution.Some? && contribution.value.approvedAmount == Some(amount)
    ensures role.Some? && related == IsRelatedParty(role.value)
    ensures MintStep(v, MintForContribution(v, input, contribution, role).value.0, input, contribution.value.member,
                     epoch, amount, related, split)
  {
    hide Inv, SplitOk, PostMints, LegsOf, MarkExecuted, ResolveSplit, RelatedPartyGate, EpochOk;
    LastEpoch(v);
    var c := contribution.value;
    epoch := v.ledger.epochs[|v.ledger.epochs| - 1];
    EpochFacts(epoch, |v.ledger.epochs|);
    amount := ContributionAmount(v, input, c, role, epoch).value;
    related := IsRelatedParty(role.value);
    split := ResolveSplit(v, input, epoch, amount).value;
    assert RequestsOk(v.requests, v.proposals) by { RequestsOfInv(v); }
    ResolveSplitOk(v, input, epoch, amount);
    SplitParts(v, epoch, amount, split);
    LegsPosted(v, input, c.member, epoch, amount, related, split);
  }

  lemma RequestsOfInv(v: Tables)
    requires Inv(v)
    ensures RequestsOk(v.requests, v.proposals)
  {
    hide LedgerInv, BoardOk, VersionsOk, PolicyOk, AdvancesOk, SingleUseOk, RequestsOk;
  }

  lemma SplitParts(v: Tables, epoch: Epoch, amount: int, split: Split)
    requires SplitOk(v, epoch, amount, split)
    ensures split.regular >= 0 && split.advance >= 0 && split.regular + split.advance == amount
    ensures split.advance == 0 ==> split.requestId.None?
    ensures split.advance > 0 ==> split.requestId.Some?
  {
  }

  lemma MintForContributionKeepsInv(v: Tables, input: MintInput, contribution: Option<ContributionRow>,
                                    role: Option<Role>)
    requires Inv(v) && MintForContribution(v, input, contribution, role).Success?
    ensures Good(v, MintForContribution(v, input, contribution, role).value.0)
  {
    hide Inv, Extends, LegAllowed, PostLeg, SplitOk, ContributionOk, MintForContribution;
    var epoch, amount, related, split := MintForContributionStep(v, input, contribution, role);
    SplitParts(v, epoch, amount, split);
    var m := contribution.value.member;
    assert v.ledger.epochs != [] && amount > 0 by {
      ContributionFacts(v, input, m, epoch, amount, related);
    }
    var first := PartLeg(v, input, m, epoch, related, split, CurrentEpoch);
    var second := PartLeg(v, input, m, epoch, related, split, NextEpochAdvance);
    if split.advance == 0 {
      ContributionLegAllowed(v, input, m, epoch, amount, related, split, CurrentEpoch);
      PostLegGood(v, first);
    } else if split.regular == 0 {
      ContributionLegAllowed(v, input, m, epoch, amount, related, split, NextEpochAdvance);
      PostLegGood(v, second);
    } else {
      ContributionLegAllowed(v, input, m, epoch, amount, related, split, CurrentEpoch);
      PostLegGood(v, first);
      SecondLegAllowed(v, input, m, epoch, amount, related, split);
      PostLegGood(PostLeg(v, first), second);
      ExtendsTransitive(v, PostLeg(v, first), PostLeg(PostLeg(v, first), second));
    }
  }

  lemma ContributionFacts(v: Tables, input: MintInput, m: Member, epoch: Epoch, amount: int, related: bool)
    requires ContributionOk(v, input, m, epoch, amount, related)
    ensures v.ledger.epochs != [] && amount > 0
  {
  }

  // ---- Genesis ----

  lemma GenesisLegAllowed(v: Tables, a: Allocation, approvedBy: string)
    requires a.amount > 0
    ensures LegAllowed(v, GenesisLeg(a, v.policy.version, approvedBy))
  {
  }

  lemma {:induction false} GenesisFold(v: Tables, legs: seq<Leg>, allocations: seq<Allocation>, approvedBy: string)
    requires Inv(v) && |legs| == |allocations|
    requires forall i | 0 <= i < |legs| ::
      legs[i] == GenesisLeg(allocations[i], v.policy.version, approvedBy) && allocations[i].amount > 0
    ensures Good(v, v.(ledger := PostMints(v.ledger, legs)))
  {
    hide Inv, Extends;
    if legs == [] {
      StaysGood(v);
    } else {
      var k := |legs| - 1;
      GenesisFold(v, legs[..k], allocations[..k], approvedBy);
      var v1 := v.(ledger := PostMints(v.ledger, legs[..k]));
      GenesisLegAllowed(v1, allocations[k], approvedBy);
      PostLegGood(v1, legs[k]);
      assert PostLeg(v1, legs[k]) == v.(ledger := PostMints(v.ledger, legs));
      ExtendsTransitive(v, v1, PostLeg(v1, legs[k]));
    }
  }

  lemma MintInitialAllocationKeepsInv(v: Tables, allocations: seq<Allocation>, approvedBy: string)
    requires Inv(v) && MintInitialAllocation(v, allocations, approvedBy).Success?
    ensures Good(v, MintInitialAllocation(v, allocations, approvedBy).value.0)
  {
    hide Inv, Good;
    GenesisFold(v, GenesisLegs(allocations, v.policy.version, approvedBy), allocations, approvedBy);
  }

  // ---- Reversals ----

  lemma ReverseMintKeepsInv(v: Tables, input: ReversalInput)
    requires Inv(v) && ReverseMint(v, input).Success?
    ensures Good(v, ReverseMint(v, input).value.0)
  {
    hide LedgerInv, BoardOk, VersionsOk, PassedAdvance, PolicyOk, RequestsOk, SingleUseOk, AdvancesOk;
    var l := v.ledger;
    var amount := input.amount.GetOr(l.mints[input.mintId].leg.amount);
    PostReversalKeepsInv(l, v.policy.rates, input.mintId, amount, input.reason, input.approvedBy, input.proposalId);
    var v' := ReverseMint(v, input).value.0;
    assert AdvancesOk(v'.ledger, v'.requests, v'.proposals) by {
      AdvancesIgnoreReversals(v.ledger, v'.ledger, v.requests, v.proposals);
    }
  }

  lemma AdvancesIgnoreReversals(l: Ledger, l': Ledger, requests: seq<AdvanceRequest>, proposals: seq<Proposal>)
    requires AdvancesOk(l, requests, proposals) && l'.mints == l.mints && l'.epochs == l.epochs
    ensures AdvancesOk(l', requests, proposals)
  {
  }

  // ---- Epochs ----

  lemma DeriveBudgetOk(supply: int, debt: int, rates: Rates)
    requires DeriveBudget(supply, debt, rates).Success?
    ensures Derived(DeriveBudget(supply, debt, rates).value, supply, debt, rates)
  {
  }

  /** Nothing that reads event legs notices a rollover or a bootstrap. */
  lemma LegReadersSurvive(l: Ledger, l': Ledger, requests: seq<AdvanceRequest>, proposals: seq<Proposal>)
    requires AdvancesOk(l, requests, proposals) && SingleUseOk(l.mints, proposals)
    requires SameLegs(l.mints, l'.mints) && |l.epochs| <= |l'.epochs|
    requires forall i | 0 <= i < |l.epochs| :: l'.epochs[i].baseBudget == l.epochs[i].baseBudget
    ensures AdvancesOk(l', requests, proposals) && SingleUseOk(l'.mints, proposals)
  {
    hide PassedAdvance, NeedsProposal, RelatedLegOk, SharesAuthority, TwoLegsOfOneCall;
    forall i: nat | i < |l'.mints| && l'.mints[i].leg.source == NextEpochAdvance
      ensures AdvanceEventOk(l'.mints, i, l'.epochs, requests, proposals)
    {
      assert AdvanceEventOk(l.mints, i, l.epochs, requests, proposals);
      SumMintsSameLegs(l.mints[..i + 1], l'.mints[..i + 1], OfEpoch(l.mints[i].leg.epochNumber, NextEpochAdvance));
    }
    forall rid: nat | rid < |requests| && requests[rid].status == Executed
      ensures MintOfRequest(l'.mints, rid).Some?
    {
      var i := MintOfRequest(l.mints, rid).value;
      assert l'.mints[i].leg.requestId == Some(rid);
    }
    forall i | 0 <= i < |l'.mints|
      ensures RelatedLegOk(l'.mints[i].leg, proposals)
    {
      assert RelatedLegOk(l.mints[i].leg, proposals);
    }
  }

  lemma ActivateVersionOk(v: Tables, opening: int)
    requires PolicyOk(v.policy, v.versions, |v.ledger.epochs|) && VersionsOk(v.versions, v.proposals)
    requires opening == |v.ledger.epochs| + 1
    ensures PolicyRules.ActivatePendingVersion(v, opening).Success?
    ensures var v' := PolicyRules.ActivatePendingVersion(v, opening).value;
      && PolicyOk(v'.policy, v'.versions, |v.ledger.epochs| + 1) && RatesOk(v'.policy.rates)
      && v'.policy.pendingVersionId == None && v'.policy.version == |v.versions|
      && v' == v.(policy := v'.policy)
  {
    var v' := PolicyRules.ActivatePendingVersion(v, opening).value;
    assert VersionOk(v.versions[v'.policy.version - 1], v'.policy.version - 1, v.proposals);
  }

  lemma CloseEpochKeepsInv(v: Tables, id: nat)
    requires Inv(v) && CloseEpoch(v, id).Success?
    ensures Good(v, CloseEpoch(v, id).value.0)
  {
    hide LedgerInv, BoardOk, VersionsOk, RequestsOk, AdvancesOk, SingleUseOk, PolicyOk, Extends, RatesOk, Roll, EpochOk;
    StaysGood(v);
    if CloseEpoch(v, id).value.1 != AlreadyClosed {
      LastEpoch(v);
      var l := v.ledger;
      var n := |l.epochs|;
      EpochFacts(l.epochs[n - 1], n);
      var debt := DebtAfter(l.epochs[n - 1]);
      ActivateVersionOk(v, n + 1);
      var v1 := PolicyRules.ActivatePendingVersion(v, n + 1).value;
      var rates := v1.policy.rates;
      var budget := DeriveBudget(l.supply, debt, rates).value;
      DeriveBudgetOk(l.supply, debt, rates);
      RollKeepsInv(l, v.policy.rates, rates, budget);
      var l' := Roll(l, n - 1, rates.inflationBps, debt, budget);
      RollShape(l, n - 1, rates.inflationBps, debt, budget);
      LegReadersSurvive(l, l', v.requests, v.proposals);
      var v' := v1.(ledger := l');
      RollExtends(v, v');
    }
  }

  lemma RollShape(l: Ledger, id: nat, inflationBps: int, debt: int, budget: Budget)
    requires id < |l.epochs|
    ensures var l' := Roll(l, id, inflationBps, debt, budget);
      && SameLegs(l.mints, l'.mints) && MintsExtend(l.mints, l'.mints)
      && |l'.epochs| == |l.epochs| + 1
      && (forall i | 0 <= i < |l.epochs| ::
            l'.epochs[i] == if i == id then CloseRow(l.epochs[i]) else l.epochs[i])
      && l'.reversals == l.reversals && l'.ledgerSeq == l.ledgerSeq
  {
  }

  lemma RollExtends(v: Tables, v': Tables)
    requires v.ledger.epochs != [] && v.ledger.epochs[|v.ledger.epochs| - 1].status == Active
    requires v' == v.(policy := v'.policy, ledger := v'.ledger)
    requires MintsExtend(v.ledger.mints, v'.ledger.mints)
    requires |v.ledger.epochs| <= |v'.ledger.epochs|
    requires forall i | 0 <= i < |v.ledger.epochs| ::
      v'.ledger.epochs[i] == if i == |v.ledger.epochs| - 1 then CloseRow(v.ledger.epochs[i]) else v.ledger.epochs[i]
    requires v'.ledger.reversals == v.ledger.reversals && v'.ledger.ledgerSeq == v.ledger.ledgerSeq
    ensures Extends(v, v')
  {
    ExtendsReflexive(v);
  }

  lemma CreateNextEpochKeepsInv(v: Tables)
    requires Inv(v) && CreateNextEpoch(v).Success?
    ensures Good(v, CreateNextEpoch(v).value.0)
  {
    hide LedgerInv, BoardOk, VersionsOk, RequestsOk, AdvancesOk, SingleUseOk, Extends, EpochOk;
    StaysGood(v);
    LastEpoch(v);
    if v.ledger.epochs == [] {
      var l := v.ledger;
      var rates := v.policy.rates;
      var budget := DeriveBudget(l.supply, 0, rates).value;
      DeriveBudgetOk(l.supply, 0, rates);
      BootstrapKeepsInv(l, rates, budget);
      var l' := Bootstrap(l, rates.inflationBps, budget);
      assert l.epochs + l'.epochs == l'.epochs;
      LegReadersSurvive(l, l', v.requests, v.proposals);
      assert Extends(v, v.(ledger := l')) by { BootstrapExtends(v, l'); }
    }
  }

  lemma BootstrapExtends(v: Tables, l': Ledger)
    requires v.ledger.epochs == [] && l' == v.ledger.(epochs := l'.epochs)
    ensures Extends(v, v.(ledger := l'))
  {
    ExtendsReflexive(v);
  }

  // ---- Proposals ----

  lemma ProposalsExtendFacts(a: seq<Proposal>, b: seq<Proposal>)
    requires ProposalsExtend(a, b)
    ensures KeepsRecorded(a, b)
  {
    forall pid: nat | pid < |a| && a[pid].status == Recorded
      ensures b[pid] == a[pid]
    {
      assert ProposalKept(a[pid], b[pid]);
    }
  }

  /** Changing the board only: new rows, ballots or snapshots. */
  lemma BoardChangeGood(v: Tables, v': Tables)
    requires Inv(v)
    requires v' == v.(proposals := v'.proposals, snapshots := v'.snapshots, votes := v'.votes)
    requires BoardOk(v'.proposals, v'.snapshots, v'.votes)
    requires ProposalsExtend(v.proposals, v'.proposals) && SnapshotsExtend(v.snapshots, v'.snapshots)
    requires VotesExtend(v.votes, v'.votes) && BallotsFinal(v.proposals, v.votes, v'.votes)
    ensures Good(v, v')
  {
    hide LedgerInv, BoardOk, VersionsOk, RequestsOk, AdvancesOk, SingleUseOk, PolicyOk, ProposalsExtend, KeepsRecorded;
    hide VotesExtend, SnapshotsExtend, BallotsFinal;
    ProposalsExtendFacts(v.proposals, v'.proposals);
    ProposalsMayGrow(v, v'.proposals);
  }

  lemma CreateKeepsInv(v: Tables, input: ProposalInput)
    requires Inv(v) && Create(v, input).Success?
    ensures Good(v, Create(v, input).value.0)
  {
    hide Inv, Good, ProposalOk;
    var v' := Create(v, input).value.0;
    BoardOfInv(v);
    assert BoardOk(v'.proposals, v'.snapshots, v'.votes) by {
      forall pid: nat | pid < |v'.proposals|
        ensures ProposalOk(v'.proposals[pid], pid in v.snapshots, SnapshotOf(v.snapshots, pid), VotesOf(v.votes, pid))
      {
        if pid < |v.proposals| {
          assert ProposalOk(v.proposals[pid], pid in v.snapshots, SnapshotOf(v.snapshots, pid), VotesOf(v.votes, pid));
        } else {
          assert ProposalOk(v'.proposals[pid], false, map[], []) by { DraftOk(v'.proposals[pid]); }
        }
      }
    }
    BoardChangeGood(v, v');
  }

  lemma DraftOk(p: Proposal)
    requires p.status == Draft && p.snapshot.None? && p.result.None?
    ensures ProposalOk(p, false, map[], [])
  {
  }

  lemma BoardOfInv(v: Tables)
    requires Inv(v)
    ensures BoardOk(v.proposals, v.snapshots, v.votes)
  {
    hide LedgerInv, BoardOk, VersionsOk, RequestsOk, AdvancesOk, SingleUseOk, PolicyOk;
  }

  /** One proposal's row, snapshot or ballots change; the others keep theirs. */
  lemma BoardRowGood(v: Tables, v': Tables, pid: nat)
    requires Inv(v) && pid < |v.proposals| && v.proposals[pid].status != Recorded
    requires v' == v.(proposals := v'.proposals, snapshots := v'.snapshots, votes := v'.votes)
    requires |v'.proposals| == |v.proposals| && v'.proposals == v.proposals[pid := v'.proposals[pid]]
    requires ProposalKept(v.proposals[pid], v'.proposals[pid])
    requires forall k: nat | k != pid ::
      (k in v'.snapshots <==> k in v.snapshots) && SnapshotOf(v'.snapshots, k) == SnapshotOf(v.snapshots, k)
    requires forall k: nat | k != pid ::
      (k in v'.votes <==> k in v.votes) && VotesOf(v'.votes, k) == VotesOf(v.votes, k)
    requires pid in v.snapshots ==> pid in v'.snapshots && v'.snapshots[pid] == v.snapshots[pid]
    requires IsPrefix(VotesOf(v.votes, pid), VotesOf(v'.votes, pid))
    requires ProposalOk(v'.proposals[pid], pid in v'.snapshots, SnapshotOf(v'.snapshots, pid), VotesOf(v'.votes, pid))
    ensures Good(v, v')
  {
    hide Inv, Good, ProposalOk;
    BoardOfInv(v);
    assert BoardOk(v'.proposals, v'.snapshots, v'.votes) by {
      forall k: nat | k < |v'.proposals|
        ensures ProposalOk(v'.proposals[k], k in v'.snapshots, SnapshotOf(v'.snapshots, k), VotesOf(v'.votes, k))
      {
        assert ProposalOk(v.proposals[k], k in v.snapshots, SnapshotOf(v.snapshots, k), VotesOf(v.votes, k));
      }
    }
    forall k | k in v.snapshots
      ensures k in v'.snapshots && v'.snapshots[k] == v.snapshots[k]
    {
      if k != pid {
        assert SnapshotOf(v'.snapshots, k) == SnapshotOf(v.snapshots, k);
      }
    }
    forall k: nat
      ensures IsPrefix(VotesOf(v.votes, k), VotesOf(v'.votes, k))
    {
    }
    BoardChangeGood(v, v');
  }

  lemma ActivateKeepsInv(v: Tables, pid: nat, now: int)
    requires Inv(v) && Activate(v, pid, now).Success?
    ensures Good(v, Activate(v, pid, now).value.0)
  {
    hide Inv, Good;
    StaysGood(v);
    if Activate(v, pid, now).value.1 == Activated {
      var v' := Activate(v, pid, now).value.0;
      BoardOfInv(v);
      assert ProposalOk(v.proposals[pid], pid in v.snapshots, SnapshotOf(v.snapshots, pid), VotesOf(v.votes, pid));
      var weights := Weights(v.ledger.balances);
      forall m | m in weights
        ensures weights[m] >= 0
      {
        LedgerOfInv(v);
        BalancesNonNegative(v.ledger, v.policy.rates);
        assert Row(v.ledger.balances, m).active >= 0;
      }
      BoardRowGood(v, v', pid);
    }
  }

  lemma LedgerOfInv(v: Tables)
    requires Inv(v)
    ensures LedgerInv(v.ledger, v.policy.rates)
  {
    hide LedgerInv, BoardOk, VersionsOk, RequestsOk, AdvancesOk, SingleUseOk, PolicyOk;
  }

  lemma CastVoteKeepsInv(v: Tables, pid: nat, m: Member, option: string, now: int)
    requires Inv(v) && CastVote(v, pid, m, option, now).Success?
    ensures Good(v, CastVote(v, pid, m, option, now).value.0)
  {
    hide Inv, Good;
    StaysGood(v);
    var v' := CastVote(v, pid, m, option, now).value.0;
    if !CastVote(v, pid, m, option, now).value.1.idempotent {
      BoardOfInv(v);
      assert ProposalOk(v.proposals[pid], pid in v.snapshots, SnapshotOf(v.snapshots, pid), VotesOf(v.votes, pid));
      assert v.proposals[pid := v.proposals[pid]] == v.proposals;
      assert BallotOf(VotesOf(v.votes, pid), m).None?;
      BallotAdded(VotesOf(v.votes, pid), SnapshotOf(v.snapshots, pid), v.proposals[pid].options,
                  v'.votes[pid][|VotesOf(v.votes, pid)|]);
      hide BallotsOk, SnapshotOk;
      BoardRowGood(v, v', pid);
    }
  }

  lemma BallotAdded(votes: seq<Vote>, weights: map<Member, int>, options: seq<string>, row: Vote)
    requires BallotsOk(votes, weights, options)
    requires row.member in weights && row.weight == weights[row.member] && row.option in options
    requires forall k | 0 <= k < |votes| :: votes[k].member != row.member
    ensures BallotsOk(votes + [row], weights, options)
  {
  }

  /** Recording the result, before its settlement is applied. */
  function RecordResult(v: Tables, pid: nat, result: ResultColumns): Tables
    requires pid < |v.proposals|
  {
    v.(proposals := v.proposals[pid := v.proposals[pid].(status := Recorded, result := Some(result))])
  }

  lemma EndKeepsInv(v: Tables, pid: nat, now: int)
    requires Inv(v) && End(v, pid, now).Success?
    ensures Good(v, End(v, pid, now).value.0)
  {
    hide Inv, Good, ResolveOutcome;
    StaysGood(v);
    if End(v, pid, now).value.1.EndedWith? {
      var outcome := End(v, pid, now).value.1;
      var v0 := RecordResult(v, pid, outcome.result);
      BoardOfInv(v);
      assert ProposalOk(v.proposals[pid], pid in v.snapshots, SnapshotOf(v.snapshots, pid), VotesOf(v.votes, pid));
      BoardRowGood(v, v0, pid);
      if outcome.quorumMet && outcome.result.winner == APPROVE {
        SettleKeepsInv(v, v0, pid);
      }
    }
  }

  /** Settling a proposal whose passing result is already on record. */
  lemma SettleKeepsInv(v: Tables, v0: Tables, pid: nat)
    requires pid < |v.proposals| && Settle(v, pid, v.proposals[pid].kind).Success?
    requires Inv(v) && Good(v, v0) && v0 == v.(proposals := v0.proposals)
    requires pid < |v0.proposals| && Passed(v0.proposals[pid]) && v0.proposals[pid].kind == v.proposals[pid].kind
    ensures Good(v, Settle(v, pid, v.proposals[pid].kind).value.(proposals := v0.proposals))
  {
    hide Inv, Extends;
    var kind := v.proposals[pid].kind;
    var v' := Settle(v, pid, kind).value.(proposals := v0.proposals);
    match kind {
      case TokenPolicyChange(rates, rules) =>
        PendingVersionGood(v0, pid, rates, rules);
        assert v' == PolicyRules.CreatePendingVersion(v0, pid, rates, rules).value;
        ExtendsTransitive(v, v0, v');
      case BudgetAdvance(_, rid) =>
        if rid < |v.requests| && v.requests[rid].status == PendingProposal {
          assert PassedAdvance(v0.proposals, rid);
          RequestsOfInv(v0);
          assert RequestOk(v0.requests[rid], rid, v0.proposals);
          RequestRowKeepsInv(v0, rid, v0.requests[rid].(status := Approved));
          ExtendsTransitive(v, v0, v');
        }
      case _ =>
    }
  }

  lemma PendingVersionGood(v: Tables, pid: nat, rates: Rates, rules: Option<seq<Rule>>)
    requires Inv(v) && PolicyRules.CreatePendingVersion(v, pid, rates, rules).Success?
    requires pid < |v.proposals| && Passed(v.proposals[pid])
    requires v.proposals[pid].kind.TokenPolicyChange? && v.proposals[pid].kind.rates == rates
    ensures Good(v, PolicyRules.CreatePendingVersion(v, pid, rates, rules).value)
  {
    hide LedgerInv, BoardOk, RequestsOk, AdvancesOk, SingleUseOk, EpochOk;
    var v' := PolicyRules.CreatePendingVersion(v, pid, rates, rules).value;
    LastEpoch(v);
    EpochFacts(v.ledger.epochs[|v.ledger.epochs| - 1], |v.ledger.epochs|);
    forall i: nat | i < |v'.versions|
      ensures VersionOk(v'.versions[i], i, v.proposals)
    {
      if i < |v.versions| {
        assert VersionOk(v.versions[i], i, v.proposals);
      }
    }
    ExtendsReflexive(v);
  }
}
