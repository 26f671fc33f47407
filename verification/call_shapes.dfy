/** What a single call can do to the ledger and to the board: the cases that
    inductions over runs go through. */
module CallShapes {
  import opened Wrappers
  import opened Types
  import Calc
  import opened LedgerSteps
  import opened LedgerInvariant
  import opened AdvanceRules
  import opened MintRules
  import opened ReversalRules
  import opened ProposalRules
  import opened EpochRules
  import opened Invariant
  import opened ServiceInvariants
  import opened Runs
  import PolicyRules

  // ---- The ledger ----

  /** New events: well-shaped legs, of one contribution that had none, or of none,
      and allocations only when there were none. */
  ghost predicate Posted(v: Tables, l': Ledger, legs: seq<Leg>, call: Call) {
    && l' == PostMints(v.ledger, legs)
    && forall i | 0 <= i < |legs| ::
         && LegShape(|v.ledger.epochs|, legs[i])
         && (legs[i].contributionId.Some? ==>
               && call.MintCall?
               && legs[i].contributionId == Some(call.mintInput.contributionId)
               && !ContributionMinted(v.ledger.mints, call.mintInput.contributionId))
         && (legs[i].mintType == InitialAllocation ==> !Seeded(v.ledger.mints))
  }

  ghost predicate Reversed(v: Tables, l': Ledger, mintId: nat, amount: int, input: ReversalInput) {
    && mintId < |v.ledger.mints|
    && l' == PostReversal(v.ledger, mintId, amount, input.reason, input.approvedBy, input.proposalId)
    && input.reason in REVERSAL_REASONS
    && (input.reason == "community_proposal" || v.ledger.mints[mintId].leg.relatedParty ==>
          input.proposalId.Some? && AuthorizesReversal(v.proposals, input.proposalId.value, mintId))
  }

  ghost predicate Rolled(l: Ledger, l': Ledger, bps: int, debt: int, budget: Budget) {
    l.epochs != [] && l' == Roll(l, |l.epochs| - 1, bps, debt, budget)
  }

  ghost predicate Opened(l: Ledger, l': Ledger) {
    l.epochs == [] && |l'.epochs| == 1 && l' == l.(epochs := l'.epochs)
  }

  ghost predicate LedgerStep(v: Tables, l': Ledger, call: Call) {
    || l' == v.ledger
    || (exists legs :: Posted(v, l', legs, call))
    || (exists mintId, amount, input :: Reversed(v, l', mintId, amount, input))
    || (exists bps, debt, budget :: Rolled(v.ledger, l', bps, debt, budget))
    || Opened(v.ledger, l')
  }

  /** Every call changes the ledger in one of the four ways, if at all. */
  lemma CallLedgerStep(v: Tables, call: Call)
    requires Inv(v)
    ensures LedgerStep(v, Apply(v, call).ledger, call)
  {
    hide Inv, LedgerStep;
    match call {
      case MintCall(input, contribution, role) =>
        MintLedgerStep(v, call);
      case AllocateCall(allocations, approvedBy) =>
        AllocateLedgerStep(v, call);
      case ExecuteCall(rid) =>
        ExecuteLedgerStep(v, call);
      case CloseCall(id) =>
        CloseLedgerStep(v, call);
      case BootstrapCall =>
        BootstrapLedgerStep(v, call);
      case ReverseCall(input) =>
        ReverseLedgerStep(v, call);
      case _ =>
        OtherLedgerStep(v, call);
    }
  }

  lemma MintLedgerStep(v: Tables, call: Call)
    requires Inv(v) && call.MintCall?
    ensures LedgerStep(v, Apply(v, call).ledger, call)
  {
    hide Inv, PostMints, ResolveSplit, RelatedPartyGate, ContributionMinted, LegShape;
    var input, contribution, role := call.mintInput, call.contribution, call.memberRole;
    if MintForContribution(v, input, contribution, role).Success? {
      LastEpoch(v);
      var epoch := v.ledger.epochs[|v.ledger.epochs| - 1];
      EpochFacts(epoch, |v.ledger.epochs|);
      var amount := ContributionAmount(v, input, contribution.value, role, epoch).value;
      var split := ResolveSplit(v, input, epoch, amount).value;
      var m, related := contribution.value.member, IsRelatedParty(role.value);
      var legs := LegsOf(v, input, m, |v.ledger.epochs| - 1, epoch, related, split);
      LegsShaped(v, input, m, epoch, related, split);
      assert Posted(v, Apply(v, call).ledger, legs, call);
    }
  }

  lemma LegsShaped(v: Tables, input: MintInput, m: Member, epoch: Epoch, related: bool, split: Split)
    requires v.ledger.epochs != [] && epoch.number == |v.ledger.epochs|
    ensures forall leg <- LegsOf(v, input, m, |v.ledger.epochs| - 1, epoch, related, split) ::
      && LegShape(|v.ledger.epochs|, leg) && leg.contributionId == Some(input.contributionId)
      && leg.mintType == Contribution
  {
  }

  lemma AllocateLedgerStep(v: Tables, call: Call)
    requires call.AllocateCall?
    ensures LedgerStep(v, Apply(v, call).ledger, call)
  {
    hide PostMints;
    if MintInitialAllocation(v, call.allocations, call.approvedBy).Success? {
      var legs := GenesisLegs(call.allocations, v.policy.version, call.approvedBy);
      assert Posted(v, Apply(v, call).ledger, legs, call);
    }
  }

  lemma ExecuteLedgerStep(v: Tables, call: Call)
    requires Inv(v) && call.ExecuteCall?
    ensures LedgerStep(v, Apply(v, call).ledger, call)
  {
    hide Inv, ExecuteLocked, LegAllowed, PostMint;
    var rid := call.requestId;
    if Execute(v, rid).Success? && v.requests[rid].status == Approved {
      ExecuteLockedStep(v, rid, v.requests[rid]);
      if MintOfRequest(v.ledger.mints, rid).None? {
        var req := v.requests[rid];
        var leg := AdvanceLeg(req, rid, v.ledger.epochs[req.epochId], AmountOf(req), v.policy.version);
        AllowedShape(v, leg);
        PostMintsUnrolled(v.ledger, leg, leg);
        assert Posted(v, Apply(v, call).ledger, [leg], call);
      }
    }
  }

  lemma AllowedShape(v: Tables, leg: Leg)
    requires LegAllowed(v, leg)
    ensures LegShape(|v.ledger.epochs|, leg)
  {
  }

  lemma CloseLedgerStep(v: Tables, call: Call)
    requires Inv(v) && call.CloseCall?
    ensures LedgerStep(v, Apply(v, call).ledger, call)
  {
    hide Inv, Roll, DeriveBudget, EpochOk;
    LastEpoch(v);
    if CloseEpoch(v, call.epochId).Success? && CloseEpoch(v, call.epochId).value.1 != AlreadyClosed {
      var l, id := v.ledger, call.epochId;
      var e := l.epochs[id];
      var carried := e.advancedMinted + Calc.CarriedOverDebt(e.baseBudget, e.debt).value;
      var rates := PolicyRules.ActivatePendingVersion(v, e.number + 1).value.policy.rates;
      var budget := DeriveBudget(l.supply, carried, rates).value;
      assert Rolled(l, Apply(v, call).ledger, rates.inflationBps, carried, budget);
    }
  }

  lemma BootstrapLedgerStep(v: Tables, call: Call)
    requires Inv(v) && call.BootstrapCall?
    ensures LedgerStep(v, Apply(v, call).ledger, call)
  {
    hide Inv, DeriveBudget;
    LastEpoch(v);
  }

  lemma ReverseLedgerStep(v: Tables, call: Call)
    requires call.ReverseCall?
    ensures LedgerStep(v, Apply(v, call).ledger, call)
  {
    hide PostReversal;
    var input := call.reversalInput;
    if ReverseMint(v, input).Success? {
      var amount := input.amount.GetOr(v.ledger.mints[input.mintId].leg.amount);
      assert Reversed(v, Apply(v, call).ledger, input.mintId, amount, input);
    }
  }

  lemma OtherLedgerStep(v: Tables, call: Call)
    requires !call.MintCall? && !call.AllocateCall? && !call.ExecuteCall? && !call.CloseCall? && !call.BootstrapCall?
    requires !call.ReverseCall?
    ensures Apply(v, call).ledger == v.ledger
    ensures LedgerStep(v, Apply(v, call).ledger, call)
  {
    hide ResolveOutcome, TotalWeight, ActiveEpoch, PolicyRules.VersionExists;
  }

  // ---- The board ----

  /** Versions are appended by ending a due proposal only, and a proposal leaves
      its draft only while an epoch is active. */
  ghost predicate BoardStep(v: Tables, v': Tables, call: Call) {
    && |v.proposals| <= |v'.proposals|
    && (forall pid: nat | pid < |v'.proposals| && v'.proposals[pid].status != Draft ::
          pid < |v.proposals| && (v.proposals[pid].status != Draft || v.ledger.epochs != []))
    && (v'.versions == v.versions || Armed(v, v', call))
  }

  /** One version appended for an open proposal, with its rules or the live ones. */
  ghost predicate Armed(v: Tables, v': Tables, call: Call) {
    && call.EndCall? && call.proposalId < |v.proposals|
    && v.proposals[call.proposalId].status == Open
    && v.proposals[call.proposalId].kind.TokenPolicyChange?
    && v.policy.pendingVersionId.None?
    && |v'.versions| == |v.versions| + 1
    && v'.versions[..|v.versions|] == v.versions
    && var row := v'.versions[|v.versions|];
       row.proposalId == Some(call.proposalId)
       && row.rules == v.proposals[call.proposalId].kind.rules.GetOr(v.policy.rules)
  }

  lemma CallBoardStep(v: Tables, call: Call)
    requires Inv(v)
    ensures BoardStep(v, Apply(v, call), call)
  {
    hide Inv, BoardStep;
    match call {
      case CloseCall(id) => CloseBoardStep(v, call);
      case EndCall(pid, now) => EndBoardStep(v, call);
      case ActivateCall(pid, now) => ActivateBoardStep(v, call);
      case _ => OtherBoardStep(v, call);
    }
  }

  lemma CloseBoardStep(v: Tables, call: Call)
    requires call.CloseCall?
    ensures BoardStep(v, Apply(v, call), call)
  {
    hide Roll, DeriveBudget;
  }

  lemma EndBoardStep(v: Tables, call: Call)
    requires call.EndCall?
    ensures BoardStep(v, Apply(v, call), call)
  {
    hide ResolveOutcome, TotalWeight, ActiveEpoch, PolicyRules.VersionExists;
  }

  lemma ActivateBoardStep(v: Tables, call: Call)
    requires call.ActivateCall?
    ensures BoardStep(v, Apply(v, call), call)
  {
  }

  lemma OtherBoardStep(v: Tables, call: Call)
    requires !call.CloseCall? && !call.EndCall? && !call.ActivateCall?
    ensures BoardStep(v, Apply(v, call), call)
  {
    hide PostMints, ResolveSplit, ContributionAmount, ExecuteLocked, DeriveBudget, PostReversal;
    if call.ExecuteCall? {
      ExecuteBoard(v, call);
    }
  }

  lemma ExecuteBoard(v: Tables, call: Call)
    requires call.ExecuteCall?
    ensures Apply(v, call).proposals == v.proposals && Apply(v, call).versions == v.versions
  {
    hide PostMint, ApprovalRecheck;
  }
}
