/** Who may mint what: advance authority, single use, policy versions. */
module GovernanceTheorems {
  import opened Wrappers
  import opened Types
  import opened Calc
  import opened Sums
  import opened LedgerSteps
  import opened LedgerInvariant
  import opened AdvanceRules
  import opened MintRules
  import opened ReversalRules
  import opened Invariant
  import opened History
  import opened ServiceInvariants
  import opened Runs
  import opened LedgerTheorems
  import opened CallShapes

  lemma ReachableParts(v: Tables)
    requires Reachable(v)
    ensures RequestsOk(v.requests, v.proposals) && AdvancesOk(v.ledger, v.requests, v.proposals)
    ensures SingleUseOk(v.ledger.mints, v.proposals)
    ensures BoardOk(v.proposals, v.snapshots, v.votes)
    ensures VersionsOk(v.versions, v.proposals) && PolicyOk(v.policy, v.versions, |v.ledger.epochs|)
  {
    hide Reachable, LedgerInv, BoardOk, VersionsOk, PolicyOk, RequestsOk, AdvancesOk, SingleUseOk;
    ReachableInv(v);
  }

  // ---- Advances ----

  /** An approved or executed request has a second approver other than its
      requester, or a passed budget_advance proposal that names it. */
  lemma RequestAuthority(v: Tables, rid: nat)
    requires Reachable(v) && rid < |v.requests|
    requires v.requests[rid].status == Approved || v.requests[rid].status == Executed
    ensures var req := v.requests[rid];
      || (req.secondApprovedBy.Some? && req.secondApprovedBy.value != req.requestedBy && !req.relatedParty)
      || PassedAdvance(v.proposals, rid)
  {
    hide Reachable, BoardOk, VersionsOk, PolicyOk, AdvancesOk, SingleUseOk, PassedAdvance;
    ReachableParts(v);
    assert RequestOk(v.requests[rid], rid, v.proposals);
  }

  /** The recheck at execution looks only at whether an attached proposal is
      recorded, or who approved second. For an approved request that is enough:
      it passes exactly for a second-approved request at up to 1000 bps, or for
      one with its recorded proposal attached; and whenever the rate or the
      related party calls for a proposal, one that names the request passed. */
  lemma RecheckPassesIff(v: Tables, rid: nat, bps: int)
    requires Reachable(v) && rid < |v.requests| && v.requests[rid].status == Approved
    ensures var req := v.requests[rid];
      && (ApprovalRecheck(v, req, bps).Pass? <==>
            if req.secondApprovedBy.Some? then bps <= PROPOSAL_THRESHOLD_BPS
            else req.proposalId.Some? && IsRecorded(v.proposals, req.proposalId.value))
      && (ApprovalRecheck(v, req, bps).Pass? && (bps > PROPOSAL_THRESHOLD_BPS || req.relatedParty) ==>
            PassedAdvance(v.proposals, rid))
  {
    hide Reachable, BoardOk, VersionsOk, PolicyOk, AdvancesOk, SingleUseOk, PassedAdvance;
    ReachableParts(v);
    assert RequestOk(v.requests[rid], rid, v.proposals);
  }

  /** A proposal approves the request it names whether or not it was attached to
      it. One approved without an attached proposal, and without a second
      approver, can never be executed any more. */
  lemma UnattachedNeverExecutes(v: Tables, rid: nat, calls: seq<Call>)
    requires Reachable(v) && rid < |v.requests| && v.requests[rid].status == Approved
    requires v.requests[rid].secondApprovedBy.None? && v.requests[rid].proposalId.None?
    ensures var v' := Run(v, calls);
      rid < |v'.requests| && (v'.requests[rid].status == Approved ==> Execute(v', rid).Failure?)
  {
    hide Reachable, Inv, Extends, Run;
    var v' := Run(v, calls);
    ReachableInv(v);
    RunKeepsInv(v, calls);
    ReachableOnward(v, calls);
    RequestExtended(v, v', rid);
    if v'.requests[rid].status == Approved {
      ExecutedIffMinted(v', rid);
      assert forall bps: int :: ApprovalRecheck(v', v'.requests[rid], bps).Fail?;
    }
  }

  /** A special or related-party request, or one that takes the cumulative rate
      over 1000 bps, can be approved by a proposal only: whatever is called
      later, it is approved or executed only with a passed proposal naming it. */
  lemma ProposalRouteHolds(v: Tables, input: AdvanceInput, role: Option<Role>, calls: seq<Call>)
    requires Reachable(v) && CreateRequest(v, input, role).Success?
    requires v.ledger.epochs != []
    requires var e := v.ledger.epochs[|v.ledger.epochs| - 1];
      var related := role.Some? && IsRelatedParty(role.value);
      input.special || NeedsProposal(e.advancedMinted + input.amount, e.baseBudget, related)
    ensures var v' := Run(Apply(v, RequestCall(input, role)), calls);
      var rid := |v.requests|;
      && rid < |v'.requests|
      && (v'.requests[rid].status == Approved || v'.requests[rid].status == Executed ==>
            PassedAdvance(v'.proposals, rid))
  {
    hide Reachable, Inv, Extends, PassedAdvance, Run, RouteOf, NeedsProposal;
    var v1 := Apply(v, RequestCall(input, role));
    RoutedToProposal(v, input, role);
    RunOne(v, RequestCall(input, role));
    ReachableOnward(v, [RequestCall(input, role)]);
    ReachableInv(v1);
    RunKeepsInv(v1, calls);
    ReachableOnward(v1, calls);
    var v' := Run(v1, calls);
    RequestExtended(v1, v', |v.requests|);
    if v'.requests[|v.requests|].status == Approved || v'.requests[|v.requests|].status == Executed {
      RequestAuthority(v', |v.requests|);
    }
  }

  lemma RequestExtended(v: Tables, v': Tables, rid: nat)
    requires Extends(v, v') && rid < |v.requests|
    ensures rid < |v'.requests| && RequestKept(v.requests[rid], v'.requests[rid])
  {
    hide MintsExtend, EpochsExtend, ProposalsExtend, VotesExtend, SnapshotsExtend, BallotsFinal, RequestKept;
  }

  lemma RoutedToProposal(v: Tables, input: AdvanceInput, role: Option<Role>)
    requires Reachable(v) && CreateRequest(v, input, role).Success? && v.ledger.epochs != []
    requires var e := v.ledger.epochs[|v.ledger.epochs| - 1];
      var related := role.Some? && IsRelatedParty(role.value);
      input.special || NeedsProposal(e.advancedMinted + input.amount, e.baseBudget, related)
    ensures var v1 := CreateRequest(v, input, role).value.0;
      && |v1.requests| == |v.requests| + 1
      && v1.requests[|v.requests|].status == PendingProposal
      && v1.requests[|v.requests|].secondApprovedBy == None
  {
    hide Reachable, Inv, NeedsProposal, CumulativeAdvanceRateBps;
    ReachableInv(v);
    LastEpoch(v);
    MeterNotNegative(v);
    var e := v.ledger.epochs[|v.ledger.epochs| - 1];
    var related := role.Some? && IsRelatedParty(role.value);
    if !input.special && !related {
      OverThreshold(e.advancedMinted, input.amount, e.baseBudget, related);
    }
  }

  /** Past the threshold the floored rate is past it too, or nothing is asked
      of an epoch without a budget. */
  lemma OverThreshold(advanced: int, amount: int, base: int, related: bool)
    requires advanced >= 0 && base >= 0 && NeedsProposal(advanced + amount, base, related) && !related
    ensures match CumulativeAdvanceRateBps(advanced, amount, base)
      case Success(bps) => bps > PROPOSAL_THRESHOLD_BPS || bps == 0
      case Failure(_) => amount < 0
  {
    if amount >= 0 && base > 0 {
      FloorBelow((advanced + amount) * BPS, base, PROPOSAL_THRESHOLD_BPS);
    }
  }

  lemma MeterNotNegative(v: Tables)
    requires Reachable(v) && v.ledger.epochs != []
    ensures v.ledger.epochs[|v.ledger.epochs| - 1].advancedMinted >= 0
  {
    hide Reachable, SumMints;
    MetersMatchEvents(v, |v.ledger.epochs| - 1);
  }

  /** A request is executed exactly when one, and only one, mint event names
      it; the event is for at most what was requested. */
  lemma ExecutedIffMinted(v: Tables, rid: nat)
    requires Reachable(v) && rid < |v.requests|
    ensures v.requests[rid].status == Executed
      <==> exists i | 0 <= i < |v.ledger.mints| :: v.ledger.mints[i].leg.requestId == Some(rid)
    ensures forall i, j | 0 <= i < |v.ledger.mints| && 0 <= j < |v.ledger.mints|
        && v.ledger.mints[i].leg.requestId == Some(rid) == v.ledger.mints[j].leg.requestId :: i == j
    ensures forall i | 0 <= i < |v.ledger.mints| && v.ledger.mints[i].leg.requestId == Some(rid) ::
      0 < v.ledger.mints[i].leg.amount <= v.requests[rid].requestedAmount
  {
    hide Reachable, Inv;
    ReachableInv(v);
    OnceOfInv(v, rid);
  }

  /** The request backs at most one mint, and is executed exactly when it does. */
  ghost predicate OnceFor(v: Tables, rid: nat)
    requires rid < |v.requests|
  {
    && (v.requests[rid].status == Executed
        <==> exists i | 0 <= i < |v.ledger.mints| :: v.ledger.mints[i].leg.requestId == Some(rid))
    && (forall i, j | 0 <= i < |v.ledger.mints| && 0 <= j < |v.ledger.mints|
          && v.ledger.mints[i].leg.requestId == Some(rid) == v.ledger.mints[j].leg.requestId :: i == j)
    && (forall i | 0 <= i < |v.ledger.mints| && v.ledger.mints[i].leg.requestId == Some(rid) ::
          0 < v.ledger.mints[i].leg.amount <= v.requests[rid].requestedAmount)
  }

  lemma OnceOfInv(v: Tables, rid: nat)
    requires Inv(v) && rid < |v.requests|
    ensures OnceFor(v, rid)
  {
    hide LedgerInv, BoardOk, VersionsOk, PolicyOk, SingleUseOk, PassedAdvance, NeedsProposal;
    var mints := v.ledger.mints;
    assert RequestOk(v.requests[rid], rid, v.proposals);
    forall i: nat | i < |mints| && mints[i].leg.requestId == Some(rid)
      ensures v.requests[rid].status == Executed && v.requests[rid].approvedAmount == Some(mints[i].leg.amount)
    {
      assert AdvanceEventOk(mints, i, v.ledger.epochs, v.requests, v.proposals);
    }
  }

  /** Executing an executed request writes nothing and returns its recorded
      mint, the same one whatever is called in between. */
  lemma ReplaysForever(v: Tables, rid: nat, calls: seq<Call>)
    requires Reachable(v) && rid < |v.requests| && v.requests[rid].status == Executed
    ensures var v' := Run(v, calls);
      && Execute(v, rid).Success?
      && Execute(v, rid).value.0 == v
      && Execute(v', rid) == Success((v', Execute(v, rid).value.1))
  {
    hide Reachable, Inv, Extends, Run, ExecuteLocked;
    var v' := Run(v, calls);
    ReachableInv(v);
    RunKeepsInv(v, calls);
    ReachableOnward(v, calls);
    RequestExtended(v, v', rid);
    ExecutedIffMinted(v, rid);
    ExecutedIffMinted(v', rid);
    var i := MintOfRequest(v.ledger.mints, rid).value;
    MintExtended(v, v', i);
  }

  lemma MintExtended(v: Tables, v': Tables, i: nat)
    requires Extends(v, v') && i < |v.ledger.mints|
    ensures i < |v'.ledger.mints| && MintKept(v.ledger.mints[i], v'.ledger.mints[i])
  {
    hide RequestsExtend, EpochsExtend, ProposalsExtend, VotesExtend, SnapshotsExtend, BallotsFinal, MintKept;
  }

  /** A successful execution leaves its request executed, so that executing it
      again is such a replay of the very same outcome. */
  lemma ExecuteThenReplays(v: Tables, rid: nat)
    requires Reachable(v) && Execute(v, rid).Success?
    ensures var (v', outcome) := Execute(v, rid).value;
      Execute(v', rid) == Success((v', outcome))
  {
    hide Reachable, Inv, PostMint;
    var req := v.requests[rid];
    if req.status == Executed {
      ReplaysForever(v, rid, []);
    } else {
      ExecutedIffMinted(v, rid);
      var l := v.ledger;
      var leg := AdvanceLeg(req, rid, l.epochs[req.epochId], AmountOf(req), v.policy.version);
      NewestMint(l, leg);
    }
  }

  lemma NewestMint(l: Ledger, leg: Leg)
    requires leg.requestId.Some?
    ensures |PostMint(l, leg).mints| == |l.mints| + 1
    ensures MintOfRequest(PostMint(l, leg).mints, leg.requestId.value) == Some(|l.mints|)
  {
  }

  /** The cumulative rate of the event's epoch once the event was posted. */
  function RateAtEvent(l: Ledger, i: nat): Result<int>
    requires i < |l.mints| && l.mints[i].leg.epochId.Some? && l.mints[i].leg.epochId.value < |l.epochs|
  {
    var leg := l.mints[i].leg;
    CumulativeAdvanceRateBps(AdvancedUpTo(l.mints, i) - leg.amount, leg.amount, l.epochs[leg.epochId.value].baseBudget)
  }

  /** Every advance event executes an authorized request, and past 1000 bps,
      or for a related party, the authority is a passed proposal. */
  lemma AdvanceEventAuthority(v: Tables, i: nat)
    requires Reachable(v) && i < |v.ledger.mints| && v.ledger.mints[i].leg.source == NextEpochAdvance
    ensures var leg := v.ledger.mints[i].leg;
      && leg.requestId.Some? && leg.requestId.value < |v.requests|
      && v.requests[leg.requestId.value].status == Executed
      && leg.epochId.Some? && leg.epochId.value < |v.ledger.epochs|
      && RateAtEvent(v.ledger, i).Success?
      && (RateAtEvent(v.ledger, i).value > PROPOSAL_THRESHOLD_BPS || v.requests[leg.requestId.value].relatedParty
          ==> PassedAdvance(v.proposals, leg.requestId.value))
  {
    hide Reachable, BoardOk, VersionsOk, PolicyOk, SingleUseOk, PassedAdvance, RequestsOk, LedgerInv, AdvancedUpTo;
    ReachableParts(v);
    ReachableLedger(v);
    var mints := v.ledger.mints;
    var leg := mints[i].leg;
    assert AdvanceEventOk(mints, i, v.ledger.epochs, v.requests, v.proposals);
    hide AdvancesOk;
    var before := AdvancedUpTo(mints, i) - leg.amount;
    EventFacts(v.ledger, v.policy.rates, i);
    RateWithinCap(before, leg.amount, v.ledger.epochs[leg.epochId.value].baseBudget, PROPOSAL_THRESHOLD_BPS);
  }

  lemma EventFacts(l: Ledger, rates: Rates, i: nat)
    requires LedgerInv(l, rates) && i < |l.mints|
    requires l.mints[i].leg.source == NextEpochAdvance
    requires l.mints[i].leg.epochId.Some? && l.mints[i].leg.epochId.value < |l.epochs|
    ensures l.mints[i].leg.amount > 0
    ensures AdvancedUpTo(l.mints, i) >= l.mints[i].leg.amount
    ensures l.epochs[l.mints[i].leg.epochId.value].baseBudget >= 0
  {
    hide RatesLive, ReversalsOk, MetersOk, LayersOk, JournalOk, SupplyOk, OpeningsOk, EarnedOk, CapsOk;
    var leg := l.mints[i].leg;
    assert MintOk(l.mints[i], |l.epochs|, l.ledgerSeq, l.balances);
    var q := OfEpoch(leg.epochNumber, NextEpochAdvance);
    assert l.mints[..i + 1][..i] == l.mints[..i];
    assert forall k | 0 <= k < i :: MintOk(l.mints[k], |l.epochs|, l.ledgerSeq, l.balances);
    SumMintsNonNegative(l.mints[..i], q);
    var e := l.epochs[leg.epochId.value];
    assert EpochOk(e, leg.epochId.value + 1, leg.epochId.value + 1 == |l.epochs|);
    RateOfMonotone(e.openingSupply, e.openingSupply, e.inflationBps, e.inflationBps);
  }

  lemma {:induction false} SumMintsNonNegative(mints: seq<MintEvent>, q: Query)
    requires forall k | 0 <= k < |mints| :: mints[k].leg.amount > 0
    ensures SumMints(mints, q) >= 0
  {
    if mints != [] {
      SumMintsNonNegative(mints[..|mints| - 1], q);
    }
  }

  // ---- Single use ----

  /** Any two events of one contribution are the regular and the advance leg,
      in this order and adjacent, so there are never three. */
  lemma ContributionMintedOnce(v: Tables, i: nat, j: nat)
    requires Reachable(v) && i < j < |v.ledger.mints|
    requires v.ledger.mints[i].leg.contributionId.Some?
    requires v.ledger.mints[i].leg.contributionId == v.ledger.mints[j].leg.contributionId
    ensures j == i + 1
    ensures v.ledger.mints[i].leg.source == CurrentEpoch && v.ledger.mints[j].leg.source == NextEpochAdvance
    ensures v.ledger.mints[i].leg.member == v.ledger.mints[j].leg.member
    ensures v.ledger.mints[i].leg.epochNumber == v.ledger.mints[j].leg.epochNumber
  {
    hide Reachable, BoardOk, VersionsOk, PolicyOk, RequestsOk, AdvancesOk, RelatedLegOk, SharesAuthority;
    ReachableParts(v);
  }

  /** A call adds no event to a contribution that already has one. */
  lemma ContributionClosed(v: Tables, call: Call, cid: nat)
    requires Inv(v) && ContributionMinted(v.ledger.mints, cid)
    ensures var mints, mints' := v.ledger.mints, Apply(v, call).ledger.mints;
      && |mints| <= |mints'|
      && (forall i | 0 <= i < |mints| :: mints'[i].leg == mints[i].leg)
      && (forall i | |mints| <= i < |mints'| :: mints'[i].leg.contributionId != Some(cid))
  {
    hide Inv, Apply, LegShape, PostMint, PostMints, Stamp;
    CallLedgerStep(v, call);
    var l, l' := v.ledger, Apply(v, call).ledger;
    if legs :| Posted(v, l', legs, call) {
      PostedEvents(l, legs);
      forall i | |l.mints| <= i < |l'.mints|
        ensures l'.mints[i].leg.contributionId != Some(cid)
      {
        var k := i - |l.mints|;
        assert l'.mints[|l.mints| + k] == Stamp(PostMints(l, legs[..k]), legs[k]);
        StampedLeg(PostMints(l, legs[..k]), legs[k]);
      }
    }
  }

  lemma StampedLeg(l: Ledger, leg: Leg)
    ensures Stamp(l, leg).leg == leg
  {
  }

  lemma {:induction false} ContributionClosedAlong(v: Tables, calls: seq<Call>, cid: nat)
    requires Inv(v) && ContributionMinted(v.ledger.mints, cid)
    ensures Inv(Run(v, calls)) && ContributionMinted(Run(v, calls).ledger.mints, cid)
    ensures var mints, mints' := v.ledger.mints, Run(v, calls).ledger.mints;
      && |mints| <= |mints'|
      && (forall i | 0 <= i < |mints| :: mints'[i].leg == mints[i].leg)
      && (forall i | |mints| <= i < |mints'| :: mints'[i].leg.contributionId != Some(cid))
  {
    hide Inv, Apply, Extends;
    if calls != [] {
      var before := Run(v, calls[..|calls| - 1]);
      ContributionClosedAlong(v, calls[..|calls| - 1], cid);
      CallKeepsInv(before, calls[|calls| - 1]);
      ContributionClosed(before, calls[|calls| - 1], cid);
      var i :| 0 <= i < |before.ledger.mints| && before.ledger.mints[i].leg.contributionId == Some(cid);
      assert Run(v, calls).ledger.mints[i].leg.contributionId == Some(cid);
    }
  }

  /** The amounts of all events of one contribution. */
  function ContributionTotal(mints: seq<MintEvent>, cid: nat): int {
    if mints == [] then 0
    else
      var last := mints[|mints| - 1].leg;
      ContributionTotal(mints[..|mints| - 1], cid) + if last.contributionId == Some(cid) then last.amount else 0
  }

  /** Once a call has minted a contribution, no later call for it succeeds,
      whatever happens in between and whatever it is given; the contribution's
      events stay that call's one or two legs, of the approved amount together. */
  lemma ContributionMintedByOneCall(v: Tables, input: MintInput, contribution: Option<ContributionRow>,
                                    role: Option<Role>, calls: seq<Call>)
    requires Reachable(v) && MintForContribution(v, input, contribution, role).Success?
    ensures var v1 := Apply(v, MintCall(input, contribution, role));
      var v2 := Run(v1, calls);
      var first, mints := v1.ledger.mints, v2.ledger.mints;
      && |v.ledger.mints| < |first| <= |v.ledger.mints| + 2 && |first| <= |mints|
      && (forall i | 0 <= i < |mints| ::
            mints[i].leg.contributionId == Some(input.contributionId) <==> |v.ledger.mints| <= i < |first|)
      && (forall i | |v.ledger.mints| <= i < |first| :: mints[i].leg == first[i].leg)
      && contribution.Some?
      && contribution.value.approvedAmount == Some(ContributionTotal(mints, input.contributionId))
      && forall again: MintInput, row: Option<ContributionRow>, r: Option<Role> ::
           again.contributionId == input.contributionId ==> MintForContribution(v2, again, row, r).Failure?
  {
    hide Reachable, Inv, Run, MintForContribution;
    var cid := input.contributionId;
    var v1 := Apply(v, MintCall(input, contribution, role));
    var v2 := Run(v1, calls);
    var n, mints := |v.ledger.mints|, v2.ledger.mints;
    ContributionAmountMinted(v, input, contribution, role);
    WasNotMinted(v, input, contribution, role);
    ReachableInv(v);
    CallKeepsInv(v, MintCall(input, contribution, role));
    assert v1.ledger.mints[n].leg.contributionId == Some(cid);
    ContributionClosedAlong(v1, calls, cid);
    forall i | 0 <= i < |mints|
      ensures mints[i].leg.contributionId == Some(cid) <==> n <= i < |v1.ledger.mints|
    {
      if i < n {
        assert mints[i].leg == v1.ledger.mints[i].leg && v1.ledger.mints[..n][i] == v.ledger.mints[i];
      }
    }
    TotalIs(mints, v1.ledger.mints, n, cid);
    forall again: MintInput, row: Option<ContributionRow>, r: Option<Role>
      ensures again.contributionId == cid ==> MintForContribution(v2, again, row, r).Failure?
    {
      if again.contributionId == cid {
        MintedFails(v2, again, row, r);
      }
    }
  }

  lemma WasNotMinted(v: Tables, input: MintInput, contribution: Option<ContributionRow>, role: Option<Role>)
    requires MintForContribution(v, input, contribution, role).Success?
    ensures !ContributionMinted(v.ledger.mints, input.contributionId)
  {
    hide PostMints, LegsOf, ResolveSplit, ContributionAmount, ActiveEpoch;
  }

  lemma MintedFails(v: Tables, input: MintInput, contribution: Option<ContributionRow>, role: Option<Role>)
    requires ContributionMinted(v.ledger.mints, input.contributionId)
    ensures MintForContribution(v, input, contribution, role).Failure?
  {
    hide PostMints, LegsOf, ResolveSplit, ContributionAmount, ActiveEpoch;
  }

  /** The events of the contribution are those from n to the end of first. */
  lemma {:induction false} TotalIs(mints: seq<MintEvent>, first: seq<MintEvent>, n: nat, cid: nat)
    requires n <= |first| <= |mints|
    requires forall i | 0 <= i < |mints| :: mints[i].leg.contributionId == Some(cid) <==> n <= i < |first|
    requires forall i | n <= i < |first| :: mints[i].leg == first[i].leg
    ensures ContributionTotal(mints, cid) == AmountFrom(first, n)
  {
    if n < |mints| {
      var init := mints[..|mints| - 1];
      if |first| < |mints| {
        TotalIs(init, first, n, cid);
      } else {
        TotalIs(init, first[..|first| - 1], n, cid);
        AmountFromLast(first, n);
      }
    } else {
      NoneOf(mints, cid);
    }
  }

  lemma {:induction false} NoneOf(mints: seq<MintEvent>, cid: nat)
    requires forall i | 0 <= i < |mints| :: mints[i].leg.contributionId != Some(cid)
    ensures ContributionTotal(mints, cid) == 0
  {
    if mints != [] {
      NoneOf(mints[..|mints| - 1], cid);
    }
  }

  lemma {:induction false} AmountFromLast(mints: seq<MintEvent>, n: nat)
    requires n < |mints|
    ensures AmountFrom(mints, n) == AmountFrom(mints[..|mints| - 1], n) + mints[|mints| - 1].leg.amount
    decreases |mints| - n
  {
    if n + 1 < |mints| {
      AmountFromLast(mints, n + 1);
    }
  }

  /** One call mints exactly the approved amount, within the rule in force. */
  lemma ContributionAmountMinted(v: Tables, input: MintInput, contribution: Option<ContributionRow>, role: Option<Role>)
    requires Reachable(v) && MintForContribution(v, input, contribution, role).Success?
    ensures var v' := MintForContribution(v, input, contribution, role).value.0;
      var n := |v.ledger.mints|;
      && contribution.Some?
      && n < |v'.ledger.mints| <= n + 2
      && v'.ledger.mints[..n] == v.ledger.mints
      && (forall i | n <= i < |v'.ledger.mints| ::
            v'.ledger.mints[i].leg.contributionId == Some(input.contributionId)
            && v'.ledger.mints[i].leg.member == contribution.value.member)
      && contribution.value.approvedAmount == Some(AmountFrom(v'.ledger.mints, n))
      && RuleCeiling(v.policy.rules, contribution.value.ruleId).Some?
      && AmountFrom(v'.ledger.mints, n) <= RuleCeiling(v.policy.rules, contribution.value.ruleId).value
  {
    hide Reachable, Inv, ContributionOk, SplitOk, MintForContribution;
    ReachableInv(v);
    var epoch, amount, related, split := MintForContributionStep(v, input, contribution, role);
    RuleHolds(v, input, contribution, role);
    var m := contribution.value.member;
    SplitParts(v, epoch, amount, split);
    ContributionFacts(v, input, m, epoch, amount, related);
    LegsCounted(v, input, m, epoch, amount, related, split);
  }

  /** The amounts of the events from position n on. */
  function AmountFrom(mints: seq<MintEvent>, n: nat): int
    requires n <= |mints|
    decreases |mints| - n
  {
    if n == |mints| then 0 else mints[n].leg.amount + AmountFrom(mints, n + 1)
  }

  lemma LegsCounted(v: Tables, input: MintInput, m: Member, epoch: Epoch, amount: int, related: bool, split: Split)
    requires v.ledger.epochs != [] && amount > 0
    requires split.regular >= 0 && split.advance >= 0 && split.regular + split.advance == amount
    ensures var first := PartLeg(v, input, m, epoch, related, split, CurrentEpoch);
      var second := PartLeg(v, input, m, epoch, related, split, NextEpochAdvance);
      var v' := if split.advance == 0 then PostLeg(v, first)
                else if split.regular == 0 then PostLeg(v, second)
                else PostLeg(PostLeg(v, first), second);
      var n := |v.ledger.mints|;
      && n < |v'.ledger.mints| <= n + 2
      && v'.ledger.mints[..n] == v.ledger.mints
      && (forall i | n <= i < |v'.ledger.mints| ::
            v'.ledger.mints[i].leg.contributionId == Some(input.contributionId) && v'.ledger.mints[i].leg.member == m)
      && AmountFrom(v'.ledger.mints, n) == amount
  {
    var first := PartLeg(v, input, m, epoch, related, split, CurrentEpoch);
    var second := PartLeg(v, input, m, epoch, related, split, NextEpochAdvance);
    var n := |v.ledger.mints|;
    if split.advance > 0 && split.regular > 0 {
      var mints := PostLeg(PostLeg(v, first), second).ledger.mints;
      assert mints[n].leg == first && mints[n + 1].leg == second;
      assert AmountFrom(mints, n + 2) == 0;
      assert AmountFrom(mints, n + 1) == second.amount;
    }
  }

  lemma RuleHolds(v: Tables, input: MintInput, contribution: Option<ContributionRow>, role: Option<Role>)
    requires MintForContribution(v, input, contribution, role).Success?
    ensures contribution.Some?
    ensures var c := contribution.value;
      RuleCeiling(v.policy.rules, c.ruleId).Some?
      && c.approvedAmount.GetOr(0) <= RuleCeiling(v.policy.rules, c.ruleId).value
  {
    hide PostMints, LegsOf, MarkExecuted, ResolveSplit, RelatedPartyGate;
  }

  /** A related-party contribution leg had a second approver other than the
      approver, or a passed related_party_mint proposal for its member; and
      one such proposal serves one contribution only. */
  lemma RelatedPartyAuthority(v: Tables, i: nat, j: nat)
    requires Reachable(v) && i < |v.ledger.mints| && j < |v.ledger.mints|
    requires v.ledger.mints[i].leg.mintType == Contribution && v.ledger.mints[i].leg.relatedParty
    ensures var leg := v.ledger.mints[i].leg;
      if leg.proposalId.Some? then AuthorizesMember(v.proposals, leg.proposalId.value, leg.member)
      else leg.secondApprovedBy.Some? && leg.secondApprovedBy.value != leg.approvedBy
    ensures SharesAuthority(v.ledger.mints[i].leg, v.ledger.mints[j].leg) ==>
      v.ledger.mints[i].leg.contributionId == v.ledger.mints[j].leg.contributionId
  {
    hide Reachable, BoardOk, VersionsOk, PolicyOk, RequestsOk, AdvancesOk, AuthorizesMember;
    ReachableParts(v);
    assert RelatedLegOk(v.ledger.mints[i].leg, v.proposals);
  }

  // ---- Reversals ----

  /** A reversal that needs the community has a passed token_reversal proposal
      for its very mint. */
  ghost predicate ReversalBacked(r: ReversalEvent, mints: seq<MintEvent>, proposals: seq<Proposal>) {
    && r.mintId < |mints|
    && r.reason in REVERSAL_REASONS
    && (r.reason == "community_proposal" || mints[r.mintId].leg.relatedParty ==>
          r.proposalId.Some? && AuthorizesReversal(proposals, r.proposalId.value, r.mintId))
  }

  ghost predicate ReversalsBacked(v: Tables) {
    forall k | 0 <= k < |v.ledger.reversals| :: ReversalBacked(v.ledger.reversals[k], v.ledger.mints, v.proposals)
  }

  lemma BackingStays(r: ReversalEvent, v: Tables, v': Tables)
    requires ReversalBacked(r, v.ledger.mints, v.proposals) && Extends(v, v')
    ensures ReversalBacked(r, v'.ledger.mints, v'.proposals)
  {
    hide EpochsExtend, RequestsExtend, VotesExtend, SnapshotsExtend, BallotsFinal;
    assert MintKept(v.ledger.mints[r.mintId], v'.ledger.mints[r.mintId]);
    if r.proposalId.Some? && AuthorizesReversal(v.proposals, r.proposalId.value, r.mintId) {
      assert ProposalKept(v.proposals[r.proposalId.value], v'.proposals[r.proposalId.value]);
    }
  }

  lemma CallBacked(v: Tables, call: Call)
    requires Inv(v) && ReversalsBacked(v)
    ensures ReversalsBacked(Apply(v, call))
  {
    hide Inv, Apply, Extends, PostMints, ReversalBacked, AuthorizesReversal;
    var v' := Apply(v, call);
    CallKeepsInv(v, call);
    CallLedgerStep(v, call);
    if legs :| Posted(v, v'.ledger, legs, call) {
      PostsKeepReversals(v.ledger, legs);
    } else if mintId, amount, input :| Reversed(v, v'.ledger, mintId, amount, input) {
      var r := v'.ledger.reversals[|v.ledger.reversals|];
      NewlyBacked(v, v'.ledger, mintId, amount, input);
      BackingStays(r, v, v');
    }
    forall k | 0 <= k < |v.ledger.reversals|
      ensures ReversalBacked(v'.ledger.reversals[k], v'.ledger.mints, v'.proposals)
    {
      ReversalsGrow(v, v');
      BackingStays(v.ledger.reversals[k], v, v');
    }
  }

  lemma NewlyBacked(v: Tables, l': Ledger, mintId: nat, amount: int, input: ReversalInput)
    requires Reversed(v, l', mintId, amount, input)
    ensures |l'.reversals| == |v.ledger.reversals| + 1
    ensures ReversalBacked(l'.reversals[|v.ledger.reversals|], v.ledger.mints, v.proposals)
  {
    hide AuthorizesReversal;
  }

  lemma ReversalsGrow(v: Tables, v': Tables)
    requires Extends(v, v')
    ensures |v.ledger.reversals| <= |v'.ledger.reversals|
    ensures forall k | 0 <= k < |v.ledger.reversals| :: v'.ledger.reversals[k] == v.ledger.reversals[k]
  {
    hide MintsExtend, EpochsExtend, ProposalsExtend, RequestsExtend, VotesExtend, SnapshotsExtend, BallotsFinal;
    forall k | 0 <= k < |v.ledger.reversals|
      ensures v'.ledger.reversals[k] == v.ledger.reversals[k]
    {
      assert v'.ledger.reversals[..|v.ledger.reversals|][k] == v.ledger.reversals[k];
    }
  }

  lemma {:induction false} PostsKeepReversals(l: Ledger, legs: seq<Leg>)
    ensures PostMints(l, legs).reversals == l.reversals
  {
    if legs != [] {
      PostsKeepReversals(l, legs[..|legs| - 1]);
    }
  }

  lemma {:induction false} RunBacked(v: Tables, calls: seq<Call>)
    requires Inv(v) && ReversalsBacked(v)
    ensures Inv(Run(v, calls)) && ReversalsBacked(Run(v, calls))
  {
    hide Inv, Apply, ReversalsBacked, Extends;
    if calls != [] {
      var before := Run(v, calls[..|calls| - 1]);
      RunBacked(v, calls[..|calls| - 1]);
      CallKeepsInv(before, calls[|calls| - 1]);
      CallBacked(before, calls[|calls| - 1]);
    }
  }

  /** Every reversal on record takes at most its mint's amount from that mint's
      member, is the only one of its mint, has a legal reason, and where it is of
      a related-party mint, or made for the community, names a passed
      token_reversal proposal for that very mint. */
  lemma ReversalAuthority(v: Tables, k: nat)
    requires Reachable(v) && k < |v.ledger.reversals|
    ensures var r := v.ledger.reversals[k];
      && ReversalBacked(r, v.ledger.mints, v.proposals)
      && r.member == v.ledger.mints[r.mintId].leg.member
      && 0 < r.amount <= v.ledger.mints[r.mintId].leg.amount
      && forall j | 0 <= j < |v.ledger.reversals| && j != k :: v.ledger.reversals[j].mintId != r.mintId
  {
    hide Inv, ReversalBacked, LedgerInv;
    ReachableLedger(v);
    LedgerReversals(v.ledger, v.policy.rates);
    assert ReversalOk(v.ledger.reversals[k], v.ledger.mints, v.ledger.ledgerSeq);
    var rates, rules, calls :| RatesOk(rates) && v == Run(Initial(rates, rules), calls);
    InitialInv(rates, rules);
    RunBacked(Initial(rates, rules), calls);
  }

  lemma LedgerReversals(l: Ledger, rates: Rates)
    requires LedgerInv(l, rates)
    ensures ReversalsOk(l.mints, l.reversals, l.ledgerSeq)
  {
    hide EpochsOk, RatesLive, ReversalsOk, MetersOk, LayersOk, MintsOk;
    hide JournalOk, EarnedOk, CapsOk, OpeningsOk, SupplyOk;
  }

  // ---- Policy versions ----

  /** Each version carries its proposal's rules, or else those of the version
      before it, and no proposal made two versions. */
  ghost predicate VersionRulesOk(versions: seq<PolicyVersion>, proposals: seq<Proposal>) {
    && (versions != [] ==> versions[0].proposalId.None?)
    && (forall i: nat | 0 < i < |versions| :: VersionRuleOk(versions[i - 1], versions[i], proposals))
    && (forall i, j | 0 <= i < j < |versions| :: versions[i].proposalId != versions[j].proposalId)
  }

  ghost predicate VersionRuleOk(before: PolicyVersion, row: PolicyVersion, proposals: seq<Proposal>) {
    && row.proposalId.Some? && row.proposalId.value < |proposals|
    && proposals[row.proposalId.value].kind.TokenPolicyChange?
    && row.rules == proposals[row.proposalId.value].kind.rules.GetOr(before.rules)
  }

  lemma VersionStep(v: Tables, call: Call)
    requires Inv(v) && VersionRulesOk(v.versions, v.proposals)
    ensures VersionRulesOk(Apply(v, call).versions, Apply(v, call).proposals)
  {
    hide Inv, Apply, Extends;
    var v' := Apply(v, call);
    CallBoardStep(v, call);
    CallKeepsInv(v, call);
    KindsKept(v, v');
    forall i: nat | 0 < i < |v.versions|
      ensures VersionRuleOk(v'.versions[i - 1], v'.versions[i], v'.proposals)
    {
      assert VersionRuleOk(v.versions[i - 1], v.versions[i], v.proposals);
      assert v'.versions[..|v.versions|][i] == v.versions[i] && v'.versions[..|v.versions|][i - 1] == v.versions[i - 1];
    }
    if v'.versions != v.versions {
      LiveRules(v);
      OlderProposals(v, call.proposalId);
      var n := |v.versions|;
      assert v'.versions[..n][n - 1] == v.versions[n - 1] && v'.versions[..n][0] == v.versions[0];
      assert VersionRuleOk(v'.versions[n - 1], v'.versions[n], v'.proposals);
    }
  }

  lemma KindsKept(v: Tables, v': Tables)
    requires Extends(v, v')
    ensures |v.proposals| <= |v'.proposals|
    ensures forall pid: nat | pid < |v.proposals| :: v'.proposals[pid].kind == v.proposals[pid].kind
  {
    hide MintsExtend, EpochsExtend, RequestsExtend, VotesExtend, SnapshotsExtend, BallotsFinal;
    forall pid: nat | pid < |v.proposals|
      ensures v'.proposals[pid].kind == v.proposals[pid].kind
    {
      assert ProposalKept(v.proposals[pid], v'.proposals[pid]);
    }
  }

  /** With nothing pending the newest version is the live one. */
  lemma LiveRules(v: Tables)
    requires Inv(v) && v.policy.pendingVersionId.None?
    ensures v.versions != [] && v.policy.rules == v.versions[|v.versions| - 1].rules
  {
    hide LedgerInv, BoardOk, VersionsOk, RequestsOk, AdvancesOk, SingleUseOk;
  }

  /** A proposal that is still open has made no version. */
  lemma OlderProposals(v: Tables, pid: nat)
    requires Inv(v) && pid < |v.proposals| && v.proposals[pid].status == Open
    ensures forall i | 0 <= i < |v.versions| :: i > 0 ==> v.versions[i].proposalId != Some(pid)
  {
    hide LedgerInv, BoardOk, PolicyOk, RequestsOk, AdvancesOk, SingleUseOk;
    forall i: nat | i < |v.versions|
      ensures i > 0 ==> v.versions[i].proposalId != Some(pid)
    {
      assert VersionOk(v.versions[i], i, v.proposals);
    }
  }

  lemma {:induction false} VersionRulesAlong(v: Tables, calls: seq<Call>)
    requires Inv(v) && VersionRulesOk(v.versions, v.proposals)
    ensures Inv(Run(v, calls)) && VersionRulesOk(Run(v, calls).versions, Run(v, calls).proposals)
  {
    hide Inv, Apply, Extends, VersionRulesOk;
    if calls != [] {
      var before := Run(v, calls[..|calls| - 1]);
      VersionRulesAlong(v, calls[..|calls| - 1]);
      CallKeepsInv(before, calls[|calls| - 1]);
      VersionStep(before, calls[|calls| - 1]);
    }
  }

  lemma ReachableVersionRules(v: Tables)
    requires Reachable(v)
    ensures VersionRulesOk(v.versions, v.proposals)
  {
    hide Inv, Extends;
    var rates, rules, calls :| RatesOk(rates) && v == Run(Initial(rates, rules), calls);
    InitialInv(rates, rules);
    VersionRulesAlong(Initial(rates, rules), calls);
  }

  /** Versions are numbered without a gap, each after the first comes from a
      passed token_policy_change proposal with these very rates and with these
      rules (or the rules of the version before), no proposal makes two of
      them, and the live policy is the newest version but the one still waiting. */
  lemma VersionHistory(v: Tables, i: nat)
    requires Reachable(v) && i < |v.versions|
    ensures v.versions[i].version == i + 1
    ensures i > 0 ==>
      && v.versions[i].proposalId.Some? && v.versions[i].proposalId.value < |v.proposals|
      && Passed(v.proposals[v.versions[i].proposalId.value])
      && v.proposals[v.versions[i].proposalId.value].kind.TokenPolicyChange?
      && v.proposals[v.versions[i].proposalId.value].kind.rates == v.versions[i].rates
      && v.versions[i].rules == v.proposals[v.versions[i].proposalId.value].kind.rules.GetOr(v.versions[i - 1].rules)
    ensures forall j | 0 <= j < |v.versions| && j != i :: v.versions[j].proposalId != v.versions[i].proposalId
    ensures 1 <= v.policy.version <= |v.versions|
    ensures v.policy.rates == v.versions[v.policy.version - 1].rates
    ensures v.policy.rules == v.versions[v.policy.version - 1].rules
    ensures v.policy.pendingVersionId.None? <==> v.policy.version == |v.versions|
    ensures v.policy.pendingVersionId.Some? ==>
      v.policy.pendingVersionId.value == |v.versions| - 1
      && v.policy.pendingEffectiveEpoch == Some(|v.ledger.epochs| + 1)
  {
    hide Reachable, BoardOk, RequestsOk, AdvancesOk, SingleUseOk, Passed;
    ReachableParts(v);
    assert VersionOk(v.versions[i], i, v.proposals);
    ReachableVersionRules(v);
    if i > 0 {
      assert VersionRuleOk(v.versions[i - 1], v.versions[i], v.proposals);
    }
  }
}
