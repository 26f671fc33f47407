/** What every reachable ledger satisfies. */
module LedgerTheorems {
  import opened Wrappers
  import opened Types
  import opened Calc
  import opened Sums
  import opened LedgerSteps
  import opened Journals
  import opened LedgerInvariant
  import opened AdvanceRules
  import opened MintRules
  import opened ReversalRules
  import opened EpochRules
  import opened Invariant
  import opened History
  import opened ServiceInvariants
  import opened Runs
  import PolicyRules

  lemma ReachableLedger(v: Tables)
    requires Reachable(v)
    ensures LedgerInv(v.ledger, v.policy.rates)
  {
    hide Inv, LedgerInv, Reachable;
    ReachableInv(v);
    LedgerOfInv(v);
  }

  // ---- Replay ----

  /** The journal holds every event once and nothing else, each at its own
      sequence number, and folding it from zero gives the stamps, the supply
      and the totals. */
  lemma LedgerReplays(v: Tables)
    requires Reachable(v)
    ensures var j := Journal(v.ledger.mints, v.ledger.reversals);
      && |j| == v.ledger.ledgerSeq == |v.ledger.mints| + |v.ledger.reversals|
      && multiset(j) == multiset(MintPostings(v.ledger.mints)) + multiset(ReversalPostings(v.ledger.reversals))
      && Replays(j)
      && (forall i | 0 <= i < |v.ledger.mints| ::
            && 1 <= v.ledger.mints[i].ledgerSeq <= |j|
            && j[v.ledger.mints[i].ledgerSeq - 1] == MintPosting(v.ledger.mints[i]))
      && (forall k | 0 <= k < |v.ledger.reversals| ::
            && 1 <= v.ledger.reversals[k].ledgerSeq <= |j|
            && j[v.ledger.reversals[k].ledgerSeq - 1] == ReversalPosting(v.ledger.reversals[k]))
      && SupplyOf(j) == v.ledger.supply
      && forall m: Member :: TotalOf(j, m) == Row(v.ledger.balances, m).total
  {
    hide Reachable, LedgerInv, Merge, Replays;
    ReachableLedger(v);
    LedgerJournal(v.ledger, v.policy.rates);
    var a, b := MintPostings(v.ledger.mints), ReversalPostings(v.ledger.reversals);
    MergeKeepsAll(a, b);
    EntriesPlaced(a, b);
  }

  lemma EntriesPlaced(a: seq<Posting>, b: seq<Posting>)
    requires Replays(Merge(a, b))
    ensures var j := Merge(a, b);
      && (forall i | 0 <= i < |a| :: 1 <= a[i].seqNo <= |j| && j[a[i].seqNo - 1] == a[i])
      && (forall i | 0 <= i < |b| :: 1 <= b[i].seqNo <= |j| && j[b[i].seqNo - 1] == b[i])
  {
    hide Merge, Replays;
    var j := Merge(a, b);
    MergeKeepsAll(a, b);
    forall i | 0 <= i < |a|
      ensures 1 <= a[i].seqNo <= |j| && j[a[i].seqNo - 1] == a[i]
    {
      assert a[i] in multiset(a);
      EntryAtItsNumber(j, a[i]);
    }
    forall i | 0 <= i < |b|
      ensures 1 <= b[i].seqNo <= |j| && j[b[i].seqNo - 1] == b[i]
    {
      assert b[i] in multiset(b);
      EntryAtItsNumber(j, b[i]);
    }
  }

  lemma LedgerJournal(l: Ledger, rates: Rates)
    requires LedgerInv(l, rates)
    ensures JournalMatches(Journal(l.mints, l.reversals), l.ledgerSeq, l.supply, l.balances)
  {
    hide EpochsOk, RatesLive, MintsOk, ReversalsOk, MetersOk, LayersOk, EarnedOk, CapsOk, JournalMatches, SupplyOk;
  }

  lemma EntryAtItsNumber(j: seq<Posting>, p: Posting)
    requires Replays(j) && p in multiset(j)
    ensures 1 <= p.seqNo <= |j| && j[p.seqNo - 1] == p
  {
    var k :| 0 <= k < |j| && j[k] == p;
    assert Continues(j[..k], j[k]);
  }

  // ---- Two governance layers ----

  /** Per member, the balance columns equal the event statuses net of
      reversals, and what is pending activates at the very next rollover. */
  lemma TwoLayersAgree(v: Tables, m: Member)
    requires Reachable(v)
    ensures var b := Row(v.ledger.balances, m);
      && b.active == Layer(v.ledger.mints, v.ledger.reversals, m, Effective) >= 0
      && b.pending == Layer(v.ledger.mints, v.ledger.reversals, m, Pending) >= 0
      && b.total == b.active + b.pending
    ensures forall i | 0 <= i < |v.ledger.mints| && v.ledger.mints[i].status == Pending ::
      v.ledger.mints[i].activationEpoch == Some(|v.ledger.epochs| + 1)
  {
    hide Reachable, LedgerInv;
    ReachableLedger(v);
    BalancesNonNegative(v.ledger, v.policy.rates);
    LedgerLayers(v.ledger, v.policy.rates, m);
  }

  lemma LedgerLayers(l: Ledger, rates: Rates, m: Member)
    requires LedgerInv(l, rates)
    ensures LayerOk(Row(l.balances, m), l.mints, l.reversals, m)
    ensures forall i | 0 <= i < |l.mints| && l.mints[i].status == Pending ::
      l.mints[i].activationEpoch == Some(|l.epochs| + 1)
  {
    hide EpochsOk, RatesLive, ReversalsOk, MetersOk, EarnedOk, CapsOk, JournalOk, SupplyOk, OpeningsOk;
    forall i | 0 <= i < |l.mints| && l.mints[i].status == Pending
      ensures l.mints[i].activationEpoch == Some(|l.epochs| + 1)
    {
      assert MintOk(l.mints[i], |l.epochs|, l.ledgerSeq, l.balances);
    }
  }

  // ---- Reversal never hits a negative balance ----

  /** A reversal succeeds exactly when it is asked for properly; in particular
      the "would drive a balance negative" branch is never taken. */
  lemma ReversalSucceedsIff(v: Tables, input: ReversalInput)
    requires Reachable(v)
    ensures ReverseMint(v, input) != Failure(Conflict)
    ensures ReverseMint(v, input).Success? <==>
      && input.reason in REVERSAL_REASONS
      && input.mintId < |v.ledger.mints|
      && !IsReversed(v.ledger.reversals, input.mintId)
      && 0 < input.amount.GetOr(v.ledger.mints[input.mintId].leg.amount) <= v.ledger.mints[input.mintId].leg.amount
      && (input.reason == "community_proposal" || v.ledger.mints[input.mintId].leg.relatedParty ==>
            input.proposalId.Some? && AuthorizesReversal(v.proposals, input.proposalId.value, input.mintId))
  {
    hide Reachable, LedgerInv, AuthorizesReversal, IsReversed;
    ReachableLedger(v);
    if input.mintId < |v.ledger.mints| {
      MemberHasRow(v.ledger, v.policy.rates, input.mintId);
      var amount := input.amount.GetOr(v.ledger.mints[input.mintId].leg.amount);
      if !IsReversed(v.ledger.reversals, input.mintId) && 0 < amount <= v.ledger.mints[input.mintId].leg.amount {
        ReversalIsCovered(v.ledger, v.policy.rates, input.mintId, amount);
      }
    }
  }

  /** Reversing a mint in full takes back its tokens and its governance power,
      from the layer they are in by then: whether or not the epoch rolled over
      in between, supply and every member's columns are what they would be had
      the mint not happened. The epoch meter and the member's earnings are not
      given back. */
  lemma ReversalUndoesMint(l: Ledger, leg: Leg, m: Member, rolled: bool, id: nat, bps: int, debt: int, budget: Budget)
    requires leg.amount > 0 && Row(l.balances, leg.member).pending >= 0
    requires id < |l.epochs| && leg.epochNumber == l.epochs[id].number && leg.epochId == Some(id)
    ensures id < |PostMint(l, leg).epochs| && PostMint(l, leg).epochs[id].number == l.epochs[id].number
    ensures var posted := PostMint(l, leg);
      var without := if rolled then Roll(l, id, bps, debt, budget) else l;
      var between := if rolled then Roll(posted, id, bps, debt, budget) else posted;
      && |l.mints| < |between.mints|
      && var after := PostReversal(between, |l.mints|, leg.amount, "entry_error", "admin", None);
      && after.supply == without.supply
      && Row(after.balances, m).total == Row(without.balances, m).total
      && Row(after.balances, m).active == Row(without.balances, m).active
      && Row(after.balances, m).pending == Row(without.balances, m).pending
      && Row(after.balances, m).earnedEpoch == Row(between.balances, m).earnedEpoch
      && after.epochs == between.epochs
  {
    var posted := PostMint(l, leg);
    if rolled {
      assert posted.mints[|l.mints|] == Stamp(l, leg);
      assert Roll(posted, id, bps, debt, budget).mints[|l.mints|] == RollMint(Stamp(l, leg), l.epochs[id].number + 1);
    }
  }

  lemma MemberHasRow(l: Ledger, rates: Rates, i: nat)
    requires LedgerInv(l, rates) && i < |l.mints|
    ensures l.mints[i].leg.member in l.balances
  {
    hide EpochsOk, RatesLive, ReversalsOk, MetersOk, LayersOk, EarnedOk, CapsOk, JournalOk, SupplyOk, OpeningsOk;
    assert MintOk(l.mints[i], |l.epochs|, l.ledgerSeq, l.balances);
  }

  // ---- Meters and caps ----

  /** The running epoch's meter of a member is that member's current-budget
      events of the epoch, and it is under the cap of the live rates. */
  lemma MemberUnderCap(v: Tables, m: Member)
    requires Reachable(v) && v.ledger.epochs != []
    ensures var earned := Row(v.ledger.balances, m).earnedEpoch;
      && earned == SumMints(v.ledger.mints, OfMember(m, |v.ledger.epochs|))
      && earned <= v.ledger.epochs[|v.ledger.epochs| - 1].baseBudget * v.policy.rates.memberCapBps / BPS
  {
    hide Reachable, LedgerInv;
    ReachableLedger(v);
    LedgerCaps(v.ledger, v.policy.rates, m);
  }

  lemma LedgerCaps(l: Ledger, rates: Rates, m: Member)
    requires LedgerInv(l, rates) && l.epochs != []
    ensures EarnedRowOk(Row(l.balances, m), l.mints, l.reversals, m, |l.epochs|)
    ensures Row(l.balances, m).earnedEpoch <= CapOf(l.epochs[|l.epochs| - 1], rates)
  {
    hide EpochsOk, RatesLive, ReversalsOk, MetersOk, LayersOk, MintsOk, JournalOk, SupplyOk, OpeningsOk;
  }

  /** Both meters of every epoch, open or closed, are what its events add up
      to, and both stay within the budgets the epoch opened with. */
  lemma MetersMatchEvents(v: Tables, i: nat)
    requires Reachable(v) && i < |v.ledger.epochs|
    ensures var e := v.ledger.epochs[i];
      && e.regularMinted == SumMints(v.ledger.mints, OfEpoch(i + 1, CurrentEpoch))
      && e.advancedMinted == SumMints(v.ledger.mints, OfEpoch(i + 1, NextEpochAdvance))
      && 0 <= e.regularMinted <= e.effectiveBudget
      && 0 <= e.advancedMinted <= e.maxAdvance
      && (e.status == Closed ==> e.unusedBudget == e.effectiveBudget - e.regularMinted)
  {
    hide Reachable, LedgerInv, SumMints;
    ReachableLedger(v);
    LedgerMeters(v.ledger, v.policy.rates);
    assert EpochOk(v.ledger.epochs[i], i + 1, i + 1 == |v.ledger.epochs|);
  }

  lemma LedgerMeters(l: Ledger, rates: Rates)
    requires LedgerInv(l, rates)
    ensures EpochsOk(l.epochs) && MetersOk(l.epochs, l.mints)
  {
    hide RatesLive, EpochsOk, ReversalsOk, MetersOk, LayersOk, MintsOk;
    hide JournalOk, EarnedOk, CapsOk, OpeningsOk, SupplyOk;
    hide RatesOk;
  }

  /** Once the split is planned, the regular-meter guard cannot fail: the
      INSUFFICIENT_BUDGET error means the budget was short and no advance
      request was offered. */
  lemma RegularGuardNeverFails(v: Tables, input: MintInput, contribution: Option<ContributionRow>, role: Option<Role>)
    requires Reachable(v)
    ensures MintForContribution(v, input, contribution, role) == Failure(InsufficientBudget) ==>
      && contribution.Some? && v.ledger.epochs != []
      && var epoch := v.ledger.epochs[|v.ledger.epochs| - 1];
      && contribution.value.approvedAmount.GetOr(0) > epoch.effectiveBudget - epoch.regularMinted
      && input.advanceRequestId.None?
  {
    hide Reachable, Inv, PostMints, LegsOf, MarkExecuted, EpochOk, Passed, AuthorizesMember;
    ReachableInv(v);
    LastEpoch(v);
    if v.ledger.epochs != [] {
      EpochFacts(v.ledger.epochs[|v.ledger.epochs| - 1], |v.ledger.epochs|);
    }
  }

  // ---- Supply ----

  /** Supply is genesis plus every epoch's two meters, less what was reversed;
      it is also what the balances sum to. */
  lemma SupplyConserved(v: Tables)
    requires Reachable(v)
    ensures v.ledger.supply
      == SumMints(v.ledger.mints, Genesis) + MeterTotal(v.ledger.epochs) - ReversedTotal(v.ledger.reversals)
    ensures v.ledger.supply == SumMap(Totals(v.ledger.balances)) >= 0
  {
    hide Reachable, LedgerInv;
    ReachableLedger(v);
    BalancesNonNegative(v.ledger, v.policy.rates);
    LedgerSupply(v.ledger, v.policy.rates);
  }

  lemma LedgerSupply(l: Ledger, rates: Rates)
    requires LedgerInv(l, rates)
    ensures SupplyOk(l)
  {
    hide EpochsOk, RatesLive, ReversalsOk, MetersOk, LayersOk, MintsOk;
    hide JournalOk, EarnedOk, CapsOk, OpeningsOk, SupplyOk;
  }

  lemma {:induction false} MeterTotalFrozen(a: seq<Epoch>, b: seq<Epoch>)
    requires a != [] && |a| == |b|
    requires forall i | 0 <= i < |a| - 1 :: a[i] == b[i]
    ensures MeterTotal(b) - MeterTotal(a)
      == b[|b| - 1].regularMinted + b[|b| - 1].advancedMinted - a[|a| - 1].regularMinted - a[|a| - 1].advancedMinted
  {
    assert a[..|a| - 1] == b[..|b| - 1];
  }

  /** From the opening of an epoch to its close: the next opening supply is
      this one's plus both meters, plus what genesis allocated meanwhile, less
      what was reversed meanwhile. */
  lemma OpeningSupplyLaw(v: Tables, calls: seq<Call>)
    requires Reachable(v) && v.ledger.epochs != []
    requires var e := v.ledger.epochs[|v.ledger.epochs| - 1];
      e.regularMinted == 0 && e.advancedMinted == 0 && e.openingSupply == v.ledger.supply
    requires |Run(v, calls).ledger.epochs| == |v.ledger.epochs|
    ensures var v' := Run(v, calls);
      var n := |v.ledger.epochs|;
      var e := v'.ledger.epochs[n - 1];
      && CloseEpoch(v', n - 1).Success?
      && var next := CloseEpoch(v', n - 1).value.0.ledger.epochs;
      && |next| == n + 1
      && next[n].openingSupply == e.openingSupply + e.regularMinted + e.advancedMinted
           + (SumMints(v'.ledger.mints, Genesis) - SumMints(v.ledger.mints, Genesis))
           - (ReversedTotal(v'.ledger.reversals) - ReversedTotal(v.ledger.reversals))
  {
    hide Reachable, Inv, Extends, SumMints, ReversedTotal, MeterTotal, CloseEpoch, Run, Totals, SumMap;
    var v' := Run(v, calls);
    ReachableInv(v);
    RunKeepsInv(v, calls);
    ReachableOnward(v, calls);
    SupplyConserved(v);
    SupplyConserved(v');
    ClosedEpochsFrozen(v, v');
    MeterTotalFrozen(v.ledger.epochs, v'.ledger.epochs);
    RolloverSucceeds(v');
  }

  lemma ClosedEpochsFrozen(v: Tables, v': Tables)
    requires Inv(v) && Extends(v, v')
    ensures |v.ledger.epochs| <= |v'.ledger.epochs|
    ensures forall i | 0 <= i < |v.ledger.epochs| - 1 :: v'.ledger.epochs[i] == v.ledger.epochs[i]
    ensures v.ledger.epochs != [] ==>
      v'.ledger.epochs[|v.ledger.epochs| - 1].openingSupply == v.ledger.epochs[|v.ledger.epochs| - 1].openingSupply
  {
    hide BoardOk, VersionsOk, RequestsOk, AdvancesOk, SingleUseOk, PolicyOk;
    hide RatesLive, ReversalsOk, MetersOk, LayersOk, MintsOk, JournalOk, EarnedOk, CapsOk, OpeningsOk, SupplyOk;
    forall i | 0 <= i < |v.ledger.epochs| - 1
      ensures v'.ledger.epochs[i] == v.ledger.epochs[i]
    {
      assert EpochOk(v.ledger.epochs[i], i + 1, false);
      assert EpochKept(v.ledger.epochs[i], v'.ledger.epochs[i]);
    }
    if v.ledger.epochs != [] {
      assert EpochKept(v.ledger.epochs[|v.ledger.epochs| - 1], v'.ledger.epochs[|v.ledger.epochs| - 1]);
    }
  }

  // ---- The epoch chain ----

  /** Epochs are numbered 1..n and exactly the last is active. */
  lemma EpochChain(v: Tables, i: nat)
    requires Reachable(v) && i < |v.ledger.epochs|
    ensures v.ledger.epochs[i].number == i + 1
    ensures v.ledger.epochs[i].status == Active <==> i == |v.ledger.epochs| - 1
    ensures v.ledger.epochs[i].status == Closed <==> i < |v.ledger.epochs| - 1
  {
    hide Reachable, LedgerInv;
    ReachableLedger(v);
    LedgerEpochs(v.ledger, v.policy.rates);
  }

  lemma LedgerEpochs(l: Ledger, rates: Rates)
    requires LedgerInv(l, rates)
    ensures EpochsOk(l.epochs) && RatesLive(l.epochs, rates) && RatesOk(rates) && OpeningsOk(l)
  {
    hide RatesLive, EpochsOk, ReversalsOk, MetersOk, LayersOk, MintsOk;
    hide JournalOk, EarnedOk, CapsOk, OpeningsOk, SupplyOk;
    hide RatesOk;
  }

  /** The rollover of the active epoch always succeeds, opens the next number
      at the current supply, and carries exactly the debt that is left. */
  lemma RolloverSucceeds(v: Tables)
    requires Inv(v) && v.ledger.epochs != []
    ensures var n := |v.ledger.epochs|;
      && CloseEpoch(v, n - 1).Success?
      && CloseEpoch(v, n - 1).value.1 == RolledTo(n)
      && var v' := CloseEpoch(v, n - 1).value.0;
      && |v'.ledger.epochs| == n + 1
      && v'.ledger.epochs[n].number == n + 1
      && v'.ledger.epochs[n].openingSupply == v.ledger.supply
      && v'.ledger.epochs[n].debt == DebtAfter(v.ledger.epochs[n - 1])
      && v'.policy.pendingVersionId == None && v'.policy.version == |v.versions|
  {
    hide LedgerInv, BoardOk, RequestsOk, AdvancesOk, SingleUseOk, EpochOk, PolicyOk, VersionsOk;
    var l := v.ledger;
    var n := |l.epochs|;
    LastEpoch(v);
    EpochFacts(l.epochs[n - 1], n);
    LedgerEpochs(l, v.policy.rates);
    BalancesNonNegative(l, v.policy.rates);
    ActivateVersionOk(v, n + 1);
    var rates := PolicyRules.ActivatePendingVersion(v, n + 1).value.policy.rates;
    RateOfMonotone(l.supply, l.supply, rates.inflationBps, rates.inflationBps);
    forall i | 0 <= i < n
      ensures l.epochs[i].number != n + 1
    {
      assert EpochOk(l.epochs[i], i + 1, i + 1 == n);
      EpochNumber(l.epochs[i], i + 1, i + 1 == n);
    }
    assert !NumberExists(l.epochs, n + 1);
  }

  lemma EpochNumber(e: Epoch, number: int, last: bool)
    requires EpochOk(e, number, last)
    ensures e.number == number
  {
  }

  /** Closing an epoch that was closed, whatever was called in between, changes
      nothing. */
  lemma ClosingTwiceIsOnce(v: Tables, id: nat, calls: seq<Call>)
    requires Reachable(v) && CloseEpoch(v, id).Success?
    ensures var v' := Run(Apply(v, CloseCall(id)), calls);
      CloseEpoch(v', id) == Success((v', AlreadyClosed))
  {
    hide Reachable, Inv, Extends, Run;
    ReachableInv(v);
    CallKeepsInv(v, CloseCall(id));
    var v1 := Apply(v, CloseCall(id));
    ClosedByClose(v, id);
    RunKeepsInv(v1, calls);
    ClosedStays(v1, Run(v1, calls), id);
  }

  lemma ClosedByClose(v: Tables, id: nat)
    requires CloseEpoch(v, id).Success?
    ensures var l := CloseEpoch(v, id).value.0.ledger;
      id < |l.epochs| && l.epochs[id].status == Closed
  {
  }

  lemma ClosedStays(v: Tables, v': Tables, id: nat)
    requires Extends(v, v') && id < |v.ledger.epochs| && v.ledger.epochs[id].status == Closed
    ensures id < |v'.ledger.epochs| && v'.ledger.epochs[id] == v.ledger.epochs[id]
  {
    hide MintsExtend, ProposalsExtend, RequestsExtend, VotesExtend, SnapshotsExtend, BallotsFinal;
    assert EpochKept(v.ledger.epochs[id], v'.ledger.epochs[id]);
  }

  /** After the first epoch exists, bootstrapping is a no-op. */
  lemma BootstrapOnce(v: Tables)
    requires Reachable(v) && v.ledger.epochs != []
    ensures CreateNextEpoch(v) == Success((v, BootstrapOutcome(|v.ledger.epochs| - 1, false)))
  {
    hide Reachable, Inv;
    ReachableInv(v);
    LastEpoch(v);
  }

  /** The budgets of the active epoch are what the live rates derive. */
  lemma ActiveBudgetsFromLiveRates(v: Tables)
    requires Reachable(v) && v.ledger.epochs != []
    ensures var e := v.ledger.epochs[|v.ledger.epochs| - 1];
      DeriveBudget(e.openingSupply, e.debt, v.policy.rates)
      == Success(Budget(e.baseBudget, e.effectiveBudget, e.maxAdvance))
  {
    hide Reachable, LedgerInv;
    ReachableLedger(v);
    LedgerEpochs(v.ledger, v.policy.rates);
    var e := v.ledger.epochs[|v.ledger.epochs| - 1];
    assert EpochOk(e, |v.ledger.epochs|, true);
    RateOfMonotone(e.openingSupply, e.openingSupply, e.inflationBps, e.inflationBps);
  }
}
