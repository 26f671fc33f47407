/** Three limits the engine is said to keep, and exactly when it keeps them: a
    quarter of the base for advances, the member cap for all that a member is
    minted, the promised initial supply for genesis. */
module CapTheorems {
  import opened Wrappers
  import opened Types
  import opened Calc
  import opened Sums
  import opened LedgerSteps
  import opened LedgerInvariant
  import opened AdvanceRules
  import opened MintRules
  import opened Invariant
  import opened ServiceInvariants
  import opened Runs
  import opened LedgerTheorems
  import opened GovernanceTheorems
  import opened DebtTheorems

  // ---- A quarter of the base ----

  /** What the floored rate check and the meter guard let an epoch advance. */
  ghost predicate Advanceable(a: int, base: int, maxAdvance: int) {
    0 <= a <= maxAdvance && a * BPS < (HARD_CAP_BPS + 1) * base
  }

  ghost predicate KeepsQuarter(base: int, maxAdvance: int) {
    forall a | Advanceable(a, base, maxAdvance) :: 4 * a <= base
  }

  /** The smallest amount over a quarter is what the floored check would have
      to refuse. */
  ghost predicate FloorIsExact(base: int) {
    (base / 4 + 1) * BPS >= (HARD_CAP_BPS + 1) * base
  }

  /** The two checks keep advances within a quarter of the base exactly when
      the epoch's maximum is, or the base is too small for the flooring to
      matter. */
  lemma QuarterIff(base: int, maxAdvance: int)
    requires base >= 0
    ensures KeepsQuarter(base, maxAdvance) <==> 4 * maxAdvance <= base || FloorIsExact(base)
  {
    var least := base / 4 + 1;
    if 4 * maxAdvance > base && !FloorIsExact(base) {
      assert Advanceable(least, base, maxAdvance) && 4 * least > base;
    }
  }

  /** The same in terms of the rate the epoch was opened with. */
  lemma QuarterByRateIff(base: int, maxAdvanceBps: int)
    requires base >= 0 && 0 <= maxAdvanceBps <= BPS
    ensures KeepsQuarter(base, base * maxAdvanceBps / BPS) <==> maxAdvanceBps <= HARD_CAP_BPS || FloorIsExact(base)
  {
    var maxAdvance := base * maxAdvanceBps / BPS;
    QuarterIff(base, maxAdvance);
    if maxAdvanceBps <= HARD_CAP_BPS {
      MulMonotone(maxAdvanceBps, HARD_CAP_BPS, base);
    } else if !FloorIsExact(base) {
      MulMonotone(HARD_CAP_BPS + 1, maxAdvanceBps, base);
      assert base * maxAdvanceBps > (base / 4 + 1) * BPS;
    }
  }

  /** So under that condition on its opening columns no reachable epoch has
      advanced more than a quarter of its base. */
  lemma AdvancedWithinQuarter(v: Tables, i: nat)
    requires Reachable(v) && i < |v.ledger.epochs|
    ensures var e := v.ledger.epochs[i];
      4 * e.maxAdvance <= e.baseBudget || FloorIsExact(e.baseBudget) ==> 4 * e.advancedMinted <= e.baseBudget
  {
    hide Reachable, SumMints, FloorIsExact;
    var e := v.ledger.epochs[i];
    MetersMatchEvents(v, i);
    BaseIsNat(v, i);
    QuarterIff(e.baseBudget, e.maxAdvance);
    if e.advancedMinted > 0 {
      AdvanceWithinCaps(v, i);
      assert Advanceable(e.advancedMinted, e.baseBudget, e.maxAdvance);
    }
  }

  lemma BaseIsNat(v: Tables, i: nat)
    requires Reachable(v) && i < |v.ledger.epochs|
    ensures v.ledger.epochs[i].baseBudget >= 0
  {
    hide Reachable, LedgerInv, EpochsOk, RatesLive, RatesOk, OpeningsOk;
    ReachableLedger(v);
    LedgerEpochs(v.ledger, v.policy.rates);
    BaseNotNegative(v.ledger.epochs, i);
  }

  /** In particular the active epoch, while the live maximum rate is at most
      2500 bps. */
  lemma QuarterAtLiveRate(v: Tables)
    requires Reachable(v) && v.ledger.epochs != [] && v.policy.rates.maxAdvanceBps <= HARD_CAP_BPS
    ensures var e := v.ledger.epochs[|v.ledger.epochs| - 1];
      4 * e.advancedMinted <= e.baseBudget
  {
    hide Reachable, LedgerInv, EpochsOk, OpeningsOk, FloorIsExact, KeepsQuarter;
    var n := |v.ledger.epochs|;
    var e := v.ledger.epochs[n - 1];
    ReachableLedger(v);
    LedgerEpochs(v.ledger, v.policy.rates);
    BaseIsNat(v, n - 1);
    MulMonotone(v.policy.rates.maxAdvanceBps, HARD_CAP_BPS, e.baseBudget);
    assert 4 * e.maxAdvance <= e.baseBudget;
    AdvancedWithinQuarter(v, n - 1);
  }

  // ---- All that a member is minted in an epoch ----

  /** Regular and advance events of the epoch alike. */
  function MintedTo(mints: seq<MintEvent>, m: Member, number: int): int {
    SumMints(mints, OfMember(m, number)) + SumMints(mints, AdvancedTo(m, number))
  }

  /** The cap check reads the regular meter only. After a contribution mint all
      that the member was minted in the epoch is within the cap exactly when
      the member's earlier advances leave room for the amount. */
  lemma WithinCapAfterMintIff(v: Tables, input: MintInput, contribution: Option<ContributionRow>, role: Option<Role>)
    requires Reachable(v) && MintForContribution(v, input, contribution, role).Success?
    ensures v.ledger.epochs != [] && contribution.Some? && contribution.value.approvedAmount.Some?
    ensures var v' := MintForContribution(v, input, contribution, role).value.0;
      var n := |v.ledger.epochs|;
      var m, amount := contribution.value.member, contribution.value.approvedAmount.value;
      var cap := CapOf(v.ledger.epochs[n - 1], v.policy.rates);
      && MintedTo(v'.ledger.mints, m, n) == MintedTo(v.ledger.mints, m, n) + amount
      && (MintedTo(v'.ledger.mints, m, n) <= cap
          <==> SumMints(v.ledger.mints, AdvancedTo(m, n)) <= cap - Row(v.ledger.balances, m).earnedEpoch - amount)
  {
    hide Reachable, Inv, ContributionOk, SplitOk, MintForContribution, SumMints;
    ReachableInv(v);
    var epoch, amount, related, split := MintForContributionStep(v, input, contribution, role);
    SplitParts(v, epoch, amount, split);
    var m := contribution.value.member;
    ContributionFacts(v, input, m, epoch, amount, related);
    EpochOfMint(v, input, m, epoch, amount, related);
    MemberUnderCap(v, m);
    PartsMinted(v, input, m, epoch, amount, related, split);
  }

  /** Executing an advance request reads the cap nowhere. All that the member was
      minted in the epoch rises by the amount and is within the cap exactly when
      meter and earlier advances leave room for it. */
  lemma WithinCapAfterExecuteIff(v: Tables, rid: nat)
    requires Reachable(v) && Execute(v, rid).Success? && v.requests[rid].status == Approved
    ensures v.ledger.epochs != []
    ensures var v' := Execute(v, rid).value.0;
      var n := |v.ledger.epochs|;
      var m, amount := v.requests[rid].member, AmountOf(v.requests[rid]);
      var cap := CapOf(v.ledger.epochs[n - 1], v.policy.rates);
      && MintedTo(v'.ledger.mints, m, n) == MintedTo(v.ledger.mints, m, n) + amount
      && (MintedTo(v'.ledger.mints, m, n) <= cap
          <==> amount <= cap - Row(v.ledger.balances, m).earnedEpoch - SumMints(v.ledger.mints, AdvancedTo(m, n)))
  {
    hide Reachable, Inv, ExecuteLocked, LegAllowed, SumMints, PostLeg;
    ReachableInv(v);
    ExecutedIffMinted(v, rid);
    var req := v.requests[rid];
    ExecuteLockedStep(v, rid, req);
    var leg := AdvanceLeg(req, rid, v.ledger.epochs[req.epochId], AmountOf(req), v.policy.version);
    AdmittedNow(v, leg);
    MintedToPost(v, leg);
    MemberUnderCap(v, req.member);
  }

  lemma AdmittedNow(v: Tables, leg: Leg)
    requires LegAllowed(v, leg) && leg.mintType == SpecialReward
    ensures v.ledger.epochs != [] && leg.epochNumber == |v.ledger.epochs|
  {
  }

  lemma EpochOfMint(v: Tables, input: MintInput, m: Member, epoch: Epoch, amount: int, related: bool)
    requires ContributionOk(v, input, m, epoch, amount, related)
    ensures epoch.number == |v.ledger.epochs|
  {
  }

  lemma PartsMinted(v: Tables, input: MintInput, m: Member, epoch: Epoch, amount: int, related: bool, split: Split)
    requires v.ledger.epochs != [] && epoch.number == |v.ledger.epochs| && amount > 0
    requires split.regular >= 0 && split.advance >= 0 && split.regular + split.advance == amount
    ensures var first := PartLeg(v, input, m, epoch, related, split, CurrentEpoch);
      var second := PartLeg(v, input, m, epoch, related, split, NextEpochAdvance);
      var v' := if split.advance == 0 then PostLeg(v, first)
                else if split.regular == 0 then PostLeg(v, second)
                else PostLeg(PostLeg(v, first), second);
      MintedTo(v'.ledger.mints, m, epoch.number) == MintedTo(v.ledger.mints, m, epoch.number) + amount
  {
    hide SumMints, MintedTo;
    var first := PartLeg(v, input, m, epoch, related, split, CurrentEpoch);
    var second := PartLeg(v, input, m, epoch, related, split, NextEpochAdvance);
    MintedToPost(v, first);
    MintedToPost(v, second);
    MintedToPost(PostLeg(v, first), second);
  }

  lemma MintedToPost(v: Tables, leg: Leg)
    ensures MintedTo(PostLeg(v, leg).ledger.mints, leg.member, leg.epochNumber)
      == MintedTo(v.ledger.mints, leg.member, leg.epochNumber) + leg.amount
  {
    hide SumMints;
    SumMintsAppend(v.ledger.mints, Stamp(v.ledger, leg), OfMember(leg.member, leg.epochNumber));
    SumMintsAppend(v.ledger.mints, Stamp(v.ledger, leg), AdvancedTo(leg.member, leg.epochNumber));
  }

  // ---- Genesis ----

  function AmountsOf(allocations: seq<Allocation>): int {
    if allocations == [] then 0
    else AmountsOf(allocations[..|allocations| - 1]) + allocations[|allocations| - 1].amount
  }

  lemma {:induction false} GenesisSupply(l: Ledger, allocations: seq<Allocation>, policyVersion: int,
                                         approvedBy: string)
    ensures PostMints(l, GenesisLegs(allocations, policyVersion, approvedBy)).supply
      == l.supply + AmountsOf(allocations)
  {
    if allocations != [] {
      var k := |allocations| - 1;
      GenesisSupply(l, allocations[..k], policyVersion, approvedBy);
      assert GenesisLegs(allocations, policyVersion, approvedBy)[..k]
          == GenesisLegs(allocations[..k], policyVersion, approvedBy);
    }
  }

  /** Genesis raises the supply by what it allocates. From the seeded rows it
      succeeds exactly on positive amounts, and then meets a promised initial
      supply exactly when the amounts sum to it: nothing else compares them. */
  lemma GenesisMeetsPromiseIff(rates: Rates, rules: seq<Rule>, allocations: seq<Allocation>, approvedBy: string,
                               promised: int)
    ensures var v := Initial(rates, rules);
      var r := MintInitialAllocation(v, allocations, approvedBy);
      && (r.Success? <==> forall a <- allocations :: a.amount > 0)
      && (r.Success? ==> r.value.0.ledger.supply == AmountsOf(allocations))
      && (r.Success? ==> (r.value.0.ledger.supply == promised <==> AmountsOf(allocations) == promised))
  {
    hide PostMints;
    var v := Initial(rates, rules);
    GenesisSupply(v.ledger, allocations, 1, approvedBy);
  }

  /** Two members are allocated ninety tokens of the hundred promised. */
  lemma GenesisCanMissPromise(rates: Rates, rules: seq<Rule>)
    ensures var allocations := [Allocation("ann", 60), Allocation("bob", 30)];
      var r := MintInitialAllocation(Initial(rates, rules), allocations, "seed");
      r.Success? && r.value.0.ledger.supply == 90 != 100
  {
    hide PostMints;
    var allocations := [Allocation("ann", 60), Allocation("bob", 30)];
    GenesisMeetsPromiseIff(rates, rules, allocations, "seed", 90);
    assert allocations[..1] == [Allocation("ann", 60)] && allocations[..1][..0] == [];
    assert AmountsOf(allocations[..1]) == 60;
  }
}
