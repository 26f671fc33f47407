/** What the ledger keeps: the epoch chain, the two governance layers, the
    meters, the journal and the supply all agree with the event tables. Each
    of the four ledger steps preserves it. */
module LedgerInvariant {
  import opened Wrappers
  import opened Types
  import opened Calc
  import opened Sums
  import opened Journals
  import opened LedgerSteps

  // ---- Epochs ----

  ghost predicate RatesOk(rates: Rates) {
    && 0 <= rates.inflationBps <= BPS
    && 0 <= rates.maxAdvanceBps <= BPS
    && 0 <= rates.memberCapBps <= BPS
  }

  /** The hard cap after flooring: under 2501 ten-thousandths of the base. */
  ghost predicate UnderHardCap(advanced: int, base: int) {
    advanced * BPS < (HARD_CAP_BPS + 1) * base
  }

  /** One epoch row: its number, its status, its budgets, its meters. */
  ghost predicate EpochOk(e: Epoch, number: int, last: bool) {
    && e.number == number
    && e.status == (if last then Active else Closed)
    && e.openingSupply >= 0 && e.inflationBps >= 0 && e.debt >= 0
    && e.baseBudget == e.openingSupply * e.inflationBps / BPS
    && e.effectiveBudget == Max(e.baseBudget - e.debt, 0)
    && 0 <= e.regularMinted <= e.effectiveBudget
    && 0 <= e.advancedMinted <= e.maxAdvance
    && (e.advancedMinted > 0 ==> e.debt == 0 && UnderHardCap(e.advancedMinted, e.baseBudget))
    && (!last ==> e.unusedBudget == e.effectiveBudget - e.regularMinted)
  }

  /** What an epoch leaves to the next one to repay. */
  function DebtAfter(e: Epoch): int {
    e.advancedMinted + Max(e.debt - e.baseBudget, 0)
  }

  ghost predicate EpochsOk(epochs: seq<Epoch>) {
    && (forall i | 0 <= i < |epochs| :: EpochOk(epochs[i], i + 1, i + 1 == |epochs|))
    && (epochs != [] ==> epochs[0].debt == 0)
    && (forall i | 1 <= i < |epochs| :: epochs[i].debt == DebtAfter(epochs[i - 1]))
  }

  /** The active epoch was derived from the rates now in force. */
  ghost predicate RatesLive(epochs: seq<Epoch>, rates: Rates) {
    epochs != [] ==>
      var e := epochs[|epochs| - 1];
      e.inflationBps == rates.inflationBps && e.maxAdvance == e.baseBudget * rates.maxAdvanceBps / BPS
  }

  // ---- Events ----

  ghost predicate MintOk(e: MintEvent, epochCount: nat, ledgerSeq: int, balances: map<Member, Balance>) {
    && e.leg.amount > 0
    && 0 <= e.leg.epochNumber <= epochCount
    && e.leg.member in balances
    && 1 <= e.ledgerSeq <= ledgerSeq
    && (e.leg.mintType == InitialAllocation <==> e.leg.epochId == None)
    && (e.leg.epochNumber == match e.leg.epochId case None => 0 case Some(id) => id + 1)
    && (e.leg.mintType == InitialAllocation ==> e.leg.source == CurrentEpoch)
    && (e.leg.mintType == SpecialReward ==> e.leg.source == NextEpochAdvance)
    && e.activationEpoch == ActivationEpoch(e.leg)
    && (e.status == Pending <==> e.leg.source == NextEpochAdvance && e.leg.epochNumber == epochCount)
  }

  ghost predicate MintsOk(mints: seq<MintEvent>, epochCount: nat, ledgerSeq: int, balances: map<Member, Balance>) {
    forall i | 0 <= i < |mints| :: MintOk(mints[i], epochCount, ledgerSeq, balances)
  }

  ghost predicate ReversalOk(r: ReversalEvent, mints: seq<MintEvent>, ledgerSeq: int) {
    && r.mintId < |mints|
    && r.member == mints[r.mintId].leg.member
    && 0 < r.amount <= mints[r.mintId].leg.amount
    && 1 <= r.ledgerSeq <= ledgerSeq
  }

  ghost predicate ReversalsOk(mints: seq<MintEvent>, reversals: seq<ReversalEvent>, ledgerSeq: int) {
    && (forall k | 0 <= k < |reversals| :: ReversalOk(reversals[k], mints, ledgerSeq))
    && (forall j, k | 0 <= j < k < |reversals| :: reversals[j].mintId != reversals[k].mintId)
  }

  // ---- Columns against events ----

  /** Each epoch's meters are the sums of the events stamped with it. */
  ghost predicate MetersOk(epochs: seq<Epoch>, mints: seq<MintEvent>) {
    forall i | 0 <= i < |epochs| ::
      && epochs[i].regularMinted == SumMints(mints, OfEpoch(i + 1, CurrentEpoch))
      && epochs[i].advancedMinted == SumMints(mints, OfEpoch(i + 1, NextEpochAdvance))
  }

  /** The balance layer of one member equals the event layer. */
  ghost predicate LayerOk(b: Balance, mints: seq<MintEvent>, reversals: seq<ReversalEvent>, m: Member) {
    && b.total == b.active + b.pending
    && b.active == Layer(mints, reversals, m, Effective)
    && b.pending == Layer(mints, reversals, m, Pending)
  }

  ghost predicate LayersOk(balances: map<Member, Balance>, mints: seq<MintEvent>, reversals: seq<ReversalEvent>) {
    forall m: Member :: LayerOk(Row(balances, m), mints, reversals, m)
  }

  /** What the member earned in the running epoch, and over all time. */
  ghost predicate EarnedRowOk(b: Balance, mints: seq<MintEvent>, reversals: seq<ReversalEvent>, m: Member,
                              epochCount: nat) {
    && b.earnedEpoch == (if epochCount == 0 then 0 else SumMints(mints, OfMember(m, epochCount)))
    && b.earnedLifetime == SumMints(mints, EarnedBy(m))
    && b.reversedLifetime == ReversedFrom(reversals, m)
  }

  ghost predicate EarnedOk(balances: map<Member, Balance>, mints: seq<MintEvent>, reversals: seq<ReversalEvent>,
                           epochCount: nat) {
    forall m: Member :: EarnedRowOk(Row(balances, m), mints, reversals, m, epochCount)
  }

  function CapOf(e: Epoch, rates: Rates): int {
    e.baseBudget * rates.memberCapBps / BPS
  }

  ghost predicate CapsOk(epochs: seq<Epoch>, balances: map<Member, Balance>, rates: Rates) {
    epochs != [] ==> UnderCap(balances, CapOf(epochs[|epochs| - 1], rates))
  }

  ghost predicate UnderCap(balances: map<Member, Balance>, cap: int) {
    forall m: Member :: Row(balances, m).earnedEpoch <= cap
  }

  function Totals(balances: map<Member, Balance>): map<Member, int> {
    map m | m in balances :: balances[m].total
  }

  /** Folding the journal gives the sequence counter, the supply, the totals. */
  ghost predicate JournalMatches(j: seq<Posting>, ledgerSeq: int, supply: int, balances: map<Member, Balance>) {
    && |j| == ledgerSeq
    && Replays(j)
    && SupplyOf(j) == supply
    && forall m: Member :: TotalOf(j, m) == Row(balances, m).total
  }

  ghost predicate JournalOk(l: Ledger) {
    JournalMatches(Journal(l.mints, l.reversals), l.ledgerSeq, l.supply, l.balances)
  }

  function MeterTotal(epochs: seq<Epoch>): int {
    if epochs == [] then 0
    else
      var e := epochs[|epochs| - 1];
      MeterTotal(epochs[..|epochs| - 1]) + e.regularMinted + e.advancedMinted
  }

  /** Supply is what was allocated plus what every epoch metered, less what was
      reversed, and it is the sum of the balances. */
  ghost predicate SupplyOk(l: Ledger) {
    && l.supply == SumMints(l.mints, Genesis) + MeterTotal(l.epochs) - ReversedTotal(l.reversals)
    && l.supply == SumMap(Totals(l.balances))
  }

  /** Without reversals the supply never falls, so openings never fall. */
  ghost predicate OpeningsOk(l: Ledger) {
    l.reversals == [] ==>
      && (forall i | 1 <= i < |l.epochs| :: l.epochs[i - 1].openingSupply <= l.epochs[i].openingSupply)
      && (l.epochs != [] ==> l.epochs[|l.epochs| - 1].openingSupply <= l.supply)
  }

  ghost predicate LedgerInv(l: Ledger, rates: Rates) {
    && RatesOk(rates)
    && EpochsOk(l.epochs)
    && RatesLive(l.epochs, rates)
    && MintsOk(l.mints, |l.epochs|, l.ledgerSeq, l.balances)
    && ReversalsOk(l.mints, l.reversals, l.ledgerSeq)
    && MetersOk(l.epochs, l.mints)
    && LayersOk(l.balances, l.mints, l.reversals)
    && EarnedOk(l.balances, l.mints, l.reversals, |l.epochs|)
    && CapsOk(l.epochs, l.balances, rates)
    && JournalOk(l)
    && SupplyOk(l)
    && OpeningsOk(l)
  }

  lemma EmptyLedgerInv(rates: Rates)
    requires RatesOk(rates)
    ensures LedgerInv(Ledger(0, 0, [], map[], [], []), rates)
  {
    assert Journal([], []) == [];
  }

  // ---- Consequences used by the steps and by the theorems ----

  lemma {:induction false} ReversedWithin(mints: seq<MintEvent>, reversals: seq<ReversalEvent>, ledgerSeq: int, i: nat)
    requires ReversalsOk(mints, reversals, ledgerSeq) && i < |mints| && mints[i].leg.amount > 0
    ensures 0 <= ReversedAmount(reversals, i) <= mints[i].leg.amount
  {
    if reversals != [] {
      var init := reversals[..|reversals| - 1];
      var last := reversals[|reversals| - 1];
      assert forall k | 0 <= k < |init| :: init[k] == reversals[k];
      if last.mintId == i {
        assert !IsReversed(init, i);
        NotReversed(init, i);
      } else {
        ReversedWithin(mints, init, ledgerSeq, i);
      }
    }
  }

  lemma NetsOk(l: Ledger)
    requires MintsOk(l.mints, |l.epochs|, l.ledgerSeq, l.balances) && ReversalsOk(l.mints, l.reversals, l.ledgerSeq)
    ensures NetsNonNegative(l.mints, l.reversals)
  {
    forall i | 0 <= i < |l.mints|
      ensures 0 <= ReversedAmount(l.reversals, i) <= l.mints[i].leg.amount
    {
      assert MintOk(l.mints[i], |l.epochs|, l.ledgerSeq, l.balances);
      ReversedWithin(l.mints, l.reversals, l.ledgerSeq, i);
    }
  }

  lemma LedgerSeqNonNegative(l: Ledger)
    requires JournalOk(l)
    ensures l.ledgerSeq >= 0
  {
  }

  /** No stored balance and no supply is ever negative. */
  lemma BalancesNonNegative(l: Ledger, rates: Rates)
    requires LedgerInv(l, rates)
    ensures forall m: Member :: Row(l.balances, m).active >= 0 && Row(l.balances, m).pending >= 0
    ensures forall m: Member :: Row(l.balances, m).total <= l.supply
    ensures l.supply >= 0
  {
    NetsOk(l);
    forall m: Member
      ensures Row(l.balances, m).active >= 0 && Row(l.balances, m).pending >= 0
    {
      assert LayerOk(Row(l.balances, m), l.mints, l.reversals, m);
      LayerNonNegative(l.mints, l.reversals, m, Effective);
      LayerNonNegative(l.mints, l.reversals, m, Pending);
    }
    var totals := Totals(l.balances);
    forall m | m in totals
      ensures totals[m] >= 0
    {
      assert LayerOk(Row(l.balances, m), l.mints, l.reversals, m);
    }
    SumMapNonNegative(totals);
    forall m: Member
      ensures Row(l.balances, m).total <= l.supply
    {
      if m in totals {
        SumMapBounds(totals, m);
      }
    }
  }

  lemma TotalsUpdate(balances: map<Member, Balance>, m: Member, after: Balance)
    ensures SumMap(Totals(balances[m := after]))
         == SumMap(Totals(balances)) + after.total - Row(balances, m).total
  {
    SumMapUpdate(Totals(balances), m, after.total);
    assert Totals(balances[m := after]) == Totals(balances)[m := after.total];
  }

  lemma {:induction false} MeterTotalUpdate(epochs: seq<Epoch>, i: nat, e: Epoch)
    requires i < |epochs|
    ensures MeterTotal(epochs[i := e])
         == MeterTotal(epochs) + e.regularMinted + e.advancedMinted
            - epochs[i].regularMinted - epochs[i].advancedMinted
  {
    var k := |epochs| - 1;
    if i < k {
      assert epochs[i := e][..k] == epochs[..k][i := e];
      MeterTotalUpdate(epochs[..k], i, e);
    } else {
      assert epochs[i := e][..k] == epochs[..k];
    }
  }

  // ---- Step 1: posting a mint leg ----

  /** The columns of a leg agree with one another and with the epoch count. */
  ghost predicate LegShape(epochCount: nat, leg: Leg) {
    && leg.amount > 0
    && match leg.mintType {
      case InitialAllocation =>
        leg.epochId == None && leg.epochNumber == 0 && leg.source == CurrentEpoch
      case Contribution =>
        epochCount > 0 && leg.epochId == Some(epochCount - 1) && leg.epochNumber == epochCount
      case SpecialReward =>
        epochCount > 0 && leg.epochId == Some(epochCount - 1) && leg.epochNumber == epochCount
        && leg.source == NextEpochAdvance
    }
  }

  /** The leg stays within the active epoch's budgets. */
  ghost predicate FitsEpoch(e: Epoch, leg: Leg) {
    if leg.source == CurrentEpoch then e.regularMinted + leg.amount <= e.effectiveBudget
    else
      && e.debt == 0
      && e.advancedMinted + leg.amount <= e.maxAdvance
      && UnderHardCap(e.advancedMinted + leg.amount, e.baseBudget)
  }

  ghost predicate FitsCap(earned: int, e: Epoch, rates: Rates, leg: Leg) {
    leg.source == CurrentEpoch ==> earned + leg.amount <= CapOf(e, rates)
  }

  /** What a service must have checked before it posts a leg. */
  ghost predicate Admits(l: Ledger, rates: Rates, leg: Leg) {
    && LegShape(|l.epochs|, leg)
    && (leg.epochId.Some? ==>
          && FitsEpoch(l.epochs[|l.epochs| - 1], leg)
          && FitsCap(Row(l.balances, leg.member).earnedEpoch, l.epochs[|l.epochs| - 1], rates, leg))
  }

  lemma PostMintKeepsInv(l: Ledger, rates: Rates, leg: Leg)
    requires LedgerInv(l, rates) && Admits(l, rates, leg)
    ensures LedgerInv(PostMint(l, leg), rates)
  {
    hide EpochOk, RatesLive, MetersOk, LayersOk, EarnedOk, CapsOk, JournalOk, SupplyOk, MintsOk, ReversalsOk;
    var l' := PostMint(l, leg);
    PostMintEpochs(l.epochs, rates, leg);
    PostMintMeters(l.epochs, l.mints, leg, Stamp(l, leg));
    assert l.ledgerSeq >= 0 by { LedgerSeqNonNegative(l); }
    PostMintEvents(l, leg);
    PostMintLayers(l, leg);
    PostMintEarned(l, leg);
    PostMintCaps(l, rates, leg);
    PostMintJournal(l, leg);
    PostMintSupply(l, leg);
  }

  lemma PostMintEpochs(epochs: seq<Epoch>, rates: Rates, leg: Leg)
    requires EpochsOk(epochs) && RatesLive(epochs, rates)
    requires LegShape(|epochs|, leg) && (leg.epochId.Some? ==> FitsEpoch(epochs[|epochs| - 1], leg))
    ensures var epochs' := Meter(epochs, leg);
      EpochsOk(epochs') && RatesLive(epochs', rates)
  {
    var epochs' := Meter(epochs, leg);
    forall i | 0 <= i < |epochs'|
      ensures EpochOk(epochs'[i], i + 1, i + 1 == |epochs'|)
    {
      assert EpochOk(epochs[i], i + 1, i + 1 == |epochs|);
    }
  }

  lemma PostMintMeters(epochs: seq<Epoch>, mints: seq<MintEvent>, leg: Leg, e: MintEvent)
    requires MetersOk(epochs, mints) && e.leg == leg && LegShape(|epochs|, leg)
    ensures MetersOk(Meter(epochs, leg), mints + [e])
  {
    forall i | 0 <= i < |epochs|
      ensures Meter(epochs, leg)[i].regularMinted == SumMints(mints + [e], OfEpoch(i + 1, CurrentEpoch))
      ensures Meter(epochs, leg)[i].advancedMinted == SumMints(mints + [e], OfEpoch(i + 1, NextEpochAdvance))
    {
      SumMintsAppend(mints, e, OfEpoch(i + 1, CurrentEpoch));
      SumMintsAppend(mints, e, OfEpoch(i + 1, NextEpochAdvance));
    }
  }

  lemma PostMintEvents(l: Ledger, leg: Leg)
    requires MintsOk(l.mints, |l.epochs|, l.ledgerSeq, l.balances) && ReversalsOk(l.mints, l.reversals, l.ledgerSeq)
    requires l.ledgerSeq >= 0
    requires LegShape(|l.epochs|, leg)
    ensures var l' := PostMint(l, leg);
      MintsOk(l'.mints, |l'.epochs|, l'.ledgerSeq, l'.balances) && ReversalsOk(l'.mints, l'.reversals, l'.ledgerSeq)
  {
    var l' := PostMint(l, leg);
    forall i | 0 <= i < |l'.mints|
      ensures MintOk(l'.mints[i], |l'.epochs|, l'.ledgerSeq, l'.balances)
    {
      if i < |l.mints| {
        assert MintOk(l.mints[i], |l.epochs|, l.ledgerSeq, l.balances);
      }
    }
    forall k | 0 <= k < |l.reversals|
      ensures ReversalOk(l.reversals[k], l'.mints, l'.ledgerSeq)
    {
      assert ReversalOk(l.reversals[k], l.mints, l.ledgerSeq);
    }
  }

  lemma PostMintLayers(l: Ledger, leg: Leg)
    requires ReversalsOk(l.mints, l.reversals, l.ledgerSeq) && LayersOk(l.balances, l.mints, l.reversals)
    ensures var l' := PostMint(l, leg); LayersOk(l'.balances, l'.mints, l'.reversals)
  {
    var e := Stamp(l, leg);
    assert !IsReversed(l.reversals, |l.mints|) by {
      assert forall k | 0 <= k < |l.reversals| :: ReversalOk(l.reversals[k], l.mints, l.ledgerSeq);
    }
    var balances' := l.balances[leg.member := Credit(Row(l.balances, leg.member), leg)];
    forall m: Member
      ensures LayerOk(Row(balances', m), l.mints + [e], l.reversals, m)
    {
      assert LayerOk(Row(l.balances, m), l.mints, l.reversals, m);
      LayerRowAppend(Row(l.balances, m), l.mints, l.reversals, e, m);
    }
  }

  lemma LayerRowAppend(b: Balance, mints: seq<MintEvent>, reversals: seq<ReversalEvent>, e: MintEvent, m: Member)
    requires LayerOk(b, mints, reversals, m) && !IsReversed(reversals, |mints|)
    requires e.status == InitialStatus(e.leg.source)
    ensures LayerOk(if e.leg.member == m then Credit(b, e.leg) else b, mints + [e], reversals, m)
  {
    LayerAppend(mints, reversals, e, m, Effective);
    LayerAppend(mints, reversals, e, m, Pending);
  }

  lemma PostMintEarned(l: Ledger, leg: Leg)
    requires EarnedOk(l.balances, l.mints, l.reversals, |l.epochs|) && LegShape(|l.epochs|, leg)
    ensures var l' := PostMint(l, leg);
      EarnedOk(l'.balances, l'.mints, l'.reversals, |l'.epochs|)
  {
    var e := Stamp(l, leg);
    var balances' := l.balances[leg.member := Credit(Row(l.balances, leg.member), leg)];
    forall m: Member
      ensures EarnedRowOk(Row(balances', m), l.mints + [e], l.reversals, m, |l.epochs|)
    {
      assert EarnedRowOk(Row(l.balances, m), l.mints, l.reversals, m, |l.epochs|);
      EarnedRowAppend(Row(l.balances, m), l.mints, l.reversals, e, m, |l.epochs|);
    }
  }

  lemma EarnedRowAppend(b: Balance, mints: seq<MintEvent>, reversals: seq<ReversalEvent>, e: MintEvent, m: Member,
                        epochCount: nat)
    requires EarnedRowOk(b, mints, reversals, m, epochCount) && LegShape(epochCount, e.leg)
    ensures EarnedRowOk(if e.leg.member == m then Credit(b, e.leg) else b, mints + [e], reversals, m, epochCount)
  {
    SumMintsAppend(mints, e, OfMember(m, epochCount));
    SumMintsAppend(mints, e, EarnedBy(m));
  }

  lemma PostMintCaps(l: Ledger, rates: Rates, leg: Leg)
    requires CapsOk(l.epochs, l.balances, rates) && Admits(l, rates, leg)
    ensures var l' := PostMint(l, leg); CapsOk(l'.epochs, l'.balances, rates)
  {
    if l.epochs != [] {
      var last := |l.epochs| - 1;
      var cap := CapOf(l.epochs[last], rates);
      var balances' := l.balances[leg.member := Credit(Row(l.balances, leg.member), leg)];
      assert CapOf(Meter(l.epochs, leg)[last], rates) == cap;
      forall m: Member
        ensures Row(balances', m).earnedEpoch <= cap
      {
        assert Row(l.balances, m).earnedEpoch <= cap;
      }
    }
  }

  /** One more event, stamped from the current row and supply. */
  lemma PostJournal(j: seq<Posting>, p: Posting, ledgerSeq: int, supply: int, balances: map<Member, Balance>,
                    after: Balance)
    requires JournalMatches(j, ledgerSeq, supply, balances)
    requires p.seqNo == ledgerSeq + 1
    requires p.supplyBefore == supply && p.supplyAfter == supply + p.delta
    requires p.balanceBefore == Row(balances, p.member).total
    requires p.balanceAfter == after.total == Row(balances, p.member).total + p.delta
    ensures JournalMatches(j + [p], ledgerSeq + 1, supply + p.delta, balances[p.member := after])
  {
    assert TotalOf(j, p.member) == Row(balances, p.member).total;
    ReplaysAppend(j, p);
    forall m: Member
      ensures TotalOf(j + [p], m) == Row(balances[p.member := after], m).total
    {
      assert TotalOf(j, m) == Row(balances, m).total;
    }
  }

  lemma PostMintJournal(l: Ledger, leg: Leg)
    requires ReversalsOk(l.mints, l.reversals, l.ledgerSeq) && JournalOk(l)
    ensures JournalOk(PostMint(l, leg))
  {
    hide JournalMatches;
    var e := Stamp(l, leg);
    forall k | 0 <= k < |l.reversals|
      ensures l.reversals[k].ledgerSeq < e.ledgerSeq
    {
      assert ReversalOk(l.reversals[k], l.mints, l.ledgerSeq);
    }
    JournalAppendMint(l.mints, l.reversals, e);
    PostJournal(Journal(l.mints, l.reversals), MintPosting(e), l.ledgerSeq, l.supply, l.balances,
                Credit(Row(l.balances, leg.member), leg));
  }

  lemma PostMintSupply(l: Ledger, leg: Leg)
    requires SupplyOk(l) && LegShape(|l.epochs|, leg)
    ensures SupplyOk(PostMint(l, leg))
  {
    var l' := PostMint(l, leg);
    SumMintsAppend(l.mints, Stamp(l, leg), Genesis);
    if leg.epochId.Some? {
      MeterTotalUpdate(l.epochs, leg.epochId.value, l'.epochs[leg.epochId.value]);
    }
    TotalsUpdate(l.balances, leg.member, Credit(Row(l.balances, leg.member), leg));
  }

  // ---- Step 2: posting a reversal ----

  /** The member's row covers whatever is reversed from one of its unreversed
      mints, in total, in the layer the mint is in, and in the supply. */
  lemma ReversalIsCovered(l: Ledger, rates: Rates, mintId: nat, amount: int)
    requires LedgerInv(l, rates)
    requires mintId < |l.mints| && !IsReversed(l.reversals, mintId)
    requires 0 < amount <= l.mints[mintId].leg.amount
    ensures var mint := l.mints[mintId];
      var after := Debit(Row(l.balances, mint.leg.member), mint.status, amount);
      mint.leg.member in l.balances && after.total >= 0 && after.active >= 0 && after.pending >= 0
      && l.supply - amount >= 0
  {
    var mint := l.mints[mintId];
    var m := mint.leg.member;
    assert MintOk(mint, |l.epochs|, l.ledgerSeq, l.balances);
    assert LayerOk(Row(l.balances, m), l.mints, l.reversals, m);
    NetsOk(l);
    LayerHolds(l.mints, l.reversals, mintId);
    NotReversed(l.reversals, mintId);
    BalancesNonNegative(l, rates);
  }

  lemma PostReversalKeepsInv(l: Ledger, rates: Rates, mintId: nat, amount: int, reason: string,
                             approvedBy: string, proposalId: Option<nat>)
    requires LedgerInv(l, rates)
    requires mintId < |l.mints| && !IsReversed(l.reversals, mintId)
    requires 0 < amount <= l.mints[mintId].leg.amount
    ensures LedgerInv(PostReversal(l, mintId, amount, reason, approvedBy, proposalId), rates)
  {
    hide EpochOk, RatesLive, MetersOk, LayersOk, EarnedOk, CapsOk, JournalMatches, SupplyOk, MintsOk, ReversalsOk;
    var l' := PostReversal(l, mintId, amount, reason, approvedBy, proposalId);
    var mint := l.mints[mintId];
    var r := l'.reversals[|l.reversals|];
    var after := Debit(Row(l.balances, mint.leg.member), mint.status, amount);
    assert l' == AddReversal(l, after, r);
    LedgerSeqNonNegative(l);
    PostReversalEvents(l, r, after);
    PostReversalLayers(l, r, after);
    PostReversalEarned(l, rates, r, after);
    PostReversalJournal(l, r, after);
    PostReversalSupply(l, r, after);
  }

  lemma PostReversalEvents(l: Ledger, r: ReversalEvent, after: Balance)
    requires MintsOk(l.mints, |l.epochs|, l.ledgerSeq, l.balances)
    requires ReversalsOk(l.mints, l.reversals, l.ledgerSeq) && l.ledgerSeq >= 0
    requires r.ledgerSeq == l.ledgerSeq + 1 && !IsReversed(l.reversals, r.mintId)
    requires r.mintId < |l.mints| && r.member == l.mints[r.mintId].leg.member
    requires 0 < r.amount <= l.mints[r.mintId].leg.amount
    ensures var l' := AddReversal(l, after, r);
      MintsOk(l'.mints, |l'.epochs|, l'.ledgerSeq, l'.balances) && ReversalsOk(l'.mints, l'.reversals, l'.ledgerSeq)
  {
    forall k | 0 <= k < |l.reversals|
      ensures ReversalOk(l.reversals[k], l.mints, l.ledgerSeq + 1)
    {
      assert ReversalOk(l.reversals[k], l.mints, l.ledgerSeq);
    }
    var balances' := l.balances[r.member := after];
    forall i | 0 <= i < |l.mints|
      ensures MintOk(l.mints[i], |l.epochs|, l.ledgerSeq + 1, balances')
    {
      assert MintOk(l.mints[i], |l.epochs|, l.ledgerSeq, l.balances);
    }
  }

  lemma PostReversalLayers(l: Ledger, r: ReversalEvent, after: Balance)
    requires LayersOk(l.balances, l.mints, l.reversals)
    requires r.mintId < |l.mints| && r.member == l.mints[r.mintId].leg.member
    requires after == Debit(Row(l.balances, r.member), l.mints[r.mintId].status, r.amount)
    ensures var l' := AddReversal(l, after, r); LayersOk(l'.balances, l'.mints, l'.reversals)
  {
    var l' := AddReversal(l, after, r);
    forall m: Member
      ensures LayerOk(Row(l'.balances, m), l'.mints, l'.reversals, m)
    {
      assert LayerOk(Row(l.balances, m), l.mints, l.reversals, m);
      LayerReversal(l.mints, l.reversals, r, m, Effective);
      LayerReversal(l.mints, l.reversals, r, m, Pending);
    }
  }

  lemma PostReversalEarned(l: Ledger, rates: Rates, r: ReversalEvent, after: Balance)
    requires EarnedOk(l.balances, l.mints, l.reversals, |l.epochs|) && CapsOk(l.epochs, l.balances, rates)
    requires r.mintId < |l.mints| && after == Debit(Row(l.balances, r.member), l.mints[r.mintId].status, r.amount)
    ensures var l' := AddReversal(l, after, r);
      EarnedOk(l'.balances, l'.mints, l'.reversals, |l'.epochs|) && CapsOk(l'.epochs, l'.balances, rates)
  {
    var l' := AddReversal(l, after, r);
    ReversedAmountAppend(l.reversals, r, r.mintId);
    forall m: Member
      ensures EarnedRowOk(Row(l'.balances, m), l'.mints, l'.reversals, m, |l'.epochs|)
    {
      assert EarnedRowOk(Row(l.balances, m), l.mints, l.reversals, m, |l.epochs|);
    }
    forall m: Member
      ensures Row(l'.balances, m).earnedEpoch == Row(l.balances, m).earnedEpoch
    {
    }
  }

  lemma PostReversalSupply(l: Ledger, r: ReversalEvent, after: Balance)
    requires SupplyOk(l) && after.total == Row(l.balances, r.member).total - r.amount
    ensures SupplyOk(AddReversal(l, after, r))
  {
    hide Totals, SumMap, ReversedTotal, MeterTotal, SumMints;
    ReversedTotalAppend(l.reversals, r);
    TotalsUpdate(l.balances, r.member, after);
  }

  lemma PostReversalJournal(l: Ledger, r: ReversalEvent, after: Balance)
    requires MintsOk(l.mints, |l.epochs|, l.ledgerSeq, l.balances) && JournalOk(l)
    requires r.ledgerSeq == l.ledgerSeq + 1 && r.supplyAfter == l.supply - r.amount
    requires r.totalAfter == after.total == Row(l.balances, r.member).total - r.amount
    ensures JournalMatches(Journal(l.mints, l.reversals + [r]), l.ledgerSeq + 1, l.supply - r.amount,
                           l.balances[r.member := after])
  {
    hide JournalMatches;
    forall k | 0 <= k < |l.mints|
      ensures l.mints[k].ledgerSeq < r.ledgerSeq
    {
      assert MintOk(l.mints[k], |l.epochs|, l.ledgerSeq, l.balances);
    }
    JournalAppendReversal(l.mints, l.reversals, r);
    PostJournal(Journal(l.mints, l.reversals), ReversalPosting(r), l.ledgerSeq, l.supply, l.balances, after);
  }

  // ---- Step 3: opening the first epoch ----

  /** The budgets of an epoch opening at this supply with this debt. */
  ghost predicate Derived(budget: Budget, supply: int, debt: int, rates: Rates) {
    && budget.base == supply * rates.inflationBps / BPS
    && budget.effective == Max(budget.base - debt, 0)
    && budget.maxAdvance == budget.base * rates.maxAdvanceBps / BPS
  }

  function Bootstrap(l: Ledger, inflationBps: int, budget: Budget): Ledger {
    l.(epochs := [NewEpoch(1, l.supply, inflationBps, 0, budget)])
  }

  lemma FreshEpochOk(supply: int, rates: Rates, debt: int, budget: Budget, number: int)
    requires supply >= 0 && debt >= 0 && RatesOk(rates) && Derived(budget, supply, debt, rates)
    ensures var e := NewEpoch(number, supply, rates.inflationBps, debt, budget);
      EpochOk(e, number, true) && RatesLive([e], rates) && CapOf(e, rates) >= 0
  {
    RateOfMonotone(supply, supply, rates.inflationBps, rates.inflationBps);
    RateOfMonotone(budget.base, budget.base, rates.maxAdvanceBps, rates.maxAdvanceBps);
    RateOfMonotone(budget.base, budget.base, rates.memberCapBps, rates.memberCapBps);
  }

  /** Nothing is stamped with the epoch that is about to open. */
  lemma NothingStampedAhead(mints: seq<MintEvent>, epochCount: nat, ledgerSeq: int, balances: map<Member, Balance>)
    requires MintsOk(mints, epochCount, ledgerSeq, balances)
    ensures forall q: Query | (q.OfEpoch? || q.OfMember?) && q.number == epochCount + 1 :: SumMints(mints, q) == 0
  {
    assert forall i | 0 <= i < |mints| :: MintOk(mints[i], epochCount, ledgerSeq, balances);
    forall q: Query | (q.OfEpoch? || q.OfMember?) && q.number == epochCount + 1
      ensures SumMints(mints, q) == 0
    {
      SumMintsNoMatch(mints, q);
    }
  }

  lemma BootstrapKeepsInv(l: Ledger, rates: Rates, budget: Budget)
    requires LedgerInv(l, rates) && l.epochs == []
    requires Derived(budget, l.supply, 0, rates)
    ensures LedgerInv(Bootstrap(l, rates.inflationBps, budget), rates)
  {
    BalancesNonNegative(l, rates);
    FreshEpochOk(l.supply, rates, 0, budget, 1);
    hide EpochOk, LayersOk, JournalMatches, RatesLive, MintsOk, MetersOk, EarnedOk, ReversalsOk, RatesOk, Derived;
    var l' := Bootstrap(l, rates.inflationBps, budget);
    BootstrapEvents(l, l'.epochs[0]);
    BootstrapEarned(l);
    assert UnderCap(l'.balances, CapOf(l'.epochs[0], rates));
  }

  lemma BootstrapEvents(l: Ledger, e: Epoch)
    requires MintsOk(l.mints, 0, l.ledgerSeq, l.balances)
    requires e.regularMinted == 0 && e.advancedMinted == 0
    ensures MintsOk(l.mints, 1, l.ledgerSeq, l.balances) && MetersOk([e], l.mints)
    ensures SupplyOk(l) && l.epochs == [] ==> SupplyOk(l.(epochs := [e]))
  {
    NothingStampedAhead(l.mints, 0, l.ledgerSeq, l.balances);
    forall i | 0 <= i < |l.mints|
      ensures MintOk(l.mints[i], 1, l.ledgerSeq, l.balances)
    {
      assert MintOk(l.mints[i], 0, l.ledgerSeq, l.balances);
    }
    assert MeterTotal([e]) == MeterTotal([]);
  }

  lemma BootstrapEarned(l: Ledger)
    requires MintsOk(l.mints, 0, l.ledgerSeq, l.balances)
    requires EarnedOk(l.balances, l.mints, l.reversals, 0)
    ensures EarnedOk(l.balances, l.mints, l.reversals, 1)
    ensures forall m: Member :: Row(l.balances, m).earnedEpoch == 0
  {
    NothingStampedAhead(l.mints, 0, l.ledgerSeq, l.balances);
    forall m: Member
      ensures EarnedRowOk(Row(l.balances, m), l.mints, l.reversals, m, 1)
      ensures Row(l.balances, m).earnedEpoch == 0
    {
      assert EarnedRowOk(Row(l.balances, m), l.mints, l.reversals, m, 0);
    }
  }

  // ---- Step 4: the rollover ----

  lemma RollKeepsInv(l: Ledger, rates: Rates, rates': Rates, budget: Budget)
    requires LedgerInv(l, rates) && RatesOk(rates') && l.epochs != []
    requires Derived(budget, l.supply, DebtAfter(l.epochs[|l.epochs| - 1]), rates')
    ensures LedgerInv(Roll(l, |l.epochs| - 1, rates'.inflationBps, DebtAfter(l.epochs[|l.epochs| - 1]), budget), rates')
  {
    var n := |l.epochs|;
    var debt := DebtAfter(l.epochs[n - 1]);
    var next := NewEpoch(n + 1, l.supply, rates'.inflationBps, debt, budget);
    assert EpochOk(l.epochs[n - 1], n, true);
    BalancesNonNegative(l, rates);
    FreshEpochOk(l.supply, rates', debt, budget, n + 1);
    hide EpochOk, RatesLive, MetersOk, LayersOk, EarnedOk, JournalMatches, SupplyOk, MintsOk, ReversalsOk, Derived;
    var l' := Roll(l, n - 1, rates'.inflationBps, debt, budget);
    RollEpochs(l.epochs, next);
    RatesLiveLast(l'.epochs, next, rates');
    RollEvents(l, l');
    RollMeters(l, l');
    RollLayers(l, rates, l');
    RollEarned(l, l');
    RollJournalAndSupply(l, l');
    RollOpenings(l, l');
    assert UnderCap(l'.balances, CapOf(next, rates'));
  }

  lemma RatesLiveLast(epochs: seq<Epoch>, e: Epoch, rates: Rates)
    requires epochs != [] && epochs[|epochs| - 1] == e && RatesLive([e], rates)
    ensures RatesLive(epochs, rates)
  {
  }

  lemma RollEpochs(epochs: seq<Epoch>, next: Epoch)
    requires EpochsOk(epochs) && epochs != []
    requires EpochOk(next, |epochs| + 1, true) && next.debt == DebtAfter(epochs[|epochs| - 1])
    ensures EpochsOk(epochs[|epochs| - 1 := CloseRow(epochs[|epochs| - 1])] + [next])
  {
    var epochs' := epochs[|epochs| - 1 := CloseRow(epochs[|epochs| - 1])] + [next];
    forall i | 0 <= i < |epochs'|
      ensures EpochOk(epochs'[i], i + 1, i + 1 == |epochs'|)
    {
      if i < |epochs| {
        assert EpochOk(epochs[i], i + 1, i + 1 == |epochs|);
      }
    }
    forall i | 1 <= i < |epochs'|
      ensures epochs'[i].debt == DebtAfter(epochs'[i - 1])
    {
      assert DebtAfter(epochs'[i - 1]) == DebtAfter(epochs[i - 1]);
    }
  }

  /** l' is l rolled over to a next epoch with empty meters. */
  ghost predicate Rolled(l: Ledger, l': Ledger) {
    var n := |l.epochs|;
    && n > 0
    && |l'.epochs| == n + 1
    && l'.epochs[..n] == l.epochs[n - 1 := CloseRow(l.epochs[n - 1])]
    && l'.epochs[n].regularMinted == 0 && l'.epochs[n].advancedMinted == 0
    && l'.epochs[n].openingSupply == l.supply
    && l'.mints == RollMints(l.mints, n + 1)
    && l'.balances == RollBalances(l.balances)
    && l'.reversals == l.reversals && l'.supply == l.supply && l'.ledgerSeq == l.ledgerSeq
  }

  lemma RollEvents(l: Ledger, l': Ledger)
    requires MintsOk(l.mints, |l.epochs|, l.ledgerSeq, l.balances) && ReversalsOk(l.mints, l.reversals, l.ledgerSeq)
    requires Rolled(l, l')
    ensures MintsOk(l'.mints, |l'.epochs|, l'.ledgerSeq, l'.balances)
    ensures ReversalsOk(l'.mints, l'.reversals, l'.ledgerSeq)
    ensures SameLegs(l.mints, l'.mints)
    ensures forall i | 0 <= i < |l'.mints| :: l'.mints[i].status == Effective
  {
    forall i | 0 <= i < |l'.mints|
      ensures MintOk(l'.mints[i], |l'.epochs|, l'.ledgerSeq, l'.balances)
      ensures l'.mints[i].status == Effective
    {
      assert MintOk(l.mints[i], |l.epochs|, l.ledgerSeq, l.balances);
    }
    forall k | 0 <= k < |l.reversals|
      ensures ReversalOk(l'.reversals[k], l'.mints, l'.ledgerSeq)
    {
      assert ReversalOk(l.reversals[k], l.mints, l.ledgerSeq);
    }
  }

  lemma RollMeters(l: Ledger, l': Ledger)
    requires MintsOk(l.mints, |l.epochs|, l.ledgerSeq, l.balances) && MetersOk(l.epochs, l.mints)
    requires Rolled(l, l') && SameLegs(l.mints, l'.mints)
    ensures MetersOk(l'.epochs, l'.mints)
  {
    NothingStampedAhead(l.mints, |l.epochs|, l.ledgerSeq, l.balances);
    forall i | 0 <= i < |l'.epochs|
      ensures l'.epochs[i].regularMinted == SumMints(l'.mints, OfEpoch(i + 1, CurrentEpoch))
      ensures l'.epochs[i].advancedMinted == SumMints(l'.mints, OfEpoch(i + 1, NextEpochAdvance))
    {
      SumMintsSameLegs(l.mints, l'.mints, OfEpoch(i + 1, CurrentEpoch));
      SumMintsSameLegs(l.mints, l'.mints, OfEpoch(i + 1, NextEpochAdvance));
      if i < |l.epochs| {
        assert l'.epochs[i] == l'.epochs[..|l.epochs|][i];
      }
    }
  }

  /** After the flip no event is pending, and each member's active events are
      what the active and the pending ones were. */
  lemma {:induction false} RollLayer(
      mints: seq<MintEvent>, mints': seq<MintEvent>, reversals: seq<ReversalEvent>, m: Member)
    requires SameLegs(mints, mints')
    requires forall i | 0 <= i < |mints'| :: mints'[i].status == Effective
    ensures Layer(mints', reversals, m, Effective)
         == Layer(mints, reversals, m, Effective) + Layer(mints, reversals, m, Pending)
    ensures Layer(mints', reversals, m, Pending) == 0
  {
    if mints != [] {
      var k := |mints| - 1;
      RollLayer(mints[..k], mints'[..k], reversals, m);
    }
  }

  /** The filtered event flip and the balance roll move the same tokens. */
  lemma RollLayers(l: Ledger, rates: Rates, l': Ledger)
    requires LedgerInv(l, rates) && Rolled(l, l')
    ensures LayersOk(l'.balances, l'.mints, l'.reversals)
  {
    RollEvents(l, l');
    BalancesNonNegative(l, rates);
    forall m: Member
      ensures LayerOk(Row(l'.balances, m), l'.mints, l'.reversals, m)
    {
      assert LayerOk(Row(l.balances, m), l.mints, l.reversals, m);
      RollLayer(l.mints, l'.mints, l.reversals, m);
      assert Row(l.balances, m).pending >= 0;
    }
  }

  lemma RollEarned(l: Ledger, l': Ledger)
    requires MintsOk(l.mints, |l.epochs|, l.ledgerSeq, l.balances) && SameLegs(l.mints, l'.mints)
    requires EarnedOk(l.balances, l.mints, l.reversals, |l.epochs|) && Rolled(l, l')
    ensures EarnedOk(l'.balances, l'.mints, l'.reversals, |l'.epochs|)
    ensures forall m: Member :: Row(l'.balances, m).earnedEpoch == 0
  {
    NothingStampedAhead(l.mints, |l.epochs|, l.ledgerSeq, l.balances);
    forall m: Member
      ensures EarnedRowOk(Row(l'.balances, m), l'.mints, l'.reversals, m, |l.epochs| + 1)
      ensures Row(l'.balances, m).earnedEpoch == 0
    {
      assert EarnedRowOk(Row(l.balances, m), l.mints, l.reversals, m, |l.epochs|);
      SumMintsSameLegs(l.mints, l'.mints, OfMember(m, |l.epochs| + 1));
      SumMintsSameLegs(l.mints, l'.mints, EarnedBy(m));
    }
  }

  lemma RollJournalAndSupply(l: Ledger, l': Ledger)
    requires JournalOk(l) && SupplyOk(l) && Rolled(l, l') && SameLegs(l.mints, l'.mints)
    ensures JournalOk(l') && SupplyOk(l')
  {
    JournalIgnoresGovernance(l.mints, l'.mints, l.reversals);
    forall m: Member
      ensures TotalOf(Journal(l'.mints, l'.reversals), m) == Row(l'.balances, m).total
    {
      assert TotalOf(Journal(l.mints, l.reversals), m) == Row(l.balances, m).total;
    }
    SumMintsSameLegs(l.mints, l'.mints, Genesis);
    assert Totals(l'.balances) == Totals(l.balances);
    MeterTotalUpdate(l.epochs, |l.epochs| - 1, CloseRow(l.epochs[|l.epochs| - 1]));
    assert l'.epochs[..|l'.epochs| - 1] == l'.epochs[..|l.epochs|];
  }

  lemma RollOpenings(l: Ledger, l': Ledger)
    requires OpeningsOk(l) && Rolled(l, l')
    ensures OpeningsOk(l')
  {
    if l'.reversals == [] {
      forall i | 1 <= i < |l'.epochs|
        ensures l'.epochs[i - 1].openingSupply <= l'.epochs[i].openingSupply
      {
        assert l'.epochs[i - 1] == l'.epochs[..|l.epochs|][i - 1];
        if i < |l.epochs| {
          assert l'.epochs[i] == l'.epochs[..|l.epochs|][i];
        }
      }
    }
  }
}
