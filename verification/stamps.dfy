/** The governance stamps on the events: what an event says the member's active
    and pending power was, against the events before it. */
module Stamps {
  import opened Wrappers
  import opened Types
  import opened Sums
  import opened LedgerSteps
  import opened LedgerInvariant
  import opened ReversalRules
  import opened Invariant
  import opened History
  import opened ServiceInvariants
  import opened Runs
  import opened CallShapes

  /** In epoch n the advances of that epoch are pending, all else is active. */
  function StatusIn(leg: Leg, n: nat): GovStatus {
    if leg.source == NextEpochAdvance && leg.epochNumber == n then Pending else Effective
  }

  /** What the reversals numbered under s took from one mint event. */
  function ReversedBefore(reversals: seq<ReversalEvent>, mintId: nat, s: int): int {
    if reversals == [] then 0
    else
      var last := reversals[|reversals| - 1];
      ReversedBefore(reversals[..|reversals| - 1], mintId, s)
      + if last.mintId == mintId && last.ledgerSeq < s then last.amount else 0
  }

  /** A member's layer in epoch n just before sequence number s, from the events
      alone: those numbered under s, net of reversals numbered under s. */
  function LayerAt(mints: seq<MintEvent>, reversals: seq<ReversalEvent>, m: Member, n: nat, s: int,
                   status: GovStatus): int {
    if mints == [] then 0
    else
      var k := |mints| - 1;
      LayerAt(mints[..k], reversals, m, n, s, status)
      + if mints[k].leg.member == m && mints[k].ledgerSeq < s && StatusIn(mints[k].leg, n) == status
        then mints[k].leg.amount - ReversedBefore(reversals, k, s) else 0
  }

  // ---- What the stamps say ----

  /** Active power before and after the mint, in the epoch it was posted in. */
  ghost predicate MintStampIn(mints: seq<MintEvent>, reversals: seq<ReversalEvent>, e: MintEvent, n: nat) {
    && (e.leg.epochId.Some? ==> n == e.leg.epochNumber)
    && e.activeBefore == LayerAt(mints, reversals, e.leg.member, n, e.ledgerSeq, Effective)
    && e.activeAfter == e.activeBefore + if e.leg.source == CurrentEpoch then e.leg.amount else 0
  }

  /** Active and pending power after the reversal, in the epoch it was made in. */
  ghost predicate ReversalStampIn(mints: seq<MintEvent>, reversals: seq<ReversalEvent>, r: ReversalEvent, n: nat) {
    && r.activeAfter == LayerAt(mints, reversals, r.member, n, r.ledgerSeq + 1, Effective)
    && r.pendingAfter == LayerAt(mints, reversals, r.member, n, r.ledgerSeq + 1, Pending)
    && r.totalAfter == r.activeAfter + r.pendingAfter
  }

  ghost predicate MintStampOk(mints: seq<MintEvent>, reversals: seq<ReversalEvent>, e: MintEvent, epochCount: nat) {
    exists n: nat :: n <= epochCount && MintStampIn(mints, reversals, e, n)
  }

  ghost predicate ReversalStampOk(mints: seq<MintEvent>, reversals: seq<ReversalEvent>, r: ReversalEvent,
                                  epochCount: nat) {
    exists n: nat :: n <= epochCount && ReversalStampIn(mints, reversals, r, n)
  }

  ghost predicate StampsOk(mints: seq<MintEvent>, reversals: seq<ReversalEvent>, epochCount: nat) {
    && (forall i | 0 <= i < |mints| :: MintStampOk(mints, reversals, mints[i], epochCount))
    && (forall k | 0 <= k < |reversals| :: ReversalStampOk(mints, reversals, reversals[k], epochCount))
  }

  // ---- Later events do not count ----

  /** The same events, later ones added, governance columns aside. */
  ghost predicate Later(mints: seq<MintEvent>, mints': seq<MintEvent>, reversals: seq<ReversalEvent>,
                        reversals': seq<ReversalEvent>, s: int) {
    && |mints| <= |mints'| && IsPrefix(reversals, reversals')
    && (forall i | 0 <= i < |mints| :: mints'[i].leg == mints[i].leg && mints'[i].ledgerSeq == mints[i].ledgerSeq)
    && (forall i | |mints| <= i < |mints'| :: mints'[i].ledgerSeq >= s)
    && (forall k | |reversals| <= k < |reversals'| :: reversals'[k].ledgerSeq >= s)
  }

  lemma {:induction false} ReversedLater(reversals: seq<ReversalEvent>, reversals': seq<ReversalEvent>, mintId: nat,
                                         s: int)
    requires IsPrefix(reversals, reversals')
    requires forall k | |reversals| <= k < |reversals'| :: reversals'[k].ledgerSeq >= s
    ensures ReversedBefore(reversals', mintId, s) == ReversedBefore(reversals, mintId, s)
  {
    if |reversals| < |reversals'| {
      var init := reversals'[..|reversals'| - 1];
      assert init[..|reversals|] == reversals'[..|reversals|];
      ReversedLater(reversals, init, mintId, s);
    } else {
      assert reversals' == reversals;
    }
  }

  lemma {:induction false} LayerLater(
      mints: seq<MintEvent>, mints': seq<MintEvent>, reversals: seq<ReversalEvent>, reversals': seq<ReversalEvent>,
      m: Member, n: nat, s: int, status: GovStatus)
    requires Later(mints, mints', reversals, reversals', s)
    ensures LayerAt(mints', reversals', m, n, s, status) == LayerAt(mints, reversals, m, n, s, status)
    decreases |mints'|
  {
    if mints' != [] {
      var k := |mints'| - 1;
      if |mints| < |mints'| {
        LayerLater(mints, mints'[..k], reversals, reversals', m, n, s, status);
      } else {
        LayerLater(mints[..k], mints'[..k], reversals, reversals', m, n, s, status);
        ReversedLater(reversals, reversals', k, s);
      }
    }
  }

  lemma MintStampLater(mints: seq<MintEvent>, mints': seq<MintEvent>, reversals: seq<ReversalEvent>,
                       reversals': seq<ReversalEvent>, e: MintEvent, e': MintEvent, count: nat, count': nat)
    requires MintStampOk(mints, reversals, e, count) && count <= count'
    requires Later(mints, mints', reversals, reversals', e.ledgerSeq)
    requires e' == e || e' == e.(status := Effective)
    ensures MintStampOk(mints', reversals', e', count')
  {
    hide LayerAt, Later;
    var n: nat :| n <= count && MintStampIn(mints, reversals, e, n);
    LayerLater(mints, mints', reversals, reversals', e.leg.member, n, e.ledgerSeq, Effective);
    assert MintStampIn(mints', reversals', e', n);
  }

  lemma ReversalStampLater(mints: seq<MintEvent>, mints': seq<MintEvent>, reversals: seq<ReversalEvent>,
                           reversals': seq<ReversalEvent>, r: ReversalEvent, count: nat, count': nat)
    requires ReversalStampOk(mints, reversals, r, count) && count <= count'
    requires Later(mints, mints', reversals, reversals', r.ledgerSeq + 1)
    ensures ReversalStampOk(mints', reversals', r, count')
  {
    hide LayerAt, Later;
    var n: nat :| n <= count && ReversalStampIn(mints, reversals, r, n);
    LayerLater(mints, mints', reversals, reversals', r.member, n, r.ledgerSeq + 1, Effective);
    LayerLater(mints, mints', reversals, reversals', r.member, n, r.ledgerSeq + 1, Pending);
    assert ReversalStampIn(mints', reversals', r, n);
  }

  // ---- At the latest sequence number the layer is the present one ----

  lemma {:induction false} ReversedNow(reversals: seq<ReversalEvent>, mintId: nat, s: int)
    requires forall k | 0 <= k < |reversals| :: reversals[k].ledgerSeq < s
    ensures ReversedBefore(reversals, mintId, s) == ReversedAmount(reversals, mintId)
  {
    if reversals != [] {
      ReversedNow(reversals[..|reversals| - 1], mintId, s);
    }
  }

  ghost predicate StatusesIn(mints: seq<MintEvent>, n: nat, s: int) {
    forall i | 0 <= i < |mints| :: mints[i].ledgerSeq < s && mints[i].status == StatusIn(mints[i].leg, n)
  }

  lemma {:induction false} LayerNow(mints: seq<MintEvent>, reversals: seq<ReversalEvent>, m: Member, n: nat, s: int,
                                    status: GovStatus)
    requires StatusesIn(mints, n, s)
    requires forall k | 0 <= k < |reversals| :: reversals[k].ledgerSeq < s
    ensures LayerAt(mints, reversals, m, n, s, status) == Layer(mints, reversals, m, status)
  {
    if mints != [] {
      var k := |mints| - 1;
      LayerNow(mints[..k], reversals, m, n, s, status);
      ReversedNow(reversals, k, s);
    }
  }

  // ---- The parts of the invariant that the stamps rest on ----

  ghost predicate Base(l: Ledger) {
    && MintsOk(l.mints, |l.epochs|, l.ledgerSeq, l.balances)
    && ReversalsOk(l.mints, l.reversals, l.ledgerSeq)
    && LayersOk(l.balances, l.mints, l.reversals)
    && l.ledgerSeq >= 0
  }

  ghost predicate Stamped(l: Ledger) {
    Base(l) && StampsOk(l.mints, l.reversals, |l.epochs|)
  }

  lemma BaseOfInv(l: Ledger, rates: Rates)
    requires LedgerInv(l, rates)
    ensures Base(l)
  {
    hide EpochsOk, RatesLive, ReversalsOk, MetersOk, LayersOk, MintsOk;
    hide EarnedOk, CapsOk, SupplyOk, OpeningsOk, JournalOk;
    LedgerSeqNonNegative(l);
  }

  /** With s the next number, every event is before it and in its layer. */
  lemma BaseNow(l: Ledger, m: Member, status: GovStatus)
    requires Base(l)
    ensures LayerAt(l.mints, l.reversals, m, |l.epochs|, l.ledgerSeq + 1, status)
      == if status == Effective then Row(l.balances, m).active else Row(l.balances, m).pending
  {
    hide LayerAt, Layer, ReversalsOk;
    assert LayerOk(Row(l.balances, m), l.mints, l.reversals, m);
    forall i | 0 <= i < |l.mints|
      ensures l.mints[i].ledgerSeq < l.ledgerSeq + 1 && l.mints[i].status == StatusIn(l.mints[i].leg, |l.epochs|)
    {
      assert MintOk(l.mints[i], |l.epochs|, l.ledgerSeq, l.balances);
    }
    ReversalNumbers(l);
    LayerNow(l.mints, l.reversals, m, |l.epochs|, l.ledgerSeq + 1, status);
  }

  lemma ReversalNumbers(l: Ledger)
    requires ReversalsOk(l.mints, l.reversals, l.ledgerSeq)
    ensures forall k | 0 <= k < |l.reversals| :: l.reversals[k].ledgerSeq <= l.ledgerSeq
  {
    forall k | 0 <= k < |l.reversals|
      ensures l.reversals[k].ledgerSeq <= l.ledgerSeq
    {
      assert ReversalOk(l.reversals[k], l.mints, l.ledgerSeq);
    }
  }

  lemma MintNumbers(l: Ledger)
    requires MintsOk(l.mints, |l.epochs|, l.ledgerSeq, l.balances)
    ensures forall i | 0 <= i < |l.mints| :: l.mints[i].ledgerSeq <= l.ledgerSeq
  {
    forall i | 0 <= i < |l.mints|
      ensures l.mints[i].ledgerSeq <= l.ledgerSeq
    {
      assert MintOk(l.mints[i], |l.epochs|, l.ledgerSeq, l.balances);
    }
  }

  /** Old stamps survive any step that only adds events with larger numbers. */
  lemma OldStamps(l: Ledger, l': Ledger)
    requires Stamped(l) && |l.epochs| <= |l'.epochs|
    requires Later(l.mints, l'.mints, l.reversals, l'.reversals, l.ledgerSeq + 1)
    requires forall i | 0 <= i < |l.mints| ::
      l'.mints[i] == l.mints[i] || l'.mints[i] == l.mints[i].(status := Effective)
    ensures forall i | 0 <= i < |l.mints| :: MintStampOk(l'.mints, l'.reversals, l'.mints[i], |l'.epochs|)
    ensures forall k | 0 <= k < |l.reversals| ::
      ReversalStampOk(l'.mints, l'.reversals, l'.reversals[k], |l'.epochs|)
  {
    hide MintsOk, ReversalsOk, LayersOk, MintStampOk, ReversalStampOk;
    MintNumbers(l);
    ReversalNumbers(l);
    forall i | 0 <= i < |l.mints|
      ensures MintStampOk(l'.mints, l'.reversals, l'.mints[i], |l'.epochs|)
    {
      MintStampLater(l.mints, l'.mints, l.reversals, l'.reversals, l.mints[i], l'.mints[i], |l.epochs|, |l'.epochs|);
    }
    forall k | 0 <= k < |l.reversals|
      ensures ReversalStampOk(l'.mints, l'.reversals, l'.reversals[k], |l'.epochs|)
    {
      assert l'.reversals[..|l.reversals|][k] == l.reversals[k];
      ReversalStampLater(l.mints, l'.mints, l.reversals, l'.reversals, l.reversals[k], |l.epochs|, |l'.epochs|);
    }
  }

  // ---- The steps ----

  lemma PostStamped(l: Ledger, leg: Leg)
    requires Stamped(l) && LegShape(|l.epochs|, leg)
    ensures Stamped(PostMint(l, leg)) && |PostMint(l, leg).epochs| == |l.epochs|
  {
    var l' := PostMint(l, leg);
    var e := Stamp(l, leg);
    PostMintEvents(l, leg);
    PostMintLayers(l, leg);
    hide MintsOk, ReversalsOk, LayersOk, MintStampOk, ReversalStampOk, LayerAt;
    OldStamps(l, l');
    BaseNow(l, leg.member, Effective);
    LayerLater(l.mints, l'.mints, l.reversals, l'.reversals, leg.member, |l.epochs|, e.ledgerSeq, Effective);
    NewMintStamp(l'.mints, l'.reversals, e, |l.epochs|);
  }

  lemma NewMintStamp(mints: seq<MintEvent>, reversals: seq<ReversalEvent>, e: MintEvent, n: nat)
    requires MintStampIn(mints, reversals, e, n)
    ensures MintStampOk(mints, reversals, e, n)
  {
  }

  lemma {:induction false} PostsStamped(l: Ledger, legs: seq<Leg>)
    requires Stamped(l) && forall i | 0 <= i < |legs| :: LegShape(|l.epochs|, legs[i])
    ensures Stamped(PostMints(l, legs)) && |PostMints(l, legs).epochs| == |l.epochs|
  {
    hide Stamped, LegShape, PostMint;
    if legs != [] {
      PostsStamped(l, legs[..|legs| - 1]);
      PostStamped(PostMints(l, legs[..|legs| - 1]), legs[|legs| - 1]);
    }
  }

  lemma ReverseStamped(v: Tables, l': Ledger, mintId: nat, amount: int, input: ReversalInput)
    requires Stamped(v.ledger) && Reversed(v, l', mintId, amount, input) && Base(l')
    ensures Stamped(l')
  {
    var l := v.ledger;
    var r := l'.reversals[|l.reversals|];
    hide MintsOk, ReversalsOk, LayersOk, MintStampOk, ReversalStampOk, LayerAt;
    OldStamps(l, l');
    BaseNow(l', r.member, Effective);
    BaseNow(l', r.member, Pending);
    RowSum(l', r.member);
    NewReversalStamp(l'.mints, l'.reversals, r, |l'.epochs|);
  }

  lemma RowSum(l: Ledger, m: Member)
    requires Base(l)
    ensures Row(l.balances, m).total == Row(l.balances, m).active + Row(l.balances, m).pending
  {
    assert LayerOk(Row(l.balances, m), l.mints, l.reversals, m);
  }

  lemma NewReversalStamp(mints: seq<MintEvent>, reversals: seq<ReversalEvent>, r: ReversalEvent, n: nat)
    requires ReversalStampIn(mints, reversals, r, n)
    ensures ReversalStampOk(mints, reversals, r, n)
  {
  }

  /** Rolling over or opening an epoch adds no event. */
  lemma EpochStamped(l: Ledger, l': Ledger)
    requires Stamped(l) && Base(l') && |l.epochs| <= |l'.epochs| && l'.reversals == l.reversals
    requires |l'.mints| == |l.mints|
    requires forall i | 0 <= i < |l.mints| ::
      l'.mints[i] == l.mints[i] || l'.mints[i] == l.mints[i].(status := Effective)
    ensures Stamped(l')
  {
    hide MintsOk, ReversalsOk, LayersOk, MintStampOk, ReversalStampOk;
    OldStamps(l, l');
  }

  lemma CallStamped(v: Tables, call: Call)
    requires Inv(v) && Stamped(v.ledger)
    ensures Inv(Apply(v, call)) && Stamped(Apply(v, call).ledger)
  {
    hide Inv, Extends, Apply, Stamped, Base, PostMints, PostReversal, LegShape;
    var l, l' := v.ledger, Apply(v, call).ledger;
    CallKeepsInv(v, call);
    LedgerOfInv(Apply(v, call));
    BaseOfInv(l', Apply(v, call).policy.rates);
    CallLedgerStep(v, call);
    if legs :| Posted(v, l', legs, call) {
      PostsStamped(l, legs);
    } else if mintId, amount, input :| Reversed(v, l', mintId, amount, input) {
      ReverseStamped(v, l', mintId, amount, input);
    } else if l' != l {
      EpochStamped(l, l');
    }
  }

  lemma {:induction false} RunStamped(v: Tables, calls: seq<Call>)
    requires Inv(v) && Stamped(v.ledger)
    ensures Inv(Run(v, calls)) && Stamped(Run(v, calls).ledger)
  {
    hide Inv, Apply, Stamped;
    if calls != [] {
      RunStamped(v, calls[..|calls| - 1]);
      CallStamped(Run(v, calls[..|calls| - 1]), calls[|calls| - 1]);
    }
  }

  /** Every mint event of an epoch is stamped with the active power its member
      had then: the member's earlier events that were active in that epoch, net
      of earlier reversals. Genesis events and reversals, which name no epoch,
      are stamped so for some epoch up to the present; a reversal with the
      pending power and the total as well. */
  lemma GovernanceStampsReplay(v: Tables)
    requires Reachable(v)
    ensures forall i | 0 <= i < |v.ledger.mints| ::
      MintStampOk(v.ledger.mints, v.ledger.reversals, v.ledger.mints[i], |v.ledger.epochs|)
    ensures forall i | 0 <= i < |v.ledger.mints| && v.ledger.mints[i].leg.epochId.Some? ::
      MintStampIn(v.ledger.mints, v.ledger.reversals, v.ledger.mints[i], MintEpoch(v.ledger.mints[i]))
    ensures forall k | 0 <= k < |v.ledger.reversals| ::
      ReversalStampOk(v.ledger.mints, v.ledger.reversals, v.ledger.reversals[k], |v.ledger.epochs|)
  {
    hide Reachable, MintStampIn, ReversalStampOk, MintStampOk, Base;
    ReachableStamped(v);
    forall i | 0 <= i < |v.ledger.mints| && v.ledger.mints[i].leg.epochId.Some?
      ensures MintStampIn(v.ledger.mints, v.ledger.reversals, v.ledger.mints[i], MintEpoch(v.ledger.mints[i]))
    {
      StampAtItsEpoch(v.ledger.mints, v.ledger.reversals, v.ledger.mints[i], |v.ledger.epochs|);
    }
  }

  lemma ReachableStamped(v: Tables)
    requires Reachable(v)
    ensures Stamped(v.ledger)
  {
    hide Inv, LedgerInv, Stamped, Run, Initial;
    var rates, rules, calls :| RatesOk(rates) && v == Run(Initial(rates, rules), calls);
    InitialInv(rates, rules);
    InitialStamped(rates, rules);
    RunStamped(Initial(rates, rules), calls);
  }

  lemma InitialStamped(rates: Rates, rules: seq<Rule>)
    requires RatesOk(rates)
    ensures Stamped(Initial(rates, rules).ledger)
  {
    hide Inv, LedgerInv, Base;
    InitialInv(rates, rules);
    LedgerOfInv(Initial(rates, rules));
    BaseOfInv(Initial(rates, rules).ledger, rates);
  }

  function MintEpoch(e: MintEvent): nat {
    if e.leg.epochNumber >= 0 then e.leg.epochNumber else 0
  }

  lemma StampAtItsEpoch(mints: seq<MintEvent>, reversals: seq<ReversalEvent>, e: MintEvent, count: nat)
    requires MintStampOk(mints, reversals, e, count) && e.leg.epochId.Some?
    ensures MintStampIn(mints, reversals, e, MintEpoch(e))
  {
    hide LayerAt;
    var n: nat :| n <= count && MintStampIn(mints, reversals, e, n);
  }
}
