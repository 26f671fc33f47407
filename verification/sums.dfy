/** Sums over the rows of a table: over a map of per-member amounts, over the
    mint events that match a query, over what reversals took back. */
module Sums {
  import opened Types

  // ---- Sum of a map of amounts ----

  ghost function SumMap(f: map<Member, int>): int
    decreases |f.Keys|
  {
    if f.Keys == {} then 0
    else
      var m :| m in f.Keys;
      assert (f - {m}).Keys == f.Keys - {m};
      f[m] + SumMap(f - {m})
  }

  /** Any row may be split off first. */
  lemma {:induction false} SumMapSplit(f: map<Member, int>, m: Member)
    requires m in f
    ensures SumMap(f) == f[m] + SumMap(f - {m})
    decreases |f.Keys|
  {
    var x :| x in f.Keys && SumMap(f) == f[x] + SumMap(f - {x});
    if x != m {
      assert (f - {x}).Keys == f.Keys - {x};
      assert (f - {m}).Keys == f.Keys - {m};
      SumMapSplit(f - {x}, m);
      SumMapSplit(f - {m}, x);
      assert f - {x} - {m} == f - {m} - {x};
    }
  }

  lemma SumMapUpdate(f: map<Member, int>, m: Member, v: int)
    ensures SumMap(f[m := v]) == SumMap(f) + v - (if m in f then f[m] else 0)
  {
    var g := f[m := v];
    SumMapSplit(g, m);
    if m in f {
      SumMapSplit(f, m);
      assert g - {m} == f - {m};
    } else {
      assert g - {m} == f;
    }
  }

  lemma {:induction false} SumMapNonNegative(f: map<Member, int>)
    requires forall m | m in f :: f[m] >= 0
    ensures SumMap(f) >= 0
    decreases |f.Keys|
  {
    if f.Keys != {} {
      var m :| m in f.Keys && SumMap(f) == f[m] + SumMap(f - {m});
      assert (f - {m}).Keys == f.Keys - {m};
      SumMapNonNegative(f - {m});
    }
  }

  /** With no negative row, no row exceeds the sum. */
  lemma SumMapBounds(f: map<Member, int>, m: Member)
    requires forall x | x in f :: f[x] >= 0
    requires m in f
    ensures f[m] <= SumMap(f)
  {
    SumMapSplit(f, m);
    SumMapNonNegative(f - {m});
  }

  // ---- Sums over mint events ----

  /** Which mint events a meter counts. */
  datatype Query =
    | OfEpoch(number: int, source: BudgetSource)
    | OfMember(member: Member, number: int)
    | AdvancedTo(member: Member, number: int)
    | EarnedBy(member: Member)
    | Genesis

  predicate Matches(q: Query, leg: Leg) {
    match q
    case OfEpoch(n, source) => leg.epochNumber == n && leg.source == source
    case OfMember(m, n) => leg.member == m && leg.epochNumber == n && leg.source == CurrentEpoch
    case AdvancedTo(m, n) => leg.member == m && leg.epochNumber == n && leg.source == NextEpochAdvance
    case EarnedBy(m) => leg.member == m && leg.mintType != SpecialReward
    case Genesis => leg.mintType == InitialAllocation
  }

  function SumMints(mints: seq<MintEvent>, q: Query): int {
    if mints == [] then 0
    else
      var last := mints[|mints| - 1];
      SumMints(mints[..|mints| - 1], q) + if Matches(q, last.leg) then last.leg.amount else 0
  }

  lemma SumMintsAppend(mints: seq<MintEvent>, e: MintEvent, q: Query)
    ensures SumMints(mints + [e], q)
         == SumMints(mints, q) + if Matches(q, e.leg) then e.leg.amount else 0
  {
    assert (mints + [e])[..|mints|] == mints;
  }

  /** Two versions of the table whose rows differ in governance columns only. */
  ghost predicate SameLegs(a: seq<MintEvent>, b: seq<MintEvent>) {
    |a| == |b| && forall i | 0 <= i < |a| :: a[i].leg == b[i].leg
  }

  lemma {:induction false} SumMintsSameLegs(a: seq<MintEvent>, b: seq<MintEvent>, q: Query)
    requires SameLegs(a, b)
    ensures SumMints(a, q) == SumMints(b, q)
  {
    if a != [] {
      SumMintsSameLegs(a[..|a| - 1], b[..|b| - 1], q);
    }
  }

  lemma {:induction false} SumMintsNoMatch(mints: seq<MintEvent>, q: Query)
    requires forall i | 0 <= i < |mints| :: !Matches(q, mints[i].leg)
    ensures SumMints(mints, q) == 0
  {
    if mints != [] {
      SumMintsNoMatch(mints[..|mints| - 1], q);
    }
  }

  // ---- What reversals took back ----

  function ReversedAmount(reversals: seq<ReversalEvent>, mintId: nat): int {
    if reversals == [] then 0
    else
      var last := reversals[|reversals| - 1];
      ReversedAmount(reversals[..|reversals| - 1], mintId) + if last.mintId == mintId then last.amount else 0
  }

  function ReversedTotal(reversals: seq<ReversalEvent>): int {
    if reversals == [] then 0
    else ReversedTotal(reversals[..|reversals| - 1]) + reversals[|reversals| - 1].amount
  }

  function ReversedFrom(reversals: seq<ReversalEvent>, m: Member): int {
    if reversals == [] then 0
    else
      var last := reversals[|reversals| - 1];
      ReversedFrom(reversals[..|reversals| - 1], m) + if last.member == m then last.amount else 0
  }

  predicate IsReversed(reversals: seq<ReversalEvent>, mintId: nat) {
    exists k | 0 <= k < |reversals| :: reversals[k].mintId == mintId
  }

  lemma {:induction false} NotReversed(reversals: seq<ReversalEvent>, mintId: nat)
    requires !IsReversed(reversals, mintId)
    ensures ReversedAmount(reversals, mintId) == 0
  {
    if reversals != [] {
      var init := reversals[..|reversals| - 1];
      assert forall k | 0 <= k < |init| :: init[k] == reversals[k];
      NotReversed(init, mintId);
    }
  }

  lemma ReversedAmountAppend(reversals: seq<ReversalEvent>, r: ReversalEvent, mintId: nat)
    ensures ReversedAmount(reversals + [r], mintId)
         == ReversedAmount(reversals, mintId) + if r.mintId == mintId then r.amount else 0
    ensures forall m: Member ::
      ReversedFrom(reversals + [r], m) == ReversedFrom(reversals, m) + if r.member == m then r.amount else 0
  {
    assert (reversals + [r])[..|reversals|] == reversals;
  }

  lemma ReversedTotalAppend(reversals: seq<ReversalEvent>, r: ReversalEvent)
    ensures ReversedTotal(reversals + [r]) == ReversedTotal(reversals) + r.amount
  {
    assert (reversals + [r])[..|reversals|] == reversals;
  }

  // ---- One governance layer of one member ----

  /** The member's mint events with the given governance status, each counted
      net of what was reversed from it. */
  function Layer(mints: seq<MintEvent>, reversals: seq<ReversalEvent>, m: Member, status: GovStatus): int {
    if mints == [] then 0
    else
      var k := |mints| - 1;
      Layer(mints[..k], reversals, m, status)
      + if mints[k].leg.member == m && mints[k].status == status
        then mints[k].leg.amount - ReversedAmount(reversals, k) else 0
  }

  lemma LayerAppend(mints: seq<MintEvent>, reversals: seq<ReversalEvent>, e: MintEvent, m: Member, status: GovStatus)
    requires !IsReversed(reversals, |mints|)
    ensures Layer(mints + [e], reversals, m, status)
         == Layer(mints, reversals, m, status)
            + if e.leg.member == m && e.status == status then e.leg.amount else 0
  {
    assert (mints + [e])[..|mints|] == mints;
    NotReversed(reversals, |mints|);
  }

  lemma {:induction false} LayerReversal(
      mints: seq<MintEvent>, reversals: seq<ReversalEvent>, r: ReversalEvent, m: Member, status: GovStatus)
    ensures Layer(mints, reversals + [r], m, status)
         == Layer(mints, reversals, m, status)
            - if r.mintId < |mints| && mints[r.mintId].leg.member == m && mints[r.mintId].status == status
              then r.amount else 0
  {
    if mints != [] {
      var k := |mints| - 1;
      LayerReversal(mints[..k], reversals, r, m, status);
      ReversedAmountAppend(reversals, r, k);
    }
  }

  /** No layer entry is negative when no event was reversed beyond its amount. */
  ghost predicate NetsNonNegative(mints: seq<MintEvent>, reversals: seq<ReversalEvent>) {
    forall i | 0 <= i < |mints| :: 0 <= ReversedAmount(reversals, i) <= mints[i].leg.amount
  }

  lemma {:induction false} LayerNonNegative(
      mints: seq<MintEvent>, reversals: seq<ReversalEvent>, m: Member, status: GovStatus)
    requires NetsNonNegative(mints, reversals)
    ensures Layer(mints, reversals, m, status) >= 0
  {
    if mints != [] {
      var init := mints[..|mints| - 1];
      assert forall i | 0 <= i < |init| :: init[i] == mints[i];
      LayerNonNegative(init, reversals, m, status);
    }
  }

  /** The layer holds at least what is left of each of its events. */
  lemma {:induction false} LayerHolds(
      mints: seq<MintEvent>, reversals: seq<ReversalEvent>, i: nat)
    requires NetsNonNegative(mints, reversals)
    requires i < |mints|
    ensures mints[i].leg.amount - ReversedAmount(reversals, i)
         <= Layer(mints, reversals, mints[i].leg.member, mints[i].status)
  {
    var k := |mints| - 1;
    var init := mints[..k];
    assert forall j | 0 <= j < |init| :: init[j] == mints[j];
    if i < k {
      LayerHolds(init, reversals, i);
    } else {
      LayerNonNegative(init, reversals, mints[i].leg.member, mints[i].status);
    }
  }
}
