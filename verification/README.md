# Token-economy engine: a verified model

This project models the token-economy engine of the community platform: the
mint, advance, epoch, reversal, proposal and policy services over one shared
ledger. It proves what the services keep true together after any sequence of
calls, in any order, with any arguments.

## How it is built

**Tables.** `Types.Tables` is the whole database of one community as a value:
policy row and versions, supply and sequence, epochs, balances, mint and
reversal events, advance requests, proposals, snapshots and votes.
`Databases.Database` holds the same tables as fields that the services update in
place, with the guarded updates of `sql.ts`, the sequence allocator and the
create-then-lock of a balance row as its methods.

**Services.** `*_service.dfy` holds one class per service, written step by step as
the service works: checks in the source's order, events inserted with running
snapshots, balance, supply and meters updated in batches, guards last. A method
that throws after it has written restores the tables it started from, as the
transaction does. `*_rules.dfy` says on values what each entry point is to do:
post the legs one after the other, roll the ledger over in one step, elect a
strict plurality. Every method is proved equal to its rule
(`Databases.Commits`): same result, same error, same tables after, and the old
tables after an error.

**Invariant.** `invariant.dfy` and `ledger_invariant.dfy` state what all tables keep
together; `service_invariants.dfy` proves it of each of the fourteen entry points,
with `History.Extends`, the relation by which history only grows. `runs.dfy` lifts
both to every finite run from the seeded rows. `call_shapes.dfy` says in which few
ways one call can change the ledger and the board. `engine.dfy` wires the classes to one
database and shows that a running engine stays inside the runs, so the theorems
hold of its fields.

**Theorems.** `ledger_theorems.dfy`, `stamps.dfy`, `debt_theorems.dfy`,
`cap_theorems.dfy`, `governance_theorems.dfy`, `voting_theorems.dfy` and `ownership.dfy`
are about all reachable tables. The six `*_outcomes.dfy` say of each entry point, for every
reachable state and all arguments, exactly when it succeeds, which error it throws
otherwise, and everything it changes. They speak of the stored columns alone and not of the
rules' helpers, so a rule that skipped a check or wrote another value would contradict
them. `scenarios.dfy` builds concrete communities, call by
call from seeded rows, that show their conditions are needed. `interleaving.dfy` splits
advance execution at its row lock and lets anything commit in between;
`late_decisions.dfy` splits the three unlocked decisions at their read as well.
`lock_order.dfy` runs the services' transactions lock by lock.
`immutable_guard.dfy` is the write guard of the append-only tables, and
`guarded_updates.dfy` holds every run against it.

Amounts are unbounded integers and rates are integer basis points, as in the
engine. Every division floors a non-negative dividend.

## What the code does not make good, and what it does instead

- `scripts/seed-demo.ts:202` says the engine enforces that the genesis allocations sum to
  the initial supply. `mintInitialAllocation` checks only that each is positive. From
  seeded rows the supply becomes the sum of the amounts, whatever was promised
  (`CapTheorems.GenesisMeetsPromiseIff`, `CapTheorems.GenesisCanMissPromise`).
- Advances stay within a quarter of the base whenever the epoch opened with a maximum
  rate of at most 2500 bps. With a higher one the system cap alone holds, and it is
  checked on a floored rate: the advance then stays under 2501 bps of the base, which can
  be over a quarter unless the base is too small for the flooring to matter
  (`CapTheorems.QuarterByRateIff`, `CapTheorems.AdvancedWithinQuarter`,
  `Scenarios.LimitsCanBeOverrun`).
- The member cap meters the regular part of a mint only. All that a member is minted in
  an epoch is within the cap after a contribution mint, or after an execution, exactly
  when meter and earlier advances leave room for it
  (`CapTheorems.WithinCapAfterMintIff`, `CapTheorems.WithinCapAfterExecuteIff`). In
  `Scenarios.LimitsCanBeOverrun` it is the execution that fails its condition.
- The comment at `lib/engine/proposal-service.ts:192-194` says the fallback winner is
  never "approve". It is when the ballot paper has no "reject" and lists "approve" last
  (`VotingTheorems.SettlesIffAnyPaper`, `Scenarios.TieCanSettle`).
- `end()` does not always reach `recorded`: a passed policy change that cannot be armed
  rolls the whole call back, and the proposal stays open (`VotingTheorems.EndRecordsIff`,
  `VotingTheorems.ConflictClearsAtRollover`, `Scenarios.EndCanFail`).
- A passed budget_advance proposal approves the request it names even if it was never
  attached to it, and `execute` then refuses that request for good
  (`GovernanceTheorems.UnattachedNeverExecutes`, `Scenarios.GrantedButStuck`).
- `secondApprove` and `reject` read their request without a lock and update it without a
  status guard. "Executed exactly when minted" survives an interleaving if and only if
  no such late write hits an executed request (`LateDecisions.OnceIffTimely`,
  `Scenarios.LateRejectionBreaks`).
- The write guard lets every operation through that is in neither of its tables. It
  protects a ledger table exactly against the operations it lists and against updates
  of whitelisted columns (`ImmutableGuard.ProtectsIffCovered`,
  `ImmutableGuard.UnknownNameRewritesHistory`); no service updates
  such a table under another name.
- The lock order promised in the comments holds for every service but the rollover,
  which locks balances before mint events. A rollover can deadlock exactly when it does
  both (`LockOrder.RolloverDeadlocksIff`). Balance rows have no order among themselves, so
  a rollover and a genesis distribution can deadlock too, exactly when their plans cross
  (`LockOrder.GenesisDeadlocksIff`, `LockOrder.GenesisCanDeadlock`).

## Model

| member | source | states |
|---|---|---|
| `LedgerTheorems.LedgerReplays` | lib/engine/mint-service.ts:515-579 | In every reachable state the mint and reversal events, in sequence order, are numbered 1 to `ledgerSeq` with no gap; folding them from zero gives every stamped total balance and supply, the current supply, and every total balance |
| `Stamps.GovernanceStampsReplay` | lib/engine/mint-service.ts:183-219 | In every reachable state a mint event of an epoch is stamped with the active power of the member's earlier events active in that epoch, net of earlier reversals; genesis events and reversals are stamped so for an epoch up to the present, reversals with pending power and total too |
| `LedgerTheorems.TwoLayersAgree` | lib/engine/epoch-service.ts:192-204 | For every member the active and pending balance columns equal the sums, net of reversals, over that member's active and pending mint events; neither is negative, the total is their sum, and every pending event activates at the very next rollover |
| `LedgerTheorems.ReversalSucceedsIff` | lib/engine/reversal-service.ts:145-176 | A reversal succeeds exactly when the reason is legal, the mint exists and is not yet reversed, the amount is in range and the proposal gate is met; the "would drive a balance negative" branch is never taken |
| `LedgerTheorems.ReversalUndoesMint` | lib/engine/reversal-service.ts:158-223 | Reversing a mint in full, in its epoch or after the rollover, leaves supply and every balance and governance column as if the mint had not happened; meters and earnings are not given back |
| `LedgerTheorems.MemberUnderCap` | lib/engine/mint-service.ts:467-469 | In every reachable state a member's per-epoch meter is the sum of its current-budget events of the active epoch and is within the cap of the live rates |
| `LedgerTheorems.MetersMatchEvents` | lib/engine/sql.ts:17-35 | Both meters of every epoch equal the sums of the events stamped with it and stay within the effective budget and the maximum advance |
| `LedgerTheorems.RegularGuardNeverFails` | lib/engine/mint-service.ts:581-584 | INSUFFICIENT_BUDGET is raised only by the budget check with no advance request offered; the metered guard after planning cannot fail |
| `LedgerTheorems.SupplyConserved` | lib/engine/mint-service.ts:575-579 | Supply is genesis plus both meters of all epochs less reversals; it is the sum of all balances and never negative |
| `LedgerTheorems.OpeningSupplyLaw` | lib/engine/epoch-service.ts:165-175 | From an epoch's opening, through any calls, to its close: the next opening supply is this one plus both meters plus genesis allocations made meanwhile less reversals made meanwhile |
| `LedgerTheorems.EpochChain` | lib/engine/epoch-service.ts:217-245 | Epochs are numbered 1 to n, the last one and only it is active, all others are closed |
| `LedgerTheorems.RolloverSucceeds` | lib/engine/epoch-service.ts:126-300 | Closing the active epoch always succeeds, opens the next number at the current supply with the debt left over, and makes any pending policy version live |
| `LedgerTheorems.ClosingTwiceIsOnce` | lib/engine/epoch-service.ts:140-142 | Closing an epoch that was closed is a no-op, whatever was called in between: one successor |
| `LedgerTheorems.BootstrapOnce` | lib/engine/epoch-service.ts:313-322 | Once an epoch exists, the bootstrap returns it and changes nothing |
| `LedgerTheorems.ActiveBudgetsFromLiveRates` | lib/engine/epoch-service.ts:69-80 | The active epoch's three budgets are always what its opening supply, its debt and the live rates derive |
| `DebtTheorems.DebtConserved` | lib/engine/epoch-service.ts:170-190 | Through any epoch, everything ever advanced equals the debt carried out of it plus what base budgets repaid; both meters together never exceed the base budgets plus that debt |
| `DebtTheorems.AdvanceWithinCaps` | lib/engine/advance-service.ts:230-256 | An epoch that advanced anything inherited no debt, is within its maximum advance and under 2501 basis points of its base |
| `DebtTheorems.RepaidInOneEpochIff` | lib/engine/calc.ts:42-47 | An epoch that opens with debt advances nothing, and closes debt-free exactly when its base budget covers the debt |
| `DebtTheorems.DebtBounded` | lib/engine/epoch-service.ts:170-175 | From any epoch whose base covers its debt, as long as neither opening supply nor inflation rate falls, every debt is within the base of the epoch it is carried into and gone at its end |
| `DebtTheorems.RepaidByNextEpoch` | lib/engine/epoch-service.ts:170-175 | Debt taken in one epoch is repaid by the next, and the one after opens with none, if opening supply and rate do not fall from the first to the second |
| `DebtTheorems.NoReversalNoCut` | lib/engine/epoch-service.ts:170-175 | With no reversal and no cut of the inflation rate so far, that holds of every epoch |
| `DebtTheorems.RateCutKeepsDebt` | lib/engine/epoch-service.ts:177-190 | When a version with a zero rate goes live instead, the whole debt is still owed two epochs later |
| `Scenarios.RateCutLeavesDebt` | lib/engine/epoch-service.ts:177-190 | A reachable community, with no reversal, whose advance of epoch 1 is still owed in full at the opening of epoch 3: the condition on the rate is needed |
| `CapTheorems.QuarterIff` | lib/engine/advance-service.ts:246-256 | For any base and maximum advance: the floored rate check and the meter guard keep advances within a quarter of the base exactly when the maximum is within a quarter, or the base is too small for the flooring to matter |
| `CapTheorems.QuarterByRateIff` | lib/engine/calc.ts:50-57 | The same in terms of the rate: exactly when it is at most 2500 bps, or the base is too small |
| `CapTheorems.AdvancedWithinQuarter` | lib/engine/sql.ts:29-35 | Under that condition on its opening columns no reachable epoch has advanced more than a quarter of its base |
| `CapTheorems.QuarterAtLiveRate` | lib/engine/advance-service.ts:246-256 | The active epoch never has, while the live maximum rate is at most 2500 bps |
| `CapTheorems.WithinCapAfterMintIff` | lib/engine/mint-service.ts:467-469 | After a contribution mint all the member was minted in the epoch, advances included, is within the cap exactly when the earlier advances are at most the cap less the meter less the amount, all read before the call |
| `CapTheorems.WithinCapAfterExecuteIff` | lib/engine/advance-service.ts:228-361 | After the execution of a request all the member was minted in the epoch is within the cap exactly when the amount is at most the cap less the meter less the earlier advances, all read before the call |
| `Scenarios.LimitsCanBeOverrun` | lib/engine/advance-service.ts:230-256 | A reachable epoch that advanced more than a quarter of its base, in which one member was minted more than the member cap, by an execution |
| `CapTheorems.GenesisMeetsPromiseIff` | lib/engine/mint-service.ts:609-703 | From seeded rows genesis succeeds exactly on positive amounts and leaves their sum as the supply, so it meets a promised initial supply exactly when they sum to it |
| `CapTheorems.GenesisCanMissPromise` | scripts/seed-demo.ts:202-208 | An allocation of ninety tokens where a hundred were promised succeeds |
| `GovernanceTheorems.RequestAuthority` | lib/engine/advance-service.ts:149-179 | Every approved or executed request has a second approver other than its requester, or a budget_advance proposal naming it that "approve" won with quorum |
| `GovernanceTheorems.AdvanceEventAuthority` | lib/engine/mint-service.ts:277-301 | Every advance event executes one such request, and where the cumulative rate was over 1000 basis points, or the request is of a related party, a passed proposal is behind it |
| `GovernanceTheorems.ExecutedIffMinted` | lib/engine/advance-service.ts:358-361 | A request is executed exactly when one, and only one, mint event names it, for at most the requested amount |
| `GovernanceTheorems.ProposalRouteHolds` | lib/engine/advance-service.ts:108-125 | A special, related-party or over-1000-bps request is, whatever is called later, approved or executed only with a passed proposal that names it |
| `GovernanceTheorems.ReplaysForever` | lib/engine/advance-service.ts:201-208 | Executing an executed request changes nothing and returns the same recorded mint, whatever was called in between |
| `GovernanceTheorems.ExecuteThenReplays` | lib/engine/advance-service.ts:201-226 | Executing a request a second time returns the outcome of the first |
| `GovernanceTheorems.ContributionMintedByOneCall` | lib/engine/mint-service.ts:436-444 | Once a call has minted a contribution, no later call for it succeeds, after any calls and with any arguments; the contribution's events stay that call's one or two legs, summing to the approved amount |
| `GovernanceTheorems.ContributionMintedOnce` | lib/engine/mint-service.ts:523-560 | Two events of one contribution are a regular and an advance leg, adjacent, of the same member and epoch |
| `GovernanceTheorems.ContributionAmountMinted` | lib/engine/mint-service.ts:459-465 | One call mints exactly the approved amount, in one or two legs, within the ceiling of the rule in force, and touches no earlier event |
| `GovernanceTheorems.RelatedPartyAuthority` | lib/engine/mint-service.ts:330-368 | A related-party contribution leg had a distinct second approver or a passed related_party_mint proposal for its member, and one such proposal serves one contribution only |
| `GovernanceTheorems.ReversalAuthority` | lib/engine/reversal-service.ts:108-156 | In every reachable state a reversal is the only one of its mint, takes at most its amount from its member, and, of a related-party mint or for the community, names a passed token_reversal proposal for that very mint |
| `GovernanceTheorems.VersionHistory` | lib/engine/policy-service.ts:99-175 | Versions are numbered without a gap; each after the first comes from a passed token_policy_change with these rates and with its rules, or else the rules of the version before; no proposal makes two; the live policy is the newest version, or the one before while the newest waits for the next epoch |
| `VotingTheorems.WeightsFrozen` | lib/engine/proposal-service.ts:315-363 | In every reachable state: one ballot a member, each at its activation snapshot weight, together no more than the governance supply of the snapshot |
| `VotingTheorems.BallotsWithinSnapshot` | lib/engine/proposal-service.ts:269-280 | Ballot weights plus the weights of those who did not vote are exactly the snapshot's sum |
| `VotingTheorems.SnapshotSurvives` | lib/engine/proposal-service.ts:276-280 | No later call changes a row of an activation snapshot |
| `VotingTheorems.RecordedForever` | lib/engine/proposal-service.ts:393-420 | A recorded result never changes and stays the count, the sum and the outcome of all ballots |
| `ProposalRules.WinnerIff` | lib/engine/proposal-service.ts:176-191 | The tally returns an option exactly when its weight is at least zero and strictly greater than that of every other option voted for |
| `VotingTheorems.TallyOrderIrrelevant` | lib/engine/proposal-service.ts:167-191 | The winner does not depend on the order of the ballots |
| `VotingTheorems.SettlesIff` | lib/engine/proposal-service.ts:390-411 | With "reject" on the paper, settlement fires exactly on quorum and a strict plurality for "approve" |
| `VotingTheorems.SettlesIffAnyPaper` | lib/engine/proposal-service.ts:198-207 | On any paper: the same, or nothing wins, "reject" is absent and "approve" is listed last |
| `Scenarios.TieCanSettle` | lib/engine/proposal-service.ts:203-207 | A reachable due proposal with a quorum of two, met by two members who both voted for something other than "approve", whose `end` arms a policy version: the "reject" condition above is needed |
| `VotingTheorems.EndRecordsIff` | lib/engine/proposal-service.ts:374-420 | A due proposal is recorded by `end` exactly unless it is a passed policy change while a version is pending or with rates out of range |
| `VotingTheorems.EpochBehindBallots` | lib/engine/proposal-service.ts:261-266 | In any run a proposal that has left its draft has an epoch behind it |
| `Scenarios.EndCanFail` | lib/engine/proposal-service.ts:429-434 | A reachable due proposal, carried by its voters, whose `end` fails because another change was armed first |
| `VotingTheorems.ConflictClearsAtRollover` | lib/engine/proposal-service.ts:429-434 | A proposal whose `end` failed on a pending version can end after the next rollover exactly when its rates are in range |
| `MintOutcomes.MintSucceedsIff` | lib/engine/mint-service.ts:418-607 | A contribution mint succeeds exactly when the contribution exists, is approved and not yet minted, an epoch is open, the approved amount is positive, within the first rule of its id and with the meter within the member cap, the approvers differ, the member exists, an owner or manager has an unspent passed proposal or a second approver, and the regular budget covers the amount or the named approved request of this contribution covers the rest within tier, debt and maximum; otherwise it throws the error of the first of these that is missing |
| `MintOutcomes.MintLeaves` | lib/engine/mint-service.ts:486-607 | A successful mint pays what is left of the regular budget at once and the rest as pending power out of the next one; both events are written out field by field, the member's row, the supply, the meters and the request row are given, and nothing else changes |
| `GenesisOutcomes.GenesisOutcome` | lib/engine/mint-service.ts:609-704 | Genesis succeeds exactly when no allocation event exists and every amount is positive; event i is allocation i, stamped after those before it, every member is credited the sum of its allocations, and nothing else changes |
| `GenesisOutcomes.GenesisOnce` | lib/engine/mint-service.ts:617-623 | After a non-empty distribution succeeded, and any calls, every further one throws ALREADY_MINTED; the allocation events are those of its list, member and amount, and no others |
| `ReversalOutcomes.ReverseOutcome` | lib/engine/reversal-service.ts:69-274 | When a reversal succeeds and with which error it fails otherwise; on success exactly the given amount, or the whole mint, leaves supply, the member's total and the layer of the mint's status, one row records it, and nothing else changes |
| `ProposalOutcomes.CreateOutcome` | lib/engine/proposal-service.ts:231-247 | A paper of fewer than two options is refused, any other is stored as a draft with the quorum given or three |
| `ProposalOutcomes.ActivateOutcome` | lib/engine/proposal-service.ts:249-313 | An activation succeeds exactly on an open proposal, changing nothing, or on a draft with an epoch open; the snapshot has one row for every balance row, its active power, equal to the member's net effective events, beside their sum, the epoch, supply and policy version of the moment and the end time given or three days on |
| `ProposalOutcomes.CastVoteOutcome` | lib/engine/proposal-service.ts:315-372 | A ballot is accepted exactly on an open proposal not past its end, for an option on the paper, from a member of the snapshot; it appends one row with this option at the snapshot weight, or names the member's earlier ballot and changes nothing |
| `ProposalOutcomes.EndOutcomes` | lib/engine/proposal-service.ts:374-446 | When an ending succeeds and with which error it fails otherwise; it records the option that strictly outweighs every other or the fallback, with count and total, and only with quorum and "approve" arms exactly these rates for the next epoch or approves the waiting request |
| `VotingTheorems.WeightIsItsBallots` | lib/engine/proposal-service.ts:167-174 | What the tally adds up for an option is the total weight of the ballots that chose it |
| `EpochOutcomes.CloseOutcomes` | lib/engine/epoch-service.ts:126-311 | Closing fails only on an unknown epoch; the last one is closed with its unused budget, the next opened with the floored budgets of the rates going live at the current supply, all pending power and all pending events turned active, and nothing else changed |
| `EpochOutcomes.BootstrapOutcomes` | lib/engine/epoch-service.ts:313-376 | The bootstrap always succeeds: it returns the active epoch, or opens number 1 at the current supply without debt |
| `AdvanceOutcomes.AskOutcome` | lib/engine/advance-service.ts:98-147 | A request is stored exactly when an epoch is open without debt, the member exists, the rate stays under 2501 bps, and the member is an owner or manager, the mint special or the rate at least 1 bps; it waits for the community in the first two cases and from 1001 bps on, for a second admin otherwise |
| `AdvanceOutcomes.SecondApproveOutcome` | lib/engine/advance-service.ts:149-166 | When a second approval succeeds, with which error it fails otherwise, and the one row it changes |
| `AdvanceOutcomes.AttachOutcome` | lib/engine/advance-service.ts:168-179 | When an attachment succeeds, with which error it fails otherwise, and the one row it changes |
| `AdvanceOutcomes.RejectOutcome` | lib/engine/advance-service.ts:181-191 | When a rejection succeeds, with which error it fails otherwise, and the one row it changes |
| `AdvanceOutcomes.ExecuteOutcome` | lib/engine/advance-service.ts:193-428 | An execution succeeds exactly on an executed request, returning its recorded event and changing nothing, or on an approved one of the active epoch that asks more than the regular budget has left, in an epoch without debt, within both rate limits and the maximum, with its approval standing; it then posts the requested amount as pending power and marks the request; every error is given |
| `Ownership.SharesNearlySumToWhole` | lib/engine/calc.ts:74-81 | With positive supply and n balance rows the floored shares sum to more than a million less n and to at most a million |
| `Ownership.SharesSum` | lib/engine/calc.ts:74-81 | For any balances and supply, n floored shares lose less than a millionth each of what the balances are together |
| `Ownership.MintMovesShares` | lib/engine/mint-service.ts:183-212 | A mint leg leaves the recipient's share no smaller and every other member's share no larger |
| `Interleaving.InterleavingIsSerial` | lib/engine/advance-service.ts:198-226 | Any interleaving of pre-lock reads, locked bodies of `execute` and whole other calls leaves the tables of a serial run of the same calls |
| `Interleaving.StaleReadIsHarmless` | lib/engine/advance-service.ts:215-226 | With the epoch locked, a request row read before the lock leads to the same tables as one read under it; only the answer to a request executed meanwhile can differ |
| `Interleaving.ExactlyOnceInterleaved` | lib/engine/advance-service.ts:198-226 | Under every interleaving of split executions with whole other calls each request backs at most one mint, for at most the requested amount, and is executed exactly when that mint exists |
| `LateDecisions.OnceIffTimely` | lib/engine/advance-service.ts:149-191 | With second approval, attachment and rejection split at their unlocked read as well: "executed exactly when minted, once" holds in every state of an interleaving if and only if no late approval or rejection is written to an executed request |
| `LateDecisions.ReadThenWriteIsTheCall` | lib/engine/advance-service.ts:149-191 | Each of the three calls is its read and, at once, the write that the split form makes later |
| `LateDecisions.StaleExecutionKeepsInv` | lib/engine/advance-service.ts:209-226 | An execution whose request was decided on after its read still mints at most once, keeps the invariant and leaves the request executed or untouched |
| `Scenarios.LateRejectionBreaks` | lib/engine/advance-service.ts:181-191 | An interleaving from a reachable state in which a rejection read early and written late leaves a rejected request with a mint |
| `LockOrder.PlansInRankOrder` | lib/engine/advance-service.ts:279-291 | Every transaction but the rollover and genesis takes its rows in rank order: proposal, epoch, policy, mint event, state, balance, request |
| `LockOrder.GenesisInRankOrderIff` | lib/engine/mint-service.ts:633-641 | A genesis distribution is in rank order exactly when it is for one member at most |
| `LockOrder.NoWaitCycle` | lib/engine/reversal-service.ts:82-97 | Transactions in rank order, and those that take several rows of one rank behind a common gate, never wait in a circle |
| `LockOrder.DeadlockFree` | lib/engine/proposal-service.ts:261-267 | For any number of the services' transactions, rollovers of one epoch that take no row too late among them, in any state they can reach: rows have one holder, waits form no cycle, and while one is unfinished one can move |
| `LockOrder.CloseEpochInOrderIff` | lib/engine/epoch-service.ts:192-215 | A rollover takes no row too late exactly when it does not both roll a balance and flip a mint event |
| `LockOrder.RolloverDeadlocksIff` | lib/engine/epoch-service.ts:192-215 | A rollover can get stuck with transactions in rank order exactly when it rolls a balance and flips a mint event; the stuck state, with a reversal, is constructed |
| `LockOrder.PairDeadlocksIff` | lib/engine/epoch-service.ts:192-215 | Two transactions that take no row too late can get stuck, among others in rank order, exactly when their plans cross: each wants a row the other has by then, and nothing they hold would have stopped the other before |
| `LockOrder.GenesisDeadlocksIff` | lib/engine/mint-service.ts:633-641 | So can a rollover that takes no row too late and a genesis distribution |
| `LockOrder.GenesisCanDeadlock` | lib/engine/mint-service.ts:633-641 | Two members in opposite order are enough |
| `ImmutableGuard.GuardedTableKeepsHistory` | lib/db/immutable-guard.ts:78-113 | Whatever sequence of writes is attempted through the guard, each under an operation in its tables, a create, or an update of whitelisted columns, a ledger table loses no row and changes no column outside its whitelist |
| `ImmutableGuard.ProtectsIffCovered` | lib/db/immutable-guard.ts:92-94 | The guard protects a ledger table against a write exactly when the operation is in its tables (or creates), or only whitelisted columns are written |
| `ImmutableGuard.UnknownNameRewritesHistory` | lib/db/immutable-guard.ts:92-94 | An update of a mint amount under the name updateManyAndReturn passes and rewrites the row |
| `ImmutableGuard.GuardIsExact` | lib/db/immutable-guard.ts:78-113 | Among writes under the six operations create, update, updateMany, upsert, delete and deleteMany the guard refuses exactly those that would destroy history on some table |
| `GuardedUpdates.RunUpdatesPass` | lib/db/immutable-guard.ts:22-61 | Between any reachable state and any later one no row of the five ledger tables is gone, and the columns that differ (of a mint event the governance status, of the others none), with the record id filled in, are columns the guard lets an update write |
| `LedgerInvariant.PostMintKeepsInv` | lib/engine/mint-service.ts:524-587 | Posting one admissible leg keeps the epoch chain, both governance layers, the meters, the caps, the journal and the supply law |
| `LedgerInvariant.PostReversalKeepsInv` | lib/engine/reversal-service.ts:158-223 | Posting one reversal within the mint's amount keeps all of them |
| `LedgerInvariant.ReversalIsCovered` | lib/engine/reversal-service.ts:158-176 | The layer a reversal deducts from holds at least the mint's amount |
| `LedgerInvariant.RollKeepsInv` | lib/engine/epoch-service.ts:149-245 | The rollover keeps all of them: the balance roll and the filtered event flip move the same tokens |
| `LedgerInvariant.BootstrapKeepsInv` | lib/engine/epoch-service.ts:313-362 | Opening the first epoch keeps all of them |
| `Invariant.PostLegKeepsInv` | lib/engine/mint-service.ts:515-595 | Posting an allowed leg and consuming the request it names keeps the whole database invariant |
| `Invariant.ProposalsMayGrow` | lib/engine/proposal-service.ts:400-420 | Versions, requests, advance events and related-party legs stay authorized whatever is later proposed, voted or recorded |
| `Invariant.InitialInv` | scripts/seed-demo-data.ts:488-504 | The seeded rows satisfy the whole invariant |
| `ServiceInvariants.MintForContributionKeepsInv` | lib/engine/mint-service.ts:418-607 | A contribution mint keeps the invariant and all history |
| `ServiceInvariants.MintInitialAllocationKeepsInv` | lib/engine/mint-service.ts:609-703 | A genesis distribution keeps the invariant and all history |
| `ServiceInvariants.CreateRequestKeepsInv` | lib/engine/advance-service.ts:98-147 | A new request keeps the invariant and all history |
| `ServiceInvariants.SecondApproveKeepsInv` | lib/engine/advance-service.ts:149-166 | A second approval keeps the invariant and all history |
| `ServiceInvariants.AttachProposalKeepsInv` | lib/engine/advance-service.ts:168-179 | Attaching a proposal keeps the invariant and all history |
| `ServiceInvariants.RejectKeepsInv` | lib/engine/advance-service.ts:181-191 | A rejection keeps the invariant and all history |
| `ServiceInvariants.ReverseMintKeepsInv` | lib/engine/reversal-service.ts:69-274 | A reversal keeps the invariant and all history |
| `ServiceInvariants.CreateNextEpochKeepsInv` | lib/engine/epoch-service.ts:313-376 | The bootstrap keeps the invariant and all history |
| `ServiceInvariants.CreateKeepsInv` | lib/engine/proposal-service.ts:231-247 | A new proposal keeps the invariant and all history |
| `ServiceInvariants.ActivateKeepsInv` | lib/engine/proposal-service.ts:249-313 | An activation keeps the invariant and all history |
| `ServiceInvariants.CastVoteKeepsInv` | lib/engine/proposal-service.ts:315-372 | A ballot keeps the invariant and all history |
| `ServiceInvariants.ExecuteKeepsInv` | lib/engine/advance-service.ts:193-428 | An execution keeps the invariant and all history |
| `ServiceInvariants.CloseEpochKeepsInv` | lib/engine/epoch-service.ts:126-300 | A rollover keeps the invariant and all history |
| `ServiceInvariants.EndKeepsInv` | lib/engine/proposal-service.ts:374-426 | Ending a proposal keeps the invariant and all history |
| `CallShapes.CallLedgerStep` | lib/engine/mint-service.ts:515-595 | Any call changes the ledger, if at all, by posting well-shaped legs, by one reversal, by one rollover of the last epoch, or by opening the first |
| `CallShapes.CallBoardStep` | lib/engine/proposal-service.ts:374-446 | Only ending an open proposal adds a policy version, with its rules or the live ones, and only an active epoch lets a proposal leave its draft |
| `Runs.CallKeepsInv` | lib/engine/runtime.ts:135-145 | Any one call with any arguments, whether it returns or throws, keeps the invariant and all history |
| `Runs.RunKeepsInv` | lib/db/immutable-guard.ts:22-61 | Every run keeps the invariant, and every event, epoch, version, recorded proposal, snapshot, ballot and decided request of the state before it is still there, changed at most in the columns that may change |
| `Calc.RateWithinCap` | lib/engine/calc.ts:87-99 | For a positive request the floored cumulative rate is at most cap exactly when the amounts stay under (cap + 1) ten-thousandths of the base |
| `Databases.Database.constructor` | scripts/seed-demo-data.ts:488-504 | The tables of a newly seeded community: version 1 of the policy, supply and sequence zero |
| `Databases.Database.IncrementRegularMintedGuarded` | lib/engine/sql.ts:17-23 | One row and the regular meter raised if it stays within the effective budget, otherwise zero rows and no change |
| `Databases.Database.IncrementAdvancedMintedGuarded` | lib/engine/sql.ts:29-35 | The same for the advanced meter and the maximum advance |
| `Databases.Database.ActivatePendingGovernance` | lib/engine/sql.ts:41-46 | All pending power turned active, row by row; the number of rows that had some |
| `Databases.Database.TransitionProposalStatus` | lib/engine/sql.ts:52-59 | Compare-and-set of a proposal's status |
| `Databases.Database.EndProposalIfDue` | lib/engine/sql.ts:65-71 | Ends an open proposal whose end time has come |
| `Databases.Database.AllocateLedgerSeq` | lib/engine/ledger-seq.ts:14-23 | The next sequence number, and the counter that holds it |
| `Databases.Database.LockOrCreateBalance` | lib/engine/mint-service.ts:145-167 | The member's row, created with zeros if there was none |
| `Databases.Database.Rollback` | lib/engine/mint-service.ts:426-427 | A thrown error restores every table to its value at the start of the transaction |
| `Databases.Database.InsertMint` | lib/engine/mint-service.ts:222-229 | One event appended; its id is its position |
| `Databases.Database.MarkRequestExecuted` | lib/engine/advance-service.ts:358-361 | The request row becomes executed, for the amount minted |
| `Databases.ZeroRowIsHarmless` | lib/engine/mint-service.ts:145-167 | Creating the zero row first does not change what posting any legs to that member leaves behind |
| `MintServices.MintService.MintForContribution` | lib/engine/mint-service.ts:418-607 | Returns and leaves what posting the legs of the split one by one prescribes; every error leaves the tables as they were |
| `MintServices.MintService.MintInTransaction` | lib/engine/mint-service.ts:427-603 | The transaction body: same checks in the same order, same outcome before the rollback |
| `MintServices.MintService.CheckContribution` | lib/engine/mint-service.ts:459-490 | The amount is passed on or refused with the error of the first check that fails |
| `MintServices.MintService.ResolveParts` | lib/engine/mint-service.ts:492-513 | The two parts are not negative, sum to the amount, and an advance part names an existing request |
| `MintServices.MintService.PlanLegs` | lib/engine/mint-service.ts:170-219 | Each planned leg carries the snapshots that posting it after the legs before it would stamp |
| `MintServices.MintService.WriteEvents` | lib/engine/mint-service.ts:523-560 | The event table is what posting the legs one by one gives, with consecutive sequence numbers |
| `MintServices.MintService.UpdateRows` | lib/engine/mint-service.ts:562-595 | One batched update of balance, supply, meters and request, or the error of the meter that is short |
| `MintServices.MintService.WriteMint` | lib/engine/mint-service.ts:515-607 | Planned events and batched updates together leave the tables of posting the legs in sequence |
| `MintServices.BatchedPosting` | lib/engine/mint-service.ts:562-587 | Posting the legs of a split in sequence equals one batched update of the balance, the supply and both meters |
| `LedgerSteps.PostedEvents` | lib/engine/mint-service.ts:523-560 | Row i of what posting appends is leg i stamped on the ledger after the legs before it |
| `MintServices.MintService.MintInitialAllocation` | lib/engine/mint-service.ts:609-703 | Allocations posted in turn, the supply written once at the end; a second genesis or a non-positive amount leaves the tables as they were |
| `MintServices.MintService.AllocateInTransaction` | lib/engine/mint-service.ts:618-699 | The loop over allocations keeps the tables of posting those done so far, but for the supply row |
| `MintServices.MintService.WriteAllocation` | lib/engine/mint-service.ts:641-690 | One turn of that loop is one posting at the running supply |
| `AdvanceServices.AdvanceService.CreateRequest` | lib/engine/advance-service.ts:98-147 | A request enters at the status the approval table routes it to, or is refused |
| `AdvanceServices.AdvanceService.SecondApprove` | lib/engine/advance-service.ts:149-166 | Only a pending request, only by someone else; repeating the same approval is a no-op |
| `AdvanceServices.AdvanceService.AttachProposal` | lib/engine/advance-service.ts:168-179 | Only to a request waiting for a proposal, and never a second one |
| `AdvanceServices.AdvanceService.Reject` | lib/engine/advance-service.ts:181-191 | Only an undecided request; repeating is a no-op |
| `AdvanceServices.AdvanceService.Execute` | lib/engine/advance-service.ts:193-428 | One advance mint for an approved request, the recorded one again for an executed request; every error leaves the tables as they were |
| `AdvanceServices.AdvanceService.ExecuteLocked` | lib/engine/advance-service.ts:209-423 | The body under the epoch lock, for whatever request row was read before it |
| `GovernanceTheorems.RecheckPassesIff` | lib/engine/advance-service.ts:258-277 | The recheck passes on an approved request exactly when it was second-approved and the rate is at most 1000 bps, or its attached proposal is recorded; and a pass at a higher rate, or for a related party, means that a proposal naming the request passed |
| `GovernanceTheorems.UnattachedNeverExecutes` | lib/engine/advance-service.ts:258-277 | A request approved by a proposal that was never attached to it, while it stays approved, fails every `execute` after any calls |
| `Scenarios.GrantedButStuck` | lib/engine/proposal-service.ts:435-441 | Such a request is reachable |
| `AdvanceServices.AdvanceService.WriteAdvance` | lib/engine/advance-service.ts:293-361 | Event, balance, supply, meter and request together are one posting and one consumed request |
| `AdvanceServices.AdvanceService.WriteEvent` | lib/engine/advance-service.ts:293-355 | The pending event with its snapshots, the balance row and the supply, all for the same amount |
| `AdvanceServices.AdvancePosting` | lib/engine/advance-service.ts:304-357 | What one posted advance leg does to each row: total and pending power rise, active power and earnings do not |
| `EpochServices.EpochService.CloseEpoch` | lib/engine/epoch-service.ts:126-311 | The steps of the rollover leave the tables of the one-step rollover; every error leaves them as they were |
| `EpochServices.EpochService.CloseInTransaction` | lib/engine/epoch-service.ts:132-298 | The transaction body, through the intermediate closing status |
| `EpochServices.EpochService.FlipGovernance` | lib/engine/epoch-service.ts:192-215 | Three bulk updates amount to rolling every balance row and every event row |
| `EpochServices.EpochService.CreateNextEpoch` | lib/engine/epoch-service.ts:313-376 | The active epoch if there is one, otherwise the next number opened at the current supply without debt |
| `EpochServices.EpochService.MaxNumber` | lib/engine/epoch-service.ts:326-333 | The largest epoch number, zero when there is none |
| `ReversalServices.ReversalService.ReverseMint` | lib/engine/reversal-service.ts:69-274 | One reversal posted, or the first failing check's error and no change |
| `ReversalServices.ReversalService.WriteReversal` | lib/engine/reversal-service.ts:178-223 | Event, balance and supply together are one posted reversal |
| `ProposalServices.CountVotes` | lib/engine/proposal-service.ts:168-174 | Total weight, weight by option, and the options voted for, each once |
| `ProposalServices.TallyVotes` | lib/engine/proposal-service.ts:167-191 | The one-pass maximum with its tie flag finds the option that strictly outweighs all others, and none when there is none |
| `ProposalServices.ProposalService.ResolveOutcome` | lib/engine/proposal-service.ts:198-207 | The winner, or "reject", or the last option when "reject" is not on the paper |
| `ProposalServices.ProposalService.Create` | lib/engine/proposal-service.ts:231-247 | A draft with its payload and its default quorum |
| `ProposalServices.ProposalService.Activate` | lib/engine/proposal-service.ts:249-313 | Opens a draft with a snapshot of every balance row's active power and its sum; a second call is a no-op |
| `ProposalServices.ProposalService.GovernanceSupply` | lib/engine/proposal-service.ts:272-272 | The loop over the rows, in any order, adds up to the sum of the snapshot |
| `ProposalServices.ProposalService.CastVote` | lib/engine/proposal-service.ts:315-372 | One ballot at snapshot weight while the proposal is open, the earlier one again on a repeat |
| `ProposalServices.ProposalService.End` | lib/engine/proposal-service.ts:374-426 | Records the tally and settles, or leaves the tables as they were |
| `ProposalServices.ProposalService.Settle` | lib/engine/proposal-service.ts:429-446 | Arms a policy version, approves a waiting request, or does nothing |
| `PolicyServices.PolicyService.CreatePendingVersion` | lib/engine/policy-service.ts:99-147 | Appends the next version and arms it for the next epoch, or fails and changes nothing |
| `PolicyServices.PolicyService.AssertBps` | lib/engine/policy-service.ts:67-73 | Passes exactly when every rate is in [0, 10000] |
| `PolicyServices.PolicyService.ActivatePendingVersion` | lib/engine/policy-service.ts:149-175 | Makes the version armed for the opening epoch live and disarms it |
| `Engines.Engine.Perform` | lib/engine/runtime.ts:135-145 | Whatever call is made of a running engine, its tables stay reachable, satisfy the invariant, keep all history, and are what the rules prescribe |

## Left out

- Several communities: the tables are those of one community. Rows of other communities, and the checks that compare community ids, are not modelled; the lookups in the code that do not filter by community are therefore not covered.
- Row ids are positions in their table; `findFirst` and the row locks return one row that matches, and where the code relies on there being one, the invariant proves it.
- Contributions, members and roles are parameters, given as the row the call reads; how a contribution gets approved is not part of this model. Policy and state rows are taken to exist, so the NOT_FOUND errors for a missing one do not occur.
- Public records, envelopes, hashes, Merkle roots, submission after commit, `finalizeSupersede` and the read helpers; so also the two CONFLICT errors of a reversal whose original public record is missing.
- Clock columns and the start and end times of epochs; free-text columns such as reason, description and evidence.
- The ownership percentage columns of mint events and `governancePercentageSnapshot`, which are floating point: the shares behind the former are treated in millionths in `Ownership`.
- The unique-violation handlers: calls are atomic, so the lookup before each insert already decides. Only `execute` is split at its lock, and `secondApprove`, `attachProposal` and `reject` at their read; the read outside the transaction in `createNextEpoch` and the prior-mint check before the lock in `mintForContribution` are covered at the granularity of whole calls. A step sees every committed row, as a statement at the read-committed level does.
- The shape checks on untyped input: non-integer basis points, malformed proposal metadata, unknown proposal types, options without ids.
- Writes that bypass the services, such as the administration routes and the seed scripts after the seeded rows.
- LockOrder.DeadlockFree: does not mix genesis distributions for several members with rollovers that touch several balances; `LockOrder.PairDeadlocksIff` says exactly when one of each can get stuck, mixes of three or more are not treated.
- MintServices.MintService.PlanLegs: does not model the error a negative balance or supply would raise in the percentage calculation; `LedgerTheorems.TwoLayersAgree` and `LedgerTheorems.SupplyConserved` show that neither is ever negative.
- ProposalServices.ProposalService.GovernanceSupply: reads the balance rows in no particular order; the code sorts them for the Merkle root only.
- Artificial-intelligence modules, pages, authentication, rate limiting, chain workers and the contract: they do not change these tables.
