/** The six services wired to one database: what the programs do is what the
    runs of the specification do, so every theorem about reachable tables holds
    of the tables of a running engine. */
module Engines {
  import opened Wrappers
  import opened Types
  import opened LedgerInvariant
  import opened Invariant
  import opened History
  import opened Runs
  import opened Databases
  import opened MintServices
  import opened AdvanceServices
  import opened EpochServices
  import opened ReversalServices
  import opened ProposalServices
  import opened PolicyServices
  import MintRules
  import AdvanceRules
  import EpochRules
  import ReversalRules
  import ProposalRules

  function ErrorOf<T>(r: Result<T>): Option<EngineError> {
    if r.Failure? then Some(r.error) else None
  }

  lemma CommittedIs<T(!new)>(before: Tables, after: Tables, spec: Result<(Tables, T)>, r: Result<T>)
    requires Commits(before, after, spec, r)
    ensures after == After(before, spec)
    ensures ErrorOf(r).Some? ==> after == before
  {
  }

  class Engine {
    const db: Database
    const mints: MintService
    const advances: AdvanceService
    const epochs: EpochService
    const reversals: ReversalService
    const proposals: ProposalService

    ghost predicate Wired() {
      && mints.db == db && advances.db == db && epochs.db == db && reversals.db == db && proposals.db == db
      && epochs.policyActivation.db == db && proposals.policy.db == db
    }

    ghost predicate Valid()
      reads db
    {
      Wired() && Reachable(db.Value())
    }

    constructor (rates: Rates, rules: seq<Rule>)
      requires RatesOk(rates)
      ensures Valid() && fresh(db) && db.Value() == Initial(rates, rules)
    {
      var tables := new Database(rates, rules);
      var policies := new PolicyService(tables);
      db := tables;
      mints := new MintService(tables);
      advances := new AdvanceService(tables);
      epochs := new EpochService(tables, policies);
      reversals := new ReversalService(tables);
      proposals := new ProposalService(tables, policies);
      new;
      assert db.Value() == Run(Initial(rates, rules), []);
    }

    /** Any one service call, with any arguments. */
    method Perform(call: Call) returns (error: Option<EngineError>)
      requires Valid()
      modifies db
      ensures Valid()
      ensures db.Value() == Apply(old(db.Value()), call)
      ensures error.Some? ==> db.Value() == old(db.Value())
      ensures Inv(db.Value()) && Extends(old(db.Value()), db.Value())
    {
      hide Inv, Extends, Reachable;
      ghost var v := db.Value();
      error := Dispatch(call);
      RunOne(v, call);
      ReachableOnward(v, [call]);
      ReachableInv(v);
      CallKeepsInv(v, call);
    }

    method Dispatch(call: Call) returns (error: Option<EngineError>)
      requires Wired()
      modifies db
      ensures db.Value() == Apply(old(db.Value()), call)
      ensures error.Some? ==> db.Value() == old(db.Value())
    {
      hide Commits, MintRules.MintForContribution, MintRules.MintInitialAllocation, AdvanceRules.CreateRequest;
      hide AdvanceRules.SecondApprove, AdvanceRules.AttachProposal, AdvanceRules.Reject, AdvanceRules.Execute;
      hide EpochRules.CloseEpoch, EpochRules.CreateNextEpoch, ReversalRules.ReverseMint;
      hide ProposalRules.Create, ProposalRules.Activate, ProposalRules.CastVote, ProposalRules.End;
      ghost var v := db.Value();
      match call {
        case MintCall(input, contribution, role) =>
          var r := mints.MintForContribution(input, contribution, role);
          CommittedIs(v, db.Value(), MintRules.MintForContribution(v, input, contribution, role), r);
          error := ErrorOf(r);
        case AllocateCall(allocations, approvedBy) =>
          var r := mints.MintInitialAllocation(allocations, approvedBy);
          CommittedIs(v, db.Value(), MintRules.MintInitialAllocation(v, allocations, approvedBy), r);
          error := ErrorOf(r);
        case RequestCall(input, role) =>
          var r := advances.CreateRequest(input, role);
          CommittedIs(v, db.Value(), AdvanceRules.CreateRequest(v, input, role), r);
          error := ErrorOf(r);
        case SecondApproveCall(rid, approverId) =>
          var r := advances.SecondApprove(rid, approverId);
          CommittedIs(v, db.Value(), AdvanceRules.SecondApprove(v, rid, approverId), r);
          error := ErrorOf(r);
        case AttachCall(rid, pid) =>
          var r := advances.AttachProposal(rid, pid);
          CommittedIs(v, db.Value(), AdvanceRules.AttachProposal(v, rid, pid), r);
          error := ErrorOf(r);
        case RejectCall(rid) =>
          var r := advances.Reject(rid);
          CommittedIs(v, db.Value(), AdvanceRules.Reject(v, rid), r);
          error := ErrorOf(r);
        case ExecuteCall(rid) =>
          var r := advances.Execute(rid);
          CommittedIs(v, db.Value(), AdvanceRules.Execute(v, rid), r);
          error := ErrorOf(r);
        case CloseCall(id) =>
          var r := epochs.CloseEpoch(id);
          CommittedIs(v, db.Value(), EpochRules.CloseEpoch(v, id), r);
          error := ErrorOf(r);
        case BootstrapCall =>
          var r := epochs.CreateNextEpoch();
          CommittedIs(v, db.Value(), EpochRules.CreateNextEpoch(v), r);
          error := ErrorOf(r);
        case ReverseCall(input) =>
          var r := reversals.ReverseMint(input);
          CommittedIs(v, db.Value(), ReversalRules.ReverseMint(v, input), r);
          error := ErrorOf(r);
        case CreateCall(input) =>
          var r := proposals.Create(input);
          CommittedIs(v, db.Value(), ProposalRules.Create(v, input), r);
          error := ErrorOf(r);
        case ActivateCall(pid, now) =>
          var r := proposals.Activate(pid, now);
          CommittedIs(v, db.Value(), ProposalRules.Activate(v, pid, now), r);
          error := ErrorOf(r);
        case VoteCall(pid, m, option, now) =>
          var r := proposals.CastVote(pid, m, option, now);
          CommittedIs(v, db.Value(), ProposalRules.CastVote(v, pid, m, option, now), r);
          error := ErrorOf(r);
        case EndCall(pid, now) =>
          var r := proposals.End(pid, now);
          CommittedIs(v, db.Value(), ProposalRules.End(v, pid, now), r);
          error := ErrorOf(r);
      }
    }
  }
}
