/** Whole runs: any number of service calls, in any order, with any inputs. A
    call that throws leaves every table as it was. */
module Runs {
  import opened Wrappers
  import opened Types
  import opened LedgerInvariant
  import opened AdvanceRules
  import opened MintRules
  import opened ReversalRules
  import opened ProposalRules
  import opened EpochRules
  import opened Invariant
  import opened History
  import opened ServiceInvariants

  datatype Call =
    | MintCall(mintInput: MintInput, contribution: Option<ContributionRow>, memberRole: Option<Role>)
    | AllocateCall(allocations: seq<Allocation>, approvedBy: string)
    | RequestCall(advanceInput: AdvanceInput, targetRole: Option<Role>)
    | SecondApproveCall(requestId: nat, approverId: string)
    | AttachCall(requestId: nat, proposalId: nat)
    | RejectCall(requestId: nat)
    | ExecuteCall(requestId: nat)
    | CloseCall(epochId: nat)
    | BootstrapCall
    | ReverseCall(reversalInput: ReversalInput)
    | CreateCall(proposalInput: ProposalInput)
    | ActivateCall(proposalId: nat, now: int)
    | VoteCall(proposalId: nat, member: Member, option: string, now: int)
    | EndCall(proposalId: nat, now: int)

  function After<T>(v: Tables, r: Result<(Tables, T)>): Tables {
    match r
    case Success(pair) => pair.0
    case Failure(_) => v
  }

  ghost function Apply(v: Tables, call: Call): Tables {
    match call
    case MintCall(input, contribution, role) => After(v, MintForContribution(v, input, contribution, role))
    case AllocateCall(allocations, approvedBy) => After(v, MintInitialAllocation(v, allocations, approvedBy))
    case RequestCall(input, role) => After(v, CreateRequest(v, input, role))
    case SecondApproveCall(rid, approverId) => After(v, SecondApprove(v, rid, approverId))
    case AttachCall(rid, pid) => After(v, AttachProposal(v, rid, pid))
    case RejectCall(rid) => After(v, Reject(v, rid))
    case ExecuteCall(rid) => After(v, Execute(v, rid))
    case CloseCall(id) => After(v, CloseEpoch(v, id))
    case BootstrapCall => After(v, CreateNextEpoch(v))
    case ReverseCall(input) => After(v, ReverseMint(v, input))
    case CreateCall(input) => After(v, Create(v, input))
    case ActivateCall(pid, now) => After(v, Activate(v, pid, now))
    case VoteCall(pid, m, option, now) => After(v, CastVote(v, pid, m, option, now))
    case EndCall(pid, now) => After(v, End(v, pid, now))
  }

  ghost function Run(v: Tables, calls: seq<Call>): Tables {
    if calls == [] then v else Apply(Run(v, calls[..|calls| - 1]), calls[|calls| - 1])
  }

  /** One call from a good state. */
  lemma CallKeepsInv(v: Tables, call: Call)
    requires Inv(v)
    ensures Inv(Apply(v, call)) && Extends(v, Apply(v, call))
  {
    hide Inv, Extends;
    hide MintForContribution, MintInitialAllocation, CreateRequest, SecondApprove, AttachProposal, Reject, Execute;
    hide CloseEpoch, CreateNextEpoch, ReverseMint, Create, Activate, CastVote, End;
    StaysGood(v);
    match call {
      case MintCall(input, contribution, role) =>
        if MintForContribution(v, input, contribution, role).Success? {
          MintForContributionKeepsInv(v, input, contribution, role);
        }
      case AllocateCall(allocations, approvedBy) =>
        if MintInitialAllocation(v, allocations, approvedBy).Success? {
          MintInitialAllocationKeepsInv(v, allocations, approvedBy);
        }
      case RequestCall(input, role) =>
        if CreateRequest(v, input, role).Success? { CreateRequestKeepsInv(v, input, role); }
      case SecondApproveCall(rid, approverId) =>
        if SecondApprove(v, rid, approverId).Success? { SecondApproveKeepsInv(v, rid, approverId); }
      case AttachCall(rid, pid) =>
        if AttachProposal(v, rid, pid).Success? { AttachProposalKeepsInv(v, rid, pid); }
      case RejectCall(rid) =>
        if Reject(v, rid).Success? { RejectKeepsInv(v, rid); }
      case ExecuteCall(rid) =>
        if Execute(v, rid).Success? { ExecuteKeepsInv(v, rid); }
      case CloseCall(id) =>
        if CloseEpoch(v, id).Success? { CloseEpochKeepsInv(v, id); }
      case BootstrapCall =>
        if CreateNextEpoch(v).Success? { CreateNextEpochKeepsInv(v); }
      case ReverseCall(input) =>
        if ReverseMint(v, input).Success? { ReverseMintKeepsInv(v, input); }
      case CreateCall(input) =>
        if Create(v, input).Success? { CreateKeepsInv(v, input); }
      case ActivateCall(pid, now) =>
        if Activate(v, pid, now).Success? { ActivateKeepsInv(v, pid, now); }
      case VoteCall(pid, m, option, now) =>
        if CastVote(v, pid, m, option, now).Success? { CastVoteKeepsInv(v, pid, m, option, now); }
      case EndCall(pid, now) =>
        if End(v, pid, now).Success? { EndKeepsInv(v, pid, now); }
    }
  }

  /** Any run keeps the invariant and loses nothing that was on record. */
  lemma {:induction false} RunKeepsInv(v: Tables, calls: seq<Call>)
    requires Inv(v)
    ensures Inv(Run(v, calls)) && Extends(v, Run(v, calls))
  {
    hide Inv, Extends, Apply;
    if calls == [] {
      StaysGood(v);
    } else {
      var before := Run(v, calls[..|calls| - 1]);
      RunKeepsInv(v, calls[..|calls| - 1]);
      CallKeepsInv(before, calls[|calls| - 1]);
      ExtendsTransitive(v, before, Run(v, calls));
    }
  }

  /** Some run from the seeded rows ends in v. */
  ghost predicate Reachable(v: Tables) {
    exists rates: Rates, rules: seq<Rule>, calls: seq<Call> ::
      RatesOk(rates) && v == Run(Initial(rates, rules), calls)
  }

  lemma ReachableInv(v: Tables)
    requires Reachable(v)
    ensures Inv(v)
  {
    hide Inv, Extends;
    var rates, rules, calls :| RatesOk(rates) && v == Run(Initial(rates, rules), calls);
    InitialInv(rates, rules);
    RunKeepsInv(Initial(rates, rules), calls);
  }

  /** Running on from a reachable state stays reachable. */
  lemma {:induction false} RunJoin(v: Tables, a: seq<Call>, b: seq<Call>)
    ensures Run(v, a + b) == Run(Run(v, a), b)
  {
    if b == [] {
      assert a + b == a;
    } else {
      RunJoin(v, a, b[..|b| - 1]);
      assert (a + b)[..|a + b| - 1] == a + b[..|b| - 1];
    }
  }

  lemma RunOne(v: Tables, call: Call)
    ensures Run(v, [call]) == Apply(v, call)
  {
    assert [call][..0] == [];
    assert Run(v, []) == v;
  }

  lemma ReachableOnward(v: Tables, calls: seq<Call>)
    requires Reachable(v)
    ensures Reachable(Run(v, calls))
  {
    var rates, rules, before :| RatesOk(rates) && v == Run(Initial(rates, rules), before);
    RunJoin(Initial(rates, rules), before, calls);
  }
}
