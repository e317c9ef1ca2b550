/** The governance contract as an object holding its storage and the token it reads. Every method is
    proved against `GovernanceModel`. */
module GovernanceContract {
  import opened Common
  import opened TokenModel
  import opened TokenHistory
  import opened GovernanceModel
  import opened TokenContract

  class Governance {
    const token: GovernanceToken
    var admin: Option<Address>
    var proposalThreshold: int
    var votingPeriod: nat
    var timelockDelay: nat
    var quorumBps: nat
    var totalSupply: int
    var proposalCount: nat
    var proposals: map<nat, Proposal>
    var ballots: map<nat, map<Address, VoteRecord>>

    function State(): GovState
      reads this
    {
      GovState(admin, proposalThreshold, votingPeriod, timelockDelay, quorumBps, totalSupply,
               proposalCount, proposals, ballots)
    }

    constructor (token: GovernanceToken)
      ensures this.token == token && State() == EmptyGov
    {
      this.token := token;
      admin := None;
      proposalThreshold, votingPeriod := DEFAULT_PROPOSAL_THRESHOLD, DEFAULT_VOTING_PERIOD;
      timelockDelay, quorumBps := DEFAULT_TIMELOCK_DELAY, DEFAULT_QUORUM_BPS;
      totalSupply, proposalCount := 100_000_000 * ONE_TOKEN, 0;
      proposals, ballots := map[], map[];
    }

    method Initialize(admin': Address) returns (r: Outcome<Reply, GovernanceError>)
      modifies this
      ensures GovCall(r, State()) == old(InitializeGov(State(), admin'))
    {
      if admin.Some? {
        return Err(GovernanceError.AlreadyInitialized);
      }
      admin := Some(admin');
      proposalThreshold, votingPeriod := DEFAULT_PROPOSAL_THRESHOLD, DEFAULT_VOTING_PERIOD;
      timelockDelay, quorumBps := DEFAULT_TIMELOCK_DELAY, DEFAULT_QUORUM_BPS;
      proposalCount, totalSupply := 0, TOTAL_SUPPLY;
      r := Ok(Unit);
    }

    method CreateProposal(env: Env, proposer: Address, action: GovernableAction)
      returns (r: Outcome<Reply, GovernanceError>)
      modifies this
      ensures GovCall(r, State()) ==
              old(GovernanceModel.CreateProposal(State(), token.State(), env, proposer, action))
    {
      if admin.None? {
        return Err(NotInitialized);
      }
      if Balance(token.State(), proposer) < proposalThreshold {
        return Err(InsufficientProposerBalance);
      }
      if !ValidAction(action) {
        return Err(InvalidParameterValue);
      }
      if proposalCount + 1 > U64_MAX {
        return Err(ArithmeticOverflow);
      }
      var id := proposalCount + 1;
      var votingEnd := SaturatingAddU32(env.sequence, votingPeriod);
      proposals := proposals[id := Proposal(id, proposer, action, Active, env.sequence, votingEnd, 0, 0, 0, 0)];
      proposalCount := id;
      r := Ok(Id(id));
    }

    method Vote(env: Env, voter: Address, id: nat, choice: VoteChoice) returns (r: Outcome<Reply, GovernanceError>)
      requires Ordered(History(token.State(), voter))
      modifies this
      ensures GovCall(r, State()) == old(GovernanceModel.Vote(State(), token.State(), env, voter, id, choice))
    {
      if admin.None? {
        return Err(NotInitialized);
      }
      if id !in proposals {
        return Err(ProposalNotFound);
      }
      var proposal := proposals[id];
      if proposal.status != Active {
        return Err(VotingEnded);
      }
      if env.sequence > proposal.votingEnd {
        return Err(VotingEnded);
      }
      if voter in Ballot(State(), id) {
        return Err(AlreadyVoted);
      }
      var weight := token.BalanceAt(voter, proposal.createdAt);
      if weight <= 0 {
        return Err(InsufficientVotingPower);
      }
      match choice {
        case For =>
          if proposal.votesFor + weight > I128_MAX { return Err(ArithmeticOverflow); }
          proposal := proposal.(votesFor := proposal.votesFor + weight);
        case Against =>
          if proposal.votesAgainst + weight > I128_MAX { return Err(ArithmeticOverflow); }
          proposal := proposal.(votesAgainst := proposal.votesAgainst + weight);
        case Abstain =>
          if proposal.votesAbstain + weight > I128_MAX { return Err(ArithmeticOverflow); }
          proposal := proposal.(votesAbstain := proposal.votesAbstain + weight);
      }
      proposals := proposals[id := proposal];
      ballots := ballots[id := Ballot(State(), id)[voter := VoteRecord(choice, weight)]];
      r := Ok(Unit);
    }

    method Evaluate(env: Env, id: nat) returns (r: Outcome<Reply, GovernanceError>)
      modifies this`proposals
      ensures GovCall(r, State()) == old(GovernanceModel.Evaluate(State(), env, id))
    {
      if admin.None? {
        return Err(NotInitialized);
      }
      if id !in proposals {
        return Err(ProposalNotFound);
      }
      var proposal := proposals[id];
      if proposal.status != Active {
        return Ok(Status(proposal.status));
      }
      if env.sequence <= proposal.votingEnd {
        return Err(VotingStillActive);
      }
      if TurnoutOverflows(proposal) {
        return Err(ArithmeticOverflow);
      }
      if Turnout(proposal) < QuorumThreshold(State()) {
        proposal := proposal.(status := Defeated);
      } else if proposal.votesFor <= proposal.votesAgainst {
        proposal := proposal.(status := Defeated);
      } else {
        proposal := proposal.(status := Passed);
      }
      proposals := proposals[id := proposal];
      r := Ok(Status(proposal.status));
    }

    /** An error leaves storage as it was at entry: the host undoes the inner evaluation. */
    method Queue(env: Env, id: nat) returns (r: Outcome<Reply, GovernanceError>)
      modifies this`proposals
      ensures GovCall(r, State()) == old(GovernanceModel.Queue(State(), env, id))
    {
      if admin.None? {
        return Err(NotInitialized);
      }
      if id !in proposals {
        return Err(ProposalNotFound);
      }
      var entry, proposal := proposals, proposals[id];
      if proposal.status == Queued {
        return Ok(Eta(proposal.eta));
      }
      if proposal.status == Active {
        r := Evaluate(env, id);
        if !r.Ok? {
          return;
        }
        if r.value != Status(Passed) {
          proposals := entry;
          return Err(PassingThresholdNotMet);
        }
        proposal := proposals[id];
      }
      if proposal.status != Passed {
        return Err(ProposalNotQueued);
      }
      if env.sequence + timelockDelay > U64_MAX {
        proposals := entry;
        return Err(ArithmeticOverflow);
      }
      var eta := env.sequence + timelockDelay;
      proposals := proposals[id := proposal.(status := Queued, eta := eta)];
      r := Ok(Eta(eta));
    }

    method Execute(env: Env, id: nat) returns (r: Outcome<Reply, GovernanceError>)
      modifies this
      ensures GovCall(r, State()) == old(GovernanceModel.Execute(State(), env, id))
    {
      if admin.None? {
        return Err(NotInitialized);
      }
      if id !in proposals {
        return Err(ProposalNotFound);
      }
      var proposal := proposals[id];
      if proposal.status == Executed {
        return Err(ProposalAlreadyExecuted);
      }
      if proposal.status != Queued {
        return Err(ProposalNotQueued);
      }
      if env.sequence < proposal.eta {
        return Err(TimelockNotElapsed);
      }
      match proposal.action {
        case SetVotingPeriod(period) => votingPeriod := period;
        case SetTimelockDelay(delay) => timelockDelay := delay;
        case SetQuorumBps(bps) => quorumBps := bps;
        case SetProposalThreshold(threshold) => proposalThreshold := threshold;
        case _ =>
      }
      proposals := proposals[id := proposal.(status := Executed)];
      r := Ok(Unit);
    }

    method Cancel(caller: Address, id: nat) returns (r: Outcome<Reply, GovernanceError>)
      modifies this`proposals
      ensures GovCall(r, State()) == old(GovernanceModel.Cancel(State(), caller, id))
    {
      if admin.None? {
        return Err(NotInitialized);
      }
      if id !in proposals {
        return Err(ProposalNotFound);
      }
      var proposal := proposals[id];
      if proposal.status == Executed {
        return Err(CannotCancelExecuted);
      }
      if proposal.status == Cancelled {
        return Err(ProposalAlreadyCancelled);
      }
      if caller != proposal.proposer && Some(caller) != admin {
        return Err(GovernanceError.Unauthorized);
      }
      proposals := proposals[id := proposal.(status := Cancelled)];
      r := Ok(Unit);
    }
  }
}
