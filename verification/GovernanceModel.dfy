/** The governance contract as functions on values: what each entry point does to storage and how it ends. */
module GovernanceModel {
  import opened Common
  import opened TokenModel

  datatype GovernanceError =
    | AlreadyInitialized
    | NotInitialized
    | InsufficientProposerBalance
    | InvalidParameterValue
    | ProposalNotFound
    | VotingEnded
    | VotingStillActive
    | AlreadyVoted
    | PassingThresholdNotMet
    | TimelockNotElapsed
    | ProposalAlreadyExecuted
    | ProposalNotQueued
    | Unauthorized
    | ArithmeticOverflow
    | InsufficientVotingPower
    | ProposalAlreadyCancelled
    | CannotCancelExecuted

  datatype VoteChoice = Against | For | Abstain

  datatype VoteRecord = VoteRecord(choice: VoteChoice, weight: int)

  datatype GovernableAction =
    | SetFeeBps(bps: nat)
    | SetMinReward(min: int)
    | SetReputationFloor(floor: nat)
    | PauseRegistry
    | UnpauseRegistry
    | AddTreasuryRecipient(recipient: Address, shares: nat)
    | RemoveTreasuryRecipient(recipient: Address)
    | UpdateTreasuryShares(recipient: Address, shares: nat)
    | PauseTreasury
    | UnpauseTreasury
    | SetVotingPeriod(period: nat)
    | SetTimelockDelay(delay: nat)
    | SetQuorumBps(bps: nat)
    | SetProposalThreshold(threshold: int)
    | UpgradeRegistry(hash: nat)
    | UpgradeTreasury(hash: nat)

  datatype ProposalStatus = Active | Passed | Queued | Executed | Defeated | Cancelled

  datatype Proposal = Proposal(
    id: nat,
    proposer: Address,
    action: GovernableAction,
    status: ProposalStatus,
    createdAt: nat,
    votingEnd: nat,
    eta: nat,
    votesFor: int,
    votesAgainst: int,
    votesAbstain: int)

  /** Governance storage. `ballots[id][voter]` is the record under `Vote(id, voter)`; a
      parameter that was never written holds the default its reader falls back to. */
  datatype GovState = GovState(
    admin: Option<Address>,
    proposalThreshold: int,
    votingPeriod: nat,
    timelockDelay: nat,
    quorumBps: nat,
    totalSupply: int,
    proposalCount: nat,
    proposals: map<nat, Proposal>,
    ballots: map<nat, map<Address, VoteRecord>>)

  /** What a successful call returns. */
  datatype Reply = Unit | Id(id: nat) | Status(status: ProposalStatus) | Eta(eta: nat)

  datatype GovCall = GovCall(outcome: Outcome<Reply, GovernanceError>, state: GovState)

  const DEFAULT_PROPOSAL_THRESHOLD: int := 100_000 * ONE_TOKEN
  const DEFAULT_VOTING_PERIOD: nat := 50_400
  const DEFAULT_TIMELOCK_DELAY: nat := 28_800
  const DEFAULT_QUORUM_BPS: nat := 400

  const EmptyGov: GovState := GovState(
    None, DEFAULT_PROPOSAL_THRESHOLD, DEFAULT_VOTING_PERIOD, DEFAULT_TIMELOCK_DELAY, DEFAULT_QUORUM_BPS,
    100_000_000 * ONE_TOKEN, 0, map[], map[])

  // ── Views ──

  function Ballot(g: GovState, id: nat): map<Address, VoteRecord> {
    if id in g.ballots then g.ballots[id] else map[]
  }

  function Turnout(p: Proposal): int {
    p.votesFor + p.votesAgainst + p.votesAbstain
  }

  /** The two `checked_add`s over the tallies. */
  predicate TurnoutOverflows(p: Proposal) {
    p.votesFor + p.votesAgainst > I128_MAX || Turnout(p) > I128_MAX
  }

  function QuorumThreshold(g: GovState): int {
    (g.totalSupply * g.quorumBps) / 10_000
  }

  predicate ValidAction(action: GovernableAction) {
    match action
    case SetFeeBps(bps) => bps <= 10_000
    case SetMinReward(min) => 0 <= min
    case SetReputationFloor(floor) => floor <= 10_000
    case AddTreasuryRecipient(_, shares) => 1 <= shares <= 10_000
    case UpdateTreasuryShares(_, shares) => 1 <= shares <= 10_000
    case SetVotingPeriod(period) => 14_400 <= period <= 201_600
    case SetTimelockDelay(delay) => 14_400 <= delay <= 86_400
    case SetQuorumBps(bps) => 100 <= bps <= 2_000
    case SetProposalThreshold(threshold) => 0 <= threshold
    case _ => true
  }

  /** `get_proposal_status`: the status an observer computes from public state. */
  function GetProposalStatus(g: GovState, env: Env, id: nat): Outcome<ProposalStatus, GovernanceError> {
    if id !in g.proposals then Err(ProposalNotFound)
    else
      var p := g.proposals[id];
      if p.status != Active then Ok(p.status)
      else if env.sequence <= p.votingEnd then Ok(Active)
      else if TurnoutOverflows(p) then Err(ArithmeticOverflow)
      else if Turnout(p) < QuorumThreshold(g) || p.votesFor <= p.votesAgainst then Ok(Defeated)
      else Ok(Passed)
  }

  function IsExecutable(g: GovState, env: Env, id: nat): Outcome<bool, GovernanceError> {
    if id !in g.proposals then Err(ProposalNotFound)
    else Ok(g.proposals[id].status == Queued && env.sequence >= g.proposals[id].eta)
  }

  function GetRemainingDelay(g: GovState, env: Env, id: nat): Outcome<nat, GovernanceError> {
    if id !in g.proposals then Err(ProposalNotFound)
    else if g.proposals[id].status != Queued then Err(ProposalNotQueued)
    else Ok(SaturatingSub(g.proposals[id].eta, env.sequence))
  }

  // ── Entry points ──

  function WithProposal(g: GovState, id: nat, p: Proposal): GovState {
    g.(proposals := g.proposals[id := p])
  }

  function InitializeGov(g: GovState, admin: Address): GovCall {
    if g.admin.Some? then GovCall(Err(GovernanceError.AlreadyInitialized), g)
    else GovCall(Ok(Unit), g.(
      admin := Some(admin),
      proposalThreshold := DEFAULT_PROPOSAL_THRESHOLD,
      votingPeriod := DEFAULT_VOTING_PERIOD,
      timelockDelay := DEFAULT_TIMELOCK_DELAY,
      quorumBps := DEFAULT_QUORUM_BPS,
      proposalCount := 0,
      totalSupply := TOTAL_SUPPLY))
  }

  function CreateProposal(g: GovState, t: TokenState, env: Env, proposer: Address, action: GovernableAction): GovCall {
    if g.admin.None? then GovCall(Err(NotInitialized), g)
    else if Balance(t, proposer) < g.proposalThreshold then GovCall(Err(InsufficientProposerBalance), g)
    else if !ValidAction(action) then GovCall(Err(InvalidParameterValue), g)
    else if g.proposalCount + 1 > U64_MAX then GovCall(Err(ArithmeticOverflow), g)
    else
      var id := g.proposalCount + 1;
      var p := Proposal(id, proposer, action, Active, env.sequence,
                        SaturatingAddU32(env.sequence, g.votingPeriod), 0, 0, 0, 0);
      GovCall(Ok(Id(id)), WithProposal(g, id, p).(proposalCount := id))
  }

  /** The tally the choice names. */
  function TallyOf(p: Proposal, choice: VoteChoice): int {
    match choice
    case For => p.votesFor
    case Against => p.votesAgainst
    case Abstain => p.votesAbstain
  }

  function AddVote(p: Proposal, choice: VoteChoice, weight: int): Proposal {
    match choice
    case For => p.(votesFor := p.votesFor + weight)
    case Against => p.(votesAgainst := p.votesAgainst + weight)
    case Abstain => p.(votesAbstain := p.votesAbstain + weight)
  }

  function Vote(g: GovState, t: TokenState, env: Env, voter: Address, id: nat, choice: VoteChoice): GovCall {
    if g.admin.None? then GovCall(Err(NotInitialized), g)
    else if id !in g.proposals then GovCall(Err(ProposalNotFound), g)
    else
      var p := g.proposals[id];
      if p.status != Active || env.sequence > p.votingEnd then GovCall(Err(VotingEnded), g)
      else if voter in Ballot(g, id) then GovCall(Err(AlreadyVoted), g)
      else
        var weight := BalanceAt(t, voter, p.createdAt);
        if weight <= 0 then GovCall(Err(InsufficientVotingPower), g)
        else if TallyOf(p, choice) + weight > I128_MAX then GovCall(Err(ArithmeticOverflow), g)
        else
          var ballot := Ballot(g, id)[voter := VoteRecord(choice, weight)];
          GovCall(Ok(Unit), WithProposal(g, id, AddVote(p, choice, weight)).(ballots := g.ballots[id := ballot]))
  }

  function Evaluate(g: GovState, env: Env, id: nat): GovCall {
    if g.admin.None? then GovCall(Err(NotInitialized), g)
    else if id !in g.proposals then GovCall(Err(ProposalNotFound), g)
    else
      var p := g.proposals[id];
      if p.status != Active then GovCall(Ok(Status(p.status)), g)
      else if env.sequence <= p.votingEnd then GovCall(Err(VotingStillActive), g)
      else if TurnoutOverflows(p) then GovCall(Err(ArithmeticOverflow), g)
      else
        var status :=
          if Turnout(p) < QuorumThreshold(g) then Defeated
          else if p.votesFor <= p.votesAgainst then Defeated
          else Passed;
        GovCall(Ok(Status(status)), WithProposal(g, id, p.(status := status)))
  }

  /** `queue_proposal`, evaluating an Active proposal first. An error reverts the evaluation too. */
  function Queue(g: GovState, env: Env, id: nat): GovCall {
    if g.admin.None? then GovCall(Err(NotInitialized), g)
    else if id !in g.proposals then GovCall(Err(ProposalNotFound), g)
    else if g.proposals[id].status == Queued then GovCall(Ok(Eta(g.proposals[id].eta)), g)
    else if g.proposals[id].status == Active then
      var evaluated := Evaluate(g, env, id);
      if !evaluated.outcome.Ok? then GovCall(evaluated.outcome, g)
      else if evaluated.outcome.value != Status(Passed) then GovCall(Err(PassingThresholdNotMet), g)
      else Enqueue(g, evaluated.state, env, id)
    else if g.proposals[id].status != Passed then GovCall(Err(ProposalNotQueued), g)
    else Enqueue(g, g, env, id)
  }

  /** Schedule the proposal of `g`; a failure reverts to `before`. */
  function Enqueue(before: GovState, g: GovState, env: Env, id: nat): GovCall {
    if id !in g.proposals then GovCall(Err(ProposalNotFound), before)
    else if env.sequence + g.timelockDelay > U64_MAX then GovCall(Err(ArithmeticOverflow), before)
    else
      var eta := env.sequence + g.timelockDelay;
      GovCall(Ok(Eta(eta)), WithProposal(g, id, g.proposals[id].(status := Queued, eta := eta)))
  }

  function ApplyAction(g: GovState, action: GovernableAction): GovState {
    match action
    case SetVotingPeriod(period) => g.(votingPeriod := period)
    case SetTimelockDelay(delay) => g.(timelockDelay := delay)
    case SetQuorumBps(bps) => g.(quorumBps := bps)
    case SetProposalThreshold(threshold) => g.(proposalThreshold := threshold)
    case _ => g
  }

  function Execute(g: GovState, env: Env, id: nat): GovCall {
    if g.admin.None? then GovCall(Err(NotInitialized), g)
    else if id !in g.proposals then GovCall(Err(ProposalNotFound), g)
    else
      var p := g.proposals[id];
      if p.status == Executed then GovCall(Err(ProposalAlreadyExecuted), g)
      else if p.status != Queued then GovCall(Err(ProposalNotQueued), g)
      else if env.sequence < p.eta then GovCall(Err(TimelockNotElapsed), g)
      else GovCall(Ok(Unit), WithProposal(ApplyAction(g, p.action), id, p.(status := Executed)))
  }

  function Cancel(g: GovState, caller: Address, id: nat): GovCall {
    if g.admin.None? then GovCall(Err(NotInitialized), g)
    else if id !in g.proposals then GovCall(Err(ProposalNotFound), g)
    else
      var p := g.proposals[id];
      if p.status == Executed then GovCall(Err(CannotCancelExecuted), g)
      else if p.status == Cancelled then GovCall(Err(ProposalAlreadyCancelled), g)
      else if caller != p.proposer && Some(caller) != g.admin then GovCall(Err(GovernanceError.Unauthorized), g)
      else GovCall(Ok(Unit), WithProposal(g, id, p.(status := Cancelled)))
  }

  // ── Calls as data ──

  datatype GovOp =
    | InitializeGovernance(admin: Address)
    | CreateOp(proposer: Address, action: GovernableAction)
    | VoteOp(voter: Address, id: nat, choice: VoteChoice)
    | EvaluateOp(id: nat)
    | QueueOp(id: nat)
    | ExecuteOp(id: nat)
    | CancelOp(caller: Address, id: nat)

  function ApplyGov(g: GovState, t: TokenState, env: Env, op: GovOp): GovCall {
    match op
    case InitializeGovernance(admin) => InitializeGov(g, admin)
    case CreateOp(proposer, action) => CreateProposal(g, t, env, proposer, action)
    case VoteOp(voter, id, choice) => Vote(g, t, env, voter, id, choice)
    case EvaluateOp(id) => Evaluate(g, env, id)
    case QueueOp(id) => Queue(g, env, id)
    case ExecuteOp(id) => Execute(g, env, id)
    case CancelOp(caller, id) => Cancel(g, caller, id)
  }
}
