/** What each governance call does, said in terms of the stored fields before and after it: when it is
    accepted, what it writes, and that it writes nothing else. */
module GovernanceEffects {
  import opened Common
  import opened TokenModel
  import opened GovernanceModel
  import opened GovernanceRules
  import R = RegistryModel

  /** Nothing but proposal `id` and its ballot differs. */
  ghost predicate OnlyProposal(g: GovState, g': GovState, id: nat) {
    && g'.admin == g.admin && g'.totalSupply == g.totalSupply
    && g'.votingPeriod == g.votingPeriod && g'.timelockDelay == g.timelockDelay
    && g'.quorumBps == g.quorumBps && g'.proposalThreshold == g.proposalThreshold
    && OtherProposalsKept(g, g', id)
  }

  ghost predicate OtherProposalsKept(g: GovState, g': GovState, id: nat) {
    forall other :: other != id ==>
      && (other in g'.proposals <==> other in g.proposals)
      && (other in g.proposals ==> g'.proposals[other] == g.proposals[other])
      && Ballot(g', other) == Ballot(g, other)
  }

  // ── Voting ──

  /** When a vote counts, read from storage before the call. */
  predicate CanVote(g: GovState, t: TokenState, env: Env, voter: Address, id: nat, choice: VoteChoice) {
    && g.admin.Some? && id in g.proposals
    && var p := g.proposals[id];
    && p.status == Active && env.sequence <= p.votingEnd
    && voter !in Ballot(g, id)
    && var weight := BalanceAt(t, voter, p.createdAt);
    && weight > 0
    && match choice
       case For => p.votesFor + weight <= I128_MAX
       case Against => p.votesAgainst + weight <= I128_MAX
       case Abstain => p.votesAbstain + weight <= I128_MAX
  }

  /** A vote is accepted exactly when it can be cast. Then the voter's record is the choice they named
      with what they held at the creation ledger, the tally of that choice grows by as much, and the
      other two tallies, the other records and everything else stay. */
  lemma VoteCounts(g: GovState, t: TokenState, env: Env, voter: Address, id: nat, choice: VoteChoice)
    ensures var GovCall(r, g') := Vote(g, t, env, voter, id, choice);
            && (r.Ok? <==> CanVote(g, t, env, voter, id, choice))
            && (!r.Ok? ==> g' == g)
            && (r.Ok? ==>
                  var p, p' := g.proposals[id], g'.proposals[id];
                  var weight := BalanceAt(t, voter, p.createdAt);
                  && Ballot(g', id) == Ballot(g, id)[voter := VoteRecord(choice, weight)]
                  && p'.votesFor == p.votesFor + (if choice == For then weight else 0)
                  && p'.votesAgainst == p.votesAgainst + (if choice == Against then weight else 0)
                  && p'.votesAbstain == p.votesAbstain + (if choice == Abstain then weight else 0)
                  && p'.(votesFor := p.votesFor, votesAgainst := p.votesAgainst, votesAbstain := p.votesAbstain) == p
                  && OnlyProposal(g, g', id) && g'.proposalCount == g.proposalCount)
            && (r == Err(NotInitialized) <==> g.admin.None?)
            && (r == Err(ProposalNotFound) <==> g.admin.Some? && id !in g.proposals)
            && (r == Err(VotingEnded) ==> g.proposals[id].status != Active || env.sequence > g.proposals[id].votingEnd)
            && (r == Err(AlreadyVoted) ==> voter in Ballot(g, id))
            && (r == Err(InsufficientVotingPower) ==> BalanceAt(t, voter, g.proposals[id].createdAt) <= 0)
  {
    hide BalanceAt;
  }

  // ── Deciding ──

  /** Turnout reaches the quorum, a share of the supply in basis points rounded down, and more votes
      are for than against. Abstentions count towards the quorum only. */
  predicate Carries(g: GovState, p: Proposal) {
    && 10_000 * (p.votesFor + p.votesAgainst + p.votesAbstain + 1) > g.totalSupply * g.quorumBps
    && p.votesFor > p.votesAgainst
  }

  predicate TalliesFit(p: Proposal) {
    p.votesFor + p.votesAgainst <= I128_MAX && p.votesFor + p.votesAgainst + p.votesAbstain <= I128_MAX
  }

  predicate CanDecide(g: GovState, env: Env, id: nat) {
    && g.admin.Some? && id in g.proposals && g.proposals[id].status == Active
    && env.sequence > g.proposals[id].votingEnd && TalliesFit(g.proposals[id])
  }

  /** The quorum is met exactly when one vote more would exceed the exact share of the supply. */
  lemma QuorumIsRoundedDown(g: GovState, votes: int)
    ensures votes >= QuorumThreshold(g) <==> 10_000 * (votes + 1) > g.totalSupply * g.quorumBps
  {
    var product := g.totalSupply * g.quorumBps;
    assert QuorumThreshold(g) == product / 10_000;
  }

  /** An Active proposal is decided exactly when its deadline has passed, and it passes exactly when it
      carries; a decided one is only reported; nothing else is written. */
  lemma EvaluateDecides(g: GovState, env: Env, id: nat)
    ensures var GovCall(r, g') := Evaluate(g, env, id);
            && (r.Ok? <==>
                  CanDecide(g, env, id) || (g.admin.Some? && id in g.proposals && g.proposals[id].status != Active))
            && (CanDecide(g, env, id) ==>
                  var verdict := if Carries(g, g.proposals[id]) then Passed else Defeated;
                  && r == Ok(Status(verdict))
                  && id in g'.proposals && g'.proposals[id] == g.proposals[id].(status := verdict)
                  && OnlyProposal(g, g', id) && Ballot(g', id) == Ballot(g, id)
                  && g'.proposalCount == g.proposalCount)
            && (!CanDecide(g, env, id) ==> g' == g)
            && (r.Ok? && !CanDecide(g, env, id) ==> r.value == Status(g.proposals[id].status))
            && (r == Err(VotingStillActive) ==> env.sequence <= g.proposals[id].votingEnd)
            && (r == Err(ArithmeticOverflow) ==> !TalliesFit(g.proposals[id]))
  {
    hide QuorumThreshold;
    if id in g.proposals {
      QuorumIsRoundedDown(g, Turnout(g.proposals[id]));
    }
  }

  // ── Queueing ──

  /** Passed already, or about to be by the evaluation that queueing makes first. */
  predicate CanQueue(g: GovState, env: Env, id: nat) {
    && g.admin.Some? && id in g.proposals
    && (g.proposals[id].status == Passed || (CanDecide(g, env, id) && Carries(g, g.proposals[id])))
    && env.sequence + g.timelockDelay <= U64_MAX
  }

  /** Queueing schedules a proposal that has carried for exactly the timelock delay from now; queueing
      it again answers with the time it has; everything else is refused and changes nothing. */
  lemma QueueSchedules(g: GovState, env: Env, id: nat)
    ensures var GovCall(r, g') := Queue(g, env, id);
            && (CanQueue(g, env, id) ==>
                  && r == Ok(Eta(env.sequence + g.timelockDelay))
                  && id in g'.proposals
                  && g'.proposals[id] == g.proposals[id].(status := Queued, eta := env.sequence + g.timelockDelay)
                  && OnlyProposal(g, g', id) && Ballot(g', id) == Ballot(g, id)
                  && g'.proposalCount == g.proposalCount)
            && (!CanQueue(g, env, id) ==> g' == g)
            && (!CanQueue(g, env, id) && r.Ok? <==>
                  g.admin.Some? && id in g.proposals && g.proposals[id].status == Queued)
            && (!CanQueue(g, env, id) && r.Ok? ==> r.value == Eta(g.proposals[id].eta))
            && (r == Err(PassingThresholdNotMet) ==> g.proposals[id].status == Active && !Carries(g, g.proposals[id]))
  {
    hide QuorumThreshold, Turnout;
    EvaluateDecides(g, env, id);
  }

  // ── Executing ──

  predicate IsDue(g: GovState, env: Env, id: nat) {
    && g.admin.Some? && id in g.proposals
    && g.proposals[id].status == Queued && g.proposals[id].eta <= env.sequence
  }

  datatype Setting = VotingPeriod | TimelockDelay | Quorum | Threshold

  function SettingOf(g: GovState, k: Setting): int {
    match k
    case VotingPeriod => g.votingPeriod
    case TimelockDelay => g.timelockDelay
    case Quorum => g.quorumBps
    case Threshold => g.proposalThreshold
  }

  /** The value an action asks for, if it is about that setting. */
  function Asks(action: GovernableAction, k: Setting): Option<int> {
    match k
    case VotingPeriod => if action.SetVotingPeriod? then Some(action.period) else None
    case TimelockDelay => if action.SetTimelockDelay? then Some(action.delay) else None
    case Quorum => if action.SetQuorumBps? then Some(action.bps) else None
    case Threshold => if action.SetProposalThreshold? then Some(action.threshold) else None
  }

  function OrKeep(asked: Option<int>, current: int): int {
    if asked.Some? then asked.value else current
  }

  /** Execution succeeds exactly when the proposal is queued and due. It sets exactly the setting the
      action names to the value it names, marks the proposal and writes nothing else. */
  lemma ExecuteAmends(g: GovState, env: Env, id: nat, k: Setting)
    ensures var GovCall(r, g') := Execute(g, env, id);
            && (r.Ok? <==> IsDue(g, env, id))
            && (!r.Ok? ==> g' == g)
            && (r.Ok? ==>
                  && SettingOf(g', k) == OrKeep(Asks(g.proposals[id].action, k), SettingOf(g, k))
                  && id in g'.proposals && g'.proposals[id] == g.proposals[id].(status := Executed)
                  && OtherProposalsKept(g, g', id) && Ballot(g', id) == Ballot(g, id)
                  && g'.admin == g.admin && g'.totalSupply == g.totalSupply && g'.proposalCount == g.proposalCount)
            && (r == Err(ProposalAlreadyExecuted) ==> g.proposals[id].status == Executed)
            && (r == Err(TimelockNotElapsed) ==> env.sequence < g.proposals[id].eta)
  {
    if id in g.proposals {
      ApplyActionKeeps(g, g.proposals[id].action);
    }
  }

  // ── Proposing and cancelling ──

  predicate CanPropose(g: GovState, t: TokenState, proposer: Address, action: GovernableAction) {
    && g.admin.Some? && Balance(t, proposer) >= g.proposalThreshold && ValidAction(action)
    && g.proposalCount < U64_MAX
  }

  /** A proposal is opened exactly for a holder of the threshold with a valid action. It gets the next
      id, no votes, and a deadline one voting period from now, or the last ledger if that comes first. */
  lemma ProposalOpens(g: GovState, t: TokenState, env: Env, proposer: Address, action: GovernableAction)
    ensures var GovCall(r, g') := CreateProposal(g, t, env, proposer, action);
            var id := g.proposalCount + 1;
            && (r.Ok? <==> CanPropose(g, t, proposer, action))
            && (!r.Ok? ==> g' == g)
            && (r.Ok? ==>
                  && r.value == Id(id) && g'.proposalCount == id && id in g'.proposals
                  && var p := g'.proposals[id];
                  && p.id == id && p.proposer == proposer && p.action == action && p.status == Active
                  && p.createdAt == env.sequence && p.eta == 0
                  && p.votesFor == 0 && p.votesAgainst == 0 && p.votesAbstain == 0
                  && (env.sequence + g.votingPeriod <= U32_MAX ==> p.votingEnd == env.sequence + g.votingPeriod)
                  && (env.sequence + g.votingPeriod > U32_MAX ==> p.votingEnd == U32_MAX)
                  && OnlyProposal(g, g', id) && Ballot(g', id) == Ballot(g, id))
            && (r == Err(InsufficientProposerBalance) ==> Balance(t, proposer) < g.proposalThreshold)
            && (r == Err(InvalidParameterValue) ==> !ValidAction(action))
  {
    hide ValidAction, Balance;
  }

  /** The proposer and the admin, and nobody else, can cancel, in any state but Executed and Cancelled. */
  lemma CancelWithdraws(g: GovState, caller: Address, id: nat)
    ensures var GovCall(r, g') := Cancel(g, caller, id);
            && (r.Ok? <==>
                  && g.admin.Some? && id in g.proposals
                  && g.proposals[id].status in {Active, Passed, Defeated, Queued}
                  && (caller == g.proposals[id].proposer || caller == g.admin.value))
            && (!r.Ok? ==> g' == g)
            && (r.Ok? ==>
                  && id in g'.proposals && g'.proposals[id] == g.proposals[id].(status := Cancelled)
                  && OnlyProposal(g, g', id) && Ballot(g', id) == Ballot(g, id)
                  && g'.proposalCount == g.proposalCount)
  {
  }

  // ── Which actions are valid ──

  /** A self-amendment is valid exactly when applying it keeps the parameters in their ranges. */
  lemma ValidIffKeepsRanges(g: GovState, action: GovernableAction)
    requires ParametersSound(g)
    requires action.SetVotingPeriod? || action.SetTimelockDelay? || action.SetQuorumBps? || action.SetProposalThreshold?
    ensures ValidAction(action) <==> ParametersSound(ApplyAction(g, action))
  {
  }

  /** A proposal about the registry's own settings is valid exactly when the registry would take the
      value from its admin. */
  lemma ValidIffRegistryAccepts(registry: R.Registry, action: GovernableAction)
    requires registry.admin.Some?
    ensures var admin := registry.admin.value;
            && (action.SetFeeBps? ==>
                  (ValidAction(action) <==> R.SetFeeBps(registry, admin, action.bps).outcome.Ok?))
            && (action.SetMinReward? ==>
                  (ValidAction(action) <==> R.SetMinReward(registry, admin, action.min).outcome.Ok?))
            && (action.SetReputationFloor? ==>
                  (ValidAction(action) <==> R.SetReputationFloor(registry, admin, action.floor).outcome.Ok?))
  {
  }

  /** A treasury share is between one basis point and all of it; the other actions carry nothing to check. */
  lemma ValidTreasuryActions(action: GovernableAction)
    ensures action.AddTreasuryRecipient? || action.UpdateTreasuryShares? ==>
              (ValidAction(action) <==> 0 < action.shares <= 10_000)
    ensures (|| action.PauseRegistry? || action.UnpauseRegistry? || action.PauseTreasury? || action.UnpauseTreasury?
             || action.RemoveTreasuryRecipient? || action.UpgradeRegistry? || action.UpgradeTreasury?)
            ==> ValidAction(action)
  {
  }

  /** What is left of the timelock, to the ledger. */
  lemma RemainingDelayIsExact(g: GovState, env: Env, id: nat, delay: nat)
    ensures GetRemainingDelay(g, env, id) == Ok(delay) <==>
              && id in g.proposals && g.proposals[id].status == Queued
              && (if env.sequence < g.proposals[id].eta then env.sequence + delay == g.proposals[id].eta
                  else delay == 0)
  {
  }

  /** What any observer computes: the stored status once there is one, Active until the deadline, and
      after it the verdict that evaluation would write. */
  lemma StatusViewIsExact(g: GovState, env: Env, id: nat)
    ensures var r := GetProposalStatus(g, env, id);
            && (id !in g.proposals ==> r == Err(ProposalNotFound))
            && (id in g.proposals ==>
                  var p := g.proposals[id];
                  && (p.status != Active ==> r == Ok(p.status))
                  && (p.status == Active && env.sequence <= p.votingEnd ==> r == Ok(Active))
                  && (p.status == Active && env.sequence > p.votingEnd && TalliesFit(p) ==>
                        r == Ok(if Carries(g, p) then Passed else Defeated))
                  && (p.status == Active && env.sequence > p.votingEnd && !TalliesFit(p) ==>
                        r == Err(ArithmeticOverflow)))
  {
    hide QuorumThreshold;
    if id in g.proposals {
      QuorumIsRoundedDown(g, Turnout(g.proposals[id]));
    }
  }

  /** Initialization succeeds once: it names the admin and sets a voting period of 50,400 ledgers, a delay
      of 28,800, a quorum of 400 basis points of 100 million tokens and a threshold of 100,000 tokens. */
  lemma InitializationSets(g: GovState, admin: Address)
    ensures var GovCall(r, g') := InitializeGov(g, admin);
            && (r.Ok? <==> g.admin.None?)
            && (!r.Ok? ==> g' == g && r == Err(GovernanceError.AlreadyInitialized))
            && (r.Ok? ==>
                  && g'.admin == Some(admin) && g'.proposalCount == 0
                  && g'.votingPeriod == 50_400 && g'.timelockDelay == 28_800 && g'.quorumBps == 400
                  && g'.proposalThreshold == 100_000 * 10_000_000 && g'.totalSupply == 100_000_000 * 10_000_000
                  && g'.proposals == g.proposals && g'.ballots == g.ballots)
  {
  }
}
