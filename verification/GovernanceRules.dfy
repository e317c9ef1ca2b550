/** What one governance call keeps: validated parameters, tallies that match the ballots,
    and the order of a proposal's life. */
module GovernanceRules {
  import opened Common
  import opened MapSums
  import opened TokenModel
  import opened GovernanceModel

  const MIN_PERIOD: nat := 14_400
  const MIN_DELAY: nat := 14_400

  // ── Tallies ──

  /** Each voter's contribution to one choice. */
  ghost function Weights(ballot: map<Address, VoteRecord>, choice: VoteChoice): map<Address, int> {
    map v | v in ballot :: if ballot[v].choice == choice then ballot[v].weight else 0
  }

  /** Each voter's weight, whatever the choice. */
  ghost function AllWeights(ballot: map<Address, VoteRecord>): map<Address, int> {
    map v | v in ballot :: ballot[v].weight
  }

  /** The tallies are the sums of the recorded weights, choice by choice. */
  ghost predicate TalliesMatch(p: Proposal, ballot: map<Address, VoteRecord>) {
    forall choice :: TallyOf(p, choice) == Sum(Weights(ballot, choice))
  }

  lemma VoteKeepsTallies(p: Proposal, ballot: map<Address, VoteRecord>, voter: Address, choice: VoteChoice, weight: int)
    requires TalliesMatch(p, ballot) && voter !in ballot
    ensures TalliesMatch(AddVote(p, choice, weight), ballot[voter := VoteRecord(choice, weight)])
  {
    var ballot' := ballot[voter := VoteRecord(choice, weight)];
    forall c ensures TallyOf(AddVote(p, choice, weight), c) == Sum(Weights(ballot', c)) {
      var added := if c == choice then weight else 0;
      assert Weights(ballot', c) == Weights(ballot, c)[voter := added];
      SumUpdate(Weights(ballot, c), voter, added);
      assert TallyOf(p, c) == Sum(Weights(ballot, c));
    }
  }

  /** Turnout is the sum of every voter's weight. */
  lemma TurnoutIsAllWeights(p: Proposal, ballot: map<Address, VoteRecord>)
    requires TalliesMatch(p, ballot)
    ensures Turnout(p) == Sum(AllWeights(ballot))
  {
    var decided := map v | v in ballot :: Weights(ballot, For)[v] + Weights(ballot, Against)[v];
    SumPointwise(Weights(ballot, For), Weights(ballot, Against), decided);
    SumPointwise(decided, Weights(ballot, Abstain), AllWeights(ballot));
    assert TallyOf(p, For) == Sum(Weights(ballot, For));
    assert TallyOf(p, Against) == Sum(Weights(ballot, Against));
    assert TallyOf(p, Abstain) == Sum(Weights(ballot, Abstain));
  }

  // ── The state invariant ──

  predicate Won(status: ProposalStatus) {
    status in {Passed, Queued, Executed}
  }

  /** What holds of a stored proposal at every later ledger. */
  ghost predicate ProposalSound(p: Proposal, ballot: map<Address, VoteRecord>, now: nat) {
    && p.createdAt <= now
    && Min(p.createdAt + MIN_PERIOD, U32_MAX) <= p.votingEnd
    && ValidAction(p.action)
    && TalliesMatch(p, ballot)
    && (Won(p.status) ==> p.votingEnd < now && p.votesFor > p.votesAgainst && Turnout(p) >= TOTAL_SUPPLY / 100)
    && (p.status in {Queued, Executed} ==> p.eta >= p.votingEnd + 1 + MIN_DELAY)
    && (p.status == Executed ==> p.eta <= now)
  }

  predicate ParametersSound(g: GovState) {
    && 14_400 <= g.votingPeriod <= 201_600
    && 14_400 <= g.timelockDelay <= 86_400
    && 100 <= g.quorumBps <= 2_000
    && 0 <= g.proposalThreshold
    && g.totalSupply == TOTAL_SUPPLY
  }

  /** Proposals sit under their own ids, which count up from one. */
  predicate IdsSound(g: GovState) {
    forall id :: id in g.proposals ==> g.proposals[id].id == id && 1 <= id <= g.proposalCount
  }

  ghost predicate GovSound(g: GovState, now: nat) {
    && ParametersSound(g)
    && IdsSound(g)
    && (g.admin.None? ==> g.proposals == map[] && g.proposalCount == 0)
    && g.ballots.Keys <= g.proposals.Keys
    && (forall id :: id in g.proposals ==> ProposalSound(g.proposals[id], Ballot(g, id), now))
  }

  lemma GovAdvance(g: GovState, now: nat, later: nat)
    requires GovSound(g, now) && now <= later
    ensures GovSound(g, later)
  {
  }

  lemma ReplaceSound(g: GovState, id: nat, p: Proposal, now: nat)
    requires GovSound(g, now)
    requires id in g.proposals && p.id == id && ProposalSound(p, Ballot(g, id), now)
    ensures GovSound(WithProposal(g, id, p), now)
  {
  }

  lemma QuorumAtLeastOnePercent(g: GovState)
    requires ParametersSound(g)
    ensures QuorumThreshold(g) >= TOTAL_SUPPLY / 100
  {
    assert g.totalSupply * g.quorumBps >= TOTAL_SUPPLY * 100;
  }

  lemma EvaluateSound(g: GovState, env: Env, id: nat)
    requires GovSound(g, env.sequence)
    ensures GovSound(Evaluate(g, env, id).state, env.sequence)
  {
    var g' := Evaluate(g, env, id).state;
    if g' != g {
      QuorumAtLeastOnePercent(g);
      ReplaceSound(g, id, g'.proposals[id], env.sequence);
    }
  }

  lemma QueuedProposalSound(p: Proposal, ballot: map<Address, VoteRecord>, now: nat, delay: nat)
    requires ProposalSound(p, ballot, now) && p.status == Passed && delay >= MIN_DELAY
    ensures ProposalSound(p.(status := Queued, eta := now + delay), ballot, now)
  {
    hide ValidAction;
  }

  lemma EnqueueSound(before: GovState, g: GovState, env: Env, id: nat)
    requires GovSound(before, env.sequence) && GovSound(g, env.sequence)
    requires id in g.proposals && g.proposals[id].status == Passed
    ensures GovSound(Enqueue(before, g, env, id).state, env.sequence)
  {
    hide ProposalSound;
    if Enqueue(before, g, env, id).outcome.Ok? {
      QueuedProposalSound(g.proposals[id], Ballot(g, id), env.sequence, g.timelockDelay);
      ReplaceSound(g, id, g.proposals[id].(status := Queued, eta := env.sequence + g.timelockDelay), env.sequence);
    }
  }

  lemma VotedProposalSound(p: Proposal, ballot: map<Address, VoteRecord>, now: nat,
                           voter: Address, choice: VoteChoice, weight: int)
    requires ProposalSound(p, ballot, now) && p.status == Active && voter !in ballot && weight > 0
    ensures ProposalSound(AddVote(p, choice, weight), ballot[voter := VoteRecord(choice, weight)], now)
  {
    hide ValidAction, TalliesMatch;
    VoteKeepsTallies(p, ballot, voter, choice, weight);
  }

  lemma VoteSound(g: GovState, t: TokenState, env: Env, voter: Address, id: nat, choice: VoteChoice)
    requires GovSound(g, env.sequence)
    ensures GovSound(Vote(g, t, env, voter, id, choice).state, env.sequence)
  {
    hide ProposalSound, BalanceAt;
    if Vote(g, t, env, voter, id, choice).outcome.Ok? {
      var p := g.proposals[id];
      VotedProposalSound(p, Ballot(g, id), env.sequence, voter, choice, BalanceAt(t, voter, p.createdAt));
    }
  }

  lemma CreateSound(g: GovState, t: TokenState, env: Env, proposer: Address, action: GovernableAction)
    requires GovSound(g, env.sequence) && env.sequence <= U32_MAX
    ensures GovSound(CreateProposal(g, t, env, proposer, action).state, env.sequence)
  {
    var g' := CreateProposal(g, t, env, proposer, action).state;
    if g' != g {
      assert Ballot(g', g.proposalCount + 1) == map[];
      forall choice ensures Sum(Weights(map[], choice)) == 0 {
        assert Weights(map[], choice) == map[];
      }
    }
  }

  /** An action that was validated at creation keeps the parameters in range when it is applied. */
  lemma ApplyActionSound(g: GovState, action: GovernableAction, now: nat)
    requires GovSound(g, now) && ValidAction(action)
    ensures GovSound(ApplyAction(g, action), now)
  {
    hide ProposalSound;
    ApplyActionKeeps(g, action);
  }

  lemma ApplyActionKeeps(g: GovState, action: GovernableAction)
    ensures var g' := ApplyAction(g, action);
            && g'.proposals == g.proposals && g'.ballots == g.ballots
            && g'.proposalCount == g.proposalCount && g'.admin == g.admin
  {
  }

  lemma ExecutedProposalSound(p: Proposal, ballot: map<Address, VoteRecord>, now: nat)
    requires ProposalSound(p, ballot, now) && p.status == Queued && p.eta <= now
    ensures ProposalSound(p.(status := Executed), ballot, now) && ValidAction(p.action)
  {
    hide ValidAction;
  }

  lemma ExecuteSound(g: GovState, env: Env, id: nat)
    requires GovSound(g, env.sequence)
    ensures GovSound(Execute(g, env, id).state, env.sequence)
  {
    hide ProposalSound, ApplyAction, ParametersSound;
    if Execute(g, env, id).outcome.Ok? {
      var p := g.proposals[id];
      ExecutedProposalSound(p, Ballot(g, id), env.sequence);
      ApplyActionSound(g, p.action, env.sequence);
      ApplyActionKeeps(g, p.action);
      ReplaceSound(ApplyAction(g, p.action), id, p.(status := Executed), env.sequence);
    }
  }

  lemma CancelSound(g: GovState, env: Env, caller: Address, id: nat)
    requires GovSound(g, env.sequence)
    ensures GovSound(Cancel(g, caller, id).state, env.sequence)
  {
    if Cancel(g, caller, id).outcome.Ok? {
      ReplaceSound(g, id, g.proposals[id].(status := Cancelled), env.sequence);
    }
  }

  /** Every governance call keeps `GovSound`. */
  lemma GovCallSound(g: GovState, t: TokenState, env: Env, op: GovOp)
    requires GovSound(g, env.sequence) && env.sequence <= U32_MAX
    ensures GovSound(ApplyGov(g, t, env, op).state, env.sequence)
  {
    match op
    case InitializeGovernance(_) =>
    case CreateOp(proposer, action) => CreateSound(g, t, env, proposer, action);
    case VoteOp(voter, id, choice) => VoteSound(g, t, env, voter, id, choice);
    case EvaluateOp(id) => EvaluateSound(g, env, id);
    case QueueOp(id) =>
      if Queue(g, env, id).state != g {
        EvaluateSound(g, env, id);
        EnqueueSound(g, if g.proposals[id].status == Active then Evaluate(g, env, id).state else g, env, id);
      }
    case ExecuteOp(id) => ExecuteSound(g, env, id);
    case CancelOp(caller, id) => CancelSound(g, env, caller, id);
  }

  // ── How a proposal may change ──

  /** The order of a proposal's life, transitively closed. */
  predicate Reaches(a: ProposalStatus, b: ProposalStatus) {
    || a == b
    || a == Active
    || (a == Passed && b in {Queued, Executed, Cancelled})
    || (a == Queued && b in {Executed, Cancelled})
    || (a == Defeated && b == Cancelled)
  }

  /** From `p` to `p'`: identity and deadline fixed, status only forward, tallies frozen once
      voting is over, and the execution time frozen once set. */
  predicate Evolves(p: Proposal, p': Proposal) {
    && p'.id == p.id && p'.proposer == p.proposer && p'.action == p.action
    && p'.createdAt == p.createdAt && p'.votingEnd == p.votingEnd
    && Reaches(p.status, p'.status)
    && (p.status != Active ==>
          p'.votesFor == p.votesFor && p'.votesAgainst == p.votesAgainst && p'.votesAbstain == p.votesAbstain)
    && (p.status in {Queued, Executed, Cancelled} ==> p'.eta == p.eta)
  }

  /** Every proposal of `g` evolves, ballots only grow, and ballots of closed proposals are fixed. */
  predicate GovEvolves(g: GovState, g': GovState) {
    forall id :: id in g.proposals ==>
      && id in g'.proposals
      && Evolves(g.proposals[id], g'.proposals[id])
      && (forall v :: v in Ballot(g, id) ==> v in Ballot(g', id) && Ballot(g', id)[v] == Ballot(g, id)[v])
      && (g.proposals[id].status != Active ==> Ballot(g', id) == Ballot(g, id))
  }

  lemma ReplaceEvolves(g: GovState, id: nat, p: Proposal)
    requires id in g.proposals && Evolves(g.proposals[id], p)
    ensures GovEvolves(g, WithProposal(g, id, p))
  {
  }

  lemma EvaluateEvolves(g: GovState, env: Env, id: nat)
    requires IdsSound(g)
    ensures GovEvolves(g, Evaluate(g, env, id).state) && IdsSound(Evaluate(g, env, id).state)
  {
    hide GovEvolves, QuorumThreshold, Turnout, TurnoutOverflows;
    EvolvesReflexive(g);
    var g' := Evaluate(g, env, id).state;
    if g' != g {
      ReplaceEvolves(g, id, g'.proposals[id]);
    }
  }

  lemma QueueEvolves(g: GovState, env: Env, id: nat)
    requires IdsSound(g)
    ensures GovEvolves(g, Queue(g, env, id).state)
  {
    hide GovEvolves;
    EvolvesReflexive(g);
    if Queue(g, env, id).state != g {
      EvaluateEvolves(g, env, id);
      var mid := if g.proposals[id].status == Active then Evaluate(g, env, id).state else g;
      ReplaceEvolves(mid, id, mid.proposals[id].(status := Queued, eta := env.sequence + mid.timelockDelay));
      EvolvesTransitive(g, mid, Queue(g, env, id).state);
    }
  }

  lemma ExecuteEvolves(g: GovState, env: Env, id: nat)
    requires IdsSound(g)
    ensures GovEvolves(g, Execute(g, env, id).state)
  {
    hide GovEvolves, ApplyAction;
    EvolvesReflexive(g);
    if Execute(g, env, id).outcome.Ok? {
      var p := g.proposals[id];
      var applied := ApplyAction(g, p.action);
      ApplyActionKeeps(g, p.action);
      SameProposalsEvolve(g, applied);
      ReplaceEvolves(applied, id, p.(status := Executed));
      EvolvesTransitive(g, applied, Execute(g, env, id).state);
    }
  }

  lemma BallotGrows(g: GovState, id: nat, p: Proposal, voter: Address, record: VoteRecord)
    requires id in g.proposals && g.proposals[id].status == Active && Evolves(g.proposals[id], p)
    requires voter !in Ballot(g, id)
    ensures GovEvolves(g, WithProposal(g, id, p).(ballots := g.ballots[id := Ballot(g, id)[voter := record]]))
  {
    hide Evolves;
    forall other | other in g.proposals ensures Evolves(g.proposals[other], g.proposals[other]) {
      EvolvesReflexive(g);
    }
  }

  lemma VoteEvolves(g: GovState, t: TokenState, env: Env, voter: Address, id: nat, choice: VoteChoice)
    requires IdsSound(g)
    ensures GovEvolves(g, Vote(g, t, env, voter, id, choice).state)
  {
    hide BalanceAt, GovEvolves;
    EvolvesReflexive(g);
    if Vote(g, t, env, voter, id, choice).outcome.Ok? {
      var weight := BalanceAt(t, voter, g.proposals[id].createdAt);
      BallotGrows(g, id, AddVote(g.proposals[id], choice, weight), voter, VoteRecord(choice, weight));
    }
  }

  lemma CreateEvolves(g: GovState, t: TokenState, env: Env, proposer: Address, action: GovernableAction)
    requires IdsSound(g)
    ensures GovEvolves(g, CreateProposal(g, t, env, proposer, action).state)
  {
    hide ValidAction, Evolves, Balance;
    forall id | id in g.proposals ensures Evolves(g.proposals[id], g.proposals[id]) {
      EvolvesReflexive(g);
    }
  }

  lemma CancelEvolves(g: GovState, caller: Address, id: nat)
    requires IdsSound(g)
    ensures GovEvolves(g, Cancel(g, caller, id).state)
  {
    hide GovEvolves;
    EvolvesReflexive(g);
    if Cancel(g, caller, id).outcome.Ok? {
      ReplaceEvolves(g, id, g.proposals[id].(status := Cancelled));
    }
  }

  lemma SameProposalsEvolve(g: GovState, g': GovState)
    requires g.proposals == g'.proposals && g.ballots == g'.ballots
    ensures GovEvolves(g, g')
  {
  }

  /** One governance call moves proposals forward and touches no closed ballot. */
  lemma GovCallEvolves(g: GovState, t: TokenState, env: Env, op: GovOp)
    requires IdsSound(g)
    ensures GovEvolves(g, ApplyGov(g, t, env, op).state)
  {
    hide GovEvolves, IdsSound, CreateProposal, Vote, Evaluate, Queue, Execute, Cancel;
    match op
    case InitializeGovernance(_) => SameProposalsEvolve(g, ApplyGov(g, t, env, op).state);
    case CreateOp(proposer, action) => CreateEvolves(g, t, env, proposer, action);
    case VoteOp(voter, id, choice) => VoteEvolves(g, t, env, voter, id, choice);
    case EvaluateOp(id) => EvaluateEvolves(g, env, id);
    case QueueOp(id) => QueueEvolves(g, env, id);
    case ExecuteOp(id) => ExecuteEvolves(g, env, id);
    case CancelOp(caller, id) => CancelEvolves(g, caller, id);
  }

  // ── Who can change what ──

  /** The voting period, the timelock, the quorum and the threshold. */
  function Parameters(g: GovState): (nat, nat, nat, int) {
    (g.votingPeriod, g.timelockDelay, g.quorumBps, g.proposalThreshold)
  }

  /** A proposal appears only by a holder of the threshold proposing a valid action, is cancelled only
      by its proposer or the admin, and after initialization parameters change only by executing a
      queued proposal whose time has come. */
  lemma ChangesAreAuthorised(g: GovState, t: TokenState, env: Env, op: GovOp, id: nat)
    requires IdsSound(g)
    ensures var g' := ApplyGov(g, t, env, op).state;
            && (id in g'.proposals && id !in g.proposals ==>
                  && op.CreateOp? && Balance(t, op.proposer) >= g.proposalThreshold && ValidAction(op.action)
                  && g'.proposals[id].status == Active && g'.proposals[id].createdAt == env.sequence
                  && g'.proposals[id].proposer == op.proposer && g'.proposals[id].action == op.action)
            && (id in g'.proposals && id in g.proposals
                && g'.proposals[id].status == Cancelled && g.proposals[id].status != Cancelled ==>
                  && op.CancelOp? && op.id == id && g.proposals[id].status != Executed
                  && (op.caller == g.proposals[id].proposer || g.admin == Some(op.caller)))
            && (g.admin.Some? && Parameters(g') != Parameters(g) ==>
                  && op.ExecuteOp? && op.id in g.proposals
                  && g.proposals[op.id].status == Queued && g.proposals[op.id].eta <= env.sequence
                  && g'.proposals[op.id].status == Executed)
  {
    hide Turnout, TurnoutOverflows, QuorumThreshold, BalanceAt, ValidAction, Ballot;
  }

  lemma EvolvesReflexive(g: GovState)
    ensures GovEvolves(g, g)
  {
  }

  lemma EvolvesTransitive(a: GovState, b: GovState, c: GovState)
    requires GovEvolves(a, b) && GovEvolves(b, c)
    ensures GovEvolves(a, c)
  {
    forall id | id in a.proposals
      ensures id in c.proposals && Evolves(a.proposals[id], c.proposals[id])
    {
      assert Evolves(a.proposals[id], b.proposals[id]) && Evolves(b.proposals[id], c.proposals[id]);
    }
  }
}
