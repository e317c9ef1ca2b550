/** Voting theorems over whole runs: what a vote weighs, what the tallies can add up to, and what
    stays fixed once voting is over. */
module VotingRuns {
  import opened Common
  import opened MapSums
  import opened TokenModel
  import opened TokenHistory
  import opened GovernanceModel
  import opened GovernanceRules
  import opened Protocol
  import opened TokenRuns

  // ── Snapshot weights ──

  /** The step casts a vote on the proposal. */
  predicate CastsVote(s: System, op: Op, id: nat) {
    && op.OnGov? && op.govOp.VoteOp? && op.govOp.id == id
    && ApplyGov(s.gov, s.token, s.env, op.govOp).outcome.Ok?
  }

  /** Everyone who voted within the proposal's creation ledger, while balances there could still change. */
  function EarlyVoters(s: System, ops: seq<Op>, id: nat): set<Address> {
    if ops == [] then {}
    else
      var mid, last := Run(s, ops[..|ops| - 1]), ops[|ops| - 1];
      EarlyVoters(s, ops[..|ops| - 1], id) +
      (if CastsVote(mid, last, id) && id in mid.gov.proposals && mid.env.sequence <= mid.gov.proposals[id].createdAt
       then {last.govOp.voter} else {})
  }

  /** Votes from outside `early` weigh what the voter held when the creation ledger closed. */
  predicate SnapshotTrue(s: System, id: nat, early: set<Address>) {
    id in s.gov.proposals ==>
      forall v :: v in Ballot(s.gov, id) && v !in early ==>
        && s.gov.proposals[id].createdAt < s.env.sequence
        && Ballot(s.gov, id)[v].weight == BalanceAt(s.token, v, s.gov.proposals[id].createdAt)
  }

  lemma TokenStepKeepsSnapshot(s: System, op: TokenOp, id: nat, early: set<Address>)
    requires SystemSound(s) && SnapshotTrue(s, id, early)
    ensures SnapshotTrue(Apply(s, OnToken(op)), id, early)
  {
    hide SystemSound, ApplyToken, BalanceAt, Sound;
    if id in s.gov.proposals {
      var p := s.gov.proposals[id];
      SoundToken(s);
      forall v | v in Ballot(s.gov, id) && v !in early
        ensures BalanceAt(Apply(s, OnToken(op)).token, v, p.createdAt) == BalanceAt(s.token, v, p.createdAt)
      {
        CallKeepsClosedLedgers(s.token, s.env, op, v, p.createdAt);
      }
    }
  }

  lemma VoteStepKeepsSnapshot(s: System, op: GovOp, id: nat, early: set<Address>)
    requires SystemSound(s) && SnapshotTrue(s, id, early) && op.VoteOp? && op.id == id
    ensures var added := if CastsVote(s, OnGov(op), id) && id in s.gov.proposals
                            && s.env.sequence <= s.gov.proposals[id].createdAt
                         then {op.voter} else {};
            SnapshotTrue(Apply(s, OnGov(op)), id, early + added)
  {
    hide SystemSound, BalanceAt;
  }

  lemma OtherStepKeepsSnapshot(s: System, op: GovOp, id: nat, early: set<Address>)
    requires SystemSound(s) && SnapshotTrue(s, id, early) && !(op.VoteOp? && op.id == id)
    ensures SnapshotTrue(Apply(s, OnGov(op)), id, early)
  {
    hide SystemSound, BalanceAt, ApplyGov, Ballot;
    var g' := ApplyGov(s.gov, s.token, s.env, op).state;
    IdsOfSound(s);
    OnlyVotesChangeBallots(s, op, id);
    GovCallEvolves(s.gov, s.token, s.env, op);
  }

  /** No other call writes a proposal's ballot; a proposal is created with an empty one. */
  lemma OnlyVotesChangeBallots(s: System, op: GovOp, id: nat)
    requires SystemSound(s) && !(op.VoteOp? && op.id == id)
    ensures var g' := ApplyGov(s.gov, s.token, s.env, op).state;
            && Ballot(g', id) == Ballot(s.gov, id)
            && (id !in s.gov.proposals ==> Ballot(s.gov, id) == map[])
  {
    hide ProposalSound, Sound, BalanceAt, TalliesMatch, ParametersSound;
  }

  /** In every run, a vote cast after the creation ledger weighs the voter's balance at that
      ledger's end, whatever moves during voting. */
  lemma {:induction false} LateVotesWeighTheSnapshot(l: Launch, ops: seq<Op>, id: nat)
    requires Proper(l)
    ensures SnapshotTrue(Run(Start(l), ops), id, EarlyVoters(Start(l), ops, id))
  {
    hide SystemSound, SnapshotTrue, ApplyGov, ApplyToken, Launched;
    if ops == [] {
      NoProposalsAtStart(l, id);
    } else {
      var front, last := ops[..|ops| - 1], ops[|ops| - 1];
      var mid, early := Run(Start(l), front), EarlyVoters(Start(l), front, id);
      LateVotesWeighTheSnapshot(l, front, id);
      ReachableSound(l, front);
      assert early + {} == early;
      match last
      case Advance(_, _) => AdvanceKeepsSnapshot(mid, last, id, early);
      case OnToken(op) => TokenStepKeepsSnapshot(mid, op, id, early);
      case OnGov(op) =>
        if op.VoteOp? && op.id == id {
          VoteStepKeepsSnapshot(mid, op, id, early);
        } else {
          OtherStepKeepsSnapshot(mid, op, id, early);
        }
    }
  }

  lemma AdvanceKeepsSnapshot(s: System, op: Op, id: nat, early: set<Address>)
    requires SnapshotTrue(s, id, early) && op.Advance?
    ensures SnapshotTrue(Apply(s, op), id, early)
  {
    hide BalanceAt;
  }

  lemma NoProposalsAtStart(l: Launch, id: nat)
    ensures SnapshotTrue(Start(l), id, {})
  {
  }

  // ── The bound ──

  lemma BallotOfSound(s: System, id: nat)
    requires SystemSound(s) && id in s.gov.proposals
    ensures TalliesMatch(s.gov.proposals[id], Ballot(s.gov, id))
    ensures ProposalSound(s.gov.proposals[id], Ballot(s.gov, id), s.env.sequence)
    ensures s.gov.proposals[id].id == id && s.gov.admin.Some?
  {
    hide Sound, Ballot, TalliesMatch, ParametersSound;
  }

  /** Voters whose weights are their snapshot balances cannot outweigh the supply at the snapshot. */
  lemma SnapshotTurnoutWithinSupply(s: System, id: nat)
    requires SystemSound(s) && id in s.gov.proposals && SnapshotTrue(s, id, {})
    ensures Turnout(s.gov.proposals[id]) <= SupplyAt(s.token, s.gov.proposals[id].createdAt)
  {
    hide SystemSound, Sound, Ballot, TalliesMatch, ProposalSound, Turnout;
    var p, ballot := s.gov.proposals[id], Ballot(s.gov, id);
    BallotOfSound(s, id);
    TurnoutIsAllWeights(p, ballot);
    var cast, held := AllWeights(ballot), BalancesAt(s.token, p.createdAt);
    SoundToken(s);
    forall v | v in cast || v in held ensures Get(cast, v) <= Get(held, v) {
      BalanceAtNonNegative(s.token, s.env, v, p.createdAt);
    }
    SumMonotone(cast, held);
  }

  /** In any interleaving of token and governance calls, a proposal with no vote cast inside its
      creation ledger never gathers more than the supply at that ledger: what was launched and
      created by then, less what was burned. */
  lemma VotesWithinSupplyOverRun(l: Launch, ops: seq<Op>, id: nat)
    requires Proper(l) && id in Run(Start(l), ops).gov.proposals
    requires EarlyVoters(Start(l), ops, id) == {}
    ensures var p := Run(Start(l), ops).gov.proposals[id];
            Turnout(p) <= TOTAL_SUPPLY + CreatedThrough(Start(l), ops, p.createdAt)
                          - BurnedThrough(Start(l), ops, p.createdAt)
  {
    hide SystemSound, SnapshotTrue, Run, Launched, SupplyAt, Turnout, CreatedThrough, BurnedThrough, EarlyVoters;
    var s := Run(Start(l), ops);
    ReachableSound(l, ops);
    LateVotesWeighTheSnapshot(l, ops, id);
    SnapshotTurnoutWithinSupply(s, id);
    SupplyOverRun(l, ops, s.gov.proposals[id].createdAt);
  }

  /** No transfers or burns during voting make a proposal's votes exceed the fixed supply. */
  lemma VotesNeverExceedSupply(l: Launch, ops: seq<Op>, id: nat)
    requires Proper(l) && id in Run(Start(l), ops).gov.proposals
    requires EarlyVoters(Start(l), ops, id) == {} && NoSelfTransfers(Start(l), ops)
    ensures Turnout(Run(Start(l), ops).gov.proposals[id]) <= TOTAL_SUPPLY
  {
    hide SystemSound, Run, Launched, Turnout, CreatedThrough, BurnedThrough, EarlyVoters, NoSelfTransfers;
    var p := Run(Start(l), ops).gov.proposals[id];
    VotesWithinSupplyOverRun(l, ops, id);
    StartSound(l);
    CreatedZero(Start(l), ops, p.createdAt);
    BurnedThroughNonNegative(Start(l), ops, p.createdAt);
  }

  // ── Votes inside the creation ledger ──

  /** The balance a vote weighs is final, in every continuation, exactly when the creation ledger
      has already passed when the vote is cast. */
  lemma WeightIsFinalIffLedgerPassed(l: Launch, ops: seq<Op>, voter: Address, id: nat, choice: VoteChoice)
    requires Proper(l)
    requires CastsVote(Run(Start(l), ops), OnGov(VoteOp(voter, id, choice)), id)
    ensures var s := Run(Start(l), ops);
            && id in s.gov.proposals
            && (var at := s.gov.proposals[id].createdAt;
                (forall more :: BalanceAt(Run(s, more).token, voter, at) == BalanceAt(s.token, voter, at))
                <==> at < s.env.sequence)
  {
    hide SystemSound, Run, Launched, BalanceAt, Sound;
    var s := Run(Start(l), ops);
    ReachableSound(l, ops);
    var at := s.gov.proposals[id].createdAt;
    BallotOfSound(s, id);
    if at < s.env.sequence {
      forall more ensures BalanceAt(Run(s, more).token, voter, at) == BalanceAt(s.token, voter, at) {
        ClosedLedgersNeverChange(s, more, voter, at);
      }
    } else {
      var more := OneBurned(l, ops, voter);
      assert BalanceAt(Run(s, more).token, voter, at) != BalanceAt(s.token, voter, at);
    }
  }

  /** While a ledger is open its balances can still change: once everything has vested, a holder
      can burn one unit in it. */
  lemma OneBurned(l: Launch, ops: seq<Op>, holder: Address) returns (more: seq<Op>)
    requires Proper(l)
    requires var s := Run(Start(l), ops); BalanceAt(s.token, holder, s.env.sequence) > 0
    ensures var s := Run(Start(l), ops);
            BalanceAt(Run(s, more).token, holder, s.env.sequence) == BalanceAt(s.token, holder, s.env.sequence) - 1
  {
    hide SystemSound, Launched, BalanceAt, Sound, Payable, SetBalance;
    var s := Run(Start(l), ops);
    var wait, burn := Advance(s.env.sequence, U64_MAX), OnToken(BurnOp(holder, 1));
    more := [] + [wait] + [burn];
    var s1 := Apply(s, wait);
    ReachableSound(l, ops);
    ClockInRange(s);
    StepSound(s, wait);
    RunSnoc(s, [], wait);
    RunSnoc(s, [] + [wait], burn);
    SoundToken(s);
    SoundToken(s1);
    StartSound(l);
    LaunchedSound(l);
    RunKeepsVesting(Start(l), ops);
    LiveBalance(s.token, s.env, holder, s.env.sequence);
    assert UnvestedBalance(s1.token, s1.env, holder) == 0;
    PayableMeans(s1.token, s1.env, holder, 1);
    SetBalanceHistory(s1.token, s1.env, holder, Balance(s1.token, holder) - 1, holder, s.env.sequence);
  }

  lemma ClockInRange(s: System)
    requires SystemSound(s)
    ensures s.env.sequence <= U32_MAX && s.env.timestamp <= U64_MAX
  {
  }

  /** A vote, a transfer and a second vote inside one ledger: the same tokens are counted twice. */
  function DoubleCount(l: Launch): seq<Op> {
    []
    + [OnGov(InitializeGovernance(l.admin))]
    + [OnGov(CreateOp(l.earlyKeepers, PauseRegistry))]
    + [OnGov(VoteOp(l.earlyKeepers, 1, For))]
    + [OnToken(TransferOp(l.earlyKeepers, l.treasury, ALLOC_EARLY_KEEPERS))]
    + [OnGov(VoteOp(l.treasury, 1, For))]
  }

  /** Without the condition on early votes the bound fails: this run has no self-transfer, and its
      votes exceed the supply. */
  lemma EarlyVotesCanExceedSupply(l: Launch)
    requires Proper(l)
    ensures var s := Run(Start(l), DoubleCount(l));
            && NoSelfTransfers(Start(l), DoubleCount(l))
            && 1 in s.gov.proposals
            && Turnout(s.gov.proposals[1]) == TOTAL_SUPPLY + 5_000_000 * ONE_TOKEN
  {
    hide Sound, SystemSound, SetBalance, Payable, BalanceAt, Record;
    var s0 := Start(l);
    var a := OnGov(InitializeGovernance(l.admin));
    var b := OnGov(CreateOp(l.earlyKeepers, PauseRegistry));
    var c := OnGov(VoteOp(l.earlyKeepers, 1, For));
    var d := OnToken(TransferOp(l.earlyKeepers, l.treasury, ALLOC_EARLY_KEEPERS));
    var e := OnGov(VoteOp(l.treasury, 1, For));
    RunSnoc(s0, [], a);
    RunSnoc(s0, [] + [a], b);
    RunSnoc(s0, [] + [a] + [b], c);
    RunSnoc(s0, [] + [a] + [b] + [c], d);
    RunSnoc(s0, [] + [a] + [b] + [c] + [d], e);
    LaunchBalances(l);
    StartSound(l);
    SoundToken(s0);
    LiveBalance(s0.token, s0.env, l.earlyKeepers, s0.env.sequence);
    PayableMeans(s0.token, s0.env, l.earlyKeepers, ALLOC_EARLY_KEEPERS);
    MovedHistory(s0.token, s0.env, l.earlyKeepers, l.treasury, ALLOC_EARLY_KEEPERS, l.treasury, s0.env.sequence);
    PrefixNoSelfTransfers(s0, a, b, c, d, e);
  }

  lemma LaunchBalances(l: Launch)
    requires Proper(l)
    ensures Balance(Launched(l), l.earlyKeepers) == ALLOC_EARLY_KEEPERS
    ensures Balance(Launched(l), l.treasury) == ALLOC_TREASURY
    ensures UnvestedBalance(Launched(l), l.env, l.earlyKeepers) == 0
  {
  }

  lemma PrefixNoSelfTransfers(s: System, a: Op, b: Op, c: Op, d: Op, e: Op)
    requires a.OnGov? && b.OnGov? && c.OnGov? && e.OnGov?
    requires d.OnToken? && !IsSelfTransfer(d.tokenOp)
    ensures NoSelfTransfers(s, [] + [a] + [b] + [c] + [d] + [e])
  {
    hide Run, ApplyToken;
    assert ([] + [a])[..0] == [];
    assert ([] + [a] + [b])[..1] == [] + [a];
    assert ([] + [a] + [b] + [c])[..2] == [] + [a] + [b];
    assert ([] + [a] + [b] + [c] + [d])[..3] == [] + [a] + [b] + [c];
    assert ([] + [a] + [b] + [c] + [d] + [e])[..4] == [] + [a] + [b] + [c] + [d];
    assert NoSelfTransfers(s, [] + [a]);
    assert NoSelfTransfers(s, [] + [a] + [b]);
    assert NoSelfTransfers(s, [] + [a] + [b] + [c]);
    assert NoSelfTransfers(s, [] + [a] + [b] + [c] + [d]);
  }

  // ── Records and tallies ──

  /** In every reachable state each tally is the sum of the recorded weights for that choice, and
      every parameter is in the range it was validated against. */
  lemma TalliesAndParameters(l: Launch, ops: seq<Op>, id: nat, choice: VoteChoice)
    requires Proper(l)
    ensures var g := Run(Start(l), ops).gov;
            && ParametersSound(g)
            && (id in g.proposals ==>
                  && TallyOf(g.proposals[id], choice) == Sum(Weights(Ballot(g, id), choice))
                  && (Won(g.proposals[id].status) ==>
                        && g.proposals[id].votesFor > g.proposals[id].votesAgainst
                        && Turnout(g.proposals[id]) >= TOTAL_SUPPLY / 100))
  {
    hide Run, Launched, Sound, IdsSound;
    ReachableSound(l, ops);
  }

  /** A vote is cast at most once per voter and proposal, and its record never changes. */
  lemma OneVoteEach(s: System, ops: seq<Op>, voter: Address, id: nat, choice: VoteChoice)
    requires SystemSound(s) && voter in Ballot(s.gov, id)
    ensures var s' := Run(s, ops);
            && voter in Ballot(s'.gov, id) && Ballot(s'.gov, id)[voter] == Ballot(s.gov, id)[voter]
            && !Vote(s'.gov, s'.token, s'.env, voter, id, choice).outcome.Ok?
  {
    hide Run, Sound, ProposalSound;
    RunEvolves(s, ops);
  }

  /** Once a proposal has left Active, its tallies and ballot are final, and once it is queued so
      is its execution time. */
  lemma ClosedProposalsAreFixed(s: System, ops: seq<Op>, id: nat)
    requires SystemSound(s) && id in s.gov.proposals && s.gov.proposals[id].status != Active
    ensures var g, g' := s.gov, Run(s, ops).gov;
            && id in g'.proposals
            && Ballot(g', id) == Ballot(g, id)
            && (forall choice :: TallyOf(g'.proposals[id], choice) == TallyOf(g.proposals[id], choice))
            && Reaches(g.proposals[id].status, g'.proposals[id].status)
            && (g.proposals[id].status in {Queued, Executed} ==> g'.proposals[id].eta == g.proposals[id].eta)
  {
    hide Run, SystemSound;
    RunEvolves(s, ops);
    assert Evolves(s.gov.proposals[id], Run(s, ops).gov.proposals[id]);
  }
}
