/** When the snapshot keeps a proposal's votes within the supply: exactly when the creation ledger is
    over by the time a vote is cast. */
module SnapshotBound {
  import opened Common
  import opened MapSums
  import opened TokenModel
  import opened TokenHistory
  import opened GovernanceModel
  import opened GovernanceRules
  import opened Protocol
  import opened TokenRuns
  import opened VotingRuns

  /** The proposal has gathered no more than existed when its creation ledger closed, or exists so far. */
  ghost predicate TurnoutBounded(s: System, id: nat) {
    id in s.gov.proposals ==> Turnout(s.gov.proposals[id]) <= SupplyAt(s.token, s.gov.proposals[id].createdAt)
  }

  lemma {:induction false} EarlyVotersAppend(s: System, a: seq<Op>, b: seq<Op>, id: nat)
    ensures EarlyVoters(s, a + b, id) == EarlyVoters(s, a, id) + EarlyVoters(Run(s, a), b, id)
  {
    hide Apply, CastsVote;
    if b == [] {
      assert a + b == a;
    } else {
      var front := b[..|b| - 1];
      EarlyVotersAppend(s, a, front, id);
      RunAppend(s, a, front);
      assert (a + b)[..|a + b| - 1] == a + front;
    }
  }

  // ── Burning everything inside an open ledger ──

  ghost predicate FullyVested(s: System) {
    forall id :: UnvestedBalance(s.token, s.env, id) == 0
  }

  predicate OnlyBurns(ops: seq<Op>) {
    forall i :: 0 <= i < |ops| ==> ops[i].OnToken? && ops[i].tokenOp.BurnOp?
  }

  lemma SomeoneHolds(t: TokenState, env: Env) returns (holder: Address)
    requires Sound(t, env) && SupplyAt(t, env.sequence) > 0
    ensures Balance(t, holder) > 0
  {
    hide Sound, BalanceAt, LastAtOrBefore;
    var held, nothing: map<Address, int> := BalancesAt(t, env.sequence), map[];
    if forall id :: id in held ==> held[id] <= 0 {
      SumMonotone(held, nothing);
      assert false;
    }
    holder :| holder in held && held[holder] > 0;
    HeldIsBalanceAt(t, env.sequence, holder);
    LiveBalance(t, env, holder, env.sequence);
  }

  lemma HeldIsBalanceAt(t: TokenState, at: nat, id: Address)
    requires id in BalancesAt(t, at)
    ensures BalancesAt(t, at)[id] == BalanceAt(t, id, at)
  {
  }

  lemma SupplyNonNegative(t: TokenState, env: Env)
    requires Sound(t, env)
    ensures SupplyAt(t, env.sequence) >= 0
  {
    hide Sound, BalanceAt, LastAtOrBefore;
    var held, nothing: map<Address, int> := BalancesAt(t, env.sequence), map[];
    forall id | id in held ensures held[id] >= 0 {
      HeldIsBalanceAt(t, env.sequence, id);
      BalanceAtNonNegative(t, env, id, env.sequence);
    }
    SumMonotone(nothing, held);
  }

  /** A holder whose tokens are all unlocked can burn them all. */
  lemma BurnsAll(s: System, holder: Address)
    requires SystemSound(s) && FullyVested(s) && Balance(s.token, holder) > 0
    ensures var s' := Apply(s, OnToken(BurnOp(holder, Balance(s.token, holder))));
            && SystemSound(s') && FullyVested(s') && s'.env == s.env && s'.gov == s.gov
            && SupplyAt(s'.token, s.env.sequence) == SupplyAt(s.token, s.env.sequence) - Balance(s.token, holder)
  {
    hide SystemSound, Sound, Payable, SupplyAt, SetBalance, Balance;
    var amount := Balance(s.token, holder);
    var op := OnToken(BurnOp(holder, amount));
    SoundToken(s);
    PayableMeans(s.token, s.env, holder, amount);
    StepSound(s, op);
    StepSupply(s, op, s.env.sequence);
    CallSound(s.token, s.env, BurnOp(holder, amount));
    SameVesting(s, Apply(s, op));
  }

  lemma SameVesting(s: System, s': System)
    requires FullyVested(s) && s'.token.vesting == s.token.vesting && s'.env == s.env
    ensures FullyVested(s')
  {
    forall id ensures UnvestedBalance(s'.token, s'.env, id) == 0 {
      assert UnvestedBalance(s.token, s.env, id) == 0;
    }
  }

  /** Holder after holder, until nothing is left at this ledger. */
  lemma {:induction false} BurnEverything(s: System) returns (ops: seq<Op>)
    requires SystemSound(s) && FullyVested(s)
    ensures OnlyBurns(ops)
    ensures Run(s, ops).gov == s.gov && SupplyAt(Run(s, ops).token, s.env.sequence) == 0
    decreases SupplyAt(s.token, s.env.sequence)
  {
    hide SystemSound, SupplyAt, Apply, FullyVested, Sound;
    SoundToken(s);
    SupplyNonNegative(s.token, s.env);
    if SupplyAt(s.token, s.env.sequence) == 0 {
      ops := [];
    } else {
      var holder := SomeoneHolds(s.token, s.env);
      var op := OnToken(BurnOp(holder, Balance(s.token, holder)));
      BurnsAll(s, holder);
      var s' := Apply(s, op);
      SoundToken(s');
      SupplyNonNegative(s'.token, s'.env);
      var rest := BurnEverything(s');
      ops := [] + [op] + rest;
      RunAppend(s, [] + [op], rest);
      RunSnoc(s, [], op);
    }
  }

  /** Nobody votes and nobody pays themselves while tokens are burned. */
  lemma {:induction false} BurnsAreQuiet(s: System, ops: seq<Op>, id: nat)
    requires OnlyBurns(ops)
    ensures EarlyVoters(s, ops, id) == {} && NoSelfTransfers(s, ops)
  {
    hide Apply;
    if ops != [] {
      BurnsAreQuiet(s, ops[..|ops| - 1], id);
    }
  }

  /** Waiting until all has vested, and burning it all, within one ledger. */
  lemma EmptyTheLedger(l: Launch, ops: seq<Op>, vote: Op, id: nat) returns (more: seq<Op>)
    requires Proper(l) && vote.OnGov?
    ensures var s := Apply(Run(Start(l), ops), vote);
            && Run(s, more).gov == s.gov && SupplyAt(Run(s, more).token, s.env.sequence) == 0
            && EarlyVoters(s, more, id) == {} && NoSelfTransfers(s, more)
  {
    hide SystemSound, Run, Launched, SupplyAt, Sound, ApplyGov;
    var s := Apply(Run(Start(l), ops), vote);
    RunSnoc(Start(l), ops, vote);
    ReachableSound(l, ops + [vote]);
    ClockInRange(s);
    var wait := Advance(s.env.sequence, U64_MAX);
    var s1 := Apply(s, wait);
    StepSound(s, wait);
    EventuallyVested(l, ops + [vote], s1);
    var burns := BurnEverything(s1);
    more := [] + [wait] + burns;
    RunSnoc(s, [], wait);
    RunAppend(s, [] + [wait], burns);
    RunNothing(s);
    WaitIsQuiet(s, wait, id);
    BurnsAreQuiet(s1, burns, id);
    EarlyVotersAppend(s, [] + [wait], burns, id);
    NoSelfTransfersAppend(s, [] + [wait], burns);
  }

  lemma WaitIsQuiet(s: System, wait: Op, id: nat)
    requires wait.Advance?
    ensures EarlyVoters(s, [] + [wait], id) == {} && NoSelfTransfers(s, [] + [wait])
  {
    assert ([] + [wait])[..0] == [];
    assert EarlyVoters(s, [], id) == {} && NoSelfTransfers(s, []);
  }

  lemma {:induction false} NoSelfTransfersAppend(s: System, a: seq<Op>, b: seq<Op>)
    requires NoSelfTransfers(s, a) && NoSelfTransfers(Run(s, a), b)
    ensures NoSelfTransfers(s, a + b)
  {
    hide Apply;
    if b == [] {
      assert a + b == a;
    } else {
      var front := b[..|b| - 1];
      NoSelfTransfersAppend(s, a, front);
      RunAppend(s, a, front);
      assert (a + b)[..|a + b| - 1] == a + front;
    }
  }

  lemma EventuallyVested(l: Launch, ops: seq<Op>, s: System)
    requires Proper(l) && s.token == Run(Start(l), ops).token && s.env.timestamp == U64_MAX
    ensures FullyVested(s)
  {
    hide SystemSound, Run, Launched, Sound;
    StartSound(l);
    LaunchedSound(l);
    RunKeepsVesting(Start(l), ops);
  }

  // ── The exact condition ──

  /** With the creation ledger over, no continuation without early votes breaks the bound. */
  lemma PassedLedgerKeepsBound(l: Launch, ops: seq<Op>, vote: Op, more: seq<Op>, id: nat)
    requires Proper(l) && EarlyVoters(Start(l), ops, id) == {}
    requires var s := Run(Start(l), ops);
             && id in s.gov.proposals && s.gov.proposals[id].createdAt < s.env.sequence
             && EarlyVoters(Apply(s, vote), more, id) == {}
    ensures TurnoutBounded(Run(Apply(Run(Start(l), ops), vote), more), id)
  {
    hide SystemSound, SnapshotTrue, Launched, SupplyAt, Turnout, Apply, CastsVote;
    var all := ops + [vote] + more;
    RunSnoc(Start(l), ops, vote);
    RunAppend(Start(l), ops + [vote], more);
    OneMoreVoter(Start(l), ops, vote, id);
    EarlyVotersAppend(Start(l), ops + [vote], more, id);
    assert {} + {} == EarlyVoters(Start(l), all, id);
    ReachableSound(l, all);
    LateVotesWeighTheSnapshot(l, all, id);
    if id in Run(Start(l), all).gov.proposals {
      SnapshotTurnoutWithinSupply(Run(Start(l), all), id);
    }
  }

  lemma OneMoreVoter(s: System, ops: seq<Op>, op: Op, id: nat)
    requires var mid := Run(s, ops);
             id in mid.gov.proposals && mid.gov.proposals[id].createdAt < mid.env.sequence
    ensures EarlyVoters(s, ops + [op], id) == EarlyVoters(s, ops, id)
  {
    hide Run, CastsVote;
    assert (ops + [op])[..|ops|] == ops;
  }

  /** A first vote in an open creation ledger counts its weight and nothing else. */
  lemma FirstVoteCounts(l: Launch, ops: seq<Op>, voter: Address, id: nat, choice: VoteChoice)
    requires Proper(l) && EarlyVoters(Start(l), ops, id) == {}
    requires var s := Run(Start(l), ops);
             && CastsVote(s, OnGov(VoteOp(voter, id, choice)), id)
             && id in s.gov.proposals && s.gov.proposals[id].createdAt >= s.env.sequence
    ensures var s' := Apply(Run(Start(l), ops), OnGov(VoteOp(voter, id, choice)));
            && id in s'.gov.proposals && Turnout(s'.gov.proposals[id]) > 0
            && s'.gov.proposals[id].createdAt == s'.env.sequence
  {
    hide SystemSound, Run, Launched, BalanceAt, Sound, TalliesMatch, ParametersSound, ValidAction;
    var s := Run(Start(l), ops);
    ReachableSound(l, ops);
    LateVotesWeighTheSnapshot(l, ops, id);
    BallotOfSound(s, id);
    assert Ballot(s.gov, id) == map[];
    TurnoutIsAllWeights(s.gov.proposals[id], map[]);
    assert AllWeights(map[]) == map[];
  }

  /** The bound on votes, exactly: after an accepted vote that no early vote precedes, every
      continuation without early votes and self-transfers keeps the proposal within the supply at its
      creation ledger if and only if that ledger had passed when the vote was cast. */
  lemma BoundHoldsIffLedgerPassed(l: Launch, ops: seq<Op>, voter: Address, id: nat, choice: VoteChoice)
    requires Proper(l) && EarlyVoters(Start(l), ops, id) == {}
    requires CastsVote(Run(Start(l), ops), OnGov(VoteOp(voter, id, choice)), id)
    ensures var s := Run(Start(l), ops);
            var voted := Apply(s, OnGov(VoteOp(voter, id, choice)));
            && id in s.gov.proposals
            && ((forall more :: EarlyVoters(voted, more, id) == {} && NoSelfTransfers(voted, more) ==>
                   TurnoutBounded(Run(voted, more), id))
                <==> s.gov.proposals[id].createdAt < s.env.sequence)
  {
    hide SystemSound, Run, Launched, EarlyVoters, NoSelfTransfers, SupplyAt, Turnout;
    var s, vote := Run(Start(l), ops), OnGov(VoteOp(voter, id, choice));
    var voted := Apply(s, vote);
    assert id in s.gov.proposals;
    if s.gov.proposals[id].createdAt < s.env.sequence {
      forall more | EarlyVoters(voted, more, id) == {} && NoSelfTransfers(voted, more)
        ensures TurnoutBounded(Run(voted, more), id)
      {
        PassedLedgerKeepsBound(l, ops, vote, more, id);
      }
    } else {
      var more := EmptyTheLedger(l, ops, vote, id);
      FirstVoteCounts(l, ops, voter, id, choice);
      assert !TurnoutBounded(Run(voted, more), id);
    }
  }
}
