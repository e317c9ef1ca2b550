/** Governance storage as a history of the calls that were made: who voted what, and which settings
    proposals have brought about. */
module GovernanceHistory {
  import opened Common
  import opened MapSums
  import opened TokenModel
  import opened TokenHistory
  import opened GovernanceModel
  import opened GovernanceRules
  import opened GovernanceEffects
  import opened Protocol
  import opened VotingRuns

  // ── Settings ──

  function DefaultOf(k: Setting): int {
    match k
    case VotingPeriod => 50_400
    case TimelockDelay => 28_800
    case Quorum => 400
    case Threshold => 100_000 * 10_000_000
  }

  /** The value of the last self-amendment of that kind whose proposal was executed when due, or the default. */
  function LastAmendment(s: System, ops: seq<Op>, k: Setting): int {
    if ops == [] then DefaultOf(k)
    else
      var mid, last := Run(s, ops[..|ops| - 1]), ops[|ops| - 1];
      var before := LastAmendment(s, ops[..|ops| - 1], k);
      if last.OnGov? && last.govOp.ExecuteOp? && IsDue(mid.gov, mid.env, last.govOp.id)
      then OrKeep(Asks(mid.gov.proposals[last.govOp.id].action, k), before)
      else before
  }

  lemma StepSetting(s: System, op: Op, k: Setting)
    requires s.gov.admin.None? ==> SettingOf(s.gov, k) == DefaultOf(k)
    ensures SettingOf(Apply(s, op).gov, k) ==
            if op.OnGov? && op.govOp.ExecuteOp? && IsDue(s.gov, s.env, op.govOp.id)
            then OrKeep(Asks(s.gov.proposals[op.govOp.id].action, k), SettingOf(s.gov, k))
            else SettingOf(s.gov, k)
    ensures Apply(s, op).gov.admin.None? ==> SettingOf(Apply(s, op).gov, k) == DefaultOf(k)
  {
    if op.OnGov? {
      match op.govOp
      case InitializeGovernance(_) =>
      case CreateOp(proposer, action) =>
        hide CreateProposal;
        ProposalOpens(s.gov, s.token, s.env, proposer, action);
      case VoteOp(voter, id, choice) =>
        hide Vote;
        VoteCounts(s.gov, s.token, s.env, voter, id, choice);
      case EvaluateOp(id) =>
        hide Evaluate;
        EvaluateDecides(s.gov, s.env, id);
      case QueueOp(id) =>
        hide Queue;
        QueueSchedules(s.gov, s.env, id);
      case ExecuteOp(id) =>
        hide Execute;
        ExecuteAmends(s.gov, s.env, id, k);
      case CancelOp(caller, id) =>
        hide Cancel;
        CancelWithdraws(s.gov, caller, id);
    }
  }

  /** In every run each setting is what the last due execution of an amendment of it asked for. */
  lemma {:induction false} SettingsAreTheLastAmendments(l: Launch, ops: seq<Op>, k: Setting)
    ensures var g := Run(Start(l), ops).gov;
            && SettingOf(g, k) == LastAmendment(Start(l), ops, k)
            && (g.admin.None? ==> SettingOf(g, k) == DefaultOf(k))
  {
    hide Apply, IsDue, Launched;
    if ops != [] {
      var front := ops[..|ops| - 1];
      SettingsAreTheLastAmendments(l, front, k);
      StepSetting(Run(Start(l), front), ops[|ops| - 1], k);
    }
  }

  // ── Votes ──

  /** The votes cast on a proposal: for each voter the choice of their accepted call, with what they
      held, at the time of the call, as of the proposal's creation ledger. */
  function Cast(s: System, ops: seq<Op>, id: nat): map<Address, VoteRecord> {
    if ops == [] then map[]
    else
      var mid, last := Run(s, ops[..|ops| - 1]), ops[|ops| - 1];
      var before := Cast(s, ops[..|ops| - 1], id);
      if && last.OnGov? && last.govOp.VoteOp? && last.govOp.id == id
         && CanVote(mid.gov, mid.token, mid.env, last.govOp.voter, id, last.govOp.choice)
      then before[last.govOp.voter := VoteRecord(last.govOp.choice, BalanceAt(mid.token, last.govOp.voter,
                                                                              mid.gov.proposals[id].createdAt))]
      else before
  }

  /** In every run the recorded ballot is what was cast, and the tallies count exactly that. */
  lemma {:induction false} BallotsAreWhatWasCast(l: Launch, ops: seq<Op>, id: nat)
    requires Proper(l)
    ensures Ballot(Run(Start(l), ops).gov, id) == Cast(Start(l), ops, id)
    ensures var g := Run(Start(l), ops).gov;
            id in g.proposals ==>
              && g.proposals[id].votesFor == Sum(Weights(Cast(Start(l), ops, id), For))
              && g.proposals[id].votesAgainst == Sum(Weights(Cast(Start(l), ops, id), Against))
              && g.proposals[id].votesAbstain == Sum(Weights(Cast(Start(l), ops, id), Abstain))
  {
    hide Apply, CanVote, Launched, SystemSound, Weights, ParametersSound, BalanceAt;
    if ops != [] {
      var front, last := ops[..|ops| - 1], ops[|ops| - 1];
      BallotsAreWhatWasCast(l, front, id);
      ReachableSound(l, front);
      StepCasts(Run(Start(l), front), last, id);
    }
    TalliesAndParameters(l, ops, id, For);
    TalliesAndParameters(l, ops, id, Against);
    TalliesAndParameters(l, ops, id, Abstain);
  }

  lemma StepCasts(s: System, op: Op, id: nat)
    requires SystemSound(s)
    ensures Ballot(Apply(s, op).gov, id) ==
            if && op.OnGov? && op.govOp.VoteOp? && op.govOp.id == id
               && CanVote(s.gov, s.token, s.env, op.govOp.voter, id, op.govOp.choice)
            then Ballot(s.gov, id)[op.govOp.voter := VoteRecord(op.govOp.choice,
                                                                BalanceAt(s.token, op.govOp.voter,
                                                                          s.gov.proposals[id].createdAt))]
            else Ballot(s.gov, id)
  {
    hide SystemSound, BalanceAt, Ballot, ApplyToken;
    if op.OnGov? && op.govOp.VoteOp? && op.govOp.id == id {
      hide Vote, OnlyProposal;
      VoteCounts(s.gov, s.token, s.env, op.govOp.voter, id, op.govOp.choice);
    } else if op.OnGov? {
      hide ApplyGov;
      OnlyVotesChangeBallots(s, op.govOp, id);
    }
  }
}
