/** The life of a proposal over a whole run: the order of its states, and the time each takes. */
module TimelockRuns {
  import opened Common
  import opened TokenModel
  import opened TokenHistory
  import opened GovernanceModel
  import opened GovernanceRules
  import opened Protocol

  /** A status written to a proposal, and the ledger it was written in. */
  datatype Stamp = Stamp(status: ProposalStatus, ledger: nat)

  /** What one storage write changes about the proposal's status. */
  function Change(before: GovState, after: GovState, id: nat, ledger: nat): seq<Stamp> {
    if id in after.proposals &&
       (id !in before.proposals || before.proposals[id].status != after.proposals[id].status)
    then [Stamp(after.proposals[id].status, ledger)]
    else []
  }

  /** What a step writes, in order. Queueing an Active proposal first writes its evaluation. */
  function Changes(s: System, op: Op, id: nat): seq<Stamp> {
    if !op.OnGov? then []
    else
      var after := ApplyGov(s.gov, s.token, s.env, op.govOp).state;
      if op.govOp.QueueOp? && op.govOp.id in s.gov.proposals && s.gov.proposals[op.govOp.id].status == Active
         && Queue(s.gov, s.env, op.govOp.id).outcome.Ok?
      then
        var evaluated := Evaluate(s.gov, s.env, op.govOp.id).state;
        Change(s.gov, evaluated, id, s.env.sequence) + Change(evaluated, after, id, s.env.sequence)
      else Change(s.gov, after, id, s.env.sequence)
  }

  /** Every status a proposal has had, oldest first. */
  function Timeline(s: System, ops: seq<Op>, id: nat): seq<Stamp> {
    if ops == [] then []
    else Timeline(s, ops[..|ops| - 1], id) + Changes(Run(s, ops[..|ops| - 1]), ops[|ops| - 1], id)
  }

  /** A timeline that fits the proposal: the one order its states can come in, and the waits between them. */
  predicate Lived(h: seq<Stamp>, p: Proposal) {
    match p.status
    case Active => h == [Stamp(Active, p.createdAt)]
    case Passed => |h| == 2 && Decided(h, p, Passed)
    case Defeated => |h| == 2 && Decided(h, p, Defeated)
    case Queued => |h| == 3 && Decided(h, p, Passed) && Scheduled(h, p)
    case Executed => |h| == 4 && Decided(h, p, Passed) && Scheduled(h, p)
                     && h[3].status == Executed && p.eta <= h[3].ledger
    case Cancelled => |h| >= 2 && h[|h| - 1].status == Cancelled && CancelledFrom(h, p)
  }

  /** What came before a cancellation: Active, Passed, Defeated or Queued, reached as ever. */
  predicate CancelledFrom(h: seq<Stamp>, p: Proposal)
    requires |h| >= 2
  {
    || (|h| == 2 && h[0] == Stamp(Active, p.createdAt))
    || (|h| == 3 && (Decided(h, p, Passed) || Decided(h, p, Defeated)))
    || (|h| == 4 && Decided(h, p, Passed) && Scheduled(h, p))
  }

  predicate Decided(h: seq<Stamp>, p: Proposal, verdict: ProposalStatus)
    requires |h| >= 2
  {
    h[0] == Stamp(Active, p.createdAt) && h[1].status == verdict && p.votingEnd < h[1].ledger
  }

  predicate Scheduled(h: seq<Stamp>, p: Proposal)
    requires |h| >= 3
  {
    && h[2].status == Queued && h[1].ledger <= h[2].ledger
    && h[2].ledger + MIN_DELAY <= p.eta <= h[2].ledger + 86_400
  }

  /** What is known of a proposal's timeline: none yet, or one that fits it, in order of time and in the past. */
  predicate Known(g: GovState, id: nat, h: seq<Stamp>, now: nat) {
    && (id !in g.proposals ==> h == [])
    && (id in g.proposals ==> Lived(h, g.proposals[id]))
    && (forall i :: 0 <= i < |h| ==> h[i].ledger <= now)
    && (forall i, j :: 0 <= i < j < |h| ==> h[i].ledger <= h[j].ledger)
  }

  /** A write that leaves the proposal's status, deadline and execution time alone adds nothing. */
  lemma UnchangedKnown(g: GovState, g': GovState, id: nat, h: seq<Stamp>, now: nat)
    requires Known(g, id, h, now)
    requires id in g.proposals <==> id in g'.proposals
    requires id in g.proposals ==> SameTimes(g.proposals[id], g'.proposals[id])
    ensures Known(g', id, h + Change(g, g', id, now), now)
  {
    assert h + [] == h;
  }

  predicate SameTimes(p: Proposal, p': Proposal) {
    p'.status == p.status && p'.createdAt == p.createdAt && p'.votingEnd == p.votingEnd && p'.eta == p.eta
  }

  /** A write of a new status adds one stamp. */
  lemma StampedKnown(g: GovState, g': GovState, id: nat, h: seq<Stamp>, now: nat)
    requires Known(g, id, h, now) && id in g'.proposals
    requires id in g.proposals ==> g.proposals[id].status != g'.proposals[id].status
    requires Lived(h + [Stamp(g'.proposals[id].status, now)], g'.proposals[id])
    ensures Known(g', id, h + Change(g, g', id, now), now)
  {
    hide Lived;
  }

  lemma LivedOf(g: GovState, id: nat, h: seq<Stamp>, now: nat)
    requires Known(g, id, h, now)
    ensures id in g.proposals ==> Lived(h, g.proposals[id])
    ensures id !in g.proposals ==> h == []
    ensures forall i :: 0 <= i < |h| ==> h[i].ledger <= now
  {
    hide Lived;
  }

  lemma CreateKnown(g: GovState, t: TokenState, env: Env, proposer: Address, action: GovernableAction,
                    id: nat, h: seq<Stamp>)
    requires Known(g, id, h, env.sequence) && IdsSound(g)
    ensures var g' := CreateProposal(g, t, env, proposer, action).state;
            Known(g', id, h + Change(g, g', id, env.sequence), env.sequence)
  {
    hide ValidAction, Balance, Known, Change;
    var g' := CreateProposal(g, t, env, proposer, action).state;
    if id in g'.proposals && id !in g.proposals {
      LivedOf(g, id, h, env.sequence);
      StampedKnown(g, g', id, h, env.sequence);
    } else {
      UnchangedKnown(g, g', id, h, env.sequence);
    }
  }

  lemma VoteKnown(g: GovState, t: TokenState, env: Env, voter: Address, voted: nat, choice: VoteChoice,
                  id: nat, h: seq<Stamp>)
    requires Known(g, id, h, env.sequence) && IdsSound(g)
    ensures var g' := Vote(g, t, env, voter, voted, choice).state;
            Known(g', id, h + Change(g, g', id, env.sequence), env.sequence)
  {
    hide BalanceAt, Known, Change;
    UnchangedKnown(g, Vote(g, t, env, voter, voted, choice).state, id, h, env.sequence);
  }

  lemma EvaluateKnown(g: GovState, env: Env, evaluated: nat, id: nat, h: seq<Stamp>)
    requires Known(g, id, h, env.sequence) && IdsSound(g)
    ensures var g' := Evaluate(g, env, evaluated).state;
            Known(g', id, h + Change(g, g', id, env.sequence), env.sequence) && IdsSound(g')
  {
    hide QuorumThreshold, Turnout, TurnoutOverflows, Known, Change;
    var g' := Evaluate(g, env, evaluated).state;
    if g' != g && id == evaluated {
      LivedOf(g, id, h, env.sequence);
      StampedKnown(g, g', id, h, env.sequence);
    } else {
      UnchangedKnown(g, g', id, h, env.sequence);
    }
  }

  /** Scheduling a Passed proposal. */
  lemma EnqueueKnown(before: GovState, g: GovState, env: Env, queued: nat, id: nat, h: seq<Stamp>)
    requires Known(g, id, h, env.sequence) && IdsSound(g) && ParametersSound(g)
    requires queued in g.proposals && g.proposals[queued].status == Passed
    requires Enqueue(before, g, env, queued).outcome.Ok?
    ensures var g' := Enqueue(before, g, env, queued).state;
            Known(g', id, h + Change(g, g', id, env.sequence), env.sequence)
  {
    hide Known, Change, IdsSound;
    var g' := Enqueue(before, g, env, queued).state;
    if id == queued {
      LivedOf(g, id, h, env.sequence);
      StampedKnown(g, g', id, h, env.sequence);
    } else {
      UnchangedKnown(g, g', id, h, env.sequence);
    }
  }

  lemma ExecuteKnown(g: GovState, env: Env, executed: nat, id: nat, h: seq<Stamp>)
    requires Known(g, id, h, env.sequence) && IdsSound(g)
    ensures var g' := Execute(g, env, executed).state;
            Known(g', id, h + Change(g, g', id, env.sequence), env.sequence)
  {
    hide ApplyAction, IdsSound, Known, Change;
    var g' := Execute(g, env, executed).state;
    if executed in g.proposals {
      ApplyActionKeeps(g, g.proposals[executed].action);
    }
    if Execute(g, env, executed).outcome.Ok? && id == executed {
      LivedOf(g, id, h, env.sequence);
      StampedKnown(g, g', id, h, env.sequence);
    } else {
      UnchangedKnown(g, g', id, h, env.sequence);
    }
  }

  lemma CancelKnown(g: GovState, env: Env, caller: Address, cancelled: nat, id: nat, h: seq<Stamp>)
    requires Known(g, id, h, env.sequence) && IdsSound(g)
    ensures var g' := Cancel(g, caller, cancelled).state;
            Known(g', id, h + Change(g, g', id, env.sequence), env.sequence)
  {
    hide Known, Change, IdsSound;
    var g' := Cancel(g, caller, cancelled).state;
    if Cancel(g, caller, cancelled).outcome.Ok? && id == cancelled {
      LivedOf(g, id, h, env.sequence);
      StampedKnown(g, g', id, h, env.sequence);
    } else {
      UnchangedKnown(g, g', id, h, env.sequence);
    }
  }

  lemma QueueKnown(s: System, queued: nat, id: nat, h: seq<Stamp>)
    requires Known(s.gov, id, h, s.env.sequence) && IdsSound(s.gov) && ParametersSound(s.gov)
    ensures var op := OnGov(QueueOp(queued));
            Known(Apply(s, op).gov, id, h + Changes(s, op, id), s.env.sequence)
  {
    hide Known, Change, QuorumThreshold, Turnout, TurnoutOverflows, ParametersSound;
    var g, op := s.gov, OnGov(QueueOp(queued));
    var after := Apply(s, op).gov;
    NoChange(g, id, s.env.sequence);
    assert h + [] == h;
    if Queue(g, s.env, queued).outcome.Ok? && g.proposals[queued].status == Active {
      var mid := Evaluate(g, s.env, queued).state;
      EvaluateKnown(g, s.env, queued, id, h);
      EvaluateKeepsParameters(g, s.env, queued);
      var h1 := h + Change(g, mid, id, s.env.sequence);
      EnqueueKnown(g, mid, s.env, queued, id, h1);
      assert h + (Change(g, mid, id, s.env.sequence) + Change(mid, after, id, s.env.sequence))
          == h1 + Change(mid, after, id, s.env.sequence);
    } else if Queue(g, s.env, queued).outcome.Ok? && g.proposals[queued].status == Passed {
      EnqueueKnown(g, g, s.env, queued, id, h);
    }
  }

  lemma NoChange(g: GovState, id: nat, ledger: nat)
    ensures Change(g, g, id, ledger) == []
  {
  }

  lemma EvaluateKeepsParameters(g: GovState, env: Env, id: nat)
    requires ParametersSound(g)
    ensures ParametersSound(Evaluate(g, env, id).state)
  {
  }

  lemma StepKnown(s: System, op: Op, id: nat, h: seq<Stamp>)
    requires SystemSound(s) && Known(s.gov, id, h, s.env.sequence)
    ensures var s' := Apply(s, op);
            Known(s'.gov, id, h + Changes(s, op, id), s'.env.sequence)
  {
    hide SystemSound, Known, IdsSound, ParametersSound, Change, ApplyToken;
    RulesOfSound(s);
    assert h + [] == h;
    hide CreateProposal, Vote, Evaluate, Queue, Execute, Cancel;
    match op
    case Advance(_, _) => LaterKnown(s.gov, id, h, s.env.sequence, Apply(s, op).env.sequence);
    case OnToken(_) =>
    case OnGov(govOp) =>
      match govOp
      case InitializeGovernance(_) => InitializeKnown(s, govOp, id, h);
      case CreateOp(proposer, action) => CreateKnown(s.gov, s.token, s.env, proposer, action, id, h);
      case VoteOp(voter, voted, choice) => VoteKnown(s.gov, s.token, s.env, voter, voted, choice, id, h);
      case EvaluateOp(evaluated) => EvaluateKnown(s.gov, s.env, evaluated, id, h);
      case QueueOp(queued) => QueueKnown(s, queued, id, h);
      case ExecuteOp(executed) => ExecuteKnown(s.gov, s.env, executed, id, h);
      case CancelOp(caller, cancelled) => CancelKnown(s.gov, s.env, caller, cancelled, id, h);
  }

  lemma RulesOfSound(s: System)
    requires SystemSound(s)
    ensures IdsSound(s.gov) && ParametersSound(s.gov)
  {
    hide Sound, IdsSound, ParametersSound;
  }

  lemma LaterKnown(g: GovState, id: nat, h: seq<Stamp>, now: nat, later: nat)
    requires Known(g, id, h, now) && now <= later
    ensures Known(g, id, h, later)
  {
  }

  lemma InitializeKnown(s: System, op: GovOp, id: nat, h: seq<Stamp>)
    requires Known(s.gov, id, h, s.env.sequence) && op.InitializeGovernance?
    ensures Known(Apply(s, OnGov(op)).gov, id, h + Changes(s, OnGov(op), id), s.env.sequence)
  {
    hide Known, Change;
    UnchangedKnown(s.gov, Apply(s, OnGov(op)).gov, id, h, s.env.sequence);
  }

  /** Every proposal of every run has lived a timeline that fits its state. */
  lemma {:induction false} TimelineFits(l: Launch, ops: seq<Op>, id: nat)
    requires Proper(l)
    ensures var s := Run(Start(l), ops);
            Known(s.gov, id, Timeline(Start(l), ops, id), s.env.sequence)
  {
    hide SystemSound, Apply, Changes, Launched, Lived;
    if ops != [] {
      var front := ops[..|ops| - 1];
      TimelineFits(l, front, id);
      ReachableSound(l, front);
      StepKnown(Run(Start(l), front), ops[|ops| - 1], id, Timeline(Start(l), front, id));
    }
  }

  /** Timelock safety: an executed proposal was active, passed, queued and executed, in that order;
      it ran no earlier than its execution time, and at least 28,801 ledgers after its creation,
      whatever other proposals did to the voting period and the delay meanwhile. */
  lemma ExecutedAfterTimelock(l: Launch, ops: seq<Op>, id: nat)
    requires Proper(l)
    requires id in Run(Start(l), ops).gov.proposals && Run(Start(l), ops).gov.proposals[id].status == Executed
    ensures var s, h := Run(Start(l), ops), Timeline(Start(l), ops, id);
            var p := s.gov.proposals[id];
            && |h| == 4
            && h[0] == Stamp(Active, p.createdAt)
            && h[1].status == Passed && h[2].status == Queued && h[3].status == Executed
            && p.createdAt + MIN_PERIOD < h[1].ledger <= h[2].ledger
            && h[2].ledger + MIN_DELAY <= p.eta <= h[3].ledger <= s.env.sequence
            && p.createdAt + 28_801 <= h[3].ledger
  {
    hide SystemSound, Run, Launched, Timeline, ProposalSound;
    var s, h := Run(Start(l), ops), Timeline(Start(l), ops, id);
    TimelineFits(l, ops, id);
    ReachableSound(l, ops);
    VotingEndsInTime(s, id);
  }

  /** A decided proposal's voting period was not cut short by saturation at the last ledger. */
  lemma VotingEndsInTime(s: System, id: nat)
    requires SystemSound(s) && id in s.gov.proposals && Won(s.gov.proposals[id].status)
    ensures s.gov.proposals[id].createdAt + MIN_PERIOD <= s.gov.proposals[id].votingEnd
  {
    hide Sound, TalliesMatch, ValidAction;
  }

  // ── Views ──

  /** What any observer computes from public state is what evaluating writes, and the executable
      view is exactly the success of executing. */
  lemma ViewsAgree(g: GovState, env: Env, id: nat)
    requires IdsSound(g) && g.admin.Some? && id in g.proposals
    ensures Evaluate(g, env, id).outcome.Ok? ==>
              GetProposalStatus(g, env, id) == Ok(Evaluate(g, env, id).state.proposals[id].status)
    ensures GetProposalStatus(g, env, id).Ok? && GetProposalStatus(g, env, id).value != Active ==>
              Evaluate(g, env, id).outcome == Ok(Status(GetProposalStatus(g, env, id).value))
    ensures IsExecutable(g, env, id) == Ok(Execute(g, env, id).outcome.Ok?)
    ensures Execute(g, env, id).outcome.Ok? <==> GetRemainingDelay(g, env, id) == Ok(0)
  {
    hide QuorumThreshold;
  }
}
