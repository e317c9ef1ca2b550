/** Token and governance together: runs of calls interleaved with the passing of ledgers. */
module Protocol {
  import opened Common
  import opened TokenModel
  import opened TokenHistory
  import opened GovernanceModel
  import opened GovernanceRules

  datatype System = System(env: Env, token: TokenState, gov: GovState)

  datatype Op =
    | Advance(sequence: nat, timestamp: nat)
    | OnToken(tokenOp: TokenOp)
    | OnGov(govOp: GovOp)

  /** One event of a run. Ledgers and time only move forward; a call that fails changes nothing. */
  function Apply(s: System, op: Op): System {
    match op
    case Advance(sequence, timestamp) =>
      if s.env.sequence <= sequence <= U32_MAX && s.env.timestamp <= timestamp <= U64_MAX
      then s.(env := Env(sequence, timestamp))
      else s
    case OnToken(tokenOp) => s.(token := ApplyToken(s.token, s.env, tokenOp).state)
    case OnGov(govOp) => s.(gov := ApplyGov(s.gov, s.token, s.env, govOp).state)
  }

  function Run(s: System, ops: seq<Op>): System {
    if ops == [] then s else Apply(Run(s, ops[..|ops| - 1]), ops[|ops| - 1])
  }

  /** Who the initial supply goes to, and when. */
  datatype Launch = Launch(env: Env, admin: Address, earlyKeepers: Address, treasury: Address,
                           coreTeam: Address, publicDistribution: Address)

  predicate Distinct(l: Launch) {
    && l.earlyKeepers != l.treasury && l.earlyKeepers != l.coreTeam && l.earlyKeepers != l.publicDistribution
    && l.treasury != l.coreTeam && l.treasury != l.publicDistribution
    && l.coreTeam != l.publicDistribution
  }

  /** Four different holders, on a chain whose clock does not run out before the team has vested. */
  predicate Proper(l: Launch) {
    Distinct(l) && l.env.sequence <= U32_MAX && l.env.timestamp + TEAM_VESTING_SECONDS <= U64_MAX
  }

  function Launched(l: Launch): TokenState {
    Initialize(EmptyToken, l.env, l.admin, l.earlyKeepers, l.treasury, l.coreTeam, l.publicDistribution).state
  }

  /** The token just initialized, governance not yet. */
  function Start(l: Launch): System {
    System(l.env, Launched(l), EmptyGov)
  }

  ghost predicate SystemSound(s: System) {
    && s.env.sequence <= U32_MAX && s.env.timestamp <= U64_MAX
    && s.token.admin.Some?
    && Sound(s.token, s.env)
    && GovSound(s.gov, s.env.sequence)
  }

  lemma LaunchedSound(l: Launch)
    requires Proper(l)
    ensures Sound(Launched(l), l.env)
    ensures Launched(l).vesting == map[l.coreTeam := TeamSchedule(l.env.timestamp)]
  {
    hide Sound;
    var s0 := EmptyToken.(admin := Some(l.admin));
    var s1 := SetBalance(s0, l.env, l.earlyKeepers, ALLOC_EARLY_KEEPERS);
    var s2 := SetBalance(s1, l.env, l.treasury, ALLOC_TREASURY);
    var s3 := SetBalance(s2, l.env, l.coreTeam, ALLOC_CORE_TEAM);
    var s4 := s3.(vesting := s3.vesting[l.coreTeam := TeamSchedule(l.env.timestamp)]);
    EmptySound(s0, l.env);
    SetBalanceSound(s0, l.env, l.earlyKeepers, ALLOC_EARLY_KEEPERS);
    SetBalanceSound(s1, l.env, l.treasury, ALLOC_TREASURY);
    SetBalanceSound(s2, l.env, l.coreTeam, ALLOC_CORE_TEAM);
    VestingStarts(s3, l.env, l.coreTeam);
    SetBalanceSound(s4, l.env, l.publicDistribution, ALLOC_PUBLIC);
  }

  lemma EmptySound(s: TokenState, env: Env)
    requires s.balances == map[] && s.checkpoints == map[] && s.vesting == map[] && s.allowances == map[]
    ensures Sound(s, env)
  {
  }

  lemma EmptySupply(s: TokenState, at: nat)
    requires s.checkpoints == map[]
    ensures SupplyAt(s, at) == 0
  {
    assert BalancesAt(s, at) == map[];
  }

  lemma VestingStarts(s: TokenState, env: Env, id: Address)
    requires Sound(s, env) && s.vesting == map[] && Balance(s, id) == ALLOC_CORE_TEAM
    requires env.timestamp + TEAM_VESTING_SECONDS <= U64_MAX
    ensures Sound(s.(vesting := map[id := TeamSchedule(env.timestamp)]), env)
  {
  }

  /** Every step keeps the state invariant. */
  lemma StepSound(s: System, op: Op)
    requires SystemSound(s)
    ensures SystemSound(Apply(s, op))
  {
    hide Sound, GovSound, ApplyToken, ApplyGov;
    match op
    case Advance(sequence, timestamp) =>
      if Apply(s, op) != s {
        AdvanceSound(s.token, s.env, Env(sequence, timestamp));
        GovAdvance(s.gov, s.env.sequence, sequence);
      }
    case OnToken(tokenOp) => CallSound(s.token, s.env, tokenOp);
    case OnGov(govOp) => GovCallSound(s.gov, s.token, s.env, govOp);
  }

  lemma {:induction false} RunSound(s: System, ops: seq<Op>)
    requires SystemSound(s)
    ensures SystemSound(Run(s, ops))
  {
    if ops != [] {
      RunSound(s, ops[..|ops| - 1]);
      StepSound(Run(s, ops[..|ops| - 1]), ops[|ops| - 1]);
    }
  }

  lemma StartSound(l: Launch)
    requires Proper(l)
    ensures SystemSound(Start(l))
  {
    hide Sound;
    LaunchedSound(l);
  }

  /** Every state a run can reach is sound. */
  lemma ReachableSound(l: Launch, ops: seq<Op>)
    requires Proper(l)
    ensures SystemSound(Run(Start(l), ops))
  {
    hide SystemSound, Start, Run;
    StartSound(l);
    RunSound(Start(l), ops);
  }

  lemma RunNothing(s: System)
    ensures Run(s, []) == s
  {
  }

  lemma {:induction false} RunAppend(s: System, a: seq<Op>, b: seq<Op>)
    ensures Run(s, a + b) == Run(Run(s, a), b)
  {
    if b == [] {
      assert a + b == a;
    } else {
      assert (a + b)[..|a + b| - 1] == a + b[..|b| - 1];
      RunAppend(s, a, b[..|b| - 1]);
    }
  }

  lemma RunSnoc(s: System, ops: seq<Op>, op: Op)
    ensures Run(s, ops + [op]) == Apply(Run(s, ops), op)
  {
    assert (ops + [op])[..|ops|] == ops;
  }

  /** The clock never runs backwards. */
  lemma {:induction false} RunAdvances(s: System, ops: seq<Op>)
    ensures s.env.sequence <= Run(s, ops).env.sequence
    ensures s.env.timestamp <= Run(s, ops).env.timestamp
  {
    if ops != [] {
      RunAdvances(s, ops[..|ops| - 1]);
    }
  }

  /** Proposals only move forward along a run. */
  lemma {:induction false} RunEvolves(s: System, ops: seq<Op>)
    requires SystemSound(s)
    ensures GovEvolves(s.gov, Run(s, ops).gov)
  {
    hide SystemSound, GovEvolves, ApplyGov, ApplyToken;
    if ops == [] {
      EvolvesReflexive(s.gov);
    } else {
      var mid := Run(s, ops[..|ops| - 1]);
      RunSound(s, ops[..|ops| - 1]);
      RunEvolves(s, ops[..|ops| - 1]);
      IdsOfSound(mid);
      match ops[|ops| - 1]
      case OnGov(govOp) =>
        GovCallEvolves(mid.gov, mid.token, mid.env, govOp);
        EvolvesTransitive(s.gov, mid.gov, Run(s, ops).gov);
      case _ =>
    }
  }

  lemma IdsOfSound(s: System)
    requires SystemSound(s)
    ensures IdsSound(s.gov)
  {
  }
}
