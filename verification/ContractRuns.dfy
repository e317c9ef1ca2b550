/** The contract objects driven through whole runs: what the theorems say of runs they say of these. */
module ContractRuns {
  import opened Common
  import opened TokenModel
  import opened TokenHistory
  import opened GovernanceModel
  import opened TokenContract
  import opened GovernanceContract
  import opened Protocol
  import opened TokenRuns
  import RegistryModel
  import RegistryContract

  method CallToken(token: GovernanceToken, env: Env, op: TokenOp) returns (r: Outcome<(), TokenError>)
    modifies token
    ensures Call(r, token.State()) == old(ApplyToken(token.State(), env, op))
  {
    match op {
      case InitializeToken(admin, early, treasury, team, public) =>
        r := token.Initialize(env, admin, early, treasury, team, public);
      case ApproveOp(from, spender, amount, expiration) => r := token.Approve(env, from, spender, amount, expiration);
      case TransferOp(from, to, amount) => r := token.Transfer(env, from, to, amount);
      case TransferFromOp(spender, from, to, amount) => r := token.TransferFrom(env, spender, from, to, amount);
      case BurnOp(from, amount) => r := token.Burn(env, from, amount);
      case BurnFromOp(spender, from, amount) => r := token.BurnFrom(env, spender, from, amount);
    }
  }

  method CallGovernance(gov: Governance, env: Env, op: GovOp) returns (r: Outcome<Reply, GovernanceError>)
    requires op.VoteOp? ==> Ordered(History(gov.token.State(), op.voter))
    modifies gov
    ensures GovCall(r, gov.State()) == old(ApplyGov(gov.State(), gov.token.State(), env, op))
  {
    match op {
      case InitializeGovernance(admin) => r := gov.Initialize(admin);
      case CreateOp(proposer, action) => r := gov.CreateProposal(env, proposer, action);
      case VoteOp(voter, id, choice) => r := gov.Vote(env, voter, id, choice);
      case EvaluateOp(id) => r := gov.Evaluate(env, id);
      case QueueOp(id) => r := gov.Queue(env, id);
      case ExecuteOp(id) => r := gov.Execute(env, id);
      case CancelOp(caller, id) => r := gov.Cancel(caller, id);
    }
  }

  /** Deploy and initialize both contracts, then make the calls in order as ledgers pass: the objects
      end in the very state the run describes, and the bisection's list is always in order. */
  method Drive(l: Launch, ops: seq<Op>) returns (env: Env, gov: Governance)
    requires Proper(l)
    ensures System(env, gov.token.State(), gov.State()) == Run(Start(l), ops)
  {
    hide ApplyToken, ApplyGov, Ordered, Increasing, Run, Initialize;
    RunNothing(Start(l));
    env := l.env;
    var token := new GovernanceToken();
    var _ := token.Initialize(env, l.admin, l.earlyKeepers, l.treasury, l.coreTeam, l.publicDistribution);
    gov := new Governance(token);
    assert ops[..0] == [];
    for i := 0 to |ops|
      invariant fresh(token) && fresh(gov) && gov.token == token
      invariant System(env, token.State(), gov.State()) == Run(Start(l), ops[..i])
    {
      assert ops[..i + 1] == ops[..i] + [ops[i]];
      RunSnoc(Start(l), ops[..i], ops[i]);
      match ops[i] {
        case Advance(sequence, timestamp) =>
          if env.sequence <= sequence <= U32_MAX && env.timestamp <= timestamp <= U64_MAX {
            env := Env(sequence, timestamp);
          }
        case OnToken(op) =>
          var _ := CallToken(token, env, op);
        case OnGov(op) =>
          if op.VoteOp? {
            CheckpointsStrictlyIncrease(l, ops[..i], op.voter);
          }
          var _ := CallGovernance(gov, env, op);
      }
    }
    assert ops[..|ops|] == ops;
  }

  /** The registry driven through any calls of its entry points. */
  method DriveRegistry(ops: seq<RegistryModel.AdminOp>) returns (registry: RegistryContract.KeeperRegistry)
    ensures registry.State() == RegistryModel.RunAdmin(ops)
  {
    registry := new RegistryContract.KeeperRegistry();
    for i := 0 to |ops|
      invariant fresh(registry) && registry.State() == RegistryModel.RunAdmin(ops[..i])
    {
      assert ops[..i + 1][..i] == ops[..i];
      var _ := registry.Call(ops[i]);
    }
    assert ops[..|ops|] == ops;
  }
}
