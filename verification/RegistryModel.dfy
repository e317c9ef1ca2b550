/** The registry's admin entry points: what each stores and which event it emits. */
module RegistryModel {
  import opened Common
  import opened Events

  datatype KeeperError =
    | AlreadyInitialized | Unauthorized | NotInitialized | InvalidFeeBps | InvalidReward
    | InvalidReputationFloor | NoRewardsAvailable | ArithmeticOverflow

  const MAX_FEE_BPS: nat := 10_000
  const MAX_REPUTATION_FLOOR_BPS: nat := 10_000
  const DEFAULT_FEE_BPS: nat := 0

  /** Instance storage, as far as administration goes, the running code, and every event emitted. */
  datatype Registry = Registry(
    admin: Option<Address>,
    rewardToken: Option<Address>,
    feeBps: Option<nat>,
    paused: Option<bool>,
    minReward: Option<int>,
    reputationFloor: Option<nat>,
    feesAccrued: Option<int>,
    wasmHash: Option<nat>,
    log: seq<Body>)

  const Deployed: Registry := Registry(None, None, None, None, None, None, None, None, [])

  datatype Done = Done(outcome: Outcome<(), KeeperError>, registry: Registry)

  function Emit(g: Registry, p: EventPayload): Done {
    Done(Ok(()), g.(log := g.log + [Recognised(p)]))
  }

  function Refuse(g: Registry, error: KeeperError): Done {
    Done(Err(error), g)
  }

  function RequireAdmin(g: Registry, caller: Address): Option<KeeperError> {
    if g.admin.None? then Some(NotInitialized)
    else if caller != g.admin.value then Some(Unauthorized)
    else None
  }

  function OrElse<T>(o: Option<T>, default: T): T {
    if o.Some? then o.value else default
  }

  function Initialize(g: Registry, admin: Address, rewardToken: Address, feeBps: nat): Done {
    if g.admin.Some? then Refuse(g, AlreadyInitialized)
    else if feeBps > MAX_FEE_BPS then Refuse(g, InvalidFeeBps)
    else Emit(g.(admin := Some(admin), rewardToken := Some(rewardToken), feeBps := Some(feeBps), paused := Some(false)),
              Initialized(admin, rewardToken, feeBps))
  }

  function SetPaused(g: Registry, caller: Address, paused: bool): Done {
    var denied := RequireAdmin(g, caller);
    if denied.Some? then Refuse(g, denied.value)
    else Emit(g.(paused := Some(paused)), Paused(paused))
  }

  function SetFeeBps(g: Registry, caller: Address, newBps: nat): Done {
    var denied := RequireAdmin(g, caller);
    if denied.Some? then Refuse(g, denied.value)
    else if newBps > MAX_FEE_BPS then Refuse(g, InvalidFeeBps)
    else Emit(g.(feeBps := Some(newBps)), FeeUpdated(OrElse(g.feeBps, DEFAULT_FEE_BPS), newBps))
  }

  function SetMinReward(g: Registry, caller: Address, minReward: int): Done {
    var denied := RequireAdmin(g, caller);
    if denied.Some? then Refuse(g, denied.value)
    else if minReward < 0 then Refuse(g, InvalidReward)
    else Emit(g.(minReward := Some(minReward)), MinRewardUpdated(OrElse(g.minReward, 0), minReward))
  }

  /** Emits under topics the indexer does not know. */
  function SetReputationFloor(g: Registry, caller: Address, floorBps: nat): Done {
    var denied := RequireAdmin(g, caller);
    if denied.Some? then Refuse(g, denied.value)
    else if floorBps > MAX_REPUTATION_FLOOR_BPS then Refuse(g, InvalidReputationFloor)
    else Done(Ok(()), g.(reputationFloor := Some(floorBps), log := g.log + [Unrecognised(floorBps)]))
  }

  function TransferAdmin(g: Registry, caller: Address, newAdmin: Address): Done {
    var denied := RequireAdmin(g, caller);
    if denied.Some? then Refuse(g, denied.value)
    else Emit(g.(admin := Some(newAdmin)), AdminTransferred(caller, newAdmin))
  }

  function Upgrade(g: Registry, caller: Address, newWasmHash: nat): Done {
    var denied := RequireAdmin(g, caller);
    if denied.Some? then Refuse(g, denied.value)
    else Emit(g.(wasmHash := Some(newWasmHash)), Upgraded(caller, newWasmHash))
  }

  /** `pays` is whether the reward token's own `transfer` goes through; if not, the host reverts. */
  function SweepFees(g: Registry, caller: Address, treasury: Address, amount: int, pays: bool): Done {
    var denied := RequireAdmin(g, caller);
    var accrued := OrElse(g.feesAccrued, 0);
    if denied.Some? then Refuse(g, denied.value)
    else if amount <= 0 then Refuse(g, InvalidReward)
    else if amount > accrued then Refuse(g, NoRewardsAvailable)
    else if g.rewardToken.None? then Refuse(g, NotInitialized)
    else if !pays then Done(Panic, g)
    else Emit(g.(feesAccrued := Some(accrued - amount)), FeesSwept(treasury, amount, accrued - amount))
  }

  /** What an execution payout adds to the accumulator. */
  function AccrueFee(g: Registry, amount: int): Done {
    var current := OrElse(g.feesAccrued, 0);
    if amount == 0 then Done(Ok(()), g)
    else if current + amount > I128_MAX || current + amount < I128_MIN then Refuse(g, ArithmeticOverflow)
    else Done(Ok(()), g.(feesAccrued := Some(current + amount)))
  }

  /** Any entry point outside administration, as far as the log goes. */
  function EmitTask(g: Registry, kind: nat, taskId: Option<nat>, owner: Option<Address>, keeper: Option<Address>): Done
  {
    Emit(g, TaskEvent(kind, taskId, owner, keeper))
  }

  datatype AdminOp =
    | DoInitialize(admin: Address, rewardToken: Address, initialBps: nat)
    | DoSetPaused(caller: Address, paused: bool)
    | DoSetFeeBps(caller: Address, newBps: nat)
    | DoSetMinReward(caller: Address, minReward: int)
    | DoSetReputationFloor(caller: Address, floorBps: nat)
    | DoTransferAdmin(caller: Address, newAdmin: Address)
    | DoUpgrade(caller: Address, newWasmHash: nat)
    | DoSweepFees(caller: Address, treasury: Address, amount: int, pays: bool)
    | DoAccrueFee(fee: int)
    | DoEmitTask(kind: nat, taskId: Option<nat>, owner: Option<Address>, keeper: Option<Address>)

  function ApplyAdmin(g: Registry, op: AdminOp): Done {
    match op
    case DoInitialize(admin, token, bps) => Initialize(g, admin, token, bps)
    case DoSetPaused(caller, paused) => SetPaused(g, caller, paused)
    case DoSetFeeBps(caller, bps) => SetFeeBps(g, caller, bps)
    case DoSetMinReward(caller, min) => SetMinReward(g, caller, min)
    case DoSetReputationFloor(caller, bps) => SetReputationFloor(g, caller, bps)
    case DoTransferAdmin(caller, newAdmin) => TransferAdmin(g, caller, newAdmin)
    case DoUpgrade(caller, hash) => Upgrade(g, caller, hash)
    case DoSweepFees(caller, treasury, amount, pays) => SweepFees(g, caller, treasury, amount, pays)
    case DoAccrueFee(fee) => AccrueFee(g, fee)
    case DoEmitTask(kind, task, owner, keeper) => EmitTask(g, kind, task, owner, keeper)
  }

  function RunAdmin(ops: seq<AdminOp>): Registry {
    if ops == [] then Deployed
    else ApplyAdmin(RunAdmin(ops[..|ops| - 1]), ops[|ops| - 1]).registry
  }
}
