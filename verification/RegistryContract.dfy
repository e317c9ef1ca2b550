/** The admin entry points as they change instance storage in place. */
module RegistryContract {
  import opened Common
  import opened Events
  import opened RegistryModel

  class KeeperRegistry {
    var admin: Option<Address>
    var rewardToken: Option<Address>
    var feeBps: Option<nat>
    var paused: Option<bool>
    var minReward: Option<int>
    var reputationFloor: Option<nat>
    var feesAccrued: Option<int>
    var wasmHash: Option<nat>
    var log: seq<Body>

    function State(): Registry
      reads this
    {
      Registry(admin, rewardToken, feeBps, paused, minReward, reputationFloor, feesAccrued, wasmHash, log)
    }

    constructor ()
      ensures State() == Deployed
    {
      admin, rewardToken, feeBps, paused := None, None, None, None;
      minReward, reputationFloor, feesAccrued, wasmHash := None, None, None, None;
      log := [];
    }

    method RequireAdmin(caller: Address) returns (denied: Option<KeeperError>)
      ensures denied == RegistryModel.RequireAdmin(State(), caller)
    {
      if admin.None? {
        return Some(NotInitialized);
      }
      if caller != admin.value {
        return Some(Unauthorized);
      }
      denied := None;
    }

    method Initialize(newAdmin: Address, token: Address, bps: nat) returns (r: Outcome<(), KeeperError>)
      modifies this
      ensures Done(r, State()) == old(RegistryModel.Initialize(State(), newAdmin, token, bps))
    {
      if admin.Some? {
        return Err(AlreadyInitialized);
      }
      if bps > MAX_FEE_BPS {
        return Err(InvalidFeeBps);
      }
      admin := Some(newAdmin);
      rewardToken := Some(token);
      feeBps := Some(bps);
      paused := Some(false);
      log := log + [Recognised(Initialized(newAdmin, token, bps))];
      r := Ok(());
    }

    method Pause(caller: Address) returns (r: Outcome<(), KeeperError>)
      modifies this`paused, this`log
      ensures Done(r, State()) == old(SetPaused(State(), caller, true))
    {
      var denied := RequireAdmin(caller);
      if denied.Some? {
        return Err(denied.value);
      }
      paused := Some(true);
      log := log + [Recognised(Paused(true))];
      r := Ok(());
    }

    method Unpause(caller: Address) returns (r: Outcome<(), KeeperError>)
      modifies this`paused, this`log
      ensures Done(r, State()) == old(SetPaused(State(), caller, false))
    {
      var denied := RequireAdmin(caller);
      if denied.Some? {
        return Err(denied.value);
      }
      paused := Some(false);
      log := log + [Recognised(Paused(false))];
      r := Ok(());
    }

    method SetFeeBps(caller: Address, newBps: nat) returns (r: Outcome<(), KeeperError>)
      modifies this`feeBps, this`log
      ensures Done(r, State()) == old(RegistryModel.SetFeeBps(State(), caller, newBps))
    {
      var denied := RequireAdmin(caller);
      if denied.Some? {
        return Err(denied.value);
      }
      if newBps > MAX_FEE_BPS {
        return Err(InvalidFeeBps);
      }
      var oldBps := OrElse(feeBps, DEFAULT_FEE_BPS);
      feeBps := Some(newBps);
      log := log + [Recognised(FeeUpdated(oldBps, newBps))];
      r := Ok(());
    }

    method SetMinReward(caller: Address, newMin: int) returns (r: Outcome<(), KeeperError>)
      modifies this`minReward, this`log
      ensures Done(r, State()) == old(RegistryModel.SetMinReward(State(), caller, newMin))
    {
      var denied := RequireAdmin(caller);
      if denied.Some? {
        return Err(denied.value);
      }
      if newMin < 0 {
        return Err(InvalidReward);
      }
      var oldMin := OrElse(minReward, 0);
      minReward := Some(newMin);
      log := log + [Recognised(MinRewardUpdated(oldMin, newMin))];
      r := Ok(());
    }

    method SetReputationFloor(caller: Address, floorBps: nat) returns (r: Outcome<(), KeeperError>)
      modifies this`reputationFloor, this`log
      ensures Done(r, State()) == old(RegistryModel.SetReputationFloor(State(), caller, floorBps))
    {
      var denied := RequireAdmin(caller);
      if denied.Some? {
        return Err(denied.value);
      }
      if floorBps > MAX_REPUTATION_FLOOR_BPS {
        return Err(InvalidReputationFloor);
      }
      reputationFloor := Some(floorBps);
      log := log + [Unrecognised(floorBps)];
      r := Ok(());
    }

    method TransferAdmin(caller: Address, newAdmin: Address) returns (r: Outcome<(), KeeperError>)
      modifies this`admin, this`log
      ensures Done(r, State()) == old(RegistryModel.TransferAdmin(State(), caller, newAdmin))
    {
      var denied := RequireAdmin(caller);
      if denied.Some? {
        return Err(denied.value);
      }
      admin := Some(newAdmin);
      log := log + [Recognised(AdminTransferred(caller, newAdmin))];
      r := Ok(());
    }

    method Upgrade(caller: Address, newWasmHash: nat) returns (r: Outcome<(), KeeperError>)
      modifies this`wasmHash, this`log
      ensures Done(r, State()) == old(RegistryModel.Upgrade(State(), caller, newWasmHash))
    {
      var denied := RequireAdmin(caller);
      if denied.Some? {
        return Err(denied.value);
      }
      log := log + [Recognised(Upgraded(caller, newWasmHash))];
      wasmHash := Some(newWasmHash);
      r := Ok(());
    }

    method SweepFees(caller: Address, treasury: Address, amount: int, pays: bool) returns (r: Outcome<(), KeeperError>)
      modifies this`feesAccrued, this`log
      ensures Done(r, State()) == old(RegistryModel.SweepFees(State(), caller, treasury, amount, pays))
    {
      var denied := RequireAdmin(caller);
      if denied.Some? {
        return Err(denied.value);
      }
      if amount <= 0 {
        return Err(InvalidReward);
      }
      var accrued := OrElse(feesAccrued, 0);
      if amount > accrued {
        return Err(NoRewardsAvailable);
      }
      if rewardToken.None? {
        return Err(NotInitialized);
      }
      if !pays {
        return Panic;
      }
      feesAccrued := Some(accrued - amount);
      log := log + [Recognised(FeesSwept(treasury, amount, accrued - amount))];
      r := Ok(());
    }

    method AccrueFee(amount: int) returns (r: Outcome<(), KeeperError>)
      modifies this`feesAccrued
      ensures Done(r, State()) == old(RegistryModel.AccrueFee(State(), amount))
    {
      if amount == 0 {
        return Ok(());
      }
      var current := OrElse(feesAccrued, 0);
      if current + amount > I128_MAX || current + amount < I128_MIN {
        return Err(ArithmeticOverflow);
      }
      feesAccrued := Some(current + amount);
      r := Ok(());
    }

    /** Any entry point outside administration, as far as the log goes. */
    method EmitTask(kind: nat, taskId: Option<nat>, owner: Option<Address>, keeper: Option<Address>)
      modifies this`log
      ensures Done(Ok(()), State()) == old(RegistryModel.EmitTask(State(), kind, taskId, owner, keeper))
    {
      log := log + [Recognised(TaskEvent(kind, taskId, owner, keeper))];
    }

    method Call(op: AdminOp) returns (r: Outcome<(), KeeperError>)
      modifies this
      ensures Done(r, State()) == old(ApplyAdmin(State(), op))
    {
      match op {
        case DoInitialize(newAdmin, token, bps) => r := Initialize(newAdmin, token, bps);
        case DoSetPaused(caller, flag) =>
          if flag {
            r := Pause(caller);
          } else {
            r := Unpause(caller);
          }
        case DoSetFeeBps(caller, bps) => r := SetFeeBps(caller, bps);
        case DoSetMinReward(caller, min) => r := SetMinReward(caller, min);
        case DoSetReputationFloor(caller, bps) => r := SetReputationFloor(caller, bps);
        case DoTransferAdmin(caller, newAdmin) => r := TransferAdmin(caller, newAdmin);
        case DoUpgrade(caller, hash) => r := Upgrade(caller, hash);
        case DoSweepFees(caller, treasury, amount, pays) => r := SweepFees(caller, treasury, amount, pays);
        case DoAccrueFee(fee) => r := AccrueFee(fee);
        case DoEmitTask(kind, taskId, owner, keeper) =>
          EmitTask(kind, taskId, owner, keeper);
          r := Ok(());
      }
    }
  }
}
