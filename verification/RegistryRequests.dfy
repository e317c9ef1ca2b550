/** The registry's configuration as what its callers asked for: the arguments of the calls alone say
    what is stored, who may change it, and which calls are refused. */
module RegistryRequests {
  import opened Common
  import opened Events
  import opened RegistryModel
  import opened AdminFold

  /** What the calls so far have asked for. */
  datatype Wishes = Wishes(
    admin: Option<Address>,
    rewardToken: Option<Address>,
    feeBps: Option<nat>,
    paused: Option<bool>,
    minReward: Option<int>,
    reputationFloor: Option<nat>,
    code: Option<nat>,
    held: int)

  const NoWishes: Wishes := Wishes(None, None, None, None, None, None, None, 0)

  /** The first initialization with a fee of at most all, and afterwards the current admin asking for
      something in range, are granted. Fees leave only if they are there and the token pays them out. */
  predicate Granted(w: Wishes, op: AdminOp) {
    match op
    case DoInitialize(_, _, bps) => w.admin.None? && bps <= 10_000
    case DoSetPaused(caller, _) => w.admin == Some(caller)
    case DoSetFeeBps(caller, bps) => w.admin == Some(caller) && bps <= 10_000
    case DoSetMinReward(caller, min) => w.admin == Some(caller) && min >= 0
    case DoSetReputationFloor(caller, bps) => w.admin == Some(caller) && bps <= 10_000
    case DoTransferAdmin(caller, _) => w.admin == Some(caller)
    case DoUpgrade(caller, _) => w.admin == Some(caller)
    case DoSweepFees(caller, _, amount, pays) => w.admin == Some(caller) && 0 < amount <= w.held && pays
    case DoAccrueFee(fee) => fee == 0 || I128_MIN <= w.held + fee <= I128_MAX
    case DoEmitTask(_, _, _, _) => true
  }

  /** Each part from the last granted call of its kind. */
  function Asked(ops: seq<AdminOp>): Wishes {
    if ops == [] then NoWishes
    else
      var w, op := Asked(ops[..|ops| - 1]), ops[|ops| - 1];
      if !Granted(w, op) then w else Wished(w, op)
  }

  function Wished(w: Wishes, op: AdminOp): Wishes {
    match op
    case DoInitialize(admin, token, bps) =>
      w.(admin := Some(admin), rewardToken := Some(token), feeBps := Some(bps), paused := Some(false))
    case DoSetPaused(_, paused) => w.(paused := Some(paused))
    case DoSetFeeBps(_, bps) => w.(feeBps := Some(bps))
    case DoSetMinReward(_, min) => w.(minReward := Some(min))
    case DoSetReputationFloor(_, bps) => w.(reputationFloor := Some(bps))
    case DoTransferAdmin(_, newAdmin) => w.(admin := Some(newAdmin))
    case DoUpgrade(_, hash) => w.(code := Some(hash))
    case DoSweepFees(_, _, amount, _) => w.(held := w.held - amount)
    case DoAccrueFee(fee) => w.(held := w.held + fee)
    case DoEmitTask(_, _, _, _) => w
  }

  predicate Fulfilled(g: Registry, w: Wishes) {
    && g.admin == w.admin && g.rewardToken == w.rewardToken && g.feeBps == w.feeBps && g.paused == w.paused
    && g.minReward == w.minReward && g.reputationFloor == w.reputationFloor && g.wasmHash == w.code
    && OrElse(g.feesAccrued, 0) == w.held
    && (g.admin.Some? ==> g.rewardToken.Some?)
  }

  lemma StepFulfils(g: Registry, w: Wishes, op: AdminOp)
    requires Fulfilled(g, w)
    ensures ApplyAdmin(g, op).outcome.Ok? <==> Granted(w, op)
    ensures !Granted(w, op) ==> ApplyAdmin(g, op).registry == g
    ensures Fulfilled(ApplyAdmin(g, op).registry, if Granted(w, op) then Wished(w, op) else w)
  {
  }

  /** In every run storage is exactly what the granted calls asked for, and any next call is accepted
      exactly when it is granted. */
  lemma {:induction false} StorageIsWhatWasAsked(ops: seq<AdminOp>, next: AdminOp)
    ensures Fulfilled(RunAdmin(ops), Asked(ops))
    ensures ApplyAdmin(RunAdmin(ops), next).outcome.Ok? <==> Granted(Asked(ops), next)
    ensures !Granted(Asked(ops), next) ==> ApplyAdmin(RunAdmin(ops), next).registry == RunAdmin(ops)
  {
    hide Fulfilled, Granted, Wished, ApplyAdmin;
    if ops == [] {
      NothingAsked();
    } else {
      var front, op := ops[..|ops| - 1], ops[|ops| - 1];
      StorageIsWhatWasAsked(front, op);
      StepFulfils(RunAdmin(front), Asked(front), op);
    }
    StepFulfils(RunAdmin(ops), Asked(ops), next);
  }

  lemma NothingAsked()
    ensures Fulfilled(Deployed, NoWishes)
  {
  }

  /** So the indexer's fold shows what was asked for, too. */
  lemma FoldIsWhatWasAsked(ops: seq<AdminOp>)
    ensures var c, w := Folded(RunAdmin(ops).log), Asked(ops);
            && c.admin == w.admin && c.rewardToken == w.rewardToken && c.feeBps == w.feeBps && c.paused == w.paused
            && c.minReward == w.minReward && c.currentWasmHash == w.code
            && c.totalFeesSwept + w.held == Accrued(ops)
  {
    hide Folded, RunAdmin, Asked, Accrued, NoNegativeFees;
    FoldIsLive(ops);
    StorageIsWhatWasAsked(ops, DoAccrueFee(0));
  }

  /** A refusal names its cause. */
  lemma RefusalsNameTheirCause(g: Registry, w: Wishes, op: AdminOp)
    requires Fulfilled(g, w)
    ensures var r := ApplyAdmin(g, op).outcome;
            && (r == Err(NotInitialized) ==> w.admin.None? && !op.DoInitialize?)
            && (r == Err(Unauthorized) ==> w.admin.Some? && w.admin != Some(op.caller))
            && (r == Err(AlreadyInitialized) ==> w.admin.Some? && op.DoInitialize?)
            && (r == Err(InvalidFeeBps) ==>
                  (op.DoInitialize? && op.initialBps > 10_000) || (op.DoSetFeeBps? && op.newBps > 10_000))
            && (r == Err(InvalidReputationFloor) ==> op.DoSetReputationFloor? && op.floorBps > 10_000)
            && (r == Err(InvalidReward) ==>
                  (op.DoSetMinReward? && op.minReward < 0) || (op.DoSweepFees? && op.amount <= 0))
            && (r == Err(NoRewardsAvailable) ==> op.DoSweepFees? && op.amount > w.held)
            && (r == Err(ArithmeticOverflow) ==> op.DoAccrueFee?)
  {
  }

  /** An accepted call but accrual emits one event, and it says what was asked for. */
  lemma EventsSayWhatWasAsked(g: Registry, op: AdminOp)
    requires ApplyAdmin(g, op).outcome.Ok?
    ensures var log := ApplyAdmin(g, op).registry.log;
            if op.DoAccrueFee? then log == g.log
            else
              && |log| == |g.log| + 1 && log[..|g.log|] == g.log
              && var e := log[|g.log|];
              && (e.Unrecognised? <==> op.DoSetReputationFloor?)
              && (e.Recognised? ==>
                    match op
                    case DoInitialize(admin, token, bps) => e.payload == Initialized(admin, token, bps)
                    case DoSetPaused(_, paused) => e.payload == Paused(paused)
                    case DoSetFeeBps(_, bps) => e.payload.FeeUpdated? && e.payload.newBps == bps
                    case DoSetMinReward(_, min) => e.payload.MinRewardUpdated? && e.payload.newMin == min
                    case DoSetReputationFloor(_, _) => true
                    case DoTransferAdmin(caller, newAdmin) => e.payload == AdminTransferred(caller, newAdmin)
                    case DoUpgrade(caller, hash) => e.payload == Upgraded(caller, hash)
                    case DoSweepFees(_, treasury, amount, _) =>
                      e.payload.FeesSwept? && e.payload.treasury == treasury && e.payload.amount == amount
                    case DoAccrueFee(_) => true
                    case DoEmitTask(kind, task, owner, keeper) => e.payload == TaskEvent(kind, task, owner, keeper))
  {
  }
}
