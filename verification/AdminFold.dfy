/** The indexer's view of the configuration, folded from events, against the contract's own state. */
module AdminFold {
  import opened Common
  import opened Events
  import opened RegistryModel
  import opened BackfillModel
  import HonestRuns

  datatype AdminConfig = AdminConfig(
    admin: Option<Address>,
    rewardToken: Option<Address>,
    feeBps: Option<nat>,
    paused: Option<bool>,
    minReward: Option<int>,
    totalFeesSwept: int,
    currentWasmHash: Option<nat>)

  const Unconfigured: AdminConfig := AdminConfig(None, None, None, None, None, 0, None)

  function Absorb(c: AdminConfig, p: EventPayload): AdminConfig {
    match p
    case Initialized(admin, token, bps) =>
      c.(admin := Some(admin), rewardToken := Some(token), feeBps := Some(bps),
         paused := if c.paused.Some? then c.paused else Some(false))
    case Paused(paused) => c.(paused := Some(paused))
    case FeeUpdated(_, newBps) => c.(feeBps := Some(newBps))
    case AdminTransferred(_, newAdmin) => c.(admin := Some(newAdmin))
    case MinRewardUpdated(_, newMin) => c.(minReward := Some(newMin))
    case FeesSwept(_, amount, _) => c.(totalFeesSwept := c.totalFeesSwept + amount)
    case Upgraded(_, hash) => c.(currentWasmHash := Some(hash))
    case TaskEvent(_, _, _, _) => c
  }

  function Fold(events: seq<EventPayload>): AdminConfig {
    if events == [] then Unconfigured else Absorb(Fold(events[..|events| - 1]), events[|events| - 1])
  }

  /** `AdminConfig::fold`, as the loop it is. */
  method FoldEvents(events: seq<EventPayload>) returns (config: AdminConfig)
    ensures config == Fold(events)
  {
    config := Unconfigured;
    var swept := 0;
    for i := 0 to |events|
      invariant config.(totalFeesSwept := swept) == Fold(events[..i])
    {
      assert events[..i + 1][..i] == events[..i];
      match events[i] {
        case Initialized(admin, token, bps) =>
          config := config.(admin := Some(admin), rewardToken := Some(token), feeBps := Some(bps));
          if config.paused.None? {
            config := config.(paused := Some(false));
          }
        case Paused(paused) => config := config.(paused := Some(paused));
        case FeeUpdated(_, newBps) => config := config.(feeBps := Some(newBps));
        case AdminTransferred(_, newAdmin) => config := config.(admin := Some(newAdmin));
        case MinRewardUpdated(_, newMin) => config := config.(minReward := Some(newMin));
        case FeesSwept(_, amount, _) => swept := swept + amount;
        case Upgraded(_, hash) => config := config.(currentWasmHash := Some(hash));
        case TaskEvent(_, _, _, _) =>
      }
    }
    assert events[..|events|] == events;
    config := config.(totalFeesSwept := swept);
  }

  // ── Runs of the registry ──

  /** The events of a log that the indexer understands. */
  function Understood(log: seq<Body>): seq<EventPayload> {
    if log == [] then []
    else Understood(log[..|log| - 1]) +
         (if log[|log| - 1].Recognised? then [log[|log| - 1].payload] else [])
  }

  function Folded(log: seq<Body>): AdminConfig {
    Fold(Understood(log))
  }

  lemma FoldedSnoc(log: seq<Body>, b: Body)
    ensures Folded(log + [b]) == if b.Recognised? then Absorb(Folded(log), b.payload) else Folded(log)
  {
    assert (log + [b])[..|log|] == log;
    if b.Recognised? {
      var u := Understood(log);
      assert (u + [b.payload])[..|u|] == u;
    } else {
      assert Understood(log) + [] == Understood(log);
    }
  }

  /** Everything accrued by the calls of a run that went through. */
  function Accrued(ops: seq<AdminOp>): int {
    if ops == [] then 0
    else
      var op := ops[|ops| - 1];
      Accrued(ops[..|ops| - 1]) +
      (if op.DoAccrueFee? && ApplyAdmin(RunAdmin(ops[..|ops| - 1]), op).outcome.Ok? then op.fee else 0)
  }

  /** What the contract itself says. */
  function Live(g: Registry, swept: int): AdminConfig {
    AdminConfig(g.admin, g.rewardToken, g.feeBps, g.paused, g.minReward, swept, g.wasmHash)
  }

  /** What an event claims of the state before it is what the log before it adds up to. */
  ghost predicate Truthful(before: AdminConfig, p: EventPayload, accrued: int) {
    match p
    case Initialized(_, _, _) => before == Unconfigured
    case FeeUpdated(oldBps, _) => before.feeBps == Some(oldBps)
    case AdminTransferred(oldAdmin, _) => before.admin == Some(oldAdmin)
    case MinRewardUpdated(oldMin, _) => OrElse(before.minReward, 0) == oldMin
    case Upgraded(upgrader, _) => before.admin == Some(upgrader)
    case FeesSwept(_, amount, remaining) =>
      amount > 0 && remaining >= 0 && before.totalFeesSwept + amount + remaining == accrued
    case _ => true
  }

  /** As payouts go, fees are never negative; the entry point itself does not check. */
  predicate NoNegativeFees(ops: seq<AdminOp>) {
    forall i :: 0 <= i < |ops| && ops[i].DoAccrueFee? ==> ops[i].fee >= 0
  }

  /** The folded configuration `c` is the live one, and with `accrued` fees in all the books balance. */
  predicate Balanced(g: Registry, c: AdminConfig, accrued: int, clean: bool) {
    && c == Live(g, c.totalFeesSwept)
    && (g.admin.Some? ==> g.rewardToken.Some? && g.feeBps.Some? && g.paused.Some?)
    && (g.admin.None? ==> c == Unconfigured)
    && c.totalFeesSwept >= 0
    && (clean ==> OrElse(g.feesAccrued, 0) >= 0)
    && c.totalFeesSwept + OrElse(g.feesAccrued, 0) == accrued
  }

  ghost predicate InStep(ops: seq<AdminOp>) {
    Balanced(RunAdmin(ops), Folded(RunAdmin(ops).log), Accrued(ops), NoNegativeFees(ops))
  }

  /** Whatever is called in whatever order: the fold of the emitted events is the live admin, reward
      token, fee, pause flag, minimum reward and code, and fees swept plus fees still held are all
      the fees there ever were. */
  lemma {:induction false} FoldIsLive(ops: seq<AdminOp>)
    ensures InStep(ops)
  {
    if ops != [] {
      var front, op := ops[..|ops| - 1], ops[|ops| - 1];
      FoldIsLive(front);
      StepInStep(front, op);
      assert ops == front + [op];
    }
  }

  lemma FeesOf(ops: seq<AdminOp>, op: AdminOp)
    requires NoNegativeFees(ops + [op])
    ensures NoNegativeFees(ops) && (op.DoAccrueFee? ==> op.fee >= 0)
  {
    assert forall i :: 0 <= i < |ops| ==> ops[i] == (ops + [op])[i];
    assert op == (ops + [op])[|ops|];
  }

  lemma StepBalanced(g: Registry, c: AdminConfig, accrued: int, clean: bool, op: AdminOp)
    requires Balanced(g, c, accrued, clean) && (clean && op.DoAccrueFee? ==> op.fee >= 0)
    ensures var Done(outcome, g') := ApplyAdmin(g, op);
            && g.log <= g'.log && |g'.log| <= |g.log| + 1
            && Balanced(g', if |g'.log| > |g.log| && g'.log[|g.log|].Recognised?
                            then Absorb(c, g'.log[|g.log|].payload) else c,
                        accrued + (if op.DoAccrueFee? && outcome.Ok? then op.fee else 0), clean)
  {
  }

  lemma StepInStep(ops: seq<AdminOp>, op: AdminOp)
    requires InStep(ops)
    ensures InStep(ops + [op])
  {
    hide Folded, Balanced, ApplyAdmin, NoNegativeFees, Absorb;
    assert (ops + [op])[..|ops|] == ops;
    var g, g' := RunAdmin(ops), ApplyAdmin(RunAdmin(ops), op).registry;
    var clean := NoNegativeFees(ops + [op]);
    if clean {
      FeesOf(ops, op);
    }
    StillBalanced(g, Folded(g.log), Accrued(ops), NoNegativeFees(ops), clean);
    StepBalanced(g, Folded(g.log), Accrued(ops), clean, op);
    if |g'.log| > |g.log| {
      FoldedSnoc(g.log, g'.log[|g.log|]);
      assert g'.log == g.log + [g'.log[|g.log|]];
    } else {
      assert g'.log == g.log;
    }
  }

  lemma StillBalanced(g: Registry, c: AdminConfig, accrued: int, clean: bool, cleaner: bool)
    requires Balanced(g, c, accrued, clean) && (cleaner ==> clean)
    ensures Balanced(g, c, accrued, cleaner)
  {
  }

  /** Each event tells the truth about what came before it. */
  lemma {:induction false} EventsTellTheTruth(ops: seq<AdminOp>, k: nat)
    requires k < |RunAdmin(ops).log| && RunAdmin(ops).log[k].Recognised?
    ensures exists n | 0 <= n < |ops| ::
              && RunAdmin(ops[..n]).log == RunAdmin(ops).log[..k]
              && Truthful(Folded(RunAdmin(ops).log[..k]), RunAdmin(ops).log[k].payload, Accrued(ops[..n]))
  {
    hide ApplyAdmin, Truthful, Folded, Accrued, InStep;
    var front, op := ops[..|ops| - 1], ops[|ops| - 1];
    var g := RunAdmin(front);
    AtMostOneEvent(g, op);
    if k < |g.log| {
      EventsTellTheTruth(front, k);
      var n :| 0 <= n < |front| && RunAdmin(front[..n]).log == g.log[..k]
               && Truthful(Folded(g.log[..k]), g.log[k].payload, Accrued(front[..n]));
      assert front[..n] == ops[..n];
      assert RunAdmin(ops).log[..k] == g.log[..k];
    } else {
      FoldIsLive(front);
      assert RunAdmin(ops).log[..k] == g.log;
      StepTellsTheTruth(front, op);
    }
  }

  lemma AtMostOneEvent(g: Registry, op: AdminOp)
    ensures var log := ApplyAdmin(g, op).registry.log;
            g.log <= log && |log| <= |g.log| + 1
  {
  }

  lemma StepTellsTheTruth(ops: seq<AdminOp>, op: AdminOp)
    requires InStep(ops)
    ensures var g := RunAdmin(ops);
            var log := ApplyAdmin(g, op).registry.log;
            |log| > |g.log| && log[|g.log|].Recognised? ==> Truthful(Folded(g.log), log[|g.log|].payload, Accrued(ops))
  {
    hide Folded, Accrued, RunAdmin;
  }

  /** Once initialized, only the admin changes the configuration or takes fees, unless a payout were to
      accrue a negative one; and the reward token never changes. */
  lemma OnlyAdminReconfigures(g: Registry, op: AdminOp)
    requires g.admin.Some?
    ensures var g' := ApplyAdmin(g, op).registry;
            && g'.rewardToken == g.rewardToken
            && (Live(g', 0) != Live(g, 0) || g'.reputationFloor != g.reputationFloor
                || (OrElse(g'.feesAccrued, 0) < OrElse(g.feesAccrued, 0) && !(op.DoAccrueFee? && op.fee < 0)) ==>
                  && !op.DoInitialize? && !op.DoAccrueFee? && !op.DoEmitTask?
                  && Some(op.caller) == g.admin && ApplyAdmin(g, op).outcome.Ok?)
  {
  }

  // ── From the contract to the API ──

  function Bodies(events: seq<RawEvent>): seq<Body> {
    seq(|events|, i requires 0 <= i < |events| => events[i].body)
  }

  lemma {:induction false} KnownAreUnderstood(events: seq<RawEvent>)
    ensures Understood(Bodies(Known(events))) == Understood(Bodies(events))
  {
    if events != [] {
      var front, last := events[..|events| - 1], events[|events| - 1];
      KnownAreUnderstood(front);
      assert Bodies(events)[..|front|] == Bodies(front);
      if last.body.Recognised? {
        assert Bodies(Known(events))[..|Known(front)|] == Bodies(Known(front));
      } else {
        assert Known(events) == Known(front);
      }
    }
  }

  /** End to end: let the chain record a run of the contract in its log, and let the indexer get to
      the tip in any number of interrupted passes. Then folding its rows gives the configuration the
      contract has. */
  lemma IndexedConfigIsLive(ops: seq<AdminOp>, c: Config, log: seq<RawEvent>, horizon: nat, inputs: seq<Input>)
    requires Bodies(log) == RunAdmin(ops).log
    requires ValidConfig(c) && HonestRuns.ChainLog(log) && horizon < U32_MAX
    requires forall e :: e in log ==> c.start <= e.ledger <= horizon
    requires c.start <= horizon + 1
    requires HonestRuns.HonestRun(c, log, horizon, inputs)
    requires var cp := Steps(c, Fresh, inputs).db.checkpoint; cp.Some? && cp.value.lastLedger >= horizon
    ensures var config := Fold(Understood(Bodies(Steps(c, Fresh, inputs).db.rows)));
            var g := RunAdmin(ops);
            && config == Live(g, config.totalFeesSwept)
            && config.totalFeesSwept + OrElse(g.feesAccrued, 0) == Accrued(ops)
  {
    hide Steps, HonestRuns.HonestRun, HonestRuns.ChainLog, Known, Understood, Fold, Accrued, RunAdmin;
    HonestRuns.CompleteRunsAgree(c, log, horizon, inputs, inputs);
    WholeLog(c, log, horizon);
    KnownAreUnderstood(log);
    FoldIsLive(ops);
  }

  lemma WholeLog(c: Config, log: seq<RawEvent>, horizon: nat)
    requires HonestRuns.ChainLog(log) && c.start <= horizon + 1
    requires forall e :: e in log ==> c.start <= e.ledger <= horizon
    ensures HonestRuns.PageOf(log, c.start, horizon + 1) == log
  {
    HonestRuns.BelowMonotone(log, c.start, horizon + 1);
    if log != [] {
      HonestRuns.BelowSplits(log, c.start, 0);
      HonestRuns.BelowSplits(log, horizon + 1, |log| - 1);
    }
  }
}
