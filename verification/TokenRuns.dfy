/** Token theorems over whole runs: what historical balances mean, what the supply is at every
    ledger, when a call can trap, and what an allowance permits. */
module TokenRuns {
  import opened Common
  import opened TokenModel
  import opened TokenHistory
  import opened GovernanceModel
  import opened Protocol

  lemma SoundToken(s: System)
    requires SystemSound(s)
    ensures Sound(s.token, s.env) && s.token.admin.Some?
  {
  }

  // ── Historical balances ──

  /** The last state of a run whose ledger is at most `ledger`: how things stood when that ledger closed. */
  function EndOfLedger(s: System, ops: seq<Op>, ledger: nat): System
    requires s.env.sequence <= ledger
    decreases |ops|
  {
    if ops == [] || Run(s, ops).env.sequence <= ledger then Run(s, ops)
    else EndOfLedger(s, ops[..|ops| - 1], ledger)
  }

  /** In every reachable state every checkpoint list is strictly increasing, so bisecting it is sound. */
  lemma CheckpointsStrictlyIncrease(l: Launch, ops: seq<Op>, id: Address)
    requires Proper(l)
    ensures var h := History(Run(Start(l), ops).token, id);
            Ordered(h) && Increasing(h)
  {
    hide Run, Launched, Increasing;
    ReachableSound(l, ops);
    OrderedIncreasing(History(Run(Start(l), ops).token, id));
  }

  /** A step that ends past a ledger leaves every balance at that ledger as it was. */
  lemma StepKeepsClosedLedgers(s: System, op: Op, id: Address, at: nat)
    requires SystemSound(s) && at < Apply(s, op).env.sequence
    ensures BalanceAt(Apply(s, op).token, id, at) == BalanceAt(s.token, id, at)
  {
    hide Sound, ApplyToken, BalanceAt;
    match op
    case OnToken(tokenOp) => CallKeepsClosedLedgers(s.token, s.env, tokenOp, id, at);
    case _ =>
  }

  /** Once the sequence has passed a ledger, nothing that happens later changes its balances. */
  lemma {:induction false} ClosedLedgersNeverChange(s: System, ops: seq<Op>, id: Address, at: nat)
    requires SystemSound(s) && at < s.env.sequence
    ensures BalanceAt(Run(s, ops).token, id, at) == BalanceAt(s.token, id, at)
  {
    hide SystemSound, BalanceAt, Apply;
    if ops != [] {
      var front := ops[..|ops| - 1];
      ClosedLedgersNeverChange(s, front, id, at);
      RunSound(s, front);
      RunAdvances(s, ops);
      StepKeepsClosedLedgers(Run(s, front), ops[|ops| - 1], id, at);
    }
  }

  /** What `balance_at` reports for any ledger is the balance that was live when that ledger closed. */
  lemma {:induction false} BalanceAtIsEndOfLedger(l: Launch, ops: seq<Op>, id: Address, at: nat)
    requires Proper(l) && l.env.sequence <= at
    ensures BalanceAt(Run(Start(l), ops).token, id, at) == Balance(EndOfLedger(Start(l), ops, at).token, id)
    decreases |ops|
  {
    hide SystemSound, BalanceAt, Apply, Balance, Sound, Launched;
    var s := Run(Start(l), ops);
    ReachableSound(l, ops);
    if s.env.sequence <= at {
      SoundToken(s);
      LiveBalance(s.token, s.env, id, at);
    } else if ops != [] {
      var front := ops[..|ops| - 1];
      BalanceAtIsEndOfLedger(l, front, id, at);
      ReachableSound(l, front);
      StepKeepsClosedLedgers(Run(Start(l), front), ops[|ops| - 1], id, at);
    }
  }

  // ── Supply ──

  function BurnedAtStep(s: System, op: Op): int {
    if op.OnToken? then BurnedBy(s.token, s.env, op.tokenOp) else 0
  }

  function CreatedAtStep(s: System, op: Op): int {
    if op.OnToken? then CreatedBy(s.token, s.env, op.tokenOp) else 0
  }

  /** Everything burned in ledgers up to `ledger`. */
  function BurnedThrough(s: System, ops: seq<Op>, ledger: nat): int {
    if ops == [] then 0
    else
      var mid := Run(s, ops[..|ops| - 1]);
      BurnedThrough(s, ops[..|ops| - 1], ledger) +
      (if mid.env.sequence <= ledger then BurnedAtStep(mid, ops[|ops| - 1]) else 0)
  }

  /** Everything credited by transfers to oneself in ledgers up to `ledger`. */
  function CreatedThrough(s: System, ops: seq<Op>, ledger: nat): int {
    if ops == [] then 0
    else
      var mid := Run(s, ops[..|ops| - 1]);
      CreatedThrough(s, ops[..|ops| - 1], ledger) +
      (if mid.env.sequence <= ledger then CreatedAtStep(mid, ops[|ops| - 1]) else 0)
  }

  lemma LaunchedSupply(l: Launch, at: nat)
    requires Proper(l)
    ensures SupplyAt(Launched(l), at) == if at >= l.env.sequence then TOTAL_SUPPLY else 0
  {
    hide Sound, SupplyAt;
    var s0 := EmptyToken.(admin := Some(l.admin));
    var s1 := SetBalance(s0, l.env, l.earlyKeepers, ALLOC_EARLY_KEEPERS);
    var s2 := SetBalance(s1, l.env, l.treasury, ALLOC_TREASURY);
    var s3 := SetBalance(s2, l.env, l.coreTeam, ALLOC_CORE_TEAM);
    var s4 := s3.(vesting := s3.vesting[l.coreTeam := TeamSchedule(l.env.timestamp)]);
    EmptySound(s0, l.env);
    SetBalanceSound(s0, l.env, l.earlyKeepers, ALLOC_EARLY_KEEPERS);
    SetBalanceSound(s1, l.env, l.treasury, ALLOC_TREASURY);
    SetBalanceSound(s2, l.env, l.coreTeam, ALLOC_CORE_TEAM);
    VestingStarts(s3, l.env, l.coreTeam);
    EmptySupply(s0, at);
    SetBalanceSupply(s0, l.env, l.earlyKeepers, ALLOC_EARLY_KEEPERS, at);
    SetBalanceSupply(s1, l.env, l.treasury, ALLOC_TREASURY, at);
    SetBalanceSupply(s2, l.env, l.coreTeam, ALLOC_CORE_TEAM, at);
    SameCheckpointsSameSupply(s3, s4, at);
    SetBalanceSupply(s4, l.env, l.publicDistribution, ALLOC_PUBLIC, at);
  }

  lemma StepSupply(s: System, op: Op, at: nat)
    requires SystemSound(s)
    ensures SupplyAt(Apply(s, op).token, at) ==
            SupplyAt(s.token, at) +
            (if s.env.sequence <= at then CreatedAtStep(s, op) - BurnedAtStep(s, op) else 0)
  {
    hide Sound, ApplyToken, SupplyAt, CreatedBy, BurnedBy;
    match op
    case OnToken(tokenOp) => CallSupply(s.token, s.env, tokenOp, at);
    case _ =>
  }

  /** The supply at every ledger of every run, in full: what was minted at launch, less what was
      burned, plus what transfers to oneself created. */
  lemma {:induction false} SupplyOverRun(l: Launch, ops: seq<Op>, at: nat)
    requires Proper(l)
    ensures SupplyAt(Run(Start(l), ops).token, at) ==
            (if at >= l.env.sequence then TOTAL_SUPPLY else 0)
            + CreatedThrough(Start(l), ops, at) - BurnedThrough(Start(l), ops, at)
  {
    hide SystemSound, SupplyAt, Apply, CreatedAtStep, BurnedAtStep, Launched;
    if ops == [] {
      LaunchedSupply(l, at);
    } else {
      var front := ops[..|ops| - 1];
      SupplyOverRun(l, front, at);
      ReachableSound(l, front);
      StepSupply(Run(Start(l), front), ops[|ops| - 1], at);
    }
  }

  /** A call that moves a positive amount from an account to itself. */
  predicate IsSelfTransfer(op: TokenOp) {
    (op.TransferOp? || op.TransferFromOp?) && op.from == op.to && op.amount > 0
  }

  /** The guards of a call that moves tokens from an account to itself, read before the call: the
      unlocked balance covers the amount, the sum fits, and for a spender the allowance covers it too. */
  predicate PaysItself(t: TokenState, env: Env, op: TokenOp) {
    && IsSelfTransfer(op)
    && CanPay(t, env, op.from, op.amount)
    && Balance(t, op.to) + op.amount <= I128_MAX
    && (op.TransferFromOp? ==> op.amount <= Allowance(t, env, op.from, op.spender))
  }

  lemma PaysItselfMeans(t: TokenState, env: Env, op: TokenOp)
    requires Sound(t, env)
    ensures PaysItself(t, env, op) <==> IsSelfTransfer(op) && ApplyToken(t, env, op).outcome.Ok?
  {
    hide Sound, Payable, Moved, Deducted, CanPay, Balance;
    if IsSelfTransfer(op) {
      PayableMeans(t, env, op.from, op.amount);
    }
  }

  /** No call of the run meets those guards. */
  predicate NoSelfTransfers(s: System, ops: seq<Op>) {
    ops == [] ||
    (var mid, last := Run(s, ops[..|ops| - 1]), ops[|ops| - 1];
     && NoSelfTransfers(s, ops[..|ops| - 1])
     && (last.OnToken? ==> !PaysItself(mid.token, mid.env, last.tokenOp)))
  }

  lemma CreatedNonNegative(s: TokenState, env: Env, op: TokenOp)
    ensures 0 <= CreatedBy(s, env, op) && 0 <= BurnedBy(s, env, op)
    ensures CreatedBy(s, env, op) > 0 <==> ApplyToken(s, env, op).outcome.Ok? && IsSelfTransfer(op)
  {
    hide Payable, Moved, Deducted;
  }

  lemma {:induction false} CreatedZeroIffNoSelfTransfers(s: System, ops: seq<Op>, ledger: nat)
    requires SystemSound(s) && Run(s, ops).env.sequence <= ledger
    ensures 0 <= CreatedThrough(s, ops, ledger)
    ensures CreatedThrough(s, ops, ledger) == 0 <==> NoSelfTransfers(s, ops)
  {
    if ops != [] {
      hide ApplyToken, CreatedBy, PaysItself, SystemSound, Sound;
      var front := ops[..|ops| - 1];
      var last := ops[|ops| - 1];
      var mid := Run(s, front);
      assert mid.env.sequence <= Run(s, ops).env.sequence;
      CreatedZeroIffNoSelfTransfers(s, front, ledger);
      RunSound(s, front);
      SoundToken(mid);
      if last.OnToken? {
        CreatedNonNegative(mid.token, mid.env, last.tokenOp);
        PaysItselfMeans(mid.token, mid.env, last.tokenOp);
      }
    }
  }

  lemma {:induction false} CreatedZero(s: System, ops: seq<Op>, ledger: nat)
    requires SystemSound(s) && NoSelfTransfers(s, ops)
    ensures CreatedThrough(s, ops, ledger) == 0
  {
    if ops != [] {
      hide ApplyToken, CreatedBy, IsSelfTransfer, PaysItself, SystemSound, Sound;
      CreatedZero(s, ops[..|ops| - 1], ledger);
      RunSound(s, ops[..|ops| - 1]);
      if ops[|ops| - 1].OnToken? {
        var mid := Run(s, ops[..|ops| - 1]);
        SoundToken(mid);
        CreatedNonNegative(mid.token, mid.env, ops[|ops| - 1].tokenOp);
        PaysItselfMeans(mid.token, mid.env, ops[|ops| - 1].tokenOp);
      }
    }
  }

  lemma {:induction false} BurnedThroughNonNegative(s: System, ops: seq<Op>, ledger: nat)
    ensures 0 <= BurnedThrough(s, ops, ledger)
  {
    if ops != [] {
      hide ApplyToken, BurnedBy;
      var mid := Run(s, ops[..|ops| - 1]);
      BurnedThroughNonNegative(s, ops[..|ops| - 1], ledger);
      if ops[|ops| - 1].OnToken? {
        CreatedNonNegative(mid.token, mid.env, ops[|ops| - 1].tokenOp);
      }
    }
  }

  /** Historical conservation: at every ledger from launch on, what accounts held plus what was
      burned by then is the fixed supply. */
  lemma HistoricalConservation(l: Launch, ops: seq<Op>, at: nat)
    requires Proper(l) && NoSelfTransfers(Start(l), ops) && l.env.sequence <= at
    ensures SupplyAt(Run(Start(l), ops).token, at) + BurnedThrough(Start(l), ops, at) == TOTAL_SUPPLY
    ensures SupplyAt(Run(Start(l), ops).token, at) <= TOTAL_SUPPLY
  {
    hide SystemSound, SupplyAt, Run, Launched, NoSelfTransfers, CreatedThrough, BurnedThrough;
    StartSound(l);
    SupplyOverRun(l, ops, at);
    CreatedZero(Start(l), ops, at);
    BurnedThroughNonNegative(Start(l), ops, at);
  }

  /** Conservation holds of a run exactly when no call of it meets the guards of moving tokens from an
      account to itself. */
  lemma ConservedIffNoSelfTransfers(l: Launch, ops: seq<Op>, at: nat)
    requires Proper(l) && Run(Start(l), ops).env.sequence <= at
    ensures SupplyAt(Run(Start(l), ops).token, at) + BurnedThrough(Start(l), ops, at) == TOTAL_SUPPLY
            <==> NoSelfTransfers(Start(l), ops)
  {
    hide SystemSound, SupplyAt, Apply, CreatedAtStep, BurnedAtStep, Launched;
    RunAdvances(Start(l), ops);
    StartSound(l);
    SupplyOverRun(l, ops, at);
    CreatedZeroIffNoSelfTransfers(Start(l), ops, at);
  }

  /** Moving one token to oneself right after launch creates it. */
  lemma SelfTransferCreates(l: Launch)
    requires Proper(l)
    ensures var ops := [OnToken(TransferOp(l.treasury, l.treasury, ONE_TOKEN))];
            && !NoSelfTransfers(Start(l), ops)
            && SupplyAt(Run(Start(l), ops).token, l.env.sequence) == TOTAL_SUPPLY + ONE_TOKEN
  {
    hide SupplyAt, Sound;
    var op := OnToken(TransferOp(l.treasury, l.treasury, ONE_TOKEN));
    var s := Start(l);
    StartSound(l);
    SoundToken(s);
    PayableMeans(s.token, s.env, l.treasury, ONE_TOKEN);
    assert Balance(s.token, l.treasury) == ALLOC_TREASURY;
    assert UnvestedBalance(s.token, s.env, l.treasury) == 0;
    assert CreatedAtStep(s, op) == ONE_TOKEN;
    assert [op][..0] == [];
    assert Run(s, [op]) == Apply(Run(s, []), op);
    StepSupply(s, op, l.env.sequence);
    LaunchedSupply(l, l.env.sequence);
  }

  /** The initial distribution adds up to the fixed supply exactly when the four holders differ:
      a holder named twice keeps only the last allocation. */
  lemma DistributionExact(l: Launch)
    ensures SupplyAt(Launched(l), l.env.sequence) == TOTAL_SUPPLY <==> Distinct(l)
  {
    hide HistoriesSound, SupplyAt;
    var at := l.env.sequence;
    var s0 := EmptyToken.(admin := Some(l.admin));
    var s1 := SetBalance(s0, l.env, l.earlyKeepers, ALLOC_EARLY_KEEPERS);
    var s2 := SetBalance(s1, l.env, l.treasury, ALLOC_TREASURY);
    var s3 := SetBalance(s2, l.env, l.coreTeam, ALLOC_CORE_TEAM);
    var s4 := s3.(vesting := s3.vesting[l.coreTeam := TeamSchedule(l.env.timestamp)]);
    EmptyHistories(s0, at);
    WriteHistories(s0, l.env, l.earlyKeepers, ALLOC_EARLY_KEEPERS);
    WriteHistories(s1, l.env, l.treasury, ALLOC_TREASURY);
    WriteHistories(s2, l.env, l.coreTeam, ALLOC_CORE_TEAM);
    SameHistories(s3, s4, at);
    EmptySupply(s0, at);
    WriteSupply(s0, l.env, l.earlyKeepers, ALLOC_EARLY_KEEPERS, at);
    WriteSupply(s1, l.env, l.treasury, ALLOC_TREASURY, at);
    WriteSupply(s2, l.env, l.coreTeam, ALLOC_CORE_TEAM, at);
    SameCheckpointsSameSupply(s3, s4, at);
    WriteSupply(s4, l.env, l.publicDistribution, ALLOC_PUBLIC, at);
  }

  lemma EmptyHistories(s: TokenState, at: nat)
    requires s.balances == map[] && s.checkpoints == map[]
    ensures HistoriesSound(s, at)
  {
  }

  lemma SameHistories(s: TokenState, s': TokenState, at: nat)
    requires s.balances == s'.balances && s.checkpoints == s'.checkpoints && HistoriesSound(s, at)
    ensures HistoriesSound(s', at)
  {
  }

  // ── Traps ──

  /** Without self-transfers no call of any run can trap: no addition overflows, the vesting
      arithmetic stays in range, and the allowance entry is there whenever it is unwrapped. */
  lemma NoCallTraps(l: Launch, ops: seq<Op>, op: TokenOp)
    requires Proper(l) && NoSelfTransfers(Start(l), ops)
    ensures var s := Run(Start(l), ops);
            ApplyToken(s.token, s.env, op).outcome != Panic
  {
    hide SystemSound, Sound, Payable, Moved, Deducted, NoSelfTransfers, Launched, Apply, Run;
    var s := Run(Start(l), ops);
    ReachableSound(l, ops);
    SoundToken(s);
    RunAdvances(Start(l), ops);
    if (op.TransferOp? || op.TransferFromOp? || op.BurnOp? || op.BurnFromOp?) && op.amount > 0 {
      HistoricalConservation(l, ops, s.env.sequence);
      PayableMeans(s.token, s.env, op.from, op.amount);
      WithinSupply(s.token, s.env, op.from);
      if op.TransferOp? || op.TransferFromOp? {
        WithinSupply(s.token, s.env, op.to);
      }
    }
  }

  lemma WithinSupply(s: TokenState, env: Env, id: Address)
    requires Sound(s, env)
    ensures Balance(s, id) <= SupplyAt(s, env.sequence)
  {
    hide Sound, SupplyAt, Balance, BalanceAt;
    BalanceWithinSupply(s, env, id, env.sequence);
    LiveBalance(s, env, id, env.sequence);
  }

  // ── Who can take tokens ──

  /** An account's balance falls only by its own transfer or burn, or by a spender drawing on an
      allowance that covers the amount and has not expired; and it falls by exactly that amount. */
  lemma BalancesFallOnlyByRight(s: System, op: Op, id: Address)
    requires SystemSound(s) && Balance(Apply(s, op).token, id) < Balance(s.token, id)
    ensures op.OnToken?
    ensures var t := op.tokenOp;
            && (t.TransferOp? || t.BurnOp? || t.TransferFromOp? || t.BurnFromOp?) && t.from == id
            && Balance(Apply(s, op).token, id) == Balance(s.token, id) - t.amount
            && (t.TransferFromOp? || t.BurnFromOp? ==>
                  var key := AllowanceKey(id, t.spender);
                  && key in s.token.allowances && t.amount <= s.token.allowances[key].amount
                  && s.env.sequence <= s.token.allowances[key].expirationLedger)
  {
    hide Payable, Sound, ApplyGov, Moved, SetBalance, Deducted, Balance;
    if op.OnToken? {
      SoundToken(s);
      BalancesAfter(s.token, s.env, op.tokenOp, id);
    }
  }

  lemma BalancesAfter(t: TokenState, env: Env, op: TokenOp, id: Address)
    requires t.admin.Some?
    ensures var t', ok := ApplyToken(t, env, op).state, ApplyToken(t, env, op).outcome.Ok?;
            Balance(t', id) ==
            if ok && (op.TransferOp? || op.TransferFromOp?) && op.amount > 0 then
              (if id == op.to then Balance(t, id) + op.amount
               else if id == op.from then Balance(t, id) - op.amount else Balance(t, id))
            else if ok && (op.BurnOp? || op.BurnFromOp?) && op.amount > 0 && id == op.from
            then Balance(t, id) - op.amount
            else Balance(t, id)
  {
    hide Payable, Record, Allowance, SetBalance;
    if op.TransferOp? || op.TransferFromOp? || op.BurnOp? || op.BurnFromOp? {
      var paid := SetBalance(t, env, op.from, Balance(t, op.from) - op.amount);
      WrittenBalance(t, env, op.from, Balance(t, op.from) - op.amount, id);
      if op.TransferOp? || op.TransferFromOp? {
        WrittenBalance(paid, env, op.to, Balance(t, op.to) + op.amount, id);
      }
    }
  }

  lemma WrittenBalance(t: TokenState, env: Env, id: Address, amount: int, other: Address)
    ensures Balance(SetBalance(t, env, id, amount), other) == if other == id then amount else Balance(t, other)
  {
  }

  // ── Vesting lock ──

  lemma {:induction false} RunKeepsVesting(s: System, ops: seq<Op>)
    requires SystemSound(s)
    ensures Run(s, ops).token.vesting == s.token.vesting
  {
    if ops != [] {
      hide SystemSound, ApplyToken, ApplyGov, Sound;
      var front := ops[..|ops| - 1];
      RunKeepsVesting(s, front);
      RunSound(s, front);
      SoundToken(Run(s, front));
      match ops[|ops| - 1]
      case OnToken(tokenOp) => CallSound(Run(s, front).token, Run(s, front).env, tokenOp);
      case _ =>
    }
  }

  /** In every reachable state, at this and every later time, the team still holds what has not
      vested; everyone's balance splits into a spendable and an unvested part. */
  lemma VestingLock(l: Launch, ops: seq<Op>, later: nat, id: Address)
    requires Proper(l) && Run(Start(l), ops).env.timestamp <= later
    ensures var s := Run(Start(l), ops);
            && 0 <= Unvested(TeamSchedule(l.env.timestamp), later) <= Balance(s.token, l.coreTeam)
            && SpendableBalance(s.token, s.env, id) + UnvestedBalance(s.token, s.env, id) == Balance(s.token, id)
  {
    hide SystemSound, Run, Launched, SpendableBalance, HistoriesSound;
    var s := Run(Start(l), ops);
    StartSound(l);
    LaunchedSound(l);
    RunKeepsVesting(Start(l), ops);
    ReachableSound(l, ops);
    SoundToken(s);
    assert s.token.vesting[l.coreTeam] == TeamSchedule(l.env.timestamp);
    VestedMonotone(TeamSchedule(l.env.timestamp), s.env.timestamp, later);
    PayableMeans(s.token, s.env, id, 1);
  }

  // ── Allowances ──

  /** The last successful approval of a pair, and what has been drawn against it since. */
  datatype Grant = Grant(approved: int, until: nat, spent: int)

  predicate IsApproval(s: System, op: Op, from: Address, spender: Address) {
    && op.OnToken? && op.tokenOp.ApproveOp?
    && op.tokenOp.from == from && op.tokenOp.spender == spender
    && ApplyToken(s.token, s.env, op.tokenOp).outcome.Ok?
  }

  /** What the spender takes from the account in one step. */
  function DrawnBy(s: System, op: Op, from: Address, spender: Address): int {
    if && op.OnToken? && (op.tokenOp.TransferFromOp? || op.tokenOp.BurnFromOp?)
       && op.tokenOp.from == from && op.tokenOp.spender == spender
       && ApplyToken(s.token, s.env, op.tokenOp).outcome.Ok?
    then op.tokenOp.amount
    else 0
  }

  function GrantOf(s: System, ops: seq<Op>, from: Address, spender: Address): Grant {
    if ops == [] then Grant(0, 0, 0)
    else
      var mid, last := Run(s, ops[..|ops| - 1]), ops[|ops| - 1];
      if IsApproval(mid, last, from, spender) then Grant(last.tokenOp.amount, last.tokenOp.expiration, 0)
      else
        var grant := GrantOf(s, ops[..|ops| - 1], from, spender);
        grant.(spent := grant.spent + DrawnBy(mid, last, from, spender))
  }

  function StoredAllowance(t: TokenState, from: Address, spender: Address): int {
    var key := AllowanceKey(from, spender);
    if key in t.allowances then t.allowances[key].amount else 0
  }

  /** Storage agrees with the grant. */
  predicate GrantStored(t: TokenState, grant: Grant, from: Address, spender: Address) {
    var key := AllowanceKey(from, spender);
    && 0 <= grant.spent <= grant.approved
    && StoredAllowance(t, from, spender) == grant.approved - grant.spent
    && (key in t.allowances ==> t.allowances[key].expirationLedger == grant.until)
  }

  /** A draw stays within what is left of the grant and before it expires. */
  lemma DrawWithinGrant(s: System, op: Op, grant: Grant, from: Address, spender: Address)
    requires GrantStored(s.token, grant, from, spender)
    ensures 0 <= DrawnBy(s, op, from, spender) <= grant.approved - grant.spent
    ensures DrawnBy(s, op, from, spender) > 0 ==> s.env.sequence <= grant.until
    ensures !IsApproval(s, op, from, spender) ==>
              GrantStored(Apply(s, op).token, grant.(spent := grant.spent + DrawnBy(s, op, from, spender)),
                          from, spender)
    ensures IsApproval(s, op, from, spender) ==>
              GrantStored(Apply(s, op).token, Grant(op.tokenOp.amount, op.tokenOp.expiration, 0), from, spender)
  {
    hide Payable, SetBalance, ApplyGov;
    if op.OnToken? && op.tokenOp.InitializeToken? {
      assert Apply(s, op).token.allowances == s.token.allowances by { InitializeKeepsAllowances(s, op); }
    } else if op.OnToken? && (op.tokenOp.TransferOp? || op.tokenOp.TransferFromOp?) {
      SetBalanceKeepsAllowances(s.token, s.env, op.tokenOp.from, op.tokenOp.to, op.tokenOp.amount);
    } else if op.OnToken? && (op.tokenOp.BurnOp? || op.tokenOp.BurnFromOp?) {
      SetBalanceKeepsAllowances(s.token, s.env, op.tokenOp.from, op.tokenOp.from, op.tokenOp.amount);
    }
  }

  lemma SetBalanceKeepsAllowances(t: TokenState, env: Env, from: Address, to: Address, amount: int)
    ensures Moved(t, env, from, to, amount).allowances == t.allowances
    ensures SetBalance(t, env, from, Balance(t, from) - amount).allowances == t.allowances
  {
  }

  lemma InitializeKeepsAllowances(s: System, op: Op)
    requires op.OnToken? && op.tokenOp.InitializeToken?
    ensures Apply(s, op).token.allowances == s.token.allowances
  {
  }

  /** Between two approvals of a pair the total drawn never exceeds the approved amount, and what
      is stored is exactly what is left. */
  lemma {:induction false} AllowanceIsApprovedMinusSpent(l: Launch, ops: seq<Op>, from: Address, spender: Address)
    ensures GrantStored(Run(Start(l), ops).token, GrantOf(Start(l), ops, from, spender), from, spender)
  {
    hide GrantStored, Apply, IsApproval, DrawnBy;
    if ops == [] {
      EmptyGrant(l, from, spender);
    } else {
      var front := ops[..|ops| - 1];
      AllowanceIsApprovedMinusSpent(l, front, from, spender);
      DrawWithinGrant(Run(Start(l), front), ops[|ops| - 1], GrantOf(Start(l), front, from, spender), from, spender);
    }
  }

  /** Whatever a spender does next in a run takes no more than is left, and nothing once the grant has expired. */
  lemma DrawsRespectTheGrant(l: Launch, ops: seq<Op>, op: Op, from: Address, spender: Address)
    ensures var s, grant := Run(Start(l), ops), GrantOf(Start(l), ops, from, spender);
            && grant.spent + DrawnBy(s, op, from, spender) <= grant.approved
            && (DrawnBy(s, op, from, spender) > 0 ==> s.env.sequence <= grant.until)
  {
    hide GrantStored, Apply, IsApproval, DrawnBy, Run, GrantOf;
    AllowanceIsApprovedMinusSpent(l, ops, from, spender);
    DrawWithinGrant(Run(Start(l), ops), op, GrantOf(Start(l), ops, from, spender), from, spender);
  }

  lemma EmptyGrant(l: Launch, from: Address, spender: Address)
    ensures GrantStored(Start(l).token, Grant(0, 0, 0), from, spender)
  {
  }
}
