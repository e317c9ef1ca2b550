/** What one token call keeps: checkpoint lists, historical balances, supply and the vesting lock. */
module TokenHistory {
  import opened Arithmetic
  import opened Common
  import opened MapSums
  import opened TokenModel

  predicate Increasing(h: seq<Checkpoint>) {
    forall i, j :: 0 <= i < j < |h| ==> h[i].ledger < h[j].ledger
  }

  /** Strictly increasing ledgers and no negative balance, one checkpoint at a time from the end. */
  predicate Ordered(h: seq<Checkpoint>) {
    h == [] ||
    (&& 0 <= h[|h| - 1].balance
     && (|h| > 1 ==> h[|h| - 2].ledger < h[|h| - 1].ledger)
     && Ordered(h[..|h| - 1]))
  }

  lemma {:induction false} OrderedIncreasing(h: seq<Checkpoint>)
    requires Ordered(h)
    ensures Increasing(h)
  {
    if |h| > 1 {
      var front := h[..|h| - 1];
      OrderedIncreasing(front);
      forall i, j | 0 <= i < j < |h| ensures h[i].ledger < h[j].ledger {
        if j < |h| - 1 {
          assert front[i].ledger < front[j].ledger;
        } else if i < |h| - 2 {
          assert front[i].ledger < front[|h| - 2].ledger;
        }
      }
    }
  }

  /** A checkpoint list agrees with the live balance and reaches no later than the current ledger. */
  predicate HistorySound(h: seq<Checkpoint>, sequence: nat, live: int) {
    && |h| > 0
    && Ordered(h)
    && h[|h| - 1].ledger <= sequence
    && h[|h| - 1].balance == live
  }

  predicate ScheduleSound(v: VestingSchedule, now: nat) {
    && 0 <= v.totalAmount
    && v.cliffDuration <= v.totalDuration
    && 0 < v.totalDuration
    && v.startTime <= now
    && v.startTime + v.totalDuration <= U64_MAX
    && v.totalAmount * v.totalDuration <= I128_MAX
  }

  /** Every account with a balance has a checkpoint list that agrees with it. */
  ghost predicate HistoriesSound(s: TokenState, sequence: nat) {
    && s.balances.Keys == s.checkpoints.Keys
    && (forall id :: id in s.checkpoints ==> HistorySound(s.checkpoints[id], sequence, s.balances[id]))
  }

  /** What holds of token storage in every reachable state. */
  ghost predicate Sound(s: TokenState, env: Env) {
    && HistoriesSound(s, env.sequence)
    && (forall id :: id in s.vesting ==>
          && ScheduleSound(s.vesting[id], env.timestamp)
          && Unvested(s.vesting[id], env.timestamp) <= Balance(s, id))
    && (forall key :: key in s.allowances ==> 0 <= s.allowances[key].amount)
  }

  // ── Checkpoint lists ──

  lemma LastAtOrBeforeRecord(h: seq<Checkpoint>, ledger: nat, balance: int, at: nat)
    requires |h| > 0 ==> h[|h| - 1].ledger <= ledger
    ensures LastAtOrBefore(Record(h, ledger, balance), at) ==
            if at >= ledger then balance else LastAtOrBefore(h, at)
  {
    var r := Record(h, ledger, balance);
    assert r[..|r| - 1] == if |h| > 0 && h[|h| - 1].ledger == ledger then h[..|h| - 1] else h;
  }

  lemma RecordSound(h: seq<Checkpoint>, sequence: nat, live: int, amount: int)
    requires h == [] || HistorySound(h, sequence, live)
    requires 0 <= amount
    ensures HistorySound(Record(h, sequence, amount), sequence, amount)
  {
    var r := Record(h, sequence, amount);
    assert r[..|r| - 1] == if |h| > 0 && h[|h| - 1].ledger == sequence then h[..|h| - 1] else h;
  }

  /** In an ordered list the scan finds exactly the checkpoint whose span contains `ledger`. */
  lemma {:induction false} LastAtOrBeforeAt(h: seq<Checkpoint>, ledger: nat, k: nat)
    requires Increasing(h)
    requires k < |h| && h[k].ledger <= ledger
    requires k + 1 < |h| ==> ledger < h[k + 1].ledger
    ensures LastAtOrBefore(h, ledger) == h[k].balance
  {
    if k + 1 < |h| {
      LastAtOrBeforeAt(h[..|h| - 1], ledger, k);
    }
  }

  lemma {:induction false} NoneBefore(h: seq<Checkpoint>, ledger: nat)
    requires Increasing(h)
    requires |h| > 0 ==> ledger < h[0].ledger
    ensures LastAtOrBefore(h, ledger) == 0
  {
    if |h| > 0 {
      NoneBefore(h[..|h| - 1], ledger);
    }
  }

  lemma {:induction false} LastAtOrBeforeNonNegative(h: seq<Checkpoint>, ledger: nat)
    requires Ordered(h)
    ensures 0 <= LastAtOrBefore(h, ledger)
  {
    if |h| > 0 && h[|h| - 1].ledger > ledger {
      LastAtOrBeforeNonNegative(h[..|h| - 1], ledger);
    }
  }

  // ── One balance write ──

  lemma SetBalanceHistory(s: TokenState, env: Env, id: Address, amount: int, other: Address, at: nat)
    requires Sound(s, env)
    ensures BalanceAt(SetBalance(s, env, id, amount), other, at) ==
            if other == id && at >= env.sequence then amount else BalanceAt(s, other, at)
  {
    LastAtOrBeforeRecord(History(s, id), env.sequence, amount, at);
  }

  lemma SetBalanceSound(s: TokenState, env: Env, id: Address, amount: int)
    requires Sound(s, env)
    requires UnvestedBalance(s, env, id) <= amount && 0 <= amount
    ensures Sound(SetBalance(s, env, id, amount), env)
  {
    var s' := SetBalance(s, env, id, amount);
    WriteHistories(s, env, id, amount);
    forall v | v in s'.vesting
      ensures Unvested(s'.vesting[v], env.timestamp) <= Balance(s', v)
    {
    }
  }

  /** Balances of every account as of `ledger`. */
  ghost function BalancesAt(s: TokenState, ledger: nat): map<Address, int> {
    map id | id in s.checkpoints :: LastAtOrBefore(s.checkpoints[id], ledger)
  }

  /** Tokens in existence as of `ledger`, as the checkpoints report them. */
  ghost function SupplyAt(s: TokenState, ledger: nat): int {
    Sum(BalancesAt(s, ledger))
  }

  lemma SetBalanceSupply(s: TokenState, env: Env, id: Address, amount: int, at: nat)
    requires Sound(s, env)
    ensures SupplyAt(SetBalance(s, env, id, amount), at) ==
            SupplyAt(s, at) + (if at >= env.sequence then amount - Balance(s, id) else 0)
  {
    hide SupplyAt, SetBalance, HistoriesSound;
    WriteSupply(s, env, id, amount, at);
  }

  /** What a balance write does to the supply rests on the checkpoint lists alone. */
  lemma WriteSupply(s: TokenState, env: Env, id: Address, amount: int, at: nat)
    requires HistoriesSound(s, env.sequence)
    ensures SupplyAt(SetBalance(s, env, id, amount), at) ==
            SupplyAt(s, at) + (if at >= env.sequence then amount - Balance(s, id) else 0)
  {
    var s' := SetBalance(s, env, id, amount);
    var now := LastAtOrBefore(Record(History(s, id), env.sequence, amount), at);
    LastAtOrBeforeRecord(History(s, id), env.sequence, amount, at);
    assert BalancesAt(s', at) == BalancesAt(s, at)[id := now];
    SumUpdate(BalancesAt(s, at), id, now);
    assert Get(BalancesAt(s, at), id) == LastAtOrBefore(History(s, id), at);
  }

  lemma WriteHistories(s: TokenState, env: Env, id: Address, amount: int)
    requires HistoriesSound(s, env.sequence) && 0 <= amount
    ensures HistoriesSound(SetBalance(s, env, id, amount), env.sequence)
  {
    RecordSound(History(s, id), env.sequence, Balance(s, id), amount);
  }

  /** From the current ledger on, the checkpoints report the live balances. */
  lemma LiveBalance(s: TokenState, env: Env, id: Address, at: nat)
    requires Sound(s, env) && at >= env.sequence
    ensures BalanceAt(s, id, at) == Balance(s, id)
  {
  }

  lemma BalanceAtNonNegative(s: TokenState, env: Env, id: Address, at: nat)
    requires Sound(s, env)
    ensures 0 <= BalanceAt(s, id, at)
  {
    LastAtOrBeforeNonNegative(History(s, id), at);
  }

  /** No account ever held more than the whole supply. */
  lemma BalanceWithinSupply(s: TokenState, env: Env, id: Address, at: nat)
    requires Sound(s, env)
    ensures BalanceAt(s, id, at) <= SupplyAt(s, at)
  {
    var all := BalancesAt(s, at);
    forall k | k in all ensures 0 <= all[k] { BalanceAtNonNegative(s, env, k, at); }
    if id in all {
      var one := map[id := all[id]];
      SumMonotone(one, all);
      SumRemove(one, id);
      assert one - {id} == map[];
    } else {
      SumMonotone(map[], all);
    }
  }

  // ── Vesting arithmetic ──

  /** Across the cliff, the linear stretch and the end, the vested amount never falls. */
  lemma VestedMonotone(v: VestingSchedule, now: nat, later: nat)
    requires ScheduleSound(v, now) && now <= later
    ensures 0 <= Vested(v, now) <= Vested(v, later) <= v.totalAmount
  {
    if now >= v.startTime + v.cliffDuration && now < v.startTime + v.totalDuration {
      FloorMonotone(v.totalAmount, now - v.startTime, now - v.startTime, v.totalDuration);
    }
    if later >= v.startTime + v.cliffDuration && later < v.startTime + v.totalDuration {
      FloorMonotone(v.totalAmount, if now < v.startTime + v.cliffDuration then 0 else now - v.startTime,
                    later - v.startTime, v.totalDuration);
    }
  }

  lemma ScheduleNeverTraps(v: VestingSchedule, now: nat)
    requires ScheduleSound(v, now)
    ensures !VestingTraps(v, now)
  {
    if v.startTime + v.cliffDuration <= now < v.startTime + v.totalDuration {
      MulMonotone(v.totalAmount, now - v.startTime, v.totalDuration);
    }
  }

  /** Time and ledgers may pass without a call. */
  lemma AdvanceSound(s: TokenState, env: Env, env': Env)
    requires Sound(s, env)
    requires env.sequence <= env'.sequence && env.timestamp <= env'.timestamp
    ensures Sound(s, env')
  {
    forall id | id in s.vesting
      ensures Unvested(s.vesting[id], env'.timestamp) <= Balance(s, id)
    {
      VestedMonotone(s.vesting[id], env.timestamp, env'.timestamp);
    }
  }

  // ── Calls ──

  /** The payer keeps what is not yet vested. */
  predicate CanPay(s: TokenState, env: Env, from: Address, amount: int) {
    0 < amount <= Balance(s, from) - UnvestedBalance(s, env, from) && amount <= Balance(s, from)
  }

  /** In every reachable state the clamp in `spendable_balance` and the balance check after it never decide. */
  lemma PayableMeans(s: TokenState, env: Env, from: Address, amount: int)
    requires Sound(s, env) && 0 < amount
    ensures Payable(s, env, from, amount) == if CanPay(s, env, from, amount) then Ok(()) else Err(TokensLocked)
    ensures SpendableBalance(s, env, from) + UnvestedBalance(s, env, from) == Balance(s, from)
  {
    if from in s.vesting {
      ScheduleNeverTraps(s.vesting[from], env.timestamp);
      VestedMonotone(s.vesting[from], env.timestamp, env.timestamp);
    }
  }

  lemma BalanceBounds(s: TokenState, env: Env, id: Address)
    requires Sound(s, env)
    ensures 0 <= Balance(s, id) && UnvestedBalance(s, env, id) <= Balance(s, id)
  {
  }

  lemma MovedSound(s: TokenState, env: Env, from: Address, to: Address, amount: int)
    requires Sound(s, env) && CanPay(s, env, from, amount)
    ensures Sound(SetBalance(s, env, from, Balance(s, from) - amount), env)
    ensures Sound(Moved(s, env, from, to, amount), env)
    ensures Moved(s, env, from, to, amount).(balances := s.balances, checkpoints := s.checkpoints) == s
  {
    hide Sound;
    BalanceBounds(s, env, to);
    SetBalanceSound(s, env, from, Balance(s, from) - amount);
    SetBalanceSound(SetBalance(s, env, from, Balance(s, from) - amount), env, to, Balance(s, to) + amount);
  }

  lemma MovedSupply(s: TokenState, env: Env, from: Address, to: Address, amount: int, at: nat)
    requires Sound(s, env) && CanPay(s, env, from, amount)
    ensures SupplyAt(Moved(s, env, from, to, amount), at) ==
            SupplyAt(s, at) + (if at >= env.sequence && from == to then amount else 0)
  {
    hide Sound;
    var s1 := SetBalance(s, env, from, Balance(s, from) - amount);
    MovedSound(s, env, from, to, amount);
    SetBalanceSupply(s, env, from, Balance(s, from) - amount, at);
    SetBalanceSupply(s1, env, to, Balance(s, to) + amount, at);
  }

  lemma MovedHistory(s: TokenState, env: Env, from: Address, to: Address, amount: int, id: Address, at: nat)
    requires Sound(s, env) && CanPay(s, env, from, amount)
    ensures BalanceAt(Moved(s, env, from, to, amount), id, at) ==
            if at < env.sequence then BalanceAt(s, id, at)
            else Balance(s, id) + (if id == to then amount else if id == from then -amount else 0)
  {
    hide Sound, BalanceAt, UnvestedBalance, Record;
    var s1 := SetBalance(s, env, from, Balance(s, from) - amount);
    MovedSound(s, env, from, to, amount);
    SetBalanceHistory(s, env, from, Balance(s, from) - amount, id, at);
    SetBalanceHistory(s1, env, to, Balance(s, to) + amount, id, at);
    if at >= env.sequence { LiveBalance(s, env, id, at); }
  }

  /** Tokens a call destroyed. */
  function BurnedBy(s: TokenState, env: Env, op: TokenOp): int {
    if !ApplyToken(s, env, op).outcome.Ok? then 0
    else match op
      case BurnOp(_, amount) => amount
      case BurnFromOp(_, _, amount) => amount
      case _ => 0
  }

  /** Tokens a call created out of nothing: a transfer from an account to itself keeps only the credit. */
  function CreatedBy(s: TokenState, env: Env, op: TokenOp): int {
    if !ApplyToken(s, env, op).outcome.Ok? then 0
    else match op
      case TransferOp(from, to, amount) => if from == to then amount else 0
      case TransferFromOp(_, from, to, amount) => if from == to then amount else 0
      case _ => 0
  }

  /** Every call on an initialized token keeps `Sound`. */
  lemma CallSound(s: TokenState, env: Env, op: TokenOp)
    requires Sound(s, env) && s.admin.Some?
    ensures Sound(ApplyToken(s, env, op).state, env)
    ensures ApplyToken(s, env, op).state.admin == s.admin
    ensures ApplyToken(s, env, op).state.vesting == s.vesting
  {
    hide Sound, Payable, Moved, Record, UnvestedBalance;
    match op
    case InitializeToken(_, _, _, _, _) =>
    case ApproveOp(from, spender, amount, expiration) =>
      ApproveSound(s, env, from, spender, amount, expiration);
    case TransferOp(from, to, amount) =>
      if ApplyToken(s, env, op).outcome.Ok? && amount > 0 {
        PayableMeans(s, env, from, amount);
        MovedSound(s, env, from, to, amount);
      }
    case TransferFromOp(spender, from, to, amount) =>
      if ApplyToken(s, env, op).outcome.Ok? && amount > 0 {
        PayableMeans(s, env, from, amount);
        MovedSound(s, env, from, to, amount);
        DeductedSound(Moved(s, env, from, to, amount), env, Allowance(s, env, from, spender), from, spender, amount);
      }
    case BurnOp(from, amount) =>
      if ApplyToken(s, env, op).outcome.Ok? && amount > 0 {
        PayableMeans(s, env, from, amount);
        SetBalanceSound(s, env, from, Balance(s, from) - amount);
      }
    case BurnFromOp(spender, from, amount) =>
      if ApplyToken(s, env, op).outcome.Ok? && amount > 0 {
        PayableMeans(s, env, from, amount);
        SetBalanceSound(s, env, from, Balance(s, from) - amount);
        DeductedSound(SetBalance(s, env, from, Balance(s, from) - amount), env,
                      Allowance(s, env, from, spender), from, spender, amount);
      }
  }

  lemma ApproveSound(s: TokenState, env: Env, from: Address, spender: Address, amount: int, expiration: nat)
    requires Sound(s, env)
    ensures Sound(Approve(s, env, from, spender, amount, expiration).state, env)
  {
  }

  lemma SameCheckpointsSameSupply(s: TokenState, s': TokenState, at: nat)
    requires s.checkpoints == s'.checkpoints
    ensures SupplyAt(s, at) == SupplyAt(s', at)
  {
    assert BalancesAt(s, at) == BalancesAt(s', at);
  }

  lemma DeductedSound(s: TokenState, env: Env, current: int, from: Address, spender: Address, amount: int)
    requires Sound(s, env) && AllowanceKey(from, spender) in s.allowances && amount <= current
    ensures Sound(Deducted(s, current, from, spender, amount), env)
  {
  }

  /** A call changes the supply by what it created and burned, from the current ledger on and not before it. */
  lemma CallSupply(s: TokenState, env: Env, op: TokenOp, at: nat)
    requires Sound(s, env) && s.admin.Some?
    ensures SupplyAt(ApplyToken(s, env, op).state, at) ==
            SupplyAt(s, at) + (if at >= env.sequence then CreatedBy(s, env, op) - BurnedBy(s, env, op) else 0)
  {
    hide Sound, Payable, SupplyAt, SetBalance, Allowance;
    var s' := ApplyToken(s, env, op).state;
    if ApplyToken(s, env, op).outcome.Ok? {
      match op
      case InitializeToken(_, _, _, _, _) =>
      case ApproveOp(_, _, _, _) =>
        SameCheckpointsSameSupply(s, s', at);
      case TransferOp(from, to, amount) =>
        if amount > 0 {
          PayableMeans(s, env, from, amount);
          MovedSupply(s, env, from, to, amount, at);
        }
      case TransferFromOp(spender, from, to, amount) =>
        if amount > 0 {
          PayableMeans(s, env, from, amount);
          MovedSupply(s, env, from, to, amount, at);
          SameCheckpointsSameSupply(Moved(s, env, from, to, amount), s', at);
        }
      case BurnOp(from, amount) =>
        if amount > 0 {
          PayableMeans(s, env, from, amount);
          SetBalanceSupply(s, env, from, Balance(s, from) - amount, at);
        }
      case BurnFromOp(spender, from, amount) =>
        if amount > 0 {
          PayableMeans(s, env, from, amount);
          SetBalanceSupply(s, env, from, Balance(s, from) - amount, at);
          SameCheckpointsSameSupply(SetBalance(s, env, from, Balance(s, from) - amount), s', at);
        }
    }
  }

  /** Once a ledger has passed, no call changes what anyone held at its end. */
  lemma CallKeepsClosedLedgers(s: TokenState, env: Env, op: TokenOp, id: Address, at: nat)
    requires Sound(s, env) && s.admin.Some? && at < env.sequence
    ensures BalanceAt(ApplyToken(s, env, op).state, id, at) == BalanceAt(s, id, at)
  {
    hide Sound, Payable, Moved, Record, LastAtOrBefore;
    if ApplyToken(s, env, op).outcome.Ok? {
      match op
      case InitializeToken(_, _, _, _, _) =>
      case ApproveOp(_, _, _, _) =>
      case TransferOp(from, to, amount) =>
        if amount > 0 {
          PayableMeans(s, env, from, amount);
          MovedHistory(s, env, from, to, amount, id, at);
        }
      case TransferFromOp(spender, from, to, amount) =>
        if amount > 0 {
          PayableMeans(s, env, from, amount);
          MovedHistory(s, env, from, to, amount, id, at);
        }
      case BurnOp(from, amount) =>
        SetBalanceHistory(s, env, from, Balance(s, from) - amount, id, at);
      case BurnFromOp(spender, from, amount) =>
        SetBalanceHistory(s, env, from, Balance(s, from) - amount, id, at);
    }
  }
}
