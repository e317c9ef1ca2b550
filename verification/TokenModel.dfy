/** The KPRS token as functions on values: what each entry point does to storage and how it ends. */
module TokenModel {
  import opened Common

  datatype TokenError =
    | AlreadyInitialized
    | NegativeAmount
    | InsufficientBalance
    | InsufficientAllowance
    | TokensLocked
    | InvalidExpiration
    | Unauthorized

  datatype VestingSchedule =
    VestingSchedule(totalAmount: int, startTime: nat, cliffDuration: nat, totalDuration: nat)

  datatype AllowanceKey = AllowanceKey(from: Address, spender: Address)

  datatype AllowanceValue = AllowanceValue(amount: int, expirationLedger: nat)

  datatype Checkpoint = Checkpoint(ledger: nat, balance: int)

  /** Token storage. `checkpoints[id]` is the list the source keeps under
      `CheckpointCount(id)` and `Checkpoint(id, 0..)`. */
  datatype TokenState = TokenState(
    admin: Option<Address>,
    balances: map<Address, int>,
    allowances: map<AllowanceKey, AllowanceValue>,
    vesting: map<Address, VestingSchedule>,
    checkpoints: map<Address, seq<Checkpoint>>)

  /** One call: how it ended, and storage afterwards. */
  datatype Call = Call(outcome: Outcome<(), TokenError>, state: TokenState)

  const ONE_TOKEN: int := 10_000_000
  const TOTAL_SUPPLY: int := 100_000_000 * ONE_TOKEN
  const ALLOC_EARLY_KEEPERS: int := 40_000_000 * ONE_TOKEN
  const ALLOC_TREASURY: int := 25_000_000 * ONE_TOKEN
  const ALLOC_CORE_TEAM: int := 20_000_000 * ONE_TOKEN
  const ALLOC_PUBLIC: int := 15_000_000 * ONE_TOKEN
  const TEAM_CLIFF_SECONDS: nat := 180 * 24 * 60 * 60
  const TEAM_VESTING_SECONDS: nat := 730 * 24 * 60 * 60

  const EmptyToken: TokenState := TokenState(None, map[], map[], map[], map[])

  // ── Checkpoint lists ──

  /** `set_balance`'s write to a checkpoint list: overwrite the last entry within a ledger, else append. */
  function Record(h: seq<Checkpoint>, ledger: nat, balance: int): seq<Checkpoint> {
    if |h| > 0 && h[|h| - 1].ledger == ledger
    then h[|h| - 1 := Checkpoint(ledger, balance)]
    else h + [Checkpoint(ledger, balance)]
  }

  /** The balance of the last checkpoint at or before `ledger`, found by scanning back from the end. */
  function LastAtOrBefore(h: seq<Checkpoint>, ledger: nat): int {
    if h == [] then 0
    else if h[|h| - 1].ledger <= ledger then h[|h| - 1].balance
    else LastAtOrBefore(h[..|h| - 1], ledger)
  }

  function SetBalance(s: TokenState, env: Env, id: Address, amount: int): TokenState {
    s.(balances := s.balances[id := amount],
       checkpoints := s.checkpoints[id := Record(History(s, id), env.sequence, amount)])
  }

  // ── Views ──

  function History(s: TokenState, id: Address): seq<Checkpoint> {
    if id in s.checkpoints then s.checkpoints[id] else []
  }

  function Balance(s: TokenState, id: Address): int {
    if id in s.balances then s.balances[id] else 0
  }

  /** `balance_at` as a linear scan; `TokenContract.GovernanceToken.BalanceAt` is the binary search. */
  function BalanceAt(s: TokenState, id: Address, ledger: nat): int {
    LastAtOrBefore(History(s, id), ledger)
  }

  function Allowance(s: TokenState, env: Env, from: Address, spender: Address): int {
    var key := AllowanceKey(from, spender);
    if key in s.allowances && s.allowances[key].expirationLedger >= env.sequence
    then s.allowances[key].amount
    else 0
  }

  /** The arithmetic of `vested_balance` traps: a `u64` sum or the `i128` product overflows. */
  predicate VestingTraps(v: VestingSchedule, now: nat) {
    || v.startTime + v.cliffDuration > U64_MAX
    || (&& now >= v.startTime + v.cliffDuration
        && (|| v.startTime + v.totalDuration > U64_MAX
            || (now < v.startTime + v.totalDuration && v.totalAmount * (now - v.startTime) > I128_MAX)))
  }

  function Vested(v: VestingSchedule, now: nat): int {
    if now < v.startTime + v.cliffDuration then 0
    else if now >= v.startTime + v.totalDuration then v.totalAmount
    else (v.totalAmount * (now - v.startTime)) / v.totalDuration
  }

  function Unvested(v: VestingSchedule, now: nat): int {
    v.totalAmount - Vested(v, now)
  }

  function UnvestedBalance(s: TokenState, env: Env, id: Address): int {
    if id in s.vesting then Unvested(s.vesting[id], env.timestamp) else 0
  }

  function SpendableBalance(s: TokenState, env: Env, id: Address): int {
    var spendable := Balance(s, id) - UnvestedBalance(s, env, id);
    if spendable < 0 then 0 else spendable
  }

  predicate SpendableTraps(s: TokenState, env: Env, id: Address) {
    id in s.vesting && VestingTraps(s.vesting[id], env.timestamp)
  }

  // ── Entry points ──

  function Initialize(s: TokenState, env: Env, admin: Address, earlyKeepers: Address, treasury: Address,
                      coreTeam: Address, publicDistribution: Address): Call
  {
    if s.admin.Some? then Call(Err(AlreadyInitialized), s)
    else Call(Ok(()), Distributed(s.(admin := Some(admin)), env, earlyKeepers, treasury, coreTeam, publicDistribution))
  }

  function Distributed(s: TokenState, env: Env, earlyKeepers: Address, treasury: Address,
                       coreTeam: Address, publicDistribution: Address): TokenState
  {
    var s1 := SetBalance(s, env, earlyKeepers, ALLOC_EARLY_KEEPERS);
    var s2 := SetBalance(s1, env, treasury, ALLOC_TREASURY);
    var s3 := SetBalance(s2, env, coreTeam, ALLOC_CORE_TEAM);
    var s4 := s3.(vesting := s3.vesting[coreTeam := TeamSchedule(env.timestamp)]);
    SetBalance(s4, env, publicDistribution, ALLOC_PUBLIC)
  }

  function TeamSchedule(start: nat): VestingSchedule {
    VestingSchedule(ALLOC_CORE_TEAM, start, TEAM_CLIFF_SECONDS, TEAM_VESTING_SECONDS)
  }

  function Approve(s: TokenState, env: Env, from: Address, spender: Address, amount: int, expiration: nat): Call {
    if amount < 0 then Call(Err(NegativeAmount), s)
    else if expiration < env.sequence then Call(Err(InvalidExpiration), s)
    else
      var key := AllowanceKey(from, spender);
      Call(Ok(()), if amount == 0 then s.(allowances := s.allowances - {key})
                   else s.(allowances := s.allowances[key := AllowanceValue(amount, expiration)]))
  }

  /** Both balances are read before either is written, so a transfer to oneself ends with the credit alone. */
  function Moved(s: TokenState, env: Env, from: Address, to: Address, amount: int): TokenState {
    SetBalance(SetBalance(s, env, from, Balance(s, from) - amount), env, to, Balance(s, to) + amount)
  }

  /** The checks `transfer`, `transfer_from`, `burn` and `burn_from` make on the paying account. */
  function Payable(s: TokenState, env: Env, from: Address, amount: int): Outcome<(), TokenError> {
    if SpendableTraps(s, env, from) then Panic
    else if amount > SpendableBalance(s, env, from) then Err(TokensLocked)
    else if Balance(s, from) < amount then Err(InsufficientBalance)
    else Ok(())
  }

  function Transfer(s: TokenState, env: Env, from: Address, to: Address, amount: int): Call {
    if amount < 0 then Call(Err(NegativeAmount), s)
    else if amount == 0 then Call(Ok(()), s)
    else if !Payable(s, env, from, amount).Ok? then Call(Payable(s, env, from, amount), s)
    else if Balance(s, to) + amount > I128_MAX then Call(Panic, s)
    else Call(Ok(()), Moved(s, env, from, to, amount))
  }

  function Burn(s: TokenState, env: Env, from: Address, amount: int): Call {
    if amount < 0 then Call(Err(NegativeAmount), s)
    else if amount == 0 then Call(Ok(()), s)
    else if !Payable(s, env, from, amount).Ok? then Call(Payable(s, env, from, amount), s)
    else Call(Ok(()), SetBalance(s, env, from, Balance(s, from) - amount))
  }

  /** Take `amount` off the stored allowance; the entry must exist for the source's `unwrap`. */
  function Deducted(s: TokenState, current: int, from: Address, spender: Address, amount: int): TokenState
    requires AllowanceKey(from, spender) in s.allowances
  {
    var key := AllowanceKey(from, spender);
    s.(allowances := s.allowances[key := AllowanceValue(current - amount, s.allowances[key].expirationLedger)])
  }

  function TransferFrom(s: TokenState, env: Env, spender: Address, from: Address, to: Address, amount: int): Call {
    if amount < 0 then Call(Err(NegativeAmount), s)
    else if amount == 0 then Call(Ok(()), s)
    else
      var current := Allowance(s, env, from, spender);
      if current < amount then Call(Err(InsufficientAllowance), s)
      else if !Payable(s, env, from, amount).Ok? then Call(Payable(s, env, from, amount), s)
      else if Balance(s, to) + amount > I128_MAX then Call(Panic, s)
      else if AllowanceKey(from, spender) !in s.allowances then Call(Panic, s)
      else Call(Ok(()), Deducted(Moved(s, env, from, to, amount), current, from, spender, amount))
  }

  function BurnFrom(s: TokenState, env: Env, spender: Address, from: Address, amount: int): Call {
    if amount < 0 then Call(Err(NegativeAmount), s)
    else if amount == 0 then Call(Ok(()), s)
    else
      var current := Allowance(s, env, from, spender);
      if current < amount then Call(Err(InsufficientAllowance), s)
      else if !Payable(s, env, from, amount).Ok? then Call(Payable(s, env, from, amount), s)
      else if AllowanceKey(from, spender) !in s.allowances then Call(Panic, s)
      else Call(Ok(()), Deducted(SetBalance(s, env, from, Balance(s, from) - amount), current, from, spender, amount))
  }

  // ── Calls as data ──

  datatype TokenOp =
    | InitializeToken(admin: Address, earlyKeepers: Address, treasury: Address, coreTeam: Address,
                      publicDistribution: Address)
    | ApproveOp(from: Address, spender: Address, amount: int, expiration: nat)
    | TransferOp(from: Address, to: Address, amount: int)
    | TransferFromOp(spender: Address, from: Address, to: Address, amount: int)
    | BurnOp(from: Address, amount: int)
    | BurnFromOp(spender: Address, from: Address, amount: int)

  function ApplyToken(s: TokenState, env: Env, op: TokenOp): Call {
    match op
    case InitializeToken(a, k, t, c, p) => Initialize(s, env, a, k, t, c, p)
    case ApproveOp(from, spender, amount, expiration) => Approve(s, env, from, spender, amount, expiration)
    case TransferOp(from, to, amount) => Transfer(s, env, from, to, amount)
    case TransferFromOp(spender, from, to, amount) => TransferFrom(s, env, spender, from, to, amount)
    case BurnOp(from, amount) => Burn(s, env, from, amount)
    case BurnFromOp(spender, from, amount) => BurnFrom(s, env, spender, from, amount)
  }
}
