/** What each token call does, said in terms of balances, allowances and the vesting schedule: when it
    is accepted, and what an account can spend at any time. */
module TokenEffects {
  import opened Common
  import opened TokenModel
  import opened TokenHistory
  import opened Protocol
  import opened TokenRuns

  // ── Vesting ──

  /** Nothing before the cliff, everything from the end on, and in between the share of time elapsed,
      rounded down. */
  lemma VestedExactly(v: VestingSchedule, now: nat)
    requires v.totalDuration > 0
    ensures now < v.startTime + v.cliffDuration ==> Vested(v, now) == 0
    ensures now >= v.startTime + v.cliffDuration && now >= v.startTime + v.totalDuration ==>
              Vested(v, now) == v.totalAmount
    ensures v.startTime + v.cliffDuration <= now < v.startTime + v.totalDuration ==>
              Vested(v, now) * v.totalDuration
              <= v.totalAmount * (now - v.startTime)
              < (Vested(v, now) + 1) * v.totalDuration
  {
    if v.startTime + v.cliffDuration <= now < v.startTime + v.totalDuration {
      QuotientBrackets(v.totalAmount * (now - v.startTime), v.totalDuration);
    }
  }

  lemma QuotientBrackets(n: int, d: nat)
    requires d > 0
    ensures n / d * d <= n < (n / d + 1) * d
  {
    assert n == n / d * d + n % d;
  }

  /** What the team can spend in every reachable state: with 20 million tokens, a cliff of 180 days and
      730 days in all, everything but the unvested part. Everyone else can spend all they hold. */
  lemma SpendableOverRun(l: Launch, ops: seq<Op>, id: Address)
    requires Proper(l)
    ensures var s := Run(Start(l), ops);
            var elapsed := s.env.timestamp - l.env.timestamp;
            var locked := Balance(s.token, id) - SpendableBalance(s.token, s.env, id);
            var vested := 20_000_000 * 10_000_000 - locked;
            && elapsed >= 0
            && (id != l.coreTeam ==> locked == 0)
            && (id == l.coreTeam && elapsed < 15_552_000 ==> vested == 0)
            && (id == l.coreTeam && elapsed >= 63_072_000 ==> locked == 0)
            && (id == l.coreTeam && 15_552_000 <= elapsed < 63_072_000 ==>
                  vested * 63_072_000 <= 20_000_000 * 10_000_000 * elapsed < (vested + 1) * 63_072_000)
  {
    hide SystemSound, Run, Launched, SpendableBalance, HistoriesSound, Vested, Balance;
    var s := Run(Start(l), ops);
    StartSound(l);
    LaunchedSound(l);
    RunAdvances(Start(l), ops);
    RunKeepsVesting(Start(l), ops);
    ReachableSound(l, ops);
    SoundToken(s);
    PayableMeans(s.token, s.env, id, 1);
    VestedExactly(TeamSchedule(l.env.timestamp), s.env.timestamp);
  }

  // ── Launch ──

  /** The four allocations go to the four holders and nobody else holds anything; only the team's is
      locked. It happens once. */
  lemma LaunchDistributes(l: Launch, again: Launch, other: Address)
    requires Proper(l)
    ensures Balance(Launched(l), l.earlyKeepers) == 40_000_000 * 10_000_000
    ensures Balance(Launched(l), l.treasury) == 25_000_000 * 10_000_000
    ensures Balance(Launched(l), l.coreTeam) == 20_000_000 * 10_000_000
    ensures Balance(Launched(l), l.publicDistribution) == 15_000_000 * 10_000_000
    ensures other !in {l.earlyKeepers, l.treasury, l.coreTeam, l.publicDistribution} ==>
              Balance(Launched(l), other) == 0
    ensures Launched(l).vesting ==
            map[l.coreTeam := VestingSchedule(20_000_000 * 10_000_000, l.env.timestamp, 15_552_000, 63_072_000)]
    ensures Launched(l).admin == Some(l.admin) && Launched(l).allowances == map[]
    ensures Initialize(Launched(l), again.env, again.admin, again.earlyKeepers, again.treasury, again.coreTeam,
                       again.publicDistribution) == Call(Err(AlreadyInitialized), Launched(l))
  {
    hide Record;
  }

  // ── When calls are accepted ──

  /** The spender's allowance covers the amount up to and including its expiration ledger. */
  predicate Allowed(t: TokenState, env: Env, from: Address, spender: Address, amount: int) {
    var key := AllowanceKey(from, spender);
    && key in t.allowances && amount <= t.allowances[key].amount
    && env.sequence <= t.allowances[key].expirationLedger
  }

  /** A transfer of nothing always succeeds; one of something exactly when the unlocked balance covers it
      and the receiver's sum fits. A refusal names its cause and changes nothing. */
  lemma TransferAccepted(t: TokenState, env: Env, from: Address, to: Address, amount: int)
    requires Sound(t, env)
    ensures var Call(r, t') := Transfer(t, env, from, to, amount);
            && (r.Ok? <==> amount == 0 || (CanPay(t, env, from, amount) && Balance(t, to) + amount <= I128_MAX))
            && (r == Err(NegativeAmount) <==> amount < 0)
            && (r == Err(TokensLocked) <==> amount > 0 && !CanPay(t, env, from, amount))
            && (!r.Ok? || amount == 0 ==> t' == t)
  {
    hide Sound, Payable, UnvestedBalance, Balance, Moved;
    if amount > 0 {
      PayableMeans(t, env, from, amount);
    }
  }

  lemma TransferFromAccepted(t: TokenState, env: Env, spender: Address, from: Address, to: Address, amount: int)
    requires Sound(t, env)
    ensures var Call(r, t') := TransferFrom(t, env, spender, from, to, amount);
            && (r.Ok? <==>
                  || amount == 0
                  || (&& Allowed(t, env, from, spender, amount) && CanPay(t, env, from, amount)
                      && Balance(t, to) + amount <= I128_MAX))
            && (r == Err(NegativeAmount) <==> amount < 0)
            && (r == Err(InsufficientAllowance) <==> amount > 0 && !Allowed(t, env, from, spender, amount))
            && (r == Err(TokensLocked) ==> !CanPay(t, env, from, amount))
            && (!r.Ok? || amount == 0 ==> t' == t)
  {
    hide Sound, Payable, UnvestedBalance, Balance, Moved, Deducted;
    if amount > 0 {
      PayableMeans(t, env, from, amount);
    }
  }

  lemma BurnAccepted(t: TokenState, env: Env, from: Address, amount: int)
    requires Sound(t, env)
    ensures var Call(r, t') := Burn(t, env, from, amount);
            && (r.Ok? <==> amount == 0 || CanPay(t, env, from, amount))
            && (r == Err(NegativeAmount) <==> amount < 0)
            && (r == Err(TokensLocked) <==> amount > 0 && !CanPay(t, env, from, amount))
            && (!r.Ok? || amount == 0 ==> t' == t)
  {
    hide Sound, Payable, UnvestedBalance, Balance, SetBalance;
    if amount > 0 {
      PayableMeans(t, env, from, amount);
    }
  }

  lemma BurnFromAccepted(t: TokenState, env: Env, spender: Address, from: Address, amount: int)
    requires Sound(t, env)
    ensures var Call(r, t') := BurnFrom(t, env, spender, from, amount);
            && (r.Ok? <==>
                  || amount == 0
                  || (Allowed(t, env, from, spender, amount) && CanPay(t, env, from, amount)))
            && (r == Err(NegativeAmount) <==> amount < 0)
            && (r == Err(InsufficientAllowance) <==> amount > 0 && !Allowed(t, env, from, spender, amount))
            && (r == Err(TokensLocked) ==> !CanPay(t, env, from, amount))
            && (!r.Ok? || amount == 0 ==> t' == t)
  {
    hide Sound, Payable, UnvestedBalance, Balance, SetBalance, Deducted;
    if amount > 0 {
      PayableMeans(t, env, from, amount);
    }
  }

  /** An approval that is not negative and has not expired yet lets the spender draw exactly up to the
      amount, through the expiration ledger and not after; no other allowance changes, and nothing else. */
  lemma ApprovalGrants(t: TokenState, env: Env, from: Address, spender: Address, amount: int, expiration: nat,
                       later: Env, draw: int, other: AllowanceKey)
    requires draw > 0
    ensures var Call(r, t') := Approve(t, env, from, spender, amount, expiration);
            && (r.Ok? <==> amount >= 0 && env.sequence <= expiration)
            && (r == Err(NegativeAmount) <==> amount < 0)
            && (!r.Ok? ==> t' == t)
            && (r.Ok? ==>
                  && (Allowed(t', later, from, spender, draw) <==> draw <= amount && later.sequence <= expiration)
                  && (other != AllowanceKey(from, spender) ==>
                        && (other in t'.allowances <==> other in t.allowances)
                        && (other in t.allowances ==> t'.allowances[other] == t.allowances[other]))
                  && t'.(allowances := t.allowances) == t)
  {
  }

  /** A draw takes exactly the amount off the allowance and leaves its expiration. */
  lemma DrawDeducts(t: TokenState, env: Env, op: TokenOp, other: AllowanceKey)
    requires (op.TransferFromOp? || op.BurnFromOp?) && op.amount > 0 && ApplyToken(t, env, op).outcome.Ok?
    ensures var t' := ApplyToken(t, env, op).state;
            var key := AllowanceKey(op.from, op.spender);
            && key in t.allowances && key in t'.allowances
            && t'.allowances[key] == t.allowances[key].(amount := t.allowances[key].amount - op.amount)
            && (other != key ==>
                  && (other in t'.allowances <==> other in t.allowances)
                  && (other in t.allowances ==> t'.allowances[other] == t.allowances[other]))
  {
    hide Payable, SetBalance;
    SetBalanceKeepsAllowances(t, env, op.from, if op.TransferFromOp? then op.to else op.from, op.amount);
  }
}
