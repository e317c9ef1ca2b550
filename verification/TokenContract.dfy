/** The token contract as the object it is: storage overwritten call by call, checkpoints searched by
    bisection. Every method is proved against `TokenModel`. */
module TokenContract {
  import opened Common
  import opened TokenModel
  import opened TokenHistory

  class GovernanceToken {
    var admin: Option<Address>
    var balances: map<Address, int>
    var allowances: map<AllowanceKey, AllowanceValue>
    var vesting: map<Address, VestingSchedule>
    var checkpoints: map<Address, seq<Checkpoint>>

    function State(): TokenState
      reads this
    {
      TokenState(admin, balances, allowances, vesting, checkpoints)
    }

    constructor ()
      ensures State() == EmptyToken
    {
      admin, balances, allowances, vesting, checkpoints := None, map[], map[], map[], map[];
    }

    /** `balance_at`: bisect the checkpoint list for the last entry at or before `ledger`. */
    method BalanceAt(id: Address, ledger: nat) returns (balance: int)
      requires Ordered(History(State(), id))
      ensures balance == TokenModel.BalanceAt(State(), id, ledger)
    {
      var h := History(State(), id);
      OrderedIncreasing(h);
      if |h| == 0 {
        return 0;
      }
      var low, high, ans := 0, |h| - 1, -1;
      while low <= high
        invariant 0 <= low <= high + 1 <= |h|
        invariant ans == low - 1
        invariant forall i :: 0 <= i < low ==> h[i].ledger <= ledger
        invariant forall i :: high < i < |h| ==> ledger < h[i].ledger
      {
        var mid := low + (high - low) / 2;
        if h[mid].ledger <= ledger {
          ans := mid;
          low := mid + 1;
        } else {
          high := mid - 1;
        }
      }
      if ans >= 0 {
        LastAtOrBeforeAt(h, ledger, ans);
        balance := h[ans].balance;
      } else {
        NoneBefore(h, ledger);
        balance := 0;
      }
    }

    method SetBalance(env: Env, id: Address, amount: int)
      modifies this`balances, this`checkpoints
      ensures State() == old(TokenModel.SetBalance(State(), env, id, amount))
    {
      balances := balances[id := amount];
      var h := History(State(), id);
      if |h| > 0 {
        var last := |h| - 1;
        if h[last].ledger == env.sequence {
          checkpoints := checkpoints[id := h[last := Checkpoint(env.sequence, amount)]];
          return;
        }
      }
      checkpoints := checkpoints[id := h + [Checkpoint(env.sequence, amount)]];
    }

    method Initialize(env: Env, admin': Address, earlyKeepers: Address, treasury: Address, coreTeam: Address,
                      publicDistribution: Address) returns (r: Outcome<(), TokenError>)
      modifies this
      ensures Call(r, State()) ==
              old(TokenModel.Initialize(State(), env, admin', earlyKeepers, treasury, coreTeam, publicDistribution))
    {
      if admin.Some? {
        return Err(AlreadyInitialized);
      }
      admin := Some(admin');
      SetBalance(env, earlyKeepers, ALLOC_EARLY_KEEPERS);
      SetBalance(env, treasury, ALLOC_TREASURY);
      SetBalance(env, coreTeam, ALLOC_CORE_TEAM);
      vesting := vesting[coreTeam :=
        VestingSchedule(ALLOC_CORE_TEAM, env.timestamp, TEAM_CLIFF_SECONDS, TEAM_VESTING_SECONDS)];
      SetBalance(env, publicDistribution, ALLOC_PUBLIC);
      r := Ok(());
    }

    method Approve(env: Env, from: Address, spender: Address, amount: int, expiration: nat)
      returns (r: Outcome<(), TokenError>)
      modifies this`allowances
      ensures Call(r, State()) == old(TokenModel.Approve(State(), env, from, spender, amount, expiration))
    {
      if amount < 0 {
        return Err(NegativeAmount);
      }
      if expiration < env.sequence {
        return Err(InvalidExpiration);
      }
      var key := AllowanceKey(from, spender);
      if amount == 0 {
        allowances := allowances - {key};
      } else {
        allowances := allowances[key := AllowanceValue(amount, expiration)];
      }
      r := Ok(());
    }

    /** The checks on a payer that every spending call repeats. */
    method CheckPayer(env: Env, from: Address, amount: int) returns (r: Outcome<(), TokenError>)
      ensures r == Payable(State(), env, from, amount)
    {
      if SpendableTraps(State(), env, from) {
        return Panic;
      }
      var spendable := SpendableBalance(State(), env, from);
      if amount > spendable {
        return Err(TokensLocked);
      }
      if Balance(State(), from) < amount {
        return Err(InsufficientBalance);
      }
      r := Ok(());
    }

    method Transfer(env: Env, from: Address, to: Address, amount: int) returns (r: Outcome<(), TokenError>)
      modifies this`balances, this`checkpoints
      ensures Call(r, State()) == old(TokenModel.Transfer(State(), env, from, to, amount))
    {
      if amount < 0 {
        return Err(NegativeAmount);
      }
      if amount == 0 {
        return Ok(());
      }
      r := CheckPayer(env, from, amount);
      if !r.Ok? {
        return;
      }
      var fromBalance, toBalance := Balance(State(), from), Balance(State(), to);
      if toBalance + amount > I128_MAX {
        return Panic;
      }
      SetBalance(env, from, fromBalance - amount);
      SetBalance(env, to, toBalance + amount);
    }

    method TransferFrom(env: Env, spender: Address, from: Address, to: Address, amount: int)
      returns (r: Outcome<(), TokenError>)
      modifies this`balances, this`checkpoints, this`allowances
      ensures Call(r, State()) == old(TokenModel.TransferFrom(State(), env, spender, from, to, amount))
    {
      hide Payable, TokenModel.SetBalance;
      if amount < 0 {
        return Err(NegativeAmount);
      }
      if amount == 0 {
        return Ok(());
      }
      var current := Allowance(State(), env, from, spender);
      if current < amount {
        return Err(InsufficientAllowance);
      }
      r := CheckPayer(env, from, amount);
      if !r.Ok? {
        return;
      }
      var fromBalance, toBalance := Balance(State(), from), Balance(State(), to);
      if toBalance + amount > I128_MAX {
        return Panic;
      }
      var key := AllowanceKey(from, spender);
      if key !in allowances {
        return Panic;
      }
      SetBalance(env, from, fromBalance - amount);
      SetBalance(env, to, toBalance + amount);
      allowances := allowances[key := AllowanceValue(current - amount, allowances[key].expirationLedger)];
      r := Ok(());
    }

    method Burn(env: Env, from: Address, amount: int) returns (r: Outcome<(), TokenError>)
      modifies this`balances, this`checkpoints
      ensures Call(r, State()) == old(TokenModel.Burn(State(), env, from, amount))
    {
      if amount < 0 {
        return Err(NegativeAmount);
      }
      if amount == 0 {
        return Ok(());
      }
      r := CheckPayer(env, from, amount);
      if !r.Ok? {
        return;
      }
      SetBalance(env, from, Balance(State(), from) - amount);
    }

    method BurnFrom(env: Env, spender: Address, from: Address, amount: int) returns (r: Outcome<(), TokenError>)
      modifies this`balances, this`checkpoints, this`allowances
      ensures Call(r, State()) == old(TokenModel.BurnFrom(State(), env, spender, from, amount))
    {
      if amount < 0 {
        return Err(NegativeAmount);
      }
      if amount == 0 {
        return Ok(());
      }
      var current := Allowance(State(), env, from, spender);
      if current < amount {
        return Err(InsufficientAllowance);
      }
      r := CheckPayer(env, from, amount);
      if !r.Ok? {
        return;
      }
      var key := AllowanceKey(from, spender);
      if key !in allowances {
        return Panic;
      }
      SetBalance(env, from, Balance(State(), from) - amount);
      allowances := allowances[key := AllowanceValue(current - amount, allowances[key].expirationLedger)];
    }
  }
}
