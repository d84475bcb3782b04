/** The account hierarchy as objects whose balance and counters change in place.

    One class stands for the four classes of the hierarchy; its `kind` says which
    one an instance is. Each override of the hierarchy is a method of its own that
    calls its parent's method where the override calls `base.Deposit` or
    `base.Withdraw`, and `Deposit`/`Withdraw` dispatch on the kind as a virtual
    call does. Every method is specified by the rule of the same name in
    `AccountRules`, applied to the state before the call. The clock is the
    `currentYear` argument of a withdrawal. */
module Accounts {
  import opened AccountRules

  class Account {
    const kind: Kind
    var Balance: real
    var InterestRate: real
    var WithdrawalCount: int
    /** The year of `LastWithdrawalDate`, the only part of that date the source reads. */
    var LastWithdrawalYear: int

    /** The fields of this account as a value. */
    function Fields(): State
      reads this
    {
      State(kind, Balance, InterestRate, WithdrawalCount, LastWithdrawalYear)
    }

    /** The withdrawal counter never exceeds the yearly cap. */
    ghost predicate Valid()
      reads this
    {
      CountInRange(Fields())
    }

    /** `new Account(name, balance)`. */
    constructor OpenAccount(balance: real)
      ensures Valid()
      ensures Fields() == State(Plain, balance, 0.0, 0, InitialYear)
    {
      kind := Plain;
      Balance := balance;
      InterestRate := 0.0;
      WithdrawalCount := 0;
      LastWithdrawalYear := InitialYear;
    }

    /** `new SavingsAccount(name, balance, interestRate)`. */
    constructor OpenSavings(balance: real, interestRate: real)
      ensures Valid()
      ensures Fields() == State(Savings, balance, interestRate, 0, InitialYear)
    {
      kind := Savings;
      Balance := balance;
      InterestRate := interestRate;
      WithdrawalCount := 0;
      LastWithdrawalYear := InitialYear;
    }

    /** `new CheckingAccount(name, balance)`. */
    constructor OpenChecking(balance: real)
      ensures Valid()
      ensures Fields() == State(Checking, balance, 0.0, 0, InitialYear)
    {
      kind := Checking;
      Balance := balance;
      InterestRate := 0.0;
      WithdrawalCount := 0;
      LastWithdrawalYear := InitialYear;
    }

    /** `new TrustAccount(name, balance, interestRate)`: no withdrawals yet, and the
        stored withdrawal date is the earliest one there is. */
    constructor OpenTrust(balance: real, interestRate: real)
      ensures Valid()
      ensures Fields() == State(Trust, balance, interestRate, 0, InitialYear)
    {
      kind := Trust;
      Balance := balance;
      InterestRate := interestRate;
      WithdrawalCount := 0;
      LastWithdrawalYear := InitialYear;
    }

    /** `Account.Deposit`. */
    method BaseDeposit(amount: real) returns (ok: bool)
      modifies this
      ensures Outcome(ok, Fields()) == AccountRules.BaseDeposit(old(Fields()), amount)
      ensures ok <==> amount > 0.0
      ensures Balance == if ok then old(Balance) + amount else old(Balance)
    {
      if amount > 0.0 {
        Balance := Balance + amount;
        return true;
      }
      return false;
    }

    /** `Account.Withdraw`. */
    method BaseWithdraw(amount: real) returns (ok: bool)
      modifies this
      ensures Outcome(ok, Fields()) == AccountRules.BaseWithdraw(old(Fields()), amount)
      ensures ok <==> old(Balance) - amount >= 0.0
      ensures Balance == if ok then old(Balance) - amount else old(Balance)
    {
      if Balance - amount >= 0.0 {
        Balance := Balance - amount;
        return true;
      }
      return false;
    }

    /** `SavingsAccount.Deposit`, inherited by trust accounts. */
    method SavingsDeposit(amount: real) returns (ok: bool)
      requires kind == Savings || kind == Trust
      modifies this
      ensures Outcome(ok, Fields()) == AccountRules.SavingsDeposit(old(Fields()), amount)
    {
      ok := BaseDeposit(amount);
      if ok {
        Balance := Balance + amount * InterestRate / 100.0;
      }
    }

    /** `CheckingAccount.Withdraw`. */
    method CheckingWithdraw(amount: real) returns (ok: bool)
      requires kind == Checking
      modifies this
      ensures Outcome(ok, Fields()) == AccountRules.CheckingWithdraw(old(Fields()), amount)
    {
      ok := BaseWithdraw(amount + WithdrawalFee);
    }

    /** `TrustAccount.Deposit`. */
    method TrustDeposit(amount: real) returns (ok: bool)
      requires kind == Trust
      modifies this
      ensures Outcome(ok, Fields()) == AccountRules.TrustDeposit(old(Fields()), amount)
    {
      if amount >= BonusThreshold {
        Balance := Balance + BonusAmount;
      }
      ok := SavingsDeposit(amount);
    }

    /** `TrustAccount.Withdraw`, with the year of `DateTime.Now` passed in as `currentYear`. */
    method TrustWithdraw(amount: real, currentYear: int) returns (ok: bool)
      requires kind == Trust
      requires Valid()
      modifies this
      ensures Valid()
      ensures Outcome(ok, Fields()) == AccountRules.TrustWithdraw(old(Fields()), amount, currentYear)
    {
      if LastWithdrawalYear < currentYear {
        WithdrawalCount := 0;
        LastWithdrawalYear := currentYear;
      }
      if WithdrawalCount >= MaxWithdrawals || amount > Balance * MaxWithdrawalFraction {
        return false;
      }
      ok := BaseWithdraw(amount);
      if ok {
        WithdrawalCount := WithdrawalCount + 1;
      }
    }

    /** A virtual call of `Deposit`: the most derived override for this account's kind. */
    method Deposit(amount: real) returns (ok: bool)
      requires Valid()
      modifies this
      ensures Valid()
      ensures Outcome(ok, Fields()) == AccountRules.Deposit(old(Fields()), amount)
    {
      match kind
      case Plain => ok := BaseDeposit(amount);
      case Savings => ok := SavingsDeposit(amount);
      case Checking => ok := BaseDeposit(amount);
      case Trust => ok := TrustDeposit(amount);
    }

    /** A virtual call of `Withdraw`: the most derived override for this account's kind;
        only a trust account reads `currentYear`. */
    method Withdraw(amount: real, currentYear: int) returns (ok: bool)
      requires Valid()
      modifies this
      ensures Valid()
      ensures Outcome(ok, Fields()) == AccountRules.Withdraw(old(Fields()), amount, currentYear)
    {
      match kind
      case Plain => ok := BaseWithdraw(amount);
      case Savings => ok := BaseWithdraw(amount);
      case Checking => ok := CheckingWithdraw(amount);
      case Trust => ok := TrustWithdraw(amount, currentYear);
    }

    /** `operator +`: reads both balances and changes neither account. */
    static method Plus(acc1: Account, acc2: Account) returns (total: real)
      ensures total == acc1.Balance + acc2.Balance
      ensures total == acc2.Balance + acc1.Balance
    {
      total := acc1.Balance + acc2.Balance;
    }
  }
}
