/** The deposit and withdrawal rules of the account hierarchy, stated on values.

    Every account variant keeps its whole state in one `State` record; each rule is
    a function from the state before a call (and the call's arguments) to the
    success flag and the state after it. The class `Accounts.Account` performs the
    same steps in place and is specified by these functions. Amounts are exact
    `real`s (the source's `double` rounding is not modelled). */
module AccountRules {

  /** `CheckingAccount.WithdrawalFee`. */
  const WithdrawalFee: real := 1.5
  /** `TrustAccount.BonusThreshold` and `TrustAccount.BonusAmount`. */
  const BonusThreshold: real := 5000.0
  const BonusAmount: real := 50.0
  /** `TrustAccount.MaxWithdrawals`. */
  const MaxWithdrawals: int := 3
  /** The largest fraction of the balance one trust withdrawal may take. */
  const MaxWithdrawalFraction: real := 0.2
  /** The year of `DateTime.MinValue`, the stored withdrawal date of a new trust account. */
  const InitialYear: int := 1

  /** Which class of the hierarchy an account is an instance of. */
  datatype Kind = Plain | Savings | Checking | Trust

  /** The fields of an account. `interestRate` is used by savings and trust
      accounts; `withdrawalCount` and `lastWithdrawalYear` only by trust accounts. */
  datatype State = State(
    kind: Kind,
    balance: real,
    interestRate: real,
    withdrawalCount: int,
    lastWithdrawalYear: int)

  /** What a call reports and the state it leaves behind. */
  datatype Outcome = Outcome(ok: bool, after: State)

  /** The withdrawal counter of a trust account stays within its yearly cap. */
  predicate CountInRange(s: State)
  {
    0 <= s.withdrawalCount <= MaxWithdrawals
  }

  /** The bonus a trust account credits for a deposit of `amount`. */
  function Bonus(amount: real): real
  {
    if amount >= BonusThreshold then BonusAmount else 0.0
  }

  /** The interest a savings deposit of `amount` earns at `rate` percent. */
  function Interest(amount: real, rate: real): real
  {
    amount * rate / 100.0
  }

  // ---------------------------------------------------------------- Account

  /** `Account.Deposit`: only a positive amount is credited. */
  function BaseDeposit(s: State, amount: real): (r: Outcome)
    ensures r.ok <==> amount > 0.0
    ensures r.after.balance == if r.ok then s.balance + amount else s.balance
    ensures !r.ok ==> r.after == s
    ensures r.after == s.(balance := r.after.balance)
    ensures r.after.balance >= s.balance
  {
    if amount > 0.0 then Outcome(true, s.(balance := s.balance + amount))
    else Outcome(false, s)
  }

  /** `Account.Withdraw`: the debit happens only if it leaves no negative balance. */
  function BaseWithdraw(s: State, amount: real): (r: Outcome)
    ensures r.ok <==> s.balance - amount >= 0.0
    ensures r.after.balance == if r.ok then s.balance - amount else s.balance
    ensures r.ok ==> r.after.balance >= 0.0
    ensures !r.ok ==> r.after == s
    ensures r.after == s.(balance := r.after.balance)
    // a non-positive request from a non-negative balance always succeeds and never lowers it
    ensures s.balance >= 0.0 && amount <= 0.0 ==> r.ok && r.after.balance >= s.balance
  {
    if s.balance - amount >= 0.0 then Outcome(true, s.(balance := s.balance - amount))
    else Outcome(false, s)
  }

  // --------------------------------------------------------- SavingsAccount

  /** `SavingsAccount.Deposit`: the base deposit first; interest on `amount` only if it succeeded. */
  function SavingsDeposit(s: State, amount: real): (r: Outcome)
    ensures r.ok <==> amount > 0.0
    ensures r.ok ==> r.after == s.(balance := s.balance + amount + amount * s.interestRate / 100.0)
    ensures !r.ok ==> r.after == s
  {
    var base := BaseDeposit(s, amount);
    if base.ok then
      Outcome(true, base.after.(balance := base.after.balance + Interest(amount, base.after.interestRate)))
    else
      Outcome(false, base.after)
  }

  // -------------------------------------------------------- CheckingAccount

  /** `CheckingAccount.Withdraw`: the base withdrawal of the amount plus the fee, in one step. */
  function CheckingWithdraw(s: State, amount: real): (r: Outcome)
    ensures r.ok <==> s.balance >= amount + 1.5
    ensures r.ok ==> r.after == s.(balance := s.balance - amount - 1.5)
    ensures !r.ok ==> r.after == s
  {
    BaseWithdraw(s, amount + WithdrawalFee)
  }

  // ----------------------------------------------------------- TrustAccount

  /** `TrustAccount.Deposit`: the bonus is credited first, then the savings deposit of
      `amount` alone, so no interest is paid on the bonus. */
  function TrustDeposit(s: State, amount: real): (r: Outcome)
    ensures r.ok <==> amount > 0.0
    ensures r.ok == SavingsDeposit(s, amount).ok
    ensures r.ok ==> r.after == s.(balance := s.balance + Bonus(amount) + amount + amount * s.interestRate / 100.0)
    ensures r.after.balance == SavingsDeposit(s, amount).after.balance + Bonus(amount)
    ensures !r.ok ==> r.after == s
    ensures amount >= 5000.0 ==> r.after.balance == s.balance + 50.0 + amount + amount * s.interestRate / 100.0
    ensures amount < 5000.0 ==> r == SavingsDeposit(s, amount)
  {
    var credited := if amount >= BonusThreshold then s.(balance := s.balance + BonusAmount) else s;
    SavingsDeposit(credited, amount)
  }

  /** The first step of `TrustAccount.Withdraw`: a new calendar year clears the counter. */
  function Rollover(s: State, currentYear: int): State
  {
    if s.lastWithdrawalYear < currentYear then
      s.(withdrawalCount := 0, lastWithdrawalYear := currentYear)
    else
      s
  }

  /** `TrustAccount.Withdraw`: the rollover always applies; then the yearly and the
      per-withdrawal caps (against the balance before the debit); then the base
      withdrawal, which alone counts towards the cap when it succeeds. */
  function TrustWithdraw(s: State, amount: real, currentYear: int): (r: Outcome)
    // the rollover, whatever the outcome
    ensures s.lastWithdrawalYear < currentYear ==>
              r.after.lastWithdrawalYear == currentYear && r.after.withdrawalCount == (if r.ok then 1 else 0)
    ensures s.lastWithdrawalYear >= currentYear ==>
              r.after.lastWithdrawalYear == s.lastWithdrawalYear &&
              r.after.withdrawalCount == s.withdrawalCount + (if r.ok then 1 else 0)
    // the caps are checked after the rollover, against the balance before the debit
    ensures r.ok <==> Rollover(s, currentYear).withdrawalCount < 3 && amount <= s.balance * 0.2 && s.balance - amount >= 0.0
    ensures r.ok ==> r.after.balance == s.balance - amount && r.after.balance >= 0.0
    ensures !r.ok ==> r.after == Rollover(s, currentYear)
    ensures r.after.kind == s.kind && r.after.interestRate == s.interestRate
    ensures CountInRange(s) ==> CountInRange(r.after)
  {
    var t := Rollover(s, currentYear);
    if t.withdrawalCount >= MaxWithdrawals || amount > t.balance * MaxWithdrawalFraction then
      Outcome(false, t)
    else
      var base := BaseWithdraw(t, amount);
      if base.ok then Outcome(true, base.after.(withdrawalCount := base.after.withdrawalCount + 1))
      else Outcome(false, base.after)
  }

  // ------------------------------------------------------------- dispatch

  /** `Deposit` on an account of any kind, dispatched to its most derived override. */
  function Deposit(s: State, amount: real): (r: Outcome)
    ensures r.ok <==> amount > 0.0
    ensures !r.ok ==> r.after == s
    ensures r.after.kind == s.kind && r.after.interestRate == s.interestRate
    ensures r.after.withdrawalCount == s.withdrawalCount && r.after.lastWithdrawalYear == s.lastWithdrawalYear
  {
    match s.kind
    case Plain => BaseDeposit(s, amount)
    case Savings => SavingsDeposit(s, amount)
    case Checking => BaseDeposit(s, amount)
    case Trust => TrustDeposit(s, amount)
  }

  /** `Withdraw` on an account of any kind, dispatched to its most derived override. */
  function Withdraw(s: State, amount: real, currentYear: int): (r: Outcome)
    ensures r.ok ==> r.after.balance >= 0.0 && r.after.balance <= s.balance - amount
    ensures !r.ok ==> r.after.balance == s.balance
    ensures r.after.kind == s.kind && r.after.interestRate == s.interestRate
    ensures s.kind != Trust ==> r.after.withdrawalCount == s.withdrawalCount
    ensures s.kind != Trust ==> r.after.lastWithdrawalYear == s.lastWithdrawalYear
    ensures CountInRange(s) ==> CountInRange(r.after)
  {
    match s.kind
    case Plain => BaseWithdraw(s, amount)
    case Savings => BaseWithdraw(s, amount)
    case Checking => CheckingWithdraw(s, amount)
    case Trust => TrustWithdraw(s, amount, currentYear)
  }
}
