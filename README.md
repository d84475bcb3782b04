# Account hierarchy of Assignment4, modelled and verified in Dafny

The system is a small hierarchy of bank accounts. Every account has a balance. A
plain `Account` credits positive deposits. It debits a withdrawal only if that
leaves no negative balance. Three subclasses layer their own rule on the parent's:

- A `SavingsAccount` pays `amount * InterestRate / 100` interest on each successful deposit.
- A `CheckingAccount` withdraws the amount plus a fee of 1.50 through the base rule, as one step.
- A `TrustAccount` is a savings account with more rules:
  - it pays a bonus of 50 on deposits of 5000 or more, with no interest on the bonus;
  - it allows at most three withdrawals per calendar year;
  - it allows no withdrawal larger than 20% of the balance.

`operator +` adds the balances of two accounts.

The project is made of four modules:

- `AccountRules` (rules.dfy) states every rule as a function on the
  account's fields (`State`), giving the success flag and the state after the call
  (`Outcome`). Each function's contract gives the rule's effect in closed form,
  following it through its calls to the parent rule.
- `Accounts` (accounts.dfy) has the class `Account`, whose fields change in
  place. C# has four classes; Dafny here has no inheritance, so one class carries
  a `kind` tag. Each override is its own method, and it calls the parent's method
  exactly where the source calls `base.Deposit` or `base.Withdraw`. `Deposit` and
  `Withdraw` dispatch on the kind, as a virtual call does. Each method's
  postcondition ties the flag and the new fields to the rule of the same name
  applied to the old fields. `Valid()` keeps the withdrawal counter between 0 and 3.
- `AccountHistory` (history.dfy) has lemmas over any sequence of calls on one account:
  - the counter stays within the cap;
  - within one calendar year at most three withdrawals of a trust account succeed;
  - a non-negative balance stays non-negative;
  - the year rollover re-opens the cap.
- `Demo` (demo.dfy) replays the program's demonstration scenario and proves its results.

The year of `DateTime.Now` is the `currentYear` argument of `Withdraw`. Only the
year of `LastWithdrawalDate` is ever read, so the model stores that year alone.
The year of `DateTime.MinValue`, 1, is its initial value.

Two consequences of the code are worth stating:

- The rollover happens only when the stored year is strictly less than the current one (Assignment4/Program.cs:125). A clock that goes back leaves the counter alone.
- The code keeps the balance non-negative only on withdrawal (Assignment4/Program.cs:28). A constructor accepts any balance (Assignment4/Program.cs:10-14). A savings deposit at a rate below -100 lowers the balance (Assignment4/Program.cs:62). `AccountHistory.RunKeepsBalanceNonNegative` therefore assumes a non-negative start and a rate of at least -100.

## Model

| member | source | states |
|---|---|---|
| `AccountRules.BaseDeposit` | Assignment4/Program.cs:16-24 | Succeeds iff `amount > 0` and credits exactly `amount` on success; a failed deposit changes nothing; only the balance ever changes, and it never decreases |
| `Accounts.Account.BaseDeposit` | Assignment4/Program.cs:16-24 | Succeeds iff `amount > 0`; the balance grows by exactly `amount` on success and is unchanged on failure; no other field changes |
| `AccountRules.BaseWithdraw` | Assignment4/Program.cs:26-34 | Succeeds iff `balance - amount >= 0` and debits exactly `amount` on success; a success leaves a non-negative balance; a failure changes nothing; only the balance changes; a non-positive amount from a non-negative balance always succeeds and does not lower it |
| `Accounts.Account.BaseWithdraw` | Assignment4/Program.cs:26-34 | Succeeds iff `Balance - amount >= 0`; debits exactly `amount` on success, nothing on failure; no other field changes |
| `AccountRules.SavingsDeposit` | Assignment4/Program.cs:58-66 | Succeeds iff `amount > 0`; then the balance grows by `amount + amount * rate / 100`; on failure no interest is paid and nothing changes |
| `Accounts.Account.SavingsDeposit` | Assignment4/Program.cs:58-66 | The base deposit, then the interest only when it succeeded, as the savings rule says |
| `AccountRules.CheckingWithdraw` | Assignment4/Program.cs:77-91 | Succeeds iff `balance >= amount + 1.50`; a success debits `amount + 1.50` at once; a failure debits nothing |
| `Accounts.Account.CheckingWithdraw` | Assignment4/Program.cs:84-91 | One base withdrawal of the amount plus the fee, as the checking rule says |
| `AccountRules.TrustDeposit` | Assignment4/Program.cs:102-121 | Succeeds exactly when the savings deposit would; the balance grows by bonus (50 when `amount >= 5000`) + `amount` + interest on `amount` alone; the result is the savings result plus the bonus; below 5000 it is the savings deposit; a failure changes nothing |
| `Accounts.Account.TrustDeposit` | Assignment4/Program.cs:114-121 | The bonus first, then the savings deposit, as the trust deposit rule says |
| `AccountRules.TrustWithdraw` | Assignment4/Program.cs:104-141 | An earlier stored year is replaced by the current one and the count cleared, even on failure; otherwise neither changes; success iff count after rollover < 3, `amount <= 0.2 * balance` before the debit, and the base rule allows it; a success debits exactly `amount` and adds exactly 1 to the count; a failure leaves only the rollover; the count stays in 0..3 |
| `Accounts.Account.TrustWithdraw` | Assignment4/Program.cs:123-142 | The rollover, the two caps and the base withdrawal in the source's order, as the trust withdrawal rule says; keeps the counter in 0..3 |
| `AccountRules.Deposit` | Assignment4/Program.cs:168 | For every kind of account: succeeds iff `amount > 0`; a failure changes nothing; kind, rate, counter and year never change |
| `Accounts.Account.Deposit` | Assignment4/Program.cs:168 | A virtual `Deposit` runs the most derived override for the account's kind |
| `AccountRules.Withdraw` | Assignment4/Program.cs:180 | For every kind: a success leaves a non-negative balance at most `balance - amount`; a failure leaves the balance as it was; only trust accounts touch the counter and year; the count stays in 0..3 |
| `Accounts.Account.Withdraw` | Assignment4/Program.cs:180 | A virtual `Withdraw` runs the most derived override for the account's kind |
| `Accounts.Account.Plus` | Assignment4/Program.cs:41-44 | The sum of both balances, in either order; changes neither account (no `modifies`) |
| `Accounts.Account.OpenAccount` | Assignment4/Program.cs:10-14 | A plain account with the given balance |
| `Accounts.Account.OpenSavings` | Assignment4/Program.cs:52-56 | A savings account with the given balance and rate |
| `Accounts.Account.OpenChecking` | Assignment4/Program.cs:79-82 | A checking account with the given balance |
| `Accounts.Account.OpenTrust` | Assignment4/Program.cs:105-112 | A trust account with no withdrawals and stored year 1 (the year of `DateTime.MinValue`) |
| `AccountHistory.RunKeepsCountInRange` | Assignment4/Program.cs:104-137 | Over any sequence of deposits and withdrawals, a counter in 0..3 stays in 0..3 |
| `AccountHistory.RunKeepsKindAndRate` | Assignment4/Program.cs:50 | No sequence of calls changes an account's kind or interest rate |
| `AccountHistory.ApplyKeepsBalanceNonNegative` | Assignment4/Program.cs:26-34 | One call keeps a non-negative balance non-negative when the rate is at least -100 |
| `AccountHistory.RunKeepsBalanceNonNegative` | Assignment4/Program.cs:16-34 | A non-negative balance stays non-negative over any sequence of calls when the rate is at least -100 |
| `AccountHistory.TrustWithdrawOnlyCapsReject` | Assignment4/Program.cs:130-141 | From a non-negative balance the inner base withdrawal cannot fail: a trust withdrawal succeeds iff both caps allow it |
| `AccountHistory.CapWithinYear` | Assignment4/Program.cs:125-137 | Once the stored year has reached `year`, at most `3 - count` withdrawals in `year` succeed, whatever deposits come between |
| `AccountHistory.AtMostThreeWithdrawalsPerYear` | Assignment4/Program.cs:125-137 | From any valid trust state, at most three withdrawals made in one calendar year succeed, so a fourth fails whatever its amount |
| `AccountHistory.NewYearReopensCap` | Assignment4/Program.cs:125-136 | In a new year the counter is cleared before the cap check: a withdrawal within 20% of a non-negative balance succeeds and leaves count 1 |
| `Demo.Scenario` | Assignment4/Program.cs:194-212 | The demonstration: combined 3000; after depositing 6000 and withdrawing 2000, savings 9180, checking 5498.50, trust 14350 with one withdrawal counted |

## Left out

- `double` arithmetic: amounts are exact reals, so the model has no rounding. The constants 1.50 and 0.2 are exact.
- The `Name` property and the constructors' default arguments: they hold no rule logic and are not modelled.
- The `ToString` overrides: they only format text, with culture-dependent currency formatting.
- `AccountUtil.Display`, `AccountUtil.Deposit` and `AccountUtil.Withdraw`: these loops only print outcomes to the console. The virtual call each of them makes is modelled by `Deposit` and `Withdraw`.
- `Program.Main` prints. Its scenario is replayed by `Demo.Scenario`, without the output.
- `DateTime.Now` becomes the `currentYear` argument.
- `Accounts.Account.TrustWithdraw` reads the year once, where the source reads the clock twice: once to compare (Assignment4/Program.cs:125) and once to store (Assignment4/Program.cs:128). If those two reads fall on either side of New Year, the source stores the later year, and its next withdrawal in that year does not reset the counter. The model stores the compared year, so it does reset the counter then. `LastWithdrawalDate` is kept as its year only, because the source compares nothing else.
- Inheritance is a `kind` tag on one class. A subclass method exists only for the kinds that have it, which is stated as a `requires` on the kind.
- `InterestRate` is a settable property in the source. No code in it assigns the rate after construction, and the model changes it only in the constructors.
- Concurrent access to one account is not modelled. The source has no locking.
