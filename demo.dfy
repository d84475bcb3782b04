/** The demonstration scenario of the program's entry point, on exact amounts. */
module Demo {
  import opened Accounts

  /** Two plain accounts are combined; then a savings, a checking and a trust account
      each receive a deposit of 6000 and a withdrawal of 2000 in `currentYear`.
      Returns the combined balance, each account's final balance, and the trust
      account's withdrawal counter. */
  method Scenario(currentYear: int)
    returns (combined: real, savings: real, checking: real, trust: real, trustWithdrawals: int)
    ensures combined == 3000.0
    ensures savings == 9180.0      // 5000 + 6000 + 180 interest, less 2000
    ensures checking == 5498.5     // 1500 + 6000, less 2000 and the 1.50 fee
    ensures trust == 14350.0       // 10000 + 6000 + 50 bonus + 300 interest, less 2000
    ensures trustWithdrawals == 1
  {
    var account1 := new Account.OpenAccount(1000.0);
    var account2 := new Account.OpenAccount(2000.0);
    combined := Account.Plus(account1, account2);

    var s := new Account.OpenSavings(5000.0, 3.0);
    var c := new Account.OpenChecking(1500.0);
    var t := new Account.OpenTrust(10000.0, 5.0);

    var ok := s.Deposit(6000.0);
    assert ok && s.Balance == 11180.0;
    ok := c.Deposit(6000.0);
    assert ok && c.Balance == 7500.0;
    ok := t.Deposit(6000.0);
    assert ok && t.Balance == 16350.0;

    ok := s.Withdraw(2000.0, currentYear);
    assert ok;
    ok := c.Withdraw(2000.0, currentYear);
    assert ok;
    ok := t.Withdraw(2000.0, currentYear);
    assert ok;

    savings, checking, trust, trustWithdrawals := s.Balance, c.Balance, t.Balance, t.WithdrawalCount;
  }
}
