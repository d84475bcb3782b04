/** What the rules guarantee over any sequence of calls on one account. */
module AccountHistory {
  import opened AccountRules

  /** One call on an account: a deposit, or a withdrawal made in `year`. */
  datatype Op = DepositOp(amount: real) | WithdrawOp(amount: real, year: int)

  /** The outcome of one call. */
  function Apply(s: State, op: Op): Outcome
  {
    match op
    case DepositOp(amount) => Deposit(s, amount)
    case WithdrawOp(amount, year) => Withdraw(s, amount, year)
  }

  /** The state after the calls `ops`, made in order. */
  function Run(s: State, ops: seq<Op>): State
    decreases |ops|
  {
    if ops == [] then s else Run(Apply(s, ops[0]).after, ops[1..])
  }

  /** How many of the calls `ops` are withdrawals that succeed. */
  function Withdrawals(s: State, ops: seq<Op>): nat
    decreases |ops|
  {
    if ops == [] then 0
    else
      var r := Apply(s, ops[0]);
      (if ops[0].WithdrawOp? && r.ok then 1 else 0) + Withdrawals(r.after, ops[1..])
  }

  /** Every withdrawal among `ops` is made in `year`. */
  predicate AllInYear(ops: seq<Op>, year: int)
  {
    forall i :: 0 <= i < |ops| ==> ops[i].WithdrawOp? ==> ops[i].year == year
  }

  /** Dropping the first call keeps every withdrawal in `year`. */
  lemma AllInYearTail(ops: seq<Op>, year: int)
    requires ops != [] && AllInYear(ops, year)
    ensures AllInYear(ops[1..], year)
    ensures ops[0].WithdrawOp? ==> ops[0].year == year
  {
  }

  /** No call changes what kind of account it is or its interest rate. */
  lemma {:induction false} RunKeepsKindAndRate(s: State, ops: seq<Op>)
    ensures Run(s, ops).kind == s.kind && Run(s, ops).interestRate == s.interestRate
    decreases |ops|
  {
    if ops != [] {
      RunKeepsKindAndRate(Apply(s, ops[0]).after, ops[1..]);
    }
  }

  /** The withdrawal counter stays between 0 and the yearly cap, whatever the calls. */
  lemma {:induction false} RunKeepsCountInRange(s: State, ops: seq<Op>)
    requires CountInRange(s)
    ensures CountInRange(Run(s, ops))
    decreases |ops|
  {
    if ops != [] {
      RunKeepsCountInRange(Apply(s, ops[0]).after, ops[1..]);
    }
  }

  /** One call keeps a non-negative balance non-negative, provided the interest rate
      does not fall below -100 percent (the source does not check the rate). */
  lemma ApplyKeepsBalanceNonNegative(s: State, op: Op)
    requires s.balance >= 0.0 && s.interestRate >= -100.0
    ensures Apply(s, op).after.balance >= 0.0
  {
    if op.DepositOp? && op.amount > 0.0 {
      InterestBounded(op.amount, s.interestRate);
    }
  }

  /** Interest at a rate of at least -100 percent never takes back more than the deposit. */
  lemma InterestBounded(amount: real, rate: real)
    requires amount > 0.0 && rate >= -100.0
    ensures amount + Interest(amount, rate) >= 0.0
  {
    assert amount * (rate + 100.0) >= 0.0;
    assert amount + Interest(amount, rate) == amount * (rate + 100.0) / 100.0;
  }

  /** A non-negative balance stays non-negative over any sequence of calls. */
  lemma {:induction false} RunKeepsBalanceNonNegative(s: State, ops: seq<Op>)
    requires s.balance >= 0.0 && s.interestRate >= -100.0
    ensures Run(s, ops).balance >= 0.0
    decreases |ops|
  {
    if ops != [] {
      var r := Apply(s, ops[0]);
      ApplyKeepsBalanceNonNegative(s, ops[0]);
      RunKeepsBalanceNonNegative(r.after, ops[1..]);
    }
  }

  /** From a non-negative balance the base withdrawal inside `TrustAccount.Withdraw`
      cannot fail: a trust withdrawal succeeds exactly when both caps allow it. */
  lemma TrustWithdrawOnlyCapsReject(s: State, amount: real, currentYear: int)
    requires s.balance >= 0.0
    ensures TrustWithdraw(s, amount, currentYear).ok <==>
              Rollover(s, currentYear).withdrawalCount < MaxWithdrawals && amount <= s.balance * MaxWithdrawalFraction
  {
  }

  /** Once the stored year has reached `year`, the withdrawals made in `year` that
      can still succeed are at most what the yearly cap has left. */
  lemma {:induction false} CapWithinYear(s: State, ops: seq<Op>, year: int)
    requires s.kind == Trust && CountInRange(s)
    requires s.lastWithdrawalYear >= year
    requires AllInYear(ops, year)
    ensures Withdrawals(s, ops) <= MaxWithdrawals - s.withdrawalCount
    decreases |ops|
  {
    if ops != [] {
      var r := Apply(s, ops[0]);
      AllInYearTail(ops, year);
      CapWithinYear(r.after, ops[1..], year);
    }
  }

  /** Within one calendar year at most three withdrawals of a trust account succeed,
      whatever its counter and stored year were, and whatever deposits come between
      them: a fourth attempt in that year fails, whatever its amount. */
  lemma {:induction false} AtMostThreeWithdrawalsPerYear(s: State, ops: seq<Op>, year: int)
    requires s.kind == Trust && CountInRange(s)
    requires AllInYear(ops, year)
    ensures Withdrawals(s, ops) <= MaxWithdrawals
    decreases |ops|
  {
    if s.lastWithdrawalYear >= year {
      CapWithinYear(s, ops, year);
    } else if ops != [] {
      var r := Apply(s, ops[0]);
      AllInYearTail(ops, year);
      if ops[0].WithdrawOp? {
        CapWithinYear(r.after, ops[1..], year);
      } else {
        AtMostThreeWithdrawalsPerYear(r.after, ops[1..], year);
      }
    }
  }

  /** The new year clears the counter before the cap is checked: a trust account that
      used up its cap in an earlier year can withdraw again, within the size cap. */
  lemma NewYearReopensCap(s: State, amount: real, currentYear: int)
    requires s.kind == Trust && s.balance >= 0.0
    requires s.lastWithdrawalYear < currentYear
    requires amount <= s.balance * MaxWithdrawalFraction
    ensures TrustWithdraw(s, amount, currentYear).ok
    ensures TrustWithdraw(s, amount, currentYear).after.withdrawalCount == 1
  {
  }
}
