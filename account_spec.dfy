/** The account state machine as values: what each operation of a basic or a
    premium (overdraft) account does to the account's fields and what it reports.
    Amounts are exact integers in minor units (pence). */
module AccountSpec {

  /** The fields an operation can change. A premium account adds an overdraft
      limit and a flag recording whether its last withdrawal left it overdrawn. */
  datatype State =
    | BasicState(balance: int)
    | PremiumState(balance: int, overdraftLimit: int, overdraft: bool)

  datatype Error =
    | NonPositiveAmount          // a deposit or withdrawal of zero or less
    | ExceedsAvailable           // a withdrawal larger than the available balance
    | NegativeLimit              // an overdraft limit below zero
    | Overdrawn(overdrawnBy: int)        // closing refused; carries the amount overdrawn

  datatype Status = Done | Failed(error: Error)

  /** What an operation leaves behind and what it reports. */
  datatype Step = Step(after: State, status: Status)

  /** The overdraft limit a state allows: none for a basic account. */
  function Limit(s: State): int {
    if s.PremiumState? then s.overdraftLimit else 0
  }

  /** get_available_balance: the funds a withdrawal may draw on. */
  function Available(s: State): (r: int)
    ensures r == s.balance + Limit(s)
  {
    match s
    case BasicState(b) => b
    case PremiumState(b, limit, _) => b + limit
  }

  /** deposit, shared by both kinds of account: only a positive amount is credited,
      and nothing but the balance ever changes. */
  function Deposit(s: State, amount: int): (r: Step)
    ensures r.status.Done? <==> amount > 0
    ensures r.status.Failed? ==> r.status.error == NonPositiveAmount
    ensures r.after.balance == s.balance + (if r.status.Done? then amount else 0)
    ensures r.after == s.(balance := r.after.balance)
  {
    if amount > 0 then Step(s.(balance := s.balance + amount), Done)
    else Step(s, Failed(NonPositiveAmount))
  }

  /** withdraw, with the guard and the bookkeeping of each kind of account. */
  function Withdraw(s: State, amount: int): (r: Step)
    ensures r.status.Done? <==> 0 < amount <= Available(s)
    ensures r.status.Failed? ==>
              r.after == s &&
              r.status.error == (if amount <= 0 then NonPositiveAmount else ExceedsAvailable)
    ensures r.status.Done? ==> r.after.balance == s.balance - amount && Available(r.after) >= 0
    ensures r.after.BasicState? == s.BasicState? && Limit(r.after) == Limit(s)
    ensures r.after.PremiumState? && r.status.Done? ==> r.after.overdraft == (r.after.balance < 0)
  {
    match s
    case BasicState(b) =>
      if amount <= 0 then Step(s, Failed(NonPositiveAmount))
      else if amount > b then Step(s, Failed(ExceedsAvailable))
      else Step(BasicState(b - amount), Done)
    case PremiumState(b, limit, _) =>
      if amount <= 0 then Step(s, Failed(NonPositiveAmount))
      else if amount > b + limit then Step(s, Failed(ExceedsAvailable))
      else
        var nb := b - amount;
        Step(PremiumState(nb, limit, nb < 0), Done)
  }

  /** close_account. A basic account withdraws its whole balance and always reports
      success. A premium account refuses while it is overdrawn within its limit;
      otherwise it withdraws its whole balance and reports success whether or not
      that withdrawal went through. No "closed" state is recorded. */
  function Close(s: State): (r: Step)
    ensures r.status.Failed? <==> s.PremiumState? && -s.overdraftLimit <= s.balance < 0
    ensures r.status.Failed? ==> r.after == s && r.status.error == Overdrawn(-s.balance) && -s.balance > 0
    ensures r.status.Done? ==>
              if 0 < s.balance <= Available(s) then
                r.after.balance == 0 && r.after.BasicState? == s.BasicState? &&
                Limit(r.after) == Limit(s) && (r.after.PremiumState? ==> !r.after.overdraft)
              else r.after == s
  {
    match s
    case BasicState(_) => Step(Withdraw(s, s.balance).after, Done)
    case PremiumState(b, limit, _) =>
      if b < 0 && b >= -limit then Step(s, Failed(Overdrawn(-b)))
      else Step(Withdraw(s, b).after, Done)
  }

  /** set_overdraft_limit (premium accounts only): a limit of zero or more replaces
      the old one, whatever the balance; nothing else changes. */
  function SetOverdraftLimit(s: State, newLimit: int): (r: Step)
    requires s.PremiumState?
    ensures r.status.Done? <==> newLimit >= 0
    ensures r.status.Failed? ==> r.status.error == NegativeLimit
    ensures r.after == s.(overdraftLimit := if r.status.Done? then newLimit else s.overdraftLimit)
  {
    if newLimit >= 0 then Step(s.(overdraftLimit := newLimit), Done)
    else Step(s, Failed(NegativeLimit))
  }

  // ---------------------------------------------------------------------------
  // Properties of the operations taken together

  /** Every operation of both kinds is governed by the same rule: a withdrawal goes
      through exactly when it is positive and within the available balance, and
      then takes the amount off the available balance. */
  lemma WithdrawAgainstAvailable(s: State, amount: int)
    ensures Withdraw(s, amount).status.Done? <==> 0 < amount <= Available(s)
    ensures Withdraw(s, amount).status.Done? ==>
              Available(Withdraw(s, amount).after) == Available(s) - amount
  {
  }

  /** A deposit followed by a withdrawal of the same amount restores the account's
      balance and limit, keeps its kind, and leaves a premium account's flag
      recording the sign of the balance. */
  lemma DepositThenWithdraw(s: State, amount: int)
    requires amount > 0
    ensures Withdraw(Deposit(s, amount).after, amount).status.Done? <==> Available(s) >= 0
    ensures Available(s) >= 0 ==>
              var t := Withdraw(Deposit(s, amount).after, amount).after;
              t.balance == s.balance && t.BasicState? == s.BasicState? && Limit(t) == Limit(s) &&
              (t.PremiumState? ==> t.overdraft == (t.balance < 0))
  {
  }

  /** An operation on an account, as a caller issues it. */
  datatype Op =
    | DepositOp(amount: int)
    | WithdrawOp(amount: int)
    | CloseOp
    | SetLimitOp(limit: int)

  /** set_overdraft_limit exists on premium accounts only. */
  predicate Supports(s: State, op: Op) {
    op.SetLimitOp? ==> s.PremiumState?
  }

  predicate SupportsAll(s: State, ops: seq<Op>) {
    forall i :: 0 <= i < |ops| ==> Supports(s, ops[i])
  }

  function Apply(s: State, op: Op): (t: State)
    requires Supports(s, op)
    ensures t.PremiumState? == s.PremiumState?
  {
    match op
    case DepositOp(amount) => Deposit(s, amount).after
    case WithdrawOp(amount) => Withdraw(s, amount).after
    case CloseOp => Close(s).after
    case SetLimitOp(limit) => SetOverdraftLimit(s, limit).after
  }

  /** The account after a sequence of operations, each applied to the result of the last. */
  function Run(s: State, ops: seq<Op>): (t: State)
    requires SupportsAll(s, ops)
    ensures t.PremiumState? == s.PremiumState?
    decreases |ops|
  {
    if ops == [] then s else Run(Apply(s, ops[0]), ops[1..])
  }

  /** A basic account opened with a non-negative balance never goes negative,
      whatever is done to it. */
  lemma {:induction false} BasicNeverNegative(s: State, ops: seq<Op>)
    requires s.BasicState? && s.balance >= 0
    requires SupportsAll(s, ops)
    ensures Run(s, ops).balance >= 0
    decreases |ops|
  {
    if ops != [] {
      var t := Apply(s, ops[0]);
      assert SupportsAll(t, ops[1..]);
      BasicNeverNegative(t, ops[1..]);
    }
  }

  /** The premium flag never misses an overdraft: a negative balance is always
      flagged, from an opening where it is. (The converse fails: see StaleOverdraftFlag.) */
  predicate FlagCoversOverdraft(s: State) {
    s.PremiumState? && (s.balance < 0 ==> s.overdraft)
  }

  lemma {:induction false} OverdraftAlwaysFlagged(s: State, ops: seq<Op>)
    requires FlagCoversOverdraft(s)
    ensures SupportsAll(s, ops) && FlagCoversOverdraft(Run(s, ops))
    decreases |ops|
  {
    if ops != [] {
      var t := Apply(s, ops[0]);
      assert FlagCoversOverdraft(t);
      OverdraftAlwaysFlagged(t, ops[1..]);
    }
  }

  /** A premium balance that starts within its overdraft limit stays within it under
      deposits, withdrawals and closings. (Changing the limit can break this: see
      LoweredLimitLeavesOverdraftOutside.) */
  predicate WithinLimit(s: State) {
    s.PremiumState? && s.balance >= -s.overdraftLimit
  }

  predicate KeepsLimit(ops: seq<Op>) {
    forall i :: 0 <= i < |ops| ==> !ops[i].SetLimitOp?
  }

  lemma {:induction false} StaysWithinLimit(s: State, ops: seq<Op>)
    requires WithinLimit(s) && KeepsLimit(ops)
    ensures SupportsAll(s, ops) && WithinLimit(Run(s, ops))
    decreases |ops|
  {
    if ops != [] {
      var t := Apply(s, ops[0]);
      assert WithinLimit(t);
      assert KeepsLimit(ops[1..]);
      StaysWithinLimit(t, ops[1..]);
    }
  }

  /** Deposits never touch the premium flag: a deposit that brings an overdrawn
      account back into credit leaves it flagged as overdrawn. */
  lemma StaleOverdraftFlag(s: State, amount: int)
    requires s.PremiumState? && s.overdraft && amount > -s.balance
    ensures Deposit(s, amount).after.balance > 0 && Deposit(s, amount).after.overdraft
  {
  }

  /** Lowering the limit below the current overdraft is accepted, and afterwards a
      close neither refuses nor clears the overdraft: it reports success and leaves
      the balance where it was. */
  lemma LoweredLimitLeavesOverdraftOutside(s: State, newLimit: int)
    requires s.PremiumState? && 0 <= newLimit < -s.balance
    ensures SetOverdraftLimit(s, newLimit).status.Done?
    ensures !WithinLimit(SetOverdraftLimit(s, newLimit).after)
    ensures Close(SetOverdraftLimit(s, newLimit).after) ==
              Step(SetOverdraftLimit(s, newLimit).after, Done)
  {
  }

  /** Closing leaves the account open for business: a closed account still takes
      deposits, and closing a second time is a no-op that reports success. */
  lemma CloseIsNotTerminal(s: State, amount: int)
    requires Close(s).status.Done? && amount > 0
    ensures Deposit(Close(s).after, amount).status.Done?
    ensures Close(Close(s).after) == Step(Close(s).after, Done)
  {
  }

  /** The scenarios the source's own tests check, replayed on the model. */
  lemma TestScenarios()
    ensures Deposit(BasicState(1000), 500).after == BasicState(1500)
    ensures Withdraw(BasicState(1000), 300).after == BasicState(700)
    ensures Withdraw(BasicState(1000), 2000) == Step(BasicState(1000), Failed(ExceedsAvailable))
    ensures Close(BasicState(1000)) == Step(BasicState(0), Done)
    ensures Available(PremiumState(500, 1000, false)) == 1500
    ensures Deposit(PremiumState(500, 1000, false), 500).after == PremiumState(1000, 1000, false)
    ensures Withdraw(PremiumState(500, 1000, false), 300).after == PremiumState(200, 1000, false)
    ensures Withdraw(PremiumState(500, 1000, false), 2000) ==
              Step(PremiumState(500, 1000, false), Failed(ExceedsAvailable))
    ensures Withdraw(PremiumState(500, 1000, false), 1200).after == PremiumState(-700, 1000, true)
    ensures Close(Withdraw(PremiumState(500, 1000, false), 800).after).status == Failed(Overdrawn(300))
    ensures SetOverdraftLimit(PremiumState(500, 1000, false), 2000).after.overdraftLimit == 2000
  {
  }
}
