/** The accounts as objects whose fields the operations update in place.
    A premium account is a basic account with an overdraft facility; the class
    records which kind it is and dispatches withdraw and close on it. */
module Accounts {
  import opened Numerals
  import opened Cards
  import opened AccountSpec

  datatype Option<T> = None | Some(value: T)

  /** The shared serial counter that numbers accounts; every account constructed
      with it takes the next number. */
  class SerialCounter {
    var count: nat

    constructor ()
      ensures count == 0
    {
      count := 0;
    }

    method Next() returns (n: nat)
      modifies this
      ensures n == old(count) + 1 && count == n
    {
      count := count + 1;
      n := count;
    }
  }

  /** The account numbers handed out to `n` accounts constructed one after another
      from a counter that stands at `count`. */
  function SerialsFrom(count: nat, n: nat): (r: seq<nat>)
    ensures |r| == n
    decreases n
  {
    if n == 0 then [] else [count + 1] + SerialsFrom(count + 1, n - 1)
  }

  /** Successive accounts get strictly increasing numbers, all above the counter's
      starting value, so no two of them share a number or a get_ac_num string. */
  lemma {:induction false} SerialsIncrease(count: nat, n: nat)
    ensures forall i :: 0 <= i < n ==> SerialsFrom(count, n)[i] > count
    ensures forall i, j :: 0 <= i < j < n ==> SerialsFrom(count, n)[i] < SerialsFrom(count, n)[j]
    decreases n
  {
    if n > 0 {
      SerialsIncrease(count + 1, n - 1);
    }
  }

  lemma {:induction false} SerialsAt(count: nat, n: nat, k: nat)
    requires k < n
    ensures SerialsFrom(count, n)[k] == count + 1 + k
    decreases n
  {
    if k > 0 {
      SerialsAt(count + 1, n - 1, k - 1);
    }
  }

  lemma SerialStringsDistinct(count: nat, n: nat, i: nat, j: nat)
    requires i < j < n
    ensures DecimalString(SerialsFrom(count, n)[i]) != DecimalString(SerialsFrom(count, n)[j])
  {
    SerialsIncrease(count, n);
    DecimalStringInjective(SerialsFrom(count, n)[i], SerialsFrom(count, n)[j]);
  }

  class Account {
    const isPremium: bool
    const name: string
    const acNum: nat
    var balance: int
    var overdraftLimit: int
    var overdraft: bool
    var card: Option<Card>

    /** A basic account has no overdraft facility: its overdraftLimit and overdraft
        fields exist only because both kinds share this class, and stay at 0 and false,
        so the limit can be subtracted from either kind's available balance. */
    ghost predicate Valid()
      reads this
    {
      !isPremium ==> overdraftLimit == 0 && !overdraft
    }

    /** The account's fields as a value of the state machine. */
    function Snapshot(): State
      reads this
    {
      if isPremium then PremiumState(balance, overdraftLimit, overdraft) else BasicState(balance)
    }

    /** BasicAccount(ac_name, opening_balance): the opening balance is taken as given. */
    constructor Basic(acName: string, openingBalance: int, serials: SerialCounter)
      modifies serials
      ensures Valid() && !isPremium && name == acName && card == None
      ensures Snapshot() == BasicState(openingBalance)
      ensures acNum == old(serials.count) + 1 && serials.count == acNum
    {
      var n := serials.Next();
      isPremium := false;
      acNum := n;
      name := acName;
      balance := openingBalance;
      overdraftLimit := 0;
      overdraft := false;
      card := None;
    }

    /** PremiumAccount(ac_name, opening_balance, initial_overdraft): neither the
        opening balance nor the initial limit is checked, and the flag starts clear. */
    constructor Premium(acName: string, openingBalance: int, initialOverdraft: int,
                        serials: SerialCounter)
      modifies serials
      ensures Valid() && isPremium && name == acName && card == None
      ensures Snapshot() == PremiumState(openingBalance, initialOverdraft, false)
      ensures acNum == old(serials.count) + 1 && serials.count == acNum
    {
      var n := serials.Next();
      isPremium := true;
      acNum := n;
      name := acName;
      balance := openingBalance;
      overdraftLimit := initialOverdraft;
      overdraft := false;
      card := None;
    }

    method Deposit(amount: int) returns (status: Status)
      requires Valid()
      modifies this`balance
      ensures Valid()
      ensures Step(Snapshot(), status) == AccountSpec.Deposit(old(Snapshot()), amount)
    {
      if amount > 0 {
        balance := balance + amount;
        status := Done;
      } else {
        status := Failed(NonPositiveAmount);
      }
    }

    method Withdraw(amount: int) returns (status: Status)
      requires Valid()
      modifies this`balance, this`overdraft
      ensures Valid()
      ensures Step(Snapshot(), status) == AccountSpec.Withdraw(old(Snapshot()), amount)
    {
      if !isPremium {
        if amount <= 0 {
          status := Failed(NonPositiveAmount);
        } else if amount > balance {
          status := Failed(ExceedsAvailable);
        } else {
          balance := balance - amount;
          status := Done;
        }
      } else {
        if amount <= 0 {
          status := Failed(NonPositiveAmount);
        } else if amount > balance + overdraftLimit {
          status := Failed(ExceedsAvailable);
        } else {
          balance := balance - amount;
          overdraft := balance < 0;
          status := Done;
        }
      }
    }

    /** close_account: the outcome of the inner withdrawal is discarded. */
    method CloseAccount() returns (status: Status)
      requires Valid()
      modifies this`balance, this`overdraft
      ensures Valid()
      ensures Step(Snapshot(), status) == Close(old(Snapshot()))
    {
      if isPremium && balance < 0 && balance >= -overdraftLimit {
        status := Failed(Overdrawn(-balance));
      } else {
        var _ := Withdraw(balance);
        status := Done;
      }
    }

    method SetOverdraftLimit(newLimit: int) returns (status: Status)
      requires Valid() && isPremium
      modifies this`overdraftLimit
      ensures Valid()
      ensures Step(Snapshot(), status) == AccountSpec.SetOverdraftLimit(old(Snapshot()), newLimit)
    {
      if newLimit >= 0 {
        overdraftLimit := newLimit;
        status := Done;
      } else {
        status := Failed(NegativeLimit);
      }
    }

    /** get_balance: the balance alone, which is the available balance less the
        overdraft limit (a basic account's limit staying at 0, by Valid). */
    function GetBalance(): (r: int)
      reads this
      requires Valid()
      ensures r == GetAvailableBalance() - overdraftLimit
    {
      balance
    }

    /** get_available_balance: what the next withdrawal may take. */
    function GetAvailableBalance(): (r: int)
      reads this
      requires Valid()
      ensures r == Available(Snapshot())
      ensures forall amount :: AccountSpec.Withdraw(Snapshot(), amount).status.Done? <==> 0 < amount <= r
    {
      if isPremium then balance + overdraftLimit else balance
    }

    /** get_ac_num: the account number as a decimal numeral, which reads back as the number. */
    function GetAcNum(): (s: string)
      ensures 1 <= |s| && IsDigits(s) && DecimalValue(s) == acNum
      ensures |s| > 1 ==> s[0] != '0'
    {
      DecimalRoundTrip(acNum);
      DecimalString(acNum)
    }

    /** issue_new_card: a card numbered from sixteen digit draws of the random source,
        expiring in today's month three years on; it replaces any earlier card. */
    method IssueNewCard(draws: seq<int>, today: Date) returns (issued: Card)
      requires |draws| == CardDigits && AreDigitDraws(draws)
      modifies this`card
      ensures |issued.number| == CardDigits && IsDigits(issued.number)
      ensures forall i :: 0 <= i < CardDigits ==> DigitValue(issued.number[i]) == draws[i]
      ensures issued.expiry == Expiry(today.month, (today.year + 3) % 100)
      ensures card == Some(issued)
    {
      issued := Card(CardNumber(draws), CardExpiry(today));
      card := Some(issued);
    }
  }

  /** A caller opening one basic account per name from one counter: the accounts
      get exactly the numbers SerialsFrom predicts, and the counter ends at the last. */
  method OpenBasicAccounts(names: seq<string>, serials: SerialCounter) returns (accounts: seq<Account>)
    modifies serials
    ensures |accounts| == |names| && serials.count == old(serials.count) + |names|
    ensures forall k :: 0 <= k < |names| ==>
              fresh(accounts[k]) && accounts[k].name == names[k] &&
              accounts[k].acNum == SerialsFrom(old(serials.count), |names|)[k]
  {
    accounts := [];
    var i := 0;
    while i < |names|
      invariant 0 <= i <= |names| && |accounts| == i
      invariant serials.count == old(serials.count) + i
      invariant forall k :: 0 <= k < i ==>
                  fresh(accounts[k]) && accounts[k].name == names[k] &&
                  accounts[k].acNum == old(serials.count) + 1 + k
    {
      var account := new Account.Basic(names[i], 0, serials);
      accounts := accounts + [account];
      i := i + 1;
    }
    forall k | 0 <= k < |names|
      ensures SerialsFrom(old(serials.count), |names|)[k] == old(serials.count) + 1 + k
    {
      SerialsAt(old(serials.count), |names|, k);
    }
  }

  /** What a caller can rely on from the contracts alone: the scenarios of the
      source's own tests, run on objects. */
  method TestScenario()
  {
    var serials := new SerialCounter();
    var basic := new Account.Basic("Mark Hamill", 1000, serials);
    var premium := new Account.Premium("Kate Hamill", 500, 1000, serials);
    assert basic.acNum == 1 && premium.acNum == 2;
    assert premium.GetAvailableBalance() == 1500;

    var status := basic.Withdraw(2000);
    assert status == Failed(ExceedsAvailable) && basic.GetBalance() == 1000;
    status := basic.CloseAccount();
    assert status == Done && basic.GetBalance() == 0;

    status := premium.Withdraw(800);
    assert premium.GetBalance() == -300 && premium.overdraft;
    status := premium.CloseAccount();
    assert status == Failed(Overdrawn(300)) && premium.GetBalance() == -300;
    status := premium.SetOverdraftLimit(2000);
    assert premium.overdraftLimit == 2000;

    var premium2 := new Account.Premium("Kate Hamill", 500, 1000, serials);
    status := premium2.Deposit(500);
    assert premium2.GetBalance() == 1000;
    var premium3 := new Account.Premium("Kate Hamill", 500, 1000, serials);
    status := premium3.Withdraw(300);
    assert premium3.GetBalance() == 200;
    var premium4 := new Account.Premium("Kate Hamill", 500, 1000, serials);
    status := premium4.Withdraw(2000);
    assert status == Failed(ExceedsAvailable) && premium4.GetBalance() == 500;
    var premium5 := new Account.Premium("Kate Hamill", 500, 1000, serials);
    status := premium5.Withdraw(1200);
    assert premium5.GetBalance() == -700 && premium5.overdraft;
  }
}
