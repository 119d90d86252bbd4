# Bank accounts: a verified model

This project models the account state machine of the `bank_accounts` repository:
a basic account holding a balance, and a premium account that adds a mutable
overdraft limit and an "overdrawn" flag. Both offer deposit, withdraw, close and
balance queries; the premium account also lets the overdraft limit be changed.
Each new account takes the next number from a shared serial counter.
Amounts are exact integers in minor units (pence).

The model has two layers:

- `AccountSpec` (account_spec.dfy) describes each operation as a function from the account's
  fields to a `Step`: the fields afterwards and a `Status` (`Done`, or `Failed`
  with an `Error`). The error kinds are a non-positive amount, an amount above the
  available balance, a negative limit, and a refused close carrying the amount
  overdrawn. It also runs sequences of operations (`Run`) and proves invariants over them.
- `Accounts` (accounts.dfy) holds the objects. `Account` has the source's fields
  (`balance`, `overdraftLimit`, `overdraft`, plus the constant `name` and `acNum`) and a
  constant `isPremium` that stands for the subclass: `Withdraw` and `CloseAccount`
  dispatch on it the way the subclass overrides them, and `Deposit` is shared.
  Every method updates the fields in place, its frame names exactly the fields it may
  change, and its `ensures` equates the new fields and the reported status with the
  `AccountSpec` step from the old fields. `SerialCounter` is the account-number counter,
  passed to the constructors instead of living in a class attribute.
- `Numerals` (numerals.dfy) models Python's `str(n)` and `int(s)` on non-negative integers,
  which the account number and the card expiry go through. `Cards` (cards.dfy) builds
  the card number and expiry from a digit source and a date passed in as parameters.

The quirks of the source are kept and proved rather than repaired:

- Closing records no closed state, so a closed account still takes deposits.
- A deposit never clears the premium overdraft flag.
- The limit may be lowered below the current overdraft. A premium close then reports
  success although its inner withdrawal of a negative amount fails and the balance stays negative.
- Constructors accept any opening balance and any initial limit.

## Model

| member | source | states |
|---|---|---|
| `Numerals.DigitChar` | accounts.py:98 | the numeral character of a digit 0..9 reads back as that digit |
| `Numerals.DecimalString` | accounts.py:88 | `str(n)` is a non-empty string of digits with no leading zero whose last character is the digit `n % 10` |
| `Numerals.DecimalValue` | accounts.py:106 | `int(s)` on a string of digits: its value mod 10 is the last digit; the empty string is only the base of the recursion (Python's `int('')` raises ValueError, and only non-empty numerals reach it) |
| `Numerals.DecimalRoundTrip` | accounts.py:88 | `int(str(n)) == n` for every non-negative `n` |
| `Numerals.DecimalStringInjective` | accounts.py:83-88 | different account numbers give different `get_ac_num` strings |
| `Numerals.LastTwo` | accounts.py:105 | Python's `s[-2:]` is the suffix of length `min(2, len(s))` |
| `Numerals.LastTwoDigits` | accounts.py:104-106 | `int(str(n)[-2:]) == n % 100`: the last two characters of a numeral are digits and read back as `n` mod 100 |
| `Cards.CardNumber` | accounts.py:94-98 | joining the numerals of the digit draws gives a string of the same length whose i-th character is the i-th draw |
| `Cards.CardExpiry` | accounts.py:99-106 | the expiry is today's month and `(year + 3) % 100`, although it is computed by cutting a numeral |
| `AccountSpec.Available` | accounts.py:157-162 | the available balance is the balance plus the overdraft limit, which is zero for a basic account (accounts.py:73-77) |
| `AccountSpec.Deposit` | accounts.py:29-40 | a deposit succeeds iff the amount is positive, and then raises the balance by exactly that amount; otherwise it reports a non-positive amount; no field other than the balance ever changes, so the premium limit and flag are untouched |
| `AccountSpec.Withdraw` | accounts.py:41-52 | for both kinds (premium at accounts.py:126-137), a withdrawal succeeds iff `0 < amount <= available`; then the balance drops by exactly the amount, the available balance stays non-negative and a premium flag equals `balance < 0`; a failure leaves everything unchanged and says which guard failed; the kind and the limit never change |
| `AccountSpec.Close` | accounts.py:138-148 | closing is refused iff the account is premium and `-limit <= balance < 0`, with the state unchanged and the magnitude `-balance > 0` reported; otherwise it reports success and zeroes the balance (clearing a premium flag) when `0 < balance <= available`, and leaves the state unchanged when that inner withdrawal fails |
| `AccountSpec.SetOverdraftLimit` | accounts.py:149-156 | the new limit is stored iff it is non-negative, else a negative-limit error; the balance and flag are never touched |
| `AccountSpec.WithdrawAgainstAvailable` | accounts.py:126-137 | for both kinds, a withdrawal goes through exactly when `0 < amount <=` the available balance, and then lowers the available balance by the amount |
| `AccountSpec.DepositThenWithdraw` | accounts.py:36-51 | after a positive deposit, withdrawing the same amount succeeds iff the available balance was non-negative, and restores the balance and the limit, keeps the kind, and leaves a premium flag equal to `balance < 0` |
| `AccountSpec.BasicNeverNegative` | accounts.py:46-58 | a basic account opened with a non-negative balance stays non-negative under any sequence of deposits, withdrawals and closes |
| `AccountSpec.OverdraftAlwaysFlagged` | accounts.py:130-137 | from a state where a negative balance is flagged, every sequence of premium operations keeps a negative balance flagged |
| `AccountSpec.StaysWithinLimit` | accounts.py:130-148 | a premium balance within `-limit` stays within it under any sequence of deposits, withdrawals and closes |
| `AccountSpec.StaleOverdraftFlag` | accounts.py:36-37 | a deposit that brings a flagged premium account back into credit leaves the flag set |
| `AccountSpec.LoweredLimitLeavesOverdraftOutside` | accounts.py:143-156 | lowering the limit below the current overdraft is accepted and breaks `balance >= -limit`; a close then reports success and changes nothing |
| `AccountSpec.CloseIsNotTerminal` | accounts.py:53-58 | after a successful close a positive deposit still succeeds, and closing again reports success and changes nothing |
| `AccountSpec.TestScenarios` | accounts.py:176-228 | every unit-test scenario of the source (basic and premium creation, deposit, withdraw, over-balance withdraw, overdraft withdraw, close, limit change) gives the expected balance, flag, refusal magnitude (300) or limit |
| `Accounts.SerialCounter.constructor` | accounts.py:11 | the counter starts at zero |
| `Accounts.SerialCounter.Next` | accounts.py:19-20 | the counter advances by one and the new value is the number handed out |
| `Accounts.SerialsIncrease` | accounts.py:11-20 | accounts constructed one after another get strictly increasing numbers, all above the counter's starting value |
| `Accounts.SerialsAt` | accounts.py:19-20 | the k-th of successively constructed accounts gets number `count + 1 + k` |
| `Accounts.OpenBasicAccounts` | accounts.py:11-22 | accounts constructed in turn from one counter get exactly the numbers `SerialsFrom` lists, and the counter advances by their number |
| `Accounts.SerialStringsDistinct` | accounts.py:83-88 | no two of those accounts share a `get_ac_num` string |
| `Accounts.Account.Basic` | accounts.py:12-22 | a basic account takes the counter's next number, the given name and the opening balance unchecked, with no overdraft facility and no card |
| `Accounts.Account.Premium` | accounts.py:114-120 | a premium account takes the next number, the unchecked opening balance and initial limit, and a clear overdraft flag |
| `Accounts.Account.Deposit` | accounts.py:29-40 | updates the balance in place exactly as `AccountSpec.Deposit` says, for both kinds, and changes no other field |
| `Accounts.Account.Withdraw` | accounts.py:126-137 | updates the balance (and a premium flag) in place exactly as `AccountSpec.Withdraw` says, dispatching on the kind (basic at accounts.py:41-52) |
| `Accounts.Account.CloseAccount` | accounts.py:53-58 | calls the account's own withdraw on the whole balance, discarding its outcome, with the result `AccountSpec.Close` gives (premium at accounts.py:138-148) |
| `Accounts.Account.SetOverdraftLimit` | accounts.py:153-156 | changes only the limit, exactly as `AccountSpec.SetOverdraftLimit` says |
| `Accounts.Account.GetBalance` | accounts.py:68-72 | the balance is the available balance less the overdraft limit; a basic account's limit field stays 0 by the class invariant `Valid` |
| `Accounts.Account.GetAvailableBalance` | accounts.py:73-77 | the available balance, overridden for premium at accounts.py:157-162; a withdrawal succeeds exactly when `0 < amount <=` this value |
| `Accounts.Account.GetAcNum` | accounts.py:83-88 | the account number as a non-empty decimal numeral with no leading zero that reads back as the number |
| `Accounts.Account.IssueNewCard` | accounts.py:59-67 | the card holds sixteen digits equal to the draws, expires in today's month with year `(year + 3) % 100`, and replaces the stored card |

## Left out

- Display strings: `__str__`, `print_balance` and the text of every returned message (accounts.py:23-28, 89-93, 121-125, 163-171). Outcomes are the `Status` values instead. The refusal at accounts.py:145 is formatted without two decimals, so it renders "£300" where the test at accounts.py:224 expects "£300.00". The model keeps only the reported magnitude.
- Basic `close_account` returns `True` and premium `close_account` returns a message; both are modelled as `Status`, with `Done` for `True` and "Account closed.".
- `set_overdraft_limit` returns `None` on success; the model reports `Done`.
- Withdraw's two failure branches return the same text in the source. The model tells them apart by error kind.
- `get_name`: the name is the constant field `name`, which needs no getter.
- Floating-point amounts: amounts are exact integers, so rounding is not modelled.
- Randomness and the clock: `random.randint` and `datetime.date.today` become the parameters `draws` and `today` of `IssueNewCard`. Nothing about how the digits are distributed is modelled.
- The hidden class attribute `serial_acc_counter` becomes an explicit `SerialCounter` passed to the constructors. Sharing one counter across all accounts is up to the caller.
- Calling `set_overdraft_limit` on a basic account raises AttributeError in Python, because that method does not exist there. The model makes it a precondition (`isPremium`).
- The `unittest` harness (accounts.py:173-231) is not modelled as code. Its scenarios are restated as `AccountSpec.TestScenarios` and `Accounts.TestScenario`.
- The class docstring says numbering starts at 0. The code increments before assigning, so the first account is number 1; the model follows the code.
- A close records no closed state and leaves a negative balance in place; the model keeps both.
