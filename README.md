# ATM session controller — a verified Dafny model

This project models the ATM controller of a small Java banking exercise
(`src/main/java/ATM.java`). The controller holds at most one user at a time
(`currentUser`). It asks a bank collaborator whether a card is locked and
which account an id belongs to. It then changes the held account in place:

- `enterPin` updates the failed-attempt counter and the lock flag;
- `deposit` and `withdraw` update the balance.

Files:

- `rules.dfy` (module `Rules`): the held account's fields as a value
  (`AccountView`). It has one function per account operation (`EnterPin`,
  `DepositInto`, `WithdrawFrom`), and `Serve`/`Run` for serving a sequence of
  requests. Lemmas cover lockout after three wrong PINs, balance safety, the
  lock never being undone, the PIN never changing, a ledger equation, and
  deposit and withdrawal undoing each other.
- `account.dfy` (module `Accounts`): class `Account`, the user's mutable
  record. Its mutators are modelled from how the controller calls them and
  from what the tests observe, because the user class's source is not
  available.
- `bank.dfy` (module `Banks`): the bank collaborator as a value. It holds a
  set of locked ids and a map from id to `Account`. These two are independent:
  the model does not assume that an id in the set belongs to an account whose
  `locked` flag is set, just as the test doubles do not.
- `atm.dfy` (module `AtmController`): class `Atm`. `EnterPin`, `Deposit` and
  `Withdraw` promise that the held record's new state is what the matching
  `Rules` function computes; `InsertCard`, `CheckBalance`, `EndSession` and
  `GetBankName` state their effect directly. Each method's `modifies` clause
  says that nothing else changes. The client methods `Scenario…` use only
  these contracts. `ScenarioDepositThenOverdraw` and `ScenarioThreeWrongPins`
  replay the scenarios of the tests (deposit, withdrawal with too little and
  with a zero amount, balance inquiry; three wrong PINs). The other three
  check behaviour the tests do not exercise: a locked card, the end of a
  session, and what a second card insertion does to a held session.

Behaviour kept as the code has it, where a reader might expect otherwise:

- The failed-attempt counter is not capped at 3. Further wrong PINs during the
  same session keep counting (`Rules.WrongPinsCount`).
- `enterPin` never looks at the lock flag. A correct PIN entered after the
  card was locked in the same session is still accepted
  (`Rules.PinCheckIgnoresLock`).
- Holding a user is enough for `checkBalance`, `deposit` and `withdraw`,
  whether or not a PIN was accepted.
- Inserting a card the bank reports locked returns false but leaves any
  earlier session open (`AtmController.Atm.InsertCard`). The user held before
  can still enter a PIN and withdraw
  (`ScenarioLockedCardKeepsEarlierSession`). Inserting an unknown card, by
  contrast, ends the earlier session (`ScenarioUnknownCardEndsSession`).

## Model

| member | source | states |
|---|---|---|
| Rules.EnterPin | src/main/java/ATM.java:21-33 | accepted iff the PIN matches exactly; the PIN and the balance are untouched and a lock is never undone; a correct PIN clears the counter from any value and leaves the lock; a wrong PIN adds exactly one and locks exactly when the new count is at least 3, otherwise leaving the lock as it was |
| Rules.DepositInto | src/main/java/ATM.java:40-47 | a positive amount is added exactly; a zero or negative amount changes nothing; the balance never decreases; the PIN, counter and lock are untouched |
| Rules.WithdrawFrom | src/main/java/ATM.java:49-57 | pays iff 0 < amount <= balance; on payment the balance drops by exactly the amount, otherwise nothing changes; a non-negative balance stays non-negative |
| Rules.WithdrawUndoesDeposit | src/main/java/ATM.java:40-57 | on a non-negative balance, withdrawing what was just deposited succeeds and restores the record |
| Rules.DepositUndoesWithdraw | src/main/java/ATM.java:40-57 | depositing what a successful withdrawal paid out restores the record |
| Rules.PinCheckIgnoresLock | src/main/java/ATM.java:18-23 | the correct PIN is accepted on a locked record, and the record stays locked |
| Rules.Serve | src/main/java/ATM.java:18-57 | any one operation on the held account keeps the PIN, never unlocks, keeps a non-negative balance non-negative, and PIN entry and balance inquiry move no money |
| Rules.RunKeepsBalanceNonNegative | src/main/java/ATM.java:40-57 | no sequence of operations takes a non-negative balance below zero |
| Rules.RunNeverUnlocks | src/main/java/ATM.java:24-33 | once locked, a record stays locked through any sequence of operations |
| Rules.RunKeepsPin | src/main/java/ATM.java:18-57 | no sequence of operations changes the stored PIN |
| Rules.RunLedger | src/main/java/ATM.java:40-57 | one reply per request, and the final balance is the initial one plus every positive deposit minus every withdrawal answered true |
| Rules.WrongPinsCount | src/main/java/ATM.java:24-33 | n wrong PINs in a row are all refused, add exactly n to the counter, move no money, and leave the record locked iff it was locked or the count reached 3 |
| Rules.ThirdWrongPinLocks | src/main/java/ATM.java:24-33 | from a fresh unlocked record, two wrong PINs leave it unlocked; the third is refused and locks it |
| Accounts.Account.constructor | src/test/java/BankTest.java:44-52 | a new record holds the given id, PIN and balance, no failed attempts and an unlocked card |
| Accounts.Account.Deposit | src/test/java/BankTest.java:89-90 | adds the amount to the balance and changes nothing else |
| Accounts.Account.Withdraw | src/test/java/BankTest.java:115-116 | subtracts the amount from the balance and changes nothing else |
| Accounts.Account.ResetFailedAttempts | src/main/java/ATM.java:22 | sets the counter to 0 and changes nothing else |
| Accounts.Account.IncrementFailedAttempts | src/main/java/ATM.java:25 | adds one to the counter and changes nothing else |
| Accounts.Account.LockCard | src/test/java/BankTest.java:51-52 | sets the lock flag and changes nothing else |
| AtmController.Atm.constructor | src/main/java/ATM.java:5-7 | the controller keeps the bank and holds no user |
| AtmController.Atm.InsertCard | src/main/java/ATM.java:9-16 | a card reported locked is refused and the held user is left as it was; otherwise the held user becomes the bank's answer for the id, so an unknown id clears a prior session; the result is true iff the card is not reported locked and the id has an account |
| AtmController.Atm.EnterPin | src/main/java/ATM.java:18-34 | with no held user, refuses and changes nothing; otherwise the result and the held record's new state are those of `Rules.EnterPin`; no other object changes |
| AtmController.Atm.CheckBalance | src/main/java/ATM.java:36-38 | the held user's balance, or 0 when no user is held; changes nothing |
| AtmController.Atm.Deposit | src/main/java/ATM.java:40-47 | with a held user, the record becomes `Rules.DepositInto` of it; with none, nothing changes |
| AtmController.Atm.Withdraw | src/main/java/ATM.java:49-57 | false with no held user; otherwise the result and the record's new state are those of `Rules.WithdrawFrom`; nothing else changes |
| AtmController.Atm.EndSession | src/main/java/ATM.java:59-62 | no user is held afterwards, whatever the state before, so repeating it changes nothing and a following PIN entry is refused |
| AtmController.Atm.GetBankName | src/main/java/ATM.java:64-66 | returns the bank's name |

## Left out

- Console messages (`System.out.println`) are left out. This includes the "attempts left" figure, which is 3 minus the counter. They are informational output only.
- The balance and the amounts are `real`, not IEEE `double`. Rounding, NaN, infinities and negative zero are not modelled. (With NaN, `amount > 0` is false, so such a call is refused.)
- The source of the user class and of the bank interface is not available. `Account` and `Bank` model them only from the controller's calls and the tests. The `Account` mutators are plain updates; any guard of their own, or any other behaviour they have, is not modelled.
- The failed-attempt counter is an unbounded integer. The width of the user record's field is not known, and any wrap-around (a Java `int` would wrap after 2^31 − 1 wrong PINs) is not modelled; `Rules.WrongPinsCount` is stated for the unbounded counter.
- The bank is a fixed set of locked ids plus a fixed id-to-account map. A bank that changes between calls, or a lookup that fails, is not modelled.
- Null strings (a null PIN or id) are not modelled. Strings are plain character sequences compared exactly.
- Concurrent use of one controller or one account is not modelled. The source is single-threaded.
