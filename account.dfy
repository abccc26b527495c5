/**
 * A user's record as the bank owns it. The controller holds a reference to
 * it and changes it in place through the five mutators below, which are
 * modelled from how the controller calls them and what the tests observe.
 */
module Accounts {
  import opened Rules

  class Account {
    const id: string
    const pin: string
    var balance: real
    var failedAttempts: nat
    var locked: bool

    /** The fields the controller works with, as a value. */
    function View(): AccountView
      reads this
    {
      AccountView(pin, balance, failedAttempts, locked)
    }

    /** A new record starts with no failed attempts and an unlocked card. */
    constructor (id: string, pin: string, balance: real)
      ensures this.id == id
      ensures View() == AccountView(pin, balance, 0, false)
    {
      this.id := id;
      this.pin := pin;
      this.balance := balance;
      failedAttempts := 0;
      locked := false;
    }

    /** Adds `amount` to the balance; the caller checks that it is positive. */
    method Deposit(amount: real)
      modifies this
      ensures View() == old(View()).(balance := old(balance) + amount)
    {
      balance := balance + amount;
    }

    /** Takes `amount` from the balance; the caller checks that it is covered. */
    method Withdraw(amount: real)
      modifies this
      ensures View() == old(View()).(balance := old(balance) - amount)
    {
      balance := balance - amount;
    }

    method ResetFailedAttempts()
      modifies this
      ensures View() == old(View()).(failedAttempts := 0)
    {
      failedAttempts := 0;
    }

    method IncrementFailedAttempts()
      modifies this
      ensures View() == old(View()).(failedAttempts := old(failedAttempts) + 1)
    {
      failedAttempts := failedAttempts + 1;
    }

    method LockCard()
      modifies this
      ensures View() == old(View()).(locked := true)
    {
      locked := true;
    }
  }
}
