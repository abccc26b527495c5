/**
 * The ATM session controller. It holds at most one user's account at a
 * time (`currentUser`); holding it is all that `checkBalance`, `deposit`
 * and `withdraw` require, whether or not a PIN was accepted.
 */
module AtmController {
  import opened Rules
  import opened Accounts
  import opened Banks

  class Atm {
    const bank: Bank
    var currentUser: Account?

    constructor (bank: Bank)
      ensures this.bank == bank && currentUser == null
    {
      this.bank := bank;
      currentUser := null;
    }

    /**
     * A card the bank reports locked is refused and the session is left as
     * it was. Otherwise the session now holds whatever the bank finds for
     * the id, so an unknown id ends any earlier session.
     */
    method InsertCard(userId: string) returns (found: bool)
      modifies this
      ensures bank.IsCardLocked(userId) ==> !found && currentUser == old(currentUser)
      ensures !bank.IsCardLocked(userId) ==> currentUser == bank.GetUserById(userId)
      ensures found <==> !bank.IsCardLocked(userId) && userId in bank.users
    {
      if bank.IsCardLocked(userId) {
        return false;
      }
      currentUser := bank.GetUserById(userId);
      found := currentUser != null;
    }

    /**
     * Without a held user nothing happens and the PIN is refused. With one,
     * the held record becomes what `Rules.EnterPin` computes.
     */
    method EnterPin(pin: string) returns (accepted: bool)
      modifies currentUser
      ensures currentUser == null ==> !accepted
      ensures currentUser != null ==>
        var o := Rules.EnterPin(old(currentUser.View()), pin);
        accepted == o.accepted && currentUser.View() == o.after
    {
      if currentUser == null {
        return false;
      }
      if currentUser.pin == pin {
        currentUser.ResetFailedAttempts();
        return true;
      }
      currentUser.IncrementFailedAttempts();
      if currentUser.failedAttempts >= MaxPinAttempts {
        currentUser.LockCard();
      }
      return false;
    }

    /** The held user's balance, or 0 when no user is held. */
    method CheckBalance() returns (balance: real)
      ensures currentUser != null ==> balance == currentUser.balance
      ensures currentUser == null ==> balance == 0.0
    {
      balance := if currentUser != null then currentUser.balance else 0.0;
    }

    /** With a held user the record becomes what `Rules.DepositInto` computes. */
    method Deposit(amount: real)
      modifies currentUser
      ensures currentUser != null ==> currentUser.View() == DepositInto(old(currentUser.View()), amount)
    {
      if currentUser != null && amount > 0.0 {
        currentUser.Deposit(amount);
      }
    }

    /**
     * Pays out only with a held user, a positive amount and a balance that
     * covers it; the record becomes what `Rules.WithdrawFrom` computes.
     */
    method Withdraw(amount: real) returns (paid: bool)
      modifies currentUser
      ensures currentUser == null ==> !paid
      ensures currentUser != null ==>
        var o := WithdrawFrom(old(currentUser.View()), amount);
        paid == o.paid && currentUser.View() == o.after
    {
      if currentUser != null && amount > 0.0 && currentUser.balance >= amount {
        currentUser.Withdraw(amount);
        return true;
      }
      return false;
    }

    /** Ends the session unconditionally. */
    method EndSession()
      modifies this
      ensures currentUser == null
    {
      currentUser := null;
    }

    method GetBankName() returns (name: string)
      ensures name == bank.name
    {
      name := bank.name;
    }
  }

  // ---------------------------------------------------------------------
  // Client scenarios: what a caller can conclude from the contracts alone
  // ---------------------------------------------------------------------

  method ScenarioDepositThenOverdraw()
  {
    var user := new Account("123", "1234", 1000.0);
    var atm := new Atm(Bank({}, map["123" := user], "Nordea"));
    var ok := atm.InsertCard("123");
    assert ok;
    ok := atm.EnterPin("1234");
    assert ok;
    atm.Deposit(500.0);
    assert user.balance == 1500.0;
    ok := atm.Withdraw(2000.0);
    assert !ok && user.balance == 1500.0;
    ok := atm.Withdraw(500.0);
    assert ok && user.balance == 1000.0;
    atm.Deposit(0.0);
    ok := atm.Withdraw(0.0);
    assert !ok && user.balance == 1000.0;
    var b := atm.CheckBalance();
    assert b == 1000.0;
  }

  method ScenarioThreeWrongPins()
  {
    var user := new Account("123", "1234", 1000.0);
    var atm := new Atm(Bank({}, map["123" := user], "Nordea"));
    var ok := atm.InsertCard("123");
    ok := atm.EnterPin("0000");
    assert !ok && !user.locked;
    ok := atm.EnterPin("0000");
    assert !ok && !user.locked;
    ok := atm.EnterPin("0000");
    assert !ok && user.locked && user.balance == 1000.0;
  }

  method ScenarioLockedCardAndEndSession()
  {
    var user := new Account("456", "5678", 2000.0);
    var atm := new Atm(Bank({"456"}, map["456" := user], "Nordea"));
    var ok := atm.InsertCard("456");
    assert !ok && atm.currentUser == null;
    ok := atm.EnterPin("5678");
    assert !ok;
    ok := atm.Withdraw(100.0);
    assert !ok && user.balance == 2000.0;
    var b := atm.CheckBalance();
    assert b == 0.0;
    atm.EndSession();
    atm.EndSession();
    ok := atm.EnterPin("5678");
    assert !ok;
  }

  method ScenarioUnknownCardEndsSession()
  {
    var user := new Account("123", "1234", 1000.0);
    var atm := new Atm(Bank({"999"}, map["123" := user], "Nordea"));
    var ok := atm.InsertCard("123");
    ok := atm.InsertCard("999");
    assert !ok && atm.currentUser == user;
    ok := atm.InsertCard("777");
    assert !ok && atm.currentUser == null;
    atm.Deposit(500.0);
    assert user.balance == 1000.0;
  }

  method ScenarioLockedCardKeepsEarlierSession()
  {
    var user := new Account("123", "1234", 1000.0);
    var atm := new Atm(Bank({"999"}, map["123" := user], "Nordea"));
    var ok := atm.InsertCard("123");
    ok := atm.InsertCard("999");
    assert !ok;
    ok := atm.EnterPin("1234");
    assert ok;
    ok := atm.Withdraw(100.0);
    assert ok && user.balance == 900.0;
  }
}
