/**
 * The rules the ATM controller applies to the record of the user it holds,
 * stated on values. The class `Atm` (atm.dfy) changes an `Account` object in
 * place and promises that its new state is what these functions compute; the
 * lemmas here then say what any sequence of such operations does.
 */
module Rules {

  /** The part of a user's record that the controller reads or changes. */
  datatype AccountView = AccountView(pin: string, balance: real, failedAttempts: nat, locked: bool)

  /** Number of wrong PINs after which `enterPin` locks the card. */
  const MaxPinAttempts: nat := 3

  datatype PinOutcome = PinOutcome(accepted: bool, after: AccountView)

  /** `enterPin` while a user is held. */
  function EnterPin(v: AccountView, pin: string): (o: PinOutcome)
    // exact match against the stored PIN; the lock flag is not consulted
    ensures o.accepted <==> pin == v.pin
    // PIN entry never touches the PIN or the money, and never unlocks
    ensures o.after.pin == v.pin && o.after.balance == v.balance
    ensures v.locked ==> o.after.locked
    // a correct PIN clears the counter, whatever it was, and leaves the lock alone
    ensures o.accepted ==> o.after.failedAttempts == 0 && o.after.locked == v.locked
    // a wrong PIN counts once, and locks exactly when the count reaches the limit
    ensures !o.accepted ==> o.after.failedAttempts == v.failedAttempts + 1
    ensures !o.accepted ==> (o.after.locked <==> v.locked || o.after.failedAttempts >= MaxPinAttempts)
  {
    if pin == v.pin then
      PinOutcome(true, v.(failedAttempts := 0))
    else
      var counted := v.(failedAttempts := v.failedAttempts + 1);
      if counted.failedAttempts >= MaxPinAttempts then PinOutcome(false, counted.(locked := true))
      else PinOutcome(false, counted)
  }

  /** `deposit` while a user is held: only a positive amount is credited. */
  function DepositInto(v: AccountView, amount: real): (w: AccountView)
    ensures w.balance >= v.balance
    ensures amount > 0.0 ==> w.balance == v.balance + amount
    ensures amount <= 0.0 ==> w == v
    ensures w.pin == v.pin && w.failedAttempts == v.failedAttempts && w.locked == v.locked
  {
    if amount > 0.0 then v.(balance := v.balance + amount) else v
  }

  datatype WithdrawOutcome = WithdrawOutcome(paid: bool, after: AccountView)

  /** `withdraw` while a user is held: a positive amount the balance covers is paid out. */
  function WithdrawFrom(v: AccountView, amount: real): (o: WithdrawOutcome)
    ensures o.paid <==> 0.0 < amount <= v.balance
    ensures o.paid ==> o.after.balance == v.balance - amount
    ensures !o.paid ==> o.after == v
    // the guard keeps a non-negative balance non-negative
    ensures v.balance >= 0.0 ==> o.after.balance >= 0.0
    ensures o.after.pin == v.pin && o.after.failedAttempts == v.failedAttempts && o.after.locked == v.locked
  {
    if amount > 0.0 && v.balance >= amount then WithdrawOutcome(true, v.(balance := v.balance - amount))
    else WithdrawOutcome(false, v)
  }

  /**
   * Depositing and then withdrawing the same positive amount pays out and
   * restores the record, provided the balance was not negative to begin with.
   */
  lemma WithdrawUndoesDeposit(v: AccountView, amount: real)
    requires amount > 0.0 && v.balance >= 0.0
    ensures WithdrawFrom(DepositInto(v, amount), amount) == WithdrawOutcome(true, v)
  {
  }

  /** Depositing what a successful withdrawal paid out restores the record. */
  lemma DepositUndoesWithdraw(v: AccountView, amount: real)
    requires WithdrawFrom(v, amount).paid
    ensures DepositInto(WithdrawFrom(v, amount).after, amount) == v
  {
  }

  /**
   * A correct PIN is accepted even on a locked record: the lock is checked
   * only when the card is inserted, never when the PIN is entered.
   */
  lemma PinCheckIgnoresLock(v: AccountView)
    requires v.locked
    ensures EnterPin(v, v.pin).accepted && EnterPin(v, v.pin).after.locked
  {
  }

  // ---------------------------------------------------------------------
  // Sequences of requests served to one held account
  // ---------------------------------------------------------------------

  /** The account operations a caller can issue once a card is inserted. */
  datatype Request = Pin(pin: string) | Balance | Deposit(amount: real) | Withdraw(amount: real)

  /** What each operation hands back: a boolean, an amount, or nothing (`deposit` is void). */
  datatype Reply = Accepted(ok: bool) | Amount(value: real) | Done

  datatype Step = Step(reply: Reply, after: AccountView)

  /** One request served against the held record. */
  function Serve(v: AccountView, q: Request): (s: Step)
    ensures s.after.pin == v.pin
    ensures v.locked ==> s.after.locked
    ensures v.balance >= 0.0 ==> s.after.balance >= 0.0
    // only a deposit or a withdrawal moves money
    ensures (q.Pin? || q.Balance?) ==> s.after.balance == v.balance
  {
    match q
    case Pin(p) =>
      var o := EnterPin(v, p);
      Step(Accepted(o.accepted), o.after)
    case Balance =>
      Step(Amount(v.balance), v)
    case Deposit(a) =>
      Step(Done, DepositInto(v, a))
    case Withdraw(a) =>
      var o := WithdrawFrom(v, a);
      Step(Accepted(o.paid), o.after)
  }

  datatype Trace = Trace(replies: seq<Reply>, after: AccountView)

  /** The requests `qs`, served in order, starting from `v`. */
  function Run(v: AccountView, qs: seq<Request>): Trace
    decreases |qs|
  {
    if qs == [] then Trace([], v)
    else
      var s := Serve(v, qs[0]);
      var t := Run(s.after, qs[1..]);
      Trace([s.reply] + t.replies, t.after)
  }

  /** Balance safety: no sequence of operations takes a non-negative balance below zero. */
  lemma {:induction false} RunKeepsBalanceNonNegative(v: AccountView, qs: seq<Request>)
    requires v.balance >= 0.0
    ensures Run(v, qs).after.balance >= 0.0
    decreases |qs|
  {
    if qs != [] {
      RunKeepsBalanceNonNegative(Serve(v, qs[0]).after, qs[1..]);
    }
  }

  /** The lock is one-way: no sequence of operations unlocks a record. */
  lemma {:induction false} RunNeverUnlocks(v: AccountView, qs: seq<Request>)
    requires v.locked
    ensures Run(v, qs).after.locked
    decreases |qs|
  {
    if qs != [] {
      RunNeverUnlocks(Serve(v, qs[0]).after, qs[1..]);
    }
  }

  /** No operation changes the stored PIN. */
  lemma {:induction false} RunKeepsPin(v: AccountView, qs: seq<Request>)
    ensures Run(v, qs).after.pin == v.pin
    decreases |qs|
  {
    if qs != [] {
      RunKeepsPin(Serve(v, qs[0]).after, qs[1..]);
    }
  }

  /** The money a request moved, read off the request and its reply. */
  function Credit(q: Request, r: Reply): real
  {
    match q
    case Deposit(a) => if a > 0.0 then a else 0.0
    case Withdraw(a) => if r == Accepted(true) then -a else 0.0
    case _ => 0.0
  }

  /** The money a sequence of requests moved, according to their replies. */
  function Net(qs: seq<Request>, rs: seq<Reply>): real
    requires |qs| == |rs|
    decreases |qs|
  {
    if qs == [] then 0.0 else Credit(qs[0], rs[0]) + Net(qs[1..], rs[1..])
  }

  /**
   * Ledger: one reply per request, and the final balance is the initial one
   * plus every positive deposit minus every withdrawal that was answered true.
   */
  lemma {:induction false} RunLedger(v: AccountView, qs: seq<Request>)
    ensures |Run(v, qs).replies| == |qs|
    ensures Run(v, qs).after.balance == v.balance + Net(qs, Run(v, qs).replies)
    decreases |qs|
  {
    if qs != [] {
      RunLedger(Serve(v, qs[0]).after, qs[1..]);
    }
  }

  /** Every request in `qs` is a PIN entry that does not match `pin`. */
  predicate AllWrong(qs: seq<Request>, pin: string)
  {
    forall i :: 0 <= i < |qs| ==> qs[i].Pin? && qs[i].pin != pin
  }

  /**
   * Wrong PINs in a row: each is refused, each adds one to the counter, money
   * is untouched, and the record ends up locked exactly when it was locked
   * already or the counter reached the limit.
   */
  lemma {:induction false} WrongPinsCount(v: AccountView, qs: seq<Request>)
    requires AllWrong(qs, v.pin)
    ensures var t := Run(v, qs);
      |t.replies| == |qs| &&
      (forall i :: 0 <= i < |qs| ==> t.replies[i] == Accepted(false)) &&
      t.after.pin == v.pin && t.after.balance == v.balance &&
      t.after.failedAttempts == v.failedAttempts + |qs| &&
      (t.after.locked <==> v.locked || (qs != [] && v.failedAttempts + |qs| >= MaxPinAttempts))
    decreases |qs|
  {
    if qs != [] {
      var s := Serve(v, qs[0]);
      assert AllWrong(qs[1..], s.after.pin) by {
        forall i | 0 <= i < |qs[1..]| ensures qs[1..][i].Pin? && qs[1..][i].pin != s.after.pin {
          assert qs[1..][i] == qs[i + 1];
        }
      }
      WrongPinsCount(s.after, qs[1..]);
    }
  }

  /**
   * From a fresh record, two wrong PINs leave the card unlocked and the third
   * locks it; all three are refused.
   */
  lemma ThirdWrongPinLocks(v: AccountView, p1: string, p2: string, p3: string)
    requires v.failedAttempts == 0 && !v.locked
    requires p1 != v.pin && p2 != v.pin && p3 != v.pin
    ensures !Run(v, [Pin(p1), Pin(p2)]).after.locked
    ensures Run(v, [Pin(p1), Pin(p2), Pin(p3)]).replies == [Accepted(false), Accepted(false), Accepted(false)]
    ensures Run(v, [Pin(p1), Pin(p2), Pin(p3)]).after.locked
  {
    WrongPinsCount(v, [Pin(p1), Pin(p2)]);
    WrongPinsCount(v, [Pin(p1), Pin(p2), Pin(p3)]);
  }
}
