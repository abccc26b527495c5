/**
 * The bank collaborator, as the controller sees it. It answers two
 * questions, "is this card locked" and "whose account is this", from two
 * independent pieces of data: nothing ties `lockedIds` to the `locked` flag
 * of the accounts in `users`.
 */
module Banks {
  import opened Accounts

  datatype Bank = Bank(lockedIds: set<string>, users: map<string, Account>, name: string)
  {
    predicate IsCardLocked(id: string)
    {
      id in lockedIds
    }

    /** The account with this id, or null for an unknown card. */
    function GetUserById(id: string): Account?
    {
      if id in users then users[id] else null
    }
  }
}
