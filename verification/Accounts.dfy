/** Accounts as the managers hold them: loaded, changed field by field, saved. */
module Accounts {
  import opened Wrappers
  import opened Entities
  import opened TableOps
  import opened MemStore

  class Account {
    var user: User

    constructor (user: User)
      ensures this.user == user
    {
      this.user := user;
    }
  }

  /** The stored row is the one the caller holds. */
  predicate InStep(store: Store, u: User)
    reads store
  {
    u.id in store.db.users && store.db.users[u.id] == u
  }

  /** The account was saved if its row had not been written since it was loaded. */
  method Save(store: Store, account: Account, stamp: string) returns (saved: bool)
    modifies account, store`db
    ensures saved <==> var u, users := old(account.user), old(store.db).users;
                       u.id in users && users[u.id].concurrencyStamp == u.concurrencyStamp
    ensures account.user == old(account.user).(concurrencyStamp := if saved then stamp
                                               else old(account.user).concurrencyStamp)
    ensures store.db == if saved then old(store.db).(users := old(store.db).users[account.user.id := account.user])
        else old(store.db)
  {
    var r := store.UpdateUser(account.user, stamp);
    if r.Ok? {
      account.user := r.value;
    }
    return r.Ok?;
  }
}
