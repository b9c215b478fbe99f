/** A connection to the database: each call is one statement of the machine in `Store`. */
module Database {
  import opened Store
  import opened StoreInvariant

  class Database {
    var store: Store

    constructor ()
      ensures store == Empty
    {
      store := Empty;
    }

    method Run(a: Action)
      requires Inv(store) && Can(store, a)
      modifies this
      ensures store == Do(old(store), a) && Inv(store)
    {
      StepKeepsInv(store, a);
      store := Do(store, a);
    }
  }
}
