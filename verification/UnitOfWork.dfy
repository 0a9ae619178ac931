/** The database session of a request: statements change what the transaction
    sees, a commit makes it durable, a rollback discards it. */
module UnitOfWork {
  import opened Tables

  class Session {
    var tables: Db
    var durable: Db
    /** The state after every statement that was executed. */
    ghost var trail: seq<Db>

    constructor (db: Db)
      ensures tables == db && durable == db && trail == []
    {
      tables, durable, trail := db, db, [];
    }

    method Execute(next: Db)
      modifies this
      ensures tables == next && durable == old(durable) && trail == old(trail) + [next]
    {
      tables := next;
      trail := trail + [next];
    }

    method Commit()
      modifies this
      ensures durable == tables == old(tables) && trail == old(trail)
    {
      durable := tables;
    }

    method Rollback()
      modifies this
      ensures tables == durable == old(durable) && trail == old(trail)
    {
      tables := durable;
    }
  }

  /** Every foreign key holds after each statement from the `from`-th on. */
  ghost predicate SoundSince(trail: seq<Db>, from: nat) {
    forall i | from <= i < |trail| :: Integrity(trail[i])
  }
}
