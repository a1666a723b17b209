/** A SQLAlchemy session: the committed database and the session's own view of it. */
module Database {
  import opened Records

  class Session {
    var committed: Db
    var working: Db

    /** A fresh session sees the committed state. */
    ghost predicate Fresh()
      reads this
    {
      working == committed
    }

    constructor (db: Db)
      ensures committed == db && Fresh()
    {
      committed := db;
      working := db;
    }

    /** `commit`: the pending changes become durable unless a constraint fails. */
    method Commit() returns (ok: bool)
      modifies this`committed
      ensures ok == Durable(working)
      ensures committed == if ok then working else old(committed)
    {
      ok := Durable(working);
      if ok {
        committed := working;
      }
    }

    /** `rollback`, or closing the session and opening another: the pending changes are forgotten. */
    method Rollback()
      modifies this`working
      ensures Fresh()
    {
      working := committed;
    }
  }
}
