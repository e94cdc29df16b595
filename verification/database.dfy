/**
 * The per-object embedded database handle.  The engine behind it is not part
 * of this model: a handle records the path it was opened on, whether it is
 * still open, and the calls made on it, in order, with their arguments.
 */
module Database {

  /**
   * A call forwarded to the database engine.  `V` is the type of the
   * positional parameters of a statement, whatever values the caller passes.
   */
  datatype DbCall<V> =
    | Table(sql: string)
    | Insert(data: seq<V>, sql: string)
    | Update(data: seq<V>, sql: string)
    | Close

  /** An opened database accessor: Open until closed, never reopened. */
  class DbAccessor<V> {
    const path: string
    var isOpen: bool
    var calls: seq<DbCall<V>>

    constructor (path: string)
      ensures this.path == path && isOpen && calls == []
    {
      this.path := path;
      isOpen := true;
      calls := [];
    }

    /** Closes the connection to the engine. */
    method CloseConnection()
      modifies this
      ensures !isOpen && calls == old(calls) + [Close]
    {
      isOpen := false;
      calls := calls + [Close];
    }

    /** Runs a table-creating statement. */
    method CreateTable(sql: string)
      modifies this
      ensures isOpen == old(isOpen) && calls == old(calls) + [Table(sql)]
    {
      calls := calls + [Table(sql)];
    }

    /** Runs a parameterised insert. */
    method CreateRecord(data: seq<V>, sql: string)
      modifies this
      ensures isOpen == old(isOpen) && calls == old(calls) + [Insert(data, sql)]
    {
      calls := calls + [Insert(data, sql)];
    }

    /** Runs a parameterised update. */
    method UpdateRecord(data: seq<V>, sql: string)
      modifies this
      ensures isOpen == old(isOpen) && calls == old(calls) + [Update(data, sql)]
    {
      calls := calls + [Update(data, sql)];
    }
  }
}
