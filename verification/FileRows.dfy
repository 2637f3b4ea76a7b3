/** The files table. */
module FileRows {
  import opened Domain
  import opened Pipeline

  class FileRepo {
    var rows: map<Id, Row>

    constructor ()
      ensures rows == map[]
    {
      rows := map[];
    }

    /** Every row but one is as it was. */
    twostate predicate OnlyRow(id: Id)
      reads this
    {
      && rows.Keys == old(rows.Keys)
      && forall other | other in rows && other != id :: rows[other] == old(rows)[other]
    }

    method Create(id: Id, row: Row, ok: bool) returns (created: bool)
      requires id !in rows
      modifies this
      ensures created == ok
      ensures rows == if created then old(rows)[id := row] else old(rows)
    {
      if ok {
        rows := rows[id := row];
      }
      created := ok;
    }

    method FindByIDForUpdate(id: Id, ok: bool) returns (row: Option<Row>)
      ensures row.Some? <==> ok && id in rows
      ensures row.Some? ==> row.value == rows[id]
    {
      row := if ok && id in rows then Some(rows[id]) else None;
    }

    /** The status write inside the transaction; a failed write or commit leaves the row alone. */
    method MarkProcessing(id: Id, ok: bool) returns (marked: bool)
      requires id in rows
      modifies this
      ensures marked == ok && OnlyRow(id)
      ensures rows[id] == if ok then old(rows[id]).(status := Processing) else old(rows[id])
    {
      if ok {
        rows := rows[id := rows[id].(status := Processing)];
      }
      marked := ok;
    }

    /** Unconditional on the row's status, and no error when there is no such row. */
    method UpdateDone(id: Id, key: Key, ok: bool) returns (updated: bool)
      modifies this
      ensures updated == ok && OnlyRow(id)
      ensures id in rows ==>
                rows[id] == if ok then old(rows[id]).(status := Done, storagePath := Some(key)) else old(rows[id])
    {
      if ok && id in rows {
        rows := rows[id := rows[id].(status := Done, storagePath := Some(key))];
      }
      updated := ok;
    }

    method UpdateError(id: Id)
      modifies this
      ensures OnlyRow(id) && (id in rows ==> rows[id] == old(rows[id]).(status := Error))
    {
      if id in rows {
        rows := rows[id := rows[id].(status := Error)];
      }
    }

    method IncrementRetry(id: Id)
      modifies this
      ensures OnlyRow(id) && (id in rows ==> rows[id] == old(rows[id]).(retryCount := old(rows[id]).retryCount + 1))
    {
      if id in rows {
        rows := rows[id := rows[id].(retryCount := rows[id].retryCount + 1)];
      }
    }
  }
}
