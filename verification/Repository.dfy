/** The notifications table behind its repository. */
module Repository {
  import opened Model

  /** The columns update_status was asked to set besides the status. */
  datatype Patch = Patch(
    retryCount: Option<nat>, errorCode: Option<Option<ErrorCode>>, externalId: Option<Option<string>>,
    stime: Option<nat>)

  const NO_PATCH := Patch(None, None, None, None)

  function Patched(row: Row, status: Status, p: Patch): Row {
    row.(status := status,
         retryCount := if p.retryCount.Some? then p.retryCount.value else row.retryCount,
         errorCode := if p.errorCode.Some? then p.errorCode.value else row.errorCode,
         externalId := if p.externalId.Some? then p.externalId.value else row.externalId,
         stime := if p.stime.Some? then p.stime else row.stime)
  }

  function KeysOf(rows: map<Id, Row>): set<string> {
    set id | id in rows :: rows[id].key
  }

  lemma KeysAfterInsert(rows: map<Id, Row>, id: Id, row: Row)
    requires id !in rows
    ensures KeysOf(rows[id := row]) == KeysOf(rows) + {row.key}
  {
    var after := rows[id := row];
    assert after[id].key == row.key;
    forall k | k in KeysOf(rows) ensures k in KeysOf(after) {
      var j :| j in rows && rows[j].key == k;
      assert after[j].key == k;
    }
  }

  class NotificationRepository {
    var rows: map<Id, Row>
    var nextId: nat

    /** Ids come from a counter, and idempotency keys are UNIQUE. */
    ghost predicate Valid()
      reads this
    {
      && (forall id :: id in rows ==> id < nextId)
      && (forall a, b :: a in rows && b in rows && rows[a].key == rows[b].key ==> a == b)
    }

    constructor ()
      ensures Valid() && rows == map[]
    {
      rows, nextId := map[], 1;
    }

    /** Inserts the row and commits, or raises IntegrityError when its key is taken. A refused insert
        uses up an id all the same. */
    method Create(row: Row) returns (id: Option<Id>)
      requires Valid()
      modifies this
      ensures Valid()
      ensures id.None? <==> row.key in KeysOf(old(rows))
      ensures id.None? <==> exists j :: j in old(rows) && old(rows)[j].key == row.key
      ensures id.None? ==> rows == old(rows)
      ensures id.Some? ==> id.value == old(nextId) && id.value !in old(rows) && rows == old(rows)[id.value := row]
      ensures nextId == old(nextId) + 1
    {
      nextId := nextId + 1;
      if row.key in KeysOf(rows) {
        return None;
      }
      id := Some(nextId - 1);
      rows := rows[nextId - 1 := row];
    }

    method GetById(id: Id) returns (row: Option<Row>)
      ensures row == if id in rows then Some(rows[id]) else None
    {
      row := if id in rows then Some(rows[id]) else None;
    }

    /** Reads the row again, sets the status and the given columns, commits, and returns it refreshed. With a
        failure the database raises, before the commit took effect or (Some(true)) after it. */
    method UpdateStatus(id: Id, status: Status, patch: Patch, failure: Option<bool>)
      returns (row: Option<Row>, raised: bool)
      requires Valid()
      modifies this`rows
      ensures Valid()
      ensures raised <==> id in old(rows) && failure.Some?
      ensures rows ==
              if id in old(rows) && failure != Some(false)
              then old(rows)[id := Patched(old(rows)[id], status, patch)]
              else old(rows)
      ensures !raised ==> row == if id in rows then Some(rows[id]) else None
    {
      raised := false;
      row := GetById(id);
      if row.None? {
        return;
      }
      if failure == Some(false) {
        return None, true;
      }
      rows := rows[id := Patched(row.value, status, patch)];
      if failure.Some? {
        return None, true;
      }
      row := GetById(id);
    }
  }
}
