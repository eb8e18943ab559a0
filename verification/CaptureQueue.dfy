/**
 The capture mailbox (`SQLiteCaptureQueue` in capture_store.py): one row per client session, moved
 by versioned compare-and-swap and leased to one worker at a time. Times are integers.
 */
module CaptureQueue {
  import opened Basics
  import opened CaptureTurns
  import opened CaptureWorker

  datatype Row = Row(value: Capture, version: nat, ready: Option<int>, lease: int, owner: Option<nat>)
  datatype Key = Key(scope: string, session: string)
  datatype SwapResult = Swapped | Conflict | NotOwner
  datatype Job = Job(key: Key, owner: nat, document: Document<Capture>)

  const LEASE_SECONDS := 120

  /** `ready_at`: when a worker has something to do for this document, if ever. */
  function ReadyAt(v: Capture): Option<int> {
    var watching := v.archive.Some? && !v.archive.value.terminal;
    if v.error.Some? then v.error.value.retryAt
    else if v.pending != [] && watching then Some(Min(v.pending[0].ready, v.archive.value.nextCheck))
    else if v.pending != [] then Some(v.pending[0].ready)
    else if watching then Some(v.archive.value.nextCheck)
    else None
  }

  predicate HoldsLease(row: Option<Row>, owner: nat, now: int) {
    row.Some? && row.value.owner == Some(owner) && row.value.lease > now
  }

  /** `swap` on one row. */
  function SwapRow(row: Option<Row>, version: nat, value: Capture, ready: Option<int>,
                   owner: Option<nat>, now: int): (Option<Row>, SwapResult)
  {
    if owner.Some? && !HoldsLease(row, owner.value, now) then (row, NotOwner)
    else if version != 0 then
      if row.Some? && row.value.version == version
      then (Some(row.value.(value := value, version := version + 1, ready := ready)), Swapped)
      else (row, Conflict)
    else if row.None? then (Some(Row(value, 1, ready, 0, None)), Swapped)
    else (row, Conflict)
  }

  predicate Claimable(row: Row, now: int) {
    row.ready.Some? && row.ready.value <= now && row.lease < now
  }

  function ClaimRow(row: Row, owner: nat, now: int): Row {
    row.(lease := now + LEASE_SECONDS, owner := Some(owner))
  }

  function ReleaseRow(row: Row, owner: nat): Row {
    if row.owner == Some(owner) then row.(lease := 0, owner := None) else row
  }

  /** A document without an error and with something queued is due when its first segment is. */
  lemma NeverStranded(row: Row, now: int)
    requires row.ready == ReadyAt(row.value)
    requires row.value.error.None? && row.value.pending != []
    requires row.value.pending[0].ready <= now && row.lease < now
    ensures Claimable(row, now)
  {
  }

  /** A swap either leaves the row alone, or consumes exactly the version its caller read; a swap
      that names an owner needs that owner's lease to be live. */
  lemma SwapConsumesOneVersion(row: Option<Row>, version: nat, value: Capture, ready: Option<int>,
                               owner: Option<nat>, now: int)
    ensures var (next, result) := SwapRow(row, version, value, ready, owner, now);
            var current := if row.Some? then row.value.version else 0;
            && (result != Swapped ==> next == row)
            && (result == Swapped ==>
                  && (row.Some? ==> version == current) && (row.None? ==> version == 0)
                  && next.Some? && next.value.value == value && next.value.ready == ready
                  && next.value.version == version + 1
                  && (row.Some? ==> next.value.lease == row.value.lease && next.value.owner == row.value.owner)
                  && (owner.Some? ==> HoldsLease(row, owner.value, now)))
            && (row.Some? && current > 0 && version == current && owner.None? ==> result == Swapped)
  {
  }

  class SQLiteCaptureQueue {
    var rows: map<Key, Row>

    constructor ()
      ensures rows == map[]
    {
      rows := map[];
    }

    function RowAt(key: Key): Option<Row>
      reads this
    {
      if key in rows then Some(rows[key]) else None
    }

    method Get(key: Key) returns (doc: Document<Capture>)
      ensures key in rows ==> doc == Document(Some(rows[key].value), rows[key].version)
      ensures key !in rows ==> doc == Document(None, 0)
    {
      if key in rows {
        doc := Document(Some(rows[key].value), rows[key].version);
      } else {
        doc := Document(None, 0);
      }
    }

    method Swap(key: Key, previous: Document<Capture>, value: Capture, ready: Option<int>,
                owner: Option<nat>, now: int) returns (result: SwapResult)
      modifies this
      ensures (RowAt(key), result) == SwapRow(old(RowAt(key)), previous.version, value, ready, owner, now)
      ensures rows - {key} == old(rows) - {key}
    {
      if owner.Some? && (key !in rows || rows[key].owner != owner || rows[key].lease <= now) {
        return NotOwner;
      }
      if previous.version != 0 {
        if key in rows && rows[key].version == previous.version {
          rows := rows[key := rows[key].(value := value, version := rows[key].version + 1, ready := ready)];
          return Swapped;
        }
      } else if key !in rows {
        rows := rows[key := Row(value, 1, ready, 0, None)];
        return Swapped;
      }
      result := Conflict;
    }

    /** Takes the claimable row that has been ready longest, or says that there is none. */
    method Claim(owner: nat, now: int) returns (job: Option<Job>)
      modifies this
      ensures job.None? <==> forall k :: k in old(rows) ==> !Claimable(old(rows)[k], now)
      ensures job.None? ==> rows == old(rows)
      ensures job.Some? ==>
                var k := job.value.key;
                && k in old(rows) && Claimable(old(rows)[k], now)
                && (forall o :: o in old(rows) && Claimable(old(rows)[o], now) ==>
                                old(rows)[k].ready.value <= old(rows)[o].ready.value)
                && rows == old(rows)[k := ClaimRow(old(rows)[k], owner, now)]
                && job.value == Job(k, owner, Document(Some(old(rows)[k].value), old(rows)[k].version))
    {
      var best: Option<Key> := None;
      var left := rows.Keys;
      while left != {}
        invariant left <= rows.Keys && rows == old(rows)
        invariant best.None? ==> forall k :: k in rows && k !in left ==> !Claimable(rows[k], now)
        invariant best.Some? ==>
                    && best.value in rows && Claimable(rows[best.value], now)
                    && forall k :: k in rows && k !in left && Claimable(rows[k], now) ==>
                                   rows[best.value].ready.value <= rows[k].ready.value
        decreases |left|
      {
        var k :| k in left;
        left := left - {k};
        if Claimable(rows[k], now) && (best.None? || rows[k].ready.value < rows[best.value].ready.value) {
          best := Some(k);
        }
      }
      if best.None? {
        return None;
      }
      var row := rows[best.value];
      rows := rows[best.value := ClaimRow(row, owner, now)];
      job := Some(Job(best.value, owner, Document(Some(row.value), row.version)));
    }

    method Release(job: Job)
      modifies this
      ensures rows.Keys == old(rows).Keys
      ensures forall k :: k in rows ==>
                rows[k] == if k == job.key then ReleaseRow(old(rows)[k], job.owner) else old(rows)[k]
    {
      if job.key in rows {
        rows := rows[job.key := ReleaseRow(rows[job.key], job.owner)];
      }
    }
  }
}
