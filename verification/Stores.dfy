/**
 The two single-key stores under recall and tool receipts: versioned documents moved by
 compare-and-swap (state_store.py), and records that are written once (replay_store.py).
 */
module Stores {
  import opened Basics

  /** A document as a reader holds it; version 0 means that it did not exist. */
  datatype Versioned<+V> = Versioned(value: Option<V>, version: nat)
  datatype Slot = Slot(scope: string, key: string)

  /** The compare-and-swap both adapters implement: insert if absent, or replace that version. */
  function Cas<V>(current: Versioned<V>, version: nat, value: V): Versioned<V> {
    if current.version == version then Versioned(Some(value), version + 1) else current
  }

  class SQLiteStateStore<V> {
    var rows: map<Slot, Versioned<V>>

    ghost predicate Valid()
      reads this
    {
      forall k :: k in rows ==> rows[k].value.Some? && rows[k].version > 0
    }

    constructor ()
      ensures Valid() && rows == map[]
    {
      rows := map[];
    }

    function Get(slot: Slot): Versioned<V>
      reads this
    {
      if slot in rows then rows[slot] else Versioned(None, 0)
    }

    method Swap(slot: Slot, previous: Versioned<V>, value: V) returns (changed: bool)
      requires Valid()
      modifies this
      ensures Valid()
      ensures Get(slot) == Cas(old(Get(slot)), previous.version, value)
      ensures changed <==> old(Get(slot)).version == previous.version
      ensures rows - {slot} == old(rows) - {slot}
    {
      changed := false;
      if previous.version != 0 {
        if slot in rows && rows[slot].version == previous.version {
          rows := rows[slot := Versioned(Some(value), rows[slot].version + 1)];
          changed := true;
        }
      } else if slot !in rows {
        rows := rows[slot := Versioned(Some(value), 1)];
        changed := true;
      }
    }
  }

  class SQLiteReplayStore<V> {
    var records: map<Slot, V>

    constructor ()
      ensures records == map[]
    {
      records := map[];
    }

    /** Keeps the first value, and answers with the value kept. */
    method Put(slot: Slot, value: V) returns (kept: V)
      modifies this
      ensures records == if slot in old(records) then old(records) else old(records)[slot := value]
      ensures kept == records[slot]
    {
      if slot !in records {
        records := records[slot := value];
      }
      kept := records[slot];
    }
  }
}
