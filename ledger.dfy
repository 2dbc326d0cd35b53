/**
 * The forecast ledger: the `Forecast` table, unique on (sku, time_key). Its rows
 * hold the two predictions and, once reconciled, the two actual prices.
 */
module Ledger {
  import opened Wrappers
  import opened Features

  datatype ForecastRecord = ForecastRecord(
    predA: real,
    predB: real,
    actualA: Option<real>,
    actualB: Option<real>)

  /** A record as `Forecast.create` writes it: both actual columns left null. */
  function Fresh(predA: real, predB: real): ForecastRecord
  {
    ForecastRecord(predA, predB, None, None)
  }

  /** The table's contents; one record per key is what the unique constraint gives. */
  type Table = map<Key, ForecastRecord>

  class ForecastTable {
    var rows: Table

    constructor ()
      ensures rows == map[]
    {
      rows := map[];
    }

    /**
     * `Forecast.create(...)`: one atomic insert-if-absent. On a key already
     * present the unique constraint raises `IntegrityError` and nothing changes.
     */
    method Create(key: Key, predA: real, predB: real) returns (created: bool)
      modifies this
      ensures created <==> key !in old(rows)
      ensures rows == if created then old(rows)[key := Fresh(predA, predB)] else old(rows)
    {
      created := key !in rows;
      if created {
        rows := rows[key := Fresh(predA, predB)];
      }
    }

    /** `Forecast.get(...)`: the record under the key, None for `DoesNotExist`. */
    method Get(key: Key) returns (found: Option<ForecastRecord>)
      ensures found.Some? <==> key in rows
      ensures found.Some? ==> found.value == rows[key]
    {
      found := if key in rows then Some(rows[key]) else None;
    }

    /**
     * `rec.save()` on a record read from the table: an UPDATE by primary key,
     * which matches no row (and changes nothing) if the key is absent.
     */
    method Save(key: Key, rec: ForecastRecord)
      modifies this
      ensures rows == if key in old(rows) then old(rows)[key := rec] else old(rows)
    {
      if key in rows {
        rows := rows[key := rec];
      }
    }
  }
}
