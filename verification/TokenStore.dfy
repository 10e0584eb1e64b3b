/** The hub's token_usage collection: an upsert keyed by dedup key that keeps the
    largest output count (hub/internal/tokens/tokens.go). */
module TokenStore {

  datatype Row = Row(
    key: string, app: string, source: string, model: string,
    input: int, output: int, cacheCreation: int, cacheRead: int,
    session: string, at: int)

  /** One stored record. Its row part is updated only in `output`. */
  datatype Record = Record(system: string, row: Row, cost: real)

  type Table = map<string, Record>

  /** What one row does to the collection. */
  function Upsert(price: Row -> real, system: string, t: Table, r: Row): Table
  {
    if r.key !in t then
      t[r.key := Record(system, r, price(r))]
    else if r.output > t[r.key].row.output then
      t[r.key := t[r.key].(row := t[r.key].row.(output := r.output), cost := price(r))]
    else
      t
  }

  function IngestAll(price: Row -> real, system: string, t: Table, rows: seq<Row>): Table
  {
    if rows == [] then t
    else Upsert(price, system, IngestAll(price, system, t, rows[..|rows| - 1]), rows[|rows| - 1])
  }

  /** Whether the database accepts every record the batch makes it save. */
  predicate Saves(price: Row -> real, storable: Record -> bool, system: string, t: Table, rows: seq<Row>)
  {
    rows == [] ||
    var n := |rows| - 1;
    && Saves(price, storable, system, t, rows[..n])
    && var before := IngestAll(price, system, t, rows[..n]);
       var after := Upsert(price, system, before, rows[n]);
       after == before || storable(after[rows[n].key])
  }

  /** The service owning the collection. */
  class Service {
    const price: Row -> real
    const storable: Record -> bool
    var table: Table

    constructor (price: Row -> real, storable: Record -> bool)
      ensures this.price == price && this.storable == storable && table == map[]
    {
      this.price, this.storable, table := price, storable, map[];
    }

    /** One batch, in one transaction: all of it or none of it. */
    method Ingest(system: string, rows: seq<Row>) returns (ok: bool)
      modifies this`table
      ensures ok <==> Saves(price, storable, system, old(table), rows)
      ensures table == if ok then IngestAll(price, system, old(table), rows) else old(table)
    {
      var tx := table;
      var i := 0;
      while i < |rows|
        invariant 0 <= i <= |rows|
        invariant tx == IngestAll(price, system, table, rows[..i])
        invariant Saves(price, storable, system, table, rows[..i])
        invariant table == old(table)
      {
        var row := rows[i];
        assert rows[..i + 1][..i] == rows[..i];
        var before := tx;
        if row.key in tx {
          if row.output > tx[row.key].row.output {
            var rec := tx[row.key].(row := tx[row.key].row.(output := row.output), cost := price(row));
            tx := tx[row.key := rec];
            if !storable(rec) {
              PrefixSaves(price, storable, system, table, rows, i + 1);
              return false;
            }
          }
        } else {
          var rec := Record(system, row, price(row));
          tx := tx[row.key := rec];
          if !storable(rec) {
            PrefixSaves(price, storable, system, table, rows, i + 1);
            return false;
          }
        }
        i := i + 1;
      }
      assert rows[..i] == rows;
      table := tx;
      return true;
    }
  }

  lemma {:induction false} PrefixSaves(price: Row -> real, storable: Record -> bool, system: string, t: Table, rows: seq<Row>, n: nat)
    requires n <= |rows|
    ensures Saves(price, storable, system, t, rows) ==> Saves(price, storable, system, t, rows[..n])
    decreases |rows|
  {
    if n < |rows| {
      PrefixSaves(price, storable, system, t, rows[..|rows| - 1], n);
      assert rows[..|rows| - 1][..n] == rows[..n];
    } else {
      assert rows[..n] == rows;
    }
  }

  // ---- Re-batching ----

  lemma {:induction false} IngestAppend(price: Row -> real, system: string, t: Table, a: seq<Row>, b: seq<Row>)
    ensures IngestAll(price, system, t, a + b) ==
            IngestAll(price, system, IngestAll(price, system, t, a), b)
    decreases |b|
  {
    if b == [] {
      assert a + b == a;
    } else {
      var n := |b| - 1;
      assert (a + b)[..|a + b| - 1] == a + b[..n];
      IngestAppend(price, system, t, a, b[..n]);
    }
  }

  // ---- One record per key, with the largest output ----

  ghost predicate HasKey(rows: seq<Row>, k: string)
  {
    exists r :: r in rows && r.key == k
  }

  lemma {:induction false} IngestMax(price: Row -> real, system: string, t: Table, rows: seq<Row>, k: string)
    ensures var u := IngestAll(price, system, t, rows);
            && (k in u <==> k in t || HasKey(rows, k))
            && (k in u ==> forall r :: r in rows && r.key == k ==> r.output <= u[k].row.output)
            && (k in t ==> t[k].row.output <= u[k].row.output)
            && (k in u ==> (k in t && u[k] == t[k]) ||
                           exists r :: r in rows && r.key == k && u[k].row.output == r.output && u[k].cost == price(r))
  {
    if rows != [] {
      var n := |rows| - 1;
      IngestMax(price, system, t, rows[..n], k);
      assert rows == rows[..n] + [rows[n]];
      assert rows[n] in rows;
    }
  }

  // ---- Order independence ----

  /** Rows of one key differ in their output count only. */
  ghost predicate Agree(rows: seq<Row>)
  {
    forall r, s :: r in rows && s in rows && r.key == s.key ==> r.(output := s.output) == s
  }

  ghost predicate SameRows(a: seq<Row>, b: seq<Row>)
  {
    forall r :: r in a <==> r in b
  }

  /** When the rows agree, what is stored for a key is one of its rows, priced as that row. */
  lemma {:induction false} IngestStoresARow(price: Row -> real, system: string, rows: seq<Row>, k: string)
    requires Agree(rows)
    ensures var u := IngestAll(price, system, map[], rows);
            k in u ==> u[k].row in rows && u[k].row.key == k && u[k].cost == price(u[k].row) && u[k].system == system
  {
    if rows != [] {
      var n := |rows| - 1;
      assert forall r :: r in rows[..n] ==> r in rows;
      IngestStoresARow(price, system, rows[..n], k);
      var u := IngestAll(price, system, map[], rows[..n]);
      assert rows[n] in rows;
      if k == rows[n].key && k in u {
        assert u[k].row in rows;
      }
    }
  }

  /** Any reordering, duplication or re-batching of agreeing rows gives the same table. */
  lemma {:induction false} IngestIsAJoin(price: Row -> real, system: string, a: seq<Row>, b: seq<Row>)
    requires SameRows(a, b) && Agree(a)
    ensures IngestAll(price, system, map[], a) == IngestAll(price, system, map[], b)
  {
    var u, v := IngestAll(price, system, map[], a), IngestAll(price, system, map[], b);
    forall k
      ensures k in u <==> k in v
      ensures k in u ==> u[k] == v[k]
    {
      IngestMax(price, system, map[], a, k);
      IngestMax(price, system, map[], b, k);
      IngestStoresARow(price, system, a, k);
      IngestStoresARow(price, system, b, k);
    }
  }

  /** The first row of a key decides every field of its record but output and cost. */
  lemma {:induction false} FirstRowWins(price: Row -> real, system: string, r: Row, rows: seq<Row>)
    ensures var u := IngestAll(price, system, map[], [r] + rows);
            r.key in u && u[r.key].row.(output := r.output) == r
  {
    if rows == [] {
      assert [r] + rows == [r];
    } else {
      var n := |rows| - 1;
      assert ([r] + rows)[..n + 1] == [r] + rows[..n];
      FirstRowWins(price, system, r, rows[..n]);
    }
  }

  /** Agreement is exactly what makes the stored table independent of arrival order. */
  lemma {:induction false} OrderIndependentIffAgree(price: Row -> real, system: string, rows: seq<Row>)
    ensures Agree(rows) <==>
            forall other :: SameRows(rows, other) ==>
              IngestAll(price, system, map[], other) == IngestAll(price, system, map[], rows)
  {
    if Agree(rows) {
      forall other | SameRows(rows, other)
        ensures IngestAll(price, system, map[], other) == IngestAll(price, system, map[], rows)
      {
        IngestIsAJoin(price, system, rows, other);
      }
    } else {
      var other := DisagreementShows(price, system, rows);
    }
  }

  /** Two rows of one key that differ in another field: whichever comes first is kept. */
  lemma DisagreementShows(price: Row -> real, system: string, rows: seq<Row>) returns (other: seq<Row>)
    requires !Agree(rows)
    ensures SameRows(rows, other)
    ensures IngestAll(price, system, map[], other) != IngestAll(price, system, map[], rows)
  {
    var r, s :| r in rows && s in rows && r.key == s.key && r.(output := s.output) != s;
    FirstRowWins(price, system, r, rows);
    FirstRowWins(price, system, s, rows);
    var a, b := [r] + rows, [s] + rows;
    var u, v := IngestAll(price, system, map[], a), IngestAll(price, system, map[], b);
    assert u[r.key].row != v[r.key].row;
    other := if u == IngestAll(price, system, map[], rows) then b else a;
  }

  /** Delivering rows again changes nothing: at-least-once delivery is enough. */
  lemma {:induction false} RedeliveryIsNoOp(price: Row -> real, system: string, t: Table, rows: seq<Row>, again: seq<Row>)
    requires forall r :: r in again ==> r in rows
    ensures IngestAll(price, system, t, rows + again) == IngestAll(price, system, t, rows)
  {
    IngestAppend(price, system, t, rows, again);
    if again != [] {
      var n := |again| - 1;
      RedeliveryIsNoOp(price, system, t, rows, again[..n]);
      IngestAppend(price, system, t, rows, again[..n]);
      assert again[n] in rows;
      IngestMax(price, system, t, rows, again[n].key);
    }
  }
}
