/**
 * The `game_results` table: one row of win/loss/draw counters per user id,
 * written by `INSERT ... ON CONFLICT(user_id) DO UPDATE` and read back by
 * `SELECT`. The table is a map from user id to its row.
 */
module Stats {
  import opened Wrappers
  import opened Game

  /** One row of `game_results`; every column defaults to 0. */
  datatype Record = Record(wins: nat, losses: nat, draws: nat)

  type Table = map<string, Record>

  const Zero: Record := Record(0, 0, 0)

  /** Rounds played by the user of this row. */
  function Total(r: Record): nat {
    r.wins + r.losses + r.draws
  }

  /** The row a user has, the all-zero row when there is none (no row is created). */
  function Lookup(t: Table, id: string): Record {
    if id in t then t[id] else Zero
  }

  /** The `@wins`, `@losses`, `@draws` parameters: 1 for the outcome, 0 for the others. */
  function Delta(o: Outcome): (d: Record)
    ensures Total(d) == 1
  {
    match o
    case Win => Record(1, 0, 0)
    case Loss => Record(0, 1, 0)
    case Draw => Record(0, 0, 1)
  }

  /** The `DO UPDATE SET wins = wins + @wins, ...` arm. */
  function Add(a: Record, b: Record): Record {
    Record(a.wins + b.wins, a.losses + b.losses, a.draws + b.draws)
  }

  /**
   * The table after the upsert: the delta row inserted when `id` has no row,
   * added to the existing row otherwise. Only the row of `id` is touched.
   */
  function Upserted(t: Table, id: string, o: Outcome): (t': Table)
    ensures t'.Keys == t.Keys + {id}
    ensures forall u :: u in t && u != id ==> t'[u] == t[u]
  {
    if id in t then t[id := Add(t[id], Delta(o))] else t[id := Delta(o)]
  }

  /** The counter that matches `o` moved up by one and the two others kept. */
  function Bumped(r: Record, o: Outcome): (r': Record)
    ensures Total(r') == Total(r) + 1
    ensures r'.wins == r.wins + (if o == Win then 1 else 0)
    ensures r'.losses == r.losses + (if o == Loss then 1 else 0)
    ensures r'.draws == r.draws + (if o == Draw then 1 else 0)
  {
    match o
    case Win => r.(wins := r.wins + 1)
    case Loss => r.(losses := r.losses + 1)
    case Draw => r.(draws := r.draws + 1)
  }

  /**
   * Inserting-or-adding is the same as creating an all-zero row when there is
   * none and incrementing exactly the counter of the outcome.
   */
  lemma UpsertedBumps(t: Table, id: string, o: Outcome)
    ensures Upserted(t, id, o)[id] == Bumped(Lookup(t, id), o)
  {}

  /** Every other user reads back the same row as before. */
  lemma UpsertedFrame(t: Table, id: string, o: Outcome, u: string)
    requires u != id
    ensures Lookup(Upserted(t, id, o), u) == Lookup(t, u)
  {}

  /** Row-wise "no counter went down". */
  predicate AtMost(a: Record, b: Record) {
    a.wins <= b.wins && a.losses <= b.losses && a.draws <= b.draws
  }

  /** `t'` keeps every row of `t` and no counter of it went down. */
  ghost predicate Grown(t: Table, t': Table) {
    t.Keys <= t'.Keys && forall u :: u in t ==> AtMost(t[u], t'[u])
  }

  /** Rows are never deleted and counters never decrease. */
  lemma UpsertedGrows(t: Table, id: string, o: Outcome)
    ensures Grown(t, Upserted(t, id, o))
  {}

  lemma {:induction false} GrownTransitive(t0: Table, t1: Table, t2: Table)
    requires Grown(t0, t1) && Grown(t1, t2)
    ensures Grown(t0, t2)
  {}

  /** The store behind `better-sqlite3`'s `game_results` table. */
  class StatsStore {
    var rows: Table

    /**
     * Opening the database: `CREATE TABLE IF NOT EXISTS` keeps whatever rows
     * an earlier run left.
     */
    constructor (persisted: Table)
      ensures rows == persisted
    {
      rows := persisted;
    }

    /** The `SELECT wins, losses, draws ... WHERE user_id = ?` query. */
    function Select(id: string): (r: Option<Record>)
      reads this
      ensures r.Some? <==> id in rows
      ensures r.Some? ==> r.value == rows[id]
    {
      if id in rows then Some(rows[id]) else None
    }

    /** The `INSERT ... ON CONFLICT(user_id) DO UPDATE` statement. */
    method Upsert(id: string, o: Outcome)
      modifies this
      ensures rows == Upserted(old(rows), id, o)
      ensures Grown(old(rows), rows)
    {
      var d := Delta(o);
      if id in rows {
        rows := rows[id := Add(rows[id], d)];
      } else {
        rows := rows[id := d];
      }
      UpsertedGrows(old(rows), id, o);
    }
  }
}
