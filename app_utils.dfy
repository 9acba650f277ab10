/**
 * app/utils.py: the transactional session scope, the default weather query (newest
 * first) and, alongside, the two aggregate queries the index page runs.  The
 * database is a sequence of committed rows; a session holds the rows added to it and
 * not yet committed, which its own queries already see (SQLAlchemy's autoflush).
 * Midnight in Asia/Taipei (`today`) is Calendar.Midnight with the Taipei offset.
 */
module AppUtils {
  import opened Wrappers
  import opened Errors
  import opened Calendar
  import opened AppModels

  /** The weather_data table; `accepting` says whether the server takes the next commit. */
  class Database {
    var rows: seq<WeatherRow>
    const accepting: bool

    constructor (rows: seq<WeatherRow>, accepting: bool)
      ensures this.rows == rows && this.accepting == accepting
    {
      this.rows := rows;
      this.accepting := accepting;
    }
  }

  /** A Session bound to the database. */
  class Session {
    const db: Database
    var pending: seq<WeatherRow>
    var open: bool

    constructor (db: Database)
      ensures this.db == db && pending == [] && open
    {
      this.db := db;
      pending := [];
      open := true;
    }

    /** What a query in this session sees: the committed rows, then the pending ones. */
    function View(): seq<WeatherRow>
      reads this, db
    {
      db.rows + pending
    }

    /** session.add */
    method Add(row: WeatherRow)
      modifies this`pending
      ensures pending == old(pending) + [row]
      ensures View() == old(View()) + [row]
    {
      pending := pending + [row];
    }

    /** session.commit: the pending rows become permanent, or the commit raises and nothing changes. */
    method Commit() returns (o: Outcome)
      modifies this`pending, db`rows
      ensures db.accepting ==> o == Pass && db.rows == old(db.rows) + old(pending) && pending == []
      ensures !db.accepting ==> o == Fail(StorageError) && db.rows == old(db.rows) && pending == old(pending)
      ensures View() == old(View())
    {
      if !db.accepting {
        return Fail(StorageError);
      }
      db.rows := db.rows + pending;
      pending := [];
      o := Pass;
    }

    /** session.rollback: the pending rows are discarded. */
    method Rollback()
      modifies this`pending
      ensures pending == [] && db.rows == old(db.rows)
    {
      pending := [];
    }

    /** session.close: what was not committed is discarded. */
    method Close()
      modifies this`pending, this`open
      ensures pending == [] && !open
    {
      pending := [];
      open := false;
    }
  }

  /**
   * Leaving a `with db_session()` block whose body ended with `body`: a body that
   * finished is committed; a body that raised, or a commit that raised, is rolled back
   * and the exception propagates; the session is closed either way.  The database
   * gains the pending rows exactly when the body finished and the commit went through.
   */
  method ExitSession(session: Session, body: Outcome) returns (o: Outcome)
    modifies session, session.db
    ensures o == if body.Fail? then body else if session.db.accepting then Pass else Fail(StorageError)
    ensures session.db.rows == old(session.db.rows) + (if o.Pass? then old(session.pending) else [])
    ensures session.pending == [] && !session.open
  {
    if body.Pass? {
      o := session.Commit();
      if o.Fail? {
        session.Rollback();
      }
    } else {
      session.Rollback();
      o := body;
    }
    session.Close();
  }

  // ---- query_weather_data: newest first ----

  /**
   * ORDER BY date DESC as PostgreSQL does it: NULL dates sort first, then the dates
   * from newest to oldest.
   */
  predicate NewerOrEqual(a: WeatherRow, b: WeatherRow) {
    a.date.None? || (b.date.Some? && a.date.value >= b.date.value)
  }

  predicate NewestFirst(rows: seq<WeatherRow>) {
    forall i, j :: 0 <= i < j < |rows| ==> NewerOrEqual(rows[i], rows[j])
  }

  function InsertByDate(row: WeatherRow, rows: seq<WeatherRow>): (r: seq<WeatherRow>)
    requires NewestFirst(rows)
    ensures NewestFirst(r) && multiset(r) == multiset(rows) + multiset{row}
  {
    if rows == [] || NewerOrEqual(row, rows[0]) then
      [row] + rows
    else
      var tail := InsertByDate(row, rows[1..]);
      assert rows == [rows[0]] + rows[1..];
      forall k | 0 <= k < |tail|
        ensures NewerOrEqual(rows[0], tail[k])
      {
        assert tail[k] in multiset(tail);
        if tail[k] != row {
          assert tail[k] in multiset(rows[1..]);
          var j :| 0 <= j < |rows[1..]| && rows[1..][j] == tail[k];
          assert rows[j + 1] == tail[k];
        }
      }
      [rows[0]] + tail
  }

  /**
   * query_weather_data(session): every row of the session's view, in a newest-first
   * order.  Rows with equal dates come in an order SQL leaves open; this is one of them.
   */
  function QueryWeatherData(rows: seq<WeatherRow>): (r: seq<WeatherRow>)
    ensures NewestFirst(r) && multiset(r) == multiset(rows)
  {
    if rows == [] then []
    else
      assert rows == [rows[0]] + rows[1..];
      InsertByDate(rows[0], QueryWeatherData(rows[1..]))
  }

  /** A row the filter `WeatherData.date <= t` keeps (a NULL date compares to nothing). */
  predicate AtOrBefore(row: WeatherRow, t: Timestamp) {
    row.date.Some? && row.date.value <= t
  }

  /**
   * `.filter(WeatherData.date <= t).first()`: the first row, in query order, dated at
   * or before `t`; on a newest-first sequence that is the latest such row.
   */
  function FirstAtOrBefore(rows: seq<WeatherRow>, t: Timestamp): (r: Option<WeatherRow>)
    ensures r.None? <==> forall i :: 0 <= i < |rows| ==> !AtOrBefore(rows[i], t)
    ensures r.Some? ==> r.value in rows && AtOrBefore(r.value, t)
    ensures r.Some? && NewestFirst(rows) ==>
      forall i :: 0 <= i < |rows| && AtOrBefore(rows[i], t) ==> rows[i].date.value <= r.value.date.value
  {
    if rows == [] then None
    else if AtOrBefore(rows[0], t) then Some(rows[0])
    else
      var r := FirstAtOrBefore(rows[1..], t);
      assert forall i :: 1 <= i < |rows| ==> rows[i] == rows[1..][i - 1];
      r
  }

  // ---- func.max / func.min of the temperature since a date ----

  /** A row the index page's aggregates take: dated at or after `since`, with a temperature. */
  predicate Aggregated(row: WeatherRow, since: Timestamp) {
    row.date.Some? && row.date.value >= since && row.temperature.Some?
  }

  /** `x` is at least as extreme as `y`: higher for the maximum, lower for the minimum. */
  predicate AtLeastAsExtreme(x: real, y: real, highest: bool) {
    if highest then x >= y else x <= y
  }

  /**
   * `SELECT max(temperature)` (highest) or `min(temperature)` over the rows dated at or
   * after `since`: NULL temperatures are skipped, and no qualifying row gives NULL.
   */
  function TemperatureExtreme(rows: seq<WeatherRow>, since: Timestamp, highest: bool): (m: Option<real>)
    ensures m.None? <==> forall i :: 0 <= i < |rows| ==> !Aggregated(rows[i], since)
    ensures m.Some? ==> exists i :: 0 <= i < |rows| && Aggregated(rows[i], since) && rows[i].temperature.value == m.value
    ensures m.Some? ==> forall i :: 0 <= i < |rows| && Aggregated(rows[i], since) ==>
      AtLeastAsExtreme(m.value, rows[i].temperature.value, highest)
  {
    if rows == [] then None
    else
      var rest := TemperatureExtreme(rows[1..], since, highest);
      assert forall i :: 1 <= i < |rows| ==> rows[i] == rows[1..][i - 1];
      if !Aggregated(rows[0], since) then
        rest
      else if rest.None? || AtLeastAsExtreme(rows[0].temperature.value, rest.value, highest) then
        Some(rows[0].temperature.value)
      else
        rest
  }

  /** The day's minimum never exceeds its maximum, and both exist together. */
  lemma ExtremesOrdered(rows: seq<WeatherRow>, since: Timestamp)
    ensures TemperatureExtreme(rows, since, true).Some? <==> TemperatureExtreme(rows, since, false).Some?
    ensures TemperatureExtreme(rows, since, true).Some? ==>
      TemperatureExtreme(rows, since, false).value <= TemperatureExtreme(rows, since, true).value
  {
    var hi := TemperatureExtreme(rows, since, true);
    var lo := TemperatureExtreme(rows, since, false);
    if hi.Some? {
      var i :| 0 <= i < |rows| && Aggregated(rows[i], since) && rows[i].temperature.value == hi.value;
      assert AtLeastAsExtreme(lo.value, rows[i].temperature.value, false);
    }
  }
}
