/**
 * app/index.py: the web app.  It serves the current weather from the database when
 * a recent enough record exists and otherwise fetches one from the NTU AS provider
 * and stores it; the index page adds a report of the past day at three-hour steps and
 * the day's extreme temperatures; /api publishes the current weather as JSON, the
 * document NTUSAProvider reads.  The clock (`datetime.now`) is a parameter, read once
 * per request; bottle's routing, templates and logging are not modelled.
 */
module AppIndex {
  import opened Wrappers
  import opened Errors
  import opened Calendar
  import opened DateText
  import opened NtuModels
  import opened NtuProviders
  import opened AppModels
  import opened AppUtils

  /** A stored row as get_cached_weather hands it out: named after the provider and marked valid. */
  function Cached(row: WeatherRow, name: string): (w: Weather)
    ensures FromWeather(w) == row
    ensures w.provider == Some(name) && w.valid == Some(true)
  {
    ToWeather(row).(provider := Some(name), valid := Some(true))
  }

  /**
   * get_cached_weather(session, max_age, from_date): the latest row dated at or before
   * `from`, provided it is less than `maxAge` seconds old at `from`.
   */
  function CachedWeather(rows: seq<WeatherRow>, maxAge: int, from: Timestamp, name: string): (r: Option<Weather>)
    ensures r.None? <==> forall i :: 0 <= i < |rows| && AtOrBefore(rows[i], from) ==> from - rows[i].date.value >= maxAge
    ensures r.Some? ==> exists i :: (0 <= i < |rows| && AtOrBefore(rows[i], from)
      && from - rows[i].date.value < maxAge && r.value == Cached(rows[i], name))
    ensures r.Some? ==> forall i :: 0 <= i < |rows| && AtOrBefore(rows[i], from) ==> rows[i].date.value <= r.value.date.value
  {
    var query := QueryWeatherData(rows);
    InQuery(rows, query);
    match FirstAtOrBefore(query, from)
    case None => None
    case Some(row) =>
      if from - row.date.value < maxAge then Some(Cached(row, name)) else None
  }

  /** Every row of the table is somewhere in the query's result, and nothing else is. */
  lemma InQuery(rows: seq<WeatherRow>, query: seq<WeatherRow>)
    requires multiset(query) == multiset(rows)
    ensures forall i :: 0 <= i < |rows| ==> rows[i] in query
    ensures forall x :: x in query ==> x in rows
  {
    forall i | 0 <= i < |rows|
      ensures rows[i] in query
    {
      assert rows[i] in multiset(rows);
    }
    forall x | x in query
      ensures x in rows
    {
      assert x in multiset(query);
    }
  }

  /**
   * get_or_fetch_weather(session, max_age): a cache hit changes nothing; on a miss the
   * provider is asked, and a Weather it returns is added to the session and
   * committed.  A fetch that raises leaves the session as it was; a commit that
   * raises leaves the row pending.
   */
  method GetOrFetchWeather(session: Session, provider: NtuasProvider, maxAge: int, now: Timestamp, response: HttpResponse)
    returns (r: Result<Weather>)
    modifies session, session.db, provider
    ensures var hit := CachedWeather(old(session.View()), maxAge, now, provider.name);
      hit.Some? ==> (r == Success(hit.value) && session.db.rows == old(session.db.rows)
        && session.pending == old(session.pending) && provider.text == old(provider.text))
    ensures var hit := CachedWeather(old(session.View()), maxAge, now, provider.name);
      var fetched := NtuasResponse(response, provider.name);
      hit.None? && fetched.Failure? ==>
        r == fetched && session.db.rows == old(session.db.rows) && session.pending == old(session.pending)
    ensures var hit := CachedWeather(old(session.View()), maxAge, now, provider.name);
      var fetched := NtuasResponse(response, provider.name);
      hit.None? && fetched.Success? ==>
        session.View() == old(session.View()) + [FromWeather(fetched.value)]
        && r == (if session.db.accepting then fetched else Failure(StorageError))
        && (session.db.accepting ==> session.pending == [])
    ensures r.Success? ==> r.value.provider == Some(provider.name)
  {
    var hit := CachedWeather(session.View(), maxAge, now, provider.name);
    if hit.Some? {
      return Success(hit.value);
    }
    r := provider.Get(response);
    if r.Failure? {
      return;
    }
    session.Add(FromWeather(r.value));
    var committed := session.Commit();
    if committed.Fail? {
      r := Failure(committed.error);
    }
  }

  // ---- aggregate_daily_report ----

  const Step := 10800    // timedelta(hours=3)
  const Window := 1800   // max_age of each report slot
  const Slots := 8

  /** The record shown for a slot with no recent enough row: dated, otherwise empty, marked invalid. */
  function Placeholder(t: Timestamp): (w: Weather)
    ensures w.date == Some(t) && w.valid == Some(false)
    ensures w.temperature.None? && w.pressure.None? && w.humidity.None? && w.windSpeed.None?
      && w.windDirection.None? && w.rainPerHour.None? && w.rainPerMinute.None?
      && w.groundTemperature.None? && w.provider.None?
  {
    Weather(Some(t), None, None, None, None, None, None, None, None, None, Some(false))
  }

  /** `weather or invalid_weather(date=date)` for the slot ending at `t`. */
  function Slot(rows: seq<WeatherRow>, t: Timestamp, name: string): (w: Weather)
    ensures w.date.Some? && t - Window < w.date.value <= t
  {
    match CachedWeather(rows, Window, t, name)
    case Some(c) => c
    case None => Placeholder(t)
  }

  /** A slot is marked valid exactly when a recent enough row filled it. */
  lemma SlotMarksCacheHits(rows: seq<WeatherRow>, t: Timestamp, name: string)
    ensures Slot(rows, t, name).valid == Some(CachedWeather(rows, Window, t, name).Some?)
    ensures CachedWeather(rows, Window, t, name).None? ==> Slot(rows, t, name) == Placeholder(t)
  {
  }

  function Reverse<T>(s: seq<T>): (r: seq<T>)
    ensures |r| == |s| && forall i :: 0 <= i < |s| ==> r[i] == s[|s| - 1 - i]
  {
    if s == [] then [] else Reverse(s[1..]) + [s[0]]
  }

  /** The end of report slot `k` (0 is the oldest): `8 - k` steps of three hours before `now`. */
  function SlotTime(now: Timestamp, k: int): Timestamp {
    now - Step * (Slots - k)
  }

  /** Slots three hours apart with half-hour windows cannot overlap: the report's dates strictly increase. */
  lemma SlotsIncrease(rows: seq<WeatherRow>, now: Timestamp, name: string, i: int, j: int)
    requires 0 <= i < j < Slots
    ensures Slot(rows, SlotTime(now, i), name).date.value < Slot(rows, SlotTime(now, j), name).date.value
  {
    assert SlotTime(now, j) - SlotTime(now, i) == Step * (j - i) >= Step;
  }

  /** `report` is the daily report over `rows`: slot k (0 is the oldest) ends at SlotTime(now, k). */
  predicate IsDailyReport(report: seq<Weather>, rows: seq<WeatherRow>, now: Timestamp, name: string) {
    |report| == Slots && forall k :: 0 <= k < Slots ==> report[k] == Slot(rows, SlotTime(now, k), name)
  }

  /** The report's dates strictly increase and lie between 24.5 and 3 hours before `now`. */
  lemma DailyReportDates(report: seq<Weather>, rows: seq<WeatherRow>, now: Timestamp, name: string)
    requires IsDailyReport(report, rows, now, name)
    ensures forall k :: 0 <= k < Slots ==> report[k].date.Some?
    ensures forall i, j :: 0 <= i < j < Slots ==> report[i].date.value < report[j].date.value
    ensures forall k :: 0 <= k < Slots ==> now - Step * Slots - Window < report[k].date.value <= now - Step
  {
    forall i, j | 0 <= i < j < Slots
      ensures report[i].date.value < report[j].date.value
    {
      SlotsIncrease(rows, now, name, i, j);
    }
    forall k | 0 <= k < Slots
      ensures now - Step * Slots - Window < report[k].date.value <= now - Step
    {
      assert now - Step * Slots <= SlotTime(now, k) <= now - Step;
    }
  }

  /**
   * The loop of aggregate_daily_report: stepping back from `now` three hours at a time,
   * eight times, collecting `slot` of each time, newest first.
   */
  method StepBack(slot: Timestamp -> Weather, now: Timestamp) returns (collected: seq<Weather>)
    ensures |collected| == Slots
    ensures forall k :: 0 <= k < Slots ==> collected[k] == slot(now - Step * (k + 1))
  {
    collected := [];
    var date := now;
    for step := 0 to Slots
      invariant |collected| == step && date == now - Step * step
      invariant forall k :: 0 <= k < step ==> collected[k] == slot(now - Step * (k + 1))
    {
      date := date - Step;
      collected := collected + [slot(date)];
    }
  }

  /**
   * aggregate_daily_report(session): eight slots three hours apart, each the latest
   * row of the half hour before it (or a placeholder), returned oldest first.
   */
  method AggregateDailyReport(session: Session, now: Timestamp, name: string) returns (report: seq<Weather>)
    ensures IsDailyReport(report, session.View(), now, name)
  {
    var rows := session.View();
    var collected := StepBack(t => Slot(rows, t, name), now);
    report := Reverse(collected);
    assert forall k :: 0 <= k < Slots ==> report[k] == collected[Slots - 1 - k];
  }

  // ---- routes ----

  const DataUnavailable := "data_unavailable"
  const ServerUnavailable := "server_unavailable"

  /** The error document of the two routes: a ValueError means data, anything else the server. */
  function ErrorCode(e: Error): (code: string)
    ensures code == DataUnavailable <==> IsValueError(e)
    ensures code == ServerUnavailable <==> !IsValueError(e)
  {
    if IsValueError(e) then DataUnavailable else ServerUnavailable
  }

  /** What the index route hands to its template, or the error it reports or, in debug mode, re-raises. */
  datatype Page =
    | IndexPage(weather: Weather, daily: seq<Weather>, tempMax: Option<real>, tempMin: Option<real>)
    | ErrorPage(code: string)
    | Raised(error: Error)

  function ErrorPageFor(e: Error, debug: bool): Page {
    if debug then Raised(e) else ErrorPage(ErrorCode(e))
  }

  /**
   * index(): the current weather (15 minutes of caching), the daily report and the
   * day's extremes since Taipei midnight, all inside one session scope.
   */
  method Index(session: Session, provider: NtuasProvider, now: Timestamp, response: HttpResponse, debug: bool)
    returns (page: Page)
    modifies session, session.db, provider
    ensures !debug ==> !page.Raised?
    ensures page.ErrorPage? ==> page.code == DataUnavailable || page.code == ServerUnavailable
    ensures var hit := CachedWeather(old(session.View()), 900, now, provider.name);
      hit.Some? && session.db.accepting ==> page.IndexPage? && page.weather == hit.value
    ensures var hit := CachedWeather(old(session.View()), 900, now, provider.name);
      var fetched := NtuasResponse(response, provider.name);
      hit.None? && fetched.Failure? ==> page == ErrorPageFor(fetched.error, debug)
    ensures var hit := CachedWeather(old(session.View()), 900, now, provider.name);
      var fetched := NtuasResponse(response, provider.name);
      hit.None? && fetched.Success? && session.db.accepting ==> page.IndexPage? && page.weather == fetched.value
    ensures var hit := CachedWeather(old(session.View()), 900, now, provider.name);
      var fetched := NtuasResponse(response, provider.name);
      (hit.Some? || fetched.Success?) && !session.db.accepting ==> page == ErrorPageFor(StorageError, debug)
    ensures page.IndexPage? ==>
      var midnight := Midnight(now, TaipeiOffset);
      IsDailyReport(page.daily, session.db.rows, now, provider.name)
      && page.tempMax == TemperatureExtreme(session.db.rows, midnight, true)
      && page.tempMin == TemperatureExtreme(session.db.rows, midnight, false)
    ensures session.pending == [] && !session.open
  {
    var weather := GetOrFetchWeather(session, provider, 900, now, response);
    var body: Outcome := Pass;
    var daily: seq<Weather> := [];
    var tempMax: Option<real> := None;
    var tempMin: Option<real> := None;
    if weather.Failure? {
      body := Fail(weather.error);
    } else {
      daily := AggregateDailyReport(session, now, provider.name);
      var midnight := Midnight(now, TaipeiOffset);
      tempMax := TemperatureExtreme(session.View(), midnight, true);
      tempMin := TemperatureExtreme(session.View(), midnight, false);
    }
    ghost var seen := session.View();
    var o := ExitSession(session, body);
    if o.Fail? {
      return ErrorPageFor(o.error, debug);
    }
    assert session.db.rows == seen;
    page := IndexPage(weather.value, daily, tempMax, tempMin);
  }

  /** The JSON value of an optional float column. */
  function Number(x: Option<real>): JsonValue {
    if x.Some? then JFloat(x.value) else JNull
  }

  /** The value /api publishes under `key`, one of NtusaKeys, with `date` the date's text. */
  function Field(w: Weather, date: string, key: string): JsonValue {
    if key == "date" then JString(date)
    else if key == "provider" then (if w.provider.Some? then JString(w.provider.value) else JNull)
    else if key == "temperature" then Number(w.temperature)
    else if key == "pressure" then Number(w.pressure)
    else if key == "humidity" then Number(w.humidity)
    else if key == "wind_speed" then Number(w.windSpeed)
    else if key == "wind_direction" then (if w.windDirection.Some? then JInt(w.windDirection.value) else JNull)
    else if key == "rain" then Number(w.rainPerHour)
    else if key == "rain_minute" then Number(w.rainPerMinute)
    else if key == "temp_ground" then Number(w.groundTemperature)
    else JNull
  }

  /** The dictionary api() builds, with `date` the text of the date. */
  function ApiDocument(w: Weather, date: string): (m: map<string, JsonValue>)
    ensures m.Keys == NtusaKeys
  {
    map key | key in NtusaKeys :: Field(w, date, key)
  }

  /**
   * The document /api returns for a Weather: the keys NTUSAProvider reads.
   * `None.isoformat()` raises an AttributeError; an instant Asia/Taipei cannot show
   * (near year 1 or 9999) raises the OverflowError astimezone would.
   */
  function ApiBody(w: Weather): (r: Result<map<string, JsonValue>>)
    ensures r.Success? <==> w.date.Some? && InRange(w.date.value, TaipeiOffset)
    ensures w.date.None? ==> r == Failure(AttributeError)
    ensures w.date.Some? && !InRange(w.date.value, TaipeiOffset) ==> r == Failure(OverflowError)
    ensures r.Success? ==> r.value.Keys == NtusaKeys
  {
    if w.date.None? then Failure(AttributeError)
    else if !InRange(w.date.value, TaipeiOffset) then Failure(OverflowError)
    else Success(ApiDocument(w, IsoFormat(w.date.value, 'T', true)))
  }

  /** The document's entries, key by key: the date in ISO form with its offset, the columns as numbers. */
  lemma ApiBodyFields(w: Weather)
    requires w.date.Some? && InRange(w.date.value, TaipeiOffset)
    ensures ApiBody(w).Success?
    ensures var m := ApiBody(w).value;
      "date" in m && "temperature" in m && "pressure" in m && "humidity" in m && "wind_speed" in m
      && "wind_direction" in m && "rain" in m && "rain_minute" in m && "temp_ground" in m && "provider" in m
      && m["date"] == JString(IsoFormat(w.date.value, 'T', true))
      && m["temperature"] == Number(w.temperature)
      && m["pressure"] == Number(w.pressure)
      && m["humidity"] == Number(w.humidity)
      && m["wind_speed"] == Number(w.windSpeed)
      && m["wind_direction"] == (if w.windDirection.Some? then JInt(w.windDirection.value) else JNull)
      && m["rain"] == Number(w.rainPerHour)
      && m["rain_minute"] == Number(w.rainPerMinute)
      && m["temp_ground"] == Number(w.groundTemperature)
      && m["provider"] == (if w.provider.Some? then JString(w.provider.value) else JNull)
  {
    var date := IsoFormat(w.date.value, 'T', true);
    assert ApiBody(w).value == ApiDocument(w, date);
    DocumentMeasurements(w, date);
    DocumentRest(w, date);
  }

  /** The measured columns of the document. */
  lemma DocumentMeasurements(w: Weather, date: string)
    ensures var m := ApiDocument(w, date);
      "temperature" in m && "pressure" in m && "humidity" in m && "wind_speed" in m && "wind_direction" in m
      && m["temperature"] == Number(w.temperature)
      && m["pressure"] == Number(w.pressure)
      && m["humidity"] == Number(w.humidity)
      && m["wind_speed"] == Number(w.windSpeed)
      && m["wind_direction"] == (if w.windDirection.Some? then JInt(w.windDirection.value) else JNull)
  {
  }

  /** The date, rain, ground temperature and provider of the document. */
  lemma DocumentRest(w: Weather, date: string)
    ensures var m := ApiDocument(w, date);
      "date" in m && "rain" in m && "rain_minute" in m && "temp_ground" in m && "provider" in m
      && m["date"] == JString(date)
      && m["rain"] == Number(w.rainPerHour)
      && m["rain_minute"] == Number(w.rainPerMinute)
      && m["temp_ground"] == Number(w.groundTemperature)
      && m["provider"] == (if w.provider.Some? then JString(w.provider.value) else JNull)
  {
  }

  /**
   * The relay round trip: what /api publishes for a complete Weather with a named
   * provider, NTUSAProvider reads back as the same Weather (less the `valid` mark).
   */
  lemma RelayRoundTrip(w: Weather, name: string)
    requires Complete(w) && InRange(w.date.value, TaipeiOffset) && w.provider.value != ""
    ensures ApiBody(w).Success?
    ensures ParseNtusaData(JObject(ApiBody(w).value), name) == Success(w.(valid := None))
  {
    IsoFormatRoundTrip(w.date.value);
    ApiBodyIsDocument(w);
    DocumentReadsBack(w, IsoFormat(w.date.value, 'T', true), name);
  }

  /** A date Asia/Taipei can show is published as the dictionary with its isoformat() text. */
  lemma ApiBodyIsDocument(w: Weather)
    requires w.date.Some? && InRange(w.date.value, TaipeiOffset)
    ensures ApiBody(w) == Success(ApiDocument(w, IsoFormat(w.date.value, 'T', true)))
  {
  }

  /** The relay reads the published dictionary back, given that its date text reads back as the record's date. */
  lemma DocumentReadsBack(w: Weather, date: string, name: string)
    requires Complete(w) && w.provider.value != "" && FromIsoFormat(date) == w.date
    ensures ParseNtusaData(JObject(ApiDocument(w, date)), name) == Success(w.(valid := None))
  {
    DocumentRest(w, date);
    assert DateOf(JString(date)) == Success(w.date.value);
    MeasurementsReadBack(w, date, name);
  }

  /** The five measured columns read back, and then the rest of the document. */
  lemma MeasurementsReadBack(w: Weather, date: string, name: string)
    requires Complete(w) && w.provider.value != ""
    ensures NtusaReadings(JObject(ApiDocument(w, date)), w.date.value, name) == Success(w.(valid := None))
  {
    DocumentMeasurements(w, date);
    RestReadsBack(w, date, name);
  }

  /** Rain, ground temperature and provider read back into a record that holds the measurements. */
  lemma RestReadsBack(w: Weather, date: string, name: string)
    requires Complete(w) && w.provider.value != ""
    ensures NtusaRainAndProvider(JObject(ApiDocument(w, date)),
      Weather(w.date, w.temperature, w.pressure, w.humidity, w.windSpeed, w.windDirection, None, None, None, None, None),
      name) == Success(w.(valid := None))
  {
    DocumentRest(w, date);
  }

  /** What /api sends back. */
  datatype ApiReply = Document(fields: map<string, JsonValue>) | ErrorDocument(code: string) | ApiRaised(error: Error)

  /** api(): the current weather with 5 minutes of caching, as a JSON document. */
  method Api(session: Session, provider: NtuasProvider, now: Timestamp, response: HttpResponse, debug: bool)
    returns (reply: ApiReply)
    modifies session, session.db, provider
    ensures !debug ==> !reply.ApiRaised?
    ensures reply.ErrorDocument? ==> reply.code == DataUnavailable || reply.code == ServerUnavailable
    ensures var hit := CachedWeather(old(session.View()), 300, now, provider.name);
      hit.Some? && session.db.accepting ==>
        reply == match ApiBody(hit.value)
          case Success(doc) => Document(doc)
          case Failure(e) => if debug then ApiRaised(e) else ErrorDocument(ErrorCode(e))
    ensures var hit := CachedWeather(old(session.View()), 300, now, provider.name);
      var fetched := NtuasResponse(response, provider.name);
      hit.None? && fetched.Failure? ==>
        reply == if debug then ApiRaised(fetched.error) else ErrorDocument(ErrorCode(fetched.error))
    ensures var hit := CachedWeather(old(session.View()), 300, now, provider.name);
      var fetched := NtuasResponse(response, provider.name);
      hit.None? && fetched.Success? && session.db.accepting ==>
        reply == match ApiBody(fetched.value)
          case Success(doc) => Document(doc)
          case Failure(e) => if debug then ApiRaised(e) else ErrorDocument(ErrorCode(e))
    ensures var hit := CachedWeather(old(session.View()), 300, now, provider.name);
      var fetched := NtuasResponse(response, provider.name);
      (hit.Some? || fetched.Success?) && !session.db.accepting ==>
        reply == if debug then ApiRaised(StorageError) else ErrorDocument(ErrorCode(StorageError))
    ensures session.pending == [] && !session.open
  {
    var weather := GetOrFetchWeather(session, provider, 300, now, response);
    var o := ExitSession(session, if weather.Success? then Pass else Fail(weather.error));
    if o.Fail? {
      return if debug then ApiRaised(o.error) else ErrorDocument(ErrorCode(o.error));
    }
    var body := ApiBody(weather.value);
    if body.Failure? {
      return if debug then ApiRaised(body.error) else ErrorDocument(ErrorCode(body.error));
    }
    reply := Document(body.value);
  }
}
