/**
 * ntuweather/providers.py: the two feed adapters.  NTUASProvider scrapes the
 * laboratory's HTML page field by field; NTUSAProvider reads the JSON relay that the
 * web app's /api endpoint publishes.  The HTTP exchange itself is an oracle: the
 * response (or the failure to get one) is a parameter.
 */
module NtuProviders {
  import opened Wrappers
  import opened Errors
  import opened Strings
  import opened Calendar
  import opened DateText
  import opened Regex
  import opened NtuModels

  const NtuasName := "國立臺灣大學中尺度暨地形降水研究室"
  const NtuasUrl := "http://140.112.67.180/data.php"
  const NtusaName := "第28屆臺大學生會福利部"
  const NtusaUrl := "http://weather.ntustudents.org/api"

  /** What requests.get(url) produced: no connection, or a status code and a body. */
  datatype HttpResponse = Unreachable | Reply(status: int, text: string)

  /** raise_for_status raises for 4xx client errors and 5xx server errors. */
  predicate IsErrorStatus(status: int) {
    400 <= status < 600
  }

  // ---- NTUASProvider: the HTML feed ----

  /** `資料擷取時間：\s*(\d{4}-\d{2}-\d{2} \d{2}:\d{2}:\d{2})` */
  const DatePattern := Pattern([Lit("資料擷取時間："), Star(Space)], Stamp('-'), [])

  /** `<caption>\s*([\d\.]+)\s*</div>` */
  function ReadingPattern(caption: string): Pattern {
    Pattern([Lit(caption), Star(Space)], Plus(DigitOrDot), [Star(Space), Lit("</div>")])
  }

  const TemperaturePattern := ReadingPattern("氣溫(℃)：")
  const PressurePattern := ReadingPattern("海平面氣壓(hPa)：")
  const HumidityPattern := ReadingPattern("相對溼度(％)：")
  const WindSpeedPattern := ReadingPattern("風速(推移十分鐘平均)(m/s)：")
  const WindDirectionPattern := ReadingPattern("風向(推移十分鐘平均)(方位)：")
  const RainPerHourPattern := ReadingPattern("小時累積降雨量(mm)：")
  const RainPerMinutePattern := ReadingPattern("分鐘降雨量(mm)：")
  const GroundTemperaturePattern := ReadingPattern("0cm地溫(℃)：")

  /**
   * _search_date: the stamp found in `text`, read with '%Y-%m-%d %H:%M:%S' and
   * localized to Asia/Taipei; a missing, empty or impossible stamp raises a
   * WeatherParseError carrying the page text.
   */
  function SearchDate(text: string, p: Pattern): (r: Result<Timestamp>)
    ensures r.Failure? ==> r.error == WeatherParseError(Some(text))
    ensures r.Success? <==> SearchGroup(p, text).Some? && ParseStamp(SearchGroup(p, text).value, '-').Some?
    ensures r.Success? ==> r.value == Localize(ParseStamp(SearchGroup(p, text).value, '-').value, TaipeiOffset)
  {
    var s := SearchGroup(p, text);
    if s.Some? && s.value != "" then
      match ParseStamp(s.value, '-')
      case Some(t) => Success(Localize(t, TaipeiOffset))
      case None => Failure(WeatherParseError(Some(text)))
    else
      Failure(WeatherParseError(Some(text)))
  }

  /** A page whose date capture is the stamp of a valid time yields that time, read in Asia/Taipei. */
  lemma SearchDateOfStamp(text: string, p: Pattern, t: LocalTime)
    requires ValidLocal(t) && SearchGroup(p, text) == Some(StampText(t, '-'))
    ensures SearchDate(text, p) == Success(Localize(t, TaipeiOffset))
  {
    StampTextParses(t, '-');
  }

  /** Conversely, a date read from a page is the Taipei instant of a time whose stamp is the capture. */
  lemma SearchDateReadsStamp(text: string, p: Pattern)
    requires SearchDate(text, p).Success?
    ensures var t := ParseStamp(SearchGroup(p, text).value, '-').value;
      StampText(t, '-') == SearchGroup(p, text).value && SearchDate(text, p).value == Localize(t, TaipeiOffset)
  {
    ParseStampReadsText(SearchGroup(p, text).value, '-');
  }

  /** _search_int: int() of the capture; no match, an empty capture or a ValueError raise. */
  function SearchInt(text: string, p: Pattern): (r: Result<int>)
    ensures r.Failure? ==> r.error == WeatherParseError(Some(text))
    ensures r.Success? <==> SearchGroup(p, text).Some? && PyInt(SearchGroup(p, text).value).Some?
    ensures r.Success? ==> r.value == PyInt(SearchGroup(p, text).value).value
  {
    var s := SearchGroup(p, text);
    if s.Some? && s.value != "" then
      match PyInt(s.value)
      case Some(n) => Success(n)
      case None => Failure(WeatherParseError(Some(text)))
    else
      Failure(WeatherParseError(Some(text)))
  }

  /** _search_float: float() of the capture; no match, an empty capture or a ValueError raise. */
  function SearchFloat(text: string, p: Pattern): (r: Result<real>)
    ensures r.Failure? ==> r.error == WeatherParseError(Some(text))
    ensures r.Success? <==> SearchGroup(p, text).Some? && PyFloat(SearchGroup(p, text).value).Some?
    ensures r.Success? ==> r.value == PyFloat(SearchGroup(p, text).value).value
  {
    var s := SearchGroup(p, text);
    if s.Some? && s.value != "" then
      match PyFloat(s.value)
      case Some(x) => Success(x)
      case None => Failure(WeatherParseError(Some(text)))
    else
      Failure(WeatherParseError(Some(text)))
  }

  /**
   * The Weather(...) call at the end of NTUASProvider.get: its keyword arguments are
   * evaluated in order and the first raise abandons the whole record.
   */
  function ParseNtuasText(text: string, name: string): (r: Result<Weather>)
    ensures r.Success? ==> Complete(r.value) && r.value.provider == Some(name) && r.value.valid.None?
    ensures r.Failure? ==> r.error == WeatherParseError(Some(text))
  {
    var date :- SearchDate(text, DatePattern);
    var temperature :- SearchFloat(text, TemperaturePattern);
    var pressure :- SearchFloat(text, PressurePattern);
    var humidity :- SearchFloat(text, HumidityPattern);
    var windSpeed :- SearchFloat(text, WindSpeedPattern);
    var windDirection :- SearchInt(text, WindDirectionPattern);
    var rainPerHour :- SearchFloat(text, RainPerHourPattern);
    var rainPerMinute :- SearchFloat(text, RainPerMinutePattern);
    var groundTemperature :- SearchFloat(text, GroundTemperaturePattern);
    Success(Weather(Some(date), Some(temperature), Some(pressure), Some(humidity), Some(windSpeed),
      Some(windDirection), Some(rainPerHour), Some(rainPerMinute), Some(groundTemperature),
      Some(name), None))
  }

  /** All or nothing: the page yields a Weather exactly when each of its nine fields parses, and then it holds them. */
  lemma NtuasAllOrNothing(text: string, name: string)
    ensures ParseNtuasText(text, name).Success? <==>
      SearchDate(text, DatePattern).Success? && SearchFloat(text, TemperaturePattern).Success?
      && SearchFloat(text, PressurePattern).Success? && SearchFloat(text, HumidityPattern).Success?
      && SearchFloat(text, WindSpeedPattern).Success? && SearchInt(text, WindDirectionPattern).Success?
      && SearchFloat(text, RainPerHourPattern).Success? && SearchFloat(text, RainPerMinutePattern).Success?
      && SearchFloat(text, GroundTemperaturePattern).Success?
    ensures ParseNtuasText(text, name).Success? ==>
      var w := ParseNtuasText(text, name).value;
      w.date == Some(SearchDate(text, DatePattern).value)
      && w.temperature == Some(SearchFloat(text, TemperaturePattern).value)
      && w.pressure == Some(SearchFloat(text, PressurePattern).value)
      && w.humidity == Some(SearchFloat(text, HumidityPattern).value)
      && w.windSpeed == Some(SearchFloat(text, WindSpeedPattern).value)
      && w.windDirection == Some(SearchInt(text, WindDirectionPattern).value)
      && w.rainPerHour == Some(SearchFloat(text, RainPerHourPattern).value)
      && w.rainPerMinute == Some(SearchFloat(text, RainPerMinutePattern).value)
      && w.groundTemperature == Some(SearchFloat(text, GroundTemperaturePattern).value)
  {
  }

  /**
   * A reading read with int() (the wind direction) parses exactly when its capture has
   * no dot, and then it is the capture's decimal value; so (NtuasAllOrNothing) a wind
   * direction written `12.5` fails the whole page.
   */
  lemma IntegerReading(text: string, p: Pattern)
    requires p.group == Plus(DigitOrDot)
    ensures SearchInt(text, p).Success? <==>
      SearchGroup(p, text).Some? && forall i :: 0 <= i < |SearchGroup(p, text).value| ==> SearchGroup(p, text).value[i] != '.'
    ensures SearchInt(text, p).Success? ==>
      AllDigits(SearchGroup(p, text).value) && SearchInt(text, p).value == NatValue(SearchGroup(p, text).value)
  {
    var g := SearchGroup(p, text);
    DigitGroupCapture(p, text);
    if g.Some? {
      PyIntOfDigitRun(g.value);
    }
  }

  /**
   * A reading read with float() parses exactly when its capture holds a digit and at
   * most one dot; a capture such as `.` or `1.2.3` fails the whole page.
   */
  lemma DecimalReading(text: string, p: Pattern)
    requires p.group == Plus(DigitOrDot)
    ensures SearchFloat(text, p).Success? <==>
      SearchGroup(p, text).Some?
      && (exists i :: 0 <= i < |SearchGroup(p, text).value| && IsDigit(SearchGroup(p, text).value[i]))
      && (forall i, j :: 0 <= i < j < |SearchGroup(p, text).value| && SearchGroup(p, text).value[i] == '.' ==>
            SearchGroup(p, text).value[j] != '.')
  {
    var g := SearchGroup(p, text);
    DigitGroupCapture(p, text);
    if g.Some? {
      PyFloatOfDigitRun(g.value);
    }
  }

  /**
   * What NTUASProvider.get returns or raises for a response: transport and status
   * failures come before any parsing, and an empty page fails with its (empty) text.
   */
  function NtuasResponse(response: HttpResponse, name: string): (r: Result<Weather>)
    ensures response.Unreachable? ==> r == Failure(ConnectionError)
    ensures response.Reply? && IsErrorStatus(response.status) ==> r == Failure(HttpError(response.status))
    ensures response.Reply? && !IsErrorStatus(response.status) ==>
      r == if response.text == "" then Failure(WeatherParseError(Some(""))) else ParseNtuasText(response.text, name)
    ensures r.Success? ==> Complete(r.value) && r.value.provider == Some(name) && r.value.valid.None?
  {
    match response
    case Unreachable => Failure(ConnectionError)
    case Reply(status, text) =>
      if IsErrorStatus(status) then Failure(HttpError(status))
      else if text == "" then Failure(WeatherParseError(Some(text)))
      else ParseNtuasText(text, name)
  }

  /** The provider for the NTU AS page; `text` is the last page fetched. */
  class NtuasProvider {
    const name: string
    const url: string
    var text: Option<string>

    /** `url or <default>`: an absent or empty URL selects the laboratory's feed. */
    constructor (url: Option<string>)
      ensures name == NtuasName && text.None?
      ensures this.url == if url.Some? && url.value != "" then url.value else NtuasUrl
    {
      name := NtuasName;
      this.url := if url.Some? && url.value != "" then url.value else NtuasUrl;
      text := None;
    }

    /**
     * NTUASProvider.get: `text` is reset, and holds the page once a reply with a
     * success status has arrived; the result is NtuasResponse's.
     */
    method Get(response: HttpResponse) returns (r: Result<Weather>)
      modifies this`text
      ensures r == NtuasResponse(response, name)
      ensures text == if response.Reply? && !IsErrorStatus(response.status) then Some(response.text) else None
    {
      text := None;
      if response.Unreachable? {
        return Failure(ConnectionError);
      }
      if IsErrorStatus(response.status) {
        return Failure(HttpError(response.status));
      }
      text := Some(response.text);
      if text.value == "" {
        return Failure(WeatherParseError(text));
      }
      r := ParseNtuasText(text.value, name);
    }
  }

  // ---- NTUSAProvider: the JSON relay ----

  /** A decoded JSON document (numbers split as Python's json module splits them). */
  datatype JsonValue =
    | JNull
    | JBool(b: bool)
    | JInt(i: int)
    | JFloat(f: real)
    | JString(s: string)
    | JArray(items: seq<JsonValue>)
    | JObject(fields: map<string, JsonValue>)

  /** What requests.get(url) produced; `json` is None when request.json() cannot decode the body. */
  datatype JsonResponse = JsonUnreachable | JsonReply(status: int, json: Option<JsonValue>)

  /** data[key] */
  function Item(data: JsonValue, key: string): (r: Result<JsonValue>)
    ensures r.Success? <==> data.JObject? && key in data.fields
    ensures r.Success? ==> r.value == data.fields[key]
    ensures data.JObject? && key !in data.fields ==> r == Failure(KeyError(key))
  {
    match data
    case JObject(m) => if key in m then Success(m[key]) else Failure(KeyError(key))
    case _ => Failure(TypeError)
  }

  /** Python's truth value of a decoded JSON value. */
  predicate Truthy(v: JsonValue) {
    match v
    case JNull => false
    case JBool(b) => b
    case JInt(i) => i != 0
    case JFloat(f) => f != 0.0
    case JString(s) => s != ""
    case JArray(items) => items != []
    case JObject(m) => m != map[]
  }

  /** float(v) */
  function FloatOf(v: JsonValue): (r: Result<real>)
    ensures v.JFloat? ==> r == Success(v.f)
    ensures v.JInt? ==> r == Success(v.i as real)
    ensures v.JNull? ==> r == Failure(TypeError)
  {
    match v
    case JBool(b) => Success(if b then 1.0 else 0.0)
    case JInt(i) => Success(i as real)
    case JFloat(f) => Success(f)
    case JString(s) => (match PyFloat(s) case Some(x) => Success(x) case None => Failure(ValueError))
    case _ => Failure(TypeError)
  }

  /** int(v); a float is truncated toward zero. */
  function IntOf(v: JsonValue): (r: Result<int>)
    ensures v.JInt? ==> r == Success(v.i)
    ensures v.JFloat? ==> (r.Success? &&
      var size := if r.value >= 0 then r.value else -r.value;
      (size as real) <= (if v.f >= 0.0 then v.f else -v.f) < (size as real) + 1.0
      && (r.value < 0 ==> v.f < 0.0) && (r.value > 0 ==> v.f > 0.0))
    ensures v.JNull? ==> r == Failure(TypeError)
  {
    match v
    case JBool(b) => Success(if b then 1 else 0)
    case JInt(i) => Success(i)
    case JFloat(f) => Success(if f >= 0.0 then f.Floor else -((-f).Floor))
    case JString(s) => (match PyInt(s) case Some(n) => Success(n) case None => Failure(ValueError))
    case _ => Failure(TypeError)
  }

  /** datetime.fromisoformat(v) */
  function DateOf(v: JsonValue): (r: Result<Timestamp>)
    ensures r.Success? <==> v.JString? && FromIsoFormat(v.s).Some?
    ensures r.Success? ==> r.value == FromIsoFormat(v.s).value
    ensures v.JString? && FromIsoFormat(v.s).None? ==> r == Failure(ValueError)
    ensures !v.JString? ==> r == Failure(TypeError)
  {
    match v
    case JString(s) => (match FromIsoFormat(s) case Some(t) => Success(t) case None => Failure(ValueError))
    case _ => Failure(TypeError)
  }

  /** The keys NTUSAProvider.get reads from the relay's document. */
  const NtusaKeys: set<string> := {"date", "temperature", "pressure", "humidity", "wind_speed",
    "wind_direction", "rain", "rain_minute", "temp_ground", "provider"}

  /** Each of NtusaKeys is a key of `fields`, spelled out one key at a time. */
  predicate HasRelayKeys(fields: map<string, JsonValue>) {
    "date" in fields && "temperature" in fields && "pressure" in fields && "humidity" in fields
    && "wind_speed" in fields && "wind_direction" in fields && "rain" in fields
    && "rain_minute" in fields && "temp_ground" in fields && "provider" in fields
  }

  /** HasRelayKeys says that `fields` holds every key of NtusaKeys. */
  lemma RelayKeysCovered(fields: map<string, JsonValue>)
    ensures HasRelayKeys(fields) <==> NtusaKeys <= fields.Keys
  {
  }

  /**
   * The Weather(...) call in NTUSAProvider.get.  The relay's keys `rain`,
   * `rain_minute` and `temp_ground` feed rain_per_hour, rain_per_minute and
   * ground_temperature; a falsy `provider` falls back to the provider's own name.
   */
  function ParseNtusaData(data: JsonValue, name: string): (r: Result<Weather>)
    ensures r.Success? ==> Complete(r.value) && r.value.valid.None?
    ensures r.Success? ==> data.JObject? && HasRelayKeys(data.fields)
    ensures r.Success? ==> (data.JObject? && "date" in data.fields && DateOf(data.fields["date"]).Success?
      && r.value.date == Some(DateOf(data.fields["date"]).value))
    ensures r.Success? ==> (data.JObject? && "temperature" in data.fields && FloatOf(data.fields["temperature"]).Success?
      && r.value.temperature == Some(FloatOf(data.fields["temperature"]).value))
    ensures r.Success? ==> (data.JObject? && "pressure" in data.fields && FloatOf(data.fields["pressure"]).Success?
      && r.value.pressure == Some(FloatOf(data.fields["pressure"]).value))
    ensures r.Success? ==> (data.JObject? && "humidity" in data.fields && FloatOf(data.fields["humidity"]).Success?
      && r.value.humidity == Some(FloatOf(data.fields["humidity"]).value))
    ensures r.Success? ==> (data.JObject? && "wind_speed" in data.fields && FloatOf(data.fields["wind_speed"]).Success?
      && r.value.windSpeed == Some(FloatOf(data.fields["wind_speed"]).value))
    ensures r.Success? ==> (data.JObject? && "wind_direction" in data.fields && IntOf(data.fields["wind_direction"]).Success?
      && r.value.windDirection == Some(IntOf(data.fields["wind_direction"]).value))
    ensures r.Success? ==> (data.JObject? && "rain" in data.fields && FloatOf(data.fields["rain"]).Success?
      && r.value.rainPerHour == Some(FloatOf(data.fields["rain"]).value))
    ensures r.Success? ==> (data.JObject? && "rain_minute" in data.fields && FloatOf(data.fields["rain_minute"]).Success?
      && r.value.rainPerMinute == Some(FloatOf(data.fields["rain_minute"]).value))
    ensures r.Success? ==> (data.JObject? && "temp_ground" in data.fields && FloatOf(data.fields["temp_ground"]).Success?
      && r.value.groundTemperature == Some(FloatOf(data.fields["temp_ground"]).value))
    ensures r.Success? ==> (data.JObject? && "provider" in data.fields
      && var p := data.fields["provider"]; r.value.provider == Some(if Truthy(p) && p.JString? then p.s else name))
    ensures data.JObject? && "date" !in data.fields ==> r == Failure(KeyError("date"))
  {
    var d :- Item(data, "date");
    var date :- DateOf(d);
    NtusaReadings(data, date, name)
  }

  /** The rest of that call, once the date is read: the readings and the provider, key by key. */
  function NtusaReadings(data: JsonValue, date: Timestamp, name: string): (r: Result<Weather>)
    ensures r.Success? ==> Complete(r.value) && r.value.valid.None? && r.value.date == Some(date)
    ensures r.Success? ==> (data.JObject? && "temperature" in data.fields && FloatOf(data.fields["temperature"]).Success?
      && r.value.temperature == Some(FloatOf(data.fields["temperature"]).value))
    ensures r.Success? ==> (data.JObject? && "pressure" in data.fields && FloatOf(data.fields["pressure"]).Success?
      && r.value.pressure == Some(FloatOf(data.fields["pressure"]).value))
    ensures r.Success? ==> (data.JObject? && "humidity" in data.fields && FloatOf(data.fields["humidity"]).Success?
      && r.value.humidity == Some(FloatOf(data.fields["humidity"]).value))
    ensures r.Success? ==> (data.JObject? && "wind_speed" in data.fields && FloatOf(data.fields["wind_speed"]).Success?
      && r.value.windSpeed == Some(FloatOf(data.fields["wind_speed"]).value))
    ensures r.Success? ==> (data.JObject? && "wind_direction" in data.fields && IntOf(data.fields["wind_direction"]).Success?
      && r.value.windDirection == Some(IntOf(data.fields["wind_direction"]).value))
    ensures r.Success? ==> (data.JObject? && "rain" in data.fields && FloatOf(data.fields["rain"]).Success?
      && r.value.rainPerHour == Some(FloatOf(data.fields["rain"]).value))
    ensures r.Success? ==> (data.JObject? && "rain_minute" in data.fields && FloatOf(data.fields["rain_minute"]).Success?
      && r.value.rainPerMinute == Some(FloatOf(data.fields["rain_minute"]).value))
    ensures r.Success? ==> (data.JObject? && "temp_ground" in data.fields && FloatOf(data.fields["temp_ground"]).Success?
      && r.value.groundTemperature == Some(FloatOf(data.fields["temp_ground"]).value))
    ensures r.Success? ==> (data.JObject? && "provider" in data.fields
      && var p := data.fields["provider"]; r.value.provider == Some(if Truthy(p) && p.JString? then p.s else name))
  {
    var t :- Item(data, "temperature");
    var temperature :- FloatOf(t);
    var pr :- Item(data, "pressure");
    var pressure :- FloatOf(pr);
    var h :- Item(data, "humidity");
    var humidity :- FloatOf(h);
    var ws :- Item(data, "wind_speed");
    var windSpeed :- FloatOf(ws);
    var wd :- Item(data, "wind_direction");
    var windDirection :- IntOf(wd);
    NtusaRainAndProvider(data, Weather(Some(date), Some(temperature), Some(pressure), Some(humidity),
      Some(windSpeed), Some(windDirection), None, None, None, None, None), name)
  }

  /** The last four keys of that call, filled into the Weather read so far. */
  function NtusaRainAndProvider(data: JsonValue, w: Weather, name: string): (r: Result<Weather>)
    ensures r.Success? ==> (r.value.date == w.date && r.value.temperature == w.temperature
      && r.value.pressure == w.pressure && r.value.humidity == w.humidity && r.value.windSpeed == w.windSpeed
      && r.value.windDirection == w.windDirection && r.value.valid == w.valid)
    ensures r.Success? ==> (data.JObject? && "rain" in data.fields && FloatOf(data.fields["rain"]).Success?
      && r.value.rainPerHour == Some(FloatOf(data.fields["rain"]).value))
    ensures r.Success? ==> (data.JObject? && "rain_minute" in data.fields && FloatOf(data.fields["rain_minute"]).Success?
      && r.value.rainPerMinute == Some(FloatOf(data.fields["rain_minute"]).value))
    ensures r.Success? ==> (data.JObject? && "temp_ground" in data.fields && FloatOf(data.fields["temp_ground"]).Success?
      && r.value.groundTemperature == Some(FloatOf(data.fields["temp_ground"]).value))
    ensures r.Success? ==> (data.JObject? && "provider" in data.fields
      && var p := data.fields["provider"]; r.value.provider == Some(if Truthy(p) && p.JString? then p.s else name))
  {
    var rh :- Item(data, "rain");
    var rainPerHour :- FloatOf(rh);
    var rm :- Item(data, "rain_minute");
    var rainPerMinute :- FloatOf(rm);
    var g :- Item(data, "temp_ground");
    var groundTemperature :- FloatOf(g);
    var p :- Item(data, "provider");
    Success(w.(rainPerHour := Some(rainPerHour), rainPerMinute := Some(rainPerMinute),
      groundTemperature := Some(groundTemperature), provider := Some(if Truthy(p) && p.JString? then p.s else name)))
  }

  /** The provider for the NTUSA relay; `data` is the last document decoded. */
  class NtusaProvider {
    const name: string
    const url: string
    var data: Option<JsonValue>

    constructor (url: Option<string>)
      ensures name == NtusaName && data.None?
      ensures this.url == if url.Some? && url.value != "" then url.value else NtusaUrl
    {
      name := NtusaName;
      this.url := if url.Some? && url.value != "" then url.value else NtusaUrl;
      data := None;
    }

    /**
     * NTUSAProvider.get: transport and status failures raise before decoding; a body
     * that is not JSON raises a ValueError before `data` is assigned.
     */
    method Get(response: JsonResponse) returns (r: Result<Weather>)
      modifies this`data
      ensures response.JsonUnreachable? ==> r == Failure(ConnectionError) && data == old(data)
      ensures response.JsonReply? && IsErrorStatus(response.status) ==>
        r == Failure(HttpError(response.status)) && data == old(data)
      ensures response.JsonReply? && !IsErrorStatus(response.status) && response.json.None? ==>
        r == Failure(ValueError) && data == old(data)
      ensures response.JsonReply? && !IsErrorStatus(response.status) && response.json.Some? ==>
        data == response.json && r == ParseNtusaData(response.json.value, name)
    {
      if response.JsonUnreachable? {
        return Failure(ConnectionError);
      }
      if IsErrorStatus(response.status) {
        return Failure(HttpError(response.status));
      }
      if response.json.None? {
        return Failure(ValueError);
      }
      data := response.json;
      r := ParseNtusaData(data.value, name);
    }
  }
}
