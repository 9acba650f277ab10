/**
 * ntuweather/models.py: the Weather record every provider returns, its text form,
 * and the Provider base class.
 */
module NtuModels {
  import opened Wrappers
  import opened Errors
  import opened Calendar
  import opened DateText

  /**
   * The Weather dataclass: its ten fields in declaration order, each of which Python
   * lets hold None, plus `valid`, the attribute the web app attaches after
   * construction (None while it has not been attached).  The date is an instant;
   * wind_direction is the one integer measurement.
   */
  datatype Weather = Weather(
    date: Option<Timestamp>,
    temperature: Option<real>,
    pressure: Option<real>,
    humidity: Option<real>,
    windSpeed: Option<real>,
    windDirection: Option<int>,
    rainPerHour: Option<real>,
    rainPerMinute: Option<real>,
    groundTemperature: Option<real>,
    provider: Option<string>,
    valid: Option<bool>)

  /** dataclasses.fields(Weather), by name, in declaration order. */
  const FieldNames: seq<string> := ["date", "temperature", "pressure", "humidity", "wind_speed",
    "wind_direction", "rain_per_hour", "rain_per_minute", "ground_temperature", "provider"]

  /** A Weather whose every field holds a value, as a successful provider call builds it. */
  predicate Complete(w: Weather) {
    w.date.Some? && w.temperature.Some? && w.pressure.Some? && w.humidity.Some?
    && w.windSpeed.Some? && w.windDirection.Some? && w.rainPerHour.Some?
    && w.rainPerMinute.Some? && w.groundTemperature.Some? && w.provider.Some?
  }

  /** A Weather that Python could hold: a datetime always lies within datetime's range. */
  predicate Representable(w: Weather) {
    w.date.Some? ==> InRange(w.date.value, TaipeiOffset)
  }

  const InvalidText := "<Weather: invalid>"

  /**
   * Weather.__str__.  `floatText` is Python's str() of a float.  Only dates localized
   * to Asia/Taipei occur in the core, so the date is shown with that offset.
   */
  function Describe(w: Weather, floatText: real -> string): (s: string)
    requires Representable(w)
    ensures w.date.None? <==> s == InvalidText
  {
    if w.date.None? then InvalidText
    else
      DatedText(IsoFormat(w.date.value, ' ', false), TemperatureText(w, floatText))
  }

  /** `{self.temperature}` in an f-string: str() of the float, or `None`. */
  function TemperatureText(w: Weather, floatText: real -> string): string {
    match w.temperature case Some(t) => floatText(t) case None => "None"
  }

  /** The text of a dated Weather, from its date and temperature as text. */
  function DatedText(date: string, temperature: string): (s: string)
    ensures |s| == 13 + |date| + |temperature|
    ensures s[..10] == "<Weather: " && s[10..10 + |date|] == date && s[10 + |date|] == ' '
    ensures s[11 + |date|..|s| - 2] == temperature && s[|s| - 2..] == "°>"
  {
    var head, tail := "<Weather: ", " " + temperature + "°>";
    var s := head + date + tail;
    assert s[..10] == head && s[10..10 + |date|] == date && s[10 + |date|..] == tail;
    assert tail[1..|tail| - 2] == temperature && tail[|tail| - 2..] == "°>";
    assert s[11 + |date|..|s| - 2] == tail[1..|tail| - 2] && s[|s| - 2..] == tail[|tail| - 2..];
    s
  }

  /** A dated Weather's text shows its date to the minute, as isoformat prints it. */
  lemma DescribeShowsMinute(w: Weather, floatText: real -> string)
    requires Representable(w) && w.date.Some?
    ensures |Describe(w, floatText)| > 32
    ensures Describe(w, floatText)[..10] == "<Weather: "
    ensures Describe(w, floatText)[10..32] == IsoFormat(w.date.value, ' ', false)
    ensures Describe(w, floatText) == "<Weather: " + IsoFormat(w.date.value, ' ', false) + " "
      + TemperatureText(w, floatText) + "°>"
  {
    var iso := IsoFormat(w.date.value, ' ', false);
    assert |iso| == 22;
  }

  /** The Provider base class: a name, and a `get` that cannot produce weather. */
  class Provider {
    const name: Option<string>

    constructor (name: Option<string>)
      ensures this.name == name
    {
      this.name := name;
    }

    /** `raise NotImplemented` raises a TypeError, since NotImplemented is not an exception. */
    method Get() returns (r: Result<Weather>)
      ensures r == Failure(TypeError)
    {
      r := Failure(TypeError);
    }
  }
}
