/**
 * app/models.py: the weather_data table and its conversions to and from the Weather
 * record.  A row keeps the date and the eight measurements; the provider name is not
 * stored and neither is the `valid` mark.  The surrogate `id` key plays no part in
 * the conversions and is not modelled.
 */
module AppModels {
  import opened Wrappers
  import opened Errors
  import opened Calendar
  import opened NtuModels

  /** A WeatherData row: every column is nullable. */
  datatype WeatherRow = WeatherRow(
    date: Option<Timestamp>,
    temperature: Option<real>,
    pressure: Option<real>,
    humidity: Option<real>,
    windSpeed: Option<real>,
    windDirection: Option<int>,
    rainPerHour: Option<real>,
    rainPerMinute: Option<real>,
    groundTemperature: Option<real>)

  /**
   * WeatherData.weather(): each dataclass field is looked up among the row's
   * attributes; `provider` is not one of them and comes out None, and the new record
   * carries no `valid` mark.
   */
  function ToWeather(row: WeatherRow): (w: Weather)
    ensures w.provider.None? && w.valid.None?
    ensures w.date == row.date && w.temperature == row.temperature && w.windDirection == row.windDirection
    ensures w.pressure == row.pressure && w.humidity == row.humidity && w.windSpeed == row.windSpeed
    ensures w.rainPerHour == row.rainPerHour && w.rainPerMinute == row.rainPerMinute
      && w.groundTemperature == row.groundTemperature
  {
    Weather(row.date, row.temperature, row.pressure, row.humidity, row.windSpeed, row.windDirection,
      row.rainPerHour, row.rainPerMinute, row.groundTemperature, None, None)
  }

  /**
   * WeatherData.fromweather as evidently intended: the Weather's fields minus the
   * provider.  Reading the row back gives the record without provider and mark.
   */
  function FromWeather(w: Weather): (row: WeatherRow)
    ensures row.date == w.date && row.temperature == w.temperature && row.windDirection == w.windDirection
    ensures row.pressure == w.pressure && row.humidity == w.humidity && row.windSpeed == w.windSpeed
    ensures row.rainPerHour == w.rainPerHour && row.rainPerMinute == w.rainPerMinute
      && row.groundTemperature == w.groundTemperature
    ensures ToWeather(row) == w.(provider := None, valid := None)
  {
    WeatherRow(w.date, w.temperature, w.pressure, w.humidity, w.windSpeed, w.windDirection,
      w.rainPerHour, w.rainPerMinute, w.groundTemperature)
  }

  /** Storing what was read back from a row gives that row again. */
  lemma RowRoundTrip(row: WeatherRow)
    ensures FromWeather(ToWeather(row)) == row
  {
  }

  /**
   * WeatherData.fromweather as written: dataclasses.asdict only yields the ten
   * declared fields, so after `provider` is deleted, deleting `valid` raises.
   */
  function FromWeatherAsWritten(w: Weather): (r: Result<WeatherRow>)
    ensures r.Success? ==> r.value == FromWeather(w)
  {
    var keys := set i | 0 <= i < |FieldNames| :: FieldNames[i];
    if "provider" !in keys then Failure(KeyError("provider"))
    else if "valid" !in keys - {"provider"} then Failure(KeyError("valid"))
    else Success(FromWeather(w))
  }

  /** Whatever the Weather, the conversion as written raises KeyError('valid'). */
  lemma FromWeatherAsWrittenAlwaysFails(w: Weather)
    ensures FromWeatherAsWritten(w) == Failure(KeyError("valid"))
  {
    var keys := set i | 0 <= i < |FieldNames| :: FieldNames[i];
    assert FieldNames[9] == "provider";
    assert "provider" in keys;
    assert forall i :: 0 <= i < |FieldNames| ==> FieldNames[i] != "valid";
  }
}
