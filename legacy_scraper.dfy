/**
 * weather.py: the scraper the first version of the site used.  It reads the
 * department's older HTML table and returns a dictionary of the captured strings
 * (numbers are not converted); only the observation time is mandatory.  The stderr
 * diagnostics it writes before raising are not modelled.
 */
module LegacyScraper {
  import opened Wrappers
  import opened Errors
  import opened Strings
  import opened Calendar
  import opened DateText
  import opened Regex
  import NtuProviders

  const FeedUrl := "http://140.112.66.208:8080/mopl/rt2.one?one=execute"

  /** A value in the scraper's dictionary, and later in the document the legacy app stores. */
  datatype DocValue =
    | DText(s: string)        // a str
    | DNone                   // None
    | DInstant(ts: Timestamp) // an aware datetime
    | DNaive(t: LocalTime)    // a naive datetime

  type Doc = map<string, DocValue>

  /** `<caption>\s*:</td>\s*<td[^>]+>`: a table cell's caption and the opening tag of the value cell. */
  function CellPrefix(caption: string): seq<Token> {
    [Lit(caption), Star(Space), Lit(":</td>"), Star(Space), Lit("<td"), Plus(NotGt), Lit(">")]
  }

  /** `觀測時間\s*:</td>\s*<td[^>]+>(\d{4}/\d{2}/\d{2} \d{2}:\d{2}:\d{2})` */
  const DatePattern := Pattern(CellPrefix("觀測時間"), Stamp('/'), [])

  /** `<caption>...\s*([\d\.]+)&nbsp;`: a current reading followed by its unit. */
  function ReadingPattern(caption: string): Pattern {
    Pattern(CellPrefix(caption) + [Star(Space)], Plus(DigitOrDot), [Lit("&nbsp;")])
  }

  /** `<caption>...\s*([\d\.]+)\s*<`: a daily statistic at the end of its cell. */
  function DailyPattern(caption: string): Pattern {
    Pattern(CellPrefix(caption) + [Star(Space)], Plus(DigitOrDot), [Star(Space), Lit("<")])
  }

  /** The dictionary's keys. */
  const DocKeys: set<string> := {"date", "temperature", "pressure", "humidity", "wind_speed",
    "wind_direction", "rain", "temp_max", "temp_min", "rain_day", "provider"}

  /** The dictionary always has a date and a provider, and never an error entry. */
  lemma DocKeysFacts()
    ensures "date" in DocKeys && "provider" in DocKeys && "error" !in DocKeys
  {
  }

  /** The pattern behind each optional key. */
  function PatternFor(key: string): (p: Pattern)
    ensures p.group == Plus(DigitOrDot)
  {
    if key == "temperature" then ReadingPattern("溫度")
    else if key == "pressure" then ReadingPattern("氣壓")
    else if key == "humidity" then ReadingPattern("相對濕度")
    else if key == "wind_speed" then ReadingPattern("風速")
    else if key == "wind_direction" then ReadingPattern("風向")
    else if key == "rain" then ReadingPattern("降雨強度")
    else if key == "temp_max" then DailyPattern("本日最高溫")
    else if key == "temp_min" then DailyPattern("本日最低溫")
    else DailyPattern("本日降雨量")
  }

  /** search_one's result as a dictionary value. */
  function Found(r: Option<string>): DocValue {
    if r.Some? then DText(r.value) else DNone
  }

  /** The dictionary's entry under `key`, once the date has been found. */
  function Entry(text: string, date: string, key: string): DocValue {
    if key == "date" then DText(date)
    else if key == "provider" then DText(NtuProviders.NtuasName)
    else Found(SearchGroup(PatternFor(key), text))
  }

  /**
   * parse(text): without an observation time it raises Exception('Parse failed');
   * otherwise every key is present, each reading holding its stripped capture or None.
   */
  function Parse(text: string): (r: Result<Doc>)
    ensures r.Failure? <==> SearchGroup(DatePattern, text).None? || SearchGroup(DatePattern, text) == Some("")
    ensures r.Failure? ==> r.error == GenericException("Parse failed")
    ensures r.Success? ==> r.value.Keys == DocKeys
  {
    var date := SearchGroup(DatePattern, text);
    if date.None? || date.value == "" then Failure(GenericException("Parse failed"))
    else Success(map key | key in DocKeys :: Entry(text, date.value, key))
  }

  /**
   * What a parsed dictionary holds: the date as the captured `YYYY/MM/DD HH:MM:SS`
   * text, the provider's name, and for every other key None or a run of digits and dots.
   */
  lemma ParsedEntries(text: string)
    requires Parse(text).Success?
    ensures var doc := Parse(text).value;
      "date" in doc && doc["date"] == DText(SearchGroup(DatePattern, text).value) && StampShape(doc["date"].s, '/')
      && "provider" in doc && doc["provider"] == DText(NtuProviders.NtuasName)
    ensures var doc := Parse(text).value;
      forall key :: key in doc && key != "date" && key != "provider" ==>
        doc[key] == Found(SearchGroup(PatternFor(key), text))
        && (doc[key].DNone? || (doc[key].DText? && IsDigitRun(doc[key].s)))
  {
    StampGroupCapture(DatePattern, text, '/');
    var doc := Parse(text).value;
    forall key | key in doc && key != "date" && key != "provider"
      ensures doc[key].DNone? || (doc[key].DText? && IsDigitRun(doc[key].s))
    {
      DigitGroupCapture(PatternFor(key), text);
    }
  }
}
