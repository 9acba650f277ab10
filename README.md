# ntu-weather, modelled in Dafny

ntu-weather reports the current weather at National Taiwan University. The
`ntuweather` package gets a `Weather` record from one of two providers:

- `NTUASProvider` scrapes the Department of Atmospheric Sciences' HTML page with
  one regular expression per field.
- `NTUSAProvider` reads the JSON relay run by the student association.

A terminal script prints that record. The web app under `app/` caches records in
a SQL table (SQLAlchemy) and serves them:

- an index page with a report of the past day at three-hour steps and the day's
  extreme temperatures;
- `/api`, the JSON document the relay publishes.

The site's first version also appears: `weather.py` scrapes an older table, and
`index.py` caches the scraped dictionaries in MongoDB.

The model makes these choices:

- **Instants** are integer seconds since the Unix epoch. Asia/Taipei is the fixed
  offset +08:00.
- **Measurements** are exact decimals (`real`).
- **Regular expressions** are pattern values: literal text, greedy `\s*`,
  `[^>]+` and `[\d\.]+`, and the fixed-width date stamp, around one group. A
  greedy matcher without backtracking finds the same match as Python's
  backtracking one, because in every pattern the core uses, a greedy class never
  contains the first character of what follows it.
- **HTTP** replies, the clock and the database are parameters or classes.
  Nothing is fetched or stored for real.
- **Exceptions** are `Result` values. `Errors.Error` names the Python class.

Modules:

| module | file | models |
|---|---|---|
| `Strings` | strings.dfy | `str.strip`, and `int()`/`float()` on decimal text |
| `Calendar` | calendar.dfy | the proleptic Gregorian calendar, wall-clock times, localizing, midnight |
| `DateText` | datetext.dfy | `strptime` of the feeds' stamps, `isoformat`, `fromisoformat` |
| `Regex` | regex.dfy | `re.search(...).group(1)` for the patterns above |
| `NtuModels` | ntu_models.dfy | ntuweather/models.py |
| `NtuProviders` | ntu_providers.dfy | ntuweather/providers.py |
| `NtuCli` | ntu_cli.dfy | ntuweather/weather.py with ntuweather/__init__.py |
| `AppModels` | app_models.dfy | app/models.py |
| `AppUtils` | app_utils.dfy | app/utils.py, and the two aggregate queries of app/index.py |
| `AppIndex` | app_index.dfy | app/index.py |
| `LegacyScraper` | legacy_scraper.dfy | weather.py |
| `LegacyApp` | legacy_app.dfy | index.py |

Where the source cannot run as written, the model follows the evident intent:

- app/utils.py uses `os` without importing it.
- app/index.py imports an `invalid_weather` that app/utils.py does not define,
  and line 118 has an unbalanced parenthesis.
- ntuweather/weather.py:31 assigns the undefined name `false`.

The model's daily report uses a placeholder record: the slot's date, every
other field None, and marked invalid. The three defects that would surface at
run time are listed under "## Findings".

## Model

| member | source | states |
|---|---|---|
| Strings.StripShape | ntuweather/providers.py:51-56 | `strip()` removes exactly the leading and trailing whitespace: the result is a slice with no outer whitespace and only whitespace cut off |
| Strings.PyIntOfDigitRun | ntuweather/providers.py:68-75 | `int()` of a captured digits-and-dots run succeeds exactly when it has no dot, and gives its decimal value |
| Strings.PyFloatOfDigitRun | ntuweather/providers.py:77-84 | `float()` of such a run succeeds exactly when it has a digit and at most one dot, and its value is the run's decimal value |
| Strings.DecimalValueScaled | ntuweather/providers.py:77-84 | a decimal numeral's value is the number its digits spell with the dot left out, divided by ten to the length of its fraction |
| Strings.PadOfDigits | ntuweather/providers.py:63 | zero-padding a digit run's value to the run's own width gives the run again, so `%Y`, `%m`, `%d` read exactly what they would write |
| Calendar.ToLocal | app/index.py:87 | `astimezone`: an instant's wall-clock reading at an offset is valid and localizes back to the same instant |
| Calendar.LocalizeInRange | ntuweather/providers.py:63-64 | every valid wall-clock time localizes to an instant whose reading at that offset is representable |
| Calendar.Midnight | app/utils.py:32-35 | `today(tz)` is at most a day before now, never after it, and falls on a local day boundary |
| Calendar.MidnightIsStartOfLocalDay | app/utils.py:32-35 | midnight reads 00:00:00 on the wall clock, on the same local date as now |
| DateText.ParseStamp | ntuweather/providers.py:58-66 | on the 19-character text the date patterns capture, `strptime` succeeds only on the stamp's exact shape, giving a valid date and time |
| DateText.StampText | ntuweather/providers.py:63 | the text a `%Y-%m-%d %H:%M:%S` (or `/`-separated) stamp has for a valid time is 19 characters long |
| DateText.StampTextParses | ntuweather/providers.py:63 | `strptime` accepts the stamp of every valid time and reads that time back |
| DateText.ParseStampReadsText | ntuweather/providers.py:63 | on the fixed-width text the date patterns capture, whatever `strptime` accepts is exactly the stamp of the time it returns: no other such text reads as that time |
| DateText.ParseStampRejectsFebruary30 | ntuweather/providers.py:62-65 | an impossible date (30 February) of the right shape is rejected |
| DateText.TimestampTextReadsBack | app/index.py:59 | in the text `isoformat()` writes, the date and time fields sit where `fromisoformat` reads them, and the suffix reads as +08:00 |
| DateText.IsoFormat | app/index.py:59 | `isoformat()` of a Taipei datetime is 25 characters with seconds and 22 without, and ends with `+08:00` |
| DateText.FromIsoFormat | ntuweather/providers.py:105 | `fromisoformat` accepts only the date, date-and-time and date-time-offset forms, each of its exact shape, the offset well formed |
| DateText.WallClockReadsBack | ntuweather/providers.py:105 | in `isoformat()`'s wall-clock text, followed by anything, the date and time fields sit where `fromisoformat` reads them and read back as that time |
| DateText.OffsetText | app/index.py:59 | the `±HH:MM` text `isoformat()` appends for a whole-minute offset under a day is six characters |
| DateText.TaipeiSuffixIsOffsetText | app/index.py:59 | Asia/Taipei's suffix `+08:00` is the offset text of UTC+8 |
| DateText.OffsetTextReadsBack | ntuweather/providers.py:105 | every offset text reads back, sign included, as the same offset |
| DateText.FromIsoFormatWithOffset | ntuweather/providers.py:105 | `fromisoformat` honours any well-formed offset: a valid wall-clock time followed by any `±HH:MM` reads as that time at that offset |
| DateText.FromIsoFormatNaive | ntuweather/providers.py:105 | a valid wall-clock time without an offset reads as that time in Asia/Taipei |
| DateText.FromIsoFormatDate | ntuweather/providers.py:105 | a valid date alone reads as its midnight in Asia/Taipei |
| DateText.DateTextReadsBack | ntuweather/providers.py:105 | the fields of `YYYY-MM-DD` at the head of a text read back as that date |
| DateText.IsoFormatRoundTrip | app/index.py:59 | `fromisoformat` reads `isoformat()`'s text (with the +08:00 offset) back as the same instant |
| Regex.Search | ntuweather/providers.py:51-56 | `re.search` finds nothing exactly when no start position matches, and otherwise reports the capture at the first position that does |
| Regex.SearchGroup | ntuweather/providers.py:51-56 | `_search` finds a capture exactly when `re.search` matches, and returns that capture stripped |
| Regex.DigitGroupCapture | ntuweather/providers.py:37-45 | what a `([\d\.]+)` group captures, stripped, is a nonempty run of digits and dots |
| Regex.StampGroupCapture | ntuweather/providers.py:37 | what a date-stamp group captures, stripped, has the stamp's shape |
| NtuModels.Describe | ntuweather/models.py:21-26 | `str(weather)` is `<Weather: invalid>` exactly when the record has no date |
| NtuModels.DatedText | ntuweather/models.py:25-26 | a dated record's text is `<Weather: `, the date text, a space, the temperature text and `°>`, each at its place |
| NtuModels.DescribeShowsMinute | ntuweather/models.py:25-26 | a dated record's text is `<Weather: `, its date in ISO form to the minute with a space separator, a space, the temperature (or `None`) and `°>` |
| NtuModels.Provider.constructor | ntuweather/models.py:31-32 | a provider keeps the name it is given |
| NtuModels.Provider.Get | ntuweather/models.py:34-35 | the base provider's `get` always raises a TypeError (`raise NotImplemented`) |
| NtuProviders.SearchDate | ntuweather/providers.py:58-66 | the date helper succeeds exactly when a stamp is found and `strptime` accepts it, giving the Taipei instant; failures carry the page text |
| NtuProviders.SearchDateOfStamp | ntuweather/providers.py:58-66 | a page whose capture is the stamp of a valid time is dated by that time in Asia/Taipei |
| NtuProviders.SearchDateReadsStamp | ntuweather/providers.py:58-66 | conversely, a date read from a page is the Taipei instant of the time whose stamp is exactly the capture |
| NtuProviders.SearchInt | ntuweather/providers.py:68-75 | the int helper succeeds exactly when the capture exists and `int()` accepts it; failures carry the page text |
| NtuProviders.SearchFloat | ntuweather/providers.py:77-84 | the float helper succeeds exactly when the capture exists and `float()` accepts it; failures carry the page text |
| NtuProviders.ParseNtuasText | ntuweather/providers.py:36-47 | a parsed page is a complete record named after the provider; any failure is a WeatherParseError carrying the page |
| NtuProviders.NtuasAllOrNothing | ntuweather/providers.py:36-47 | the page yields a record exactly when all nine fields parse, and then each field holds its helper's value |
| NtuProviders.IntegerReading | ntuweather/providers.py:42 | the wind direction parses exactly when its capture has no dot, and is then its decimal value |
| NtuProviders.DecimalReading | ntuweather/providers.py:38-45 | a float reading parses exactly when its capture has a digit and at most one dot |
| NtuProviders.NtuasResponse | ntuweather/providers.py:20-33 | transport and status failures (4xx, 5xx) raise before parsing; an empty page raises a WeatherParseError with the empty text |
| NtuProviders.NtuasProvider.constructor | ntuweather/providers.py:14-18 | the name is the laboratory's; an absent or empty URL selects the default feed |
| NtuProviders.NtuasProvider.Get | ntuweather/providers.py:20-47 | `text` is reset, and holds the page once a success reply arrives; the result is NtuasResponse's |
| NtuProviders.Item | ntuweather/providers.py:104-114 | `data[key]` succeeds exactly on an object holding the key; a missing key raises KeyError |
| NtuProviders.FloatOf | ntuweather/providers.py:106-113 | `float()` keeps a JSON float, widens an int, and rejects null with a TypeError |
| NtuProviders.IntOf | ntuweather/providers.py:110 | `int()` keeps a JSON int and truncates a float toward zero |
| NtuProviders.DateOf | ntuweather/providers.py:105 | `fromisoformat` succeeds exactly on a string in ISO form and gives the instant it reads; other text is a ValueError and a non-string a TypeError |
| NtuProviders.RelayKeysCovered | ntuweather/providers.py:104-114 | the ten keys the reading checks one by one are exactly the relay's key set |
| NtuProviders.NtusaReadings | ntuweather/providers.py:106-114 | once the date is read, the record is complete, unmarked and at that date; temperature, pressure, humidity and wind speed are `float()` of their keys, wind direction `int()` of its key |
| NtuProviders.NtusaRainAndProvider | ntuweather/providers.py:111-114 | rain, rain_minute and temp_ground fill the rain and ground fields and the provider falls back to the name; the fields read before are kept |
| NtuProviders.ParseNtusaData | ntuweather/providers.py:104-114 | a read document holds every relay key; the date is `fromisoformat` of `date`, each same-named reading is `float()` (wind direction `int()`) of its key, rain, rain_minute and temp_ground feed the rain and ground fields, a falsy provider falls back to the name; a missing date raises KeyError |
| NtuProviders.NtusaProvider.constructor | ntuweather/providers.py:90-93 | the name is the student association's; an absent or empty URL selects the default relay |
| NtuProviders.NtusaProvider.Get | ntuweather/providers.py:95-114 | transport, status and JSON failures raise and leave `data` as it was; otherwise `data` is the document and the result is its reading |
| NtuCli.WindIcon | ntuweather/weather.py:47-51 | for every integer direction the arrow is `↑` when it exceeds no threshold, otherwise that of the largest threshold below it; for 0 to 360 degrees it is the arrow of the direction's compass sector |
| NtuCli.SectorOfThreshold | ntuweather/weather.py:17 | each threshold's arrow is the compass sector of the headings between it and the next larger threshold |
| NtuCli.Run | ntuweather/weather.py:33-61 | a parse error is reported with its text and re-raised, an error status raises HTTPError and a body without JSON a ValueError, and other failures escape; on success the report shows the provider, the date to the minute, the rain highlight iff rain per minute > 0, the sunny highlight iff rain per hour < 0.1, and the arrow of the largest threshold below the direction (↑ below all), which for 0 to 360 degrees is the compass arrow |
| AppModels.ToWeather | app/models.py:30-32 | a row read back as a Weather has no provider and no `valid` mark, and each of its nine fields holds the like-named column |
| AppModels.FromWeather | app/models.py:35-39 | storing a Weather copies the date and the eight measurements, each into its like-named column; reading the row back gives the record without provider and mark |
| AppModels.RowRoundTrip | app/models.py:30-39 | storing what was read from a row gives that row again |
| AppModels.FromWeatherAsWritten | app/models.py:35-39 | the conversion as written, when it succeeds, gives the intended row |
| AppModels.FromWeatherAsWrittenAlwaysFails | app/models.py:36-38 | `del fields['valid']` raises KeyError for every Weather, since `asdict` has no such key |
| AppUtils.Database.constructor | app/utils.py:11-13 | a database holds the given committed rows, and accepts commits or refuses them all |
| AppUtils.Session.constructor | app/utils.py:18 | a new session is open, on its database, with nothing pending |
| AppUtils.Session.Add | app/index.py:104 | `session.add` appends the row to the pending ones, which the session's queries already see |
| AppUtils.Session.Commit | app/index.py:105 | a commit makes the pending rows permanent, or raises and changes nothing |
| AppUtils.Session.Rollback | app/utils.py:23 | a rollback discards the pending rows |
| AppUtils.Session.Close | app/utils.py:26 | closing discards what was not committed |
| AppUtils.ExitSession | app/utils.py:15-26 | the scope commits a body that finished, rolls back and re-raises on any exception (the commit's included), and always closes; rows are added exactly on success |
| AppUtils.InsertByDate | app/utils.py:28-30 | inserting into a newest-first sequence keeps it newest-first and adds exactly that row |
| AppUtils.QueryWeatherData | app/utils.py:28-30 | the default query is a newest-first permutation of the rows (NULL dates first) |
| AppUtils.FirstAtOrBefore | app/index.py:84 | the first row dated at or before a time exists exactly when some row is, and on a newest-first sequence it is the latest one |
| AppUtils.TemperatureExtreme | app/index.py:33-34 | SQL `max`/`min` of the temperature since midnight is NULL exactly when no row qualifies, and is otherwise attained by one and bounds all |
| AppUtils.ExtremesOrdered | app/index.py:33-34 | the day's minimum and maximum exist together and the minimum never exceeds the maximum |
| AppIndex.Cached | app/index.py:90-94 | a cached record carries the provider's name and `valid = True`, and stores back to the same row |
| AppIndex.CachedWeather | app/index.py:80-96 | the cache misses exactly when every row dated at or before the time is at least max_age old; a hit is such a recent row, and no row at or before the time is later |
| AppIndex.GetOrFetchWeather | app/index.py:98-106 | a hit is returned and changes nothing, the provider's page included; on a miss a failed fetch changes nothing, and a fetched record is added and committed (the session gains exactly its row) |
| AppIndex.Placeholder | app/index.py:118 | the placeholder is dated, marked invalid, and every other field is None |
| AppIndex.Slot | app/index.py:117-118 | each report slot is dated within the half hour before its time |
| AppIndex.SlotMarksCacheHits | app/index.py:117-118 | a slot is marked valid exactly when a recent row filled it, and otherwise is the placeholder |
| AppIndex.SlotsIncrease | app/index.py:112-118 | slots three hours apart with half-hour windows have strictly increasing dates |
| AppIndex.StepBack | app/index.py:110-118 | stepping back three hours eight times collects, in step order, the slot ending 3·(k+1) hours before now |
| AppIndex.AggregateDailyReport | app/index.py:108-121 | the report is a daily report over the session's rows: eight slots, oldest first, slot k the cached record or placeholder for the time 3·(8−k) hours before now |
| AppIndex.DailyReportDates | app/index.py:112-121 | in any daily report every slot is dated, the dates strictly increase, and they lie between 24.5 and 3 hours back |
| AppIndex.ErrorCode | app/index.py:43-50 | a ValueError (a WeatherParseError included) gives `data_unavailable`, anything else `server_unavailable` |
| AppIndex.Index | app/index.py:23-50 | the page shows the cached or fetched record (a cold cache, a fetch that succeeds and a commit that goes through give the index page of the fetched record), a daily report over the committed rows and the day's extremes over them; failures become error pages, or re-raise in debug mode |
| AppIndex.ApiDocument | app/index.py:58-69 | the published dictionary has exactly the relay's ten keys |
| AppIndex.ApiBody | app/index.py:58-69 | the document has exactly the relay's keys; a missing date is an AttributeError, and a date Asia/Taipei cannot show an OverflowError |
| AppIndex.ApiBodyIsDocument | app/index.py:58-69 | a dated record publishes the dictionary of its fields with the date in ISO form, seconds and offset included |
| AppIndex.ApiBodyFields | app/index.py:58-69 | its entries: the date in ISO form with its offset, the columns as numbers, rain under `rain`, `rain_minute`, `temp_ground` |
| AppIndex.RelayRoundTrip | app/index.py:58-69 | NTUSAProvider reads what `/api` publishes for a complete record with a named provider back as the same record |
| AppIndex.DocumentReadsBack | ntuweather/providers.py:104-114 | NTUSAProvider reads the published dictionary of a complete, named record back as that record, whenever its date text reads back as the record's date |
| AppIndex.MeasurementsReadBack | ntuweather/providers.py:106-110 | the five measured columns of the published dictionary read back as the record's |
| AppIndex.RestReadsBack | ntuweather/providers.py:111-114 | rain, rain_minute, temp_ground and the named provider read back as the record's |
| AppIndex.Api | app/index.py:53-78 | `/api` publishes the cached or fetched record (5 minutes of caching): a fetched record whose commit goes through is published as its document, or the body's error; a refused commit is a storage error; failures are reported as the index does |
| LegacyScraper.PatternFor | weather.py:39-48 | every optional reading is a `([\d\.]+)` capture |
| LegacyScraper.Parse | weather.py:28-51 | parsing fails with `Exception('Parse failed')` exactly when no observation time is found; otherwise the dictionary has exactly the eleven keys |
| LegacyScraper.ParsedEntries | weather.py:29-51 | the date is exactly the captured `YYYY/MM/DD HH:MM:SS` text, the provider is named, each reading is its pattern's stripped capture or None, and a capture is a digits-and-dots run |
| LegacyApp.FetchApi | index.py:53-63 | an IOError gives `server_unavailable`, a failed parse gives `data_unavailable`, a parsed page goes on to the strptime step; a document without an error has the scraper's keys and an aware date |
| LegacyApp.DateParsed | index.py:60-63 | after parsing, the document either has the scraper's keys and an aware date or is the `data_unavailable` document |
| LegacyApp.DatedByStamp | index.py:60 | a parsed date that strptime accepts is replaced by its Asia/Taipei instant |
| LegacyApp.WithDate | index.py:60 | replacing the parsed date with an instant keeps the scraper's keys and every other entry, and adds no error |
| LegacyApp.FetchedDate | index.py:60 | a fetched document's date is the page's observation time read in Asia/Taipei, and that time's stamp is exactly the captured text |
| LegacyApp.FetchedPage | index.py:53-63 | conversely, a page whose observation time is the stamp of a valid time is fetched: dated by that time in Asia/Taipei, every other entry as the scraper read it |
| LegacyApp.Bson | index.py:49 | BSON stores an aware datetime as the naive UTC reading that localizes back to it, and any other value unchanged |
| LegacyApp.Stored | index.py:49 | storing keeps the document's keys; each aware datetime becomes the naive UTC reading of the same instant and every other entry is kept |
| LegacyApp.StoredDate | index.py:49 | a stored aware date reads back as a valid naive UTC reading of the same instant |
| LegacyApp.FirstGreatest | index.py:35 | the first document with the greatest sort key: some document of the sequence, whose key is at least every other's, and None only for an empty sequence |
| LegacyApp.Newest | index.py:35 | `find_one` sorted by date is some stored document with a date at least every other's, and None only for an empty collection |
| LegacyApp.GetCachedAsWritten | index.py:33-43 | get_cached as written only ever serves a stored document, and an empty collection serves nothing |
| LegacyApp.GetCached | index.py:33-43 | the same with the stored reading read as UTC: only stored documents, nothing from an empty collection |
| LegacyApp.CacheCheck | index.py:37-43 | what the cache serves is a stored document; an empty collection serves nothing |
| LegacyApp.NewestDecides | index.py:37-43 | when the newest document has a valid naive date, the cache serves it exactly when that date, read at the offset, is less than the timeout before now |
| LegacyApp.CacheHitWhenRecent | index.py:37-41 | corrected, the newest stored document is served exactly when its observation time is less than the timeout ago |
| LegacyApp.CacheNeverHitsAsWritten | index.py:39-40 | as written, a document observed up to eight hours ago is never served for timeouts up to eight hours |
| LegacyApp.Collection.constructor | index.py:15-16 | a collection holds the given stored documents |
| LegacyApp.Collection.InsertOne | index.py:49 | `insert_one` appends the stored form, or raises when BSON cannot encode a datetime |
| LegacyApp.FetchAndCache | index.py:45-51 | a document without an error is stored and returned as fetched; an error document is returned unstored |
| LegacyApp.CachedOrFetched | index.py:20-22 | a hit is served unchanged; a miss fetches, and stores what has no error |
| LegacyApp.Index | index.py:19-23 | the index serves the cached document (15 minutes) or a fetched one |
| LegacyApp.DateAsIsoAsWritten | index.py:30 | a document without a date raises KeyError; otherwise the date becomes its ISO text and every other entry is kept |
| LegacyApp.DateAsIso | index.py:30 | corrected, an error document passes unchanged |
| LegacyApp.ApiErrorDocumentAsWritten | index.py:26-30 | with the feed unreachable and nothing cached, `/api` as written raises KeyError('date'); corrected, it sends the `server_unavailable` document |
| LegacyApp.InstantPublished | index.py:30 | a document dated by an aware datetime is published with that instant's ISO text |
| LegacyApp.FetchedDocumentPublished | index.py:30 | a freshly fetched document is published with its date in ISO form, +08:00 included |
| LegacyApp.Api | index.py:26-31 | `/api` serves the cached (5 minutes) or fetched document with its date as text |

## Left out

- HTTP: `requests.get` is not modelled. Its outcome is a parameter: no
  connection, or a status and a body. The JSON relay's body comes already
  decoded, or marked undecodable.
- The clock: `datetime.now(tz)` is a parameter, read once per request. The
  source reads it separately in each helper, microseconds apart.
- Terminal output is not modelled: printing, colorama's colour codes, the
  `COLOR` variable, `round()`, and Python's text for floats. `Describe` takes
  the float text as a parameter.
- NtuCli.Run: does not state the printed numbers (rounded temperature,
  humidity, pressure, wind speed and rainfall). It returns only the parts of the
  report the script decides on.
- bottle's routing, templates, logging and `app.run` are not modelled. The
  debug switch is a parameter.
- SQLAlchemy: the engine, `DATABASE_URL`, schema creation and the `id` column
  are not modelled, and neither is `WeatherData.__repr__`. A commit either goes
  through or is refused.
- `ORDER BY date DESC` is modelled as PostgreSQL sorts it, with NULL dates
  first. The order among equal dates is one SQL allows.
- MongoDB: `insert_one`'s `_id`, added and then deleted again, is not modelled.
  Documents without a datetime date sort last.
- Floating point: measurements are exact decimals. `float()`/`int()` accept
  signed ASCII decimal text without exponent, underscores, `inf`/`nan` or
  non-ASCII digits. The regular expressions' `\d` is ASCII.
- Time zones: Asia/Taipei is modelled as +08:00 throughout. Taipei's historical
  offsets and daylight saving before 1980 are not modelled.
- DateText.ParseStamp: models `strptime` only on stamp-shaped text. Python also
  accepts unpadded fields (`2020-1-5 3:4:5`), which the date patterns never capture.
- `fromisoformat`: only the `YYYY-MM-DD`, `YYYY-MM-DD?HH:MM:SS` and
  `...±HH:MM` forms are modelled. Python returns a naive datetime for an
  offset-less string; the model reads it as Taipei time.
- Weather dates are instants. `isoformat` shows them in Asia/Taipei; Python
  would keep whatever offset the relay's text carried.
- NtuCli.Run: a date Asia/Taipei cannot show fails with OverflowError, where
  Python would print it.
- NtuProviders.ParseNtusaData: a truthy provider that is not a string (a
  number, a list) falls back to the provider's name. Python would keep that
  value.
- `weather.py`'s `fetch` and its `__main__` JSON dump are not modelled. The
  fetched page is a parameter of the legacy app.
- The diagnostics written to stderr before a failure are not modelled. Only the
  exception each raises is.
- `WeatherParseError` keeps only `text`; the `arg` the providers pass is dropped
  (ntuweather/exceptions.py:6-9). The model does the same.

## Findings

| source | as written | input that shows it | evidently intended | confidence | as-written member | corrected member |
|---|---|---|---|---|---|---|
| app/models.py:38 | `del fields['valid']` on `dataclasses.asdict(weather)`, whose keys are only the ten declared fields | any Weather, as every cache miss of the web app stores one | drop only the provider; `valid` is never a dataclass field | high, not executed | AppModels.FromWeatherAsWrittenAlwaysFails | AppModels.FromWeather |
| index.py:30 | `last_doc['date'].isoformat()` on whatever `fetch_and_cache` returned | feed unreachable (IOError) with no recent cached document: the returned document is `{'error': 'server_unavailable'}` | return the error document unchanged | high, not executed | LegacyApp.ApiErrorDocumentAsWritten | LegacyApp.DateAsIso |
| index.py:39 | `tz.localize(last_doc['date'])` on the naive datetime pymongo returns, which holds the UTC reading | a document observed 60 s ago, read with timeout 900: its age comes out as 28860 s and the cache misses | read the stored reading as UTC, so the age is 60 s | medium (pymongo's default `tz_aware=False`), not executed | LegacyApp.CacheNeverHitsAsWritten | LegacyApp.CacheHitWhenRecent |
