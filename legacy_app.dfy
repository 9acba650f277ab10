/**
 * index.py: the first version of the site.  Scraped dictionaries are cached in a
 * MongoDB collection; both routes serve the newest stored document when it is recent
 * enough and otherwise scrape and store a new one.  pymongo stores an aware datetime
 * as UTC and hands it back as a naive datetime holding the UTC wall-clock reading.
 * The HTTP fetch is a parameter (None: requests raised an IOError); the clock is a
 * parameter read once per request.
 */
module LegacyApp {
  import opened Wrappers
  import opened Errors
  import opened Calendar
  import opened DateText
  import opened Regex
  import opened LegacyScraper

  const DataUnavailable := "data_unavailable"
  const ServerUnavailable := "server_unavailable"

  /** `{'error': code}` */
  function ErrorDoc(code: string): Doc {
    map["error" := DText(code)]
  }

  /**
   * fetch_api(): an IOError while fetching means the server is unavailable; a failed
   * parse, or an observation time strptime rejects, means the data is.  Otherwise the
   * date is replaced by the aware Asia/Taipei datetime it names.
   */
  function FetchApi(page: Option<string>): (doc: Doc)
    ensures page.None? ==> doc == ErrorDoc(ServerUnavailable)
    ensures page.Some? && Parse(page.value).Failure? ==> doc == ErrorDoc(DataUnavailable)
    ensures page.Some? && Parse(page.value).Success? ==> doc == DateParsed(Parse(page.value).value)
    ensures "error" !in doc ==> doc.Keys == DocKeys && doc["date"].DInstant?
  {
    if page.None? then ErrorDoc(ServerUnavailable)
    else match Parse(page.value)
      case Failure(_) => ErrorDoc(DataUnavailable)
      case Success(parsed) => DateParsed(parsed)
  }

  /** A parsed date strptime accepts becomes the aware Asia/Taipei datetime it names. */
  lemma DatedByStamp(parsed: Doc, stamp: string, t: LocalTime)
    requires parsed.Keys == DocKeys && parsed["date"] == DText(stamp) && ParseStamp(stamp, '/') == Some(t)
    ensures DateParsed(parsed) == WithDate(parsed, Localize(t, TaipeiOffset))
  {
  }

  /** The strptime step of fetch_api(): a date it rejects means the data is unavailable. */
  function DateParsed(parsed: Doc): (doc: Doc)
    requires parsed.Keys == DocKeys
    ensures "error" !in doc ==> doc.Keys == DocKeys && doc["date"].DInstant?
    ensures "error" in doc ==> doc == ErrorDoc(DataUnavailable)
  {
    DocKeysFacts();
    if !parsed["date"].DText? then ErrorDoc(DataUnavailable)
    else match ParseStamp(parsed["date"].s, '/')
      case None => ErrorDoc(DataUnavailable)
      case Some(t) => WithDate(parsed, Localize(t, TaipeiOffset))
  }

  /** A scraped document with its date replaced by the instant `ts`. */
  function WithDate(parsed: Doc, ts: Timestamp): (doc: Doc)
    requires parsed.Keys == DocKeys
    ensures doc.Keys == DocKeys && "error" !in doc && doc["date"] == DInstant(ts)
    ensures forall key :: key in parsed && key != "date" ==> doc[key] == parsed[key]
  {
    DocKeysFacts();
    parsed["date" := DInstant(ts)]
  }

  /** A fetched document's date is the page's observation time read in Asia/Taipei. */
  lemma FetchedDate(page: string)
    requires "error" !in FetchApi(Some(page))
    ensures Parse(page).Success? && "date" in Parse(page).value && Parse(page).value["date"].DText?
    ensures var t := ParseStamp(Parse(page).value["date"].s, '/');
      t.Some? && FetchApi(Some(page))["date"] == DInstant(Localize(t.value, TaipeiOffset))
      && StampText(t.value, '/') == SearchGroup(DatePattern, page).value
  {
    ParsedEntries(page);
    ParseStampReadsText(Parse(page).value["date"].s, '/');
  }

  /**
   * A page whose observation time is the stamp of a valid time is fetched: the document
   * is dated by that time in Asia/Taipei and keeps every other entry the scraper read.
   */
  lemma FetchedPage(page: string, t: LocalTime)
    requires ValidLocal(t) && SearchGroup(DatePattern, page) == Some(StampText(t, '/'))
    ensures Parse(page).Success?
    ensures var doc := FetchApi(Some(page));
      "error" !in doc && doc["date"] == DInstant(Localize(t, TaipeiOffset))
      && forall key :: key in DocKeys && key != "date" ==> doc[key] == Parse(page).value[key]
  {
    var stamp := StampText(t, '/');
    assert Parse(page).Success?;
    ParsedEntries(page);
    StampTextParses(t, '/');
    DatedByStamp(Parse(page).value, stamp, t);
  }

  /** BSON's encoding of a value: an aware datetime becomes its UTC reading, stripped of its zone. */
  function Bson(v: DocValue): (r: DocValue)
    requires v.DInstant? ==> InRange(v.ts, 0)
    ensures v.DInstant? ==> r.DNaive? && ValidLocal(r.t) && Localize(r.t, 0) == v.ts
    ensures !v.DInstant? ==> r == v
  {
    if v.DInstant? then DNaive(ToLocal(v.ts, 0)) else v
  }

  predicate Encodable(doc: Doc) {
    forall key :: key in doc && doc[key].DInstant? ==> InRange(doc[key].ts, 0)
  }

  /** What find_one hands back for a document insert_one stored. */
  function Stored(doc: Doc): (s: Doc)
    requires Encodable(doc)
    ensures s.Keys == doc.Keys
    ensures forall key :: key in doc && doc[key].DInstant? ==>
      s[key].DNaive? && ValidLocal(s[key].t) && Localize(s[key].t, 0) == doc[key].ts
    ensures forall key :: key in doc && !doc[key].DInstant? ==> s[key] == doc[key]
  {
    map key | key in doc :: Bson(doc[key])
  }

  /** The sort key of `sort=[('date', DESCENDING)]`; a document without a datetime date sorts last. */
  function DateKey(doc: Doc): Option<int> {
    if "date" in doc && doc["date"].DNaive? && ValidLocal(doc["date"].t) then Some(WallSeconds(doc["date"].t)) else None
  }

  predicate KeyAtLeast(a: Option<int>, b: Option<int>) {
    b.None? || (a.Some? && a.value >= b.value)
  }

  /** find_one(sort=[('date', DESCENDING)]): the first document with the greatest date. */
  function Newest(docs: seq<Doc>): (r: Option<Doc>)
    ensures r.None? <==> docs == []
    ensures r.Some? ==> r.value in docs && forall i :: 0 <= i < |docs| ==> KeyAtLeast(DateKey(r.value), DateKey(docs[i]))
  {
    FirstGreatest(docs, DateKey)
  }

  /** The first document whose key is at least every other's, under any sort key. */
  function FirstGreatest(docs: seq<Doc>, key: Doc -> Option<int>): (r: Option<Doc>)
    ensures r.None? <==> docs == []
    ensures r.Some? ==> r.value in docs && forall i :: 0 <= i < |docs| ==> KeyAtLeast(key(r.value), key(docs[i]))
  {
    if docs == [] then None
    else
      var rest := FirstGreatest(docs[1..], key);
      assert forall i :: 1 <= i < |docs| ==> docs[i] == docs[1..][i - 1];
      if rest.None? || KeyAtLeast(key(docs[0]), key(rest.value)) then Some(docs[0]) else rest
  }

  /**
   * get_cached as written: the stored naive UTC reading is localized as if it were
   * Asia/Taipei time.  An empty document is falsy; a missing date raises KeyError, and
   * localize on anything but a naive datetime raises.
   */
  function GetCachedAsWritten(docs: seq<Doc>, now: Timestamp, timeout: int): (r: Result<Option<Doc>>)
    ensures r.Success? && r.value.Some? ==> r.value.value in docs
    ensures docs == [] ==> r == Success(None)
  {
    CacheCheck(docs, now, timeout, TaipeiOffset)
  }

  /** get_cached as evidently intended: the stored reading is UTC. */
  function GetCached(docs: seq<Doc>, now: Timestamp, timeout: int): (r: Result<Option<Doc>>)
    ensures r.Success? && r.value.Some? ==> r.value.value in docs
    ensures docs == [] ==> r == Success(None)
  {
    CacheCheck(docs, now, timeout, 0)
  }

  /** The newest document if, read at `offset`, its date is less than `timeout` seconds before `now`. */
  function CacheCheck(docs: seq<Doc>, now: Timestamp, timeout: int, offset: int): (r: Result<Option<Doc>>)
    ensures r.Success? && r.value.Some? ==> r.value.value in docs
    ensures docs == [] ==> r == Success(None)
  {
    match Newest(docs)
    case None => Success(None)
    case Some(doc) =>
      if doc == map[] then Success(None)
      else if "date" !in doc then Failure(KeyError("date"))
      else match doc["date"]
        case DNaive(t) =>
          if !ValidLocal(t) then Failure(ValueError)
          else if now - Localize(t, offset) < timeout then Success(Some(doc)) else Success(None)
        case DInstant(_) => Failure(ValueError)  // localize refuses an aware datetime
        case _ => Failure(AttributeError)
  }

  /**
   * The cache as intended: of documents stored from fetched dictionaries, the newest is
   * served exactly when its observation time is less than `timeout` seconds ago.
   */
  lemma CacheHitWhenRecent(docs: seq<Doc>, doc: Doc, now: Timestamp, timeout: int)
    requires Encodable(doc) && "date" in doc && doc["date"].DInstant?
    requires Newest(docs) == Some(Stored(doc))
    ensures GetCached(docs, now, timeout) ==
      if now - doc["date"].ts < timeout then Success(Some(Stored(doc))) else Success(None)
  {
    StoredDate(doc);
    NewestDecides(docs, Stored(doc), now, timeout, 0);
  }

  /**
   * The cache as written: the stored reading is taken for Taipei time, eight hours
   * behind the real instant, so a document observed up to eight hours ago is never
   * recent enough for the 5- or 15-minute timeouts.
   */
  lemma CacheNeverHitsAsWritten(docs: seq<Doc>, doc: Doc, now: Timestamp, timeout: int)
    requires Encodable(doc) && "date" in doc && doc["date"].DInstant?
    requires Newest(docs) == Some(Stored(doc))
    requires timeout <= TaipeiOffset && doc["date"].ts <= now
    ensures GetCachedAsWritten(docs, now, timeout) == Success(None)
  {
    StoredDate(doc);
    NewestDecides(docs, Stored(doc), now, timeout, TaipeiOffset);
    var t := Stored(doc)["date"].t;
    assert Localize(t, TaipeiOffset) == doc["date"].ts - TaipeiOffset;
  }

  /** A stored aware date comes back as the naive UTC reading of the same instant. */
  lemma StoredDate(doc: Doc)
    requires Encodable(doc) && "date" in doc && doc["date"].DInstant?
    ensures "date" in Stored(doc) && Stored(doc)["date"].DNaive? && ValidLocal(Stored(doc)["date"].t)
      && Localize(Stored(doc)["date"].t, 0) == doc["date"].ts
  {
  }

  /** When the newest document carries a valid naive date, that date alone decides the cache. */
  lemma NewestDecides(docs: seq<Doc>, newest: Doc, now: Timestamp, timeout: int, offset: int)
    requires Newest(docs) == Some(newest) && "date" in newest && newest["date"].DNaive? && ValidLocal(newest["date"].t)
    ensures CacheCheck(docs, now, timeout, offset) ==
      if now - Localize(newest["date"].t, offset) < timeout then Success(Some(newest)) else Success(None)
  {
    assert newest != map[];
  }

  /** The collection of cached documents, as find_one sees them. */
  class Collection {
    var docs: seq<Doc>

    constructor (docs: seq<Doc>)
      ensures this.docs == docs
    {
      this.docs := docs;
    }

    /** insert_one: a datetime BSON cannot encode raises before anything is stored. */
    method InsertOne(doc: Doc) returns (o: Outcome)
      modifies this
      ensures Encodable(doc) ==> o == Pass && docs == old(docs) + [Stored(doc)]
      ensures !Encodable(doc) ==> o == Fail(OverflowError) && docs == old(docs)
    {
      if !Encodable(doc) {
        return Fail(OverflowError);
      }
      docs := docs + [Stored(doc)];
      o := Pass;
    }
  }

  /**
   * fetch_and_cache(mongo): a fetched dictionary without an error is stored, and the
   * caller's dictionary comes back as fetched (insert_one's `_id` is deleted again).
   */
  method FetchAndCache(collection: Collection, page: Option<string>) returns (r: Result<Doc>)
    modifies collection
    ensures var doc := FetchApi(page);
      "error" in doc ==> r == Success(doc) && collection.docs == old(collection.docs)
    ensures var doc := FetchApi(page);
      "error" !in doc && Encodable(doc) ==> r == Success(doc) && collection.docs == old(collection.docs) + [Stored(doc)]
    ensures var doc := FetchApi(page);
      "error" !in doc && !Encodable(doc) ==> r == Failure(OverflowError) && collection.docs == old(collection.docs)
  {
    var doc := FetchApi(page);
    if "error" !in doc {
      var o := collection.InsertOne(doc);
      if o.Fail? {
        return Failure(o.error);
      }
    }
    r := Success(doc);
  }

  /** get_cached, then fetch_and_cache on a miss: what both routes start with. */
  method CachedOrFetched(collection: Collection, now: Timestamp, timeout: int, page: Option<string>) returns (r: Result<Doc>)
    modifies collection
    ensures var cached := GetCached(old(collection.docs), now, timeout);
      cached.Failure? ==> r == Failure(cached.error) && collection.docs == old(collection.docs)
    ensures var cached := GetCached(old(collection.docs), now, timeout);
      cached.Success? && cached.value.Some? ==> r == Success(cached.value.value) && collection.docs == old(collection.docs)
    ensures var cached := GetCached(old(collection.docs), now, timeout);
      var doc := FetchApi(page);
      cached.Success? && cached.value.None? ==>
        r == (if "error" !in doc && !Encodable(doc) then Failure(OverflowError) else Success(doc))
        && collection.docs == old(collection.docs) + (if "error" !in doc && Encodable(doc) then [Stored(doc)] else [])
  {
    var cached := GetCached(collection.docs, now, timeout);
    if cached.Failure? {
      return Failure(cached.error);
    }
    if cached.value.Some? {
      return Success(cached.value.value);
    }
    r := FetchAndCache(collection, page);
  }

  /** index(mongo): the document handed to the template, with a 15-minute cache. */
  method Index(collection: Collection, now: Timestamp, page: Option<string>) returns (r: Result<Doc>)
    modifies collection
    ensures var cached := GetCached(old(collection.docs), now, 900);
      cached.Failure? ==> r == Failure(cached.error) && collection.docs == old(collection.docs)
    ensures var cached := GetCached(old(collection.docs), now, 900);
      cached.Success? && cached.value.Some? ==> r == Success(cached.value.value) && collection.docs == old(collection.docs)
    ensures var cached := GetCached(old(collection.docs), now, 900);
      var doc := FetchApi(page);
      cached.Success? && cached.value.None? ==>
        r == (if "error" !in doc && !Encodable(doc) then Failure(OverflowError) else Success(doc))
        && collection.docs == old(collection.docs) + (if "error" !in doc && Encodable(doc) then [Stored(doc)] else [])
  {
    r := CachedOrFetched(collection, now, 900, page);
  }

  /**
   * `last_doc['date'] = last_doc['date'].isoformat()` as written: an error document has
   * no date and raises KeyError.
   */
  function DateAsIsoAsWritten(doc: Doc): (r: Result<Doc>)
    ensures "date" !in doc ==> r == Failure(KeyError("date"))
    ensures r.Success? ==> r.value.Keys == doc.Keys && r.value["date"].DText?
    ensures r.Success? ==> forall key :: key in doc && key != "date" ==> r.value[key] == doc[key]
  {
    if "date" !in doc then Failure(KeyError("date"))
    else match doc["date"]
      case DInstant(ts) =>
        if InRange(ts, TaipeiOffset) then Success(doc["date" := DText(IsoFormat(ts, 'T', true))]) else Failure(OverflowError)
      case DNaive(t) =>
        if ValidLocal(t) then Success(doc["date" := DText(WallClockText(t, 'T', true))]) else Failure(ValueError)
      case _ => Failure(AttributeError)
  }

  /** The same step as evidently intended: an error document is returned as it is. */
  function DateAsIso(doc: Doc): (r: Result<Doc>)
    ensures "error" in doc ==> r == Success(doc)
    ensures "error" !in doc ==> r == DateAsIsoAsWritten(doc)
  {
    if "error" in doc then Success(doc) else DateAsIsoAsWritten(doc)
  }

  /**
   * With the feed unreachable and nothing cached, /api as written fails with
   * KeyError('date') (a bare HTTP 500) instead of sending the server_unavailable document.
   */
  lemma ApiErrorDocumentAsWritten()
    ensures DateAsIsoAsWritten(FetchApi(None)) == Failure(KeyError("date"))
    ensures DateAsIso(FetchApi(None)) == Success(ErrorDoc(ServerUnavailable))
  {
    assert "date" !in ErrorDoc(ServerUnavailable);
  }

  /** A freshly fetched document is published with its date in ISO form, Taipei offset included. */
  lemma FetchedDocumentPublished(page: string)
    requires "error" !in FetchApi(Some(page))
    ensures var doc := FetchApi(Some(page));
      DateAsIso(doc).Success? && DateAsIso(doc).value["date"] == DText(IsoFormat(doc["date"].ts, 'T', true))
  {
    FetchedDate(page);
    var t := ParseStamp(Parse(page).value["date"].s, '/').value;
    LocalizeInRange(t, TaipeiOffset);
    InstantPublished(FetchApi(Some(page)), Localize(t, TaipeiOffset));
  }

  /** A document dated by an instant is published with that instant's ISO text. */
  lemma InstantPublished(doc: Doc, ts: Timestamp)
    requires "error" !in doc && "date" in doc && doc["date"] == DInstant(ts) && InRange(ts, TaipeiOffset)
    ensures DateAsIso(doc).Success? && DateAsIso(doc).value["date"] == DText(IsoFormat(ts, 'T', true))
  {
  }

  /** api(mongo): the cached or fetched document with its date as text, with a 5-minute cache. */
  method Api(collection: Collection, now: Timestamp, page: Option<string>) returns (r: Result<Doc>)
    modifies collection
    ensures var cached := GetCached(old(collection.docs), now, 300);
      cached.Failure? ==> r == Failure(cached.error) && collection.docs == old(collection.docs)
    ensures var cached := GetCached(old(collection.docs), now, 300);
      cached.Success? && cached.value.Some? ==> r == DateAsIso(cached.value.value) && collection.docs == old(collection.docs)
    ensures var cached := GetCached(old(collection.docs), now, 300);
      var doc := FetchApi(page);
      cached.Success? && cached.value.None? ==>
        r == (if "error" !in doc && !Encodable(doc) then Failure(OverflowError) else DateAsIso(doc))
        && collection.docs == old(collection.docs) + (if "error" !in doc && Encodable(doc) then [Stored(doc)] else [])
  {
    var doc :- CachedOrFetched(collection, now, 300, page);
    r := DateAsIso(doc);
  }
}
