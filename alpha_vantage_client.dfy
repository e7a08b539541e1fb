/** The quote fetcher after its HTTP request: the provider's reply is turned into the
    latest daily bar of the configured symbol, or into None on any failure. The request
    itself (endpoint, query parameters, API key) is transport; only its outcome is modelled. */
module AlphaVantageClient {
  import opened Wrappers

  /** The member of the provider's JSON document that holds the daily series. */
  const TimeSeriesKey := "Time Series (Daily)"
  /** The five fields read from a day's entry. */
  const OpenKey := "1. open"
  const HighKey := "2. high"
  const LowKey := "3. low"
  const CloseKey := "4. close"
  const VolumeKey := "5. volume"

  /** A day's entry: field name to its text value. */
  type Fields = map<string, string>

  predicate DistinctDates(s: seq<(string, Fields)>)
  {
    forall i, j :: 0 <= i < j < |s| ==> s[i].0 != s[j].0
  }

  /** The series object as the decoded dictionary holds it: date keys, each once, in the
      order of the document. */
  type Series = s: seq<(string, Fields)> | DistinctDates(s)

  /** The decoded JSON document: its top-level members whose value is a series. */
  datatype Document = Document(members: map<string, Series>)

  /** What the HTTP request produced: a transport error (connection, timeout, ...) or a
      reply with its status and its body decoded as JSON, None when it is not JSON. */
  datatype HttpReply = TransportError | Reply(status: int, body: Option<Document>)

  /** Python's float() and int() on a text value: None where they raise ValueError. */
  datatype Conversions = Conversions(toFloat: string -> Option<real>, toInt: string -> Option<int>)

  /** The fetched bar; its date is the provider's key, as text. */
  datatype Quote = Quote(date: string, open: real, high: real, low: real, close: real, volume: int)

  /** raise_for_status() raises for client and server error statuses. */
  predicate IsErrorStatus(status: int)
  {
    400 <= status < 600
  }

  /** data.get('Time Series (Daily)', {}): the series, or the empty one when absent. */
  function DailySeries(doc: Document): (s: Series)
    ensures TimeSeriesKey !in doc.members ==> s == []
    ensures TimeSeriesKey in doc.members ==> s == doc.members[TimeSeriesKey]
  {
    if TimeSeriesKey in doc.members then doc.members[TimeSeriesKey] else []
  }

  /** One field converted: None when the key is missing (KeyError) or the text does not
      convert (ValueError). */
  function Field<T>(fields: Fields, key: string, convert: string -> Option<T>): (r: Option<T>)
    ensures r.Some? <==> key in fields && convert(fields[key]).Some?
    ensures r.Some? ==> r == convert(fields[key])
  {
    if key in fields then convert(fields[key]) else None
  }

  /** Every one of the five fields is present and converts. */
  predicate Convertible(fields: Fields, conv: Conversions)
  {
    && Field(fields, OpenKey, conv.toFloat).Some?
    && Field(fields, HighKey, conv.toFloat).Some?
    && Field(fields, LowKey, conv.toFloat).Some?
    && Field(fields, CloseKey, conv.toFloat).Some?
    && Field(fields, VolumeKey, conv.toInt).Some?
  }

  /** The bar built from the first entry of the daily series: its key is the date (no
      sorting, no search for the latest date) and its five fields are the prices and the
      volume; None when the series is missing or empty, or a field is missing or does not
      convert. */
  function LatestQuote(doc: Document, conv: Conversions): (r: Option<Quote>)
    ensures r.Some? <==> |DailySeries(doc)| > 0 && Convertible(DailySeries(doc)[0].1, conv)
    ensures r.Some? ==>
      var (date, fields) := DailySeries(doc)[0];
      && r.value.date == date
      && conv.toFloat(fields[OpenKey]) == Some(r.value.open)
      && conv.toFloat(fields[HighKey]) == Some(r.value.high)
      && conv.toFloat(fields[LowKey]) == Some(r.value.low)
      && conv.toFloat(fields[CloseKey]) == Some(r.value.close)
      && conv.toInt(fields[VolumeKey]) == Some(r.value.volume)
  {
    var series := DailySeries(doc);
    if series == [] then None
    else
      var (date, fields) := series[0];
      var open := Field(fields, OpenKey, conv.toFloat);
      var high := Field(fields, HighKey, conv.toFloat);
      var low := Field(fields, LowKey, conv.toFloat);
      var close := Field(fields, CloseKey, conv.toFloat);
      var volume := Field(fields, VolumeKey, conv.toInt);
      if open.Some? && high.Some? && low.Some? && close.Some? && volume.Some? then
        Some(Quote(date, open.value, high.value, low.value, close.value, volume.value))
      else
        None
  }

  /** get_daily_stock_data from the reply on: transport errors, error statuses and bodies
      that are not JSON all give None, as does everything LatestQuote rejects. */
  function GetDailyStockData(reply: HttpReply, conv: Conversions): (r: Option<Quote>)
    ensures reply.TransportError? ==> r.None?
    ensures reply.Reply? && IsErrorStatus(reply.status) ==> r.None?
    ensures reply.Reply? && reply.body.None? ==> r.None?
    ensures reply.Reply? && !IsErrorStatus(reply.status) && reply.body.Some? ==> r == LatestQuote(reply.body.value, conv)
  {
    match reply
    case TransportError => None
    case Reply(status, body) =>
      if IsErrorStatus(status) || body.None? then None else LatestQuote(body.value, conv)
  }

  /** Only the first entry of the daily series is read: documents that agree on it give
      the same result, whatever else their series or other members hold. */
  lemma OnlyFirstEntryMatters(d1: Document, d2: Document, conv: Conversions)
    requires |DailySeries(d1)| > 0 && |DailySeries(d2)| > 0
    requires DailySeries(d1)[0] == DailySeries(d2)[0]
    ensures LatestQuote(d1, conv) == LatestQuote(d2, conv)
  {
  }

  /** Of the first entry, only the five named fields are read. */
  lemma OnlyNamedFieldsMatter(date: string, f1: Fields, f2: Fields, conv: Conversions)
    requires forall k :: k in {OpenKey, HighKey, LowKey, CloseKey, VolumeKey} ==>
      (k in f1 <==> k in f2) && (k in f1 ==> f1[k] == f2[k])
    ensures LatestQuote(Document(map[TimeSeriesKey := [(date, f1)]]), conv)
         == LatestQuote(Document(map[TimeSeriesKey := [(date, f2)]]), conv)
  {
  }

  /** No date ordering is applied: when the provider lists an older day first, that day
      is the one returned, though a later one follows it. */
  lemma FirstListedDateWins(f: Fields, conv: Conversions)
    requires Convertible(f, conv)
    ensures var doc := Document(map[TimeSeriesKey := [("2024-01-04", f), ("2024-01-05", f)]]);
      LatestQuote(doc, conv).Some? && LatestQuote(doc, conv).value.date == "2024-01-04"
  {
  }

  /** An entry without its volume field gives None, even when the prices convert. */
  lemma MissingFieldGivesNone(date: string, f: Fields, conv: Conversions)
    requires VolumeKey !in f
    ensures LatestQuote(Document(map[TimeSeriesKey := [(date, f)]]), conv) == None
  {
  }
}
