/** run_pipeline: create the tables, fetch the latest bar, store it, look up the bar of
    the day before the database's current date, generate insights on that bar and store
    them. Every stage may end the run early without raising; only a database error
    propagates, and it ends the run. The services' answers and the value conversions
    are parameters. */
module Pipeline {
  import opened Wrappers
  import opened Database
  import AV = AlphaVantageClient
  import Gen = OpenAIClient

  /** Where a run that raised nothing ended: no quote fetched, no reference bar, no
      usable insights, or insights stored. */
  datatype Stage = NoQuote | NoReference | NoInsights | InsightStored

  datatype RunOutcome = Completed(stage: Stage) | Raised(error: DbError)

  function OhlcvOf(q: AV.Quote): Ohlcv
  {
    Ohlcv(q.open, q.high, q.low, q.close, q.volume)
  }

  /** One run. `today` is the database's CURRENT_DATE; `barNow` and `insightNow` are its
      CURRENT_TIMESTAMP in the transactions of the two inserts; `toDay` is the
      database's conversion of the provider's date text, and `chat` the generative
      service's reply to a prompt built from the symbol and a bar. */
  method RunPipeline(db: Store, symbol: string, today: Day, barNow: Timestamp, insightNow: Timestamp,
                     quoteReply: AV.HttpReply, conv: AV.Conversions, toDay: string -> Day,
                     chat: (string, DayBar) -> Gen.ChatReply)
    returns (outcome: RunOutcome)
    requires db.Valid()
    modifies db
    ensures db.Valid() && db.hasStockTable && db.hasRecommendationTable
    // No quote: nothing is written and the run ends normally.
    ensures AV.GetDailyStockData(quoteReply, conv).None? ==>
      && outcome == Completed(NoQuote)
      && db.stockData == old(db.stockData) && db.stockIdSeq == old(db.stockIdSeq)
      && db.recommendations == old(db.recommendations) && db.recommendationIdSeq == old(db.recommendationIdSeq)
      && db.writes == old(db.writes)
    // A quote, but the symbol holds a NUL or does not fit the column: the bar insert
    // raises.
    ensures AV.GetDailyStockData(quoteReply, conv).Some? && (Nul in symbol || !FitsColumn(symbol)) ==>
      && outcome == Raised(if Nul in symbol then NulCharacter else StringTooLong)
      && db.stockData == old(db.stockData) && db.stockIdSeq == old(db.stockIdSeq)
      && db.recommendations == old(db.recommendations) && db.recommendationIdSeq == old(db.recommendationIdSeq)
      && db.writes == old(db.writes)
    // A quote: one bar upsert at (stored symbol, quote date), recorded first; the rest
    // of the run is AnalyseReference on the table as it now stands.
    ensures AV.GetDailyStockData(quoteReply, conv).Some? && Nul !in symbol && FitsColumn(symbol) ==>
      var q := AV.GetDailyStockData(quoteReply, conv).value;
      var key := BarKey(StoredSymbol(symbol), toDay(q.date));
      && db.stockData == UpsertStock(old(db.stockData), key, OhlcvOf(q), old(db.stockIdSeq), barNow)
      && db.stockIdSeq == old(db.stockIdSeq) + 1
      && AnalysisEffect(outcome, old(db.recommendations), old(db.recommendationIdSeq), old(db.writes) + [BarWrite(key)],
                        db.recommendations, db.recommendationIdSeq, db.writes, db.stockData, symbol, today, insightNow, chat)
    // A symbol padded with spaces past the column width is stored cut, but looked up as
    // given, so the run finds no reference bar.
    ensures AV.GetDailyStockData(quoteReply, conv).Some? && Nul !in symbol && FitsColumn(symbol) && |symbol| > SymbolWidth ==>
      outcome == Completed(NoReference)
  {
    db.InitDatabase();
    var quote := AV.GetDailyStockData(quoteReply, conv);
    if quote.None? {
      return Completed(NoQuote);
    }
    var q := quote.value;
    var stored := db.InsertStockData(symbol, toDay(q.date), q.open, q.high, q.low, q.close, q.volume, barNow);
    if stored.Fail? {
      return Raised(stored.error);
    }
    outcome := AnalyseReference(db, symbol, today, insightNow, chat);
  }

  /** What the stages after the bar write leave behind, given the recommendation table,
      its sequence and the write history before (`recs`, `seqId`, `log`) and after
      (`recs'`, `seqId'`, `log'`) them. A symbol holding a NUL: the lookup raises. No
      row at (symbol, today - 1): nothing written. A row but unusable insights: nothing
      written. Usable insights holding a NUL: the insert raises. Otherwise one upsert at
      today - 1 with the symbol, which a found row shows to fit the column unchanged,
      and the generated summary and recommendations. */
  ghost predicate AnalysisEffect(outcome: RunOutcome, recs: RecommendationTable, seqId: nat, log: seq<Write>,
                                 recs': RecommendationTable, seqId': nat, log': seq<Write>,
                                 stock: StockTable, symbol: string, today: Day, now: Timestamp,
                                 chat: (string, DayBar) -> Gen.ChatReply)
  {
    var kept := recs' == recs && seqId' == seqId && log' == log;
    if Nul in symbol then outcome == Raised(NulCharacter) && kept
    else match Yesterday(stock, symbol, today)
    case None =>
      outcome == Completed(NoReference) && kept
    case Some(reference) =>
      var insights := Gen.GenerateInsights(chat(symbol, reference));
      if !Gen.Usable(insights) then
        outcome == Completed(NoInsights) && kept
      else if Nul in insights.summary.value || Nul in insights.recommendations.value then
        outcome == Raised(NulCharacter) && kept
      else
        && outcome == Completed(InsightStored)
        && recs' == UpsertRecommendation(recs, today - 1, symbol, insights.summary.value, insights.recommendations.value, seqId, now)
        && seqId' == seqId + 1
        && log' == log + [InsightWrite(today - 1)]
  }

  /** The stages after the bar write: look up the reference bar at (symbol, today - 1),
      generate insights on it and store them when both parts are non-empty. The stock
      table is only read. */
  method AnalyseReference(db: Store, symbol: string, today: Day, now: Timestamp,
                          chat: (string, DayBar) -> Gen.ChatReply) returns (outcome: RunOutcome)
    requires db.Valid() && db.hasStockTable && db.hasRecommendationTable
    modifies db
    ensures db.Valid() && db.hasStockTable && db.hasRecommendationTable
    ensures db.stockData == old(db.stockData) && db.stockIdSeq == old(db.stockIdSeq)
    ensures AnalysisEffect(outcome, old(db.recommendations), old(db.recommendationIdSeq), old(db.writes),
                           db.recommendations, db.recommendationIdSeq, db.writes, db.stockData, symbol, today, now, chat)
  {
    ghost var recs, seqId, log := db.recommendations, db.recommendationIdSeq, db.writes;
    var lookup := db.GetYesterdaysData(symbol, today);
    if lookup.Err? {
      return Raised(lookup.error);
    }
    assert Nul !in symbol && lookup == Ok(Yesterday(db.stockData, symbol, today));
    if lookup.value.None? {
      return Completed(NoReference);
    }
    var reference := lookup.value.value;
    assert StoredSymbol(symbol) == symbol by {
      assert BarKey(symbol, today - 1) in db.stockData;
    }
    var insights := Gen.GenerateInsights(chat(symbol, reference));
    if !Gen.Usable(insights) {
      return Completed(NoInsights);
    }
    var saved := db.InsertRecommendation(reference.date, symbol, insights.summary.value, insights.recommendations.value, now);
    if saved.Fail? {
      return Raised(saved.error);
    }
    outcome := Completed(InsightStored);
    assert AnalysisEffect(outcome, recs, seqId, log, db.recommendations, db.recommendationIdSeq, db.writes,
                          db.stockData, symbol, today, now, chat);
  }

  /** The reference lookup does not look at the fetched date: after storing a bar at
      (symbol, d), the reference is that very bar when d is today - 1, and otherwise
      whatever the table held at (symbol, today - 1) before. */
  lemma ReferenceAfterStore(t: StockTable, symbol: string, d: Day, values: Ohlcv, nextId: nat, now: Timestamp, today: Day)
    ensures d == today - 1 ==>
      Yesterday(UpsertStock(t, BarKey(symbol, d), values, nextId, now), symbol, today) == Some(DayBar(d, values))
    ensures d != today - 1 ==>
      Yesterday(UpsertStock(t, BarKey(symbol, d), values, nextId, now), symbol, today) == Yesterday(t, symbol, today)
  {
  }

  // The provider's reply for IBM on 2024-01-05 (day 19727), the conversions it needs,
  // and the generative service's reply, used by IbmScenario below.

  const IbmFields: AV.Fields := map[AV.OpenKey := "100.0", AV.HighKey := "105.0", AV.LowKey := "99.0",
                                    AV.CloseKey := "104.0", AV.VolumeKey := "1000000"]
  const IbmReply := AV.Reply(200, Some(AV.Document(map[AV.TimeSeriesKey := [("2024-01-05", IbmFields)]])))
  const IbmBar := Ohlcv(100.0, 105.0, 99.0, 104.0, 1000000)
  const IbmSummary := "Closed up 4%."
  const IbmAdvice := "Hold."

  function IbmFloat(s: string): Option<real>
  {
    if s == "100.0" then Some(100.0) else if s == "105.0" then Some(105.0)
    else if s == "99.0" then Some(99.0) else if s == "104.0" then Some(104.0) else None
  }

  function IbmInt(s: string): Option<int>
  {
    if s == "1000000" then Some(1000000) else None
  }

  function IbmDay(s: string): Day
  {
    if s == "2024-01-05" then 19727 else 0
  }

  function IbmChat(symbol: string, bar: DayBar): Gen.ChatReply
  {
    Gen.Completion([Some(IbmSummary + "\n" + IbmAdvice)])
  }

  lemma IbmQuote()
    ensures AV.GetDailyStockData(IbmReply, AV.Conversions(IbmFloat, IbmInt))
         == Some(AV.Quote("2024-01-05", 100.0, 105.0, 99.0, 104.0, 1000000))
  {
  }

  lemma IbmInsights(bar: DayBar)
    ensures Gen.GenerateInsights(IbmChat("IBM", bar)) == Gen.InsightPair(Some(IbmSummary), Some(IbmAdvice))
  {
    assert forall i :: 0 <= i < |IbmSummary| ==> IbmSummary[i] != '\n';
    Gen.SplitReplyOfJoin(IbmSummary, IbmAdvice);
  }

  /** The scenario's texts hold no NUL, and its symbol is stored as given. */
  lemma IbmTexts()
    ensures Nul !in "IBM" && Nul !in IbmSummary && Nul !in IbmAdvice
    ensures FitsColumn("IBM") && StoredSymbol("IBM") == "IBM"
  {
  }

  /** A summary line holding a NUL character. */
  const NulSummary := "Up\0"

  /** A reply whose summary line holds a NUL is usable, so it reaches the recommendation
      insert, which refuses it: by AnalysisEffect the run then raises NulCharacter. */
  lemma NulReplyReachesInsert()
    ensures var insights := Gen.GenerateInsights(Gen.Completion([Some(NulSummary + "\n" + IbmAdvice)]));
      Gen.Usable(insights) && insights.summary == Some(NulSummary) && Nul in insights.summary.value
  {
    assert forall i :: 0 <= i < |NulSummary| ==> NulSummary[i] != '\n';
    Gen.SplitReplyOfJoin(NulSummary, IbmAdvice);
    assert NulSummary[2] == Nul;
  }

  /** The tables the scenario expects: one bar row and one recommendation row. */
  const IbmStock: StockTable := map[BarKey("IBM", 19727) := StockRow(FirstId, IbmBar, 1)]
  const IbmRecommendations: RecommendationTable := map[19727 := RecommendationRow(FirstId, "IBM", IbmSummary, IbmAdvice, 2)]

  lemma IbmTables()
    ensures UpsertStock(map[], BarKey("IBM", 19727), IbmBar, FirstId, 1) == IbmStock
    ensures UpsertStock(IbmStock, BarKey("IBM", 19727), IbmBar, FirstId + 1, 3) == IbmStock
    ensures Yesterday(IbmStock, "IBM", 19728) == Some(DayBar(19727, IbmBar))
    ensures Yesterday(IbmStock, "IBM", 19730) == None
    ensures UpsertRecommendation(map[], 19727, "IBM", IbmSummary, IbmAdvice, FirstId, 2) == IbmRecommendations
  {
  }

  /** Two daily runs for IBM against a fresh database. The provider reports 2024-01-05
      with open 100.0, high 105.0, low 99.0, close 104.0 and volume 1000000. The first
      run, on 2024-01-06, stores that bar, finds it as the reference bar and stores the
      insights at 2024-01-05. The second run, on Monday 2024-01-08, stores the same bar
      again without adding a row and finds no bar for Sunday, so the insights are left
      as they were. */
  method IbmScenario()
  {
    var conv := AV.Conversions(IbmFloat, IbmInt);
    IbmQuote();
    IbmInsights(DayBar(19727, IbmBar));
    IbmTables();
    IbmTexts();

    var db := new Store();
    var first := RunPipeline(db, "IBM", 19728, 1, 2, IbmReply, conv, IbmDay, IbmChat);
    assert db.stockData == IbmStock;
    assert first == Completed(InsightStored);
    assert db.recommendations == IbmRecommendations;

    var second := RunPipeline(db, "IBM", 19730, 3, 4, IbmReply, conv, IbmDay, IbmChat);
    assert db.stockData == IbmStock;
    assert second == Completed(NoReference);
    assert db.recommendations == IbmRecommendations;
  }
}
