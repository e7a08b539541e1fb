/** The relational store: the stock_data table, unique on (symbol, date), and the
    daily_recommendations table, unique on date, each written by INSERT ... ON CONFLICT
    ... DO UPDATE. Every operation is one atomic step on the tables; connections,
    cursors and commits are not modelled. */
module Database {
  import opened Wrappers

  /** A calendar date as a day number. */
  type Day = int
  /** The value CURRENT_TIMESTAMP gives to a new row's created_at; never interpreted. */
  type Timestamp = int

  /** Both tables declare their symbol column VARCHAR(10). */
  const SymbolWidth := 10
  /** The first value a SERIAL column's sequence hands out. */
  const FirstId := 1

  /** The unique key of stock_data. */
  datatype BarKey = BarKey(symbol: string, date: Day)

  /** The prices and volume of one day. */
  datatype Ohlcv = Ohlcv(open: real, high: real, low: real, close: real, volume: int)

  /** A stock_data row, apart from its key. */
  datatype StockRow = StockRow(id: nat, values: Ohlcv, createdAt: Timestamp)

  /** A daily_recommendations row, apart from its date key. */
  datatype RecommendationRow = RecommendationRow(
    id: nat, symbol: string, summary: string, recommendations: string, createdAt: Timestamp)

  /** What get_yesterdays_data returns: the date and the five values. */
  datatype DayBar = DayBar(date: Day, values: Ohlcv)

  /** Errors a database call raises: a text parameter holding a NUL character, which the
      driver refuses while quoting the parameters, before the statement is sent; a table
      that was never created; and a symbol the column cannot hold. */
  datatype DbError = NulCharacter | UndefinedTable | StringTooLong

  /** The character no text parameter may contain. */
  const Nul: char := '\0'


  /** A committed write, as recorded in the store's history. */
  datatype Write = BarWrite(key: BarKey) | InsightWrite(date: Day)

  type StockTable = map<BarKey, StockRow>
  type RecommendationTable = map<Day, RecommendationRow>

  /** Assigning text to a VARCHAR(10) column fails only when a character past the tenth
      is not a space; excess spaces are cut off. */
  predicate FitsColumn(s: string)
  {
    forall i :: SymbolWidth <= i < |s| ==> s[i] == ' '
  }

  /** The value a VARCHAR(10) column stores for a symbol that fits it: the symbol
      without the spaces past the tenth character. */
  function StoredSymbol(s: string): (v: string)
    requires FitsColumn(s)
    ensures |v| <= SymbolWidth && v <= s
    ensures forall i :: |v| <= i < |s| ==> s[i] == ' '
    ensures |s| <= SymbolWidth ==> v == s
    ensures |s| > SymbolWidth ==> |v| == SymbolWidth
  {
    if |s| <= SymbolWidth then s else s[..SymbolWidth]
  }

  /** A stored symbol fits the column and is stored unchanged. */
  lemma StoredSymbolIsFixed(s: string)
    requires FitsColumn(s)
    ensures FitsColumn(StoredSymbol(s)) && StoredSymbol(StoredSymbol(s)) == StoredSymbol(s)
  {
  }

  /** "IBM" padded with eight spaces fits and is stored as "IBM" and seven spaces; a
      symbol with a letter past the tenth character does not fit. */
  lemma PaddedSymbols()
    ensures FitsColumn("IBM        ") && StoredSymbol("IBM        ") == "IBM       "
    ensures !FitsColumn("ABCDEFGHIJK")
  {
    assert "ABCDEFGHIJK"[10] == 'K';
  }

  /** The stock_data upsert: a new row takes the next id and the current timestamp; a row
      already at the key keeps its id and created_at and takes the new values; every
      other row stays as it was. */
  function UpsertStock(t: StockTable, key: BarKey, values: Ohlcv, nextId: nat, now: Timestamp): (t': StockTable)
    ensures t'.Keys == t.Keys + {key}
    ensures t'[key].values == values
    ensures key in t ==> t'[key].id == t[key].id && t'[key].createdAt == t[key].createdAt
    ensures key !in t ==> t'[key].id == nextId && t'[key].createdAt == now
    ensures forall k :: k in t && k != key ==> t'[k] == t[k]
  {
    if key in t then t[key := t[key].(values := values)]
    else t[key := StockRow(nextId, values, now)]
  }

  /** The daily_recommendations upsert, keyed by date alone: a row already at the date
      keeps its id and created_at and takes the new symbol, summary and recommendations. */
  function UpsertRecommendation(t: RecommendationTable, date: Day, symbol: string, summary: string,
                                recommendations: string, nextId: nat, now: Timestamp): (t': RecommendationTable)
    ensures t'.Keys == t.Keys + {date}
    ensures t'[date].symbol == symbol && t'[date].summary == summary && t'[date].recommendations == recommendations
    ensures date in t ==> t'[date].id == t[date].id && t'[date].createdAt == t[date].createdAt
    ensures date !in t ==> t'[date].id == nextId && t'[date].createdAt == now
    ensures forall d :: d in t && d != date ==> t'[d] == t[d]
  {
    if date in t then t[date := t[date].(symbol := symbol, summary := summary, recommendations := recommendations)]
    else t[date := RecommendationRow(nextId, symbol, summary, recommendations, now)]
  }

  /** The row get_yesterdays_data selects: the one at (symbol, today - 1), if any. */
  function Yesterday(t: StockTable, symbol: string, today: Day): (r: Option<DayBar>)
    ensures r.Some? <==> BarKey(symbol, today - 1) in t
    ensures r.Some? ==> r.value.date == today - 1 && r.value.values == t[BarKey(symbol, today - 1)].values
  {
    var key := BarKey(symbol, today - 1);
    if key in t then Some(DayBar(key.date, t[key].values)) else None
  }

  /** The id column is a primary key: no two rows share an id, and every id is below
      the next value of the table's sequence. */
  ghost predicate StockIdsValid(t: StockTable, nextId: nat)
  {
    && (forall k :: k in t ==> t[k].id < nextId)
    && (forall k1, k2 :: k1 in t && k2 in t && k1 != k2 ==> t[k1].id != t[k2].id)
  }

  ghost predicate RecommendationIdsValid(t: RecommendationTable, nextId: nat)
  {
    && (forall d :: d in t ==> t[d].id < nextId)
    && (forall d1, d2 :: d1 in t && d2 in t && d1 != d2 ==> t[d1].id != t[d2].id)
  }

  /** Both symbol columns hold at most SymbolWidth characters. */
  ghost predicate SymbolsFit(stock: StockTable, recs: RecommendationTable)
  {
    && (forall k :: k in stock ==> |k.symbol| <= SymbolWidth)
    && (forall d :: d in recs ==> |recs[d].symbol| <= SymbolWidth)
  }

  /** The store: which tables exist, their rows, the next value of each id sequence, and
      the history of committed writes. */
  class Store {
    var hasStockTable: bool
    var hasRecommendationTable: bool
    var stockData: StockTable
    var recommendations: RecommendationTable
    var stockIdSeq: nat
    var recommendationIdSeq: nat
    ghost var writes: seq<Write>

    ghost predicate Valid()
      reads this
    {
      && (!hasStockTable ==> stockData == map[])
      && (!hasRecommendationTable ==> recommendations == map[])
      && StockIdsValid(stockData, stockIdSeq)
      && RecommendationIdsValid(recommendations, recommendationIdSeq)
      && SymbolsFit(stockData, recommendations)
    }

    /** A database in which neither table has been created yet. */
    constructor ()
      ensures Valid()
      ensures !hasStockTable && !hasRecommendationTable
      ensures stockIdSeq == FirstId && recommendationIdSeq == FirstId
      ensures writes == []
    {
      hasStockTable, hasRecommendationTable := false, false;
      stockData, recommendations := map[], map[];
      stockIdSeq, recommendationIdSeq := FirstId, FirstId;
      writes := [];
    }

    /** init_database: CREATE TABLE IF NOT EXISTS for both tables. Only the existence of
        the tables changes; existing rows are kept, so a second call changes nothing. */
    method InitDatabase()
      requires Valid()
      modifies this`hasStockTable, this`hasRecommendationTable
      ensures Valid()
      ensures hasStockTable && hasRecommendationTable
    {
      hasStockTable, hasRecommendationTable := true, true;
    }

    /** insert_stock_data: one upsert at (stored symbol, date). It raises when the table
        is missing, or the symbol holds a NUL or does not fit the column, and then
        changes nothing. A
        successful call draws one value from the id sequence even when it updates an
        existing row. */
    method InsertStockData(symbol: string, date: Day, open: real, high: real, low: real,
                           close: real, volume: int, now: Timestamp) returns (r: Outcome<DbError>)
      requires Valid()
      modifies this`stockData, this`stockIdSeq, this`writes
      ensures Valid()
      ensures r == if Nul in symbol then Fail(NulCharacter)
                   else if !hasStockTable then Fail(UndefinedTable)
                   else if !FitsColumn(symbol) then Fail(StringTooLong)
                   else Pass
      ensures r.Pass? ==>
        var key := BarKey(StoredSymbol(symbol), date);
        && stockData == UpsertStock(old(stockData), key, Ohlcv(open, high, low, close, volume), old(stockIdSeq), now)
        && stockIdSeq == old(stockIdSeq) + 1
        && writes == old(writes) + [BarWrite(key)]
      ensures r.Fail? ==> stockData == old(stockData) && stockIdSeq == old(stockIdSeq) && writes == old(writes)
    {
      if Nul in symbol {
        return Fail(NulCharacter);
      }
      if !hasStockTable {
        return Fail(UndefinedTable);
      }
      if !FitsColumn(symbol) {
        return Fail(StringTooLong);
      }
      var key := BarKey(StoredSymbol(symbol), date);
      UpsertStockKeepsIds(stockData, key, Ohlcv(open, high, low, close, volume), stockIdSeq, now);
      stockData := UpsertStock(stockData, key, Ohlcv(open, high, low, close, volume), stockIdSeq, now);
      stockIdSeq := stockIdSeq + 1;
      writes := writes + [BarWrite(key)];
      r := Pass;
    }

    /** get_yesterdays_data: a read of the row at (symbol, today - 1), where today is the
        database's current date. The symbol is compared as given, so one longer than the
        column matches no row; it is not an error here. */
    method GetYesterdaysData(symbol: string, today: Day) returns (r: Result<Option<DayBar>, DbError>)
      requires Valid()
      ensures r.Err? <==> Nul in symbol || !hasStockTable
      ensures r.Err? ==> r.error == if Nul in symbol then NulCharacter else UndefinedTable
      ensures r.Ok? ==> (r.value.Some? <==> BarKey(symbol, today - 1) in stockData)
      ensures r.Ok? && r.value.Some? ==>
        r.value.value == DayBar(today - 1, stockData[BarKey(symbol, today - 1)].values)
      ensures r.Ok? && |symbol| > SymbolWidth ==> r.value.None?
    {
      if Nul in symbol {
        return Err(NulCharacter);
      }
      if !hasStockTable {
        return Err(UndefinedTable);
      }
      r := Ok(Yesterday(stockData, symbol, today));
    }

    /** insert_recommendation: one upsert at date, replacing symbol, summary and
        recommendations of a row already there. The symbol column is VARCHAR(10) as in
        stock_data, and a NUL in any of the three texts is refused. */
    method InsertRecommendation(date: Day, symbol: string, summary: string, recommendations: string,
                                now: Timestamp) returns (r: Outcome<DbError>)
      requires Valid()
      modifies this`recommendations, this`recommendationIdSeq, this`writes
      ensures Valid()
      ensures r == if Nul in symbol || Nul in summary || Nul in recommendations then Fail(NulCharacter)
                   else if !hasRecommendationTable then Fail(UndefinedTable)
                   else if !FitsColumn(symbol) then Fail(StringTooLong)
                   else Pass
      ensures r.Pass? ==>
        && this.recommendations == UpsertRecommendation(old(this.recommendations), date, StoredSymbol(symbol), summary, recommendations, old(recommendationIdSeq), now)
        && recommendationIdSeq == old(recommendationIdSeq) + 1
        && writes == old(writes) + [InsightWrite(date)]
      ensures r.Fail? ==> this.recommendations == old(this.recommendations) && recommendationIdSeq == old(recommendationIdSeq) && writes == old(writes)
    {
      if Nul in symbol || Nul in summary || Nul in recommendations {
        return Fail(NulCharacter);
      }
      if !hasRecommendationTable {
        return Fail(UndefinedTable);
      }
      if !FitsColumn(symbol) {
        return Fail(StringTooLong);
      }
      var stored := StoredSymbol(symbol);
      UpsertRecommendationKeepsIds(this.recommendations, date, stored, summary, recommendations, recommendationIdSeq, now);
      this.recommendations := UpsertRecommendation(this.recommendations, date, stored, summary, recommendations, recommendationIdSeq, now);
      recommendationIdSeq := recommendationIdSeq + 1;
      writes := writes + [InsightWrite(date)];
      r := Pass;
    }
  }

  /** An upsert that takes its new id from the sequence keeps the ids a primary key. */
  lemma UpsertStockKeepsIds(t: StockTable, key: BarKey, values: Ohlcv, nextId: nat, now: Timestamp)
    requires StockIdsValid(t, nextId)
    ensures StockIdsValid(UpsertStock(t, key, values, nextId, now), nextId + 1)
  {
  }

  lemma UpsertRecommendationKeepsIds(t: RecommendationTable, date: Day, symbol: string, summary: string,
                                     recommendations: string, nextId: nat, now: Timestamp)
    requires RecommendationIdsValid(t, nextId)
    ensures RecommendationIdsValid(UpsertRecommendation(t, date, symbol, summary, recommendations, nextId, now), nextId + 1)
  {
  }

  /** Repeating an upsert with the same key and values leaves the table as one call
      left it, whatever id and timestamp the second call would have used. */
  lemma UpsertStockIdempotent(t: StockTable, key: BarKey, values: Ohlcv, id1: nat, now1: Timestamp, id2: nat, now2: Timestamp)
    ensures UpsertStock(UpsertStock(t, key, values, id1, now1), key, values, id2, now2)
         == UpsertStock(t, key, values, id1, now1)
  {
  }

  /** Last write wins: a second upsert at the same key replaces the values of the first,
      while the row keeps the id and created_at the first gave it. */
  lemma UpsertStockLastWriteWins(t: StockTable, key: BarKey, v1: Ohlcv, v2: Ohlcv, id1: nat, now1: Timestamp, id2: nat, now2: Timestamp)
    ensures UpsertStock(UpsertStock(t, key, v1, id1, now1), key, v2, id2, now2)
         == UpsertStock(t, key, v2, id1, now1)
  {
  }

  /** An upsert adds a row only for a new key, so re-inserting never duplicates. */
  lemma UpsertStockRowCount(t: StockTable, key: BarKey, values: Ohlcv, nextId: nat, now: Timestamp)
    ensures |UpsertStock(t, key, values, nextId, now)| == if key in t then |t| else |t| + 1
  {
  }

  /** Repeating a recommendation upsert with the same arguments changes nothing more. */
  lemma UpsertRecommendationIdempotent(t: RecommendationTable, date: Day, symbol: string, summary: string,
                                       recommendations: string, id1: nat, now1: Timestamp, id2: nat, now2: Timestamp)
    ensures UpsertRecommendation(UpsertRecommendation(t, date, symbol, summary, recommendations, id1, now1),
                                 date, symbol, summary, recommendations, id2, now2)
         == UpsertRecommendation(t, date, symbol, summary, recommendations, id1, now1)
  {
  }

  /** A later upsert for the same date, under any symbol, replaces symbol, summary and
      recommendations; the row keeps the id and created_at of the first. */
  lemma UpsertRecommendationLastWriteWins(t: RecommendationTable, date: Day,
                                          s1: string, sum1: string, rec1: string, id1: nat, now1: Timestamp,
                                          s2: string, sum2: string, rec2: string, id2: nat, now2: Timestamp)
    ensures UpsertRecommendation(UpsertRecommendation(t, date, s1, sum1, rec1, id1, now1), date, s2, sum2, rec2, id2, now2)
         == UpsertRecommendation(t, date, s2, sum2, rec2, id1, now1)
  {
  }

  /** A recommendation upsert adds a row only for a new date: one row per date. */
  lemma UpsertRecommendationRowCount(t: RecommendationTable, date: Day, symbol: string, summary: string,
                                                        recommendations: string, nextId: nat, now: Timestamp)
    ensures |UpsertRecommendation(t, date, symbol, summary, recommendations, nextId, now)| == if date in t then |t| else |t| + 1
  {
  }
}
