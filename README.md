# fintech-data-pipeline, modelled in Dafny

This project models a once-a-day ETL run for one stock symbol. The run fetches the
latest daily bar (open, high, low, close, volume) from the Alpha Vantage daily time
series and stores it in PostgreSQL. It then reads back the bar of the day before the
database's current date and asks a generative text service for a summary and
recommendations about that bar. Finally it stores them in a second table.

Modules, one per source file:

- `Database` (`src/database.py`) is a `Store` class. Its state is:
  - whether each table exists;
  - the `stock_data` table, a map from `(symbol, date)` to a row;
  - the `daily_recommendations` table, a map from `date` to a row;
  - the next value of each table's `SERIAL` id sequence;
  - a ghost history of committed writes.

  `init_database`, `insert_stock_data`, `get_yesterdays_data` and `insert_recommendation`
  are methods. The upserts are specified by the pure functions `UpsertStock` and
  `UpsertRecommendation`, and the lemmas about them state idempotence, last-write-wins,
  row counts and primary-key ids. `created_at` is an uninterpreted timestamp passed in
  as `now`, one per insert, because each insert commits in its own transaction. The
  database's `CURRENT_DATE` is the day number `today`.
- `AlphaVantageClient` (`src/alpha_vantage_client.py`) covers the fetcher after its HTTP
  request, as pure functions. The decoded series keeps document order. The first entry
  is taken without sorting, and only its five numbered fields are read. Python's
  `float()` and `int()` are partial functions passed in as parameters.
- `OpenAIClient` (`src/openai_client.py`) covers the generator after the chat call, as
  pure functions. Python's `str.strip()` is modelled with the exact white-space set of
  `str.isspace()`. The stripped text is split at the first `"\n"` like
  `split("\n", 1)`, and `"No recommendations."` is the fallback for a one-line reply.
- `Pipeline` (`src/pipeline.py`) has `RunPipeline`, a method that takes a `Store`. It calls
  the two clients on the services' replies, which are parameters, and its contract says
  which writes happen under each outcome. The reference bar is looked up at
  `today - 1`, not at the fetched bar's date. The lookup reads the table after the new
  bar was stored, so the new bar is analysed only when its date is `today - 1`.
  `IbmScenario` runs the pipeline twice against a fresh store with the IBM data of
  2024-01-05.

Four behaviours of the code that a reader might not expect are kept as written:

- The generator does not always yield two non-empty strings or nothing. It
  yields `("", "No recommendations.")` for a reply that is only white space.
  `SplitReply` and `SummaryEmptyIff` model that case. The pipeline then skips the write
  because an empty summary is falsy.
- The symbol columns are `VARCHAR(10)`. PostgreSQL raises on an insert only when a
  character past the tenth is not a space. Nothing in the run catches that error, so
  `RunPipeline` returns `Raised(StringTooLong)`. When every extra character is a space,
  the symbol is stored cut to 10 characters (`FitsColumn`, `StoredSymbol`). The lookup
  compares the column with the symbol as given, so such a run finds no reference bar
  and ends with `NoReference`.
- A successful `INSERT ... ON CONFLICT DO UPDATE` draws a value from the id sequence
  even when it updates an existing row. The id of the existing row is still kept. So
  idempotence holds for the table contents but not for the sequence.
- The database driver refuses any text parameter that holds a NUL character, before
  the statement is sent, and nothing in the run catches that either. A symbol with a
  NUL ends the run at the bar insert. A usable reply with a NUL ends it at the
  recommendation insert, after the bar was stored (`NulCharacter`,
  `NulReplyReachesInsert`).

## Model

| member | source | states |
|---|---|---|
| `Database.UpsertStock` | src/database.py:53-62 | after the upsert the row at (symbol, date) holds exactly the new OHLCV; an existing row keeps its id and created_at, a new one takes the next id and the current time; every other row is unchanged; keys are the old keys plus this one |
| `Database.UpsertRecommendation` | src/database.py:100-107 | the row at date holds the new symbol, summary and recommendations; an existing row keeps id and created_at; all other dates unchanged |
| `Database.Yesterday` | src/database.py:73-93 | a row is returned exactly when (symbol, today - 1) is a key; it carries date today - 1 and that row's OHLCV |
| `Database.UpsertStockIdempotent` | src/database.py:53-62 | two identical upserts leave the table as one does, whatever id and timestamp the second would use |
| `Database.UpsertStockLastWriteWins` | src/database.py:56-61 | a second upsert at the same key replaces the values and keeps the first call's id and created_at |
| `Database.UpsertStockRowCount` | src/database.py:28 | an upsert adds one row for a new key and none for an existing key, so rows are never duplicated |
| `Database.UpsertStockKeepsIds` | src/database.py:19 | ids stay pairwise distinct and below the next sequence value after an upsert |
| `Database.UpsertRecommendationKeepsIds` | src/database.py:35 | the same primary-key property for daily_recommendations |
| `Database.UpsertRecommendationIdempotent` | src/database.py:100-107 | repeating a recommendation upsert changes nothing further |
| `Database.UpsertRecommendationLastWriteWins` | src/database.py:103-106 | a later upsert for the same date, under any symbol, replaces symbol, summary and recommendations, keeping the first call's id and created_at |
| `Database.UpsertRecommendationRowCount` | src/database.py:36 | a recommendation upsert adds one row for a new date and none for an existing one, so each date has one row |
| `Database.Store.constructor` | src/database.py:11-42 | a database before init_database: no tables, sequences at 1, no writes |
| `Database.Store.InitDatabase` | src/database.py:11-46 | both tables exist afterwards; only the existence flags may change, so rows and sequences are kept and a second call changes nothing |
| `Database.StoredSymbol` | src/database.py:20 | a symbol fits the column (`FitsColumn`) when every character past the tenth is a space; the value VARCHAR(10) stores for a symbol that fits is a prefix of at most 10 characters, the symbol itself when it is that short, and only spaces removed |
| `Database.StoredSymbolIsFixed` | src/database.py:20 | a stored symbol fits the column again and is stored unchanged |
| `Database.PaddedSymbols` | src/database.py:20 | "IBM" with eight trailing spaces fits and is stored as "IBM" with seven; an 11-letter symbol does not fit |
| `Database.Store.InsertStockData` | src/database.py:48-66 | raises NulCharacter for a symbol holding a NUL, then UndefinedTable without the table, then StringTooLong for a symbol with a non-space character past the tenth, and in each case changes nothing; otherwise the table becomes UpsertStock of the old one at (stored symbol, date), one id is drawn and one bar write is recorded; stored symbols stay within 10 characters |
| `Database.Store.GetYesterdaysData` | src/database.py:68-93 | read-only; raises exactly when the symbol holds a NUL (NulCharacter) or the table is missing (UndefinedTable); otherwise returns the row at (symbol, today - 1) exactly when it exists, so never a row for a symbol over 10 characters |
| `Database.Store.InsertRecommendation` | src/database.py:95-111 | the same error cases in the same order, with NulCharacter also for a NUL in the summary or the recommendations; otherwise the table becomes UpsertRecommendation of the old one with the stored symbol, and one insight write is recorded |
| `AlphaVantageClient.DailySeries` | src/alpha_vantage_client.py:27 | the series under 'Time Series (Daily)', or the empty series when that member is absent |
| `AlphaVantageClient.Field` | src/alpha_vantage_client.py:36-40 | a field value is present exactly when its key exists and its text converts |
| `AlphaVantageClient.LatestQuote` | src/alpha_vantage_client.py:27-44 | a bar is returned exactly when the series is non-empty and its first entry has all five fields converting; its date is the first key and its values are the conversions of '1. open' to '5. volume' |
| `AlphaVantageClient.GetDailyStockData` | src/alpha_vantage_client.py:21-51 | transport errors, statuses 400 to 599 and non-JSON bodies give None; otherwise the result is LatestQuote of the body |
| `AlphaVantageClient.OnlyFirstEntryMatters` | src/alpha_vantage_client.py:31-32 | documents whose series share the first entry give the same result, whatever follows it |
| `AlphaVantageClient.OnlyNamedFieldsMatter` | src/alpha_vantage_client.py:36-40 | entries that agree on the five named fields give the same result |
| `AlphaVantageClient.FirstListedDateWins` | src/alpha_vantage_client.py:31 | a series listing 2024-01-04 before 2024-01-05 yields 2024-01-04: no sorting or latest-date search |
| `AlphaVantageClient.MissingFieldGivesNone` | src/alpha_vantage_client.py:49-51 | an entry without '5. volume' gives None |
| `OpenAIClient.LeadingSpace` | src/openai_client.py:28 | the count of characters lstrip removes: all of them white space, and the next one, if any, is not |
| `OpenAIClient.TrailingSpace` | src/openai_client.py:28 | the count of characters rstrip removes: all of them white space, and the one before them, if any, is not |
| `OpenAIClient.Strip` | src/openai_client.py:28 | the result neither starts nor ends with white space, and it is a contiguous part of the input with only white space before and after it |
| `OpenAIClient.StripEmptyIff` | src/openai_client.py:28 | stripping gives the empty text exactly when the content is all white space |
| `OpenAIClient.StripIdempotent` | src/openai_client.py:28 | stripping twice equals stripping once |
| `OpenAIClient.StripKeepsTrimmed` | src/openai_client.py:28 | text with no white space at either end is unchanged by stripping |
| `OpenAIClient.FindNewline` | src/openai_client.py:29 | None exactly when there is no line break; otherwise the index of the first one |
| `OpenAIClient.SplitFirstLine` | src/openai_client.py:29 | one part equal to the input when there is no line break; otherwise two parts that join with "\n" back into the input, the first without a line break |
| `OpenAIClient.SplitFirstLineOfJoin` | src/openai_client.py:29 | splitting a + "\n" + b, where a has no line break, gives [a, b] |
| `OpenAIClient.SplitReply` | src/openai_client.py:28-31 | the summary has no line break; with a line break in the stripped content, summary + "\n" + recommendations is that content; without one, the summary is the stripped content and the recommendations are "No recommendations." |
| `OpenAIClient.SplitReplyOfJoin` | src/openai_client.py:28-31 | a first line and a remainder with no white space around them split back into exactly those two parts |
| `OpenAIClient.RecommendationsNeverEmpty` | src/openai_client.py:28-31 | the recommendations are never empty, because the stripped content cannot end with its line break |
| `OpenAIClient.SummaryEmptyIff` | src/openai_client.py:28-30 | the summary is empty exactly when the content is all white space |
| `OpenAIClient.SplitReplyThreeLines` | src/openai_client.py:29-31 | "Line A\nLine B\nLine C" gives ("Line A", "Line B\nLine C") |
| `OpenAIClient.SplitReplyOneLine` | src/openai_client.py:31 | "OnlyLine" gives ("OnlyLine", "No recommendations.") |
| `OpenAIClient.SplitReplyTrailingNewline` | src/openai_client.py:28-31 | "A\n" gives ("A", "No recommendations."): the trailing break is stripped before the split |
| `OpenAIClient.GenerateInsights` | src/openai_client.py:18-35 | both parts are present or both absent; they are present exactly when the service answered with a first choice whose content is not null, and then they are the split of that content |
| `OpenAIClient.UsableIff` | src/pipeline.py:52 | both parts are present and non-empty exactly when the reply's first content has a character that is not white space |
| `Pipeline.RunPipeline` | src/pipeline.py:11-40 | the tables exist afterwards. No quote: nothing is written and the outcome is NoQuote. A symbol holding a NUL or a non-space character past the tenth: the bar insert raises NulCharacter or StringTooLong, and nothing is written. Otherwise there is one bar upsert at (stored symbol, quote date) with the quote's values and the first timestamp, recorded as the first new write, and the rest of the run has the effect AnalyseReference states on the updated table with the second timestamp; a space-padded symbol over 10 characters ends with NoReference |
| `Pipeline.AnalyseReference` | src/pipeline.py:41-72 | the stock table is only read. With no row at (symbol, today - 1), nothing is written (NoReference). A symbol holding a NUL: the lookup raises and nothing is written. With a row but insights that are not both non-empty, nothing is written (NoInsights). Usable insights holding a NUL: the insert raises and nothing is written. Otherwise there is one recommendation upsert at today - 1 with the generated summary and recommendations, and one insight write is recorded |
| `Pipeline.NulReplyReachesInsert` | src/pipeline.py:50-59 | a reply "Up\0" + "\n" + "Hold." is usable and its summary holds a NUL, so the run reaches the recommendation insert that refuses it |
| `Pipeline.ReferenceAfterStore` | src/pipeline.py:43 | after storing a bar at date d, the reference bar is that bar when d is today - 1, and otherwise whatever the table already held at today - 1 |
| `Pipeline.IbmQuote` | src/alpha_vantage_client.py:30-41 | the IBM reply for 2024-01-05 yields that date with open 100.0, high 105.0, low 99.0, close 104.0 and volume 1000000 |
| `Pipeline.IbmTables` | src/database.py:53-62 | in the scenario, storing the IBM bar into an empty table gives one row, storing it again leaves that row as it was, the lookup on 2024-01-06 finds it and the lookup on 2024-01-08 finds nothing |
| `Pipeline.IbmInsights` | src/openai_client.py:28-32 | the scenario's two-line reply yields its summary line and its recommendations line |

## Left out

- HTTP transport (`requests.get`, `raise_for_status`). Only the outcome is modelled: a transport error, or a status and a body that is JSON or not.
- The chat call: its prompt, model name, temperature and token limit. Only its reply is modelled: a service error, or choices whose content may be null.
- Float and integer parsing. `float()` and `int()` are parameters that return None where Python raises ValueError. Prices are exact reals, so `NUMERIC(10,4)` rounding, numeric overflow and the `BIGINT` range are not modelled.
- The conversion of the provider's date text to a `DATE` is a parameter `toDay`. An invalid date, which would raise in the database, is not modelled, nor is a date text holding a NUL, which the driver would refuse.
- Ill-typed JSON is only partly representable. A `Document` keeps only the top-level members whose value is an object, so any other value under `"Time Series (Daily)"` reads as a missing series and gives None. The code agrees when that value is falsy (`null`, `""`, `[]`, `0`, `false`): `if time_series:` returns None. A truthy value that is not an object (a non-empty string or list, a non-zero number, `true`) makes the code raise an uncaught AttributeError, where the model gives None.
- A top-level value that is not an object, an entry that is not an object, and a null or non-text field value are not representable. The code would raise an uncaught AttributeError or TypeError there, or pass the value to `float()` or `int()`.
- A JSON object with repeated date keys is not modelled. A decoded dict has each key once, and the model's `Series` type requires that.
- Connections, cursors, commits and transactions. Each operation is one atomic step, and an unreachable database is not modelled. The errors that are modelled are a NUL in a text parameter, a missing table and an over-long symbol; other server errors are not.
- Python strings holding lone surrogates are not representable, because a Dafny `char` is a Unicode scalar value. The driver would fail to encode them.
- Database.Store.InsertStockData: whether a failed insert still consumes a sequence value is not modelled; the sequence is left unchanged on failure.
- Wall-clock time. `CURRENT_DATE` is the parameter `today` and `CURRENT_TIMESTAMP` is a parameter `now` of each insert; `RunPipeline` takes one for each of its two inserts.
- Concurrent runs, the web trigger in `server.py` (routes, admin token, background thread) and `scripts/init_db.py`, which only calls `init_database`.
- Logging with `print`, `dotenv` and environment reads. The symbol is a parameter, and the outcome's stage stands in for the log lines.
