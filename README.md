# notion-price-tool, modelled in Dafny

`app.js` fetches spot tickers from four exchanges (Binance, Bybit, OKX,
CoinEx). It reduces each ticker payload to a map from bare asset symbol to
price string. It then walks every configured Notion database and writes each
row's `CurrentPrice` from the exchange that row selects. This project models
that pipeline with the network and the Notion client abstracted away:

- `text.dfy` (module `Text`) holds `endsWith`, and `String.replace` with a
  string pattern. The latter removes the first occurrence of the pattern,
  which is not necessarily the suffix.
- `tickers.dfy` (module `Tickers`) holds the typed payloads, with `Option`
  fields for the optional-chained paths. It also holds `new Map(pairs)`
  (last write wins) and the four `extract*Prices` functions, all built on
  one filter/strip/`new Map` shape, `Extract`.
- `reconcile.dfy` (module `Reconcile`) holds the `tickers` price table,
  database entries, update instructions and `getPropertiesToUpdate`.
- `batching.dfy` (module `Batching`) holds lodash `_.chunk`,
  `OPERATION_BATCH_SIZE` and the sequential batch loop of `updatePages`. That
  loop is a method of a `PageStore` class whose write log (`batches`) grows
  by one batch per `Promise.all`.
- `pagination.dfy` (module `Pagination`) holds the `while (true)` cursor
  loop of `getEntriesFromNotionDatabase`. It runs over a finite sequence of
  `(results, nextCursor)` pages.
- `pipeline.dfy` (module `Pipeline`) holds `main`:
  - the four fetch/extract/guard steps, in order;
  - assembly of the `tickers` table;
  - the loop over `DATABASE_IDS`, proved against a value-level description
    of the whole run (`RunDatabases`);
  - end-to-end scenarios.

Every abort of the program becomes a `Failure`. This covers
`process.exit(1)`, a `TypeError` and a rejected promise.

Three behaviours of `app.js` that the model keeps as written:

- A selector that names none of the four exchanges makes the whole run fail.
  It does not fall back to Binance, because `updates[name].get` throws.
- Keys are the id with its first `USDT` (OKX: `-USDT`) removed, and are not
  upper-cased. So a key can still end in `USDT` (`KeyKeepsQuote`), and two ids
  can collide (`BinanceCollision`).
- An instruction carries only the page id and the price. A missing symbol
  still yields an instruction, whose price is `None` (the `NaN` written to
  Notion).

## Model

| member | source | states |
|---|---|---|
| Text.EndsWith | app.js:85 | definition: `endsWith`, the id is at least as long as the suffix and ends with exactly its characters |
| Text.IndexFrom | app.js:86 | the index found is an occurrence of the pattern with no earlier one at or after `from`; `None` means no occurrence at all |
| Text.RemoveFirst | app.js:86 | without an occurrence the id is unchanged, otherwise exactly `|pattern|` characters are removed |
| Text.RemoveFirstSplit | app.js:86 | for `s = a + p + b` with no occurrence of `p` starting inside `a`, the result is `a + b` (the first occurrence is the one removed) |
| Text.EndsWithOccurs | app.js:85-86 | an id ending in `p` contains `p`, so removing the first `p` shortens it by `|p|`; this applies where the filter and the removal use the same `USDT`, not to OKX, which filters on `USDT` but removes `-USDT` |
| Text.RemoveFirstStripsSoleSuffix | app.js:86 | when the only occurrence is the suffix, `replace` strips the suffix and appending it gives the id back |
| Text.RemoveFirstIsNotSuffixStrip | app.js:86 | `"USDTAUSDT"` ends in `USDT` yet becomes `"AUSDT"`: replace is not suffix stripping |
| Tickers.Kept | app.js:85 | definition: the filter keeps an id exactly when it ends in `USDT` (for all four exchanges, OKX included) |
| Tickers.KeyOf | app.js:86 | definition: the key of a kept id is the id with the first occurrence of the marker removed (`USDT`; `-USDT` for OKX) |
| Tickers.MapOf | app.js:84-87 | the keys of `new Map(pairs)` are exactly the first components of the pairs |
| Tickers.MapOfLastWins | app.js:84-87 | the value under a key is the one carried by the last pair with that key |
| Tickers.Quoted | app.js:85-86 | at most one pair per instrument |
| Tickers.QuotedMembers | app.js:85-86 | every pair produced comes from an id ending in `USDT` with the marker removed, and every such id produces its pair |
| Tickers.QuotedOne | app.js:85-86 | one instrument gives its single pair when its id ends in `USDT`, and nothing otherwise |
| Tickers.QuotedSnoc | app.js:85-86 | helper for `QuotedAppend`: appending an instrument appends its pair, if it is kept |
| Tickers.QuotedAppend | app.js:85-86 | the filter/map preserves input order: the pairs of `a + b` are those of `a` followed by those of `b`; with `QuotedOne` this fixes the result of `Quoted` completely |
| Tickers.Extract | app.js:83-88 | every kept id contributes its key; every key holds the price of the last kept id that reduces to it |
| Tickers.ExtractKeys | app.js:83-116 | a key is in the map if and only if some id ending in `USDT` reduces to it; other ids contribute nothing |
| Tickers.ExtractLastWriter | app.js:84-87 | a kept id that no later kept id collides with has its own price under its key |
| Tickers.ExtractLastWins | app.js:84-87 | of two kept ids reducing to the same key, the later one's price is kept |
| Tickers.ExtractBinancePrices | app.js:83-88 | Binance map: symbol minus its first `USDT` to `price`, last write wins |
| Tickers.ExtractBybitPrices | app.js:90-95 | an absent `result` or `result.list` gives the empty map; otherwise symbol minus its first `USDT` to `bid1Price` |
| Tickers.ExtractOkxPrices | app.js:97-102 | an absent `data` gives the empty map; otherwise ids ending in `USDT` minus their first `-USDT` to `last` |
| Tickers.ExtractCoinexPrices | app.js:104-116 | no map at all exactly when `data` or `data.ticker` is absent; otherwise ticker name minus its first `USDT` to `last` |
| Tickers.OkxUndashedKeepsId | app.js:99-100 | an OKX id ending in `USDT` that contains no `-USDT` is kept under its full id |
| Tickers.BinanceBareAsset | app.js:85-86 | a symbol whose only `USDT` is its suffix is keyed by the bare asset, and the key plus `USDT` is the symbol |
| Tickers.LeadingQuoteKey | app.js:85-86 | `"USDTAUSDT"` is kept under `"AUSDT"` |
| Tickers.InnerQuoteKey | app.js:85-86 | `"AUSDTUSDT"` is kept under `"AUSDT"` |
| Tickers.CollidingIds | app.js:85-86 | two different kept ids can reduce to the same key |
| Tickers.KeyKeepsQuote | app.js:85-86 | a key produced from a kept id can itself still end in `USDT` |
| Tickers.MapOfSameKey | app.js:84-87 | two pairs with the same key make a one-entry map holding the second value |
| Tickers.QuotedBothKept | app.js:85-86 | two kept ids are both reduced, in input order |
| Tickers.SingleKept | app.js:84-87 | a single kept id makes the one-entry map from its key to its price |
| Tickers.SameKeyPair | app.js:84-87 | two kept ids with the same key leave one entry, holding the second price |
| Tickers.CollidingPairs | app.js:84-87 | for `USDTAUSDT` followed by `AUSDTUSDT`, the map is `{AUSDT: second price}` |
| Tickers.BinanceCollision | app.js:83-88 | Binance tickers `USDTAUSDT` at 1 and `AUSDTUSDT` at 2 give exactly `{AUSDT: 2}`; the first price is lost |
| Reconcile.SelectorName | app.js:59 | definition: the selector defaults to `binance`: an absent or empty selector reads as `binance`, any other selector as itself |
| Reconcile.ExchangeNamed | app.js:59 | definition: only the exact, lower-case names `binance`, `bybit`, `okx` and `coinex` select a map of `tickers` |
| Reconcile.PriceFor | app.js:59 | definition: `get(key)` on the selected map, `None` when the symbol is absent or not a key |
| Reconcile.GetPropertiesToUpdate | app.js:53-65 | succeeds exactly when every entry's selector names an exchange; then there is one instruction per entry, in order, with that entry's page id and the price of its symbol on its exchange (`None` when absent); otherwise it fails with the first unknown selector |
| Reconcile.DefaultsToBinance | app.js:59 | an absent or empty selector prices the entry from the Binance map |
| Reconcile.SingleEntry | app.js:53-65 | one entry with a known selector gives exactly one instruction |
| Reconcile.UnknownSelectorFails | app.js:59 | a selector `"Binance"` (wrong case) makes the whole join fail |
| Reconcile.AppendResolves | app.js:59 | if every entry of two lists selects an exchange, so does every entry of their concatenation |
| Reconcile.FirstUnknown | app.js:54-59 | the join fails with the selector of the first entry that names no exchange |
| Reconcile.PrefixResolves | app.js:59 | if all of `a` and the first `i` entries of `b` select an exchange, so do the first `|a| + i` entries of `a + b` |
| Reconcile.UnknownAfter | app.js:54-59 | an unknown selector in `b` after a fully resolving `a` is the one `a + b` fails with |
| Reconcile.AppendFirstFails | app.js:54-59 | when `a` fails, `a + b` fails with `a`'s error |
| Reconcile.AppendSecondFails | app.js:54-59 | when `a` reconciles and `b` fails, `a + b` fails with `b`'s error |
| Reconcile.AppendBothSucceed | app.js:53-65 | when both lists reconcile, `a + b` reconciles to the concatenated instructions |
| Reconcile.GetPropertiesToUpdateAppend | app.js:53-65 | the join of `a + b` in every case: `a`'s error if `a` fails, otherwise `b`'s error if `b` fails, otherwise the instructions of `a` followed by those of `b` |
| Batching.OperationBatchSize | app.js:15 | definition: batches hold at most 10 writes |
| Batching.Chunk | app.js:69 | a size below 1 gives no chunks; otherwise the chunks concatenate back to the input, each holds 1 to `size` items, and all but the last hold exactly `size` |
| Batching.ChunkCount | app.js:69 | `L` instructions make `ceil(L / 10)` batches |
| Batching.TwentyFiveInThreeBatches | app.js:69 | 25 instructions make the batches `[0..10)`, `[10..20)` and `[20..25)` |
| Batching.Issued | app.js:70-80 | the batches sent are a prefix of the chunks: all of them when every write is accepted, otherwise up to and including the first failing chunk |
| Batching.IssuedUpTo | app.js:70-78 | if chunk `i` is the first with a rejected write, exactly chunks `0..i` are sent |
| Batching.AcceptedFlatten | app.js:69-78 | every chunk is accepted exactly when every write of the whole list is |
| Batching.PageStore.UpdateBatch | app.js:71-78 | appends the batch to the write log; succeeds exactly when no write of the batch is rejected |
| Batching.PageStore.SendChunks | app.js:70-80 | the write log grows by exactly the batches sent, and the loop succeeds exactly when every chunk is accepted |
| Batching.PageStore.UpdatePages | app.js:68-81 | the write log grows by the issued chunks of size 10, and the call succeeds exactly when every write is accepted |
| Pagination.Falsy | app.js:34 | definition: a missing or empty `next_cursor` ends the loop |
| Pagination.CollectFrom | app.js:28-38 | definition: page `i`'s results, then, unless its cursor is falsy, what the loop collects from page `i + 1`; a query past the last page fails |
| Pagination.CollectFromStops | app.js:28-38 | starting at page `i`, the loop collects the results of pages `i..n`, where `n` is the first page with a falsy cursor |
| Pagination.CollectStops | app.js:25-41 | the result is the in-order concatenation of all pages up to and including the first page with a falsy cursor |
| Pagination.CollectFails | app.js:28-38 | when no remaining page has a falsy cursor, a query runs past the source and the loop fails |
| Pagination.ConcatSize | app.js:33 | the number of entries collected is the sum of the page sizes |
| Pagination.GetEntriesFromNotionDatabase | app.js:25-41 | returns what `CollectFrom` says; the first query has no cursor; each later query carries the previous page's truthy `next_cursor`; on success the last page queried is the first with a falsy cursor |
| Pipeline.ExtractAll | app.js:119-141 | definition: each response goes through its own exchange's extractor; a failed request stays a failure |
| Pipeline.Guard | app.js:121-145 | definition: a failed request, a missing map (`.size` of `undefined`) and an empty map each abort; otherwise the map passes |
| Pipeline.BuildPriceTable | app.js:119-152 | the table is built exactly when all four guarded maps are non-empty, and holds them; otherwise the error names the first exchange, in fetch order, whose step failed, and why |
| Pipeline.DatabaseInstructions | app.js:155-157 | definition: collect the database's entries, then reconcile them; a failed query or an unknown selector aborts |
| Pipeline.DatabaseStep | app.js:155-159 | definition: a turn that cannot reconcile sends nothing; otherwise it sends the issued chunks of size 10 and fails exactly when a write is rejected |
| Pipeline.Combine | app.js:154-160 | definition: turns in order, the batches of each appended, stopping after the first failing turn |
| Pipeline.RunDatabases | app.js:154-160 | definition: the loop over `DATABASE_IDS` is the combination of one turn per id, in order |
| Pipeline.Steps | app.js:154 | one turn per database id |
| Pipeline.StepsAt | app.js:154-160 | turn `i` is the turn of the `i`-th database id |
| Pipeline.DatabaseStepSends | app.js:155-159 | every batch a database sends holds 1 to 10 writes; a successful turn sends exactly its instructions |
| Pipeline.CombineBounded | app.js:154-160 | running turns in sequence sends no batch that no turn sends |
| Pipeline.BatchesBounded | app.js:154-160 | every batch of the whole run holds between 1 and 10 writes |
| Pipeline.CombineCons | app.js:154-160 | helper for `CompletedRunSendsAll`: a failing first turn ends the run; otherwise its batches come before the rest |
| Pipeline.FlattenAppend | app.js:159 | the writes of two batch lists in sequence are the writes of each, concatenated |
| Pipeline.CompletedRunSendsAll | app.js:154-160 | when the run completes, every database was read and reconciled, and the writes, in order, are each database's instructions in turn |
| Pipeline.SyncDatabase | app.js:155-159 | one loop turn: the write log and the result are those of `DatabaseStep` |
| Pipeline.SyncAt | app.js:154-160 | the loop turn for the `i`-th id |
| Pipeline.CombineFrom | app.js:154-160 | helper for the `SyncDatabases` invariant: the rest of the run from turn `i` is turn `i` followed by the rest after it, unless turn `i` fails |
| Pipeline.SyncDatabases | app.js:154-160 | the write log grows by exactly the batches `RunDatabases` sends, and the loop ends as `RunDatabases` says |
| Pipeline.Run | app.js:118-161 | nothing is written unless the price table is built; otherwise the run is the database loop over that table |
| Pipeline.BtcKey | app.js:85-86 | `BTCUSDT` is kept and keyed `BTC` |
| Pipeline.BinanceScenarioPrices | app.js:83-88 | `[{BTCUSDT, 50000}]` gives the Binance map `{BTC: 50000}` |
| Pipeline.JoinOne | app.js:53-65 | an entry whose symbol is priced on its exchange gives the one instruction `(pageId, price)` |
| Pipeline.BinanceScenario | app.js:59 | entry `BTC` with no selector on page `r1` gives `(r1, 50000)` |
| Pipeline.EthKey | app.js:113-114 | `ETHUSDT` is kept and keyed `ETH` |
| Pipeline.CoinexScenarioPrices | app.js:104-116 | `{ETHUSDT: {last: 3000}}` gives the CoinEx map `{ETH: 3000}` |
| Pipeline.CoinexSelector | app.js:59 | `"coinex"` selects CoinEx |
| Pipeline.CoinexJoin | app.js:59 | entry `ETH` selecting `coinex` on page `r2` gives `(r2, 3000)` when CoinEx prices ETH at 3000 |
| Pipeline.CoinexScenario | app.js:104-116 | the same instruction, starting from the CoinEx payload |
| Pipeline.EmptyBinanceAborts | app.js:119-124 | an empty Binance payload aborts the run at the Binance guard, before any write |
| Pipeline.CoinexLastFault | app.js:140-145 | with the first three guards passed and no CoinEx map, the run aborts on CoinEx |
| Pipeline.MissingCoinexTickersAbort | app.js:140-145 | a CoinEx payload without `data.ticker` aborts the run even when the other three exchanges answered |

## Left out

- HTTP fetching (`getTickers`, `axios.get`, app.js:43-51): each response is an input. A failed request, which the source ends with `process.exit(1)`, is `None` and gives `FetchFailed`.
- Notion client calls (`notion.databases.query`, `notion.pages.update`): a database is the finite sequence of pages it answers with. A query past its end stands for a failed query. Writes go to the `PageStore` write log. Which page ids the store refuses is a fixed set, `rejected`.
- `Promise.all` concurrency: a batch is logged as one unit. The order of writes inside it carries no meaning. The whole failing batch is logged, because all its writes are issued before the rejection is seen.
- `parseFloat`: prices stay strings. `None` stands for the `NaN` that `parseFloat(undefined)` gives.
- `dotenv`, reading the environment, splitting `DATABASE_IDS` and the API-key checks that only log (app.js:6-23): the database ids are an input sequence.
- `console.log` and `JSON.stringify` output: logging only.
- Reading Symbol, id and Exchange out of raw Notion page JSON (app.js:156): entries arrive as typed `Entry` values. A missing title is `symbol == None`.
- Tickers.ExtractBinancePrices: the payload is typed as a sequence. A non-array Binance payload, which throws in the source, is not representable.
- Tickers.ExtractCoinexPrices: the ticker object is a sequence of (name, ticker) pairs in `Object.entries` order. The model does not require the names to be distinct, as object keys are.
- A `null` payload field is modelled like an absent one (`None`), as optional chaining treats both alike.
- Batching.ChunkCount: the count `ceil(L / size)` is stated for `OPERATION_BATCH_SIZE = 10` only, the one size the source uses.
