/** `main`: fetch and extract the four ticker sets, abort on the first one that
    is missing or empty, assemble the `tickers` table, then for each database
    id collect its entries, reconcile them and send the updates in batches.
    Every abort of the source (`process.exit(1)`, or an error thrown out of
    the async `main`) is a `Failure` here. */
module Pipeline {
  import opened Wrappers
  import opened Text
  import opened Tickers
  import opened Reconcile
  import opened Batching
  import opened Pagination

  /** Why a ticker step aborts the run: the request failed (`getTickers`), the
      extracted map is empty (`!tickers.size`), or CoinEx returned no map at
      all (reading `.size` of `undefined` throws). */
  datatype TickerFault = FetchFailed | NoData | NoTickers

  datatype RunError =
    | TickerFailure(exchange: Exchange, fault: TickerFault)
    | QueryFailed(databaseId: string)
    | UnknownExchange(selector: string)
    | WriteFailed(databaseId: string)

  /** The four ticker responses; `None` is a request that failed. */
  datatype Responses = Responses(
    binance: Option<seq<BinanceTicker>>,
    bybit: Option<BybitPayload>,
    okx: Option<OkxPayload>,
    coinex: Option<CoinexPayload>)

  /** The order in which `main` fetches and checks the exchanges. */
  function Step(x: Exchange): nat {
    match x
    case Binance => 0
    case Bybit => 1
    case Okx => 2
    case Coinex => 3
  }

  /** One exchange's ticker step: the request failed, or the extractor
      returned `prices` (`None` when it returned no map at all). */
  datatype TickerStep = RequestFailed | Extracted(prices: Option<map<string, string>>)

  datatype TickerSteps = TickerSteps(binance: TickerStep, bybit: TickerStep, okx: TickerStep, coinex: TickerStep)

  function StepOf(steps: TickerSteps, x: Exchange): TickerStep {
    match x
    case Binance => steps.binance
    case Bybit => steps.bybit
    case Okx => steps.okx
    case Coinex => steps.coinex
  }

  /** Runs each extractor on its response. */
  function ExtractAll(resp: Responses): TickerSteps {
    TickerSteps(
      if resp.binance.None? then RequestFailed else Extracted(Some(ExtractBinancePrices(resp.binance.value))),
      if resp.bybit.None? then RequestFailed else Extracted(Some(ExtractBybitPrices(resp.bybit.value))),
      if resp.okx.None? then RequestFailed else Extracted(Some(ExtractOkxPrices(resp.okx.value))),
      if resp.coinex.None? then RequestFailed else Extracted(ExtractCoinexPrices(resp.coinex.value)))
  }

  /** The guard after one extraction: `if (!tickers.size) process.exit(1)`. */
  function Guard(step: TickerStep): Result<map<string, string>, TickerFault> {
    match step
    case RequestFailed => Failure(FetchFailed)
    case Extracted(None) => Failure(NoTickers)
    case Extracted(Some(m)) => if |m| == 0 then Failure(NoData) else Success(m)
  }

  /** The guarded steps of `main` up to the `tickers` object: the table is
      built exactly when all four exchanges give a non-empty map, and it holds
      those maps; otherwise the error names the first exchange, in fetch
      order, whose step failed, and why. */
  function BuildPriceTable(steps: TickerSteps): (r: Result<PriceTable, RunError>)
    ensures r.Success? <==> forall x :: Guard(StepOf(steps, x)).Success?
    ensures r.Success? ==> forall x ::
      && StepOf(steps, x) == Extracted(Some(PricesOf(r.value, x)))
      && |PricesOf(r.value, x)| > 0
    ensures r.Failure? ==>
      && r.error.TickerFailure?
      && Guard(StepOf(steps, r.error.exchange)) == Failure(r.error.fault)
      && forall y :: Step(y) < Step(r.error.exchange) ==> Guard(StepOf(steps, y)).Success?
  {
    var binance := Guard(steps.binance);
    assert StepOf(steps, Binance) == steps.binance && StepOf(steps, Bybit) == steps.bybit;
    assert StepOf(steps, Okx) == steps.okx && StepOf(steps, Coinex) == steps.coinex;
    if binance.Failure? then Failure(TickerFailure(Binance, binance.error))
    else
      var bybit := Guard(steps.bybit);
      if bybit.Failure? then Failure(TickerFailure(Bybit, bybit.error))
      else
        var okx := Guard(steps.okx);
        if okx.Failure? then Failure(TickerFailure(Okx, okx.error))
        else
          var coinex := Guard(steps.coinex);
          if coinex.Failure? then Failure(TickerFailure(Coinex, coinex.error))
          else Success(PriceTable(bybit.value, coinex.value, okx.value, binance.value))
  }

  /** The pages a database answers with; an unknown id answers nothing, so its
      first query fails. */
  function SourceOf(databases: map<string, seq<Page<Entry>>>, id: string): seq<Page<Entry>> {
    if id in databases then databases[id] else []
  }

  /** The instructions reconciled from one database, when its entries can
      be collected and reconciled. */
  function DatabaseInstructions(t: PriceTable, id: string, databases: map<string, seq<Page<Entry>>>): Result<seq<Instruction>, RunError> {
    match CollectFrom(SourceOf(databases, id), 0)
    case None => Failure(QueryFailed(id))
    case Some(entries) =>
      match GetPropertiesToUpdate(t, entries)
      case Failure(selector) => Failure(UnknownExchange(selector))
      case Success(updates) => Success(updates)
  }

  /** What (part of) the run did: the batches it sent, in order, and how it
      ended. */
  datatype Outcome = Outcome(sent: seq<seq<Instruction>>, result: Result<(), RunError>)

  /** One turn of the database loop as a value. */
  function DatabaseStep(t: PriceTable, id: string, databases: map<string, seq<Page<Entry>>>, rejected: set<string>): Outcome {
    match DatabaseInstructions(t, id, databases)
    case Failure(e) => Outcome([], Failure(e))
    case Success(updates) =>
      Outcome(Issued(Chunk(updates, OperationBatchSize), rejected),
              if Accepted(updates, rejected) then Success(()) else Failure(WriteFailed(id)))
  }

  /** Turns taken one after another: the first failing turn ends the run. */
  function Combine(steps: seq<Outcome>): Outcome {
    if steps == [] then Outcome([], Success(()))
    else if steps[0].result.Failure? then steps[0]
    else
      var rest := Combine(steps[1..]);
      Outcome(steps[0].sent + rest.sent, rest.result)
  }

  /** The turn each database id would take. */
  function Steps(t: PriceTable, ids: seq<string>, databases: map<string, seq<Page<Entry>>>, rejected: set<string>): (r: seq<Outcome>)
    ensures |r| == |ids|
    decreases |ids|
  {
    if ids == [] then [] else [DatabaseStep(t, ids[0], databases, rejected)] + Steps(t, ids[1..], databases, rejected)
  }

  lemma {:induction false} StepsAt(t: PriceTable, ids: seq<string>, databases: map<string, seq<Page<Entry>>>, rejected: set<string>, i: int)
    requires 0 <= i < |ids|
    ensures Steps(t, ids, databases, rejected)[i] == DatabaseStep(t, ids[i], databases, rejected)
    decreases |ids|
  {
    if i > 0 {
      StepsAt(t, ids[1..], databases, rejected, i - 1);
    } else if |ids| > 1 {
      StepsAt(t, ids[1..], databases, rejected, 0);
    }
  }

  /** The `for (const databaseId of DATABASE_IDS)` loop as a value. */
  function RunDatabases(t: PriceTable, ids: seq<string>, databases: map<string, seq<Page<Entry>>>, rejected: set<string>): Outcome {
    Combine(Steps(t, ids, databases, rejected))
  }

  /** The batches one database sends hold between 1 and 10 writes each, and
      when its turn succeeds they are exactly its instructions. */
  lemma DatabaseStepSends(t: PriceTable, id: string, databases: map<string, seq<Page<Entry>>>, rejected: set<string>)
    ensures forall b :: b in DatabaseStep(t, id, databases, rejected).sent ==> 0 < |b| <= OperationBatchSize
    ensures DatabaseStep(t, id, databases, rejected).result.Success? ==>
      && DatabaseInstructions(t, id, databases).Success?
      && Flatten(DatabaseStep(t, id, databases, rejected).sent) == DatabaseInstructions(t, id, databases).value
  {
    var ins := DatabaseInstructions(t, id, databases);
    if ins.Success? {
      var chunks := Chunk(ins.value, OperationBatchSize);
      var sent := Issued(chunks, rejected);
      assert forall b :: b in sent ==> b in chunks;
      if Accepted(ins.value, rejected) {
        AcceptedFlatten(chunks, rejected);
        assert sent == chunks;
      }
    }
  }

  lemma {:induction false} CombineBounded(steps: seq<Outcome>)
    requires forall i, b :: 0 <= i < |steps| && b in steps[i].sent ==> 0 < |b| <= OperationBatchSize
    ensures forall b :: b in Combine(steps).sent ==> 0 < |b| <= OperationBatchSize
  {
    if steps != [] && steps[0].result.Success? {
      assert forall i :: 1 <= i < |steps| ==> steps[1..][i - 1] == steps[i];
      CombineBounded(steps[1..]);
    }
  }

  /** Bounded concurrency: every batch the run sends holds between 1 and 10
      writes. */
  lemma BatchesBounded(t: PriceTable, ids: seq<string>, databases: map<string, seq<Page<Entry>>>, rejected: set<string>)
    ensures forall b :: b in RunDatabases(t, ids, databases, rejected).sent ==> 0 < |b| <= OperationBatchSize
  {
    var steps := Steps(t, ids, databases, rejected);
    forall i | 0 <= i < |steps| ensures forall b :: b in steps[i].sent ==> 0 < |b| <= OperationBatchSize {
      StepsAt(t, ids, databases, rejected, i);
      DatabaseStepSends(t, ids[i], databases, rejected);
    }
    CombineBounded(steps);
  }

  /** The instructions of each database in turn (a database whose entries
      cannot be collected or reconciled contributes none). */
  function AllInstructions(t: PriceTable, ids: seq<string>, databases: map<string, seq<Page<Entry>>>): seq<Instruction>
    decreases |ids|
  {
    if ids == [] then []
    else
      var ins := DatabaseInstructions(t, ids[0], databases);
      (if ins.Success? then ins.value else []) + AllInstructions(t, ids[1..], databases)
  }

  lemma {:induction false} FlattenAppend<T>(a: seq<seq<T>>, b: seq<seq<T>>)
    ensures Flatten(a + b) == Flatten(a) + Flatten(b)
  {
    if a != [] {
      assert (a + b)[1..] == a[1..] + b;
      FlattenAppend(a[1..], b);
    } else {
      assert a + b == b;
    }
  }

  /** `Combine` of a first turn followed by others. */
  lemma CombineCons(first: Outcome, rest: seq<Outcome>)
    ensures Combine([first] + rest) ==
      if first.result.Failure? then first else Outcome(first.sent + Combine(rest).sent, Combine(rest).result)
  {
    assert ([first] + rest)[1..] == rest;
  }

  /** When the run completes, every database was read and reconciled, and the
      writes, read in order, are the instructions of each database in turn. */
  lemma {:induction false} CompletedRunSendsAll(t: PriceTable, ids: seq<string>, databases: map<string, seq<Page<Entry>>>, rejected: set<string>)
    requires RunDatabases(t, ids, databases, rejected).result.Success?
    ensures forall i :: 0 <= i < |ids| ==> DatabaseInstructions(t, ids[i], databases).Success?
    ensures Flatten(RunDatabases(t, ids, databases, rejected).sent) == AllInstructions(t, ids, databases)
    decreases |ids|
  {
    if ids != [] {
      var rest := ids[1..];
      var first := DatabaseStep(t, ids[0], databases, rejected);
      var others := RunDatabases(t, rest, databases, rejected);
      CombineCons(first, Steps(t, rest, databases, rejected));
      assert first.result.Success? && RunDatabases(t, ids, databases, rejected).sent == first.sent + others.sent;
      DatabaseStepSends(t, ids[0], databases, rejected);
      CompletedRunSendsAll(t, rest, databases, rejected);
      forall i | 0 <= i < |ids| ensures DatabaseInstructions(t, ids[i], databases).Success? {
        if i > 0 { assert ids[i] == rest[i - 1]; }
      }
      FlattenAppend(first.sent, others.sent);
    }
  }

  /** The body of the database loop: collect the entries, reconcile them and
      send the updates in batches. */
  method SyncDatabase(t: PriceTable, id: string, databases: map<string, seq<Page<Entry>>>, store: PageStore)
    returns (r: Result<(), RunError>)
    modifies store
    ensures store.batches == old(store.batches) + DatabaseStep(t, id, databases, store.rejected).sent
    ensures r == DatabaseStep(t, id, databases, store.rejected).result
  {
    var entries, _ := GetEntriesFromNotionDatabase(SourceOf(databases, id));
    if entries.None? {
      return Failure(QueryFailed(id));
    }
    var updates := GetPropertiesToUpdate(t, entries.value);
    if updates.Failure? {
      return Failure(UnknownExchange(updates.error));
    }
    var ok := store.UpdatePages(updates.value);
    r := if ok then Success(()) else Failure(WriteFailed(id));
  }

  /** The body of the database loop for the `i`-th id. */
  method SyncAt(t: PriceTable, ids: seq<string>, i: int, databases: map<string, seq<Page<Entry>>>, store: PageStore, ghost steps: seq<Outcome>)
    returns (r: Result<(), RunError>)
    requires 0 <= i < |ids| && steps == Steps(t, ids, databases, store.rejected)
    modifies store
    ensures store.batches == old(store.batches) + steps[i].sent && r == steps[i].result
  {
    StepsAt(t, ids, databases, store.rejected, i);
    r := SyncDatabase(t, ids[i], databases, store);
  }

  /** `Combine` unfolded at position `i`. */
  lemma CombineFrom(steps: seq<Outcome>, i: int)
    requires 0 <= i < |steps|
    ensures Combine(steps[i..]) ==
      if steps[i].result.Failure? then steps[i]
      else Outcome(steps[i].sent + Combine(steps[i + 1..]).sent, Combine(steps[i + 1..]).result)
  {
    assert steps[i..][0] == steps[i] && steps[i..][1..] == steps[i + 1..];
  }

  /** `for (const databaseId of DATABASE_IDS) { ... }`: the databases are
      processed one after another, and the first failure ends the loop. */
  method SyncDatabases(t: PriceTable, databaseIds: seq<string>, databases: map<string, seq<Page<Entry>>>, store: PageStore)
    returns (r: Result<(), RunError>)
    modifies store
    ensures store.batches == old(store.batches) + RunDatabases(t, databaseIds, databases, store.rejected).sent
    ensures r == RunDatabases(t, databaseIds, databases, store.rejected).result
  {
    ghost var steps := Steps(t, databaseIds, databases, store.rejected);
    ghost var all := Combine(steps);
    assert steps[0..] == steps;
    var i := 0;
    while i < |databaseIds|
      invariant 0 <= i <= |databaseIds|
      invariant old(store.batches) + all.sent == store.batches + Combine(steps[i..]).sent
      invariant all.result == Combine(steps[i..]).result
    {
      ghost var before := store.batches;
      CombineFrom(steps, i);
      r := SyncAt(t, databaseIds, i, databases, store, steps);
      if r.Failure? {
        return;
      }
      assert before + (steps[i].sent + Combine(steps[i + 1..]).sent) == store.batches + Combine(steps[i + 1..]).sent;
      i := i + 1;
    }
    assert steps[i..] == [];
    r := Success(());
  }

  /** `main` after configuration: nothing is written unless the price table
      is built; otherwise the store receives exactly the batches of
      `RunDatabases` and the run ends as it says. */
  method Run(resp: Responses, databaseIds: seq<string>, databases: map<string, seq<Page<Entry>>>, store: PageStore)
    returns (r: Result<(), RunError>)
    modifies store
    ensures BuildPriceTable(ExtractAll(resp)).Failure? ==> r == Failure(BuildPriceTable(ExtractAll(resp)).error) && store.batches == old(store.batches)
    ensures BuildPriceTable(ExtractAll(resp)).Success? ==>
      && store.batches == old(store.batches) + RunDatabases(BuildPriceTable(ExtractAll(resp)).value, databaseIds, databases, store.rejected).sent
      && r == RunDatabases(BuildPriceTable(ExtractAll(resp)).value, databaseIds, databases, store.rejected).result
  {
    var table := BuildPriceTable(ExtractAll(resp));
    if table.Failure? {
      return Failure(table.error);
    }
    r := SyncDatabases(table.value, databaseIds, databases, store);
  }

  // ----- end-to-end scenarios -----

  /** `BTCUSDT` ends in `USDT` and is keyed `BTC`. */
  lemma BtcKey()
    ensures Kept("BTCUSDT") && KeyOf("BTCUSDT", Quote) == "BTC"
  {
    assert "BTC" + Quote + "" == "BTCUSDT";
    forall j | 0 <= j < 3 ensures !OccursAt("BTCUSDT", Quote, j) {
      assert "BTCUSDT"[j] != Quote[0];
    }
    RemoveFirstSplit("BTC", Quote, "");
  }

  /** `BTCUSDT` at `"50000"` is keyed `BTC` in the Binance map. */
  lemma BinanceScenarioPrices()
    ensures ExtractBinancePrices([BinanceTicker("BTCUSDT", "50000")]) == map["BTC" := "50000"]
  {
    var pairs := BinancePairs([BinanceTicker("BTCUSDT", "50000")]);
    assert pairs == [("BTCUSDT", "50000")];
    BtcKey();
    SingleKept(pairs, Quote);
  }

  /** An entry whose symbol has price `price` on the exchange it selects
      gives the one instruction `(pageId, price)`. */
  lemma JoinOne(t: PriceTable, e: Entry, x: Exchange, price: string)
    requires ExchangeOf(e) == Some(x)
    requires e.symbol.Some? && e.symbol.value in PricesOf(t, x) && PricesOf(t, x)[e.symbol.value] == price
    ensures GetPropertiesToUpdate(t, [e]) == Success([Instruction(e.pageId, Some(price))])
  {
    SingleEntry(t, e);
  }

  /** A Binance ticker `BTCUSDT` at `"50000"` and an entry for `BTC` with no
      exchange selector give the instruction `("r1", "50000")`. */
  lemma BinanceScenario(t: PriceTable)
    requires t.binance == ExtractBinancePrices([BinanceTicker("BTCUSDT", "50000")])
    ensures GetPropertiesToUpdate(t, [Entry(Some("BTC"), "r1", None)]) == Success([Instruction("r1", Some("50000"))])
  {
    BinanceScenarioPrices();
    JoinOne(t, Entry(Some("BTC"), "r1", None), Binance, "50000");
  }

  /** `ETHUSDT` ends in `USDT` and is keyed `ETH`. */
  lemma EthKey()
    ensures Kept("ETHUSDT") && KeyOf("ETHUSDT", Quote) == "ETH"
  {
    assert "ETH" + Quote + "" == "ETHUSDT";
    forall j | 0 <= j < 3 ensures !OccursAt("ETHUSDT", Quote, j) {
      assert "ETHUSDT"[j] != Quote[0];
    }
    RemoveFirstSplit("ETH", Quote, "");
  }

  /** `ETHUSDT` with `last` `"3000"` is keyed `ETH` in the CoinEx map. */
  lemma CoinexScenarioPrices(p: CoinexPayload)
    requires p == CoinexPayload(Some(CoinexData(Some([("ETHUSDT", CoinexTicker("3000"))]))))
    ensures ExtractCoinexPrices(p) == Some(map["ETH" := "3000"])
  {
    var pairs := CoinexPairs([("ETHUSDT", CoinexTicker("3000"))]);
    assert pairs == [("ETHUSDT", "3000")];
    EthKey();
    SingleKept(pairs, Quote);
  }

  /** `"coinex"` selects CoinEx. */
  lemma CoinexSelector()
    ensures ExchangeNamed("coinex") == Some(Coinex)
  {
    assert "coinex"[0] != "binance"[0] && "coinex"[0] != "bybit"[0] && "coinex"[0] != "okx"[0];
  }

  /** The join half of the CoinEx scenario. */
  lemma CoinexJoin(t: PriceTable)
    requires t.coinex == map["ETH" := "3000"]
    ensures GetPropertiesToUpdate(t, [Entry(Some("ETH"), "r2", Some("coinex"))]) == Success([Instruction("r2", Some("3000"))])
  {
    CoinexSelector();
    JoinOne(t, Entry(Some("ETH"), "r2", Some("coinex")), Coinex, "3000");
  }

  /** A CoinEx ticker `ETHUSDT` with `last` `"3000"` and an entry for `ETH`
      selecting `coinex` give the instruction `("r2", "3000")`. */
  lemma CoinexScenario(t: PriceTable, p: CoinexPayload)
    requires p == CoinexPayload(Some(CoinexData(Some([("ETHUSDT", CoinexTicker("3000"))]))))
    requires ExtractCoinexPrices(p) == Some(t.coinex)
    ensures GetPropertiesToUpdate(t, [Entry(Some("ETH"), "r2", Some("coinex"))]) == Success([Instruction("r2", Some("3000"))])
  {
    CoinexScenarioPrices(p);
    CoinexJoin(t);
  }

  /** An empty Binance payload aborts the run before any other exchange is
      consulted, and so before any write. */
  lemma EmptyBinanceAborts(resp: Responses)
    requires resp.binance == Some([])
    ensures BuildPriceTable(ExtractAll(resp)) == Failure(TickerFailure(Binance, NoData))
  {
    assert BinancePairs([]) == [];
    assert Quoted([], Quote) == [];
    assert ExtractBinancePrices([]) == map[];
  }

  /** When the first three exchanges pass their guards and CoinEx returned
      no map, the run aborts on CoinEx. */
  lemma CoinexLastFault(steps: TickerSteps)
    requires Guard(steps.binance).Success? && Guard(steps.bybit).Success? && Guard(steps.okx).Success?
    requires steps.coinex == Extracted(None)
    ensures BuildPriceTable(steps) == Failure(TickerFailure(Coinex, NoTickers))
  {
  }

  /** A CoinEx payload without `data.ticker` aborts the run even when the
      other three exchanges answered. */
  lemma MissingCoinexTickersAbort(resp: Responses)
    requires forall x :: x != Coinex ==> Guard(StepOf(ExtractAll(resp), x)).Success?
    requires resp.coinex == Some(CoinexPayload(Some(CoinexData(None))))
    ensures BuildPriceTable(ExtractAll(resp)) == Failure(TickerFailure(Coinex, NoTickers))
  {
    var steps := ExtractAll(resp);
    assert Guard(StepOf(steps, Binance)).Success? && Guard(StepOf(steps, Bybit)).Success? && Guard(StepOf(steps, Okx)).Success?;
    CoinexLastFault(steps);
  }
}
