/** The four ticker extractors (`extractBinancePrices`, `extractBybitPrices`,
    `extractOkxPrices`, `extractCoinexPrices`). Each exchange payload is a
    typed value whose optional JSON paths are `Option` fields; a payload that
    is itself `null` or `undefined` is represented the same way as one that
    lacks the path, since `?.` treats both alike. */
module Tickers {
  import opened Wrappers
  import opened Text

  /** The quote currency every kept instrument id must end with. */
  const Quote: string := "USDT"

  /** Marker removed from OKX ids (`BTC-USDT`). */
  const OkxMarker: string := "-USDT"

  /** Binance: the payload is the array itself, `[{symbol, price}]`. */
  datatype BinanceTicker = BinanceTicker(symbol: string, price: string)

  /** Bybit: `{result: {list: [{symbol, bid1Price}]}}`. */
  datatype BybitTicker = BybitTicker(symbol: string, bid1Price: string)
  datatype BybitResult = BybitResult(list: Option<seq<BybitTicker>>)
  datatype BybitPayload = BybitPayload(result: Option<BybitResult>)

  /** OKX: `{data: [{instId, last}]}`. */
  datatype OkxTicker = OkxTicker(instId: string, last: string)
  datatype OkxPayload = OkxPayload(data: Option<seq<OkxTicker>>)

  /** CoinEx: `{data: {ticker: {"BTCUSDT": {last}, ...}}}`. The ticker object
      is given as its `Object.entries`, in enumeration order; `None` stands
      for a falsy `ticker`. */
  datatype CoinexTicker = CoinexTicker(last: string)
  datatype CoinexData = CoinexData(ticker: Option<seq<(string, CoinexTicker)>>)
  datatype CoinexPayload = CoinexPayload(data: Option<CoinexData>)

  // ----- new Map(pairs) -----

  /** `new Map(pairs)`: every pair is set in order, so a later pair with the
      same key overwrites an earlier one. */
  function MapOf<K, V>(pairs: seq<(K, V)>): (m: map<K, V>)
    ensures m.Keys == set i | 0 <= i < |pairs| :: pairs[i].0
  {
    if pairs == [] then map[]
    else
      var init := pairs[..|pairs| - 1];
      var last := pairs[|pairs| - 1];
      assert forall i :: 0 <= i < |init| ==> init[i] == pairs[i];
      MapOf(init)[last.0 := last.1]
  }

  /** Pair `i` is the last one whose key is `pairs[i].0`. */
  ghost predicate LastWithKey<K, V>(pairs: seq<(K, V)>, i: int) {
    && 0 <= i < |pairs|
    && forall j :: i < j < |pairs| ==> pairs[j].0 != pairs[i].0
  }

  /** Last write wins: the value stored for a key is the one carried by the
      last pair with that key. */
  lemma {:induction false} MapOfLastWins<K, V>(pairs: seq<(K, V)>, i: int)
    requires LastWithKey(pairs, i)
    ensures pairs[i].0 in MapOf(pairs)
    ensures MapOf(pairs)[pairs[i].0] == pairs[i].1
  {
    var init := pairs[..|pairs| - 1];
    if i < |pairs| - 1 {
      assert forall j :: 0 <= j < |init| ==> init[j] == pairs[j];
      assert LastWithKey(init, i);
      MapOfLastWins(init, i);
    }
  }

  // ----- filter / map -----

  /** The instrument is kept by `id.endsWith('USDT')`. */
  predicate Kept(id: string) {
    EndsWith(id, Quote)
  }

  /** `.filter(({id}) => id.endsWith('USDT')).map(({id, p}) => [id.replace(marker, ''), p])` */
  function Quoted(pairs: seq<(string, string)>, marker: string): (r: seq<(string, string)>)
    ensures |r| <= |pairs|
  {
    if pairs == [] then []
    else
      var init := pairs[..|pairs| - 1];
      var last := pairs[|pairs| - 1];
      Quoted(init, marker) + (if Kept(last.0) then [(RemoveFirst(last.0, marker), last.1)] else [])
  }

  /** Every pair `Quoted` produces comes from a kept instrument, with the
      marker removed from its id, and every kept instrument produces its
      pair. */
  lemma {:induction false} QuotedMembers(pairs: seq<(string, string)>, marker: string)
    ensures forall q :: q in Quoted(pairs, marker) ==> exists i :: 0 <= i < |pairs| && Kept(pairs[i].0) && q == (RemoveFirst(pairs[i].0, marker), pairs[i].1)
    ensures forall i :: 0 <= i < |pairs| && Kept(pairs[i].0) ==> (RemoveFirst(pairs[i].0, marker), pairs[i].1) in Quoted(pairs, marker)
  {
    if pairs != [] {
      var init := pairs[..|pairs| - 1];
      QuotedMembers(init, marker);
      assert forall i :: 0 <= i < |init| ==> init[i] == pairs[i];
    }
  }

  /** One instrument gives one pair when it is kept and none otherwise. */
  lemma QuotedOne(p: (string, string), marker: string)
    ensures Quoted([p], marker) == if Kept(p.0) then [(RemoveFirst(p.0, marker), p.1)] else []
  {
    assert [p][..0] == [];
  }

  /** Appending one instrument appends its pair, if it is kept. */
  lemma QuotedSnoc(init: seq<(string, string)>, last: (string, string), marker: string)
    ensures Quoted(init + [last], marker) == Quoted(init, marker) + (if Kept(last.0) then [(RemoveFirst(last.0, marker), last.1)] else [])
  {
    var s := init + [last];
    assert s[..|s| - 1] == init && s[|s| - 1] == last;
  }

  lemma SnocAssoc<T>(ab: seq<T>, ab0: seq<T>, a: seq<T>, b: seq<T>, b0: seq<T>, x: seq<T>)
    requires ab == ab0 + x && b == b0 + x && ab0 == a + b0
    ensures ab == a + b
  {
  }

  /** The filter/map keeps input order: the pairs of `a + b` are the pairs of
      `a` followed by those of `b`. */
  lemma {:induction false} QuotedAppend(a: seq<(string, string)>, b: seq<(string, string)>, marker: string)
    ensures Quoted(a + b, marker) == Quoted(a, marker) + Quoted(b, marker)
    decreases |b|
  {
    if b == [] {
      assert a + b == a;
    } else {
      var b0 := b[..|b| - 1];
      var last := b[|b| - 1];
      var x := if Kept(last.0) then [(RemoveFirst(last.0, marker), last.1)] else [];
      assert Quoted(a + b, marker) == Quoted(a + b0, marker) + x by {
        assert a + b == (a + b0) + [last];
        QuotedSnoc(a + b0, last, marker);
      }
      assert Quoted(b, marker) == Quoted(b0, marker) + x by {
        assert b == b0 + [last];
        QuotedSnoc(b0, last, marker);
      }
      QuotedAppend(a, b0, marker);
      SnocAssoc(Quoted(a + b, marker), Quoted(a + b0, marker), Quoted(a, marker), Quoted(b, marker), Quoted(b0, marker), x);
    }
  }

  /** The key an instrument id contributes after the marker is removed. */
  function KeyOf(id: string, marker: string): string {
    RemoveFirst(id, marker)
  }

  /** Pair `i` is a kept instrument and no later kept instrument reduces to
      the same key. */
  ghost predicate LastWriter(pairs: seq<(string, string)>, marker: string, i: int) {
    && 0 <= i < |pairs|
    && Kept(pairs[i].0)
    && forall j :: i < j < |pairs| && Kept(pairs[j].0) ==> KeyOf(pairs[j].0, marker) != KeyOf(pairs[i].0, marker)
  }

  /** What an extractor promises of its map `m`: every kept instrument
      contributes its key, and every key holds the price of the last kept
      instrument that reduces to it. Together these determine `m`. */
  ghost predicate PricedBy(pairs: seq<(string, string)>, marker: string, m: map<string, string>) {
    && (forall i :: 0 <= i < |pairs| && Kept(pairs[i].0) ==> KeyOf(pairs[i].0, marker) in m)
    && (forall k :: k in m ==> exists i :: LastWriter(pairs, marker, i) && KeyOf(pairs[i].0, marker) == k && m[k] == pairs[i].1)
  }

  lemma LastWriterExtend(init: seq<(string, string)>, last: (string, string), marker: string, i: int)
    requires LastWriter(init, marker, i)
    requires !Kept(last.0) || KeyOf(last.0, marker) != KeyOf(init[i].0, marker)
    ensures LastWriter(init + [last], marker, i)
  {
    var pairs := init + [last];
    forall j | i < j < |pairs| && Kept(pairs[j].0)
      ensures KeyOf(pairs[j].0, marker) != KeyOf(pairs[i].0, marker)
    {
      if j < |init| {
        assert pairs[j] == init[j];
      }
    }
  }

  /** Appending one instrument preserves `PricedBy` when the map is updated
      the way `Map.set` would update it. */
  lemma PricedByExtend(init: seq<(string, string)>, last: (string, string), marker: string, m0: map<string, string>)
    requires PricedBy(init, marker, m0)
    ensures PricedBy(init + [last], marker, if Kept(last.0) then m0[KeyOf(last.0, marker) := last.1] else m0)
  {
    var pairs := init + [last];
    var m := if Kept(last.0) then m0[KeyOf(last.0, marker) := last.1] else m0;
    forall i | 0 <= i < |pairs| && Kept(pairs[i].0)
      ensures KeyOf(pairs[i].0, marker) in m
    {
      if i < |init| {
        assert pairs[i] == init[i];
      }
    }
    forall k | k in m
      ensures exists i :: LastWriter(pairs, marker, i) && KeyOf(pairs[i].0, marker) == k && m[k] == pairs[i].1
    {
      if Kept(last.0) && k == KeyOf(last.0, marker) {
        assert LastWriter(pairs, marker, |pairs| - 1);
      } else {
        var i :| LastWriter(init, marker, i) && KeyOf(init[i].0, marker) == k && m0[k] == init[i].1;
        LastWriterExtend(init, last, marker, i);
        assert pairs[i] == init[i];
      }
    }
  }

  lemma {:induction false} QuotedMapPriced(pairs: seq<(string, string)>, marker: string)
    ensures PricedBy(pairs, marker, MapOf(Quoted(pairs, marker)))
  {
    if pairs != [] {
      var init := pairs[..|pairs| - 1];
      var last := pairs[|pairs| - 1];
      assert pairs == init + [last];
      QuotedMapPriced(init, marker);
      var q0 := Quoted(init, marker);
      PricedByExtend(init, last, marker, MapOf(q0));
      if Kept(last.0) {
        var q := q0 + [(KeyOf(last.0, marker), last.1)];
        assert Quoted(pairs, marker) == q;
        assert q[..|q| - 1] == q0;
      } else {
        assert Quoted(pairs, marker) == q0;
      }
    }
  }

  /** `new Map(pairs.filter(...).map(...))`, the shape shared by all four
      extractors. */
  function Extract(pairs: seq<(string, string)>, marker: string): (m: map<string, string>)
    ensures PricedBy(pairs, marker, m)
  {
    QuotedMapPriced(pairs, marker);
    MapOf(Quoted(pairs, marker))
  }

  /** Every key of an extracted map comes from a kept instrument; an id that
      does not end in `USDT` contributes no key. */
  lemma ExtractKeys(pairs: seq<(string, string)>, marker: string, k: string)
    ensures k in Extract(pairs, marker) <==> exists i :: 0 <= i < |pairs| && Kept(pairs[i].0) && KeyOf(pairs[i].0, marker) == k
  {
    var m := Extract(pairs, marker);
    if k in m {
      var i :| LastWriter(pairs, marker, i) && KeyOf(pairs[i].0, marker) == k && m[k] == pairs[i].1;
    }
  }

  /** The price stored under a kept id's key is that id's price when no later
      kept id reduces to the same key. */
  lemma ExtractLastWriter(pairs: seq<(string, string)>, marker: string, i: int)
    requires LastWriter(pairs, marker, i)
    ensures KeyOf(pairs[i].0, marker) in Extract(pairs, marker)
    ensures Extract(pairs, marker)[KeyOf(pairs[i].0, marker)] == pairs[i].1
  {
    var m := Extract(pairs, marker);
    var k := KeyOf(pairs[i].0, marker);
    var w :| LastWriter(pairs, marker, w) && KeyOf(pairs[w].0, marker) == k && m[k] == pairs[w].1;
    assert w == i;
  }

  /** When two kept ids reduce to the same key, the later one's price wins. */
  lemma ExtractLastWins(pairs: seq<(string, string)>, marker: string, i: int, j: int)
    requires 0 <= i < j < |pairs| && Kept(pairs[i].0) && Kept(pairs[j].0)
    requires KeyOf(pairs[i].0, marker) == KeyOf(pairs[j].0, marker)
    requires forall l :: j < l < |pairs| && Kept(pairs[l].0) ==> KeyOf(pairs[l].0, marker) != KeyOf(pairs[j].0, marker)
    ensures Extract(pairs, marker)[KeyOf(pairs[i].0, marker)] == pairs[j].1
  {
    ExtractLastWriter(pairs, marker, j);
  }

  // ----- the four exchanges -----

  function BinancePairs(e: seq<BinanceTicker>): seq<(string, string)> {
    seq(|e|, i requires 0 <= i < |e| => (e[i].symbol, e[i].price))
  }

  function BybitPairs(list: seq<BybitTicker>): seq<(string, string)> {
    seq(|list|, i requires 0 <= i < |list| => (list[i].symbol, list[i].bid1Price))
  }

  function OkxPairs(data: seq<OkxTicker>): seq<(string, string)> {
    seq(|data|, i requires 0 <= i < |data| => (data[i].instId, data[i].last))
  }

  function CoinexPairs(ticker: seq<(string, CoinexTicker)>): seq<(string, string)> {
    seq(|ticker|, i requires 0 <= i < |ticker| => (ticker[i].0, ticker[i].1.last))
  }

  /** `extractBinancePrices`: `symbol` minus its first `USDT` maps to `price`. */
  function ExtractBinancePrices(e: seq<BinanceTicker>): (m: map<string, string>)
    ensures PricedBy(BinancePairs(e), Quote, m)
  {
    Extract(BinancePairs(e), Quote)
  }

  /** `extractBybitPrices`: an absent `result.list` gives `new Map(undefined)`,
      the empty map. */
  function ExtractBybitPrices(e: BybitPayload): (m: map<string, string>)
    ensures (e.result.None? || e.result.value.list.None?) ==> m == map[]
    ensures e.result.Some? && e.result.value.list.Some? ==> PricedBy(BybitPairs(e.result.value.list.value), Quote, m)
  {
    match e.result
    case None => map[]
    case Some(res) =>
      match res.list
      case None => map[]
      case Some(list) => Extract(BybitPairs(list), Quote)
  }

  /** `extractOkxPrices`: filters on `USDT` but removes `-USDT`; an absent
      `data` gives the empty map. */
  function ExtractOkxPrices(e: OkxPayload): (m: map<string, string>)
    ensures e.data.None? ==> m == map[]
    ensures e.data.Some? ==> PricedBy(OkxPairs(e.data.value), OkxMarker, m)
  {
    match e.data
    case None => map[]
    case Some(data) => Extract(OkxPairs(data), OkxMarker)
  }

  /** `extractCoinexPrices`: a falsy `data.ticker` returns `undefined` (no map
      at all); otherwise the entries of the ticker object are filtered like
      the others, with `last` as the price. */
  function ExtractCoinexPrices(e: CoinexPayload): (r: Option<map<string, string>>)
    ensures r.None? <==> (e.data.None? || e.data.value.ticker.None?)
    ensures r.Some? ==> PricedBy(CoinexPairs(e.data.value.ticker.value), Quote, r.value)
  {
    match e.data
    case None => None
    case Some(d) =>
      match d.ticker
      case None => None
      case Some(ticker) => Some(Extract(CoinexPairs(ticker), Quote))
  }

  /** OKX: an id that ends in `USDT` but has no `-USDT` is kept under its
      full id. */
  lemma OkxUndashedKeepsId(data: seq<OkxTicker>, i: int)
    requires 0 <= i < |data| && Kept(data[i].instId)
    requires IndexOf(data[i].instId, OkxMarker).None?
    ensures data[i].instId in ExtractOkxPrices(OkxPayload(Some(data)))
  {
    assert OkxPairs(data)[i].0 == data[i].instId;
  }

  /** Binance: a symbol whose only `USDT` is its suffix is keyed by the bare
      asset, which with `USDT` appended gives the symbol back. */
  lemma BinanceBareAsset(e: seq<BinanceTicker>, i: int)
    requires 0 <= i < |e|
    requires EndsWith(e[i].symbol, Quote)
    requires forall j :: 0 <= j < |e[i].symbol| - |Quote| ==> !OccursAt(e[i].symbol, Quote, j)
    ensures exists k :: k in ExtractBinancePrices(e) && k + Quote == e[i].symbol
  {
    RemoveFirstStripsSoleSuffix(e[i].symbol, Quote);
    assert BinancePairs(e)[i].0 == e[i].symbol;
    assert KeyOf(e[i].symbol, Quote) in ExtractBinancePrices(e);
  }

  /** `"USDTAUSDT"` ends in `USDT` and loses its leading `USDT` to become
      `"AUSDT"`. */
  lemma LeadingQuoteKey()
    ensures Kept("USDTAUSDT") && KeyOf("USDTAUSDT", Quote) == "AUSDT"
  {
    assert "USDTAUSDT"[|"USDTAUSDT"| - |Quote|..] == Quote;
    assert "" + Quote + "AUSDT" == "USDTAUSDT";
    RemoveFirstSplit("", Quote, "AUSDT");
  }

  /** `"AUSDTUSDT"` ends in `USDT` and loses its inner `USDT` to become
      `"AUSDT"` as well. */
  lemma InnerQuoteKey()
    ensures Kept("AUSDTUSDT") && KeyOf("AUSDTUSDT", Quote) == "AUSDT"
  {
    assert "AUSDTUSDT"[|"AUSDTUSDT"| - |Quote|..] == Quote;
    assert "A" + Quote + "USDT" == "AUSDTUSDT";
    assert !OccursAt("AUSDTUSDT", Quote, 0) by {
      assert "AUSDTUSDT"[0] != Quote[0];
    }
    RemoveFirstSplit("A", Quote, "USDT");
  }

  /** The two ids collide: both are kept under `"AUSDT"`. */
  lemma CollidingIds()
    ensures Kept("USDTAUSDT") && KeyOf("USDTAUSDT", Quote) == "AUSDT"
    ensures Kept("AUSDTUSDT") && KeyOf("AUSDTUSDT", Quote) == "AUSDT"
  {
    LeadingQuoteKey();
    InnerQuoteKey();
  }

  /** A key can still end in `USDT`: removing the first occurrence from
      `"AUSDTUSDT"` leaves `"AUSDT"`. */
  lemma KeyKeepsQuote()
    ensures Kept("AUSDTUSDT") && EndsWith(KeyOf("AUSDTUSDT", Quote), Quote)
  {
    InnerQuoteKey();
    assert "AUSDT"[|"AUSDT"| - |Quote|..] == Quote;
  }

  /** Two pairs with the same key make a one-entry map holding the second
      value. */
  lemma MapOfSameKey<K, V>(q: seq<(K, V)>)
    requires |q| == 2 && q[0].0 == q[1].0
    ensures MapOf(q) == map[q[1].0 := q[1].1]
  {
    assert q[..1][..0] == [];
    assert MapOf(q[..1]) == map[q[0].0 := q[0].1];
  }

  /** Two kept instruments are both reduced, in order. */
  lemma QuotedBothKept(pairs: seq<(string, string)>, marker: string)
    requires |pairs| == 2 && Kept(pairs[0].0) && Kept(pairs[1].0)
    ensures Quoted(pairs, marker) == [(KeyOf(pairs[0].0, marker), pairs[0].1), (KeyOf(pairs[1].0, marker), pairs[1].1)]
  {
    var init := pairs[..1];
    assert init[..0] == [];
    assert Quoted(init, marker) == [(KeyOf(pairs[0].0, marker), pairs[0].1)];
  }

  /** A single kept instrument makes a one-entry map. */
  lemma SingleKept(pairs: seq<(string, string)>, marker: string)
    requires |pairs| == 1 && Kept(pairs[0].0)
    ensures Extract(pairs, marker) == map[KeyOf(pairs[0].0, marker) := pairs[0].1]
  {
    assert pairs[..0] == [];
    var q := Quoted(pairs, marker);
    assert q == [(KeyOf(pairs[0].0, marker), pairs[0].1)];
    assert q[..0] == [];
  }

  /** Two kept ids with the same key leave one entry: that key, with the
      second price. */
  lemma SameKeyPair(pairs: seq<(string, string)>, marker: string)
    requires |pairs| == 2 && Kept(pairs[0].0) && Kept(pairs[1].0)
    requires KeyOf(pairs[0].0, marker) == KeyOf(pairs[1].0, marker)
    ensures Extract(pairs, marker) == map[KeyOf(pairs[1].0, marker) := pairs[1].1]
  {
    QuotedBothKept(pairs, marker);
    MapOfSameKey(Quoted(pairs, marker));
  }

  /** Both colliding ids land on the one key `"AUSDT"`, and the later id's
      price is the one kept. */
  lemma CollidingPairs(pairs: seq<(string, string)>)
    requires |pairs| == 2 && pairs[0].0 == "USDTAUSDT" && pairs[1].0 == "AUSDTUSDT"
    ensures Extract(pairs, Quote) == map["AUSDT" := pairs[1].1]
  {
    CollidingIds();
    SameKeyPair(pairs, Quote);
  }

  /** Two different Binance symbols can reduce to the same key; the later
      one's price is kept and the earlier one's is lost. */
  lemma BinanceCollision(e: seq<BinanceTicker>)
    requires e == [BinanceTicker("USDTAUSDT", "1"), BinanceTicker("AUSDTUSDT", "2")]
    ensures ExtractBinancePrices(e) == map["AUSDT" := "2"]
  {
    var pairs := BinancePairs(e);
    assert pairs[0].0 == "USDTAUSDT" && pairs[1].0 == "AUSDTUSDT" && pairs[1].1 == "2";
    CollidingPairs(pairs);
  }
}
