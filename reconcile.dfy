/** `getPropertiesToUpdate`: joins the database entries against the price
    table, one update instruction per entry, in entry order. */
module Reconcile {
  import opened Wrappers

  /** The four own properties of the `tickers` object built in `main`. */
  datatype Exchange = Binance | Bybit | Okx | Coinex

  /** The `tickers` object: one symbol-to-price map per exchange, in the
      order `main` writes them. */
  datatype PriceTable = PriceTable(
    bybit: map<string, string>,
    coinex: map<string, string>,
    okx: map<string, string>,
    binance: map<string, string>)

  function PricesOf(t: PriceTable, x: Exchange): map<string, string> {
    match x
    case Binance => t.binance
    case Bybit => t.bybit
    case Okx => t.okx
    case Coinex => t.coinex
  }

  /** `value[1] || 'binance'`: an absent or empty selector means Binance. */
  function SelectorName(selector: Option<string>): string {
    if selector.None? || selector.value == "" then "binance" else selector.value
  }

  /** `updates[name]` is one of the four maps only for these four property
      names; any other name yields something without a `get` method. */
  function ExchangeNamed(name: string): Option<Exchange> {
    if name == "binance" then Some(Binance)
    else if name == "bybit" then Some(Bybit)
    else if name == "okx" then Some(Okx)
    else if name == "coinex" then Some(Coinex)
    else None
  }

  /** One database row as the join consumes it: `[symbol, [pageId, exchange]]`.
      `symbol` is `None` when the row has no title text. */
  datatype Entry = Entry(symbol: Option<string>, pageId: string, exchange: Option<string>)

  /** `{pageId, properties: {CurrentPrice: {number}}}`; the number is kept as
      the price string it is parsed from, `None` standing for the `NaN` that
      `parseFloat(undefined)` gives. */
  datatype Instruction = Instruction(pageId: string, price: Option<string>)

  /** The exchange an entry selects, if its selector names one. */
  function ExchangeOf(e: Entry): Option<Exchange> {
    ExchangeNamed(SelectorName(e.exchange))
  }

  /** `Map.get(symbol)` on the selected exchange's map. */
  function PriceFor(t: PriceTable, x: Exchange, symbol: Option<string>): Option<string> {
    var m := PricesOf(t, x);
    if symbol.Some? && symbol.value in m then Some(m[symbol.value]) else None
  }

  /** `entries.map(...)`: stops with the offending selector at the first entry
      whose selector names no exchange (the `TypeError` thrown by `.get`);
      otherwise one instruction per entry, in order. */
  function GetPropertiesToUpdate(t: PriceTable, entries: seq<Entry>): (r: Result<seq<Instruction>, string>)
    ensures r.Success? <==> forall i :: 0 <= i < |entries| ==> ExchangeOf(entries[i]).Some?
    ensures r.Success? ==> |r.value| == |entries|
    ensures r.Success? ==> forall i :: 0 <= i < |entries| ==>
      && r.value[i].pageId == entries[i].pageId
      && r.value[i].price == PriceFor(t, ExchangeOf(entries[i]).value, entries[i].symbol)
    ensures r.Failure? ==>
      exists i :: && 0 <= i < |entries|
                  && ExchangeOf(entries[i]).None?
                  && r.error == SelectorName(entries[i].exchange)
                  && forall j :: 0 <= j < i ==> ExchangeOf(entries[j]).Some?
  {
    if entries == [] then Success([])
    else
      match ExchangeOf(entries[0])
      case None => Failure(SelectorName(entries[0].exchange))
      case Some(x) =>
        var c := Instruction(entries[0].pageId, PriceFor(t, x, entries[0].symbol));
        match GetPropertiesToUpdate(t, entries[1..])
        case Failure(sel) =>
          assert forall j :: 0 < j < |entries| ==> entries[j] == entries[1..][j - 1];
          Failure(sel)
        case Success(rest) => Success([c] + rest)
  }

  /** An entry without a selector, or with an empty one, is priced from the
      Binance map. */
  lemma DefaultsToBinance(t: PriceTable, entries: seq<Entry>, i: int)
    requires 0 <= i < |entries|
    requires entries[i].exchange.None? || entries[i].exchange == Some("")
    requires GetPropertiesToUpdate(t, entries).Success?
    ensures GetPropertiesToUpdate(t, entries).value[i].price ==
      if entries[i].symbol.Some? && entries[i].symbol.value in t.binance then Some(t.binance[entries[i].symbol.value]) else None
  {
  }

  /** A single entry whose selector names an exchange gives one instruction:
      its page id and the price its symbol has on that exchange. */
  lemma SingleEntry(t: PriceTable, e: Entry)
    requires ExchangeOf(e).Some?
    ensures GetPropertiesToUpdate(t, [e]) == Success([Instruction(e.pageId, PriceFor(t, ExchangeOf(e).value, e.symbol))])
  {
    var r := GetPropertiesToUpdate(t, [e]);
    assert r.Success? && |r.value| == 1;
    assert r.value[0] == Instruction(e.pageId, PriceFor(t, ExchangeOf(e).value, e.symbol));
    assert r.value == [r.value[0]];
  }

  /** A selector that is not one of the four exchange names (for instance a
      capitalised `"Binance"`) makes the whole join fail. */
  lemma UnknownSelectorFails(t: PriceTable, entries: seq<Entry>, i: int)
    requires 0 <= i < |entries|
    requires entries[i].exchange == Some("Binance")
    ensures GetPropertiesToUpdate(t, entries).Failure?
  {
    assert "Binance"[0] != "binance"[0];
    assert ExchangeOf(entries[i]).None?;
  }

  /** Every entry of `a + b` selects an exchange when every entry of `a` and
      of `b` does. */
  lemma AppendResolves(a: seq<Entry>, b: seq<Entry>)
    requires forall i :: 0 <= i < |a| ==> ExchangeOf(a[i]).Some?
    requires forall i :: 0 <= i < |b| ==> ExchangeOf(b[i]).Some?
    ensures forall i :: 0 <= i < |a + b| ==> ExchangeOf((a + b)[i]).Some?
  {
    forall i | 0 <= i < |a + b| ensures ExchangeOf((a + b)[i]).Some? {
      if i < |a| { assert (a + b)[i] == a[i]; } else { assert (a + b)[i] == b[i - |a|]; }
    }
  }

  /** The first unknown selector of `a` is the first one of `a + b`. */
  lemma AppendFirstFails(t: PriceTable, a: seq<Entry>, b: seq<Entry>)
    requires GetPropertiesToUpdate(t, a).Failure?
    ensures GetPropertiesToUpdate(t, a + b) == GetPropertiesToUpdate(t, a)
  {
    var e := GetPropertiesToUpdate(t, a).error;
    var i :| && 0 <= i < |a| && ExchangeOf(a[i]).None? && e == SelectorName(a[i].exchange)
             && forall j :: 0 <= j < i ==> ExchangeOf(a[j]).Some?;
    FirstUnknown(t, a + b, i) by {
      assert forall j :: 0 <= j <= i ==> (a + b)[j] == a[j];
    }
  }

  /** When `a` reconciles, the first unknown selector of `b` is the first one
      of `a + b`. */
  lemma AppendSecondFails(t: PriceTable, a: seq<Entry>, b: seq<Entry>)
    requires GetPropertiesToUpdate(t, a).Success? && GetPropertiesToUpdate(t, b).Failure?
    ensures GetPropertiesToUpdate(t, a + b) == GetPropertiesToUpdate(t, b)
  {
    var i :| && 0 <= i < |b| && ExchangeOf(b[i]).None? && GetPropertiesToUpdate(t, b).error == SelectorName(b[i].exchange)
             && forall j :: 0 <= j < i ==> ExchangeOf(b[j]).Some?;
    UnknownAfter(t, a, b, i);
  }

  /** An unknown selector at position `i` of `b`, after a fully resolving
      `a` and `i` resolving entries of `b`, is the one `a + b` fails with. */
  lemma UnknownAfter(t: PriceTable, a: seq<Entry>, b: seq<Entry>, i: int)
    requires forall j :: 0 <= j < |a| ==> ExchangeOf(a[j]).Some?
    requires 0 <= i < |b| && ExchangeOf(b[i]).None?
    requires forall j :: 0 <= j < i ==> ExchangeOf(b[j]).Some?
    ensures GetPropertiesToUpdate(t, a + b) == Failure(SelectorName(b[i].exchange))
  {
    PrefixResolves(a, b, i);
    FirstUnknown(t, a + b, |a| + i) by {
      assert (a + b)[|a| + i] == b[i];
    }
  }

  /** Every entry of `a + b` before position `|a| + i` selects an exchange
      when every entry of `a` and the first `i` of `b` do. */
  lemma PrefixResolves(a: seq<Entry>, b: seq<Entry>, i: int)
    requires 0 <= i <= |b|
    requires forall j :: 0 <= j < |a| ==> ExchangeOf(a[j]).Some?
    requires forall j :: 0 <= j < i ==> ExchangeOf(b[j]).Some?
    ensures forall j :: 0 <= j < |a| + i ==> ExchangeOf((a + b)[j]).Some?
  {
    forall j | 0 <= j < |a| + i ensures ExchangeOf((a + b)[j]).Some? {
      if j < |a| { assert (a + b)[j] == a[j]; } else { assert (a + b)[j] == b[j - |a|]; }
    }
  }

  /** The join fails with the selector of the first entry that names no
      exchange. */
  lemma FirstUnknown(t: PriceTable, entries: seq<Entry>, i: int)
    requires 0 <= i < |entries| && ExchangeOf(entries[i]).None?
    requires forall j :: 0 <= j < i ==> ExchangeOf(entries[j]).Some?
    ensures GetPropertiesToUpdate(t, entries) == Failure(SelectorName(entries[i].exchange))
  {
    var r := GetPropertiesToUpdate(t, entries);
    var k :| && 0 <= k < |entries| && ExchangeOf(entries[k]).None? && r.error == SelectorName(entries[k].exchange)
             && forall j :: 0 <= j < k ==> ExchangeOf(entries[j]).Some?;
    assert k == i;
  }

  /** When both lists reconcile, so does their concatenation, to the
      concatenated instructions. */
  lemma AppendBothSucceed(t: PriceTable, a: seq<Entry>, b: seq<Entry>)
    requires GetPropertiesToUpdate(t, a).Success? && GetPropertiesToUpdate(t, b).Success?
    ensures GetPropertiesToUpdate(t, a + b) == Success(GetPropertiesToUpdate(t, a).value + GetPropertiesToUpdate(t, b).value)
  {
    AppendResolves(a, b);
    var ab := a + b;
    var ra, rb := GetPropertiesToUpdate(t, a).value, GetPropertiesToUpdate(t, b).value;
    var r := GetPropertiesToUpdate(t, ab).value;
    forall i | 0 <= i < |ab| ensures r[i] == (ra + rb)[i] {
      if i < |a| { assert ab[i] == a[i]; } else { assert ab[i] == b[i - |a|]; }
    }
    assert r == ra + rb;
  }

  /** The join distributes over concatenation: reconciling the entries of
      two pages together is reconciling each page and concatenating; when
      one fails, the error is `a`'s if `a` fails, otherwise `b`'s, since the
      map throws at the first unknown selector. */
  lemma GetPropertiesToUpdateAppend(t: PriceTable, a: seq<Entry>, b: seq<Entry>)
    ensures GetPropertiesToUpdate(t, a).Failure? ==> GetPropertiesToUpdate(t, a + b) == GetPropertiesToUpdate(t, a)
    ensures GetPropertiesToUpdate(t, a).Success? && GetPropertiesToUpdate(t, b).Failure? ==>
      GetPropertiesToUpdate(t, a + b) == GetPropertiesToUpdate(t, b)
    ensures GetPropertiesToUpdate(t, a).Success? && GetPropertiesToUpdate(t, b).Success? ==>
      GetPropertiesToUpdate(t, a + b) == Success(GetPropertiesToUpdate(t, a).value + GetPropertiesToUpdate(t, b).value)
  {
    if GetPropertiesToUpdate(t, a).Failure? {
      AppendFirstFails(t, a, b);
    } else if GetPropertiesToUpdate(t, b).Failure? {
      AppendSecondFails(t, a, b);
    } else {
      AppendBothSucceed(t, a, b);
    }
  }
}
