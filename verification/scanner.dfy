/** The market-to-signal pipeline of scanner.py: unwrapping the API body,
    decoding text-or-native fields, the price fallback chain, cleaning prices,
    the confidence-band filter and the CSV row layout.
    Each loop of the Python source is a method proved equal to a
    specification function; ScannerProofs states what those functions mean. */
module Scanner {
  import opened PyValue

  const MarketUrlBase := "https://polymarket.com/market/"
  const UnknownOutcome := Text("Unknown")
  const UnknownMarket := Text("Unknown Market")

  /** The price fields, in the order they are consulted. */
  const PriceFields := ["outcomePrices", "outcome_prices", "outcome_prices_latest"]

  /** The confidence band, closed at both ends. */
  const Low: real := 0.90
  const High: real := 0.99

  /** One high-confidence outcome of one open market. */
  datatype Signal = Signal(market: Value, outcome: Value, price: real, endDate: Value, url: string)

  // ---------------------------------------------------------------------------
  // Fetching: only the shape of the response body is modelled.

  /** The list of markets in a response body: the "markets" entry of a dict
      that has one, and the body itself otherwise. */
  function Unwrap(data: Value): (r: Value)
    ensures data.Dict? && HasKey(data.entries, "markets") ==> ("markets", r) in data.entries
    ensures !(data.Dict? && HasKey(data.entries, "markets")) ==> r == data
  {
    if data.Dict? && HasKey(data.entries, "markets") then Get(data.entries, "markets", Null)
    else data
  }

  // ---------------------------------------------------------------------------
  // Field normalisation.

  /** decode_field: a str is parsed as JSON, and a parse failure becomes the
      empty list; any other value is kept as it is. */
  function DecodeField(rt: Runtime, v: Value): (r: Value)
    ensures !v.Text? ==> r == v
    ensures v.Text? && rt.loads(v.s).None? ==> r == List([])
    ensures v.Text? && rt.loads(v.s).Some? ==> r == rt.loads(v.s).value
  {
    match v
    case Text(s) => (match rt.loads(s) case Some(parsed) => parsed case None => List([]))
    case _ => v
  }

  /** decode_field(market.get(field, [])). */
  function Decoded(rt: Runtime, market: seq<(string, Value)>, field: string): Value
  {
    DecodeField(rt, Get(market, field, List([])))
  }

  /** The ordered fallback over `fields`: the decoded value of the first field
      that decodes to something truthy, or of the last field when none does. */
  function ResolveFrom(rt: Runtime, market: seq<(string, Value)>, fields: seq<string>): Value
    requires |fields| > 0
    decreases |fields|
  {
    var v := Decoded(rt, market, fields[0]);
    if Truthy(v) || |fields| == 1 then v else ResolveFrom(rt, market, fields[1..])
  }

  /** The price list before cleaning. */
  function ResolvePrices(rt: Runtime, market: seq<(string, Value)>): Value
  {
    ResolveFrom(rt, market, PriceFields)
  }

  /** extract_prices_and_outcomes as a value: the cleaned prices, index-aligned
      with the elements of the resolved price list, and the decoded outcomes;
      or the TypeError of iterating a price value that is not iterable. */
  function Extract(rt: Runtime, market: seq<(string, Value)>): (r: Result<(seq<Option<real>>, Value)>)
  {
    match Iterate(ResolvePrices(rt, market))
    case Raised(e) => Raised(e)
    case Ok(items) =>
      Ok((seq(|items|, k requires 0 <= k < |items| => ToFloat(rt, items[k])),
          Decoded(rt, market, "outcomes")))
  }

  /** extract_prices_and_outcomes, step by step as the source does it. */
  method ExtractPricesAndOutcomes(rt: Runtime, market: seq<(string, Value)>)
    returns (r: Result<(seq<Option<real>>, Value)>)
    ensures r == Extract(rt, market)
    ensures r.Raised? <==> Iterate(ResolvePrices(rt, market)).Raised?
    ensures r.Ok? ==> r.value.1 == Decoded(rt, market, "outcomes")
    ensures r.Ok? ==>
      var items := Iterate(ResolvePrices(rt, market)).value;
      |r.value.0| == |items| && forall k :: 0 <= k < |items| ==> r.value.0[k] == ToFloat(rt, items[k])
  {
    var outcomes := DecodeField(rt, Get(market, "outcomes", List([])));
    var prices := DecodeField(rt, Get(market, "outcomePrices", List([])));
    if !Truthy(prices) {
      prices := DecodeField(rt, Get(market, "outcome_prices", List([])));
    }
    if !Truthy(prices) {
      prices := DecodeField(rt, Get(market, "outcome_prices_latest", List([])));
    }
    assert prices == ResolvePrices(rt, market) by {
      assert PriceFields[1..] == ["outcome_prices", "outcome_prices_latest"];
      assert PriceFields[1..][1..] == ["outcome_prices_latest"];
    }
    var it := Iterate(prices);
    if it.Raised? {
      return Raised(it.exc);
    }
    var items := it.value;
    var clean: seq<Option<real>> := [];
    var k := 0;
    while k < |items|
      invariant 0 <= k <= |items|
      invariant |clean| == k
      invariant forall n :: 0 <= n < k ==> clean[n] == ToFloat(rt, items[n])
    {
      clean := clean + [ToFloat(rt, items[k])];
      k := k + 1;
    }
    assert clean == seq(|items|, n requires 0 <= n < |items| => ToFloat(rt, items[n]));
    r := Ok((clean, outcomes));
  }

  // ---------------------------------------------------------------------------
  // The signal filter.

  predicate InBand(p: real)
  {
    Low <= p <= High
  }

  /** A cleaned price that yields a signal: present and inside the band. */
  predicate Qualifies(p: Option<real>)
  {
    p.Some? && InBand(p.value)
  }

  /** m.get("closed", False), read as a condition. */
  predicate Closed(market: seq<(string, Value)>)
  {
    Truthy(Get(market, "closed", Bool(false)))
  }

  /** `outcomes[i] if i < len(outcomes) else "Unknown"`, with what Python
      raises when outcomes has no length or cannot be indexed by position. */
  function OutcomeName(outcomes: Value, i: nat): Result<Value>
  {
    match Len(outcomes)
    case Raised(e) => Raised(e)
    case Ok(n) => if i < n then Index(outcomes, i) else Ok(UnknownOutcome)
  }

  /** The URL of a market's page, built from its slug. */
  function MarketUrl(rt: Runtime, market: seq<(string, Value)>): (url: string)
    ensures |url| >= |MarketUrlBase| && url[..|MarketUrlBase|] == MarketUrlBase
    ensures Get(market, "slug", Null).Text? ==> url == MarketUrlBase + Get(market, "slug", Null).s
    ensures !HasKey(market, "slug") ==> url == MarketUrlBase + "None"
  {
    MarketUrlBase + Str(rt, Get(market, "slug", Null))
  }

  /** The record appended for one kept price. */
  function MakeSignal(rt: Runtime, market: seq<(string, Value)>, outcome: Value, price: real): Signal
  {
    Signal(Get(market, "question", UnknownMarket), outcome, price, Get(market, "endDate", Null), MarketUrl(rt, market))
  }

  /** xs followed by the signals of r, or r's exception. */
  function Prepend(xs: seq<Signal>, r: Result<seq<Signal>>): Result<seq<Signal>>
  {
    match r
    case Ok(ys) => Ok(xs + ys)
    case Raised(e) => Raised(e)
  }

  /** r1 then r2, stopping at the first exception. */
  function Chain(r1: Result<seq<Signal>>, r2: Result<seq<Signal>>): Result<seq<Signal>>
  {
    match r1
    case Ok(xs) => Prepend(xs, r2)
    case Raised(e) => Raised(e)
  }

  /** The signals of one market from price index i on. */
  function KeptFrom(rt: Runtime, market: seq<(string, Value)>, outcomes: Value, prices: seq<Option<real>>, i: nat)
    : Result<seq<Signal>>
    requires i <= |prices|
    decreases |prices| - i
  {
    if i == |prices| then Ok([])
    else if !Qualifies(prices[i]) then KeptFrom(rt, market, outcomes, prices, i + 1)
    else
      match OutcomeName(outcomes, i)
      case Raised(e) => Raised(e)
      case Ok(name) =>
        Prepend([MakeSignal(rt, market, name, prices[i].value)], KeptFrom(rt, market, outcomes, prices, i + 1))
  }

  /** The signals of one element of the market list. */
  function MarketSignals(rt: Runtime, m: Value): Result<seq<Signal>>
  {
    if !m.Dict? then Raised(AttributeError)
    else if Closed(m.entries) then Ok([])
    else
      match Extract(rt, m.entries)
      case Raised(e) => Raised(e)
      case Ok(cleaned) => KeptFrom(rt, m.entries, cleaned.1, cleaned.0, 0)
  }

  /** The results of parts[j..], concatenated up to the first exception. */
  function ChainFrom(parts: seq<Result<seq<Signal>>>, j: nat): Result<seq<Signal>>
    requires j <= |parts|
    decreases |parts| - j
  {
    if j == |parts| then Ok([]) else Chain(parts[j], ChainFrom(parts, j + 1))
  }

  /** The result of each market of a list, in list order. */
  function PerMarket(rt: Runtime, markets: seq<Value>): seq<Result<seq<Signal>>>
  {
    seq(|markets|, k requires 0 <= k < |markets| => MarketSignals(rt, markets[k]))
  }

  /** The signals of a market list, market by market. */
  function Signals(rt: Runtime, markets: seq<Value>): Result<seq<Signal>>
  {
    ChainFrom(PerMarket(rt, markets), 0)
  }

  /** find_high_confidence_markets as a value: what `for m in markets` visits,
      filtered market by market. */
  function FindSignals(rt: Runtime, markets: Value): Result<seq<Signal>>
  {
    match Iterate(markets)
    case Raised(e) => Raised(e)
    case Ok(ms) => Signals(rt, ms)
  }

  lemma PrependNil(r: Result<seq<Signal>>)
    ensures Prepend([], r) == r
  {
    if r.Ok? {
      assert [] + r.value == r.value;
    }
  }

  lemma PrependPrepend(xs: seq<Signal>, ys: seq<Signal>, r: Result<seq<Signal>>)
    ensures Prepend(xs, Prepend(ys, r)) == Prepend(xs + ys, r)
  {
    if r.Ok? {
      assert xs + (ys + r.value) == (xs + ys) + r.value;
    }
  }

  lemma KeptFromAt(rt: Runtime, market: seq<(string, Value)>, outcomes: Value, prices: seq<Option<real>>, i: nat)
    requires i < |prices|
    ensures !Qualifies(prices[i]) ==>
      KeptFrom(rt, market, outcomes, prices, i) == KeptFrom(rt, market, outcomes, prices, i + 1)
    ensures Qualifies(prices[i]) && OutcomeName(outcomes, i).Raised? ==>
      KeptFrom(rt, market, outcomes, prices, i) == Raised(OutcomeName(outcomes, i).exc)
    ensures Qualifies(prices[i]) && OutcomeName(outcomes, i).Ok? ==>
      KeptFrom(rt, market, outcomes, prices, i) ==
        Prepend([MakeSignal(rt, market, OutcomeName(outcomes, i).value, prices[i].value)],
                KeptFrom(rt, market, outcomes, prices, i + 1))
  {
  }

  /** The inner loop of find_high_confidence_markets: walks one open
      market's cleaned prices in index order and appends a signal to
      `results` for each price inside the band. */
  method AppendKept(rt: Runtime, market: seq<(string, Value)>, outcomes: Value, prices: seq<Option<real>>,
                    results: seq<Signal>)
    returns (r: Result<seq<Signal>>)
    ensures r == Prepend(results, KeptFrom(rt, market, outcomes, prices, 0))
  {
    var acc := results;
    var i := 0;
    while i < |prices|
      invariant 0 <= i <= |prices|
      invariant Prepend(results, KeptFrom(rt, market, outcomes, prices, 0))
             == Prepend(acc, KeptFrom(rt, market, outcomes, prices, i))
    {
      var price := prices[i];
      KeptFromAt(rt, market, outcomes, prices, i);
      if price.None? {
        i := i + 1;
        continue;
      }
      if Low <= price.value <= High {
        var name := OutcomeName(outcomes, i);
        if name.Raised? {
          return Raised(name.exc);
        }
        var signal := MakeSignal(rt, market, name.value, price.value);
        PrependPrepend(acc, [signal], KeptFrom(rt, market, outcomes, prices, i + 1));
        acc := acc + [signal];
      }
      i := i + 1;
    }
    assert acc + [] == acc;
    r := Ok(acc);
  }

  /** find_high_confidence_markets: the outer loop over the markets. */
  method FindHighConfidenceMarkets(rt: Runtime, markets: Value) returns (r: Result<seq<Signal>>)
    ensures r == FindSignals(rt, markets)
  {
    var it := Iterate(markets);
    if it.Raised? {
      return Raised(it.exc);
    }
    var ms := it.value;
    var results: seq<Signal> := [];
    var j := 0;
    ghost var parts := PerMarket(rt, ms);
    ghost var total := Signals(rt, ms);
    PrependNil(total);
    while j < |ms|
      invariant 0 <= j <= |ms|
      invariant total == Prepend(results, ChainFrom(parts, j))
    {
      var m := ms[j];
      ghost var rest := ChainFrom(parts, j + 1);
      assert parts[j] == MarketSignals(rt, m);
      if !m.Dict? {
        return Raised(AttributeError);
      }
      if Closed(m.entries) {
        PrependNil(rest);
      } else {
        var extracted := ExtractPricesAndOutcomes(rt, m.entries);
        if extracted.Raised? {
          return Raised(extracted.exc);
        }
        var prices, outcomes := extracted.value.0, extracted.value.1;
        ghost var kept := KeptFrom(rt, m.entries, outcomes, prices, 0);
        assert MarketSignals(rt, m) == kept;
        var appended := AppendKept(rt, m.entries, outcomes, prices, results);
        if appended.Raised? {
          return Raised(appended.exc);
        }
        PrependPrepend(results, kept.value, rest);
        results := appended.value;
      }
      j := j + 1;
    }
    assert results + [] == results;
    r := Ok(results);
  }

  // ---------------------------------------------------------------------------
  // The CSV layout (the file itself is not modelled).

  /** A CSV cell before csv.writer renders it. */
  datatype Cell = Label(text: string) | Field(value: Value) | Number(x: real)

  const Header := [Label("Market"), Label("Outcome"), Label("Price"), Label("End Time"), Label("URL")]

  function RowOf(s: Signal): seq<Cell>
  {
    [Field(s.market), Field(s.outcome), Number(s.price), Field(s.endDate), Label(s.url)]
  }

  /** The rows save_to_csv writes: the header, then one row per signal in order. */
  method CsvRows(signals: seq<Signal>) returns (rows: seq<seq<Cell>>)
    ensures |rows| == |signals| + 1
    ensures rows[0] == Header
    ensures forall k :: 0 <= k < |signals| ==> rows[k + 1] == RowOf(signals[k])
  {
    rows := [Header];
    var k := 0;
    while k < |signals|
      invariant 0 <= k <= |signals|
      invariant |rows| == k + 1 && rows[0] == Header
      invariant forall n :: 0 <= n < k ==> rows[n + 1] == RowOf(signals[n])
    {
      rows := rows + [RowOf(signals[k])];
      k := k + 1;
    }
  }
}
