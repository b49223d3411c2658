/** What the scanner's pipeline guarantees, proved about the specification
    functions of module Scanner (which its methods are proved to compute). */
module ScannerProofs {
  import opened PyValue
  import opened Scanner

  // ---------------------------------------------------------------------------
  // The response body

  /** Both shapes of the API's answer, a bare list and a dict wrapping it
      under "markets", give the same list of markets. */
  lemma UnwrapBothShapes(ms: seq<Value>, others: seq<(string, Value)>)
    ensures Unwrap(List(ms)) == List(ms)
    ensures Unwrap(Dict([("markets", List(ms))] + others)) == List(ms)
  {
    var entries := [("markets", List(ms))] + others;
    assert entries[0] == ("markets", List(ms));
    assert HasKey(entries, "markets");
  }

  // ---------------------------------------------------------------------------
  // decode_field

  /** A market list whose first element is not a dict fails with the
      AttributeError of its `.get`, before any other market is looked at. */
  lemma FirstMarketNotDictRaises(rt: Runtime, ms: seq<Value>)
    requires |ms| > 0 && !ms[0].Dict?
    ensures Signals(rt, ms) == Raised(AttributeError)
  {
    assert PerMarket(rt, ms)[0] == Raised(AttributeError);
  }

  /** A dict body without "markets" is kept as it is, and `for m in markets`
      then visits its keys: the first key is a str, whose `.get` raises
      AttributeError, so the whole scan fails. */
  lemma DictBodyWithoutMarketsRaises(rt: Runtime, entries: seq<(string, Value)>)
    requires |entries| > 0 && !HasKey(entries, "markets")
    ensures Unwrap(Dict(entries)) == Dict(entries)
    ensures FindSignals(rt, Unwrap(Dict(entries))) == Raised(AttributeError)
  {
    IterateElements(Dict(entries));
    FirstMarketNotDictRaises(rt, Iterate(Dict(entries)).value);
  }

  /** A field given as JSON text decodes to the same value as the field given
      natively, so the normaliser absorbs the two encodings the API uses. */
  lemma DecodeTextOrNative(rt: Runtime, text: string, v: Value)
    requires rt.loads(text) == Some(v) && !v.Text?
    ensures DecodeField(rt, Text(text)) == v
    ensures DecodeField(rt, v) == v
  {
  }

  // ---------------------------------------------------------------------------
  // The price fallback chain

  /** The first field whose decoded value is truthy is the one used. */
  lemma {:induction false} FirstTruthyWins(rt: Runtime, market: seq<(string, Value)>, fields: seq<string>, j: nat)
    requires j < |fields|
    requires forall k :: 0 <= k < j ==> !Truthy(Decoded(rt, market, fields[k]))
    requires Truthy(Decoded(rt, market, fields[j]))
    ensures ResolveFrom(rt, market, fields) == Decoded(rt, market, fields[j])
  {
    if j > 0 {
      assert !Truthy(Decoded(rt, market, fields[0]));
      assert forall k :: 0 <= k < j - 1 ==> fields[1..][k] == fields[k + 1];
      FirstTruthyWins(rt, market, fields[1..], j - 1);
    }
  }

  /** When no field decodes to something truthy, the last field's decoded
      value is used, whatever it is. */
  lemma {:induction false} NoneTruthyGivesLast(rt: Runtime, market: seq<(string, Value)>, fields: seq<string>)
    requires |fields| > 0
    requires forall k :: 0 <= k < |fields| - 1 ==> !Truthy(Decoded(rt, market, fields[k]))
    ensures ResolveFrom(rt, market, fields) == Decoded(rt, market, fields[|fields| - 1])
  {
    if |fields| > 1 {
      assert !Truthy(Decoded(rt, market, fields[0]));
      assert forall k :: 0 <= k < |fields| - 1 ==> fields[1..][k] == fields[k + 1];
      NoneTruthyGivesLast(rt, market, fields[1..]);
    }
  }

  /** Once field j decodes to something truthy, no field after j is read: two
      markets that agree on fields 0..j resolve to the same prices. */
  lemma {:induction false} LaterFieldsUnread(rt: Runtime, m1: seq<(string, Value)>, m2: seq<(string, Value)>,
                                             fields: seq<string>, j: nat)
    requires j < |fields|
    requires forall k :: 0 <= k <= j ==> Get(m1, fields[k], List([])) == Get(m2, fields[k], List([]))
    requires Truthy(Decoded(rt, m1, fields[j]))
    ensures ResolveFrom(rt, m1, fields) == ResolveFrom(rt, m2, fields)
  {
    assert Decoded(rt, m1, fields[0]) == Decoded(rt, m2, fields[0]);
    if !Truthy(Decoded(rt, m1, fields[0])) {
      assert j > 0;
      assert forall k :: 0 <= k <= j - 1 ==> fields[1..][k] == fields[k + 1];
      LaterFieldsUnread(rt, m1, m2, fields[1..], j - 1);
    }
  }

  /** The precedence of the three price fields of extract_prices_and_outcomes. */
  lemma PricePrecedence(rt: Runtime, market: seq<(string, Value)>)
    ensures var p0, p1, p2 := Decoded(rt, market, "outcomePrices"), Decoded(rt, market, "outcome_prices"),
                              Decoded(rt, market, "outcome_prices_latest");
      && (Truthy(p0) ==> ResolvePrices(rt, market) == p0)
      && (!Truthy(p0) && Truthy(p1) ==> ResolvePrices(rt, market) == p1)
      && (!Truthy(p0) && !Truthy(p1) ==> ResolvePrices(rt, market) == p2)
  {
    var p0, p1 := Decoded(rt, market, "outcomePrices"), Decoded(rt, market, "outcome_prices");
    if Truthy(p0) {
      FirstTruthyWins(rt, market, PriceFields, 0);
    } else if Truthy(p1) {
      FirstTruthyWins(rt, market, PriceFields, 1);
    } else {
      NoneTruthyGivesLast(rt, market, PriceFields);
    }
  }

  /** A truthy "outcomePrices" makes the two alternate fields irrelevant. */
  lemma AlternatesUnreadWhenPrimaryPresent(rt: Runtime, m1: seq<(string, Value)>, m2: seq<(string, Value)>)
    requires Get(m1, "outcomePrices", List([])) == Get(m2, "outcomePrices", List([]))
    requires Truthy(Decoded(rt, m1, "outcomePrices"))
    ensures ResolvePrices(rt, m1) == ResolvePrices(rt, m2)
  {
    LaterFieldsUnread(rt, m1, m2, PriceFields, 0);
  }

  // ---------------------------------------------------------------------------
  // Cleaning prices

  /** The cleaned price list has one entry per element of the resolved price
      list, and entry k depends on element k alone: a value float() rejects
      leaves a None at its own index and changes no other entry. */
  lemma CleanPricesAligned(rt: Runtime, market: seq<(string, Value)>)
    requires Extract(rt, market).Ok?
    ensures Iterate(ResolvePrices(rt, market)).Ok?
    ensures var items, prices := Iterate(ResolvePrices(rt, market)).value, Extract(rt, market).value.0;
      && |prices| == |items|
      && (forall k :: 0 <= k < |items| ==> prices[k] == ToFloat(rt, items[k]))
  {
  }

  /** Cleaned entry k depends on price element k alone: two markets whose
      resolved price lists agree at k (whatever they hold elsewhere, and
      whatever their lengths) have the same cleaned entry at k. */
  lemma CleanEntryLocal(rt: Runtime, m1: seq<(string, Value)>, m2: seq<(string, Value)>, k: nat)
    requires Iterate(ResolvePrices(rt, m1)).Ok? && Iterate(ResolvePrices(rt, m2)).Ok?
    requires k < |Iterate(ResolvePrices(rt, m1)).value| && k < |Iterate(ResolvePrices(rt, m2)).value|
    requires Iterate(ResolvePrices(rt, m1)).value[k] == Iterate(ResolvePrices(rt, m2)).value[k]
    ensures Extract(rt, m1).Ok? && Extract(rt, m2).Ok?
    ensures k < |Extract(rt, m1).value.0| && k < |Extract(rt, m2).value.0|
    ensures Extract(rt, m1).value.0[k] == Extract(rt, m2).value.0[k]
  {
    CleanPricesAligned(rt, m1);
    CleanPricesAligned(rt, m2);
  }

  // ---------------------------------------------------------------------------
  // The filter within one market

  /** The indices from i on whose cleaned price yields a signal, ascending. */
  function QualifyingFrom(prices: seq<Option<real>>, i: nat): (q: seq<nat>)
    requires i <= |prices|
    ensures |q| <= |prices| - i
    ensures forall n :: 0 <= n < |q| ==> i <= q[n] < |prices| && Qualifies(prices[q[n]])
    ensures forall n, n' :: 0 <= n < n' < |q| ==> q[n] < q[n']
    ensures forall k :: i <= k < |prices| && Qualifies(prices[k]) ==> k in q
    decreases |prices| - i
  {
    if i == |prices| then []
    else if Qualifies(prices[i]) then [i] + QualifyingFrom(prices, i + 1)
    else QualifyingFrom(prices, i + 1)
  }

  /** The scan of one market's prices from index i on fails exactly when the
      outcome name of some qualifying index cannot be read. */
  lemma {:induction false} KeptFromOkIff(rt: Runtime, market: seq<(string, Value)>, outcomes: Value,
                                         prices: seq<Option<real>>, i: nat)
    requires i <= |prices|
    ensures KeptFrom(rt, market, outcomes, prices, i).Ok? <==>
      forall k :: i <= k < |prices| && Qualifies(prices[k]) ==> OutcomeName(outcomes, k).Ok?
    decreases |prices| - i
  {
    if i < |prices| {
      KeptFromOkIff(rt, market, outcomes, prices, i + 1);
    }
  }

  /** When it fails, it fails with the exception of the first qualifying index
      whose outcome name cannot be read. */
  lemma {:induction false} KeptFromFirstError(rt: Runtime, market: seq<(string, Value)>, outcomes: Value,
                                              prices: seq<Option<real>>, i: nat)
    requires i <= |prices|
    requires KeptFrom(rt, market, outcomes, prices, i).Raised?
    ensures
      exists k ::
        && i <= k < |prices| && Qualifies(prices[k]) && OutcomeName(outcomes, k).Raised?
        && KeptFrom(rt, market, outcomes, prices, i).exc == OutcomeName(outcomes, k).exc
        && (forall k' :: i <= k' < k && Qualifies(prices[k']) ==> OutcomeName(outcomes, k').Ok?)
    decreases |prices| - i
  {
    if Qualifies(prices[i]) && OutcomeName(outcomes, i).Raised? {
      assert KeptFrom(rt, market, outcomes, prices, i).exc == OutcomeName(outcomes, i).exc;
    } else {
      KeptFromFirstError(rt, market, outcomes, prices, i + 1);
    }
  }

  /** When it succeeds, the signals are exactly one per qualifying index, in
      ascending index order, each carrying that index's price and outcome name. */
  lemma {:induction false} KeptFromSignals(rt: Runtime, market: seq<(string, Value)>, outcomes: Value,
                                           prices: seq<Option<real>>, i: nat)
    requires i <= |prices|
    requires KeptFrom(rt, market, outcomes, prices, i).Ok?
    ensures var q, sigs := QualifyingFrom(prices, i), KeptFrom(rt, market, outcomes, prices, i).value;
      && |sigs| == |q|
      && forall n :: 0 <= n < |q| ==>
           OutcomeName(outcomes, q[n]).Ok? &&
           sigs[n] == MakeSignal(rt, market, OutcomeName(outcomes, q[n]).value, prices[q[n]].value)
    decreases |prices| - i
  {
    if i < |prices| {
      if Qualifies(prices[i]) {
        var name := OutcomeName(outcomes, i);
        var sigs1 := KeptFrom(rt, market, outcomes, prices, i + 1);
        assert name.Ok? && sigs1.Ok?;
        assert KeptFrom(rt, market, outcomes, prices, i).value
          == [MakeSignal(rt, market, name.value, prices[i].value)] + sigs1.value;
        assert QualifyingFrom(prices, i) == [i] + QualifyingFrom(prices, i + 1);
        KeptFromSignals(rt, market, outcomes, prices, i + 1);
        SignalsCons(rt, market, outcomes, prices, i, QualifyingFrom(prices, i + 1), sigs1.value);
      } else {
        assert QualifyingFrom(prices, i) == QualifyingFrom(prices, i + 1);
        assert KeptFrom(rt, market, outcomes, prices, i) == KeptFrom(rt, market, outcomes, prices, i + 1);
        KeptFromSignals(rt, market, outcomes, prices, i + 1);
      }
    }
  }

  /** The step of KeptFromSignals for a qualifying index i: putting i in front
      of the later qualifying indices and its signal in front of theirs keeps
      the two lists matched position by position. */
  lemma SignalsCons(rt: Runtime, market: seq<(string, Value)>, outcomes: Value, prices: seq<Option<real>>,
                    i: nat, q1: seq<nat>, sigs1: seq<Signal>)
    requires i < |prices| && Qualifies(prices[i]) && OutcomeName(outcomes, i).Ok?
    requires |sigs1| == |q1|
    requires forall n :: 0 <= n < |q1| ==>
      q1[n] < |prices| && Qualifies(prices[q1[n]]) && OutcomeName(outcomes, q1[n]).Ok? &&
      sigs1[n] == MakeSignal(rt, market, OutcomeName(outcomes, q1[n]).value, prices[q1[n]].value)
    ensures var q, sigs := [i] + q1, [MakeSignal(rt, market, OutcomeName(outcomes, i).value, prices[i].value)] + sigs1;
      && |sigs| == |q|
      && forall n :: 0 <= n < |q| ==>
           q[n] < |prices| && Qualifies(prices[q[n]]) && OutcomeName(outcomes, q[n]).Ok? &&
           sigs[n] == MakeSignal(rt, market, OutcomeName(outcomes, q[n]).value, prices[q[n]].value)
  {
    var q, sigs := [i] + q1, [MakeSignal(rt, market, OutcomeName(outcomes, i).value, prices[i].value)] + sigs1;
    forall n | 0 <= n < |q|
      ensures q[n] < |prices| && Qualifies(prices[q[n]]) && OutcomeName(outcomes, q[n]).Ok?
      ensures sigs[n] == MakeSignal(rt, market, OutcomeName(outcomes, q[n]).value, prices[q[n]].value)
    {
      if n > 0 {
        assert q[n] == q1[n - 1] && sigs[n] == sigs1[n - 1];
      }
    }
  }

  /** Outcome names: outcomes[i] when i is inside the decoded outcome list and
      "Unknown" past its end. */
  lemma OutcomeNameOfList(items: seq<Value>, i: nat)
    ensures OutcomeName(List(items), i) == Ok(if i < |items| then items[i] else UnknownOutcome)
  {
  }

  /** The outcome name at index i for every shape the decoded outcomes can
      take. A str inside its length gives one character and "Unknown" past
      it; a dict raises KeyError inside its key count and gives "Unknown"
      past it; None, a bool or a number raise TypeError from len(). */
  lemma OutcomeNameShapes(outcomes: Value, i: nat)
    ensures outcomes.Null? || outcomes.Bool? || outcomes.Num? ==> OutcomeName(outcomes, i) == Raised(TypeError)
    ensures outcomes.Text? ==>
      OutcomeName(outcomes, i) == if i < |outcomes.s| then Ok(Text([outcomes.s[i]])) else Ok(UnknownOutcome)
    ensures outcomes.Dict? ==>
      OutcomeName(outcomes, i) == if i < |outcomes.entries| then Raised(KeyError) else Ok(UnknownOutcome)
  {
  }

  /** The record of a signal: the market's question (or "Unknown Market" when
      it has none), its end date (None when absent) and its page URL. */
  lemma SignalRecord(rt: Runtime, market: seq<(string, Value)>, outcome: Value, price: real)
    ensures var s := MakeSignal(rt, market, outcome, price);
      && s.outcome == outcome && s.price == price
      && (!HasKey(market, "question") ==> s.market == UnknownMarket)
      && (HasKey(market, "question") ==> ("question", s.market) in market)
      && (!HasKey(market, "endDate") ==> s.endDate == Null)
      && (HasKey(market, "endDate") ==> ("endDate", s.endDate) in market)
      && s.url == MarketUrl(rt, market)
  {
  }

  /** A closed market (closed flag truthy) yields no signal, whatever its prices. */
  lemma ClosedMarketYieldsNothing(rt: Runtime, m: Value)
    requires m.Dict? && Closed(m.entries)
    ensures MarketSignals(rt, m) == Ok([])
  {
  }

  /** Every signal of one market has its price inside [0.90, 0.99], that price
      is a non-null cleaned price of the market, and the market contributes at
      most one signal per price. */
  lemma MarketSignalsBounded(rt: Runtime, m: Value)
    requires MarketSignals(rt, m).Ok?
    ensures var sigs := MarketSignals(rt, m).value;
      && (forall s :: s in sigs ==> InBand(s.price))
      && (m.Dict? && !Closed(m.entries) ==>
            Extract(rt, m.entries).Ok? &&
            |sigs| <= |Extract(rt, m.entries).value.0| &&
            forall s :: s in sigs ==> Some(s.price) in Extract(rt, m.entries).value.0)
  {
    if m.Dict? && !Closed(m.entries) {
      var cleaned := Extract(rt, m.entries).value;
      var prices, outcomes := cleaned.0, cleaned.1;
      KeptFromSignals(rt, m.entries, outcomes, prices, 0);
      var q := QualifyingFrom(prices, 0);
      var sigs := MarketSignals(rt, m).value;
      forall s | s in sigs
        ensures InBand(s.price) && Some(s.price) in prices
      {
        var n :| 0 <= n < |sigs| && sigs[n] == s;
        assert Qualifies(prices[q[n]]);
        assert s.price == prices[q[n]].value;
      }
    }
  }

  // ---------------------------------------------------------------------------
  // The filter over the market list

  lemma ChainAssoc(a: Result<seq<Signal>>, b: Result<seq<Signal>>, c: Result<seq<Signal>>)
    ensures Chain(Chain(a, b), c) == Chain(a, Chain(b, c))
  {
    if a.Ok? && b.Ok? && c.Ok? {
      assert (a.value + b.value) + c.value == a.value + (b.value + c.value);
    }
  }

  lemma ChainNil(r: Result<seq<Signal>>)
    ensures Chain(Ok([]), r) == r && Chain(r, Ok([])) == r
  {
    if r.Ok? {
      assert [] + r.value == r.value;
      assert r.value + [] == r.value;
    }
  }

  lemma {:induction false} ChainFromSuffix(p1: seq<Result<seq<Signal>>>, p2: seq<Result<seq<Signal>>>, k: nat)
    requires k <= |p2|
    ensures ChainFrom(p1 + p2, |p1| + k) == ChainFrom(p2, k)
    decreases |p2| - k
  {
    if k < |p2| {
      assert (p1 + p2)[|p1| + k] == p2[k];
      ChainFromSuffix(p1, p2, k + 1);
    }
  }

  lemma {:induction false} ChainFromConcat(p1: seq<Result<seq<Signal>>>, p2: seq<Result<seq<Signal>>>, j: nat)
    requires j <= |p1|
    ensures ChainFrom(p1 + p2, j) == Chain(ChainFrom(p1, j), ChainFrom(p2, 0))
    decreases |p1| - j
  {
    if j == |p1| {
      ChainFromSuffix(p1, p2, 0);
      ChainNil(ChainFrom(p2, 0));
    } else {
      assert (p1 + p2)[j] == p1[j];
      ChainFromConcat(p1, p2, j + 1);
      ChainAssoc(p1[j], ChainFrom(p1, j + 1), ChainFrom(p2, 0));
    }
  }

  /** Signals come out in the order of the market list: those of a before
      those of b, and the first exception of a stops the scan before b. */
  lemma SignalsConcat(rt: Runtime, a: seq<Value>, b: seq<Value>)
    ensures Signals(rt, a + b) == Chain(Signals(rt, a), Signals(rt, b))
  {
    assert PerMarket(rt, a + b) == PerMarket(rt, a) + PerMarket(rt, b);
    ChainFromConcat(PerMarket(rt, a), PerMarket(rt, b), 0);
  }

  /** Removing a closed market from the list changes nothing in the result. */
  lemma ClosedMarketsDroppable(rt: Runtime, ms: seq<Value>, j: nat)
    requires j < |ms| && ms[j].Dict? && Closed(ms[j].entries)
    ensures Signals(rt, ms[..j] + ms[j + 1..]) == Signals(rt, ms)
  {
    assert ms == ms[..j] + ([ms[j]] + ms[j + 1..]);
    SignalsConcat(rt, ms[..j], [ms[j]] + ms[j + 1..]);
    SignalsConcat(rt, [ms[j]], ms[j + 1..]);
    SignalsConcat(rt, ms[..j], ms[j + 1..]);
    var single := PerMarket(rt, [ms[j]]);
    assert single == [Ok([])];
    assert ChainFrom(single, 1) == Ok([]);
    assert Signals(rt, [ms[j]]) == Chain(Ok([]), Ok([]));
    ChainNil(Ok([]));
    ChainNil(Signals(rt, ms[j + 1..]));
  }

  /** Every signal of a chained result is a signal of one of its parts. */
  lemma {:induction false} ChainFromMembers(parts: seq<Result<seq<Signal>>>, j: nat)
    requires j <= |parts|
    requires ChainFrom(parts, j).Ok?
    ensures forall s :: s in ChainFrom(parts, j).value ==>
      exists k :: j <= k < |parts| && parts[k].Ok? && s in parts[k].value
    decreases |parts| - j
  {
    if j < |parts| {
      ChainFromMembers(parts, j + 1);
    }
  }

  /** Every signal of a market list comes from an open market of the list,
      and has its price inside [0.90, 0.99]. */
  lemma SignalsFromOpenMarkets(rt: Runtime, ms: seq<Value>)
    requires Signals(rt, ms).Ok?
    ensures forall s :: s in Signals(rt, ms).value ==>
      InBand(s.price) &&
      exists k :: 0 <= k < |ms| && ms[k].Dict? && !Closed(ms[k].entries) &&
                  MarketSignals(rt, ms[k]).Ok? && s in MarketSignals(rt, ms[k]).value
  {
    var parts := PerMarket(rt, ms);
    ChainFromMembers(parts, 0);
    forall s | s in Signals(rt, ms).value
      ensures InBand(s.price)
      ensures exists k :: 0 <= k < |ms| && ms[k].Dict? && !Closed(ms[k].entries) &&
                          MarketSignals(rt, ms[k]).Ok? && s in MarketSignals(rt, ms[k]).value
    {
      var k :| 0 <= k < |parts| && parts[k].Ok? && s in parts[k].value;
      assert parts[k] == MarketSignals(rt, ms[k]);
      MarketSignalsBounded(rt, ms[k]);
    }
  }

  /** A chained result succeeds exactly when every part does. */
  lemma {:induction false} ChainFromOkIff(parts: seq<Result<seq<Signal>>>, j: nat)
    requires j <= |parts|
    ensures ChainFrom(parts, j).Ok? <==> forall k :: j <= k < |parts| ==> parts[k].Ok?
    decreases |parts| - j
  {
    if j < |parts| {
      ChainFromOkIff(parts, j + 1);
    }
  }

  /** One market that raises aborts the whole scan: no partial list of
      signals is returned. */
  lemma SignalsOkIff(rt: Runtime, ms: seq<Value>)
    ensures Signals(rt, ms).Ok? <==> forall k :: 0 <= k < |ms| ==> MarketSignals(rt, ms[k]).Ok?
  {
    var parts := PerMarket(rt, ms);
    ChainFromOkIff(parts, 0);
    assert forall k :: 0 <= k < |ms| ==> parts[k] == MarketSignals(rt, ms[k]);
  }

  /** An open market whose three price fields all decode to something falsy,
      the last one to null, makes the price loop iterate None: a TypeError. */
  lemma NullLastPriceFieldRaises(rt: Runtime, market: seq<(string, Value)>)
    requires !Closed(market)
    requires !Truthy(Decoded(rt, market, "outcomePrices")) && !Truthy(Decoded(rt, market, "outcome_prices"))
    requires Decoded(rt, market, "outcome_prices_latest") == Null
    ensures MarketSignals(rt, Dict(market)) == Raised(TypeError)
  {
    PricePrecedence(rt, market);
  }

  /** The band and closed-market guarantees for find_high_confidence_markets. */
  lemma FindSignalsGuarantees(rt: Runtime, markets: Value)
    requires FindSignals(rt, markets).Ok?
    ensures Iterate(markets).Ok?
    ensures forall s :: s in FindSignals(rt, markets).value ==> Low <= s.price <= High
    ensures forall s :: s in FindSignals(rt, markets).value ==>
      exists k :: 0 <= k < |Iterate(markets).value| &&
        var m := Iterate(markets).value[k];
        m.Dict? && !Closed(m.entries) && MarketSignals(rt, m).Ok? && s in MarketSignals(rt, m).value
  {
    SignalsFromOpenMarkets(rt, Iterate(markets).value);
  }

  /** Filtering an empty market list gives no signal. */
  lemma NoMarketsNoSignals(rt: Runtime)
    ensures FindSignals(rt, List([])) == Ok([])
  {
  }

  // ---------------------------------------------------------------------------
  // Worked examples

  /** The band is closed at both ends: 0.90 and 0.99 qualify; 0.899999 and
      0.991 do not. */
  lemma BandBoundaries()
    ensures InBand(0.90) && InBand(0.99)
    ensures !InBand(0.899999) && !InBand(0.991)
  {
  }

  /** The market record of the worked example below: outcomes and prices
      both given as JSON text, nothing else. */
  function ExampleMarket(): seq<(string, Value)>
  {
    [("outcomes", Text("[\"Yes\", \"No\"]")), ("outcomePrices", Text("[\"0.95\", \"0.20\"]"))]
  }

  /** Normalising the example: the prices are cleaned to 0.95 and 0.20 and
      the outcomes decode to ["Yes", "No"]. */
  lemma ExampleExtract(rt: Runtime)
    requires rt.loads("[\"Yes\", \"No\"]") == Some(List([Text("Yes"), Text("No")]))
    requires rt.loads("[\"0.95\", \"0.20\"]") == Some(List([Text("0.95"), Text("0.20")]))
    requires rt.parseFloat("0.95") == Some(0.95) && rt.parseFloat("0.20") == Some(0.20)
    ensures Extract(rt, ExampleMarket()) == Ok(([Some(0.95), Some(0.20)], List([Text("Yes"), Text("No")])))
  {
    var entries := ExampleMarket();
    var items := [Text("0.95"), Text("0.20")];
    assert ResolvePrices(rt, entries) == List(items) by {
      assert Decoded(rt, entries, "outcomePrices") == List(items);
      PricePrecedence(rt, entries);
    }
    assert Decoded(rt, entries, "outcomes") == List([Text("Yes"), Text("No")]);
    assert seq(|items|, k requires 0 <= k < |items| => ToFloat(rt, items[k])) == [Some(0.95), Some(0.20)];
  }

  /** outcomes '["Yes", "No"]' and outcomePrices '["0.95", "0.20"]', both as
      JSON text, give exactly one signal: outcome "Yes" at price 0.95, with
      the default market name since the record has no question. */
  lemma YesNoExample(rt: Runtime)
    requires rt.loads("[\"Yes\", \"No\"]") == Some(List([Text("Yes"), Text("No")]))
    requires rt.loads("[\"0.95\", \"0.20\"]") == Some(List([Text("0.95"), Text("0.20")]))
    requires rt.parseFloat("0.95") == Some(0.95) && rt.parseFloat("0.20") == Some(0.20)
    ensures var r := MarketSignals(rt, Dict(ExampleMarket()));
      && r.Ok? && |r.value| == 1
      && r.value[0].outcome == Text("Yes") && r.value[0].price == 0.95
      && r.value[0].market == UnknownMarket
  {
    var entries := ExampleMarket();
    ExampleExtract(rt);
    assert !Closed(entries) by {
      assert !HasKey(entries, "closed");
    }
    assert !HasKey(entries, "question");
    var cleaned := [Some(0.95), Some(0.20)];
    var outcomes := List([Text("Yes"), Text("No")]);
    var sig := MakeSignal(rt, entries, Text("Yes"), 0.95);
    assert KeptFrom(rt, entries, outcomes, cleaned, 0) == Ok([sig]) by {
      assert KeptFrom(rt, entries, outcomes, cleaned, 1) == Ok([]);
      assert OutcomeName(outcomes, 0) == Ok(Text("Yes"));
      assert [sig] + [] == [sig];
    }
    assert MarketSignals(rt, Dict(entries)) == KeptFrom(rt, entries, outcomes, cleaned, 0);
  }

  /** Outcomes shorter than prices: with native outcomes ["Yes"] and prices
      [0.95, 0.92], both prices qualify; the second has no outcome at its
      index and is reported as "Unknown". */
  lemma ShortOutcomesExample(rt: Runtime)
    ensures var r := MarketSignals(rt, Dict([("outcomes", List([Text("Yes")])),
                                             ("outcomePrices", List([Num(0.95), Num(0.92)]))]));
      && r.Ok? && |r.value| == 2
      && r.value[0].outcome == Text("Yes") && r.value[0].price == 0.95
      && r.value[1].outcome == UnknownOutcome && r.value[1].price == 0.92
  {
    var outcomes := List([Text("Yes")]);
    var entries := [("outcomes", outcomes), ("outcomePrices", List([Num(0.95), Num(0.92)]))];
    assert !Closed(entries) by {
      assert !HasKey(entries, "closed");
    }
    var cleaned := [Some(0.95), Some(0.92)];
    var items := [Num(0.95), Num(0.92)];
    assert Extract(rt, entries) == Ok((cleaned, outcomes)) by {
      assert ResolvePrices(rt, entries) == List(items) by {
        assert Decoded(rt, entries, "outcomePrices") == List(items);
        PricePrecedence(rt, entries);
      }
      assert Decoded(rt, entries, "outcomes") == outcomes;
      assert seq(|items|, k requires 0 <= k < |items| => ToFloat(rt, items[k])) == cleaned;
    }
    var s0 := MakeSignal(rt, entries, Text("Yes"), 0.95);
    var s1 := MakeSignal(rt, entries, UnknownOutcome, 0.92);
    assert KeptFrom(rt, entries, outcomes, cleaned, 0) == Ok([s0, s1]) by {
      assert KeptFrom(rt, entries, outcomes, cleaned, 2) == Ok([]);
      assert OutcomeName(outcomes, 1) == Ok(UnknownOutcome);
      assert KeptFrom(rt, entries, outcomes, cleaned, 1) == Ok([s1]) by {
        assert Qualifies(cleaned[1]);
        assert [s1] + [] == [s1];
      }
      assert OutcomeName(outcomes, 0) == Ok(Text("Yes"));
      assert [s0] + [s1] == [s0, s1];
    }
    assert MarketSignals(rt, Dict(entries)) == Ok([s0, s1]);
  }

  /** The URL of the market with slug "will-x-happen". */
  lemma UrlExample(rt: Runtime)
    ensures MarketUrl(rt, [("slug", Text("will-x-happen"))]) == "https://polymarket.com/market/will-x-happen"
  {
  }
}
