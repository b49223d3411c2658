# High-confidence Polymarket scanner — Dafny model

`scanner.py` fetches markets that close within the next day. It keeps every
outcome priced between 0.90 and 0.99 in a market that is not closed, and
writes those signals to the console and to a CSV file. This project models
that script's pipeline from market records to signals:

- the unwrapping of the API body, which is a bare list or `{"markets": [...]}`;
- `decode_field`, which parses text as JSON (a parse failure becomes `[]`) and
  keeps any other value as it is;
- `extract_prices_and_outcomes`:
  - the ordered fallback over the price fields `outcomePrices`,
    `outcome_prices` and `outcome_prices_latest`;
  - the cleaning loop, which turns each price into a float, or into `None`
    when `float()` raises;
- `find_high_confidence_markets`:
  - it skips closed markets;
  - it filters the band [0.90, 0.99], closed at both ends;
  - it looks up the outcome name at the price's index, with "Unknown" past
    the end of the outcome list;
  - it builds each signal from the question, the end date and the page URL;
- the row layout `save_to_csv` hands to `csv.writer`.

The model has three modules:

- `PyValue` models the values `json.loads` produces and the Python
  built-ins the scanner applies to them:
  - truthiness and iteration (a str yields its characters, a dict its keys);
  - `len`, positional indexing and `dict.get`;
  - `float()` behind a bare `except:`, and `str()` in an f-string.
  
  Exceptions the scanner does not catch are a `Result.Raised` value. The
  first one in the scanner's traversal order is the one returned. The
  parsers behind `json.loads`, `float()` of a str and `str()` of a number,
  list or dict are not modelled. They are fields of a `Runtime` value
  passed to every operation.
- `Scanner` defines each operation of the script as a function. Each loop
  of the script is a method with a `while` loop:
  - `ExtractPricesAndOutcomes` runs the cleaning loop and is proved to
    compute the function `Extract`;
  - `AppendKept` runs the loop over one market's prices and is proved to
    compute `KeptFrom`;
  - `FindHighConfidenceMarkets` runs the loop over markets, calls
    `AppendKept` for its inner loop, and is proved to compute `FindSignals`;
  - `CsvRows` runs the row loop; its contract states the row layout directly
    (the header, then `RowOf` of each signal in order).
- `ScannerProofs` proves what those functions mean:
  - the precedence of the price fields;
  - the index alignment of cleaned prices;
  - exactly which indices become signals, and with which outcome names;
  - that a failure anywhere aborts the scan;
  - the band and closed-market guarantees;
  - worked examples.

## Behaviour as written

The model follows the code, including these consequences:

- **Price fallback.** The code tests each price field for truthiness, not
  for being a non-empty list. When all three decode to something falsy, the
  decoded value of `outcome_prices_latest` is used whatever it is. When that
  key is absent, the value is its `[]` default and the market has no prices.
  An explicit JSON `null`, `0` or `false` there is iterated as it is, and
  raises `TypeError` (`NullLastPriceFieldRaises`).
- **Closed markets.** `closed` is read as a condition (`if m.get("closed", False)`),
  so any truthy value closes a market, not only `true`.
- **Outcome names.** `outcomes[i] if i < len(outcomes) else "Unknown"` is
  evaluated for whatever the outcomes decoded to (`OutcomeNameShapes`).
  When a price qualifies at index i:
  - outcomes that are `None`, a number or a bool raise `TypeError` from `len`;
  - outcomes that are a dict raise `KeyError` when i is below its key count,
    and give "Unknown" otherwise;
  - outcomes that are a string give its character at i when i is below its
    length, and "Unknown" otherwise.
- **Non-dict markets.** A market that is not a dict raises `AttributeError`
  at `.get`. In particular, a response body that is a non-empty dict without
  a "markets" key is scanned as its keys, which are strings, and the scan
  fails (`DictBodyWithoutMarketsRaises`).
- **No partial results.** Any exception raised while filtering aborts the
  whole scan, and no signal list is returned (`SignalsOkIff`).

## Model

| member | source | states |
|---|---|---|
| PyValue.Get | scanner.py:47 | `dict.get`: an absent key gives the default; a present key gives a value stored under that key |
| PyValue.HasKeyIff | scanner.py:27 | `"markets" in data` (`PyValue.HasKey`) holds exactly when some entry of the dict has that key |
| PyValue.TruthyIsNonEmpty | scanner.py:53-56 | the truth value of a str, list or dict (`PyValue.Truthy`, as tested by `if not prices`) is exactly that its len() is not zero |
| PyValue.Len | scanner.py:83 | `len(outcomes)` raises exactly for None, a bool or a number; a list, str or dict gives its number of items, characters or keys |
| PyValue.Iterate | scanner.py:60 | `for p in prices`: iterating None, a bool or a number raises TypeError and nothing else raises; a list yields its items; a str and a dict yield as many elements as they have characters or keys |
| PyValue.IterateElements | scanner.py:60 | a str yields its one-character strings and a dict its keys, in order |
| PyValue.Index | scanner.py:83 | `outcomes[i]`: a list in range gives its element; a decoded dict raises KeyError; None, a bool or a number raise TypeError |
| PyValue.IndexElements | scanner.py:83 | a str inside its length gives its one-character string; for a str or list, `v[i]` inside len() is the element iteration visits at i, and past the end raises IndexError |
| PyValue.ToFloat | scanner.py:61-64 | `float(p)` under the bare `except:`: a number is kept; None, a list or a dict become None; a str goes through the float parser |
| PyValue.Str | scanner.py:90 | the f-string rendering of the slug: a str is itself, None renders as "None" |
| Scanner.Unwrap | scanner.py:26-30 | a dict with a "markets" key gives the value stored under that key; any other body is returned unchanged |
| ScannerProofs.UnwrapBothShapes | scanner.py:26-30 | a bare list of markets and `{"markets": list, ...}` unwrap to the same list |
| ScannerProofs.FirstMarketNotDictRaises | scanner.py:72-73 | a market list whose first element is not a dict fails with AttributeError, whatever follows it |
| ScannerProofs.DictBodyWithoutMarketsRaises | scanner.py:27-30 | a non-empty dict body without "markets" is returned unchanged, its keys are scanned as markets, and the scan raises AttributeError |
| Scanner.DecodeField | scanner.py:33-40 | a non-str value is unchanged; a str that fails to parse gives `[]`; a str that parses gives the parsed value |
| ScannerProofs.DecodeTextOrNative | scanner.py:33-40 | a field given as JSON text and the same field given natively decode to the same value |
| Scanner.ExtractPricesAndOutcomes | scanner.py:43-66 | the method computes `Extract`: it raises exactly when the resolved price value is not iterable; the outcomes are the decoded "outcomes"; cleaned price k is `float()` of price element k |
| ScannerProofs.FirstTruthyWins | scanner.py:50-56 | the fallback chain (`Scanner.ResolveFrom`) yields the decoded value of the first field that decodes to something truthy |
| ScannerProofs.NoneTruthyGivesLast | scanner.py:50-56 | when no field decodes to something truthy, the chain yields the decoded value of the last field |
| ScannerProofs.LaterFieldsUnread | scanner.py:50-56 | fields after the first truthy one are never read: markets that agree up to it resolve to the same prices |
| ScannerProofs.PricePrecedence | scanner.py:50-56 | the resolved prices (`Scanner.ResolvePrices`, each field read through `Scanner.Decoded`): a truthy `outcomePrices` wins; otherwise a truthy `outcome_prices`; otherwise `outcome_prices_latest` as decoded |
| ScannerProofs.AlternatesUnreadWhenPrimaryPresent | scanner.py:50-56 | a truthy `outcomePrices` makes both alternate fields irrelevant |
| ScannerProofs.NullLastPriceFieldRaises | scanner.py:50-60 | all three price fields falsy, the last one null: the market raises TypeError |
| ScannerProofs.CleanPricesAligned | scanner.py:58-64 | the cleaned prices are as many as the price elements, and entry k is `float()` of element k under the bare `except:` |
| ScannerProofs.CleanEntryLocal | scanner.py:59-64 | cleaned entry k depends on price element k alone: two price lists equal at k give equal cleaned entries at k |
| Scanner.MarketUrl | scanner.py:90 | the URL starts with the page base; a str slug is appended as is; a missing slug gives base + "None" |
| ScannerProofs.UrlExample | scanner.py:90 | slug "will-x-happen" gives `https://polymarket.com/market/will-x-happen` |
| ScannerProofs.SignalRecord | scanner.py:85-91 | a signal (`Scanner.MakeSignal`) carries the outcome and price; the question or "Unknown Market"; the end date or None; the market URL |
| ScannerProofs.OutcomeNameOfList | scanner.py:83 | for a decoded outcome list, the outcome name (`Scanner.OutcomeName`) at index i gives element i inside the list and "Unknown" past its end |
| ScannerProofs.OutcomeNameShapes | scanner.py:83 | None, a bool or a number raise TypeError; a str gives its character at i inside its length and "Unknown" past it; a dict raises KeyError inside its key count and gives "Unknown" past it |
| ScannerProofs.QualifyingFrom | scanner.py:78-82 | the indices whose price qualifies (`Scanner.Qualifies`: non-null and inside the band, `Scanner.InBand`), strictly ascending, each one in range and every such index included |
| Scanner.AppendKept | scanner.py:78-91 | the inner loop appends to the running results exactly the signals of `KeptFrom`, or returns its exception |
| ScannerProofs.KeptFromOkIff | scanner.py:78-91 | the scan of one market's prices succeeds exactly when every qualifying index has a readable outcome name |
| ScannerProofs.KeptFromFirstError | scanner.py:78-91 | a failing scan raises the exception of the first qualifying index whose outcome name cannot be read |
| ScannerProofs.KeptFromSignals | scanner.py:78-91 | a successful scan gives exactly one signal per qualifying index, in index order, with that index's price and outcome name |
| ScannerProofs.ClosedMarketYieldsNothing | scanner.py:73-74 | a market whose closed flag is truthy (`Scanner.Closed`) yields no signal, whatever its prices |
| ScannerProofs.MarketSignalsBounded | scanner.py:73-91 | every signal of one market (`Scanner.MarketSignals`) is inside [0.90, 0.99] and is one of its non-null cleaned prices; there are at most as many signals as prices |
| Scanner.FindHighConfidenceMarkets | scanner.py:69-93 | the method computes `FindSignals`: the markets in order, each contributing its signals, and the first exception aborting the scan |
| ScannerProofs.SignalsConcat | scanner.py:72-93 | the signals of a market list (`Scanner.Signals`): scanning two market lists one after the other equals scanning their concatenation |
| ScannerProofs.ClosedMarketsDroppable | scanner.py:72-74 | removing a closed market from the list leaves the result unchanged |
| ScannerProofs.SignalsOkIff | scanner.py:72-93 | the scan succeeds exactly when every market's own scan succeeds |
| ScannerProofs.SignalsFromOpenMarkets | scanner.py:72-91 | every signal is in band and comes from an open dict market of the list |
| ScannerProofs.FindSignalsGuarantees | scanner.py:69-93 | a successful scan iterated its input; every signal has 0.90 <= price <= 0.99 and belongs to an open market of the input |
| ScannerProofs.NoMarketsNoSignals | scanner.py:69-72 | no markets give no signals |
| ScannerProofs.BandBoundaries | scanner.py:82 | 0.90 and 0.99 qualify; 0.899999 and 0.991 do not |
| ScannerProofs.ExampleExtract | scanner.py:43-66 | JSON-text outcomes `["Yes", "No"]` and prices `["0.95", "0.20"]` normalise to `[0.95, 0.20]` and `["Yes", "No"]` |
| ScannerProofs.YesNoExample | scanner.py:69-91 | that market gives exactly one signal, "Yes" at 0.95, named "Unknown Market" |
| ScannerProofs.ShortOutcomesExample | scanner.py:78-91 | outcomes `["Yes"]` with prices `[0.95, 0.92]` give "Yes" at 0.95 and "Unknown" at 0.92 |
| Scanner.CsvRows | scanner.py:96-105 | the header row Market, Outcome, Price, End Time, URL, then one row per signal in order (`Scanner.RowOf`) with its five fields |

## Left out

- `get_markets_ending_soon` (scanner.py:12-24): the HTTP request, the clock
  and the query parameters are I/O and are not modelled. Only the
  unwrapping of the body (scanner.py:26-30) is.
- `json.loads`, `float()` of a str and `str()` of numbers, lists and dicts
  are not modelled. They are parameters (`Runtime`), so `float("nan")`
  and `float("inf")` are whatever the given parser returns.
- IEEE floating point: prices are exact reals. Rounding, NaN and infinities
  are not modelled, and neither is the difference between JSON integers
  and floats.
- Creating the output directory (scanner.py:9), opening `output/signals.csv`
  and the way `csv.writer` quotes and renders cells (scanner.py:96-107) are
  not modelled. `CsvRows` gives the cells of each row before rendering.
- `print_signals` and `main` (scanner.py:110-143) are console output and
  sequencing only, and are not modelled.
- Scanner.FindHighConfidenceMarkets: the inner loop over one market's prices
  is the separate method `AppendKept`, called once per market.
- Dicts are ordered lists of entries with distinct keys, as `json.loads`
  builds them. Duplicate keys in the JSON text are not modelled.
