# Autotrade decision rule, modelled in Dafny

The trading bot runs a loop. Each pass gathers the KRW-BTC market state, the Fear & Greed index and news headlines, asks Gemini for a `buy`/`sell`/`hold` decision as JSON, and then, in `transaction`, may place one Upbit market order. This project models the logic the bot itself contains and proves what that logic promises:

- **the order-execution rule** (`Execution`). A missing or empty reply is skipped, and so is one that does not decode. A `buy` spends 99.95% of the KRW balance when that balance exceeds 5000 KRW. A `sell` sells the whole BTC balance when it is positive, a price was obtained, and the value exceeds 5000 KRW. Anything else places nothing. The result of `transaction` is the sequence of exchange calls it makes (balance lookups, the price lookup, the order) together with how it ended. That makes "no lookup", "lookup only when" and "at most one order" statable.
- **the pure steps of data gathering** (`Context`). These are the KRW/BTC balance filter, the defaulting of a failed sentiment or news request to `[]` (a body of the wrong shape aborts the pass instead), and the cut of the news to ten entries.
- **one pass of the loop** (`Cycle`). `generate`, then `transaction`.

The JSON decoder (`json.loads`) is a parameter `decode: string -> Option<Json.Value>`, where `None` means a `JSONDecodeError`. Gemini is a parameter `oracle: Snapshot -> Option<string>`, where `None` means the caught API error. The balances and the current price that the exchange would report are plain inputs. Amounts are exact `real`s.

Files: `wrappers.dfy` (Option, Result), `json.dfy` (decoded JSON values), `exchange.dfy` (market constants, orders, exchange calls), `execution.dfy` (`transaction`), `context.dfy` (parts of `generate`), `cycle.dfy` (one loop pass).

Where the code and the design description differ, the model follows the code:
- the news entries passed on are the whole SerpAPI entries, not only title and date;
- a missing `decision` key or an unknown decision string does nothing and reports no error;
- a `sell` whose price lookup failed is reported the same way as one whose value is too low;
- a decoded reply that is not an object raises out of the loop (see Findings);
- a sentiment or news body of the wrong shape (not an object, or a `news_results` that cannot be sliced) raises an exception that the fetcher does not catch, so the whole pass is skipped; only failed requests degrade to an empty list.

## Model

| member | source | states |
|---|---|---|
| Execution.ReadDecision | autotrade.py:179-182 | an error exactly when the decoded reply is not a dict, or its `decision` is present but not a string; no decision exactly when the key is absent; otherwise the string under `decision` |
| Execution.Buy | autotrade.py:183-190 | first looks up the KRW balance; orders exactly when it exceeds 5000; the order is a market buy of KRW-BTC for balance × 0.9995, which is positive and below the balance, and is the last call; otherwise skips with insufficient KRW after the lookup alone |
| Execution.Sell | autotrade.py:191-202 | first looks up the BTC balance; asks for the price exactly when that balance is positive; orders exactly when the balance is positive, a price exists and balance × price exceeds 5000; the order sells the whole balance; each failing case ends with its own skip reason and no further call |
| Execution.Execute | autotrade.py:182-204 | never raises; places a buy iff the decision is `buy` and KRW > 5000; places a sell iff it is `sell` with positive BTC, a price and value > 5000; any other decision makes no call; the orders among the calls are exactly the outcome's order |
| Execution.Transaction | autotrade.py:167-204 | a missing or empty reply, and an undecodable one, make no call and no order; it raises exactly when the decoded reply is unreadable, and then makes no call; buy/sell orders are placed iff the reply decides them and the thresholds hold; at most the outcome's one order is among the calls |
| Execution.BuyOrder | autotrade.py:183-190 | for a `buy` reply: the KRW balance is looked up first; an order is placed iff that balance exceeds 5000; the order is exactly balance × 0.9995, positive and below the balance; otherwise the call ends with insufficient KRW |
| Execution.BuyTenThousand | autotrade.py:186 | a `buy` with 10000 KRW orders exactly 9995 KRW |
| Execution.SellWithoutBtc | autotrade.py:192-202 | a `sell` with BTC balance ≤ 0 looks up only the balance and places nothing, whatever the price |
| Execution.SellOrder | autotrade.py:193-200 | a `sell` with positive BTC looks up balance then price; it orders iff the price exists and the value exceeds 5000; it sells the full balance; otherwise it reports low value or no price |
| Execution.NoTradeDecisions | autotrade.py:182-204 | `hold`, a missing `decision` key or any other string makes no exchange call; `hold` and the missing key are reported as such |
| Execution.AtMostOneOrder | autotrade.py:183-204 | every call places at most one order; a `buy` reply never sells and a `sell` reply never buys |
| Execution.ListReplyRaises | autotrade.py:174-179 | the reply `[]` decodes to a list and the rule as written raises instead of skipping it |
| Execution.SafeTransaction | autotrade.py:167-204 | the corrected rule never raises; it makes the same calls with the same outcome as the rule as written whenever that does not raise, and otherwise skips the reply as malformed with no call |
| Context.KeepTracked | autotrade.py:65-66 | an entry is kept iff it is in the input with currency KRW or BTC; each kept entry appears as often as in the input; no longer than the input |
| Context.KeepTrackedAppend | autotrade.py:66 | the filter works entry by entry, keeping the input's order: filtering a concatenation is concatenating the filtered parts |
| Context.KeepTrackedAllTracked | autotrade.py:66 | a list of only KRW and BTC entries is kept whole |
| Context.KeepTrackedIdempotent | autotrade.py:66 | filtering twice equals filtering once |
| Context.FirstHeadlines | autotrade.py:28 | `[:10]`: a prefix of the input whose length is the smaller of 10 and the input length |
| Context.FearAndGreedIndex | autotrade.py:36-45 | `None` exactly when the request raised; the `data` list when present, `[]` when absent; an exception escapes exactly when the body is not an object |
| Context.NewsHeadlines | autotrade.py:15-34 | `None` exactly when the request raised; an exception escapes exactly when the body has the wrong shape; otherwise exactly the first min(10, n) `news_results` entries, or `[]` when the key is absent |
| Context.Sentiment | autotrade.py:79-81 | a failed request becomes `[]`; otherwise the `data` list unchanged, or `[]` when it is absent; the pass aborts exactly when the body has the wrong shape |
| Context.News | autotrade.py:83-90 | at most 10 entries; `[]` without a SerpAPI key, when the request failed, or when `news_results` is absent; otherwise exactly the first min(10, n) results; the pass aborts exactly when a key is set and the body has the wrong shape |
| Context.Gather | autotrade.py:61-116 | data is gathered exactly when the balances and market data were fetched and no exception escaped the sentiment or news fetcher; failed sentiment or news requests never abort it; the snapshot holds the KRW/BTC filter of all balances and the defaulted sentiment and news lists |
| Cycle.Generate | autotrade.py:114-116 | no reply when the data could not be gathered; otherwise the oracle's reply to the gathered data |
| Cycle.Step | autotrade.py:215-217 | a pass whose data gathering failed makes no call and no order; no pass raises; each pass places at most one order, and exactly one when its outcome is an order |
| Cycle.StepAsWritten | autotrade.py:215-217 | whenever the rule as written does not raise, the corrected pass equals `generate` followed by `transaction` as written |

## Left out

- Exchange and network calls: `get_balance(s)`, `get_orderbook`, `get_ohlcv`, `get_current_price`, `buy_market_order` and `sell_market_order`. They are foreign I/O. Their answers are inputs, and their effects are the `Call` trace and the outcome. What an order call returns is not modelled.
- SerpAPI and alternative.me requests: only the shape of their answers is modelled (a raised request exception, or a body in which the key may be absent), with the `limit=30` query parameter ignored.
- `add_technical_indicators` (autotrade.py:47-59): a wrapper over the `ta` library on floating-point pandas series. A failure there, or in the order-book or candle fetch, is the single input `marketDataOk` of `Context.Gather`.
- Prompt assembly, the few-shot text and the Gemini call (autotrade.py:92-165): string templating and a remote model. The reply is the result of the `oracle` parameter.
- `json.loads`: it is the `decode` parameter, not a decoder.
- The `while True` loop, `time.sleep(10)` and the environment-variable check at start-up (autotrade.py:206-219): process plumbing. One pass is `Cycle.Step`.
- Printing and log messages: the skip reasons stand for the printed messages.
- Execution.Buy: the amount is the exact real `krw × 0.9995`, not the IEEE double product that Python computes.
- Execution.Sell: the test `btc × price > 5000` uses the exact real product, not the IEEE double product that Python computes.
- Execution.Transaction: `get_balance` is assumed to return a number. A `None` balance would make `>` raise, and that path is not modelled.
- mvp.py: an earlier prototype without decision logic. mvp.py is not part of this model.

## Findings

| source | as written | input that shows it | evidently intended | confidence | as-written member | corrected member |
|---|---|---|---|---|---|---|
| autotrade.py:179 | `ai_decision.get("decision", "N/A").upper()` assumes that the decoded reply is a dict and that its `decision` is a string. Otherwise it raises `AttributeError`, which nothing catches, and the trading loop (lines 215-217) stops | the reply `[]`, or `{"decision": null}` | a reply that cannot be read is skipped like an undecodable one, and the loop goes on | not executed; medium | Execution.ListReplyRaises | Execution.SafeTransaction |
