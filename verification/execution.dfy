/** The order-execution rule of `transaction` (autotrade.py:167-204): from
    the model's reply and the exchange's answers to the lookups, which calls
    are made on the exchange and how the call ends. */
module Execution {
  import opened Wrappers
  import opened Json
  import opened Exchange

  /** Why a call of `transaction` ended without an order. */
  datatype Skip =
    | MissingReply                     // no reply, or an empty one
    | UndecodableReply                 // json.loads raised JSONDecodeError
    | NoDecision                       // the object has no "decision" key
    | Hold                             // "hold"
    | UnknownDecision(decision: string) // any other string
    | InsufficientKrw                  // buy with at most 5000 KRW
    | NoBtc                            // sell with no positive BTC balance
    | LowValueOrNoPrice                // sell whose price is missing or value at most 5000 KRW
    | MalformedDecision                // not an object, or a non-string decision (corrected rule only)

  /** The exception raised while reading the decoded reply: `.get` on a value
      that is not a dict, or `.upper()` on a decision that is not a string. */
  datatype Fault = NotAnObject | DecisionNotString

  /** How one call of `transaction` ends. */
  datatype Outcome =
    | Placed(order: Order)
    | Skipped(reason: Skip)
    | Raised(fault: Fault)

  /** The calls made on the exchange, in order, and how the call ended. */
  datatype Run = Run(calls: seq<Call>, outcome: Outcome)

  /** The value of the "decision" key of a decoded reply (`None` when absent),
      or the exception that printing it in upper case raises. */
  function ReadDecision(doc: Value): (r: Result<Option<string>, Fault>)
    ensures r.Err? <==> !doc.JObject? || ("decision" in doc.fields && !doc.fields["decision"].JString?)
    ensures r == Ok(None) <==> doc.JObject? && "decision" !in doc.fields
    ensures r.Ok? && r.value.Some? ==> doc.JObject? && "decision" in doc.fields
                                       && doc.fields["decision"] == JString(r.value.value)
  {
    match doc
    case JObject(fields) =>
      if "decision" !in fields then Ok(None)
      else if fields["decision"].JString? then Ok(Some(fields["decision"].s))
      else Err(DecisionNotString)
    case _ => Err(NotAnObject)
  }

  /** The `buy` branch (lines 183-190), given the KRW balance the exchange reports. */
  function Buy(krw: real): (r: Run)
    ensures |r.calls| > 0 && r.calls[0] == GetBalance(QuoteCurrency)
    ensures Orders(r.calls) == (if r.outcome.Placed? then [r.outcome.order] else [])
    ensures r.outcome.Placed? <==> krw > MinOrderKrw
    ensures r.outcome.Placed? ==> r.calls == [GetBalance(QuoteCurrency), Place(r.outcome.order)]
                                  && r.outcome.order == MarketBuy(Market, krw * BuyFraction)
                                  && 0.0 < r.outcome.order.krw < krw
    ensures !r.outcome.Placed? ==> r == Run([GetBalance(QuoteCurrency)], Skipped(InsufficientKrw))
  {
    var lookups := [GetBalance(QuoteCurrency)];
    if krw > MinOrderKrw then
      var order := MarketBuy(Market, krw * BuyFraction);
      OrdersOfLookupsThenPlace(lookups, order);
      Run(lookups + [Place(order)], Placed(order))
    else
      OrdersOfLookups(lookups);
      Run(lookups, Skipped(InsufficientKrw))
  }

  /** The `sell` branch (lines 191-202), given the BTC balance and the current
      price the exchange reports; the price is only asked for when there is BTC. */
  function Sell(btc: real, price: Option<real>): (r: Run)
    ensures |r.calls| > 0 && r.calls[0] == GetBalance(Market)
    ensures Orders(r.calls) == (if r.outcome.Placed? then [r.outcome.order] else [])
    ensures GetCurrentPrice(Market) in r.calls <==> btc > 0.0
    ensures r.outcome.Placed? <==> btc > 0.0 && price.Some? && btc * price.value > MinOrderKrw
    ensures r.outcome.Placed? ==> r.calls == [GetBalance(Market), GetCurrentPrice(Market), Place(r.outcome.order)]
                                  && r.outcome.order == MarketSell(Market, btc)
    ensures btc <= 0.0 ==> r == Run([GetBalance(Market)], Skipped(NoBtc))
    ensures btc > 0.0 && !r.outcome.Placed? ==>
              r == Run([GetBalance(Market), GetCurrentPrice(Market)], Skipped(LowValueOrNoPrice))
  {
    if btc > 0.0 then
      var lookups := [GetBalance(Market), GetCurrentPrice(Market)];
      if price.Some? && btc * price.value > MinOrderKrw then
        var order := MarketSell(Market, btc);
        OrdersOfLookupsThenPlace(lookups, order);
        Run(lookups + [Place(order)], Placed(order))
      else
        OrdersOfLookups(lookups);
        Run(lookups, Skipped(LowValueOrNoPrice))
    else
      OrdersOfLookups([GetBalance(Market)]);
      Run([GetBalance(Market)], Skipped(NoBtc))
  }

  /** The branch on the decision string (lines 182-204): only "buy" and
      "sell" touch the exchange, and neither can place the other's order. */
  function Execute(decision: Option<string>, krw: real, btc: real, price: Option<real>): (r: Run)
    ensures !r.outcome.Raised?
    ensures Orders(r.calls) == (if r.outcome.Placed? then [r.outcome.order] else [])
    ensures r.outcome.Placed? && r.outcome.order.MarketBuy? <==> decision == Some("buy") && krw > MinOrderKrw
    ensures r.outcome.Placed? && r.outcome.order.MarketSell? <==>
              decision == Some("sell") && btc > 0.0 && price.Some? && btc * price.value > MinOrderKrw
    ensures decision != Some("buy") && decision != Some("sell") ==> r.calls == []
  {
    if decision == Some("buy") then Buy(krw)
    else if decision == Some("sell") then Sell(btc, price)
    else if decision == Some("hold") then Run([], Skipped(Hold))
    else if decision.None? then Run([], Skipped(NoDecision))
    else Run([], Skipped(UnknownDecision(decision.value)))
  }

  /** The reply, decoded, names the decision `d`. */
  predicate Decides(reply: Option<string>, decode: string -> Option<Value>, d: string) {
    && reply.Some? && reply.value != ""
    && decode(reply.value).Some?
    && ReadDecision(decode(reply.value).value) == Ok(Some(d))
  }

  /** `transaction` as written: `reply` is what `generate` returned, `decode`
      is `json.loads`. */
  function Transaction(reply: Option<string>, decode: string -> Option<Value>,
                       krw: real, btc: real, price: Option<real>): (r: Run)
    ensures reply.None? || reply == Some("") ==> r == Run([], Skipped(MissingReply))
    ensures reply.Some? && reply.value != "" && decode(reply.value).None? ==>
              r == Run([], Skipped(UndecodableReply))
    ensures r.outcome.Raised? <==>
              reply.Some? && reply.value != "" && decode(reply.value).Some?
              && ReadDecision(decode(reply.value).value).Err?
    ensures r.outcome.Raised? ==> r.calls == []
    ensures Orders(r.calls) == (if r.outcome.Placed? then [r.outcome.order] else [])
    ensures r.outcome.Placed? && r.outcome.order.MarketBuy? <==> Decides(reply, decode, "buy") && krw > MinOrderKrw
    ensures r.outcome.Placed? && r.outcome.order.MarketSell? <==>
              Decides(reply, decode, "sell") && btc > 0.0 && price.Some? && btc * price.value > MinOrderKrw
  {
    if reply.None? || reply.value == "" then
      Run([], Skipped(MissingReply))
    else
      match decode(reply.value)
      case None => Run([], Skipped(UndecodableReply))
      case Some(doc) =>
        match ReadDecision(doc)
        case Err(fault) => Run([], Raised(fault))
        case Ok(decision) => Execute(decision, krw, btc, price)
  }

  /** A buy spends 99.95% of the KRW balance, and only when that balance is
      above 5000: the amount is positive and below the balance. */
  lemma BuyOrder(reply: Option<string>, decode: string -> Option<Value>, krw: real, btc: real, price: Option<real>)
    requires Decides(reply, decode, "buy")
    ensures var r := Transaction(reply, decode, krw, btc, price);
            && r.calls[0] == GetBalance(QuoteCurrency)
            && (r.outcome.Placed? <==> krw > MinOrderKrw)
            && (r.outcome.Placed? ==> r.outcome.order == MarketBuy(Market, krw * 0.9995)
                                      && 0.0 < r.outcome.order.krw < krw)
            && (!r.outcome.Placed? ==> r == Run([GetBalance(QuoteCurrency)], Skipped(InsufficientKrw)))
  {
  }

  /** With 10000 KRW a buy is placed for exactly 9995 KRW. */
  lemma BuyTenThousand(reply: Option<string>, decode: string -> Option<Value>, btc: real, price: Option<real>)
    requires Decides(reply, decode, "buy")
    ensures Transaction(reply, decode, 10000.0, btc, price).outcome == Placed(MarketBuy(Market, 9995.0))
  {
  }

  /** A sell with no positive BTC balance looks up only that balance and
      places nothing, whatever the price. */
  lemma SellWithoutBtc(reply: Option<string>, decode: string -> Option<Value>, krw: real, btc: real, price: Option<real>)
    requires Decides(reply, decode, "sell") && btc <= 0.0
    ensures Transaction(reply, decode, krw, btc, price) == Run([GetBalance(Market)], Skipped(NoBtc))
  {
  }

  /** A sell with a positive balance fetches the price, and sells the whole
      balance exactly when the price is known and the value exceeds 5000 KRW. */
  lemma SellOrder(reply: Option<string>, decode: string -> Option<Value>, krw: real, btc: real, price: Option<real>)
    requires Decides(reply, decode, "sell") && btc > 0.0
    ensures var r := Transaction(reply, decode, krw, btc, price);
            && r.calls[..2] == [GetBalance(Market), GetCurrentPrice(Market)]
            && (r.outcome.Placed? <==> price.Some? && btc * price.value > MinOrderKrw)
            && (r.outcome.Placed? ==> r.outcome.order == MarketSell(Market, btc))
            && (!r.outcome.Placed? ==> r.outcome == Skipped(LowValueOrNoPrice))
  {
  }

  /** "hold", a missing "decision" key and any string other than "buy" and
      "sell" make no call on the exchange at all. */
  lemma NoTradeDecisions(reply: Option<string>, decode: string -> Option<Value>, krw: real, btc: real, price: Option<real>)
    requires reply.Some? && reply.value != "" && decode(reply.value).Some?
    requires ReadDecision(decode(reply.value).value).Ok?
    requires !Decides(reply, decode, "buy") && !Decides(reply, decode, "sell")
    ensures var r := Transaction(reply, decode, krw, btc, price);
            && r.calls == []
            && (Decides(reply, decode, "hold") ==> r.outcome == Skipped(Hold))
            && (ReadDecision(decode(reply.value).value) == Ok(None) ==> r.outcome == Skipped(NoDecision))
  {
  }

  /** Each call places at most one order, and of the kind decided: a buy
      decision never sells and a sell decision never buys. */
  lemma AtMostOneOrder(reply: Option<string>, decode: string -> Option<Value>, krw: real, btc: real, price: Option<real>)
    ensures var r := Transaction(reply, decode, krw, btc, price);
            && |Orders(r.calls)| <= 1
            && (Decides(reply, decode, "buy") ==> forall o :: o in Orders(r.calls) ==> o.MarketBuy?)
            && (Decides(reply, decode, "sell") ==> forall o :: o in Orders(r.calls) ==> o.MarketSell?)
  {
  }

  /** The counterexample of the finding: the reply `[]` decodes to a list, and
      `transaction` raises instead of skipping the reply. */
  lemma ListReplyRaises(krw: real, btc: real, price: Option<real>)
    ensures var decode := (t: string) => if t == "[]" then Some(JArray([])) else None;
            Transaction(Some("[]"), decode, krw, btc, price).outcome == Raised(NotAnObject)
  {
  }

  /** `transaction` corrected so that a reply that is not an object, or whose
      decision is not a string, is skipped like an undecodable one instead of
      raising out of the trading loop. */
  function SafeTransaction(reply: Option<string>, decode: string -> Option<Value>,
                           krw: real, btc: real, price: Option<real>): (r: Run)
    ensures !r.outcome.Raised?
    ensures !Transaction(reply, decode, krw, btc, price).outcome.Raised? ==>
              r == Transaction(reply, decode, krw, btc, price)
    ensures Transaction(reply, decode, krw, btc, price).outcome.Raised? ==>
              r == Run([], Skipped(MalformedDecision))
  {
    if reply.None? || reply.value == "" then
      Run([], Skipped(MissingReply))
    else
      match decode(reply.value)
      case None => Run([], Skipped(UndecodableReply))
      case Some(doc) =>
        match ReadDecision(doc)
        case Err(_) => Run([], Skipped(MalformedDecision))
        case Ok(decision) => Execute(decision, krw, btc, price)
  }
}
