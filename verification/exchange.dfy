/** The Upbit exchange as `transaction` sees it: the calls it makes on the
    client and the orders it can place. The calls themselves are I/O and are
    not modelled; their answers are inputs of the functions that use them. */
module Exchange {

  /** The only market the bot trades. */
  const Market: string := "KRW-BTC"

  /** The quote currency whose balance pays for a buy. */
  const QuoteCurrency: string := "KRW"

  /** Upbit's minimum order value, in KRW: orders must be worth strictly more. */
  const MinOrderKrw: real := 5000.0

  /** The share of the KRW balance spent on a buy (the rest covers the fee). */
  const BuyFraction: real := 0.9995

  /** A market order: a buy for an amount of KRW, or a sell of a volume of BTC. */
  datatype Order =
    | MarketBuy(market: string, krw: real)
    | MarketSell(market: string, volume: real)

  /** One call on the exchange client, in the order the bot makes them. */
  datatype Call =
    | GetBalance(ticker: string)
    | GetCurrentPrice(ticker: string)
    | Place(order: Order)

  /** The orders placed by a sequence of calls, in order. */
  function Orders(calls: seq<Call>): (r: seq<Order>)
    ensures |r| <= |calls|
    ensures forall o :: o in r <==> Place(o) in calls
  {
    if calls == [] then []
    else (if calls[0].Place? then [calls[0].order] else []) + Orders(calls[1..])
  }

  /** Orders are collected call by call: those of a concatenation are those
      of the first part followed by those of the second. */
  lemma {:induction false} OrdersAppend(a: seq<Call>, b: seq<Call>)
    ensures Orders(a + b) == Orders(a) + Orders(b)
  {
    if a == [] {
      assert a + b == b;
    } else {
      assert (a + b)[1..] == a[1..] + b;
      OrdersAppend(a[1..], b);
    }
  }

  /** A sequence of lookups alone places no order. */
  lemma {:induction false} OrdersOfLookups(lookups: seq<Call>)
    requires forall i :: 0 <= i < |lookups| ==> !lookups[i].Place?
    ensures Orders(lookups) == []
  {
    if lookups != [] {
      OrdersOfLookups(lookups[1..]);
    }
  }

  /** A sequence of lookups with one order placement at its end places exactly that order. */
  lemma OrdersOfLookupsThenPlace(lookups: seq<Call>, o: Order)
    requires forall i :: 0 <= i < |lookups| ==> !lookups[i].Place?
    ensures Orders(lookups + [Place(o)]) == [o]
  {
    OrdersOfLookups(lookups);
    OrdersAppend(lookups, [Place(o)]);
    assert Orders([Place(o)]) == [o] + Orders([]);
  }
}
