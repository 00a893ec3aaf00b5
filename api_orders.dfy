/**
  The order and query payload builders of `BinanceClient::API`
  (lib/binance_client/api.rb). Each returns the parameter Hash that is
  handed to the connection, in the order its keys reach the wire. Clock
  reads (`timestamp`, milliseconds since the epoch) are parameters: `now`
  is the read made by `place_order` (or by the builder itself when it does
  not go through `place_order`), `gtdNow` the separate, earlier read a
  builder makes for `goodTillDate`.
 */
module Api {
  import opened Wrappers
  import opened RubyValues
  import opened RubyHash
  import Signing

  /** Milliseconds added to the clock for a limit order's `goodTillDate`. */
  const LimitGoodTillOffset: int := 660000

  /** Milliseconds added to the clock for a stop-market order's `goodTillDate`. */
  const StopGoodTillOffset: int := 1500000

  /** `place_order(params)`: `params.merge(timestamp: now)`. A missing
      `timestamp` is appended last; an existing one keeps its position and
      takes the new value; no other entry changes. */
  function PlaceOrder(params: Hash, now: int): (r: Hash)
    ensures !HasKey(params, Timestamp) ==> r == params + [(Timestamp, Int(now))]
    ensures HasKey(params, Timestamp) ==>
      r == params[..IndexOf(params, Timestamp)] + [(Timestamp, Int(now))]
           + params[IndexOf(params, Timestamp) + 1..]
  {
    var stamp: Hash := [(Timestamp, Int(now))];
    assert stamp[1..] == [];
    assert Merge(params, stamp) == Merge(Store(params, Timestamp, Int(now)), []);
    Merge(params, stamp)
  }

  /** A Hash without a `timestamp` gets it appended as its last entry. */
  lemma PlaceOrderAppends(params: Hash, now: int)
    requires Timestamp !in Keys(params)
    ensures PlaceOrder(params, now) == params + [(Timestamp, Int(now))]
  {
    KeysHasKey(params, Timestamp);
  }

  /** `place_order` keeps the keys of the Hash unique. */
  lemma PlaceOrderKeepsUnique(params: Hash, now: int)
    requires UniqueKeys(params)
    ensures UniqueKeys(PlaceOrder(params, now))
  {
    MergeKeepsUnique(params, [(Timestamp, Int(now))]);
  }

  /** `place_market_order`. */
  function PlaceMarketOrder(symbol: Value, side: string, quantity: Value, now: int): (r: Hash)
    ensures r == [(Symbol, symbol), (Side, Str(Upcase(side))), (Type, Str("MARKET")),
                  (Quantity, quantity), (Timestamp, Int(now))]
  {
    var p: Hash := [(Symbol, symbol), (Side, Str(Upcase(side))), (Type, Str("MARKET")),
                    (Quantity, quantity)];
    assert Timestamp !in Keys(p);
    PlaceOrderAppends(p, now);
    PlaceOrder(p, now)
  }

  /** `place_limit_order`. Only the truthiness of `goodTillDate` matters:
      when set, `timeInForce` turns into `GTD` where it stands and a
      `goodTillDate` computed from the builder's own clock read is appended. */
  method PlaceLimitOrder(symbol: Value, side: string, quantity: Value, price: Value,
                         gtdNow: int, now: int, goodTillDate: Value := Nil)
    returns (r: Hash)
    ensures !Truthy(goodTillDate) ==>
      r == [(Symbol, symbol), (Side, Str(Upcase(side))), (Type, Str("LIMIT")),
            (Quantity, quantity), (TimeInForce, Str("GTC")), (Price, AsFloat(price)),
            (Timestamp, Int(now))]
    ensures Truthy(goodTillDate) ==>
      r == [(Symbol, symbol), (Side, Str(Upcase(side))), (Type, Str("LIMIT")),
            (Quantity, quantity), (TimeInForce, Str("GTD")), (Price, AsFloat(price)),
            (GoodTillDate, Int(gtdNow + LimitGoodTillOffset)), (Timestamp, Int(now))]
  {
    var base: Hash := [(Symbol, symbol), (Side, Str(Upcase(side))), (Type, Str("LIMIT")),
                       (Quantity, quantity), (TimeInForce, Str("GTC")), (Price, AsFloat(price))];
    var params := new MutableHash(base);
    if Truthy(goodTillDate) {
      var extra: Hash := [(GoodTillDate, Int(gtdNow + LimitGoodTillOffset)), (TimeInForce, Str("GTD"))];
      params.MergeInPlace(extra);
      assert params.entries == Merge(base, extra);
      GoodTillSwitchesTimeInForce(symbol, Str(Upcase(side)), quantity, AsFloat(price),
                                  Int(gtdNow + LimitGoodTillOffset));
      assert Timestamp !in Keys(params.entries);
    } else {
      assert Timestamp !in Keys(params.entries);
    }
    PlaceOrderAppends(params.entries, now);
    r := PlaceOrder(params.entries, now);
  }

  /** The `merge!` of a good-till-date limit order: `timeInForce` is
      switched to `GTD` where it stands and `goodTillDate` is appended. */
  lemma GoodTillSwitchesTimeInForce(symbol: Value, side: Value, quantity: Value, price: Value,
                                    goodTill: Value)
    ensures Merge([(Symbol, symbol), (Side, side), (Type, Str("LIMIT")),
                   (Quantity, quantity), (TimeInForce, Str("GTC")), (Price, price)],
                  [(GoodTillDate, goodTill), (TimeInForce, Str("GTD"))])
         == [(Symbol, symbol), (Side, side), (Type, Str("LIMIT")),
             (Quantity, quantity), (TimeInForce, Str("GTD")), (Price, price), (GoodTillDate, goodTill)]
  {
    var base: Hash := [(Symbol, symbol), (Side, side), (Type, Str("LIMIT")),
                       (Quantity, quantity), (TimeInForce, Str("GTC")), (Price, price)];
    var extra: Hash := [(GoodTillDate, goodTill), (TimeInForce, Str("GTD"))];
    SwitchFifthAppend(base, extra);
  }

  /** Merging a new key and then the fifth key of a six-entry Hash
      replaces that entry where it stands and appends the new one. */
  lemma SwitchFifthAppend(base: Hash, extra: Hash)
    requires UniqueKeys(base) && |base| == 6 && |extra| == 2 && extra[1].0 == base[4].0
    requires forall i :: 0 <= i < 6 ==> base[i].0 != extra[0].0
    ensures Merge(base, extra) == [base[0], base[1], base[2], base[3], extra[1], base[5], extra[0]]
  {
    MergePair(base, extra);
    StoreKeepsUnique(base, extra[0].0, extra[0].1);
    var appended := Store(base, extra[0].0, extra[0].1);
    assert appended == base + [extra[0]];
    StoreAt(appended, 4, extra[1].1);
  }

  /** `place_trailing_stop_market_order`; `callbackRate` defaults to 2.0. */
  function PlaceTrailingStopMarketOrder(symbol: Value, side: string, quantity: Value,
                                        activationPrice: Value, now: int,
                                        callbackRate: Value := Float(2.0)): (r: Hash)
    ensures r == [(Symbol, symbol), (Side, Str(Upcase(side))), (Type, Str("TRAILING_STOP_MARKET")),
                  (ActivationPrice, activationPrice), (CallbackRate, callbackRate),
                  (Quantity, quantity), (Timestamp, Int(now))]
  {
    var p: Hash := [(Symbol, symbol), (Side, Str(Upcase(side))), (Type, Str("TRAILING_STOP_MARKET")),
                    (ActivationPrice, activationPrice), (CallbackRate, callbackRate),
                    (Quantity, quantity)];
    assert Timestamp !in Keys(p);
    PlaceOrderAppends(p, now);
    PlaceOrder(p, now)
  }

  /** `place_stop_market_order`: always `STOP_MARKET` with `closePosition`
      true; with a truthy `goodTillDate`, `goodTillDate` and then
      `timeInForce=GTD` are appended. */
  method PlaceStopMarketOrder(symbol: Value, side: string, stopPrice: Value,
                              gtdNow: int, now: int, goodTillDate: Value := Nil)
    returns (r: Hash)
    ensures !Truthy(goodTillDate) ==>
      r == [(Symbol, symbol), (Side, Str(Upcase(side))), (Type, Str("STOP_MARKET")),
            (StopPrice, stopPrice), (ClosePosition, Bool(true)), (Timestamp, Int(now))]
    ensures Truthy(goodTillDate) ==>
      r == [(Symbol, symbol), (Side, Str(Upcase(side))), (Type, Str("STOP_MARKET")),
            (StopPrice, stopPrice), (ClosePosition, Bool(true)),
            (GoodTillDate, Int(gtdNow + StopGoodTillOffset)), (TimeInForce, Str("GTD")),
            (Timestamp, Int(now))]
  {
    var base: Hash := [(Symbol, symbol), (Side, Str(Upcase(side))), (Type, Str("STOP_MARKET")),
                       (StopPrice, stopPrice), (ClosePosition, Bool(true))];
    var params := new MutableHash(base);
    if Truthy(goodTillDate) {
      var extra: Hash := [(GoodTillDate, Int(gtdNow + StopGoodTillOffset)), (TimeInForce, Str("GTD"))];
      params.MergeInPlace(extra);
      assert params.entries == Merge(base, extra);
      GoodTillAppended(symbol, Str(Upcase(side)), stopPrice, Int(gtdNow + StopGoodTillOffset));
      assert Timestamp !in Keys(params.entries);
    } else {
      assert Timestamp !in Keys(params.entries);
    }
    PlaceOrderAppends(params.entries, now);
    r := PlaceOrder(params.entries, now);
  }

  /** The `merge!` of a good-till-date stop-market order appends
      `goodTillDate` and then `timeInForce`. */
  lemma GoodTillAppended(symbol: Value, side: Value, stopPrice: Value, goodTill: Value)
    ensures Merge([(Symbol, symbol), (Side, side), (Type, Str("STOP_MARKET")),
                   (StopPrice, stopPrice), (ClosePosition, Bool(true))],
                  [(GoodTillDate, goodTill), (TimeInForce, Str("GTD"))])
         == [(Symbol, symbol), (Side, side), (Type, Str("STOP_MARKET")),
             (StopPrice, stopPrice), (ClosePosition, Bool(true)),
             (GoodTillDate, goodTill), (TimeInForce, Str("GTD"))]
  {
    var base := [(Symbol, symbol), (Side, side), (Type, Str("STOP_MARKET")),
                 (StopPrice, stopPrice), (ClosePosition, Bool(true))];
    assert Keys(base) == [Symbol, Side, Type, StopPrice, ClosePosition];
    MergeFresh(base, [(GoodTillDate, goodTill), (TimeInForce, Str("GTD"))]);
  }

  /** `place_take_profit`; `reduceOnly` defaults to false. */
  function PlaceTakeProfit(symbol: Value, side: string, quantity: Value, stopPrice: Value,
                           price: Value, now: int, reduceOnly: Value := Bool(false)): (r: Hash)
    ensures r == [(Symbol, symbol), (Side, Str(Upcase(side))), (Type, Str("TAKE_PROFIT")),
                  (ReduceOnly, reduceOnly), (Price, AsFloat(price)), (Quantity, quantity),
                  (StopPrice, stopPrice), (Timestamp, Int(now))]
  {
    var p: Hash := [(Symbol, symbol), (Side, Str(Upcase(side))), (Type, Str("TAKE_PROFIT")),
                    (ReduceOnly, reduceOnly), (Price, AsFloat(price)), (Quantity, quantity),
                    (StopPrice, stopPrice)];
    assert Timestamp !in Keys(p);
    PlaceOrderAppends(p, now);
    PlaceOrder(p, now)
  }

  /** `place_take_profit_market`: always with `closePosition` true. */
  function PlaceTakeProfitMarket(symbol: Value, side: string, stopPrice: Value, now: int): (r: Hash)
    ensures r == [(Symbol, symbol), (Side, Str(Upcase(side))), (Type, Str("TAKE_PROFIT_MARKET")),
                  (StopPrice, stopPrice), (ClosePosition, Bool(true)), (Timestamp, Int(now))]
  {
    var p: Hash := [(Symbol, symbol), (Side, Str(Upcase(side))), (Type, Str("TAKE_PROFIT_MARKET")),
                    (StopPrice, stopPrice), (ClosePosition, Bool(true))];
    assert Timestamp !in Keys(p);
    PlaceOrderAppends(p, now);
    PlaceOrder(p, now)
  }

  /** `user_trades`: the time window is added only when both ends are
      truthy; the timestamp is read by the builder and sits second. */
  method UserTrades(symbol: Value, now: int, startTime: Value := Nil, endTime: Value := Nil)
    returns (r: Hash)
    ensures Truthy(startTime) && Truthy(endTime) ==>
      r == [(Symbol, symbol), (Timestamp, Int(now)), (StartTime, startTime), (EndTime, endTime)]
    ensures !(Truthy(startTime) && Truthy(endTime)) ==>
      r == [(Symbol, symbol), (Timestamp, Int(now))]
  {
    var params := new MutableHash([(Symbol, symbol), (Timestamp, Int(now))]);
    if Truthy(startTime) && Truthy(endTime) {
      var window: Hash := [(StartTime, startTime), (EndTime, endTime)];
      assert Keys(params.entries) == [Symbol, Timestamp];
      MergeFresh(params.entries, window);
      params.MergeInPlace(window);
    }
    r := params.entries;
  }

  /** `ticker_24h`: `symbol` is included only when truthy; nothing else is
      sent. */
  method Ticker24h(symbol: Value := Nil) returns (r: Hash)
    ensures Truthy(symbol) ==> r == [(Symbol, symbol)]
    ensures !Truthy(symbol) ==> r == []
  {
    var params := new MutableHash([]);
    if Truthy(symbol) {
      var filter: Hash := [(Symbol, symbol)];
      MergeFresh(params.entries, filter);
      params.MergeInPlace(filter);
    }
    r := params.entries;
  }

  /** Parameter sorting is off (api.rb:35), so the timestamp `place_order`
      adds is the last `k=v` pair of the encoded request. */
  lemma TimestampEncodedLast(params: Hash, now: int, pair: Entry -> string)
    requires params != [] && Timestamp !in Keys(params)
    ensures Signing.Encode(PlaceOrder(params, now), pair)
            == Signing.Encode(params, pair) + "&" + pair((Timestamp, Int(now)))
  {
    PlaceOrderAppends(params, now);
    Signing.EncodeSnoc(params, (Timestamp, Int(now)), pair);
  }
}
