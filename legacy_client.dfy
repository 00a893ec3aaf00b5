/**
  The older client of lib/binance_client.rb: a `BinanceSignature`
  middleware without the skip branch, and a `place_order` of fixed shape.
 */
module LegacyClient {
  import opened Wrappers
  import opened RubyValues
  import opened RubyHash
  import opened Signing

  /** The `TypeError` raised when the HMAC is asked to digest a missing body. */
  datatype SigningError = DataIsNil

  /** `FaradayMiddleware::BinanceSignature` of lib/binance_client.rb. */
  class LegacySignature {
    const secretKey: string
    const hmac: Hmac

    ghost predicate Valid() {
      HexValued(hmac)
    }

    constructor (secretKey: string, hmac: Hmac)
      requires HexValued(hmac)
      ensures Valid() && this.secretKey == secretKey && this.hmac == hmac
    {
      this.secretKey := secretKey;
      this.hmac := hmac;
    }

    /** `signature(data)`: the hex HMAC of `data` under the secret key. */
    function Signature(data: string): (sig: string)
      requires Valid()
      ensures IsHex(sig)
      ensures Verify(hmac, secretKey, WithSignature(data, sig))
    {
      SignedVerifies(hmac, secretKey, data);
      hmac(secretKey, data)
    }

    /** `on_request`: signs the query if there is one and otherwise always
        the body; with neither, the digest of the missing body raises
        before anything is written. */
    method OnRequest(env: RequestEnv) returns (r: Outcome<SigningError>)
      requires Valid()
      modifies env
      ensures r.Fail? <==> old(env.query).None? && old(env.body).None?
      ensures r.Fail? ==> env.query == old(env.query) && env.body == old(env.body)
      ensures old(env.query).Some? ==>
        env.query == Some(WithSignature(old(env.query).value, hmac(secretKey, old(env.query).value)))
        && env.body == old(env.body)
      ensures old(env.query).None? && old(env.body).Some? ==>
        env.body == Some(WithSignature(old(env.body).value, hmac(secretKey, old(env.body).value)))
        && env.query == None
      ensures env.query != old(env.query) ==> env.query.Some? && Verify(hmac, secretKey, env.query.value)
      ensures env.body != old(env.body) ==> env.body.Some? && Verify(hmac, secretKey, env.body.value)
    {
      if env.query.Some? {
        var q := env.query.value;
        var signature := Signature(q);
        env.query := Some(q + "&signature=" + signature);
        r := Pass;
      } else {
        if env.body.None? {
          return Fail(DataIsNil);
        }
        var b := env.body.value;
        var signature := Signature(b);
        env.body := Some(b + "&signature=" + signature);
        r := Pass;
      }
    }
  }

  /** `BinanceClient`: holds the account credentials. */
  class BinanceClient {
    const apiKey: string
    const secretKey: string

    constructor (apiKey: string, secretKey: string)
      ensures this.apiKey == apiKey && this.secretKey == secretKey
    {
      this.apiKey := apiKey;
      this.secretKey := secretKey;
    }
  }

  /** `place_order`: exactly these seven keys in this order, each carrying
      the argument of the same name as given (`side` is not upper-cased
      here). */
  function PlaceOrder(symbol: Value, side: Value, orderType: Value, timeInForce: Value,
                      quantity: Value, price: Value, now: int): (r: Hash)
    ensures Keys(r) == [Symbol, Side, Type, TimeInForce, Quantity, Price, Timestamp]
    ensures forall i :: 0 <= i < |r| ==>
      r[i].1 == [symbol, side, orderType, timeInForce, quantity, price, Int(now)][i]
  {
    [(Symbol, symbol), (Side, side), (Type, orderType), (TimeInForce, timeInForce),
     (Quantity, quantity), (Price, price), (Timestamp, Int(now))]
  }

  /** The keys of the legacy order are unique. */
  lemma PlaceOrderUnique(symbol: Value, side: Value, orderType: Value, timeInForce: Value,
                         quantity: Value, price: Value, now: int)
    ensures UniqueKeys(PlaceOrder(symbol, side, orderType, timeInForce, quantity, price, now))
  {
    var r := PlaceOrder(symbol, side, orderType, timeInForce, quantity, price, now);
    assert forall i :: 0 <= i < |r| ==> r[i].0 == Keys(r)[i];
  }

  /** Read back, each key of the legacy order yields its argument. */
  lemma PlaceOrderLookup(symbol: Value, side: Value, orderType: Value, timeInForce: Value,
                         quantity: Value, price: Value, now: int)
    ensures var r := PlaceOrder(symbol, side, orderType, timeInForce, quantity, price, now);
      Lookup(r, Symbol) == Some(symbol) && Lookup(r, Side) == Some(side)
      && Lookup(r, Type) == Some(orderType) && Lookup(r, TimeInForce) == Some(timeInForce)
      && Lookup(r, Quantity) == Some(quantity) && Lookup(r, Price) == Some(price)
      && Lookup(r, Timestamp) == Some(Int(now))
  {
    var r := PlaceOrder(symbol, side, orderType, timeInForce, quantity, price, now);
    PlaceOrderUnique(symbol, side, orderType, timeInForce, quantity, price, now);
    assert r[0].0 == Symbol && r[1].0 == Side && r[2].0 == Type && r[3].0 == TimeInForce;
    assert r[4].0 == Quantity && r[5].0 == Price && r[6].0 == Timestamp;
    LookupAt(r, 0); LookupAt(r, 1); LookupAt(r, 2); LookupAt(r, 3);
    LookupAt(r, 4); LookupAt(r, 5); LookupAt(r, 6);
  }
}
