/**
  Request signing as done by the `BinanceSignature` Faraday middleware of
  lib/binance_client/api.rb: the already-encoded query string, or failing
  that the encoded body, gets `&signature=<hex>` appended, where `<hex>` is
  the HMAC-SHA256 of that same string under the account secret.
 */
module Signing {
  import opened Wrappers
  import opened RubyValues
  import opened RubyHash

  /** `OpenSSL::HMAC.hexdigest("SHA256", key, data)`, taken as a parameter:
      the digest itself is not modelled. */
  type Hmac = (string, string) -> string

  const SignatureSeparator: string := "&signature="

  predicate IsHex(s: string) {
    forall i :: 0 <= i < |s| ==> s[i] in "0123456789abcdef"
  }

  /** `hexdigest` only ever yields lower-case hexadecimal digits. */
  ghost predicate HexValued(hmac: Hmac) {
    forall key, data :: IsHex(hmac(key, data))
  }

  /** The payload after `+= "&signature=#{sig}"`. */
  function WithSignature(payload: string, sig: string): string {
    payload + SignatureSeparator + sig
  }

  /** The position of the last `&` in `s`, if any. */
  function LastAmpersand(s: string): (r: Option<nat>)
    ensures r.Some? ==> r.value < |s| && s[r.value] == '&' && forall j :: r.value < j < |s| ==> s[j] != '&'
    ensures r.None? ==> forall j :: 0 <= j < |s| ==> s[j] != '&'
    decreases |s|
  {
    if s == [] then None
    else if s[|s| - 1] == '&' then Some(|s| - 1)
    else LastAmpersand(s[..|s| - 1])
  }

  /** Splits a signed payload into the payload and the signature it carries:
      the inverse of `WithSignature`. */
  function Unsign(s: string): (r: Option<(string, string)>)
    ensures r.Some? ==> s == WithSignature(r.value.0, r.value.1)
    ensures r.Some? ==> forall j :: 0 <= j < |r.value.1| ==> r.value.1[j] != '&'
  {
    match LastAmpersand(s)
    case None => None
    case Some(i) =>
      if SignatureSeparator <= s[i..] then
        var n := |SignatureSeparator|;
        assert s[i..i + n] == SignatureSeparator;
        assert s == s[..i] + s[i..i + n] + s[i + n..];
        Some((s[..i], s[i + n..]))
      else None
  }

  /** A signature in hexadecimal can always be split off again, and what is
      left is exactly the payload that was signed. */
  lemma UnsignWithSignature(payload: string, sig: string)
    requires IsHex(sig)
    ensures Unsign(WithSignature(payload, sig)) == Some((payload, sig))
  {
    var s := WithSignature(payload, sig);
    var n := |SignatureSeparator|;
    assert s[|payload|] == '&';
    forall j | |payload| < j < |s|
      ensures s[j] != '&'
    {
      if j < |payload| + n {
        assert s[j] == SignatureSeparator[j - |payload|];
      } else {
        assert s[j] == sig[j - |payload| - n];
      }
    }
    assert LastAmpersand(s) == Some(|payload|);
    assert s[|payload|..] == SignatureSeparator + sig;
    assert s[..|payload|] == payload;
    assert s[|payload| + n..] == sig;
  }

  /** The trailing signature is the HMAC of everything before it. (The
      exchange signs the query and the body together; this looks at one
      string, which is what the middleware signs.) */
  predicate Verify(hmac: Hmac, secret: string, s: string) {
    match Unsign(s)
    case None => false
    case Some((payload, sig)) => sig == hmac(secret, payload)
  }

  /** A payload signed under a secret passes `Verify` under that same
      secret. */
  lemma SignedVerifies(hmac: Hmac, secret: string, payload: string)
    requires IsHex(hmac(secret, payload))
    ensures Verify(hmac, secret, WithSignature(payload, hmac(secret, payload)))
  {
    UnsignWithSignature(payload, hmac(secret, payload));
  }

  /** The url-encoded form of a parameter Hash: its `k=v` pairs joined by
      `&` in insertion order. `pair` renders and escapes one entry. */
  function Encode(p: Hash, pair: Entry -> string): string
    decreases |p|
  {
    if |p| == 0 then ""
    else if |p| == 1 then pair(p[0])
    else pair(p[0]) + "&" + Encode(p[1..], pair)
  }

  /** Appending an entry to a Hash appends its pair to the encoding: the
      encoder never reorders keys. */
  lemma {:induction false} EncodeSnoc(p: Hash, e: Entry, pair: Entry -> string)
    requires p != []
    ensures Encode(p + [e], pair) == Encode(p, pair) + "&" + pair(e)
    decreases |p|
  {
    assert (p + [e])[1..] == p[1..] + [e];
    if |p| > 1 {
      EncodeSnoc(p[1..], e, pair);
    }
  }

  /** The request fields the middleware touches: `env.url.query` and
      `env.request_body`, each possibly absent. */
  class RequestEnv {
    var query: Option<string>
    var body: Option<string>

    constructor (query: Option<string>, body: Option<string>)
      ensures this.query == query && this.body == body
    {
      this.query := query;
      this.body := body;
    }
  }

  /** `FaradayMiddleware::BinanceSignature` of lib/binance_client/api.rb. */
  class BinanceSignature {
    const secretKey: string
    const hmac: Hmac

    ghost predicate Valid() {
      HexValued(hmac)
    }

    constructor (secretKey: string, hmac: Hmac)
      requires HexValued(hmac)
      ensures Valid() && this.secretKey == secretKey && this.hmac == hmac
    {
      this.secretKey := secretKey;
      this.hmac := hmac;
    }

    /** `signature(data)`: the hex HMAC of `data` under the secret key. */
    function Signature(data: string): (sig: string)
      requires Valid()
      ensures IsHex(sig)
      ensures Verify(hmac, secretKey, WithSignature(data, sig))
    {
      SignedVerifies(hmac, secretKey, data);
      hmac(secretKey, data)
    }

    /** `on_request`: signs the query if there is one, else the body if
        there is one, else leaves the request alone. */
    method OnRequest(env: RequestEnv)
      requires Valid()
      modifies env
      ensures old(env.query).Some? ==>
        env.query == Some(WithSignature(old(env.query).value, hmac(secretKey, old(env.query).value)))
        && env.body == old(env.body)
      ensures old(env.query).None? && old(env.body).Some? ==>
        env.body == Some(WithSignature(old(env.body).value, hmac(secretKey, old(env.body).value)))
        && env.query == None
      ensures old(env.query).None? && old(env.body).None? ==> env.query == None && env.body == None
      ensures env.query != old(env.query) ==> env.body == old(env.body)
      ensures env.query != old(env.query) ==> env.query.Some? && Verify(hmac, secretKey, env.query.value)
      ensures env.body != old(env.body) ==> env.body.Some? && Verify(hmac, secretKey, env.body.value)
    {
      if env.query.Some? {
        var q := env.query.value;
        var signature := Signature(q);
        env.query := Some(q + "&signature=" + signature);
      } else if env.body.Some? {
        var b := env.body.value;
        var signature := Signature(b);
        env.body := Some(b + "&signature=" + signature);
      }
    }
  }
}
