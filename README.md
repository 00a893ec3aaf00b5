# binance_client in Dafny

A verified model of the logic inside the Ruby gem `binance_client`, a thin
client for the Binance USDⓈ-M futures REST and WebSocket APIs. The model
covers four parts:

- **Request signing.** The `BinanceSignature` Faraday middleware signs the
  encoded query string if there is one, or otherwise the form body. It
  appends `&signature=<hex>`, where `<hex>` is the HMAC-SHA256 of that same
  string under the account secret. There are two variants. The one in
  `lib/binance_client/api.rb` leaves a request with neither part alone.
  The older one in `lib/binance_client.rb` always falls back to the body.
- **Order and query payload builders** of `BinanceClient::API`. Each
  builds a Ruby Hash, which is an insertion-ordered map. `merge` and
  `merge!` update an existing key where it stands and append a new one.
  Parameter sorting is switched off, so the Hash order is the wire order.
- **`Environment.setup!`**, the one-shot, process-wide choice of
  environment. It checks three things in a fixed order and has some
  quirks.
- **`BinanceClient::WebSocket`**. It numbers its subscribe requests with a
  per-instance counter.

Files:

| file | contents |
|---|---|
| `wrappers.dfy` | `Option`, `Outcome` |
| `ruby_values.dfy` | the values a payload carries, Ruby truthiness, ASCII `upcase`/`downcase` |
| `ruby_hash.dfy` | the insertion-ordered Hash: `Store` (`h[k] = v`), `Merge` (`merge`), `MutableHash.MergeInPlace` (`merge!`) and their laws |
| `signing.dfy` | the middleware of `api.rb`, and the signed-payload format with its inverse `Unsign` and `Verify`, which holds when the trailing signature is the HMAC of what precedes it |
| `api_orders.dfy` | `place_order` and the order and query builders of `api.rb` |
| `legacy_client.dfy` | the middleware, constructor and `place_order` of `lib/binance_client.rb` |
| `environment.dfy` | `setup!` as a pure step function `SetupStep`, a run of calls `Run`, and the stateful class that follows it |
| `websocket.dfy` | the subscribe counter and message shape |

How the model is built:

- **Inputs.** The HMAC is a function-valued parameter, `Hmac`. The
  middleware requires only that its output is lower-case hex. Clock reads
  are integer parameters. `now` is the read made by `place_order`.
  `gtdNow` is the builder's own, separate read used for `goodTillDate`.
  The parsed `data/environments.json` is a `Document` parameter.
- **Keyword defaults.** Ruby keyword defaults become Dafny default
  parameters, for example `callbackRate := Float(2.0)` and
  `reduceOnly := Bool(false)`.
- **Truthiness.** Only the truthiness of optional arguments matters, as in
  Ruby: `nil` and `false` are falsy, everything else is truthy.
- **Behaviour of the code worth knowing:**
  - The builders validate nothing; whatever they are given is sent.
  - The limit order's keys come in the order quantity, timeInForce, price.
  - `setup!` checks for a repeated call before it checks for a missing or
    disallowed name.
  - An empty name becomes the truthy symbol `:""`, so it is not allowed
    rather than missing.
  - `subscribe` checks no connection state.

## Model

| member | source | states |
|---|---|---|
| Signing.BinanceSignature.OnRequest | lib/binance_client/api.rb:15-23 | With a query, the new query is the old query plus `&signature=` plus the HMAC of the old query, and the body is untouched. Without a query but with a body, the body is signed the same way and the query stays absent. With neither, nothing changes. At most one of the two changes, and whatever changed passes `Verify`. |
| Signing.BinanceSignature.constructor | lib/binance_client/api.rb:9-13 | Stores the secret key and the HMAC unchanged. |
| Signing.BinanceSignature.Signature | lib/binance_client/api.rb:27-29 | `signature(data)` is lower-case hex, and appending it after `&signature=` yields a string that passes `Verify`. |
| Signing.Unsign | lib/binance_client/api.rb:18 | Any split it returns re-forms the input as payload + `&signature=` + signature, and that signature contains no `&`. |
| Signing.UnsignWithSignature | lib/binance_client/api.rb:17-18 | `Unsign` inverts the suffix append for every hex signature, giving back exactly the payload that was signed. |
| Signing.SignedVerifies | lib/binance_client/api.rb:16-18 | The signature is computed over the payload before the suffix is appended, so the trailing signature of the signed string is the HMAC, under the same secret, of what precedes it (`Verify`). |
| Signing.EncodeSnoc | lib/binance_client/api.rb:35 | With sorting off, appending an entry to a Hash appends its `k=v` pair to the encoding after a `&`. The encoder never reorders keys. |
| LegacyClient.LegacySignature.OnRequest | lib/binance_client.rb:14-22 | With a query, the query is signed and the body is untouched. Otherwise the body is always signed and the query stays absent. It fails exactly when both are absent, and then nothing is changed. Whatever changed passes `Verify`. |
| LegacyClient.LegacySignature.constructor | lib/binance_client.rb:8-12 | Stores the secret key and the HMAC unchanged. |
| LegacyClient.LegacySignature.Signature | lib/binance_client.rb:26-28 | `signature(data)` is lower-case hex, and appending it after `&signature=` yields a string that passes `Verify`. |
| LegacyClient.BinanceClient.constructor | lib/binance_client.rb:38-41 | Stores `api_key` and `secret_key` unchanged. |
| LegacyClient.PlaceOrder | lib/binance_client.rb:47-48 | The keys are exactly symbol, side, type, timeInForce, quantity, price, timestamp, in that order. Each carries the argument of the same name, unmodified, and timestamp carries the clock read. |
| LegacyClient.PlaceOrderUnique | lib/binance_client.rb:48 | No key of the legacy order appears twice. |
| LegacyClient.PlaceOrderLookup | lib/binance_client.rb:48 | Looking up each of the seven keys yields its argument (`side` is not upper-cased). |
| RubyValues.Upcase | lib/binance_client/api.rb:59 | Keeps the length, leaves no lower-case letter, gives the same letter ignoring case at every position, and leaves every other character unchanged. |
| RubyValues.Downcase | lib/binance_client/environment.rb:16 | Keeps the length, leaves no upper-case letter, gives the same letter ignoring case at every position, and leaves every other character unchanged. |
| RubyValues.UpcaseIdempotent | lib/binance_client/api.rb:59 | Upper-casing twice is upper-casing once. |
| RubyValues.DowncaseIgnoresCase | lib/binance_client/environment.rb:16 | Downcasing ignores the original case: `downcase(upcase(s)) == downcase(s)`. |
| RubyHash.Lookup | lib/binance_client/api.rb:55 | `hash[k]`: absent exactly when no entry carries `k`, and otherwise the value of the first entry that does. |
| RubyHash.Store | lib/binance_client/api.rb:66 | `h[k] = v` adds no entry for a key already present and exactly one for a new key. Where the entry goes and what reads back are the Store lemmas below. |
| RubyHash.StoreAt | lib/binance_client/api.rb:66 | Storing a key that is already present replaces exactly that entry, where it stands. |
| RubyHash.StoreFresh | lib/binance_client/api.rb:66 | Storing a key that is absent appends it last. |
| RubyHash.StoreKeepsKeys | lib/binance_client/api.rb:66 | Storing never moves an existing key and leaves every entry with another key untouched. |
| RubyHash.StoreKeepsUnique | lib/binance_client/api.rb:66 | Storing keeps the keys unique. |
| RubyHash.StoreLookup | lib/binance_client/api.rb:66 | After a store, the stored key reads back the new value and every other key reads back what it read before. |
| RubyHash.Merge | lib/binance_client/api.rb:55 | `p.merge(q)` stores the entries of `q` into `p` in `q`'s order, so the result has at least `|p|` and at most `|p| + |q|` entries. Its read-back, positions and uniqueness are the Merge lemmas below. |
| RubyHash.MergeLookup | lib/binance_client/api.rb:55 | After `p.merge(q)`, a key of `q` reads `q`'s value and every other key reads `p`'s value. |
| RubyHash.MergeKeepsPositions | lib/binance_client/api.rb:55 | A merge keeps every key of `p` at its position and leaves the entries whose keys `q` does not mention untouched. |
| RubyHash.MergeKeepsUnique | lib/binance_client/api.rb:55 | A merge keeps the keys unique. |
| RubyHash.MergePair | lib/binance_client/api.rb:66 | Merging a two-entry Hash stores its first entry and then its second. |
| RubyHash.MergeFresh | lib/binance_client/api.rb:106 | Merging only new keys appends them, in their own order, after the existing entries. |
| RubyHash.MutableHash.constructor | lib/binance_client/api.rb:63-65 | The local Hash starts as the literal it is given, with unique keys. |
| RubyHash.MutableHash.MergeInPlace | lib/binance_client/api.rb:66 | `merge!` leaves the Hash equal to `merge` of its old contents with the argument, and keeps the keys unique. |
| Api.PlaceOrder | lib/binance_client/api.rb:54-56 | A missing `timestamp` is appended last. An existing one keeps its position and takes the new value. Every other entry stays as it was. |
| Api.PlaceOrderAppends | lib/binance_client/api.rb:55 | For params without `timestamp`, `place_order` sends the params followed by the timestamp. |
| Api.PlaceOrderKeepsUnique | lib/binance_client/api.rb:55 | `place_order` keeps the keys unique. |
| Api.PlaceMarketOrder | lib/binance_client/api.rb:58-60 | The payload is symbol, upper-cased side, `type=MARKET`, quantity, then the timestamp. |
| Api.PlaceLimitOrder | lib/binance_client/api.rb:62-69 | Without a truthy `goodTillDate`, the payload is symbol, upper-cased side, `LIMIT`, quantity, `timeInForce=GTC`, the price as a float, then the timestamp. With one, `timeInForce` becomes `GTD` at the same position and a `goodTillDate` of the builder's clock read plus 660000 is inserted before the timestamp. The given value itself is ignored. |
| Api.GoodTillSwitchesTimeInForce | lib/binance_client/api.rb:66 | The limit order's `merge!` switches `timeInForce` to `GTD` where it stands and appends `goodTillDate`. |
| Api.SwitchFifthAppend | lib/binance_client/api.rb:66 | For a six-entry Hash, merging a new key and then the fifth entry's key replaces the fifth entry in place and appends the new key. |
| Api.PlaceTrailingStopMarketOrder | lib/binance_client/api.rb:71-82 | The payload is symbol, upper-cased side, `TRAILING_STOP_MARKET`, activationPrice, callbackRate (2.0 unless given), quantity, then the timestamp. |
| Api.PlaceStopMarketOrder | lib/binance_client/api.rb:153-160 | The payload is always `STOP_MARKET` with `closePosition=true`. With a truthy `goodTillDate`, it appends `goodTillDate` (the clock read plus 1500000) and then `timeInForce=GTD` before the timestamp. |
| Api.GoodTillAppended | lib/binance_client/api.rb:157 | The stop-market order's `merge!` appends `goodTillDate` and then `timeInForce`, in that order. |
| Api.PlaceTakeProfit | lib/binance_client/api.rb:162-164 | The payload is symbol, upper-cased side, `TAKE_PROFIT`, reduceOnly (false unless given), the price as a float, quantity, stopPrice, then the timestamp. |
| Api.PlaceTakeProfitMarket | lib/binance_client/api.rb:166-168 | The payload is symbol, upper-cased side, `TAKE_PROFIT_MARKET`, stopPrice, `closePosition=true`, then the timestamp. |
| Api.UserTrades | lib/binance_client/api.rb:104-108 | The payload is symbol followed by the timestamp. `startTime` and `endTime` are appended only when both are truthy. |
| Api.Ticker24h | lib/binance_client/api.rb:131-135 | `symbol` is the only key and is present exactly when truthy; otherwise the payload is empty. |
| Api.TimestampEncodedLast | lib/binance_client/api.rb:55 | With sorting off (api.rb:35), the encoded request of `place_order` is the encoded params followed by `&` and the timestamp pair. |
| Environment.Normalise | lib/binance_client/environment.rb:16 | `nil` stays `nil`. Any string, even the empty one, becomes a present name: the downcased input, which has the same length, no upper-case letter, and at every position the same letter ignoring case. |
| Environment.LoadConfig | lib/binance_client/environment.rb:22-31 | The struct has exactly the attributes of the chosen environment's entry, each with the entry's value, and none when the document lacks that environment. |
| Environment.SetupStep | lib/binance_client/environment.rb:15-23 | `@env` is always overwritten. With a config already set, the call fails with MultipleAssignmentNotAllowed. Otherwise a missing name fails with EnvIsMissing, and a downcased name outside `[:testnet]` fails with EnvNotAllowed. It passes exactly when none of these apply. Only a pass sets the config, to the chosen environment's entry. |
| Environment.ConfiguredStaysConfigured | lib/binance_client/environment.rb:18 | Once a config is set, every later call fails with MultipleAssignmentNotAllowed and the config never changes. |
| Environment.SetupSucceedsAtMostOnce | lib/binance_client/environment.rb:18-22 | In any sequence of calls, at most one succeeds, and every call after it fails. |
| Environment.UpperCaseNameAccepted | lib/binance_client/environment.rb:16-20 | Names are compared after downcasing, so `"TESTNET"` and `"TestNet"` are accepted on a first call. |
| Environment.EmptyNameNotAllowed | lib/binance_client/environment.rb:16-20 | The empty name becomes the truthy symbol `:""`, so it fails with EnvNotAllowed, not EnvIsMissing. |
| Environment.Environment.constructor | lib/binance_client/environment.rb:13 | Neither `@env` nor `@config` is set at first. |
| Environment.Environment.Setup | lib/binance_client/environment.rb:15-23 | The new `@env`, the new `@config` and the outcome are exactly `SetupStep`'s. A failing call leaves `@config` unchanged. |
| WebSocket.Dispatch | lib/binance_client/websocket.rb:11-21 | The handler yields a result exactly when a callback was given, and that result is the callback's. A missing callback does nothing. |
| WebSocket.WebSocket.Handle | lib/binance_client/websocket.rb:11-21 | The open, message and close handlers each yield a result exactly when their own callback was given, and that result is the callback applied to the event. |
| WebSocket.NumberedIdsIncrease | lib/binance_client/websocket.rb:42-44 | Ids numbered 1, 2, 3, … strictly increase, so none is reused. |
| WebSocket.WebSocket.constructor | lib/binance_client/websocket.rb:6-9 | The counter starts at 0, nothing has been sent, and the callbacks are stored as given. |
| WebSocket.WebSocket.RequestId | lib/binance_client/websocket.rb:42-44 | Increments the counter by exactly 1 and yields the new value. |
| WebSocket.WebSocket.Subscribe | lib/binance_client/websocket.rb:34-40 | The message is `SUBSCRIBE` with the streams passed through unchanged and id equal to the old counter plus 1. The counter goes up by one. The message joins the sent history, which stays numbered 1, 2, 3, … |
| WebSocket.WebSocket.UserStreams | lib/binance_client/websocket.rb:24-26 | Behaves exactly as `Subscribe` with the listen keys. |
| WebSocket.WebSocket.SubscribeKlines | lib/binance_client/websocket.rb:28-30 | Subscribes with the single string `btcusdt@kline_1m` as params. |
| WebSocket.ThreeSubscribes | lib/binance_client/websocket.rb:9 | Three subscribes on a new client carry the ids 1, 2 and 3. |

## Left out

- HMAC-SHA256 and hex encoding (`OpenSSL::HMAC.hexdigest`) are a foreign call. The HMAC is a parameter, and only its lower-case-hex output is required.
- The Faraday plumbing is library I/O: the connection, headers, the URL-encoding and JSON middleware, the logger and the HTTP verbs. The encoded query or body is a given string. `Encode` shows the `k=v` joining in insertion order, but escaping is left to its `pair` parameter.
- `DateTime.now` is a clock read, passed in as `now` and `gtdNow`.
- `price.to_s.to_f` is float conversion, kept symbolic as `AsFloat(price)`.
- `side.to_s` rendering of symbols is not modelled: `side` is taken as a string. Case mapping covers ASCII letters only.
- Reading and parsing `data/environments.json` is file I/O and JSON. The parsed document is a parameter, and `OpenStruct` is a map of fields.
- The Faye connection, its ping interval, the event loop and `send` are network and concurrency. `to_json` is not modelled either: the message is kept as a record, and what would be sent is recorded in a ghost history.
- The other endpoint wrappers of `api.rb` (`orders`, `open_orders`, `fetch_balance`, `update_leverage`, the listen-key and download calls, `order_amendment`, `update_margin_type`, `position_risk`, `candlesticks`, `cancel_open_orders`) and `orders` in `lib/binance_client.rb` do only thin argument mapping into a hash literal, which is not modelled. For instance, `update_margin_type` upper-cases `margin_type` (api.rb:138), and `candlesticks` defaults `limit` to 1000 and always sends `startTime` and `endTime`, even when they are nil (api.rb:145-146).
- The `API` constructor (api.rb:40-44) defaults `config` to `Environment.config` and stores its arguments, which is I/O-free but has no logic to verify. `lib/binance_client/websocket_coin.rb` is left out: it only concatenates a URL and hands it to the WebSocket library, and its counter is never used.
- `Signing.Verify` checks one string. Binance computes the signature over the query string and the body concatenated, so for a request carrying both the two differ. The middleware signs only one of them, and that one string is what `Verify` checks.
