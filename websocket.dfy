/**
  `BinanceClient::WebSocket` (lib/binance_client/websocket.rb): a stream
  client that numbers its subscribe requests with a per-instance counter.
  The socket itself is not modelled; what `subscribe` hands to `send` is
  recorded in the ghost history `sent`.
 */
module WebSocket {
  import opened Wrappers

  /** The `params` of a subscribe message: whatever the caller passed, a
      single stream name or a list of them. */
  datatype Streams = Single(name: string) | List(names: seq<string>)

  /** `{method: "SUBSCRIBE", params: streams, id: n}` before `to_json`. */
  datatype Message = Message(command: string, params: Streams, id: int)

  const KlineStream: string := "btcusdt@kline_1m"

  /** `callback&.call(event)`: a missing callback does nothing. */
  function Dispatch<E, R>(callback: Option<E -> R>, event: E): (r: Option<R>)
    ensures r.Some? <==> callback.Some?
    ensures callback.Some? ==> r.value == callback.value(event)
  {
    match callback
    case None => None
    case Some(f) => Some(f(event))
  }

  /** The socket events the client registers handlers for. */
  datatype EventKind = Open | MessageReceived | Close

  /** Subscribe ids numbered 1, 2, 3, ... in the order sent. */
  ghost predicate Numbered(ms: seq<Message>) {
    forall i :: 0 <= i < |ms| ==> ms[i].id == i + 1
  }

  /** Numbered ids strictly increase, so none is ever reused. */
  lemma NumberedIdsIncrease(ms: seq<Message>)
    requires Numbered(ms)
    ensures forall i, j :: 0 <= i < j < |ms| ==> ms[i].id < ms[j].id
  {
  }

  class WebSocket<E, R> {
    const url: string
    const onOpen: Option<E -> R>
    const onClose: Option<E -> R>
    const onMessage: Option<E -> R>
    var requestIdInc: int
    ghost var sent: seq<Message>

    ghost predicate Valid()
      reads this
    {
      requestIdInc == |sent| && Numbered(sent)
    }

    /** `initialize`: the counter starts at 0. `url` is the configuration's
        `stream_url`. */
    constructor (url: string, onOpen: Option<E -> R>, onClose: Option<E -> R>, onMessage: Option<E -> R>)
      ensures Valid() && requestIdInc == 0 && sent == []
      ensures this.url == url && this.onOpen == onOpen && this.onClose == onClose && this.onMessage == onMessage
    {
      this.url := url;
      this.onOpen := onOpen;
      this.onClose := onClose;
      this.onMessage := onMessage;
      requestIdInc := 0;
      sent := [];
    }

    /** The handler registered for each event: the matching callback, if
        one was given. */
    function Handle(kind: EventKind, event: E): (r: Option<R>)
      ensures kind == Open ==> (r.Some? <==> onOpen.Some?) && (r.Some? ==> r.value == onOpen.value(event))
      ensures kind == MessageReceived ==>
        (r.Some? <==> onMessage.Some?) && (r.Some? ==> r.value == onMessage.value(event))
      ensures kind == Close ==> (r.Some? <==> onClose.Some?) && (r.Some? ==> r.value == onClose.value(event))
    {
      match kind
      case Open => Dispatch(onOpen, event)
      case MessageReceived => Dispatch(onMessage, event)
      case Close => Dispatch(onClose, event)
    }

    /** `request_id`: increments the counter and yields its new value. */
    method RequestId() returns (id: int)
      modifies this
      ensures requestIdInc == old(requestIdInc) + 1 && id == requestIdInc
      ensures sent == old(sent)
    {
      requestIdInc := requestIdInc + 1;
      id := requestIdInc;
    }

    /** `subscribe(streams)`: the id is taken while the message is built,
        before `send`, so it is used up whatever `send` does. */
    method Subscribe(streams: Streams) returns (msg: Message)
      requires Valid()
      modifies this
      ensures Valid()
      ensures msg == Message("SUBSCRIBE", streams, old(requestIdInc) + 1)
      ensures requestIdInc == old(requestIdInc) + 1 && sent == old(sent) + [msg]
    {
      var id := RequestId();
      msg := Message("SUBSCRIBE", streams, id);
      sent := sent + [msg];
    }

    /** `user_streams(listen_keys)`: a plain subscribe. */
    method UserStreams(listenKeys: Streams) returns (msg: Message)
      requires Valid()
      modifies this
      ensures Valid()
      ensures msg == Message("SUBSCRIBE", listenKeys, old(requestIdInc) + 1)
      ensures requestIdInc == old(requestIdInc) + 1 && sent == old(sent) + [msg]
    {
      msg := Subscribe(listenKeys);
    }

    /** `candleshit`: subscribes to the one-minute BTCUSDT kline stream,
        passed as a single string. */
    method SubscribeKlines() returns (msg: Message)
      requires Valid()
      modifies this
      ensures Valid()
      ensures msg == Message("SUBSCRIBE", Single(KlineStream), old(requestIdInc) + 1)
      ensures requestIdInc == old(requestIdInc) + 1 && sent == old(sent) + [msg]
    {
      msg := Subscribe(Single(KlineStream));
    }
  }

  /** Three subscribes on a new client carry the ids 1, 2 and 3. */
  method ThreeSubscribes<E, R>(url: string, a: Streams, b: Streams, c: Streams) returns (ids: seq<int>)
    ensures ids == [1, 2, 3]
  {
    var ws := new WebSocket<E, R>(url, None, None, None);
    var m1 := ws.Subscribe(a);
    var m2 := ws.UserStreams(b);
    var m3 := ws.SubscribeKlines();
    ids := [m1.id, m2.id, m3.id];
  }
}
