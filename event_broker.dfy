/** The in-process broker (src/lib/broker/event.ts): every `EventBroker` talks to
    one module-level `EventEmitter`, modelled as one `Emitter` object that each
    broker holds. A callback is named by an id; publishing returns the calls the
    emitter makes, in order. */
module EventBroker {
  import opened Common

  type CallbackId = nat

  /** A payload as the callbacks receive it. */
  type Payload = Option<string>

  /** One call of a subscribed callback. */
  datatype Call = Call(callback: CallbackId, payload: Payload)

  /** The message `emit('error')` throws when nothing listens to `'error'`. */
  const UNHANDLED_ERROR := "Unhandled error."

  /** The callbacks subscribed to a topic, in subscription order. */
  function Listeners(table: map<string, seq<CallbackId>>, topic: string): seq<CallbackId> {
    if topic in table then table[topic] else []
  }

  /** What `emit(topic, payload)` does with a listener table: every listener is
      called once per subscription, in order, with the payload; an `'error'`
      nobody listens to is thrown. */
  function Emission(table: map<string, seq<CallbackId>>, topic: string, payload: Payload): (r: Result<seq<Call>>)
    ensures r.Err? <==> topic == "error" && Listeners(table, topic) == []
    ensures r.Ok? ==> (|r.value| == |Listeners(table, topic)|
      && forall k :: 0 <= k < |r.value| ==> r.value[k] == Call(Listeners(table, topic)[k], payload))
  {
    var ls := Listeners(table, topic);
    if topic == "error" && ls == [] then Err(UNHANDLED_ERROR)
    else Ok(seq(|ls|, k requires 0 <= k < |ls| => Call(ls[k], payload)))
  }

  /** The Node.js `EventEmitter`, reduced to its listener table. */
  class Emitter {
    var listeners: map<string, seq<CallbackId>>

    constructor()
      ensures listeners == map[]
    {
      listeners := map[];
    }

    /** `on(topic, callback)`: the callback is appended to the topic's list. */
    method On(topic: string, callback: CallbackId)
      modifies this
      ensures listeners == old(listeners)[topic := Listeners(old(listeners), topic) + [callback]]
    {
      listeners := listeners[topic := Listeners(listeners, topic) + [callback]];
    }

    /** `emit(topic, payload)`: call the topic's listeners one by one. */
    method Emit(topic: string, payload: Payload) returns (r: Result<seq<Call>>)
      ensures r == Emission(listeners, topic, payload)
    {
      var ls := Listeners(listeners, topic);
      if topic == "error" && ls == [] {
        return Err(UNHANDLED_ERROR);
      }
      var calls: seq<Call> := [];
      for k := 0 to |ls|
        invariant |calls| == k
        invariant forall j :: 0 <= j < k ==> calls[j] == Call(ls[j], payload)
      {
        calls := calls + [Call(ls[k], payload)];
      }
      assert calls == Emission(listeners, topic, payload).value;
      r := Ok(calls);
    }
  }

  class EventBroker {
    /** The emitter shared by every broker in the process. */
    const event: Emitter

    constructor(event: Emitter)
      ensures this.event == event
    {
      this.event := event;
    }

    /** `publish(topic, payload)` */
    method Publish(topic: string, payload: Payload) returns (r: Result<seq<Call>>)
      ensures r == Emission(event.listeners, topic, payload)
    {
      r := event.Emit(topic, payload);
    }

    /** `subscribe(topic, callback)`: only that topic's list changes. */
    method Subscribe(topic: string, callback: CallbackId)
      modifies event
      ensures Listeners(event.listeners, topic) == Listeners(old(event.listeners), topic) + [callback]
      ensures forall t :: t != topic ==> Listeners(event.listeners, t) == Listeners(old(event.listeners), t)
    {
      event.On(topic, callback);
    }
  }

  /** Publishing to a topic other than `'error'` that has no subscribers calls
      nothing and succeeds. */
  lemma NoSubscribers(table: map<string, seq<CallbackId>>, topic: string, payload: Payload)
    requires topic != "error" && Listeners(table, topic) == []
    ensures Emission(table, topic, payload) == Ok([])
  {
  }

  /** A subscription made through one broker receives what another publishes, and
      a callback subscribed twice runs twice. */
  method SharedEmitter(payload: Payload) returns (r: Result<seq<Call>>)
    ensures r == Ok([Call(7, payload), Call(7, payload)])
  {
    var event := new Emitter();
    var a := new EventBroker(event);
    var b := new EventBroker(event);
    a.Subscribe("topic", 7);
    a.Subscribe("topic", 7);
    assert Listeners(event.listeners, "topic") == [7, 7];
    r := b.Publish("topic", payload);
    assert r.value == [Call(7, payload), Call(7, payload)];
  }
}
