/** Whole runs over fresh objects: what is written, registered and emitted
    when the two halves are used as the library intends. A server channel is
    built directly here with the id and name of the client's channel, since
    the server code that creates it on SUBSCRIBE is not part of this model. */
module Scenarios {
  import opened Wire
  import opened Host
  import Client
  import Server

  /** A fresh client connection with one channel `"ann"` made at clock
      reading `now`, before the connection opens. */
  method OneChannel(now: nat, escape: string -> string)
    returns (primus: Spark, loop: EventLoop, mp: Client.Multiplex, ann: Client.Channel)
    ensures fresh(primus) && fresh(loop) && fresh(mp) && fresh(mp.registry)
    ensures mp.spark == primus && mp.loop == loop && mp.escape == escape
    ensures ann.spark == primus && ann.loop == loop && ann.registry == mp.registry
    ensures ann.id == UuidOf(now, 0) && ann.name == escape("ann")
    ensures mp.registry.channels == map[ann.id := ann.name]
    ensures primus.outbox == [] && primus.writeResult
    ensures primus.openListeners == [Address(ann.id, ann.name)]
    ensures loop.events == [] && loop.deferred == []
  {
    primus := new Spark(true);
    loop := new EventLoop();
    mp := new Client.Multiplex(primus, loop, escape);
    ann := mp.CreateChannel("ann", now);
  }

  /** A fresh server spark whose registry holds `id`, and the server channel
      for it. */
  method Mirror(id: string, name: string) returns (spark: Spark, loop: EventLoop, ch: Server.Channel)
    ensures fresh(spark) && fresh(loop) && fresh(ch.registry)
    ensures ch.spark == spark && ch.loop == loop && ch.id == id && ch.name == name
    ensures ch.registry.channels == map[id := name]
    ensures spark.outbox == [] && spark.writeResult
    ensures loop.events == [] && loop.deferred == []
  {
    spark := new Spark(true);
    loop := new EventLoop();
    var mirrors := new Registry();
    mirrors.channels := map[id := name];
    spark.channels := mirrors;
    ch := new Server.Channel(spark, id, name, loop);
  }

  /** A client channel writes nothing before the connection opens and
      exactly its one SUBSCRIBE frame when it does. */
  method SubscribeOnOpen(now: nat, escape: string -> string)
    returns (id: string, beforeOpen: seq<Packet>, afterOpen: seq<Packet>)
    ensures id == UuidOf(now, 0)
    ensures beforeOpen == []
    ensures afterOpen == [Encode(SUBSCRIBE, id, escape("ann"), None)]
  {
    var primus, loop, mp, ann := OneChannel(now, escape);
    id := ann.id;
    beforeOpen := primus.outbox;
    assert primus.openListeners == [Address(id, escape("ann"))];
    primus.Open();
    afterOpen := primus.outbox;
    assert primus.openListeners[0] == Address(id, escape("ann"));
    assert afterOpen == [afterOpen[0]];
  }

  /** Two client channels get different ids even when the clock reads the same. */
  method TwoChannels(now: nat, escape: string -> string) returns (first: string, second: string, registered: set<string>)
    ensures first != second
    ensures registered == {first, second}
  {
    var primus := new Spark(true);
    var loop := new EventLoop();
    var mp := new Client.Multiplex(primus, loop, escape);
    var a := mp.CreateChannel("ann", now);
    var b := mp.CreateChannel("bob", now);
    first, second := a.id, b.id;
    registered := mp.registry.channels.Keys;
  }

  /** Ending a client channel twice writes one UNSUBSCRIBE, removes it at
      once and emits `close` once, only on the next tick. */
  method ClientEndTwice(now: nat, escape: string -> string)
    returns (id: string, written: seq<Packet>, registered: bool, eventsAfterEnd: seq<Event>, eventsAfterTicks: seq<Event>)
    ensures written == [Encode(UNSUBSCRIBE, id, escape("ann"), None)]
    ensures !registered
    ensures eventsAfterEnd == []
    ensures eventsAfterTicks == [CloseEvent(id)]
  {
    var primus, loop, mp, ann := OneChannel(now, escape);
    id := ann.id;
    ann.End();
    ann.End();
    written := primus.outbox;
    registered := id in mp.registry.channels;
    eventsAfterEnd := loop.events;
    var _ := loop.Tick();
    var _ := loop.Tick();
    eventsAfterTicks := loop.events;
  }

  /** A server channel ended twice with closing data and a callback writes the
      data each time but one UNSUBSCRIBE, and `close` then the callback run
      once. */
  method ServerEndTwice(id: string, name: string, d: Elem, tag: nat)
    returns (written: seq<Packet>, eventsAfterEnd: seq<Event>, eventsAfterTicks: seq<Event>)
    requires Truthy(Some(d))
    ensures written == [Encode(MESSAGE, id, name, Some(d)), Encode(UNSUBSCRIBE, id, name, None), Encode(MESSAGE, id, name, Some(d))]
    ensures eventsAfterEnd == []
    ensures eventsAfterTicks == [CloseEvent(id), CallbackRan(tag)]
  {
    var spark, loop, ch := Mirror(id, name);
    ch.End(Server.Value(d), Server.Function(UserCallback(tag)));
    ch.End(Server.Value(d), Server.Function(UserCallback(tag)));
    written := spark.outbox;
    eventsAfterEnd := loop.events;
    var _ := loop.Tick();
    var _ := loop.Tick();
    eventsAfterTicks := loop.events;
  }

  /** A function passed as the only argument of `end` is the callback: no
      MESSAGE is written. */
  method ServerEndWithCallbackOnly(id: string, name: string, tag: nat)
    returns (written: seq<Packet>, events: seq<Event>)
    ensures written == [Encode(UNSUBSCRIBE, id, name, None)]
    ensures events == [CloseEvent(id), CallbackRan(tag)]
  {
    var spark, loop, ch := Mirror(id, name);
    ch.End(Server.Function(UserCallback(tag)), Server.Missing);
    written := spark.outbox;
    var _ := loop.Tick();
    events := loop.events;
  }

  /** `destroy` closes the channel and then removes its listeners, once. */
  method ServerDestroyTwice(id: string, name: string)
    returns (written: seq<Packet>, events: seq<Event>)
    ensures written == [Encode(UNSUBSCRIBE, id, name, None)]
    ensures events == [CloseEvent(id), ListenersRemoved(id)]
  {
    var spark, loop, ch := Mirror(id, name);
    ch.Destroy();
    ch.Destroy();
    written := spark.outbox;
    var _ := loop.Tick();
    var _ := loop.Tick();
    events := loop.events;
  }

  /** A string the server writes on a channel reaches the client's channel
      of the same id as one `data` event, and is not passed to the host. */
  method MessageAcrossConnection(now: nat, escape: string -> string, s: string)
    returns (id: string, sent: bool, passed: bool, events: seq<Event>)
    requires s != ""
    ensures sent
    ensures !passed
    ensures events == [DataEvent(id, s)]
  {
    var primus, clientLoop, mp, ann := OneChannel(now, escape);
    id := ann.id;

    var spark, serverLoop, mirror := Mirror(ann.id, ann.name);
    sent := mirror.Write(Some(Str(s)));

    var inbound := new Inbound(Array(spark.outbox[0]));
    Client.MessageRoundTrip(mp.registry.channels, id, ann.name, Str(s));
    passed := mp.Incoming(inbound);
    events := clientLoop.events;
  }

  /** When the server ends a channel, the client's channel is removed and
      emits `close` at once; a later MESSAGE for it is dropped without any
      event and is not passed to the host. */
  method CloseAcrossConnection(now: nat, escape: string -> string, s: string)
    returns (id: string, registered: bool, eventsAfterClose: seq<Event>, passedLate: bool, eventsAfterLate: seq<Event>)
    ensures !registered
    ensures eventsAfterClose == [CloseEvent(id)]
    ensures !passedLate
    ensures eventsAfterLate == [CloseEvent(id)]
  {
    var primus, clientLoop, mp, ann := OneChannel(now, escape);
    id := ann.id;

    var spark, serverLoop, mirror := Mirror(ann.id, ann.name);
    mirror.End(Server.Missing, Server.Missing);

    var closing := new Inbound(Array(spark.outbox[0]));
    Client.UnsubscribeRoundTrip(mp.registry.channels, id, ann.name);
    var _ := mp.Incoming(closing);
    assert mp.registry.channels == map[] && clientLoop.events == [CloseEvent(id)];
    registered := id in mp.registry.channels;
    eventsAfterClose := clientLoop.events;

    var frame := Encode(MESSAGE, id, ann.name, Some(Str(s)));
    assert Key(Client.At(frame, 1)) == id;
    var late := new Inbound(Array(frame));
    Client.UnknownIdIgnored(mp.registry.channels, frame);
    passedLate := mp.Incoming(late);
    eventsAfterLate := clientLoop.events;
  }

  /** The `open` listener stays bound after `end`: a channel ended before the
      connection opens still writes its SUBSCRIBE frame when it does. */
  method EndedBeforeOpen(now: nat, escape: string -> string)
    returns (id: string, written: seq<Packet>)
    ensures written == [Encode(UNSUBSCRIBE, id, escape("ann"), None), Encode(SUBSCRIBE, id, escape("ann"), None)]
  {
    var primus, loop, mp, ann := OneChannel(now, escape);
    id := ann.id;
    ann.End();
    primus.Open();
    written := primus.outbox;
    assert primus.openListeners[0] == Address(id, escape("ann"));
    assert written == [written[0], written[1]];
  }

  /** Only later `open` events reach a listener: a channel made after the
      connection opened writes nothing until the next `open`. */
  method MadeAfterOpen(now: nat, escape: string -> string)
    returns (id: string, afterCreate: seq<Packet>, afterReopen: seq<Packet>)
    ensures afterCreate == []
    ensures afterReopen == [Encode(SUBSCRIBE, id, escape("ann"), None)]
  {
    var primus := new Spark(true);
    var loop := new EventLoop();
    var mp := new Client.Multiplex(primus, loop, escape);
    primus.Open();
    var ann := mp.CreateChannel("ann", now);
    id := ann.id;
    afterCreate := primus.outbox;
    primus.Open();
    afterReopen := primus.outbox;
    assert primus.openListeners[0] == Address(id, escape("ann"));
    assert afterReopen == [afterReopen[0]];
  }

  /** A payload that is not an array passes through to the host untouched. */
  method HostTrafficPasses(escape: string -> string, v: Elem)
    returns (passed: bool, after: Payload, events: seq<Event>)
    ensures passed
    ensures after == NonArray(v)
    ensures events == []
  {
    var primus := new Spark(true);
    var loop := new EventLoop();
    var mp := new Client.Multiplex(primus, loop, escape);
    var inbound := new Inbound(NonArray(v));
    passed := mp.Incoming(inbound);
    after := inbound.data;
    events := loop.events;
  }
}
