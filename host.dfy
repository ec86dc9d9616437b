/** What the multiplexer uses of its surroundings: the shared `channels`
    dictionary, the host connection object (its `write`, its `open` listeners
    and its `channels` slot), the inbound packet object whose `data` the
    client's hook inspects, and the events and `process.nextTick` queue of the
    JavaScript runtime. */
module Host {
  import opened Wire

  /** The identity of one channel: its id and its (escaped) name. */
  datatype Address = Address(id: string, name: string)

  /** A function run by a deferred close task: one supplied by the application
      (known only by a tag), or the `removeAllListeners` closure of `destroy`. */
  datatype Callback = UserCallback(tag: nat) | RemoveAllListeners(channel: string)

  /** One synchronous emit, or one call of a callback, in the order they happen. */
  datatype Event =
    | DataEvent(channel: string, payload: string)
    | CloseEvent(channel: string)
    | CallbackRan(tag: nat)
    | ListenersRemoved(channel: string)

  /** A closure handed to `process.nextTick` by `end`: emit `close` on the
      channel, then run the callback if there is one. */
  datatype Task = EmitClose(channel: string, andThen: Option<Callback>)

  function Invoke(cb: Callback): Event
  {
    match cb
    case UserCallback(tag) => CallbackRan(tag)
    case RemoveAllListeners(channel) => ListenersRemoved(channel)
  }

  /** What running a deferred task emits: `close` first, then the callback. */
  function Run(t: Task): (es: seq<Event>)
    ensures 1 <= |es| <= 2 && es[0] == CloseEvent(t.channel)
    ensures |es| == 2 <==> t.andThen.Some?
    ensures |es| == 2 ==> es[1] == Invoke(t.andThen.value)
  {
    [CloseEvent(t.channel)] + match t.andThen { case None => [] case Some(cb) => [Invoke(cb)] }
  }

  /** The `channels` dictionary; each entry maps a channel id to the name of
      the channel object registered under it. */
  class Registry {
    var channels: map<string, string>

    constructor ()
      ensures channels == map[]
    {
      channels := map[];
    }
  }

  /** The SUBSCRIBE frame a bound channel's `open` listener writes. */
  function Subscribe(a: Address): Packet
  {
    Encode(SUBSCRIBE, a.id, a.name, None)
  }

  /** A host connection (a client `primus` instance or a server spark). Its
      `write` appends to `outbox` and answers `writeResult`; each entry of
      `openListeners` is a channel's `onopen` listener; `channels` is the
      slot through which channels find the registry. */
  class Spark {
    var outbox: seq<Packet>
    var openListeners: seq<Address>
    var channels: Registry?
    const writeResult: bool

    constructor (writeResult: bool)
      ensures outbox == [] && openListeners == [] && channels == null
      ensures this.writeResult == writeResult
    {
      outbox, openListeners, channels := [], [], null;
      this.writeResult := writeResult;
    }

    /** `spark.write(packet)`. */
    method Write(p: Packet) returns (ok: bool)
      modifies this`outbox
      ensures outbox == old(outbox) + [p]
      ensures ok == writeResult
    {
      outbox := outbox + [p];
      ok := writeResult;
    }

    /** `spark.on('open', ...)` for the listener of the channel at `a`. */
    method OnOpen(a: Address)
      modifies this`openListeners
      ensures openListeners == old(openListeners) + [a]
    {
      openListeners := openListeners + [a];
    }

    /** The connection opens: every registered listener runs in order, and
        each writes its channel's SUBSCRIBE frame. */
    method Open()
      modifies this`outbox
      ensures |outbox| == |old(outbox)| + |openListeners|
      ensures outbox[..|old(outbox)|] == old(outbox)
      ensures forall k :: 0 <= k < |openListeners| ==>
        outbox[|old(outbox)| + k] == Subscribe(openListeners[k])
    {
      var i := 0;
      while i < |openListeners|
        invariant 0 <= i <= |openListeners|
        invariant |outbox| == |old(outbox)| + i
        invariant outbox[..|old(outbox)|] == old(outbox)
        invariant forall k :: 0 <= k < i ==> outbox[|old(outbox)| + k] == Subscribe(openListeners[k])
      {
        var _ := Write(Subscribe(openListeners[i]));
        i := i + 1;
      }
    }
  }

  /** The host's inbound packet object; the client's hook reads its `data`. */
  class Inbound {
    var data: Payload

    constructor (data: Payload)
      ensures this.data == data
    {
      this.data := data;
    }

    /** `data.shift()` on an array: the first element, or `undefined` when
        the array is empty, which then stays empty. */
    method Shift() returns (e: Option<Elem>)
      requires data.Array?
      modifies this
      ensures e == if old(data.items) == [] then None else Some(old(data.items)[0])
      ensures data == Array(if old(data.items) == [] then [] else old(data.items)[1..])
    {
      if data.items == [] {
        e := None;
      } else {
        e := Some(data.items[0]);
        data := Array(data.items[1..]);
      }
    }
  }

  /** The runtime's event log and its `process.nextTick` queue (FIFO). */
  class EventLoop {
    var events: seq<Event>
    var deferred: seq<Task>

    constructor ()
      ensures events == [] && deferred == []
    {
      events, deferred := [], [];
    }

    method Emit(e: Event)
      modifies this`events
      ensures events == old(events) + [e]
    {
      events := events + [e];
    }

    /** `process.nextTick(task)`. */
    method Defer(t: Task)
      modifies this`deferred
      ensures deferred == old(deferred) + [t]
    {
      deferred := deferred + [t];
    }

    /** One turn of the scheduler: the oldest deferred task runs, if any. */
    method Tick() returns (ran: bool)
      modifies this
      ensures ran == (old(deferred) != [])
      ensures ran ==> deferred == old(deferred)[1..] && events == old(events) + Run(old(deferred)[0])
      ensures !ran ==> deferred == old(deferred) && events == old(events)
    {
      ran := deferred != [];
      if ran {
        var t := deferred[0];
        deferred := deferred[1..];
        events := events + Run(t);
      }
    }
  }
}
