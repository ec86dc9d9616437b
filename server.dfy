/** The server half: the `Channel` a server-side spark gets for each
    subscribed channel, with its `write`, `end(data, fn)` and `destroy`. */
module Server {
  import opened Wire
  import opened Host

  /** One argument of `end`: omitted, a value, or a function. */
  datatype Arg = Missing | Value(v: Elem) | Function(f: Callback)

  /** How `end(data, fn)` reads its arguments: a function passed as `data`
      is the callback (and there is then no closing data); closing data is
      written only when truthy; `fn` is run only when it is a function. */
  function EndArguments(data: Arg, fn: Arg): (r: (Option<Elem>, Option<Callback>))
    ensures data.Function? ==> r == (None, Some(data.f))
    ensures !data.Function? ==> (r.0.Some? <==> data.Value? && Truthy(Some(data.v)))
    ensures !data.Function? && r.0.Some? ==> r.0.value == data.v
    ensures !data.Function? ==> (r.1.Some? <==> fn.Function?) && (fn.Function? ==> r.1 == Some(fn.f))
  {
    var (message, callback) := if data.Function? then (Missing, data) else (data, fn);
    (if message.Value? && Truthy(Some(message.v)) then Some(message.v) else None,
     if callback.Function? then Some(callback.f) else None)
  }

  /** One server channel. `registry` is the object `spark.channels` named
      when the channel was built. */
  class Channel {
    const spark: Spark
    const registry: Registry
    const loop: EventLoop
    const id: string
    const name: string

    /** `new Channel(mp, spark, id, name)`, which runs `initialise`. */
    constructor (spark: Spark, id: string, name: string, loop: EventLoop)
      requires spark.channels != null
      ensures this.spark == spark && this.registry == spark.channels && this.loop == loop
      ensures this.id == id && this.name == name
    {
      this.spark := spark;
      this.id := id;
      this.name := name;
      this.registry := spark.channels;
      this.loop := loop;
    }

    /** `packet(type, data)`. */
    function Packet(code: int, data: Option<Elem>): (p: Wire.Packet)
      ensures Framed(p, code, id, name, data)
    {
      Encode(code, id, name, data)
    }

    /** Writes one MESSAGE frame and answers what the spark's `write` answers. */
    method Write(data: Option<Elem>) returns (ok: bool)
      modifies spark`outbox
      ensures spark.outbox == old(spark.outbox) + [Encode(MESSAGE, id, name, data)]
      ensures ok == spark.writeResult
    {
      ok := spark.Write(Packet(MESSAGE, data));
    }

    /** `end(data, fn)`: the closing MESSAGE first, whether or not the channel
        is registered; then, only if it is, UNSUBSCRIBE, removal of the id and
        one deferred task that emits `close` and runs the callback. */
    method End(data: Arg, fn: Arg)
      modifies spark`outbox, registry`channels, loop`deferred
      ensures var (message, callback) := EndArguments(data, fn);
        var was := id in old(registry.channels);
        && spark.outbox == old(spark.outbox)
             + (if message.Some? then [Encode(MESSAGE, id, name, message)] else [])
             + (if was then [Encode(UNSUBSCRIBE, id, name, None)] else [])
        && loop.deferred == old(loop.deferred) + (if was then [EmitClose(id, callback)] else [])
      ensures registry.channels == old(registry.channels) - {id}
    {
      var (message, callback) := EndArguments(data, fn);
      if message.Some? {
        var _ := Write(message);
      }
      if id in registry.channels {
        var _ := spark.Write(Packet(UNSUBSCRIBE, None));
        registry.channels := registry.channels - {id};
        loop.Defer(EmitClose(id, callback));
      }
    }

    /** `destroy()`: `end` with a callback that removes all of the channel's
        listeners once `close` has been emitted. */
    method Destroy()
      modifies spark`outbox, registry`channels, loop`deferred
      ensures var was := id in old(registry.channels);
        && spark.outbox == old(spark.outbox) + (if was then [Encode(UNSUBSCRIBE, id, name, None)] else [])
        && loop.deferred == old(loop.deferred) + (if was then [EmitClose(id, Some(RemoveAllListeners(id)))] else [])
      ensures registry.channels == old(registry.channels) - {id}
    {
      End(Function(RemoveAllListeners(id)), Missing);
    }
  }
}
