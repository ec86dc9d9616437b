/** The client half: the `Multiplex` object installed on a `primus` instance
    (its inbound hook, its channel factory and id generator, and its routing
    of MESSAGE and UNSUBSCRIBE frames) and the client `Channel`. */
module Client {
  import opened Wire
  import opened Host

  /** What the `k`-th `shift()` of the inbound array yields. */
  function At(items: seq<Elem>, k: nat): Option<Elem>
  {
    if k < |items| then Some(items[k]) else None
  }

  /** What is left of the inbound array after its three `shift()`s. */
  function Rest(items: seq<Elem>): seq<Elem>
  {
    if |items| <= 3 then [] else items[3..]
  }

  /** What the inbound hook does with one payload: whether it lets it through,
      the registry afterwards, the events it emits and what remains of the
      payload's `data`. */
  datatype Effect = Effect(pass: bool, channels: map<string, string>, emitted: seq<Event>, rest: Payload)

  /** The `incoming` transform, on values. */
  function Dispatch(channels: map<string, string>, data: Payload): (r: Effect)
    ensures r.pass <==> data.NonArray?
    ensures r.pass ==> r.channels == channels && r.emitted == [] && r.rest == data
    ensures data.Array? ==> r.rest == Array(Rest(data.items))
    ensures r.channels.Keys <= channels.Keys
    ensures forall k :: k in r.channels ==> r.channels[k] == channels[k]
    ensures |r.emitted| <= 1
    ensures forall e :: e in r.emitted ==> (e.DataEvent? || e.CloseEvent?) && e.channel in channels
    ensures r.channels != channels ==> exists k :: r.emitted == [CloseEvent(k)] && r.channels == channels - {k}
  {
    match data
    case NonArray(_) => Effect(true, channels, [], data)
    case Array(items) =>
      var code, key, rest := At(items, 0), Key(At(items, 1)), Rest(items);
      if key !in channels then Effect(false, channels, [], Array(rest))
      else if code == Some(Num(UNSUBSCRIBE)) then Effect(false, channels - {key}, [CloseEvent(key)], Array(rest))
      else if code == Some(Num(MESSAGE)) then Effect(false, channels, [DataEvent(key, Join(rest))], Array(rest))
      else Effect(false, channels, [], Array(rest))
  }

  /** An array naming an id that is not registered is consumed and changes nothing. */
  lemma UnknownIdIgnored(channels: map<string, string>, items: seq<Elem>)
    requires Key(At(items, 1)) !in channels
    ensures Dispatch(channels, Array(items)) == Effect(false, channels, [], Array(Rest(items)))
  {
  }

  /** UNSUBSCRIBE for a registered id removes exactly that id and emits one `close`. */
  lemma UnsubscribeRemoves(channels: map<string, string>, items: seq<Elem>)
    requires At(items, 0) == Some(Num(UNSUBSCRIBE)) && Key(At(items, 1)) in channels
    ensures var key := Key(At(items, 1));
      Dispatch(channels, Array(items)) == Effect(false, channels - {key}, [CloseEvent(key)], Array(Rest(items)))
  {
  }

  /** MESSAGE for a registered id emits `data` with the remaining elements joined. */
  lemma MessageDelivers(channels: map<string, string>, items: seq<Elem>)
    requires At(items, 0) == Some(Num(MESSAGE)) && Key(At(items, 1)) in channels
    ensures var key := Key(At(items, 1));
      Dispatch(channels, Array(items)) == Effect(false, channels, [DataEvent(key, Join(Rest(items)))], Array(Rest(items)))
  {
  }

  /** Any other leading element (SUBSCRIBE, an unknown code, a non-number) is
      consumed without effect. */
  lemma OtherCodesIgnored(channels: map<string, string>, items: seq<Elem>)
    requires At(items, 0) != Some(Num(MESSAGE)) && At(items, 0) != Some(Num(UNSUBSCRIBE))
    ensures Dispatch(channels, Array(items)) == Effect(false, channels, [], Array(Rest(items)))
  {
  }

  /** A frame built by `packet(MESSAGE, d)` for a registered id delivers `d`
      as a string; for a string payload, that string itself. A falsy `d` is
      left out of the frame, so `0`, `false`, `""` and `null` all arrive as
      the empty string. */
  lemma MessageRoundTrip(channels: map<string, string>, id: string, name: string, d: Elem)
    requires id in channels
    ensures Dispatch(channels, Array(Encode(MESSAGE, id, name, Some(d))))
         == Effect(false, channels, [DataEvent(id, if Truthy(Some(d)) then Text(d) else "")],
                   Array(if Truthy(Some(d)) then [d] else []))
    ensures d.Str? ==> Text(d) == d.s
  {
  }

  /** A frame built by `packet(UNSUBSCRIBE)` closes the channel it names, if registered. */
  lemma UnsubscribeRoundTrip(channels: map<string, string>, id: string, name: string)
    ensures Dispatch(channels, Array(Encode(UNSUBSCRIBE, id, name, None)))
         == Effect(false, channels - {id}, if id in channels then [CloseEvent(id)] else [], Array([]))
  {
  }

  /** A SUBSCRIBE frame reaching the client is consumed without effect. */
  lemma SubscribeIgnored(channels: map<string, string>, id: string, name: string)
    ensures Dispatch(channels, Array(Encode(SUBSCRIBE, id, name, None)))
         == Effect(false, channels, [], Array([]))
  {
  }

  /** The names every plain JavaScript object inherits from `Object.prototype`;
      indexing `channels` with one of them finds a function, not a channel. */
  const InheritedKeys: set<string> := {
    "constructor", "hasOwnProperty", "isPrototypeOf", "propertyIsEnumerable",
    "toLocaleString", "toString", "valueOf", "__proto__", "__defineGetter__",
    "__defineSetter__", "__lookupGetter__", "__lookupSetter__"}

  /** The hook run to completion, or stopped by a thrown `TypeError`. */
  datatype Outcome = Returned(effect: Effect) | Threw

  /** The `incoming` transform as written, where `channels[id]` also finds
      inherited properties: a MESSAGE or UNSUBSCRIBE naming one of them
      reaches `channel.emit` on a function and throws. */
  function DispatchAsWritten(channels: map<string, string>, data: Payload): (r: Outcome)
    ensures data.NonArray? ==> r == Returned(Dispatch(channels, data))
    ensures data.Array? && Key(At(data.items, 1)) !in InheritedKeys ==> r == Returned(Dispatch(channels, data))
  {
    match data
    case NonArray(_) => Returned(Dispatch(channels, data))
    case Array(items) =>
      var code, key := At(items, 0), Key(At(items, 1));
      if key !in channels && key in InheritedKeys && (code == Some(Num(UNSUBSCRIBE)) || code == Some(Num(MESSAGE)))
      then Threw
      else Returned(Dispatch(channels, data))
  }

  /** A stray `[4, "toString", name]` makes the hook as written throw on an
      empty registry, where an own-property lookup drops it silently. */
  lemma InheritedKeyThrows(name: string)
    ensures DispatchAsWritten(map[], Array([Num(UNSUBSCRIBE), Str("toString"), Str(name)])) == Threw
    ensures Dispatch(map[], Array([Num(UNSUBSCRIBE), Str("toString"), Str(name)])) == Effect(false, map[], [], Array([]))
  {
  }

  /** The value of `uuid.ids` after `calls` calls of `uuid()`: it counts the
      calls until it reaches 2^53 and stays there. */
  function Counter(calls: nat): (c: nat)
    ensures c <= COUNTER_LIMIT
  {
    if calls < COUNTER_LIMIT then calls else COUNTER_LIMIT
  }

  /** Each `uuid()` call moves the counter on by one `ids++`, from 0. */
  lemma CounterSteps(calls: nat)
    ensures Counter(0) == 0
    ensures Counter(calls + 1) == Increment(Counter(calls))
  {
  }

  /** The ids minted so far, given the clock reading of each `uuid()` call. */
  function IssuedIds(stamps: seq<nat>): seq<string>
  {
    seq(|stamps|, i requires 0 <= i < |stamps| => UuidOf(stamps[i], Counter(i)))
  }

  /** Two ids from successive `uuid()` calls coincide exactly when the counter
      had already stopped at 2^53 for the earlier one and both calls read the
      same clock value: before that they are pairwise distinct. */
  lemma IssuedDistinct(stamps: seq<nat>)
    ensures forall i, j :: 0 <= i < j < |stamps| ==>
      (IssuedIds(stamps)[i] == IssuedIds(stamps)[j] <==> COUNTER_LIMIT <= i && stamps[i] == stamps[j])
  {
    forall i, j | 0 <= i < j < |stamps|
      ensures IssuedIds(stamps)[i] == IssuedIds(stamps)[j] <==> COUNTER_LIMIT <= i && stamps[i] == stamps[j]
    {
      if IssuedIds(stamps)[i] == IssuedIds(stamps)[j] {
        UuidInjective(stamps[i], Counter(i), stamps[j], Counter(j));
      }
    }
  }

  /** One more `uuid()` call appends its id to those already minted. */
  lemma IssuedAppend(stamps: seq<nat>, now: nat)
    ensures IssuedIds(stamps + [now]) == IssuedIds(stamps) + [UuidOf(now, Counter(|stamps|))]
  {
  }

  /** Some `uuid()` call made after the counter stopped at 2^53 read the
      clock value `now`. */
  predicate SeenAfterStop(stamps: seq<nat>, now: nat)
  {
    exists i :: COUNTER_LIMIT <= i < |stamps| && stamps[i] == now
  }

  /** An earlier id equal to the next one was minted after the counter
      stopped, at the same clock reading. */
  lemma RepeatStopped(stamps: seq<nat>, now: nat, i: nat)
    requires i < |stamps| && IssuedIds(stamps)[i] == UuidOf(now, Counter(|stamps|))
    ensures COUNTER_LIMIT <= i && stamps[i] == now
  {
    UuidInjective(stamps[i], Counter(i), now, Counter(|stamps|));
  }

  /** Past 2^53 calls, an id minted at the same clock reading as the next
      one equals it. */
  lemma RepeatAfterStop(stamps: seq<nat>, now: nat, i: nat)
    requires COUNTER_LIMIT <= i < |stamps| && stamps[i] == now
    ensures UuidOf(now, Counter(|stamps|)) in IssuedIds(stamps)
  {
    assert IssuedIds(stamps)[i] == UuidOf(now, Counter(|stamps|));
  }

  /** The id the next `uuid()` call mints at clock reading `now` was minted
      before exactly when the counter has stopped at 2^53 and an earlier call
      at or past that point read the same clock value. */
  lemma NextIssued(stamps: seq<nat>, now: nat)
    ensures UuidOf(now, Counter(|stamps|)) in IssuedIds(stamps) <==> SeenAfterStop(stamps, now)
  {
    var ids, id := IssuedIds(stamps), UuidOf(now, Counter(|stamps|));
    if id in ids {
      var i :| 0 <= i < |ids| && ids[i] == id;
      RepeatStopped(stamps, now, i);
    }
    if SeenAfterStop(stamps, now) {
      var i :| COUNTER_LIMIT <= i < |stamps| && stamps[i] == now;
      RepeatAfterStop(stamps, now, i);
    }
  }

  /** One client channel. `registry` is the object `spark.channels` named
      when the channel was built, shared with the `Multiplex`. */
  class Channel {
    const spark: Spark
    const registry: Registry
    const loop: EventLoop
    const id: string
    const name: string

    constructor (spark: Spark, id: string, name: string, loop: EventLoop)
      requires spark.channels != null
      modifies spark`openListeners
      ensures this.spark == spark && this.registry == spark.channels && this.loop == loop
      ensures this.id == id && this.name == name
      ensures spark.openListeners == old(spark.openListeners) + [Address(id, name)]
    {
      this.spark := spark;
      this.id := id;
      this.name := name;
      this.registry := spark.channels;
      this.loop := loop;
      new;
      Bind();
    }

    /** Registers this channel's `onopen` as a listener of the spark's `open`. */
    method Bind()
      modifies spark`openListeners
      ensures spark.openListeners == old(spark.openListeners) + [Address(id, name)]
    {
      spark.OnOpen(Address(id, name));
    }

    /** `onopen()`: writes this channel's SUBSCRIBE frame. `Spark.Open` takes
        exactly this step for each bound channel, since the spark holds the
        channel's address rather than the channel. */
    method OnOpen()
      modifies spark`outbox
      ensures spark.outbox == old(spark.outbox) + [Subscribe(Address(id, name))]
    {
      var _ := spark.Write(Packet(SUBSCRIBE, None));
    }

    /** `packet(type, data)`. */
    function Packet(code: int, data: Option<Elem>): (p: Wire.Packet)
      ensures Framed(p, code, id, name, data)
    {
      Encode(code, id, name, data)
    }

    /** Writes one MESSAGE frame and answers what the spark's `write` answers. */
    method Write(data: Option<Elem>) returns (ok: bool)
      modifies spark`outbox
      ensures spark.outbox == old(spark.outbox) + [Encode(MESSAGE, id, name, data)]
      ensures ok == spark.writeResult
    {
      ok := spark.Write(Packet(MESSAGE, data));
    }

    /** If still registered: writes UNSUBSCRIBE, removes the id and defers
        `close`. Otherwise nothing happens. */
    method End()
      modifies spark`outbox, registry`channels, loop`deferred
      ensures var was := id in old(registry.channels);
        && spark.outbox == old(spark.outbox) + (if was then [Encode(UNSUBSCRIBE, id, name, None)] else [])
        && loop.deferred == old(loop.deferred) + (if was then [EmitClose(id, None)] else [])
      ensures registry.channels == old(registry.channels) - {id}
    {
      if id in registry.channels {
        var _ := spark.Write(Packet(UNSUBSCRIBE, None));
        registry.channels := registry.channels - {id};
        loop.Defer(EmitClose(id, None));
      }
    }
  }

  /** The object `multiplex(primus)` returns. `ids` is the `uuid.ids`
      counter of that call; `stamps` records the clock reading of every id
      minted so far. */
  class Multiplex {
    const spark: Spark
    const registry: Registry
    const loop: EventLoop
    const escape: string -> string
    var ids: nat
    ghost var stamps: seq<nat>

    ghost predicate Valid()
      reads this
    {
      ids == Counter(|stamps|)
    }

    constructor (spark: Spark, loop: EventLoop, escape: string -> string)
      ensures this.spark == spark && this.loop == loop && this.escape == escape
      ensures fresh(registry) && registry.channels == map[]
      ensures Valid() && ids == 0 && stamps == []
    {
      this.spark := spark;
      this.loop := loop;
      this.escape := escape;
      registry := new Registry();
      ids := 0;
      stamps := [];
    }

    /** `uuid()` at clock reading `now`: the id, then `ids++`. The id is new
        unless the counter has stopped at 2^53 and an earlier call past that
        point read the same clock value. */
    method Uuid(now: nat) returns (id: string)
      requires Valid()
      modifies this`ids, this`stamps
      ensures Valid() && ids == Increment(old(ids)) && stamps == old(stamps) + [now]
      ensures id == UuidOf(now, old(ids))
      ensures id in IssuedIds(old(stamps)) <==> SeenAfterStop(old(stamps), now)
      ensures IssuedIds(stamps) == IssuedIds(old(stamps)) + [id]
    {
      id := UuidOf(now, ids);
      NextIssued(stamps, now);
      IssuedAppend(stamps, now);
      assert Counter(|stamps| + 1) == Increment(ids);
      ids := Increment(ids);
      stamps := stamps + [now];
    }

    /** `channel(name)`: registers a new channel under a fresh id. */
    method CreateChannel(name: string, now: nat) returns (c: Channel)
      requires Valid()
      modifies this`ids, this`stamps, spark`channels, spark`openListeners, registry`channels
      ensures Valid()
      ensures c.id == UuidOf(now, old(ids)) && c.name == escape(name)
      ensures c.spark == spark && c.registry == registry && c.loop == loop
      ensures c.id in IssuedIds(old(stamps)) <==> SeenAfterStop(old(stamps), now)
      ensures IssuedIds(stamps) == IssuedIds(old(stamps)) + [c.id]
      ensures (forall k :: k in old(registry.channels) ==> k in IssuedIds(old(stamps))) && old(ids) < COUNTER_LIMIT ==>
        c.id !in old(registry.channels)
      ensures registry.channels == old(registry.channels)[c.id := c.name]
      ensures spark.channels == registry
      ensures spark.openListeners == old(spark.openListeners) + [Address(c.id, c.name)]
    {
      var id := Uuid(now);
      spark.channels := registry;
      c := new Channel(spark, id, escape(name), loop);
      registry.channels := registry.channels[id := c.name];
    }

    /** `onmessage(id, data)`: emits `data` on a registered channel. */
    method OnMessage(id: string, data: string)
      modifies loop`events
      ensures loop.events == old(loop.events) + (if id in registry.channels then [DataEvent(id, data)] else [])
    {
      if id in registry.channels {
        loop.Emit(DataEvent(id, data));
      }
    }

    /** `onunsubscribe(id)`: removes a registered channel and emits `close` at once. */
    method OnUnsubscribe(id: string)
      modifies registry`channels, loop`events
      ensures registry.channels == old(registry.channels) - {id}
      ensures loop.events == old(loop.events) + (if id in old(registry.channels) then [CloseEvent(id)] else [])
    {
      if id in registry.channels {
        registry.channels := registry.channels - {id};
        loop.Emit(CloseEvent(id));
      }
    }

    /** The `incoming` hook: answers whether the payload flows on to the host. */
    method Incoming(packet: Inbound) returns (pass: bool)
      modifies packet, registry`channels, loop`events
      ensures var r := Dispatch(old(registry.channels), old(packet.data));
        && pass == r.pass
        && registry.channels == r.channels
        && loop.events == old(loop.events) + r.emitted
        && packet.data == r.rest
    {
      if packet.data.Array? {
        ghost var items := packet.data.items;
        var code := packet.Shift();
        var id := packet.Shift();
        var _ := packet.Shift();
        assert packet.data.items == Rest(items);
        var payload := Join(packet.data.items);
        var key := Key(id);
        if key !in registry.channels {
          return false;
        }
        if code == Some(Num(UNSUBSCRIBE)) {
          OnUnsubscribe(key);
        } else if code == Some(Num(MESSAGE)) {
          OnMessage(key, payload);
        }
        return false;
      }
      return true;
    }
  }
}
