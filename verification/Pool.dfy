/** The one-slot channel cache of src/pool.rs:60-97, seen as one call. */
module Pool {
  import opened Wrappers
  import opened Wire

  datatype PoolError = PoolError | ConnectionError

  datatype Got = Got(links: seq<Link>, cached: Option<nat>, channel: Option<nat>)

  predicate Live(links: seq<Link>, cached: Option<nat>) {
    cached.Some? && cached.value < |links| && links[cached.value].client
  }

  /** Every channel this client still holds open is the cached one. */
  predicate OneLive(links: seq<Link>, cached: Option<nat>) {
    && (cached.Some? ==> cached.value < |links|)
    && forall c :: 0 <= c < |links| && links[c].client ==> cached == Some(c)
  }

  /** One call as an atomic step; `canCreate` is the environment's answer when a channel is needed. */
  function Acquire(links: seq<Link>, cached: Option<nat>, canCreate: bool): Got {
    if Live(links, cached) then Got(links, cached, cached)
    else if canCreate then Got(links + [FRESH], Some(|links|), Some(|links|))
    else Got(links, cached, None)
  }

  /** What a caller who needs a new channel finds: whether the connection pool yields a connection, and whether that
      makes a channel. */
  datatype Supply = Supply(connects: bool, creates: bool)

  /** Why a caller got no channel: the cached one was not open, and none could be made. */
  predicate NoneToBeHad(links: seq<Link>, cached: Option<nat>, supply: Supply, e: PoolError) {
    && !Live(links, cached)
    && match e
       case PoolError => !supply.connects
       case ConnectionError => supply.connects && !supply.creates
  }

  /** What a caller learns: the channel it was handed is the only one open, and old channels are untouched. */
  lemma AcquireHandsOutTheOnlyLiveChannel(links: seq<Link>, cached: Option<nat>, canCreate: bool)
    requires OneLive(links, cached)
    ensures var g := Acquire(links, cached, canCreate);
            && OneLive(g.links, g.cached) && links <= g.links
            && (g.channel.None? <==> !Live(links, cached) && !canCreate)
            && (g.channel.Some? ==> g.channel == g.cached && Live(g.links, g.cached))
            && (forall c :: 0 <= c < |links| && links[c].client ==> g.channel == Some(c))
  {
  }

  /** The channels that exist, as both peers see them; other parts of the program write to them too. */
  class Transport {
    var links: seq<Link>

    constructor ()
      ensures links == []
    {
      links := [];
    }

    method CreateChannel() returns (c: nat)
      modifies this
      ensures c == |old(links)| && links == old(links) + [FRESH]
    {
      c := |links|;
      links := links + [FRESH];
    }

    /** One end sees the channel closed; what the broker had not processed yet is gone with it. */
    method Close(c: nat, ours: bool)
      requires c < |links|
      modifies this
      ensures links == old(links)[c := if ours then old(links)[c].(client := false)
                                       else old(links)[c].(broker := false, wire := [])]
    {
      links := links[c := if ours then links[c].(client := false) else links[c].(broker := false, wire := [])];
    }

    /** `basic_qos`, src/subscriber.rs:335-340. */
    method LimitPrefetch(c: nat, prefetch: nat) returns (ok: bool)
      requires c < |links|
      modifies this
      ensures ok == old(links)[c].client
      ensures links == if ok then old(links)[c := old(links)[c].(qos := prefetch)] else old(links)
    {
      ok := links[c].client;
      if ok {
        links := links[c := links[c].(qos := prefetch)];
      }
    }

    /** `basic_publish`, `ack` and `nack`: an error exactly when this end has seen the channel close. */
    method Write(c: nat, f: Frame) returns (ok: bool)
      requires c < |links|
      modifies this
      ensures ok == old(links)[c].client
      ensures links == if ok then old(links)[c := Send(old(links)[c], f)] else old(links)
    {
      ok := links[c].client;
      if ok {
        links := links[c := Send(links[c], f)];
      }
    }
  }

  class ChannelPool {
    const transport: Transport
    var cached: Option<nat>

    constructor (transport: Transport)
      ensures this.transport == transport && cached == None
    {
      this.transport := transport;
      cached := None;
    }

    ghost predicate Valid()
      reads this, transport
    {
      OneLive(transport.links, cached)
    }

    /** src/pool.rs:74-96. */
    method GetChannel(supply: Supply) returns (r: Result<nat, PoolError>)
      requires Valid()
      modifies this, transport
      ensures Valid()
      ensures Got(transport.links, cached, if r.Ok? then Some(r.value) else None)
           == Acquire(old(transport.links), old(cached), supply.connects && supply.creates)
      ensures r.Err? && r.error.PoolError? <==> !Live(old(transport.links), old(cached)) && !supply.connects
      ensures r.Err? ==> NoneToBeHad(transport.links, cached, supply, r.error)
    {
      if cached.Some? && transport.links[cached.value].client {
        return Ok(cached.value);
      }
      if !supply.connects {
        return Err(PoolError);
      }
      if !supply.creates {
        return Err(ConnectionError);
      }
      var channel := transport.CreateChannel();
      cached := Some(channel);
      return Ok(channel);
    }
  }
}
