/** How consumers come up on the shared channel, others acting at every await (src/subscriber.rs:302-354, :356-440). */
module Startup {
  import opened Wrappers
  import opened Sums
  import opened Pool
  import opened Protocol
  import opened World
  import opened Amqp
  import Setup
  import Flight

  datatype StartError = NoConnection(error: PoolError) | ChannelClosed(channel: nat)

  /** Why a worker does not come up: no channel was to be had, or the one it got was closed at either end. */
  predicate WhyNot(s: State, supply: Supply, e: StartError) {
    match e
    case NoConnection(error) => NoneToBeHad(s.links, s.cached, supply, error)
    case ChannelClosed(c) => c < |s.links| && !(s.links[c].client && s.links[c].broker)
  }

  /** Worker `w` has got this far in its start-up. */
  predicate Stands(s: State, w: nat, b: Boot) { w < |s.boots| && s.boots[w] == b }

  lemma ConfiguredLimit(cfg: Config, past: seq<Step>, s: State, k: nat)
    requires Led(cfg, past, s) && k < |s.consumers|
    ensures Flight.Configured(cfg, s.consumers[k].prefetch)
  {
    LedIsRun(cfg, past, s);
  }

  lemma NobodyServed(cfg: Config, past: seq<Step>, s: State)
    requires Led(cfg, past, s)
    ensures forall t :: 0 <= t < |s.deliveries| ==> s.deliveries[t].consumer < |s.consumers|
  {
    LedIsRun(cfg, past, s);
  }

  lemma BootFacts(cfg: Config, past: seq<Step>, s: State)
    requires Led(cfg, past, s)
    ensures |s.boots| == |cfg.workers| && OneLive(s.links, s.cached)
    ensures forall w :: 0 <= w < |s.boots| && (s.boots[w].Opened? || s.boots[w].Limited?) ==>
            s.boots[w].channel < |s.links|
  {
    LedIsRun(cfg, past, s);
  }

  class Starter {
    const world: World

    constructor (world: World)
      ensures this.world == world
    {
      this.world := world;
    }

    /** Others act; where this worker stands does not change. */
    method Wait(w: nat)
      requires world.Valid() && w < |world.state.boots|
      modifies world, world.pool, world.pool.transport
      ensures world.Valid() && old(world.past) <= world.past && world.pool.Valid()
      ensures Stands(world.state, w, old(world.state).boots[w])
      ensures |world.state.boots| == |world.cfg.workers|
      ensures OthersThrough(old(world.state), w) ==>
                && OthersThrough(world.state, w) && |old(world.state).links| <= |world.state.links|
                && forall c :: 0 <= c < |old(world.state).links| ==>
                    world.state.links[c].qos == old(world.state).links[c].qos
    {
      world.Others(Starting(w));
      BootFacts(world.cfg, world.past, world.state);
    }

    /** `get_channel`, src/subscriber.rs:333 and :413. */
    method Open(w: nat, supply: Supply) returns (r: Result<nat, StartError>)
      requires world.Valid() && Stands(world.state, w, Idle)
      modifies world, world.pool, world.pool.transport
      ensures world.Valid() && old(world.past) <= world.past
      ensures if r.Ok? then Stands(world.state, w, Opened(r.value)) else Stands(world.state, w, Failed)
      ensures OthersThrough(old(world.state), w) ==> OthersThrough(world.state, w)
      ensures r.Ok? ==> world.state.cached == Some(r.value) && Live(world.state.links, world.state.cached)
      ensures r.Err? ==> WhyNot(world.state, supply, r.error)
    {
      Wait(w);
      var got := world.pool.GetChannel(supply);
      world.Did(BootOpen(w, supply.connects && supply.creates));
      r := if got.Ok? then Ok(got.value) else Err(NoConnection(got.error));
    }

    /** `basic_qos`, src/subscriber.rs:335-340 and :415-420. */
    method Limit(w: nat, c: nat, prefetch: nat) returns (r: Result<bool, StartError>)
      requires world.Valid() && Stands(world.state, w, Opened(c)) && w < |world.cfg.workers|
      requires world.cfg.workers[w].prefetch == prefetch
      modifies world, world.pool, world.pool.transport
      ensures world.Valid() && old(world.past) <= world.past
      ensures if r.Ok? then Stands(world.state, w, Limited(c)) else Stands(world.state, w, Failed)
      ensures OthersThrough(old(world.state), w) ==> OthersThrough(world.state, w)
      ensures r.Ok? ==> c < |world.state.links| && world.state.links[c].qos == prefetch
      ensures r.Err? ==> r.error == ChannelClosed(c) && c < |world.state.links| && !world.state.links[c].client
    {
      Wait(w);
      BootFacts(world.cfg, world.past, world.state);
      var ok := world.pool.transport.LimitPrefetch(c, prefetch);
      world.Did(if ok then BootQos(w) else BootFail(w));
      r := if ok then Ok(true) else Err(ChannelClosed(c));
    }

    /** `basic_consume`, src/subscriber.rs:342-350 and :432-440: it fails when either end has closed the channel. */
    method Consume(w: nat, c: nat) returns (r: Result<nat, StartError>)
      requires world.Valid() && Stands(world.state, w, Limited(c)) && w < |world.cfg.workers| && c < |world.state.links|
      modifies world, world.pool, world.pool.transport
      ensures world.Valid() && old(world.past) <= world.past
      ensures if r.Ok? then Stands(world.state, w, Consuming(r.value)) else Stands(world.state, w, Failed)
      ensures r.Ok? ==> && r.value < |world.state.consumers| && world.state.consumers[r.value].worker == w
                        && world.state.consumers[r.value].channel == c
      ensures r.Ok? && OthersThrough(old(world.state), w) ==>
                world.state.consumers[r.value].prefetch == old(world.state).links[c].qos
      ensures r.Ok? ==> forall t :: 0 <= t < |world.state.deliveries| ==> world.state.deliveries[t].consumer != r.value
      ensures c < |world.state.links| && (r.Ok? <==> world.state.links[c].client && world.state.links[c].broker)
      ensures r.Err? ==> r.error == ChannelClosed(c)
    {
      Wait(w);
      NobodyServed(world.cfg, world.past, world.state);
      BootFacts(world.cfg, world.past, world.state);
      var link := world.pool.transport.links[c];
      var k := |world.state.consumers|;
      world.Did(if link.client && link.broker then BootConsume(w) else BootFail(w));
      r := if link.client && link.broker then Ok(k) else Err(ChannelClosed(c));
    }

    /** src/subscriber.rs:333-350 and :413-440: get a channel, set the limit, consume, with anything at all in between.
        The consumer that comes up is on a channel open at both ends. Its limit is some configured worker's, since
        another worker may set its own on the shared channel in between, and this worker's whole, undivided prefetch if
        no other is starting. It fails only because no channel was to be had or the one it got has closed. */
    method StartConsumer(w: nat, prefetch: nat, supply: Supply) returns (r: Result<nat, StartError>)
      requires world.Valid() && Stands(world.state, w, Idle) && w < |world.cfg.workers|
      requires world.cfg.workers[w].prefetch == prefetch
      modifies world, world.pool, world.pool.transport
      ensures world.Valid() && old(world.past) <= world.past
      ensures if r.Ok? then Stands(world.state, w, Consuming(r.value)) else Stands(world.state, w, Failed)
      ensures r.Ok? ==>
                && r.value < |world.state.consumers|
                && var con, links := world.state.consumers[r.value], world.state.links;
                   && con.channel < |links| && links[con.channel].client && links[con.channel].broker
                   && con.worker == w && Flight.Configured(world.cfg, con.prefetch)
                   && (OthersThrough(old(world.state), w) ==> con.prefetch == prefetch)
      ensures r.Ok? ==> forall t :: 0 <= t < |world.state.deliveries| ==> world.state.deliveries[t].consumer != r.value
      ensures r.Err? ==> WhyNot(world.state, supply, r.error)
    {
      var got := Open(w, supply);
      if got.Err? {
        return got;
      }
      var limited := Limit(w, got.value, prefetch);
      if limited.Err? {
        return Err(limited.error);
      }
      r := Consume(w, got.value);
      if r.Ok? {
        ConfiguredLimit(world.cfg, world.past, world.state, r.value);
      }
    }
  }

  // ----- how many -----

  function LimitOf(w: Setup.Worker): Option<u32> { if w.retry.Some? then Some(w.retry.value.max) else None }

  /** The settings each loop of a worker runs with. */
  function SpecOf(w: Setup.Worker): WorkerSpec { WorkerSpec(w.queue, w.prefetch, LimitOf(w)) }

  /** src/subscriber.rs:310-321, :367-387: one loop without `concurrency`; as many as it says with a spawner, each
      with the whole prefetch; an error without one. */
  function Fleet(spec: WorkerSpec, concurrency: Option<nat>, hasSpawner: bool): Option<seq<WorkerSpec>> {
    if concurrency.None? then Some([spec])
    else if hasSpawner then Some(seq(concurrency.value, _ => spec))
    else None
  }

  /** A subscriber alone on its pool: running handlers and stuck deliveries, wherever their channels are, stay within
      concurrency times prefetch. */
  lemma FleetInFlight(cfg: Config, spec: WorkerSpec, concurrency: Option<nat>, hasSpawner: bool, steps: seq<Step>)
    requires spec.prefetch > 0 && Fleet(spec, concurrency, hasSpawner) == Some(cfg.workers)
    ensures Sum(Run(cfg, steps).deliveries, Flight.Unfinished())
         <= (if concurrency.Some? then concurrency.value else 1) * spec.prefetch
  {
    Flight.InFlightBound(cfg, steps, spec.prefetch);
  }
}
