/** One worker from `build` to its message loop (src/subscriber.rs:302-354, :403-455, :637-646): set-up first, then a
    consumer, then its deliveries. */
module Service {
  import opened Wrappers
  import opened Pool
  import opened Protocol
  import opened World
  import opened Startup
  import opened MessageLoop
  import opened Subscriber
  import Setup

  datatype ServiceError = SetupFailed(setup: SetupError) | NoSpawner | NotStarted(start: StartError) |
      Stopped(task: TaskError)

  class Service {
    const subscriber: Subscriber

    constructor (subscriber: Subscriber)
      ensures this.subscriber == subscriber
    {
      this.subscriber := subscriber;
    }

    /** `worker_loop` and `consume_single`: one consumer and its deliveries, watched for as long as there are events.
        What came of the set-up, the retry queue's name, decides what the loop does with failures; the consumer gets the
        worker's own prefetch where no other worker is starting meanwhile. */
    method RunLoop(w: nat, retryQueue: Option<string>, supply: Supply, events: seq<Event>)
      returns (r: Result<bool, ServiceError>, ghost k: nat, ghost seen: nat, ghost yielded: seq<Option<Item>>)
      requires subscriber.world.Valid() && Stands(subscriber.world.state, w, Idle)
      requires w < |subscriber.world.cfg.workers| && subscriber.world.cfg.workers[w] == SpecOf(subscriber.worker)
      requires retryQueue.Some? <==> subscriber.worker.retry.Some?
      modifies subscriber.world, subscriber.world.pool, subscriber.world.pool.transport
      ensures subscriber.world.Valid() && old(subscriber.world.past) <= subscriber.world.past
      ensures r.Err? ==> r.error.NotStarted? || r.error.Stopped?
      ensures r.Err? && r.error.NotStarted? ==> WhyNot(subscriber.world.state, supply, r.error.start)
      ensures !(r.Err? && r.error.NotStarted?) ==> Served(w, k, events, r, seen, yielded)
      ensures !(r.Err? && r.error.NotStarted?) && OthersThrough(old(subscriber.world.state), w) ==>
                subscriber.world.state.consumers[k].prefetch == subscriber.worker.prefetch
    {
      k, seen, yielded := 0, 0, [];
      var starter := new Starter(subscriber.world);
      var started := starter.StartConsumer(w, subscriber.worker.prefetch, supply);
      if started.Err? {
        return Err(NotStarted(started.error)), k, seen, yielded;
      }
      var limit := if retryQueue.Some? then Some(subscriber.worker.retry.value.max) else None;
      var loop := new Loop(subscriber.world, subscriber.worker.queue, limit);
      ghost var past, state := subscriber.world.past, subscriber.world.state;
      var ended;
      ended, seen, yielded := loop.ProcessMessages(started.value, events);
      k := started.value;
      ConsumersRemain(subscriber.world.cfg, past, state, subscriber.world.past, subscriber.world.state);
      r := if ended.Ok? then Ok(true) else Err(Stopped(ended.error));
    }

    /** Worker `w` has consumer `k`, whose loop was watched over `events`. */
    ghost predicate Served(w: nat, k: nat, events: seq<Event>, r: Result<bool, ServiceError>, seen: nat,
        ys: seq<Option<Item>>)
      requires r.Ok? || r.error.Stopped?
      reads subscriber, subscriber.world
    {
      && k < |subscriber.world.state.consumers| && subscriber.world.state.consumers[k].worker == w
      && Watched(subscriber.world.state, k, events, if r.Ok? then Ok(true) else Err(r.error.task), seen, ys)
    }

    /** `build` on one task: nothing is consumed before the whole set-up has succeeded, and then every queue and binding
        the loop relies on is there, whatever was there before and whatever else happens meanwhile. With `concurrency`
        and a spawner each parallel worker is a RunLoop of its own after the same set-up; without a spawner it is an
        error. */
    method Serve(chances: seq<Chance>, supply: Supply, events: seq<Event>)
      returns (r: Result<bool, ServiceError>, ghost k: nat, ghost seen: nat, ghost yielded: seq<Option<Item>>)
      requires subscriber.Valid() && |chances| == 7
      requires var cfg, w := subscriber.world.cfg, subscriber.w;
               w < |cfg.workers| && cfg.workers[w] == SpecOf(subscriber.worker)
      requires subscriber.worker.concurrency.Some? ==> !subscriber.worker.spawner
      modifies subscriber.world, subscriber.world.pool, subscriber.world.pool.transport, subscriber.server
      ensures subscriber.world.Valid() && old(subscriber.world.past) <= subscriber.world.past
      ensures r.Ok? || !r.error.SetupFailed? ==> Setup.Ready(subscriber.server.Topology(), subscriber.worker)
      ensures r.Err? && (r.error.SetupFailed? || r.error.NoSpawner?) ==>
              Stands(subscriber.world.state, subscriber.w, Idle)
      ensures r.Err? && r.error.SetupFailed? ==>
                Concluded(subscriber.worker, old(subscriber.server.Topology()), 0, old(subscriber.server.heard),
                          subscriber.server.heard, subscriber.server.Topology(), subscriber.world.state, chances,
                          Err(r.error.setup))
      ensures subscriber.worker.concurrency.Some? ==> r.Err? && (r.error.SetupFailed? || r.error.NoSpawner?)
      ensures r.Err? && r.error.NoSpawner? ==> subscriber.worker.concurrency.Some?
      ensures r.Err? && r.error.NotStarted? ==> WhyNot(subscriber.world.state, supply, r.error.start)
      ensures r.Ok? || r.error.Stopped? ==> Served(subscriber.w, k, events, r, seen, yielded)
      ensures (r.Ok? || r.error.Stopped?) && OthersThrough(old(subscriber.world.state), subscriber.w) ==>
                subscriber.world.state.consumers[k].prefetch == subscriber.worker.prefetch
    {
      k, seen, yielded := 0, 0, [];
      ghost var t0, past, state := subscriber.server.Topology(), subscriber.world.past, subscriber.world.state;
      ghost var heard := subscriber.server.heard;
      var built := subscriber.Build(chances);
      ConcludedIff(subscriber.worker, t0, 0, heard, subscriber.server.heard, subscriber.server.Topology(),
          subscriber.world.state, chances, built);
      if built.Err? {
        return Err(SetupFailed(built.error)), k, seen, yielded;
      }
      if OthersThrough(state, subscriber.w) {
        OthersRemainThrough(subscriber.world.cfg, past, state, subscriber.world.past, subscriber.world.state,
            subscriber.w);
      }
      BuiltMeansReady(t0, subscriber.worker, subscriber.server.Topology());
      if subscriber.worker.concurrency.Some? {
        return Err(NoSpawner), k, seen, yielded;
      }
      r, k, seen, yielded := RunLoop(subscriber.w, built.value, supply, events);
    }
  }
}
