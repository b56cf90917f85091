/** `process_messages_static` in the source's own shape, other tasks, workers, the broker and failing channels acting at
    every await, proved to be a run of the step system (src/subscriber.rs:483-633). */
module MessageLoop {
  import opened Wrappers
  import opened Amqp
  import opened Routing
  import opened Wire
  import opened Pool
  import opened Protocol
  import opened Effects
  import opened World

  datatype TaskError = NoChannel(error: PoolError) | NotSent(channel: nat)

  /** Why a task fails: it needed a channel and none was to be had, or the channel it wrote on was closed at this
      end. */
  predicate Cause(s: State, supply: Supply, e: TaskError) {
    match e
    case NoChannel(error) => NoneToBeHad(s.links, s.cached, supply, error)
    case NotSent(c) => c < |s.links| && !s.links[c].client
  }

  /** What `consumer.next()` yields; None ends the stream. */
  datatype Item = Arrived(tag: nat, channel: nat, payload: Bytes, headers: Headers) | ConsumerError

  /** What one turn meets: an error from the stream or not, the handler's verdict on what arrived, and what a task in
      need of a channel finds. */
  datatype Event = Event(failed: bool, ok: bool, supply: Supply)

  /** A task of this worker whose handler has not come back yet. */
  predicate Assigned(d: Delivery, queue: string, limit: Option<u32>) {
    d.pc.Running? && d.queue == queue && d.limit == limit
  }

  /** An item carries what its delivery says: channel, data and headers. */
  predicate ItemOk(ds: seq<Delivery>, it: Item) {
    it.Arrived? ==>
      && it.tag < |ds| && it.channel == ds[it.tag].channel
      && it.payload == ds[it.tag].msg.payload && it.headers == ds[it.tag].msg.headers
  }

  /** Consumer `k` has handed out its deliveries before `seen`, each settled but `stuck`; the others have not begun. */
  ghost predicate HandledUpTo(s: State, k: nat, seen: nat, stuck: Option<nat>) {
    forall t :: 0 <= t < |s.deliveries| && s.deliveries[t].consumer == k ==>
      && (t < seen ==> if stuck == Some(t) then s.deliveries[t].pc.Stuck? else s.deliveries[t].pc.Done?)
      && (t >= seen ==> s.deliveries[t].pc.Running?)
  }

  lemma LeftKeepsHandled(s: State, s': State, k: nat, seen: nat)
    requires HandledUpTo(s, k, seen, None) && Left(s, s', AllOf(k), None) && seen <= |s.deliveries|
    ensures HandledUpTo(s', k, seen, None)
  {
    forall t | 0 <= t < |s'.deliveries| && s'.deliveries[t].consumer == k
      ensures t < seen ==> s'.deliveries[t].pc.Done?
      ensures t >= seen ==> s'.deliveries[t].pc.Running?
    {
      if t < |s.deliveries| {
        assert SameDelivery(s.deliveries[t], s'.deliveries[t]) && Owns(s, AllOf(k), t);
      } else {
        assert Owns(s', AllOf(k), t);
      }
    }
  }

  lemma TaskKeepsHandled(s: State, s': State, k: nat, seen: nat, t: nat)
    requires HandledUpTo(s, k, seen, None) && Left(s, s', AllOf(k), Some(t)) && seen <= t < |s.deliveries|
    requires forall u :: seen <= u < t ==> s.deliveries[u].consumer != k
    ensures s'.deliveries[t].pc.Done? ==> HandledUpTo(s', k, t + 1, None)
    ensures s'.deliveries[t].pc.Stuck? ==> HandledUpTo(s', k, t + 1, Some(t))
  {
    forall u | 0 <= u < |s'.deliveries| && s'.deliveries[u].consumer == k && u != t
      ensures u < t + 1 ==> s'.deliveries[u].pc.Done?
      ensures u >= t + 1 ==> s'.deliveries[u].pc.Running?
    {
      if u < |s.deliveries| {
        assert SameDelivery(s.deliveries[u], s'.deliveries[u]) && Owns(s, AllOf(k), u);
      } else {
        assert Owns(s', AllOf(k), u);
      }
    }
  }

  /** Nobody touches what consumer `k` handed out before `seen`: such deliveries keep their verdicts. */
  ghost predicate Kept(s: State, s': State, k: nat, seen: nat) {
    && |s.deliveries| <= |s'.deliveries|
    && forall t :: 0 <= t < |s.deliveries| ==>
         && SameDelivery(s.deliveries[t], s'.deliveries[t])
         && (t < seen && s.deliveries[t].consumer == k ==> s'.deliveries[t].verdict == s.deliveries[t].verdict)
  }

  lemma {:induction false} LeftKeeps(s: State, s': State, k: nat, seen: nat, except: Option<nat>)
    requires Left(s, s', AllOf(k), except) && (except.Some? ==> seen <= except.value)
    ensures Kept(s, s', k, seen)
  {
    forall t | 0 <= t < |s.deliveries|
      ensures SameDelivery(s.deliveries[t], s'.deliveries[t])
      ensures t < seen && s.deliveries[t].consumer == k ==> s'.deliveries[t].verdict == s.deliveries[t].verdict
    {
      assert Owns(s, AllOf(k), t) <==> s.deliveries[t].consumer == k;
    }
  }

  lemma {:induction false} KeptThen(s: State, s1: State, s2: State, k: nat, seen: nat)
    requires Kept(s, s1, k, seen) && Kept(s1, s2, k, seen)
    ensures Kept(s, s2, k, seen)
  {
    forall t | 0 <= t < |s.deliveries|
      ensures SameDelivery(s.deliveries[t], s2.deliveries[t])
      ensures t < seen && s.deliveries[t].consumer == k ==> s2.deliveries[t].verdict == s.deliveries[t].verdict
    {
      assert SameDelivery(s.deliveries[t], s1.deliveries[t]) && SameDelivery(s1.deliveries[t], s2.deliveries[t]);
    }
  }

  // ----- what a loop was seen to do -----

  predicate IsDelivery(y: Option<Item>) { y.Some? && y.value.Arrived? }

  function SeenAfter(seen: nat, y: Option<Item>): nat { if IsDelivery(y) then y.value.tag + 1 else seen }

  /** One past the last delivery yielded. */
  function SeenBy(ys: seq<Option<Item>>): nat {
    if ys == [] then 0 else SeenAfter(SeenBy(ys[..|ys| - 1]), ys[|ys| - 1])
  }

  ghost predicate NoneWaiting(s: State, k: nat, seen: nat) {
    forall u :: seen <= u < |s.deliveries| ==> s.deliveries[u].consumer != k
  }

  /** One turn, `seen` before it: an error where the stream had one, or else the next delivery to consumer `k`, treated
      as its handler said. */
  ghost predicate Handed(ds: seq<Delivery>, k: nat, seen: nat, e: Event, y: Option<Item>) {
    && (y == Some(ConsumerError) <==> e.failed)
    && (IsDelivery(y) ==>
          && ItemOk(ds, y.value) && seen <= y.value.tag && ds[y.value.tag].consumer == k
          && ds[y.value.tag].verdict == (if e.ok then Passed else Rejected)
          && forall u :: seen <= u < y.value.tag ==> ds[u].consumer != k)
  }

  /** Every turn was such, and only the last can have found the stream at its end. */
  ghost predicate AllHanded(ds: seq<Delivery>, k: nat, events: seq<Event>, ys: seq<Option<Item>>) {
    && |ys| <= |events|
    && forall i :: 0 <= i < |ys| ==>
         Handed(ds, k, SeenBy(ys[..i]), events[i], ys[i]) && (i < |ys| - 1 ==> ys[i].Some?)
  }

  /** A loop watched over `events`: what it yielded, and why it stopped. */
  ghost predicate Watched(s: State, k: nat, events: seq<Event>, r: Result<bool, TaskError>, seen: nat,
      ys: seq<Option<Item>>)
  {
    && AllHanded(s.deliveries, k, events, ys) && seen == SeenBy(ys) <= |s.deliveries|
    && (r.Ok? ==> |ys| == |events| || (ys != [] && ys[|ys| - 1].None?))
    && (ys != [] && ys[|ys| - 1].None? ==> NoneWaiting(s, k, seen))
    && (r.Err? ==> ys != [] && IsDelivery(ys[|ys| - 1]) && Cause(s, events[|ys| - 1].supply, r.error))
    && HandledUpTo(s, k, seen, if r.Ok? then None else Some(seen - 1))
  }

  lemma {:induction false} SeenByBounds(ys: seq<Option<Item>>, i: nat)
    requires i < |ys| && IsDelivery(ys[i])
    requires forall j :: 0 <= j < |ys| && IsDelivery(ys[j]) ==> SeenBy(ys[..j]) <= ys[j].value.tag
    ensures ys[i].value.tag < SeenBy(ys)
  {
    var front := ys[..|ys| - 1];
    if i < |front| {
      assert forall j :: 0 <= j < |front| ==> front[..j] == ys[..j];
      SeenByBounds(front, i);
    }
    assert ys[..|ys| - 1] == front;
  }

  /** What was handed out stays as it was treated while the next turn goes on. */
  lemma {:induction false} OneMoreHanded(s: State, s': State, k: nat, events: seq<Event>, ys: seq<Option<Item>>,
      y: Option<Item>)
    requires AllHanded(s.deliveries, k, events, ys) && |ys| < |events| && forall i :: 0 <= i < |ys| ==> ys[i].Some?
    requires Kept(s, s', k, SeenBy(ys)) && Handed(s'.deliveries, k, SeenBy(ys), events[|ys|], y)
    ensures AllHanded(s'.deliveries, k, events, ys + [y]) && SeenBy(ys + [y]) == SeenAfter(SeenBy(ys), y)
  {
    var ys' := ys + [y];
    assert ys'[..|ys|] == ys;
    forall i | 0 <= i < |ys'|
      ensures Handed(s'.deliveries, k, SeenBy(ys'[..i]), events[i], ys'[i]) && (i < |ys'| - 1 ==> ys'[i].Some?)
    {
      if i < |ys| {
        assert ys'[..i] == ys[..i];
        if IsDelivery(ys[i]) {
          SeenByBounds(ys, i);
        }
      }
    }
  }

  /** One turn from `s` to `s'`: it treats what the stream yields, ends with nothing waiting if that is nothing, and
      fails only over a delivery it could not settle. */
  ghost predicate Turned(s: State, s': State, k: nat, seen: nat, e: Event, y: Option<Item>, r: Result<bool, TaskError>,
      next: nat)
  {
    && Kept(s, s', k, seen) && Handed(s'.deliveries, k, seen, e, y) && next == SeenAfter(seen, y) <= |s'.deliveries|
    && (y.None? ==> NoneWaiting(s', k, seen))
    && (r.Err? ==> IsDelivery(y) && Cause(s', e.supply, r.error))
    && HandledUpTo(s', k, next, if r.Ok? then None else Some(next - 1))
  }

  lemma {:induction false} DeliveryTurned(s: State, s1: State, s': State, k: nat, seen: nat, e: Event, it: Item,
      r: Result<bool, TaskError>)
    requires Kept(s, s1, k, seen) && Kept(s1, s', k, seen) && !e.failed && it.Arrived? && ItemOk(s1.deliveries, it)
    requires seen <= it.tag < |s1.deliveries| && s1.deliveries[it.tag].consumer == k
    requires forall u :: seen <= u < it.tag ==> s1.deliveries[u].consumer != k
    requires s'.deliveries[it.tag].verdict == if e.ok then Passed else Rejected
    requires HandledUpTo(s', k, it.tag + 1, if r.Ok? then None else Some(it.tag))
    requires r.Err? ==> Cause(s', e.supply, r.error)
    ensures Turned(s, s', k, seen, e, Some(it), r, it.tag + 1)
  {
    KeptThen(s, s1, s', k, seen);
    forall u | seen <= u <= it.tag
      ensures s'.deliveries[u].consumer == s1.deliveries[u].consumer
    {
      assert SameDelivery(s1.deliveries[u], s'.deliveries[u]);
    }
    assert SameDelivery(s1.deliveries[it.tag], s'.deliveries[it.tag]);
  }

  lemma {:induction false} IdleTurned(s: State, s': State, k: nat, seen: nat, e: Event, y: Option<Item>)
    requires Kept(s, s', k, seen) && seen <= |s'.deliveries| && HandledUpTo(s', k, seen, None) && !IsDelivery(y)
    requires (y == Some(ConsumerError) <==> e.failed) && (y.None? ==> NoneWaiting(s', k, seen))
    ensures Turned(s, s', k, seen, e, y, Ok(true), seen)
  {
  }

  /** A loop whose stream has not ended and that has not failed. */
  ghost predicate Underway(s: State, k: nat, events: seq<Event>, seen: nat, ys: seq<Option<Item>>) {
    && AllHanded(s.deliveries, k, events, ys) && seen == SeenBy(ys) <= |s.deliveries| && HandledUpTo(s, k, seen, None)
    && forall i :: 0 <= i < |ys| ==> ys[i].Some?
  }

  lemma {:induction false} TurnTaken(s: State, s': State, k: nat, events: seq<Event>, seen: nat, ys: seq<Option<Item>>,
      y: Option<Item>, r: Result<bool, TaskError>, next: nat)
    requires Underway(s, k, events, seen, ys) && |ys| < |events| && Turned(s, s', k, seen, events[|ys|], y, r, next)
    ensures if y.None? || r.Err? then Watched(s', k, events, r, next, ys + [y])
            else Underway(s', k, events, next, ys + [y])
  {
    OneMoreHanded(s, s', k, events, ys, y);
  }

  /** The first delivery to consumer `k` from position `from` on. */
  function Earliest(ds: seq<Delivery>, k: nat, from: nat): (t: nat)
    requires from <= |ds|
    ensures from <= t <= |ds| && (t < |ds| ==> ds[t].consumer == k)
    ensures forall u :: from <= u < t ==> ds[u].consumer != k
    decreases |ds| - from
  {
    if from == |ds| || ds[from].consumer == k then from else Earliest(ds, k, from + 1)
  }

  class Loop {
    const world: World
    const queue: string
    const retryQueue: Option<string>
    const maxRetries: u32

    /** src/subscriber.rs:442-452: `unwrap_or(0)` where retry is off. */
    constructor (world: World, queue: string, limit: Option<u32>)
      ensures this.world == world && this.queue == queue && Limit() == limit && Named()
    {
      this.world := world;
      this.queue := queue;
      retryQueue := if limit.Some? then Some(RetryQueue(queue)) else None;
      maxRetries := if limit.Some? then limit.value else 0;
    }

    function Limit(): Option<u32> { if retryQueue.Some? then Some(maxRetries) else None }

    ghost predicate Named() { retryQueue.Some? ==> retryQueue.value == RetryQueue(queue) }

    /** What is sent on: src/subscriber.rs:532-553 below the limit, :577 and :585-587 at it. */
    method Outgoing(t: nat, ghost d: Delivery, payload: Bytes, headers: Headers) returns (frame: Frame)
      requires Named() && MustForward(d) && d.queue == queue && d.limit == Limit()
      requires payload == d.msg.payload && headers == d.msg.headers
      ensures frame == PublishFrame(t, d)
    {
      var count := RetryCount(headers);
      if count < maxRetries {
        return Publish(t, retryQueue.value, payload, Some(map[RETRY_COUNT := LongLongInt((count + 1) as i64)]));
      }
      return Publish(t, queue + ".dlq", payload, None);
    }

    /** src/subscriber.rs:543-564 and :577-590: take a channel, write one frame. */
    method Republish(own: Own, t: nat, payload: Bytes, headers: Headers, supply: Supply, ghost s: State)
      returns (r: Result<bool, TaskError>)
      requires world.Valid() && Named() && t < |s.deliveries| && Left(s, world.state, own, Some(t))
      requires Owns(world.state, own, t)
      requires t < |world.state.deliveries|
      requires var d := world.state.deliveries[t];
               && d.pc.Decided? && MustForward(d) && d.queue == queue && d.limit == Limit()
               && payload == d.msg.payload && headers == d.msg.headers
      modifies world, world.pool, world.pool.transport
      ensures world.Valid() && old(world.past) <= world.past && Left(s, world.state, own, Some(t))
      ensures Owns(world.state, own, t)
      ensures t < |world.state.deliveries| && SameDelivery(old(world.state).deliveries[t], world.state.deliveries[t])
      ensures var d := world.state.deliveries[t];
              d.verdict == old(world.state).deliveries[t].verdict && d.pc == if r.Ok? then Published else Stuck
      ensures r.Err? ==> Cause(world.state, supply, r.error)
    {
      var frame := Outgoing(t, world.state.deliveries[t], payload, headers);
      var got := TakeChannel(own, t, supply, s);
      if got.Err? {
        return Err(NoChannel(got.error));
      }
      r := WritePublish(own, t, got.value, frame, s);
    }

    /** `get_channel`, src/subscriber.rs:544 and :578. */
    method TakeChannel(own: Own, t: nat, supply: Supply, ghost s: State) returns (got: Result<nat, PoolError>)
      requires world.Valid() && t < |s.deliveries| && Left(s, world.state, own, Some(t)) && Owns(world.state, own, t)
      requires t < |world.state.deliveries| && world.state.deliveries[t].pc.Decided?
      requires MustForward(world.state.deliveries[t])
      modifies world, world.pool, world.pool.transport
      ensures world.Valid() && old(world.past) <= world.past && Left(s, world.state, own, Some(t))
      ensures Owns(world.state, own, t)
      ensures t < |world.state.deliveries| && SameDelivery(old(world.state).deliveries[t], world.state.deliveries[t])
      ensures var d := world.state.deliveries[t];
              d.verdict == old(world.state).deliveries[t].verdict && d.pc == if got.Ok? then Holding(got.value)
                  else Stuck
      ensures got.Err? ==> NoneToBeHad(world.state.links, world.state.cached, supply, got.error)
    {
      world.Wait(own, t, s);
      got := world.pool.GetChannel(supply);
      world.Act(Take(t, supply.connects && supply.creates), own, s);
    }

    /** The `basic_publish` itself; the channel may have closed since it was handed out. */
    method WritePublish(own: Own, t: nat, c: nat, frame: Frame, ghost s: State) returns (r: Result<bool, TaskError>)
      requires world.Valid() && t < |s.deliveries| && Left(s, world.state, own, Some(t)) && Owns(world.state, own, t)
      requires t < |world.state.deliveries| && world.state.deliveries[t].pc == Holding(c)
      requires frame == PublishFrame(t, world.state.deliveries[t])
      modifies world, world.pool, world.pool.transport
      ensures world.Valid() && old(world.past) <= world.past && Left(s, world.state, own, Some(t))
      ensures Owns(world.state, own, t)
      ensures t < |world.state.deliveries| && SameDelivery(old(world.state).deliveries[t], world.state.deliveries[t])
      ensures var d := world.state.deliveries[t];
              d.verdict == old(world.state).deliveries[t].verdict && d.pc == if r.Ok? then Published else Stuck
      ensures r.Err? ==> r.error == NotSent(c) && c < |world.state.links| && !world.state.links[c].client
    {
      world.Wait(own, t, s);
      assert PublishFrame(t, world.state.deliveries[t]) == frame;
      var sent := world.pool.transport.Write(c, frame);
      world.Act(if sent then SendPublish(t) else GiveUp(t), own, s);
      r := if sent then Ok(true) else Err(NotSent(c));
    }

    /** Acknowledging or refusing on the delivery's own channel, src/subscriber.rs:523-526, :572-575, :599-602,
        :605-608. */
    method Settle(own: Own, t: nat, channel: nat, frame: Frame, ghost s: State) returns (r: Result<bool, TaskError>)
      requires world.Valid() && t < |s.deliveries| && Left(s, world.state, own, Some(t)) && Owns(world.state, own, t)
      requires t < |world.state.deliveries| && MaySettle(world.state.deliveries[t])
      requires channel == world.state.deliveries[t].channel && frame == SettleFrame(t, world.state.deliveries[t])
      modifies world, world.pool, world.pool.transport
      ensures world.Valid() && old(world.past) <= world.past && Left(s, world.state, own, Some(t))
      ensures t < |world.state.deliveries| && SameDelivery(old(world.state).deliveries[t], world.state.deliveries[t])
      ensures var d := world.state.deliveries[t];
              d.verdict == old(world.state).deliveries[t].verdict && d.pc == if r.Ok? then Done else Stuck
      ensures r.Err? ==>
                r.error == NotSent(channel) && channel < |world.state.links| && !world.state.links[channel].client
    {
      world.Wait(own, t, s);
      var sent := world.pool.transport.Write(channel, frame);
      world.Act(if sent then SendSettle(t) else GiveUp(t), own, s);
      r := if sent then Ok(true) else Err(NotSent(channel));
    }

    /** The handler runs and comes back with `ok`, src/subscriber.rs:512-519. */
    method RunHandler(own: Own, t: nat, ok: bool)
      requires world.Valid() && t < |world.state.deliveries| && Owns(world.state, own, t)
      requires world.state.deliveries[t].pc.Running?
      modifies world, world.pool, world.pool.transport
      ensures world.Valid() && old(world.past) <= world.past && Left(old(world.state), world.state, own, Some(t))
      ensures Owns(world.state, own, t) && SameDelivery(old(world.state).deliveries[t], world.state.deliveries[t])
      ensures world.state.deliveries[t].pc.Decided?
      ensures world.state.deliveries[t].verdict == if ok then Passed else Rejected
    {
      ghost var s := world.state;
      world.Wait(own, t, s);
      world.Act(Handle(t, ok), own, s);
    }

    /** One task, spawned (`own` is that task) or awaited by its loop (`own` is the consumer), from its handler's
        verdict to its settlement (src/subscriber.rs:512-618), with anything at all happening at its awaits: what it
        does is a run of the protocol, it ends without error exactly when it sent the frame that settles its delivery,
        and it fails only because a channel it needed was not there. */
    method ProcessDelivery(own: Own, t: nat, channel: nat, payload: Bytes, headers: Headers, ok: bool, supply: Supply)
      returns (r: Result<bool, TaskError>)
      requires world.Valid() && Named() && t < |world.state.deliveries| && Owns(world.state, own, t)
      requires Assigned(world.state.deliveries[t], queue, Limit())
      requires ItemOk(world.state.deliveries, Arrived(t, channel, payload, headers))
      modifies world, world.pool, world.pool.transport
      ensures world.Valid() && old(world.past) <= world.past && Left(old(world.state), world.state, own, Some(t))
      ensures var d := world.state.deliveries[t];
              d.pc == (if r.Ok? then Done else Stuck) && d.verdict == if ok then Passed else Rejected
      ensures r.Err? ==> Cause(world.state, supply, r.error)
      ensures r.Err? && (ok || Limit().None?) ==> r.error == NotSent(channel)
    {
      ghost var s := world.state;
      RunHandler(own, t, ok);
      var frame := Ack(t);
      if !ok && retryQueue.Some? {
        r := Republish(own, t, payload, headers, supply, s);
        if r.Err? {
          return r;
        }
      } else if !ok {
        frame := Nack(t);
      }
      r := Settle(own, t, channel, frame, s);
    }

    /** `consumer.next()`: while it waits the broker may deliver, to this consumer too; it yields an error where the
        stream has one, else the earliest delivery not yielded before, and nothing only where none is waiting. */
    method NextItem(k: nat, seen: nat, failed: bool) returns (item: Option<Item>)
      requires world.Valid() && Serves(k) && seen <= |world.state.deliveries| && HandledUpTo(world.state, k, seen, None)
      modifies world, world.pool, world.pool.transport
      ensures world.Valid() && Serves(k) && old(world.past) <= world.past
      ensures seen <= |world.state.deliveries| && HandledUpTo(world.state, k, seen, None)
      ensures Kept(old(world.state), world.state, k, seen)
      ensures item == Some(ConsumerError) <==> failed
      ensures item.None? ==> NoneWaiting(world.state, k, seen)
      ensures item.Some? && item.value.Arrived? ==>
                && ItemOk(world.state.deliveries, item.value)
                && seen <= item.value.tag < |world.state.deliveries|
                && world.state.deliveries[item.value.tag].consumer == k
                && forall u :: seen <= u < item.value.tag ==> world.state.deliveries[u].consumer != k
    {
      ghost var s := world.state;
      world.Others(AllOf(k));
      LeftKeepsHandled(s, world.state, k, seen);
      LeftKeeps(s, world.state, k, seen, None);
      if failed {
        return Some(ConsumerError);
      }
      var ds := world.state.deliveries;
      var t := Earliest(ds, k, seen);
      if t == |ds| {
        return None;
      }
      return Some(Arrived(t, ds[t].channel, ds[t].msg.payload, ds[t].msg.headers));
    }

    /** One turn of the loop at src/subscriber.rs:498-632 without a spawner: it is over before the next begins. */
    method ProcessItem(k: nat, ghost seen: nat, it: Item, ok: bool, supply: Supply)
      returns (r: Result<bool, TaskError>, next: nat)
      requires world.Valid() && Named() && Serves(k) && it.Arrived? && ItemOk(world.state.deliveries, it)
      requires seen <= it.tag < |world.state.deliveries| && world.state.deliveries[it.tag].consumer == k
      requires HandledUpTo(world.state, k, seen, None)
      requires forall u :: seen <= u < it.tag ==> world.state.deliveries[u].consumer != k
      modifies world, world.pool, world.pool.transport
      ensures world.Valid() && Serves(k) && old(world.past) <= world.past
      ensures it.tag < next == it.tag + 1 <= |world.state.deliveries|
      ensures HandledUpTo(world.state, k, next, if r.Ok? then None else Some(next - 1))
      ensures Kept(old(world.state), world.state, k, seen)
      ensures world.state.deliveries[it.tag].verdict == if ok then Passed else Rejected
      ensures r.Err? ==> Cause(world.state, supply, r.error)
    {
      ghost var s := world.state;
      TaskOfWorker(world.cfg, world.past, s, it.tag);
      next := it.tag + 1;
      r := ProcessDelivery(AllOf(k), it.tag, it.channel, it.payload, it.headers, ok, supply);
      TaskKeepsHandled(s, world.state, k, seen, it.tag);
      LeftKeeps(s, world.state, k, seen, Some(it.tag));
    }

    /** Consumer `k` is this worker's. */
    predicate Serves(k: nat)
      reads world
    {
      && k < |world.state.consumers| && world.state.consumers[k].worker < |world.cfg.workers|
      && var spec := world.cfg.workers[world.state.consumers[k].worker];
         spec.queue == queue && spec.limit == Limit()
    }

    /** Wait for an item and, if it is a delivery, handle it; only the end of the stream or a failure ends the loop. */
    method Turn(k: nat, seen: nat, e: Event)
      returns (ended: bool, r: Result<bool, TaskError>, next: nat, ghost item: Option<Item>)
      requires world.Valid() && Named() && Serves(k) && seen <= |world.state.deliveries|
      requires HandledUpTo(world.state, k, seen, None)
      modifies world, world.pool, world.pool.transport
      ensures world.Valid() && Serves(k) && old(world.past) <= world.past
      ensures Turned(old(world.state), world.state, k, seen, e, item, r, next)
      ensures ended <==> item.None?
    {
      ghost var s := world.state;
      var got := NextItem(k, seen, e.failed);
      item := got;
      if got.None? || got.value.ConsumerError? {
        IdleTurned(s, world.state, k, seen, e, item);
        return got.None?, Ok(true), seen, item;
      }
      ended := false;
      ghost var s1 := world.state;
      r, next := ProcessItem(k, seen, got.value, e.ok, e.supply);
      DeliveryTurned(s, s1, world.state, k, seen, e, got.value, r);
    }

    /** The `while let` loop at src/subscriber.rs:498-632, watched for as long as there are events: its consumer's
        deliveries are handled one after the other in the order they came, however many arrive meanwhile; consumer
        errors are skipped; the end of the stream ends the loop with nothing waiting, and the first failed await ends
        it with that delivery unsettled and the later ones not begun; nothing else ends it; all of it is a run. */
    method ProcessMessages(k: nat, events: seq<Event>)
      returns (r: Result<bool, TaskError>, seen: nat, ghost yielded: seq<Option<Item>>)
      requires world.Valid() && Named() && Serves(k) && HandledUpTo(world.state, k, 0, None)
      modifies world, world.pool, world.pool.transport
      ensures world.Valid() && old(world.past) <= world.past
      ensures Watched(world.state, k, events, r, seen, yielded)
    {
      seen, r, yielded := 0, Ok(true), [];
      for i := 0 to |events|
        invariant world.Valid() && Serves(k) && old(world.past) <= world.past
        invariant r.Ok? && |yielded| == i && Underway(world.state, k, events, seen, yielded)
      {
        var ended;
        ghost var item, s, before := None, world.state, seen;
        ended, r, seen, item := Turn(k, seen, events[i]);
        TurnTaken(s, world.state, k, events, before, yielded, item, r, seen);
        yielded := yielded + [item];
        if ended || r.Err? {
          return;
        }
      }
    }
  }
}
