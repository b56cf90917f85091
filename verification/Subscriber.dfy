/** The set-up methods of `Subscriber` and `SubscribeBuilder::build` over a mutable broker (src/subscriber.rs:137-308,
    :637-646), others acting on the shared channel at every await, proved to be one worker's script. */
module Subscriber {
  import opened Wrappers
  import opened Amqp
  import opened Routing
  import opened Pool
  import opened Setup
  import opened World
  import Protocol

  /** No channel, a channel lost before the reply came, or the broker's refusal. */
  datatype SetupError = NoChannel(error: PoolError) | Lost(channel: nat) | Refused(reply: Reply)

  /** The broker's topology. */
  class Server {
    var exchanges: map<string, ExchangeKind>
    var queues: map<string, QueueArgs>
    var bindings: set<Binding>
    ghost var heard: seq<Reply> // the replies that reached the client, in order

    constructor ()
      ensures Topology() == Routing.Topology(map[], map[], {}) && heard == []
    {
      exchanges, queues, bindings, heard := map[], map[], {}, [];
    }

    function Topology(): Routing.Topology
      reads this
    {
      Routing.Topology(exchanges, queues, bindings)
    }

    method ExchangeDeclare(name: string, kind: ExchangeKind) returns (reply: Reply)
      modifies this
      ensures Served(Topology(), reply) == Serve(old(Topology()), HasExchange(name, kind)) && heard == old(heard)
    {
      if name !in exchanges {
        exchanges := exchanges[name := kind];
        return Accepted;
      }
      reply := if exchanges[name] == kind then Accepted else Mismatch;
    }

    method QueueDeclare(name: string, args: QueueArgs) returns (reply: Reply)
      modifies this
      ensures Served(Topology(), reply) == Serve(old(Topology()), HasQueue(name, args)) && heard == old(heard)
    {
      if name !in queues {
        queues := queues[name := args];
        return Accepted;
      }
      reply := if queues[name] == args then Accepted else Mismatch;
    }

    method QueueBind(b: Binding) returns (reply: Reply)
      modifies this
      ensures Served(Topology(), reply) == Serve(old(Topology()), HasBinding(b)) && heard == old(heard)
    {
      if b.exchange in exchanges && b.queue in queues {
        bindings := bindings + {b};
        return Accepted;
      }
      reply := Missing;
    }

    /** A request and its answer, which is heard if the channel still stands. */
    method Answer(f: Fact, ghost up: bool) returns (reply: Reply)
      modifies this
      ensures Served(Topology(), reply) == Serve(old(Topology()), f)
      ensures heard == old(heard) + if up then [reply] else []
    {
      match f {
        case HasExchange(e, k) => reply := ExchangeDeclare(e, k);
        case HasQueue(q, a) => reply := QueueDeclare(q, a);
        case HasBinding(b) => reply := QueueBind(b);
      }
      heard := heard + if up then [reply] else [];
    }
  }

  function Replies(heard: Option<Reply>): seq<Reply> { if heard.Some? then [heard.value] else [] }

  /** The state after the first `k` requests of a script, nobody else declaring anything. */
  function Alone(t: Routing.Topology, script: seq<Op>, k: nat): State {
    Run([script], Init(t, 1), seq(k, _ => 0))
  }

  lemma AloneStep(t: Routing.Topology, script: seq<Op>, k: nat)
    ensures Alone(t, script, k + 1) == Next([script], Alone(t, script, k), 0)
  {
    assert seq(k + 1, _ => 0)[..k] == seq(k, _ => 0);
  }

  datatype Point = Point(t0: Routing.Topology, script: seq<Op>, k: nat, s: State)

  ghost predicate Gets(p: Point) { Alone(p.t0, p.script, p.k) == p.s }

  /** After `k` requests the script alone stands at `s`. Written with a quantifier so that methods carry it along
      without unrolling the script. */
  ghost predicate Arrives(t0: Routing.Topology, script: seq<Op>, k: nat, s: State) {
    forall p :: p == Point(t0, script, k, s) ==> Gets(p)
  }

  lemma ArrivesIff(t0: Routing.Topology, script: seq<Op>, k: nat, s: State)
    ensures Arrives(t0, script, k, s) <==> Alone(t0, script, k) == s
  {
    assert Gets(Point(t0, script, k, s)) <==> Alone(t0, script, k) == s;
  }

  /** The set-up has made `k` requests without a fatal refusal and left the broker at `t`. */
  ghost predicate Reached(t0: Routing.Topology, script: seq<Op>, k: nat, t: Routing.Topology) {
    Arrives(t0, script, k, State(t, [At(k)]))
  }

  /** Its `k`th request was refused for good. */
  ghost predicate Ended(t0: Routing.Topology, script: seq<Op>, k: nat, t: Routing.Topology) {
    0 < k <= |script| && Arrives(t0, script, k, State(t, [Aborted]))
  }

  /** It has made `k` requests, and the next one has had no reply, whether or not it was carried out. */
  ghost predicate Paused(t0: Routing.Topology, script: seq<Op>, k: nat, t: Routing.Topology) {
    k < |script| && exists u :: Reached(t0, script, k, u) && t in {u, Serve(u, script[k].fact).topology}
  }

  predicate Passes(op: Op, reply: Reply) { reply.Accepted? || (reply.Mismatch? && op.tolerant) }

  /** How one request moves a set-up on: past it, or to its end in an abort. */
  lemma RequestMoves(t0: Routing.Topology, script: seq<Op>, k: nat, t: Routing.Topology)
    requires Reached(t0, script, k, t) && k < |script|
    ensures var r := Serve(t, script[k].fact);
            if r.reply.Accepted? || (r.reply.Mismatch? && script[k].tolerant) then
                Reached(t0, script, k + 1, r.topology)
            else Ended(t0, script, k + 1, r.topology)
  {
    ArrivesIff(t0, script, k, State(t, [At(k)]));
    AloneStep(t0, script, k);
    var r := Serve(t, script[k].fact);
    ArrivesIff(t0, script, k + 1, State(r.topology, [if Passes(script[k], r.reply) then At(k + 1) else Aborted]));
  }

  lemma AtTheStart(t0: Routing.Topology, script: seq<Op>)
    ensures Reached(t0, script, 0, t0)
  {
    ArrivesIff(t0, script, 0, State(t0, [At(0)]));
  }

  /** What one request meets: what a caller in need of a channel finds, and whether a request lost with its channel
      still reaches the broker. */
  datatype Chance = Chance(supply: Supply, arrives: bool)

  /** Why a request got no reply: no channel was to be had, or the one it was made on was down at one end. */
  predicate Unheard(s: Protocol.State, chance: Chance, e: SetupError) {
    match e
    case NoChannel(error) => NoneToBeHad(s.links, s.cached, chance.supply, error)
    case Lost(c) => c < |s.links| && !(s.links[c].client && s.links[c].broker)
    case Refused(_) => false
  }

  ghost predicate SomeUnheard(s: Protocol.State, chances: seq<Chance>, e: SetupError) {
    exists i :: 0 <= i < |chances| && Unheard(s, chances[i], e)
  }

  /** Between the pasts `p` and `p'` a caller was handed channel `c`. */
  ghost predicate HandedOut(cfg: Protocol.Config, p: seq<Protocol.Step>, p': seq<Protocol.Step>, c: nat) {
    exists i :: |p| <= i < |p'| && p'[i].Borrow? && Protocol.Run(cfg, p'[..i + 1]).cached == Some(c)
  }

  lemma {:induction false} HandedOutStays(cfg: Protocol.Config, p: seq<Protocol.Step>, q: seq<Protocol.Step>,
      q': seq<Protocol.Step>, c: nat)
    requires HandedOut(cfg, p, q, c) && q <= q'
    ensures HandedOut(cfg, p, q', c)
  {
    var i :| |p| <= i < |q| && q[i].Borrow? && Protocol.Run(cfg, q[..i + 1]).cached == Some(c);
    assert q'[..i + 1] == q[..i + 1] && q'[i] == q[i];
  }

  lemma {:induction false} HandedOutNow(cfg: Protocol.Config, p: seq<Protocol.Step>, q: seq<Protocol.Step>, b: bool,
      s: Protocol.State, c: nat)
    requires p <= q && Led(cfg, q + [Protocol.Borrow(b)], s) && s.cached == Some(c)
    ensures HandedOut(cfg, p, q + [Protocol.Borrow(b)], c)
  {
    var q' := q + [Protocol.Borrow(b)];
    LedIsRun(cfg, q', s);
    assert q'[..|q| + 1] == q' && q'[|q|].Borrow?;
  }

  /** The set-up of `w`, or the rest of it from request `k0` on: what it heard, `before` being what had been heard
      already, how it left broker and protocol, and what it returned. */
  datatype Outcome = Outcome(
    w: Worker, t0: Routing.Topology, k0: nat, before: seq<Reply>, heard: seq<Reply>, t: Routing.Topology,
    s: Protocol.State, chances: seq<Chance>, r: Result<Option<string>, SetupError>)

  /** It is through, every request heard, with the retry queue's name where retry is configured; or refused in the last
      reply heard, where the script alone would have been; or, nothing heard being a fatal refusal, its next request
      went unheard. */
  ghost predicate Proper(o: Outcome) {
    && o.before <= o.heard
    && var script, k := Script(o.w), o.k0 + |o.heard| - |o.before|;
    match o.r
    case Ok(retryQueue) =>
      && k == |script| && Reached(o.t0, script, k, o.t)
      && retryQueue == if o.w.retry.Some? then Some(RetryQueue(o.w.queue)) else None
    case Err(Refused(reply)) =>
      Ended(o.t0, script, k, o.t) && |o.before| < |o.heard| && o.heard[|o.heard| - 1] == reply
    case Err(e) => Paused(o.t0, script, k, o.t) && SomeUnheard(o.s, o.chances, e)
  }

  /** Written with a quantifier so that methods carry it along without unfolding it. */
  ghost predicate Concluded(w: Worker, t0: Routing.Topology, k0: nat, before: seq<Reply>, heard: seq<Reply>,
      t: Routing.Topology, s: Protocol.State, chances: seq<Chance>, r: Result<Option<string>, SetupError>)
  {
    forall o :: o == Outcome(w, t0, k0, before, heard, t, s, chances, r) ==> Proper(o)
  }

  lemma ConcludedIff(w: Worker, t0: Routing.Topology, k0: nat, before: seq<Reply>, heard: seq<Reply>,
      t: Routing.Topology, s: Protocol.State, chances: seq<Chance>, r: Result<Option<string>, SetupError>)
    ensures Concluded(w, t0, k0, before, heard, t, s, chances, r) <==>
              Proper(Outcome(w, t0, k0, before, heard, t, s, chances, r))
  {
  }

  /** A set-up that fails in one of its requests is concluded. */
  lemma {:induction false} RequestFails(w: Worker, t0: Routing.Topology, k0: nat, before: seq<Reply>, now: seq<Reply>,
      heard: Option<Reply>, t: Routing.Topology, s: Protocol.State, chances: seq<Chance>, i: nat, e: SetupError)
    requires before <= now && i < |chances|
    requires var k := k0 + |now| - |before|;
             if heard.Some? then e == Refused(heard.value) && Ended(t0, Script(w), k + 1, t)
             else Paused(t0, Script(w), k, t) && Unheard(s, chances[i], e)
    ensures Concluded(w, t0, k0, before, now + Replies(heard), t, s, chances, Err(e))
  {
  }

  /** One that gets through is, too. */
  lemma {:induction false} SetupSucceeds(w: Worker, t0: Routing.Topology, k0: nat, before: seq<Reply>,
      heard: seq<Reply>,
      t: Routing.Topology, s: Protocol.State, chances: seq<Chance>, retryQueue: Option<string>)
    requires before <= heard && k0 + |heard| - |before| == |Script(w)| && Reached(t0, Script(w), |Script(w)|, t)
    requires retryQueue == if w.retry.Some? then Some(RetryQueue(w.queue)) else None
    ensures Concluded(w, t0, k0, before, heard, t, s, chances, Ok(retryQueue))
  {
  }

  lemma {:induction false} SomeAmongAll(s: Protocol.State, chances: seq<Chance>, c: nat, e: SetupError)
    requires c <= |chances| && SomeUnheard(s, chances[c..], e)
    ensures SomeUnheard(s, chances, e)
  {
    var i :| 0 <= i < |chances[c..]| && Unheard(s, chances[c..][i], e);
    assert Unheard(s, chances[c + i], e);
  }

  /** The rest of a set-up concludes the whole. */
  lemma {:induction false} RestConcludes(w: Worker, t0: Routing.Topology, k0: nat, before: seq<Reply>, now: seq<Reply>,
      heard: seq<Reply>, t: Routing.Topology, s: Protocol.State, chances: seq<Chance>, c: nat,
      r: Result<Option<string>, SetupError>)
    requires before <= now && c <= |chances|
    requires Concluded(w, t0, k0 + |now| - |before|, now, heard, t, s, chances[c..], r)
    ensures Concluded(w, t0, k0, before, heard, t, s, chances, r)
  {
    ConcludedIff(w, t0, k0 + |now| - |before|, now, heard, t, s, chances[c..], r);
    ConcludedIff(w, t0, k0, before, heard, t, s, chances, r);
    if r.Err? && !r.error.Refused? {
      SomeAmongAll(s, chances, c, r.error);
    }
  }

  /** Where a script has its declarations of the main queue and its binding, and what follows. */
  lemma ScriptLayout(w: Worker, e: nat, b: nat)
    requires e == |ExchangeOps(w)| && b == |BindOps(w, w.key)|
    ensures |Script(w)| == e + 1 + b + 1 + |RetryOps(w)|
    ensures Script(w)[e] == Script(w)[e + 1 + b] == Op(HasQueue(w.queue, MainArgs(w)), false)
    ensures if w.exchange == "" then b == 0
            else b == 1 && Script(w)[e + 1] == Op(HasBinding(Binding(w.queue, w.exchange, w.key)), false)
  {
  }

  class Subscriber {
    const worker: Worker
    const w: nat // its first loop among the workers' loops
    const world: World
    const server: Server

    constructor (worker: Worker, w: nat, world: World, server: Server)
      ensures this.worker == worker && this.w == w && this.world == world && this.server == server
    {
      this.worker, this.w, this.world, this.server := worker, w, world, server;
    }

    /** The world stands, and this worker has not begun to consume. */
    ghost predicate Valid()
      reads world, world.pool, world.pool.transport
    {
      world.Valid() && w < |world.state.boots| && world.state.boots[w].Idle?
    }

    method Wait()
      requires Valid()
      modifies world, world.pool, world.pool.transport
      ensures Valid() && old(world.past) <= world.past && world.pool.Valid()
      ensures |old(world.state).links| <= |world.state.links|
    {
      world.Others(Starting(w));
      LedIsRun(world.cfg, world.past, world.state);
    }

    /** The broker closes a channel whose request it refuses, as AMQP 0-9-1 prescribes for 404 and 406. */
    method CloseRefused(c: nat)
      requires Valid() && c < |world.state.links|
      modifies world, world.pool, world.pool.transport
      ensures Valid() && world.past == old(world.past) + [Protocol.BrokerDown(c), Protocol.ClientDown(c)]
      ensures |world.state.links| == |old(world.state).links|
      ensures !world.state.links[c].client && !world.state.links[c].broker
    {
      world.pool.transport.Close(c, false);
      world.Did(Protocol.BrokerDown(c));
      world.pool.transport.Close(c, true);
      world.Did(Protocol.ClientDown(c));
    }

    /** `get_channel`; others act before it and, with the channel in hand, after it. */
    method Channel(supply: Supply) returns (got: Result<nat, PoolError>)
      requires Valid()
      modifies world, world.pool, world.pool.transport
      ensures Valid() && old(world.past) <= world.past
      ensures got.Ok? ==>
                got.value < |world.state.links| && HandedOut(world.cfg, old(world.past), world.past, got.value)
      ensures got.Err? ==> NoneToBeHad(world.state.links, world.state.cached, supply, got.error)
    {
      Wait();
      ghost var past := world.past;
      got := world.pool.GetChannel(supply);
      world.Did(Protocol.Borrow(supply.connects && supply.creates));
      if got.Err? {
        return;
      }
      ghost var past' := world.past;
      HandedOutNow(world.cfg, old(world.past), past, supply.connects && supply.creates, world.state, got.value);
      Wait();
      HandedOutStays(world.cfg, old(world.past), past', world.past, got.value);
    }

    /** One request on channel `c`. It is answered exactly if both ends hold the channel open as it is made; a refusal
        closes the channel; on a channel that is down it may still reach the broker, but its reply is lost. */
    method Send(c: nat, f: Fact, chance: Chance) returns (r: Result<Reply, SetupError>)
      requires Valid() && c < |world.state.links|
      modifies world, world.pool, world.pool.transport, server
      ensures Valid() && |world.state.links| == |old(world.state).links|
      ensures var link := old(world.state).links[c]; if link.client && link.broker then r.Ok? else r == Err(Lost(c))
      ensures r.Ok? ==>
                && Served(server.Topology(), r.value) == Serve(old(server.Topology()), f)
                && server.heard == old(server.heard) + [r.value]
                && world.past == old(world.past) + if r.value.Accepted? then []
                                                   else [Protocol.BrokerDown(c), Protocol.ClientDown(c)]
      ensures r.Err? ==>
                && world.state == old(world.state) && world.past == old(world.past)
                && server.heard == old(server.heard)
                && server.Topology() == if chance.arrives then Serve(old(server.Topology()), f).topology
                                        else old(server.Topology())
    {
      var link := world.pool.transport.links[c];
      var up := link.client && link.broker;
      if !up && !chance.arrives {
        return Err(Lost(c));
      }
      var reply := server.Answer(f, up);
      if !up {
        return Err(Lost(c));
      }
      if !reply.Accepted? {
        CloseRefused(c);
      }
      return Ok(reply);
    }

    /** One request on a channel of the pool: the broker's answer, or, where none was heard, its cause. */
    method Ask(f: Fact, chance: Chance) returns (r: Result<Reply, SetupError>)
      requires Valid()
      modifies world, world.pool, world.pool.transport, server
      ensures Valid() && old(world.past) <= world.past
      ensures server.heard == old(server.heard) + if r.Ok? then [r.value] else []
      ensures r.Ok? ==> Served(server.Topology(), r.value) == Serve(old(server.Topology()), f)
      ensures r.Err? ==>
                && Unheard(world.state, chance, r.error)
                && (r.error.Lost? ==> HandedOut(world.cfg, old(world.past), world.past, r.error.channel))
                && server.Topology() == if r.error.Lost? && chance.arrives then
                    Serve(old(server.Topology()), f).topology
                                        else old(server.Topology())
    {
      var got := Channel(chance.supply);
      if got.Err? {
        return Err(NoChannel(got.error));
      }
      r := Send(got.value, f, chance);
    }

    /** Request `k0` of the script. */
    method Request(ghost t0: Routing.Topology, ghost k0: nat, f: Fact, chance: Chance)
      returns (r: Result<Reply, SetupError>)
      requires Valid() && Reached(t0, Script(worker), k0, server.Topology())
      requires k0 < |Script(worker)| && Script(worker)[k0].fact == f
      modifies world, world.pool, world.pool.transport, server
      ensures Valid() && old(world.past) <= world.past
      ensures server.heard == old(server.heard) + if r.Ok? then [r.value] else []
      ensures r.Ok? ==>
                && Served(server.Topology(), r.value) == Serve(old(server.Topology()), f)
                && if Passes(Script(worker)[k0], r.value) then Reached(t0, Script(worker), k0 + 1, server.Topology())
                   else Ended(t0, Script(worker), k0 + 1, server.Topology())
      ensures r.Err? ==> Unheard(world.state, chance, r.error) && Paused(t0, Script(worker), k0, server.Topology())
    {
      RequestMoves(t0, Script(worker), k0, server.Topology());
      r := Ask(f, chance);
    }

    /** src/subscriber.rs:137-172: a mismatch counts as success; `heard` is the broker's reply, if it came. */
    method EnsureExchange(ghost t0: Routing.Topology, chance: Chance)
      returns (r: Result<bool, SetupError>, ghost heard: Option<Reply>)
      requires Valid() && t0 == server.Topology()
      modifies world, world.pool, world.pool.transport, server
      ensures Valid() && old(world.past) <= world.past && server.heard == old(server.heard) + Replies(heard)
      ensures worker.exchange == "" ==> r == Ok(false) && heard == None && server.Topology() == t0
      ensures worker.exchange != "" ==>
                && (r.Err? <==> heard.None?) && (r.Ok? ==> r.value)
                && (heard.Some? ==>
                      Served(server.Topology(), heard.value) == Serve(t0, HasExchange(worker.exchange, worker.kind)))
      ensures r.Ok? ==> Reached(t0, Script(worker), |ExchangeOps(worker)|, server.Topology())
      ensures r.Err? ==> Unheard(world.state, chance, r.error) && Paused(t0, Script(worker), 0, server.Topology())
    {
      heard := None;
      AtTheStart(t0, Script(worker));
      if worker.exchange == "" {
        return Ok(false), heard;
      }
      var reply := Request(t0, 0, HasExchange(worker.exchange, worker.kind), chance);
      heard := if reply.Ok? then Some(reply.value) else None;
      r := if reply.Ok? then Ok(true) else Err(reply.error);
    }

    /** src/subscriber.rs:284-300: one declaration; any refusal is an error. */
    method TryDeclareQueue(ghost t0: Routing.Topology, ghost k0: nat, queue: string, args: QueueArgs, chance: Chance)
      returns (r: Result<bool, SetupError>, ghost heard: Option<Reply>)
      requires Valid() && Reached(t0, Script(worker), k0, server.Topology())
      requires k0 < |Script(worker)| && Script(worker)[k0].fact == HasQueue(queue, args)
      modifies world, world.pool, world.pool.transport, server
      ensures Valid() && old(world.past) <= world.past && server.heard == old(server.heard) + Replies(heard)
      ensures heard.Some? ==>
                && Served(server.Topology(), heard.value) == Serve(old(server.Topology()), HasQueue(queue, args))
                && r == (if heard.value.Accepted? then Ok(true) else Err(Refused(heard.value)))
                && if r.Ok? || Script(worker)[k0].tolerant then Reached(t0, Script(worker), k0 + 1, server.Topology())
                   else Ended(t0, Script(worker), k0 + 1, server.Topology())
      ensures heard.None? ==>
                r.Err? && Unheard(world.state, chance, r.error) && Paused(t0, Script(worker), k0, server.Topology())
    {
      var reply := Request(t0, k0, HasQueue(queue, args), chance);
      heard := if reply.Ok? then Some(reply.value) else None;
      r := if reply.Err? then Err(reply.error) else if reply.value.Accepted? then Ok(true)
          else Err(Refused(reply.value));
    }

    /** src/subscriber.rs:174-193, as request `k0` of the script: the queue it has created or found has the worker's own
        flag and no dead-lettering. */
    method EnsureQueue(ghost t0: Routing.Topology, ghost k0: nat, chance: Chance)
      returns (r: Result<bool, SetupError>, ghost heard: Option<Reply>)
      requires Valid() && Reached(t0, Script(worker), k0, server.Topology())
      requires k0 < |Script(worker)| && Script(worker)[k0] == Op(HasQueue(worker.queue, MainArgs(worker)), false)
      modifies world, world.pool, world.pool.transport, server
      ensures Valid() && old(world.past) <= world.past && server.heard == old(server.heard) + Replies(heard)
      ensures r.Ok? ==>
                && worker.queue in server.queues
                && server.queues[worker.queue].singleActive == worker.singleActive
                && server.queues[worker.queue].deadLetter == None
      ensures heard.Some? ==>
                && r == (if heard.value.Accepted? then Ok(true) else Err(Refused(heard.value)))
                && if r.Ok? then Reached(t0, Script(worker), k0 + 1, server.Topology())
                   else Ended(t0, Script(worker), k0 + 1, server.Topology())
      ensures heard.None? ==>
                r.Err? && Unheard(world.state, chance, r.error) && Paused(t0, Script(worker), k0, server.Topology())
    {
      var args := PLAIN;
      if worker.singleActive {
        args := args.(singleActive := true);
      }
      r, heard := TryDeclareQueue(t0, k0, worker.queue, args, chance);
    }

    /** src/subscriber.rs:195-211, as request `k0` of the script where there is an exchange to bind to, and as none
        otherwise. */
    method EnsureBinding(ghost t0: Routing.Topology, ghost k0: nat, key: string, chance: Chance)
      returns (r: Result<bool, SetupError>, ghost heard: Option<Reply>)
      requires Valid() && Reached(t0, Script(worker), k0, server.Topology()) && k0 <= |Script(worker)|
      requires worker.exchange != "" ==>
                 && k0 < |Script(worker)|
                 && Script(worker)[k0] == Op(HasBinding(Binding(worker.queue, worker.exchange, key)), false)
      modifies world, world.pool, world.pool.transport, server
      ensures Valid() && old(world.past) <= world.past && server.heard == old(server.heard) + Replies(heard)
      ensures worker.exchange == "" ==>
                r == Ok(false) && heard == None && server.Topology() == old(server.Topology())
      ensures worker.exchange != "" && r.Ok? ==>
                Binding(worker.queue, worker.exchange, key) in server.bindings
      ensures heard.Some? ==> r == if heard.value.Accepted? then Ok(true) else Err(Refused(heard.value))
      ensures r.Ok? ==>
                && |Replies(heard)| == |BindOps(worker, key)|
                && Reached(t0, Script(worker), k0 + |BindOps(worker, key)|, server.Topology())
      ensures r.Err? && heard.Some? ==> Ended(t0, Script(worker), k0 + 1, server.Topology())
      ensures r.Err? && heard.None? ==>
                Unheard(world.state, chance, r.error) && Paused(t0, Script(worker), k0, server.Topology())
    {
      heard := None;
      if worker.exchange == "" {
        return Ok(false), heard;
      }
      var reply := Request(t0, k0, HasBinding(Binding(worker.queue, worker.exchange, key)), chance);
      heard := if reply.Ok? then Some(reply.value) else None;
      r := if reply.Err? then Err(reply.error) else if reply.value.Accepted? then Ok(true)
          else Err(Refused(reply.value));
    }

    /** The two `match`es at src/subscriber.rs:237-250 and :252-267, as request `k0` of the script: a 406 is swallowed
        and reported, and only a request without a reply is an error. */
    method DeclareTolerantly(ghost t0: Routing.Topology, ghost k0: nat, queue: string, args: QueueArgs, chance: Chance)
      returns (r: Result<bool, SetupError>, ghost heard: Option<Reply>)
      requires Valid() && Reached(t0, Script(worker), k0, server.Topology())
      requires k0 < |Script(worker)| && Script(worker)[k0] == Op(HasQueue(queue, args), true)
      modifies world, world.pool, world.pool.transport, server
      ensures Valid() && old(world.past) <= world.past && server.heard == old(server.heard) + Replies(heard)
      ensures heard.Some? ==>
                && Reached(t0, Script(worker), k0 + 1, server.Topology())
                && r == Ok(heard == Some(Accepted)) && queue in server.queues
                && (r.value <==> queue !in old(server.queues) || old(server.queues)[queue] == args)
      ensures heard.None? ==>
                r.Err? && Unheard(world.state, chance, r.error) && Paused(t0, Script(worker), k0, server.Topology())
    {
      r, heard := TryDeclareQueue(t0, k0, queue, args, chance);
      if r == Err(Refused(Mismatch)) {
        r := Ok(false);
      }
    }

    /** The two declarations of src/subscriber.rs:233-267, the last requests of the script. */
    method DeclareRetryQueues(ghost t0: Routing.Topology, ghost k0: nat, chances: seq<Chance>)
      returns (r: Result<Option<string>, SetupError>)
      requires Valid() && Reached(t0, Script(worker), k0, server.Topology()) && worker.retry.Some?
      requires k0 + 2 == |Script(worker)| && |chances| == 2
      requires Script(worker)[k0] == Op(HasQueue(RetryQueue(worker.queue), RetryArgs(worker)), true)
      requires Script(worker)[k0 + 1] == Op(HasQueue(DlqQueue(worker.queue), PLAIN), true)
      modifies world, world.pool, world.pool.transport, server
      ensures Valid() && old(world.past) <= world.past
      ensures Concluded(worker, t0, k0, old(server.heard), server.heard, server.Topology(), world.state, chances, r)
      ensures r.Err? ==> !r.error.Refused?
    {
      var retryQueue, dlqQueue := RetryQueue(worker.queue), DlqQueue(worker.queue);
      var ttl := worker.retry.value.delayMs % U32;
      ghost var before, now, heard := server.heard, server.heard, None;
      var declared;
      declared, heard := DeclareTolerantly(t0, k0, retryQueue,
          QueueArgs(false, Some(DeadLetter(worker.exchange, worker.queue, ttl))), chances[0]);
      if declared.Err? {
        RequestFails(worker, t0, k0, before, now, heard, server.Topology(), world.state, chances, 0, declared.error);
        return Err(declared.error);
      }
      now := server.heard;
      declared, heard := DeclareTolerantly(t0, k0 + 1, dlqQueue, PLAIN, chances[1]);
      if declared.Err? {
        RequestFails(worker, t0, k0, before, now, heard, server.Topology(), world.state, chances, 1, declared.error);
        return Err(declared.error);
      }
      SetupSucceeds(worker, t0, k0, before, server.heard, server.Topology(), world.state, chances, Some(retryQueue));
      return Ok(Some(retryQueue));
    }

    /** src/subscriber.rs:213-282: continues the script where `consume` left it; yields the retry queue's name. */
    method SetupRetryInfrastructure(ghost t0: Routing.Topology, ghost k0: nat, chances: seq<Chance>)
      returns (r: Result<Option<string>, SetupError>)
      requires Valid() && Reached(t0, Script(worker), k0, server.Topology())
      requires k0 + |RetryOps(worker)| == |Script(worker)| && |chances| == 3
      modifies world, world.pool, world.pool.transport, server
      ensures Valid() && old(world.past) <= world.past
      ensures Concluded(worker, t0, k0, old(server.heard), server.heard, server.Topology(), world.state, chances, r)
      ensures worker.retry.None? ==> r.Ok?
      ensures r.Err? && r.error.Refused? ==> worker.exchange != ""
    {
      if worker.retry.None? {
        SetupSucceeds(worker, t0, k0, server.heard, server.heard, server.Topology(), world.state, chances, None);
        return Ok(None);
      }
      assert RetryOps(worker) == Script(worker)[k0..];
      assert worker.exchange != "" ==> Script(worker)[k0] == RetryOps(worker)[0];
      ghost var before, heard := server.heard, None;
      var bound;
      bound, heard := EnsureBinding(t0, k0, worker.queue, chances[0]);
      if bound.Err? {
        RequestFails(worker, t0, k0, before, before, heard, server.Topology(), world.state, chances, 0, bound.error);
        return Err(bound.error);
      }
      ghost var now, k := server.heard, k0 + |BindOps(worker, worker.queue)|;
      assert Script(worker)[k] == RetryOps(worker)[k - k0] && Script(worker)[k + 1] == RetryOps(worker)[k + 1 - k0];
      r := DeclareRetryQueues(t0, k, chances[1..]);
      RestConcludes(worker, t0, k0, before, now, server.heard, server.Topology(), world.state, chances, 1, r);
    }

    /** src/subscriber.rs:302-308: declares the main queue again and sets up retry, before anything is consumed. */
    method PrepareToConsume(ghost t0: Routing.Topology, ghost k0: nat, chances: seq<Chance>)
      returns (r: Result<Option<string>, SetupError>)
      requires Valid() && Reached(t0, Script(worker), k0, server.Topology())
      requires k0 + 1 + |RetryOps(worker)| == |Script(worker)| && |chances| == 4
      requires Script(worker)[k0] == Op(HasQueue(worker.queue, MainArgs(worker)), false)
      modifies world, world.pool, world.pool.transport, server
      ensures Valid() && old(world.past) <= world.past
      ensures Concluded(worker, t0, k0, old(server.heard), server.heard, server.Topology(), world.state, chances, r)
    {
      ghost var before, heard := server.heard, None;
      var declared;
      declared, heard := EnsureQueue(t0, k0, chances[0]);
      if declared.Err? {
        RequestFails(worker, t0, k0, before, before, heard, server.Topology(), world.state, chances, 0, declared.error);
        return Err(declared.error);
      }
      ghost var now := server.heard;
      r := SetupRetryInfrastructure(t0, k0 + 1, chances[1..]);
      RestConcludes(worker, t0, k0, before, now, server.heard, server.Topology(), world.state, chances, 1, r);
    }

    /** src/subscriber.rs:642-645: the main queue and its binding, then `consume`. */
    method DeclareAndPrepare(ghost t0: Routing.Topology, ghost k0: nat, chances: seq<Chance>)
      returns (r: Result<Option<string>, SetupError>)
      requires Valid() && Reached(t0, Script(worker), k0, server.Topology())
      requires k0 == |ExchangeOps(worker)| && |chances| == 6
      modifies world, world.pool, world.pool.transport, server
      ensures Valid() && old(world.past) <= world.past
      ensures Concluded(worker, t0, k0, old(server.heard), server.heard, server.Topology(), world.state, chances, r)
    {
      ScriptLayout(worker, k0, |BindOps(worker, worker.key)|);
      ghost var before, now, heard := server.heard, server.heard, None;
      var declared;
      declared, heard := EnsureQueue(t0, k0, chances[0]);
      if declared.Err? {
        RequestFails(worker, t0, k0, before, now, heard, server.Topology(), world.state, chances, 0, declared.error);
        return Err(declared.error);
      }
      now := server.heard;
      var bound;
      bound, heard := EnsureBinding(t0, k0 + 1, worker.key, chances[1]);
      if bound.Err? {
        RequestFails(worker, t0, k0, before, now, heard, server.Topology(), world.state, chances, 1, bound.error);
        return Err(bound.error);
      }
      now := server.heard;
      r := PrepareToConsume(t0, k0 + 1 + |BindOps(worker, worker.key)|, chances[2..]);
      RestConcludes(worker, t0, k0, before, now, server.heard, server.Topology(), world.state, chances, 2, r);
    }

    /** src/subscriber.rs:641-646: everything `build` does before it consumes. The broker ends in the state the worker's
        script describes, as far as the connection let it get, and success means the whole script; all the while the
        worker does not consume. */
    method Build(chances: seq<Chance>) returns (r: Result<Option<string>, SetupError>)
      requires Valid() && |chances| == 7
      modifies world, world.pool, world.pool.transport, server
      ensures Valid() && old(world.past) <= world.past
      ensures Concluded(worker, old(server.Topology()), 0, old(server.heard), server.heard, server.Topology(),
                        world.state, chances, r)
    {
      ghost var t0, before, heard := server.Topology(), server.heard, None;
      var exchange;
      exchange, heard := EnsureExchange(t0, chances[0]);
      if exchange.Err? {
        RequestFails(worker, t0, 0, before, before, heard, server.Topology(), world.state, chances, 0, exchange.error);
        return Err(exchange.error);
      }
      ghost var now := server.heard;
      r := DeclareAndPrepare(t0, |ExchangeOps(worker)|, chances[1..]);
      RestConcludes(worker, t0, 0, before, now, server.heard, server.Topology(), world.state, chances, 1, r);
    }
  }

  /** What a successful `Build` leaves is what the message loop needs, whatever was there before. */
  lemma BuiltMeansReady(t0: Routing.Topology, w: Worker, t: Routing.Topology)
    requires Reached(t0, Script(w), |Script(w)|, t)
    ensures Ready(t, w)
  {
    ArrivesIff(t0, Script(w), |Script(w)|, State(t, [At(|Script(w)|)]));
    assert Scripts([w]) == [Script(w)];
    FinishedMeansReady([w], t0, seq(|Script(w)|, _ => 0), 0);
  }
}
