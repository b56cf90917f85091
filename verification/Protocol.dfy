/** The delivery protocol as a step system: worker start-up, the message loop's tasks await by await
    (src/subscriber.rs:324-354, :403-455, :483-633), the shared channel of src/pool.rs, and the broker.

    Assumptions about the broker, stated here and nowhere else:
    - it processes the frames of one channel in the order they were sent (section 4.7 of AMQP 0-9-1);
    - a message enters each queue it is routed to once;
    - a queue's TTL is measured from entry and only its head is ever expired; dead-lettering keeps the headers;
    - `basic.qos` with global=false sets the limit of consumers created afterwards on that channel;
    - with x-single-active-consumer only the oldest remaining consumer is served, and a closed channel's consumer counts
      as removed once its deliveries have been returned;
    - a closed channel stays closed, and its unacknowledged deliveries go back to their queue. */
module Protocol {
  import opened Wrappers
  import opened Sums
  import opened Amqp
  import opened Routing
  import opened Wire
  import opened Pool

  type Bytes = seq<byte>

  // ----- messages and where they are -----

  /** `origin` is the external publish a message descends from, `home` the queue that accepted it then, `trail` the
      times its failures were republished: history that travels along, read by no step. */
  datatype Msg = Msg(origin: nat, home: string, payload: Bytes, headers: Headers, trail: seq<nat>)

  /** How a copy left the queues; `tag` is the delivery that settled it. */
  datatype End = Succeeded(tag: nat) | Discarded(tag: nat) | Forwarded(tag: nat) | Released

  datatype Place = Ready(queue: string) | InFlight(tag: nat) | Finished(end: End)

  /** One message instance at the broker; `at` is when it entered its queue, `dead` marks dead-letter copies. */
  datatype Copy = Copy(msg: Msg, at: nat, dead: bool, place: Place)

  datatype Origin = Origin(payload: Bytes, headers: Headers, targets: seq<string>)

  function Count(m: Msg): u32 { RetryCount(m.headers) }

  // ----- the client's tasks -----

  datatype Pc = Running | Decided | Holding(channel: nat) | Published | Done | Stuck

  datatype Forward = Unsent | Sent(channel: nat) | Effective(channel: nat)

  datatype Verdict = Pending | Passed | Rejected

  datatype Settled = Open | Acked | Nacked | Requeued

  /** One delivery and the task handling it. `limit` is the worker's retry setting, `verdict` the handler's result. */
  datatype Delivery = Delivery(
    copy: nat, msg: Msg, consumer: nat, channel: nat, queue: string, limit: Option<u32>, at: nat,
    pc: Pc, verdict: Verdict, forward: Forward, settled: Settled)

  datatype Consumer = Consumer(worker: nat, channel: nat, prefetch: nat)

  datatype Boot = Idle | Opened(channel: nat) | Limited(channel: nat) | Consuming(consumer: nat) | Failed

  datatype WorkerSpec = WorkerSpec(queue: string, prefetch: nat, limit: Option<u32>)

  datatype Config = Config(topology: Topology, workers: seq<WorkerSpec>)

  datatype State = State(
    now: nat,
    queues: map<string, seq<nat>>, copies: seq<Copy>, origins: seq<Origin>,
    links: seq<Link>, cached: Option<nat>,
    boots: seq<Boot>, consumers: seq<Consumer>, deliveries: seq<Delivery>)

  function Init(cfg: Config): State {
    State(0, map q | q in cfg.topology.queues :: [], [], [], [], None, seq(|cfg.workers|, _ => Idle), [], [])
  }

  // ----- what a failed task sends -----

  predicate Retries(d: Delivery) { d.limit.Some? && Count(d.msg) < d.limit.value }

  /** Queue and headers of the publish on the failure path (src/subscriber.rs:543-590). */
  function Target(d: Delivery): string {
    if Retries(d) then RetryQueue(d.queue) else DlqQueue(d.queue)
  }

  function OutHeaders(d: Delivery): Headers {
    if Retries(d) then RetryHeaders(Count(d.msg)) else None
  }

  function PublishFrame(t: nat, d: Delivery): Frame { Publish(t, Target(d), d.msg.payload, OutHeaders(d)) }

  /** The frame that settles a delivery once its outcome is decided. */
  function SettleFrame(t: nat, d: Delivery): Frame {
    if d.verdict.Rejected? && d.limit.None? then Nack(t) else Ack(t)
  }

  predicate MustForward(d: Delivery) { d.verdict.Rejected? && d.limit.Some? }

  predicate MaySettle(d: Delivery) {
    if MustForward(d) then d.pc == Published else d.pc == Decided
  }

  // ----- steps -----

  /** `Borrow` is a channel taken for a set-up request or a publish of this process, src/pool.rs:74-96. */
  datatype Step =
    | External(exchange: string, key: string, payload: Bytes, headers: Headers, targets: seq<string>)
    | Borrow(canCreate: bool)
    | BootOpen(w: nat, canCreate: bool)
    | BootQos(w: nat)
    | BootConsume(w: nat)
    | BootFail(w: nat)
    | Deliver(k: nat)
    | Handle(t: nat, ok: bool)
    | Take(t: nat, canCreate: bool)
    | SendPublish(t: nat)
    | SendSettle(t: nat)
    | GiveUp(t: nat)
    | Process(c: nat)
    | Expire(queue: string, targets: seq<string>)
    | ClientDown(c: nat)
    | BrokerDown(c: nat)
    | Requeue(t: nat, index: nat)
    | Tick(d: nat)

  predicate Enumerates(qs: seq<string>, s: set<string>) {
    Distinct(qs) && (set q | q in qs) == s
  }

  function OpenOf(k: nat): Delivery -> nat {
    (d: Delivery) => if d.consumer == k && d.settled.Open? then 1 else 0
  }

  /** A consumer is gone from its queue once its channel is closed and its deliveries have been returned. */
  predicate Gone(s: State, k: nat)
    requires k < |s.consumers|
  {
    && s.consumers[k].channel < |s.links| && !s.links[s.consumers[k].channel].broker
    && Sum(s.deliveries, OpenOf(k)) == 0
  }

  function QueueOf(cfg: Config, s: State, k: nat): string
    requires k < |s.consumers|
  {
    var w := s.consumers[k].worker;
    if w < |cfg.workers| then cfg.workers[w].queue else ""
  }

  /** With x-single-active-consumer only the oldest remaining consumer of the queue is served. */
  predicate Active(cfg: Config, s: State, k: nat)
    requires k < |s.consumers|
  {
    forall j :: 0 <= j < k && QueueOf(cfg, s, j) == QueueOf(cfg, s, k) ==> Gone(s, j)
  }

  predicate CanDeliver(cfg: Config, s: State, k: nat) {
    && k < |s.consumers|
    && var con := s.consumers[k]; var q := QueueOf(cfg, s, k);
    && con.worker < |cfg.workers| && con.channel < |s.links| && s.links[con.channel].broker
    && q in s.queues && q in cfg.topology.queues && s.queues[q] != [] && s.queues[q][0] < |s.copies|
    && (con.prefetch > 0 ==> Sum(s.deliveries, OpenOf(k)) < con.prefetch)
    && (cfg.topology.queues[q].singleActive ==> Active(cfg, s, k))
  }

  predicate CanExpire(cfg: Config, s: State, queue: string, targets: seq<string>) {
    && queue in s.queues && Expires(cfg.topology, queue)
    && s.queues[queue] != [] && s.queues[queue][0] < |s.copies|
    && s.copies[s.queues[queue][0]].at + cfg.topology.queues[queue].deadLetter.value.ttl <= s.now
    && Enumerates(targets, ExpiryTargets(cfg.topology, queue))
    && forall q :: q in targets ==> q in s.queues
  }

  predicate Enabled(cfg: Config, s: State, st: Step) {
    match st
    case External(exchange, key, _, _, targets) =>
      Enumerates(targets, Route(cfg.topology, exchange, key)) && forall q :: q in targets ==> q in s.queues
    case Borrow(_) => true
    case BootOpen(w, _) => w < |s.boots| && s.boots[w].Idle?
    case BootQos(w) =>
      && w < |s.boots| && w < |cfg.workers| && s.boots[w].Opened?
      && s.boots[w].channel < |s.links| && s.links[s.boots[w].channel].client
    case BootConsume(w) =>
      && w < |s.boots| && w < |cfg.workers| && s.boots[w].Limited?
      && s.boots[w].channel < |s.links| && s.links[s.boots[w].channel].client && s.links[s.boots[w].channel].broker
    case BootFail(w) => w < |s.boots| && (s.boots[w].Idle? || s.boots[w].Opened? || s.boots[w].Limited?)
    case Deliver(k) => CanDeliver(cfg, s, k)
    case Handle(t, _) => t < |s.deliveries| && s.deliveries[t].pc.Running?
    case Take(t, _) => t < |s.deliveries| && s.deliveries[t].pc.Decided? && MustForward(s.deliveries[t])
    case SendPublish(t) =>
      && t < |s.deliveries| && s.deliveries[t].pc.Holding?
      && s.deliveries[t].pc.channel < |s.links| && s.links[s.deliveries[t].pc.channel].client
    case SendSettle(t) =>
      && t < |s.deliveries| && MaySettle(s.deliveries[t])
      && s.deliveries[t].channel < |s.links| && s.links[s.deliveries[t].channel].client
    case GiveUp(t) => 
      t < |s.deliveries| &&
          (s.deliveries[t].pc.Decided? || s.deliveries[t].pc.Holding? || s.deliveries[t].pc.Published?)
    case Process(c) =>
      && c < |s.links| && s.links[c].broker && s.links[c].wire != []
      && s.links[c].wire[0].tag < |s.deliveries|
    case Expire(queue, targets) => CanExpire(cfg, s, queue, targets)
    case ClientDown(c) => c < |s.links|
    case BrokerDown(c) => c < |s.links|
    case Requeue(t, index) =>
      && t < |s.deliveries| && s.deliveries[t].settled.Open?
      && s.deliveries[t].channel < |s.links| && !s.links[s.deliveries[t].channel].broker
      && s.deliveries[t].copy < |s.copies|
      && s.deliveries[t].queue in s.queues && index <= |s.queues[s.deliveries[t].queue]|
    case Tick(_) => true
  }

  // ----- effects -----

  function Enqueue(s: State, q: string, m: Msg, dead: bool): State
    requires q in s.queues
  {
    s.(copies := s.copies + [Copy(m, s.now, dead, Ready(q))],
       queues := s.queues[q := s.queues[q] + [|s.copies|]])
  }

  function NewMsg(s: State, payload: Bytes, headers: Headers): Msg { Msg(|s.origins|, "", payload, headers, []) }

  /** A message accepted for the first time is at home where it enters. */
  function Entering(m: Msg, q: string, first: bool): Msg { if first then m.(home := q) else m }

  function EnqueueAll(s: State, qs: seq<string>, m: Msg, first: bool): (s': State)
    requires forall q :: q in qs ==> q in s.queues
    ensures s'.queues.Keys == s.queues.Keys && s'.now == s.now
  {
    if qs == [] then s
    else
      var q := qs[|qs| - 1];
      Enqueue(EnqueueAll(s, qs[..|qs| - 1], m, first), q, Entering(m, q, first), false)
  }

  function SetTask(s: State, t: nat, d: Delivery): State
    requires t < |s.deliveries|
  {
    s.(deliveries := s.deliveries[t := d])
  }

  function SetLink(s: State, c: nat, l: Link): State
    requires c < |s.links|
  {
    s.(links := s.links[c := l])
  }

  function SetPlace(s: State, c: nat, p: Place): State
    requires c < |s.copies|
  {
    s.(copies := s.copies[c := s.copies[c].(place := p)])
  }

  function DoDeliver(cfg: Config, s: State, k: nat): State
    requires CanDeliver(cfg, s, k)
  {
    var con := s.consumers[k];
    var spec := cfg.workers[con.worker];
    var id := s.queues[spec.queue][0];
    var d := Delivery(id, s.copies[id].msg, k, con.channel, spec.queue, spec.limit, s.now,
                      Running, Pending, Unsent, Open);
    SetPlace(s, id, InFlight(|s.deliveries|))
      .(queues := s.queues[spec.queue := s.queues[spec.queue][1..]],
        deliveries := s.deliveries + [d])
  }

  /** The outcome of a broker-processed publish: the frame's content under the sender's history. */
  function Republished(d: Delivery, f: Frame, now: nat): Msg
    requires f.Publish?
  {
    Msg(d.msg.origin, d.msg.home, f.payload, f.headers, d.msg.trail + [now])
  }

  function Settle(s: State, t: nat, settled: Settled, end: End): State
    requires t < |s.deliveries|
  {
    var d := s.deliveries[t];
    var s1 := SetTask(s, t, d.(settled := settled));
    if d.settled.Open? && d.copy < |s.copies| then SetPlace(s1, d.copy, Finished(end)) else s1
  }

  function DoProcess(s: State, c: nat): State
    requires c < |s.links| && s.links[c].wire != [] && s.links[c].wire[0].tag < |s.deliveries|
  {
    var f := s.links[c].wire[0];
    var d := s.deliveries[f.tag];
    var s1 := SetLink(s, c, s.links[c].(wire := s.links[c].wire[1..]));
    match f
    case Publish(t, key, _, _) =>
      var s2 := SetTask(s1, t, d.(forward := Effective(c)));
      if key in s.queues then Enqueue(s2, key, Republished(d, f, s.now), !Retries(d)) else s2
    case Ack(t) => Settle(s1, t, Acked, if d.verdict.Passed? then Succeeded(t) else Forwarded(t))
    case Nack(t) => Settle(s1, t, Nacked, Discarded(t))
  }

  function DoExpire(s: State, queue: string, targets: seq<string>): State
    requires queue in s.queues && s.queues[queue] != [] && s.queues[queue][0] < |s.copies|
    requires forall q :: q in targets ==> q in s.queues
  {
    var id := s.queues[queue][0];
    var s1 := SetPlace(s, id, Finished(Released)).(queues := s.queues[queue := s.queues[queue][1..]]);
    EnqueueAll(s1, targets, s.copies[id].msg, false)
  }

  function DoRequeue(s: State, t: nat, index: nat): State
    requires t < |s.deliveries| && s.deliveries[t].copy < |s.copies|
    requires s.deliveries[t].queue in s.queues && index <= |s.queues[s.deliveries[t].queue]|
  {
    var d := s.deliveries[t];
    var q := s.queues[d.queue];
    SetPlace(SetTask(s, t, d.(settled := Requeued)), d.copy, Ready(d.queue))
      .(queues := s.queues[d.queue := q[..index] + [d.copy] + q[index..]])
  }

  function Apply(cfg: Config, s: State, st: Step): State
    requires Enabled(cfg, s, st)
  {
    match st
    case External(_, _, payload, headers, targets) =>
      EnqueueAll(s.(origins := s.origins + [Origin(payload, headers, targets)]), targets,
                 NewMsg(s, payload, headers), true)
    case Borrow(canCreate) =>
      var g := Acquire(s.links, s.cached, canCreate);
      s.(links := g.links, cached := g.cached)
    case BootOpen(w, canCreate) =>
      var g := Acquire(s.links, s.cached, canCreate);
      s.(links := g.links, cached := g.cached,
         boots := s.boots[w := if g.channel.Some? then Opened(g.channel.value) else Failed])
    case BootQos(w) =>
      var c := s.boots[w].channel;
      SetLink(s, c, s.links[c].(qos := cfg.workers[w].prefetch)).(boots := s.boots[w := Limited(c)])
    case BootConsume(w) =>
      var c := s.boots[w].channel;
      s.(consumers := s.consumers + [Consumer(w, c, s.links[c].qos)],
         boots := s.boots[w := Consuming(|s.consumers|)])
    case BootFail(w) => s.(boots := s.boots[w := Failed])
    case Deliver(k) => DoDeliver(cfg, s, k)
    case Handle(t, ok) => SetTask(s, t, s.deliveries[t].(pc := Decided, verdict := if ok then Passed else Rejected))
    case Take(t, canCreate) =>
      var g := Acquire(s.links, s.cached, canCreate);
      SetTask(s.(links := g.links, cached := g.cached), t,
              s.deliveries[t].(pc := if g.channel.Some? then Holding(g.channel.value) else Stuck))
    case SendPublish(t) =>
      var d := s.deliveries[t];
      SetTask(SetLink(s, d.pc.channel, Send(s.links[d.pc.channel], PublishFrame(t, d))), t,
              d.(pc := Published, forward := Sent(d.pc.channel)))
    case SendSettle(t) =>
      var d := s.deliveries[t];
      SetTask(SetLink(s, d.channel, Send(s.links[d.channel], SettleFrame(t, d))), t, d.(pc := Done))
    case GiveUp(t) => SetTask(s, t, s.deliveries[t].(pc := Stuck))
    case Process(c) => DoProcess(s, c)
    case Expire(queue, targets) => DoExpire(s, queue, targets)
    case ClientDown(c) => SetLink(s, c, s.links[c].(client := false))
    case BrokerDown(c) => SetLink(s, c, s.links[c].(broker := false, wire := []))
    case Requeue(t, index) => DoRequeue(s, t, index)
    case Tick(d) => s.(now := s.now + d)
  }

  /** A step that cannot be taken leaves the state alone, so every list of steps is a run. */
  function Next(cfg: Config, s: State, st: Step): State {
    if Enabled(cfg, s, st) then Apply(cfg, s, st) else s
  }

  function Exec(cfg: Config, s: State, steps: seq<Step>): State {
    if steps == [] then s else Next(cfg, Exec(cfg, s, steps[..|steps| - 1]), steps[|steps| - 1])
  }

  function Run(cfg: Config, steps: seq<Step>): State { Exec(cfg, Init(cfg), steps) }

  /** Every step of the list could be taken when its turn came. */
  predicate AllTaken(cfg: Config, s: State, steps: seq<Step>) {
    if steps == [] then true
    else
      var front := steps[..|steps| - 1];
      AllTaken(cfg, s, front) && Enabled(cfg, Exec(cfg, s, front), steps[|steps| - 1])
  }

  lemma {:induction false} ExecConcat(cfg: Config, s: State, a: seq<Step>, b: seq<Step>)
    ensures Exec(cfg, s, a + b) == Exec(cfg, Exec(cfg, s, a), b)
    ensures AllTaken(cfg, s, a + b) <==> AllTaken(cfg, s, a) && AllTaken(cfg, Exec(cfg, s, a), b)
  {
    if b == [] {
      assert a + b == a;
    } else {
      assert (a + b)[..|a + b| - 1] == a + b[..|b| - 1];
      ExecConcat(cfg, s, a, b[..|b| - 1]);
    }
  }

  /** `steps` lead from `s` to `s'`, each taken when its turn comes. */
  predicate Leads(cfg: Config, s: State, steps: seq<Step>, s': State) {
    AllTaken(cfg, s, steps) && Exec(cfg, s, steps) == s'
  }

  lemma {:induction false} LeadsOne(cfg: Config, s: State, st: Step)
    requires Enabled(cfg, s, st)
    ensures Leads(cfg, s, [st], Apply(cfg, s, st))
  {
    assert [st][..0] == [];
    assert Exec(cfg, s, []) == s && AllTaken(cfg, s, []);
    assert AllTaken(cfg, s, [st]) && Exec(cfg, s, [st]) == Apply(cfg, s, st);
  }

  lemma {:induction false} LeadsThen(cfg: Config, s: State, a: seq<Step>, s1: State, b: seq<Step>, s2: State)
    requires Leads(cfg, s, a, s1) && Leads(cfg, s1, b, s2)
    ensures Leads(cfg, s, a + b, s2)
  {
    ExecConcat(cfg, s, a, b);
  }

  lemma {:induction false} RunOneMore(cfg: Config, past: seq<Step>, st: Step)
    requires Enabled(cfg, Run(cfg, past), st)
    ensures Run(cfg, past + [st]) == Apply(cfg, Run(cfg, past), st)
  {
    assert (past + [st])[..|past|] == past;
  }
}
