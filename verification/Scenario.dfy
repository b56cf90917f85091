/** A run that duplicates a message although its channel closed before the republication, not between republication and
    acknowledgement: the handler is still running when the channel goes (src/subscriber.rs:512-575,
    src/pool.rs:74-96). */
module Scenario {
  import opened Wrappers
  import opened Sums
  import opened Amqp
  import opened Routing
  import opened Wire
  import opened Protocol
  import opened Ledger
  import opened Accounting
  import opened Duplicates

  /** One worker on queue q of the nameless exchange, prefetch 1, three retries. */
  const CFG := Config(
    Topology(map[],
        map["q" := PLAIN, "q.retry" := QueueArgs(false, Some(DeadLetter("", "q", 5000))), "q.dlq" := PLAIN], {}),
    [WorkerSpec("q", 1, Some(3))])

  const MESSAGE := Msg(0, "q", [], None, [])

  const PUBLISH := External("", "q", [], None, ["q"])

  /** The publish is accepted; the worker opens its channel, takes the message and starts its handler. */
  const OPENING := [PUBLISH] + [BootOpen(0, true)] + [BootQos(0)] + [BootConsume(0)] + [Deliver(0)]

  /** The channel closes and the message goes back to its queue, while the handler is still running. */
  const CLOSING := [BrokerDown(0)] + [ClientDown(0)] + [Requeue(0, 0)]

  /** The handler fails; its task takes a new channel and the broker processes its republication there. */
  const REPUBLISHING := [Handle(0, false)] + [Take(0, true)] + [SendPublish(0)] + [Process(1)]

  const LINK := Link(true, true, 1, [])

  const TASK := Delivery(0, MESSAGE, 0, 0, "q", Some(3), 0, Running, Pending, Unsent, Open)

  const DELIVERED := State(
    0, map["q" := [], "q.retry" := [], "q.dlq" := []], [Copy(MESSAGE, 0, false, InFlight(0))],
        [Origin([], None, ["q"])],
    [LINK], Some(0), [Consuming(0)], [Consumer(0, 0, 1)], [TASK])

  function Queued(links: seq<Link>, cached: Option<nat>, boot: Boot, consumers: seq<Consumer>): State {
    State(0, map["q" := [0], "q.retry" := [], "q.dlq" := []], [Copy(MESSAGE, 0, false, Ready("q"))],
          [Origin([], None, ["q"])], links, cached, [boot], consumers, [])
  }

  const RETURNED := DELIVERED.(
    queues := map["q" := [0], "q.retry" := [], "q.dlq" := []], copies := [Copy(MESSAGE, 0, false, Ready("q"))],
    links := [Link(false, false, 1, [])], deliveries := [TASK.(settled := Requeued)])

  lemma Names()
    ensures RetryQueue("q") == "q.retry" && DlqQueue("q") == "q.dlq"
    ensures CFG.workers[0].queue == "q" && |CFG.workers| == 1
    ensures Route(CFG.topology, "", "q") == {"q"}
  {
  }

  lemma CfgIsIsolated()
    ensures Isolated(CFG) && IsMain(CFG, "q")
  {
    Names();
    assert CFG.workers[0].queue == "q";
  }

  predicate Goes(s: State, st: Step, s': State) { Enabled(CFG, s, st) && Apply(CFG, s, st) == s' }

  lemma OneMore(s: State, steps: seq<Step>, s1: State, st: Step, s2: State)
    requires Leads(CFG, s, steps, s1) && Goes(s1, st, s2)
    ensures Leads(CFG, s, steps + [st], s2)
  {
    LeadsOne(CFG, s1, st);
    LeadsThen(CFG, s, steps, s1, [st], s2);
  }

  // ----- opening -----

  lemma EnqueueOne(s: State, q: string, m: Msg)
    requires q in s.queues
    ensures EnqueueAll(s, [q], m, true) == Enqueue(s, q, m.(home := q), false)
  {
    assert [q][..0] == [];
    assert EnqueueAll(s, [], m, true) == s;
  }

  lemma Accepted()
    ensures Goes(Init(CFG), PUBLISH, Queued([], None, Idle, []))
  {
    Names();
    var s0 := Init(CFG);
    assert s0.queues == map["q" := [], "q.retry" := [], "q.dlq" := []];
    assert s0.boots == [Idle];
    assert Enumerates(["q"], {"q"});
    assert Enabled(CFG, s0, PUBLISH);
    var s1 := s0.(origins := s0.origins + [Origin([], None, ["q"])]);
    EnqueueOne(s1, "q", NewMsg(s0, [], None));
    assert s1.origins == [Origin([], None, ["q"])];
    assert Apply(CFG, s0, PUBLISH) == EnqueueAll(s1, ["q"], NewMsg(s0, [], None), true);
    var s2 := Enqueue(s1, "q", MESSAGE, false);
    assert s1.queues["q"] + [|s1.copies|] == [0];
    assert s2.queues == s1.queues["q" := [0]];
    assert s2.queues == map["q" := [0], "q.retry" := [], "q.dlq" := []];
    assert s2.copies == [Copy(MESSAGE, 0, false, Ready("q"))];
  }

  lemma Booted()
    ensures Goes(Queued([], None, Idle, []), BootOpen(0, true), Queued([LINK.(qos := 0)], Some(0), Opened(0), []))
    ensures Goes(Queued([LINK.(qos := 0)], Some(0), Opened(0), []), BootQos(0), Queued([LINK], Some(0), Limited(0), []))
    ensures Goes(Queued([LINK], Some(0), Limited(0), []), BootConsume(0),
                 Queued([LINK], Some(0), Consuming(0), [Consumer(0, 0, 1)]))
  {
  }

  lemma Taken()
    ensures Goes(Queued([LINK], Some(0), Consuming(0), [Consumer(0, 0, 1)]), Deliver(0), DELIVERED)
  {
    var s := Queued([LINK], Some(0), Consuming(0), [Consumer(0, 0, 1)]);
    Names();
    assert CanDeliver(CFG, s, 0);
    var s' := DoDeliver(CFG, s, 0);
    assert s'.queues == DELIVERED.queues;
    assert s'.copies == DELIVERED.copies;
    assert s'.deliveries == DELIVERED.deliveries;
  }

  lemma Opens()
    ensures Leads(CFG, Init(CFG), OPENING, DELIVERED)
  {
    Accepted();
    Booted();
    Taken();
    LeadsOne(CFG, Init(CFG), PUBLISH);
    var s1, s2 := Queued([], None, Idle, []), Queued([LINK.(qos := 0)], Some(0), Opened(0), []);
    var s3, s4 := Queued([LINK], Some(0), Limited(0), []), Queued([LINK], Some(0), Consuming(0), [Consumer(0, 0, 1)]);
    OneMore(Init(CFG), [PUBLISH], s1, BootOpen(0, true), s2);
    OneMore(Init(CFG), [PUBLISH] + [BootOpen(0, true)], s2, BootQos(0), s3);
    OneMore(Init(CFG), [PUBLISH] + [BootOpen(0, true)] + [BootQos(0)], s3, BootConsume(0), s4);
    OneMore(Init(CFG), [PUBLISH] + [BootOpen(0, true)] + [BootQos(0)] + [BootConsume(0)], s4, Deliver(0), DELIVERED);
  }

  // ----- closing -----

  lemma Closes()
    ensures Leads(CFG, DELIVERED, CLOSING, RETURNED)
  {
    Names();
    var s1, s2 := DELIVERED.(links := [Link(true, false, 1, [])]), DELIVERED.(links := [Link(false, false, 1, [])]);
    assert Goes(DELIVERED, BrokerDown(0), s1);
    assert Goes(s1, ClientDown(0), s2);
    var s3 := DoRequeue(s2, 0, 0);
    assert s2.queues["q"] == [] && [] + [0] + [] == [0];
    assert s3.queues == s2.queues["q" := [0]];
    assert s3.queues == RETURNED.queues;
    assert s3.copies == RETURNED.copies;
    assert s3.deliveries == RETURNED.deliveries;
    assert Goes(s2, Requeue(0, 0), RETURNED);
    LeadsOne(CFG, DELIVERED, BrokerDown(0));
    OneMore(DELIVERED, [BrokerDown(0)], s1, ClientDown(0), s2);
    OneMore(DELIVERED, [BrokerDown(0)] + [ClientDown(0)], s2, Requeue(0, 0), RETURNED);
  }

  // ----- republishing -----

  const DECIDED := TASK.(settled := Requeued, pc := Decided, verdict := Rejected)

  const LINKS := [Link(false, false, 1, []), FRESH]

  const FRAME := Wire.Publish(0, "q.retry", [], RetryHeaders(0))

  /** The returned message is in its queue, its retry in the retry queue; the stale delivery is not acknowledged. */
  const DOUBLED := RETURNED.(
    queues := map["q" := [0], "q.retry" := [1], "q.dlq" := []],
    copies := [Copy(MESSAGE, 0, false, Ready("q")),
        Copy(Msg(0, "q", [], RetryHeaders(0), [0]), 0, false, Ready("q.retry"))],
    links := LINKS, cached := Some(1), deliveries := [DECIDED.(pc := Published, forward := Effective(1))])

  lemma Republishes()
    ensures Leads(CFG, RETURNED, REPUBLISHING, DOUBLED)
  {
    var s1 := RETURNED.(deliveries := [DECIDED]);
    var s2 := RETURNED.(links := LINKS, cached := Some(1), deliveries := [DECIDED.(pc := Holding(1))]);
    var s3 := s2.(links := [LINKS[0], FRESH.(wire := [FRAME])],
        deliveries := [DECIDED.(pc := Published, forward := Sent(1))]);
    Decides(s1, s2);
    Sends(s2, s3);
    Arrives(s3);
    LeadsOne(CFG, RETURNED, Handle(0, false));
    OneMore(RETURNED, [Handle(0, false)], s1, Take(0, true), s2);
    OneMore(RETURNED, [Handle(0, false)] + [Take(0, true)], s2, SendPublish(0), s3);
    OneMore(RETURNED, [Handle(0, false)] + [Take(0, true)] + [SendPublish(0)], s3, Process(1), DOUBLED);
  }

  lemma Decides(s1: State, s2: State)
    requires s1 == RETURNED.(deliveries := [DECIDED])
    requires s2 == RETURNED.(links := LINKS, cached := Some(1), deliveries := [DECIDED.(pc := Holding(1))])
    ensures Goes(RETURNED, Handle(0, false), s1) && Goes(s1, Take(0, true), s2)
  {
    assert RETURNED.links + [FRESH] == LINKS;
  }

  lemma Sends(s2: State, s3: State)
    requires s2 == RETURNED.(links := LINKS, cached := Some(1), deliveries := [DECIDED.(pc := Holding(1))])
    requires s3 == s2.(links := [LINKS[0], FRESH.(wire := [FRAME])],
                       deliveries := [DECIDED.(pc := Published, forward := Sent(1))])
    ensures Goes(s2, SendPublish(0), s3)
  {
    Names();
    assert RetryCount(None) == 0;
    assert PublishFrame(0, s2.deliveries[0]) == FRAME;
    assert FRESH.wire + [FRAME] == [FRAME];
    assert Apply(CFG, s2, SendPublish(0)).links == s3.links;
  }

  lemma Arrives(s3: State)
    requires s3 == RETURNED.(links := [LINKS[0], FRESH.(wire := [FRAME])], cached := Some(1),
                             deliveries := [DECIDED.(pc := Published, forward := Sent(1))])
    ensures Goes(s3, Process(1), DOUBLED)
  {
    assert RetryCount(None) == 0;
    var s4 := DoProcess(s3, 1);
    assert s3.queues["q.retry"] + [1] == [1];
    assert s4.queues == DOUBLED.queues;
    var d := s3.deliveries[0];
    assert d.msg.trail + [0] == [0] && Retries(d);
    assert Protocol.Republished(d, FRAME, 0) == DOUBLED.copies[1].msg;
    assert s3.links[1].wire[1..] == [];
    assert s4.copies == s3.copies + [DOUBLED.copies[1]];
    assert s4.copies == DOUBLED.copies;
    assert s4.links == DOUBLED.links;
  }

  lemma CountsInDoubled()
    ensures var s, o := DOUBLED, LineOf(0, "q");
            && Sum(s.deliveries, Bereft(o, s.links)) == 0 && Sum(s.deliveries, Awaiting(o, s.links)) == 0
            && Sum(s.copies, Present(o)) == 2
  {
    var s, o := DOUBLED, LineOf(0, "q");
    SumZero(s.deliveries, Bereft(o, s.links));
    SumZero(s.deliveries, Awaiting(o, s.links));
    SumBounds(s.copies, Present(o), 1, 1);
  }

  /** In a run of steps each taken in turn, no channel closes after the republication, none was lost between
      republication and acknowledgement and none is awaited, and yet one accepted message ends as two: "one plus the
      channels that died between republication and acknowledgement" is not the number of copies.
      Duplicates.DuplicatesByCause says when it is. */
  lemma DuplicateWithoutLateClosure()
    ensures Isolated(CFG) && Leads(CFG, Init(CFG), OPENING + CLOSING, RETURNED)
    ensures RETURNED.deliveries[0].forward == Unsent
    ensures Leads(CFG, Init(CFG), OPENING + CLOSING + REPUBLISHING, DOUBLED)
    ensures var s, o := DOUBLED, LineOf(0, "q");
            && |s.origins| == 1 && s.origins[0].targets == ["q"]
            && Sum(s.deliveries, Bereft(o, s.links)) == 0 && Sum(s.deliveries, Awaiting(o, s.links)) == 0
            && Sum(s.copies, Present(o)) == 2
  {
    CfgIsIsolated();
    Opens();
    Closes();
    Republishes();
    LeadsThen(CFG, Init(CFG), OPENING, DELIVERED, CLOSING, RETURNED);
    LeadsThen(CFG, Init(CFG), OPENING + CLOSING, RETURNED, REPUBLISHING, DOUBLED);
    CountsInDoubled();
  }
}
