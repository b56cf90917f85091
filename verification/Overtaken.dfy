/** Prefetch 1 and spawned tasks: the broker hands out the second message once the first is acknowledged, the second
    starts, and the `after` functions of the first find the headers of the second (src/subscriber.rs:521-527,
    :613-624). */
module Overtaken {
  import opened Wrappers
  import opened Amqp
  import opened Protocol
  import opened Visibility
  import Sums
  import Wire
  import opened Scenario

  const OTHER: Headers := Some(map[])

  const SECOND := Msg(1, "q", [], OTHER, [])

  const PUBLISH2 := External("", "q", [], OTHER, ["q"])

  const ORIGINS := [Origin([], None, ["q"]), Origin([], OTHER, ["q"])]

  // ----- the states after DELIVERED -----

  const WAITING := DELIVERED.(
    queues := map["q" := [1], "q.retry" := [], "q.dlq" := []], origins := ORIGINS,
    copies := [Copy(MESSAGE, 0, false, InFlight(0)), Copy(SECOND, 0, false, Ready("q"))])

  const HANDLED := WAITING.(deliveries := [TASK.(pc := Decided, verdict := Passed)])

  const ANSWERED := WAITING.(
    links := [LINK.(wire := [Wire.Ack(0)])], deliveries := [TASK.(pc := Done, verdict := Passed)])

  const FIRST_DONE := TASK.(pc := Done, verdict := Passed, settled := Acked)

  const ACKED := WAITING.(
    copies := [Copy(MESSAGE, 0, false, Finished(Succeeded(0))), Copy(SECOND, 0, false, Ready("q"))],
        deliveries := [FIRST_DONE])

  const BOTH := ACKED.(
    queues := map["q" := [], "q.retry" := [], "q.dlq" := []],
    copies := [Copy(MESSAGE, 0, false, Finished(Succeeded(0))), Copy(SECOND, 0, false, InFlight(1))],
    deliveries := [FIRST_DONE, Delivery(1, SECOND, 0, 0, "q", Some(3), 0, Running, Pending, Unsent, Open)])

  lemma SecondArrives()
    ensures Goes(DELIVERED, PUBLISH2, WAITING)
  {
    Names();
    assert Enumerates(["q"], {"q"});
    var s1 := DELIVERED.(origins := DELIVERED.origins + [Origin([], OTHER, ["q"])]);
    EnqueueOne(s1, "q", NewMsg(DELIVERED, [], OTHER));
    assert Apply(CFG, DELIVERED, PUBLISH2) == EnqueueAll(s1, ["q"], NewMsg(DELIVERED, [], OTHER), true);
    var s2 := Enqueue(s1, "q", SECOND, false);
    assert s1.origins == ORIGINS;
    assert s1.queues["q"] + [|s1.copies|] == [1];
    assert s2.queues == s1.queues["q" := [1]];
    assert s2.queues == WAITING.queues;
    assert s2.copies == WAITING.copies;
  }

  lemma FirstSettles()
    ensures Goes(WAITING, Handle(0, true), HANDLED) && Goes(HANDLED, SendSettle(0), ANSWERED)
  {
    assert SettleFrame(0, HANDLED.deliveries[0]) == Wire.Ack(0);
    assert LINK.wire + [Wire.Ack(0)] == [Wire.Ack(0)];
    assert Apply(CFG, HANDLED, SendSettle(0)).links == ANSWERED.links;
  }

  lemma FirstAcked()
    ensures Goes(ANSWERED, Process(0), ACKED)
  {
    assert ANSWERED.links[0].wire[1..] == [];
    var s := DoProcess(ANSWERED, 0);
    assert s.links == ACKED.links;
    assert s.copies == ACKED.copies;
    assert s.deliveries == ACKED.deliveries;
  }

  lemma SecondTaken()
    ensures Goes(ACKED, Deliver(0), BOTH)
  {
    Names();
    assert !ACKED.deliveries[0].settled.Open?;
    Sums.SumZero(ACKED.deliveries, OpenOf(0));
    assert CanDeliver(CFG, ACKED, 0);
    var s := DoDeliver(CFG, ACKED, 0);
    assert ACKED.queues["q"][1..] == [];
    assert s.queues == BOTH.queues;
    assert s.copies == BOTH.copies;
    assert s.deliveries == BOTH.deliveries;
  }

  // ----- the same run with its tasks -----

  /** The events up to `x`, all of them possible, have brought the protocol to `s`. */
  ghost predicate Comes(events: seq<Event>, x: Local, s: State) {
    AllCan(CFG, Spawned, START, events) && Play(CFG, Spawned, START, events) == x && Leads(CFG, Init(CFG), x.past, s)
  }

  lemma ComesByStep(events: seq<Event>, x: Local, s: State, st: Step, s': State)
    requires Comes(events, x, s) && Goes(s, st, s') && (st.Handle? ==> st.t in x.begun)
    ensures Comes(events + [Proto(st)], x.(past := x.past + [st]), s')
  {
    OneMore(Init(CFG), x.past, s, st, s');
    PlayOneMore(CFG, Spawned, START, events, Proto(st));
  }

  lemma ComesByStart(events: seq<Event>, x: Local, s: State, t: nat)
    requires Comes(events, x, s) && t < |s.deliveries| && s.deliveries[t].pc.Running? && t !in x.begun
    ensures Comes(events + [Begin(t)],
            x.(begun := x.begun + {t}, slot := Some(t), shown := s.deliveries[t].msg.headers), s)
  {
    assert At(CFG, x) == s;
    PlayOneMore(CFG, Spawned, START, events, Begin(t));
  }

  const FIRST := [Proto(PUBLISH)] + [Proto(BootOpen(0, true))] + [Proto(BootQos(0))] + [Proto(BootConsume(0))]
                 + [Proto(Deliver(0))] + [Begin(0)]

  const EVENTS := FIRST + [Proto(PUBLISH2)] + [Proto(Handle(0, true))] + [Proto(SendSettle(0))]
                  + [Proto(Process(0))] + [Proto(Deliver(0))] + [Begin(1)]

  lemma Opening() returns (x: Local)
    ensures Comes(FIRST, x, DELIVERED) && x == START.(past := OPENING, begun := {0}, slot := Some(0))
  {
    Accepted();
    Booted();
    Taken();
    var s1, s2 := Queued([], None, Idle, []), Queued([LINK.(qos := 0)], Some(0), Opened(0), []);
    var s3, s4 := Queued([LINK], Some(0), Limited(0), []), Queued([LINK], Some(0), Consuming(0), [Consumer(0, 0, 1)]);
    var events := [];
    x := START;
    ComesByStep(events, x, Init(CFG), PUBLISH, s1);
    x, events := x.(past := x.past + [PUBLISH]), events + [Proto(PUBLISH)];
    ComesByStep(events, x, s1, BootOpen(0, true), s2);
    x, events := x.(past := x.past + [BootOpen(0, true)]), events + [Proto(BootOpen(0, true))];
    ComesByStep(events, x, s2, BootQos(0), s3);
    x, events := x.(past := x.past + [BootQos(0)]), events + [Proto(BootQos(0))];
    ComesByStep(events, x, s3, BootConsume(0), s4);
    x, events := x.(past := x.past + [BootConsume(0)]), events + [Proto(BootConsume(0))];
    ComesByStep(events, x, s4, Deliver(0), DELIVERED);
    x, events := x.(past := x.past + [Deliver(0)]), events + [Proto(Deliver(0))];
    ComesByStart(events, x, DELIVERED, 0);
    x := x.(begun := x.begun + {0}, slot := Some(0), shown := None);
    assert [] + [Proto(PUBLISH)] == [Proto(PUBLISH)] && [] + [PUBLISH] == [PUBLISH];
  }

  lemma Overtakes() returns (x: Local)
    ensures Comes(EVENTS, x, BOTH) && x.begun == {0, 1} && x.returned == {} && x.shown == OTHER
  {
    x := Opening();
    SecondArrives();
    FirstSettles();
    FirstAcked();
    SecondTaken();
    var events := FIRST;
    ComesByStep(events, x, DELIVERED, PUBLISH2, WAITING);
    x, events := x.(past := x.past + [PUBLISH2]), events + [Proto(PUBLISH2)];
    ComesByStep(events, x, WAITING, Handle(0, true), HANDLED);
    x, events := x.(past := x.past + [Handle(0, true)]), events + [Proto(Handle(0, true))];
    ComesByStep(events, x, HANDLED, SendSettle(0), ANSWERED);
    x, events := x.(past := x.past + [SendSettle(0)]), events + [Proto(SendSettle(0))];
    ComesByStep(events, x, ANSWERED, Process(0), ACKED);
    x, events := x.(past := x.past + [Process(0)]), events + [Proto(Process(0))];
    ComesByStep(events, x, ACKED, Deliver(0), BOTH);
    x, events := x.(past := x.past + [Deliver(0)]), events + [Proto(Deliver(0))];
    ComesByStart(events, x, BOTH, 1);
    x := x.(begun := x.begun + {1}, slot := Some(1), shown := OTHER);
  }

  /** In a run that the worker's prefetch of 1 allows, event by event: task 0 is settled and about to run its `after`
      functions, and what they find are not its headers but those of the next message. */
  lemma AfterReadsNextMessage()
    ensures |CFG.workers| == 1 && CFG.workers[0].prefetch == 1
    ensures AllCan(CFG, Spawned, START, EVENTS)
    ensures var x := Play(CFG, Spawned, START, EVENTS);
            && InAfter(CFG, x, 0)
            && x.shown == OwnHeaders(CFG, x, 1) != OwnHeaders(CFG, x, 0)
  {
    var x := Overtakes();
    assert At(CFG, x) == BOTH;
  }
}
