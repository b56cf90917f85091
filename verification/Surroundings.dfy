/** What publishers, the network and the broker are free to do in every reachable state: the step system holds none of
    it back, so the theorems about all runs are about all of it. */
module Surroundings {
  import opened Amqp
  import opened Routing
  import opened Sums
  import opened Wire
  import opened Protocol
  import opened Invariants
  import opened Effects
  import Progress

  /** Either end of any channel may see it closed at any time, the other end none the wiser; only the broker's end takes
      with it what was on its way. */
  lemma ChannelsCloseAnyTime(cfg: Config, steps: seq<Step>, c: nat)
    requires c < |Run(cfg, steps).links|
    ensures var s := Run(cfg, steps);
            && Run(cfg, steps + [ClientDown(c)]) == s.(links := s.links[c := s.links[c].(client := false)])
            && Run(cfg, steps + [BrokerDown(c)]) == s.(links := s.links[c := s.links[c].(broker := false, wire := [])])
  {
    RunOneMore(cfg, steps, ClientDown(c));
    RunOneMore(cfg, steps, BrokerDown(c));
  }

  /** Any time may pass. */
  lemma TimePasses(cfg: Config, steps: seq<Step>, d: nat)
    ensures Run(cfg, steps + [Tick(d)]) == Run(cfg, steps).(now := Run(cfg, steps).now + d)
  {
    RunOneMore(cfg, steps, Tick(d));
  }

  lemma {:induction false} StepServesExisting(cfg: Config, s: State, st: Step, t: nat)
    requires Inv(cfg, s) && Enabled(cfg, s, st)
    requires t < |Apply(cfg, s, st).deliveries| && (t < |s.deliveries| ==> s.deliveries[t].queue in s.queues)
    ensures Apply(cfg, s, st).deliveries[t].queue in s.queues
  {
    if IsClientStep(st) {
      ClientStepHasEffect(cfg, s, st);
    } else if !st.Deliver? {
      OtherServesNobody(cfg, s, st);
    }
  }

  lemma {:induction false} OtherServesNobody(cfg: Config, s: State, st: Step)
    requires Inv(cfg, s) && Enabled(cfg, s, st) && !IsClientStep(st) && !st.Deliver?
    ensures |Apply(cfg, s, st).deliveries| == |s.deliveries|
    ensures forall t :: 0 <= t < |s.deliveries| ==> Apply(cfg, s, st).deliveries[t].queue == s.deliveries[t].queue
  {
    StepHasEffect(cfg, s, st);
  }

  lemma {:induction false} ServedQueuesExist(cfg: Config, steps: seq<Step>, t: nat)
    requires t < |Run(cfg, steps).deliveries|
    ensures Run(cfg, steps).deliveries[t].queue in Run(cfg, steps).queues
  {
    var front, st := steps[..|steps| - 1], steps[|steps| - 1];
    var s := Run(cfg, front);
    RunKeepsInv(cfg, front);
    RunKeepsInv(cfg, steps);
    if t < |s.deliveries| {
      ServedQueuesExist(cfg, front, t);
    }
    if Enabled(cfg, s, st) {
      StepServesExisting(cfg, s, st, t);
    }
  }

  /** Once the broker has dropped a channel, each delivery left unsettled on it may return at any time to any place in
      its queue, whatever its task is doing and whether or not the client knows. */
  lemma ReturnsAnywhere(cfg: Config, steps: seq<Step>, t: nat, index: nat)
    requires var s := Run(cfg, steps);
             && t < |s.deliveries| && s.deliveries[t].settled.Open? && s.deliveries[t].channel < |s.links|
             && !s.links[s.deliveries[t].channel].broker
             && (s.deliveries[t].queue in s.queues ==> index <= |s.queues[s.deliveries[t].queue]|)
    ensures var s, s' := Run(cfg, steps), Run(cfg, steps + [Requeue(t, index)]);
            var d := s.deliveries[t];
            && d.queue in s.queues && d.copy < |s.copies|
            && s'.queues == s.queues[d.queue := s.queues[d.queue][..index] + [d.copy] + s.queues[d.queue][index..]]
            && s'.deliveries == s.deliveries[t := d.(settled := Requeued)]
            && s'.copies == s.copies[d.copy := s.copies[d.copy].(place := Ready(d.queue))]
  {
    RunKeepsInv(cfg, steps);
    ServedQueuesExist(cfg, steps, t);
    RunOneMore(cfg, steps, Requeue(t, index));
  }

  /** What this side writes goes out as long as its own end of the channel is open, whatever has become of the other;
      only `basic_consume`, which waits for a reply, needs both. */
  lemma WritingNeedsThisEnd(cfg: Config, steps: seq<Step>, t: nat, w: nat)
    requires var s := Run(cfg, steps); t < |s.deliveries| && w < |s.boots|
    ensures var s := Run(cfg, steps); var d, b := s.deliveries[t], s.boots[w];
            && d.channel < |s.links|
            && (d.pc.Holding? ==>
                  d.pc.channel < |s.links| && (Enabled(cfg, s, SendPublish(t)) <==> s.links[d.pc.channel].client))
            && (MaySettle(d) ==> (Enabled(cfg, s, SendSettle(t)) <==> s.links[d.channel].client))
            && (b.Opened? ==>
                  b.channel < |s.links| && (Enabled(cfg, s, BootQos(w)) <==> s.links[b.channel].client))
            && (b.Limited? ==>
                  && b.channel < |s.links|
                  && (Enabled(cfg, s, BootConsume(w)) <==> s.links[b.channel].client && s.links[b.channel].broker))
  {
    RunKeepsInv(cfg, steps);
    assert TaskOk(Run(cfg, steps).links, Run(cfg, steps).deliveries[t]);
  }

  // ----- who is served -----

  /** What the broker has handed consumer `k` and not seen settled. */
  function Unsettled(s: State, k: nat): set<nat> {
    set t | 0 <= t < |s.deliveries| && s.deliveries[t].consumer == k && s.deliveries[t].settled.Open?
  }

  lemma {:induction false} CountUnsettled(ds: seq<Delivery>, k: nat)
    ensures Sum(ds, OpenOf(k)) == |set t | 0 <= t < |ds| && ds[t].consumer == k && ds[t].settled.Open?|
  {
    var all := set t | 0 <= t < |ds| && ds[t].consumer == k && ds[t].settled.Open?;
    if ds == [] {
      assert all == {};
    } else {
      var n := |ds| - 1;
      CountUnsettled(ds[..n], k);
      var front := set t | 0 <= t < |ds[..n]| && ds[..n][t].consumer == k && ds[..n][t].settled.Open?;
      if ds[n].consumer == k && ds[n].settled.Open? {
        assert all == front + {n};
      } else {
        assert all == front;
      }
    }
  }

  /** The consumer's channel stands at the broker, whatever the client thinks. */
  predicate Connected(s: State, k: nat)
    requires k < |s.consumers|
  {
    s.consumers[k].channel < |s.links| && s.links[s.consumers[k].channel].broker
  }

  /** The broker serves a consumer exactly when something waits for it, its channel stands at the broker, it has room
      within its prefetch, 0 meaning no limit, and, on a single-active queue only, every older consumer of the queue
      has lost its channel and holds nothing; it is served what waits longest. */
  lemma ServedIff(cfg: Config, steps: seq<Step>, k: nat)
    requires k < |Run(cfg, steps).consumers|
    ensures var s := Run(cfg, steps); var con, q := s.consumers[k], QueueOf(cfg, s, k);
            Enabled(cfg, s, Deliver(k)) <==>
              && Connected(s, k) && q in cfg.topology.queues && q in s.queues && s.queues[q] != []
              && (con.prefetch == 0 || |Unsettled(s, k)| < con.prefetch)
              && (cfg.topology.queues[q].singleActive ==>
                    forall j :: 0 <= j < k && QueueOf(cfg, s, j) == q ==> !Connected(s, j) && Unsettled(s, j) == {})
    ensures var s := Run(cfg, steps); var q := QueueOf(cfg, s, k);
            Enabled(cfg, s, Deliver(k)) ==>
              var s' := Run(cfg, steps + [Deliver(k)]);
              && |s'.deliveries| == |s.deliveries| + 1 && s'.deliveries[..|s.deliveries|] == s.deliveries
              && s'.deliveries[|s.deliveries|].copy == s.queues[q][0] && s'.deliveries[|s.deliveries|].consumer == k
              && s'.queues == s.queues[q := s.queues[q][1..]]
  {
    var s := Run(cfg, steps);
    RunKeepsInv(cfg, steps);
    assert ConsumerOk(cfg, s.links, s.consumers[k]);
    CountUnsettled(s.deliveries, k);
    forall j | 0 <= j < k
      ensures Gone(s, j) <==> !Connected(s, j) && Unsettled(s, j) == {}
    {
      assert ConsumerOk(cfg, s.links, s.consumers[j]);
      CountUnsettled(s.deliveries, j);
    }
    if Enabled(cfg, s, Deliver(k)) {
      RunOneMore(cfg, steps, Deliver(k));
    }
  }

  // ----- who may publish -----

  lemma {:induction false} EnqueueAllQueues(s: State, qs: seq<string>, m: Msg, first: bool, q: string)
    requires (forall p :: p in qs ==> p in s.queues) && Distinct(qs) && q in s.queues
    ensures var s' := EnqueueAll(s, qs, m, first);
            && (q !in qs ==> s'.queues[q] == s.queues[q])
            && (q in qs ==> exists c :: |s.copies| <= c < |s'.copies| && s'.queues[q] == s.queues[q] + [c]
                                        && s'.copies[c] == Copy(Entering(m, q, first), s.now, false, Ready(q)))
  {
    EnqueueAllAdds(s, qs, m, first);
    if qs != [] {
      var front, p := qs[..|qs| - 1], qs[|qs| - 1];
      var s1 := EnqueueAll(s, front, m, first);
      EnqueueAllAdds(s, front, m, first);
      EnqueueAllQueues(s, front, m, first, q);
      if p == q {
        assert q !in front;
        assert EnqueueAll(s, qs, m, first).queues[q] == s.queues[q] + [|s1.copies|];
      } else if q in front {
        var c :| |s.copies| <= c < |s1.copies| && s1.queues[q] == s.queues[q] + [c]
                 && s1.copies[c] == Copy(Entering(m, q, first), s.now, false, Ready(q));
        assert EnqueueAll(s, qs, m, first).copies[c] == s1.copies[c];
      }
    }
  }

  lemma RouteExists(t: Topology, exchange: string, key: string, q: string)
    requires q in Route(t, exchange, key)
    ensures q in t.queues
  {
  }

  /** Anyone may publish anything anywhere at any time: one new copy, with this payload and these headers, joins the end
      of each queue the topology routes it to, and nothing else changes; where it routes to none the message is
      gone. */
  lemma AnyoneMayPublish(cfg: Config, steps: seq<Step>, exchange: string, key: string, payload: Bytes,
      headers: Headers) returns (targets: seq<string>)
    ensures var s, s' := Run(cfg, steps), Run(cfg, steps + [External(exchange, key, payload, headers, targets)]);
            && s'.origins == s.origins + [Origin(payload, headers, targets)]
            && s'.(origins := s.origins, copies := s.copies, queues := s.queues) == s
            && s'.queues.Keys == s.queues.Keys && |s'.copies| == |s.copies| + |targets|
            && forall q :: q in s.queues ==>
                 if q in Route(cfg.topology, exchange, key) then
                   exists c :: |s.copies| <= c < |s'.copies| && s'.queues[q] == s.queues[q] + [c]
                               && s'.copies[c]
                                   == Copy(Msg(|s.origins|, q, payload, headers, []), s.now, false, Ready(q))
                 else s'.queues[q] == s.queues[q]
  {
    var s := Run(cfg, steps);
    RunKeepsInv(cfg, steps);
    targets := Progress.Listing(Route(cfg.topology, exchange, key));
    forall q | q in targets
      ensures q in s.queues
    {
      assert q in (set x | x in targets);
      RouteExists(cfg.topology, exchange, key, q);
    }
    var st := External(exchange, key, payload, headers, targets);
    RunOneMore(cfg, steps, st);
    var s1 := s.(origins := s.origins + [Origin(payload, headers, targets)]);
    EnqueueAllAdds(s1, targets, NewMsg(s, payload, headers), true);
    forall q | q in s.queues
      ensures q in targets <==> q in Route(cfg.topology, exchange, key)
    {
      assert q in targets <==> q in (set x | x in targets);
      EnqueueAllQueues(s1, targets, NewMsg(s, payload, headers), true, q);
    }
    forall q | q in s.queues
      ensures var s' := EnqueueAll(s1, targets, NewMsg(s, payload, headers), true);
              if q in targets then
                exists c :: |s.copies| <= c < |s'.copies| && s'.queues[q] == s.queues[q] + [c]
                            && s'.copies[c] == Copy(Msg(|s.origins|, q, payload, headers, []), s.now, false, Ready(q))
              else s'.queues[q] == s.queues[q]
    {
      EnqueueAllQueues(s1, targets, NewMsg(s, payload, headers), true, q);
    }
  }
}
