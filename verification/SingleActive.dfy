/** Ordering under x-single-active-consumer with prefetch 1 (src/subscriber.rs:182-185, :335-340, :415-420). */
module SingleActive {
  import opened Sums
  import opened Routing
  import opened Protocol
  import opened Invariants
  import opened Effects
  import opened Flight

  /** Queue `q` has the flag and no expiry, and every subscriber on the pool uses prefetch 1. */
  ghost predicate Solo(cfg: Config, q: string) {
    && q in cfg.topology.queues && cfg.topology.queues[q].singleActive && !Expires(cfg.topology, q)
    && forall w :: 0 <= w < |cfg.workers| ==> cfg.workers[w].prefetch == 1
  }

  /** Failover puts what the old consumer held back at the head of its queue. */
  predicate ReturnsToHead(steps: seq<Step>) {
    forall i :: 0 <= i < |steps| && steps[i].Requeue? ==> steps[i].index == 0
  }

  predicate Increasing(ids: seq<nat>) {
    forall i, j :: 0 <= i < j < |ids| ==> ids[i] < ids[j]
  }

  /** The queue is in arrival order; what was delivered from it came before, in the same order; only the last delivery
      can still be open. */
  ghost predicate InArrivalOrder(ids: seq<nat>, ds: seq<Delivery>, arrived: nat, q: string) {
    && Increasing(ids)
    && (forall i :: 0 <= i < |ids| ==> ids[i] < arrived)
    && (forall t :: 0 <= t < |ds| ==> ds[t].copy < arrived)
    && (forall t, i :: 0 <= t < |ds| && ds[t].queue == q && 0 <= i < |ids| ==> ds[t].copy <= ids[i])
    && (forall t, u :: 0 <= t < u < |ds| && ds[t].queue == q && ds[u].queue == q ==>
          ds[t].copy <= ds[u].copy && !ds[t].settled.Open?)
  }

  /** Every consumer of `q` older than `k` is gone. */
  ghost predicate Heir(cfg: Config, s: State, q: string, k: nat) {
    k <= |s.consumers| && forall j :: 0 <= j < k && QueueOf(cfg, s, j) == q ==> Gone(s, j)
  }

  /** Whoever has been served from `q` had outlived all older consumers of `q`. */
  ghost predicate Succession(cfg: Config, s: State, q: string) {
    forall t :: 0 <= t < |s.deliveries| && s.deliveries[t].queue == q ==> Heir(cfg, s, q, s.deliveries[t].consumer)
  }

  ghost predicate SoloOk(cfg: Config, s: State, q: string) {
    q in s.queues && InArrivalOrder(s.queues[q], s.deliveries, |s.copies|, q) && Succession(cfg, s, q)
  }

  // ----- gone for good -----

  lemma OpenStep(cfg: Config, s: State, st: Step, s': State, k: nat)
    requires Effect(cfg, s, st, s') && !(st.Deliver? && st.k == k)
    ensures Sum(s'.deliveries, OpenOf(k)) <= Sum(s.deliveries, OpenOf(k))
  {
    if IsClientStep(st) {
      SumUpdate(s.deliveries, st.t, s'.deliveries[st.t], OpenOf(k));
    } else if st.Deliver? {
      SumAppend(s.deliveries, s'.deliveries[|s.deliveries|], OpenOf(k));
    } else if st.Process? {
      var t := s.links[st.c].wire[0].tag;
      SumUpdate(s.deliveries, t, s'.deliveries[t], OpenOf(k));
    } else if st.Requeue? {
      SumUpdate(s.deliveries, st.t, s'.deliveries[st.t], OpenOf(k));
    }
  }

  lemma ConsumersStay(cfg: Config, s: State, st: Step)
    requires Enabled(cfg, s, st)
    ensures var s' := Apply(cfg, s, st);
            && s.consumers <= s'.consumers && |s.links| <= |s'.links|
            && forall c :: 0 <= c < |s.links| && !s.links[c].broker ==> !s'.links[c].broker
  {
    if st.External? || st.Expire? {
      ArrivalsOnlyQueue(cfg, s, st);
    }
  }

  lemma {:induction false} GoneStays(cfg: Config, s: State, st: Step, j: nat)
    requires Inv(cfg, s) && Enabled(cfg, s, st) && j < |s.consumers| && Gone(s, j)
    ensures j < |Apply(cfg, s, st).consumers| && Gone(Apply(cfg, s, st), j)
  {
    ConsumersStay(cfg, s, st);
    StepHasEffect(cfg, s, st);
    OpenStep(cfg, s, st, Apply(cfg, s, st), j);
    if st.Deliver? {
      assert st.k != j;
    }
  }

  // ----- one delivery at a time -----

  lemma ServedBy(cfg: Config, s: State, t: nat)
    requires Inv(cfg, s) && t < |s.deliveries|
    ensures s.deliveries[t].consumer < |s.consumers|
    ensures QueueOf(cfg, s, s.deliveries[t].consumer) == s.deliveries[t].queue
  {
    assert OwnerOk(cfg, s.consumers, s.deliveries[t]);
  }

  /** While `k` can be served, nobody younger has been. */
  lemma NobodyYounger(cfg: Config, s: State, k: nat, q: string, t: nat)
    requires Succession(cfg, s, q) && CanDeliver(cfg, s, k) && QueueOf(cfg, s, k) == q
    requires t < |s.deliveries| && s.deliveries[t].queue == q
    ensures s.deliveries[t].consumer <= k
  {
    assert Heir(cfg, s, q, s.deliveries[t].consumer);
    assert !Gone(s, k);
  }

  lemma OpenMeansPresent(s: State, t: nat)
    requires t < |s.deliveries| && s.deliveries[t].settled.Open? && s.deliveries[t].consumer < |s.consumers|
    ensures var c := s.deliveries[t].consumer; !Gone(s, c) && Sum(s.deliveries, OpenOf(c)) >= 1
  {
    SumAtLeast(s.deliveries, t, OpenOf(s.deliveries[t].consumer));
  }

  /** When the broker may serve `k` from `q`, nothing served from `q` before is still open. */
  lemma GoneHoldsNothing(s: State, j: nat, t: nat)
    requires j < |s.consumers| && Gone(s, j) && t < |s.deliveries| && s.deliveries[t].consumer == j
    ensures !s.deliveries[t].settled.Open?
  {
    if s.deliveries[t].settled.Open? {
      OpenMeansPresent(s, t);
    }
  }

  lemma SoloPrefetch(cfg: Config, s: State, k: nat, q: string)
    requires Solo(cfg, q) && LimitsOk(cfg, s) && k < |s.consumers|
    ensures s.consumers[k].prefetch == 1
  {
  }

  lemma NothingOpen(cfg: Config, s: State, k: nat, q: string, t: nat)
    requires Solo(cfg, q) && Inv(cfg, s) && LimitsOk(cfg, s) && Succession(cfg, s, q)
    requires CanDeliver(cfg, s, k) && QueueOf(cfg, s, k) == q
    requires t < |s.deliveries| && s.deliveries[t].queue == q
    ensures !s.deliveries[t].settled.Open?
  {
    ServedBy(cfg, s, t);
    NobodyYounger(cfg, s, k, q, t);
    if s.deliveries[t].consumer == k {
      SoloPrefetch(cfg, s, k, q);
      if s.deliveries[t].settled.Open? {
        OpenMeansPresent(s, t);
      }
    } else {
      GoneHoldsNothing(s, s.deliveries[t].consumer, t);
    }
  }

  /** The next delivery is the oldest message waiting. */
  lemma ServeKeepsOrder(ids: seq<nat>, ds: seq<Delivery>, arrived: nat, q: string, d: Delivery)
    requires InArrivalOrder(ids, ds, arrived, q) && ids != [] && d.copy == ids[0] && d.queue == q
    requires forall t :: 0 <= t < |ds| && ds[t].queue == q ==> !ds[t].settled.Open?
    ensures InArrivalOrder(ids[1..], ds + [d], arrived, q)
  {
  }

  lemma OtherServeKeepsOrder(ids: seq<nat>, ds: seq<Delivery>, arrived: nat, q: string, d: Delivery)
    requires InArrivalOrder(ids, ds, arrived, q) && d.copy < arrived && d.queue != q
    ensures InArrivalOrder(ids, ds + [d], arrived, q)
  {
  }

  lemma {:induction false} DeliverKeepsSolo(cfg: Config, s: State, k: nat, q: string)
    requires Solo(cfg, q) && Inv(cfg, s) && LimitsOk(cfg, s) && SoloOk(cfg, s, q) && CanDeliver(cfg, s, k)
    ensures var s' := DoDeliver(cfg, s, k);
            q in s'.queues && InArrivalOrder(s'.queues[q], s'.deliveries, |s'.copies|, q)
  {
    var d := DoDeliver(cfg, s, k).deliveries[|s.deliveries|];
    if QueueOf(cfg, s, k) == q {
      forall t | 0 <= t < |s.deliveries| && s.deliveries[t].queue == q
        ensures !s.deliveries[t].settled.Open?
      {
        NothingOpen(cfg, s, k, q, t);
      }
      ServeKeepsOrder(s.queues[q], s.deliveries, |s.copies|, q, d);
    } else {
      OtherServeKeepsOrder(s.queues[q], s.deliveries, |s.copies|, q, d);
    }
  }

  /** The one open delivery goes back in front of everything that came after it. */
  lemma ReturnKeepsOrder(ids: seq<nat>, ds: seq<Delivery>, arrived: nat, q: string, t: nat)
    requires InArrivalOrder(ids, ds, arrived, q) && t < |ds| && ds[t].queue == q && ds[t].settled.Open?
    requires ds[t].copy !in ids
    ensures InArrivalOrder([ds[t].copy] + ids, ds[t := ds[t].(settled := Requeued)], arrived, q)
  {
    forall i | 0 <= i < |ids|
      ensures ds[t].copy < ids[i]
    {
      assert ids[i] in ids;
    }
  }

  lemma {:induction false} RequeueKeepsSolo(cfg: Config, s: State, t: nat, q: string)
    requires Inv(cfg, s) && SoloOk(cfg, s, q) && Enabled(cfg, s, Requeue(t, 0))
    ensures var s' := DoRequeue(s, t, 0); q in s'.queues && InArrivalOrder(s'.queues[q], s'.deliveries, |s'.copies|, q)
  {
    var s', d := DoRequeue(s, t, 0), s.deliveries[t];
    if d.queue == q {
      ReturnKeepsOrder(s.queues[q], s.deliveries, |s.copies|, q, t);
      assert s'.queues[q] == [d.copy] + s.queues[q];
    } else {
      TasksKeepSolo(s.queues[q], s.deliveries, s'.deliveries, |s.copies|, q);
    }
  }

  lemma EnqueueKeepsSolo(s: State, p: string, m: Msg, dead: bool, q: string)
    requires q in s.queues && p in s.queues && InArrivalOrder(s.queues[q], s.deliveries, |s.copies|, q)
    ensures var s' := Enqueue(s, p, m, dead);
            q in s'.queues && InArrivalOrder(s'.queues[q], s'.deliveries, |s'.copies|, q)
  {
  }

  lemma {:induction false} EnqueueAllKeepsSolo(s: State, qs: seq<string>, m: Msg, first: bool, q: string)
    requires (forall p :: p in qs ==> p in s.queues)
    requires q in s.queues && InArrivalOrder(s.queues[q], s.deliveries, |s.copies|, q)
    ensures var s' := EnqueueAll(s, qs, m, first);
            q in s'.queues && InArrivalOrder(s'.queues[q], s'.deliveries, |s'.copies|, q)
  {
    if qs != [] {
      var p := qs[|qs| - 1];
      EnqueueAllKeepsSolo(s, qs[..|qs| - 1], m, first, q);
      EnqueueKeepsSolo(EnqueueAll(s, qs[..|qs| - 1], m, first), p, Entering(m, p, first), false, q);
    }
  }

  /** Moving tasks along without reopening any keeps the order. */
  lemma TasksKeepSolo(ids: seq<nat>, ds: seq<Delivery>, ds': seq<Delivery>, arrived: nat, q: string)
    requires InArrivalOrder(ids, ds, arrived, q) && |ds'| == |ds|
    requires forall t :: 0 <= t < |ds| ==>
               ds'[t].copy == ds[t].copy && ds'[t].queue == ds[t].queue &&
                   (ds'[t].settled.Open? ==> ds[t].settled.Open?)
    ensures InArrivalOrder(ids, ds', arrived, q)
  {
  }

  lemma {:induction false} ProcessKeepsSolo(cfg: Config, s: State, c: nat, q: string)
    requires Inv(cfg, s) && SoloOk(cfg, s, q) && Enabled(cfg, s, Process(c))
    ensures var s' := DoProcess(s, c); q in s'.queues && InArrivalOrder(s'.queues[q], s'.deliveries, |s'.copies|, q)
  {
    var f := s.links[c].wire[0];
    var s1 := SetLink(s, c, s.links[c].(wire := s.links[c].wire[1..]));
    if f.Publish? {
      var d := s.deliveries[f.tag];
      var s2 := SetTask(s1, f.tag, d.(forward := Effective(c)));
      TasksKeepSolo(s.queues[q], s.deliveries, s2.deliveries, |s.copies|, q);
      if f.key in s.queues {
        EnqueueKeepsSolo(s2, f.key, Republished(d, f, s.now), !Retries(d), q);
      }
    } else {
      TasksKeepSolo(s.queues[q], s.deliveries, DoProcess(s, c).deliveries, |s.copies|, q);
    }
  }

  lemma ArrivalsKeepSolo(cfg: Config, s: State, st: Step, q: string)
    requires Solo(cfg, q) && SoloOk(cfg, s, q) && Enabled(cfg, s, st) && (st.External? || st.Expire?)
    ensures var s' := Apply(cfg, s, st); q in s'.queues && InArrivalOrder(s'.queues[q], s'.deliveries, |s'.copies|, q)
  {
    if st.External? {
      EnqueueAllKeepsSolo(s.(origins := s.origins + [Origin(st.payload, st.headers, st.targets)]), st.targets,
                          NewMsg(s, st.payload, st.headers), true, q);
    } else {
      var id := s.queues[st.queue][0];
      var s1 := SetPlace(s, id, Finished(Released)).(queues := s.queues[st.queue := s.queues[st.queue][1..]]);
      assert s1.queues[q] == s.queues[q];
      EnqueueAllKeepsSolo(s1, st.targets, s.copies[id].msg, false, q);
    }
  }

  lemma OthersKeepSolo(cfg: Config, s: State, st: Step, q: string)
    requires SoloOk(cfg, s, q) && Enabled(cfg, s, st)
    requires !st.Deliver? && !st.Requeue? && !st.Process? && !st.External? && !st.Expire?
    ensures var s' := Apply(cfg, s, st); q in s'.queues && InArrivalOrder(s'.queues[q], s'.deliveries, |s'.copies|, q)
  {
    var s' := Apply(cfg, s, st);
    assert s'.queues == s.queues && |s'.copies| == |s.copies|;
    TasksKeepSolo(s.queues[q], s.deliveries, s'.deliveries, |s.copies|, q);
  }

  lemma OrderKept(cfg: Config, s: State, st: Step, q: string)
    requires Solo(cfg, q) && Inv(cfg, s) && LimitsOk(cfg, s) && SoloOk(cfg, s, q)
    requires Enabled(cfg, s, st) && (st.Requeue? ==> st.index == 0)
    ensures var s' := Apply(cfg, s, st); q in s'.queues && InArrivalOrder(s'.queues[q], s'.deliveries, |s'.copies|, q)
  {
    if st.Deliver? {
      DeliverKeepsSolo(cfg, s, st.k, q);
    } else if st.Requeue? {
      RequeueKeepsSolo(cfg, s, st.t, q);
    } else if st.Process? {
      ProcessKeepsSolo(cfg, s, st.c, q);
    } else if st.External? || st.Expire? {
      ArrivalsKeepSolo(cfg, s, st, q);
    } else {
      OthersKeepSolo(cfg, s, st, q);
    }
  }

  lemma HeirStays(cfg: Config, s: State, st: Step, q: string, k: nat)
    requires Inv(cfg, s) && Enabled(cfg, s, st) && Heir(cfg, s, q, k)
    ensures Heir(cfg, Apply(cfg, s, st), q, k)
  {
    var s' := Apply(cfg, s, st);
    ConsumersStay(cfg, s, st);
    forall j | 0 <= j < k && QueueOf(cfg, s', j) == q
      ensures Gone(s', j)
    {
      assert QueueOf(cfg, s, j) == q;
      GoneStays(cfg, s, st, j);
    }
  }

  lemma DeliveriesStay(cfg: Config, s: State, st: Step, s': State)
    requires Effect(cfg, s, st, s')
    ensures |s.deliveries| <= |s'.deliveries|
    ensures forall t :: 0 <= t < |s.deliveries| ==> SameDelivery(s.deliveries[t], s'.deliveries[t])
  {
    if !IsClientStep(st) {
      OtherStepTouches(cfg, s, st, s');
    }
  }

  lemma TaskHeirStays(cfg: Config, s: State, st: Step, s': State, q: string, t: nat)
    requires Inv(cfg, s) && Succession(cfg, s, q) && Enabled(cfg, s, st) && s' == Apply(cfg, s, st)
    requires t < |s.deliveries| && t < |s'.deliveries| && SameDelivery(s.deliveries[t], s'.deliveries[t])
    requires s'.deliveries[t].queue == q
    ensures Heir(cfg, s', q, s'.deliveries[t].consumer)
  {
    HeirStays(cfg, s, st, q, s.deliveries[t].consumer);
  }

  lemma SuccessionKept(cfg: Config, s: State, st: Step, q: string)
    requires Inv(cfg, s) && Succession(cfg, s, q) && Enabled(cfg, s, st) && Solo(cfg, q)
    ensures Succession(cfg, Apply(cfg, s, st), q)
  {
    var s' := Apply(cfg, s, st);
    StepHasEffect(cfg, s, st);
    DeliveriesStay(cfg, s, st, s');
    forall t | 0 <= t < |s'.deliveries| && s'.deliveries[t].queue == q
      ensures Heir(cfg, s', q, s'.deliveries[t].consumer)
    {
      if t < |s.deliveries| {
        TaskHeirStays(cfg, s, st, s', q, t);
      } else {
        assert Heir(cfg, s, q, st.k);
        HeirStays(cfg, s, st, q, st.k);
      }
    }
  }

  lemma {:induction false} RunSolo(cfg: Config, steps: seq<Step>, q: string)
    requires Solo(cfg, q) && ReturnsToHead(steps)
    ensures SoloOk(cfg, Run(cfg, steps), q)
  {
    if steps != [] {
      var front, st := steps[..|steps| - 1], steps[|steps| - 1];
      var s := Run(cfg, front);
      assert ReturnsToHead(front);
      RunSolo(cfg, front, q);
      RunLimits(cfg, front);
      if Enabled(cfg, s, st) {
        OrderKept(cfg, s, st, q);
        SuccessionKept(cfg, s, st, q);
      }
    }
  }

  /** In every run, through any failover: deliveries from the queue happen in arrival order, a message again only before
      any later one; and of two tasks that are both unfinished, spawned or not, the earlier is a leftover of a channel
      the broker has dropped. */
  lemma SoloDeliversInOrder(cfg: Config, steps: seq<Step>, q: string, t: nat, u: nat)
    requires Solo(cfg, q) && ReturnsToHead(steps)
    requires var s := Run(cfg, steps);
             t < u < |s.deliveries| && s.deliveries[t].queue == q && s.deliveries[u].queue == q
    ensures var s := Run(cfg, steps);
            && s.deliveries[t].copy <= s.deliveries[u].copy && s.deliveries[t].channel < |s.links|
            && (!s.deliveries[t].pc.Done? ==>
                s.deliveries[t].settled.Requeued? && !s.links[s.deliveries[t].channel].broker)
  {
    var s := Run(cfg, steps);
    RunSolo(cfg, steps, q);
    RunKeepsInv(cfg, steps);
    assert TaskOk(s.links, s.deliveries[t]);
  }
}
