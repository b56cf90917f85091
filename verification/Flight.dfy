/** How many deliveries can be out at once (src/subscriber.rs:333-350, :370-387, :413-440). */
module Flight {
  import opened Sums
  import opened Protocol
  import opened Invariants
  import opened Effects

  // ----- prefetch on a shared channel -----

  predicate Configured(cfg: Config, prefetch: nat) {
    exists w :: 0 <= w < |cfg.workers| && cfg.workers[w].prefetch == prefetch
  }

  /** Never settled by its own task: with the consumer still, or returned when the channel closed. */
  function HeldBy(k: nat): Delivery -> nat {
    (d: Delivery) => if d.consumer == k && (d.settled.Open? || d.settled.Requeued?) then 1 else 0
  }

  function Started(): Boot -> nat { (b: Boot) => if b.Consuming? then 1 else 0 }

  /** Between `basic_qos` and `basic_consume` another worker may set its own limit, but never an unconfigured one. */
  ghost predicate LimitsOk(cfg: Config, s: State) {
    && (forall w :: 0 <= w < |s.boots| && s.boots[w].Limited? ==>
          s.boots[w].channel < |s.links| && Configured(cfg, s.links[s.boots[w].channel].qos))
    && (forall k :: 0 <= k < |s.consumers| ==>
          && Configured(cfg, s.consumers[k].prefetch)
          && (s.consumers[k].prefetch > 0 ==> Sum(s.deliveries, HeldBy(k)) <= s.consumers[k].prefetch))
    && |s.consumers| == Sum(s.boots, Started())
    && (forall t :: 0 <= t < |s.deliveries| ==> s.deliveries[t].consumer < |s.consumers|)
  }

  lemma HeldStep(cfg: Config, s: State, st: Step, s': State, k: nat)
    requires Effect(cfg, s, st, s')
    ensures Sum(s'.deliveries, HeldBy(k)) <= Sum(s.deliveries, HeldBy(k)) + if st.Deliver? && st.k == k then 1 else 0
  {
    if IsClientStep(st) {
      SumUpdate(s.deliveries, st.t, s'.deliveries[st.t], HeldBy(k));
    } else if st.Deliver? {
      SumAppend(s.deliveries, s'.deliveries[|s.deliveries|], HeldBy(k));
    } else if st.Process? {
      var t := s.links[st.c].wire[0].tag;
      SumUpdate(s.deliveries, t, s'.deliveries[t], HeldBy(k));
    } else if st.Requeue? {
      SumUpdate(s.deliveries, st.t, s'.deliveries[st.t], HeldBy(k));
    }
  }

  /** While its channel is open nothing has been returned, so what the consumer holds is what the broker counts. */
  lemma HeldIsOpen(cfg: Config, s: State, k: nat)
    requires TasksOk(cfg, s) && k < |s.consumers| && s.consumers[k].channel < |s.links|
    requires s.links[s.consumers[k].channel].broker
    ensures Sum(s.deliveries, HeldBy(k)) == Sum(s.deliveries, OpenOf(k))
  {
    forall t | 0 <= t < |s.deliveries|
      ensures HeldBy(k)(s.deliveries[t]) == 1 * OpenOf(k)(s.deliveries[t])
    {
      assert TaskOk(s.links, s.deliveries[t]) && OwnerOk(cfg, s.consumers, s.deliveries[t]);
    }
    SumMapped(s.deliveries, s.deliveries, HeldBy(k), OpenOf(k), 1);
  }

  /** Nothing but a worker's own start-up touches consumers, start-up states and channel limits. */
  lemma OthersKeepLimits(cfg: Config, s: State, st: Step)
    requires Enabled(cfg, s, st) && !st.BootOpen? && !st.BootQos? && !st.BootConsume? && !st.BootFail?
    ensures var s' := Apply(cfg, s, st);
            && s'.boots == s.boots && s'.consumers == s.consumers && |s.links| <= |s'.links|
            && forall c :: 0 <= c < |s.links| ==> s'.links[c].qos == s.links[c].qos
  {
    if st.External? || st.Expire? {
      ArrivalsOnlyQueue(cfg, s, st);
    }
  }

  lemma ConsumeKeepsLimits(cfg: Config, s: State, w: nat)
    requires TasksOk(cfg, s) && LimitsOk(cfg, s) && Enabled(cfg, s, BootConsume(w))
    ensures LimitsOk(cfg, Apply(cfg, s, BootConsume(w)))
  {
    var s' := Apply(cfg, s, BootConsume(w));
    SumUpdate(s.boots, w, s'.boots[w], Started());
    forall t | 0 <= t < |s.deliveries|
      ensures HeldBy(|s.consumers|)(s.deliveries[t]) == 0
    {
    }
    SumZero(s.deliveries, HeldBy(|s.consumers|));
  }

  lemma BootKeepsLimits(cfg: Config, s: State, st: Step)
    requires TasksOk(cfg, s) && LimitsOk(cfg, s) && Enabled(cfg, s, st)
    requires st.BootOpen? || st.BootQos? || st.BootFail?
    ensures LimitsOk(cfg, Apply(cfg, s, st))
  {
    var s' := Apply(cfg, s, st);
    assert s'.deliveries == s.deliveries;
    SumUpdate(s.boots, st.w, s'.boots[st.w], Started());
    if st.BootQos? {
      assert Configured(cfg, cfg.workers[st.w].prefetch);
    }
  }

  lemma HeldKept(cfg: Config, s: State, st: Step, s': State, k: nat)
    requires TasksOk(cfg, s) && LimitsOk(cfg, s) && Enabled(cfg, s, st) && Effect(cfg, s, st, s')
    requires k < |s.consumers| && s.consumers[k].prefetch > 0
    ensures Sum(s'.deliveries, HeldBy(k)) <= s.consumers[k].prefetch
  {
    HeldStep(cfg, s, st, s', k);
    if st.Deliver? && st.k == k {
      HeldIsOpen(cfg, s, k);
    }
  }

  lemma {:induction false} LimitsKept(cfg: Config, s: State, st: Step)
    requires Inv(cfg, s) && LimitsOk(cfg, s)
    ensures LimitsOk(cfg, Next(cfg, s, st))
  {
    if Enabled(cfg, s, st) {
      if st.BootConsume? {
        ConsumeKeepsLimits(cfg, s, st.w);
      } else if st.BootOpen? || st.BootQos? || st.BootFail? {
        BootKeepsLimits(cfg, s, st);
      } else {
        OthersKeepLimits(cfg, s, st);
        StepHasEffect(cfg, s, st);
        forall k | 0 <= k < |s.consumers| && s.consumers[k].prefetch > 0
          ensures Sum(Apply(cfg, s, st).deliveries, HeldBy(k)) <= s.consumers[k].prefetch
        {
          HeldKept(cfg, s, st, Apply(cfg, s, st), k);
        }
        EffectKeepsConsumers(cfg, s, st, Apply(cfg, s, st));
      }
    }
  }

  lemma EffectKeepsConsumers(cfg: Config, s: State, st: Step, s': State)
    requires Effect(cfg, s, st, s') && forall t :: 0 <= t < |s.deliveries| ==> s.deliveries[t].consumer < |s.consumers|
    ensures forall t :: 0 <= t < |s'.deliveries| ==> s'.deliveries[t].consumer < |s.consumers|
  {
  }

  lemma {:induction false} RunLimits(cfg: Config, steps: seq<Step>)
    ensures Inv(cfg, Run(cfg, steps)) && LimitsOk(cfg, Run(cfg, steps))
  {
    RunKeepsInv(cfg, steps);
    if steps == [] {
      SumZero(Init(cfg).boots, Started());
    } else {
      RunLimits(cfg, steps[..|steps| - 1]);
      LimitsKept(cfg, Run(cfg, steps[..|steps| - 1]), steps[|steps| - 1]);
    }
  }

  /** In every run, each consumer runs under the prefetch of some configured worker, and what it has been given without
      settling it, running, stuck or returned, never exceeds that, before and after its channel closes. */
  lemma PrefetchRespected(cfg: Config, steps: seq<Step>, k: nat)
    requires k < |Run(cfg, steps).consumers|
    ensures var s := Run(cfg, steps);
            && Configured(cfg, s.consumers[k].prefetch)
            && (s.consumers[k].prefetch > 0 ==> Sum(s.deliveries, HeldBy(k)) <= s.consumers[k].prefetch)
  {
    RunLimits(cfg, steps);
  }

  // ----- all consumers together -----

  function Held(): Delivery -> nat {
    (d: Delivery) => if d.settled.Open? || d.settled.Requeued? then 1 else 0
  }

  function HeldBefore(k: nat): Delivery -> nat {
    (d: Delivery) => if d.consumer < k && (d.settled.Open? || d.settled.Requeued?) then 1 else 0
  }

  lemma {:induction false} HeldBeforeBound(ds: seq<Delivery>, k: nat, p: nat)
    requires forall j :: 0 <= j < k ==> Sum(ds, HeldBy(j)) <= p
    ensures Sum(ds, HeldBefore(k)) <= k * p
  {
    if k == 0 {
      SumZero(ds, HeldBefore(0));
    } else {
      HeldBeforeBound(ds, k - 1, p);
      SumOfTwo(ds, HeldBefore(k), HeldBefore(k - 1), HeldBy(k - 1));
      assert k * p == (k - 1) * p + p;
    }
  }

  /** With k workers of prefetch at most p, consumers never hold more than k * p deliveries they have not settled. */
  lemma HeldBound(cfg: Config, steps: seq<Step>, p: nat)
    requires forall w :: 0 <= w < |cfg.workers| ==> 0 < cfg.workers[w].prefetch <= p
    ensures var s := Run(cfg, steps); Sum(s.deliveries, Held()) <= |cfg.workers| * p
  {
    RunLimits(cfg, steps);
    var s := Run(cfg, steps);
    HeldBeforeBound(s.deliveries, |s.consumers|, p);
    SumBounds(s.boots, Started(), 0, 1);
    MulMonotoneLeft(|s.consumers|, |cfg.workers|, p);
    SumMonotone(s.deliveries, Held(), HeldBefore(|s.consumers|));
  }

  /** A task that has not come to its end: its handler running, an await pending, or stuck behind a failed one. */
  function Unfinished(): Delivery -> nat { (d: Delivery) => if d.pc.Done? then 0 else 1 }

  /** With k workers of prefetch at most p and nobody else on the pool, running handlers plus stuck deliveries never
      exceed k * p, on open and on closed channels alike: the code gives every worker the whole prefetch rather than a
      share. */
  lemma InFlightBound(cfg: Config, steps: seq<Step>, p: nat)
    requires forall w :: 0 <= w < |cfg.workers| ==> 0 < cfg.workers[w].prefetch <= p
    ensures Sum(Run(cfg, steps).deliveries, Unfinished()) <= |cfg.workers| * p
  {
    var s := Run(cfg, steps);
    RunKeepsInv(cfg, steps);
    HeldBound(cfg, steps, p);
    forall t | 0 <= t < |s.deliveries|
      ensures Unfinished()(s.deliveries[t]) <= Held()(s.deliveries[t])
    {
      assert TaskOk(s.links, s.deliveries[t]);
    }
    SumMonotone(s.deliveries, Unfinished(), Held());
  }

  /** One worker of prefetch 1: no two tasks are ever unfinished together, spawned or not. */
  lemma OneAtATime(cfg: Config, steps: seq<Step>, t: nat, u: nat)
    requires |cfg.workers| == 1 && cfg.workers[0].prefetch == 1
    requires t < u < |Run(cfg, steps).deliveries|
    ensures var s := Run(cfg, steps); s.deliveries[t].pc.Done? || s.deliveries[u].pc.Done?
  {
    InFlightBound(cfg, steps, 1);
    TwoTerms(Run(cfg, steps).deliveries, t, u, Unfinished());
  }

  /** One worker of prefetch 1: every delivery but the last has been settled by its task. */
  lemma {:induction false} EarlierAreDone(cfg: Config, steps: seq<Step>, t: nat)
    requires |cfg.workers| == 1 && cfg.workers[0].prefetch == 1
    requires t < |Run(cfg, steps).deliveries| - 1
    ensures Run(cfg, steps).deliveries[t].pc.Done?
  {
    var front, st := steps[..|steps| - 1], steps[|steps| - 1];
    var s := Run(cfg, front);
    RunKeepsInv(cfg, front);
    if Enabled(cfg, s, st) {
      StepHasEffect(cfg, s, st);
    }
    if t < |s.deliveries| - 1 {
      EarlierAreDone(cfg, front, t);
    } else {
      OneAtATime(cfg, steps, t, |s.deliveries|);
    }
  }
}
