/** Republication and acknowledgement, and where duplicates come from (src/subscriber.rs:543-603 with
    src/pool.rs:74-96). */
module Duplicates {
  import opened Wrappers
  import opened Sums
  import opened Wire
  import opened Protocol
  import opened Invariants
  import opened Effects
  import opened Ledger
  import opened Accounting

  /** On a failure path with retry the broker acknowledges only what it has already republished, and both frames came
      over the delivery's own channel. */
  lemma AckFollowsRepublish(cfg: Config, steps: seq<Step>, t: nat)
    requires var s := Run(cfg, steps);
             t < |s.deliveries| && s.deliveries[t].settled.Acked? && s.deliveries[t].verdict.Rejected?
    ensures var d := Run(cfg, steps).deliveries[t]; d.limit.Some? && d.forward == Effective(d.channel)
  {
    var s := Run(cfg, steps);
    RunKeepsInv(cfg, steps);
    assert TaskOk(s.links, s.deliveries[t]);
  }

  /** The broker settles a delivery only from its own channel. */
  lemma SettledFromOwnChannel(cfg: Config, s: State, st: Step, t: nat)
    requires Inv(cfg, s) && Enabled(cfg, s, st) && t < |s.deliveries| && !s.deliveries[t].settled.Acked?
    requires s.deliveries[t].channel < |s.links| && !s.links[s.deliveries[t].channel].broker
    ensures var s' := Apply(cfg, s, st);
            && t < |s'.deliveries| && s'.deliveries[t].channel == s.deliveries[t].channel
            && !s'.deliveries[t].settled.Acked?
  {
    StepHasEffect(cfg, s, st);
    if st.Process? {
      var f := s.links[st.c].wire[0];
      assert LinkOk(s.deliveries, st.c, s.links[st.c]);
      assert FrameOk(s.deliveries, st.c, f, []) by { assert s.links[st.c].wire[..0] == []; }
    }
  }

  /** Once the broker has dropped a delivery's channel, that delivery can never be acknowledged, so its debt is
      final. */
  lemma {:induction false} ClosedChannelNeverAcks(cfg: Config, s: State, steps: seq<Step>, t: nat)
    requires Inv(cfg, s) && t < |s.deliveries| && s.deliveries[t].channel < |s.links|
    requires !s.links[s.deliveries[t].channel].broker && !s.deliveries[t].settled.Acked?
    ensures var s' := Exec(cfg, s, steps);
            && Inv(cfg, s') && t < |s'.deliveries| && s'.deliveries[t].channel == s.deliveries[t].channel
            && s'.deliveries[t].channel < |s'.links| && !s'.links[s'.deliveries[t].channel].broker
            && !s'.deliveries[t].settled.Acked?
  {
    if steps != [] {
      var front, st := steps[..|steps| - 1], steps[|steps| - 1];
      ClosedChannelNeverAcks(cfg, s, front, t);
      var s1 := Exec(cfg, s, front);
      NextKeepsInv(cfg, s1, st);
      if Enabled(cfg, s1, st) {
        ClosedStaysClosed(cfg, s1, st, s1.deliveries[t].channel);
        SettledFromOwnChannel(cfg, s1, st, t);
      }
    }
  }

  lemma ClosedStaysClosed(cfg: Config, s: State, st: Step, c: nat)
    requires Enabled(cfg, s, st) && c < |s.links| && !s.links[c].broker
    ensures c < |Apply(cfg, s, st).links| && !Apply(cfg, s, st).links[c].broker
  {
    if st.External? || st.Expire? {
      ArrivalsOnlyQueue(cfg, s, st);
    }
  }

  // ----- what the duplicates come from -----

  /** Republished over its own channel, which the broker then lost before it could process the acknowledgement. */
  function Bereft(o: Line, links: seq<Link>): Delivery -> nat {
    (d: Delivery) =>
      if Of(d.msg, o) && d.forward == Effective(d.channel) && !d.settled.Acked?
         && d.channel < |links| && !links[d.channel].broker then 1 else 0
  }

  /** Republished over its own channel, still open: the acknowledgement may yet take effect. */
  function Awaiting(o: Line, links: seq<Link>): Delivery -> nat {
    (d: Delivery) =>
      if Of(d.msg, o) && d.forward == Effective(d.channel) && !d.settled.Acked?
         && d.channel < |links| && links[d.channel].broker then 1 else 0
  }

  /** Republished over a channel that is not the delivery's. */
  function Stale(o: Line): Delivery -> nat {
    (d: Delivery) => if Of(d.msg, o) && d.forward.Effective? && d.forward.channel != d.channel then 1 else 0
  }

  /** Somewhere in the run the task took a channel to republish on when its own was already closed at this end. */
  predicate TookWhileClosed(cfg: Config, steps: seq<Step>, t: nat) {
    steps != []
    && var front, st := steps[..|steps| - 1], steps[|steps| - 1];
       var s := Run(cfg, front);
       || TookWhileClosed(cfg, front, t)
       || (st.Take? && st.t == t && Enabled(cfg, s, st)
           && s.deliveries[t].channel < |s.links| && !s.links[s.deliveries[t].channel].client)
  }

  /** The channel a task has taken or republished over. */
  function Via(d: Delivery): Option<nat> {
    if d.pc.Holding? then Some(d.pc.channel) else if d.forward.Unsent? then None else Some(d.forward.channel)
  }

  /** `get_channel` hands a task its own channel exactly when this end still holds that open. */
  lemma TakeKeepsChannelIff(cfg: Config, s: State, t: nat, canCreate: bool)
    requires Inv(cfg, s) && Enabled(cfg, s, Take(t, canCreate))
    ensures var d, d' := s.deliveries[t], Apply(cfg, s, Take(t, canCreate)).deliveries[t];
            && d.channel < |s.links| && d'.channel == d.channel
            && (Via(d').Some? ==> (Via(d').value == d.channel <==> s.links[d.channel].client))
  {
    assert TaskOk(s.links, s.deliveries[t]);
  }

  /** A step other than its Take leaves a task's channels as they are. */
  lemma ViaStays(cfg: Config, s: State, st: Step, t: nat)
    requires Inv(cfg, s) && Enabled(cfg, s, st) && t < |s.deliveries| && !(st.Take? && st.t == t)
    ensures var s' := Apply(cfg, s, st);
            && t < |s'.deliveries| && s'.deliveries[t].channel == s.deliveries[t].channel
            && (Via(s'.deliveries[t]).Some? ==> Via(s'.deliveries[t]) == Via(s.deliveries[t]))
  {
    assert TaskOk(s.links, s.deliveries[t]);
    if !IsClientStep(st) {
      StepHasEffect(cfg, s, st);
      OtherStepTouches(cfg, s, st, Apply(cfg, s, st));
    }
  }

  /** The task, if it has begun, has not asked for a channel. */
  predicate Early(s: State, t: nat) {
    t < |s.deliveries| ==> s.deliveries[t].pc.Running? || s.deliveries[t].pc.Decided?
  }

  lemma EarlyBefore(cfg: Config, s: State, st: Step, t: nat)
    requires Inv(cfg, s) && Enabled(cfg, s, st) && Early(Apply(cfg, s, st), t)
    ensures Early(s, t) && !(st.Take? && st.t == t)
  {
    if !IsClientStep(st) {
      StepHasEffect(cfg, s, st);
      OtherStepTouches(cfg, s, st, Apply(cfg, s, st));
    }
  }

  /** Before a task takes a channel it has none; it takes one once. */
  lemma {:induction false} NotYetTaken(cfg: Config, steps: seq<Step>, t: nat)
    requires Early(Run(cfg, steps), t)
    ensures !TookWhileClosed(cfg, steps, t)
  {
    if steps != [] {
      var front, st := steps[..|steps| - 1], steps[|steps| - 1];
      var s := Run(cfg, front);
      RunKeepsInv(cfg, front);
      if Enabled(cfg, s, st) {
        EarlyBefore(cfg, s, st, t);
      }
      NotYetTaken(cfg, front, t);
    }
  }

  /** In every run: a task that took a channel took another than its delivery's exactly when its delivery's had been
      closed at this end by then. */
  lemma {:induction false} StaleIffTookWhileClosed(cfg: Config, steps: seq<Step>, t: nat)
    requires var s := Run(cfg, steps); t < |s.deliveries| && Via(s.deliveries[t]).Some?
    ensures var d := Run(cfg, steps).deliveries[t];
            Via(d).value != d.channel <==> TookWhileClosed(cfg, steps, t)
  {
    var front, st := steps[..|steps| - 1], steps[|steps| - 1];
    var s := Run(cfg, front);
    RunKeepsInv(cfg, front);
    if !Enabled(cfg, s, st) {
      StaleIffTookWhileClosed(cfg, front, t);
    } else if st.Take? && st.t == t {
      TakeKeepsChannelIff(cfg, s, t, st.canCreate);
      NotYetTaken(cfg, front, t);
    } else {
      StepHasEffect(cfg, s, st);
      if t < |s.deliveries| {
        ViaStays(cfg, s, st, t);
        StaleIffTookWhileClosed(cfg, front, t);
      }
    }
  }

  predicate Forwarded(d: Delivery, o: Line) { Of(d.msg, o) && d.forward.Effective? }

  lemma DebtsByCause(cfg: Config, s: State, o: Line)
    requires Inv(cfg, s)
    ensures Sum(s.deliveries, Unpaid(o))
         == Sum(s.deliveries, Bereft(o, s.links)) + Sum(s.deliveries, Awaiting(o, s.links))
            + Sum(s.deliveries, Stale(o))
    ensures Sum(s.deliveries, Stale(o)) == 0 <==>
              forall t :: 0 <= t < |s.deliveries| && Forwarded(s.deliveries[t], o) ==>
                s.deliveries[t].forward.channel == s.deliveries[t].channel
  {
    forall t | 0 <= t < |s.deliveries|
      ensures Unpaid(o)(s.deliveries[t])
           == Bereft(o, s.links)(s.deliveries[t]) + Awaiting(o, s.links)(s.deliveries[t]) + Stale(o)(s.deliveries[t])
    {
      assert TaskOk(s.links, s.deliveries[t]);
    }
    SumOfThree(s.deliveries, Unpaid(o), Bereft(o, s.links), Awaiting(o, s.links), Stale(o));
    if Sum(s.deliveries, Stale(o)) == 0 {
      forall t | 0 <= t < |s.deliveries|
        ensures Stale(o)(s.deliveries[t]) == 0
      {
        SumAtLeast(s.deliveries, t, Stale(o));
      }
    } else {
      var t := SumWitness(s.deliveries, Stale(o));
    }
  }

  /** The debts of DuplicationExact by kind. In a run with no acknowledgement under way, deaths between republication
      and acknowledgement count the duplicates if and only if no task that republished had asked for its channel after
      its delivery's was closed at this end. */
  lemma {:induction false} DuplicatesByCause(cfg: Config, steps: seq<Step>, n: nat, q: string)
    requires IsMain(cfg, q) && IsolatedQueue(cfg, q)
    requires var s := Run(cfg, steps); n < |s.origins| && q in s.origins[n].targets
    ensures var s, o := Run(cfg, steps), LineOf(n, q);
            var deaths, awaiting := Sum(s.deliveries, Bereft(o, s.links)), Sum(s.deliveries, Awaiting(o, s.links));
            && Sum(s.copies, Present(o)) == 1 + deaths + awaiting + Sum(s.deliveries, Stale(o))
            && (awaiting == 0 ==> (Sum(s.copies, Present(o)) == 1 + deaths <==>
                  forall t :: 0 <= t < |s.deliveries| && Forwarded(s.deliveries[t], o) ==>
                    !TookWhileClosed(cfg, steps, t)))
  {
    var s := Run(cfg, steps);
    RunKeepsInv(cfg, steps);
    DuplicationExact(cfg, steps, n, q);
    DebtsByCause(cfg, s, LineOf(n, q));
    forall t | 0 <= t < |s.deliveries| && s.deliveries[t].forward.Effective?
      ensures s.deliveries[t].forward.channel == s.deliveries[t].channel <==> !TookWhileClosed(cfg, steps, t)
    {
      assert TaskOk(s.links, s.deliveries[t]);
      StaleIffTookWhileClosed(cfg, steps, t);
    }
  }

  lemma EffectiveStays(cfg: Config, s: State, st: Step, s': State, t: nat)
    requires Effect(cfg, s, st, s') && t < |s.deliveries| && s.deliveries[t].forward.Effective?
    ensures t < |s'.deliveries|
    ensures s'.deliveries[t].forward == s.deliveries[t].forward && s'.deliveries[t].channel == s.deliveries[t].channel
  {
  }

  /** A stale republication is never paid for: whatever follows, its delivery is not acknowledged. */
  lemma {:induction false} StaleNeverAcked(cfg: Config, s: State, steps: seq<Step>, t: nat)
    requires Inv(cfg, s) && t < |s.deliveries|
    requires s.deliveries[t].forward.Effective? && s.deliveries[t].forward.channel != s.deliveries[t].channel
    ensures var s' := Exec(cfg, s, steps);
            && Inv(cfg, s') && t < |s'.deliveries| && !s'.deliveries[t].settled.Acked?
            && s'.deliveries[t].forward == s.deliveries[t].forward
            && s'.deliveries[t].channel == s.deliveries[t].channel
  {
    if steps == [] {
      assert TaskOk(s.links, s.deliveries[t]);
    } else {
      var front, st := steps[..|steps| - 1], steps[|steps| - 1];
      StaleNeverAcked(cfg, s, front, t);
      var s1 := Exec(cfg, s, front);
      NextKeepsInv(cfg, s1, st);
      if Enabled(cfg, s1, st) {
        StepHasEffect(cfg, s1, st);
        EffectiveStays(cfg, s1, st, Apply(cfg, s1, st), t);
        var s' := Apply(cfg, s1, st);
        assert TaskOk(s'.links, s'.deliveries[t]);
      }
    }
  }

  lemma TakeThenPublish(cfg: Config, s: State, t: nat)
    requires t < |s.deliveries| && !Pool.Live(s.links, s.cached)
    requires s.deliveries[t].pc.Decided? && MustForward(s.deliveries[t])
    ensures var d, c, s2 := s.deliveries[t], |s.links|, Next(cfg, Next(cfg, s, Take(t, true)), SendPublish(t));
            && |s2.links| == c + 1 && s2.links[c].broker && s2.links[c].wire == [PublishFrame(t, d)]
            && |s2.deliveries| == |s.deliveries| && s2.deliveries[t] == d.(pc := Published, forward := Sent(c))
  {
    var s1 := Next(cfg, s, Take(t, true));
    assert s1.deliveries[t] == s.deliveries[t].(pc := Holding(|s.links|));
    assert PublishFrame(t, s1.deliveries[t]) == PublishFrame(t, s.deliveries[t]);
    assert s1.links == s.links + [FRESH];
  }

  /** A task outlives its channel. When its handler fails after the broker has dropped the channel and returned the
      message, it republishes on a fresh channel all the same: a duplicate without the channel having closed in between
      publish and acknowledgement. */
  lemma StaleTaskStillForwards(cfg: Config, s: State, t: nat)
    requires t < |s.deliveries| && !Pool.Live(s.links, s.cached)
    requires var d := s.deliveries[t]; d.pc.Decided? && MustForward(d) && d.settled.Requeued?
    ensures var s' := Next(cfg, Next(cfg, Next(cfg, s, Take(t, true)), SendPublish(t)), Process(|s.links|));
            t < |s'.deliveries| && s'.deliveries[t].forward.Effective? && s'.deliveries[t].settled.Requeued?
  {
    var c := |s.links|;
    TakeThenPublish(cfg, s, t);
    var s2 := Next(cfg, Next(cfg, s, Take(t, true)), SendPublish(t));
    assert s2.links[c].wire[0].Publish?;
    assert Next(cfg, s2, Process(c)).deliveries[t] == s2.deliveries[t].(forward := Effective(c));
  }
}
