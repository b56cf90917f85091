/** Runs end drained: all publishes together have a bounded number of steps left, and while one is not drained a step
    can be taken (src/subscriber.rs:498-625). */
module Draining {
  import opened Sums
  import opened Amqp
  import opened Routing
  import opened Protocol
  import opened Invariants
  import opened Effects
  import opened Ledger
  import opened Accounting
  import opened Amplification
  import opened Attempts
  import opened Progress
  import Flight

  /** All that descends from publish `n`. */
  function WholeLine(s: State, n: nat): Line
    requires n < |s.origins|
  {
    Line(n, TargetSet(s.origins[n]))
  }

  /** What the first `n` publishes can still cost. */
  ghost function Total(cfg: Config, p: Prices, s: State, n: nat): nat
    requires n <= |s.origins|
  {
    if n == 0 then 0 else Total(cfg, p, s, n - 1) + Potential(cfg, p, WholeLine(s, n - 1), s)
  }

  /** Every publish has stayed in the realm. */
  ghost predicate AllWithin(cfg: Config, s: State, reach: set<string>) {
    forall n :: 0 <= n < |s.origins| ==> Within(cfg, s, WholeLine(s, n), reach)
  }

  ghost predicate AllLand(s: State, reach: set<string>) {
    forall n :: 0 <= n < |s.origins| ==> Lands(s, WholeLine(s, n), reach)
  }

  /** One per step, with bounds every realm meets. */
  function Steps(cfg: Config): Prices { PerStep(|cfg.topology.queues|, U32) }

  lemma RealmSpreads(cfg: Config, reach: set<string>)
    requires Realm(cfg, reach)
    ensures Spread(cfg, reach, Steps(cfg))
  {
    forall w | 0 <= w < |cfg.workers| && Expires(cfg.topology, RetryQueue(cfg.workers[w].queue))
      ensures |ExpiryTargets(cfg.topology, RetryQueue(cfg.workers[w].queue))| <= |cfg.topology.queues|
    {
      var targets := ExpiryTargets(cfg.topology, RetryQueue(cfg.workers[w].queue));
      RoutedQueuesExist(cfg.topology, RetryQueue(cfg.workers[w].queue));
      Subset(targets, cfg.topology.queues.Keys);
      assert |cfg.topology.queues.Keys| == |cfg.topology.queues|;
    }
  }

  lemma {:induction false} Subset(a: set<string>, b: set<string>)
    requires a <= b
    ensures |a| <= |b|
  {
    if a != {} {
      var x :| x in a;
      Subset(a - {x}, b - {x});
    }
  }

  /** The message a step moves belongs to a publish, and so to that publish's line. */
  lemma MoverIsOf(cfg: Config, s: State, st: Step)
    requires Inv(cfg, s) && LedgerOk(s) && Internal(st) && Enabled(cfg, s, st)
    ensures var m := Mover(cfg, s, st); m.origin < |s.origins| && Of(m, WholeLine(s, m.origin))
  {
    if st.Deliver? {
      assert MsgOk(s.origins, s.copies[s.queues[QueueOf(cfg, s, st.k)][0]].msg);
    } else if st.Process? {
      assert MsgOk(s.origins, s.deliveries[s.links[st.c].wire[0].tag].msg);
    } else if st.Expire? {
      assert MsgOk(s.origins, s.copies[s.queues[st.queue][0]].msg);
    } else {
      assert MsgOk(s.origins, s.deliveries[st.t].msg);
    }
  }

  /** A step the system takes by itself costs the line it moves a message of, and no other earns. */
  lemma {:induction false} LineFalls(cfg: Config, p: Prices, reach: set<string>, s: State, st: Step, s': State,
      mover: nat, n: nat)
    requires Inv(cfg, s) && LedgerOk(s) && AllWithin(cfg, s, reach) && Spread(cfg, reach, p) && p.run > 0 && p.hop > 0
    requires Internal(st) && Enabled(cfg, s, st) && n < |s.origins|
    requires s' == Apply(cfg, s, st) && mover == Mover(cfg, s, st).origin
    ensures Potential(cfg, p, WholeLine(s, n), s') + (if mover == n then 1 else 0)
            <= Potential(cfg, p, WholeLine(s, n), s)
  {
    InternalDrift(cfg, p, WholeLine(s, n), reach, s, st);
    MoverIsOf(cfg, s, st);
  }

  lemma {:induction false} TotalFalls(cfg: Config, p: Prices, s: State, s': State, mover: nat, n: nat)
    requires s'.origins == s.origins && n <= |s.origins|
    requires forall k :: 0 <= k < n ==>
               Potential(cfg, p, WholeLine(s, k), s') + (if mover == k then 1 else 0)
               <= Potential(cfg, p, WholeLine(s, k), s)
    ensures Total(cfg, p, s', n) + (if mover < n then 1 else 0) <= Total(cfg, p, s, n)
  {
    if n > 0 {
      TotalFalls(cfg, p, s, s', mover, n - 1);
      assert WholeLine(s', n - 1) == WholeLine(s, n - 1);
    }
  }

  lemma {:induction false} TickKeepsTotal(cfg: Config, p: Prices, s: State, s': State, n: nat)
    requires s'.origins == s.origins && s'.copies == s.copies && s'.deliveries == s.deliveries && n <= |s.origins|
    ensures Total(cfg, p, s', n) == Total(cfg, p, s, n)
  {
    if n > 0 {
      TickKeepsTotal(cfg, p, s, s', n - 1);
    }
  }

  /** Everything is in order: channels open, nothing given up, the realm's queues consumed, all publishes in it. */
  ghost predicate Healthy(cfg: Config, s: State, reach: set<string>) {
    AllOpen(s) && NoneStuck(s) && (forall q :: q in reach ==> Manned(cfg, s, q)) && AllLand(s, reach)
  }

  lemma CalmKeepsOpen(cfg: Config, s: State, st: Step)
    requires Enabled(cfg, s, st) && (Calm(st) || st.Tick?) && AllOpen(s)
    ensures AllOpen(Apply(cfg, s, st))
  {
    if st.Expire? {
      ArrivalsOnlyQueue(cfg, s, st);
    }
  }

  lemma CalmKeepsUnstuck(cfg: Config, s: State, st: Step)
    requires Inv(cfg, s) && Enabled(cfg, s, st) && (Calm(st) || st.Tick?) && NoneStuck(s)
    ensures NoneStuck(Apply(cfg, s, st))
  {
    StepHasEffect(cfg, s, st);
    if !IsClientStep(st) {
      OtherStepTouches(cfg, s, st, Apply(cfg, s, st));
    }
  }

  lemma CalmKeepsHealthy(cfg: Config, s: State, st: Step, reach: set<string>)
    requires Inv(cfg, s) && Enabled(cfg, s, st) && (Calm(st) || st.Tick?) && Healthy(cfg, s, reach)
    ensures Healthy(cfg, Apply(cfg, s, st), reach) && Apply(cfg, s, st).origins == s.origins
  {
    var s' := Apply(cfg, s, st);
    CalmKeepsOpen(cfg, s, st);
    CalmKeepsUnstuck(cfg, s, st);
    Flight.OthersKeepLimits(cfg, s, st);
    StepHasEffect(cfg, s, st);
    forall q | q in reach
      ensures Manned(cfg, s', q)
    {
      var k :| 0 <= k < |s.consumers| && QueueOf(cfg, s, k) == q;
      assert QueueOf(cfg, s', k) == q;
    }
    forall n | 0 <= n < |s'.origins|
      ensures Lands(s', WholeLine(s', n), reach)
    {
      assert Lands(s, WholeLine(s, n), reach);
    }
  }

  lemma LandedIsWithin(cfg: Config, steps: seq<Step>, reach: set<string>)
    requires Realm(cfg, reach) && AllLand(Run(cfg, steps), reach)
    ensures AllWithin(cfg, Run(cfg, steps), reach)
  {
    var s := Run(cfg, steps);
    forall n | 0 <= n < |s.origins|
      ensures Within(cfg, s, WholeLine(s, n), reach)
    {
      assert Lands(s, WholeLine(s, n), reach);
      RunWithin(cfg, steps, WholeLine(s, n), reach);
    }
  }

  /** What is left to do in a run. */
  ghost function Remaining(cfg: Config, steps: seq<Step>): nat {
    var s := Run(cfg, steps); Total(cfg, Steps(cfg), s, |s.origins|)
  }

  lemma {:induction false} OwnStepLowersTotal(cfg: Config, s: State, st: Step, s': State, mover: nat,
      reach: set<string>)
    requires Inv(cfg, s) && LedgerOk(s) && Realm(cfg, reach) && AllWithin(cfg, s, reach)
    requires Enabled(cfg, s, st) && Internal(st) && s' == Apply(cfg, s, st) && s'.origins == s.origins
    requires mover == Mover(cfg, s, st).origin < |s.origins|
    ensures Total(cfg, Steps(cfg), s', |s.origins|) + 1 <= Total(cfg, Steps(cfg), s, |s.origins|)
  {
    RealmSpreads(cfg, reach);
    forall n | 0 <= n < |s.origins|
      ensures Potential(cfg, Steps(cfg), WholeLine(s, n), s') + (if mover == n then 1 else 0)
              <= Potential(cfg, Steps(cfg), WholeLine(s, n), s)
    {
      LineFalls(cfg, Steps(cfg), reach, s, st, s', mover, n);
    }
    TotalFalls(cfg, Steps(cfg), s, s', mover, |s.origins|);
  }

  lemma AllFalls(cfg: Config, s: State, st: Step, reach: set<string>)
    requires Inv(cfg, s) && LedgerOk(s) && Realm(cfg, reach) && AllWithin(cfg, s, reach)
    requires Enabled(cfg, s, st) && (Internal(st) || st.Tick?)
    ensures var s' := Apply(cfg, s, st);
            && s'.origins == s.origins
            && Total(cfg, Steps(cfg), s', |s'.origins|) + Own()(st) <= Total(cfg, Steps(cfg), s, |s.origins|)
  {
    StepHasEffect(cfg, s, st);
    if st.Tick? {
      TickKeepsTotal(cfg, Steps(cfg), s, Apply(cfg, s, st), |s.origins|);
    } else {
      MoverIsOf(cfg, s, st);
      OwnStepLowersTotal(cfg, s, st, Apply(cfg, s, st), Mover(cfg, s, st).origin, reach);
    }
  }

  function Own(): Step -> nat { (st: Step) => if st.Tick? then 0 else 1 }

  /** A step the system takes by itself leaves less to do; time passing, no more. */
  lemma RemainingFalls(cfg: Config, steps: seq<Step>, st: Step, reach: set<string>)
    requires Realm(cfg, reach) && AllLand(Run(cfg, steps), reach)
    requires Enabled(cfg, Run(cfg, steps), st) && (Internal(st) || st.Tick?)
    ensures Remaining(cfg, steps + [st]) + Own()(st) <= Remaining(cfg, steps)
  {
    RunLedger(cfg, steps);
    LandedIsWithin(cfg, steps, reach);
    RunOneMore(cfg, steps, st);
    AllFalls(cfg, Run(cfg, steps), st, reach);
  }

  lemma LastTaken(cfg: Config, steps: seq<Step>, more: seq<Step>)
    requires more != [] && AllTaken(cfg, Run(cfg, steps), more)
    ensures var front, st := more[..|more| - 1], more[|more| - 1];
            && AllTaken(cfg, Run(cfg, steps), front) && Enabled(cfg, Run(cfg, steps + front), st)
            && steps + more == (steps + front) + [st]
  {
    ExecConcat(cfg, Init(cfg), steps, more[..|more| - 1]);
  }

  lemma OwnStep(cfg: Config, steps: seq<Step>, st: Step, reach: set<string>)
    requires Realm(cfg, reach) && AllLand(Run(cfg, steps), reach)
    requires Enabled(cfg, Run(cfg, steps), st) && (Internal(st) || st.Tick?)
    ensures AllLand(Run(cfg, steps + [st]), reach)
    ensures Remaining(cfg, steps + [st]) + Own()(st) <= Remaining(cfg, steps)
  {
    var s := Run(cfg, steps);
    RunKeepsInv(cfg, steps);
    StepHasEffect(cfg, s, st);
    RunOneMore(cfg, steps, st);
    RemainingFalls(cfg, steps, st, reach);
    SameLanding(s, Apply(cfg, s, st), reach);
  }

  /** Whatever is going on, a run goes on by itself for a bounded number of steps only: more need new publishes,
      start-ups, or channels closing. */
  lemma {:induction false} OwnStepsAreBounded(cfg: Config, steps: seq<Step>, more: seq<Step>, reach: set<string>)
    requires Realm(cfg, reach) && AllLand(Run(cfg, steps), reach) && AllTaken(cfg, Run(cfg, steps), more)
    requires forall i :: 0 <= i < |more| ==> Internal(more[i]) || more[i].Tick?
    ensures AllLand(Run(cfg, steps + more), reach)
    ensures Remaining(cfg, steps + more) + Sum(more, Own()) <= Remaining(cfg, steps)
  {
    if more == [] {
      assert steps + more == steps;
    } else {
      var front, st := more[..|more| - 1], more[|more| - 1];
      LastTaken(cfg, steps, more);
      OwnStepsAreBounded(cfg, steps, front, reach);
      OwnStep(cfg, steps + front, st, reach);
    }
  }

  lemma SameLanding(s: State, s': State, reach: set<string>)
    requires AllLand(s, reach) && s'.origins == s.origins
    ensures AllLand(s', reach)
  {
    forall n | 0 <= n < |s'.origins|
      ensures Lands(s', WholeLine(s', n), reach)
    {
      assert Lands(s, WholeLine(s, n), reach);
    }
  }

  // ----- runs end drained -----

  ghost predicate AllDrained(cfg: Config, s: State) {
    forall n :: 0 <= n < |s.origins| ==> Drained(cfg, s, WholeLine(s, n))
  }

  predicate CalmOrTick(steps: seq<Step>) {
    forall i :: 0 <= i < |steps| ==> Calm(steps[i]) || steps[i].Tick?
  }

  datatype Continuation = Continuation(steps: seq<Step>, more: seq<Step>)

  /** A run goes on calmly, every step taken in its turn, and as unlucky for every line as it was. */
  ghost predicate Calmly(cfg: Config, c: Continuation) {
    && CalmOrTick(c.more) && Leads(cfg, Run(cfg, c.steps), c.more, Run(cfg, c.steps + c.more))
    && Run(cfg, c.steps + c.more).origins == Run(cfg, c.steps).origins
    && forall o :: UnluckyRun(cfg, c.steps, o) ==> UnluckyRun(cfg, c.steps + c.more, o)
  }

  /** The same, written with a quantifier so that proofs carry it along without unrolling the runs. */
  ghost predicate GoesOn(cfg: Config, steps: seq<Step>, more: seq<Step>) {
    forall c :: c == Continuation(steps, more) ==> Calmly(cfg, c)
  }

  lemma GoesOnIff(cfg: Config, steps: seq<Step>, more: seq<Step>)
    ensures GoesOn(cfg, steps, more) <==> Calmly(cfg, Continuation(steps, more))
  {
    assert GoesOn(cfg, steps, more) ==> Calmly(cfg, Continuation(steps, more));
  }

  lemma GoesOnNot(cfg: Config, steps: seq<Step>)
    ensures GoesOn(cfg, steps, []) && steps + [] == steps
  {
    assert steps + [] == steps;
    GoesOnIff(cfg, steps, []);
  }

  lemma GoesOnThen(cfg: Config, steps: seq<Step>, a: seq<Step>, b: seq<Step>)
    requires GoesOn(cfg, steps, a) && GoesOn(cfg, steps + a, b)
    ensures GoesOn(cfg, steps, a + b) && steps + (a + b) == (steps + a) + b
  {
    assert steps + (a + b) == (steps + a) + b;
    GoesOnIff(cfg, steps, a);
    GoesOnIff(cfg, steps + a, b);
    LeadsThen(cfg, Run(cfg, steps), a, Run(cfg, steps + a), b, Run(cfg, steps + a + b));
    GoesOnIff(cfg, steps, a + b);
  }

  /** A calm step is as unlucky as can be. */
  lemma CalmIsUnlucky(cfg: Config, steps: seq<Step>, st: Step, o: Line)
    requires UnluckyRun(cfg, steps, o) && (Calm(st) || st.Tick?) && Enabled(cfg, Run(cfg, steps), st)
    ensures UnluckyRun(cfg, steps + [st], o)
  {
    assert (steps + [st])[..|steps|] == steps;
  }

  lemma OneGoesOn(cfg: Config, steps: seq<Step>, st: Step)
    requires Enabled(cfg, Run(cfg, steps), st) && (Calm(st) || st.Tick?)
    requires Run(cfg, steps + [st]) == Apply(cfg, Run(cfg, steps), st)
    requires Run(cfg, steps + [st]).origins == Run(cfg, steps).origins
    ensures GoesOn(cfg, steps, [st])
  {
    LeadsOne(cfg, Run(cfg, steps), st);
    forall o | UnluckyRun(cfg, steps, o)
      ensures UnluckyRun(cfg, steps + [st], o)
    {
      CalmIsUnlucky(cfg, steps, st, o);
    }
    GoesOnIff(cfg, steps, [st]);
  }

  lemma StepOnKeeps(cfg: Config, steps: seq<Step>, st: Step, reach: set<string>)
    requires Realm(cfg, reach) && Healthy(cfg, Run(cfg, steps), reach)
    requires Enabled(cfg, Run(cfg, steps), st) && (Calm(st) || st.Tick?)
    ensures Healthy(cfg, Run(cfg, steps + [st]), reach)
    ensures GoesOn(cfg, steps, [st])
    ensures Remaining(cfg, steps + [st]) + Own()(st) <= Remaining(cfg, steps)
  {
    RunKeepsInv(cfg, steps);
    RunOneMore(cfg, steps, st);
    CalmKeepsHealthy(cfg, Run(cfg, steps), st, reach);
    RemainingFalls(cfg, steps, st, reach);
    OneGoesOn(cfg, steps, st);
  }

  lemma NextCalmStep(cfg: Config, steps: seq<Step>, reach: set<string>) returns (wait: nat, st: Step)
    requires Realm(cfg, reach) && Healthy(cfg, Run(cfg, steps), reach) && !AllDrained(cfg, Run(cfg, steps))
    ensures Calm(st) && Enabled(cfg, Run(cfg, steps), Tick(wait)) && Enabled(cfg, Run(cfg, steps + [Tick(wait)]), st)
  {
    var s := Run(cfg, steps);
    var n :| 0 <= n < |s.origins| && !Drained(cfg, s, WholeLine(s, n));
    assert Lands(s, WholeLine(s, n), reach);
    wait, st := UndrainedCanStep(cfg, steps, WholeLine(s, n), reach);
    RunOneMore(cfg, steps, Tick(wait));
  }

  /** One calm step after the wait it needs, while something is not drained. */
  lemma OneStepOn(cfg: Config, steps: seq<Step>, reach: set<string>) returns (two: seq<Step>)
    requires Realm(cfg, reach) && Healthy(cfg, Run(cfg, steps), reach) && !AllDrained(cfg, Run(cfg, steps))
    ensures GoesOn(cfg, steps, two) && Healthy(cfg, Run(cfg, steps + two), reach)
    ensures Remaining(cfg, steps + two) < Remaining(cfg, steps)
  {
    var wait, st := NextCalmStep(cfg, steps, reach);
    StepOnKeeps(cfg, steps, Tick(wait), reach);
    StepOnKeeps(cfg, steps + [Tick(wait)], st, reach);
    GoesOnThen(cfg, steps, [Tick(wait)], [st]);
    two := [Tick(wait)] + [st];
  }

  lemma {:induction false} CalmToTheEnd(cfg: Config, steps: seq<Step>, reach: set<string>) returns (more: seq<Step>)
    requires Realm(cfg, reach) && Healthy(cfg, Run(cfg, steps), reach)
    ensures GoesOn(cfg, steps, more) && AllDrained(cfg, Run(cfg, steps + more))
    decreases Remaining(cfg, steps)
  {
    if AllDrained(cfg, Run(cfg, steps)) {
      more := [];
      GoesOnNot(cfg, steps);
    } else {
      var two := OneStepOn(cfg, steps, reach);
      var rest := CalmToTheEnd(cfg, steps + two, reach);
      more := two + rest;
      GoesOnThen(cfg, steps, two, rest);
    }
  }

  /** From every healthy state of every run, finitely many calm steps and waits lead to a state in which every publish
      is drained; handlers failing all the while included, so a run that was unlucky for a line can stay so. With
      OwnStepsAreBounded, no way of going on avoids it for ever. */
  lemma {:induction false} RunsEndDrained(cfg: Config, steps: seq<Step>, reach: set<string>) returns (more: seq<Step>)
    requires Realm(cfg, reach) && Healthy(cfg, Run(cfg, steps), reach)
    ensures CalmOrTick(more) && Leads(cfg, Run(cfg, steps), more, Run(cfg, steps + more))
    ensures Run(cfg, steps + more).origins == Run(cfg, steps).origins && AllDrained(cfg, Run(cfg, steps + more))
    ensures forall o :: UnluckyRun(cfg, steps, o) ==> UnluckyRun(cfg, steps + more, o)
  {
    more := CalmToTheEnd(cfg, steps, reach);
    GoesOnIff(cfg, steps, more);
  }

  /** So a message whose handler at an isolated queue has failed so far does get all its attempts there and then its
      place in the dead-letter queue, if it keeps failing and nothing else does. */
  lemma {:induction false} AttemptsComplete(cfg: Config, q: string, limit: u32, steps: seq<Step>, n: nat,
      reach: set<string>)
    returns (more: seq<Step>)
    requires Realm(cfg, reach) && Healthy(cfg, Run(cfg, steps), reach)
    requires IsMain(cfg, q) && IsolatedQueue(cfg, q) && RetriesExactly(cfg, q, limit)
    requires n < |Run(cfg, steps).origins| && q in Run(cfg, steps).origins[n].targets
    requires UnluckyRun(cfg, steps, LineOf(n, q))
    ensures CalmOrTick(more)
    ensures var s, o := Run(cfg, steps + more), LineOf(n, q);
            && n < |s.origins|
            && Sum(s.deliveries, Handled(o)) == Max(0, limit - RetryCount(s.origins[n].headers)) + 1
            && Sum(s.copies, Attempts.DeadLetter(o, q)) == 1
  {
    more := RunsEndDrained(cfg, steps, reach);
    var s := Run(cfg, steps + more);
    assert Drained(cfg, s, WholeLine(s, n));
    assert q in TargetSet(s.origins[n]);
    assert Drained(cfg, s, LineOf(n, q));
    ExactAttempts(cfg, q, limit, steps + more, n);
  }
}
