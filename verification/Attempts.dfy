/** How often a message is attempted, in numbers (src/subscriber.rs:531-603). */
module Attempts {
  import opened Wrappers
  import opened Sums
  import opened Amqp
  import opened Routing
  import opened Protocol
  import opened Invariants
  import opened Effects
  import opened Ledger
  import opened Accounting
  import opened Amplification
  import Flight

  // ----- handler runs -----

  /** Price one per handler run, nothing for anything else. */
  function PerRun(fan: nat, limit: nat): Prices { Prices(1, 0, fan, limit) }

  /** Price one per step of any kind. */
  function PerStep(fan: nat, limit: nat): Prices { Prices(1, 1, fan, limit) }

  /** A delivery whose handler has come back. */
  function Handled(o: Line): Delivery -> nat {
    (d: Delivery) => if Of(d.msg, o) && !d.verdict.Pending? then 1 else 0
  }

  ghost predicate PendingWhileRunning(s: State) {
    forall t :: 0 <= t < |s.deliveries| ==> (s.deliveries[t].pc.Running? <==> s.deliveries[t].verdict.Pending?)
  }

  lemma PendingUntilHandled(cfg: Config, s: State)
    requires Inv(cfg, s)
    ensures PendingWhileRunning(s)
  {
    forall t | 0 <= t < |s.deliveries|
      ensures s.deliveries[t].pc.Running? <==> s.deliveries[t].verdict.Pending?
    {
      assert TaskOk(s.links, s.deliveries[t]);
    }
  }

  lemma ProcessHandlesNothing(cfg: Config, s: State, s': State, c: nat, o: Line)
    requires ProcessEffect(cfg, s, s', c)
    ensures Sum(s'.deliveries, Handled(o)) == Sum(s.deliveries, Handled(o))
  {
    var t := s.links[c].wire[0].tag;
    SumUpdate(s.deliveries, t, s'.deliveries[t], Handled(o));
  }

  lemma HandledEffect(cfg: Config, s: State, st: Step, s': State, o: Line)
    requires Effect(cfg, s, st, s') && PendingWhileRunning(s)
    ensures Sum(s'.deliveries, Handled(o))
         == Sum(s.deliveries, Handled(o)) + if st.Handle? && Of(s.deliveries[st.t].msg, o) then 1 else 0
  {
    if IsClientStep(st) {
      SumUpdate(s.deliveries, st.t, s'.deliveries[st.t], Handled(o));
    } else if st.Deliver? {
      SumAppend(s.deliveries, s'.deliveries[|s.deliveries|], Handled(o));
    } else if st.Process? {
      ProcessHandlesNothing(cfg, s, s', st.c, o);
    } else if st.Requeue? {
      SumUpdate(s.deliveries, st.t, s'.deliveries[st.t], Handled(o));
    }
  }

  lemma HandledStep(cfg: Config, s: State, st: Step, o: Line, fan: nat, limit: nat)
    requires Inv(cfg, s) && Enabled(cfg, s, st)
    ensures Sum(Apply(cfg, s, st).deliveries, Handled(o))
         == Sum(s.deliveries, Handled(o)) + Due(cfg, PerRun(fan, limit), s, st, o)
  {
    StepHasEffect(cfg, s, st);
    PendingUntilHandled(cfg, s);
    HandledEffect(cfg, s, st, Apply(cfg, s, st), o);
  }

  /** What a run spends at one per handler run is the number of handler runs. */
  lemma {:induction false} SpentIsHandled(cfg: Config, steps: seq<Step>, o: Line, fan: nat, limit: nat)
    ensures Spent(cfg, PerRun(fan, limit), steps, o) == Sum(Run(cfg, steps).deliveries, Handled(o))
  {
    if steps != [] {
      var front, st := steps[..|steps| - 1], steps[|steps| - 1];
      RunKeepsInv(cfg, front);
      SpentIsHandled(cfg, front, o, fan, limit);
      SpentStep(cfg, PerRun(fan, limit), steps, o);
      if Enabled(cfg, Run(cfg, front), st) {
        HandledStep(cfg, Run(cfg, front), st, o, fan, limit);
      }
    }
  }

  // ----- the weight in closed form -----

  function Pow(n: nat, k: nat): nat { if k == 0 then 1 else n * Pow(n, k - 1) }

  /** 1 + n + ... + n^(k-1). */
  function Geo(n: nat, k: nat): nat { if k == 0 then 0 else Geo(n, k - 1) + Pow(n, k - 1) }

  lemma MulSum(k: nat, a: nat, b: nat)
    ensures k * (a + b) == k * a + k * b
  {
  }

  lemma {:induction false} GeoStep(n: nat, k: nat)
    ensures Geo(n, k + 1) == 1 + n * Geo(n, k)
  {
    if k > 0 {
      GeoStep(n, k - 1);
      MulSum(n, Geo(n, k - 1), Pow(n, k - 1));
    }
  }

  lemma {:induction false} GeoOne(k: nat)
    ensures Geo(1, k) == k && Pow(1, k) == 1
  {
    if k > 0 {
      GeoOne(k - 1);
    }
  }

  lemma {:induction false} WeightPerRun(fan: nat, limit: nat, c: nat)
    ensures Weight(PerRun(fan, limit), c) == if c <= limit then Geo(fan, limit - c + 1) else 1
    decreases if c <= limit then limit - c else 0
  {
    if c < limit {
      WeightPerRun(fan, limit, c + 1);
      GeoStep(fan, limit - c);
    } else {
      GeoStep(fan, 0);
    }
  }

  /** The sum over c = 0..limit of fan^(c+1). */
  function FanoutRuns(fan: nat, limit: nat): nat {
    Pow(fan, limit + 1) + if limit == 0 then 0 else FanoutRuns(fan, limit - 1)
  }

  lemma {:induction false} FanoutRunsIs(fan: nat, limit: nat)
    ensures FanoutRuns(fan, limit) == fan * Geo(fan, limit + 1)
  {
    MulSum(fan, Geo(fan, limit), Pow(fan, limit));
    if limit > 0 {
      FanoutRunsIs(fan, limit - 1);
    }
  }

  // ----- amplification -----

  /** The ceiling of a publish without retry header, in closed form. */
  lemma {:induction false} FreshCeiling(s: State, o: Line, fan: nat, limit: nat)
    requires o.origin < |s.origins| && Entered(s, o) <= fan && RetryCount(s.origins[o.origin].headers) == 0
    ensures Ceiling(PerRun(fan, limit), o, s)
            <= FanoutRuns(fan, limit) + Sum(s.deliveries, Returned(o)) * Geo(fan, limit + 1)
    ensures fan * Weight(PerRun(fan, limit), 0) == FanoutRuns(fan, limit)
  {
    WeightPerRun(fan, limit, 0);
    FanoutRunsIs(fan, limit);
    MulMonotoneLeft(Entered(s, o), fan, Geo(fan, limit + 1));
  }

  /** Handler runs stay within the price of the publish. */
  lemma {:induction false} RunsWithinCeiling(cfg: Config, fan: nat, limit: nat, steps: seq<Step>, o: Line,
      reach: set<string>)
    requires Spread(cfg, reach, PerRun(fan, limit)) && Lands(Run(cfg, steps), o, reach)
    ensures var s := Run(cfg, steps); Sum(s.deliveries, Handled(o)) <= Ceiling(PerRun(fan, limit), o, s)
  {
    Budget(cfg, PerRun(fan, limit), steps, o, reach);
    SpentIsHandled(cfg, steps, o, fan, limit);
  }

  /** With at most `fan` queues per return and at most `limit` retries, a publish without retry header that enters at
      most `fan` queues causes at most the sum of fan^(c+1) for c = 0..limit handler runs, plus one worker's worth for
      every delivery a closing channel returned. */
  lemma {:induction false} FanoutAmplification(cfg: Config, fan: nat, limit: nat, steps: seq<Step>, o: Line,
      reach: set<string>)
    requires Spread(cfg, reach, PerRun(fan, limit)) && Lands(Run(cfg, steps), o, reach)
    requires var s := Run(cfg, steps); Entered(s, o) <= fan && RetryCount(s.origins[o.origin].headers) == 0
    ensures var s := Run(cfg, steps);
            Sum(s.deliveries, Handled(o))
                <= FanoutRuns(fan, limit) + Sum(s.deliveries, Returned(o)) * Geo(fan, limit + 1)
  {
    RunsWithinCeiling(cfg, fan, limit, steps, o, reach);
    FreshCeiling(Run(cfg, steps), o, fan, limit);
  }

  /** The returns are no more than the workers' prefetches allow, so handler runs are bounded by the settings alone,
      however often channels close: a worker's consumer starts once, and what it held when its channel closed is
      returned once. */
  lemma {:induction false} RunsAreBounded(cfg: Config, fan: nat, limit: nat, prefetch: nat, steps: seq<Step>, o: Line,
      reach: set<string>)
    requires Spread(cfg, reach, PerRun(fan, limit)) && Lands(Run(cfg, steps), o, reach)
    requires var s := Run(cfg, steps); Entered(s, o) <= fan && RetryCount(s.origins[o.origin].headers) == 0
    requires forall w :: 0 <= w < |cfg.workers| ==> 0 < cfg.workers[w].prefetch <= prefetch
    ensures Sum(Run(cfg, steps).deliveries, Handled(o))
         <= FanoutRuns(fan, limit) + |cfg.workers| * prefetch * Geo(fan, limit + 1)
  {
    var s := Run(cfg, steps);
    FanoutAmplification(cfg, fan, limit, steps, o, reach);
    Flight.HeldBound(cfg, steps, prefetch);
    SumMonotone(s.deliveries, Returned(o), Flight.Held());
    MulMonotoneLeft(Sum(s.deliveries, Returned(o)), |cfg.workers| * prefetch, Geo(fan, limit + 1));
  }

  /** Nothing of `o` is waiting, in flight or in a retry queue any more. */
  ghost predicate Drained(cfg: Config, s: State, o: Line) {
    forall c :: 0 <= c < |s.copies| && Of(s.copies[c].msg, o) ==>
      && !s.copies[c].place.InFlight?
      && (s.copies[c].place.Ready? ==>
            !IsMain(cfg, s.copies[c].place.queue) && !Expires(cfg.topology, s.copies[c].place.queue))
  }

  /** After an unlucky run has drained, every delivery of `o` was acknowledged behind its republication. */
  lemma {:induction false} DrainedTask(cfg: Config, p: Prices, s: State, o: Line, reach: set<string>, t: nat)
    requires Inv(cfg, s) && Within(cfg, s, o, reach) && ExactSpread(cfg, reach, p) && AllFailing(s, o)
    requires Drained(cfg, s, o)
    requires t < |s.deliveries| && Of(s.deliveries[t].msg, o)
    ensures var d := s.deliveries[t];
            d.settled.Acked? && d.pc.Done? && d.forward.Effective? && d.limit.Some?
  {
    assert TaskOk(s.links, s.deliveries[t]) && OwnerOk(cfg, s.consumers, s.deliveries[t]);
  }

  lemma DrainedIsSpent(cfg: Config, p: Prices, s: State, o: Line, reach: set<string>)
    requires Inv(cfg, s) && Within(cfg, s, o, reach) && ExactSpread(cfg, reach, p) && AllFailing(s, o)
    requires Drained(cfg, s, o)
    ensures Potential(cfg, p, o, s) == 0 && Sum(s.deliveries, Unpaid(o)) == 0
  {
    forall t | 0 <= t < |s.deliveries|
      ensures TaskWeight(p, o)(s.deliveries[t]) == 0 && Unpaid(o)(s.deliveries[t]) == 0
    {
      if Of(s.deliveries[t].msg, o) {
        DrainedTask(cfg, p, s, o, reach, t);
      }
    }
    SumZero(s.copies, CopyWeight(cfg, p, o));
    SumZero(s.deliveries, TaskWeight(p, o));
    SumZero(s.deliveries, Unpaid(o));
  }

  /** When every return reaches exactly `fan` queues and every handler fails, each home the publish entered costs
      exactly one weight in handler runs. */
  lemma {:induction false} ExactRuns(cfg: Config, fan: nat, limit: nat, steps: seq<Step>, o: Line, reach: set<string>)
    requires ExactSpread(cfg, reach, PerRun(fan, limit)) && UnluckyRun(cfg, steps, o)
    requires var s := Run(cfg, steps); Lands(s, o, reach) && Drained(cfg, s, o)
    ensures var s := Run(cfg, steps);
            && Sum(s.deliveries, Handled(o))
                == Entered(s, o) * Weight(PerRun(fan, limit), RetryCount(s.origins[o.origin].headers))
            && AllFailing(s, o) && Sum(s.deliveries, Unpaid(o)) == 0
  {
    var s, p := Run(cfg, steps), PerRun(fan, limit);
    RunKeepsInv(cfg, steps);
    RunWithin(cfg, steps, o, reach);
    ExactBudget(cfg, p, steps, o, reach);
    DrainedIsSpent(cfg, p, s, o, reach);
    SpentIsHandled(cfg, steps, o, fan, limit);
  }

  /** Then the amplification bound is met exactly. */
  lemma {:induction false} FanoutExact(cfg: Config, fan: nat, limit: nat, steps: seq<Step>, o: Line, reach: set<string>)
    requires ExactSpread(cfg, reach, PerRun(fan, limit)) && UnluckyRun(cfg, steps, o)
    requires var s := Run(cfg, steps);
             && Lands(s, o, reach) && Drained(cfg, s, o)
             && Entered(s, o) == fan && RetryCount(s.origins[o.origin].headers) == 0
    ensures Sum(Run(cfg, steps).deliveries, Handled(o)) == FanoutRuns(fan, limit)
  {
    ExactRuns(cfg, fan, limit, steps, o, reach);
    FreshCeiling(Run(cfg, steps), o, fan, limit);
  }

  /** Termination: with no delivery returned by a closing channel, a publish is moved only a bounded number of times. */
  lemma {:induction false} MovesAreBounded(cfg: Config, fan: nat, limit: nat, steps: seq<Step>, o: Line,
      reach: set<string>)
    requires Spread(cfg, reach, PerStep(fan, limit))
    requires var s := Run(cfg, steps); Lands(s, o, reach) && Sum(s.deliveries, Returned(o)) == 0
    ensures var s := Run(cfg, steps);
            Spent(cfg, PerStep(fan, limit), steps, o)
            <= Entered(s, o) * Weight(PerStep(fan, limit), RetryCount(s.origins[o.origin].headers))
  {
    Budget(cfg, PerStep(fan, limit), steps, o, reach);
  }

  // ----- exact attempts -----

  lemma WeightAlone(limit: nat, c: nat)
    ensures Weight(PerRun(1, limit), c) == Max(0, limit - c) + 1
  {
    WeightPerRun(1, limit, c);
    if c <= limit {
      GeoOne(limit - c + 1);
    }
  }

  /** Every worker of queue `q` retries exactly `limit` times. */
  ghost predicate RetriesExactly(cfg: Config, q: string, limit: u32) {
    forall w :: 0 <= w < |cfg.workers| && cfg.workers[w].queue == q ==> cfg.workers[w].limit == Some(limit)
  }

  /** No worker of queue `q` retries more than `limit` times. */
  ghost predicate RetriesAtMost(cfg: Config, q: string, limit: nat) {
    forall w :: 0 <= w < |cfg.workers| && cfg.workers[w].queue == q && cfg.workers[w].limit.Some? ==>
      cfg.workers[w].limit.value <= limit
  }

  lemma IsolatedSpread(cfg: Config, q: string, limit: nat)
    requires IsMain(cfg, q) && IsolatedQueue(cfg, q) && RetriesAtMost(cfg, q, limit)
    ensures Spread(cfg, {q}, PerRun(1, limit))
  {
    assert |{q}| == 1;
  }

  lemma IsolatedIsExact(cfg: Config, q: string, limit: u32)
    requires IsMain(cfg, q) && IsolatedQueue(cfg, q) && RetriesExactly(cfg, q, limit)
    ensures ExactSpread(cfg, {q}, PerRun(1, limit))
  {
    var w :| 0 <= w < |cfg.workers| && cfg.workers[w].queue == q;
    IsolatedSpread(cfg, q, limit);
    assert |{q}| == 1;
  }

  /** A dead letter of the line in the dead-letter queue of `q`. */
  function DeadLetter(o: Line, q: string): Copy -> nat {
    (c: Copy) => if Of(c.msg, o) && c.place == Ready(DlqQueue(q)) then 1 else 0
  }

  lemma DrainedCopy(cfg: Config, q: string, limit: u32, s: State, n: nat, c: nat)
    requires IsMain(cfg, q) && IsolatedQueue(cfg, q) && RetriesExactly(cfg, q, limit)
    requires var o := LineOf(n, q); LedgerOk(s) && Within(cfg, s, o, {q}) && AllFailing(s, o) && Drained(cfg, s, o)
    requires Inv(cfg, s) && c < |s.copies|
    ensures Present(LineOf(n, q))(s.copies[c]) == DeadLetter(LineOf(n, q), q)(s.copies[c])
  {
    var x := s.copies[c];
    forall t | 0 <= t < |s.deliveries| && Of(s.deliveries[t].msg, LineOf(n, q))
      ensures s.deliveries[t].limit.Some?
    {
      assert OwnerOk(cfg, s.consumers, s.deliveries[t]);
    }
    assert EndOk(s, c);
    if Of(x.msg, LineOf(n, q)) && x.place.Ready? {
      assert Area(cfg, {q}, x.place.queue);
    }
  }

  lemma DrainedDeadLetters(cfg: Config, q: string, limit: u32, s: State, n: nat)
    requires IsMain(cfg, q) && IsolatedQueue(cfg, q) && RetriesExactly(cfg, q, limit)
    requires var o := LineOf(n, q); LedgerOk(s) && Within(cfg, s, o, {q}) && AllFailing(s, o) && Drained(cfg, s, o)
    requires Inv(cfg, s)
    ensures Sum(s.copies, DeadLetter(LineOf(n, q), q)) == Sum(s.copies, Present(LineOf(n, q)))
  {
    forall c | 0 <= c < |s.copies|
      ensures DeadLetter(LineOf(n, q), q)(s.copies[c]) == 1 * Present(LineOf(n, q))(s.copies[c])
    {
      DrainedCopy(cfg, q, limit, s, n, c);
    }
    SumMapped(s.copies, s.copies, DeadLetter(LineOf(n, q), q), Present(LineOf(n, q)), 1);
  }

  lemma OneHome(cfg: Config, steps: seq<Step>, n: nat, q: string)
    requires var s := Run(cfg, steps); n < |s.origins| && q in s.origins[n].targets
    ensures var s := Run(cfg, steps); Entered(s, LineOf(n, q)) == 1 && Lands(s, LineOf(n, q), {q})
  {
    TargetsDistinct(cfg, steps, n);
    EnteredOne(Run(cfg, steps).origins[n].targets, q);
  }

  lemma {:induction false} RunsAlone(cfg: Config, q: string, limit: u32, steps: seq<Step>, n: nat)
    requires IsMain(cfg, q) && IsolatedQueue(cfg, q) && RetriesExactly(cfg, q, limit)
    requires UnluckyRun(cfg, steps, LineOf(n, q))
    requires var s := Run(cfg, steps); n < |s.origins| && q in s.origins[n].targets && Drained(cfg, s, LineOf(n, q))
    ensures var s, o := Run(cfg, steps), LineOf(n, q);
            && Sum(s.deliveries, Handled(o)) == Max(0, limit - RetryCount(s.origins[n].headers)) + 1
            && AllFailing(s, o) && Sum(s.deliveries, Unpaid(o)) == 0
  {
    IsolatedIsExact(cfg, q, limit);
    OneHome(cfg, steps, n, q);
    ExactRuns(cfg, 1, limit, steps, LineOf(n, q), {q});
    WeightAlone(limit, RetryCount(Run(cfg, steps).origins[n].headers));
  }

  /** Queue by queue: where `q` accepted a message with decoded count `c0`, retry routing of `q` is isolated, its
      handler always fails there and its deliveries are not lost, it is handled from `q` exactly max(0, limit - c0) + 1
      times, with the limit of `q`'s own workers, and then is in `q`'s dead-letter queue exactly once. Other queues that
      accepted it may have other limits, other fates, or no retry. */
  lemma {:induction false} ExactAttempts(cfg: Config, q: string, limit: u32, steps: seq<Step>, n: nat)
    requires IsMain(cfg, q) && IsolatedQueue(cfg, q) && RetriesExactly(cfg, q, limit)
    requires UnluckyRun(cfg, steps, LineOf(n, q))
    requires var s := Run(cfg, steps); n < |s.origins| && q in s.origins[n].targets && Drained(cfg, s, LineOf(n, q))
    ensures var s, o := Run(cfg, steps), LineOf(n, q);
            && Sum(s.deliveries, Handled(o)) == Max(0, limit - RetryCount(s.origins[n].headers)) + 1
            && Sum(s.copies, DeadLetter(o, q)) == 1
  {
    RunLedger(cfg, steps);
    HomesAreRealm(cfg, {q});
    RunWithin(cfg, steps, LineOf(n, q), {q});
    RunsAlone(cfg, q, limit, steps, n);
    DuplicationExact(cfg, steps, n, q);
    DrainedDeadLetters(cfg, q, limit, Run(cfg, steps), n);
  }

  /** Handler runs on deliveries from queue `q`. */
  function HandledFrom(n: nat, q: string): Delivery -> nat {
    (d: Delivery) => if d.msg.origin == n && d.queue == q && !d.verdict.Pending? then 1 else 0
  }

  /** With isolated routing throughout, runs on the line of `q` are the runs on deliveries from `q`. */
  lemma HandledByPlace(cfg: Config, steps: seq<Step>, n: nat, q: string)
    requires Isolated(cfg)
    requires var s := Run(cfg, steps); n < |s.origins| && ToWorkers(cfg, s.origins[n])
    ensures var s := Run(cfg, steps); Sum(s.deliveries, HandledFrom(n, q)) == Sum(s.deliveries, Handled(LineOf(n, q)))
  {
    var s := Run(cfg, steps);
    forall t | 0 <= t < |s.deliveries|
      ensures HandledFrom(n, q)(s.deliveries[t]) == 1 * Handled(LineOf(n, q))(s.deliveries[t])
    {
      if s.deliveries[t].msg.origin == n {
        HomeOfTask(cfg, steps, n, t);
      }
    }
    SumMapped(s.deliveries, s.deliveries, HandledFrom(n, q), Handled(LineOf(n, q)), 1);
  }

  /** Dead letters of publish `n` in the dead-letter queue of `q`, wherever they were at home. */
  function DeadAt(n: nat, q: string): Copy -> nat {
    (c: Copy) => if c.msg.origin == n && c.place == Ready(DlqQueue(q)) then 1 else 0
  }

  /** With isolated routing throughout, the same by place: runs on deliveries from `q`, copies in `q`'s dead-letter
      queue. */
  lemma {:induction false} ExactAttemptsByPlace(cfg: Config, q: string, limit: u32, steps: seq<Step>, n: nat)
    requires Isolated(cfg) && IsMain(cfg, q) && RetriesExactly(cfg, q, limit) && UnluckyRun(cfg, steps, LineOf(n, q))
    requires var s := Run(cfg, steps);
             n < |s.origins| && ToWorkers(cfg, s.origins[n]) && q in s.origins[n].targets &&
                 Drained(cfg, s, LineOf(n, q))
    ensures var s := Run(cfg, steps);
            && Sum(s.deliveries, HandledFrom(n, q)) == Max(0, limit - RetryCount(s.origins[n].headers)) + 1
            && Sum(s.copies, DeadAt(n, q)) == 1
  {
    var s := Run(cfg, steps);
    IsolatedHomes(cfg, s.origins[n]);
    assert q in TargetSet(s.origins[n]);
    ExactAttempts(cfg, q, limit, steps, n);
    HandledByPlace(cfg, steps, n, q);
    forall c | 0 <= c < |s.copies|
      ensures DeadAt(n, q)(s.copies[c]) == 1 * DeadLetter(LineOf(n, q), q)(s.copies[c])
    {
      DeadIsAtHome(cfg, q, limit, steps, n, c);
    }
    SumMapped(s.copies, s.copies, DeadAt(n, q), DeadLetter(LineOf(n, q), q), 1);
  }

  lemma DeadIsAtHome(cfg: Config, q: string, limit: u32, steps: seq<Step>, n: nat, c: nat)
    requires Isolated(cfg) && IsMain(cfg, q) && RetriesExactly(cfg, q, limit)
    requires var s := Run(cfg, steps);
             n < |s.origins| && ToWorkers(cfg, s.origins[n]) && q in s.origins[n].targets && c < |s.copies|
    ensures var x := Run(cfg, steps).copies[c];
            x.msg.origin == n && x.place == Ready(DlqQueue(q)) ==> Of(x.msg, LineOf(n, q))
  {
    var s := Run(cfg, steps);
    var w :| 0 <= w < |cfg.workers| && cfg.workers[w].queue == q;
    assert cfg.workers[w].limit.Some?;
    assert Area(cfg, {q}, DlqQueue(q));
    HomeIsPlace(cfg, steps, n, q, c);
  }

  function Attempted(limit: nat, returned: nat): nat { (1 + returned) * (limit + 1) }

  lemma OnceAndAgain(first: nat, again: nat, limit: nat, returned: nat)
    requires first <= limit + 1 && again == limit + 1
    ensures 1 * first + returned * again <= Attempted(limit, returned)
  {
    assert (1 + returned) * again == again + returned * again;
  }

  lemma AloneCeiling(s: State, n: nat, q: string, limit: nat)
    requires n < |s.origins| && Entered(s, LineOf(n, q)) == 1
    ensures Ceiling(PerRun(1, limit), LineOf(n, q), s) <= Attempted(limit, Sum(s.deliveries, Returned(LineOf(n, q))))
  {
    var c := RetryCount(s.origins[n].headers);
    WeightAlone(limit, c);
    WeightAlone(limit, 0);
    OnceAndAgain(Weight(PerRun(1, limit), c), Weight(PerRun(1, limit), 0), limit,
        Sum(s.deliveries, Returned(LineOf(n, q))));
  }

  /** Whatever header it starts with, whatever its handler does, and whatever other queues accepted it: a message is
      handled from `q` at most limit + 1 times, plus limit + 1 for every delivery a closing channel returned to `q`. */
  lemma {:induction false} NeverMoreThanLimitPlusOne(cfg: Config, q: string, limit: nat, steps: seq<Step>, n: nat)
    requires IsMain(cfg, q) && IsolatedQueue(cfg, q) && RetriesAtMost(cfg, q, limit)
    requires var s := Run(cfg, steps); n < |s.origins| && q in s.origins[n].targets
    ensures var s, o := Run(cfg, steps), LineOf(n, q);
            Sum(s.deliveries, Handled(o)) <= (1 + Sum(s.deliveries, Returned(o))) * (limit + 1)
  {
    IsolatedSpread(cfg, q, limit);
    OneHome(cfg, steps, n, q);
    RunsWithinCeiling(cfg, 1, limit, steps, LineOf(n, q), {q});
    AloneCeiling(Run(cfg, steps), n, q, limit);
  }
}
