/** No message is lost, and every duplicate is accounted for (src/subscriber.rs:528-610). */
module Accounting {
  import opened Sums
  import opened Routing
  import opened Protocol
  import opened Invariants
  import opened Effects
  import opened Ledger

  /** The retry set-up of one worker: its queues exist and its retry queue returns to its main queue alone. */
  ghost predicate ReturnsHome(t: Topology, q: string) {
    && DlqQueue(q) in t.queues && !Expires(t, DlqQueue(q))
    && Expires(t, RetryQueue(q)) && ExpiryTargets(t, RetryQueue(q)) == {q}
  }

  /** Retry routing of queue `q` is isolated: what its workers forward comes back to it and nobody else. */
  ghost predicate IsolatedQueue(cfg: Config, q: string) {
    && !Expires(cfg.topology, q)
    && forall w :: 0 <= w < |cfg.workers| && cfg.workers[w].queue == q && cfg.workers[w].limit.Some? ==>
         ReturnsHome(cfg.topology, q) && !IsMain(cfg, RetryQueue(q)) && !IsMain(cfg, DlqQueue(q))
  }

  ghost predicate Isolated(cfg: Config) {
    forall w :: 0 <= w < |cfg.workers| ==> IsolatedQueue(cfg, cfg.workers[w].queue)
  }

  /** Worker queues, each with isolated retry routing. */
  ghost predicate Homes(cfg: Config, reach: set<string>) {
    forall q :: q in reach ==> IsMain(cfg, q) && IsolatedQueue(cfg, q)
  }

  /** A publish that was accepted by worker queues only. */
  predicate ToWorkers(cfg: Config, origin: Origin) {
    forall q :: q in origin.targets ==> IsMain(cfg, q)
  }

  function TargetSet(origin: Origin): set<string> { set q | q in origin.targets }

  /** What descends from publish `n` through the queue `q` that accepted it. */
  function LineOf(n: nat, q: string): Line { Line(n, {q}) }

  lemma HomesAreRealm(cfg: Config, reach: set<string>)
    requires Homes(cfg, reach)
    ensures Realm(cfg, reach)
  {
  }

  lemma IsolatedHomes(cfg: Config, origin: Origin)
    requires Isolated(cfg) && ToWorkers(cfg, origin)
    ensures Homes(cfg, TargetSet(origin))
  {
    forall q | q in TargetSet(origin)
      ensures IsMain(cfg, q) && IsolatedQueue(cfg, q)
    {
      var w :| 0 <= w < |cfg.workers| && cfg.workers[w].queue == q;
    }
  }

  // ----- the balance -----

  /** Still to be answered for: queued, in flight, handled successfully, or refused by a worker without retry. */
  predicate Answerable(c: Copy) { !(c.place.Finished? && (c.place.end.Forwarded? || c.place.end.Released?)) }

  function Present(o: Line): Copy -> nat {
    (c: Copy) => if Of(c.msg, o) && Answerable(c) then 1 else 0
  }

  /** Its republication has taken effect while its acknowledgement has not. */
  predicate Owing(d: Delivery) { d.forward.Effective? && !d.settled.Acked? }

  function Unpaid(o: Line): Delivery -> nat {
    (d: Delivery) => if Of(d.msg, o) && Owing(d) then 1 else 0
  }

  lemma ProcessKeepsBalance(cfg: Config, s: State, s': State, c: nat, o: Line, reach: set<string>)
    requires Homes(cfg, reach) && Within(cfg, s, o, reach) && ProcessEffect(cfg, s, s', c)
    ensures Sum(s'.copies, Present(o)) + Sum(s.deliveries, Unpaid(o))
            == Sum(s.copies, Present(o)) + Sum(s'.deliveries, Unpaid(o))
  {
    var f := s.links[c].wire[0];
    var d := s.deliveries[f.tag];
    SumUpdate(s.deliveries, f.tag, s'.deliveries[f.tag], Unpaid(o));
    if f.Publish? {
      SumAppend(s.copies, ForwardCopy(d, s.now), Present(o));
    } else {
      SumUpdate(s.copies, d.copy, s'.copies[d.copy], Present(o));
    }
  }

  lemma ExpireKeepsBalance(cfg: Config, s: State, s': State, queue: string, targets: seq<string>, o: Line,
      reach: set<string>)
    requires Homes(cfg, reach) && Within(cfg, s, o, reach) && Releases(cfg, s, s', queue, targets)
    ensures Sum(s'.copies, Present(o)) == Sum(s.copies, Present(o))
  {
    var id := s.queues[queue][0];
    var m := s.copies[id].msg;
    var gone := s.copies[id].(place := Finished(Released));
    var one := if Of(m, o) then 1 else 0;
    if Of(m, o) {
      HomesAreRealm(cfg, reach);
      var w := ExpiringInRealm(cfg, reach, queue);
      DistinctSize(targets);
      assert |targets| == |{cfg.workers[w].queue}|;
    }
    SumUpdate(s.copies, id, gone, Present(o));
    SumConcat(s.copies[id := gone], Fresh(targets, m, s.now, false), Present(o));
    SumBounds(Fresh(targets, m, s.now, false), Present(o), one, one);
  }

  /** A publish opens one account per home it enters; nothing was there before. */
  lemma ExternalOpensAccounts(cfg: Config, s: State, st: Step, s': State, o: Line)
    requires LedgerOk(s) && st.External? && Effect(cfg, s, st, s') && o.origin <= |s.origins|
    ensures Sum(s'.copies, Present(o))
         == Sum(s.copies, Present(o)) + (if o.origin == |s.origins| then Sum(st.targets, InHomes(o.homes)) else 0)
    ensures o.origin == |s.origins| ==> Sum(s.copies, Present(o)) == 0 && Sum(s.deliveries, Unpaid(o)) == 0
  {
    var arrived := Fresh(st.targets, NewMsg(s, st.payload, st.headers), s.now, true);
    SumConcat(s.copies, arrived, Present(o));
    SumMapped(arrived, st.targets, Present(o), InHomes(o.homes), if o.origin == |s.origins| then 1 else 0);
    if o.origin == |s.origins| {
      forall c | 0 <= c < |s.copies|
        ensures Present(o)(s.copies[c]) == 0
      {
        assert MsgOk(s.origins, s.copies[c].msg);
      }
      forall t | 0 <= t < |s.deliveries|
        ensures Unpaid(o)(s.deliveries[t]) == 0
      {
        assert MsgOk(s.origins, s.deliveries[t].msg);
      }
      SumZero(s.copies, Present(o));
      SumZero(s.deliveries, Unpaid(o));
    }
  }

  /** Steps other than external publishes move copies without creating or destroying any account. */
  lemma StepKeepsBalance(cfg: Config, s: State, st: Step, s': State, o: Line, reach: set<string>)
    requires Homes(cfg, reach) && Within(cfg, s, o, reach)
    requires Effect(cfg, s, st, s') && !st.External?
    ensures Sum(s'.copies, Present(o)) + Sum(s.deliveries, Unpaid(o))
            == Sum(s.copies, Present(o)) + Sum(s'.deliveries, Unpaid(o))
  {
    if IsClientStep(st) {
      SumUpdate(s.deliveries, st.t, s'.deliveries[st.t], Unpaid(o));
    } else if st.Deliver? {
      var id := s.queues[cfg.workers[s.consumers[st.k].worker].queue][0];
      SumUpdate(s.copies, id, s'.copies[id], Present(o));
      SumAppend(s.deliveries, s'.deliveries[|s.deliveries|], Unpaid(o));
    } else if st.Process? {
      ProcessKeepsBalance(cfg, s, s', st.c, o, reach);
    } else if st.Expire? {
      ExpireKeepsBalance(cfg, s, s', st.queue, st.targets, o, reach);
    } else if st.Requeue? {
      var d := s.deliveries[st.t];
      SumUpdate(s.copies, d.copy, s'.copies[d.copy], Present(o));
      SumUpdate(s.deliveries, st.t, s'.deliveries[st.t], Unpaid(o));
    }
  }

  /** In every run: the copies of a line still to be answered for are one per home that accepted the publish, plus one
      for every delivery that was republished but whose acknowledgement never took effect. */
  lemma {:induction false} Balance(cfg: Config, steps: seq<Step>, o: Line, reach: set<string>)
    requires Homes(cfg, reach) && Lands(Run(cfg, steps), o, reach)
    ensures var s := Run(cfg, steps);
            Sum(s.copies, Present(o)) == Entered(s, o) + Sum(s.deliveries, Unpaid(o))
  {
    if steps != [] {
      var front, st := steps[..|steps| - 1], steps[|steps| - 1];
      var s := Run(cfg, front);
      RunLedger(cfg, front);
      if Enabled(cfg, s, st) {
        var s' := Apply(cfg, s, st);
        StepHasEffect(cfg, s, st);
        if st.External? {
          ExternalOpensAccounts(cfg, s, st, s', o);
          if o.origin < |s.origins| {
            Balance(cfg, front, o, reach);
          }
        } else {
          HomesAreRealm(cfg, reach);
          RunWithin(cfg, front, o, reach);
          StepKeepsBalance(cfg, s, st, s', o, reach);
          Balance(cfg, front, o, reach);
        }
      } else {
        Balance(cfg, front, o, reach);
      }
    }
  }

  // ----- the theorems -----

  /** Targets are listed once, so a queue accepts a publish once. */
  lemma {:induction false} TargetsDistinct(cfg: Config, steps: seq<Step>, n: nat)
    requires n < |Run(cfg, steps).origins|
    ensures Distinct(Run(cfg, steps).origins[n].targets)
  {
    var front, st := steps[..|steps| - 1], steps[|steps| - 1];
    var s := Run(cfg, front);
    RunKeepsInv(cfg, front);
    if Enabled(cfg, s, st) {
      StepHasEffect(cfg, s, st);
    }
    if n < |s.origins| {
      TargetsDistinct(cfg, front, n);
    }
  }

  /** In every run, crashes included, queue by queue: of a publish that queue `q` accepted, the copies still to be
      answered for are one, plus one for every delivery republished without its acknowledgement taking effect. */
  lemma DuplicationExact(cfg: Config, steps: seq<Step>, n: nat, q: string)
    requires IsMain(cfg, q) && IsolatedQueue(cfg, q)
    requires var s := Run(cfg, steps); n < |s.origins| && q in s.origins[n].targets
    ensures var s := Run(cfg, steps);
            Sum(s.copies, Present(LineOf(n, q))) == 1 + Sum(s.deliveries, Unpaid(LineOf(n, q)))
  {
    Balance(cfg, steps, LineOf(n, q), {q});
    TargetsDistinct(cfg, steps, n);
    EnteredOne(Run(cfg, steps).origins[n].targets, q);
  }

  /** Where a copy of publish `n` at queue `q` can be, and the two ways it can rightly have ended there. */
  ghost predicate KeptAt(cfg: Config, s: State, n: nat, q: string, c: nat)
    requires c < |s.copies| && n < |s.origins|
  {
    && s.copies[c].msg.origin == n && s.copies[c].msg.payload == s.origins[n].payload
    && match s.copies[c].place
       case Ready(p) => p in s.queues && c in s.queues[p] && Area(cfg, {q}, p)
       case InFlight(t) =>
         t < |s.deliveries| && s.deliveries[t].copy == c && s.deliveries[t].settled.Open? && s.deliveries[t].queue == q
       case Finished(Succeeded(t)) =>
         && t < |s.deliveries| && s.deliveries[t].copy == c && s.deliveries[t].verdict.Passed?
         && s.deliveries[t].queue == q
       case Finished(Discarded(t)) =>
         t < |s.deliveries| && s.deliveries[t].copy == c && s.deliveries[t].limit.None? && s.deliveries[t].queue == q
       case _ => false
  }

  /** The same for the line of the publish through `q`. */
  ghost predicate Kept(cfg: Config, s: State, n: nat, q: string, c: nat)
    requires c < |s.copies| && n < |s.origins|
  {
    s.copies[c].msg.home == q && KeptAt(cfg, s, n, q, c)
  }

  lemma PresentIsKept(cfg: Config, steps: seq<Step>, n: nat, q: string, c: nat)
    requires IsMain(cfg, q) && IsolatedQueue(cfg, q)
    requires var s := Run(cfg, steps); n < |s.origins| && c < |s.copies| && Present(LineOf(n, q))(s.copies[c]) > 0
    ensures Kept(cfg, Run(cfg, steps), n, q, c)
  {
    var s := Run(cfg, steps);
    RunLedger(cfg, steps);
    HomesAreRealm(cfg, {q});
    RunWithin(cfg, steps, LineOf(n, q), {q});
    assert MsgOk(s.origins, s.copies[c].msg) && EndOk(s, c);
  }

  /** In every run, of every publish an isolated queue accepted, a copy at home there is kept there. */
  lemma {:induction false} LineSurvives(cfg: Config, steps: seq<Step>, n: nat, q: string) returns (c: nat)
    requires IsMain(cfg, q) && IsolatedQueue(cfg, q)
    requires var s := Run(cfg, steps); n < |s.origins| && q in s.origins[n].targets
    ensures var s := Run(cfg, steps); c < |s.copies| && Kept(cfg, s, n, q, c)
  {
    var s := Run(cfg, steps);
    DuplicationExact(cfg, steps, n, q);
    c := SumWitness(s.copies, Present(LineOf(n, q)));
    PresentIsKept(cfg, steps, n, q, c);
  }

  // ----- the same count by where the copies are -----

  /** Answerable copies of publish `n` that are at `q`: ready in its area, in flight from it, or settled there for
      good. */
  ghost function AtHome(cfg: Config, ds: seq<Delivery>, n: nat, q: string): Copy -> nat {
    (c: Copy) =>
      if c.msg.origin == n && Answerable(c)
         && (match c.place
             case Ready(p) => Area(cfg, {q}, p)
             case InFlight(t) => t < |ds| && ds[t].queue == q
             case Finished(Succeeded(t)) => t < |ds| && ds[t].queue == q
             case Finished(Discarded(t)) => t < |ds| && ds[t].queue == q
             case _ => false) then 1 else 0
  }

  function UnpaidFrom(n: nat, q: string): Delivery -> nat {
    (d: Delivery) => if d.msg.origin == n && d.queue == q && Owing(d) then 1 else 0
  }

  /** The areas of two isolated worker queues share no queue. */
  lemma AreasApart(cfg: Config, q: string, h: string, p: string)
    requires IsMain(cfg, q) && IsMain(cfg, h) && IsolatedQueue(cfg, q) && IsolatedQueue(cfg, h) && q != h
    ensures !(Area(cfg, {q}, p) && Area(cfg, {h}, p))
  {
    DerivedNamesDiffer(q, h);
    DerivedNamesDiffer(h, q);
  }

  lemma HomeOfTask(cfg: Config, steps: seq<Step>, n: nat, t: nat)
    requires Isolated(cfg)
    requires var s := Run(cfg, steps);
             n < |s.origins| && ToWorkers(cfg, s.origins[n]) && t < |s.deliveries| && s.deliveries[t].msg.origin == n
    ensures var s := Run(cfg, steps);
            s.deliveries[t].queue == s.deliveries[t].msg.home && s.deliveries[t].queue in s.origins[n].targets
  {
    var s := Run(cfg, steps);
    RunLedger(cfg, steps);
    assert MsgOk(s.origins, s.deliveries[t].msg);
    var h := s.deliveries[t].msg.home;
    IsolatedHomes(cfg, s.origins[n]);
    assert h in TargetSet(s.origins[n]);
    HomesAreRealm(cfg, {h});
    RunWithin(cfg, steps, LineOf(n, h), {h});
  }

  lemma HomeIsPlace(cfg: Config, steps: seq<Step>, n: nat, q: string, c: nat)
    requires Isolated(cfg)
    requires var s := Run(cfg, steps);
             n < |s.origins| && ToWorkers(cfg, s.origins[n]) && q in s.origins[n].targets && c < |s.copies|
    ensures var s := Run(cfg, steps);
            AtHome(cfg, s.deliveries, n, q)(s.copies[c]) == Present(LineOf(n, q))(s.copies[c])
  {
    var s := Run(cfg, steps);
    RunLedger(cfg, steps);
    IsolatedHomes(cfg, s.origins[n]);
    assert MsgOk(s.origins, s.copies[c].msg);
    var x := s.copies[c];
    if x.msg.origin == n && Answerable(x) {
      assert x.msg.home in TargetSet(s.origins[n]) && q in TargetSet(s.origins[n]);
      PresentIsKept(cfg, steps, n, x.msg.home, c);
      if x.place.Ready? && q != x.msg.home {
        AreasApart(cfg, q, x.msg.home, x.place.queue);
      }
    }
  }

  /** Queue by queue, counted by place: with isolated routing, the copies of a publish in a worker queue that accepted
      it, in its retry or dead-letter queue, in flight from it, or settled there for good, are one plus the deliveries
      from that queue that were republished and not acknowledged. */
  lemma DuplicationByPlace(cfg: Config, steps: seq<Step>, n: nat, q: string)
    requires Isolated(cfg)
    requires var s := Run(cfg, steps); n < |s.origins| && ToWorkers(cfg, s.origins[n]) && q in s.origins[n].targets
    ensures var s := Run(cfg, steps);
            Sum(s.copies, AtHome(cfg, s.deliveries, n, q)) == 1 + Sum(s.deliveries, UnpaidFrom(n, q))
  {
    var s := Run(cfg, steps);
    var o := LineOf(n, q);
    forall c | 0 <= c < |s.copies|
      ensures AtHome(cfg, s.deliveries, n, q)(s.copies[c]) == 1 * Present(o)(s.copies[c])
    {
      HomeIsPlace(cfg, steps, n, q, c);
    }
    forall t | 0 <= t < |s.deliveries|
      ensures UnpaidFrom(n, q)(s.deliveries[t]) == 1 * Unpaid(o)(s.deliveries[t])
    {
      if s.deliveries[t].msg.origin == n {
        HomeOfTask(cfg, steps, n, t);
      }
    }
    SumMapped(s.copies, s.copies, AtHome(cfg, s.deliveries, n, q), Present(o), 1);
    SumMapped(s.deliveries, s.deliveries, UnpaidFrom(n, q), Unpaid(o), 1);
    IsolatedHomes(cfg, s.origins[n]);
    assert q in TargetSet(s.origins[n]);
    DuplicationExact(cfg, steps, n, q);
  }
}
