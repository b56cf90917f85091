/** How much work one publish can cause (src/subscriber.rs:129-135, :220-231, :531-603): a potential that every step of
    a run pays into, read once as handler runs and once as steps until quiescence. */
module Amplification {
  import opened Sums
  import opened Amqp
  import opened Routing
  import opened Protocol
  import opened Invariants
  import opened Effects
  import opened Ledger

  /** Prices: `run` for one handler run, `hop` for any other step; at most `fan` queues per return, retries below
      `limit`. */
  datatype Prices = Prices(run: nat, hop: nat, fan: nat, limit: nat)

  /** What a message with count `c` can still cost once it is in a worker's queue. */
  function Weight(p: Prices, c: nat): nat
    decreases if c <= p.limit then p.limit - c else 0, 1
  {
    p.run + 6 * p.hop + Tail(p, c)
  }

  /** What its failure can cost after the retry publish has taken effect. */
  function Tail(p: Prices, c: nat): nat
    decreases if c <= p.limit then p.limit - c else 0, 0
  {
    if c < p.limit then p.hop + p.fan * Weight(p, c + 1) else 0
  }

  /** Fan-out is bounded inside the realm: at most `fan` queues per return and at most `limit` retries. */
  ghost predicate Spread(cfg: Config, reach: set<string>, p: Prices) {
    && Realm(cfg, reach)
    && forall w :: 0 <= w < |cfg.workers| && cfg.workers[w].limit.Some? && cfg.workers[w].queue in reach ==>
         var r := RetryQueue(cfg.workers[w].queue);
         && cfg.workers[w].limit.value <= p.limit
         && (Expires(cfg.topology, r) ==> |ExpiryTargets(cfg.topology, r)| <= p.fan)
  }

  /** Fan-out is exact: every worker retries exactly `limit` times, every return reaches exactly `fan` queues. */
  ghost predicate ExactSpread(cfg: Config, reach: set<string>, p: Prices) {
    && Spread(cfg, reach, p)
    && forall w :: 0 <= w < |cfg.workers| && cfg.workers[w].queue in reach ==>
         var r := RetryQueue(cfg.workers[w].queue);
         && cfg.workers[w].limit.Some? && cfg.workers[w].limit.value == p.limit
         && DlqQueue(cfg.workers[w].queue) in cfg.topology.queues
         && Expires(cfg.topology, r) && |ExpiryTargets(cfg.topology, r)| == p.fan
  }

  ghost function CopyWeight(cfg: Config, p: Prices, o: Line): Copy -> nat {
    (c: Copy) =>
      if !Of(c.msg, o) || !c.place.Ready? then 0
      else if IsMain(cfg, c.place.queue) then Weight(p, Count(c.msg))
      else if Expires(cfg.topology, c.place.queue) then p.hop + p.fan * Weight(p, Count(c.msg))
      else 0
  }

  function PcWeight(p: Prices, d: Delivery): nat {
    match d.pc
    case Running => p.run + 5 * p.hop + Tail(p, Count(d.msg))
    case Decided => if MustForward(d) then 5 * p.hop + Tail(p, Count(d.msg)) else 2 * p.hop
    case Holding(_) => 4 * p.hop + Tail(p, Count(d.msg))
    case Published => 2 * p.hop
    case Done => if d.settled.Open? then p.hop else 0
    case Stuck => 0
  }

  function TaskWeight(p: Prices, o: Line): Delivery -> nat {
    (d: Delivery) =>
      if !Of(d.msg, o) then 0
      else PcWeight(p, d) + if d.forward.Sent? then p.hop + Tail(p, Count(d.msg)) else 0
  }

  ghost function Potential(cfg: Config, p: Prices, o: Line, s: State): nat {
    Sum(s.copies, CopyWeight(cfg, p, o)) + Sum(s.deliveries, TaskWeight(p, o))
  }

  /** The steps a message in the system takes by itself: no new publish, no clock, no channel closing. */
  predicate Internal(st: Step) {
    IsClientStep(st) || st.Deliver? || st.Process? || st.Expire?
  }

  /** The message an internal step moves. */
  function Mover(cfg: Config, s: State, st: Step): Msg
    requires Internal(st) && Enabled(cfg, s, st)
  {
    if st.Deliver? then s.copies[s.queues[QueueOf(cfg, s, st.k)][0]].msg
    else if st.Process? then s.deliveries[s.links[st.c].wire[0].tag].msg
    else if st.Expire? then s.copies[s.queues[st.queue][0]].msg
    else s.deliveries[st.t].msg
  }

  function Price(p: Prices, st: Step): nat { if st.Handle? then p.run else p.hop }

  /** For publish `o` the handler fails every time and the library never does. */
  predicate Unlucky(s: State, st: Step, s': State, o: Line) {
    (IsClientStep(st) || st.Requeue?) && st.t < |s.deliveries| && Of(s.deliveries[st.t].msg, o) ==>
      && !st.GiveUp? && !st.Requeue?
      && (st.Handle? ==> !st.ok)
      && (st.Take? ==> st.t < |s'.deliveries| && s'.deliveries[st.t].pc.Holding?)
  }

  /** So far no handler of `o` has succeeded, no delivery was returned by a closing channel, no task has given up. */
  ghost predicate AllFailing(s: State, o: Line) {
    forall t :: 0 <= t < |s.deliveries| && Of(s.deliveries[t].msg, o) ==>
      !s.deliveries[t].verdict.Passed? && !s.deliveries[t].settled.Requeued? && !s.deliveries[t].pc.Stuck?
  }

  // ----- one step at a time -----

  lemma {:induction false} WeightFalls(p: Prices, c: nat, c': nat)
    requires c <= c'
    ensures Weight(p, c') <= Weight(p, c)
    decreases if c <= p.limit then p.limit - c else 0
  {
    if c' < p.limit {
      WeightFalls(p, c + 1, c' + 1);
      MulMonotone(p.fan, Weight(p, c' + 1), Weight(p, c + 1));
    }
  }

  lemma MulMonotone(k: nat, a: nat, b: nat)
    requires a <= b
    ensures k * a <= k * b
  {
  }

  /** A task pays for each of its own steps out of its weight. */
  lemma ClientWeight(p: Prices, o: Line, st: Step, d: Delivery, d': Delivery)
    requires IsClientStep(st) && Moved(st, d, d') && Of(d.msg, o)
    ensures TaskWeight(p, o)(d') + Price(p, st) <= TaskWeight(p, o)(d)
    ensures d.limit.Some? && !d.verdict.Passed? && d.settled.Open? && !st.GiveUp?
            && (st.Handle? ==> !st.ok) && (st.Take? ==> d'.pc.Holding?) ==>
              TaskWeight(p, o)(d') + Price(p, st) == TaskWeight(p, o)(d)
  {
  }

  lemma ClientDrift(cfg: Config, p: Prices, o: Line, s: State, st: Step, s': State)
    requires IsClientStep(st) && Effect(cfg, s, st, s')
    ensures var due := if Of(s.deliveries[st.t].msg, o) then Price(p, st) else 0;
            && Potential(cfg, p, o, s') + due <= Potential(cfg, p, o, s)
            && (Unlucky(s, st, s', o)
                && (Of(s.deliveries[st.t].msg, o) ==>
                      s.deliveries[st.t].limit.Some? && !s.deliveries[st.t].verdict.Passed? &&
                          s.deliveries[st.t].settled.Open?) ==>
                  Potential(cfg, p, o, s') + due == Potential(cfg, p, o, s))
  {
    var d, d' := s.deliveries[st.t], s'.deliveries[st.t];
    SumUpdate(s.deliveries, st.t, d', TaskWeight(p, o));
    if Of(d.msg, o) {
      ClientWeight(p, o, st, d, d');
    }
  }

  lemma ServeDrift(cfg: Config, p: Prices, o: Line, s: State, s': State, k: nat)
    requires Serves(cfg, s, s', k)
    ensures var id := s.queues[cfg.workers[s.consumers[k].worker].queue][0];
            var due := if Of(s.copies[id].msg, o) then p.hop else 0;
            Potential(cfg, p, o, s') + due == Potential(cfg, p, o, s)
  {
    var q := cfg.workers[s.consumers[k].worker].queue;
    var id := s.queues[q][0];
    assert IsMain(cfg, q);
    SumUpdate(s.copies, id, s'.copies[id], CopyWeight(cfg, p, o));
    SumAppend(s.deliveries, s'.deliveries[|s.deliveries|], TaskWeight(p, o));
  }

  /** A republished copy costs no more than the tail it was sent with. */
  lemma {:induction false} ForwardCopyWeight(cfg: Config, p: Prices, o: Line, reach: set<string>, d: Delivery, w: nat,
      now: nat)
    requires Spread(cfg, reach, p) && w < |cfg.workers| && MustForward(d) && d.queue in reach
    requires d.queue == cfg.workers[w].queue && d.limit == cfg.workers[w].limit && Of(d.msg, o)
    ensures CopyWeight(cfg, p, o)(ForwardCopy(d, now)) <= Tail(p, Count(d.msg))
    ensures ExactSpread(cfg, reach, p) ==> CopyWeight(cfg, p, o)(ForwardCopy(d, now)) == Tail(p, Count(d.msg))
  {
    var copy, c := ForwardCopy(d, now), Count(d.msg);
    if Retries(d) {
      RetryCountRoundTrip(c, d.limit.value);
      assert Count(copy.msg) == c + 1 && !IsMain(cfg, RetryQueue(d.queue));
      assert Tail(p, c) == p.hop + p.fan * Weight(p, c + 1);
      assert ExactSpread(cfg, reach, p) ==> Expires(cfg.topology, RetryQueue(cfg.workers[w].queue));
    } else {
      assert !IsMain(cfg, DlqQueue(d.queue)) && !Expires(cfg.topology, DlqQueue(d.queue));
      assert CopyWeight(cfg, p, o)(copy) == 0;
    }
  }

  lemma ForwardDrift(cfg: Config, p: Prices, o: Line, reach: set<string>, s: State, s': State, t: nat)
    requires Spread(cfg, reach, p) && Within(cfg, s, o, reach) && Forwards(cfg, s, s', t)
    ensures var due := if Of(s.deliveries[t].msg, o) then p.hop else 0;
            && Potential(cfg, p, o, s') + due <= Potential(cfg, p, o, s)
            && (ExactSpread(cfg, reach, p) &&
                (Of(s.deliveries[t].msg, o) ==> Target(s.deliveries[t]) in cfg.topology.queues) ==>
                  Potential(cfg, p, o, s') + due == Potential(cfg, p, o, s))
  {
    var d := s.deliveries[t];
    SumUpdate(s.deliveries, t, s'.deliveries[t], TaskWeight(p, o));
    SumAppend(s.copies, ForwardCopy(d, s.now), CopyWeight(cfg, p, o));
    if Of(d.msg, o) {
      ForwardCopyWeight(cfg, p, o, reach, d, s.consumers[d.consumer].worker, s.now);
    }
  }

  lemma SettleDrift(cfg: Config, p: Prices, o: Line, s: State, s': State, t: nat)
    requires Settles(s, s', t)
    ensures var due := if Of(s.deliveries[t].msg, o) then p.hop else 0;
            Potential(cfg, p, o, s') + due == Potential(cfg, p, o, s)
  {
    var d := s.deliveries[t];
    SumUpdate(s.deliveries, t, s'.deliveries[t], TaskWeight(p, o));
    SumUpdate(s.copies, d.copy, s'.copies[d.copy], CopyWeight(cfg, p, o));
  }

  /** What a retry queue of the realm releases costs at most `fan` full weights. */
  lemma {:induction false} ReleasedWeight(cfg: Config, p: Prices, o: Line, reach: set<string>, queue: string,
      targets: seq<string>,
      m: Msg, now: nat)
    requires Spread(cfg, reach, p) && Area(cfg, reach, queue) && Expires(cfg.topology, queue) && Of(m, o)
    requires Enumerates(targets, ExpiryTargets(cfg.topology, queue))
    ensures Sum(Fresh(targets, m, now, false), CopyWeight(cfg, p, o)) <= p.fan * Weight(p, Count(m))
    ensures ExactSpread(cfg, reach, p) ==>
              Sum(Fresh(targets, m, now, false), CopyWeight(cfg, p, o)) == p.fan * Weight(p, Count(m))
    ensures !IsMain(cfg, queue)
  {
    var w := ExpiringInRealm(cfg, reach, queue);
    var each, arrived := Weight(p, Count(m)), Fresh(targets, m, now, false);
    DistinctSize(targets);
    forall i | 0 <= i < |arrived|
      ensures CopyWeight(cfg, p, o)(arrived[i]) == each
    {
      assert targets[i] in (set q | q in targets);
    }
    SumBounds(arrived, CopyWeight(cfg, p, o), each, each);
    MulMonotoneLeft(|arrived|, p.fan, each);
  }

  lemma {:induction false} ReleaseDrift(cfg: Config, p: Prices, o: Line, reach: set<string>, s: State, s': State,
      queue: string,
      targets: seq<string>)
    requires Spread(cfg, reach, p) && Within(cfg, s, o, reach) && Releases(cfg, s, s', queue, targets)
    ensures var due := if Of(s.copies[s.queues[queue][0]].msg, o) then p.hop else 0;
            && Potential(cfg, p, o, s') + due <= Potential(cfg, p, o, s)
            && (ExactSpread(cfg, reach, p) ==> Potential(cfg, p, o, s') + due == Potential(cfg, p, o, s))
  {
    var id := s.queues[queue][0];
    var m := s.copies[id].msg;
    var gone := s.copies[id].(place := Finished(Released));
    var arrived := Fresh(targets, m, s.now, false);
    SumUpdate(s.copies, id, gone, CopyWeight(cfg, p, o));
    SumConcat(s.copies[id := gone], arrived, CopyWeight(cfg, p, o));
    if Of(m, o) {
      ReleasedWeight(cfg, p, o, reach, queue, targets, m, s.now);
    } else {
      SumZero(arrived, CopyWeight(cfg, p, o));
    }
  }

  lemma {:induction false} ProcessDrift(cfg: Config, p: Prices, o: Line, reach: set<string>, s: State, s': State,
      c: nat)
    requires Spread(cfg, reach, p) && Within(cfg, s, o, reach) && ProcessEffect(cfg, s, s', c)
    ensures var due := if Of(s.deliveries[s.links[c].wire[0].tag].msg, o) then p.hop else 0;
            && Potential(cfg, p, o, s') + due <= Potential(cfg, p, o, s)
            && (ExactSpread(cfg, reach, p) ==> Potential(cfg, p, o, s') + due == Potential(cfg, p, o, s))
  {
    var f := s.links[c].wire[0];
    if f.Publish? {
      var d := s.deliveries[f.tag];
      assert d.queue in reach && ExactSpread(cfg, reach, p) ==>
          var w := s.consumers[d.consumer].worker;
          Expires(cfg.topology, RetryQueue(cfg.workers[w].queue)) &&
              DlqQueue(cfg.workers[w].queue) in cfg.topology.queues;
      ForwardDrift(cfg, p, o, reach, s, s', f.tag);
    } else {
      SettleDrift(cfg, p, o, s, s', f.tag);
    }
  }

  /** A task of the realm that may still act holds its delivery open and belongs to a worker of the realm. */
  lemma ActingTask(cfg: Config, o: Line, reach: set<string>, s: State, st: Step)
    requires Within(cfg, s, o, reach) && Inv(cfg, s) && IsClientStep(st) && Enabled(cfg, s, st)
    requires AllFailing(s, o) && Of(s.deliveries[st.t].msg, o)
    ensures s.deliveries[st.t].settled.Open?
    ensures exists w ::
              && 0 <= w < |cfg.workers| && cfg.workers[w].queue in reach
              && cfg.workers[w].limit == s.deliveries[st.t].limit
  {
    var d := s.deliveries[st.t];
    assert OwnerOk(cfg, s.consumers, d) && TaskOk(s.links, d);
    assert cfg.workers[s.consumers[d.consumer].worker].limit == d.limit;
  }

  /** The potential pays for every internal step; in a run where every handler fails it pays exactly. */
  lemma InternalDrift(cfg: Config, p: Prices, o: Line, reach: set<string>, s: State, st: Step)
    requires Spread(cfg, reach, p) && Within(cfg, s, o, reach) && Inv(cfg, s) && Internal(st) && Enabled(cfg, s, st)
    ensures var s' := Apply(cfg, s, st);
            var due := if Of(Mover(cfg, s, st), o) then Price(p, st) else 0;
            && Potential(cfg, p, o, s') + due <= Potential(cfg, p, o, s)
            && (ExactSpread(cfg, reach, p) && Unlucky(s, st, s', o) && AllFailing(s, o) ==>
                  Potential(cfg, p, o, s') + due == Potential(cfg, p, o, s))
  {
    var s' := Apply(cfg, s, st);
    StepHasEffect(cfg, s, st);
    if IsClientStep(st) {
      if AllFailing(s, o) && Of(s.deliveries[st.t].msg, o) {
        ActingTask(cfg, o, reach, s, st);
      }
      ClientDrift(cfg, p, o, s, st, s');
    } else if st.Deliver? {
      ServeDrift(cfg, p, o, s, s', st.k);
    } else if st.Expire? {
      ReleaseDrift(cfg, p, o, reach, s, s', st.queue, st.targets);
    } else {
      ProcessDrift(cfg, p, o, reach, s, s', st.c);
    }
  }

  /** How often a closing channel returned a delivery of `o` to its queue. */
  function Returned(o: Line): Delivery -> nat {
    (d: Delivery) => if Of(d.msg, o) && d.settled.Requeued? then 1 else 0
  }

  /** A returned delivery puts its message back, at no more than the full price. */
  lemma {:induction false} ReturnDrift(cfg: Config, p: Prices, o: Line, s: State, s': State, t: nat)
    requires Returns(s, s', t) && IsMain(cfg, s.deliveries[t].queue)
    ensures var one := if Of(s.deliveries[t].msg, o) then 1 else 0;
            && Sum(s'.deliveries, Returned(o)) == Sum(s.deliveries, Returned(o)) + one
            && Potential(cfg, p, o, s') <= Potential(cfg, p, o, s) + one * Weight(p, 0)
            && (one == 0 ==> Potential(cfg, p, o, s') == Potential(cfg, p, o, s))
  {
    var d := s.deliveries[t];
    SumUpdate(s.deliveries, t, s'.deliveries[t], TaskWeight(p, o));
    SumUpdate(s.deliveries, t, s'.deliveries[t], Returned(o));
    SumUpdate(s.copies, d.copy, s'.copies[d.copy], CopyWeight(cfg, p, o));
    WeightFalls(p, 0, Count(d.msg));
  }

  lemma InternalReturnsNothing(cfg: Config, o: Line, s: State, st: Step, s': State)
    requires Effect(cfg, s, st, s') && !st.Requeue?
    ensures Sum(s'.deliveries, Returned(o)) == Sum(s.deliveries, Returned(o))
  {
    if IsClientStep(st) {
      SumUpdate(s.deliveries, st.t, s'.deliveries[st.t], Returned(o));
    } else if st.Deliver? {
      SumAppend(s.deliveries, s'.deliveries[|s.deliveries|], Returned(o));
    } else if st.Process? {
      var t := s.links[st.c].wire[0].tag;
      SumUpdate(s.deliveries, t, s'.deliveries[t], Returned(o));
    }
  }

  /** A publish brings in the full price of its message once per home it enters. */
  lemma AcceptDrift(cfg: Config, p: Prices, o: Line, reach: set<string>, s: State, st: Step, s': State)
    requires Realm(cfg, reach) && LedgerOk(s) && st.External? && Effect(cfg, s, st, s') && o.origin <= |s.origins|
    requires o.origin == |s.origins| ==> forall q :: q in st.targets && q in o.homes ==> q in reach
    ensures o.origin < |s.origins| ==> Potential(cfg, p, o, s') == Potential(cfg, p, o, s)
    ensures o.origin == |s.origins| ==>
              && Potential(cfg, p, o, s') == Sum(st.targets, InHomes(o.homes)) * Weight(p, RetryCount(st.headers))
              && Sum(s.deliveries, Returned(o)) == 0 && AllFailing(s, o)
  {
    var arrived := Fresh(st.targets, NewMsg(s, st.payload, st.headers), s.now, true);
    var each := if o.origin == |s.origins| then Weight(p, RetryCount(st.headers)) else 0;
    SumConcat(s.copies, arrived, CopyWeight(cfg, p, o));
    forall i | 0 <= i < |arrived|
      ensures CopyWeight(cfg, p, o)(arrived[i]) == each * InHomes(o.homes)(st.targets[i])
    {
      assert arrived[i].msg.home == st.targets[i];
    }
    SumMapped(arrived, st.targets, CopyWeight(cfg, p, o), InHomes(o.homes), each);
    if o.origin == |s.origins| {
      NothingYet(cfg, p, o, s);
    }
  }

  lemma NothingYet(cfg: Config, p: Prices, o: Line, s: State)
    requires LedgerOk(s) && o.origin == |s.origins|
    ensures Potential(cfg, p, o, s) == 0 && Sum(s.deliveries, Returned(o)) == 0 && AllFailing(s, o)
    ensures Sum(s.copies, CopyWeight(cfg, p, o)) == 0
  {
    forall c | 0 <= c < |s.copies|
      ensures CopyWeight(cfg, p, o)(s.copies[c]) == 0
    {
      assert MsgOk(s.origins, s.copies[c].msg);
    }
    forall t | 0 <= t < |s.deliveries|
      ensures !Of(s.deliveries[t].msg, o)
    {
      assert MsgOk(s.origins, s.deliveries[t].msg);
    }
    SumZero(s.copies, CopyWeight(cfg, p, o));
    SumZero(s.deliveries, TaskWeight(p, o));
    SumZero(s.deliveries, Returned(o));
  }

  // ----- whole runs -----

  /** What a run has spent on publish `o`. */
  function Spent(cfg: Config, p: Prices, steps: seq<Step>, o: Line): nat {
    if steps == [] then 0
    else
      var front, st := steps[..|steps| - 1], steps[|steps| - 1];
      var s := Run(cfg, front);
      Spent(cfg, p, front, o)
      + if Internal(st) && Enabled(cfg, s, st) && Of(Mover(cfg, s, st), o) then Price(p, st) else 0
  }

  lemma MoverKnown(cfg: Config, s: State, st: Step)
    requires Inv(cfg, s) && LedgerOk(s) && Internal(st) && Enabled(cfg, s, st)
    ensures Mover(cfg, s, st).origin < |s.origins|
  {
    if st.Deliver? {
      assert MsgOk(s.origins, s.copies[s.queues[QueueOf(cfg, s, st.k)][0]].msg);
    } else if st.Process? {
      assert MsgOk(s.origins, s.deliveries[s.links[st.c].wire[0].tag].msg);
    } else if st.Expire? {
      assert MsgOk(s.origins, s.copies[s.queues[st.queue][0]].msg);
    } else {
      assert MsgOk(s.origins, s.deliveries[st.t].msg);
    }
  }

  lemma {:induction false} NothingSpentBefore(cfg: Config, p: Prices, steps: seq<Step>, o: Line)
    requires |Run(cfg, steps).origins| <= o.origin
    ensures Spent(cfg, p, steps, o) == 0
  {
    if steps != [] {
      var front, st := steps[..|steps| - 1], steps[|steps| - 1];
      var s := Run(cfg, front);
      RunLedger(cfg, front);
      if Enabled(cfg, s, st) {
        StepHasEffect(cfg, s, st);
        if Internal(st) {
          MoverKnown(cfg, s, st);
        }
      }
      NothingSpentBefore(cfg, p, front, o);
    }
  }

  /** Other steps neither spend nor earn. */
  lemma IdleDrift(cfg: Config, p: Prices, o: Line, s: State, st: Step, s': State)
    requires Effect(cfg, s, st, s') && !Internal(st) && !st.External? && !st.Requeue?
    ensures Potential(cfg, p, o, s') == Potential(cfg, p, o, s)
  {
  }

  /** The price of a publish per queue it entered, plus one full price per delivery a closing channel returned. */
  function Ceiling(p: Prices, o: Line, s: State): nat
    requires o.origin < |s.origins|
  {
    Entered(s, o) * Weight(p, RetryCount(s.origins[o.origin].headers)) + Sum(s.deliveries, Returned(o)) * Weight(p, 0)
  }

  function Due(cfg: Config, p: Prices, s: State, st: Step, o: Line): nat
    requires Enabled(cfg, s, st)
  {
    if Internal(st) && Of(Mover(cfg, s, st), o) then Price(p, st) else 0
  }

  lemma {:induction false} CeilingStep(p: Prices, o: Line, s: State, s': State, more: nat)
    requires o.origin < |s.origins| && o.origin < |s'.origins| && s'.origins[o.origin] == s.origins[o.origin]
    requires Sum(s'.deliveries, Returned(o)) == Sum(s.deliveries, Returned(o)) + more
    ensures Ceiling(p, o, s') == Ceiling(p, o, s) + more * Weight(p, 0)
  {
    var r, w := Sum(s.deliveries, Returned(o)), Weight(p, 0);
    assert (r + more) * w == r * w + more * w;
  }

  lemma {:induction false} ReturnBudget(cfg: Config, p: Prices, s: State, st: Step, o: Line)
    requires Inv(cfg, s) && st.Requeue? && Enabled(cfg, s, st) && o.origin < |s.origins|
    ensures var s' := Apply(cfg, s, st);
            o.origin < |s'.origins| &&
                Potential(cfg, p, o, s') + Ceiling(p, o, s) <= Potential(cfg, p, o, s) + Ceiling(p, o, s')
  {
    var s' := Apply(cfg, s, st);
    StepHasEffect(cfg, s, st);
    assert OwnerOk(cfg, s.consumers, s.deliveries[st.t]);
    ReturnDrift(cfg, p, o, s, s', st.t);
    CeilingStep(p, o, s, s', if Of(s.deliveries[st.t].msg, o) then 1 else 0);
  }

  /** Every step but the return of a delivery leaves the potential no higher than what it spends. */
  lemma StepDrift(cfg: Config, p: Prices, s: State, st: Step, o: Line, reach: set<string>)
    requires Inv(cfg, s) && LedgerOk(s) && Within(cfg, s, o, reach) && Spread(cfg, reach, p)
    requires Enabled(cfg, s, st) && o.origin < |s.origins| && !st.Requeue?
    ensures var s' := Apply(cfg, s, st);
            && Due(cfg, p, s, st, o) + Potential(cfg, p, o, s') <= Potential(cfg, p, o, s)
            && (ExactSpread(cfg, reach, p) && Unlucky(s, st, s', o) && AllFailing(s, o) ==>
                  Due(cfg, p, s, st, o) + Potential(cfg, p, o, s') == Potential(cfg, p, o, s))
  {
    if Internal(st) {
      InternalDrift(cfg, p, o, reach, s, st);
    } else {
      StepHasEffect(cfg, s, st);
      if st.External? {
        AcceptDrift(cfg, p, o, reach, s, st, Apply(cfg, s, st));
      } else {
        IdleDrift(cfg, p, o, s, st, Apply(cfg, s, st));
      }
    }
  }

  lemma {:induction false} BudgetStep(cfg: Config, p: Prices, s: State, st: Step, o: Line, reach: set<string>)
    requires Inv(cfg, s) && LedgerOk(s) && Within(cfg, s, o, reach) && Spread(cfg, reach, p)
    requires Enabled(cfg, s, st) && o.origin < |s.origins|
    ensures var s' := Apply(cfg, s, st);
            && o.origin < |s'.origins| && s'.origins[o.origin] == s.origins[o.origin]
            && Due(cfg, p, s, st, o) + Potential(cfg, p, o, s') + Ceiling(p, o, s)
                <= Potential(cfg, p, o, s) + Ceiling(p, o, s')
  {
    var s' := Apply(cfg, s, st);
    StepHasEffect(cfg, s, st);
    if st.Requeue? {
      ReturnBudget(cfg, p, s, st, o);
    } else {
      InternalReturnsNothing(cfg, o, s, st, s');
      CeilingStep(p, o, s, s', 0);
      StepDrift(cfg, p, s, st, o, reach);
    }
  }

  /** A publish starts with its whole price still to be spent. */
  lemma {:induction false} BudgetStart(cfg: Config, p: Prices, front: seq<Step>, st: Step, o: Line, reach: set<string>)
    requires var s := Run(cfg, front); st.External? && Enabled(cfg, s, st) && o.origin == |s.origins|
    requires Realm(cfg, reach) && forall q :: q in st.targets && q in o.homes ==> q in reach
    ensures var s := Run(cfg, front); var s' := Apply(cfg, s, st);
            && Spent(cfg, p, front, o) == 0 && AllFailing(s', o) && o.origin < |s'.origins|
            && Potential(cfg, p, o, s') == Entered(s', o) * Weight(p, RetryCount(s'.origins[o.origin].headers))
            && Potential(cfg, p, o, s') == Ceiling(p, o, s')
  {
    var s := Run(cfg, front);
    var s' := Apply(cfg, s, st);
    RunLedger(cfg, front);
    StepHasEffect(cfg, s, st);
    AcceptDrift(cfg, p, o, reach, s, st, s');
    NothingSpentBefore(cfg, p, front, o);
  }

  lemma SpentStep(cfg: Config, p: Prices, steps: seq<Step>, o: Line)
    requires steps != []
    ensures var front, st := steps[..|steps| - 1], steps[|steps| - 1];
            var s := Run(cfg, front);
            Spent(cfg, p, steps, o) == Spent(cfg, p, front, o) + if Enabled(cfg, s, st) then
                Due(cfg, p, s, st, o) else 0
  {
  }

  /** In every run, what a publish has cost plus what it can still cost is at most its price per queue it entered, plus
      one full price for every time a closing channel returned one of its deliveries. */
  lemma {:induction false} Budget(cfg: Config, p: Prices, steps: seq<Step>, o: Line, reach: set<string>)
    requires Spread(cfg, reach, p)
    requires var s := Run(cfg, steps); Lands(s, o, reach)
    ensures Spent(cfg, p, steps, o) + Potential(cfg, p, o, Run(cfg, steps)) <= Ceiling(p, o, Run(cfg, steps))
  {
    if steps != [] {
      var front, st := steps[..|steps| - 1], steps[|steps| - 1];
      var s := Run(cfg, front);
      RunLedger(cfg, front);
      SpentStep(cfg, p, steps, o);
      if !Enabled(cfg, s, st) {
        Budget(cfg, p, front, o, reach);
      } else {
        StepHasEffect(cfg, s, st);
        if st.External? && o.origin == |s.origins| {
          BudgetStart(cfg, p, front, st, o, reach);
        } else {
          RunWithin(cfg, front, o, reach);
          Budget(cfg, p, front, o, reach);
          BudgetStep(cfg, p, s, st, o, reach);
        }
      }
    }
  }

  // ----- runs in which the handler of one publish always fails -----

  /** Every step taken so far left the handler of `o` failing and its tasks undisturbed. */
  predicate UnluckyRun(cfg: Config, steps: seq<Step>, o: Line) {
    if steps == [] then true
    else
      var front, st := steps[..|steps| - 1], steps[|steps| - 1];
      var s := Run(cfg, front);
      UnluckyRun(cfg, front, o) && (Enabled(cfg, s, st) ==> Unlucky(s, st, Apply(cfg, s, st), o))
  }

  lemma UnluckyKeepsFailing(cfg: Config, s: State, st: Step, s': State, o: Line)
    requires Effect(cfg, s, st, s') && AllFailing(s, o) && Unlucky(s, st, s', o)
    ensures AllFailing(s', o)
  {
  }

  lemma {:induction false} ExactStep(cfg: Config, p: Prices, s: State, st: Step, o: Line, reach: set<string>)
    requires Inv(cfg, s) && LedgerOk(s) && Within(cfg, s, o, reach) && ExactSpread(cfg, reach, p) && AllFailing(s, o)
    requires Enabled(cfg, s, st) && o.origin < |s.origins| && Unlucky(s, st, Apply(cfg, s, st), o)
    ensures var s' := Apply(cfg, s, st); Due(cfg, p, s, st, o) + Potential(cfg, p, o, s') == Potential(cfg, p, o, s)
  {
    if st.Requeue? {
      StepHasEffect(cfg, s, st);
      assert OwnerOk(cfg, s.consumers, s.deliveries[st.t]);
      ReturnDrift(cfg, p, o, s, Apply(cfg, s, st), st.t);
    } else {
      StepDrift(cfg, p, s, st, o, reach);
    }
  }

  /** When the handler always fails, spent and still to be spent add up to exactly the price. */
  lemma {:induction false} ExactBudget(cfg: Config, p: Prices, steps: seq<Step>, o: Line, reach: set<string>)
    requires ExactSpread(cfg, reach, p) && UnluckyRun(cfg, steps, o)
    requires var s := Run(cfg, steps); Lands(s, o, reach)
    ensures var s := Run(cfg, steps);
            && AllFailing(s, o)
            && Spent(cfg, p, steps, o) + Potential(cfg, p, o, s)
               == Entered(s, o) * Weight(p, RetryCount(s.origins[o.origin].headers))
  {
    if steps != [] {
      var front, st := steps[..|steps| - 1], steps[|steps| - 1];
      var s := Run(cfg, front);
      RunLedger(cfg, front);
      SpentStep(cfg, p, steps, o);
      if !Enabled(cfg, s, st) {
        ExactBudget(cfg, p, front, o, reach);
      } else {
        StepHasEffect(cfg, s, st);
        if st.External? && o.origin == |s.origins| {
          BudgetStart(cfg, p, front, st, o, reach);
        } else {
          RunWithin(cfg, front, o, reach);
          ExactBudget(cfg, p, front, o, reach);
          ExactStep(cfg, p, s, st, o, reach);
          UnluckyKeepsFailing(cfg, s, st, Apply(cfg, s, st), o);
        }
      }
    }
  }
}
