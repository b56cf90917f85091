/** No message is lost, isolated or not: whatever else a retry queue's releases reach, they reach the queue they came
    from (src/subscriber.rs:220-235, :521-610). */
module Survival {
  import opened Sums
  import opened Routing
  import opened Protocol
  import opened Invariants
  import opened Effects
  import opened Ledger
  import opened Accounting

  /** What the set-up gives every worker's queue: nobody consumes its retry and dead-letter queues, and what the retry
      queue releases comes back to it, perhaps among others. */
  ghost predicate Guarded(cfg: Config, q: string) {
    && !Expires(cfg.topology, q)
    && forall w :: 0 <= w < |cfg.workers| && cfg.workers[w].queue == q && cfg.workers[w].limit.Some? ==>
         && !IsMain(cfg, RetryQueue(q)) && !IsMain(cfg, DlqQueue(q))
         && DlqQueue(q) in cfg.topology.queues && !Expires(cfg.topology, DlqQueue(q))
         && Expires(cfg.topology, RetryQueue(q)) && q in ExpiryTargets(cfg.topology, RetryQueue(q))
  }

  lemma IsolatedIsGuarded(cfg: Config, q: string)
    requires IsolatedQueue(cfg, q)
    ensures Guarded(cfg, q)
  {
    assert q in {q};
  }

  // ----- the books of one queue -----

  /** Copies of publish `n` at `q`. */
  ghost function Here(cfg: Config, s: State, n: nat, q: string): nat {
    Sum(s.copies, AtHome(cfg, s.deliveries, n, q))
  }

  function Owed(s: State, n: nat, q: string): nat { Sum(s.deliveries, UnpaidFrom(n, q)) }

  /** A copy's place mentions only deliveries there are. */
  predicate PlaceOk(ds: nat, p: Place) {
    match p
    case InFlight(t) => t < ds
    case Finished(Succeeded(t)) => t < ds
    case Finished(Discarded(t)) => t < ds
    case _ => true
  }

  lemma PlacesOk(cfg: Config, s: State)
    requires Inv(cfg, s) && LedgerOk(s)
    ensures forall c :: 0 <= c < |s.copies| ==> PlaceOk(|s.deliveries|, s.copies[c].place)
  {
    forall c | 0 <= c < |s.copies|
      ensures PlaceOk(|s.deliveries|, s.copies[c].place)
    {
      assert EndOk(s, c);
    }
  }

  /** Deliveries that keep their queues leave copies where they are. */
  lemma SameHere(cfg: Config, cs: seq<Copy>, ds: seq<Delivery>, ds': seq<Delivery>, n: nat, q: string)
    requires forall c :: 0 <= c < |cs| ==> PlaceOk(|ds|, cs[c].place)
    requires |ds| <= |ds'| && forall t :: 0 <= t < |ds| ==> ds'[t].queue == ds[t].queue
    ensures Sum(cs, AtHome(cfg, ds', n, q)) == Sum(cs, AtHome(cfg, ds, n, q))
  {
    forall c | 0 <= c < |cs|
      ensures AtHome(cfg, ds', n, q)(cs[c]) == 1 * AtHome(cfg, ds, n, q)(cs[c])
    {
      assert PlaceOk(|ds|, cs[c].place);
    }
    SumMapped(cs, cs, AtHome(cfg, ds', n, q), AtHome(cfg, ds, n, q), 1);
  }

  /** Of a guarded queue's area, workers consume the queue itself alone. */
  lemma ConsumedAtHome(cfg: Config, q: string, p: string)
    requires Guarded(cfg, q) && Area(cfg, {q}, p) && IsMain(cfg, p)
    ensures p == q
  {
  }

  /** Of its area, the retry queue alone releases messages, and `q` is among those they reach. */
  lemma ReleasedHome(cfg: Config, q: string, p: string)
    requires Guarded(cfg, q) && Area(cfg, {q}, p) && Expires(cfg.topology, p)
    ensures q in ExpiryTargets(cfg.topology, p)
  {
  }

  lemma ServeKeepsBooks(cfg: Config, s: State, s': State, k: nat, n: nat, q: string)
    requires Inv(cfg, s) && LedgerOk(s) && Guarded(cfg, q) && Serves(cfg, s, s', k)
    ensures Here(cfg, s', n, q) >= Here(cfg, s, n, q) && Owed(s', n, q) == Owed(s, n, q)
  {
    var p := cfg.workers[s.consumers[k].worker].queue;
    var id := s.queues[p][0];
    assert IsMain(cfg, p);
    PlacesOk(cfg, s);
    SameHere(cfg, s.copies, s.deliveries, s'.deliveries, n, q);
    SumUpdate(s.copies, id, s'.copies[id], AtHome(cfg, s'.deliveries, n, q));
    SumAppend(s.deliveries, s'.deliveries[|s.deliveries|], UnpaidFrom(n, q));
    if Area(cfg, {q}, p) {
      ConsumedAtHome(cfg, q, p);
    }
  }

  lemma ForwardKeepsBooks(cfg: Config, s: State, s': State, t: nat, n: nat, q: string)
    requires Inv(cfg, s) && LedgerOk(s) && Guarded(cfg, q) && Forwards(cfg, s, s', t)
    ensures Here(cfg, s', n, q) + Owed(s, n, q) >= Here(cfg, s, n, q) + Owed(s', n, q)
  {
    var d := s.deliveries[t];
    var copy := ForwardCopy(d, s.now);
    PlacesOk(cfg, s);
    SameHere(cfg, s.copies, s.deliveries, s'.deliveries, n, q);
    SumAppend(s.copies, copy, AtHome(cfg, s'.deliveries, n, q));
    SumUpdate(s.deliveries, t, s'.deliveries[t], UnpaidFrom(n, q));
    if d.queue == q {
      var w := s.consumers[d.consumer].worker;
      assert cfg.workers[w].queue == q && cfg.workers[w].limit.Some?;
      assert Target(d) in cfg.topology.queues && Area(cfg, {q}, Target(d));
    }
  }

  lemma SettleMovesCopy(cfg: Config, s: State, s': State, t: nat, n: nat, q: string)
    requires Inv(cfg, s) && LedgerOk(s) && Settles(s, s', t)
    ensures var d := s.deliveries[t];
            Here(cfg, s', n, q) + (if d.msg.origin == n && d.queue == q && MustForward(d) then 1 else 0)
            == Here(cfg, s, n, q)
  {
    var d := s.deliveries[t];
    PlacesOk(cfg, s);
    SameHere(cfg, s.copies, s.deliveries, s'.deliveries, n, q);
    SumUpdate(s.copies, d.copy, s'.copies[d.copy], AtHome(cfg, s'.deliveries, n, q));
  }

  lemma SettleKeepsBooks(cfg: Config, s: State, s': State, t: nat, n: nat, q: string)
    requires Inv(cfg, s) && LedgerOk(s) && Settles(s, s', t)
    ensures Here(cfg, s', n, q) + Owed(s, n, q) == Here(cfg, s, n, q) + Owed(s', n, q)
  {
    SettleMovesCopy(cfg, s, s', t, n, q);
    SumUpdate(s.deliveries, t, s'.deliveries[t], UnpaidFrom(n, q));
  }

  lemma ReturnKeepsBooks(cfg: Config, s: State, s': State, t: nat, n: nat, q: string)
    requires Inv(cfg, s) && LedgerOk(s) && Returns(s, s', t)
    ensures Here(cfg, s', n, q) >= Here(cfg, s, n, q) && Owed(s', n, q) == Owed(s, n, q)
  {
    var d := s.deliveries[t];
    PlacesOk(cfg, s);
    SameHere(cfg, s.copies, s.deliveries, s'.deliveries, n, q);
    SumUpdate(s.copies, d.copy, s'.copies[d.copy], AtHome(cfg, s'.deliveries, n, q));
    SumUpdate(s.deliveries, t, s'.deliveries[t], UnpaidFrom(n, q));
    assert Area(cfg, {d.queue}, d.queue);
  }

  /** A message of publish `n` that enters `q` among others is there. */
  lemma ArrivesHere(cfg: Config, ds: seq<Delivery>, targets: seq<string>, m: Msg, now: nat, first: bool, n: nat,
      q: string)
    requires m.origin == n && q in targets
    ensures Sum(Fresh(targets, m, now, first), AtHome(cfg, ds, n, q)) >= 1
  {
    var i :| 0 <= i < |targets| && targets[i] == q;
    SumAtLeast(Fresh(targets, m, now, first), i, AtHome(cfg, ds, n, q));
    assert Area(cfg, {q}, q);
  }

  lemma ReleaseKeepsBooks(cfg: Config, s: State, s': State, p: string, targets: seq<string>, n: nat, q: string)
    requires Guarded(cfg, q) && Releases(cfg, s, s', p, targets)
    ensures Here(cfg, s', n, q) >= Here(cfg, s, n, q) && Owed(s', n, q) == Owed(s, n, q)
  {
    var id := s.queues[p][0];
    var m := s.copies[id].msg;
    var gone := s.copies[id].(place := Finished(Released));
    SumUpdate(s.copies, id, gone, AtHome(cfg, s.deliveries, n, q));
    SumConcat(s.copies[id := gone], Fresh(targets, m, s.now, false), AtHome(cfg, s.deliveries, n, q));
    if Area(cfg, {q}, p) && m.origin == n {
      ReleasedHome(cfg, q, p);
      assert q in (set x | x in targets);
      ArrivesHere(cfg, s.deliveries, targets, m, s.now, false, n, q);
    }
  }

  lemma AcceptKeepsBooks(cfg: Config, s: State, st: Step, s': State, n: nat, q: string)
    requires LedgerOk(s) && st.External? && Effect(cfg, s, st, s')
    ensures Here(cfg, s', n, q) >= Here(cfg, s, n, q) && Owed(s', n, q) == Owed(s, n, q)
    ensures n == |s.origins| && q in st.targets ==> Here(cfg, s', n, q) >= 1 && Owed(s, n, q) == 0
  {
    var m := NewMsg(s, st.payload, st.headers);
    SumConcat(s.copies, Fresh(st.targets, m, s.now, true), AtHome(cfg, s.deliveries, n, q));
    if n == |s.origins| && q in st.targets {
      ArrivesHere(cfg, s.deliveries, st.targets, m, s.now, true, n, q);
      forall t | 0 <= t < |s.deliveries|
        ensures UnpaidFrom(n, q)(s.deliveries[t]) == 0
      {
        assert MsgOk(s.origins, s.deliveries[t].msg);
      }
      SumZero(s.deliveries, UnpaidFrom(n, q));
    }
  }

  lemma ClientMovesNoCopy(cfg: Config, s: State, st: Step, s': State, n: nat, q: string)
    requires Inv(cfg, s) && LedgerOk(s) && IsClientStep(st) && Effect(cfg, s, st, s')
    ensures Here(cfg, s', n, q) == Here(cfg, s, n, q)
  {
    PlacesOk(cfg, s);
    SameHere(cfg, s.copies, s.deliveries, s'.deliveries, n, q);
  }

  lemma ClientKeepsBooks(cfg: Config, s: State, st: Step, s': State, n: nat, q: string)
    requires Inv(cfg, s) && LedgerOk(s) && IsClientStep(st) && Effect(cfg, s, st, s')
    ensures Here(cfg, s', n, q) == Here(cfg, s, n, q) && Owed(s', n, q) == Owed(s, n, q)
  {
    ClientMovesNoCopy(cfg, s, st, s', n, q);
    SumUpdate(s.deliveries, st.t, s'.deliveries[st.t], UnpaidFrom(n, q));
  }

  /** No step takes more out of a guarded queue's books than it pays. */
  lemma StepKeepsBooks(cfg: Config, s: State, st: Step, s': State, n: nat, q: string)
    requires Inv(cfg, s) && LedgerOk(s) && Guarded(cfg, q) && Effect(cfg, s, st, s')
    ensures Here(cfg, s', n, q) + Owed(s, n, q) >= Here(cfg, s, n, q) + Owed(s', n, q)
  {
    if IsClientStep(st) {
      ClientKeepsBooks(cfg, s, st, s', n, q);
    } else if st.External? {
      AcceptKeepsBooks(cfg, s, st, s', n, q);
    } else if st.Deliver? {
      ServeKeepsBooks(cfg, s, s', st.k, n, q);
    } else if st.Process? {
      var f := s.links[st.c].wire[0];
      if f.Publish? {
        ForwardKeepsBooks(cfg, s, s', f.tag, n, q);
      } else {
        SettleKeepsBooks(cfg, s, s', f.tag, n, q);
      }
    } else if st.Expire? {
      ReleaseKeepsBooks(cfg, s, s', st.queue, st.targets, n, q);
    } else if st.Requeue? {
      ReturnKeepsBooks(cfg, s, s', st.t, n, q);
    }
  }

  /** In every run, isolated or not, queue by queue and counted by place: of a publish that `q` accepted there is always
      at least one copy more at `q` than deliveries from `q` that were republished and not acknowledged. */
  lemma {:induction false} NothingLostAt(cfg: Config, steps: seq<Step>, n: nat, q: string)
    requires Guarded(cfg, q)
    requires var s := Run(cfg, steps); n < |s.origins| && q in s.origins[n].targets
    ensures var s := Run(cfg, steps);
            Sum(s.copies, AtHome(cfg, s.deliveries, n, q)) >= 1 + Sum(s.deliveries, UnpaidFrom(n, q))
  {
    var front, st := steps[..|steps| - 1], steps[|steps| - 1];
    var s := Run(cfg, front);
    RunLedger(cfg, front);
    if !Enabled(cfg, s, st) {
      NothingLostAt(cfg, front, n, q);
    } else {
      var s' := Apply(cfg, s, st);
      StepHasEffect(cfg, s, st);
      if n == |s.origins| {
        AcceptKeepsBooks(cfg, s, st, s', n, q);
      } else {
        NothingLostAt(cfg, front, n, q);
        StepKeepsBooks(cfg, s, st, s', n, q);
      }
    }
  }

  /** In every run, with channels dying and internal publishes failing at any point: for every guarded queue that
      accepted a message, a copy of it is, with its payload unchanged, in that main queue or its retry or dead-letter
      queue, or in flight from that main queue, or was handled successfully there, or was refused there by a worker
      without retry. */
  lemma {:induction false} NoLoss(cfg: Config, steps: seq<Step>, n: nat, q: string) returns (c: nat)
    requires Guarded(cfg, q)
    requires var s := Run(cfg, steps); n < |s.origins| && q in s.origins[n].targets
    ensures var s := Run(cfg, steps); c < |s.copies| && KeptAt(cfg, s, n, q, c)
  {
    var s := Run(cfg, steps);
    RunLedger(cfg, steps);
    NothingLostAt(cfg, steps, n, q);
    c := SumWitness(s.copies, AtHome(cfg, s.deliveries, n, q));
    assert MsgOk(s.origins, s.copies[c].msg) && EndOk(s, c);
  }
}
