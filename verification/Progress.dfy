/** Nothing gets stuck by itself: while channels are open and no task has given up, a message that is not done with can
    always be moved on, after waiting for its retry delay at most (src/subscriber.rs:498-625, :232-235). */
module Progress {
  import opened Sums
  import opened Routing
  import opened Protocol
  import opened Invariants
  import opened Effects
  import opened Ledger
  import opened Amplification
  import opened Attempts

  // ----- settled deliveries have their frame on the wire -----

  ghost predicate AnswerSent(s: State, t: nat)
    requires t < |s.deliveries|
  {
    var d := s.deliveries[t];
    d.pc.Done? && d.settled.Open? && d.channel < |s.links| && s.links[d.channel].broker ==>
      SettleFrame(t, d) in s.links[d.channel].wire
  }

  ghost predicate AnswersSent(s: State) {
    forall t :: 0 <= t < |s.deliveries| ==> AnswerSent(s, t)
  }

  /** Every step but the broker's processing only adds to what is on the wire of a channel that stays open. */
  ghost predicate WiresGrow(s: State, s': State) {
    && |s.links| <= |s'.links|
    && forall c :: 0 <= c < |s.links| && s'.links[c].broker ==> s.links[c].broker && s.links[c].wire <= s'.links[c].wire
  }

  lemma OthersGrowWires(cfg: Config, s: State, st: Step)
    requires Enabled(cfg, s, st) && !st.Process?
    ensures WiresGrow(s, Apply(cfg, s, st))
  {
    if st.External? || st.Expire? {
      ArrivalsOnlyQueue(cfg, s, st);
    }
  }

  lemma SettlingPutsFrame(cfg: Config, s: State, t: nat)
    requires Inv(cfg, s) && Enabled(cfg, s, SendSettle(t))
    ensures AnswerSent(Apply(cfg, s, SendSettle(t)), t)
  {
    var d := s.deliveries[t];
    var s' := Apply(cfg, s, SendSettle(t));
    assert SettleFrame(t, s'.deliveries[t]) == SettleFrame(t, d);
    if s.links[d.channel].broker {
      var wire := s'.links[d.channel].wire;
      assert wire[|wire| - 1] == SettleFrame(t, d);
    }
  }

  lemma OthersKeepAnswers(cfg: Config, s: State, st: Step)
    requires Inv(cfg, s) && AnswersSent(s) && Enabled(cfg, s, st) && !st.Process?
    ensures AnswersSent(Apply(cfg, s, st))
  {
    var s' := Apply(cfg, s, st);
    StepHasEffect(cfg, s, st);
    OthersGrowWires(cfg, s, st);
    forall t | 0 <= t < |s'.deliveries|
      ensures AnswerSent(s', t)
    {
      if t < |s.deliveries| {
        if st == SendSettle(t) {
          SettlingPutsFrame(cfg, s, t);
        } else {
          OldAnswer(cfg, s, st, s', t);
        }
      }
    }
  }

  lemma OldAnswer(cfg: Config, s: State, st: Step, s': State, t: nat)
    requires TasksOk(cfg, s) && AnswersSent(s) && Effect(cfg, s, st, s') && WiresGrow(s, s') && !st.Process?
    requires t < |s.deliveries| && st != SendSettle(t)
    ensures t < |s'.deliveries| && AnswerSent(s', t)
  {
    assert TaskOk(s.links, s.deliveries[t]) && AnswerSent(s, t);
    var d, d' := s.deliveries[t], s'.deliveries[t];
    if d'.pc.Done? && d'.settled.Open? {
      assert d.pc.Done? && d.settled.Open? && SettleFrame(t, d') == SettleFrame(t, d);
    }
  }

  lemma ProcessKeepsAnswer(cfg: Config, s: State, s': State, c: nat, t: nat)
    requires AnswersSent(s) && ProcessEffect(cfg, s, s', c) && t < |s.deliveries| && |s'.links| == |s.links|
    requires forall e :: 0 <= e < |s.links| ==>
               s'.links[e] == if e == c then s.links[c].(wire := s.links[c].wire[1..]) else s.links[e]
    requires s.links[c].wire[0].Publish? ||
             s.links[c].wire[0] == SettleFrame(s.links[c].wire[0].tag, s.deliveries[s.links[c].wire[0].tag])
    ensures t < |s'.deliveries| && AnswerSent(s', t)
  {
    assert AnswerSent(s, t);
    var f, d, d' := s.links[c].wire[0], s.deliveries[t], s'.deliveries[t];
    if d'.pc.Done? && d'.settled.Open? && d'.channel == c && s.links[c].broker {
      var frame := SettleFrame(t, d);
      assert SettleFrame(t, d') == frame && frame in s.links[c].wire && frame != f;
      var i :| 0 <= i < |s.links[c].wire| && s.links[c].wire[i] == frame;
      assert s'.links[c].wire[i - 1] == frame;
    }
  }

  lemma ProcessKeepsAnswers(cfg: Config, s: State, c: nat)
    requires Inv(cfg, s) && AnswersSent(s) && Enabled(cfg, s, Process(c))
    ensures AnswersSent(DoProcess(s, c))
  {
    var s', f := DoProcess(s, c), s.links[c].wire[0];
    ProcessHasEffect(cfg, s, c);
    assert LinkOk(s.deliveries, c, s.links[c]);
    assert FrameOk(s.deliveries, c, f, []) by { assert s.links[c].wire[..0] == []; }
    forall t | 0 <= t < |s'.deliveries|
      ensures AnswerSent(s', t)
    {
      ProcessKeepsAnswer(cfg, s, s', c, t);
    }
  }

  lemma {:induction false} RunAnswers(cfg: Config, steps: seq<Step>)
    ensures AnswersSent(Run(cfg, steps))
  {
    if steps != [] {
      var front, st := steps[..|steps| - 1], steps[|steps| - 1];
      RunAnswers(cfg, front);
      RunKeepsInv(cfg, front);
      if Enabled(cfg, Run(cfg, front), st) {
        if st.Process? {
          ProcessKeepsAnswers(cfg, Run(cfg, front), st.c);
        } else {
          OthersKeepAnswers(cfg, Run(cfg, front), st);
        }
      }
    }
  }

  // ----- something can always happen -----

  /** A step of the system itself in which the library does not fail; handlers may fail. */
  predicate Calm(st: Step) {
    Internal(st) && !st.GiveUp? && (st.Take? ==> st.canCreate) && (st.Handle? ==> !st.ok)
  }

  predicate AllOpen(s: State) {
    forall c :: 0 <= c < |s.links| ==> s.links[c].client && s.links[c].broker
  }

  predicate NoneStuck(s: State) {
    forall t :: 0 <= t < |s.deliveries| ==> !s.deliveries[t].pc.Stuck?
  }

  lemma OpenTaskCanStep(cfg: Config, s: State, t: nat) returns (st: Step)
    requires Inv(cfg, s) && AnswersSent(s) && AllOpen(s) && NoneStuck(s)
    requires t < |s.deliveries| && s.deliveries[t].settled.Open?
    ensures Calm(st) && Enabled(cfg, s, st)
  {
    var d := s.deliveries[t];
    assert TaskOk(s.links, d) && AnswerSent(s, t);
    match d.pc
    case Running => st := Handle(t, false);
    case Decided => st := if MustForward(d) then Take(t, true) else SendSettle(t);
    case Holding(_) => st := SendPublish(t);
    case Published => st := SendSettle(t);
    case Done =>
      st := Process(d.channel);
      assert SettleFrame(t, d) in s.links[d.channel].wire;
      assert LinkOk(s.deliveries, d.channel, s.links[d.channel]);
      assert FrameOk(s.deliveries, d.channel, s.links[d.channel].wire[0], s.links[d.channel].wire[..0]);
  }

  /** Some consumer was started on `q`. */
  predicate Manned(cfg: Config, s: State, q: string) {
    exists k :: 0 <= k < |s.consumers| && QueueOf(cfg, s, k) == q
  }

  lemma {:induction false} Oldest(cfg: Config, s: State, q: string, k: nat) returns (oldest: nat)
    requires k < |s.consumers| && QueueOf(cfg, s, k) == q
    ensures oldest <= k && QueueOf(cfg, s, oldest) == q
    ensures forall j :: 0 <= j < oldest ==> QueueOf(cfg, s, j) != q
  {
    if j :| 0 <= j < k && QueueOf(cfg, s, j) == q {
      oldest := Oldest(cfg, s, q, j);
    } else {
      oldest := k;
    }
  }

  /** A waiting message's queue is served, or its consumer is at its limit with a task that can step. */
  lemma QueueCanStep(cfg: Config, s: State, q: string) returns (st: Step)
    requires Inv(cfg, s) && AnswersSent(s) && AllOpen(s) && NoneStuck(s)
    requires Manned(cfg, s, q) && q in s.queues && s.queues[q] != []
    ensures Calm(st) && Enabled(cfg, s, st)
  {
    var k :| 0 <= k < |s.consumers| && QueueOf(cfg, s, k) == q;
    k := Oldest(cfg, s, q, k);
    assert ConsumerOk(cfg, s.links, s.consumers[k]);
    assert Active(cfg, s, k);
    if s.consumers[k].prefetch > 0 && Sum(s.deliveries, OpenOf(k)) >= s.consumers[k].prefetch {
      var t := SumWitness(s.deliveries, OpenOf(k));
      st := OpenTaskCanStep(cfg, s, t);
    } else {
      st := Deliver(k);
      assert CanDeliver(cfg, s, k);
    }
  }

  lemma {:induction false} Listing(names: set<string>) returns (qs: seq<string>)
    ensures Enumerates(qs, names)
  {
    if names == {} {
      qs := [];
    } else {
      var q :| q in names;
      var rest := Listing(names - {q});
      qs := rest + [q];
      assert forall i :: 0 <= i < |rest| ==> rest[i] in (set x | x in rest);
      assert (set x | x in qs) == (set x | x in rest) + {q};
    }
  }

  lemma RoutedQueuesExist(t: Topology, queue: string)
    requires Expires(t, queue)
    ensures forall q :: q in ExpiryTargets(t, queue) ==> q in t.queues
  {
  }

  /** A retry queue's head can be released once its delay is over. */
  lemma HeadCanExpire(cfg: Config, s: State, q: string) returns (wait: nat, st: Step)
    requires Inv(cfg, s) && q in s.queues && s.queues[q] != [] && Expires(cfg.topology, q)
    ensures Calm(st) && Enabled(cfg, Next(cfg, s, Tick(wait)), st)
  {
    wait := s.copies[s.queues[q][0]].at + cfg.topology.queues[q].deadLetter.value.ttl;
    var targets := Listing(ExpiryTargets(cfg.topology, q));
    st := Expire(q, targets);
    RoutedQueuesExist(cfg.topology, q);
    forall p | p in targets
      ensures p in s.queues
    {
      assert p in (set x | x in targets);
    }
    assert CanExpire(cfg, Next(cfg, s, Tick(wait)), q, targets);
  }

  /** In every run whose channels are all open and in which no task has given up: as long as a line has a message
      waiting, in flight or in a retry queue, and its worker queues have consumers, the system can take a step by
      itself, after waiting if need be. */
  lemma UndrainedCanStep(cfg: Config, steps: seq<Step>, o: Line, reach: set<string>) returns (wait: nat, st: Step)
    requires var s := Run(cfg, steps);
             && Realm(cfg, reach) && Lands(s, o, reach) && (forall q :: q in reach ==> Manned(cfg, s, q))
             && AllOpen(s) && NoneStuck(s) && !Drained(cfg, s, o)
    ensures Calm(st) && Enabled(cfg, Next(cfg, Run(cfg, steps), Tick(wait)), st)
  {
    var s := Run(cfg, steps);
    RunKeepsInv(cfg, steps);
    RunAnswers(cfg, steps);
    RunWithin(cfg, steps, o, reach);
    wait := 0;
    assert Next(cfg, s, Tick(0)) == s;
    var c :| 0 <= c < |s.copies| && Of(s.copies[c].msg, o)
             && (s.copies[c].place.InFlight?
                 || (s.copies[c].place.Ready?
                     && (IsMain(cfg, s.copies[c].place.queue) || Expires(cfg.topology, s.copies[c].place.queue))));
    if s.copies[c].place.InFlight? {
      st := OpenTaskCanStep(cfg, s, s.copies[c].place.tag);
    } else {
      var q := s.copies[c].place.queue;
      assert Area(cfg, reach, q) && c in s.queues[q];
      if IsMain(cfg, q) {
        st := QueueCanStep(cfg, s, q);
      } else {
        wait, st := HeadCanExpire(cfg, s, q);
      }
    }
  }
}
