/** What one enabled step does to copies and deliveries, in the terms the accounting theorems use. */
module Effects {
  import opened Routing
  import opened Protocol
  import opened Invariants

  /** The copies one message makes on entering queues `qs` at time `now`. */
  function Fresh(qs: seq<string>, m: Msg, now: nat, first: bool): seq<Copy> {
    seq(|qs|, i requires 0 <= i < |qs| => Copy(Entering(m, qs[i], first), now, false, Ready(qs[i])))
  }

  /** `d'` is the same delivery further along. */
  predicate SameDelivery(d: Delivery, d': Delivery) {
    d' == d.(pc := d'.pc, verdict := d'.verdict, forward := d'.forward, settled := d'.settled)
  }

  predicate Moved(st: Step, d: Delivery, d': Delivery) {
    && SameDelivery(d, d') && d'.settled == d.settled
    && match st
       case Handle(_, ok) =>
         && d.pc.Running? && d.forward.Unsent? && d' == d.(pc := Decided, verdict := if ok then Passed else Rejected)
       case Take(_, _) => d.pc.Decided? && MustForward(d) && d.forward.Unsent? && (d'.pc.Holding? || d'.pc.Stuck?) &&
           d' == d.(pc := d'.pc)
       case SendPublish(_) =>
         d.pc.Holding? && MustForward(d) && d.forward.Unsent? && d'.forward.Sent? &&
             d' == d.(pc := Published, forward := d'.forward)
       case SendSettle(_) => MaySettle(d) && d' == d.(pc := Done)
       case GiveUp(_) => (d.pc.Decided? || d.pc.Holding? || d.pc.Published?) && d' == d.(pc := Stuck)
       case _ => false
  }

  /** The message a republication leaves at the broker. */
  function ForwardCopy(d: Delivery, now: nat): Copy {
    Copy(Msg(d.msg.origin, d.msg.home, d.msg.payload, OutHeaders(d), d.msg.trail + [now]), now, !Retries(d),
        Ready(Target(d)))
  }

  /** How the frame the task sent settles its delivery, and how that ends the copy. */
  function SettledBy(d: Delivery): Settled {
    if d.verdict.Rejected? && d.limit.None? then Nacked else Acked
  }

  function EndBy(t: nat, d: Delivery): End {
    if d.verdict.Passed? then Succeeded(t) else if d.limit.None? then Discarded(t) else Forwarded(t)
  }

  ghost predicate Settles(s: State, s': State, t: nat) {
    && t < |s.deliveries|
    && var d := s.deliveries[t];
    && d.settled.Open? && d.pc.Done? && d.copy < |s.copies| && s.copies[d.copy].place == InFlight(t)
    && d.msg == s.copies[d.copy].msg
    && !d.verdict.Pending? && (if MustForward(d) then d.forward.Effective? else d.forward.Unsent?)
    && s'.deliveries == s.deliveries[t := d.(settled := SettledBy(d))]
    && s'.copies == s.copies[d.copy := s.copies[d.copy].(place := Finished(EndBy(t, d)))]
  }

  ghost predicate Forwards(cfg: Config, s: State, s': State, t: nat) {
    && t < |s.deliveries|
    && var d := s.deliveries[t];
    && d.forward.Sent? && MustForward(d) && !d.settled.Acked? && (d.pc.Published? || d.pc.Done? || d.pc.Stuck?)
    && d.consumer < |s.consumers| && s.consumers[d.consumer].worker < |cfg.workers|
    && d.queue == cfg.workers[s.consumers[d.consumer].worker].queue
    && d.limit == cfg.workers[s.consumers[d.consumer].worker].limit
    && s'.deliveries == s.deliveries[t := d.(forward := Effective(d.forward.channel))]
    && s'.copies == if Target(d) in cfg.topology.queues then s.copies + [ForwardCopy(d, s.now)] else s.copies
  }

  ghost predicate Serves(cfg: Config, s: State, s': State, k: nat) {
    && k < |s.consumers| && s.consumers[k].worker < |cfg.workers|
    && var spec := cfg.workers[s.consumers[k].worker];
    && spec.queue in s.queues && s.queues[spec.queue] != []
    && var id := s.queues[spec.queue][0];
    && id < |s.copies| && s.copies[id].place == Ready(spec.queue)
    && s'.copies == s.copies[id := s.copies[id].(place := InFlight(|s.deliveries|))]
    && s'.deliveries
        == s.deliveries + [Delivery(id, s.copies[id].msg, k, s.consumers[k].channel, spec.queue, spec.limit,
                                                 s.now, Running, Pending, Unsent, Open)]
  }

  ghost predicate Releases(cfg: Config, s: State, s': State, queue: string, targets: seq<string>) {
    && queue in s.queues && s.queues[queue] != [] && Expires(cfg.topology, queue)
    && Enumerates(targets, ExpiryTargets(cfg.topology, queue))
    && var id := s.queues[queue][0];
    && id < |s.copies| && s.copies[id].place == Ready(queue)
    && s.copies[id].at + cfg.topology.queues[queue].deadLetter.value.ttl <= s.now
    && s'.deliveries == s.deliveries
    && s'.copies
        == s.copies[id := s.copies[id].(place := Finished(Released))] + Fresh(targets, s.copies[id].msg, s.now, false)
  }

  ghost predicate Accepts(s: State, st: Step, s': State)
    requires st.External?
  {
    && s'.deliveries == s.deliveries
    && s'.copies == s.copies + Fresh(st.targets, NewMsg(s, st.payload, st.headers), s.now, true)
  }

  ghost predicate Returns(s: State, s': State, t: nat) {
    && t < |s.deliveries|
    && var d := s.deliveries[t];
    && d.settled.Open? && d.copy < |s.copies| && s.copies[d.copy].place == InFlight(t) && d.msg == s.copies[d.copy].msg
    && s'.deliveries == s.deliveries[t := d.(settled := Requeued)]
    && s'.copies == s.copies[d.copy := s.copies[d.copy].(place := Ready(d.queue))]
  }

  ghost predicate ProcessEffect(cfg: Config, s: State, s': State, c: nat) {
    && c < |s.links| && s.links[c].wire != []
    && var f := s.links[c].wire[0];
       if f.Publish? then Forwards(cfg, s, s', f.tag) else Settles(s, s', f.tag)
  }

  ghost predicate Effect(cfg: Config, s: State, st: Step, s': State) {
    && s'.origins == (if st.External? then s.origins + [Origin(st.payload, st.headers, st.targets)] else s.origins)
    && s'.now == (if st.Tick? then s.now + st.d else s.now)
    && if IsClientStep(st) then
         && st.t < |s.deliveries| && |s'.deliveries| == |s.deliveries|
         && Moved(st, s.deliveries[st.t], s'.deliveries[st.t])
         && s'.deliveries == s.deliveries[st.t := s'.deliveries[st.t]] && s'.copies == s.copies
       else
         match st
         case External(_, _, _, _, _) => Accepts(s, st, s')
         case Deliver(k) => Serves(cfg, s, s', k)
         case Process(c) => ProcessEffect(cfg, s, s', c)
         case Expire(queue, targets) => Releases(cfg, s, s', queue, targets)
         case Requeue(t, _) => Returns(s, s', t)
         case _ => s'.copies == s.copies && s'.deliveries == s.deliveries
  }

  lemma {:induction false} EnqueueAllAdds(s: State, qs: seq<string>, m: Msg, first: bool)
    requires forall q :: q in qs ==> q in s.queues
    ensures EnqueueAll(s, qs, m, first).copies == s.copies + Fresh(qs, m, s.now, first)
    ensures EnqueueAll(s, qs, m, first).(copies := s.copies, queues := s.queues) == s
  {
    if qs == [] {
      assert Fresh(qs, m, s.now, first) == [];
    } else {
      EnqueueAllAdds(s, qs[..|qs| - 1], m, first);
      assert Fresh(qs, m, s.now, first) == Fresh(qs[..|qs| - 1], m, s.now, first)
             + [Copy(Entering(m, qs[|qs| - 1], first), s.now, false, Ready(qs[|qs| - 1]))];
    }
  }

  lemma ProcessHasEffect(cfg: Config, s: State, c: nat)
    requires Inv(cfg, s) && Enabled(cfg, s, Process(c))
    ensures ProcessEffect(cfg, s, DoProcess(s, c), c)
  {
    var f := s.links[c].wire[0];
    var d := s.deliveries[f.tag];
    assert LinkOk(s.deliveries, c, s.links[c]);
    assert FrameOk(s.deliveries, c, f, []) by { assert s.links[c].wire[..0] == []; }
    assert TaskOk(s.links, d) && OwnerOk(cfg, s.consumers, d);
  }

  lemma ClientStepHasEffect(cfg: Config, s: State, st: Step)
    requires Inv(cfg, s) && IsClientStep(st) && Enabled(cfg, s, st)
    ensures Effect(cfg, s, st, Apply(cfg, s, st))
  {
    assert TaskOk(s.links, s.deliveries[st.t]);
  }

  lemma StepHasEffect(cfg: Config, s: State, st: Step)
    requires Inv(cfg, s) && Enabled(cfg, s, st)
    ensures Effect(cfg, s, st, Apply(cfg, s, st))
  {
    if IsClientStep(st) {
      ClientStepHasEffect(cfg, s, st);
    } else if st.Process? {
      ProcessHasEffect(cfg, s, st.c);
    } else if st.External? {
      EnqueueAllAdds(s.(origins := s.origins + [Origin(st.payload, st.headers, st.targets)]), st.targets,
                     NewMsg(s, st.payload, st.headers), true);
    } else if st.Expire? {
      var id := s.queues[st.queue][0];
      EnqueueAllAdds(SetPlace(s, id, Finished(Released)).(queues := s.queues[st.queue := s.queues[st.queue][1..]]),
                     st.targets, s.copies[id].msg, false);
    }
  }

  /** Messages arriving touch nothing but queues, copies and the record of publishes. */
  lemma ArrivalsOnlyQueue(cfg: Config, s: State, st: Step)
    requires Enabled(cfg, s, st) && (st.External? || st.Expire?)
    ensures Apply(cfg, s, st).(copies := s.copies, queues := s.queues, origins := s.origins) == s
  {
    if st.External? {
      EnqueueAllAdds(s.(origins := s.origins + [Origin(st.payload, st.headers, st.targets)]), st.targets,
                     NewMsg(s, st.payload, st.headers), true);
    } else {
      var id := s.queues[st.queue][0];
      EnqueueAllAdds(SetPlace(s, id, Finished(Released)).(queues := s.queues[st.queue := s.queues[st.queue][1..]]),
                     st.targets, s.copies[id].msg, false);
    }
  }

  /** What a task has sent stays sent, and can only take effect. */
  predicate SentStays(d: Delivery, d': Delivery) {
    d'.forward == d.forward || (d.forward.Sent? && d'.forward == Effective(d.forward.channel))
  }

  /** Steps that are no task's own touch at most whether a republication is in effect and a delivery settled. */
  lemma OtherStepTouches(cfg: Config, s: State, st: Step, s': State)
    requires Effect(cfg, s, st, s') && !IsClientStep(st)
    ensures |s.deliveries| <= |s'.deliveries|
    ensures forall t :: 0 <= t < |s.deliveries| ==>
              var d, d' := s.deliveries[t], s'.deliveries[t];
              d' == d.(forward := d'.forward, settled := d'.settled) && SentStays(d, d')
    ensures forall t :: |s.deliveries| <= t < |s'.deliveries| ==> s'.deliveries[t].pc.Running?
  {
  }
}
