/** What every reachable state of the protocol keeps. */
module Invariants {
  import opened Sums
  import opened Wire
  import opened Pool
  import opened Protocol

  /** Queues hold exactly the ready copies, each once. */
  ghost predicate QueuesOk(cfg: Config, s: State) {
    && s.queues.Keys == cfg.topology.queues.Keys
    && (forall q, i :: q in s.queues && 0 <= i < |s.queues[q]| ==>
          s.queues[q][i] < |s.copies| && s.copies[s.queues[q][i]].place == Ready(q))
    && (forall q :: q in s.queues ==> Distinct(s.queues[q]))
    && (forall c :: 0 <= c < |s.copies| && s.copies[c].place.Ready? ==>
          s.copies[c].place.queue in s.queues && c in s.queues[s.copies[c].place.queue])
  }

  /** A copy is in flight exactly while one unsettled delivery carries it. */
  ghost predicate FlightOk(s: State) {
    && (forall c :: 0 <= c < |s.copies| && s.copies[c].place.InFlight? ==>
          var t := s.copies[c].place.tag;
          t < |s.deliveries| && s.deliveries[t].copy == c && s.deliveries[t].settled.Open?)
    && (forall t :: 0 <= t < |s.deliveries| ==>
          var d := s.deliveries[t];
          && d.copy < |s.copies| && d.msg == s.copies[d.copy].msg
          && (d.settled.Open? ==> s.copies[d.copy].place == InFlight(t)))
  }

  /** The local state of one task: what it has sent, and on which channel. */
  ghost predicate TaskOk(links: seq<Link>, d: Delivery) {
    && d.channel < |links|
    && (d.pc.Running? <==> d.verdict.Pending?)
    && (d.pc.Running? || d.pc.Decided? || d.pc.Holding? ==> d.forward.Unsent?)
    && (d.pc.Holding? || d.pc.Published? || !d.forward.Unsent? ==> MustForward(d))
    && (d.pc.Published? || (d.pc.Done? && MustForward(d)) ==> !d.forward.Unsent?)
    && (d.pc.Holding? ==> d.pc.channel < |links| && (links[d.channel].client ==> d.pc.channel == d.channel))
    && (!d.forward.Unsent? ==>
          d.forward.channel < |links| && (links[d.channel].client || d.pc.Done? ==> d.forward.channel == d.channel))
    && (d.settled.Acked? ==> d.pc.Done? && (d.verdict.Passed? || (MustForward(d) && d.forward.Effective?)))
    && (d.settled.Nacked? ==> d.pc.Done? && d.verdict.Rejected? && d.limit.None?)
    && (d.settled.Requeued? ==> !links[d.channel].broker)
  }

  ghost predicate ConsumerOk(cfg: Config, links: seq<Link>, con: Consumer) {
    con.worker < |cfg.workers| && con.channel < |links|
  }

  ghost predicate OwnerOk(cfg: Config, consumers: seq<Consumer>, d: Delivery) {
    && d.consumer < |consumers|
    && var con := consumers[d.consumer];
       con.worker < |cfg.workers| && d.channel == con.channel && d.queue == cfg.workers[con.worker].queue &&
           d.limit == cfg.workers[con.worker].limit
  }

  ghost predicate TasksOk(cfg: Config, s: State) {
    && OneLive(s.links, s.cached)
    && |s.boots| == |cfg.workers|
    && (forall w :: 0 <= w < |s.boots| ==> (s.boots[w].Opened? || s.boots[w].Limited?) ==>
        s.boots[w].channel < |s.links|)
    && (forall k :: 0 <= k < |s.consumers| ==> ConsumerOk(cfg, s.links, s.consumers[k]))
    && (forall t :: 0 <= t < |s.deliveries| ==>
        TaskOk(s.links, s.deliveries[t]) && OwnerOk(cfg, s.consumers, s.deliveries[t]))
  }

  /** A frame on channel `c` tells the truth about its task; `before` is what precedes it on the wire. */
  ghost predicate FrameOk(deliveries: seq<Delivery>, c: nat, f: Frame, before: seq<Frame>) {
    && f.tag < |deliveries|
    && var d := deliveries[f.tag];
       match f
       case Publish(t, _, _, _) => d.forward == Sent(c) && f == PublishFrame(t, d)
       case Ack(t) =>
         && d.channel == c && d.pc.Done? && d.settled.Open? && f == SettleFrame(t, d)
         && (MustForward(d) ==> d.forward.Effective? || PublishFrame(t, d) in before)
       case Nack(t) => d.channel == c && d.pc.Done? && d.settled.Open? && f == SettleFrame(t, d)
  }

  ghost predicate LinkOk(deliveries: seq<Delivery>, c: nat, l: Link) {
    && (!l.broker ==> l.wire == [])
    && Distinct(l.wire)
    && (forall i :: 0 <= i < |l.wire| ==> FrameOk(deliveries, c, l.wire[i], l.wire[..i]))
    && (forall t :: 0 <= t < |deliveries| && deliveries[t].forward == Sent(c) && l.broker ==>
          PublishFrame(t, deliveries[t]) in l.wire)
  }

  ghost predicate WireOk(s: State) {
    forall c :: 0 <= c < |s.links| ==> LinkOk(s.deliveries, c, s.links[c])
  }

  ghost predicate Inv(cfg: Config, s: State) {
    QueuesOk(cfg, s) && FlightOk(s) && TasksOk(cfg, s) && WireOk(s)
  }

  // ----- queues and flight -----

  lemma EnqueueKeeps(cfg: Config, s: State, q: string, m: Msg, dead: bool)
    requires QueuesOk(cfg, s) && FlightOk(s) && q in s.queues
    ensures var s' := Enqueue(s, q, m, dead);
            && QueuesOk(cfg, s') && FlightOk(s')
            && s'.(copies := s.copies, queues := s.queues) == s && s.copies <= s'.copies
  {
    var s' := Enqueue(s, q, m, dead);
    forall c | 0 <= c < |s'.copies| && s'.copies[c].place.Ready?
      ensures s'.copies[c].place.queue in s'.queues && c in s'.queues[s'.copies[c].place.queue]
    {
      if c == |s.copies| {
        assert s'.queues[q][|s.queues[q]|] == c;
      } else {
        assert c in s.queues[s.copies[c].place.queue];
      }
    }
  }

  lemma {:induction false} EnqueueAllKeeps(cfg: Config, s: State, qs: seq<string>, m: Msg, first: bool)
    requires QueuesOk(cfg, s) && FlightOk(s) && forall q :: q in qs ==> q in s.queues
    ensures var s' := EnqueueAll(s, qs, m, first);
            && QueuesOk(cfg, s') && FlightOk(s')
            && s'.(copies := s.copies, queues := s.queues) == s && s.copies <= s'.copies
  {
    if qs != [] {
      var q := qs[|qs| - 1];
      EnqueueAllKeeps(cfg, s, qs[..|qs| - 1], m, first);
      EnqueueKeeps(cfg, EnqueueAll(s, qs[..|qs| - 1], m, first), q, Entering(m, q, first), false);
    }
  }

  /** Taking the head off a queue and giving its copy another place. */
  lemma PopKeepsQueues(cfg: Config, s: State, q: string, place: Place)
    requires QueuesOk(cfg, s) && q in s.queues && s.queues[q] != [] && !place.Ready?
    ensures QueuesOk(cfg, SetPlace(s, s.queues[q][0], place).(queues := s.queues[q := s.queues[q][1..]]))
  {
    var id := s.queues[q][0];
    var s' := SetPlace(s, id, place).(queues := s.queues[q := s.queues[q][1..]]);
    forall p, i | p in s'.queues && 0 <= i < |s'.queues[p]|
      ensures s'.queues[p][i] < |s'.copies| && s'.copies[s'.queues[p][i]].place == Ready(p)
    {
      if p == q {
        assert s'.queues[p][i] == s.queues[q][i + 1];
      }
    }
    forall c | 0 <= c < |s'.copies| && s'.copies[c].place.Ready?
      ensures s'.copies[c].place.queue in s'.queues && c in s'.queues[s'.copies[c].place.queue]
    {
      assert c in s.queues[s.copies[c].place.queue];
      assert s.queues[q] == [id] + s.queues[q][1..];
    }
  }

  lemma SettleKeeps(cfg: Config, s: State, t: nat, settled: Settled, end: End)
    requires QueuesOk(cfg, s) && FlightOk(s) && t < |s.deliveries| && !settled.Open?
    ensures QueuesOk(cfg, Settle(s, t, settled, end)) && FlightOk(Settle(s, t, settled, end))
  {
    var s' := Settle(s, t, settled, end);
    forall c | 0 <= c < |s'.copies| && s'.copies[c].place.Ready?
      ensures s'.copies[c].place.queue in s'.queues && c in s'.queues[s'.copies[c].place.queue]
    {
      assert c in s.queues[s.copies[c].place.queue];
    }
  }

  function Insert<T>(q: seq<T>, index: nat, x: T): seq<T>
    requires index <= |q|
  {
    q[..index] + [x] + q[index..]
  }

  lemma InsertMembers<T>(q: seq<T>, index: nat, x: T)
    requires index <= |q|
    ensures forall y :: y in Insert(q, index, x) <==> y == x || y in q
    ensures Distinct(q) && x !in q ==> Distinct(Insert(q, index, x))
  {
    assert q == q[..index] + q[index..];
  }

  lemma RequeueKeepsQueues(cfg: Config, s: State, t: nat, index: nat)
    requires QueuesOk(cfg, s) && FlightOk(s) && Enabled(cfg, s, Requeue(t, index))
    ensures QueuesOk(cfg, DoRequeue(s, t, index))
  {
    var s' := DoRequeue(s, t, index);
    var d := s.deliveries[t];
    InsertMembers(s.queues[d.queue], index, d.copy);
    assert s'.queues[d.queue] == Insert(s.queues[d.queue], index, d.copy);
    assert d.copy !in s.queues[d.queue];
    forall p, i | p in s'.queues && 0 <= i < |s'.queues[p]|
      ensures s'.queues[p][i] < |s'.copies| && s'.copies[s'.queues[p][i]].place == Ready(p)
    {
      var y := s'.queues[p][i];
      assert y in s'.queues[p];
      if p != d.queue || y != d.copy {
        var j :| 0 <= j < |s.queues[p]| && s.queues[p][j] == y;
      }
    }
    forall c | 0 <= c < |s'.copies| && s'.copies[c].place.Ready?
      ensures s'.copies[c].place.queue in s'.queues && c in s'.queues[s'.copies[c].place.queue]
    {
      if c != d.copy {
        assert c in s.queues[s.copies[c].place.queue];
      }
    }
  }

  lemma RequeueKeepsFlight(cfg: Config, s: State, t: nat, index: nat)
    requires QueuesOk(cfg, s) && FlightOk(s) && Enabled(cfg, s, Requeue(t, index))
    ensures FlightOk(DoRequeue(s, t, index))
  {
  }

  predicate IsClientStep(st: Step) {
    st.Handle? || st.Take? || st.SendPublish? || st.SendSettle? || st.GiveUp?
  }

  /** The client's own steps change neither queues nor copies nor anything that ties deliveries to them. */
  lemma ClientStepKeepsQueues(cfg: Config, s: State, st: Step)
    requires QueuesOk(cfg, s) && FlightOk(s) && IsClientStep(st) && Enabled(cfg, s, st)
    ensures QueuesOk(cfg, Apply(cfg, s, st)) && FlightOk(Apply(cfg, s, st))
  {
    var s' := Apply(cfg, s, st);
    assert s'.queues == s.queues && s'.copies == s.copies;
    assert s'.deliveries == s.deliveries[st.t := s'.deliveries[st.t]];
  }

  lemma {:induction false} QueuesKept(cfg: Config, s: State, st: Step)
    requires QueuesOk(cfg, s) && FlightOk(s)
    ensures QueuesOk(cfg, Next(cfg, s, st)) && FlightOk(Next(cfg, s, st))
  {
    if Enabled(cfg, s, st) {
      if IsClientStep(st) {
        ClientStepKeepsQueues(cfg, s, st);
      } else if st.External? {
        EnqueueAllKeeps(cfg, s.(origins := s.origins + [Origin(st.payload, st.headers, st.targets)]), st.targets,
                        NewMsg(s, st.payload, st.headers), true);
      } else if st.Deliver? {
        DeliverKeepsQueues(cfg, s, st.k);
      } else if st.Process? {
        ProcessKeepsQueues(cfg, s, st.c);
      } else if st.Expire? {
        ExpireKeepsQueues(cfg, s, st.queue, st.targets);
      } else if st.Requeue? {
        RequeueKeepsQueues(cfg, s, st.t, st.index);
        RequeueKeepsFlight(cfg, s, st.t, st.index);
      } else {
        var s' := Next(cfg, s, st);
        assert s'.queues == s.queues && s'.copies == s.copies && s'.deliveries == s.deliveries;
      }
    }
  }

  lemma DeliverKeepsQueues(cfg: Config, s: State, k: nat)
    requires QueuesOk(cfg, s) && FlightOk(s) && CanDeliver(cfg, s, k)
    ensures QueuesOk(cfg, DoDeliver(cfg, s, k)) && FlightOk(DoDeliver(cfg, s, k))
  {
    PopKeepsQueues(cfg, s, QueueOf(cfg, s, k), InFlight(|s.deliveries|));
  }

  lemma ExpireKeepsQueues(cfg: Config, s: State, queue: string, targets: seq<string>)
    requires QueuesOk(cfg, s) && FlightOk(s) && CanExpire(cfg, s, queue, targets)
    ensures QueuesOk(cfg, DoExpire(s, queue, targets)) && FlightOk(DoExpire(s, queue, targets))
  {
    PopKeepsQueues(cfg, s, queue, Finished(Released));
    var id := s.queues[queue][0];
    EnqueueAllKeeps(cfg, SetPlace(s, id, Finished(Released)).(queues := s.queues[queue := s.queues[queue][1..]]),
                    targets, s.copies[id].msg, false);
  }

  lemma {:induction false} ProcessKeepsQueues(cfg: Config, s: State, c: nat)
    requires QueuesOk(cfg, s) && FlightOk(s) && Enabled(cfg, s, Process(c))
    ensures QueuesOk(cfg, DoProcess(s, c)) && FlightOk(DoProcess(s, c))
  {
    var f := s.links[c].wire[0];
    var s1 := SetLink(s, c, s.links[c].(wire := s.links[c].wire[1..]));
    match f
    case Publish(t, key, _, _) =>
      var d := s.deliveries[t];
      var s2 := SetTask(s1, t, d.(forward := Effective(c)));
      if key in s.queues {
        EnqueueKeeps(cfg, s2, key, Republished(d, f, s.now), !Retries(d));
      }
    case Ack(t) =>
      SettleKeeps(cfg, s1, t, Acked, if s.deliveries[t].verdict.Passed? then Succeeded(t) else Forwarded(t));
    case Nack(t) => SettleKeeps(cfg, s1, t, Nacked, Discarded(t));
  }

  // ----- tasks -----

  lemma AcquireKeepsTasks(cfg: Config, s: State, canCreate: bool)
    requires TasksOk(cfg, s)
    ensures var g := Acquire(s.links, s.cached, canCreate);
            TasksOk(cfg, s.(links := g.links, cached := g.cached))
  {
    var g := Acquire(s.links, s.cached, canCreate);
    forall t | 0 <= t < |s.deliveries|
      ensures TaskOk(g.links, s.deliveries[t])
    {
      assert TaskOk(s.links, s.deliveries[t]);
    }
  }

  /** Links may only be extended or closed, never reopened. */
  ghost predicate LinksAge(links: seq<Link>, links': seq<Link>) {
    && |links| == |links'|
    && forall c :: 0 <= c < |links| ==> (links'[c].client ==> links[c].client) && (links'[c].broker ==> links[c].broker)
  }

  /** Changing one task and ageing the links keeps everyone else's local state. */
  lemma OneTaskKeepsTasks(cfg: Config, s: State, s': State, t: nat)
    requires TasksOk(cfg, s) && t < |s.deliveries|
    requires LinksAge(s.links, s'.links) && s'.cached == s.cached && s'.boots == s.boots && s'.consumers == s.consumers
    requires |s'.deliveries| == |s.deliveries| && s'.deliveries == s.deliveries[t := s'.deliveries[t]]
    requires TaskOk(s'.links, s'.deliveries[t])
    requires var d, d' := s.deliveries[t], s'.deliveries[t];
             d'.consumer == d.consumer && d'.channel == d.channel && d'.queue == d.queue && d'.limit == d.limit
    ensures TasksOk(cfg, s')
  {
    forall u | 0 <= u < |s'.deliveries|
      ensures TaskOk(s'.links, s'.deliveries[u]) && OwnerOk(cfg, s'.consumers, s'.deliveries[u])
    {
      assert TaskOk(s.links, s.deliveries[u]) && OwnerOk(cfg, s.consumers, s.deliveries[u]);
    }
  }

  /** Taking a channel for the republication: while the delivery's own channel lives, it is the one handed out. */
  lemma TakeKeepsTasks(cfg: Config, s: State, t: nat, canCreate: bool)
    requires TasksOk(cfg, s) && Enabled(cfg, s, Take(t, canCreate))
    ensures TasksOk(cfg, Apply(cfg, s, Take(t, canCreate)))
  {
    var s' := Apply(cfg, s, Take(t, canCreate));
    AcquireKeepsTasks(cfg, s, canCreate);
    var g := Acquire(s.links, s.cached, canCreate);
    var s1 := s.(links := g.links, cached := g.cached);
    assert TaskOk(s1.links, s1.deliveries[t]);
    AcquireHandsOutTheOnlyLiveChannel(s.links, s.cached, canCreate);
    OneTaskKeepsTasks(cfg, s1, s', t);
  }

  lemma {:induction false} ClientStepKeepsTasks(cfg: Config, s: State, st: Step)
    requires TasksOk(cfg, s) && WireOk(s) && IsClientStep(st) && Enabled(cfg, s, st)
    ensures TasksOk(cfg, Apply(cfg, s, st))
  {
    if st.Take? {
      TakeKeepsTasks(cfg, s, st.t, st.canCreate);
    } else {
      assert TaskOk(s.links, s.deliveries[st.t]);
      OneTaskKeepsTasks(cfg, s, Apply(cfg, s, st), st.t);
    }
  }

  lemma ProcessedTaskOk(cfg: Config, s: State, c: nat)
    requires TasksOk(cfg, s) && WireOk(s) && Enabled(cfg, s, Process(c))
    ensures TaskOk(s.links, DoProcess(s, c).deliveries[s.links[c].wire[0].tag])
  {
    var f := s.links[c].wire[0];
    assert LinkOk(s.deliveries, c, s.links[c]);
    assert FrameOk(s.deliveries, c, f, []) by { assert s.links[c].wire[..0] == []; }
    assert TaskOk(s.links, s.deliveries[f.tag]);
  }

  lemma TaskAges(links: seq<Link>, links': seq<Link>, d: Delivery)
    requires LinksAge(links, links') && TaskOk(links, d)
    ensures TaskOk(links', d)
  {
  }

  lemma {:induction false} ProcessKeepsTasks(cfg: Config, s: State, c: nat)
    requires TasksOk(cfg, s) && WireOk(s) && Enabled(cfg, s, Process(c))
    ensures TasksOk(cfg, DoProcess(s, c))
  {
    var s' := DoProcess(s, c);
    var t := s.links[c].wire[0].tag;
    ProcessedTaskOk(cfg, s, c);
    assert s'.links == s.links[c := s.links[c].(wire := s.links[c].wire[1..])];
    TaskAges(s.links, s'.links, s'.deliveries[t]);
    OneTaskKeepsTasks(cfg, s, s', t);
  }

  lemma DeliverKeepsTasks(cfg: Config, s: State, k: nat)
    requires TasksOk(cfg, s) && CanDeliver(cfg, s, k)
    ensures TasksOk(cfg, DoDeliver(cfg, s, k))
  {
    assert ConsumerOk(cfg, s.links, s.consumers[k]);
    var s' := DoDeliver(cfg, s, k);
    forall u | 0 <= u < |s.deliveries|
      ensures TaskOk(s'.links, s'.deliveries[u]) && OwnerOk(cfg, s'.consumers, s'.deliveries[u])
    {
      assert TaskOk(s.links, s.deliveries[u]) && OwnerOk(cfg, s.consumers, s.deliveries[u]);
    }
  }

  /** Steps that touch neither deliveries nor the pool's slot. */
  lemma QuietKeepsTasks(cfg: Config, s: State, s': State)
    requires TasksOk(cfg, s)
    requires LinksAge(s.links, s'.links) && s'.cached == s.cached && s'.deliveries == s.deliveries
    requires |s'.boots| == |s.boots| && s.consumers <= s'.consumers
    requires forall w :: 0 <= w < |s'.boots| ==> s'.boots[w].Opened? || s'.boots[w].Limited? ==>
             s'.boots[w].channel < |s'.links|
    requires forall k :: |s.consumers| <= k < |s'.consumers| ==> ConsumerOk(cfg, s'.links, s'.consumers[k])
    ensures TasksOk(cfg, s')
  {
    forall k | 0 <= k < |s'.consumers|
      ensures ConsumerOk(cfg, s'.links, s'.consumers[k])
    {
      if k < |s.consumers| {
        assert ConsumerOk(cfg, s.links, s.consumers[k]);
      }
    }
    forall u | 0 <= u < |s'.deliveries|
      ensures TaskOk(s'.links, s'.deliveries[u]) && OwnerOk(cfg, s'.consumers, s'.deliveries[u])
    {
      assert TaskOk(s.links, s.deliveries[u]) && OwnerOk(cfg, s.consumers, s.deliveries[u]);
    }
  }

  lemma {:induction false} EnqueueAllFrame(s: State, qs: seq<string>, m: Msg, first: bool)
    requires forall q :: q in qs ==> q in s.queues
    ensures EnqueueAll(s, qs, m, first).(copies := s.copies, queues := s.queues) == s
  {
    if qs != [] {
      EnqueueAllFrame(s, qs[..|qs| - 1], m, first);
    }
  }

  /** Steps that touch no task: start-up, publishes, expiry, channels closing, time. */
  lemma BackgroundKeepsTasks(cfg: Config, s: State, st: Step)
    requires TasksOk(cfg, s) && Enabled(cfg, s, st)
    requires !IsClientStep(st) && !st.Process? && !st.Deliver? && !st.Requeue? && !st.BootOpen? && !st.Borrow?
    ensures TasksOk(cfg, Apply(cfg, s, st))
  {
    if st.External? {
      EnqueueAllFrame(s.(origins := s.origins + [Origin(st.payload, st.headers, st.targets)]), st.targets,
                      NewMsg(s, st.payload, st.headers), true);
    } else if st.Expire? {
      var id := s.queues[st.queue][0];
      EnqueueAllFrame(SetPlace(s, id, Finished(Released)).(queues := s.queues[st.queue := s.queues[st.queue][1..]]),
                      st.targets, s.copies[id].msg, false);
    }
    QuietKeepsTasks(cfg, s, Apply(cfg, s, st));
  }

  lemma {:induction false} TasksKept(cfg: Config, s: State, st: Step)
    requires TasksOk(cfg, s) && WireOk(s)
    ensures TasksOk(cfg, Next(cfg, s, st))
  {
    var s' := Next(cfg, s, st);
    if Enabled(cfg, s, st) {
      if IsClientStep(st) {
        ClientStepKeepsTasks(cfg, s, st);
      } else if st.Process? {
        ProcessKeepsTasks(cfg, s, st.c);
      } else if st.Deliver? {
        DeliverKeepsTasks(cfg, s, st.k);
      } else if st.Requeue? {
        assert TaskOk(s.links, s.deliveries[st.t]);
        OneTaskKeepsTasks(cfg, s, s', st.t);
      } else if st.BootOpen? || st.Borrow? {
        var g := Acquire(s.links, s.cached, st.canCreate);
        AcquireKeepsTasks(cfg, s, st.canCreate);
        QuietKeepsTasks(cfg, s.(links := g.links, cached := g.cached), s');
      } else {
        BackgroundKeepsTasks(cfg, s, st);
      }
    }
  }

  // ----- the wire -----

  /** A task about to publish has no frame out yet. */
  lemma OldFramesStay(s: State, t: nat, c: nat, i: nat)
    requires t < |s.deliveries| && c < |s.links| && LinkOk(s.deliveries, c, s.links[c]) && i < |s.links[c].wire|
    requires s.deliveries[t].pc.Holding? && s.deliveries[t].forward.Unsent?
    ensures var d, wire := s.deliveries[t], s.links[c].wire;
            && FrameOk(s.deliveries[t := d.(pc := Published, forward := Sent(d.pc.channel))], c, wire[i], wire[..i])
            && wire[i].tag != t
  {
    assert FrameOk(s.deliveries, c, s.links[c].wire[i], s.links[c].wire[..i]);
  }

  lemma PublishKeepsLink(s: State, t: nat, c: nat)
    requires t < |s.deliveries| && c < |s.links| && LinkOk(s.deliveries, c, s.links[c])
    requires s.deliveries[t].pc.Holding? && s.deliveries[t].forward.Unsent?
    ensures var d, l := s.deliveries[t], s.links[c];
            LinkOk(s.deliveries[t := d.(pc := Published, forward := Sent(d.pc.channel))], c,
                   if c == d.pc.channel then Send(l, PublishFrame(t, d)) else l)
  {
    var d, l := s.deliveries[t], s.links[c];
    var ds := s.deliveries[t := d.(pc := Published, forward := Sent(d.pc.channel))];
    var l' := if c == d.pc.channel then Send(l, PublishFrame(t, d)) else l;
    assert PublishFrame(t, ds[t]) == PublishFrame(t, d);
    forall i | 0 <= i < |l'.wire|
      ensures FrameOk(ds, c, l'.wire[i], l'.wire[..i])
      ensures i < |l.wire| ==> l.wire[i].tag != t
    {
      if i < |l.wire| {
        OldFramesStay(s, t, c, i);
        assert l'.wire[..i] == l.wire[..i];
      }
    }
    forall u | 0 <= u < |ds| && ds[u].forward == Sent(c) && l'.broker
      ensures PublishFrame(u, ds[u]) in l'.wire
    {
      if u == t {
        assert l'.wire[|l.wire|] == PublishFrame(t, d);
      } else {
        assert PublishFrame(u, s.deliveries[u]) in l.wire;
      }
    }
  }

  lemma SendPublishKeepsWire(cfg: Config, s: State, t: nat)
    requires TasksOk(cfg, s) && WireOk(s) && Enabled(cfg, s, SendPublish(t))
    ensures WireOk(Apply(cfg, s, SendPublish(t)))
  {
    var s' := Apply(cfg, s, SendPublish(t));
    assert TaskOk(s.links, s.deliveries[t]);
    forall c | 0 <= c < |s'.links|
      ensures LinkOk(s'.deliveries, c, s'.links[c])
    {
      PublishKeepsLink(s, t, c);
    }
  }

  /** The heart of the publish-before-acknowledge order: the acknowledgement goes out on the delivery's own channel,
      which, being live, is also the channel the republication went out on. */
  lemma SettleFrameOk(cfg: Config, s: State, t: nat)
    requires TasksOk(cfg, s) && WireOk(s) && Enabled(cfg, s, SendSettle(t)) && s.links[s.deliveries[t].channel].broker
    ensures var d := s.deliveries[t];
            FrameOk(s.deliveries[t := d.(pc := Done)], d.channel, SettleFrame(t, d), s.links[d.channel].wire)
  {
    var d := s.deliveries[t];
    assert TaskOk(s.links, d) && LinkOk(s.deliveries, d.channel, s.links[d.channel]);
  }

  /** A task about to settle has no settling frame out yet; being done changes nothing for what is on the wires. */
  lemma DoneKeepsLink(s: State, t: nat, c: nat)
    requires t < |s.deliveries| && c < |s.links| && LinkOk(s.deliveries, c, s.links[c])
    requires s.deliveries[t].pc.Decided? || s.deliveries[t].pc.Published?
    ensures var d, l := s.deliveries[t], s.links[c];
            LinkOk(s.deliveries[t := d.(pc := Done)], c, l) && SettleFrame(t, d) !in l.wire
  {
    var d, l := s.deliveries[t], s.links[c];
    forall i | 0 <= i < |l.wire|
      ensures FrameOk(s.deliveries[t := d.(pc := Done)], c, l.wire[i], l.wire[..i])
      ensures l.wire[i].tag == t ==> l.wire[i].Publish?
    {
      assert FrameOk(s.deliveries, c, l.wire[i], l.wire[..i]);
    }
    SettleKeepsSent(s, t, c, l.wire);
  }

  lemma SendKeepsLink(ds: seq<Delivery>, c: nat, l: Link, f: Frame)
    requires LinkOk(ds, c, l) && (l.broker ==> FrameOk(ds, c, f, l.wire)) && f !in l.wire
    ensures LinkOk(ds, c, Send(l, f))
  {
    var l' := Send(l, f);
    forall i | 0 <= i < |l'.wire|
      ensures FrameOk(ds, c, l'.wire[i], l'.wire[..i])
    {
      if i < |l.wire| {
        assert l'.wire[..i] == l.wire[..i];
      } else {
        assert l'.wire[..i] == l.wire;
      }
    }
  }

  lemma SendSettleKeepsWire(cfg: Config, s: State, t: nat)
    requires TasksOk(cfg, s) && WireOk(s) && Enabled(cfg, s, SendSettle(t))
    ensures WireOk(Apply(cfg, s, SendSettle(t)))
  {
    var s', d := Apply(cfg, s, SendSettle(t)), s.deliveries[t];
    assert s'.links == s.links[d.channel := Send(s.links[d.channel], SettleFrame(t, d))];
    assert s'.deliveries == s.deliveries[t := d.(pc := Done)];
    forall c | 0 <= c < |s'.links|
      ensures LinkOk(s'.deliveries, c, s'.links[c])
    {
      DoneKeepsLink(s, t, c);
      if c == d.channel {
        if s.links[c].broker {
          SettleFrameOk(cfg, s, t);
        }
        SendKeepsLink(s'.deliveries, c, s.links[c], SettleFrame(t, d));
      }
    }
  }

  lemma SettleKeepsSent(s: State, t: nat, c: nat, wire: seq<Frame>)
    requires t < |s.deliveries| && c < |s.links| && LinkOk(s.deliveries, c, s.links[c]) && s.links[c].wire <= wire
    ensures var ds := s.deliveries[t := s.deliveries[t].(pc := Done)];
            forall u :: 0 <= u < |ds| && ds[u].forward == Sent(c) && s.links[c].broker ==>
                PublishFrame(u, ds[u]) in wire
  {
    var ds := s.deliveries[t := s.deliveries[t].(pc := Done)];
    forall u | 0 <= u < |ds| && ds[u].forward == Sent(c) && s.links[c].broker
      ensures PublishFrame(u, ds[u]) in wire
    {
      assert PublishFrame(u, s.deliveries[u]) in s.links[c].wire;
    }
  }

  /** What is left on channel `e` after the head `f` of channel `c` was processed still tells the truth. */
  lemma ProcessKeepsFrame(cfg: Config, s: State, c: nat, e: nat, i: nat)
    requires TasksOk(cfg, s) && WireOk(s) && Enabled(cfg, s, Process(c))
    requires e < |s.links| && i < |s.links[e].wire| && (e == c ==> i > 0)
    ensures var before := s.links[e].wire[..i];
            FrameOk(DoProcess(s, c).deliveries, e, s.links[e].wire[i], if e == c then before[1..] else before)
  {
    var f, g := s.links[c].wire[0], s.links[e].wire[i];
    assert LinkOk(s.deliveries, c, s.links[c]) && LinkOk(s.deliveries, e, s.links[e]);
    assert FrameOk(s.deliveries, c, f, []) by { assert s.links[c].wire[..0] == []; }
    var before := s.links[e].wire[..i];
    assert FrameOk(s.deliveries, e, g, before);
    assert e == c ==> g != f && before == [f] + before[1..];
    HeadChangesTask(s, c, f);
    FrameOutlivesHead(s.deliveries, DoProcess(s, c).deliveries, c, f, e, g, before, if e == c then before[1..]
        else before);
  }

  /** Processing the head of a channel: its publish takes effect, or its delivery is settled. */
  lemma HeadChangesTask(s: State, c: nat, f: Frame)
    requires c < |s.links| && s.links[c].wire != [] && f == s.links[c].wire[0] && f.tag < |s.deliveries|
    ensures var d, ds := s.deliveries[f.tag], DoProcess(s, c).deliveries;
            && |ds| == |s.deliveries|
            && ds == s.deliveries[f.tag := ds[f.tag]]
            && ds[f.tag] == d.(forward := ds[f.tag].forward, settled := ds[f.tag].settled)
            && (f.Publish? ==> ds[f.tag] == d.(forward := Effective(c)))
            && (!f.Publish? ==> ds[f.tag].forward == d.forward)
  {
  }

  /** What stands on a wire stays true when a frame elsewhere, or the one before it, is processed. */
  lemma FrameOutlivesHead(ds: seq<Delivery>, ds': seq<Delivery>, c: nat, f: Frame, e: nat, g: Frame,
      before: seq<Frame>, left: seq<Frame>)
    requires FrameOk(ds, c, f, []) && FrameOk(ds, e, g, before) && (e == c ==> g != f && before == [f] + left)
    requires e != c ==> left == before
    requires |ds'| == |ds| && ds' == ds[f.tag := ds'[f.tag]]
    requires ds'[f.tag] == ds[f.tag].(forward := ds'[f.tag].forward, settled := ds'[f.tag].settled)
    requires if f.Publish? then ds'[f.tag] == ds[f.tag].(forward := Effective(c))
             else ds'[f.tag].forward == ds[f.tag].forward
    ensures FrameOk(ds', e, g, left)
  {
  }

  lemma {:induction false} ProcessKeepsLink(cfg: Config, s: State, c: nat, e: nat)
    requires TasksOk(cfg, s) && WireOk(s) && Enabled(cfg, s, Process(c)) && e < |s.links|
    ensures var l := s.links[e];
            LinkOk(DoProcess(s, c).deliveries, e, if e == c then l.(wire := l.wire[1..]) else l)
  {
    var s', l := DoProcess(s, c), s.links[e];
    var l' := if e == c then l.(wire := l.wire[1..]) else l;
    assert LinkOk(s.deliveries, e, l);
    assert s'.links[e] == l';
    forall i | 0 <= i < |l'.wire|
      ensures FrameOk(s'.deliveries, e, l'.wire[i], l'.wire[..i])
    {
      if e == c {
        ProcessKeepsFrame(cfg, s, c, e, i + 1);
        assert l.wire[..i + 1][1..] == l'.wire[..i];
      } else {
        ProcessKeepsFrame(cfg, s, c, e, i);
      }
    }
    forall u | 0 <= u < |s'.deliveries| && s'.deliveries[u].forward == Sent(e) && l'.broker
      ensures PublishFrame(u, s'.deliveries[u]) in l'.wire
    {
      ProcessKeepsSent(cfg, s, c, e, u);
    }
  }

  lemma {:induction false} ProcessKeepsWire(cfg: Config, s: State, c: nat)
    requires TasksOk(cfg, s) && WireOk(s) && Enabled(cfg, s, Process(c))
    ensures WireOk(DoProcess(s, c))
  {
    var s' := DoProcess(s, c);
    forall e | 0 <= e < |s'.links|
      ensures LinkOk(s'.deliveries, e, s'.links[e])
    {
      ProcessKeepsLink(cfg, s, c, e);
    }
  }

  lemma ProcessKeepsSent(cfg: Config, s: State, c: nat, e: nat, u: nat)
    requires TasksOk(cfg, s) && WireOk(s) && Enabled(cfg, s, Process(c))
    requires e < |s.links| && s.links[e].broker
    requires u < |s.deliveries| && DoProcess(s, c).deliveries[u].forward == Sent(e)
    ensures PublishFrame(u, DoProcess(s, c).deliveries[u]) in DoProcess(s, c).links[e].wire
  {
    var f := s.links[c].wire[0];
    assert LinkOk(s.deliveries, e, s.links[e]) && LinkOk(s.deliveries, c, s.links[c]);
    assert FrameOk(s.deliveries, c, f, []) by { assert s.links[c].wire[..0] == []; }
    assert PublishFrame(u, s.deliveries[u]) in s.links[e].wire;
    assert s.links[c].wire == [f] + s.links[c].wire[1..];
  }

  /** Everything else leaves frames and the tasks they speak of alone, or closes a channel, or opens a fresh one. */
  lemma QuietKeepsWire(cfg: Config, s: State, s': State)
    requires TasksOk(cfg, s) && WireOk(s)
    requires s.deliveries == s'.deliveries && |s.links| <= |s'.links|
    requires forall c :: 0 <= c < |s.links| ==>
               s'.links[c].(client := s.links[c].client, qos := s.links[c].qos) in {s.links[c],
                   s.links[c].(broker := false, wire := [])}
    requires forall c :: |s.links| <= c < |s'.links| ==> s'.links[c] == FRESH
    ensures WireOk(s')
  {
    forall c | 0 <= c < |s'.links|
      ensures LinkOk(s'.deliveries, c, s'.links[c])
    {
      if c < |s.links| {
        assert LinkOk(s.deliveries, c, s.links[c]);
        forall i | 0 <= i < |s'.links[c].wire|
          ensures FrameOk(s'.deliveries, c, s'.links[c].wire[i], s'.links[c].wire[..i])
        {
          assert FrameOk(s.deliveries, c, s.links[c].wire[i], s.links[c].wire[..i]);
        }
      } else {
        forall t | 0 <= t < |s.deliveries|
          ensures s.deliveries[t].forward != Sent(c)
        {
          assert TaskOk(s.links, s.deliveries[t]);
        }
      }
    }
  }

  /** A task that only moves on locally, or is dropped by a closed channel, has no frame that would notice. */
  lemma LocalKeepsWire(cfg: Config, s: State, s': State, t: nat)
    requires TasksOk(cfg, s) && WireOk(s) && t < |s.deliveries|
    requires s'.links == s.links && |s'.deliveries| == |s.deliveries|
    requires s'.deliveries == s.deliveries[t := s'.deliveries[t]]
    requires var d, d' := s.deliveries[t], s'.deliveries[t];
             && d'.forward == d.forward && PublishFrame(t, d') == PublishFrame(t, d)
             && (!d.pc.Done? || (d.channel < |s.links| && !s.links[d.channel].broker))
    ensures WireOk(s')
  {
    forall c | 0 <= c < |s'.links|
      ensures LinkOk(s'.deliveries, c, s'.links[c])
    {
      assert LinkOk(s.deliveries, c, s.links[c]);
      var l := s.links[c];
      forall i | 0 <= i < |l.wire|
        ensures FrameOk(s'.deliveries, c, l.wire[i], l.wire[..i])
      {
        assert FrameOk(s.deliveries, c, l.wire[i], l.wire[..i]);
      }
      forall u | 0 <= u < |s'.deliveries| && s'.deliveries[u].forward == Sent(c) && l.broker
        ensures PublishFrame(u, s'.deliveries[u]) in l.wire
      {
        assert PublishFrame(u, s.deliveries[u]) in l.wire;
      }
    }
  }

  lemma DeliverKeepsWire(cfg: Config, s: State, k: nat)
    requires TasksOk(cfg, s) && WireOk(s) && CanDeliver(cfg, s, k)
    ensures WireOk(DoDeliver(cfg, s, k))
  {
    var s' := DoDeliver(cfg, s, k);
    forall c | 0 <= c < |s'.links|
      ensures LinkOk(s'.deliveries, c, s'.links[c])
    {
      assert LinkOk(s.deliveries, c, s.links[c]);
      var l := s.links[c];
      forall i | 0 <= i < |l.wire|
        ensures FrameOk(s'.deliveries, c, l.wire[i], l.wire[..i])
      {
        assert FrameOk(s.deliveries, c, l.wire[i], l.wire[..i]);
      }
      forall u | 0 <= u < |s'.deliveries| && s'.deliveries[u].forward == Sent(c) && l.broker
        ensures PublishFrame(u, s'.deliveries[u]) in l.wire
      {
        assert PublishFrame(u, s.deliveries[u]) in l.wire;
      }
    }
  }

  lemma TakeKeepsWire(cfg: Config, s: State, t: nat, canCreate: bool)
    requires TasksOk(cfg, s) && WireOk(s) && Enabled(cfg, s, Take(t, canCreate))
    ensures WireOk(Apply(cfg, s, Take(t, canCreate)))
  {
    var g := Acquire(s.links, s.cached, canCreate);
    var s1 := s.(links := g.links, cached := g.cached);
    QuietKeepsWire(cfg, s, s1);
    AcquireKeepsTasks(cfg, s, canCreate);
    LocalKeepsWire(cfg, s1, Apply(cfg, s, Take(t, canCreate)), t);
  }

  /** Start-up, arrivals, expiry, closings and the clock. */
  lemma BackgroundKeepsWire(cfg: Config, s: State, st: Step)
    requires TasksOk(cfg, s) && WireOk(s) && Enabled(cfg, s, st)
    requires !IsClientStep(st) && !st.Process? && !st.Deliver? && !st.Requeue?
    ensures WireOk(Apply(cfg, s, st))
  {
    if st.External? {
      EnqueueAllFrame(s.(origins := s.origins + [Origin(st.payload, st.headers, st.targets)]), st.targets,
                      NewMsg(s, st.payload, st.headers), true);
    } else if st.Expire? {
      var id := s.queues[st.queue][0];
      EnqueueAllFrame(SetPlace(s, id, Finished(Released)).(queues := s.queues[st.queue := s.queues[st.queue][1..]]),
                      st.targets, s.copies[id].msg, false);
    }
    QuietKeepsWire(cfg, s, Apply(cfg, s, st));
  }

  lemma {:induction false} WireKept(cfg: Config, s: State, st: Step)
    requires TasksOk(cfg, s) && WireOk(s)
    ensures WireOk(Next(cfg, s, st))
  {
    if Enabled(cfg, s, st) {
      if st.SendPublish? {
        SendPublishKeepsWire(cfg, s, st.t);
      } else if st.SendSettle? {
        SendSettleKeepsWire(cfg, s, st.t);
      } else if st.Process? {
        ProcessKeepsWire(cfg, s, st.c);
      } else if st.Deliver? {
        DeliverKeepsWire(cfg, s, st.k);
      } else if st.Take? {
        TakeKeepsWire(cfg, s, st.t, st.canCreate);
      } else if st.Handle? || st.GiveUp? || st.Requeue? {
        LocalKeepsWire(cfg, s, Apply(cfg, s, st), st.t);
      } else {
        BackgroundKeepsWire(cfg, s, st);
      }
    }
  }

  // ----- every run -----

  lemma {:induction false} NextKeepsInv(cfg: Config, s: State, st: Step)
    requires Inv(cfg, s)
    ensures Inv(cfg, Next(cfg, s, st))
  {
    QueuesKept(cfg, s, st);
    TasksKept(cfg, s, st);
    WireKept(cfg, s, st);
  }

  lemma {:induction false} ExecKeepsInv(cfg: Config, s: State, steps: seq<Step>)
    requires Inv(cfg, s)
    ensures Inv(cfg, Exec(cfg, s, steps))
  {
    if steps != [] {
      ExecKeepsInv(cfg, s, steps[..|steps| - 1]);
      NextKeepsInv(cfg, Exec(cfg, s, steps[..|steps| - 1]), steps[|steps| - 1]);
    }
  }

  /** Every state of every run: queues hold exactly the ready copies, every unsettled delivery is unacknowledged at
      the broker, at most one channel is live, and an acknowledgement on the wire of a failed message is preceded on
      the same channel by its republication or comes after the broker has processed it. */
  lemma RunKeepsInv(cfg: Config, steps: seq<Step>)
    ensures Inv(cfg, Run(cfg, steps))
  {
    ExecKeepsInv(cfg, Init(cfg), steps);
  }
}
