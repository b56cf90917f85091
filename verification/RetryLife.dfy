/** The life of one message across its retries: its counter, its headers, and the clock (src/subscriber.rs:218,
    :232-235, :531-590). */
module RetryLife {
  import opened Wrappers
  import opened Sums
  import opened Amqp
  import opened Routing
  import opened Protocol
  import opened Invariants
  import opened Effects
  import opened Ledger

  /** The settings a realm shares: no retry queue lets go before `delay` and, if `limit` is given, every worker that
      retries does so `limit` times. */
  ghost predicate Uniform(cfg: Config, reach: set<string>, limit: Option<u32>, delay: nat) {
    && Realm(cfg, reach)
    && forall w :: 0 <= w < |cfg.workers| && cfg.workers[w].queue in reach && cfg.workers[w].limit.Some? ==>
         var r := RetryQueue(cfg.workers[w].queue);
         && (limit.Some? ==> cfg.workers[w].limit == limit)
         && (Expires(cfg.topology, r) ==> delay <= cfg.topology.queues[r].deadLetter.value.ttl)
  }

  /** Consecutive failures at least `delay` apart. */
  predicate Spaced(trail: seq<nat>, delay: nat) {
    forall i :: 0 <= i < |trail| - 1 ==> trail[i] + delay <= trail[i + 1]
  }

  /** `time` is at least `delay` after the last failure, if there was one. */
  predicate Rested(trail: seq<nat>, delay: nat, time: nat) {
    trail == [] || trail[|trail| - 1] + delay <= time
  }

  /** Counter and headers of a message that has failed |trail| times since publish `origin`. */
  predicate Counted(origin: Origin, m: Msg, limit: Option<u32>) {
    && Count(m) == RetryCount(origin.headers) + |m.trail|
    && (limit.Some? ==> Count(m) <= Max(RetryCount(origin.headers), limit.value))
    && (m.trail == [] ==> m.headers == origin.headers)
    && (m.trail != [] ==> m.headers.Some? && m.headers.value.Keys == {RETRY_COUNT})
  }

  predicate Consumable(cfg: Config, p: Place) {
    match p
    case Ready(q) => IsMain(cfg, q)
    case InFlight(_) => true
    case Finished(end) => !end.Released?
  }

  ghost predicate LifeOfCopy(cfg: Config, s: State, c: Copy, limit: Option<u32>, delay: nat) {
    && c.msg.origin < |s.origins|
    && var origin := s.origins[c.msg.origin];
    && Spaced(c.msg.trail, delay) && Rested(c.msg.trail, 0, c.at) && c.at <= s.now
    && (Consumable(cfg, c.place) ==> !c.dead && Rested(c.msg.trail, delay, c.at))
    && (!c.dead ==> Counted(origin, c.msg, limit))
    && (c.dead ==>
          && c.place.Ready? && !Expires(cfg.topology, c.place.queue)
          && c.msg.trail != []
          && (limit.Some? ==> |c.msg.trail| == Max(0, limit.value - RetryCount(origin.headers)) + 1)
          && c.at == c.msg.trail[|c.msg.trail| - 1] && c.msg.headers.None?)
  }

  ghost predicate LifeOfTask(s: State, d: Delivery, limit: Option<u32>, delay: nat) {
    && d.msg.origin < |s.origins|
    && Spaced(d.msg.trail, delay) && Rested(d.msg.trail, delay, d.at) && d.at <= s.now
    && Counted(s.origins[d.msg.origin], d.msg, limit)
  }

  ghost predicate LifeOk(cfg: Config, s: State, o: Line, limit: Option<u32>, delay: nat) {
    && (forall c :: 0 <= c < |s.copies| && Of(s.copies[c].msg, o) ==> LifeOfCopy(cfg, s, s.copies[c], limit, delay))
    && (forall t :: 0 <= t < |s.deliveries| && Of(s.deliveries[t].msg, o) ==>
        LifeOfTask(s, s.deliveries[t], limit, delay))
  }

  lemma SpacedAppend(trail: seq<nat>, delay: nat, time: nat)
    requires Spaced(trail, delay) && Rested(trail, delay, time)
    ensures Spaced(trail + [time], delay)
  {
    var t' := trail + [time];
    forall i | 0 <= i < |t'| - 1
      ensures t'[i] + delay <= t'[i + 1]
    {
      if i < |trail| - 1 {
        assert trail[i] + delay <= trail[i + 1];
      }
    }
  }

  /** What a failed attempt leaves behind: one more failure on the trail, and either the counter one up or a dead
      letter. */
  lemma ForwardLife(cfg: Config, reach: set<string>, s: State, d: Delivery, w: nat, limit: Option<u32>, delay: nat)
    requires Uniform(cfg, reach, limit, delay) && LifeOfTask(s, d, limit, delay)
    requires d.queue in reach && w < |cfg.workers| && d.queue == cfg.workers[w].queue && d.limit == cfg.workers[w].limit
    requires MustForward(d)
    ensures LifeOfCopy(cfg, s, ForwardCopy(d, s.now), limit, delay)
  {
    SpacedAppend(d.msg.trail, delay, s.now);
    assert !IsMain(cfg, RetryQueue(d.queue)) && !IsMain(cfg, DlqQueue(d.queue));
    if Retries(d) {
      RetryCountRoundTrip(Count(d.msg), d.limit.value);
    }
  }

  /** What a retry queue releases has rested for the delay. */
  lemma ReleaseLife(cfg: Config, reach: set<string>, s: State, s': State, queue: string, targets: seq<string>,
      limit: Option<u32>, delay: nat)
    requires Releases(cfg, s, s', queue, targets) && Uniform(cfg, reach, limit, delay) && Area(cfg, reach, queue)
    requires LifeOfCopy(cfg, s, s.copies[s.queues[queue][0]], limit, delay)
    ensures var m := s.copies[s.queues[queue][0]].msg;
            forall q :: LifeOfCopy(cfg, s, Copy(m, s.now, false, Ready(q)), limit, delay)
  {
    var w := ExpiringInRealm(cfg, reach, queue);
  }

  /** Time passing and publishes arriving leave a life as it is. */
  lemma LifeGoesOn(cfg: Config, s: State, s': State, c: Copy, limit: Option<u32>, delay: nat)
    requires LifeOfCopy(cfg, s, c, limit, delay) && s.now <= s'.now && s.origins <= s'.origins
    ensures LifeOfCopy(cfg, s', c, limit, delay)
  {
  }

  /** Old copies: the ones a step moves keep their history and may be consumed only when rested. */
  lemma {:induction false} OldCopyLife(cfg: Config, s: State, st: Step, s': State, o: Line, reach: set<string>,
      limit: Option<u32>,
      delay: nat, c: nat)
    requires Uniform(cfg, reach, limit, delay) && LifeOk(cfg, s, o, limit, delay) && Effect(cfg, s, st, s')
    requires st.Requeue? ==> IsMain(cfg, s.deliveries[st.t].queue)
    requires c < |s.copies| && Of(s.copies[c].msg, o)
    ensures LifeOfCopy(cfg, s', s'.copies[c], limit, delay)
  {
    assert LifeOfCopy(cfg, s, s.copies[c], limit, delay);
    LifeGoesOn(cfg, s, s', s.copies[c], limit, delay);
    if st.Deliver? {
      assert IsMain(cfg, cfg.workers[s.consumers[st.k].worker].queue);
    }
  }

  lemma NewCopyLife(cfg: Config, s: State, st: Step, s': State, o: Line, reach: set<string>, limit: Option<u32>,
      delay: nat, c: nat)
    requires Uniform(cfg, reach, limit, delay) && LifeOk(cfg, s, o, limit, delay) && Effect(cfg, s, st, s')
    requires Within(cfg, s, o, reach)
    requires |s.copies| <= c < |s'.copies| && Of(s'.copies[c].msg, o)
    ensures LifeOfCopy(cfg, s', s'.copies[c], limit, delay)
  {
    if st.External? {
      assert s'.copies[c] == Fresh(st.targets, NewMsg(s, st.payload, st.headers), s.now, true)[c - |s.copies|];
    } else if st.Expire? {
      var id := s.queues[st.queue][0];
      assert s'.copies[c] == Fresh(st.targets, s.copies[id].msg, s.now, false)[c - |s.copies|];
      ReleaseLife(cfg, reach, s, s', st.queue, st.targets, limit, delay);
      LifeGoesOn(cfg, s, s', s'.copies[c], limit, delay);
    } else {
      var d := s.deliveries[s.links[st.c].wire[0].tag];
      assert s'.copies[c] == ForwardCopy(d, s.now);
      ForwardLife(cfg, reach, s, d, s.consumers[d.consumer].worker, limit, delay);
      LifeGoesOn(cfg, s, s', s'.copies[c], limit, delay);
    }
  }

  lemma TaskLife(cfg: Config, s: State, st: Step, s': State, o: Line, limit: Option<u32>, delay: nat, t: nat)
    requires LifeOk(cfg, s, o, limit, delay) && Effect(cfg, s, st, s')
    requires t < |s'.deliveries| && Of(s'.deliveries[t].msg, o)
    ensures LifeOfTask(s', s'.deliveries[t], limit, delay)
  {
    if t < |s.deliveries| {
      assert SameDelivery(s.deliveries[t], s'.deliveries[t]);
      assert LifeOfTask(s, s.deliveries[t], limit, delay);
    } else {
      var q := cfg.workers[s.consumers[st.k].worker].queue;
      assert IsMain(cfg, q);
      assert LifeOfCopy(cfg, s, s.copies[s.queues[q][0]], limit, delay);
    }
  }

  lemma {:induction false} LifeKept(cfg: Config, s: State, st: Step, o: Line, reach: set<string>, limit: Option<u32>,
      delay: nat)
    requires Uniform(cfg, reach, limit, delay) && LifeOk(cfg, s, o, limit, delay) && Within(cfg, s, o, reach)
    requires Inv(cfg, s) && Enabled(cfg, s, st)
    ensures LifeOk(cfg, Apply(cfg, s, st), o, limit, delay)
  {
    var s' := Apply(cfg, s, st);
    StepHasEffect(cfg, s, st);
    if st.Requeue? {
      assert OwnerOk(cfg, s.consumers, s.deliveries[st.t]);
    }
    forall c | 0 <= c < |s'.copies| && Of(s'.copies[c].msg, o)
      ensures LifeOfCopy(cfg, s', s'.copies[c], limit, delay)
    {
      if c < |s.copies| {
        OldCopyLife(cfg, s, st, s', o, reach, limit, delay, c);
      } else {
        NewCopyLife(cfg, s, st, s', o, reach, limit, delay, c);
      }
    }
    forall t | 0 <= t < |s'.deliveries| && Of(s'.deliveries[t].msg, o)
      ensures LifeOfTask(s', s'.deliveries[t], limit, delay)
    {
      TaskLife(cfg, s, st, s', o, limit, delay, t);
    }
  }

  lemma {:induction false} RunLife(cfg: Config, steps: seq<Step>, o: Line, reach: set<string>, limit: Option<u32>,
      delay: nat)
    requires Uniform(cfg, reach, limit, delay)
    requires var s := Run(cfg, steps); o.origin < |s.origins| ==> Lands(s, o, reach)
    ensures LifeOk(cfg, Run(cfg, steps), o, limit, delay)
  {
    if steps != [] {
      var front, st := steps[..|steps| - 1], steps[|steps| - 1];
      var s := Run(cfg, front);
      RunLedger(cfg, front);
      if Enabled(cfg, s, st) {
        StepHasEffect(cfg, s, st);
        RunWithin(cfg, front, o, reach);
        RunLife(cfg, front, o, reach, limit, delay);
        LifeKept(cfg, s, st, o, reach, limit, delay);
      } else {
        RunLife(cfg, front, o, reach, limit, delay);
      }
    }
  }

  // ----- the theorems -----

  lemma {:induction false} SpacedSpan(trail: seq<nat>, delay: nat)
    requires Spaced(trail, delay) && trail != []
    ensures trail[0] + (|trail| - 1) * delay <= trail[|trail| - 1]
  {
    var n := |trail| - 1;
    if n > 0 {
      SpacedSpan(trail[..n], delay);
      assert (n - 1) * delay + delay == n * delay;
      assert trail[n - 1] + delay <= trail[n];
    }
  }

  /** In every run, every attempt begins at least `delay` after the failed attempt before it was republished, where
      `delay` is what the retry queues of the message's own realm keep; retry limits do not matter, nor do other queues
      that accepted the same publish. */
  lemma RetrySpacing(cfg: Config, steps: seq<Step>, t: nat, reach: set<string>, delay: nat)
    requires Uniform(cfg, reach, None, delay)
    requires var s := Run(cfg, steps); t < |s.deliveries| && s.deliveries[t].msg.home in reach
    ensures var d := Run(cfg, steps).deliveries[t];
            Spaced(d.msg.trail, delay) && Rested(d.msg.trail, delay, d.at)
  {
    var d := Run(cfg, steps).deliveries[t];
    RunLedger(cfg, steps);
    assert MsgOk(Run(cfg, steps).origins, d.msg);
    RunLife(cfg, steps, Line(d.msg.origin, {d.msg.home}), reach, None, delay);
    assert LifeOfTask(Run(cfg, steps), d, None, delay);
  }

  lemma CopyLife(cfg: Config, steps: seq<Step>, c: nat, reach: set<string>, limit: Option<u32>, delay: nat)
    requires Uniform(cfg, reach, limit, delay)
    requires var s := Run(cfg, steps); c < |s.copies| && s.copies[c].msg.home in reach
    ensures var s := Run(cfg, steps); LifeOfCopy(cfg, s, s.copies[c], limit, delay)
  {
    var s := Run(cfg, steps);
    RunLedger(cfg, steps);
    assert MsgOk(s.origins, s.copies[c].msg);
    RunLife(cfg, steps, Line(s.copies[c].msg.origin, {s.copies[c].msg.home}), reach, limit, delay);
  }

  /** In every run, a dead letter whose home retries `limit` times has failed exactly max(0, limit - c0) + 1 times,
      carries no headers, and arrived no earlier than max(0, limit - c0) delays after its first failure. */
  lemma DeadLetterDelay(cfg: Config, steps: seq<Step>, c: nat, reach: set<string>, limit: u32, delay: nat)
    requires Uniform(cfg, reach, Some(limit), delay)
    requires var s := Run(cfg, steps); c < |s.copies| && s.copies[c].dead && s.copies[c].msg.home in reach
    ensures var s := Run(cfg, steps);
            var x := s.copies[c];
            && x.msg.origin < |s.origins|
            && var retries := Max(0, limit - RetryCount(s.origins[x.msg.origin].headers));
            && |x.msg.trail| == retries + 1 && x.msg.headers.None?
            && x.msg.trail[0] + retries * delay <= x.at <= s.now
  {
    CopyLife(cfg, steps, c, reach, Some(limit), delay);
    SpacedSpan(Run(cfg, steps).copies[c].msg.trail, delay);
  }

  /** In every run, whatever the limits: the decoded counter of a live copy is the one it was published with plus its
      failures, and from the first retry on it is the only header. Where its home retries `limit` times it never exceeds
      max(c0, limit). */
  lemma CounterFollowsFailures(cfg: Config, steps: seq<Step>, c: nat, reach: set<string>, limit: Option<u32>)
    requires Uniform(cfg, reach, limit, 0)
    requires var s := Run(cfg, steps); c < |s.copies| && !s.copies[c].dead && s.copies[c].msg.home in reach
    ensures var s := Run(cfg, steps);
            s.copies[c].msg.origin < |s.origins| && Counted(s.origins[s.copies[c].msg.origin], s.copies[c].msg, limit)
  {
    CopyLife(cfg, steps, c, reach, limit, 0);
  }

  // ----- head-only expiry -----

  /** Copies stand in a queue in the order they entered it. */
  ghost predicate InEntryOrder(s: State, q: string)
    requires q in s.queues
  {
    && (forall i :: 0 <= i < |s.queues[q]| ==> s.queues[q][i] < |s.copies| && s.copies[s.queues[q][i]].at <= s.now)
    && (forall i, j :: 0 <= i < j < |s.queues[q]| ==> s.copies[s.queues[q][i]].at <= s.copies[s.queues[q][j]].at)
  }

  /** A broker that looks only at the head: how many messages it lets go, given their entry times. */
  function ReleasedFromHead(entered: seq<nat>, ttl: nat, now: nat): nat {
    if entered != [] && entered[0] + ttl <= now then 1 + ReleasedFromHead(entered[1..], ttl, now) else 0
  }

  /** In a queue kept in entry order, looking at the head alone releases exactly the messages whose time is up. */
  lemma {:induction false} HeadReleaseIsExact(entered: seq<nat>, ttl: nat, now: nat)
    requires forall i, j :: 0 <= i < j < |entered| ==> entered[i] <= entered[j]
    ensures ReleasedFromHead(entered, ttl, now) <= |entered|
    ensures forall i :: 0 <= i < |entered| ==> (i < ReleasedFromHead(entered, ttl, now) <==> entered[i] + ttl <= now)
  {
    if entered != [] && entered[0] + ttl <= now {
      HeadReleaseIsExact(entered[1..], ttl, now);
      forall i | 0 <= i < |entered|
        ensures i < ReleasedFromHead(entered, ttl, now) <==> entered[i] + ttl <= now
      {
        if i > 0 {
          assert entered[i] == entered[1..][i - 1];
        }
      }
    }
  }

  ghost predicate EntryOk(cfg: Config, s: State) {
    forall q :: q in s.queues && !IsMain(cfg, q) ==> InEntryOrder(s, q)
  }

  lemma EnqueueKeepsOneOrder(s: State, q: string, m: Msg, dead: bool, p: string)
    requires q in s.queues && p in s.queues && InEntryOrder(s, p)
    ensures InEntryOrder(Enqueue(s, q, m, dead), p)
  {
    var s' := Enqueue(s, q, m, dead);
    var was, ids, n := s.queues[p], s'.queues[p], |s.copies|;
    assert ids == if p == q then was + [n] else was;
    forall i | 0 <= i < |ids|
      ensures ids[i] < |s'.copies| && s'.copies[ids[i]].at <= s'.now
    {
      assert i < |was| ==> ids[i] == was[i] < n;
    }
    forall i, j | 0 <= i < j < |ids|
      ensures s'.copies[ids[i]].at <= s'.copies[ids[j]].at
    {
      assert ids[i] == was[i] < n;
      assert j < |was| ==> ids[j] == was[j] < n;
    }
  }

  lemma EnqueueKeepsOrder(cfg: Config, s: State, q: string, m: Msg, dead: bool)
    requires EntryOk(cfg, s) && q in s.queues
    ensures EntryOk(cfg, Enqueue(s, q, m, dead))
  {
    var s' := Enqueue(s, q, m, dead);
    forall p | p in s'.queues && !IsMain(cfg, p)
      ensures InEntryOrder(s', p)
    {
      EnqueueKeepsOneOrder(s, q, m, dead, p);
    }
  }

  lemma {:induction false} EnqueueAllKeepsOrder(cfg: Config, s: State, qs: seq<string>, m: Msg, first: bool)
    requires EntryOk(cfg, s) && forall q :: q in qs ==> q in s.queues
    ensures EntryOk(cfg, EnqueueAll(s, qs, m, first))
  {
    if qs != [] {
      var q := qs[|qs| - 1];
      EnqueueAllKeepsOrder(cfg, s, qs[..|qs| - 1], m, first);
      EnqueueKeepsOrder(cfg, EnqueueAll(s, qs[..|qs| - 1], m, first), q, Entering(m, q, first), false);
    }
  }

  lemma ShrinkKeepsOneOrder(s: State, s': State, q: string, shift: nat)
    requires q in s.queues && q in s'.queues && InEntryOrder(s, q)
    requires s.now <= s'.now && |s.copies| == |s'.copies|
    requires forall c :: 0 <= c < |s.copies| ==> s'.copies[c].at == s.copies[c].at
    requires shift <= |s.queues[q]| && s'.queues[q] == s.queues[q][shift..]
    ensures InEntryOrder(s', q)
  {
    var was, left := s.queues[q], s'.queues[q];
    forall i | 0 <= i < |left|
      ensures left[i] < |s'.copies| && s'.copies[left[i]].at <= s'.now
    {
      assert left[i] == was[i + shift];
    }
    forall i, j | 0 <= i < j < |left|
      ensures s'.copies[left[i]].at <= s'.copies[left[j]].at
    {
      assert left[i] == was[i + shift] && left[j] == was[j + shift];
    }
  }

  /** Losing a head, gaining places, time passing: none of it reorders a queue nobody consumes. */
  lemma ShrinkKeepsOrder(cfg: Config, s: State, s': State)
    requires EntryOk(cfg, s) && s.now <= s'.now && |s.copies| == |s'.copies| && s'.queues.Keys == s.queues.Keys
    requires forall c :: 0 <= c < |s.copies| ==> s'.copies[c].at == s.copies[c].at
    requires forall q :: q in s.queues && !IsMain(cfg, q) ==>
               s'.queues[q] == s.queues[q] || (s.queues[q] != [] && s'.queues[q] == s.queues[q][1..])
    ensures EntryOk(cfg, s')
  {
    forall q | q in s'.queues && !IsMain(cfg, q)
      ensures InEntryOrder(s', q)
    {
      ShrinkKeepsOneOrder(s, s', q, if s'.queues[q] == s.queues[q] then 0 else 1);
    }
  }

  lemma {:induction false} ProcessKeepsOrder(cfg: Config, s: State, c: nat)
    requires Inv(cfg, s) && EntryOk(cfg, s) && Enabled(cfg, s, Process(c))
    ensures EntryOk(cfg, DoProcess(s, c))
  {
    var f := s.links[c].wire[0];
    var s1 := SetLink(s, c, s.links[c].(wire := s.links[c].wire[1..]));
    if f.Publish? {
      var d := s.deliveries[f.tag];
      var s2 := SetTask(s1, f.tag, d.(forward := Effective(c)));
      ShrinkKeepsOrder(cfg, s, s2);
      if f.key in s.queues {
        EnqueueKeepsOrder(cfg, s2, f.key, Republished(d, f, s.now), !Retries(d));
      }
    } else {
      ShrinkKeepsOrder(cfg, s, DoProcess(s, c));
    }
  }

  lemma ArrivalsKeepOrder(cfg: Config, s: State, st: Step)
    requires Inv(cfg, s) && EntryOk(cfg, s) && Enabled(cfg, s, st) && (st.External? || st.Expire?)
    ensures EntryOk(cfg, Apply(cfg, s, st))
  {
    if st.External? {
      var s1 := s.(origins := s.origins + [Origin(st.payload, st.headers, st.targets)]);
      ShrinkKeepsOrder(cfg, s, s1);
      EnqueueAllKeepsOrder(cfg, s1, st.targets, NewMsg(s, st.payload, st.headers), true);
    } else {
      var id := s.queues[st.queue][0];
      var s1 := SetPlace(s, id, Finished(Released)).(queues := s.queues[st.queue := s.queues[st.queue][1..]]);
      ShrinkKeepsOrder(cfg, s, s1);
      EnqueueAllKeepsOrder(cfg, s1, st.targets, s.copies[id].msg, false);
    }
  }

  lemma OrderKept(cfg: Config, s: State, st: Step)
    requires Inv(cfg, s) && EntryOk(cfg, s)
    ensures EntryOk(cfg, Next(cfg, s, st))
  {
    if Enabled(cfg, s, st) {
      if st.Process? {
        ProcessKeepsOrder(cfg, s, st.c);
      } else if st.External? || st.Expire? {
        ArrivalsKeepOrder(cfg, s, st);
      } else {
        if st.Requeue? {
          var d := s.deliveries[st.t];
          assert OwnerOk(cfg, s.consumers, d);
          assert cfg.workers[s.consumers[d.consumer].worker].queue == d.queue;
        }
        ShrinkKeepsOrder(cfg, s, Apply(cfg, s, st));
      }
    }
  }

  lemma {:induction false} RunInOrder(cfg: Config, steps: seq<Step>)
    ensures Inv(cfg, Run(cfg, steps)) && EntryOk(cfg, Run(cfg, steps))
  {
    RunKeepsInv(cfg, steps);
    if steps != [] {
      RunInOrder(cfg, steps[..|steps| - 1]);
      OrderKept(cfg, Run(cfg, steps[..|steps| - 1]), steps[|steps| - 1]);
    }
  }

  function EntryTimes(s: State, q: string): seq<nat>
    requires q in s.queues && forall i :: 0 <= i < |s.queues[q]| ==> s.queues[q][i] < |s.copies|
  {
    seq(|s.queues[q]|, i requires 0 <= i < |s.queues[q]| => s.copies[s.queues[q][i]].at)
  }

  /** In every run, a broker that only ever expires the head of a retry queue releases exactly the messages whose delay
      is over, oldest failure first: because the TTL belongs to the queue, nothing overdue waits behind something that
      is not. */
  lemma HeadExpiryIsExact(cfg: Config, steps: seq<Step>, q: string)
    requires !IsMain(cfg, q) && Expires(cfg.topology, q)
    ensures var s := Run(cfg, steps);
            && q in s.queues && (forall i :: 0 <= i < |s.queues[q]| ==> s.queues[q][i] < |s.copies|)
            && var ttl := cfg.topology.queues[q].deadLetter.value.ttl;
               forall i :: 0 <= i < |s.queues[q]| ==>
                 (i < ReleasedFromHead(EntryTimes(s, q), ttl, s.now) <==> s.copies[s.queues[q][i]].at + ttl <= s.now)
  {
    var s := Run(cfg, steps);
    RunInOrder(cfg, steps);
    assert InEntryOrder(s, q);
    var ttl := cfg.topology.queues[q].deadLetter.value.ttl;
    var entered := EntryTimes(s, q);
    HeadReleaseIsExact(entered, ttl, s.now);
    forall i | 0 <= i < |s.queues[q]|
      ensures i < ReleasedFromHead(entered, ttl, s.now) <==> s.copies[s.queues[q][i]].at + ttl <= s.now
    {
      assert entered[i] == s.copies[s.queues[q][i]].at;
    }
  }
}
