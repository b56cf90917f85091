/** What every copy remembers of the publish it came from, and which queues that publish can ever reach. */
module Ledger {
  import opened Sums
  import opened Routing
  import opened Protocol
  import opened Invariants
  import opened Effects

  predicate IsMain(cfg: Config, q: string) {
    exists w :: 0 <= w < |cfg.workers| && cfg.workers[w].queue == q
  }

  // ----- payloads and endings, in any configuration -----

  /** A finished copy was settled by the task named, in the way that task decided. */
  ghost predicate EndOk(s: State, c: nat)
    requires c < |s.copies|
  {
    match s.copies[c].place
    case Finished(Succeeded(t)) =>
      && t < |s.deliveries| && s.deliveries[t].copy == c && s.deliveries[t].pc.Done?
      && s.deliveries[t].verdict.Passed? && s.deliveries[t].settled.Acked?
    case Finished(Discarded(t)) =>
      && t < |s.deliveries| && s.deliveries[t].copy == c && s.deliveries[t].pc.Done? && s.deliveries[t].settled.Nacked?
      && s.deliveries[t].verdict.Rejected? && s.deliveries[t].limit.None?
    case Finished(Forwarded(t)) =>
      && t < |s.deliveries| && s.deliveries[t].copy == c && s.deliveries[t].pc.Done? && s.deliveries[t].settled.Acked?
      && MustForward(s.deliveries[t]) && s.deliveries[t].forward.Effective?
    case _ => true
  }

  ghost predicate MsgOk(origins: seq<Origin>, m: Msg) {
    && m.origin < |origins| && m.payload == origins[m.origin].payload
    && m.home in origins[m.origin].targets
  }

  ghost predicate LedgerOk(s: State) {
    && (forall c :: 0 <= c < |s.copies| ==> MsgOk(s.origins, s.copies[c].msg) && EndOk(s, c))
    && (forall t :: 0 <= t < |s.deliveries| ==> MsgOk(s.origins, s.deliveries[t].msg))
  }

  lemma MsgKept(cfg: Config, s: State, st: Step, s': State, c: nat)
    requires LedgerOk(s) && Effect(cfg, s, st, s') && c < |s'.copies|
    ensures MsgOk(s'.origins, s'.copies[c].msg)
  {
    if c < |s.copies| {
      assert MsgOk(s.origins, s.copies[c].msg);
      assert s'.copies[c].msg == s.copies[c].msg;
    } else if st.Expire? {
      var m := s.copies[s.queues[st.queue][0]].msg;
      assert MsgOk(s.origins, m);
      assert s'.copies[c] == Fresh(st.targets, m, s.now, false)[c - |s.copies|];
    } else if st.External? {
      assert s'.copies[c] == Fresh(st.targets, NewMsg(s, st.payload, st.headers), s.now, true)[c - |s.copies|];
    } else {
      var d := s.deliveries[s.links[st.c].wire[0].tag];
      assert MsgOk(s.origins, d.msg);
      assert s'.copies[c] == ForwardCopy(d, s.now);
    }
  }

  /** A task that is done and settled is never touched again, except that its republication may still take effect. */
  lemma SettledTaskRests(cfg: Config, s: State, st: Step, s': State, t: nat)
    requires Effect(cfg, s, st, s') && t < |s.deliveries|
    requires s.deliveries[t].pc.Done? && !s.deliveries[t].settled.Open?
    ensures && t < |s'.deliveries|
            && (s'.deliveries[t] == s.deliveries[t]
                || (s.deliveries[t].forward.Sent?
                    && s'.deliveries[t] == s.deliveries[t].(forward := Effective(s.deliveries[t].forward.channel))))
  {
  }

  lemma {:induction false} EndKept(cfg: Config, s: State, st: Step, s': State, c: nat)
    requires LedgerOk(s) && Effect(cfg, s, st, s') && c < |s'.copies|
    ensures EndOk(s', c)
  {
    if c < |s.copies| {
      assert EndOk(s, c);
      if s.copies[c].place.Finished? && !s.copies[c].place.end.Released? {
        SettledTaskRests(cfg, s, st, s', s.copies[c].place.end.tag);
      }
    }
  }

  lemma {:induction false} LedgerKept(cfg: Config, s: State, st: Step, s': State)
    requires LedgerOk(s) && Effect(cfg, s, st, s')
    ensures LedgerOk(s')
  {
    forall c | 0 <= c < |s'.copies|
      ensures MsgOk(s'.origins, s'.copies[c].msg) && EndOk(s', c)
    {
      MsgKept(cfg, s, st, s', c);
      EndKept(cfg, s, st, s', c);
    }
    forall t | 0 <= t < |s'.deliveries|
      ensures MsgOk(s'.origins, s'.deliveries[t].msg)
    {
      if t < |s.deliveries| {
        assert MsgOk(s.origins, s.deliveries[t].msg);
        assert s'.deliveries[t].msg == s.deliveries[t].msg;
      }
    }
  }

  lemma {:induction false} RunLedger(cfg: Config, steps: seq<Step>)
    ensures Inv(cfg, Run(cfg, steps)) && LedgerOk(Run(cfg, steps))
  {
    RunKeepsInv(cfg, steps);
    if steps != [] {
      var front, st := steps[..|steps| - 1], steps[|steps| - 1];
      RunLedger(cfg, front);
      var s := Run(cfg, front);
      if Enabled(cfg, s, st) {
        StepHasEffect(cfg, s, st);
        LedgerKept(cfg, s, st, Apply(cfg, s, st));
      }
    }
  }

  // ----- where a publish can get to -----

  /** What descends from publish `origin` through the queues `homes` that accepted it: one queue, or all of them. */
  datatype Line = Line(origin: nat, homes: set<string>)

  predicate Of(m: Msg, o: Line) { m.origin == o.origin && m.home in o.homes }

  /** Publish `o.origin` is in the system, and its homes lie in `reach`. */
  predicate Lands(s: State, o: Line, reach: set<string>) {
    o.origin < |s.origins| && forall q :: q in s.origins[o.origin].targets && q in o.homes ==> q in reach
  }

  function InHomes(homes: set<string>): string -> nat { (q: string) => if q in homes then 1 else 0 }

  /** How many of its homes accepted publish `o.origin`. */
  function Entered(s: State, o: Line): nat
    requires o.origin < |s.origins|
  {
    Sum(s.origins[o.origin].targets, InHomes(o.homes))
  }

  lemma {:induction false} EnteredAll(targets: seq<string>, homes: set<string>)
    requires forall q :: q in targets ==> q in homes
    ensures Sum(targets, InHomes(homes)) == |targets|
  {
    if targets != [] {
      EnteredAll(targets[..|targets| - 1], homes);
    }
  }

  lemma {:induction false} EnteredOne(targets: seq<string>, q: string)
    requires Distinct(targets)
    ensures Sum(targets, InHomes({q})) == if q in targets then 1 else 0
  {
    if targets != [] {
      EnteredOne(targets[..|targets| - 1], q);
    }
  }

  /** Worker queues closed under retry: what expires in their retry queues goes to these worker queues only. */
  ghost predicate Realm(cfg: Config, reach: set<string>) {
    && (forall q :: q in reach ==> IsMain(cfg, q) && !Expires(cfg.topology, q))
    && (forall w :: 0 <= w < |cfg.workers| && cfg.workers[w].limit.Some? && cfg.workers[w].queue in reach ==>
          var q := cfg.workers[w].queue;
          && !IsMain(cfg, RetryQueue(q)) && !IsMain(cfg, DlqQueue(q)) && !Expires(cfg.topology, DlqQueue(q))
          && (Expires(cfg.topology, RetryQueue(q)) ==> ExpiryTargets(cfg.topology, RetryQueue(q)) <= reach))
  }

  /** The queues of a realm: its worker queues and their retry and dead-letter queues. */
  ghost predicate Area(cfg: Config, reach: set<string>, q: string) {
    || q in reach
    || exists w :: 0 <= w < |cfg.workers| && cfg.workers[w].limit.Some? && cfg.workers[w].queue in reach
                   && (q == RetryQueue(cfg.workers[w].queue) || q == DlqQueue(cfg.workers[w].queue))
  }

  ghost predicate Within(cfg: Config, s: State, o: Line, reach: set<string>) {
    && (forall c :: 0 <= c < |s.copies| && Of(s.copies[c].msg, o) && s.copies[c].place.Ready? ==>
          Area(cfg, reach, s.copies[c].place.queue))
    && (forall t :: 0 <= t < |s.deliveries| && Of(s.deliveries[t].msg, o) ==> s.deliveries[t].queue in reach)
  }

  /** A queue of the realm that expires is the retry queue of one of its workers. */
  lemma ExpiringInRealm(cfg: Config, reach: set<string>, q: string) returns (w: nat)
    requires Realm(cfg, reach) && Area(cfg, reach, q) && Expires(cfg.topology, q)
    ensures w < |cfg.workers| && cfg.workers[w].limit.Some? && cfg.workers[w].queue in reach
    ensures q == RetryQueue(cfg.workers[w].queue) && ExpiryTargets(cfg.topology, q) <= reach && !IsMain(cfg, q)
  {
    w :| 0 <= w < |cfg.workers| && cfg.workers[w].limit.Some? && cfg.workers[w].queue in reach
         && (q == RetryQueue(cfg.workers[w].queue) || q == DlqQueue(cfg.workers[w].queue));
  }

  /** A copy that enters a queue enters one of the realm's. */
  lemma NewCopyWithin(cfg: Config, s: State, st: Step, s': State, o: Line, reach: set<string>, c: nat)
    requires Realm(cfg, reach) && Within(cfg, s, o, reach) && Effect(cfg, s, st, s')
    requires st.External? && o.origin == |s.origins| ==> forall q :: q in st.targets && q in o.homes ==> q in reach
    requires |s.copies| <= c < |s'.copies| && Of(s'.copies[c].msg, o)
    ensures s'.copies[c].place.Ready? && Area(cfg, reach, s'.copies[c].place.queue)
  {
    if st.Expire? {
      var m := s.copies[s.queues[st.queue][0]].msg;
      assert s'.copies[c] == Fresh(st.targets, m, s.now, false)[c - |s.copies|];
      var w := ExpiringInRealm(cfg, reach, st.queue);
      assert st.targets[c - |s.copies|] in (set q | q in st.targets);
    } else if st.External? {
      assert s'.copies[c] == Fresh(st.targets, NewMsg(s, st.payload, st.headers), s.now, true)[c - |s.copies|];
    } else {
      var d := s.deliveries[s.links[st.c].wire[0].tag];
      assert s'.copies[c] == ForwardCopy(d, s.now);
      assert cfg.workers[s.consumers[d.consumer].worker].queue in reach;
    }
  }

  lemma WithinKept(cfg: Config, s: State, st: Step, s': State, o: Line, reach: set<string>)
    requires Realm(cfg, reach) && Within(cfg, s, o, reach) && Effect(cfg, s, st, s')
    requires st.External? && o.origin == |s.origins| ==> forall q :: q in st.targets && q in o.homes ==> q in reach
    ensures Within(cfg, s', o, reach)
  {
    forall c | 0 <= c < |s'.copies| && Of(s'.copies[c].msg, o) && s'.copies[c].place.Ready?
      ensures Area(cfg, reach, s'.copies[c].place.queue)
    {
      if c >= |s.copies| {
        NewCopyWithin(cfg, s, st, s', o, reach, c);
      }
    }
    if st.Deliver? {
      assert IsMain(cfg, cfg.workers[s.consumers[st.k].worker].queue);
    }
  }

  lemma {:induction false} RunWithin(cfg: Config, steps: seq<Step>, o: Line, reach: set<string>)
    requires Realm(cfg, reach)
    requires var s := Run(cfg, steps); o.origin < |s.origins| ==> Lands(s, o, reach)
    ensures Within(cfg, Run(cfg, steps), o, reach)
  {
    if steps != [] {
      var front, st := steps[..|steps| - 1], steps[|steps| - 1];
      var s := Run(cfg, front);
      RunLedger(cfg, front);
      if Enabled(cfg, s, st) {
        StepHasEffect(cfg, s, st);
        RunWithin(cfg, front, o, reach);
        WithinKept(cfg, s, st, Apply(cfg, s, st), o, reach);
      } else {
        RunWithin(cfg, front, o, reach);
      }
    }
  }
}
