/** Whose headers a task finds in the thread-local slot (src/middleware.rs:43-50), in runs of the delivery protocol on
    one thread: `set_headers` is a task's first act, its handler runs next, its `after` functions once it is settled
    (src/subscriber.rs:512-617). */
module Visibility {
  import opened Wrappers
  import opened Amqp
  import opened Protocol
  import opened Invariants
  import opened Effects
  import opened Flight
  import Sums

  /** A spawned task runs when the executor lets it; an awaited one is over before its loop starts the next. */
  datatype Mode = Spawned | Awaited

  datatype Event = Proto(st: Step) | Begin(t: nat) | Return(t: nat)

  /** `past` is the protocol's run so far, `slot` the task that last called `set_headers`, `shown` what it left
      there. */
  datatype Local = Local(past: seq<Step>, begun: set<nat>, returned: set<nat>, slot: Option<nat>, shown: Headers)

  const START := Local([], {}, {}, None, None)

  function At(cfg: Config, x: Local): State { Run(cfg, x.past) }

  predicate Can(cfg: Config, mode: Mode, x: Local, e: Event) {
    var s := At(cfg, x);
    match e
    case Proto(st) => Enabled(cfg, s, st) && (st.Handle? ==> st.t in x.begun)
    case Begin(t) =>
      && t < |s.deliveries| && s.deliveries[t].pc.Running? && t !in x.begun
      && (mode.Awaited? ==>
            forall u :: u in x.begun && u < |s.deliveries| ==>
              s.deliveries[u].consumer == s.deliveries[t].consumer ==> u in x.returned)
    case Return(t) =>
      t in x.begun && t !in x.returned && t < |s.deliveries| && (s.deliveries[t].pc.Done? || s.deliveries[t].pc.Stuck?)
  }

  function Do(cfg: Config, x: Local, e: Event): Local {
    match e
    case Proto(st) => x.(past := x.past + [st])
    case Begin(t) =>
      var s := At(cfg, x);
      x.(begun := x.begun + {t}, slot := Some(t), shown := if t < |s.deliveries| then
          s.deliveries[t].msg.headers else None)
    case Return(t) => x.(returned := x.returned + {t})
  }

  /** An event that cannot happen does not. */
  function Play(cfg: Config, mode: Mode, x: Local, events: seq<Event>): Local {
    if events == [] then x
    else
      var y := Play(cfg, mode, x, events[..|events| - 1]);
      var e := events[|events| - 1];
      if Can(cfg, mode, y, e) then Do(cfg, y, e) else y
  }

  /** Every event of the list can happen when its turn comes. */
  predicate AllCan(cfg: Config, mode: Mode, x: Local, events: seq<Event>) {
    if events == [] then true
    else
      var front := events[..|events| - 1];
      AllCan(cfg, mode, x, front) && Can(cfg, mode, Play(cfg, mode, x, front), events[|events| - 1])
  }

  /** The handler of task `t` is running. */
  predicate InHandler(cfg: Config, x: Local, t: nat) {
    var s := At(cfg, x); t in x.begun && t < |s.deliveries| && s.deliveries[t].pc.Running?
  }

  /** Task `t` has sent the frame that settles its delivery; its `after` functions run before it returns. */
  predicate InAfter(cfg: Config, x: Local, t: nat) {
    var s := At(cfg, x); t in x.begun && t !in x.returned && t < |s.deliveries| && s.deliveries[t].pc.Done?
  }

  /** What task `t` would find if it were alone. */
  function OwnHeaders(cfg: Config, x: Local, t: nat): Headers
    requires t < |At(cfg, x).deliveries|
  {
    At(cfg, x).deliveries[t].msg.headers
  }

  lemma PlayOneMore(cfg: Config, mode: Mode, x: Local, events: seq<Event>, e: Event)
    requires AllCan(cfg, mode, x, events) && Can(cfg, mode, Play(cfg, mode, x, events), e)
    ensures AllCan(cfg, mode, x, events + [e])
    ensures Play(cfg, mode, x, events + [e]) == Do(cfg, Play(cfg, mode, x, events), e)
  {
    assert (events + [e])[..|events|] == events;
  }

  // ----- what holds in every mode -----

  ghost predicate SlotOk(cfg: Config, x: Local) {
    var s := At(cfg, x);
    && (forall t :: t in x.begun ==> t < |s.deliveries|)
    && (forall t :: 0 <= t < |s.deliveries| && t !in x.begun ==> s.deliveries[t].pc.Running?)
    && (forall t :: t in x.returned ==> t < |s.deliveries| && !s.deliveries[t].pc.Running?)
    && (x.slot.None? <==> x.begun == {})
    && (x.slot.Some? ==> x.slot.value in x.begun && x.shown == OwnHeaders(cfg, x, x.slot.value))
  }

  lemma {:induction false} StepKeepsTasks(cfg: Config, s: State, st: Step)
    requires Inv(cfg, s) && Enabled(cfg, s, st)
    ensures var s' := Apply(cfg, s, st);
            && |s.deliveries| <= |s'.deliveries|
            && (forall t :: 0 <= t < |s.deliveries| ==>
                  && s'.deliveries[t].msg == s.deliveries[t].msg
                  && (s'.deliveries[t].pc.Running? <==> s.deliveries[t].pc.Running? && !(st.Handle? && st.t == t)))
            && (forall t :: |s.deliveries| <= t < |s'.deliveries| ==> s'.deliveries[t].pc.Running?)
  {
    if IsClientStep(st) {
      ClientStepHasEffect(cfg, s, st);
    } else {
      StepHasEffect(cfg, s, st);
      OtherStepTouches(cfg, s, st, Apply(cfg, s, st));
    }
  }

  lemma DoKeepsSlotOk(cfg: Config, mode: Mode, x: Local, e: Event)
    requires SlotOk(cfg, x) && Can(cfg, mode, x, e)
    ensures SlotOk(cfg, Do(cfg, x, e))
  {
    if e.Proto? {
      RunKeepsInv(cfg, x.past);
      RunOneMore(cfg, x.past, e.st);
      StepKeepsTasks(cfg, At(cfg, x), e.st);
    }
  }

  lemma {:induction false} PlaySlotOk(cfg: Config, mode: Mode, events: seq<Event>)
    ensures SlotOk(cfg, Play(cfg, mode, START, events))
  {
    if events != [] {
      var front, e := events[..|events| - 1], events[|events| - 1];
      PlaySlotOk(cfg, mode, front);
      var x := Play(cfg, mode, START, front);
      if Can(cfg, mode, x, e) {
        DoKeepsSlotOk(cfg, mode, x, e);
      }
    }
  }

  /** The executor is never stuck: in every run a task that is over can return, and the task of an unbegun delivery can
      start, at once where tasks are spawned, and where they are awaited once those of its consumer have returned; its
      handler then finds its own headers. */
  lemma {:induction false} TasksGoOn(cfg: Config, mode: Mode, events: seq<Event>, t: nat)
    requires t < |At(cfg, Play(cfg, mode, START, events)).deliveries|
    ensures var x := Play(cfg, mode, START, events); var ds := At(cfg, x).deliveries;
            && (t in x.begun && t !in x.returned && (ds[t].pc.Done? || ds[t].pc.Stuck?) ==>
                  Play(cfg, mode, START, events + [Return(t)]) == x.(returned := x.returned + {t}))
            && (t !in x.begun
                && (mode.Spawned?
                    || forall u :: u in x.begun && u < |ds| && ds[u].consumer == ds[t].consumer ==> u in x.returned) ==>
                  var y := Play(cfg, mode, START, events + [Begin(t)]);
                  && y.past == x.past && y.begun == x.begun + {t} && y.returned == x.returned
                  && InHandler(cfg, y, t) && y.shown == OwnHeaders(cfg, y, t))
  {
    PlaySlotOk(cfg, mode, events);
    assert (events + [Return(t)])[..|events|] == events && (events + [Begin(t)])[..|events|] == events;
  }

  // ----- spawned tasks of one worker with prefetch 1 -----

  /** The task that started last. */
  ghost predicate Newest(x: Local, t: nat) { t in x.begun && forall u :: u in x.begun ==> u <= t }

  lemma {:induction false} SlotIsNewest(cfg: Config, mode: Mode, events: seq<Event>)
    requires |cfg.workers| == 1 && cfg.workers[0].prefetch == 1
    ensures var x := Play(cfg, mode, START, events); x.slot.Some? ==> Newest(x, x.slot.value)
  {
    if events != [] {
      var front, e := events[..|events| - 1], events[|events| - 1];
      SlotIsNewest(cfg, mode, front);
      PlaySlotOk(cfg, mode, front);
      var x := Play(cfg, mode, START, front);
      if Can(cfg, mode, x, e) && e.Begin? && e.t < |At(cfg, x).deliveries| - 1 {
        EarlierAreDone(cfg, x.past, e.t);
      }
    }
  }

  lemma {:induction false} NewestExists(cfg: Config, mode: Mode, events: seq<Event>) returns (n: nat)
    requires |cfg.workers| == 1 && cfg.workers[0].prefetch == 1
    requires Play(cfg, mode, START, events).begun != {}
    ensures var x := Play(cfg, mode, START, events);
            && Newest(x, n) && n < |At(cfg, x).deliveries| && x.shown == OwnHeaders(cfg, x, n)
            && forall m :: Newest(x, m) ==> m == n
  {
    PlaySlotOk(cfg, mode, events);
    SlotIsNewest(cfg, mode, events);
    n := Play(cfg, mode, START, events).slot.value;
  }

  lemma HandlerIsNewest(cfg: Config, x: Local, t: nat, n: nat)
    requires |cfg.workers| == 1 && cfg.workers[0].prefetch == 1
    requires InHandler(cfg, x, t) && Newest(x, n) && n < |At(cfg, x).deliveries|
    ensures n == t
  {
    if t < n {
      EarlierAreDone(cfg, x.past, t);
    }
  }

  /** One worker, prefetch 1, spawned or not: in every run, crashes included, a handler finds its own message's headers
      whenever it looks. */
  lemma {:induction false} HandlerReadsOwn(cfg: Config, mode: Mode, events: seq<Event>, t: nat)
    requires |cfg.workers| == 1 && cfg.workers[0].prefetch == 1
    requires InHandler(cfg, Play(cfg, mode, START, events), t)
    ensures var x := Play(cfg, mode, START, events); x.shown == OwnHeaders(cfg, x, t)
  {
    var n := NewestExists(cfg, mode, events);
    HandlerIsNewest(cfg, Play(cfg, mode, START, events), t, n);
  }

  /** Prefetch 1 keeps a task from starting before every earlier one has sent its settling frame. */
  lemma {:induction false} StartsBehindSettling(cfg: Config, mode: Mode, events: seq<Event>, u: nat, t: nat)
    requires |cfg.workers| == 1 && cfg.workers[0].prefetch == 1
    requires Can(cfg, mode, Play(cfg, mode, START, events), Begin(u)) && t < u
    ensures At(cfg, Play(cfg, mode, START, events)).deliveries[t].pc.Done?
  {
    EarlierAreDone(cfg, Play(cfg, mode, START, events).past, t);
  }

  /** Once task `t` has sent its settling frame, an `after` function of it finds its own headers if and only if the
      newest delivery whose handler has been started carries the same: later ones start as soon as the broker hands them
      out. */
  lemma {:induction false} AfterReadsOwnIff(cfg: Config, mode: Mode, events: seq<Event>, t: nat, n: nat)
    requires |cfg.workers| == 1 && cfg.workers[0].prefetch == 1
    requires var x := Play(cfg, mode, START, events); InAfter(cfg, x, t) && Newest(x, n)
    ensures var x := Play(cfg, mode, START, events);
            && t <= n < |At(cfg, x).deliveries|
            && (x.shown == OwnHeaders(cfg, x, t) <==> OwnHeaders(cfg, x, n) == OwnHeaders(cfg, x, t))
  {
    var m := NewestExists(cfg, mode, events);
  }

  /** In particular it does while no delivery of other headers has started since. */
  lemma AfterReadsOwnUnlessOvertaken(cfg: Config, mode: Mode, events: seq<Event>, t: nat)
    requires |cfg.workers| == 1 && cfg.workers[0].prefetch == 1
    requires var x := Play(cfg, mode, START, events);
             && InAfter(cfg, x, t)
             && forall u :: u in x.begun && t < u < |At(cfg, x).deliveries| ==>
                 OwnHeaders(cfg, x, u) == OwnHeaders(cfg, x, t)
    ensures var x := Play(cfg, mode, START, events); x.shown == OwnHeaders(cfg, x, t)
  {
    var n := NewestExists(cfg, mode, events);
  }

  // ----- awaited tasks of one worker -----

  lemma OneConsumer(cfg: Config, past: seq<Step>, t: nat, u: nat)
    requires |cfg.workers| == 1 && t < |Run(cfg, past).deliveries| && u < |Run(cfg, past).deliveries|
    ensures Run(cfg, past).deliveries[t].consumer == Run(cfg, past).deliveries[u].consumer
  {
    RunLimits(cfg, past);
    Sums.SumBounds(Run(cfg, past).boots, Started(), 0, 1);
  }

  lemma {:induction false} UnreturnedIsSlot(cfg: Config, events: seq<Event>, t: nat)
    requires |cfg.workers| == 1
    requires var x := Play(cfg, Awaited, START, events); t in x.begun && t !in x.returned
    ensures Play(cfg, Awaited, START, events).slot == Some(t)
  {
    var front, e := events[..|events| - 1], events[|events| - 1];
    var x := Play(cfg, Awaited, START, front);
    PlaySlotOk(cfg, Awaited, front);
    if Can(cfg, Awaited, x, e) && e.Begin? {
      if t != e.t {
        OneConsumer(cfg, x.past, t, e.t);
      }
    } else {
      UnreturnedIsSlot(cfg, front, t);
    }
  }

  /** No spawner, one worker, any prefetch: in every run both the handler and the `after` functions of a task find its
      own message's headers, however many deliveries are waiting. */
  lemma {:induction false} AwaitedReadsOwn(cfg: Config, events: seq<Event>, t: nat)
    requires |cfg.workers| == 1
    requires var x := Play(cfg, Awaited, START, events);
             InHandler(cfg, x, t) || InAfter(cfg, x, t)
    ensures var x := Play(cfg, Awaited, START, events); x.shown == OwnHeaders(cfg, x, t)
  {
    PlaySlotOk(cfg, Awaited, events);
    UnreturnedIsSlot(cfg, events, t);
  }
}
