/** Imperative code inside a running system: what the code does itself is checked against the protocol step by step, and
    whenever it waits, everybody else acts. */
module World {
  import opened Wrappers
  import opened Pool
  import opened Protocol
  import opened Invariants
  import opened Effects
  import Flight

  // ----- runs as evidence -----

  datatype Account = Account(past: seq<Step>, state: State)

  ghost predicate Correct(cfg: Config, a: Account) { Leads(cfg, Init(cfg), a.past, a.state) }

  /** The steps `past` led to `s`. Written with a quantifier so that methods carry it along without unrolling the
      run. */
  ghost predicate Led(cfg: Config, past: seq<Step>, s: State) {
    forall a :: a == Account(past, s) ==> Correct(cfg, a)
  }

  lemma LedIff(cfg: Config, past: seq<Step>, s: State)
    ensures Led(cfg, past, s) <==> Leads(cfg, Init(cfg), past, s)
  {
    assert Correct(cfg, Account(past, s)) <==> Leads(cfg, Init(cfg), past, s);
  }

  /** Every theorem about runs holds of a state some steps led to. */
  lemma LedIsRun(cfg: Config, past: seq<Step>, s: State)
    requires Led(cfg, past, s)
    ensures Run(cfg, past) == s && Inv(cfg, s) && Flight.LimitsOk(cfg, s)
  {
    LedIff(cfg, past, s);
    Flight.RunLimits(cfg, past);
  }

  lemma TaskOfWorker(cfg: Config, past: seq<Step>, s: State, t: nat)
    requires Led(cfg, past, s) && t < |s.deliveries|
    ensures OwnerOk(cfg, s.consumers, s.deliveries[t])
  {
    LedIsRun(cfg, past, s);
  }

  lemma LedOneMore(cfg: Config, past: seq<Step>, s: State, st: Step)
    requires Led(cfg, past, s) && Enabled(cfg, s, st)
    ensures Led(cfg, past + [st], Apply(cfg, s, st))
  {
    LedIff(cfg, past, s);
    LeadsOne(cfg, s, st);
    LeadsThen(cfg, Init(cfg), past, s, [st], Apply(cfg, s, st));
    LedIff(cfg, past + [st], Apply(cfg, s, st));
  }

  /** A longer past goes on from a shorter one. */
  lemma PastGoesOn(cfg: Config, past: seq<Step>, s: State, past': seq<Step>, s': State)
    requires Led(cfg, past, s) && Led(cfg, past', s') && past <= past'
    ensures Leads(cfg, s, past'[|past|..], s')
  {
    LedIff(cfg, past, s);
    LedIff(cfg, past', s');
    ExecConcat(cfg, Init(cfg), past, past'[|past|..]);
    assert past + past'[|past|..] == past';
  }

  // ----- whose step it is -----

  /** What a piece of code has in its hands: one task, all tasks of a consumer, or the start-up of a worker. */
  datatype Own = OneTask(t: nat) | AllOf(k: nat) | Starting(w: nat)

  predicate Owns(s: State, own: Own, t: nat) {
    match own
    case OneTask(u) => t == u
    case AllOf(k) => t < |s.deliveries| && s.deliveries[t].consumer == k
    case Starting(_) => false
  }

  predicate IsBootStep(st: Step) { st.BootOpen? || st.BootQos? || st.BootConsume? || st.BootFail? }

  /** Everything but the code's own steps: other tasks, other workers, the broker, publishers, channels closing,
      time. */
  predicate Foreign(s: State, own: Own, st: Step) {
    && (IsClientStep(st) ==> !Owns(s, own, st.t))
    && (IsBootStep(st) && own.Starting? ==> st.w != own.w)
  }

  predicate Through(b: Boot) { b.Consuming? || b.Failed? }

  predicate OthersThrough(s: State, w: nat) {
    forall v :: 0 <= v < |s.boots| && v != w ==> Through(s.boots[v])
  }

  /** What a task has in hand stays: others may make its republication take effect and settle it, no more. The code's
      own tasks, `except` aside, stay where they are, and new ones wait to be run. */
  ghost predicate Left(s: State, s': State, own: Own, except: Option<nat>) {
    && |s.deliveries| <= |s'.deliveries| && s.consumers <= s'.consumers && |s.links| <= |s'.links|
    && (forall t :: 0 <= t < |s.deliveries| ==> SameDelivery(s.deliveries[t], s'.deliveries[t]))
    && (forall t :: 0 <= t < |s.deliveries| && Owns(s, own, t) && except != Some(t) ==>
          s'.deliveries[t].pc == s.deliveries[t].pc && s'.deliveries[t].verdict == s.deliveries[t].verdict)
    && (forall t :: |s.deliveries| <= t < |s'.deliveries| && Owns(s', own, t) ==> s'.deliveries[t].pc.Running?)
  }

  /** While a worker starts, others leave its progress alone; once they are all through, its channel's limit too. */
  ghost predicate BootLeft(s: State, s': State, own: Own) {
    && |s.boots| == |s'.boots| && |s.links| <= |s'.links|
    && (own.Starting? ==>
          && (own.w < |s.boots| ==> s'.boots[own.w] == s.boots[own.w])
          && (OthersThrough(s, own.w) ==>
                OthersThrough(s', own.w) && forall c :: 0 <= c < |s.links| ==> s'.links[c].qos == s.links[c].qos))
  }

  lemma LeftThen(s: State, s1: State, s2: State, own: Own, except: Option<nat>)
    requires Left(s, s1, own, except) && Left(s1, s2, own, except) && (except.Some? ==> except.value < |s.deliveries|)
    ensures Left(s, s2, own, except)
  {
    forall t | 0 <= t < |s.deliveries|
      ensures SameDelivery(s.deliveries[t], s2.deliveries[t])
    {
      assert SameDelivery(s.deliveries[t], s1.deliveries[t]) && SameDelivery(s1.deliveries[t], s2.deliveries[t]);
    }
    forall t | |s.deliveries| <= t < |s2.deliveries| && Owns(s2, own, t)
      ensures s2.deliveries[t].pc.Running?
    {
      if t < |s1.deliveries| {
        assert SameDelivery(s1.deliveries[t], s2.deliveries[t]);
      }
    }
  }

  lemma ClientStepTouches(cfg: Config, s: State, st: Step)
    requires Inv(cfg, s) && Enabled(cfg, s, st) && IsClientStep(st)
    ensures var s' := Apply(cfg, s, st);
            && st.t < |s.deliveries| == |s'.deliveries| && SameDelivery(s.deliveries[st.t], s'.deliveries[st.t])
            && forall t :: 0 <= t < |s.deliveries| && t != st.t ==> s'.deliveries[t] == s.deliveries[t]
  {
    ClientStepHasEffect(cfg, s, st);
  }

  lemma ClientStepLeaves(cfg: Config, s: State, st: Step, own: Own, except: Option<nat>)
    requires Inv(cfg, s) && Enabled(cfg, s, st) && IsClientStep(st)
    requires Foreign(s, own, st) || except == Some(st.t)
    ensures Left(s, Apply(cfg, s, st), own, except)
  {
    ClientStepTouches(cfg, s, st);
    ConsumersGrow(cfg, s, st);
  }

  lemma {:induction false} OtherStepLeaves(cfg: Config, s: State, st: Step, own: Own, except: Option<nat>)
    requires Inv(cfg, s) && Enabled(cfg, s, st) && !IsClientStep(st)
    ensures Left(s, Apply(cfg, s, st), own, except)
  {
    StepHasEffect(cfg, s, st);
    OtherStepTouches(cfg, s, st, Apply(cfg, s, st));
    ConsumersGrow(cfg, s, st);
  }

  lemma {:induction false} TaskStepLeaves(cfg: Config, s: State, st: Step, own: Own, except: Option<nat>)
    requires Inv(cfg, s) && Enabled(cfg, s, st) && (Foreign(s, own, st) || (IsClientStep(st) && except == Some(st.t)))
    ensures Left(s, Apply(cfg, s, st), own, except)
  {
    if IsClientStep(st) {
      ClientStepLeaves(cfg, s, st, own, except);
    } else {
      OtherStepLeaves(cfg, s, st, own, except);
    }
  }

  lemma ConsumersGrow(cfg: Config, s: State, st: Step)
    requires Enabled(cfg, s, st)
    ensures var s' := Apply(cfg, s, st); s.consumers <= s'.consumers && |s.links| <= |s'.links|
  {
    if !IsBootStep(st) {
      Flight.OthersKeepLimits(cfg, s, st);
    }
  }

  lemma {:induction false} ExecGrows(cfg: Config, s: State, steps: seq<Step>)
    ensures s.consumers <= Exec(cfg, s, steps).consumers
  {
    if steps != [] {
      var front, st := steps[..|steps| - 1], steps[|steps| - 1];
      ExecGrows(cfg, s, front);
      if Enabled(cfg, Exec(cfg, s, front), st) {
        ConsumersGrow(cfg, Exec(cfg, s, front), st);
      }
    }
  }

  /** Consumers, once there, keep their place and their settings. */
  lemma ConsumersRemain(cfg: Config, past: seq<Step>, s: State, past': seq<Step>, s': State)
    requires Led(cfg, past, s) && Led(cfg, past', s') && past <= past'
    ensures s.consumers <= s'.consumers
  {
    PastGoesOn(cfg, past, s, past', s');
    ExecGrows(cfg, s, past'[|past|..]);
  }

  lemma {:induction false} ThroughStays(cfg: Config, s: State, st: Step, v: nat)
    requires Enabled(cfg, s, st) && v < |s.boots| && Through(s.boots[v])
    ensures v < |Apply(cfg, s, st).boots| && Through(Apply(cfg, s, st).boots[v])
  {
    if !IsBootStep(st) {
      Flight.OthersKeepLimits(cfg, s, st);
    }
  }

  lemma {:induction false} ExecThrough(cfg: Config, s: State, steps: seq<Step>, v: nat)
    requires v < |s.boots| && Through(s.boots[v])
    ensures var s' := Exec(cfg, s, steps); v < |s'.boots| && Through(s'.boots[v])
  {
    if steps != [] {
      var front, st := steps[..|steps| - 1], steps[|steps| - 1];
      ExecThrough(cfg, s, front, v);
      if Enabled(cfg, Exec(cfg, s, front), st) {
        ThroughStays(cfg, Exec(cfg, s, front), st, v);
      }
    }
  }

  /** Workers that are through with their start-up stay so. */
  lemma OthersRemainThrough(cfg: Config, past: seq<Step>, s: State, past': seq<Step>, s': State, w: nat)
    requires Led(cfg, past, s) && Led(cfg, past', s') && past <= past' && OthersThrough(s, w)
    ensures OthersThrough(s', w)
  {
    LedIsRun(cfg, past, s);
    LedIsRun(cfg, past', s');
    PastGoesOn(cfg, past, s, past', s');
    forall v | 0 <= v < |s'.boots| && v != w
      ensures Through(s'.boots[v])
    {
      ExecThrough(cfg, s, past'[|past|..], v);
    }
  }

  lemma BootStepLeaves(cfg: Config, s: State, st: Step, own: Own)
    requires Enabled(cfg, s, st) && Foreign(s, own, st)
    ensures BootLeft(s, Apply(cfg, s, st), own)
  {
    if !IsBootStep(st) {
      Flight.OthersKeepLimits(cfg, s, st);
    }
  }

  // ----- the world -----

  /** The system around a piece of code. `state` is where the protocol stands after the steps `past`. What code does
      itself is checked against it; all it takes from it is what the broker hands its consumer. `pool` and its channels
      are what code works with. */
  class World {
    const cfg: Config
    const pool: ChannelPool
    var state: State
    ghost var past: seq<Step>

    constructor (cfg: Config, pool: ChannelPool)
      requires pool.transport.links == [] && pool.cached == None
      ensures this.cfg == cfg && this.pool == pool && state == Init(cfg) && past == [] && Valid()
    {
      this.cfg := cfg;
      this.pool := pool;
      state := Init(cfg);
      past := [];
      LedIff(cfg, [], Init(cfg));
    }

    ghost predicate Valid()
      reads this, pool, pool.transport
    {
      Led(cfg, past, state) && pool.transport.links == state.links && pool.cached == state.cached
    }

    /** The code has just done what step `st` says. */
    method Did(st: Step)
      requires Led(cfg, past, state) && Enabled(cfg, state, st)
      requires pool.transport.links == Apply(cfg, state, st).links && pool.cached == Apply(cfg, state, st).cached
      modifies this
      ensures Valid() && state == Apply(cfg, old(state), st) && past == old(past) + [st]
    {
      LedOneMore(cfg, past, state, st);
      state, past := Apply(cfg, state, st), past + [st];
    }

    /** The code waits: others take any number of steps of any kind. */
    method Others(own: Own)
      requires Valid()
      modifies this, pool, pool.transport
      ensures Valid() && old(past) <= past
      ensures Left(old(state), state, own, None) && BootLeft(old(state), state, own)
    {
      var steps: seq<Step> := *;
      for i := 0 to |steps|
        invariant Led(cfg, past, state) && old(past) <= past
        invariant Left(old(state), state, own, None) && BootLeft(old(state), state, own)
      {
        if Enabled(cfg, state, steps[i]) && Foreign(state, own, steps[i]) {
          OthersStep(old(state), own, steps[i]);
          state, past := Apply(cfg, state, steps[i]), past + [steps[i]];
        }
      }
      LedIsRun(cfg, past, state);
      pool.cached := state.cached;
      pool.transport.links := state.links;
    }

    /** A task waits at one of its awaits, having left `s` behind. */
    method Wait(own: Own, t: nat, ghost s: State)
      requires Valid() && Left(s, state, own, Some(t)) && Owns(state, own, t) && t < |s.deliveries|
      modifies this, pool, pool.transport
      ensures Valid() && old(past) <= past
      ensures Left(s, state, own, Some(t)) && Owns(state, own, t)
      ensures t < |old(state).deliveries| <= |state.deliveries|
      ensures var d, d' := old(state).deliveries[t], state.deliveries[t];
              d' == d.(forward := d'.forward, settled := d'.settled)
      ensures TaskOk(state.links, state.deliveries[t]) && pool.Valid()
    {
      ghost var s1 := state;
      Others(own);
      assert SameDelivery(s1.deliveries[t], state.deliveries[t]);
      LeftThen(s, s1, state, own, Some(t));
      LedIsRun(cfg, past, state);
    }

    /** A task has done one of its steps. */
    method Act(st: Step, own: Own, ghost s: State)
      requires IsClientStep(st) && Left(s, state, own, Some(st.t)) && Owns(state, own, st.t) && st.t < |s.deliveries|
      requires Led(cfg, past, state) && Enabled(cfg, state, st)
      requires pool.transport.links == Apply(cfg, state, st).links && pool.cached == Apply(cfg, state, st).cached
      modifies this
      ensures Valid() && state == Apply(cfg, old(state), st) && old(past) <= past
      ensures Left(s, state, own, Some(st.t)) && Owns(state, own, st.t)
      ensures st.t < |old(state).deliveries| && st.t < |state.deliveries|
      ensures SameDelivery(old(state).deliveries[st.t], state.deliveries[st.t])
      ensures TaskOk(state.links, state.deliveries[st.t])
    {
      ghost var s1 := state;
      LedIsRun(cfg, past, s1);
      TaskStepLeaves(cfg, s1, st, own, Some(st.t));
      Did(st);
      assert SameDelivery(s1.deliveries[st.t], state.deliveries[st.t]);
      LeftThen(s, s1, state, own, Some(st.t));
      LedIsRun(cfg, past, state);
    }

    lemma OthersStep(s: State, own: Own, st: Step)
      requires Led(cfg, past, state) && Left(s, state, own, None) && BootLeft(s, state, own)
      requires Enabled(cfg, state, st) && Foreign(state, own, st)
      ensures var s' := Apply(cfg, state, st);
              Led(cfg, past + [st], s') && Left(s, s', own, None) && BootLeft(s, s', own)
    {
      LedIsRun(cfg, past, state);
      LedOneMore(cfg, past, state, st);
      TaskStepLeaves(cfg, state, st, own, None);
      BootStepLeaves(cfg, state, st, own);
      LeftThen(s, state, Apply(cfg, state, st), own, None);
    }
  }
}
