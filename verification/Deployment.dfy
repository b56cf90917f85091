/** From the set-ups of src/subscriber.rs to the routing assumptions of the delivery theorems: when retry routing is
    isolated, and what a fanout exchange makes of it. */
module Deployment {
  import opened Wrappers
  import opened Sums
  import opened Amqp
  import opened Routing
  import opened Topics
  import opened Setup
  import Confluence
  import Protocol
  import opened Ledger
  import opened Accounting
  import opened Amplification
  import Attempts
  import opened Startup
  import RetryLife
  import SingleActive
  import Survival

  /** RabbitMQ predeclares these, and src/utils.rs:4-12 makes the first three the defaults. */
  const PREDECLARED := map["amq.direct" := Direct, "amq.fanout" := Fanout, "amq.topic" := Topic,
                           "amq.headers" := Headers, "amq.match" := Headers]

  /** src/utils.rs:4-12: where a builder of this kind starts from. */
  function DefaultExchange(kind: ExchangeKind): string {
    match kind
    case Direct => "amq.direct"
    case Topic => "amq.topic"
    case Fanout => "amq.fanout"
    case Headers => "amq.direct"
  }

  const FRESH_BROKER := Topology(PREDECLARED, map[], {})

  predicate AskedBy(ws: seq<Worker>, f: Fact) {
    exists i :: 0 <= i < |ws| && Asks(ws[i], f)
  }

  /** A broker holding exactly what it came with and what these workers declared. */
  ghost predicate Deployed(t: Topology, ws: seq<Worker>) {
    forall f :: Holds(t, f) <==> Holds(FRESH_BROKER, f) || AskedBy(ws, f)
  }

  /** The message loops one worker starts once its set-up is done; none where `consume` returns an error instead. */
  function Loops(w: Worker): seq<Protocol.WorkerSpec> {
    var fleet := Fleet(SpecOf(w), w.concurrency, w.spawner);
    if fleet.Some? then fleet.value else []
  }

  predicate Runs(w: Worker) { Loops(w) != [] }

  function LoopCount(): Worker -> nat { (w: Worker) => |Loops(w)| }

  function Specs(ws: seq<Worker>): seq<Protocol.WorkerSpec> {
    if ws == [] then [] else Specs(ws[..|ws| - 1]) + Loops(ws[|ws| - 1])
  }

  /** All loops of all workers, on one pool. */
  function ConfigOf(t: Topology, ws: seq<Worker>): Protocol.Config { Protocol.Config(t, Specs(ws)) }

  lemma {:induction false} SpecsCount(ws: seq<Worker>)
    ensures |Specs(ws)| == Sum(ws, LoopCount())
  {
    if ws != [] {
      SpecsCount(ws[..|ws| - 1]);
    }
  }

  /** Every loop is some running worker's. */
  lemma {:induction false} WorkerOf(ws: seq<Worker>, l: nat) returns (i: nat)
    requires l < |Specs(ws)|
    ensures i < |ws| && Runs(ws[i]) && Specs(ws)[l] == SpecOf(ws[i])
  {
    var front := ws[..|ws| - 1];
    if l < |Specs(front)| {
      i := WorkerOf(front, l);
    } else {
      i := |ws| - 1;
      assert Specs(ws)[l] == Loops(ws[i])[l - |Specs(front)|];
    }
  }

  /** Every running worker has a loop. */
  lemma {:induction false} LoopOf(ws: seq<Worker>, i: nat) returns (l: nat)
    requires i < |ws| && Runs(ws[i])
    ensures l < |Specs(ws)| && Specs(ws)[l] == SpecOf(ws[i])
  {
    var front := ws[..|ws| - 1];
    if i < |front| {
      l := LoopOf(front, i);
    } else {
      l := |Specs(front)|;
      assert Specs(ws)[l] == Loops(ws[i])[0];
    }
  }

  /** As many loops as `concurrency` asks for where `parallelize` was called, none where it was not; one loop without
      `concurrency`. Each is the worker's own: its queue, its whole prefetch, its retry limit. */
  lemma LoopsAsConfigured(w: Worker)
    ensures w.concurrency == None ==> |Loops(w)| == 1
    ensures w.concurrency.Some? && w.spawner ==> |Loops(w)| == w.concurrency.value
    ensures w.concurrency.Some? && !w.spawner ==> |Loops(w)| == 0
    ensures forall l :: 0 <= l < |Loops(w)| ==>
              && Loops(w)[l].queue == w.queue && Loops(w)[l].prefetch == w.prefetch
              && (w.retry.None? ==> Loops(w)[l].limit == None)
              && (w.retry.Some? ==> Loops(w)[l].limit == Some(w.retry.value.max))
    ensures Runs(w) <==> w.concurrency == None || (w.spawner && w.concurrency.value > 0)
  {
  }

  // ----- names -----

  /** Main queues and the names derived from them do not collide. */
  predicate NamesApart(ws: seq<Worker>) {
    && (forall i, j :: 0 <= i < j < |ws| ==> ws[i].queue != ws[j].queue)
    && (forall i, j :: 0 <= i < |ws| && 0 <= j < |ws| ==>
          ws[i].queue != RetryQueue(ws[j].queue) && ws[i].queue != DlqQueue(ws[j].queue))
  }

  /** Two workers with names apart never want the same queue; one worker never wants a queue twice differently. */
  lemma QueuesDoNotClash(v: Worker, w: Worker, q: string, a: QueueArgs, b: QueueArgs)
    requires v == w || v.queue != w.queue
    requires v.queue != RetryQueue(w.queue) && v.queue != DlqQueue(w.queue)
    requires w.queue != RetryQueue(v.queue) && w.queue != DlqQueue(v.queue)
    requires Asks(v, HasQueue(q, a)) && Asks(w, HasQueue(q, b))
    ensures a == b
  {
    DerivedNamesDiffer(v.queue, w.queue);
    DerivedNamesDiffer(w.queue, v.queue);
    if q == v.queue {
      assert q == w.queue;
    } else if q == RetryQueue(v.queue) {
      assert q == RetryQueue(w.queue);
    } else {
      assert q == DlqQueue(w.queue);
    }
  }

  /** Workers, of any kinds on any exchanges, whose names are apart and who name the same exchange under one kind
      only. */
  predicate Coherent(ws: seq<Worker>) {
    && NamesApart(ws)
    && (forall i, j :: 0 <= i < |ws| && 0 <= j < |ws| && ws[i].exchange == ws[j].exchange != "" ==>
        ws[i].kind == ws[j].kind)
    && (forall i :: 0 <= i < |ws| && ws[i].exchange in PREDECLARED ==> ws[i].kind == PREDECLARED[ws[i].exchange])
  }

  /** Workers left on the default exchanges of their kinds are coherent if only their names are apart. */
  lemma DefaultsAreCoherent(ws: seq<Worker>)
    requires forall i :: 0 <= i < |ws| ==> !ws[i].kind.Headers? && ws[i].exchange == DefaultExchange(ws[i].kind)
    ensures Coherent(ws) <==> NamesApart(ws)
  {
  }

  /** Such workers agree, so their set-ups reach one topology in every order. */
  lemma CoherentAgree(ws: seq<Worker>)
    requires Coherent(ws)
    ensures Confluence.Agree(FRESH_BROKER, ws)
  {
    forall f, g | Confluence.Known(FRESH_BROKER, ws, f) && Confluence.Known(FRESH_BROKER, ws, g)
      ensures !Confluence.Clash(f, g)
    {
      if f.HasQueue? && g.HasQueue? && f.queue == g.queue {
        var i :| 0 <= i < |ws| && Asks(ws[i], f);
        var j :| 0 <= j < |ws| && Asks(ws[j], g);
        QueuesDoNotClash(ws[i], ws[j], f.queue, f.args, g.args);
      }
    }
  }

  /** Their set-ups, interleaved in any order on a fresh broker, all finish with exactly this broker. */
  lemma CoherentDeploys(ws: seq<Worker>, schedule: seq<nat>)
    requires Coherent(ws)
    requires forall i :: 0 <= i < |ws| ==>
             Finished(Scripts(ws), Run(Scripts(ws), Init(FRESH_BROKER, |ws|), schedule), i)
    ensures Deployed(Run(Scripts(ws), Init(FRESH_BROKER, |ws|), schedule).topology, ws)
  {
    CoherentAgree(ws);
    Confluence.SetupsReachTheUnion(FRESH_BROKER, ws, schedule);
    var t := Run(Scripts(ws), Init(FRESH_BROKER, |ws|), schedule).topology;
    forall f
      ensures Holds(t, f) <==> Holds(FRESH_BROKER, f) || AskedBy(ws, f)
    {
      assert Holds(t, f) <==> Confluence.Known(FRESH_BROKER, ws, f);
    }
  }

  lemma QueueArgsOf(t: Topology, ws: seq<Worker>, i: nat)
    requires Deployed(t, ws) && i < |ws|
    ensures ws[i].queue in t.queues && t.queues[ws[i].queue] == MainArgs(ws[i])
    ensures ws[i].retry.Some? ==>
              && RetryQueue(ws[i].queue) in t.queues && t.queues[RetryQueue(ws[i].queue)] == RetryArgs(ws[i])
              && DlqQueue(ws[i].queue) in t.queues && t.queues[DlqQueue(ws[i].queue)] == PLAIN
    ensures ws[i].exchange != "" ==> ws[i].exchange in t.exchanges && t.exchanges[ws[i].exchange] == ws[i].kind
  {
    var w := ws[i];
    assert Asks(w, HasQueue(w.queue, MainArgs(w)));
    assert Holds(t, HasQueue(w.queue, MainArgs(w)));
    if w.retry.Some? {
      assert Asks(w, HasQueue(RetryQueue(w.queue), RetryArgs(w))) && Asks(w, HasQueue(DlqQueue(w.queue), PLAIN));
      assert Holds(t, HasQueue(RetryQueue(w.queue), RetryArgs(w))) && Holds(t, HasQueue(DlqQueue(w.queue), PLAIN));
    }
    if w.exchange != "" {
      assert Asks(w, HasExchange(w.exchange, w.kind));
      assert Holds(t, HasExchange(w.exchange, w.kind));
    }
  }

  /** What a deployment leaves of one worker's queues: the main queue has the worker's own single-active setting and
      never expires anything, the retry queue sends back to the worker's exchange under the main queue's name after the
      configured delay, and nothing ever leaves the dead-letter queue. */
  lemma QueuesAsConfigured(t: Topology, ws: seq<Worker>, i: nat)
    requires Deployed(t, ws) && i < |ws|
    ensures var w := ws[i];
            && w.queue in t.queues && t.queues[w.queue] == QueueArgs(w.singleActive, None)
            && (w.retry.Some? ==>
                  && w.queue + ".retry" in t.queues && w.queue + ".dlq" in t.queues
                  && t.queues[w.queue + ".dlq"] == QueueArgs(false, None)
                  && !t.queues[w.queue + ".retry"].singleActive
                  && t.queues[w.queue + ".retry"].deadLetter.Some?
                  && var back := t.queues[w.queue + ".retry"].deadLetter.value;
                     && back.exchange == w.exchange && back.key == w.queue
                     && (w.retry.value.delayMs < 0x1_0000_0000 ==> back.ttl == w.retry.value.delayMs))
  {
    QueueArgsOf(t, ws, i);
  }

  /** The ordering theorem holds of a worker's queue exactly when it asked for a single active consumer and every
      running worker of the pool has prefetch 1. */
  lemma SoloIff(t: Topology, ws: seq<Worker>, i: nat)
    requires Deployed(t, ws) && i < |ws|
    ensures SingleActive.Solo(ConfigOf(t, ws), ws[i].queue) <==>
              ws[i].singleActive && forall j :: 0 <= j < |ws| && Runs(ws[j]) ==> ws[j].prefetch == 1
  {
    var cfg := ConfigOf(t, ws);
    QueueArgsOf(t, ws, i);
    forall l | 0 <= l < |cfg.workers|
      ensures exists j :: 0 <= j < |ws| && Runs(ws[j]) && cfg.workers[l].prefetch == ws[j].prefetch
    {
      var j := WorkerOf(ws, l);
    }
    forall j | 0 <= j < |ws| && Runs(ws[j])
      ensures exists l :: 0 <= l < |cfg.workers| && cfg.workers[l].prefetch == ws[j].prefetch
    {
      var l := LoopOf(ws, j);
    }
  }

  lemma BindingsOf(t: Topology, ws: seq<Worker>, b: Binding)
    requires Deployed(t, ws)
    ensures b in t.bindings <==> exists i :: 0 <= i < |ws| && Asks(ws[i], HasBinding(b))
  {
    assert Holds(t, HasBinding(b)) <==> AskedBy(ws, HasBinding(b));
  }

  /** What a worker's retry queue releases is routed by the worker's exchange under the worker's queue name. */
  lemma ReturnRoute(t: Topology, ws: seq<Worker>, i: nat)
    requires Deployed(t, ws) && i < |ws| && ws[i].retry.Some?
    ensures Expires(t, RetryQueue(ws[i].queue)) && !Expires(t, DlqQueue(ws[i].queue)) && !Expires(t, ws[i].queue)
    ensures ExpiryTargets(t, RetryQueue(ws[i].queue)) == Route(t, ws[i].exchange, ws[i].queue)
    ensures ws[i].queue in Route(t, ws[i].exchange, ws[i].queue)
  {
    QueueArgsOf(t, ws, i);
    if ws[i].exchange != "" {
      var b := Binding(ws[i].queue, ws[i].exchange, ws[i].queue);
      assert Asks(ws[i], HasBinding(b));
      BindingsOf(t, ws, b);
      SelfKeyMatches(t.exchanges[ws[i].exchange], ws[i].queue);
      assert Delivers(t, b, ws[i].exchange, ws[i].queue);
    }
  }

  lemma Mains(t: Topology, ws: seq<Worker>, q: string)
    ensures IsMain(ConfigOf(t, ws), q) <==> exists i :: 0 <= i < |ws| && ws[i].queue == q && Runs(ws[i])
  {
    var cfg := ConfigOf(t, ws);
    if i :| 0 <= i < |ws| && ws[i].queue == q && Runs(ws[i]) {
      var l := LoopOf(ws, i);
      assert cfg.workers[l].queue == q;
    }
    if l :| 0 <= l < |cfg.workers| && cfg.workers[l].queue == q {
      var i := WorkerOf(ws, l);
    }
  }

  /** Nobody consumes a retry or dead-letter queue. */
  lemma DerivedNotMain(t: Topology, ws: seq<Worker>, i: nat)
    requires NamesApart(ws) && i < |ws|
    ensures !IsMain(ConfigOf(t, ws), RetryQueue(ws[i].queue)) && !IsMain(ConfigOf(t, ws), DlqQueue(ws[i].queue))
  {
    Mains(t, ws, RetryQueue(ws[i].queue));
    Mains(t, ws, DlqQueue(ws[i].queue));
  }

  /** A worker's queue is isolated exactly when its returns reach it alone; without retry or without a loop it always
      is. */
  lemma IsolatedQueueIff(t: Topology, ws: seq<Worker>, i: nat)
    requires Deployed(t, ws) && NamesApart(ws) && i < |ws|
    ensures IsolatedQueue(ConfigOf(t, ws), ws[i].queue) <==>
              (Runs(ws[i]) && ws[i].retry.Some? ==> Route(t, ws[i].exchange, ws[i].queue) == {ws[i].queue})
  {
    var cfg := ConfigOf(t, ws);
    QueueArgsOf(t, ws, i);
    DerivedNotMain(t, ws, i);
    if ws[i].retry.Some? {
      ReturnRoute(t, ws, i);
    }
    forall l | 0 <= l < |cfg.workers| && cfg.workers[l].queue == ws[i].queue
      ensures cfg.workers[l].limit == LimitOf(ws[i]) && Runs(ws[i])
    {
      var j := WorkerOf(ws, l);
    }
    if Runs(ws[i]) {
      var l := LoopOf(ws, i);
      assert cfg.workers[l].queue == ws[i].queue && cfg.workers[l].limit == LimitOf(ws[i]);
    }
  }

  /** With names apart, isolation is a matter of the return routes of the workers that run. */
  lemma IsolatedIffReturnsAlone(t: Topology, ws: seq<Worker>)
    requires Deployed(t, ws) && NamesApart(ws)
    ensures Isolated(ConfigOf(t, ws)) <==>
              forall i :: 0 <= i < |ws| && Runs(ws[i]) && ws[i].retry.Some? ==>
                Route(t, ws[i].exchange, ws[i].queue) == {ws[i].queue}
  {
    var cfg := ConfigOf(t, ws);
    forall i | 0 <= i < |ws|
      ensures IsolatedQueue(cfg, ws[i].queue) <==>
                (Runs(ws[i]) && ws[i].retry.Some? ==> Route(t, ws[i].exchange, ws[i].queue) == {ws[i].queue})
    {
      IsolatedQueueIff(t, ws, i);
    }
    forall l | 0 <= l < |cfg.workers|
      ensures exists i :: 0 <= i < |ws| && cfg.workers[l].queue == ws[i].queue
    {
      var i := WorkerOf(ws, l);
    }
    if Isolated(cfg) {
      forall i | 0 <= i < |ws| && Runs(ws[i]) && ws[i].retry.Some?
        ensures Route(t, ws[i].exchange, ws[i].queue) == {ws[i].queue}
      {
        var l := LoopOf(ws, i);
        assert IsolatedQueue(cfg, cfg.workers[l].queue);
      }
    }
  }

  // ----- what holds of every deployment, isolated or not -----

  /** Every worker's queue is guarded: its returns reach it, perhaps among others. */
  lemma DeployedIsGuarded(t: Topology, ws: seq<Worker>, i: nat)
    requires Deployed(t, ws) && NamesApart(ws) && i < |ws|
    ensures Survival.Guarded(ConfigOf(t, ws), ws[i].queue)
  {
    var cfg := ConfigOf(t, ws);
    QueueArgsOf(t, ws, i);
    DerivedNotMain(t, ws, i);
    if ws[i].retry.Some? {
      ReturnRoute(t, ws, i);
    }
    forall l | 0 <= l < |cfg.workers| && cfg.workers[l].queue == ws[i].queue
      ensures cfg.workers[l].limit == LimitOf(ws[i])
    {
      var j := WorkerOf(ws, l);
    }
  }

  /** Workers of any kinds on any exchanges, sharing or overhearing as they may: no message that a worker's queue
      accepted is lost there, and every delivery from it that was republished without being acknowledged left one copy
      more. */
  lemma {:induction false} DeploymentLosesNothing(t: Topology, ws: seq<Worker>, i: nat, steps: seq<Protocol.Step>,
      n: nat) returns (c: nat)
    requires Deployed(t, ws) && NamesApart(ws) && i < |ws|
    requires var s := Protocol.Run(ConfigOf(t, ws), steps); n < |s.origins| && ws[i].queue in s.origins[n].targets
    ensures var cfg := ConfigOf(t, ws); var s, q := Protocol.Run(cfg, steps), ws[i].queue;
            && Sum(s.copies, AtHome(cfg, s.deliveries, n, q)) >= 1 + Sum(s.deliveries, UnpaidFrom(n, q))
            && c < |s.copies| && KeptAt(cfg, s, n, q, c)
  {
    DeployedIsGuarded(t, ws, i);
    Survival.NothingLostAt(ConfigOf(t, ws), steps, n, ws[i].queue);
    c := Survival.NoLoss(ConfigOf(t, ws), steps, n, ws[i].queue);
  }

  /** All main queues. */
  function MainQueues(ws: seq<Worker>): set<string> { set i | 0 <= i < |ws| :: ws[i].queue }

  /** Where all workers run, their queues are a realm: nothing retried leaves them, so runs end drained. */
  lemma DeployedRealm(t: Topology, ws: seq<Worker>)
    requires Deployed(t, ws) && NamesApart(ws) && forall i :: 0 <= i < |ws| ==> Runs(ws[i])
    ensures Realm(ConfigOf(t, ws), MainQueues(ws))
  {
    var cfg := ConfigOf(t, ws);
    forall q | q in MainQueues(ws)
      ensures IsMain(cfg, q) && !Expires(t, q)
    {
      var i :| 0 <= i < |ws| && ws[i].queue == q;
      Mains(t, ws, q);
      QueueArgsOf(t, ws, i);
    }
    forall l | 0 <= l < |cfg.workers| && cfg.workers[l].limit.Some?
      ensures var q := cfg.workers[l].queue;
              && !IsMain(cfg, RetryQueue(q)) && !IsMain(cfg, DlqQueue(q)) && !Expires(t, DlqQueue(q))
              && Expires(t, RetryQueue(q)) && ExpiryTargets(t, RetryQueue(q)) <= MainQueues(ws)
    {
      var i := WorkerOf(ws, l);
      ReturnRoute(t, ws, i);
      DerivedNotMain(t, ws, i);
      ReturnStays(t, ws, i);
    }
  }

  lemma ReturnStays(t: Topology, ws: seq<Worker>, i: nat)
    requires Deployed(t, ws) && i < |ws|
    ensures Route(t, ws[i].exchange, ws[i].queue) <= MainQueues(ws)
  {
    forall q | q in Route(t, ws[i].exchange, ws[i].queue)
      ensures q in MainQueues(ws)
    {
      if ws[i].exchange != "" {
        var b :| b in t.bindings && Delivers(t, b, ws[i].exchange, ws[i].queue) && b.queue == q;
        BindingsOf(t, ws, b);
      }
    }
  }

  // ----- who hears whose returns -----

  /** A binding of `v` matches the key under which the returns of `w` are routed, on the exchange they are routed by. */
  predicate Overhears(v: Worker, w: Worker) {
    && v.exchange == w.exchange
    && (KeyMatches(w.kind, v.key, w.queue) || (v.retry.Some? && KeyMatches(w.kind, v.queue, w.queue)))
  }

  /** The return of worker `i` enters the queues of exactly the workers that overhear it, itself among them. */
  lemma ReturnReaches(t: Topology, ws: seq<Worker>, i: nat, q: string)
    requires Deployed(t, ws) && i < |ws| && ws[i].retry.Some? && ws[i].exchange != ""
    ensures q in Route(t, ws[i].exchange, ws[i].queue) <==>
              exists j :: 0 <= j < |ws| && ws[j].queue == q && Overhears(ws[j], ws[i])
    ensures Overhears(ws[i], ws[i])
  {
    var e := ws[i].exchange;
    QueueArgsOf(t, ws, i);
    SelfKeyMatches(ws[i].kind, ws[i].queue);
    if q in Route(t, e, ws[i].queue) {
      var b :| b in t.bindings && Delivers(t, b, e, ws[i].queue) && b.queue == q;
      BindingsOf(t, ws, b);
    }
    if j :| 0 <= j < |ws| && ws[j].queue == q && Overhears(ws[j], ws[i]) {
      var b := Binding(q, e, if KeyMatches(ws[i].kind, ws[j].key, ws[i].queue) then ws[j].key else ws[j].queue);
      assert Asks(ws[j], HasBinding(b));
      BindingsOf(t, ws, b);
      QueueArgsOf(t, ws, j);
      assert Delivers(t, b, e, ws[i].queue);
    }
  }

  lemma AloneIffUnheard(t: Topology, ws: seq<Worker>, i: nat)
    requires Deployed(t, ws) && NamesApart(ws) && i < |ws| && ws[i].retry.Some?
    ensures Route(t, ws[i].exchange, ws[i].queue) == {ws[i].queue} <==>
              ws[i].exchange == "" || forall j :: 0 <= j < |ws| && i != j ==> !Overhears(ws[j], ws[i])
  {
    QueueArgsOf(t, ws, i);
    if ws[i].exchange != "" {
      forall q
        ensures q in Route(t, ws[i].exchange, ws[i].queue) <==>
                  exists j :: 0 <= j < |ws| && ws[j].queue == q && Overhears(ws[j], ws[i])
      {
        ReturnReaches(t, ws, i, q);
      }
      ReturnReaches(t, ws, i, ws[i].queue);
      forall j | 0 <= j < |ws| && i != j && Overhears(ws[j], ws[i])
        ensures ws[j].queue in Route(t, ws[i].exchange, ws[i].queue) && ws[j].queue != ws[i].queue
      {
      }
    }
  }

  /** Any kinds, any exchanges, any number of loops: retry routing is isolated if and only if every running, retrying
      worker uses the nameless exchange or is overheard by no other worker. */
  lemma IsolatedIffUnheard(t: Topology, ws: seq<Worker>)
    requires Deployed(t, ws) && NamesApart(ws)
    ensures Isolated(ConfigOf(t, ws)) <==>
              forall i :: 0 <= i < |ws| && Runs(ws[i]) && ws[i].retry.Some? ==>
                ws[i].exchange == "" || forall j :: 0 <= j < |ws| && i != j ==> !Overhears(ws[j], ws[i])
  {
    IsolatedIffReturnsAlone(t, ws);
    forall i | 0 <= i < |ws| && ws[i].retry.Some?
      ensures Route(t, ws[i].exchange, ws[i].queue) == {ws[i].queue} <==>
                ws[i].exchange == "" || forall j :: 0 <= j < |ws| && i != j ==> !Overhears(ws[j], ws[i])
    {
      AloneIffUnheard(t, ws, i);
    }
  }

  /** A routing key without wildcard words overhears only the queue that bears its name. */
  lemma LiteralKeyOverhears(kind: ExchangeKind, key: string, queue: string)
    requires kind.Direct? || (kind.Topic? && "*" !in Words(key) && "#" !in Words(key))
    ensures KeyMatches(kind, key, queue) <==> key == queue
  {
    if kind.Topic? {
      LiteralMatches(Words(key), Words(queue));
      if Words(key) == Words(queue) {
        WordsInjective(key, queue);
      }
    }
  }

  // ----- direct workers -----

  /** Direct workers with distinct keys on one exchange, as `BuiltWorker::run` names their queues. */
  predicate DirectWorkers(ws: seq<Worker>, e: string) {
    && (forall i :: 0 <= i < |ws| ==> ws[i].kind == Direct && ws[i].exchange == e && ws[i].queue == JobQueue(ws[i].key))
    && (forall i, j :: 0 <= i < j < |ws| ==> ws[i].key != ws[j].key)
  }

  lemma DirectNamesApart(ws: seq<Worker>, e: string)
    requires DirectWorkers(ws, e)
    ensures NamesApart(ws)
  {
    forall i, j | 0 <= i < |ws| && 0 <= j < |ws|
      ensures i != j ==> ws[i].queue != ws[j].queue
      ensures ws[i].queue != RetryQueue(ws[j].queue) && ws[i].queue != DlqQueue(ws[j].queue)
    {
      DerivedNamesDiffer(ws[i].key, ws[j].key);
      DerivedNamesDiffer(ws[j].queue, ws[i].key);
      DerivedNamesDiffer(ws[i].queue, ws[j].queue);
    }
  }

  /** For direct workers retry routing is isolated if and only if they use the nameless exchange or no worker's routing
      key is a running, retrying worker's key followed by ".job". */
  lemma DirectIsolatedIff(t: Topology, ws: seq<Worker>, e: string)
    requires Deployed(t, ws) && DirectWorkers(ws, e)
    ensures Isolated(ConfigOf(t, ws)) <==>
              e == "" || forall i, j :: 0 <= i < |ws| && 0 <= j < |ws| && Runs(ws[i]) && ws[i].retry.Some? ==>
                           ws[j].key != JobQueue(ws[i].key)
  {
    DirectNamesApart(ws, e);
    IsolatedIffUnheard(t, ws);
    forall i, j | 0 <= i < |ws| && 0 <= j < |ws|
      ensures i != j ==> (Overhears(ws[j], ws[i]) <==> ws[j].key == JobQueue(ws[i].key))
      ensures i == j ==> ws[j].key != JobQueue(ws[i].key)
    {
      DerivedNamesDiffer(ws[j].key, ws[j].key);
    }
  }

  /** What the builder hands to `BuiltWorker::run`, or None where that panics. */
  function Built(b: Builder): Option<Worker> {
    var names := Resolve(b.kind, b.queue, b.routingKey);
    if names.None? then None
    else Some(Worker(b.kind, b.exchange, names.value.0, names.value.1, b.retry, b.singleActive, b.prefetch,
                     b.concurrency, b.spawner))
  }

  /** What each kind makes of the builder's `queue` and `routing_key`, every other setting being passed on. */
  lemma BuiltAsConfigured(b: Builder)
    ensures b.kind == Direct ==> Built(b).Some? && Built(b).value.queue == b.queue + ".job" &&
                                 Built(b).value.key == b.queue
    ensures b.kind == Topic ==>
              && (Built(b).Some? <==> b.routingKey.Some?)
              && (Built(b).Some? ==> Built(b).value.queue == b.queue && Built(b).value.key == b.routingKey.value)
    ensures b.kind == Fanout ==> Built(b).Some? && Built(b).value.queue == b.queue && Built(b).value.key == ""
    ensures b.kind == Headers ==> Built(b).None?
    ensures Built(b).Some? ==>
              var w := Built(b).value;
              && w.kind == b.kind && w.exchange == b.exchange && w.retry == b.retry
              && w.singleActive == b.singleActive && w.prefetch == b.prefetch
              && w.concurrency == b.concurrency && w.spawner == b.spawner
  {
  }

  /** Builders deployed on one pool, that of queue `q` with a single active consumer and every one that starts loops
      with prefetch 1: in every run whose failovers return what was held back to the head of its queue, deliveries from
      `q` follow the order of arrival, redeliveries included. */
  lemma BuiltDeliversInOrder(t: Topology, bs: seq<Builder>, ws: seq<Worker>, i: nat, steps: seq<Protocol.Step>,
      a: nat, b: nat)
    requires |ws| == |bs| && i < |bs| && Deployed(t, ws)
    requires forall j :: 0 <= j < |bs| ==> Built(bs[j]) == Some(ws[j])
    requires bs[i].singleActive && forall j :: 0 <= j < |bs| && StartsLoops(bs[j]) ==> bs[j].prefetch == 1
    requires SingleActive.ReturnsToHead(steps)
    requires var ds := Protocol.Run(ConfigOf(t, ws), steps).deliveries;
             a < b < |ds| && ds[a].queue == ds[b].queue == ws[i].queue
    ensures var ds := Protocol.Run(ConfigOf(t, ws), steps).deliveries; ds[a].copy <= ds[b].copy
  {
    assert Built(bs[i]) == Some(ws[i]);
    forall j | 0 <= j < |ws| && Runs(ws[j])
      ensures ws[j].prefetch == 1
    {
      assert Built(bs[j]) == Some(ws[j]);
    }
    SoloIff(t, ws, i);
    SingleActive.SoloDeliversInOrder(ConfigOf(t, ws), steps, ws[i].queue, a, b);
  }

  /** `concurrency` asks for loops, and `parallelize` was called where it must be. */
  predicate StartsLoops(b: Builder) { b.concurrency.None? || (b.spawner && b.concurrency.value > 0) }

  /** Direct builders with distinct `queue` settings always run, as direct workers with distinct keys; their retry
      routing is isolated if and only if none of the settings is that of a builder that retries and whose loops start,
      followed by ".job". */
  lemma DirectBuilders(t: Topology, bs: seq<Builder>, e: string, ws: seq<Worker>)
    requires e != "" && forall i :: 0 <= i < |bs| ==> bs[i].kind == Direct && bs[i].exchange == e
    requires forall i, j :: 0 <= i < j < |bs| ==> bs[i].queue != bs[j].queue
    requires |ws| == |bs| && Deployed(t, ws)
    requires forall i :: 0 <= i < |bs| && Built(bs[i]).Some? ==> ws[i] == Built(bs[i]).value
    ensures DirectWorkers(ws, e)
    ensures Isolated(ConfigOf(t, ws)) <==>
              forall i, j :: 0 <= i < |bs| && 0 <= j < |bs| && bs[i].retry.Some? && StartsLoops(bs[i]) ==>
                bs[j].queue != JobQueue(bs[i].queue)
  {
    forall i | 0 <= i < |bs|
      ensures ws[i].kind == Direct && ws[i].exchange == e && ws[i].queue == JobQueue(bs[i].queue)
      ensures ws[i].key == bs[i].queue && ws[i].retry == bs[i].retry && (Runs(ws[i]) <==> StartsLoops(bs[i]))
    {
      assert Built(bs[i]).Some?;
    }
    DirectIsolatedIff(t, ws, e);
  }

  /** Where a worker's retry routing is isolated, the spacing and attempt theorems hold of its queue with the limit and
      the TTL this worker was configured with, whatever the other workers' settings. */
  lemma DeploymentTiming(t: Topology, ws: seq<Worker>, i: nat)
    requires Deployed(t, ws) && NamesApart(ws) && i < |ws| && IsolatedQueue(ConfigOf(t, ws), ws[i].queue)
    requires Runs(ws[i]) && ws[i].retry.Some?
    ensures var retry := ws[i].retry.value;
            && RetryLife.Uniform(ConfigOf(t, ws), {ws[i].queue}, Some(retry.max), Ttl(retry.delayMs))
            && Attempts.RetriesExactly(ConfigOf(t, ws), ws[i].queue, retry.max) && IsMain(ConfigOf(t, ws), ws[i].queue)
  {
    var cfg := ConfigOf(t, ws);
    QueueArgsOf(t, ws, i);
    forall l | 0 <= l < |cfg.workers| && cfg.workers[l].queue == ws[i].queue
      ensures cfg.workers[l].limit == Some(ws[i].retry.value.max)
    {
      var j := WorkerOf(ws, l);
    }
    var l := LoopOf(ws, i);
    assert cfg.workers[l].queue == ws[i].queue;
    assert ReturnsHome(t, ws[i].queue);
    HomesAreRealm(cfg, {ws[i].queue});
  }

  // ----- fanout workers -----

  /** Workers with names apart, those on exchange `e` all fanout and running; others may be anything elsewhere. */
  predicate FanoutExchange(ws: seq<Worker>, e: string) {
    && e != "" && NamesApart(ws)
    && forall i :: 0 <= i < |ws| && ws[i].exchange == e ==> ws[i].kind == Fanout && Runs(ws[i])
  }

  /** The main queues on exchange `e`. */
  function Queues(ws: seq<Worker>, e: string): set<string> {
    set i | 0 <= i < |ws| && ws[i].exchange == e :: ws[i].queue
  }

  predicate RetryAtMost(ws: seq<Worker>, e: string, limit: nat) {
    forall i :: 0 <= i < |ws| && ws[i].exchange == e && ws[i].retry.Some? ==> ws[i].retry.value.max <= limit
  }

  predicate AllRetry(ws: seq<Worker>, e: string, limit: u32) {
    forall i :: 0 <= i < |ws| && ws[i].exchange == e ==> LimitOf(ws[i]) == Some(limit)
  }

  /** Whatever the key, a fanout exchange delivers to every worker on it, each once. */
  lemma FanoutRoute(t: Topology, ws: seq<Worker>, e: string, key: string)
    requires Deployed(t, ws) && FanoutExchange(ws, e)
    ensures Route(t, e, key) == Queues(ws, e)
  {
    forall q | q in Route(t, e, key)
      ensures q in Queues(ws, e)
    {
      var b :| b in t.bindings && Delivers(t, b, e, key) && b.queue == q;
      BindingsOf(t, ws, b);
    }
    forall q | q in Queues(ws, e)
      ensures q in Route(t, e, key)
    {
      var i :| 0 <= i < |ws| && ws[i].exchange == e && ws[i].queue == q;
      var b := Binding(q, e, ws[i].key);
      assert Asks(ws[i], HasBinding(b));
      BindingsOf(t, ws, b);
      QueueArgsOf(t, ws, i);
      assert Delivers(t, b, e, key);
    }
  }

  /** The retry set-up of one worker on a fanout exchange: its failures return to all the queues there. */
  lemma FanoutReturn(t: Topology, ws: seq<Worker>, e: string, i: nat)
    requires Deployed(t, ws) && FanoutExchange(ws, e) && i < |ws| && ws[i].exchange == e
    ensures var cfg, q := ConfigOf(t, ws), ws[i].queue;
            && IsMain(cfg, q) && !Expires(t, q)
            && (ws[i].retry.Some? ==>
                  && !IsMain(cfg, RetryQueue(q)) && !IsMain(cfg, DlqQueue(q)) && !Expires(t, DlqQueue(q))
                  && DlqQueue(q) in t.queues
                  && Expires(t, RetryQueue(q)) && ExpiryTargets(t, RetryQueue(q)) == Queues(ws, e))
  {
    QueueArgsOf(t, ws, i);
    Mains(t, ws, ws[i].queue);
    if ws[i].retry.Some? {
      ReturnRoute(t, ws, i);
      FanoutRoute(t, ws, e, ws[i].queue);
      DerivedNotMain(t, ws, i);
    }
  }

  /** n workers on a fanout exchange, of which any number retry at most `limit` times: their failures return to at most
      n queues; exactly n where all retry `limit` times. */
  lemma FanoutSpread(t: Topology, ws: seq<Worker>, e: string, limit: nat)
    requires Deployed(t, ws) && FanoutExchange(ws, e) && RetryAtMost(ws, e, limit)
    ensures Spread(ConfigOf(t, ws), Queues(ws, e), Attempts.PerRun(|Queues(ws, e)|, limit))
    ensures limit < U32 && AllRetry(ws, e, limit as u32) ==>
              ExactSpread(ConfigOf(t, ws), Queues(ws, e), Attempts.PerRun(|Queues(ws, e)|, limit))
  {
    var cfg := ConfigOf(t, ws);
    forall q | q in Queues(ws, e)
      ensures IsMain(cfg, q) && !Expires(t, q)
    {
      var i :| 0 <= i < |ws| && ws[i].exchange == e && ws[i].queue == q;
      FanoutReturn(t, ws, e, i);
    }
    forall l | 0 <= l < |cfg.workers| && cfg.workers[l].queue in Queues(ws, e)
      ensures var q, spec := cfg.workers[l].queue, cfg.workers[l];
              && (spec.limit.Some? ==>
                    && spec.limit.value <= limit
                    && !IsMain(cfg, RetryQueue(q)) && !IsMain(cfg, DlqQueue(q)) && !Expires(t, DlqQueue(q))
                    && DlqQueue(q) in t.queues
                    && Expires(t, RetryQueue(q)) && ExpiryTargets(t, RetryQueue(q)) == Queues(ws, e))
              && (limit < U32 && AllRetry(ws, e, limit as u32) ==> spec.limit == Some(limit))
    {
      var i := LoopOnFanout(ws, e, l);
      FanoutReturn(t, ws, e, i);
    }
  }

  /** A loop that serves one of the exchange's queues is one of its workers'. */
  lemma {:induction false} LoopOnFanout(ws: seq<Worker>, e: string, l: nat) returns (i: nat)
    requires FanoutExchange(ws, e) && l < |Specs(ws)| && Specs(ws)[l].queue in Queues(ws, e)
    ensures i < |ws| && ws[i].exchange == e && Specs(ws)[l] == SpecOf(ws[i])
  {
    i := WorkerOf(ws, l);
    var j :| 0 <= j < |ws| && ws[j].exchange == e && ws[j].queue == Specs(ws)[l].queue;
    assert i == j;
  }

  /** All that descends from publish `n` through a fanout exchange. */
  function FanoutLine(ws: seq<Worker>, e: string, n: nat): Line { Line(n, Queues(ws, e)) }

  lemma FanoutEnters(s: Protocol.State, ws: seq<Worker>, e: string, n: nat)
    requires n < |s.origins| && Protocol.Enumerates(s.origins[n].targets, Queues(ws, e))
    ensures Lands(s, FanoutLine(ws, e, n), Queues(ws, e)) && Entered(s, FanoutLine(ws, e, n)) == |Queues(ws, e)|
  {
    DistinctSize(s.origins[n].targets);
    forall q | q in s.origins[n].targets
      ensures q in Queues(ws, e)
    {
      assert q in (set x | x in s.origins[n].targets);
    }
    EnteredAll(s.origins[n].targets, Queues(ws, e));
  }

  /** n fanout workers retrying at most R times, with prefetches up to p and L message loops on the pool: one publish
      causes at most the sum of n^(c+1), c = 0..R, handler runs, and, however often channels close, at most L * p times
      the sum of n^c more. */
  lemma FanoutDeploymentBounded(t: Topology, ws: seq<Worker>, e: string, limit: nat, prefetch: nat,
      steps: seq<Protocol.Step>, n: nat)
    requires Deployed(t, ws) && FanoutExchange(ws, e) && RetryAtMost(ws, e, limit)
    requires forall i :: 0 <= i < |ws| && Runs(ws[i]) ==> 0 < ws[i].prefetch <= prefetch
    requires var s := Protocol.Run(ConfigOf(t, ws), steps);
             n < |s.origins| && Protocol.Enumerates(s.origins[n].targets, Queues(ws, e)) &&
                 RetryCount(s.origins[n].headers) == 0
    ensures var s, k := Protocol.Run(ConfigOf(t, ws), steps), |Queues(ws, e)|;
            Sum(s.deliveries, Attempts.Handled(FanoutLine(ws, e, n)))
            <= Attempts.FanoutRuns(k, limit) + Sum(ws, LoopCount()) * prefetch * Attempts.Geo(k, limit + 1)
  {
    var cfg := ConfigOf(t, ws);
    FanoutSpread(t, ws, e, limit);
    FanoutEnters(Protocol.Run(cfg, steps), ws, e, n);
    SpecsCount(ws);
    forall l | 0 <= l < |cfg.workers|
      ensures 0 < cfg.workers[l].prefetch <= prefetch
    {
      var i := WorkerOf(ws, l);
    }
    Attempts.RunsAreBounded(cfg, |Queues(ws, e)|, limit, prefetch, steps, FanoutLine(ws, e, n), Queues(ws, e));
  }

  /** n fanout workers, all retrying R times: one publish whose handlers all fail is handled exactly the sum of n^(c+1),
      c = 0..R, times. */
  lemma {:induction false} FanoutDeploymentAmplifies(t: Topology, ws: seq<Worker>, e: string, limit: u32,
      steps: seq<Protocol.Step>, n: nat)
    requires Deployed(t, ws) && FanoutExchange(ws, e) && AllRetry(ws, e, limit)
    requires var cfg, o := ConfigOf(t, ws), FanoutLine(ws, e, n);
             && UnluckyRun(cfg, steps, o)
             && var s := Protocol.Run(cfg, steps);
             && n < |s.origins| && Protocol.Enumerates(s.origins[n].targets, Queues(ws, e))
             && RetryCount(s.origins[n].headers) == 0 && Attempts.Drained(cfg, s, o)
    ensures var s := Protocol.Run(ConfigOf(t, ws), steps);
            Sum(s.deliveries, Attempts.Handled(FanoutLine(ws, e, n))) == Attempts.FanoutRuns(|Queues(ws, e)|, limit)
  {
    var cfg := ConfigOf(t, ws);
    assert RetryAtMost(ws, e, limit);
    FanoutSpread(t, ws, e, limit);
    FanoutEnters(Protocol.Run(cfg, steps), ws, e, n);
    Attempts.FanoutExact(cfg, |Queues(ws, e)|, limit, steps, FanoutLine(ws, e, n), Queues(ws, e));
  }
}
