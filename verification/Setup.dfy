/** Topology set-up: what each worker declares, in which order, and what any interleaving of several set-ups leaves
    behind (src/subscriber.rs:137-300, :302-308, :637-646; src/registry.rs:28-46; src/worker.rs:314-341). Every request
    is taken to get its own reply; SharedReplies says what changes when one is failed with another's refusal. */
module Setup {
  import opened Wrappers
  import opened Amqp
  import opened Routing

  datatype Retry = Retry(max: u32, delayMs: nat)

  /** A subscriber as `BuiltWorker::run` configures it: exchange, main queue and its routing key, and how its loops run;
      `spawner` says whether `parallelize` was called. */
  datatype Worker = Worker(
    kind: ExchangeKind, exchange: string, queue: string, key: string,
    retry: Option<Retry>, singleActive: bool, prefetch: nat, concurrency: Option<nat>, spawner: bool)

  /** The settings of a `WorkerBuilder`. */
  datatype Builder = Builder(
    kind: ExchangeKind, exchange: string, queue: string, routingKey: Option<string>,
    retry: Option<Retry>, singleActive: bool, prefetch: nat, concurrency: Option<nat>, spawner: bool)

  /** src/worker.rs:327-340: what the builder's `queue` and `routing_key` mean for each kind; None where `run`
      panics. */
  function Resolve(kind: ExchangeKind, queue: string, key: Option<string>): Option<(string, string)> {
    match kind
    case Direct => Some((JobQueue(queue), queue))
    case Topic => if key.Some? then Some((queue, key.value)) else None
    case Fanout => Some((queue, ""))
    case Headers => None
  }

  /** `delay.as_millis() as u32`. */
  function Ttl(delayMs: nat): nat { delayMs % U32 }

  /** The queue's TTL is the configured delay exactly when that fits a u32, and otherwise what is left after whole
      multiples of 2^32. */
  lemma TtlIsDelay(delayMs: nat)
    ensures Ttl(delayMs) == delayMs <==> delayMs < U32
    ensures Ttl(delayMs) < 0x1_0000_0000 && exists k: nat :: delayMs == Ttl(delayMs) + k * 0x1_0000_0000
  {
    assert delayMs == Ttl(delayMs) + (delayMs / U32) * U32;
  }

  // ----- declarations -----

  datatype Fact =
    | HasExchange(exchange: string, kind: ExchangeKind)
    | HasQueue(queue: string, args: QueueArgs)
    | HasBinding(b: Binding)

  /** One request; `tolerant` where the source swallows a 406 reply. */
  datatype Op = Op(fact: Fact, tolerant: bool)

  predicate Holds(t: Topology, f: Fact) {
    match f
    case HasExchange(e, k) => e in t.exchanges && t.exchanges[e] == k
    case HasQueue(q, a) => q in t.queues && t.queues[q] == a
    case HasBinding(b) => b in t.bindings
  }

  datatype Reply = Accepted | Mismatch | Missing

  datatype Served = Served(topology: Topology, reply: Reply)

  /** The broker's answer to a declaration or a binding; a refused request changes nothing. */
  function Serve(t: Topology, f: Fact): Served {
    match f
    case HasExchange(e, k) =>
      if e in t.exchanges then Served(t, if t.exchanges[e] == k then Accepted else Mismatch)
      else Served(t.(exchanges := t.exchanges[e := k]), Accepted)
    case HasQueue(q, a) =>
      if q in t.queues then Served(t, if t.queues[q] == a then Accepted else Mismatch)
      else Served(t.(queues := t.queues[q := a]), Accepted)
    case HasBinding(b) =>
      if b.exchange in t.exchanges && b.queue in t.queues then Served(t.(bindings := t.bindings + {b}), Accepted)
      else Served(t, Missing)
  }

  function MainArgs(w: Worker): QueueArgs { QueueArgs(w.singleActive, None) }

  function RetryArgs(w: Worker): QueueArgs
    requires w.retry.Some?
  {
    QueueArgs(false, Some(DeadLetter(w.exchange, w.queue, Ttl(w.retry.value.delayMs))))
  }

  function ExchangeOps(w: Worker): seq<Op> {
    if w.exchange == "" then [] else [Op(HasExchange(w.exchange, w.kind), true)]
  }

  function BindOps(w: Worker, key: string): seq<Op> {
    if w.exchange == "" then [] else [Op(HasBinding(Binding(w.queue, w.exchange, key)), false)]
  }

  function RetryOps(w: Worker): seq<Op> {
    if w.retry.None? then []
    else
      BindOps(w, w.queue)
      + [Op(HasQueue(RetryQueue(w.queue), RetryArgs(w)), true), Op(HasQueue(DlqQueue(w.queue), PLAIN), true)]
  }

  /** Everything `SubscribeBuilder::build` asks of the broker before `basic_consume`, in order. */
  function Script(w: Worker): seq<Op> {
    var main := [Op(HasQueue(w.queue, MainArgs(w)), false)];
    ExchangeOps(w) + main + BindOps(w, w.key) + main + RetryOps(w)
  }

  // ----- several set-ups at once -----

  datatype Progress = At(pc: nat) | Aborted

  datatype State = State(topology: Topology, progress: seq<Progress>)

  function Init(t: Topology, n: nat): State { State(t, seq(n, _ => At(0))) }

  /** Worker `i` makes its next request; a refusal it does not tolerate ends its set-up. */
  function Next(scripts: seq<seq<Op>>, s: State, i: nat): State {
    if i < |scripts| && i < |s.progress| && s.progress[i].At? && s.progress[i].pc < |scripts[i]| then
      var op := scripts[i][s.progress[i].pc];
      var r := Serve(s.topology, op.fact);
      State(r.topology, s.progress[i := if r.reply.Accepted? || (r.reply.Mismatch? && op.tolerant)
                                        then At(s.progress[i].pc + 1) else Aborted])
    else s
  }

  function Run(scripts: seq<seq<Op>>, s: State, schedule: seq<nat>): State {
    if schedule == [] then s
    else Next(scripts, Run(scripts, s, schedule[..|schedule| - 1]), schedule[|schedule| - 1])
  }

  predicate Finished(scripts: seq<seq<Op>>, s: State, i: nat) {
    i < |scripts| && i < |s.progress| && s.progress[i] == At(|scripts[i]|)
  }

  function Scripts(ws: seq<Worker>): seq<seq<Op>> { seq(|ws|, i requires 0 <= i < |ws| => Script(ws[i])) }

  lemma ServeGrows(t: Topology, f: Fact)
    ensures Extends(t, Serve(t, f).topology)
  {
  }

  /** No request of anyone ever changes or removes what is there: kinds, arguments and bindings stay. */
  lemma {:induction false} DeclaresNeverAlter(scripts: seq<seq<Op>>, s: State, schedule: seq<nat>)
    ensures Extends(s.topology, Run(scripts, s, schedule).topology)
  {
    if schedule != [] {
      var s1 := Run(scripts, s, schedule[..|schedule| - 1]);
      DeclaresNeverAlter(scripts, s, schedule[..|schedule| - 1]);
      var i := schedule[|schedule| - 1];
      if i < |scripts| && i < |s1.progress| && s1.progress[i].At? && s1.progress[i].pc < |scripts[i]| {
        ServeGrows(s1.topology, scripts[i][s1.progress[i].pc].fact);
      }
    }
  }

  // ----- what a finished set-up guarantees, whatever the others did -----

  /** The thing named exists, though perhaps with another kind or other arguments (the tolerated 406 branches). */
  predicate Provided(t: Topology, f: Fact) {
    match f
    case HasExchange(e, _) => e in t.exchanges
    case HasQueue(q, _) => q in t.queues
    case HasBinding(b) => b in t.bindings
  }

  /** The broker accepts what is there already or can be added to it, refuses as a mismatch what is there otherwise, and
      as missing a binding that lacks either end; accepting adds this one fact and refusing adds none. */
  lemma {:induction false} ServeMeaning(t: Topology, f: Fact)
    ensures var r := Serve(t, f);
            && (r.reply.Mismatch? <==> !f.HasBinding? && Provided(t, f) && !Holds(t, f))
            && (r.reply.Missing? <==> f.HasBinding? && (f.b.exchange !in t.exchanges || f.b.queue !in t.queues))
            && (forall g :: Holds(r.topology, g) <==> Holds(t, g) || (g == f && r.reply.Accepted?))
  {
    var r := Serve(t, f);
    forall g
      ensures Holds(r.topology, g) <==> Holds(t, g) || (g == f && r.reply.Accepted?)
    {
    }
  }

  lemma ProvidedGrows(t: Topology, t': Topology, f: Fact)
    requires Extends(t, t') && Provided(t, f)
    ensures Provided(t', f)
  {
  }

  lemma {:induction false} DoneMeansProvided(scripts: seq<seq<Op>>, t: Topology, schedule: seq<nat>, i: nat, j: nat)
    requires i < |scripts|
    requires var s := Run(scripts, Init(t, |scripts|), schedule);
             i < |s.progress| && s.progress[i].At? && j < s.progress[i].pc
    ensures var s := Run(scripts, Init(t, |scripts|), schedule);
            j < |scripts[i]| && Provided(s.topology, scripts[i][j].fact)
            && (!scripts[i][j].tolerant ==> Holds(s.topology, scripts[i][j].fact))
  {
    if schedule != [] {
      var front, k := schedule[..|schedule| - 1], schedule[|schedule| - 1];
      var s := Run(scripts, Init(t, |scripts|), front);
      var s' := Next(scripts, s, k);
      if i < |s.progress| && s.progress[i].At? && j < s.progress[i].pc {
        DoneMeansProvided(scripts, t, front, i, j);
        if s' != s {
          ServeGrows(s.topology, scripts[k][s.progress[k].pc].fact);
          ProvidedGrows(s.topology, s'.topology, scripts[i][j].fact);
        }
      }
    }
  }

  /** The infrastructure the message loop relies on. */
  predicate Ready(t: Topology, w: Worker) {
    && w.queue in t.queues
    && (w.exchange != "" ==> w.exchange in t.exchanges && Binding(w.queue, w.exchange, w.key) in t.bindings)
    && (w.retry.Some? ==>
          && RetryQueue(w.queue) in t.queues && DlqQueue(w.queue) in t.queues
          && (w.exchange != "" ==> Binding(w.queue, w.exchange, w.queue) in t.bindings))
  }

  predicate HasFact(ops: seq<Op>, f: Fact) {
    exists j :: 0 <= j < |ops| && ops[j].fact == f
  }

  lemma ConcatHas(a: seq<Op>, b: seq<Op>, f: Fact)
    ensures HasFact(a + b, f) <==> HasFact(a, f) || HasFact(b, f)
  {
    if HasFact(a, f) {
      var j :| 0 <= j < |a| && a[j].fact == f;
      assert (a + b)[j].fact == f;
    }
    if HasFact(b, f) {
      var j :| 0 <= j < |b| && b[j].fact == f;
      assert (a + b)[|a| + j].fact == f;
    }
    if HasFact(a + b, f) {
      var j :| 0 <= j < |a + b| && (a + b)[j].fact == f;
      assert if j < |a| then a[j].fact == f else b[j - |a|].fact == f;
    }
  }

  /** The facts one worker's set-up establishes. */
  predicate Asks(w: Worker, f: Fact) {
    match f
    case HasExchange(e, k) => e == w.exchange && e != "" && k == w.kind
    case HasQueue(q, a) =>
      || (q == w.queue && a == MainArgs(w))
      || (w.retry.Some? && ((q == RetryQueue(w.queue) && a == RetryArgs(w)) || (q == DlqQueue(w.queue) && a == PLAIN)))
    case HasBinding(b) =>
      && w.exchange != "" && b.queue == w.queue && b.exchange == w.exchange
      && (b.key == w.key || (w.retry.Some? && b.key == w.queue))
  }

  /** A script asks for exactly those. */
  lemma ScriptFacts(w: Worker, f: Fact)
    ensures HasFact(Script(w), f) <==> Asks(w, f)
  {
    var main := [Op(HasQueue(w.queue, MainArgs(w)), false)];
    ConcatHas(ExchangeOps(w), main, f);
    ConcatHas(ExchangeOps(w) + main, BindOps(w, w.key), f);
    ConcatHas(ExchangeOps(w) + main + BindOps(w, w.key), main, f);
    ConcatHas(ExchangeOps(w) + main + BindOps(w, w.key) + main, RetryOps(w), f);
    OneFact(main, f);
    OneFact(ExchangeOps(w), f);
    OneFact(BindOps(w, w.key), f);
    if w.retry.Some? {
      var retry := Op(HasQueue(RetryQueue(w.queue), RetryArgs(w)), true);
      var dlq := Op(HasQueue(DlqQueue(w.queue), PLAIN), true);
      ConcatHas(BindOps(w, w.queue), [retry, dlq], f);
      OneFact(BindOps(w, w.queue), f);
      assert [retry, dlq] == [retry] + [dlq];
      ConcatHas([retry], [dlq], f);
      OneFact([retry], f);
      OneFact([dlq], f);
    }
  }

  lemma OneFact(ops: seq<Op>, f: Fact)
    requires |ops| <= 1
    ensures HasFact(ops, f) <==> |ops| == 1 && ops[0].fact == f
  {
  }

  lemma DoneMeansAsked(ws: seq<Worker>, t: Topology, schedule: seq<nat>, i: nat, f: Fact)
    requires i < |ws| && Asks(ws[i], f)
    requires Finished(Scripts(ws), Run(Scripts(ws), Init(t, |ws|), schedule), i)
    ensures Provided(Run(Scripts(ws), Init(t, |ws|), schedule).topology, f)
  {
    ScriptFacts(ws[i], f);
    var j :| 0 <= j < |Script(ws[i])| && Script(ws[i])[j].fact == f;
    DoneMeansProvided(Scripts(ws), t, schedule, i, j);
  }

  /** From any starting topology, in any interleaving with other set-ups, conflicting ones included: a set-up that ran
      to its end has left every queue and binding its message loop needs, tolerated mismatches or not. */
  lemma FinishedMeansReady(ws: seq<Worker>, t: Topology, schedule: seq<nat>, i: nat)
    requires i < |ws| && Finished(Scripts(ws), Run(Scripts(ws), Init(t, |ws|), schedule), i)
    ensures Ready(Run(Scripts(ws), Init(t, |ws|), schedule).topology, ws[i])
  {
    var w := ws[i];
    DoneMeansAsked(ws, t, schedule, i, HasQueue(w.queue, MainArgs(w)));
    if w.exchange != "" {
      DoneMeansAsked(ws, t, schedule, i, HasExchange(w.exchange, w.kind));
      DoneMeansAsked(ws, t, schedule, i, HasBinding(Binding(w.queue, w.exchange, w.key)));
    }
    if w.retry.Some? {
      DoneMeansAsked(ws, t, schedule, i, HasQueue(RetryQueue(w.queue), RetryArgs(w)));
      DoneMeansAsked(ws, t, schedule, i, HasQueue(DlqQueue(w.queue), PLAIN));
      if w.exchange != "" {
        DoneMeansAsked(ws, t, schedule, i, HasBinding(Binding(w.queue, w.exchange, w.queue)));
      }
    }
  }

  /** Where the set-up is ready, both internal publishes reach their queue alone, and whatever a retry queue declared by
      this worker releases reaches the main queue, on every kind of exchange and on the nameless one. */
  lemma InternalPublishesRoutable(t: Topology, w: Worker)
    requires Ready(t, w) && w.retry.Some?
    ensures Route(t, "", RetryQueue(w.queue)) == {RetryQueue(w.queue)}
    ensures Route(t, "", DlqQueue(w.queue)) == {DlqQueue(w.queue)}
    ensures w.queue in Route(t, w.exchange, w.queue)
  {
    if w.exchange != "" {
      var b := Binding(w.queue, w.exchange, w.queue);
      SelfKeyMatches(t.exchanges[w.exchange], w.queue);
      assert b in t.bindings && Delivers(t, b, w.exchange, w.queue);
    }
  }
}
