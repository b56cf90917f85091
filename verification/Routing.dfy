/** The broker's topology and its routing rules (sections 3.1.3.1 to 3.1.3.3 of AMQP 0-9-1). */
module Routing {
  import opened Wrappers
  import opened Topics

  datatype ExchangeKind = Direct | Fanout | Topic | Headers

  datatype DeadLetter = DeadLetter(exchange: string, key: string, ttl: nat)

  datatype QueueArgs = QueueArgs(singleActive: bool, deadLetter: Option<DeadLetter>)

  const PLAIN := QueueArgs(false, None)

  datatype Binding = Binding(queue: string, exchange: string, key: string)

  datatype Topology = Topology(
    exchanges: map<string, ExchangeKind>, queues: map<string, QueueArgs>, bindings: set<Binding>)

  predicate KeyMatches(kind: ExchangeKind, bindingKey: string, key: string) {
    match kind
    case Direct => bindingKey == key
    case Fanout => true
    case Headers => true // the library binds without arguments, which match every message
    case Topic => Matches(Words(bindingKey), Words(key))
  }

  predicate Delivers(t: Topology, b: Binding, exchange: string, key: string) {
    && b.exchange == exchange && exchange in t.exchanges && b.queue in t.queues
    && KeyMatches(t.exchanges[exchange], b.key, key)
  }

  /** The queues a message enters, each at most once; the nameless exchange routes by queue name. */
  function Route(t: Topology, exchange: string, key: string): set<string> {
    if exchange == "" then (if key in t.queues then {key} else {})
    else set b | b in t.bindings && Delivers(t, b, exchange, key) :: b.queue
  }

  /** Where the broker sends a message whose TTL has run out in `queue`. */
  function ExpiryTargets(t: Topology, queue: string): set<string>
    requires queue in t.queues && t.queues[queue].deadLetter.Some?
  {
    var d := t.queues[queue].deadLetter.value;
    Route(t, d.exchange, d.key)
  }

  predicate Expires(t: Topology, queue: string) {
    queue in t.queues && t.queues[queue].deadLetter.Some?
  }

  /** `t'` has everything `t` has, with the same kinds and arguments. */
  predicate Extends(t: Topology, t': Topology) {
    && (forall e :: e in t.exchanges ==> e in t'.exchanges && t'.exchanges[e] == t.exchanges[e])
    && (forall q :: q in t.queues ==> q in t'.queues && t'.queues[q] == t.queues[q])
    && t.bindings <= t'.bindings
  }

  /** A binding whose key is the routing key itself delivers on every kind of exchange. */
  lemma SelfKeyMatches(kind: ExchangeKind, key: string)
    ensures KeyMatches(kind, key, key)
  {
    MatchesSelf(Words(key));
  }

  /** What each kind of exchange asks of a binding's key: a direct one the routing key itself, a topic one that its
      words can be laid over those of the routing key, the others nothing. */
  lemma KindsMatch(b: string, k: string)
    ensures KeyMatches(Direct, b, k) <==> b == k
    ensures KeyMatches(Fanout, b, k) && KeyMatches(Headers, b, k)
    ensures KeyMatches(Topic, b, k) <==>
              exists p, blocks :: AreWords(b, p) && Fits(p, blocks) && AreWords(k, Flatten(blocks))
  {
    KeysMatchIffWordsFit(b, k);
  }

  // Names the library derives from a queue name (src/subscriber.rs:109, :215-216, :577).

  function JobQueue(key: string): string { key + ".job" }

  function RetryQueue(queue: string): string { queue + ".retry" }

  function DlqQueue(queue: string): string { queue + ".dlq" }

  lemma SuffixInjective(a: string, b: string, suffix: string)
    requires a + suffix == b + suffix
    ensures a == b
  {
    assert |a| == |b|;
    assert a == (a + suffix)[..|a|];
    assert b == (b + suffix)[..|b|];
  }

  /** Derived names never collide: not with each other, and not with any `.job` queue. */
  lemma DerivedNamesDiffer(a: string, b: string)
    ensures RetryQueue(a) == RetryQueue(b) ==> a == b
    ensures DlqQueue(a) == DlqQueue(b) ==> a == b
    ensures JobQueue(a) == JobQueue(b) ==> a == b
    ensures RetryQueue(a) != DlqQueue(b)
    ensures RetryQueue(a) != JobQueue(b) && DlqQueue(a) != JobQueue(b)
    ensures RetryQueue(a) != a && DlqQueue(a) != a && JobQueue(a) != a
  {
    if RetryQueue(a) == RetryQueue(b) { SuffixInjective(a, b, ".retry"); }
    if DlqQueue(a) == DlqQueue(b) { SuffixInjective(a, b, ".dlq"); }
    if JobQueue(a) == JobQueue(b) { SuffixInjective(a, b, ".job"); }
    var r, d, j := RetryQueue(a), DlqQueue(b), JobQueue(b);
    assert r[|r| - 1] == 'y' && d[|d| - 1] == 'q' && j[|j| - 1] == 'b';
    var da := DlqQueue(a);
    assert da[|da| - 1] == 'q';
  }
}
