/** What sharing one channel does to set-ups running at the same time. A refused request closes the channel; AMQP 0-9-1
    has the broker discard whatever came behind it there, and the client library is taken to fail every request still
    waiting with the reason of that closure. The source tells its own 406 from another's by nothing but that text
    (src/subscriber.rs:157-170, :237-267; src/pool.rs:74-96). */
module SharedReplies {
  import opened Wrappers
  import opened Routing
  import opened Setup
  import Confluence

  /** Worker `who` makes its next request while the next ones of `behind` wait behind it on the same channel. */
  datatype Turn = Turn(who: nat, behind: set<nat>)

  predicate CanAsk(scripts: seq<seq<Op>>, s: State, i: nat) {
    i < |scripts| && i < |s.progress| && s.progress[i].At? && s.progress[i].pc < |scripts[i]|
  }

  /** The reply `who` gets. */
  function ReplyTo(scripts: seq<seq<Op>>, s: State, who: nat): Reply
    requires CanAsk(scripts, s, who)
  {
    Serve(s.topology, scripts[who][s.progress[who].pc].fact).reply
  }

  /** A set-up that is told of another's refusal: its own request was never looked at. */
  function Told(scripts: seq<seq<Op>>, s: State, i: nat, reply: Reply): Progress
    requires CanAsk(scripts, s, i)
  {
    if reply.Mismatch? && scripts[i][s.progress[i].pc].tolerant then At(s.progress[i].pc + 1) else Aborted
  }

  function Next(scripts: seq<seq<Op>>, s: State, turn: Turn): State {
    var s1 := Setup.Next(scripts, s, turn.who);
    if !CanAsk(scripts, s, turn.who) || ReplyTo(scripts, s, turn.who).Accepted? then s1
    else
      s1.(progress := seq(|s1.progress|, i requires 0 <= i < |s1.progress| =>
        if i != turn.who && i in turn.behind && CanAsk(scripts, s1, i)
        then Told(scripts, s1, i, ReplyTo(scripts, s, turn.who)) else s1.progress[i]))
  }

  function Run(scripts: seq<seq<Op>>, s: State, turns: seq<Turn>): State {
    if turns == [] then s else Next(scripts, Run(scripts, s, turns[..|turns| - 1]), turns[|turns| - 1])
  }

  /** What a refusal does to a request waiting behind it: the broker never looks at it, and its set-up goes on only if
      the refusal is a mismatch and this request would have swallowed its own; a binding refused for want of a queue or
      an exchange ends them all. */
  lemma {:induction false} RefusalSpreads(scripts: seq<seq<Op>>, s: State, turn: Turn, i: nat)
    requires CanAsk(scripts, s, turn.who) && !ReplyTo(scripts, s, turn.who).Accepted?
    requires i != turn.who && i in turn.behind && CanAsk(scripts, s, i)
    ensures var s' := Next(scripts, s, turn);
            && s'.topology == s.topology && |s'.progress| == |s.progress|
            && (s'.progress[i] == At(s.progress[i].pc + 1) || s'.progress[i] == Aborted)
            && (s'.progress[i].At? <==>
                  ReplyTo(scripts, s, turn.who).Mismatch? && scripts[i][s.progress[i].pc].tolerant)
            && (scripts[turn.who][s.progress[turn.who].pc].fact.HasBinding? ==> s'.progress[i] == Aborted)
  {
  }

  /** Those who were not waiting are not told. */
  lemma {:induction false} OthersUntold(scripts: seq<seq<Op>>, s: State, turn: Turn, i: nat)
    requires i != turn.who && i !in turn.behind && i < |s.progress|
    ensures |Next(scripts, s, turn).progress| == |s.progress| && Next(scripts, s, turn).progress[i] == s.progress[i]
  {
  }

  // ----- set-ups that agree -----

  function Whose(turns: seq<Turn>): seq<nat> { seq(|turns|, k requires 0 <= k < |turns| => turns[k].who) }

  /** Where set-ups agree nothing is refused, so sharing the channel makes no difference: all that is proved of their
      interleavings holds of these. */
  lemma {:induction false} AgreedSharesFreely(t: Topology, ws: seq<Worker>, turns: seq<Turn>)
    requires Confluence.Agree(t, ws)
    ensures Run(Scripts(ws), Init(t, |ws|), turns) == Setup.Run(Scripts(ws), Init(t, |ws|), Whose(turns))
  {
    if turns != [] {
      var front, turn := turns[..|turns| - 1], turns[|turns| - 1];
      AgreedSharesFreely(t, ws, front);
      assert Whose(turns)[..|front|] == Whose(front);
      var s := Setup.Run(Scripts(ws), Init(t, |ws|), Whose(front));
      Confluence.RunKeepsInv(t, ws, Whose(front));
      if CanAsk(Scripts(ws), s, turn.who) {
        Confluence.AgreedIsAccepted(t, ws, s, turn.who);
      }
    }
  }

  // ----- set-ups that do not -----

  /** Of worker `i`'s requests, those it got past on another's refusal. */
  function Skipped(scripts: seq<seq<Op>>, s: State, turns: seq<Turn>, i: nat): set<nat> {
    if turns == [] then {}
    else
      var front, turn := turns[..|turns| - 1], turns[|turns| - 1];
      var was := Run(scripts, s, front);
      var now := Next(scripts, was, turn);
      Skipped(scripts, s, front, i)
      + (if i != turn.who && i < |was.progress| && i < |now.progress| && was.progress[i].At? && now.progress[i].At?
            && was.progress[i] != now.progress[i] then {was.progress[i].pc} else {})
  }

  /** In this turn worker `i` gets past its request `j` unheard: it waits behind another's mismatch and would have
      swallowed its own. */
  predicate SkipsIn(scripts: seq<seq<Op>>, was: State, turn: Turn, i: nat, j: nat) {
    && CanAsk(scripts, was, turn.who) && ReplyTo(scripts, was, turn.who).Mismatch?
    && i != turn.who && i in turn.behind && CanAsk(scripts, was, i)
    && was.progress[i] == At(j) && scripts[i][j].tolerant
  }

  predicate SkipsAt(scripts: seq<seq<Op>>, s: State, turns: seq<Turn>, k: nat, i: nat, j: nat) {
    k < |turns| && SkipsIn(scripts, Run(scripts, s, turns[..k]), turns[k], i, j)
  }

  lemma {:induction false} SkippedIff(scripts: seq<seq<Op>>, s: State, turns: seq<Turn>, i: nat, j: nat)
    ensures j in Skipped(scripts, s, turns, i) <==> exists k: nat :: SkipsAt(scripts, s, turns, k, i, j)
  {
    if turns != [] {
      var front, n := turns[..|turns| - 1], |turns| - 1;
      var was := Run(scripts, s, front);
      SkippedIff(scripts, s, front, i, j);
      SkipIsStep(scripts, was, turns[n], i, j);
      assert j in Skipped(scripts, s, turns, i) <==>
             j in Skipped(scripts, s, front, i) || SkipsIn(scripts, was, turns[n], i, j);
      forall k: nat | k < n
        ensures SkipsAt(scripts, s, turns, k, i, j) <==> SkipsAt(scripts, s, front, k, i, j)
      {
        assert front[..k] == turns[..k] && front[k] == turns[k];
      }
      assert SkipsAt(scripts, s, turns, n, i, j) <==> SkipsIn(scripts, was, turns[n], i, j);
    }
  }

  lemma {:induction false} SkipIsStep(scripts: seq<seq<Op>>, was: State, turn: Turn, i: nat, j: nat)
    ensures var now := Next(scripts, was, turn);
            SkipsIn(scripts, was, turn, i, j) <==>
              && i != turn.who && i < |was.progress| && i < |now.progress| && was.progress[i].At? && now.progress[i].At?
              && was.progress[i] != now.progress[i] && was.progress[i].pc == j
  {
  }

  lemma SharedGrows(scripts: seq<seq<Op>>, s: State, turn: Turn)
    ensures Extends(s.topology, Next(scripts, s, turn).topology)
  {
    if CanAsk(scripts, s, turn.who) {
      ServeGrows(s.topology, scripts[turn.who][s.progress[turn.who].pc].fact);
    }
  }

  /** A set-up that moves on in its own turn finds what it asked for in place. */
  lemma OwnTurnProvides(scripts: seq<seq<Op>>, was: State, turn: Turn, i: nat, j: nat)
    requires i < |scripts| && i < |was.progress| && |Next(scripts, was, turn).progress| == |was.progress|
    requires var now := Next(scripts, was, turn);
             now.progress[i].At? && j < now.progress[i].pc && (was.progress[i].At? ==> j >= was.progress[i].pc)
    requires i == turn.who || was.progress[i] == Next(scripts, was, turn).progress[i]
    ensures j < |scripts[i]| && Provided(Next(scripts, was, turn).topology, scripts[i][j].fact)
  {
  }

  lemma SameCount(scripts: seq<seq<Op>>, s: State, turn: Turn)
    ensures |Next(scripts, s, turn).progress| == |s.progress|
  {
  }

  /** Whatever a set-up has got past by its own replies is there. */
  lemma {:induction false} OwnRepliesProvide(scripts: seq<seq<Op>>, t: Topology, turns: seq<Turn>, i: nat, j: nat)
    requires i < |scripts|
    requires var s := Run(scripts, Init(t, |scripts|), turns);
             i < |s.progress| && s.progress[i].At? && j < s.progress[i].pc
    requires j !in Skipped(scripts, Init(t, |scripts|), turns, i)
    ensures j < |scripts[i]| && Provided(Run(scripts, Init(t, |scripts|), turns).topology, scripts[i][j].fact)
  {
    if turns != [] {
      var front, turn := turns[..|turns| - 1], turns[|turns| - 1];
      var was := Run(scripts, Init(t, |scripts|), front);
      SharedGrows(scripts, was, turn);
      SameCount(scripts, was, turn);
      if was.progress[i].At? && j < was.progress[i].pc {
        OwnRepliesProvide(scripts, t, front, i, j);
        ProvidedGrows(was.topology, Next(scripts, was, turn).topology, scripts[i][j].fact);
      } else {
        OneAtATime(scripts, was, turn, i);
        OwnTurnProvides(scripts, was, turn, i, j);
      }
    }
  }

  /** Nobody advances by more than one request in a turn, and the aborted stay aborted. */
  lemma OneAtATime(scripts: seq<seq<Op>>, was: State, turn: Turn, i: nat)
    requires i < |was.progress| && i < |Next(scripts, was, turn).progress| && Next(scripts, was, turn).progress[i].At?
    ensures was.progress[i].At?
    ensures var pc := was.progress[i].pc; pc <= Next(scripts, was, turn).progress[i].pc <= pc + 1
  {
  }

  /** Being ready is having everything one asked for. */
  lemma ReadyIffProvided(t: Topology, w: Worker)
    ensures Ready(t, w) <==>
              (forall j :: 0 <= j < |Script(w)| ==> Provided(t, Script(w)[j].fact))
  {
    forall j | 0 <= j < |Script(w)|
      ensures Asks(w, Script(w)[j].fact)
    {
      ScriptFacts(w, Script(w)[j].fact);
    }
    if forall j :: 0 <= j < |Script(w)| ==> Provided(t, Script(w)[j].fact) {
      forall f | Asks(w, f)
        ensures Provided(t, f)
      {
        ScriptFacts(w, f);
        var j :| 0 <= j < |Script(w)| && Script(w)[j].fact == f;
      }
      AskedIsReady(t, w);
    }
  }

  lemma AskedIsReady(t: Topology, w: Worker)
    requires forall f :: Asks(w, f) ==> Provided(t, f)
    ensures Ready(t, w)
  {
    assert Asks(w, HasQueue(w.queue, MainArgs(w)));
    if w.exchange != "" {
      assert Asks(w, HasExchange(w.exchange, w.kind)) && Asks(w, HasBinding(Binding(w.queue, w.exchange, w.key)));
    }
    if w.retry.Some? {
      assert Asks(w, HasQueue(RetryQueue(w.queue), RetryArgs(w))) && Asks(w, HasQueue(DlqQueue(w.queue), PLAIN));
      if w.exchange != "" {
        assert Asks(w, HasBinding(Binding(w.queue, w.exchange, w.queue)));
      }
    }
  }

  /** A set-up that ran to its end has left what its message loop needs if and only if everything it got past on
      another's refusal is there all the same, declared by someone else or before. */
  lemma {:induction false} ReadyIffSkippedProvided(ws: seq<Worker>, t: Topology, turns: seq<Turn>, i: nat)
    requires i < |ws|
    requires Finished(Scripts(ws), Run(Scripts(ws), Init(t, |ws|), turns), i)
    ensures var u := Run(Scripts(ws), Init(t, |ws|), turns).topology;
            Ready(u, ws[i]) <==>
              forall j :: j in Skipped(Scripts(ws), Init(t, |ws|), turns, i) && j < |Script(ws[i])| ==>
                Provided(u, Script(ws[i])[j].fact)
  {
    var u := Run(Scripts(ws), Init(t, |ws|), turns).topology;
    ReadyIffProvided(u, ws[i]);
    forall j | 0 <= j < |Script(ws[i])| && j !in Skipped(Scripts(ws), Init(t, |ws|), turns, i)
      ensures Provided(u, Script(ws[i])[j].fact)
    {
      OwnRepliesProvide(Scripts(ws), t, turns, i, j);
    }
  }

  // ----- an input on which it fails -----

  /** An exchange of another kind is there already. */
  const BEFORE := Topology(map["x" := Fanout], map[], {})

  /** Worker 0 declares that exchange as direct, a mismatch it tolerates; worker 1 retries on the nameless exchange. */
  const LOUD := Worker(Direct, "x", "a.job", "a", None, false, 1, None, false)

  const QUIET := Worker(Direct, "", "b.job", "b", Some(Retry(3, 5000)), false, 1, None, false)

  /** Worker 1 declares its main queue twice; its retry queue's declaration waits behind worker 0's exchange; its
      dead-letter queue is declared on a new channel. */
  const TURNS := [Turn(1, {})] + [Turn(1, {})] + [Turn(0, {1})] + [Turn(1, {})]

  lemma {:induction false} RunSnoc(scripts: seq<seq<Op>>, s: State, turns: seq<Turn>, turn: Turn)
    ensures Run(scripts, s, turns + [turn]) == Next(scripts, Run(scripts, s, turns), turn)
  {
    assert (turns + [turn])[..|turns|] == turns;
  }

  lemma {:induction false} ScriptsKnown()
    ensures var scripts := Scripts([LOUD, QUIET]);
            && |scripts| == 2 && |scripts[0]| > 0 && |scripts[1]| == 4
            && scripts[0][0] == Op(HasExchange("x", Direct), true)
            && scripts[1][0] == scripts[1][1] == Op(HasQueue("b.job", PLAIN), false)
            && scripts[1][2] == Op(HasQueue(RetryQueue("b.job"), RetryArgs(QUIET)), true)
            && scripts[1][3] == Op(HasQueue(DlqQueue("b.job"), PLAIN), true)
  {
    assert MainArgs(QUIET) == PLAIN;
    assert Script(QUIET)
        == [Op(HasQueue("b.job", PLAIN), false)] + [Op(HasQueue("b.job", PLAIN), false)] + RetryOps(QUIET);
  }

  const MIDDLE := BEFORE.(queues := map["b.job" := PLAIN])

  const AFTER := BEFORE.(queues := map["b.job" := PLAIN]["b.job.dlq" := PLAIN])

  lemma {:induction false} MainDeclaredTwice()
    ensures Run(Scripts([LOUD, QUIET]), Init(BEFORE, 2), [Turn(1, {})] + [Turn(1, {})]) == State(MIDDLE, [At(0), At(2)])
  {
    var scripts, s0 := Scripts([LOUD, QUIET]), Init(BEFORE, 2);
    ScriptsKnown();
    assert s0.progress == [At(0), At(0)];
    assert BEFORE.queues["b.job" := PLAIN] == MIDDLE.queues;
    assert Next(scripts, s0, Turn(1, {})) == State(MIDDLE, [At(0), At(1)]);
    assert Next(scripts, State(MIDDLE, [At(0), At(1)]), Turn(1, {})) == State(MIDDLE, [At(0), At(2)]);
    RunSnoc(scripts, s0, [], Turn(1, {}));
    assert [] + [Turn(1, {})] == [Turn(1, {})];
    RunSnoc(scripts, s0, [Turn(1, {})], Turn(1, {}));
  }

  lemma {:induction false} RetrySkipped()
    ensures Next(Scripts([LOUD, QUIET]), State(MIDDLE, [At(0), At(2)]), Turn(0, {1})) == State(MIDDLE, [At(1), At(3)])
  {
    ScriptsKnown();
    var scripts, s := Scripts([LOUD, QUIET]), State(MIDDLE, [At(0), At(2)]);
    assert ReplyTo(scripts, s, 0) == Mismatch;
    assert Setup.Next(scripts, s, 0) == State(MIDDLE, [At(1), At(2)]);
    assert Next(scripts, s, Turn(0, {1})).progress == [At(1), At(3)];
  }

  lemma {:induction false} DlqDeclared()
    ensures Next(Scripts([LOUD, QUIET]), State(MIDDLE, [At(1), At(3)]), Turn(1, {})) == State(AFTER, [At(1), At(4)])
  {
    ScriptsKnown();
    assert DlqQueue("b.job") == "b.job.dlq" != "b.job";
    assert MIDDLE.queues["b.job.dlq" := PLAIN] == AFTER.queues;
  }

  /** Worker 1's set-up succeeds, and its retry queue does not exist: what it publishes there will be dropped. */
  lemma {:induction false} RetryQueueGoesMissing()
    ensures var s := Run(Scripts([LOUD, QUIET]), Init(BEFORE, 2), TURNS);
            && Finished(Scripts([LOUD, QUIET]), s, 1)
            && RetryQueue(QUIET.queue) !in s.topology.queues && !Ready(s.topology, QUIET)
  {
    var scripts, s0 := Scripts([LOUD, QUIET]), Init(BEFORE, 2);
    ScriptsKnown();
    MainDeclaredTwice();
    RetrySkipped();
    DlqDeclared();
    RunSnoc(scripts, s0, [Turn(1, {})] + [Turn(1, {})], Turn(0, {1}));
    RunSnoc(scripts, s0, [Turn(1, {})] + [Turn(1, {})] + [Turn(0, {1})], Turn(1, {}));
    DerivedNamesDiffer("b.job", "b.job");
    assert RetryQueue("b.job") != "b.job.dlq" by { assert DlqQueue("b.job") == "b.job.dlq"; }
  }
}
