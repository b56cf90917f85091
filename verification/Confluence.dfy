/** Set-ups that agree on shared names end in one topology, whatever the interleaving (src/registry.rs:28-46). */
module Confluence {
  import opened Routing
  import opened Setup

  predicate Clash(f: Fact, g: Fact) {
    || (f.HasExchange? && g.HasExchange? && f.exchange == g.exchange && f.kind != g.kind)
    || (f.HasQueue? && g.HasQueue? && f.queue == g.queue && f.args != g.args)
  }

  /** True of the starting topology, or asked for by some worker. */
  predicate Known(t: Topology, ws: seq<Worker>, f: Fact) {
    Holds(t, f) || exists i :: 0 <= i < |ws| && Asks(ws[i], f)
  }

  /** Nobody asks for an exchange kind or queue arguments that anyone else, or the broker, sees differently. */
  ghost predicate Agree(t: Topology, ws: seq<Worker>) {
    forall f, g :: Known(t, ws, f) && Known(t, ws, g) ==> !Clash(f, g)
  }

  /** A script has run so far without aborting, and all it asked for holds. */
  predicate Executed(t: Topology, script: seq<Op>, p: Progress) {
    p.At? && p.pc <= |script| && forall j :: 0 <= j < p.pc ==> Holds(t, script[j].fact)
  }

  ghost predicate Inv(t: Topology, ws: seq<Worker>, s: State) {
    && |s.progress| == |ws| && Extends(t, s.topology)
    && (forall f :: Holds(s.topology, f) ==> Known(t, ws, f))
    && (forall i :: 0 <= i < |ws| ==> Executed(s.topology, Script(ws[i]), s.progress[i]))
  }

  /** A binding is asked for only after its exchange and its queue. */
  lemma BindsLate(w: Worker, j: nat)
    requires j < |Script(w)| && Script(w)[j].fact.HasBinding?
    ensures j >= 2 && Script(w)[0].fact == HasExchange(w.exchange, w.kind)
    ensures Script(w)[1].fact == HasQueue(w.queue, MainArgs(w))
    ensures Script(w)[j].fact.b.exchange == w.exchange && Script(w)[j].fact.b.queue == w.queue
  {
  }

  /** Where everything in place is known, an agreed request is accepted. */
  lemma KnownIsAccepted(t: Topology, ws: seq<Worker>, u: Topology, f: Fact)
    requires Agree(t, ws) && Known(t, ws, f) && forall g :: Holds(u, g) ==> Known(t, ws, g)
    requires f.HasBinding? ==> f.b.exchange in u.exchanges && f.b.queue in u.queues
    ensures Serve(u, f).reply.Accepted?
  {
    if f.HasExchange? && f.exchange in u.exchanges {
      var g := HasExchange(f.exchange, u.exchanges[f.exchange]);
      assert Holds(u, g);
      assert !Clash(f, g);
    } else if f.HasQueue? && f.queue in u.queues {
      var g := HasQueue(f.queue, u.queues[f.queue]);
      assert Holds(u, g);
      assert !Clash(f, g);
    }
  }

  lemma AgreedIsAccepted(t: Topology, ws: seq<Worker>, s: State, i: nat)
    requires Agree(t, ws) && Inv(t, ws, s) && i < |ws|
    requires s.progress[i].At? && s.progress[i].pc < |Script(ws[i])|
    ensures Serve(s.topology, Script(ws[i])[s.progress[i].pc].fact).reply.Accepted?
    ensures Known(t, ws, Script(ws[i])[s.progress[i].pc].fact)
  {
    var pc, script := s.progress[i].pc, Script(ws[i]);
    var f := script[pc].fact;
    ScriptFacts(ws[i], f);
    assert Executed(s.topology, script, s.progress[i]);
    if f.HasBinding? {
      BindsLate(ws[i], pc);
      assert Holds(s.topology, script[0].fact) && Holds(s.topology, script[1].fact);
    }
    KnownIsAccepted(t, ws, s.topology, f);
  }

  lemma AcceptedHolds(t: Topology, f: Fact, g: Fact)
    requires Serve(t, f).reply.Accepted?
    ensures Holds(Serve(t, f).topology, g) <==> Holds(t, g) || g == f
  {
  }

  lemma NextKeepsInv(t: Topology, ws: seq<Worker>, s: State, i: nat)
    requires Agree(t, ws) && Inv(t, ws, s)
    ensures Inv(t, ws, Next(Scripts(ws), s, i))
  {
    assert i < |ws| ==> Executed(s.topology, Script(ws[i]), s.progress[i]);
    if i < |ws| && s.progress[i].pc < |Script(ws[i])| {
      var pc := s.progress[i].pc;
      var f := Script(ws[i])[pc].fact;
      AgreedIsAccepted(t, ws, s, i);
      ServeGrows(s.topology, f);
      forall g
        ensures Holds(Serve(s.topology, f).topology, g) <==> Holds(s.topology, g) || g == f
      {
        AcceptedHolds(s.topology, f, g);
      }
      AdvanceKeepsInv(t, ws, s, State(Serve(s.topology, f).topology, s.progress[i := At(pc + 1)]), i);
    }
  }

  lemma {:induction false} AdvanceKeepsInv(t: Topology, ws: seq<Worker>, s: State, s': State, i: nat)
    requires Inv(t, ws, s) && i < |ws| && s.progress[i].At? && s.progress[i].pc < |Script(ws[i])|
    requires var f := Script(ws[i])[s.progress[i].pc].fact;
             && Known(t, ws, f) && Extends(s.topology, s'.topology)
             && forall g :: Holds(s'.topology, g) <==> Holds(s.topology, g) || g == f
    requires s'.progress == s.progress[i := At(s.progress[i].pc + 1)]
    ensures Inv(t, ws, s')
  {
    forall k | 0 <= k < |ws|
      ensures Executed(s'.topology, Script(ws[k]), s'.progress[k])
    {
      ExecutedGrows(s.topology, s'.topology, Script(ws[k]), s.progress[k]);
      if k == i {
        ExecutedOneMore(s'.topology, Script(ws[k]), s.progress[k].pc);
      }
    }
  }

  lemma ExecutedGrows(t: Topology, t': Topology, script: seq<Op>, p: Progress)
    requires Extends(t, t') && Executed(t, script, p)
    ensures Executed(t', script, p)
  {
    forall j | 0 <= j < p.pc
      ensures Holds(t', script[j].fact)
    {
      assert Holds(t, script[j].fact);
    }
  }

  lemma ExecutedOneMore(t: Topology, script: seq<Op>, pc: nat)
    requires pc < |script| && Executed(t, script, At(pc)) && Holds(t, script[pc].fact)
    ensures Executed(t, script, At(pc + 1))
  {
  }

  lemma {:induction false} RunKeepsInv(t: Topology, ws: seq<Worker>, schedule: seq<nat>)
    requires Agree(t, ws)
    ensures Inv(t, ws, Run(Scripts(ws), Init(t, |ws|), schedule))
  {
    if schedule != [] {
      RunKeepsInv(t, ws, schedule[..|schedule| - 1]);
      NextKeepsInv(t, ws, Run(Scripts(ws), Init(t, |ws|), schedule[..|schedule| - 1]), schedule[|schedule| - 1]);
    }
  }

  /** Agreeing set-ups never abort, and once all have finished the topology is the starting one plus the union of what
      they asked for. */
  lemma SetupsReachTheUnion(t: Topology, ws: seq<Worker>, schedule: seq<nat>)
    requires Agree(t, ws)
    ensures var s := Run(Scripts(ws), Init(t, |ws|), schedule);
            && (forall i :: 0 <= i < |ws| ==> i < |s.progress| && !s.progress[i].Aborted?)
            && ((forall i :: 0 <= i < |ws| ==> Finished(Scripts(ws), s, i)) ==>
                  forall f :: Holds(s.topology, f) <==> Known(t, ws, f))
  {
    var s := Run(Scripts(ws), Init(t, |ws|), schedule);
    RunKeepsInv(t, ws, schedule);
    forall i | 0 <= i < |ws|
      ensures i < |s.progress| && !s.progress[i].Aborted?
    {
      assert Executed(s.topology, Script(ws[i]), s.progress[i]);
    }
    if forall i :: 0 <= i < |ws| ==> Finished(Scripts(ws), s, i) {
      forall f | Known(t, ws, f)
        ensures Holds(s.topology, f)
      {
        if !Holds(t, f) {
          var i :| 0 <= i < |ws| && Asks(ws[i], f);
          ScriptFacts(ws[i], f);
          assert Finished(Scripts(ws), s, i) && Executed(s.topology, Script(ws[i]), s.progress[i]);
        }
      }
    }
  }

  lemma SameFactsSameTopology(t: Topology, u: Topology)
    requires forall f :: Holds(t, f) <==> Holds(u, f)
    ensures t == u
  {
    forall e
      ensures e in t.exchanges <==> e in u.exchanges
      ensures e in t.exchanges ==> t.exchanges[e] == u.exchanges[e]
    {
      if e in t.exchanges { assert Holds(t, HasExchange(e, t.exchanges[e])); }
      if e in u.exchanges { assert Holds(u, HasExchange(e, u.exchanges[e])); }
    }
    forall q
      ensures q in t.queues <==> q in u.queues
      ensures q in t.queues ==> t.queues[q] == u.queues[q]
    {
      if q in t.queues { assert Holds(t, HasQueue(q, t.queues[q])); }
      if q in u.queues { assert Holds(u, HasQueue(q, u.queues[q])); }
    }
    forall b
      ensures b in t.bindings <==> b in u.bindings
    {
      assert Holds(t, HasBinding(b)) <==> Holds(u, HasBinding(b));
    }
    assert t.exchanges == u.exchanges && t.queues == u.queues && t.bindings == u.bindings;
  }

  /** Confluence: two interleavings of the same agreeing set-ups end in the same topology. */
  lemma {:induction false} SetupsConfluent(t: Topology, ws: seq<Worker>, a: seq<nat>, b: seq<nat>)
    requires Agree(t, ws)
    requires forall i :: 0 <= i < |ws| ==>
               && Finished(Scripts(ws), Run(Scripts(ws), Init(t, |ws|), a), i)
               && Finished(Scripts(ws), Run(Scripts(ws), Init(t, |ws|), b), i)
    ensures Run(Scripts(ws), Init(t, |ws|), a).topology == Run(Scripts(ws), Init(t, |ws|), b).topology
  {
    SetupsReachTheUnion(t, ws, a);
    SetupsReachTheUnion(t, ws, b);
    var u, v := Run(Scripts(ws), Init(t, |ws|), a).topology, Run(Scripts(ws), Init(t, |ws|), b).topology;
    forall f
      ensures Holds(u, f) <==> Holds(v, f)
    {
      assert Holds(u, f) <==> Known(t, ws, f);
      assert Holds(v, f) <==> Known(t, ws, f);
    }
    SameFactsSameTopology(u, v);
  }

  /** Where every request of a script would find its thing in place, or with a mismatch that it tolerates. */
  predicate InPlace(t: Topology, script: seq<Op>) {
    forall j :: 0 <= j < |script| ==>
      Provided(t, script[j].fact) && (!script[j].tolerant ==> Holds(t, script[j].fact))
  }

  /** Running it there changes nothing and never fails. */
  lemma {:induction false} RunInPlace(t: Topology, w: Worker, schedule: seq<nat>)
    requires InPlace(t, Script(w))
    ensures var s := Run([Script(w)], Init(t, 1), schedule);
            s.topology == t && |s.progress| == 1 && s.progress[0].At?
  {
    if schedule != [] {
      RunInPlace(t, w, schedule[..|schedule| - 1]);
      var s := Run([Script(w)], Init(t, 1), schedule[..|schedule| - 1]);
      if s.progress[0].pc < |Script(w)| {
        var pc := s.progress[0].pc;
        var f := Script(w)[pc].fact;
        if f.HasBinding? {
          BindsLate(w, pc);
          assert Provided(t, Script(w)[0].fact) && Provided(t, Script(w)[1].fact);
        }
        assert Serve(t, f).topology == t;
      }
    }
  }

  /** Idempotence: whatever was there before, conflicting declarations and other workers' interleaved set-ups included,
      a set-up that ran to its end may be run again any number of requests far: it changes nothing and does not fail. */
  lemma SetupIdempotent(t: Topology, ws: seq<Worker>, schedule: seq<nat>, i: nat, again: seq<nat>)
    requires i < |ws| && Finished(Scripts(ws), Run(Scripts(ws), Init(t, |ws|), schedule), i)
    ensures var u := Run(Scripts(ws), Init(t, |ws|), schedule).topology;
            var s := Run([Script(ws[i])], Init(u, 1), again);
            s.topology == u && |s.progress| == 1 && s.progress[0].At?
  {
    var s := Run(Scripts(ws), Init(t, |ws|), schedule);
    forall j | 0 <= j < |Script(ws[i])|
      ensures Provided(s.topology, Script(ws[i])[j].fact)
      ensures !Script(ws[i])[j].tolerant ==> Holds(s.topology, Script(ws[i])[j].fact)
    {
      DoneMeansProvided(Scripts(ws), t, schedule, i, j);
    }
    RunInPlace(s.topology, ws[i], again);
  }

  lemma {:induction false} RunSplit(scripts: seq<seq<Op>>, s: State, a: seq<nat>, b: seq<nat>)
    ensures Run(scripts, s, a + b) == Run(scripts, Run(scripts, s, a), b)
  {
    if b == [] {
      assert a + b == a;
    } else {
      assert (a + b)[..|a + b| - 1] == a + b[..|b| - 1];
      RunSplit(scripts, s, a, b[..|b| - 1]);
    }
  }

  /** Without agreement the order decides: whichever worker declares a fresh exchange first fixes its kind for good, and
      the others' mismatch is swallowed. */
  lemma FirstDeclarationWins(t: Topology, ws: seq<Worker>, i: nat, rest: seq<nat>)
    requires i < |ws| && ws[i].exchange != "" && ws[i].exchange !in t.exchanges
    ensures var u := Run(Scripts(ws), Init(t, |ws|), [i] + rest).topology;
            ws[i].exchange in u.exchanges && u.exchanges[ws[i].exchange] == ws[i].kind
  {
    var scripts, s := Scripts(ws), Init(t, |ws|);
    RunSplit(scripts, s, [i], rest);
    assert [i][..0] == [];
    var s1 := Run(scripts, s, [i]);
    assert s1 == Next(scripts, s, i);
    assert Script(ws[i])[0] == Op(HasExchange(ws[i].exchange, ws[i].kind), true);
    DeclaresNeverAlter(scripts, s1, rest);
  }
}
