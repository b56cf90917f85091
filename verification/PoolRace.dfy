/** Concurrent callers of `get_channel`, await by await, with channels dying at any moment (src/pool.rs:74-96). */
module PoolRace {
  import opened Wrappers
  import opened Sums
  import opened Wire
  import opened Pool

  /** Where one task stands; the last three of the middle four hold the mutex. */
  datatype Caller =
    | Outside
    | Waiting
    | Locked
    | Missed            // looked at the slot, found nothing live
    | Created(c: nat)   // has a new channel, slot not yet written
    | Handed(c: nat)
    | Refused

  datatype State = State(open: seq<bool>, cached: Option<nat>, callers: seq<Caller>)

  datatype Step =
    | Ask(i: nat) | Lock(i: nat) | Check(i: nat) | Create(i: nat) | Refuse(i: nat) | Store(i: nat)
    | Die(c: nat)

  predicate HoldsLock(p: Caller) { p.Locked? || p.Missed? || p.Created? }

  predicate Free(s: State) {
    forall i :: 0 <= i < |s.callers| ==> !HoldsLock(s.callers[i])
  }

  predicate SlotLive(s: State) {
    s.cached.Some? && s.cached.value < |s.open| && s.open[s.cached.value]
  }

  predicate Enabled(s: State, st: Step) {
    match st
    case Die(c) => c < |s.open|
    case Ask(i) => i < |s.callers| && !s.callers[i].Waiting? && !HoldsLock(s.callers[i])
    case Lock(i) => i < |s.callers| && s.callers[i].Waiting? && Free(s)
    case Check(i) => i < |s.callers| && s.callers[i].Locked?
    case Create(i) => i < |s.callers| && s.callers[i].Missed?
    case Refuse(i) => i < |s.callers| && s.callers[i].Missed?
    case Store(i) => i < |s.callers| && s.callers[i].Created?
  }

  function At(s: State, i: nat, p: Caller): State
    requires i < |s.callers|
  {
    s.(callers := s.callers[i := p])
  }

  function Next(s: State, st: Step): State {
    if !Enabled(s, st) then s
    else
      match st
      case Die(c) => s.(open := s.open[c := false])
      case Ask(i) => At(s, i, Waiting)
      case Lock(i) => At(s, i, Locked)
      case Check(i) => At(s, i, if SlotLive(s) then Handed(s.cached.value) else Missed)
      case Create(i) => At(s, i, Created(|s.open|)).(open := s.open + [true])
      case Refuse(i) => At(s, i, Refused)
      case Store(i) => At(s, i, Handed(s.callers[i].c)).(cached := Some(s.callers[i].c))
  }

  function Run(s: State, steps: seq<Step>): State {
    if steps == [] then s else Next(Run(s, steps[..|steps| - 1]), steps[|steps| - 1])
  }

  function Start(n: nat): State { State([], None, seq(n, _ => Outside)) }

  ghost predicate Inv(s: State) {
    && (s.cached.Some? ==> s.cached.value < |s.open|)
    && (forall i, j :: 0 <= i < j < |s.callers| ==> !HoldsLock(s.callers[i]) || !HoldsLock(s.callers[j]))
    && (forall i :: 0 <= i < |s.callers| && (s.callers[i].Missed? || s.callers[i].Created?) ==> !SlotLive(s))
    && (forall i :: 0 <= i < |s.callers| && s.callers[i].Created? ==> s.callers[i].c < |s.open|)
    && (forall i :: 0 <= i < |s.callers| && s.callers[i].Handed? ==>
          s.callers[i].c < |s.open| && (s.open[s.callers[i].c] ==> s.cached == Some(s.callers[i].c)))
    && (forall c :: 0 <= c < |s.open| && s.open[c] ==> s.cached == Some(c) || Created(c) in s.callers)
  }

  lemma DieKeepsInv(s: State, c: nat)
    requires Inv(s) && c < |s.open|
    ensures Inv(Next(s, Die(c)))
  {
    var s' := Next(s, Die(c));
    forall d | 0 <= d < |s'.open| && s'.open[d]
      ensures s'.cached == Some(d) || Created(d) in s'.callers
    {
      assert s.open[d];
    }
  }

  /** A caller that stores no channel and makes none moves; the channels in flight are still those of the others. */
  lemma MoveKeepsInv(s: State, st: Step)
    requires Inv(s) && Enabled(s, st) && (st.Ask? || st.Lock? || st.Check? || st.Refuse?)
    ensures Inv(Next(s, st))
  {
    var s' := Next(s, st);
    forall c | 0 <= c < |s'.open| && s'.open[c]
      ensures s'.cached == Some(c) || Created(c) in s'.callers
    {
      if s.cached != Some(c) {
        var j :| 0 <= j < |s.callers| && s.callers[j] == Created(c);
        assert j != st.i;
        assert s'.callers[j] == Created(c);
      }
    }
  }

  lemma CreateKeepsInv(s: State, i: nat)
    requires Inv(s) && Enabled(s, Create(i))
    ensures Inv(Next(s, Create(i)))
  {
    var s' := Next(s, Create(i));
    assert s'.callers[i] == Created(|s.open|);
    assert forall j :: 0 <= j < |s.callers| && j != i ==> !HoldsLock(s.callers[j]);
  }

  lemma StoreKeepsInv(s: State, i: nat)
    requires Inv(s) && Enabled(s, Store(i))
    ensures Inv(Next(s, Store(i)))
  {
    assert forall j :: 0 <= j < |s.callers| && j != i ==> !HoldsLock(s.callers[j]);
  }

  lemma NextKeepsInv(s: State, st: Step)
    requires Inv(s)
    ensures Inv(Next(s, st))
  {
    if Enabled(s, st) {
      match st
      case Die(c) => DieKeepsInv(s, c);
      case Create(i) => CreateKeepsInv(s, i);
      case Store(i) => StoreKeepsInv(s, i);
      case _ => MoveKeepsInv(s, st);
    }
  }

  lemma {:induction false} RunKeepsInv(n: nat, steps: seq<Step>)
    ensures Inv(Run(Start(n), steps))
  {
    if steps != [] {
      RunKeepsInv(n, steps[..|steps| - 1]);
      NextKeepsInv(Run(Start(n), steps[..|steps| - 1]), steps[|steps| - 1]);
    }
  }

  function Dead(): bool -> nat { (up: bool) => if up then 0 else 1 }

  lemma {:induction false} FewLive(open: seq<bool>)
    requires forall c, d :: 0 <= c < |open| && 0 <= d < |open| && open[c] && open[d] ==> c == d
    ensures |open| <= 1 + Sum(open, Dead())
    ensures (forall c :: 0 <= c < |open| ==> !open[c]) ==> |open| == Sum(open, Dead())
  {
    if open != [] {
      var front := open[..|open| - 1];
      assert forall c :: 0 <= c < |front| ==> front[c] == open[c];
      FewLive(front);
      if open[|open| - 1] {
        assert forall c :: 0 <= c < |front| ==> !front[c];
      }
    }
  }

  /** In every run: a live channel in anyone's hands is the cached one, at most one channel is live, and
      no more channels were ever made than one plus the deaths. */
  lemma AtMostOneLiveChannel(n: nat, steps: seq<Step>)
    ensures var s := Run(Start(n), steps);
            && (forall i :: 0 <= i < |s.callers| && s.callers[i].Handed? ==>
                  s.callers[i].c < |s.open| && (s.open[s.callers[i].c] ==> s.cached == Some(s.callers[i].c)))
            && (forall c, d :: 0 <= c < |s.open| && 0 <= d < |s.open| && s.open[c] && s.open[d] ==> c == d)
            && |s.open| <= 1 + Sum(s.open, Dead())
  {
    var s := Run(Start(n), steps);
    RunKeepsInv(n, steps);
    forall c, d | 0 <= c < |s.open| && 0 <= d < |s.open| && s.open[c] && s.open[d]
      ensures c == d
    {
      if s.cached != Some(c) || s.cached != Some(d) {
        var e := if s.cached != Some(c) then c else d;
        assert Created(e) in s.callers;
        assert !SlotLive(s);
        assert Created(c) in s.callers && Created(d) in s.callers;
      }
    }
    FewLive(s.open);
  }

  // The mutex makes a whole call look atomic: the slot as a caller under the lock is about to leave it.

  function Pending(callers: seq<Caller>): Option<nat> {
    if callers == [] then None
    else if callers[0].Created? then Some(callers[0].c) else Pending(callers[1..])
  }

  lemma {:induction false} PendingIs(callers: seq<Caller>, i: nat)
    requires i < |callers|
    requires forall j :: 0 <= j < |callers| && j != i ==> !callers[j].Created?
    ensures Pending(callers) == if callers[i].Created? then Some(callers[i].c) else None
  {
    if i > 0 {
      PendingIs(callers[1..], i - 1);
    } else if |callers| > 1 {
      PendingIs(callers[1..], 0);
    }
  }

  datatype Slot = Slot(open: seq<bool>, cached: Option<nat>)

  function View(s: State): Slot {
    Slot(s.open, if Pending(s.callers).Some? then Pending(s.callers) else s.cached)
  }

  // The same slot as the sequential cache sees it.

  function Links(open: seq<bool>): seq<Link> {
    seq(|open|, c requires 0 <= c < |open| => Link(open[c], open[c], 0, []))
  }

  function Flags(links: seq<Link>): seq<bool> { seq(|links|, c requires 0 <= c < |links| => links[c].client) }

  /** One atomic call of the sequential cache on `v`. */
  function Atomic(v: Slot, canCreate: bool): Got { Acquire(Links(v.open), v.cached, canCreate) }

  /** The moment a call takes effect: it finds the slot live, makes a channel, or fails to. */
  predicate IsPoint(s: State, st: Step) {
    Enabled(s, st) && ((st.Check? && SlotLive(s)) || st.Create? || st.Refuse?)
  }

  lemma PendingNone(s: State)
    requires forall j :: 0 <= j < |s.callers| ==> !s.callers[j].Created?
    ensures Pending(s.callers) == None
  {
    if s.callers != [] {
      PendingIs(s.callers, 0);
    }
  }

  /** Every step of the racing calls is, seen through `View`, one death, nothing, or, at a call's point, exactly one
      atomic call. */
  lemma RaceRefinesAtomic(s: State, st: Step)
    requires Inv(s)
    ensures var v, v' := View(s), View(Next(s, st));
            if IsPoint(s, st) then
              var g := Atomic(v, !st.Refuse?); v' == Slot(Flags(g.links), g.cached)
            else if Enabled(s, st) && st.Die? then st.c < |v.open| && v' == v.(open := v.open[st.c := false])
            else v' == v
  {
    if Enabled(s, st) && !st.Die? {
      var i, s' := st.i, Next(s, st);
      assert Flags(Links(s.open)) == s.open;
      if st.Create? || st.Store? {
        assert forall j :: 0 <= j < |s.callers| && j != i ==> !HoldsLock(s.callers[j]);
        PendingIs(s.callers, i);
        PendingIs(s'.callers, i);
        assert st.Create? ==> Flags(Links(s.open) + [FRESH]) == s.open + [true];
      } else {
        PendingUnchanged(s.callers, i, s'.callers[i]);
        if st.Check? || st.Refuse? {
          assert forall j :: 0 <= j < |s.callers| && j != i ==> !HoldsLock(s.callers[j]);
          PendingNone(s);
        }
      }
    }
  }

  // ----- each call has one point, and its answer is that point's -----

  /** What caller `i`'s current call has been answered at its points so far. */
  function Answers(n: nat, steps: seq<Step>, i: nat): seq<Option<nat>> {
    if steps == [] then []
    else
      var front, st := steps[..|steps| - 1], steps[|steps| - 1];
      var s := Run(Start(n), front);
      if !Enabled(s, st) || st.Die? || st.i != i then Answers(n, front, i)
      else if st.Ask? then []
      else if IsPoint(s, st) then Answers(n, front, i) + [Atomic(View(s), !st.Refuse?).channel]
      else Answers(n, front, i)
  }

  /** In every run: before its point a call has no answer; after it, it has exactly one, and that is what the caller is
      handed, a channel or an error. */
  lemma {:induction false} OnePointPerCall(n: nat, steps: seq<Step>, i: nat)
    requires i < n
    ensures var s := Run(Start(n), steps);
            && |s.callers| == n
            && match s.callers[i]
               case Outside => true
               case Waiting => Answers(n, steps, i) == []
               case Locked => Answers(n, steps, i) == []
               case Missed => Answers(n, steps, i) == []
               case Created(c) => Answers(n, steps, i) == [Some(c)]
               case Handed(c) => Answers(n, steps, i) == [Some(c)]
               case Refused => Answers(n, steps, i) == [None]
  {
    if steps != [] {
      var front, st := steps[..|steps| - 1], steps[|steps| - 1];
      var s := Run(Start(n), front);
      OnePointPerCall(n, front, i);
      RunKeepsInv(n, front);
      if Enabled(s, st) && !st.Die? && st.i == i && (st.Check? || st.Create? || st.Refuse?) {
        assert forall j :: 0 <= j < |s.callers| && j != i ==> !HoldsLock(s.callers[j]);
        PendingNone(s);
      }
    }
  }

  lemma {:induction false} PendingUnchanged(callers: seq<Caller>, i: nat, p: Caller)
    requires i < |callers| && !callers[i].Created? && !p.Created?
    ensures Pending(callers[i := p]) == Pending(callers)
  {
    if i > 0 {
      assert callers[i := p][1..] == callers[1..][i - 1 := p];
      PendingUnchanged(callers[1..], i - 1, p);
    }
  }

  // ----- nothing is held back -----

  /** In every reachable state any channel may die, stored or not yet, and any task that is not in a call may make one,
      its first or another. */
  lemma {:induction false} AnyoneAnyTime(n: nat, steps: seq<Step>, c: nat, i: nat)
    requires c < |Run(Start(n), steps).open| && i < |Run(Start(n), steps).callers|
    ensures var s := Run(Start(n), steps);
            && Run(Start(n), steps + [Die(c)]) == s.(open := s.open[c := false])
            && (s.callers[i].Outside? || s.callers[i].Handed? || s.callers[i].Refused? ==>
                  Run(Start(n), steps + [Ask(i)]) == s.(callers := s.callers[i := Waiting]))
  {
    assert (steps + [Die(c)])[..|steps|] == steps && (steps + [Ask(i)])[..|steps|] == steps;
  }

  // ----- no call is left waiting -----

  lemma {:induction false} RunConcat(s: State, a: seq<Step>, b: seq<Step>)
    ensures Run(s, a + b) == Run(Run(s, a), b)
  {
    if b == [] {
      assert a + b == a;
    } else {
      assert (a + b)[..|a + b| - 1] == a + b[..|b| - 1];
      RunConcat(s, a, b[..|b| - 1]);
    }
  }

  lemma {:induction false} RunOne(s: State, st: Step)
    ensures Run(s, [st]) == Next(s, st)
  {
    assert Run(s, []) == s && [st][..0] == [];
  }

  /** What the holder of the mutex has left to do, `supplied` saying whether a new channel is to be had. */
  lemma {:induction false} HolderFinishes(s: State, j: nat, supplied: bool) returns (more: seq<Step>)
    requires Inv(s) && j < |s.callers| && HoldsLock(s.callers[j])
    ensures var s' := Run(s, more);
            && Inv(s') && |s'.callers| == |s.callers| && (s'.callers[j].Handed? || s'.callers[j].Refused?)
            && (forall i :: 0 <= i < |s.callers| && i != j ==> s'.callers[i] == s.callers[i])
            && (SlotLive(s) ==> s'.callers[j] == Handed(s.cached.value))
            && (supplied ==> s'.callers[j].Handed?)
            && (!supplied && !SlotLive(s) && !s.callers[j].Created? ==> s'.callers[j].Refused? && !SlotLive(s'))
    decreases if s.callers[j].Locked? then 3 else if s.callers[j].Missed? then 2 else 1
  {
    var st := if s.callers[j].Locked? then Check(j) else if s.callers[j].Created? then Store(j)
              else if supplied then Create(j) else Refuse(j);
    var s1 := Next(s, st);
    NextKeepsInv(s, st);
    RunOne(s, st);
    more := [st];
    if HoldsLock(s1.callers[j]) {
      var rest := HolderFinishes(s1, j, supplied);
      RunConcat(s, [st], rest);
      more := [st] + rest;
    }
  }

  /** In every reachable state a waiting caller can still get through: whoever holds the mutex finishes, and then it
      does, handed a channel where the slot is live or a channel can be made, refused where neither is the case. */
  lemma {:induction false} CallsComplete(n: nat, steps: seq<Step>, i: nat, supplied: bool) returns (more: seq<Step>)
    requires i < n && |Run(Start(n), steps).callers| == n && Run(Start(n), steps).callers[i].Waiting?
    ensures var s, s' := Run(Start(n), steps), Run(Start(n), steps + more);
            && |s'.callers| == n
            && (supplied ==> s'.callers[i].Handed?)
            && (!supplied && Free(s) ==>
                  if SlotLive(s) then s'.callers[i] == Handed(s.cached.value) else s'.callers[i].Refused?)
  {
    var s := Run(Start(n), steps);
    RunKeepsInv(n, steps);
    more := [];
    if j :| 0 <= j < n && HoldsLock(s.callers[j]) {
      more := HolderFinishes(s, j, supplied);
      assert Free(Run(s, more));
    }
    var s1 := Run(s, more);
    NextKeepsInv(s1, Lock(i));
    RunOne(s1, Lock(i));
    var s2 := Next(s1, Lock(i));
    var rest := HolderFinishes(s2, i, supplied);
    RunConcat(s1, [Lock(i)], rest);
    RunConcat(s, more, [Lock(i)] + rest);
    RunConcat(Start(n), steps, more + ([Lock(i)] + rest));
    more := more + ([Lock(i)] + rest);
  }
}
