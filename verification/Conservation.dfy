/** Conservation over all publishes at once: payload by payload, what the queues, the workers and the successes hold is
    what was accepted (src/subscriber.rs:501-504, :521-603). */
module Conservation {
  import opened Sums
  import opened Protocol
  import opened Invariants
  import opened Ledger
  import opened Accounting

  /** Copies of payload `x` that are queued, in flight, handled successfully, or refused by a worker without retry. */
  function Held(x: Bytes): Copy -> nat {
    (c: Copy) => if c.msg.payload == x && Answerable(c) then 1 else 0
  }

  /** Republished, with the acknowledgement of the delivery not yet in effect. */
  function Doubled(x: Bytes): Delivery -> nat {
    (d: Delivery) => if d.msg.payload == x && Owing(d) then 1 else 0
  }

  /** One per queue that accepted the payload. */
  function Accepted(x: Bytes): Origin -> nat {
    (o: Origin) => if o.payload == x then |o.targets| else 0
  }

  /** All that descends from publish `n`. */
  function Whole(s: State, n: nat): Line
    requires n < |s.origins|
  {
    Line(n, TargetSet(s.origins[n]))
  }

  // The same two counts restricted to the first `n` publishes.

  function HeldOf(x: Bytes, n: nat): Copy -> nat {
    (c: Copy) => if c.msg.origin < n && c.msg.payload == x && Answerable(c) then 1 else 0
  }

  function DoubledOf(x: Bytes, n: nat): Delivery -> nat {
    (d: Delivery) => if d.msg.origin < n && d.msg.payload == x && Owing(d) then 1 else 0
  }

  lemma HeldOfNext(s: State, x: Bytes, n: nat)
    requires LedgerOk(s) && n < |s.origins|
    ensures Sum(s.copies, HeldOf(x, n + 1))
         == Sum(s.copies, HeldOf(x, n)) + if s.origins[n].payload == x then Sum(s.copies, Present(Whole(s, n))) else 0
  {
    forall c | 0 <= c < |s.copies|
      ensures HeldOf(x, n + 1)(s.copies[c])
           == HeldOf(x, n)(s.copies[c]) + if s.origins[n].payload == x then Present(Whole(s, n))(s.copies[c]) else 0
    {
      assert MsgOk(s.origins, s.copies[c].msg);
    }
    if s.origins[n].payload == x {
      SumOfTwo(s.copies, HeldOf(x, n + 1), HeldOf(x, n), Present(Whole(s, n)));
    } else {
      SumMonotone(s.copies, HeldOf(x, n + 1), HeldOf(x, n));
      SumMonotone(s.copies, HeldOf(x, n), HeldOf(x, n + 1));
    }
  }

  lemma DoubledOfNext(s: State, x: Bytes, n: nat)
    requires LedgerOk(s) && n < |s.origins|
    ensures Sum(s.deliveries, DoubledOf(x, n + 1))
         == Sum(s.deliveries, DoubledOf(x, n)) + if s.origins[n].payload == x then
             Sum(s.deliveries, Unpaid(Whole(s, n))) else 0
  {
    forall t | 0 <= t < |s.deliveries|
      ensures DoubledOf(x, n + 1)(s.deliveries[t])
           == DoubledOf(x, n)(s.deliveries[t]) + if s.origins[n].payload == x then
               Unpaid(Whole(s, n))(s.deliveries[t]) else 0
    {
      assert MsgOk(s.origins, s.deliveries[t].msg);
    }
    if s.origins[n].payload == x {
      SumOfTwo(s.deliveries, DoubledOf(x, n + 1), DoubledOf(x, n), Unpaid(Whole(s, n)));
    } else {
      SumMonotone(s.deliveries, DoubledOf(x, n + 1), DoubledOf(x, n));
      SumMonotone(s.deliveries, DoubledOf(x, n), DoubledOf(x, n + 1));
    }
  }

  lemma WholeBalance(cfg: Config, steps: seq<Step>, n: nat)
    requires Isolated(cfg)
    requires var s := Run(cfg, steps); n < |s.origins| && ToWorkers(cfg, s.origins[n])
    ensures var s := Run(cfg, steps);
            n < |s.origins| && Balanced(s, n)
  {
    var s := Run(cfg, steps);
    var o := Whole(s, n);
    IsolatedHomes(cfg, s.origins[n]);
    Balance(cfg, steps, o, o.homes);
    EnteredAll(s.origins[n].targets, o.homes);
  }

  /** What WholeBalance says of publish `n`. */
  predicate Balanced(s: State, n: nat)
    requires n < |s.origins|
  {
    Sum(s.copies, Present(Whole(s, n))) == |s.origins[n].targets| + Sum(s.deliveries, Unpaid(Whole(s, n)))
  }

  lemma {:induction false} ConservedUpTo(s: State, x: Bytes, n: nat)
    requires LedgerOk(s) && n <= |s.origins| && forall o :: 0 <= o < n ==> Balanced(s, o)
    ensures Sum(s.copies, HeldOf(x, n)) == Sum(s.origins[..n], Accepted(x)) + Sum(s.deliveries, DoubledOf(x, n))
  {
    if n == 0 {
      SumZero(s.copies, HeldOf(x, 0));
      SumZero(s.deliveries, DoubledOf(x, 0));
    } else {
      ConservedUpTo(s, x, n - 1);
      HeldOfNext(s, x, n - 1);
      DoubledOfNext(s, x, n - 1);
      assert Balanced(s, n - 1);
      assert s.origins[..n][..n - 1] == s.origins[..n - 1];
    }
  }

  /** In every run, payload by payload: the copies held equal the copies accepted, corrected by the republications whose
      acknowledgement has not taken effect. */
  lemma Conserved(cfg: Config, steps: seq<Step>, x: Bytes)
    requires Isolated(cfg)
    requires var s := Run(cfg, steps); forall o :: 0 <= o < |s.origins| ==> ToWorkers(cfg, s.origins[o])
    ensures var s := Run(cfg, steps);
            Sum(s.copies, Held(x)) == Sum(s.origins, Accepted(x)) + Sum(s.deliveries, Doubled(x))
  {
    var s := Run(cfg, steps);
    var n := |s.origins|;
    RunLedger(cfg, steps);
    forall o | 0 <= o < n
      ensures Balanced(s, o)
    {
      WholeBalance(cfg, steps, o);
    }
    ConservedUpTo(s, x, n);
    assert s.origins[..n] == s.origins;
    forall c | 0 <= c < |s.copies|
      ensures HeldOf(x, n)(s.copies[c]) == Held(x)(s.copies[c])
    {
      assert MsgOk(s.origins, s.copies[c].msg);
    }
    forall t | 0 <= t < |s.deliveries|
      ensures DoubledOf(x, n)(s.deliveries[t]) == Doubled(x)(s.deliveries[t])
    {
      assert MsgOk(s.origins, s.deliveries[t].msg);
    }
    SumMonotone(s.copies, HeldOf(x, n), Held(x));
    SumMonotone(s.copies, Held(x), HeldOf(x, n));
    SumMonotone(s.deliveries, DoubledOf(x, n), Doubled(x));
    SumMonotone(s.deliveries, Doubled(x), DoubledOf(x, n));
  }

  /** No publish, retry, dead letter or redelivery ever changes a payload, in any configuration: at the broker, in a
      worker's hands and on the wire it is the one that was published. */
  lemma PayloadsNeverChange(cfg: Config, steps: seq<Step>)
    ensures var s := Run(cfg, steps);
            && (forall c :: 0 <= c < |s.copies| ==> MsgOk(s.origins, s.copies[c].msg))
            && (forall t :: 0 <= t < |s.deliveries| ==> MsgOk(s.origins, s.deliveries[t].msg))
            && (forall c, i :: 0 <= c < |s.links| && 0 <= i < |s.links[c].wire| && s.links[c].wire[i].Publish? ==>
                  var f := s.links[c].wire[i];
                  f.tag < |s.deliveries| && f.payload == s.origins[s.deliveries[f.tag].msg.origin].payload)
  {
    var s := Run(cfg, steps);
    RunLedger(cfg, steps);
    forall c, i | 0 <= c < |s.links| && 0 <= i < |s.links[c].wire| && s.links[c].wire[i].Publish?
      ensures var f := s.links[c].wire[i];
              f.tag < |s.deliveries| && f.payload == s.origins[s.deliveries[f.tag].msg.origin].payload
    {
      assert LinkOk(s.deliveries, c, s.links[c]);
      assert FrameOk(s.deliveries, c, s.links[c].wire[i], s.links[c].wire[..i]);
    }
  }
}
