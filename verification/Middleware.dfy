/** The thread-local state of src/middleware.rs:17-90 and the order in which a task touches it
    (src/subscriber.rs:512-617). */
module Middleware {
  import opened Wrappers
  import opened Amqp

  /** `u64::saturating_sub`. */
  function SaturatingSub(a: nat, b: nat): nat { if a < b then 0 else a - b }

  /** What a function middleware finds when its body runs in `after`. */
  datatype Seen = Seen(headers: Headers, elapsed: Option<nat>)

  /** One thread's locals. */
  class Thread {
    var startTime: Option<nat>
    var lastElapsed: Option<nat>
    var headers: Headers

    constructor ()
      ensures startTime == None && lastElapsed == None && headers == None
    {
      startTime, lastElapsed, headers := None, None, None;
    }

    method SetHeaders(h: Headers)
      modifies this`headers
      ensures headers == h
    {
      headers := h;
    }

    /** src/middleware.rs:57-70. */
    method Before(now: nat)
      modifies this`startTime
      ensures startTime == Some(now)
    {
      startTime := Some(now);
    }

    /** src/middleware.rs:72-90, up to the call of the middleware function itself. */
    method After(now: nat) returns (seen: Seen)
      modifies this`startTime, this`lastElapsed
      ensures startTime == None
      ensures old(startTime).None? ==> lastElapsed == old(lastElapsed)
      ensures old(startTime).Some? ==>
                && lastElapsed.Some?
                && var start, e := old(startTime).value, lastElapsed.value;
                   if start <= now then start + e == now else e == 0
      ensures seen == Seen(headers, lastElapsed)
    {
      if startTime.Some? {
        lastElapsed := Some(SaturatingSub(now, startTime.value));
        startTime := None;
      }
      seen := Seen(headers, lastElapsed);
    }

    /** The `before` loop, src/subscriber.rs:517-519: it runs once the handler is done. */
    method RunBefore(clocks: seq<nat>)
      modifies this`startTime
      ensures startTime == if clocks == [] then old(startTime) else Some(clocks[|clocks| - 1])
    {
      for i := 0 to |clocks|
        invariant startTime == if i == 0 then old(startTime) else Some(clocks[i - 1])
      {
        Before(clocks[i]);
      }
    }

    /** The `after` loop, src/subscriber.rs:613-615. Only the first middleware finds a start time to take; what it
        computes is what all of them see. */
    method RunAfter(clocks: seq<nat>) returns (seen: seq<Seen>)
      modifies this`startTime, this`lastElapsed
      ensures |seen| == |clocks|
      ensures clocks == [] ==> startTime == old(startTime) && lastElapsed == old(lastElapsed)
      ensures clocks != [] ==> startTime == None
      ensures clocks != [] && old(startTime).Some? ==>
                && lastElapsed.Some?
                && var start, now, e := old(startTime).value, clocks[0], lastElapsed.value;
                   if start <= now then start + e == now else e == 0
      ensures clocks != [] && old(startTime).None? ==> lastElapsed == old(lastElapsed)
      ensures forall i :: 0 <= i < |seen| ==> seen[i] == Seen(headers, lastElapsed)
    {
      seen := [];
      for i := 0 to |clocks|
        invariant |seen| == i
        invariant i == 0 ==> startTime == old(startTime) && lastElapsed == old(lastElapsed)
        invariant i > 0 ==> startTime == None
        invariant i > 0 && old(startTime).Some? ==> lastElapsed == Some(SaturatingSub(clocks[0], old(startTime).value))
        invariant i > 0 && old(startTime).None? ==> lastElapsed == old(lastElapsed)
        invariant forall j :: 0 <= j < i ==> seen[j] == Seen(headers, lastElapsed)
      {
        var one := After(clocks[i]);
        seen := seen + [one];
      }
    }

    /** One task run without interleaving: headers, handler, the `before` loop, settlement, and only if that succeeded
        the `after` loop. With n >= 1 function middlewares the start time is consumed and every `after` sees one elapsed
        time, from the last `before` to the first `after`: the handler's own run is not in it. */
    method RunTask(h: Headers, before: seq<nat>, settled: bool, after: seq<nat>)
      returns (handlerSaw: Headers, seen: seq<Seen>)
      requires |before| == |after|
      modifies this
      ensures handlerSaw == h && headers == h
      ensures !settled ==>
                && seen == [] && lastElapsed == old(lastElapsed)
                && startTime == if before == [] then old(startTime) else Some(before[|before| - 1])
      ensures settled ==> |seen| == |after| && forall i :: 0 <= i < |seen| ==> seen[i].headers == h
      ensures settled && after != [] ==>
                && startTime == None
                && forall i :: 0 <= i < |seen| ==>
                    && seen[i].elapsed.Some?
                    && var start, now, e := before[|before| - 1], after[0], seen[i].elapsed.value;
                       if start <= now then start + e == now else e == 0
    {
      SetHeaders(h);
      handlerSaw := headers;
      RunBefore(before);
      if !settled {
        return handlerSaw, [];
      }
      seen := RunAfter(after);
    }

    /** The loop without a spawner on one thread, src/subscriber.rs:498-625, with `clocks` the readings of each
        message's `before` and `after` functions and `settled` whether its settlement was sent: every handler and every
        `after` reads its own message's headers, all `after` functions of a message its own elapsed time; the first
        message that cannot be settled ends the loop after its handler. */
    method RunSequentially(turns: seq<Turn>) returns (handlersSaw: seq<Headers>, aftersSaw: seq<seq<Seen>>)
      requires forall m :: 0 <= m < |turns| ==> |turns[m].before| == |turns[m].after|
      modifies this
      ensures |aftersSaw| == |handlersSaw| <= |turns|
      ensures forall m :: 0 <= m < |handlersSaw| ==> handlersSaw[m] == turns[m].headers
      ensures forall m :: 0 <= m < |handlersSaw| - 1 ==> turns[m].settled
      ensures |handlersSaw| < |turns| ==> handlersSaw != [] && !turns[|handlersSaw| - 1].settled
      ensures forall m :: 0 <= m < |aftersSaw| ==> |aftersSaw[m]| == if turns[m].settled then |turns[m].after| else 0
      ensures forall m, i :: 0 <= m < |aftersSaw| && 0 <= i < |aftersSaw[m]| ==>
                && aftersSaw[m][i].headers == turns[m].headers && aftersSaw[m][i].elapsed.Some?
                && var start, now, e :=
                     turns[m].before[|turns[m].before| - 1], turns[m].after[0], aftersSaw[m][i].elapsed.value;
                   if start <= now then start + e == now else e == 0
    {
      handlersSaw, aftersSaw := [], [];
      for m := 0 to |turns|
        invariant |aftersSaw| == |handlersSaw| == m
        invariant forall l :: 0 <= l < m ==> handlersSaw[l] == turns[l].headers && turns[l].settled
        invariant forall l :: 0 <= l < m ==> |aftersSaw[l]| == |turns[l].after|
        invariant forall l, i :: 0 <= l < m && 0 <= i < |aftersSaw[l]| ==>
                    && aftersSaw[l][i].headers == turns[l].headers
                    && aftersSaw[l][i].elapsed ==
                         Some(SaturatingSub(turns[l].after[0], turns[l].before[|turns[l].before| - 1]))
      {
        var saw, seen := RunTask(turns[m].headers, turns[m].before, turns[m].settled, turns[m].after);
        handlersSaw, aftersSaw := handlersSaw + [saw], aftersSaw + [seen];
        if !turns[m].settled {
          return;
        }
      }
    }
  }

  /** One message of a loop: its headers, the clocks its middlewares read, and whether its settlement was sent. */
  datatype Turn = Turn(headers: Headers, before: seq<nat>, settled: bool, after: seq<nat>)
}
