/** gateway/src/scheduler/waiters.ts: the long-poll parking lot. A waiter is named by its ticket;
    `outcome` holds the promises that have settled. */
module Parking {
  import opened Types

  datatype Signal =
    | Refused(ticket: nat)
    | Parked(ticket: nat)
    | TimedOut(ticket: nat)
    | Aborted(ticket: nat)
    | Kicked

  /** How the promise of `w` has settled after these signals, if it has. */
  function Verdict(h: seq<Signal>, w: nat): Option<bool> {
    if h == [] then None
    else
      var n := |h| - 1;
      var before := Verdict(h[..n], w);
      if before.Some? then before
      else
        match h[n]
        case Refused(t) => if t == w then Some(false) else None
        case Parked(_) => None
        case TimedOut(t) => if t == w && Parked(w) in h[..n] then Some(false) else None
        case Aborted(t) => if t == w && Parked(w) in h[..n] then Some(false) else None
        case Kicked => if Parked(w) in h[..n] then Some(true) else None
  }

  /** Signal `j` is the timeout, abort or refusal of `w`; timers exist only for parked waiters. */
  predicate DroppedAt(h: seq<Signal>, w: nat, j: int) {
    0 <= j < |h| && (h[j] == Refused(w) || ((h[j] == TimedOut(w) || h[j] == Aborted(w)) && Parked(w) in h[..j]))
  }

  /** Once settled, settled for good: a promise resolves exactly once. */
  lemma {:induction false} SettlesOnce(h: seq<Signal>, later: seq<Signal>, w: nat)
    requires Verdict(h, w).Some?
    ensures Verdict(h + later, w) == Verdict(h, w)
    decreases |later|
  {
    if later == [] {
      assert h + later == h;
    } else {
      var n := |later| - 1;
      SettlesOnce(h, later[..n], w);
      assert (h + later)[..|h + later| - 1] == h + later[..n];
    }
  }

  /** `w` was parked and then kicked at `i`, before any timeout, abort or refusal of its own. */
  ghost predicate WokenAt(h: seq<Signal>, w: nat, i: int) {
    0 <= i < |h| && h[i].Kicked? && Parked(w) in h[..i] && forall j :: 0 <= j < i ==> !DroppedAt(h, w, j)
  }

  /** A waiter is woken if and only if a kick reached it while parked, before its timeout or abort. */
  lemma {:induction false} WokenOnlyByKick(h: seq<Signal>, w: nat)
    ensures Verdict(h, w) == Some(true) <==> exists i :: WokenAt(h, w, i)
    ensures Verdict(h, w) == Some(false) ==> exists j :: DroppedAt(h, w, j)
    ensures Verdict(h, w).None? ==> forall j :: !DroppedAt(h, w, j)
  {
    if h != [] {
      var n := |h| - 1;
      var p := h[..n];
      assert forall i :: 0 <= i < n ==> p[..i] == h[..i] && p[i] == h[i];
      WokenOnlyByKick(p, w);
      forall j | 0 <= j < n ensures DroppedAt(p, w, j) <==> DroppedAt(h, w, j) {}
      forall i | 0 <= i < n ensures WokenAt(p, w, i) <==> WokenAt(h, w, i) {}
      if Verdict(p, w).Some? {
        if Verdict(p, w).value {
          var i :| WokenAt(p, w, i);
          assert WokenAt(h, w, i);
        } else {
          var j :| DroppedAt(p, w, j);
          assert DroppedAt(h, w, j);
          assert !WokenAt(h, w, n);
        }
      } else if h[n].Kicked? && Parked(w) in p {
        assert WokenAt(h, w, n);
      } else {
        assert !WokenAt(h, w, n);
        if Verdict(h, w).Some? { assert DroppedAt(h, w, n); }
      }
    }
  }

  /** A ticket never handed out has not settled. */
  lemma {:induction false} Unheard(h: seq<Signal>, w: nat)
    requires Parked(w) !in h && Refused(w) !in h
    ensures Verdict(h, w).None?
  {
    if h != [] { Unheard(h[..|h| - 1], w); }
  }

  lemma {:induction false} Refuses(h: seq<Signal>, t: nat)
    ensures forall w :: Verdict(h + [Refused(t)], w) == if Verdict(h, w).None? && w == t then Some(false) else Verdict(h, w)
  {
    assert (h + [Refused(t)])[..|h|] == h;
  }

  lemma {:induction false} Parks(h: seq<Signal>, t: nat)
    ensures forall w :: Verdict(h + [Parked(t)], w) == Verdict(h, w)
  {
    assert (h + [Parked(t)])[..|h|] == h;
  }

  class Waiters {
    var next: nat
    var waiting: set<nat>
    var outcome: map<nat, bool>
    ghost var signals: seq<Signal>

    ghost predicate Valid() reads this {
      && (forall w: nat :: w in waiting <==> Parked(w) in signals && Verdict(signals, w).None?)
      && (forall w: nat :: Verdict(signals, w) == if w in outcome then Some(outcome[w]) else None)
      && (forall w: nat :: Parked(w) in signals || Refused(w) in signals <==> w < next)
    }

    constructor ()
      ensures Valid() && waiting == {} && outcome == map[] && signals == []
    {
      next, waiting, outcome, signals := 0, {}, map[], [];
    }

    ghost method Record(s: Signal)
      modifies this`signals
      ensures signals == old(signals) + [s]
      ensures signals[..|signals| - 1] == old(signals)
    {
      signals := signals + [s];
      assert signals[..|signals| - 1] == old(signals);
    }

    /** Parks, unless the window is already closed; the ticket stands for the returned promise. */
    method Wait(timeoutMs: int, shutdown: bool) returns (w: nat)
      requires Valid()
      modifies this
      ensures Valid() && w == old(next)
      ensures w !in old(waiting) && w !in old(outcome)
      ensures if timeoutMs <= 0 || shutdown
              then waiting == old(waiting) && outcome == old(outcome)[w := false]
              else waiting == old(waiting) + {w} && outcome == old(outcome)
      ensures signals == old(signals) + [if timeoutMs <= 0 || shutdown then Refused(w) else Parked(w)]
    {
      hide Verdict;
      w := next;
      Unheard(signals, w);
      ghost var h := signals;
      next := next + 1;
      if timeoutMs <= 0 || shutdown {
        outcome := outcome[w := false];
        Record(Refused(w));
        Refuses(h, w);
      } else {
        waiting := waiting + {w};
        Record(Parked(w));
        Parks(h, w);
      }
    }

    method Finish(w: nat, woken: bool)
      modifies this`waiting, this`outcome
      ensures waiting == if w in old(outcome) then old(waiting) else old(waiting) - {w}
      ensures outcome == if w in old(outcome) then old(outcome) else old(outcome)[w := woken]
    {
      if w in outcome { return; }
      outcome := outcome[w := woken];
      waiting := waiting - {w};
    }

    /** The timer fires; `finish` ignores it when the promise has settled. */
    method OnTimeout(w: nat)
      requires Valid() && Parked(w) in signals
      modifies this
      ensures Valid() && waiting == old(waiting) - {w} && next == old(next)
      ensures outcome == if w in old(waiting) then old(outcome)[w := false] else old(outcome)
      ensures signals == old(signals) + [TimedOut(w)]
    {
      Finish(w, false);
      Record(TimedOut(w));
    }

    method OnAbort(w: nat)
      requires Valid() && Parked(w) in signals
      modifies this
      ensures Valid() && waiting == old(waiting) - {w} && next == old(next)
      ensures outcome == if w in old(waiting) then old(outcome)[w := false] else old(outcome)
      ensures signals == old(signals) + [Aborted(w)]
    {
      Finish(w, false);
      Record(Aborted(w));
    }

    /** Wakes every parked poller, and nobody else. */
    method Kick()
      requires Valid()
      modifies this
      ensures Valid() && waiting == {} && next == old(next)
      ensures outcome.Keys == old(outcome).Keys + old(waiting)
      ensures forall w :: w in outcome ==> outcome[w] == if w in old(waiting) then true else old(outcome)[w]
      ensures signals == old(signals) + [Kicked]
    {
      var pending := waiting;
      waiting := {};
      var todo := pending;
      while todo != {}
        invariant todo <= pending && waiting == {}
        invariant next == old(next) && signals == old(signals)
        invariant outcome.Keys == old(outcome).Keys + (pending - todo)
        invariant forall w :: w in outcome ==> outcome[w] == if w in pending then true else old(outcome)[w]
        decreases todo
      {
        var w :| w in todo;
        Finish(w, true);
        todo := todo - {w};
      }
      Record(Kicked);
    }
  }
}
