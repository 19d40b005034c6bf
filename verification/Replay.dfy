/** What a job's event trail says, read on its own: state, attempts, pod and current lease. */
module Replay {
  import opened Types

  datatype Shape = Shape(state: State, attempts: nat, pod: Option<PodId>, lease: Option<LeaseId>)

  /** An upload says nothing of the job: it may end long after its lease was lost. `Broken` is a trail no sequence of accepted statements could have written. */
  datatype Reading = Blank | At(shape: Shape) | Broken

  function Read(r: Reading, e: Event): Reading {
    if r.Broken? then Broken
    else if r.Blank? then (if e.CreatedEv? then At(Shape(Queued, 0, None, None)) else Broken)
    else
      var s := r.shape;
      match e
      case CreatedEv => Broken
      case AssignedEv(p, l) =>
        if s.state.Queued? then At(Shape(InProgress, s.attempts + 1, Some(p), Some(l))) else Broken
      case UploadedEv(_) => r
      case CompletedEv => if s.state.InProgress? then At(Shape(Completed, s.attempts, s.pod, None)) else Broken
      case FailedEv => if Live(s.state) then At(Shape(Failed, s.attempts, s.pod, None)) else Broken
      case RequeuedEv => if s.state.InProgress? then At(Shape(Queued, s.attempts, None, None)) else Broken
      case LeaseExpiredEv(_) => if s.state.Queued? then r else Broken
      case DeadlineExceededEv(p) => if s.state.Failed? && p == s.pod then r else Broken
      case CancelRequestedEv => if s.state.InProgress? then r else Broken
      case CancelledEv => if Live(s.state) then At(Shape(Cancelled, s.attempts, s.pod, None)) else Broken
      case RecoveredEv(p) => if s.state.InProgress? && p == s.pod then r else Broken
  }

  function Replayed(trail: seq<Event>): Reading {
    if trail == [] then Blank else Read(Replayed(trail[..|trail| - 1]), trail[|trail| - 1])
  }

  function Count(trail: seq<Event>, p: Event -> bool): nat {
    if trail == [] then 0
    else Count(trail[..|trail| - 1], p) + if p(trail[|trail| - 1]) then 1 else 0
  }

  const Assigned := (e: Event) => e.AssignedEv?
  const Requeued := (e: Event) => e.RequeuedEv?
  const Final := (e: Event) => e.CompletedEv? || e.FailedEv? || e.CancelledEv?

  lemma {:induction false} ReplayedSnoc(trail: seq<Event>, e: Event)
    ensures Replayed(trail + [e]) == Read(Replayed(trail), e)
  {
    assert (trail + [e])[..|trail|] == trail;
  }

  lemma {:induction false} ReplayCounts(trail: seq<Event>)
    requires Replayed(trail).At?
    ensures var s := Replayed(trail).shape;
      && Count(trail, Assigned) == s.attempts
      && Count(trail, Requeued) <= Count(trail, Assigned) <= Count(trail, Requeued) + 1
      && (s.state.InProgress? || s.state.Completed? ==> Count(trail, Assigned) == Count(trail, Requeued) + 1)
      && (s.state.Queued? ==> Count(trail, Assigned) == Count(trail, Requeued))
      && Count(trail, Final) == if Live(s.state) then 0 else 1
  {
    var n := |trail| - 1;
    if Replayed(trail[..n]).At? {
      ReplayCounts(trail[..n]);
    } else {
      assert Replayed(trail[..n]).Blank?;
      assert n == 0;
    }
  }
}
