/** The protocol's parked and woken polls are the waiters of the parking lot. */
module Seats {
  import opened Types
  import opened AgentRoutes
  import opened Reaper
  import opened Protocol
  import Parking

  /** A promise that is still open: what the waiting set holds. */
  predicate Waiting(h: seq<Parking.Signal>, w: nat) {
    Parking.Signal.Parked(w) in h && Parking.Verdict(h, w).None?
  }

  predicate Unused(h: seq<Parking.Signal>, w: nat) {
    Parking.Signal.Parked(w) !in h && Parking.Refused(w) !in h
  }

  ghost predicate Sits(polls: map<nat, Handling>, seat: map<nat, nat>, k: nat, w: nat) {
    k in seat && seat[k] == w && k in polls && polls[k].phase.Parked?
  }

  /** `seat` gives each poll that ever parked its ticket. Parked polls are exactly the open promises, and
      the promise of a woken poll has settled with true. */
  ghost predicate Seated(polls: map<nat, Handling>, h: seq<Parking.Signal>, seat: map<nat, nat>) {
    && seat.Keys <= polls.Keys
    && (forall k :: k in seat ==> Parking.Signal.Parked(seat[k]) in h)
    && (forall k, j :: k in seat && j in seat && seat[k] == seat[j] ==> k == j)
    && (forall k :: k in polls && polls[k].phase.Parked? ==> k in seat && Waiting(h, seat[k]))
    && (forall k :: k in polls && polls[k].phase.Woken? ==> k in seat && Parking.Verdict(h, seat[k]) == Some(true))
    && (forall w :: Waiting(h, w) ==> exists k :: Sits(polls, seat, k, w))
  }

  // ------------------------------------------------------------ signals

  lemma {:induction false} Heard(h: seq<Parking.Signal>, g: Parking.Signal, w: nat)
    ensures Parking.Verdict(h + [g], w) ==
      if Parking.Verdict(h, w).Some? then Parking.Verdict(h, w)
      else if g == Parking.Refused(w) then Some(false)
      else if Parking.Signal.Parked(w) !in h then None
      else if g == Parking.TimedOut(w) || g == Parking.Aborted(w) then Some(false)
      else if g.Kicked? then Some(true)
      else None
    ensures Parking.Signal.Parked(w) in h + [g] <==> Parking.Signal.Parked(w) in h || g == Parking.Signal.Parked(w)
  {
    assert (h + [g])[..|h|] == h;
  }

  /** A kick wakes exactly the parked polls. */
  lemma {:induction false} KickSeats(polls: map<nat, Handling>, h: seq<Parking.Signal>, seat: map<nat, nat>)
    requires Seated(polls, h, seat)
    ensures Seated(Kicked(polls), h + [Parking.Kicked], seat)
  {
    hide Parking.Verdict;
    forall w ensures !Waiting(h + [Parking.Kicked], w) { Heard(h, Parking.Kicked, w); }
    forall k | k in seat
      ensures Parking.Signal.Parked(seat[k]) in h + [Parking.Kicked]
      ensures Waiting(h, seat[k]) ==> Parking.Verdict(h + [Parking.Kicked], seat[k]) == Some(true)
      ensures Parking.Verdict(h, seat[k]).Some? ==> Parking.Verdict(h + [Parking.Kicked], seat[k]) == Parking.Verdict(h, seat[k]) {
      Heard(h, Parking.Kicked, seat[k]);
    }
  }

  /** A new ticket is taken by the poll that parks. */
  lemma {:induction false} ParkSeats(polls: map<nat, Handling>, h: seq<Parking.Signal>, seat: map<nat, nat>, k: nat, p: Handling, w: nat)
    requires Seated(polls, h, seat) && k !in polls && p.phase.Parked? && Unused(h, w)
    ensures Seated(polls[k := p], h + [Parking.Signal.Parked(w)], seat[k := w])
  {
    hide Parking.Verdict;
    var polls', h', seat' := polls[k := p], h + [Parking.Signal.Parked(w)], seat[k := w];
    Parking.Unheard(h, w);
    forall x ensures Waiting(h', x) <==> Waiting(h, x) || x == w { Heard(h, Parking.Signal.Parked(w), x); }
    forall j | j in seat
      ensures Parking.Signal.Parked(seat[j]) in h' && seat[j] != w
      ensures Parking.Verdict(h, seat[j]).Some? ==> Parking.Verdict(h', seat[j]) == Parking.Verdict(h, seat[j]) {
      Heard(h, Parking.Signal.Parked(w), seat[j]);
    }
    forall x | Waiting(h', x) ensures exists j :: Sits(polls', seat', j, x) {
      if x == w {
        assert Sits(polls', seat', k, w);
      } else {
        var j :| Sits(polls, seat, j, x);
        assert Sits(polls', seat', j, x);
      }
    }
  }

  /** A poll that is not parked, and was not, takes no seat; a refused ticket is nobody's. */
  lemma {:induction false} AnswerSeats(polls: map<nat, Handling>, h: seq<Parking.Signal>, seat: map<nat, nat>, k: nat, p: Handling)
    requires Seated(polls, h, seat) && (k in polls ==> !polls[k].phase.Parked?) && p.phase.Answered?
    ensures Seated(polls[k := p], h, seat)
  {
    hide Parking.Verdict;
    var polls' := polls[k := p];
    forall x | Waiting(h, x) ensures exists j :: Sits(polls', seat, j, x) {
      var j :| Sits(polls, seat, j, x);
      assert Sits(polls', seat, j, x);
    }
  }

  lemma {:induction false} RefuseSeats(polls: map<nat, Handling>, h: seq<Parking.Signal>, seat: map<nat, nat>, w: nat)
    requires Seated(polls, h, seat) && Unused(h, w)
    ensures Seated(polls, h + [Parking.Refused(w)], seat)
  {
    hide Parking.Verdict;
    var h' := h + [Parking.Refused(w)];
    forall x ensures Waiting(h', x) <==> Waiting(h, x) { Heard(h, Parking.Refused(w), x); }
    forall j | j in seat
      ensures Parking.Signal.Parked(seat[j]) in h' && seat[j] != w
      ensures Parking.Verdict(h, seat[j]).Some? ==> Parking.Verdict(h', seat[j]) == Parking.Verdict(h, seat[j]) {
      Heard(h, Parking.Refused(w), seat[j]);
    }
    forall x | Waiting(h', x) ensures exists j :: Sits(polls, seat, j, x) { assert Waiting(h, x); }
  }

  /** A timeout or an abort drops exactly its own poll. */
  lemma {:induction false} DropSeats(polls: map<nat, Handling>, h: seq<Parking.Signal>, seat: map<nat, nat>, k: nat, p: Handling, g: Parking.Signal)
    requires Seated(polls, h, seat) && k in polls && polls[k].phase.Parked? && p.phase.Answered?
    requires k in seat && (g == Parking.TimedOut(seat[k]) || g == Parking.Aborted(seat[k]))
    ensures Seated(polls[k := p], h + [g], seat)
  {
    hide Parking.Verdict;
    var polls', h', w := polls[k := p], h + [g], seat[k];
    forall x ensures Waiting(h', x) <==> Waiting(h, x) && x != w { Heard(h, g, x); }
    forall j | j in seat
      ensures Parking.Signal.Parked(seat[j]) in h'
      ensures Parking.Verdict(h, seat[j]).Some? ==> Parking.Verdict(h', seat[j]) == Parking.Verdict(h, seat[j]) {
      Heard(h, g, seat[j]);
    }
    forall x | Waiting(h', x) ensures exists j :: Sits(polls', seat, j, x) {
      var j :| Sits(polls, seat, j, x);
      assert Sits(polls', seat, j, x);
    }
  }

  /** A restarted gateway has an empty parking lot, and no poll is parked or woken in it. */
  lemma {:induction false} RestartSeats(polls: map<nat, Handling>)
    ensures Seated(Died(polls), [], map[])
  {
  }

  // ------------------------------------------------------------ steps

  /** The steps whose code kicks. */
  ghost predicate Kicks(c: Config, s: Sys, t: Step)
    requires Guard(c, s, t)
  {
    match t
    case Create(_) => true
    case KickAll => true
    case Result(l) =>
      var x := s.fleet.tasks[l];
      ResultAnswer(s.db, x.job, l, x.outcome.value, c.maxAttempts) == Settled(Queued)
    case Sweep(s1, _, _) => |s1| > Capped(s1, c.maxAttempts)
    case _ => false
  }

  /** What the parking lot hears in a step: `h'` and `seat'` are what signals and seats become. A timeout
      and an abort are the same to the poll. */
  ghost predicate Hears(c: Config, s: Sys, t: Step, h: seq<Parking.Signal>, seat: map<nat, nat>,
                        h': seq<Parking.Signal>, seat': map<nat, nat>)
    requires Guard(c, s, t)
  {
    if t.Restart? then h' == [] && seat' == map[]
    else if Kicks(c, s, t) then h' == h + [Parking.Kicked] && seat' == seat
    else if t.Poll? && ShouldPark(t.assign, SlotsAt(c, s, t.n, t.model), PodAt(c, s, t.n, t.model)) then
      exists w :: Unused(h, w)
        && h' == h + [if t.patient then Parking.Signal.Parked(w) else Parking.Refused(w)]
        && seat' == if t.patient then seat[t.k := w] else seat
    else if t.TimeOut? then
      t.k in seat && (h' == h + [Parking.TimedOut(seat[t.k])] || h' == h + [Parking.Aborted(seat[t.k])]) && seat' == seat
    else h' == h && seat' == seat
  }

  lemma {:induction false} PollsAre(c: Config, s: Sys, t: Step)
    requires Guard(c, s, t)
    ensures t.Poll? ==> t.n in s.fleet.reqs
    ensures var polls, polls' := s.desk.polls, Next(c, s, t).desk.polls;
      if t.Restart? then polls' == Died(polls)
      else if Kicks(c, s, t) then polls' == Kicked(polls)
      else if t.Poll? then
        t.k !in polls && t.k in polls' && polls' == polls[t.k := polls'[t.k]]
        && (if ShouldPark(t.assign, SlotsAt(c, s, t.n, t.model), PodAt(c, s, t.n, t.model)) && t.patient
            then polls'[t.k].phase.Parked? else polls'[t.k].phase.Answered?)
      else if t.TimeOut? || t.Resume? then
        t.k in polls && t.k in polls' && polls' == polls[t.k := polls'[t.k]] && polls'[t.k].phase.Answered?
        && (if t.TimeOut? then polls[t.k].phase.Parked? else polls[t.k].phase.Woken?)
      else polls' == polls
  {
    hide Ops, DiskAfter, FleetAfter, Handed, Swept, SlotsAt, ResultAnswer, Capped;
  }

  /** Every step moves the phases of the polls exactly as the waiters' own signals do. */
  lemma {:induction false} StepSeats(c: Config, s: Sys, t: Step, h: seq<Parking.Signal>, seat: map<nat, nat>,
                                     h': seq<Parking.Signal>, seat': map<nat, nat>)
    requires Guard(c, s, t) && Seated(s.desk.polls, h, seat) && Hears(c, s, t, h, seat, h', seat')
    ensures Seated(Next(c, s, t).desk.polls, h', seat')
  {
    hide Guard, Next, Seated, Kicks, Unused, Kicked, Died, ShouldPark;
    var polls, polls' := s.desk.polls, Next(c, s, t).desk.polls;
    PollsAre(c, s, t);
    if t.Restart? {
      RestartSeats(polls);
    } else if Kicks(c, s, t) {
      KickSeats(polls, h, seat);
    } else if t.Poll? {
      if ShouldPark(t.assign, SlotsAt(c, s, t.n, t.model), PodAt(c, s, t.n, t.model)) {
        var w :| Unused(h, w) && h' == h + [if t.patient then Parking.Signal.Parked(w) else Parking.Refused(w)]
                 && seat' == if t.patient then seat[t.k := w] else seat;
        if t.patient {
          ParkSeats(polls, h, seat, t.k, polls'[t.k], w);
        } else {
          RefuseSeats(polls, h, seat, w);
          AnswerSeats(polls, h', seat, t.k, polls'[t.k]);
        }
      } else {
        AnswerSeats(polls, h, seat, t.k, polls'[t.k]);
      }
    } else if t.TimeOut? {
      DropSeats(polls, h, seat, t.k, polls'[t.k], h'[|h|]);
    } else if t.Resume? {
      AnswerSeats(polls, h, seat, t.k, polls'[t.k]);
    }
  }
}
