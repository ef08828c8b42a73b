/**
 Reservations at the station against history: what a connector is doing follows from the last
 steps that concerned it, and from that when a reservation is refused and when one is lost.
 */
module Reservations {
  import opened Session
  import opened SessionLaws
  import opened Sessions

  /** The step puts an accepted session on this connector. */
  predicate Takes(s: Joint, step: Step, c: int) {
    && step.FinishStart? && step.k < |s.attempts| && s.attempts[step.k].connector == c
    && s.attempts[step.k].phase.Answered? && s.attempts[step.k].phase.accepted
  }

  /** The step decides what reservation the connector carries. */
  predicate Decides(s: Joint, step: Step, c: int) {
    (step.Reserve? && step.connector == c) || (step.Cancel? && step.connector == c) || Takes(s, step, c)
  }

  /** The last accepted reservation of a connector, unless it was cancelled or used up since. */
  ghost function HeldIn(w: World, run: Run, c: int): int
    requires Legal(w, run)
  {
    if run.Boot? then 0
    else if !Decides(At(w, run.before), run.step, c) then HeldIn(w, run.before, c)
    else if run.step.Reserve? then run.step.reservation
    else 0
  }

  /** The status a connector was last given. */
  ghost function StatusIn(run: Run, c: int): string {
    if run.Boot? then "Available"
    else match run.step
      case SetStatus(d, status) => if d == c && d != 0 then status else StatusIn(run.before, c)
      case Reserve(d, _) => if d == c then "Reserved" else StatusIn(run.before, c)
      case Cancel(d) => if d == c then "Available" else StatusIn(run.before, c)
      case _ => StatusIn(run.before, c)
  }

  /** The session a connector last took, unless it was stopped since. */
  ghost function SessionIn(w: World, run: Run, c: int): int
    requires Legal(w, run)
  {
    if run.Boot? then 0
    else if Takes(At(w, run.before), run.step, c) then At(w, run.before).attempts[run.step.k].phase.tx
    else if run.step.BeginStop? && run.step.connector == c then 0
    else SessionIn(w, run.before, c)
  }

  /** In every run a connector is exactly what its history says. */
  lemma {:induction false} OutletEqualsHistory(w: World, run: Run, c: int)
    requires Legal(w, run) && 1 <= c <= w.connectors
    ensures var s := At(w, run);
            && c in s.outlets
            && s.outlets[c] == Outlet(StatusIn(run, c), SessionIn(w, run, c), HeldIn(w, run, c),
                 SESSION_ENERGY * StopsAt(s.stops, c))
  {
    MeterCountsSessions(w, run, c);
    if run.Next? {
      OutletEqualsHistory(w, run.before, c);
      OutletStep(w, At(w, run.before), run.step, c);
    }
  }

  /** What one step makes of a connector. */
  lemma OutletStep(w: World, s: Joint, step: Step, c: int)
    requires Enabled(w, s, step) && c in s.outlets && c != 0
    ensures var o := s.outlets[c];
            var t := Advance(w, s, step);
            && c in t.outlets
            && t.outlets[c].reservation == (if !Decides(s, step, c) then o.reservation else if step.Reserve? then
                 step.reservation else 0)
            && t.outlets[c].tx == (if Takes(s, step, c) then s.attempts[step.k].phase.tx
                                   else if step.BeginStop? && step.connector == c then 0 else o.tx)
            && t.outlets[c].status == (if step.SetStatus? && step.connector == c then step.status
                                       else if step.Reserve? && step.connector == c then "Reserved"
                                       else if step.Cancel? && step.connector == c then "Available" else o.status)
  {
    match step
    case SetStatus(_, _) =>
    case Reserve(_, _) =>
    case Cancel(_) =>
    case BeginStart(_, _) =>
    case HandleStart(_, _, _) =>
    case LoseStart(_) =>
    case FinishStart(_) =>
    case BeginStop(_, _) =>
    case HandleStop(_, _, _) =>
    case LoseStop(_) =>
    case Elsewhere(_) =>
  }

  /**
   When a connector that is held refuses another reservation: if and only if it is in a session
   or was last called Charging, Preparing, Faulted or Unavailable. Being held is no reason.
   */
  lemma {:induction false} HeldRefusesExactly(w: World, run: Run, c: int, id: int)
    requires Legal(w, run) && 1 <= c <= w.connectors && HeldIn(w, run, c) != 0
    ensures !Legal(w, Next(run, Reserve(c, id))) <==>
            SessionIn(w, run, c) != 0 || StatusIn(run, c) in {"Charging", "Preparing", "Faulted", "Unavailable"}
  {
    OutletEqualsHistory(w, run, c);
  }

  /** Straight after a reservation another one is always accepted, and the first is gone. */
  lemma {:induction false} HeldAgain(w: World, run: Run, c: int, id: int, other: int)
    requires Legal(w, Next(run, Reserve(c, id)))
    ensures var again := Next(Next(run, Reserve(c, id)), Reserve(c, other));
            Legal(w, again) && At(w, again).outlets[c].reservation == other
  {
    assert At(w, Next(run, Reserve(c, id))).outlets[c].tx == 0;
  }

  /** The shortest run: connector 1 is reserved twice, and no outlet carries the first id any more. */
  lemma FirstReservationLost(w: World)
    requires w.connectors >= 1
    ensures var run := Next(Next(Boot, Reserve(1, 7)), Reserve(1, 8));
            && Legal(w, run) && At(w, run).outlets[1].reservation == 8
            && forall c :: c in At(w, run).outlets ==> At(w, run).outlets[c].reservation != 7
  {
    assert Legal(w, Next(Boot, Reserve(1, 7)));
  }

  /** later continues run by steps none of which decides what connector c carries. */
  ghost predicate Undecided(w: World, run: Run, later: Run, c: int)
    requires Legal(w, later)
  {
    run == later || (later.Next? && !Decides(At(w, later.before), later.step, c) && Undecided(w, run, later.before, c))
  }

  /** The same reservation is not made again at c on the way from run to later. */
  ghost predicate NotRemade(run: Run, later: Run, c: int, id: int) {
    run == later || (later.Next? && later.step != Reserve(c, id) && NotRemade(run, later.before, c, id))
  }

  /**
   When a reservation is lost. After any continuation in which it is not made again, a connector
   still carries it if and only if nothing there was reserved, cancelled or started since.
   */
  lemma {:induction false} HeldExactlyUntilDecided(w: World, run: Run, later: Run, c: int, id: int)
    requires Legal(w, later) && run.Next? && run.step == Reserve(c, id) && id != 0
    requires 1 <= c <= w.connectors && NotRemade(run, later, c, id)
    ensures c in At(w, later).outlets && (At(w, later).outlets[c].reservation == id <==> Undecided(w, run, later, c))
  {
    OutletEqualsHistory(w, later, c);
    HeldSince(w, run, later, c, id);
  }

  lemma {:induction false} HeldSince(w: World, run: Run, later: Run, c: int, id: int)
    requires Legal(w, later) && run.Next? && run.step == Reserve(c, id) && id != 0 && NotRemade(run, later, c, id)
    ensures HeldIn(w, later, c) == id <==> Undecided(w, run, later, c)
  {
    if run != later { HeldSince(w, run, later.before, c, id); }
  }
}
