/** Session conservation: what the station sends and the core records, over every run of both. */
module Sessions {
  import opened Text
  import opened Core
  import opened CoreTx
  import opened Session
  import opened SessionLaws

  /** The core's record of this station's transactions. */
  ghost function Table(w: World, s: Joint): map<int, Transaction> { Find(After(w.cfg, s.core), w.id).transactions }

  predicate OneStopEach(stops: seq<Stop>) { forall i, j :: 0 <= i < j < |stops| ==> stops[i].tx != stops[j].tx }

  /**
   At most one StopTransaction is ever sent for an id, however many starts and stops run at once;
   and each is for a session the core opened for this station at that very connector.
   */
  lemma {:induction false} OneStopPerSession(w: World, run: Run)
    requires Legal(w, run)
    ensures OneStopEach(At(w, run).stops)
    ensures var s := At(w, run);
            forall j :: 0 <= j < |s.stops| ==>
              && s.stops[j].tx in Table(w, s)
              && Table(w, s)[s.stops[j].tx].connector == s.stops[j].connector
  {
    Always(w, run);
    var s := At(w, run);
    forall j | 0 <= j < |s.stops|
      ensures s.stops[j].tx in Table(w, s) && Table(w, s)[s.stops[j].tx].connector == s.stops[j].connector
    {
      var x := s.stops[j];
      var k :| 0 <= k < |s.attempts| && s.attempts[k].connector == x.connector && s.attempts[k].phase == Taken(x.tx);
      assert Recorded(w, s.core, s.attempts[k]);
      TableEqualsHistory(w.cfg, s.core, w.id, x.tx);
    }
  }

  /** Every stop that arrives finds its transaction running and closes it with its own reading. */
  lemma {:induction false} EveryStopCloses(w: World, run: Run, j: nat, timestamp: Option<Time>, now: Time)
    requires Legal(w, run) && Enabled(w, At(w, run), HandleStop(j, timestamp, now))
    ensures var s := At(w, run);
            var t := At(w, Next(run, HandleStop(j, timestamp, now)));
            var x := s.stops[j];
            && x.tx in Table(w, s) && Table(w, s)[x.tx].Active()
            && x.tx in Table(w, t) && !Table(w, t)[x.tx].Active()
            && Table(w, t)[x.tx].meterStop == x.meter && Table(w, t)[x.tx].reason == x.reason
  {
    var s := At(w, run);
    var t := At(w, Next(run, HandleStop(j, timestamp, now)));
    var x := s.stops[j];
    Always(w, run);
    StopsOurs(w, s);
    assert StopRecorded(s.core, x);
    TableEqualsHistory(w.cfg, s.core, w.id, x.tx);
    Always(w, Next(run, HandleStop(j, timestamp, now)));
    assert StopRecorded(t.core, t.stops[j]);
    Later(s.core, t.core.op, x.tx);
    TableEqualsHistory(w.cfg, t.core, w.id, x.tx);
  }

  /**
   Every closed transaction of the station was closed by the one stop sent for it, from the
   connector it started at, and its meter moved by at least one session's energy.
   */
  lemma {:induction false} ClosedSessionsDeliver(w: World, run: Run, id: int)
    requires Legal(w, run) && id in Table(w, At(w, run)) && !Table(w, At(w, run))[id].Active()
    ensures var s := At(w, run);
            var t := Table(w, s)[id];
            && t.meterStop >= t.meterStart + 1000
            && exists j :: 0 <= j < |s.stops| && s.stops[j] == Stop(t.connector, id, t.meterStop, t.reason, Arrived)
  {
    Always(w, run);
    InTable(w, At(w, run), id);
    ClosingStop(w, At(w, run), id);
  }

  /** A transaction in the core's table is ours, and open exactly until its stop arrived. */
  lemma InTable(w: World, s: Joint, id: int)
    requires CoreOk(w, s)
    ensures id in Table(w, s) <==> Ours(w, s.core, id)
    ensures id in Table(w, s) ==> (Table(w, s)[id].Active() <==> StopOf(s.core, id).None?)
    ensures id in Table(w, s) ==>
              var start, t := StartOf(s.core, id).value, Table(w, s)[id];
              start.StartTx? && t.connector == start.connector && t.meterStart == start.meter
    ensures id in Table(w, s) && StopOf(s.core, id).Some? ==>
              var stop, t := StopOf(s.core, id).value, Table(w, s)[id];
              stop.StopTx? && t.meterStop == stop.meter && t.reason == stop.why
  {
    TableEqualsHistory(w.cfg, s.core, w.id, id);
  }

  lemma ClosingStop(w: World, s: Joint, id: int)
    requires Ok(w, s) && id in Table(w, s) && !Table(w, s)[id].Active()
    ensures var t := Table(w, s)[id];
            && t.meterStop >= t.meterStart + 1000
            && exists j :: 0 <= j < |s.stops| && s.stops[j] == Stop(t.connector, id, t.meterStop, t.reason, Arrived)
  {
    InTable(w, s, id);
    var t := Table(w, s)[id];
    assert ArrivedStop(s, id);
    var j :| 0 <= j < |s.stops| && s.stops[j].tx == id && s.stops[j].fate.Arrived?;
    assert StopRecorded(s.core, s.stops[j]);
    assert TakenAt(s, s.stops[j].connector, id);
    var k :| 0 <= k < |s.attempts| && s.attempts[k].connector == s.stops[j].connector
      && s.attempts[k].phase == Taken(id);
    assert Recorded(w, s.core, s.attempts[k]);
    assert s.stops[j] == Stop(t.connector, id, t.meterStop, t.reason, Arrived);
  }

  /** The station has heard of a session only once its answer was taken. */
  predicate Unknown(s: Joint, id: int) {
    exists k :: 0 <= k < |s.attempts|
      && (s.attempts[k].phase == Answered(id, true) || s.attempts[k].phase == Unheard(id))
  }

  function Places(s: Joint, c: int, id: int): nat {
    (if Unknown(s, id) then 1 else 0) + (if OnOutlet(s, c, id) then 1 else 0)
    + (if Stopped(s, id) then 1 else 0) + (if id in s.displaced then 1 else 0)
  }

  /**
   No session is lost from sight or counted twice. Each transaction the core has for the station
   is in exactly one place: not heard of at the station, on its connector, in a stop, or written
   over by a later start. It is open in the core unless its stop arrived.
   */
  lemma {:induction false} SessionsAccounted(w: World, run: Run, id: int)
    requires Legal(w, run) && id in Table(w, At(w, run))
    ensures var s := At(w, run);
            var t := Table(w, s)[id];
            && Places(s, t.connector, id) == 1
            && (t.Active() <==> !ArrivedStop(s, id))
  {
    var s := At(w, run);
    Always(w, run);
    InTable(w, s, id);
    OpenUntilArrival(w, s, id);
    assert Asks(s, id);
    var k :| 0 <= k < |s.attempts| && IdOf(s.attempts[k]) == Some(id);
    assert Recorded(w, s.core, s.attempts[k]);
    PlacedOnce(s, k, id);
  }

  lemma OpenUntilArrival(w: World, s: Joint, id: int)
    requires CoreOk(w, s) && Ours(w, s.core, id)
    ensures StopOf(s.core, id).Some? <==> ArrivedStop(s, id)
  {
  }

  lemma PlacedOnce(s: Joint, k: nat, id: int)
    requires IdsOk(s) && PlacesOk(s) && k < |s.attempts| && IdOf(s.attempts[k]) == Some(id)
    ensures Places(s, s.attempts[k].connector, id) == 1
  {
  }

  lemma TakenOnce(s: Joint, k: nat, id: int)
    requires IdsOk(s) && PlacesOk(s) && k < |s.attempts| && s.attempts[k].phase == Taken(id)
    ensures Places(s, s.attempts[k].connector, id) == 1
  {
  }

  /** A connector's meter counts the sessions stopped there. */
  lemma {:induction false} MeterCountsSessions(w: World, run: Run, c: int)
    requires Legal(w, run) && 1 <= c <= w.connectors
    ensures var s := At(w, run); c in s.outlets && s.outlets[c].meter == 1000 * StopsAt(s.stops, c)
  {
    Always(w, run);
    SameConnectors(w, run);
  }

  lemma {:induction false} SameConnectors(w: World, run: Run)
    requires Legal(w, run)
    ensures At(w, run).outlets.Keys == Booted(w).outlets.Keys
  {
    if run.Next? {
      SameConnectors(w, run.before);
      KeysKept(w, At(w, run.before), run.step);
    }
  }

  lemma KeysKept(w: World, s: Joint, step: Step)
    requires Enabled(w, s, step)
    ensures Advance(w, s, step).outlets.Keys == s.outlets.Keys
  {
  }

  // One promise the station cannot make: that each session it took can still be stopped.

  /** An accepted start's answer arrives at an outlet whose session is still running. */
  predicate WritesOver(s: Joint, step: Step) {
    && step.FinishStart? && step.k < |s.attempts| && s.attempts[step.k].phase.Answered?
         && s.attempts[step.k].phase.accepted
    && s.attempts[step.k].connector in s.outlets && s.outlets[s.attempts[step.k].connector].tx != 0
  }

  predicate NeverWritesOver(w: World, run: Run)
    requires Legal(w, run)
  {
    run.Next? ==> NeverWritesOver(w, run.before) && !WritesOver(At(w, run.before), run.step)
  }

  lemma {:induction false} NothingDisplaced(w: World, run: Run)
    requires Legal(w, run)
    ensures At(w, run).displaced == [] <==> NeverWritesOver(w, run)
  {
    if run.Next? {
      var s := At(w, run.before);
      NothingDisplaced(w, run.before);
      DisplacedGrows(w, s, run.step);
    }
  }

  lemma DisplacedGrows(w: World, s: Joint, step: Step)
    requires Enabled(w, s, step)
    ensures Advance(w, s, step).displaced ==
              if WritesOver(s, step) then s.displaced + [s.outlets[s.attempts[step.k].connector].tx] else s.displaced
  {
  }

  /** Every session the station took is on its connector or in a stop. */
  predicate AllStoppable(s: Joint) {
    forall k :: 0 <= k < |s.attempts| && s.attempts[k].phase.Taken? ==>
      OnOutlet(s, s.attempts[k].connector, s.attempts[k].phase.id) || Stopped(s, s.attempts[k].phase.id)
  }

  /**
   Every session taken stays stoppable if and only if no start was answered while its connector
   was still in a session, which the check in remoteStart, made before the start, does not ensure.
   */
  lemma {:induction false} StoppableExactly(w: World, run: Run)
    requires Legal(w, run)
    ensures AllStoppable(At(w, run)) <==> NeverWritesOver(w, run)
  {
    Always(w, run);
    NothingDisplaced(w, run);
    StoppableNow(At(w, run));
  }

  lemma StoppableNow(s: Joint)
    requires IdsOk(s) && PlacesOk(s)
    ensures AllStoppable(s) <==> s.displaced == []
  {
    if s.displaced != [] {
      var id := s.displaced[0];
      assert DisplacedOk(s, id);
      var c :| c in s.outlets && TakenAt(s, c, id);
      var k :| 0 <= k < |s.attempts| && s.attempts[k].connector == c && s.attempts[k].phase == Taken(id);
      TakenOnce(s, k, id);
      assert !AllStoppable(s);
    }
  }

  ghost predicate Continues(run: Run, later: Run) { run == later || (later.Next? && Continues(run, later.before)) }

  /** A session written over stays open in the core whatever happens next. */
  lemma {:induction false} DisplacedNeverCloses(w: World, run: Run, later: Run, id: int)
    requires Legal(w, later) && Continues(run, later) && Legal(w, run) && id in At(w, run).displaced
    ensures var s := At(w, later); id in s.displaced && id in Table(w, s) && Table(w, s)[id].Active()
  {
    DisplacedStays(w, run, later, id);
    Always(w, later);
    DisplacedOpen(w, At(w, later), id);
  }

  lemma DisplacedOpen(w: World, s: Joint, id: int)
    requires Ok(w, s) && id in s.displaced
    ensures id in Table(w, s) && Table(w, s)[id].Active()
  {
    assert DisplacedOk(s, id);
    var c :| c in s.outlets && TakenAt(s, c, id);
    var k :| 0 <= k < |s.attempts| && s.attempts[k].connector == c && s.attempts[k].phase == Taken(id);
    assert Recorded(w, s.core, s.attempts[k]);
    InTable(w, s, id);
    assert !Stopped(s, id) && !ArrivedStop(s, id);
  }

  lemma {:induction false} DisplacedStays(w: World, run: Run, later: Run, id: int)
    requires Legal(w, later) && Continues(run, later) && Legal(w, run) && id in At(w, run).displaced
    ensures id in At(w, later).displaced
  {
    if run != later {
      DisplacedStays(w, run, later.before, id);
      DisplacedGrows(w, At(w, later.before), later.step);
    }
  }

  /** The run that does it: two starts under way on connector 1, answered one after the other. */
  const BOTH_ASKED := Next(Next(Boot, BeginStart(1, "T")), BeginStart(1, "T"))
  const BOTH_OPEN := Next(Next(BOTH_ASKED, HandleStart(0, None, 1)), HandleStart(1, None, 1))
  const WRITTEN_OVER := Next(Next(BOTH_OPEN, FinishStart(0)), FinishStart(1))

  lemma BothOpen(w: World)
    requires w.connectors >= 1 && w.knows("T")
    ensures Legal(w, BOTH_OPEN)
    ensures At(w, BOTH_OPEN).attempts == [Attempt(1, "T", 0, Answered(1, true)), Attempt(1, "T", 0, Answered(2, true))]
    ensures At(w, BOTH_OPEN).outlets == Booted(w).outlets && At(w, BOTH_OPEN).displaced == []
  {
    assert At(w, BOTH_ASKED).attempts == [Attempt(1, "T", 0, Asked), Attempt(1, "T", 0, Asked)];
    var first := Next(BOTH_ASKED, HandleStart(0, None, 1));
    assert At(w, first).attempts == [Attempt(1, "T", 0, Answered(1, true)), Attempt(1, "T", 0, Asked)];
  }

  lemma OneTaken(w: World)
    requires w.connectors >= 1 && w.knows("T")
    ensures Legal(w, Next(BOTH_OPEN, FinishStart(0)))
    ensures var s := At(w, Next(BOTH_OPEN, FinishStart(0)));
            s.attempts[1..] == [Attempt(1, "T", 0, Answered(2, true))] && OnOutlet(s, 1, 1) && s.displaced == []
  {
    BothOpen(w);
  }

  lemma OverlapDisplaces(w: World)
    requires w.connectors >= 1 && w.knows("T")
    ensures Legal(w, WRITTEN_OVER) && At(w, WRITTEN_OVER).displaced == [1] && OnOutlet(At(w, WRITTEN_OVER), 1, 2)
  {
    OneTaken(w);
    var s := At(w, Next(BOTH_OPEN, FinishStart(0)));
    assert s.attempts[1] == s.attempts[1..][0];
  }
}
