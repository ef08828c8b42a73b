/**
 Charging sessions across two programs: the station, whose goroutines start and stop transactions
 on its connectors, and the core, which gives out the ids. Between them every message may be late
 or lost, any number of starts and stops may be under way on one connector, and other charge
 points use the same core. One step is one critical section of either side.
 */
module Session {
  import opened Text
  import opened Config
  import opened Core
  import V16

  const SESSION_ENERGY := 1000

  /** One outlet; tx and reservation are 0 when there is none. */
  datatype Outlet = Outlet(status: string, tx: int, reservation: int, meter: int)

  const IDLE := Outlet("Available", 0, 0, 0)

  /**
   How far one startTransaction has got. Abandoned: its caller gave up before the core answered.
   Unheard: the core opened the session but the caller never heard of it.
   */
  datatype Phase = Asked | Abandoned | Answered(tx: int, accepted: bool) | Taken(id: int) | Unheard(id: int) | Over

  datatype Attempt = Attempt(connector: int, tag: string, meterStart: int, phase: Phase)

  datatype Fate = Sent | Arrived | Dropped

  /** One StopTransaction the station sent. */
  datatype Stop = Stop(connector: int, tx: int, meter: int, reason: string, fate: Fate)

  /** attempts, stops and displaced are histories; displaced are the ids a later start wrote over. */
  datatype Joint = Joint(
    station: string, outlets: map<int, Outlet>, attempts: seq<Attempt>, stops: seq<Stop>, displaced: seq<int>,
        core: History)

  datatype World = World(cfg: Config, knows: string -> bool, id: string, tag: string, connectors: nat)

  datatype Step =
    | SetStatus(connector: int, status: string)
    | Reserve(connector: int, reservation: int)
    | Cancel(connector: int)
    | BeginStart(connector: int, tag: string)
    | HandleStart(k: nat, timestamp: Option<Time>, now: Time)
    | LoseStart(k: nat)
    | FinishStart(k: nat)
    | BeginStop(connector: int, reason: string)
    | HandleStop(j: nat, timestamp: Option<Time>, now: Time)
    | LoseStop(j: nat)
    | Elsewhere(op: Op)

  /** Connectors are numbered from 1. */
  function Outlets(n: nat): (r: map<int, Outlet>)
    ensures forall c :: c in r <==> 1 <= c <= n
    ensures forall c :: c in r ==> r[c] == IDLE
  {
    if n == 0 then map[] else Outlets(n - 1)[n := IDLE]
  }

  function Booted(w: World): Joint {
    Joint("Available", Outlets(w.connectors), [], [], [], Start)
  }

  /** What reserveNow answers; an outlet that is already held may be reserved again. */
  function ReserveAnswer(o: Outlet): string {
    if o.tx != 0 || o.status == "Charging" || o.status == "Preparing" then "Occupied"
    else if o.status == "Faulted" then "Faulted"
    else if o.status == "Unavailable" then "Unavailable"
    else "Accepted"
  }

  /** Each refusal says why, and "Accepted" is the answer exactly when none of the reasons holds. */
  lemma AnswersExactly(o: Outlet)
    ensures ReserveAnswer(o) == "Occupied" <==> o.tx != 0 || o.status in {"Charging", "Preparing"}
    ensures ReserveAnswer(o) == "Faulted" <==> o.tx == 0 && o.status == "Faulted"
    ensures ReserveAnswer(o) == "Unavailable" <==> o.tx == 0 && o.status == "Unavailable"
    ensures ReserveAnswer(o) == "Accepted" <==>
            o.tx == 0 && o.status !in {"Charging", "Preparing", "Faulted", "Unavailable"}
  {
  }

  predicate Enabled(w: World, s: Joint, step: Step) {
    match step
    case SetStatus(c, _) => c == 0 || c in s.outlets
    case Reserve(c, _) => c in s.outlets && ReserveAnswer(s.outlets[c]) == "Accepted"
    case Cancel(c) => c in s.outlets
    case BeginStart(c, _) => c in s.outlets
    case HandleStart(k, _, _) => k < |s.attempts| && (s.attempts[k].phase.Asked? || s.attempts[k].phase.Abandoned?)
    case LoseStart(k) => k < |s.attempts| && (s.attempts[k].phase.Asked? || s.attempts[k].phase.Answered?)
    case FinishStart(k) => k < |s.attempts| && s.attempts[k].phase.Answered? && s.attempts[k].connector in s.outlets
    case BeginStop(c, _) => c in s.outlets && s.outlets[c].tx != 0
    case HandleStop(j, _, now) => j < |s.stops| && s.stops[j].fate.Sent? && now != ZERO_TIME
    case LoseStop(j) => j < |s.stops| && s.stops[j].fate.Sent?
    case Elsewhere(op) =>
      && (op.cp == w.id ==> !op.StartTx? && !op.StopTx?)
      && (op.StopTx? ==> op.now != ZERO_TIME)
  }

  function To(s: Joint, k: nat, p: Phase): Joint
    requires k < |s.attempts|
  {
    s.(attempts := s.attempts[k := s.attempts[k].(phase := p)])
  }

  function Fated(s: Joint, j: nat, f: Fate): Joint
    requires j < |s.stops|
  {
    s.(stops := s.stops[j := s.stops[j].(fate := f)])
  }

  function Request(a: Attempt, timestamp: Option<Time>): V16.Message {
    V16.StartTransaction(a.connector, a.tag, a.meterStart, timestamp)
  }

  /** The core handles a start: refused, answered Invalid with id 0, or opened with the next id. */
  function Handled(w: World, s: Joint, k: nat, timestamp: Option<Time>, now: Time): Joint
    requires k < |s.attempts|
  {
    var a := s.attempts[k];
    var m := Request(a, timestamp);
    if V16.Refusal(m).Some? then To(s, k, Over) else
    var opens := w.knows(a.tag);
    var id := if opens then After(w.cfg, s.core).nextTx else 0;
    var p := if a.phase.Asked? then Answered(id, opens) else if opens then Unheard(id) else Over;
    To(s, k, p).(core := Then(s.core, V16.Effect(w.knows, w.id, m, now)))
  }

  function Lost(p: Phase): Phase {
    if !p.Answered? then Abandoned else if p.accepted then Unheard(p.tx) else Over
  }

  /** The answer arrives: an accepted session takes the outlet over, whatever it was doing. */
  function Finished(s: Joint, k: nat): Joint
    requires k < |s.attempts| && s.attempts[k].phase.Answered? && s.attempts[k].connector in s.outlets
  {
    var a := s.attempts[k];
    if !a.phase.accepted then To(s, k, Over) else
    var o := s.outlets[a.connector];
    To(s, k, Taken(a.phase.tx)).(
      outlets := s.outlets[a.connector := o.(tx := a.phase.tx, reservation := 0)],
      displaced := s.displaced + if o.tx == 0 then [] else [o.tx])
  }

  function Stopping(s: Joint, c: int, reason: string): Joint
    requires c in s.outlets
  {
    var o := s.outlets[c];
    var meter := o.meter + SESSION_ENERGY;
    s.(outlets := s.outlets[c := o.(tx := 0, meter := meter)], stops := s.stops + [Stop(c, o.tx, meter, reason, Sent)])
  }

  function StopRequest(w: World, x: Stop, timestamp: Option<Time>, now: Time): Op {
    V16.Effect(w.knows, w.id, V16.StopTransaction(x.tx, x.meter, timestamp, x.reason), now)
  }

  function Advance(w: World, s: Joint, step: Step): Joint
    requires Enabled(w, s, step)
  {
    match step
    case SetStatus(c, status) =>
      if c == 0 then s.(station := status) else s.(outlets := s.outlets[c := s.outlets[c].(status := status)])
    case Reserve(c, id) => s.(outlets := s.outlets[c := s.outlets[c].(reservation := id, status := "Reserved")])
    case Cancel(c) => s.(outlets := s.outlets[c := s.outlets[c].(reservation := 0, status := "Available")])
    case BeginStart(c, tag) =>
      s.(attempts := s.attempts + [Attempt(c, if tag == "" then w.tag else tag, s.outlets[c].meter, Asked)])
    case HandleStart(k, timestamp, now) => Handled(w, s, k, timestamp, now)
    case LoseStart(k) => To(s, k, Lost(s.attempts[k].phase))
    case FinishStart(k) => Finished(s, k)
    case BeginStop(c, reason) => Stopping(s, c, reason)
    case HandleStop(j, timestamp, now) =>
      Fated(s, j, Arrived).(core := Then(s.core, StopRequest(w, s.stops[j], timestamp, now)))
    case LoseStop(j) => Fated(s, j, Dropped)
    case Elsewhere(op) => s.(core := Then(s.core, op))
  }

  /** The steps taken so far, latest last. */
  datatype Run = Boot | Next(before: Run, step: Step)

  predicate Legal(w: World, run: Run)
    decreases run, 0
  {
    run.Boot? || (Legal(w, run.before) && Enabled(w, At(w, run.before), run.step))
  }

  function At(w: World, run: Run): Joint
    requires Legal(w, run)
    decreases run, 1
  {
    if run.Boot? then Booted(w) else Advance(w, At(w, run.before), run.step)
  }
}
