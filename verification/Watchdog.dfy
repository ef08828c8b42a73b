/**
 The heartbeat watchdog over timed runs. The server's reader drops a peer it has not heard from
 for the idle timeout; the station beats at the period it was told when it booted, and has a read
 deadline of its own. Time is in nanoseconds and passes in explicit steps, never past a moment at
 which something must happen.
 */
module Watchdog {
  import opened Text
  import opened Config

  const SECOND := 1_000_000_000
  const FALLBACK_HEARTBEAT := 60 * SECOND

  // The station's own limits: how long it waits for an answer, and for any message at all.
  const CALL_TIMEOUT := 30 * SECOND
  const STATION_IDLE := 24 * 3600 * SECOND

  /** What validateCharger finds wrong with the two durations. */
  datatype HeartbeatProblem = IntervalNotPositive | TimeoutNotPositive | TimeoutNotAbove

  function HeartbeatProblems(interval: int, timeout: int): (r: seq<HeartbeatProblem>)
    ensures r == [] <==> 0 < interval < timeout
    ensures IntervalNotPositive in r <==> interval <= 0
    ensures TimeoutNotPositive in r <==> timeout <= 0
    ensures TimeoutNotAbove in r <==> 0 < timeout <= interval
  {
    (if interval <= 0 then [IntervalNotPositive] else [])
    + (if timeout <= 0 then [TimeoutNotPositive] else [])
    + (if interval > 0 && timeout > 0 && timeout <= interval then [TimeoutNotAbove] else [])
  }

  /** The interval in the boot answer: whole seconds, rounded down. */
  function Handed(interval: nat): nat { interval / SECOND }

  /** The period the station then beats at; an interval of 0 leaves its fallback in place. */
  function Period(handed: int): (r: nat)
    ensures r > 0
  {
    if handed > 0 then handed * SECOND else FALLBACK_HEARTBEAT
  }

  /**
   idle is the server's timeout, period the station's beat, up the longest a message takes to be
   read by the server, down the longest from there until its answer is read by the station, and
   connectors how many outlets the station has.
   */
  datatype Setup = Setup(idle: nat, period: nat, up: nat, down: nat, connectors: nat)

  /**
   What the station is doing. A call that is not answered in time ends it: while connecting the
   station hangs up, afterwards its heartbeat loop stops and it falls silent.
   */
  datatype Loop = Waiting(until: nat) | InCall(asked: nat) | Silent | HungUp

  /** Where the latest request is: on its way up since asked, or its answer down since read. */
  datatype Flight = Landed | Up(asked: nat) | Down(read: nat)

  /**
   deadline and listen are the read deadlines of server and station; reports is how many calls of
   connecting are left: the boot, the station and each outlet.
   */
  datatype Link = Link(now: nat, deadline: nat, listen: nat, dropped: Option<nat>, loop: Loop, flight: Flight,
      reports: nat)

  /** Hear and Tell are any other message one side reads; Ping and Pong are the transport's own. */
  datatype Tick = Pass(d: nat) | Beat | Arrive | Answer | GiveUp | Quit | Hear | Tell | Ping | Pong | Expire

  function Open(p: Setup): Link { Link(0, p.idle, STATION_IDLE, None, Waiting(0), Landed, p.connectors + 2) }

  /** Both sides are still reading. */
  predicate Live(s: Link) { s.dropped.None? && !s.loop.HungUp? }

  /** The latest moment by which the request or its answer has to arrive. */
  predicate Travels(p: Setup, f: Flight, t: nat) {
    match f
    case Landed => true
    case Up(asked) => t <= asked + p.up
    case Down(read) => t <= read + p.down
  }

  /** The station may let time go on until t before it has to move. */
  predicate Idles(l: Loop, t: nat) {
    match l
    case Waiting(until) => t <= until
    case InCall(asked) => t <= asked + CALL_TIMEOUT
    case _ => true
  }

  predicate MayPass(p: Setup, s: Link, t: nat) {
    t <= s.deadline && t <= s.listen && Travels(p, s.flight, t) && Idles(s.loop, t)
  }

  predicate Enabled(p: Setup, s: Link, t: Tick) {
    match t
    case Pass(d) => Live(s) ==> MayPass(p, s, s.now + d)
    case Beat => Live(s) && s.loop.Waiting? && s.now >= s.loop.until && s.flight.Landed?
    case Arrive => Live(s) && s.flight.Up?
    case Answer => Live(s) && s.flight.Down?
    case GiveUp => Live(s) && s.loop.InCall? && s.now >= s.loop.asked + CALL_TIMEOUT
    case Quit => Live(s) && s.now >= s.listen
    case Expire => Live(s) && s.now >= s.deadline
    case _ => Live(s)
  }

  function Apply(p: Setup, s: Link, t: Tick): Link
    requires Enabled(p, s, t)
  {
    match t
    case Pass(d) => s.(now := s.now + d)
    case Beat => s.(loop := InCall(s.now), flight := Up(s.now))
    case Arrive => s.(flight := Down(s.now), deadline := s.now + p.idle)
    case Answer => Answered(p, s.(flight := Landed, listen := s.now + STATION_IDLE))
    case GiveUp => s.(loop := if s.reports > 0 then HungUp else Silent)
    case Quit => s.(loop := HungUp)
    case Hear => s.(deadline := s.now + p.idle)
    case Tell => s.(listen := s.now + STATION_IDLE)
    case Ping => s
    case Pong => s
    case Expire => s.(dropped := Some(s.now))
  }

  /** A call that was still waited for makes way for the next; a late answer changes nothing. */
  function Answered(p: Setup, s: Link): Link {
    if !s.loop.InCall? then s
    else if s.reports > 1 then s.(loop := Waiting(s.now), reports := s.reports - 1)
    else s.(loop := Waiting(s.now + p.period), reports := 0)
  }

  datatype Run = Begin | Then(before: Run, tick: Tick)

  predicate Legal(p: Setup, run: Run)
    decreases run, 0
  {
    run.Begin? || (Legal(p, run.before) && Enabled(p, At(p, run.before), run.tick))
  }

  function At(p: Setup, run: Run): Link
    requires Legal(p, run)
    decreases run, 1
  {
    if run.Begin? then Open(p) else Apply(p, At(p, run.before), run.tick)
  }

  /** When the server last read a message; opening the connection counts as one. */
  function LastHeard(p: Setup, run: Run): nat
    requires Legal(p, run)
  {
    if run.Begin? then 0
    else if run.tick.Arrive? || run.tick.Hear? then At(p, run.before).now
    else LastHeard(p, run.before)
  }

  /**
   The deadline is the last message plus the timeout, whatever pings and pongs went by; a peer is
   dropped at that moment and not before or after; and while it is there, that moment is to come.
   */
  lemma {:induction false} DroppedExactlyAtDeadline(p: Setup, run: Run)
    requires Legal(p, run)
    ensures var s := At(p, run);
            && LastHeard(p, run) <= s.now && s.deadline == LastHeard(p, run) + p.idle
            && (s.dropped.Some? ==> s.dropped.value == LastHeard(p, run) + p.idle)
            && (Live(s) ==> s.now <= LastHeard(p, run) + p.idle)
            && s.listen <= s.now + STATION_IDLE
  {
    if run.Then? { DroppedExactlyAtDeadline(p, run.before); }
  }

  /** later continues run, and the server read nothing in between. */
  ghost predicate Quiet(run: Run, later: Run) {
    run == later || (later.Then? && !later.tick.Arrive? && !later.tick.Hear? && Quiet(run, later.before))
  }

  /**
   A silent peer that does not hang up is dropped one timeout after its last message, however
   many pongs it sends.
   */
  lemma {:induction false} SilentPeerDropped(p: Setup, run: Run, later: Run)
    requires Legal(p, run) && Legal(p, later) && Quiet(run, later)
    requires At(p, later).now > LastHeard(p, run) + p.idle && !At(p, later).loop.HungUp?
    ensures At(p, later).dropped == Some(LastHeard(p, run) + p.idle)
  {
    HeardBefore(p, run, later);
    DroppedExactlyAtDeadline(p, later);
  }

  lemma {:induction false} HeardBefore(p: Setup, run: Run, later: Run)
    requires Legal(p, run) && Legal(p, later) && Quiet(run, later)
    ensures LastHeard(p, later) == LastHeard(p, run)
  {
    if run != later { HeardBefore(p, run, later.before); }
  }

  // A station that keeps beating.

  /** The station is connected and has not stopped beating. */
  predicate Kept(s: Link) { Live(s) && !s.loop.Silent? }

  ghost predicate NeverLost(p: Setup) { forall run :: Legal(p, run) ==> Kept(At(p, run)) }

  /** Beats, calls and answers each leave the network the time it may take. */
  predicate Roomy(p: Setup) {
    && p.period + p.up + p.down < p.idle
    && p.up + p.down < CALL_TIMEOUT
    && p.period + p.up + p.down < STATION_IDLE
  }

  /** The next message is read, answered and its answer read before anyone runs out of patience. */
  predicate InTime(p: Setup, s: Link) {
    && s.dropped.None? && Idles(s.loop, s.now) && Travels(p, s.flight, s.now)
    && match (s.loop, s.flight)
       case (Waiting(until), Landed) => until + p.up < s.deadline && until + p.up + p.down < s.listen
       case (InCall(asked), Up(sent)) => sent == asked && asked + p.up < s.deadline && asked + p.up + p.down < s.listen
       case (InCall(asked), Down(read)) =>
         read <= asked + p.up && asked + p.up + p.down < s.listen && read + p.down + p.period + p.up < s.deadline
       case _ => false
  }

  lemma InTimeStep(p: Setup, s: Link, t: Tick)
    requires InTime(p, s) && Enabled(p, s, t) && Roomy(p)
    requires s.deadline <= s.now + p.idle && s.listen <= s.now + STATION_IDLE
    ensures InTime(p, Apply(p, s, t))
  {
  }

  lemma {:induction false} InTimeAlways(p: Setup, run: Run)
    requires Legal(p, run) && Roomy(p)
    ensures InTime(p, At(p, run))
  {
    if run.Then? {
      InTimeAlways(p, run.before);
      DroppedExactlyAtDeadline(p, run.before);
      InTimeStep(p, At(p, run.before), run.tick);
    }
  }

  /**
   When a station is never lost, whatever else is said on the connection: if and only if period
   and longest way there and back stay below the server's timeout and below the station's own 24
   hours, and the way there and back alone below the 30 seconds the station waits for an answer.
   */
  lemma {:induction false} SafeExactly(p: Setup)
    ensures NeverLost(p) <==> Roomy(p)
  {
    if Roomy(p) {
      forall run | Legal(p, run) ensures Kept(At(p, run)) { InTimeAlways(p, run); }
    } else {
      var run := Slowest(p);
      assert !Kept(At(p, run));
    }
  }

  /** A legal run continued by one enabled step. */
  function Next(p: Setup, run: Run, t: Tick): (r: Run)
    requires Legal(p, run) && Enabled(p, At(p, run), t)
    ensures Legal(p, r) && At(p, r) == Apply(p, At(p, run), t)
    ensures Alone(run) && !t.Hear? && !t.Tell? ==> Alone(r)
  {
    Then(run, t)
  }

  /** The same after d has passed. */
  function Later(p: Setup, run: Run, d: nat, t: Tick): (r: Run)
    requires Legal(p, run) && Live(At(p, run)) && MayPass(p, At(p, run), At(p, run).now + d)
    requires Enabled(p, At(p, run).(now := At(p, run).now + d), t)
    ensures Legal(p, r) && At(p, r) == Apply(p, At(p, run).(now := At(p, run).now + d), t)
    ensures Alone(run) && !t.Hear? && !t.Tell? ==> Alone(r)
  {
    Next(p, Next(p, run, Pass(d)), t)
  }

  /** Connecting goes through without any delay: n calls answered. */
  function Reported(p: Setup, n: nat): (run: Run)
    requires n < p.connectors + 2
    ensures Legal(p, run) && At(p, run) == Open(p).(reports := p.connectors + 2 - n)
    ensures Alone(run)
  {
    if n == 0 then Begin else Next(p, Next(p, Next(p, Reported(p, n - 1), Beat), Arrive), Answer)
  }

  /** The last call of connecting has just been read. */
  function Reading(p: Setup): (run: Run)
    ensures Legal(p, run) && Alone(run)
    ensures At(p, run) == Link(0, p.idle, STATION_IDLE, None, InCall(0), Down(0), 1)
  {
    Next(p, Next(p, Reported(p, p.connectors + 1), Beat), Arrive)
  }

  /**
   Let d pass if nobody runs out of patience by then. Otherwise go to the moment somebody does:
   the server, the station's reader, or its call.
   */
  lemma Try(p: Setup, run: Run, d: nat) returns (r: Run)
    requires Legal(p, run) && Kept(At(p, run)) && At(p, run).now <= At(p, run).deadline
             && At(p, run).now <= At(p, run).listen
    requires var s := At(p, run);
             && Travels(p, s.flight, s.now + d) && (s.loop.Waiting? ==> s.now + d <= s.loop.until)
             && (s.loop.InCall? ==> s.now <= s.loop.asked + CALL_TIMEOUT)
    ensures Legal(p, r)
    ensures Kept(At(p, r)) ==>
              var s := At(p, run);
              && At(p, r) == s.(now := s.now + d) && s.now + d < s.deadline && s.now + d < s.listen
              && (s.loop.InCall? ==> s.now + d < s.loop.asked + CALL_TIMEOUT)
  {
    var s := At(p, run);
    var t := s.now + d;
    var call := if s.loop.InCall? then s.loop.asked + CALL_TIMEOUT else t + 1;
    if s.deadline <= t && s.deadline <= s.listen && s.deadline <= call {
      r := Later(p, run, s.deadline - s.now, Expire);
    } else if s.listen <= t && s.listen <= call {
      r := Later(p, run, s.listen - s.now, Quit);
    } else if call <= t {
      r := Later(p, run, call - s.now, GiveUp);
    } else {
      r := Next(p, run, Pass(d));
    }
  }

  /** The slowest network loses a station that is not given room. */
  lemma Slowest(p: Setup) returns (r: Run)
    requires !Roomy(p)
    ensures Legal(p, r) && !Kept(At(p, r))
  {
    r := Try(p, Reading(p), p.down);
    if Kept(At(p, r)) {
      r := SlowBeat(p, Next(p, r, Answer));
    }
  }

  lemma SlowBeat(p: Setup, connected: Run) returns (r: Run)
    requires !Roomy(p) && Legal(p, connected) && p.down < p.idle
    requires At(p, connected) == Link(p.down, p.idle, p.down + STATION_IDLE, None, Waiting(p.down + p.period), Landed,
             0)
    ensures Legal(p, r) && !Kept(At(p, r))
  {
    r := Try(p, connected, p.period);
    if Kept(At(p, r)) {
      r := Try(p, Next(p, r, Beat), p.up);
      if Kept(At(p, r)) {
        r := Try(p, Next(p, r, Arrive), p.down);
      }
    }
  }

  // When the server drops a station that has nothing else to say.

  /** No message but the station's own calls and their answers. */
  predicate Alone(run: Run) { run.Then? ==> Alone(run.before) && !run.tick.Hear? && !run.tick.Tell? }

  function Min(a: int, b: int): int { if a < b then a else b }

  /** A beat can be so late that the server stops waiting while the station still listens. */
  predicate Overdue(p: Setup) {
    var answered := Min(p.down, CALL_TIMEOUT);
    p.idle <= answered + p.period + p.up && p.idle <= answered + STATION_IDLE
  }

  /** The loop can end on a slow call, and the server stops waiting while the station still listens. */
  predicate Silenced(p: Setup) {
    && p.up + p.down >= CALL_TIMEOUT
    && p.period + CALL_TIMEOUT <= STATION_IDLE
    && p.idle <= Min(p.down, STATION_IDLE - p.period) + STATION_IDLE
  }

  ghost predicate NeverDropped(p: Setup) {
    forall run :: Legal(p, run) && Alone(run) ==> At(p, run).dropped.None?
  }

  /** What holds of a station by itself, in terms of when each side last read something. */
  predicate Steady(p: Setup, s: Link) {
    var heard, told := s.deadline - p.idle, s.listen - STATION_IDLE;
    && heard <= s.now && told <= s.now && MayPass(p, s, s.now)
    && (s.loop.Silent? ==> s.reports == 0 && p.up + p.down >= CALL_TIMEOUT && p.period + CALL_TIMEOUT <= STATION_IDLE)
    && match s.flight
       case Landed =>
         if s.loop.Waiting? then
           told <= heard + Min(p.down, CALL_TIMEOUT) && s.loop.until <= told + p.period
           && (s.reports == 0 ==> s.loop.until == told + p.period)
         else s.loop.Silent? && told <= heard + Min(p.down, STATION_IDLE - p.period)
       case Up(asked) =>
         && told <= heard + Min(p.down, CALL_TIMEOUT) && told <= asked <= told + p.period && asked <= s.now
         && (s.reports == 0 ==> asked == told + p.period)
         && (s.loop == InCall(asked) || s.loop.Silent?)
       case Down(read) =>
         && heard == read
         && if s.loop.InCall? then
              s.loop.asked <= read <= s.loop.asked + p.up && (s.reports == 0 ==> s.loop.asked == told + p.period)
              && told <= s.loop.asked
            else s.loop.Silent? && told + p.period <= read
  }

  lemma SteadyStep(p: Setup, s: Link, t: Tick)
    requires Live(s) && Steady(p, s) && Enabled(p, s, t) && !t.Hear? && !t.Tell?
    ensures Live(Apply(p, s, t)) ==> Steady(p, Apply(p, s, t))
    ensures Apply(p, s, t).dropped.Some? ==> Overdue(p) || Silenced(p)
  {
    match t
    case Pass(_) =>
    case Beat =>
    case Arrive =>
    case Answer =>
    case GiveUp =>
    case Quit =>
    case Ping =>
    case Pong =>
    case Expire =>
  }

  lemma {:induction false} SteadyAlways(p: Setup, run: Run)
    requires Legal(p, run) && Alone(run)
    ensures Live(At(p, run)) ==> Steady(p, At(p, run))
    ensures At(p, run).dropped.Some? ==> Overdue(p) || Silenced(p)
  {
    if run.Then? {
      SteadyAlways(p, run.before);
      if Live(At(p, run.before)) { SteadyStep(p, At(p, run.before), run.tick); }
    }
  }

  /**
   When the server drops a station that says nothing but its calls: in no run if and only if no
   beat can be overdue, and no slow call silence it, while the station still listens. A station
   whose own 24 hours run out first hangs up instead.
   */
  lemma {:induction false} DroppedExactly(p: Setup)
    ensures NeverDropped(p) <==> !Overdue(p) && !Silenced(p)
  {
    if Overdue(p) || Silenced(p) {
      var run := if Overdue(p) then Late(p) else Unanswered(p);
      assert At(p, run).dropped.Some?;
    } else {
      forall run | Legal(p, run) && Alone(run) ensures At(p, run).dropped.None? { SteadyAlways(p, run); }
    }
  }

  /** Nothing is read until the deadline. */
  function Expired(p: Setup, run: Run): (late: Run)
    requires Legal(p, run) && Alone(run) && Live(At(p, run)) && At(p, run).now <= At(p, run).deadline
    requires MayPass(p, At(p, run), At(p, run).deadline)
    ensures Legal(p, late) && Alone(late)
            && At(p, late) == At(p, run).(now := At(p, run).deadline, dropped := Some(At(p, run).deadline))
  {
    Later(p, run, At(p, run).deadline - At(p, run).now, Expire)
  }

  /** The last call of connecting is answered as late as may be, and the first beat is late too. */
  function Late(p: Setup): (run: Run)
    requires Overdue(p)
    ensures Legal(p, run) && Alone(run) && At(p, run).dropped == Some(p.idle)
  {
    var answered := Min(p.down, CALL_TIMEOUT);
    if p.idle <= answered then Expired(p, Reading(p)) else
    var connected := Later(p, Reading(p), answered, Answer);
    if p.idle <= answered + p.period then Expired(p, connected) else
    LateBeat(p, answered, Later(p, connected, p.period, Beat))
  }

  function LateBeat(p: Setup, answered: nat, sent: Run): (run: Run)
    requires Overdue(p) && answered == Min(p.down, CALL_TIMEOUT) && answered + p.period < p.idle
    requires Legal(p, sent) && Alone(sent)
    requires var t := answered + p.period;
             At(p, sent) == Link(t, p.idle, answered + STATION_IDLE, None, InCall(t), Up(t), 0)
    ensures Legal(p, run) && Alone(run) && At(p, run).dropped == Some(p.idle)
  {
    if p.idle <= answered + p.period + CALL_TIMEOUT then Expired(p, sent)
    else Expired(p, Later(p, sent, CALL_TIMEOUT, GiveUp))
  }

  /** The first beat is sent at once after connecting and read as late as its answer needs. */
  function Unanswered(p: Setup): (run: Run)
    requires Silenced(p)
    ensures Legal(p, run) && Alone(run) && At(p, run).dropped.Some?
  {
    var connected := Next(p, Reading(p), Answer);
    if p.idle <= p.period then Expired(p, connected) else
    SlowlyRead(p, Later(p, connected, p.period, Beat))
  }

  function SlowlyRead(p: Setup, sent: Run): (run: Run)
    requires Silenced(p) && p.period < p.idle && Legal(p, sent) && Alone(sent)
    requires At(p, sent) == Link(p.period, p.idle, STATION_IDLE, None, InCall(p.period), Up(p.period), 0)
    ensures Legal(p, run) && Alone(run) && At(p, run).dropped.Some?
  {
    var up := if p.down < CALL_TIMEOUT then CALL_TIMEOUT - p.down else 0;
    if p.idle <= p.period + up then Expired(p, sent)
    else TooLate(p, up, Later(p, sent, up, Arrive))
  }

  /** The beat was read after up; its answer comes when the station has given up, if at all. */
  function TooLate(p: Setup, up: nat, read: Run): (run: Run)
    requires Silenced(p) && up == (if p.down < CALL_TIMEOUT then CALL_TIMEOUT - p.down else 0)
    requires Legal(p, read) && Alone(read)
    requires var t := p.period + up;
             At(p, read) == Link(t, t + p.idle, STATION_IDLE, None, InCall(p.period), Down(t), 0)
    ensures Legal(p, run) && Alone(run) && At(p, run).dropped.Some?
  {
    if up + p.idle <= CALL_TIMEOUT then Expired(p, read) else
    var silent := Later(p, read, CALL_TIMEOUT - up, GiveUp);
    var told := Min(p.period + up + p.down, STATION_IDLE);
    if p.period + up + p.idle <= told then Expired(p, silent)
    else Expired(p, Later(p, silent, told - p.period - CALL_TIMEOUT, Answer))
  }

  // What the configuration makes of it.

  /** The timed system a configuration sets up, with a network and a station of the given kind. */
  function Configured(cfg: Config, up: nat, down: nat, connectors: nat): Setup
    requires HeartbeatProblems(cfg.heartbeatInterval, cfg.heartbeatTimeout) == []
  {
    Setup(cfg.heartbeatTimeout, Period(Handed(cfg.heartbeatInterval)), up, down, connectors)
  }

  /** The station never beats more slowly than configured, unless the interval is below a second. */
  lemma WholeSeconds(interval: nat)
    ensures interval >= SECOND ==> interval - SECOND < Period(Handed(interval)) <= interval
    ensures interval < SECOND ==> Period(Handed(interval)) == FALLBACK_HEARTBEAT
    ensures interval >= STATION_IDLE <==> Period(Handed(interval)) >= STATION_IDLE
  {
    assert interval == SECOND * (interval / SECOND) + interval % SECOND;
  }

  /**
   Under a validated configuration with an interval of a second or more, the station is never
   lost while interval and round trip stay below the timeout and below a day, and the round trip
   below the 30 seconds the station waits for an answer.
   */
  lemma {:induction false} PunctualStationKept(cfg: Config, up: nat, down: nat, connectors: nat)
    requires HeartbeatProblems(cfg.heartbeatInterval, cfg.heartbeatTimeout) == []
    requires cfg.heartbeatInterval >= SECOND
    requires cfg.heartbeatInterval + up + down < cfg.heartbeatTimeout && up + down < CALL_TIMEOUT
    requires cfg.heartbeatInterval + up + down < STATION_IDLE
    ensures NeverLost(Configured(cfg, up, down, connectors))
  {
    WholeSeconds(cfg.heartbeatInterval);
    SafeExactly(Configured(cfg, up, down, connectors));
  }

  /**
   What validation is for: a timeout above the interval keeps every punctual station on a fast
   enough network. That holds if and only if the interval is a second or more and below a day, or
   is below a second, which is handed out as 0, and the timeout above the station's own fallback.
   */
  lemma {:induction false} ValidationSufficesExactly(cfg: Config, connectors: nat)
    requires HeartbeatProblems(cfg.heartbeatInterval, cfg.heartbeatTimeout) == []
    ensures NeverLost(Configured(cfg, 0, 0, connectors)) <==>
            SECOND <= cfg.heartbeatInterval < STATION_IDLE
            || (cfg.heartbeatInterval < SECOND && cfg.heartbeatTimeout > 60 * SECOND)
  {
    WholeSeconds(cfg.heartbeatInterval);
    SafeExactly(Configured(cfg, 0, 0, connectors));
  }

  /** Half a second with a timeout of one second passes validation and drops an ideal station. */
  lemma SubSecondIntervalDrops(cfg: Config, connectors: nat)
    requires cfg.heartbeatInterval == SECOND / 2 && cfg.heartbeatTimeout == SECOND
    ensures HeartbeatProblems(cfg.heartbeatInterval, cfg.heartbeatTimeout) == []
    ensures !NeverDropped(Configured(cfg, 0, 0, connectors))
  {
    WholeSeconds(cfg.heartbeatInterval);
    DroppedExactly(Configured(cfg, 0, 0, connectors));
  }

  /**
   An interval of a day with a timeout of two passes validation, and on an instant network the
   station's own reader gives up before its first beat; the server never gets to drop it.
   */
  lemma DayLongIntervalLoses(cfg: Config, connectors: nat) returns (run: Run)
    requires cfg.heartbeatInterval == 24 * 3600 * SECOND && cfg.heartbeatTimeout == 48 * 3600 * SECOND
    ensures HeartbeatProblems(cfg.heartbeatInterval, cfg.heartbeatTimeout) == []
    ensures var p := Configured(cfg, 0, 0, connectors);
            && Legal(p, run) && Alone(run) && At(p, run).now == STATION_IDLE && At(p, run).loop.HungUp?
            && NeverDropped(p)
  {
    var p := Configured(cfg, 0, 0, connectors);
    WholeSeconds(cfg.heartbeatInterval);
    DroppedExactly(p);
    var connected := Next(p, Reading(p), Answer);
    run := Later(p, connected, STATION_IDLE, Quit);
  }

  /**
   A slow network in numbers: with beats every minute and 150 seconds of patience, a round trip
   of 40 seconds is more than the station's 30, so the first beat is its last.
   */
  lemma SlowNetworkSilences(connectors: nat) returns (run: Run)
    ensures var p := Setup(150 * SECOND, 60 * SECOND, 20 * SECOND, 20 * SECOND, connectors);
            && p.period + p.up + p.down < p.idle
            && Legal(p, run) && At(p, run).loop.Silent? && At(p, run).dropped == Some(230 * SECOND)
  {
    var p := Setup(150 * SECOND, 60 * SECOND, 20 * SECOND, 20 * SECOND, connectors);
    var connected := Next(p, Reading(p), Answer);
    var sent := Later(p, connected, p.period, Beat);
    var read := Later(p, sent, p.up, Arrive);
    assert At(p, read) == Link(80 * SECOND, 230 * SECOND, STATION_IDLE, None, InCall(60 * SECOND), Down(80 * SECOND),
        0);
    run := SilentThen(p, read);
  }

  lemma SilentThen(p: Setup, read: Run) returns (run: Run)
    requires p.down == 20 * SECOND && Legal(p, read)
    requires At(p, read) == Link(80 * SECOND, 230 * SECOND, STATION_IDLE, None, InCall(60 * SECOND),
             Down(80 * SECOND), 0)
    ensures Legal(p, run) && At(p, run).loop.Silent? && At(p, run).dropped == Some(230 * SECOND)
  {
    var silent := Later(p, read, 10 * SECOND, GiveUp);
    var told := Later(p, silent, 10 * SECOND, Answer);
    run := Later(p, told, 130 * SECOND, Expire);
  }

  /** The writer pings three times per timeout, but not more than once a second. */
  function PingPeriod(idle: nat): (r: nat)
    ensures idle > SECOND <==> r < idle
    ensures idle >= 3 * SECOND ==> 3 * r <= idle < 3 * (r + 1)
  {
    if idle / 3 < SECOND then SECOND else idle / 3
  }
}
