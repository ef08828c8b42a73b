/**
 The committed events against history: what each operation tells the subscribers, and that the last
 news about a charge point's connection is the truth.
 */
module CoreLog {
  import opened Text
  import opened Config
  import opened Core
  import opened CoreStatus
  import opened CoreTx

  /** The error code last reported for an EVSE. */
  ghost function ErrorIn(cfg: Config, h: History, cp: string, uid: string): string {
    match h
    case Start => ""
    case Then(before, op) =>
      if op.SetStatus? && op.cp == cp && op.connector != 0 && EvseUid(cfg, cp, op.connector) == uid then op.code
      else ErrorIn(cfg, before, cp, uid)
  }

  lemma {:induction false} NoErrorAtFirst(evses: seq<Evse>, uid: string)
    ensures ErrorCode(Configured(evses), uid) == ""
  {
    if evses != [] { NoErrorAtFirst(evses[..|evses| - 1], uid); }
  }

  lemma {:induction false} ErrorsAlways(cfg: Config, h: History, cp: string, uid: string)
    ensures ErrorCode(Find(After(cfg, h), cp), uid) == ErrorIn(cfg, h, cp, uid)
  {
    match h
    case Start => NoErrorAtFirst(cfg.evses, uid);
    case Then(before, op) =>
      ErrorsAlways(cfg, before, cp, uid);
      if op.cp == cp { ErrorsStep(cfg, Find(After(cfg, before), cp), After(cfg, before).nextTx, op, uid); }
  }

  lemma {:induction false} ErrorsStep(cfg: Config, c: ChargePoint, nextTx: int, op: Op, uid: string)
    requires Listed(c)
    ensures ErrorCode(Update(cfg, c, nextTx, op).0, uid) ==
            if op.SetStatus? && op.connector != 0 && EvseUid(cfg, op.cp, op.connector) == uid then op.code
            else ErrorCode(c, uid)
  {
    if op.SetStatus? && op.connector != 0 {
      ReportedCode(c, EvseUid(cfg, op.cp, op.connector), op, uid);
    } else {
      CodesKept(cfg, c, nextTx, op);
    }
  }

  lemma {:induction false} CodesKept(cfg: Config, c: ChargePoint, nextTx: int, op: Op)
    requires Listed(c) && !(op.SetStatus? && op.connector != 0)
    ensures Update(cfg, c, nextTx, op).0.errorCode == c.errorCode
  {
    match op
    case Connect(_) =>
    case Disconnect(_, _) =>
    case SetStatus(_, _, _, _) =>
    case StartTx(_, _, _, _, _, _) =>
    case StopTx(_, _, _, _, _, _) =>
    case MeterValues(_, _) =>
    case Touch(_) =>
  }

  /** Nothing but changes of this charge point's EVSEs, each with the code last reported. */
  ghost predicate ChangesOnly(cfg: Config, h: History, cp: string, es: seq<Event>) {
    forall i :: 0 <= i < |es| ==>
      && es[i].EvseChanged? && es[i].cp == cp
      && es[i].errorCode == ErrorIn(cfg, h, cp, es[i].uid)
  }

  /** First this event, then nothing but changes. */
  ghost predicate Heads(cfg: Config, h: History, cp: string, e: Event, es: seq<Event>) {
    |es| > 0 && es[0] == e && ChangesOnly(cfg, h, cp, es[1..])
  }

  /** Whether a stop finds a transaction of this charge point that was not stopped before. */
  ghost predicate Stoppable(h: History, cp: string, tx: int) {
    StartOf(h, tx).Some? && StartOf(h, tx).value.StartTx? && StartOf(h, tx).value.cp == cp && StopOf(h, tx).None?
  }

  /** What an operation should commit after history h. */
  ghost predicate Commits(cfg: Config, h: History, op: Op, es: seq<Event>) {
    var now := Then(h, op);
    match op
    case Connect(cp) => Heads(cfg, now, cp, Connected(cp), es)
    case Disconnect(cp, why) => if OnlineIn(h, cp) then Heads(cfg, now, cp, Disconnected(cp, why), es) else es == []
    case SetStatus(cp, connector, status, code) =>
      if connector == 0 && status != StationIn(h, cp)
      then Heads(cfg, now, cp, StationChanged(cp, StationIn(h, cp), status, code), es)
      else ChangesOnly(cfg, now, cp, es)
    case StartTx(cp, connector, tag, _, _, _) => es == [Started(cp, EvseUid(cfg, cp, connector), Starts(h) + 1, tag)]
    case StopTx(cp, tx, _, why, _, _) =>
      && (es == [] || (|es| == 1 && es[0].StoppedTx? && es[0].cp == cp))
      && (Clocked(h) ==>
            if Stoppable(h, cp, tx)
            then var start := StartOf(h, tx).value;
                 es == [StoppedTx(cp, EvseUid(cfg, cp, start.connector), tx, start.tag, why)]
            else es == [])
    case MeterValues(cp, connector) => es == [Metered(cp, EvseUid(cfg, cp, connector))]
    case Touch(_) => es == []
  }

  lemma {:induction false} RederiveSays(c: ChargePoint, cp: string, n: nat, i: nat)
    requires n <= |c.order| && Listed(c) && i < |Rederive(c, cp, n).1|
    ensures var e := Rederive(c, cp, n).1[i]; e.EvseChanged? && e.cp == cp && e.errorCode == ErrorCode(c, e.uid)
  {
    if n > 0 && i < |Rederive(c, cp, n - 1).1| { RederiveSays(c, cp, n - 1, i); }
  }

  /** The changes of a re-derivation carry the codes the charge point has afterwards. */
  lemma {:induction false} RederivedSays(cfg: Config, h: History, c: ChargePoint, cp: string, first: seq<Event>)
    requires Listed(c)
    requires forall uid :: ErrorCode(c, uid) == ErrorIn(cfg, h, cp, uid)
    ensures first <= Rederived(c, cp, first).1 && ChangesOnly(cfg, h, cp, Rederived(c, cp, first).1[|first|..])
  {
    var es := Rederive(c, cp, |c.order|).1;
    assert (first + es)[|first|..] == es;
    forall i | 0 <= i < |es|
      ensures es[i].EvseChanged? && es[i].cp == cp && es[i].errorCode == ErrorIn(cfg, h, cp, es[i].uid)
    {
      RederiveSays(c, cp, |c.order|, i);
    }
  }

  lemma {:induction false} NextId(cfg: Config, h: History)
    ensures After(cfg, h).nextTx == Starts(h) + 1
  {
    if h.Then? { NextId(cfg, h.before); }
  }

  /** Each operation commits exactly what it should, after what was committed before. */
  lemma {:induction false} CommitsExactly(cfg: Config, h: History, op: Op) returns (es: seq<Event>)
    ensures After(cfg, Then(h, op)).log == After(cfg, h).log + es && Commits(cfg, h, op, es)
  {
    var s := After(cfg, h);
    var c := Find(s, op.cp);
    es := Update(cfg, c, s.nextTx, op).1;
    if op.Connect? || op.Disconnect? || op.SetStatus? {
      NewsCommitted(cfg, h, op, c, s.nextTx);
    } else {
      NextId(cfg, h);
      if op.StopTx? { StopCommitted(cfg, h, op, c, s.nextTx); }
    }
  }

  lemma {:induction false} NewsCommitted(cfg: Config, h: History, op: Op, c: ChargePoint, nextTx: int)
    requires c == Find(After(cfg, h), op.cp) && (op.Connect? || op.Disconnect? || op.SetStatus?)
    ensures Commits(cfg, h, op, Update(cfg, c, nextTx, op).1)
  {
    CacheEqualsHistory(cfg, h, op.cp, "");
    forall uid ensures ErrorCode(c, uid) == ErrorIn(cfg, h, op.cp, uid) { ErrorsAlways(cfg, h, op.cp, uid); }
    if op.SetStatus? { StatusCommitted(cfg, h, op, c, nextTx); } else { ConnectionCommitted(cfg, h, op, c, nextTx); }
  }

  lemma {:induction false} ConnectionCommitted(cfg: Config, h: History, op: Op, c: ChargePoint, nextTx: int)
    requires Listed(c) && c.online == OnlineIn(h, op.cp) && (op.Connect? || op.Disconnect?)
    requires forall uid :: ErrorCode(c, uid) == ErrorIn(cfg, h, op.cp, uid)
    ensures Commits(cfg, h, op, Update(cfg, c, nextTx, op).1)
  {
    var now, cp := Then(h, op), op.cp;
    assert forall uid :: ErrorIn(cfg, now, cp, uid) == ErrorIn(cfg, h, cp, uid);
    match op
    case Connect(_) => RederivedSays(cfg, now, c.(online := true), cp, [Connected(cp)]);
    case Disconnect(_, why) => RederivedSays(cfg, now, c.(online := false), cp, [Disconnected(cp, why)]);
  }

  lemma {:induction false} StatusCommitted(cfg: Config, h: History, op: Op, c: ChargePoint, nextTx: int)
    requires Listed(c) && c.station == StationIn(h, op.cp) && op.SetStatus?
    requires forall uid :: ErrorCode(c, uid) == ErrorIn(cfg, h, op.cp, uid)
    ensures Commits(cfg, h, op, Update(cfg, c, nextTx, op).1)
  {
    var now, cp := Then(h, op), op.cp;
    if op.connector != 0 {
      var uid := EvseUid(cfg, cp, op.connector);
      var d := Report(c, uid, op.connector, op.status, op.code);
      forall u ensures ErrorCode(d, u) == ErrorIn(cfg, now, cp, u) { ReportedCode(c, uid, op, u); }
      RederivedSays(cfg, now, d, cp, []);
    } else if c.station == op.status {
      RederivedSays(cfg, now, c, cp, []);
    } else {
      RederivedSays(cfg, now, c.(station := op.status), cp, [StationChanged(cp, c.station, op.status, op.code)]);
    }
  }

  lemma ReportedCode(c: ChargePoint, uid: string, op: Op, u: string)
    requires op.SetStatus?
    ensures ErrorCode(Report(c, uid, op.connector, op.status, op.code), u) == if u == uid then op.code
            else ErrorCode(c, u)
  {
  }

  lemma {:induction false} StopCommitted(cfg: Config, h: History, op: Op, c: ChargePoint, nextTx: int)
    requires c == Find(After(cfg, h), op.cp) && op.StopTx?
    ensures Commits(cfg, h, op, Update(cfg, c, nextTx, op).1)
  {
    if Clocked(h) {
      StopSucceedsExactly(cfg, h, op.cp, op.tx);
      StartIsStart(h, op.tx);
      if Running(c, op.tx) { RecordSays(cfg, h, op.cp, op.tx); }
    }
  }

  /** The last news of a charge point's connection: whether it said "connected". */
  ghost function LastNews(log: seq<Event>, cp: string): Option<bool> {
    if log == [] then None else
    var e := log[|log| - 1];
    if e.Connected? && e.cp == cp then Some(true)
    else if e.Disconnected? && e.cp == cp then Some(false)
    else LastNews(log[..|log| - 1], cp)
  }

  predicate News(e: Event, cp: string) { (e.Connected? || e.Disconnected?) && e.cp == cp }

  lemma {:induction false} NoNews(log: seq<Event>, es: seq<Event>, cp: string)
    requires forall i :: 0 <= i < |es| ==> !News(es[i], cp)
    ensures LastNews(log + es, cp) == LastNews(log, cp)
  {
    if es == [] {
      assert log + es == log;
    } else {
      var n := |es| - 1;
      NoNews(log, es[..n], cp);
      assert (log + es)[..|log + es| - 1] == log + es[..n];
    }
  }

  lemma {:induction false} HeadNews(log: seq<Event>, es: seq<Event>, cp: string)
    requires |es| > 0 && News(es[0], cp) && forall i :: 0 < i < |es| ==> !News(es[i], cp)
    ensures LastNews(log + es, cp) == Some(es[0].Connected?)
  {
    assert (log + [es[0]])[..|log|] == log;
    assert log + es == log + [es[0]] + es[1..];
    NoNews(log + [es[0]], es[1..], cp);
  }

  /**
   The last news is true. After any history the last Connected or Disconnected event about a
   charge point says "connected" if and only if it is online.
   */
  lemma {:induction false} LastNewsIsTrue(cfg: Config, h: History, cp: string)
    ensures LastNews(After(cfg, h).log, cp) == Some(true) <==> OnlineIn(h, cp)
  {
    match h
    case Start =>
    case Then(before, op) =>
      LastNewsIsTrue(cfg, before, cp);
      var es := CommitsExactly(cfg, before, op);
      NewsStep(cfg, before, op, es, After(cfg, before).log, cp);
  }

  lemma {:induction false} NewsStep(cfg: Config, h: History, op: Op, es: seq<Event>, log: seq<Event>, cp: string)
    requires Commits(cfg, h, op, es) && (LastNews(log, cp) == Some(true) <==> OnlineIn(h, cp))
    ensures LastNews(log + es, cp) == Some(true) <==> OnlineIn(Then(h, op), cp)
  {
    if op.cp == cp && (op.Connect? || (op.Disconnect? && OnlineIn(h, cp))) {
      forall i | 0 < i < |es| ensures !News(es[i], cp) { assert es[i] == es[1..][i - 1]; }
      HeadNews(log, es, cp);
    } else {
      forall i | 0 <= i < |es| ensures !News(es[i], cp) {
        if i > 0 { assert es[i] == es[1..][i - 1]; }
      }
      NoNews(log, es, cp);
    }
  }
}
