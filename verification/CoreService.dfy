/**
 The service object. Each method is one critical section written as the program writes it; the
 ghost field h is the history of calls, and the fields are always the state after that history,
 so what is proved about every history holds of the object.
 */
module CoreService {
  import opened Text
  import opened Config
  import opened Core
  import opened CoreTx

  class Service {
    const cfg: Config
    var cps: map<string, ChargePoint>
    var nextTx: int
    ghost var log: seq<Event>
    ghost var h: History

    ghost predicate Valid()
      reads this
    {
      State(cps, nextTx, log) == After(cfg, h)
    }

    constructor (cfg: Config)
      ensures Valid() && this.cfg == cfg && h == Start
    {
      this.cfg := cfg;
      var cp := NEW_CHARGE_POINT;
      for i := 0 to |cfg.evses|
        invariant cp == Configured(cfg.evses[..i])
      {
        assert cfg.evses[..i + 1][..i] == cfg.evses[..i];
        cp := AddEvse(cp, cfg.evses[i].uid, cfg.evses[i].connector);
      }
      assert cfg.evses[..|cfg.evses|] == cfg.evses;
      cps := map[cfg.chargerId := cp];
      nextTx := 1;
      log, h := [], Start;
    }

    /** The charge point's state, made up on first use. */
    function Ensure(id: string): (c: ChargePoint)
      reads this
      requires Valid()
      ensures Listed(c) && c == Find(After(cfg, h), id)
    {
      if id in cps then cps[id] else NEW_CHARGE_POINT
    }

    method Connected(id: string) returns (events: seq<Event>)
      requires Valid()
      modifies this
      ensures Valid() && h == Then(old(h), Connect(id)) && log == old(log) + events
    {
      var c := Ensure(id).(online := true);
      var changes;
      c, changes := Recompute(c, id);
      events := [Event.Connected(id)] + changes;
      cps := cps[id := c];
      log, h := log + events, Then(h, Connect(id));
    }

    /** A charge point that is already offline is left alone. */
    method Disconnected(id: string, reason: string) returns (events: seq<Event>)
      requires Valid()
      modifies this
      ensures Valid() && h == Then(old(h), Disconnect(id, reason)) && log == old(log) + events
    {
      var c := Ensure(id);
      cps := cps[id := c];
      events := [];
      if c.online {
        c := c.(online := false);
        var changes;
        c, changes := Recompute(c, id);
        events := [Event.Disconnected(id, reason)] + changes;
        cps := cps[id := c];
      } else {
        assert log + [] == log;
      }
      log, h := log + events, Then(h, Disconnect(id, reason));
    }

    method SetConnectorStatus(id: string, connector: int, status: Status, errorCode: string)
        returns (events: seq<Event>)
      requires Valid()
      modifies this
      ensures Valid() && h == Then(old(h), SetStatus(id, connector, status, errorCode)) && log == old(log) + events
    {
      var c := Ensure(id);
      events := [];
      if connector == 0 {
        if c.station != status {
          events := [StationChanged(id, c.station, status, errorCode)];
          c := c.(station := status);
        }
      } else {
        var uid := EvseUid(cfg, id, connector);
        c := AddEvse(c, uid, connector);
        c := c.(reported := c.reported[uid := status], errorCode := c.errorCode[uid := errorCode]);
      }
      var changes;
      c, changes := Recompute(c, id);
      assert [] + changes == changes;
      events := events + changes;
      cps := cps[id := c];
      log, h := log + events, Then(h, SetStatus(id, connector, status, errorCode));
    }

    /** The id given out is one no earlier start was given. */
    method StartTransaction(id: string, connector: int, tag: string, meterStart: int, at: Time, now: Time)
        returns (tx: int)
      requires Valid()
      modifies this
      ensures Valid() && h == Then(old(h), StartTx(id, connector, tag, meterStart, at, now))
      ensures tx == old(nextTx)
      ensures Clocked(old(h)) ==>
              StartOf(old(h), tx).None? && StartOf(h, tx) == Some(StartTx(id, connector, tag, meterStart, at, now))
      ensures id in cps && tx in cps[id].transactions
      ensures var t := cps[id].transactions[tx];
              && t.id == tx && t.uid == EvseUid(cfg, id, connector) && t.connector == connector && t.tag == tag
              && t.meterStart == meterStart && Stamped(t.startedAt, at, now) && t.Active()
      ensures log == old(log) + [Started(id, EvseUid(cfg, id, connector), tx, tag)]
    {
      if Clocked(h) {
        TableAlways(cfg, h, id, nextTx);
        StartIsStart(h, nextTx);
      }
      var c := Ensure(id);
      var uid := EvseUid(cfg, id, connector);
      c := AddEvse(c, uid, connector);
      tx := nextTx;
      nextTx := nextTx + 1;
      var started := if at == ZERO_TIME then now else at;
      c := c.(transactions := c.transactions[tx :=
          Transaction(tx, uid, connector, tag, meterStart, started, ZERO_TIME, 0, "")]);
      cps := cps[id := c];
      log, h := log + [Started(id, uid, tx, tag)], Then(h, StartTx(id, connector, tag, meterStart, at, now));
    }

    /** Closes a running transaction of this charge point; anything else is reported back. */
    method StopTransaction(id: string, tx: int, meterStop: int, reason: string, at: Time, now: Time)
      returns (t: Option<Transaction>)
      requires Valid()
      modifies this
      ensures Valid() && h == Then(old(h), StopTx(id, tx, meterStop, reason, at, now))
      ensures Clocked(old(h)) ==>
                (t.Some? <==>
                    StartOf(old(h), tx).Some? && StartOf(old(h), tx).value.cp == id && StopOf(old(h), tx).None?)
      ensures t.Some? ==>
                && id in cps && tx in cps[id].transactions && cps[id].transactions[tx] == t.value
                && t.value.meterStop == meterStop && t.value.reason == reason && Stamped(t.value.stoppedAt, at, now)
                && log == old(log) + [StoppedTx(id, t.value.uid, tx, t.value.tag, reason)]
      ensures t.None? ==> log == old(log)
    {
      if Clocked(h) {
        StopSucceedsExactly(cfg, h, id, tx);
      }
      var c := Ensure(id);
      cps := cps[id := c];
      var op := StopTx(id, tx, meterStop, reason, at, now);
      t := None;
      if tx in c.transactions && c.transactions[tx].Active() {
        var was := c.transactions[tx];
        var stopped := if at == ZERO_TIME then now else at;
        var closed := was.(stoppedAt := stopped, meterStop := meterStop, reason := reason);
        cps := cps[id := c.(transactions := c.transactions[tx := closed])];
        t := Some(closed);
        log := log + [StoppedTx(id, was.uid, tx, was.tag, reason)];
      } else {
        assert log + [] == log;
      }
      h := Then(h, op);
    }

    method RecordMeterValues(id: string, connector: int)
      requires Valid()
      modifies this
      ensures Valid() && h == Then(old(h), MeterValues(id, connector))
      ensures log == old(log) + [Metered(id, EvseUid(cfg, id, connector))]
    {
      var uid := EvseUid(cfg, id, connector);
      var c := AddEvse(Ensure(id), uid, connector);
      cps := cps[id := c];
      log, h := log + [Metered(id, uid)], Then(h, MeterValues(id, connector));
    }

    /** Any sign of life: Seen, Heartbeat and Booted all make the charge point known. */
    method Seen(id: string)
      requires Valid()
      modifies this
      ensures Valid() && h == Then(old(h), Touch(id)) && log == old(log) && id in cps
    {
      cps := cps[id := Ensure(id)];
      assert log + [] == log;
      h := Then(h, Touch(id));
    }
  }
}
