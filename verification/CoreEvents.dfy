/**
 The event stream against the cached statuses. A subscriber that misses nothing can rebuild the
 status of every EVSE from the changes alone.
 */
module CoreEvents {
  import opened Config
  import opened Core

  /** The status an EVSE has for someone who only reads events, in commit order. */
  ghost function Replay(log: seq<Event>, cp: string, uid: string): Status {
    if log == [] then Unknown else
    var e := log[|log| - 1];
    if e.EvseChanged? && e.cp == cp && e.uid == uid then e.to else Replay(log[..|log| - 1], cp, uid)
  }

  /** Every change starts from where the last one left the EVSE and goes somewhere else. */
  ghost predicate Chained(log: seq<Event>) {
    if log == [] then true else
    var e, before := log[|log| - 1], log[..|log| - 1];
    Chained(before) && (e.EvseChanged? ==> e.from == Replay(before, e.cp, e.uid) && e.from != e.to)
  }

  /** The cached statuses of a charge point are the replayed ones. */
  ghost predicate Mirrors(log: seq<Event>, cp: string, effective: map<string, Status>) {
    && (forall uid :: uid in effective ==> effective[uid] == Replay(log, cp, uid))
    && (forall i :: 0 <= i < |log| && log[i].EvseChanged? && log[i].cp == cp ==> log[i].uid in effective)
  }

  lemma Snoc(log: seq<Event>, e: Event, cp: string, uid: string)
    ensures Replay(log + [e], cp, uid) == if e.EvseChanged? && e.cp == cp && e.uid == uid then e.to
            else Replay(log, cp, uid)
    ensures Chained(log + [e]) <==>
              Chained(log) && (e.EvseChanged? ==> e.from == Replay(log, e.cp, e.uid) && e.from != e.to)
  {
  }

  /** Events that are not EVSE changes leave the replay alone. */
  lemma SnocOther(log: seq<Event>, e: Event, cp: string, effective: map<string, Status>)
    requires !e.EvseChanged? && Chained(log) && Mirrors(log, cp, effective)
    ensures Chained(log + [e]) && Mirrors(log + [e], cp, effective)
  {
  }

  lemma SnocChange(log: seq<Event>, e: Event, cp: string, effective: map<string, Status>)
    requires e.EvseChanged? && e.cp == cp && e.uid in effective && e.from == effective[e.uid] && e.from != e.to
    requires Chained(log) && Mirrors(log, cp, effective)
    ensures Chained(log + [e]) && Mirrors(log + [e], cp, effective[e.uid := e.to])
  {
  }

  /** One EVSE of a re-derivation: it stays, or moves and says so. */
  function Moved(effective: map<string, Status>, cp: string, uid: string, want: Status,
      code: string): (r: (map<string, Status>, seq<Event>))
    requires uid in effective
  {
    if effective[uid] == want then (effective, [])
    else (effective[uid := want], [EvseChanged(cp, uid, effective[uid], want, code)])
  }

  lemma MovedMirrors(effective: map<string, Status>, cp: string, uid: string, want: Status, code: string,
      log: seq<Event>)
    requires uid in effective && Chained(log) && Mirrors(log, cp, effective)
    ensures var (m, es) := Moved(effective, cp, uid, want, code);
            Chained(log + es) && Mirrors(log + es, cp, m)
  {
    if effective[uid] == want {
      assert log + [] == log;
    } else {
      SnocChange(log, EvseChanged(cp, uid, effective[uid], want, code), cp, effective);
    }
  }

  lemma {:induction false} RederiveMoves(c: ChargePoint, cp: string, n: nat)
    requires 0 < n <= |c.order| && Listed(c)
    ensures var uid := c.order[n - 1];
            var (effective, events) := Rederive(c, cp, n - 1);
            var (m, es) := Moved(effective, cp, uid, Want(c, uid), ErrorCode(c, uid));
            Rederive(c, cp, n) == (m, events + es)
  {
    var events := Rederive(c, cp, n - 1).1;
    assert events + [] == events;
  }

  lemma {:induction false} RederiveMirrors(c: ChargePoint, cp: string, n: nat, log: seq<Event>)
    requires n <= |c.order| && Listed(c) && Chained(log) && Mirrors(log, cp, c.effective)
    ensures var r := Rederive(c, cp, n);
            Chained(log + r.1) && Mirrors(log + r.1, cp, r.0)
  {
    if n == 0 {
      assert log + [] == log;
    } else {
      RederiveMirrors(c, cp, n - 1, log);
      RederiveMoves(c, cp, n);
      var r, uid := Rederive(c, cp, n - 1), c.order[n - 1];
      MovedMirrors(r.0, cp, uid, Want(c, uid), ErrorCode(c, uid), log + r.1);
      var es := Moved(r.0, cp, uid, Want(c, uid), ErrorCode(c, uid)).1;
      assert log + (r.1 + es) == log + r.1 + es;
    }
  }

  /** The events of a re-derivation all concern its own charge point. */
  lemma {:induction false} RederiveOwn(c: ChargePoint, cp: string, n: nat)
    requires n <= |c.order| && Listed(c)
    ensures forall e :: e in Rederive(c, cp, n).1 ==> e.EvseChanged? && e.cp == cp
  {
    if n > 0 { RederiveOwn(c, cp, n - 1); }
  }

  lemma RederivedMirrors(c: ChargePoint, cp: string, first: seq<Event>, log: seq<Event>)
    requires Listed(c) && Chained(log) && Mirrors(log, cp, c.effective)
    requires |first| <= 1 && forall e :: e in first ==> !e.EvseChanged?
    ensures var (d, events) := Rederived(c, cp, first);
            Chained(log + events) && Mirrors(log + events, cp, d.effective)
  {
    if first != [] {
      SnocOther(log, first[0], cp, c.effective);
      assert first == [first[0]];
    } else {
      assert log + first == log;
    }
    RederiveMirrors(c, cp, |c.order|, log + first);
    var changes := Rederive(c, cp, |c.order|).1;
    assert log + (first + changes) == log + first + changes;
  }

  /** A new EVSE reads UNKNOWN, which is what a stream that never mentioned it says. */
  lemma AddMirrors(c: ChargePoint, cp: string, uid: string, connector: int, log: seq<Event>)
    requires Mirrors(log, cp, c.effective)
    ensures Mirrors(log, cp, AddEvse(c, uid, connector).effective)
  {
    if uid !in c.effective {
      Unmentioned(log, cp, uid);
    }
  }

  lemma {:induction false} Unmentioned(log: seq<Event>, cp: string, uid: string)
    requires forall i :: 0 <= i < |log| && log[i].EvseChanged? && log[i].cp == cp ==> log[i].uid != uid
    ensures Replay(log, cp, uid) == Unknown
  {
    if log != [] { Unmentioned(log[..|log| - 1], cp, uid); }
  }

  /** One operation, seen from its own charge point. */
  lemma {:induction false} UpdateMirrors(cfg: Config, c: ChargePoint, nextTx: int, op: Op, log: seq<Event>)
    requires Listed(c) && Chained(log) && Mirrors(log, op.cp, c.effective)
    ensures var (d, events) := Update(cfg, c, nextTx, op);
            Chained(log + events) && Mirrors(log + events, op.cp, d.effective)
  {
    assert log + [] == log;
    match op
    case Connect(cp) => RederivedMirrors(c.(online := true), cp, [Connected(cp)], log);
    case Disconnect(cp, why) =>
      if c.online { RederivedMirrors(c.(online := false), cp, [Disconnected(cp, why)], log); }
    case SetStatus(cp, connector, status, code) =>
      if connector != 0 {
        var uid := EvseUid(cfg, cp, connector);
        AddMirrors(c, cp, uid, connector, log);
        RederivedMirrors(Report(c, uid, connector, status, code), cp, [], log);
      } else if c.station == status {
        RederivedMirrors(c, cp, [], log);
      } else {
        RederivedMirrors(c.(station := status), cp, [StationChanged(cp, c.station, status, code)], log);
      }
    case StartTx(cp, connector, tag, _, _, _) =>
      var uid := EvseUid(cfg, cp, connector);
      AddMirrors(c, cp, uid, connector, log);
      SnocOther(log, Started(cp, uid, nextTx, tag), cp, AddEvse(c, uid, connector).effective);
    case StopTx(cp, tx, _, why, _, _) =>
      if Running(c, tx) {
        var t := c.transactions[tx];
        SnocOther(log, StoppedTx(cp, t.uid, tx, t.tag, why), cp, c.effective);
      }
    case MeterValues(cp, connector) =>
      var uid := EvseUid(cfg, cp, connector);
      AddMirrors(c, cp, uid, connector, log);
      SnocOther(log, Metered(cp, uid), cp, AddEvse(c, uid, connector).effective);
    case Touch(_) =>
  }

  /** An operation's EVSE changes are about its own charge point only. */
  lemma {:induction false} UpdateOwn(cfg: Config, c: ChargePoint, nextTx: int, op: Op)
    requires Listed(c)
    ensures forall e :: e in Update(cfg, c, nextTx, op).1 && e.EvseChanged? ==> e.cp == op.cp
  {
    match op
    case Connect(cp) => RederiveOwn(c.(online := true), cp, |c.order|);
    case Disconnect(cp, _) => RederiveOwn(c.(online := false), cp, |c.order|);
    case SetStatus(cp, connector, status, code) =>
      if connector != 0 {
        var d := Report(c, EvseUid(cfg, cp, connector), connector, status, code);
        RederiveOwn(d, cp, |d.order|);
      } else {
        RederiveOwn(c, cp, |c.order|);
        RederiveOwn(c.(station := status), cp, |c.order|);
      }
    case _ =>
  }

  lemma {:induction false} ElsewhereMirrors(log: seq<Event>, events: seq<Event>, cp: string, effective: map<string,
      Status>)
    requires Mirrors(log, cp, effective)
    requires forall e :: e in events && e.EvseChanged? ==> e.cp != cp
    ensures Mirrors(log + events, cp, effective)
  {
    if events == [] {
      assert log + events == log;
    } else {
      var n := |events| - 1;
      assert forall e :: e in events[..n] ==> e in events;
      assert events[n] in events;
      ElsewhereMirrors(log, events[..n], cp, effective);
      assert log + events == log + events[..n] + [events[n]];
      forall uid ensures Replay(log + events, cp, uid) == Replay(log + events[..n], cp, uid) {
        Snoc(log + events[..n], events[n], cp, uid);
      }
    }
  }

  lemma {:induction false} FirstMirrors(evses: seq<Evse>, cp: string)
    ensures Mirrors([], cp, Configured(evses).effective)
  {
    if evses != [] { FirstMirrors(evses[..|evses| - 1], cp); }
  }

  lemma {:induction false} StreamMirrors(cfg: Config, h: History, cp: string)
    ensures Chained(After(cfg, h).log)
    ensures Mirrors(After(cfg, h).log, cp, Find(After(cfg, h), cp).effective)
  {
    match h
    case Start => FirstMirrors(cfg.evses, cp);
    case Then(before, op) =>
      var s := After(cfg, before);
      var events := Update(cfg, Find(s, op.cp), s.nextTx, op).1;
      StreamMirrors(cfg, before, cp);
      StreamMirrors(cfg, before, op.cp);
      UpdateMirrors(cfg, Find(s, op.cp), s.nextTx, op, s.log);
      UpdateOwn(cfg, Find(s, op.cp), s.nextTx, op);
      if op.cp != cp {
        ElsewhereMirrors(s.log, events, cp, Find(s, cp).effective);
      }
  }

  /** The subscriber's fold: apply each change of one charge point to a status map. */
  ghost function Fold(log: seq<Event>, cp: string, start: map<string, Status>): (m: map<string, Status>) {
    if log == [] then start else
    var e, m := log[|log| - 1], Fold(log[..|log| - 1], cp, start);
    if e.EvseChanged? && e.cp == cp then m[e.uid := e.to] else m
  }

  ghost function AllUnknown(uids: set<string>): map<string, Status> { map uid | uid in uids :: Unknown }

  lemma {:induction false} FoldIsReplay(log: seq<Event>, cp: string, uids: set<string>)
    requires forall i :: 0 <= i < |log| && log[i].EvseChanged? && log[i].cp == cp ==> log[i].uid in uids
    ensures Fold(log, cp, AllUnknown(uids)).Keys == uids
    ensures forall uid :: uid in uids ==> Fold(log, cp, AllUnknown(uids))[uid] == Replay(log, cp, uid)
  {
    if log != [] { FoldIsReplay(log[..|log| - 1], cp, uids); }
  }

  lemma {:induction false} ChainedAt(log: seq<Event>, k: nat)
    requires Chained(log) && k < |log| && log[k].EvseChanged?
    ensures log[k].from == Replay(log[..k], log[k].cp, log[k].uid) && log[k].from != log[k].to
  {
    var n := |log| - 1;
    if k < n {
      ChainedAt(log[..n], k);
      assert log[..n][..k] == log[..k];
    }
  }

  /**
   Event replay. In commit order the changes of each EVSE form a chain that starts at UNKNOWN and
   never repeats a status, and folding a charge point's changes over the all-UNKNOWN map gives
   back its cached statuses exactly.
   */
  lemma {:induction false} ReplayRebuilds(cfg: Config, h: History, cp: string)
    ensures var s := After(cfg, h);
            && (forall k: nat :: k < |s.log| && s.log[k].EvseChanged? ==>
                  s.log[k].from == Replay(s.log[..k], s.log[k].cp, s.log[k].uid) && s.log[k].from != s.log[k].to)
            && Fold(s.log, cp, AllUnknown(Find(s, cp).effective.Keys)) == Find(s, cp).effective
  {
    StreamMirrors(cfg, h, cp);
    var s := After(cfg, h);
    forall k: nat | k < |s.log| && s.log[k].EvseChanged?
      ensures s.log[k].from == Replay(s.log[..k], s.log[k].cp, s.log[k].uid) && s.log[k].from != s.log[k].to
    {
      ChainedAt(s.log, k);
    }
    FoldIsReplay(s.log, cp, Find(s, cp).effective.Keys);
  }
}
