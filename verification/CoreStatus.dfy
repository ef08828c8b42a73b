/**
 The cached EVSE status against history. The service keeps an effective map up to date bit by
 bit; here it is compared with plain questions about the operations so far, and with the event
 stream it publishes.
 */
module CoreStatus {
  import opened Text
  import opened Config
  import opened Core

  // What the history says, one operation at a time, without looking at any state.

  /** The last connect or disconnect of the charge point was a connect. */
  ghost predicate OnlineIn(h: History, cp: string) {
    match h
    case Start => false
    case Then(before, op) =>
      if op.cp == cp && (op.Connect? || op.Disconnect?) then op.Connect? else OnlineIn(before, cp)
  }

  /** The last status of connector 0, which is Available until one is reported. */
  ghost function StationIn(h: History, cp: string): Status {
    match h
    case Start => Available
    case Then(before, op) =>
      if op.cp == cp && op.SetStatus? && op.connector == 0 then op.status else StationIn(before, cp)
  }

  /** The last status of a connector that goes by this uid. */
  ghost function ReportIn(cfg: Config, h: History, cp: string, uid: string): Option<Status> {
    match h
    case Start => None
    case Then(before, op) =>
      if op.cp == cp && op.SetStatus? && op.connector != 0 && EvseUid(cfg, cp, op.connector) == uid then Some(op.status)
      else ReportIn(cfg, before, cp, uid)
  }

  /** The operation is about an EVSE, namely the one with this uid. */
  ghost predicate Names(cfg: Config, op: Op, uid: string) {
    match op
    case SetStatus(cp, connector, _, _) => connector != 0 && EvseUid(cfg, cp, connector) == uid
    case StartTx(cp, connector, _, _, _, _) => EvseUid(cfg, cp, connector) == uid
    case MeterValues(cp, connector) => EvseUid(cfg, cp, connector) == uid
    case _ => false
  }

  /** The EVSE is configured, or some operation was about it. */
  ghost predicate KnownIn(cfg: Config, h: History, cp: string, uid: string) {
    match h
    case Start => cp == cfg.chargerId && uid in Uids(cfg.evses)
    case Then(before, op) => (op.cp == cp && Names(cfg, op, uid)) || KnownIn(cfg, before, cp, uid)
  }

  /** The operation makes the service re-derive the statuses of its charge point. */
  ghost predicate Rederives(h: History, op: Op) {
    op.Connect? || op.SetStatus? || (op.Disconnect? && OnlineIn(h, op.cp))
  }

  /** A transaction or a meter reading made the EVSE known and nothing was re-derived since. */
  ghost predicate FreshIn(cfg: Config, h: History, cp: string, uid: string) {
    match h
    case Start => false
    case Then(before, op) =>
      if op.cp == cp && Rederives(before, op) then false
      else if op.cp == cp && Names(cfg, op, uid) && !KnownIn(cfg, before, cp, uid) then true
      else FreshIn(cfg, before, cp, uid)
  }

  ghost function StatusIn(cfg: Config, h: History, cp: string, uid: string): Status {
    EffectiveStatus(OnlineIn(h, cp), StationIn(h, cp), ReportIn(cfg, h, cp, uid))
  }

  // The service agrees.

  ghost predicate OrderOk(c: ChargePoint) {
    Listed(c) && forall uid :: uid in c.effective ==> uid in c.order
  }

  ghost predicate UidOk(cfg: Config, h: History, cp: string, c: ChargePoint, uid: string) {
    && Lookup(c.reported, uid) == ReportIn(cfg, h, cp, uid)
    && (uid in c.effective <==> KnownIn(cfg, h, cp, uid))
    && (uid in c.effective ==> c.effective[uid] == if FreshIn(cfg, h, cp, uid) then Unknown
          else StatusIn(cfg, h, cp, uid))
  }

  ghost predicate Agrees(cfg: Config, h: History, cp: string, c: ChargePoint) {
    && OrderOk(c)
    && c.online == OnlineIn(h, cp) && c.station == StationIn(h, cp)
    && forall uid :: UidOk(cfg, h, cp, c, uid)
  }

  lemma {:induction false} RederiveAt(c: ChargePoint, cp: string, n: nat, uid: string)
    requires n <= |c.order| && Listed(c) && uid in c.effective
    ensures Rederive(c, cp, n).0[uid] == if uid in c.order[..n] then Want(c, uid) else c.effective[uid]
  {
    if n > 0 {
      RederiveAt(c, cp, n - 1, uid);
      assert c.order[..n] == c.order[..n - 1] + [c.order[n - 1]];
    }
  }

  /** Re-deriving leaves every EVSE with the status it should have, and nothing else changed. */
  lemma {:induction false} RederivedStatuses(c: ChargePoint, cp: string, events: seq<Event>)
    requires OrderOk(c)
    ensures var r := Rederived(c, cp, events).0;
            && r == c.(effective := r.effective)
            && r.effective.Keys == c.effective.Keys
            && (forall uid :: uid in c.effective ==> r.effective[uid] == Want(c, uid))
            && OrderOk(r)
  {
    forall uid | uid in c.effective ensures Rederived(c, cp, events).0.effective[uid] == Want(c, uid) {
      RederiveAt(c, cp, |c.order|, uid);
      assert c.order[..|c.order|] == c.order;
    }
  }

  lemma {:induction false} ConfiguredKnows(evses: seq<Evse>)
    ensures var c := Configured(evses);
            && OrderOk(c)
            && (forall uid :: uid in c.effective <==> uid in Uids(evses))
            && (forall uid :: uid in c.effective ==> c.effective[uid] == Unknown)
  {
    if evses != [] {
      var n := |evses| - 1;
      ConfiguredKnows(evses[..n]);
      assert Uids(evses) == Uids(evses[..n]) + [evses[n].uid];
    }
  }

  lemma {:induction false} AgreesAtFirst(cfg: Config, cp: string)
    ensures Agrees(cfg, Start, cp, Find(New(cfg), cp))
  {
    ConfiguredKnows(cfg.evses);
  }

  /** The charge point an operation re-derives the statuses of. */
  ghost function Changed(cfg: Config, c: ChargePoint, op: Op): (d: ChargePoint)
    requires op.Connect? || op.Disconnect? || op.SetStatus?
    ensures OrderOk(c) ==> OrderOk(d)
  {
    match op
    case Connect(_) => c.(online := true)
    case Disconnect(_, _) => c.(online := false)
    case SetStatus(cp, connector, status, code) =>
      if connector == 0 then c.(station := status) else Report(c, EvseUid(cfg, cp, connector), connector, status, code)
  }

  lemma {:induction false} UpdateRederives(cfg: Config, h: History, op: Op, c: ChargePoint, nextTx: int)
    requires OrderOk(c) && c.online == OnlineIn(h, op.cp) && Rederives(h, op)
    ensures Update(cfg, c, nextTx, op).0 == Rederived(Changed(cfg, c, op), op.cp, []).0
  {
  }

  /** Before statuses are re-derived, everything they derive from is already up to date. */
  lemma {:induction false} ChangedSources(cfg: Config, h: History, op: Op, c: ChargePoint, uid: string)
    requires c.online == OnlineIn(h, op.cp) && c.station == StationIn(h, op.cp) && Rederives(h, op)
    requires Lookup(c.reported, uid) == ReportIn(cfg, h, op.cp, uid)
    ensures var d := Changed(cfg, c, op);
            && d.online == OnlineIn(Then(h, op), op.cp) && d.station == StationIn(Then(h, op), op.cp)
            && Lookup(d.reported, uid) == ReportIn(cfg, Then(h, op), op.cp, uid)
  {
    match op
    case Connect(_) =>
    case Disconnect(_, _) =>
    case SetStatus(_, _, _, _) =>
  }

  lemma {:induction false} ChangedKnows(cfg: Config, h: History, op: Op, c: ChargePoint, uid: string)
    requires (uid in c.effective <==> KnownIn(cfg, h, op.cp, uid)) && Rederives(h, op)
    ensures uid in Changed(cfg, c, op).effective <==> KnownIn(cfg, Then(h, op), op.cp, uid)
    ensures !FreshIn(cfg, Then(h, op), op.cp, uid)
  {
  }

  lemma {:induction false} RederivedUid(cfg: Config, h: History, op: Op, c: ChargePoint, r: ChargePoint, uid: string)
    requires UidOk(cfg, h, op.cp, c, uid) && c.online == OnlineIn(h, op.cp) && c.station == StationIn(h, op.cp)
    requires Rederives(h, op)
    requires var d := Changed(cfg, c, op);
             && r.reported == d.reported && r.online == d.online && r.station == d.station
             && (uid in r.effective <==> uid in d.effective)
             && (uid in r.effective ==> r.effective[uid] == Want(d, uid))
    ensures UidOk(cfg, Then(h, op), op.cp, r, uid)
    ensures r.online == OnlineIn(Then(h, op), op.cp) && r.station == StationIn(Then(h, op), op.cp)
  {
    ChangedSources(cfg, h, op, c, uid);
    ChangedKnows(cfg, h, op, c, uid);
  }

  lemma {:induction false} RederivedAgrees(cfg: Config, h: History, op: Op, c: ChargePoint, d: ChargePoint,
      r: ChargePoint)
    requires Agrees(cfg, h, op.cp, c) && Rederives(h, op) && d == Changed(cfg, c, op)
    requires r.online == d.online && r.station == d.station && r.reported == d.reported
    requires r.effective.Keys == d.effective.Keys && OrderOk(r)
    requires forall uid :: uid in d.effective ==> r.effective[uid] == Want(d, uid)
    ensures Agrees(cfg, Then(h, op), op.cp, r)
  {
    StationFollowsOp(cfg, h, op, c);
    forall uid ensures UidOk(cfg, Then(h, op), op.cp, r, uid) {
      assert UidOk(cfg, h, op.cp, c, uid);
      RederivedUid(cfg, h, op, c, r, uid);
    }
  }

  lemma {:induction false} StationFollowsOp(cfg: Config, h: History, op: Op, c: ChargePoint)
    requires c.online == OnlineIn(h, op.cp) && c.station == StationIn(h, op.cp) && Rederives(h, op)
    ensures Changed(cfg, c, op).online == OnlineIn(Then(h, op), op.cp)
    ensures Changed(cfg, c, op).station == StationIn(Then(h, op), op.cp)
  {
  }

  /** One operation on a charge point that re-derives its statuses. */
  lemma {:induction false} AgreesRederived(cfg: Config, h: History, op: Op, c: ChargePoint, nextTx: int)
    requires Agrees(cfg, h, op.cp, c) && Rederives(h, op)
    ensures Agrees(cfg, Then(h, op), op.cp, Update(cfg, c, nextTx, op).0)
  {
    var d := Changed(cfg, c, op);
    UpdateRederives(cfg, h, op, c, nextTx);
    RederivedStatuses(d, op.cp, []);
    RederivedAgrees(cfg, h, op, c, d, Rederived(d, op.cp, []).0);
  }

  lemma {:induction false} KeptAgrees(cfg: Config, h: History, op: Op, c: ChargePoint, nextTx: int, uid: string)
    requires Listed(c) && UidOk(cfg, h, op.cp, c, uid) && c.online == OnlineIn(h, op.cp) && !Rederives(h, op)
    ensures UidOk(cfg, Then(h, op), op.cp, Update(cfg, c, nextTx, op).0, uid)
  {
  }

  /** One operation on a charge point that leaves the cached statuses alone. */
  lemma {:induction false} AgreesKept(cfg: Config, h: History, op: Op, c: ChargePoint, nextTx: int)
    requires Agrees(cfg, h, op.cp, c) && !Rederives(h, op)
    ensures Agrees(cfg, Then(h, op), op.cp, Update(cfg, c, nextTx, op).0)
  {
    var r := Update(cfg, c, nextTx, op).0;
    forall uid ensures UidOk(cfg, Then(h, op), op.cp, r, uid) {
      assert UidOk(cfg, h, op.cp, c, uid);
      KeptAgrees(cfg, h, op, c, nextTx, uid);
    }
  }

  /** What is said about one charge point does not depend on operations on another. */
  lemma {:induction false} AgreesElsewhere(cfg: Config, h: History, op: Op, cp: string, c: ChargePoint)
    requires Agrees(cfg, h, cp, c) && op.cp != cp
    ensures Agrees(cfg, Then(h, op), cp, c)
  {
    forall uid ensures UidOk(cfg, Then(h, op), cp, c, uid) {
      assert UidOk(cfg, h, cp, c, uid);
    }
  }

  lemma {:induction false} AgreesAlways(cfg: Config, h: History, cp: string)
    ensures Agrees(cfg, h, cp, Find(After(cfg, h), cp))
  {
    match h
    case Start => AgreesAtFirst(cfg, cp);
    case Then(before, op) =>
      var s := After(cfg, before);
      AgreesAlways(cfg, before, cp);
      if op.cp != cp {
        AgreesElsewhere(cfg, before, op, cp, Find(s, cp));
      } else if Rederives(before, op) {
        AgreesRederived(cfg, before, op, Find(s, cp), s.nextTx);
      } else {
        AgreesKept(cfg, before, op, Find(s, cp), s.nextTx);
      }
  }

  /**
   Status cache equals history. After any history, an EVSE is listed exactly when it is
   configured or was named by an operation, and its cached status is the one the history calls
   for, unless a transaction or meter reading has only just made it known.
   */
  lemma {:induction false} CacheEqualsHistory(cfg: Config, h: History, cp: string, uid: string)
    ensures var c := Find(After(cfg, h), cp);
            && c.online == OnlineIn(h, cp) && c.station == StationIn(h, cp)
            && (uid in c.effective <==> KnownIn(cfg, h, cp, uid))
            && (uid in c.effective ==>
                  c.effective[uid] == if FreshIn(cfg, h, cp, uid) then Unknown else StatusIn(cfg, h, cp, uid))
  {
    AgreesAlways(cfg, h, cp);
    assert UidOk(cfg, h, cp, Find(After(cfg, h), cp), uid);
  }

  lemma {:induction false} FreshIsUnreported(cfg: Config, h: History, cp: string, uid: string)
    ensures FreshIn(cfg, h, cp, uid) ==> KnownIn(cfg, h, cp, uid) && ReportIn(cfg, h, cp, uid).None?
    ensures ReportIn(cfg, h, cp, uid).Some? ==> KnownIn(cfg, h, cp, uid)
  {
    if h.Then? {
      FreshIsUnreported(cfg, h.before, cp, uid);
    }
  }

  /**
   What a listed EVSE reads, case by case: UNKNOWN while the station is offline; the station's own
   status while that is OUTOFORDER or INOPERATIVE, unless the EVSE was only just made known; and
   otherwise exactly the status last reported for it, or UNKNOWN if there was none.
   */
  lemma {:induction false} ReadsExactly(cfg: Config, h: History, cp: string, uid: string)
    requires KnownIn(cfg, h, cp, uid)
    ensures uid in Find(After(cfg, h), cp).effective
    ensures var got := Find(After(cfg, h), cp).effective[uid];
            var station := StationIn(h, cp);
            && (!OnlineIn(h, cp) ==> got == Unknown)
            && (OnlineIn(h, cp) && station in {OutOfOrder, Inoperative} ==>
                  got == if FreshIn(cfg, h, cp, uid) then Unknown else station)
            && (OnlineIn(h, cp) && station !in {OutOfOrder, Inoperative} ==>
                  match ReportIn(cfg, h, cp, uid)
                  case Some(reported) => got == reported
                  case None => got == Unknown)
  {
    CacheEqualsHistory(cfg, h, cp, uid);
    FreshIsUnreported(cfg, h, cp, uid);
  }

  /**
   When the plain law holds. The cached status equals the derived one except, exactly, for an
   EVSE just made known by a transaction or meter reading while the station is online and has
   reported itself faulted or unavailable.
   */
  lemma {:induction false} PlainLawExactly(cfg: Config, h: History, cp: string, uid: string)
    requires KnownIn(cfg, h, cp, uid)
    ensures var c := Find(After(cfg, h), cp);
            && uid in c.effective
            && (c.effective[uid] == StatusIn(cfg, h, cp, uid) <==>
                !(FreshIn(cfg, h, cp, uid) && OnlineIn(h, cp)
                    && (StationIn(h, cp).OutOfOrder? || StationIn(h, cp).Inoperative?)))
  {
    CacheEqualsHistory(cfg, h, cp, uid);
    FreshIsUnreported(cfg, h, cp, uid);
  }

  /** The exception is reachable: a faulted station sends a reading for a connector never heard of. */
  lemma {:induction false} PlainLawFails(cfg: Config)
    requires cfg.evses == []
    ensures var h := Then(Then(Then(Start, Connect("cp")), SetStatus("cp", 0, OutOfOrder, "")), MeterValues("cp", 7));
            var uid := EvseUid(cfg, "cp", 7);
            && KnownIn(cfg, h, "cp", uid)
            && uid in Find(After(cfg, h), "cp").effective
            && Find(After(cfg, h), "cp").effective[uid] == Unknown
            && StatusIn(cfg, h, "cp", uid) == OutOfOrder
  {
    var faulted := Then(Then(Start, Connect("cp")), SetStatus("cp", 0, OutOfOrder, ""));
    var uid := EvseUid(cfg, "cp", 7);
    assert !KnownIn(cfg, faulted.before, "cp", uid);
    assert OnlineIn(faulted.before, "cp");
    CacheEqualsHistory(cfg, Then(faulted, MeterValues("cp", 7)), "cp", uid);
  }
}
