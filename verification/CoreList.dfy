/** Which EVSEs a charge point lists, in what order, and which connector each belongs to. */
module CoreList {
  import opened Text
  import opened Config
  import opened Core

  /** The list without repetition, its members, and the connectors kept. */
  ghost predicate OnceEach(order: seq<string>) { forall i, j :: 0 <= i < j < |order| ==> order[i] != order[j] }

  ghost predicate SameMembers(order: seq<string>, uids: set<string>) { forall uid :: uid in order <==> uid in uids }

  ghost predicate ConnectorsOk(cfg: Config, cp: string, ids: map<string, int>, uids: set<string>) {
    ids.Keys == uids && forall uid :: uid in ids ==> EvseUid(cfg, cp, ids[uid]) == uid
  }

  /** Each known EVSE is listed once, with a connector that goes by its uid. */
  ghost predicate ListOk(cfg: Config, cp: string, c: ChargePoint) {
    && OnceEach(c.order) && SameMembers(c.order, c.effective.Keys)
    && ConnectorsOk(cfg, cp, c.connectorIds, c.effective.Keys)
  }

  lemma AddMember(order: seq<string>, uids: set<string>, uid: string)
    requires OnceEach(order) && SameMembers(order, uids) && uid !in uids
    ensures OnceEach(order + [uid]) && SameMembers(order + [uid], uids + {uid})
  {
  }

  lemma AddOk(cfg: Config, cp: string, c: ChargePoint, uid: string, connector: int)
    requires ListOk(cfg, cp, c) && EvseUid(cfg, cp, connector) == uid
    ensures ListOk(cfg, cp, AddEvse(c, uid, connector)) && c.order <= AddEvse(c, uid, connector).order
  {
    if uid !in c.effective {
      AddMember(c.order, c.effective.Keys, uid);
      assert AddEvse(c, uid, connector).effective.Keys == c.effective.Keys + {uid};
    }
  }

  lemma {:induction false} ConfiguredSnoc(evses: seq<Evse>, n: nat)
    requires n < |evses|
    ensures Configured(evses[..n + 1]) == AddEvse(Configured(evses[..n]), evses[n].uid, evses[n].connector)
    ensures Uids(evses[..n + 1]) == Uids(evses[..n]) + [evses[n].uid]
  {
    assert evses[..n + 1][..n] == evses[..n];
  }

  lemma {:induction false} ConfiguredOk(cfg: Config, n: nat)
    requires Addressed(cfg.evses) && n <= |cfg.evses|
    ensures ListOk(cfg, cfg.chargerId, Configured(cfg.evses[..n]))
    ensures Configured(cfg.evses[..n]).order == Uids(cfg.evses[..n])
  {
    if n > 0 {
      ConfiguredOk(cfg, n - 1);
      ConfiguredSnoc(cfg.evses, n - 1);
      FindByConnectorFinds(cfg.evses, n - 1);
      NewUid(cfg.evses, n - 1);
      OneMore(cfg, cfg.evses[n - 1], Configured(cfg.evses[..n - 1]));
    }
  }

  lemma NewUid(evses: seq<Evse>, n: nat)
    requires Addressed(evses) && n < |evses|
    ensures evses[n].uid !in Uids(evses[..n])
  {
    forall i | 0 <= i < n ensures Uids(evses[..n])[i] != evses[n].uid { assert evses[..n][i] == evses[i]; }
  }

  /** The next configured EVSE is a new one, named by its own connector. */
  lemma OneMore(cfg: Config, e: Evse, c: ChargePoint)
    requires ListOk(cfg, cfg.chargerId, c) && e.uid !in c.order
    requires FindByConnector(cfg.evses, e.connector) == Some(e)
    ensures ListOk(cfg, cfg.chargerId, AddEvse(c, e.uid, e.connector))
    ensures AddEvse(c, e.uid, e.connector).order == c.order + [e.uid]
  {
    AddOk(cfg, cfg.chargerId, c, e.uid, e.connector);
  }

  /** The operation adds the EVSE it is about, if it is about one. */
  function Added(cfg: Config, c: ChargePoint, op: Op): ChargePoint {
    if (op.SetStatus? && op.connector != 0) || op.StartTx? || op.MeterValues?
    then AddEvse(c, EvseUid(cfg, op.cp, op.connector), op.connector) else c
  }

  lemma {:induction false} RederivedList(c: ChargePoint, cp: string, first: seq<Event>)
    requires Listed(c)
    ensures var d := Rederived(c, cp, first).0;
            d.order == c.order && d.connectorIds == c.connectorIds && d.effective.Keys == c.effective.Keys
  {
  }

  /** Same list, same connectors, same EVSEs. */
  predicate SameList(c: ChargePoint, d: ChargePoint) {
    d.order == c.order && d.connectorIds == c.connectorIds && d.effective.Keys == c.effective.Keys
  }

  lemma {:induction false} ListedByReport(cfg: Config, c: ChargePoint, nextTx: int, op: Op)
    requires Listed(c) && op.SetStatus?
    ensures SameList(Added(cfg, c, op), Update(cfg, c, nextTx, op).0)
  {
    var cp, connector := op.cp, op.connector;
    if connector != 0 {
      RederivedList(Report(c, EvseUid(cfg, cp, connector), connector, op.status, op.code), cp, []);
    } else if c.station == op.status {
      RederivedList(c, cp, []);
    } else {
      RederivedList(c.(station := op.status), cp, [StationChanged(cp, c.station, op.status, op.code)]);
    }
  }

  lemma {:induction false} ListedBy(cfg: Config, c: ChargePoint, nextTx: int, op: Op)
    requires Listed(c)
    ensures SameList(Added(cfg, c, op), Update(cfg, c, nextTx, op).0)
  {
    match op
    case Connect(cp) => RederivedList(c.(online := true), cp, [Connected(cp)]);
    case Disconnect(cp, why) => RederivedList(c.(online := false), cp, [Disconnected(cp, why)]);
    case SetStatus(_, _, _, _) => ListedByReport(cfg, c, nextTx, op);
    case StartTx(_, _, _, _, _, _) =>
    case StopTx(_, _, _, _, _, _) =>
    case MeterValues(_, _) =>
    case Touch(_) =>
  }

  lemma {:induction false} ListStep(cfg: Config, c: ChargePoint, nextTx: int, op: Op)
    requires Listed(c) && ListOk(cfg, op.cp, c)
    ensures ListOk(cfg, op.cp, Update(cfg, c, nextTx, op).0) && c.order <= Update(cfg, c, nextTx, op).0.order
  {
    ListedBy(cfg, c, nextTx, op);
    if op.SetStatus? || op.StartTx? || op.MeterValues? {
      AddOk(cfg, op.cp, c, EvseUid(cfg, op.cp, op.connector), op.connector);
    }
  }

  /**
   Listing. Under a validated configuration, after any history, each known EVSE of a charge point
   is listed exactly once, under the connector that reports under its uid; the configured EVSEs come
   first in configuration order, and the list only grows at its end.
   */
  lemma {:induction false} ListedOnce(cfg: Config, h: History, cp: string)
    requires Addressed(cfg.evses)
    ensures ListOk(cfg, cp, Find(After(cfg, h), cp))
    ensures cp == cfg.chargerId ==> Uids(cfg.evses) <= Find(After(cfg, h), cp).order
    ensures h.Then? ==> Find(After(cfg, h.before), cp).order <= Find(After(cfg, h), cp).order
  {
    match h
    case Start =>
      ConfiguredOk(cfg, |cfg.evses|);
      assert cfg.evses[..|cfg.evses|] == cfg.evses;
    case Then(before, op) =>
      ListedOnce(cfg, before, cp);
      if op.cp == cp { ListStep(cfg, Find(After(cfg, before), cp), After(cfg, before).nextTx, op); }
  }
}
