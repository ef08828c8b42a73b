/**
 The domain state: which charge points are online, what each EVSE reads, which transactions are
 open, and the events committed. One operation is one critical section under the service's lock.
 */
module Core {
  import opened Text
  import opened Config

  /** The OCPI 2.3.0 status values. */
  datatype Status = Available | Blocked | Charging | Inoperative | OutOfOrder | Planned | Removed | Reserved | Unknown

  type Time = int

  /** The zero time, which marks a transaction that has not stopped. */
  const ZERO_TIME: Time := 0

  datatype Transaction = Transaction(
    id: int, uid: string, connector: int, tag: string, meterStart: int, startedAt: Time,
    stoppedAt: Time, meterStop: int, reason: string)
  {
    predicate Active() { stoppedAt == ZERO_TIME }
  }

  datatype Event =
    | Connected(cp: string)
    | Disconnected(cp: string, reason: string)
    | StationChanged(cp: string, from: Status, to: Status, errorCode: string)
    | EvseChanged(cp: string, uid: string, from: Status, to: Status, errorCode: string)
    | Started(cp: string, uid: string, tx: int, tag: string)
    | StoppedTx(cp: string, uid: string, tx: int, tag: string, reason: string)
    | Metered(cp: string, uid: string)

  datatype ChargePoint = ChargePoint(
    online: bool,
    station: Status,
    order: seq<string>,
    connectorIds: map<string, int>,
    reported: map<string, Status>,
    errorCode: map<string, string>,
    effective: map<string, Status>,
    transactions: map<int, Transaction>)

  const NEW_CHARGE_POINT := ChargePoint(false, Available, [], map[], map[], map[], map[], map[])

  /** The service's fields; log is the history of committed events. */
  datatype State = State(cps: map<string, ChargePoint>, nextTx: int, log: seq<Event>)

  /** One call of the service, with the clock readings it made. */
  datatype Op =
    | Connect(cp: string)
    | Disconnect(cp: string, why: string)
    | SetStatus(cp: string, connector: int, status: Status, code: string)
    | StartTx(cp: string, connector: int, tag: string, meter: int, at: Time, now: Time)
    | StopTx(cp: string, tx: int, meter: int, why: string, at: Time, now: Time)
    | MeterValues(cp: string, connector: int)
    | Touch(cp: string)

  function Lookup<K, V>(m: map<K, V>, k: K): Option<V> { if k in m then Some(m[k]) else None }

  /** Offline hides everything; a faulted or unavailable station overrides its connectors. */
  function EffectiveStatus(online: bool, station: Status, connector: Option<Status>): Status {
    if !online then Unknown
    else if station.OutOfOrder? || station.Inoperative? then station
    else if connector.None? then Unknown
    else connector.value
  }

  function AddEvse(c: ChargePoint, uid: string, connector: int): (r: ChargePoint)
    ensures Listed(c) ==> Listed(r)
  {
    if uid in c.effective then c
    else c.(order := c.order + [uid], connectorIds := c.connectorIds[uid := connector],
            effective := c.effective[uid := Unknown])
  }

  function Want(c: ChargePoint, uid: string): Status {
    EffectiveStatus(c.online, c.station, Lookup(c.reported, uid))
  }

  function ErrorCode(c: ChargePoint, uid: string): string { if uid in c.errorCode then c.errorCode[uid] else "" }

  /** Every listed EVSE has an effective status. */
  predicate Listed(c: ChargePoint) { forall i :: 0 <= i < |c.order| ==> c.order[i] in c.effective }

  /** The effective map and the events after re-deriving the first n EVSEs in order. */
  function Rederive(c: ChargePoint, cp: string, n: nat): (r: (map<string, Status>, seq<Event>))
    requires n <= |c.order| && Listed(c)
    ensures r.0.Keys == c.effective.Keys
  {
    if n == 0 then (c.effective, []) else
    var (effective, events) := Rederive(c, cp, n - 1);
    var uid := c.order[n - 1];
    var got, want := effective[uid], Want(c, uid);
    if got == want then (effective, events)
    else (effective[uid := want], events + [EvseChanged(cp, uid, got, want, ErrorCode(c, uid))])
  }

  /** recompute: walk the EVSEs in order, update those that moved and report each of them. */
  method Recompute(c: ChargePoint, cp: string) returns (c': ChargePoint, events: seq<Event>)
    requires Listed(c)
    ensures c' == c.(effective := Rederive(c, cp, |c.order|).0)
    ensures events == Rederive(c, cp, |c.order|).1
  {
    var effective := c.effective;
    events := [];
    for n := 0 to |c.order|
      invariant (effective, events) == Rederive(c, cp, n)
    {
      var uid := c.order[n];
      var want := EffectiveStatus(c.online, c.station, Lookup(c.reported, uid));
      var got := effective[uid];
      if got != want {
        effective := effective[uid := want];
        events := events + [EvseChanged(cp, uid, got, want, ErrorCode(c, uid))];
      }
    }
    c' := c.(effective := effective);
  }

  /** The state kept for a charge point; one never heard of starts out new. */
  function Find(s: State, cp: string): ChargePoint {
    if cp in s.cps then s.cps[cp] else NEW_CHARGE_POINT
  }

  predicate AllListed(s: State) { forall cp :: cp in s.cps ==> Listed(s.cps[cp]) }

  /** A charge point whose statuses have been re-derived, and its events after the given ones. */
  function Rederived(c: ChargePoint, cp: string, events: seq<Event>): (r: (ChargePoint, seq<Event>))
    requires Listed(c)
    ensures Listed(r.0) && r.0.transactions == c.transactions
  {
    var (effective, changes) := Rederive(c, cp, |c.order|);
    (c.(effective := effective), events + changes)
  }

  function Report(c: ChargePoint, uid: string, connector: int, status: Status, code: string): (r: ChargePoint)
    ensures Listed(c) ==> Listed(r)
  {
    var added := AddEvse(c, uid, connector);
    added.(reported := added.reported[uid := status], errorCode := added.errorCode[uid := code])
  }

  /** The time an operation counts for: the one reported, or the clock's when that is zero. */
  function When(at: Time, now: Time): Time { if at == ZERO_TIME then now else at }

  function Opened(id: int, uid: string, op: Op): Transaction
    requires op.StartTx?
  {
    Transaction(id, uid, op.connector, op.tag, op.meter, When(op.at, op.now), ZERO_TIME, 0, "")
  }

  function Closed(t: Transaction, op: Op): Transaction
    requires op.StopTx?
  {
    t.(stoppedAt := When(op.at, op.now), meterStop := op.meter, reason := op.why)
  }

  /** Whether a stop finds a running transaction to close. */
  predicate Running(c: ChargePoint, tx: int) { tx in c.transactions && c.transactions[tx].Active() }

  /** What one operation does to its charge point, and the events it commits. */
  function Update(cfg: Config, c: ChargePoint, nextTx: int, op: Op): (r: (ChargePoint, seq<Event>))
    requires Listed(c)
    ensures Listed(r.0)
  {
    match op
    case Connect(cp) => Rederived(c.(online := true), cp, [Connected(cp)])
    case Disconnect(cp, why) =>
      if c.online then Rederived(c.(online := false), cp, [Disconnected(cp, why)]) else (c, [])
    case SetStatus(cp, connector, status, code) =>
      if connector != 0 then Rederived(Report(c, EvseUid(cfg, cp, connector), connector, status, code), cp, [])
      else if c.station == status then Rederived(c, cp, [])
      else Rederived(c.(station := status), cp, [StationChanged(cp, c.station, status, code)])
    case StartTx(cp, connector, tag, _, _, _) =>
      var uid := EvseUid(cfg, cp, connector);
      var added := AddEvse(c, uid, connector);
      (added.(transactions := added.transactions[nextTx := Opened(nextTx, uid, op)]), [Started(cp, uid, nextTx, tag)])
    case StopTx(cp, tx, _, why, _, _) =>
      if !Running(c, tx) then (c, []) else
      var t := c.transactions[tx];
      (c.(transactions := c.transactions[tx := Closed(t, op)]), [StoppedTx(cp, t.uid, tx, t.tag, why)])
    case MeterValues(cp, connector) =>
      var uid := EvseUid(cfg, cp, connector);
      (AddEvse(c, uid, connector), [Metered(cp, uid)])
    case Touch(_) => (c, [])
  }

  function Apply(cfg: Config, s: State, op: Op): (t: State)
    requires AllListed(s)
    ensures AllListed(t)
  {
    var (c, events) := Update(cfg, Find(s, op.cp), s.nextTx, op);
    State(s.cps[op.cp := c], if op.StartTx? then s.nextTx + 1 else s.nextTx, s.log + events)
  }

  /** The configured EVSEs, in configuration order. */
  function Configured(evses: seq<Evse>): (c: ChargePoint)
    ensures Listed(c) && !c.online && c.station == Available && c.reported == map[] && c.transactions == map[]
  {
    if evses == [] then NEW_CHARGE_POINT else
    var e := evses[|evses| - 1];
    AddEvse(Configured(evses[..|evses| - 1]), e.uid, e.connector)
  }

  /** The service as New leaves it: the configured station, all UNKNOWN. */
  function New(cfg: Config): (s: State)
    ensures AllListed(s)
  {
    State(map[cfg.chargerId := Configured(cfg.evses)], 1, [])
  }

  /** The operations so far, latest last. */
  datatype History = Start | Then(before: History, op: Op)

  /** The state after a history of operations. */
  function After(cfg: Config, h: History): (s: State)
    ensures AllListed(s)
  {
    match h
    case Start => New(cfg)
    case Then(before, op) => Apply(cfg, After(cfg, before), op)
  }
}
