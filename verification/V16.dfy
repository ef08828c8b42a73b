/**
 The OCPP 1.6 adapter: which inbound messages are accepted, what they do to the domain state, and
 what a station's messages add up to for someone asking whether an EVSE can be used.
 */
module V16 {
  import opened Text
  import opened Config
  import opened Core
  import opened CoreStatus
  import opened CoreService

  /** A decoded request; a timestamp is None when it is missing or does not parse. */
  datatype Message =
    | BootNotification(vendor: string, model: string)
    | Heartbeat
    | StatusNotification(connectorId: int, status: string, errorCode: string)
    | Authorize(idTag: string)
    | StartTransaction(connectorId: int, idTag: string, meterStart: int, timestamp: Option<Time>)
    | StopTransaction(transactionId: int, meterStop: int, timestamp: Option<Time>, reason: string)
    | MeterReading(connectorId: int)
    | DataTransfer
    | StatusOnly
    | Undecodable
    | UnknownAction

  datatype Reply = Refused(code: string) | Conf | StartConf(transactionId: int, accepted: bool)

  /** Connector status as OCPP 1.6 spells it, and the OCPI status it stands for. */
  function StatusMap(): map<string, Status> {
    map[
      "Available" := Available,
      "Preparing" := Available,
      "Finishing" := Available,
      "Charging" := Charging,
      "SuspendedEV" := Charging,
      "SuspendedEVSE" := Charging,
      "Reserved" := Reserved,
      "Unavailable" := Inoperative,
      "Faulted" := OutOfOrder]
  }

  function MapStatus(s: string): Status { if s in StatusMap() then StatusMap()[s] else Unknown }

  function ParseTime(timestamp: Option<Time>, fallback: Time): Time {
    if timestamp.Some? then timestamp.value else fallback
  }

  /** Why a message is refused, if it is. */
  function Refusal(m: Message): Option<string> {
    match m
    case BootNotification(vendor, model) => if vendor == "" || model == "" then Some("OccurenceConstraintViolation")
      else None
    case StatusNotification(connectorId, status, _) =>
      if connectorId < 0 then Some("PropertyConstraintViolation")
      else if status == "" then Some("OccurenceConstraintViolation")
      else if status !in StatusMap() then Some("PropertyConstraintViolation")
      else None
    case Authorize(idTag) => if idTag == "" then Some("OccurenceConstraintViolation") else None
    case StartTransaction(connectorId, idTag, _, _) =>
      if connectorId < 1 then Some("PropertyConstraintViolation")
      else if idTag == "" then Some("OccurenceConstraintViolation")
      else None
    case Undecodable => Some("FormationViolation")
    case UnknownAction => Some("NotImplemented")
    case _ => None
  }

  /**
   Which messages are refused, and as what: a missing field is an occurrence violation, a bad value
   a property violation, a payload that does not decode a formation violation, and an unknown
   action is not implemented. Stops, readings, heartbeats and the rest are never refused.
   */
  lemma RefusedExactly(m: Message)
    ensures m.StartTransaction? ==>
              && (Refusal(m).None? <==> m.connectorId >= 1 && m.idTag != "")
              && (m.connectorId < 1 ==> Refusal(m) == Some("PropertyConstraintViolation"))
              && (m.connectorId >= 1 && m.idTag == "" ==> Refusal(m) == Some("OccurenceConstraintViolation"))
    ensures m.StatusNotification? ==>
              && (Refusal(m).None? <==>
                  m.connectorId >= 0
                  && m.status in {"Available", "Preparing", "Charging", "SuspendedEV", "SuspendedEVSE", "Finishing",
                                  "Reserved", "Unavailable", "Faulted"})
              && (m.connectorId >= 0 && m.status == "" ==> Refusal(m) == Some("OccurenceConstraintViolation"))
              && (Refusal(m).Some? && (m.connectorId < 0 || m.status != "") ==>
                    Refusal(m) == Some("PropertyConstraintViolation"))
    ensures m.BootNotification? ==>
              Refusal(m) == if m.vendor != "" && m.model != "" then None else Some("OccurenceConstraintViolation")
    ensures m.Authorize? ==> Refusal(m) == if m.idTag != "" then None else Some("OccurenceConstraintViolation")
    ensures m.Undecodable? ==> Refusal(m) == Some("FormationViolation")
    ensures m.UnknownAction? ==> Refusal(m) == Some("NotImplemented")
    ensures m.StopTransaction? || m.MeterReading? || m.Heartbeat? || m.DataTransfer? || m.StatusOnly? ==>
              Refusal(m).None?
  {
  }

  /** The one operation an accepted message performs on the domain state. */
  function Effect(knows: string -> bool, cp: string, m: Message, now: Time): Op
    requires Refusal(m).None?
  {
    match m
    case StatusNotification(connectorId, status, errorCode) => SetStatus(cp, connectorId, MapStatus(status), errorCode)
    case StartTransaction(connectorId, idTag, meterStart, timestamp) =>
      if knows(idTag) then StartTx(cp, connectorId, idTag, meterStart, ParseTime(timestamp, now), now) else Touch(cp)
    case StopTransaction(tx, meterStop, timestamp, reason) => StopTx(cp, tx, meterStop, reason,
      ParseTime(timestamp, now), now)
    case MeterReading(connectorId) => MeterValues(cp, connectorId)
    case _ => Touch(cp)
  }

  /** startTransaction after validation: a known tag opens a session, any other gets id 0. */
  method Begin(svc: Service, knows: string -> bool, cp: string, m: Message, now: Time) returns (reply: Reply)
    requires svc.Valid() && m.StartTransaction? && Refusal(m).None?
    modifies svc
    ensures svc.Valid() && svc.h == Then(old(svc.h), Effect(knows, cp, m, now))
    ensures reply == StartConf(if knows(m.idTag) then old(svc.nextTx) else 0, knows(m.idTag))
  {
    if knows(m.idTag) {
      var tx := svc.StartTransaction(cp, m.connectorId, m.idTag, m.meterStart, ParseTime(m.timestamp, now), now);
      reply := StartConf(tx, true);
    } else {
      svc.Seen(cp);
      reply := StartConf(0, false);
    }
  }

  /**
   HandleCall. A refused message touches nothing; any other performs exactly its effect, and a
   start is answered with a fresh id if the tag is known and with 0 if it is not.
   */
  method HandleCall(svc: Service, knows: string -> bool, cp: string, m: Message, now: Time) returns (reply: Reply)
    requires svc.Valid()
    modifies svc
    ensures svc.Valid()
    ensures Refusal(m).Some? ==> reply == Refused(Refusal(m).value) && svc.h == old(svc.h) && svc.cps == old(svc.cps)
    ensures Refusal(m).None? ==> svc.h == Then(old(svc.h), Effect(knows, cp, m, now))
    ensures Refusal(m).None? ==>
              reply == if m.StartTransaction? then
                  StartConf(if knows(m.idTag) then old(svc.nextTx) else 0, knows(m.idTag)) else Conf
  {
    var refusal := Refusal(m);
    if refusal.Some? {
      return Refused(refusal.value);
    }
    reply := Conf;
    if m.StatusNotification? {
      var events := svc.SetConnectorStatus(cp, m.connectorId, MapStatus(m.status), m.errorCode);
    } else if m.StartTransaction? {
      reply := Begin(svc, knows, cp, m, now);
    } else if m.StopTransaction? {
      // A stop for no running transaction is accepted all the same.
      var stopped := svc.StopTransaction(cp, m.transactionId, m.meterStop, m.reason, ParseTime(m.timestamp, now), now);
    } else if m.MeterReading? {
      svc.RecordMeterValues(cp, m.connectorId);
    } else {
      svc.Seen(cp);
    }
  }

  // Everything the core hears of: connections coming and going, and messages.

  datatype Input = Up(cp: string) | Down(cp: string, why: string) | In(cp: string, message: Message, now: Time)

  datatype Inputs = Nothing | More(before: Inputs, input: Input)

  /** The operations a sequence of inputs amounts to. */
  ghost function Ops(knows: string -> bool, ins: Inputs): History {
    match ins
    case Nothing => Start
    case More(before, Up(cp)) => Then(Ops(knows, before), Connect(cp))
    case More(before, Down(cp, why)) => Then(Ops(knows, before), Disconnect(cp, why))
    case More(before, In(cp, m, now)) =>
      if Refusal(m).Some? then Ops(knows, before) else Then(Ops(knows, before), Effect(knows, cp, m, now))
  }

  ghost predicate UpIn(ins: Inputs, cp: string) {
    match ins
    case Nothing => false
    case More(before, input) =>
      if input.cp == cp && !input.In? then input.Up? else UpIn(before, cp)
  }

  predicate AcceptedStatus(m: Message) { m.StatusNotification? && Refusal(m).None? }

  /** The last status accepted from a connector, as the station spelt it. */
  ghost function LastStatus(ins: Inputs, cp: string, connector: int): Option<string> {
    match ins
    case Nothing => None
    case More(before, input) =>
      if input.cp == cp && input.In? && AcceptedStatus(input.message) && input.message.connectorId == connector
      then Some(input.message.status)
      else LastStatus(before, cp, connector)
  }

  lemma {:induction false} OnlineFollows(knows: string -> bool, ins: Inputs, cp: string)
    ensures OnlineIn(Ops(knows, ins), cp) == UpIn(ins, cp)
  {
    if ins.More? { OnlineFollows(knows, ins.before, cp); }
  }

  lemma {:induction false} StationFollows(knows: string -> bool, ins: Inputs, cp: string)
    ensures StationIn(Ops(knows, ins), cp) ==
            if LastStatus(ins, cp, 0).Some? then MapStatus(LastStatus(ins, cp, 0).value) else Available
  {
    if ins.More? { StationFollows(knows, ins.before, cp); }
  }

  /** No other connector that ever reported goes by the same uid. */
  ghost predicate Unshared(cfg: Config, ins: Inputs, cp: string, connector: int) {
    forall other {:trigger LastStatus(ins, cp, other)} ::
      other != connector && other != 0 && LastStatus(ins, cp, other).Some? ==>
        EvseUid(cfg, cp, other) != EvseUid(cfg, cp, connector)
  }

  lemma {:induction false} UnsharedBefore(cfg: Config, ins: Inputs, cp: string, connector: int)
    requires ins.More? && Unshared(cfg, ins, cp, connector)
    ensures Unshared(cfg, ins.before, cp, connector)
  {
    forall other | other != connector && other != 0 && LastStatus(ins.before, cp, other).Some?
      ensures EvseUid(cfg, cp, other) != EvseUid(cfg, cp, connector)
    {
      assert LastStatus(ins, cp, other).Some?;
    }
  }

  lemma {:induction false} ReportFollows(cfg: Config, knows: string -> bool, ins: Inputs, cp: string, connector: int)
    requires connector != 0 && Unshared(cfg, ins, cp, connector)
    ensures ReportIn(cfg, Ops(knows, ins), cp, EvseUid(cfg, cp, connector)) ==
            if LastStatus(ins, cp, connector).Some? then Some(MapStatus(LastStatus(ins, cp, connector).value)) else None
  {
    if ins.More? {
      UnsharedBefore(cfg, ins, cp, connector);
      ReportFollows(cfg, knows, ins.before, cp, connector);
      if ins.input.In? && AcceptedStatus(ins.input.message) && ins.input.cp == cp {
        assert LastStatus(ins, cp, ins.input.message.connectorId).Some?;
      }
    }
  }

  /** A connector status is one of the three that mean the connector can be started. */
  predicate Startable(status: string) { status in {"Available", "Preparing", "Finishing"} }

  predicate OutOfService(status: Option<string>) { status in {Some("Faulted"), Some("Unavailable")} }

  lemma MappedAvailable(status: string)
    requires status in StatusMap()
    ensures MapStatus(status) == Available <==> Startable(status)
    ensures MapStatus(status).OutOfOrder? || MapStatus(status).Inoperative? <==> OutOfService(Some(status))
  {
  }

  lemma {:induction false} StatusesAccepted(ins: Inputs, cp: string, connector: int)
    ensures LastStatus(ins, cp, connector).Some? ==> LastStatus(ins, cp, connector).value in StatusMap()
  {
    if ins.More? { StatusesAccepted(ins.before, cp, connector); }
  }

  /**
   Advertised availability. Whatever a station sent and however often it reconnected, an EVSE
   whose connector has reported reads AVAILABLE if and only if the station is connected, has not
   last called itself Faulted or Unavailable, and last called the connector Available, Preparing
   or Finishing.
   */
  lemma {:induction false} AdvertisedAvailability(cfg: Config, knows: string -> bool, ins: Inputs, cp: string,
      connector: int)
    requires connector != 0 && LastStatus(ins, cp, connector).Some? && Unshared(cfg, ins, cp, connector)
    ensures var c := Find(After(cfg, Ops(knows, ins)), cp);
            var uid := EvseUid(cfg, cp, connector);
            && uid in c.effective
            && (c.effective[uid] == Available <==>
                && UpIn(ins, cp)
                && !OutOfService(LastStatus(ins, cp, 0))
                && Startable(LastStatus(ins, cp, connector).value))
  {
    var h, uid := Ops(knows, ins), EvseUid(cfg, cp, connector);
    OnlineFollows(knows, ins, cp);
    StationFollows(knows, ins, cp);
    ReportFollows(cfg, knows, ins, cp, connector);
    FreshIsUnreported(cfg, h, cp, uid);
    CacheEqualsHistory(cfg, h, cp, uid);
    StatusesAccepted(ins, cp, connector);
    StatusesAccepted(ins, cp, 0);
    MappedAvailable(LastStatus(ins, cp, connector).value);
    if LastStatus(ins, cp, 0).Some? {
      MappedAvailable(LastStatus(ins, cp, 0).value);
    }
  }

  /**
   Advertised status. Whatever a station sent and however often it reconnected, this is what an
   EVSE whose connector has reported reads, in the words of the last accepted messages.
   */
  lemma {:induction false} AdvertisedStatus(
    cfg: Config, knows: string -> bool, ins: Inputs, cp: string, connector: int)
    requires connector != 0 && LastStatus(ins, cp, connector).Some? && Unshared(cfg, ins, cp, connector)
    ensures var c := Find(After(cfg, Ops(knows, ins)), cp);
            var uid := EvseUid(cfg, cp, connector);
            && uid in c.effective
            && Reads(c.effective[uid], UpIn(ins, cp), LastStatus(ins, cp, 0), LastStatus(ins, cp, connector).value)
  {
    var h, uid := Ops(knows, ins), EvseUid(cfg, cp, connector);
    OnlineFollows(knows, ins, cp);
    StationFollows(knows, ins, cp);
    ReportFollows(cfg, knows, ins, cp, connector);
    FreshIsUnreported(cfg, h, cp, uid);
    ReadsExactly(cfg, h, cp, uid);
    StatusesAccepted(ins, cp, connector);
    StatusesAccepted(ins, cp, 0);
    MappedReads(Find(After(cfg, h), cp).effective[uid], UpIn(ins, cp), LastStatus(ins, cp, 0),
                LastStatus(ins, cp, connector).value);
  }

  lemma MappedReads(got: Status, up: bool, station: Option<string>, wire: string)
    requires wire in StatusMap() && (station.Some? ==> station.value in StatusMap())
    requires var st := if station.Some? then MapStatus(station.value) else Available;
             got == if !up then Unknown else if st in {OutOfOrder, Inoperative} then st else MapStatus(wire)
    ensures Reads(got, up, station, wire)
  {
  }

  /** The status got for a connector last called wire, at a station last called station. */
  predicate Reads(got: Status, up: bool, station: Option<string>, wire: string) {
    if !up then got == Unknown
    else if station == Some("Faulted") then got == OutOfOrder
    else if station == Some("Unavailable") then got == Inoperative
    else
      && (wire in {"Available", "Preparing", "Finishing"} ==> got == Available)
      && (wire in {"Charging", "SuspendedEV", "SuspendedEVSE"} ==> got == Charging)
      && (wire == "Reserved" ==> got == Reserved)
      && (wire == "Unavailable" ==> got == Inoperative)
      && (wire == "Faulted" ==> got == OutOfOrder)
      && wire in {"Available", "Preparing", "Finishing", "Charging", "SuspendedEV", "SuspendedEVSE", "Reserved",
                  "Unavailable", "Faulted"}
  }

  /** In a validated configuration without uid clashes no connector shares its uid. */
  lemma {:induction false} ValidatedUnshared(cfg: Config, ins: Inputs, cp: string, connector: int)
    requires Addressed(cfg.evses) && connector >= 1
    requires cp == cfg.chargerId ==> forall n: int :: n >= 1 ==> !Clash(cfg, n)
    ensures Unshared(cfg, ins, cp, connector)
  {
    forall other | other != connector && other != 0 && LastStatus(ins, cp, other).Some?
      ensures EvseUid(cfg, cp, other) != EvseUid(cfg, cp, connector)
    {
      ConnectorsPositive(ins, cp, other);
      SharedIffClash(cfg);
      if Shared(cfg, cp, other, connector) { SharingClashes(cfg, other, connector); }
    }
  }

  lemma {:induction false} ConnectorsPositive(ins: Inputs, cp: string, connector: int)
    ensures LastStatus(ins, cp, connector).Some? ==> connector >= 0
  {
    if ins.More? { ConnectorsPositive(ins.before, cp, connector); }
  }

  /**
   Only connections and accepted StatusNotifications move a status. Any other message, refused
   or not, leaves every EVSE that was already known reading what it read.
   */
  lemma {:induction false} OtherMessagesMoveNothing(
    cfg: Config, knows: string -> bool, ins: Inputs, cp: string, m: Message, now: Time, at: string, uid: string)
    requires !AcceptedStatus(m)
    requires uid in Find(After(cfg, Ops(knows, ins)), at).effective
    ensures var next := After(cfg, Ops(knows, More(ins, In(cp, m, now))));
            && uid in Find(next, at).effective
            && Find(next, at).effective[uid] == Find(After(cfg, Ops(knows, ins)), at).effective[uid]
  {
    if Refusal(m).None? {
      QuietOperation(cfg, After(cfg, Ops(knows, ins)), Effect(knows, cp, m, now), at, uid);
    }
  }

  lemma {:induction false} QuietOperation(cfg: Config, s: State, op: Op, at: string, uid: string)
    requires AllListed(s) && !op.Connect? && !op.Disconnect? && !op.SetStatus? && uid in Find(s, at).effective
    ensures var t := Core.Apply(cfg, s, op);
            uid in Find(t, at).effective && Find(t, at).effective[uid] == Find(s, at).effective[uid]
  {
  }
}
