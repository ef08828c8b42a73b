/**
 Station and server as they run together: the simulator's goroutines make their calls over one
 connection, the adapter answers them from the domain state over the other, and the frames in
 between travel as the connection machines say. Nothing here says that a call is handled once or
 gets its own answer.
 */
module EndToEnd {
  import opened Text
  import opened Core
  import opened Session
  import Frame
  import Rpc
  import Duplex
  import V16

  type Json = Frame.Json

  const START := "StartTransaction"
  const STOP := "StopTransaction"

  /** Where a goroutine is: before its call, in it, or done with it. */
  datatype Place = Fresh | Called(call: nat, stamp: string) | Ended(call: nat, stamp: string)

  /** startTransaction, with its local variables. */
  datatype Starting = Starting(connector: int, tag: string, meterStart: int, place: Place)

  /** stopTransaction after its critical section; its call's outcome changes nothing here. */
  datatype Closing = Closing(connector: int, tx: int, meter: int, reason: string, place: Place)

  /** pair.a is the station's connection, pair.b the server's. */
  datatype Whole = Whole(
    pair: Duplex.Pair, station: string, outlets: map<int, Outlet>, starts: seq<Starting>, stops: seq<Closing>,
        core: History)

  /** The world of the session model, and how the server reads a timestamp. */
  datatype Setting = Setting(w: World, time: string -> Option<Time>)

  // Payloads, as the structs' JSON tags have them.

  function StartPayload(r: Starting, stamp: string): Json {
    Frame.Obj(map["connectorId" := Frame.Integer(r.connector), "idTag" := Frame.Str(r.tag),
                  "meterStart" := Frame.Integer(r.meterStart), "timestamp" := Frame.Str(stamp)])
  }

  function StopPayload(r: Closing, stamp: string): Json {
    var fields := map["transactionId" := Frame.Integer(r.tx), "meterStop" := Frame.Integer(r.meter),
        "timestamp" := Frame.Str(stamp)];
    Frame.Obj(if r.reason == "" then fields else fields["reason" := Frame.Str(r.reason)])
  }

  function StartReply(tx: int, accepted: bool): Json {
    Frame.Obj(map["transactionId" := Frame.Integer(tx),
                  "idTagInfo" := Frame.Obj(map["status" := Frame.Str(if accepted then "Accepted" else "Invalid")])])
  }

  /** A missing or null field is the zero value; one of another type is an error. */
  function IntField(fields: map<string, Json>, name: string): Option<int> {
    if name !in fields || fields[name].Null? then Some(0)
    else if fields[name].Integer? then Some(fields[name].n) else None
  }

  function StringField(fields: map<string, Json>, name: string): Option<string> {
    if name !in fields then Some("") else Frame.AsString(fields[name])
  }

  function Fields(j: Json): Option<map<string, Json>> {
    if j.Null? then Some(map[]) else if j.Obj? then Some(j.fields) else None
  }

  function DecodeStart(time: string -> Option<Time>, j: Json): V16.Message {
    if Fields(j).None? then V16.Undecodable else
    var f := Fields(j).value;
    var c, tag, meter, stamp := IntField(f, "connectorId"), StringField(f, "idTag"), IntField(f, "meterStart"),
        StringField(f, "timestamp");
    if c.None? || tag.None? || meter.None? || stamp.None? || IntField(f, "reservationId").None? then V16.Undecodable
    else V16.StartTransaction(c.value, tag.value, meter.value, time(stamp.value))
  }

  function DecodeStop(time: string -> Option<Time>, j: Json): V16.Message {
    if Fields(j).None? then V16.Undecodable else
    var f := Fields(j).value;
    var tx, meter, stamp, reason := IntField(f, "transactionId"), IntField(f, "meterStop"),
        StringField(f, "timestamp"), StringField(f, "reason");
    if tx.None? || meter.None? || stamp.None? || reason.None? || StringField(f, "idTag").None? then V16.Undecodable
    else V16.StopTransaction(tx.value, meter.value, time(stamp.value), reason.value)
  }

  /** What the station makes of the answer to a start: the id, and whether it was accepted. */
  function ReadConf(j: Json): Option<(int, bool)> {
    if Fields(j).None? then None else
    var f := Fields(j).value;
    var tx := IntField(f, "transactionId");
    var info := if "idTagInfo" in f then Fields(f["idTagInfo"]) else Some(map[]);
    if tx.None? || info.None? || StringField(info.value, "status").None? then None
    else Some((tx.value, StringField(info.value, "status").value == "Accepted"))
  }

  /** The field names, which a station or server of another make reads too. */
  lemma PayloadNames(r: Starting, q: Closing, stamp: string, tx: int, accepted: bool)
    ensures StartPayload(r, stamp).fields.Keys == {"connectorId", "idTag", "meterStart", "timestamp"}
    ensures StopPayload(q, stamp).fields.Keys ==
            {"transactionId", "meterStop", "timestamp"} + if q.reason == "" then {} else {"reason"}
    ensures StartReply(tx, accepted).fields.Keys == {"transactionId", "idTagInfo"}
    ensures StartReply(tx, accepted).fields["idTagInfo"] ==
            Frame.Obj(map["status" := Frame.Str(if accepted then "Accepted" else "Invalid")])
  {
  }

  // Every payload is read as it was meant.

  lemma StartRead(time: string -> Option<Time>, r: Starting, stamp: string)
    ensures DecodeStart(time, StartPayload(r, stamp))
            == V16.StartTransaction(r.connector, r.tag, r.meterStart, time(stamp))
  {
  }

  lemma StopRead(time: string -> Option<Time>, r: Closing, stamp: string)
    ensures DecodeStop(time, StopPayload(r, stamp)) == V16.StopTransaction(r.tx, r.meter, time(stamp), r.reason)
  {
  }

  lemma ReplyRead(tx: int, accepted: bool)
    ensures ReadConf(StartReply(tx, accepted)) == Some((tx, accepted))
  {
  }

  /** What the server decides about a call that the model does not look into. */
  datatype Choice = Choice(answer: Rpc.Answer, op: Option<Op>)

  predicate Allowed(w: World, c: Choice) {
    c.op.Some? ==> c.op.value.cp == w.id && !c.op.value.StartTx? && !c.op.value.StopTx?
  }

  /** HandleCall on the server: the domain state and the answer after one CALL of the station. */
  function Serving(g: Setting, h: History, call: Frame.Frame, now: Time, other: Choice): (History, Rpc.Answer)
    requires call.Call?
  {
    if call.action != START && call.action != STOP then
      (if other.op.Some? then Then(h, other.op.value) else h, other.answer)
    else
      var m := if call.action == START then DecodeStart(g.time, call.payload) else DecodeStop(g.time, call.payload);
      if V16.Refusal(m).Some? then (h, Rpc.Failure(Frame.RpcError(V16.Refusal(m).value, "", Frame.Nil))) else
      var opens := m.StartTransaction? && g.w.knows(m.idTag);
      (Then(h, V16.Effect(g.w.knows, g.w.id, m, now)),
       Rpc.Success(Frame.Of(if m.StartTransaction? then
           StartReply(if opens then After(g.w.cfg, h).nextTx else 0, opens) else Frame.Obj(map[]))))
  }

  datatype Move =
    | SetStatus(connector: int, status: string)
    | Reserve(connector: int, reservation: int)
    | Cancel(connector: int)
    | BeginStart(connector: int, tag: string)
    | CallStart(k: nat, stamp: string)
    | Resume(k: nat)
    | BeginStop(connector: int, reason: string)
    | CallStop(j: nat, stamp: string)
    | Serve(now: Time, other: Choice)
    | Wire(step: Duplex.Step)
    | Elsewhere(op: Op)

  function Calling(action: string, payload: Json): Duplex.Step {
    Duplex.A(Rpc.OfCall(Rpc.Begin(action, Frame.Of(payload))))
  }

  function Answering(answer: Rpc.Answer): Duplex.Step { Duplex.B(Rpc.OfHandler(Rpc.Answers(answer))) }

  /** A step of the connections alone; only the two goroutines above call for transactions. */
  predicate Plain(step: Duplex.Step) {
    match step
    case A(OfCall(Begin(action, _))) => action != START && action != STOP
    case B(OfHandler(Answers(_))) => false
    case _ => true
  }

  /** The call of a goroutine has returned. */
  predicate Returned(x: Whole, i: nat) { i < |x.pair.a.callers| && x.pair.a.callers[i].phase.Finished? }

  predicate Can(g: Setting, x: Whole, m: Move) {
    match m
    case SetStatus(c, _) => c == 0 || c in x.outlets
    case Reserve(c, _) => c in x.outlets && ReserveAnswer(x.outlets[c]) == "Accepted"
    case Cancel(c) => c in x.outlets
    case BeginStart(c, _) => c in x.outlets
    case CallStart(k, _) => k < |x.starts| && x.starts[k].place.Fresh?
    case Resume(k) => k < |x.starts| && x.starts[k].place.Called? && Returned(x, x.starts[k].place.call)
      && x.starts[k].connector in x.outlets
    case BeginStop(c, _) => c in x.outlets && x.outlets[c].tx != 0
    case CallStop(j, _) => j < |x.stops| && x.stops[j].place.Fresh?
    case Serve(now, other) => x.pair.b.handler.Handling? && x.pair.b.handler.call.Call? && now != ZERO_TIME
      && Allowed(g.w, other)
    case Wire(step) => Plain(step) && Duplex.CanStep(x.pair, step)
    // Other charge points, and the server's own Connected and Disconnected for this one.
    case Elsewhere(op) => (op.cp == g.w.id ==> !op.StartTx? && !op.StopTx?) && (op.StopTx? ==> op.now != ZERO_TIME)
  }

  /** The id to put on the outlet, if the call came back with an accepted one. */
  function Accepted(outcome: Rpc.Outcome): Option<int> {
    if !outcome.Answered? || !outcome.reply.Result? then None else
    var conf := ReadConf(outcome.reply.payload);
    if conf.Some? && conf.value.1 then Some(conf.value.0) else None
  }

  function Resumed(x: Whole, k: nat): Whole
    requires k < |x.starts| && x.starts[k].place.Called? && Returned(x, x.starts[k].place.call)
             && x.starts[k].connector in x.outlets
  {
    var r := x.starts[k];
    var y := x.(starts := x.starts[k := r.(place := Ended(r.place.call, r.place.stamp))]);
    var tx := Accepted(x.pair.a.callers[r.place.call].phase.outcome);
    if tx.None? then y
    else y.(outlets := x.outlets[r.connector := x.outlets[r.connector].(tx := tx.value, reservation := 0)])
  }

  function Do(g: Setting, x: Whole, m: Move): Whole
    requires Can(g, x, m)
  {
    match m
    case SetStatus(c, status) =>
      if c == 0 then x.(station := status) else x.(outlets := x.outlets[c := x.outlets[c].(status := status)])
    case Reserve(c, id) => x.(outlets := x.outlets[c := x.outlets[c].(reservation := id, status := "Reserved")])
    case Cancel(c) => x.(outlets := x.outlets[c := x.outlets[c].(reservation := 0, status := "Available")])
    case BeginStart(c, tag) =>
      x.(starts := x.starts + [Starting(c, if tag == "" then g.w.tag else tag, x.outlets[c].meter, Fresh)])
    case CallStart(k, stamp) =>
      x.(pair := Duplex.DoStep(x.pair, Calling(START, StartPayload(x.starts[k], stamp))),
         starts := x.starts[k := x.starts[k].(place := Called(|x.pair.a.callers|, stamp))])
    case Resume(k) => Resumed(x, k)
    case BeginStop(c, reason) =>
      var o := x.outlets[c];
      var meter := o.meter + SESSION_ENERGY;
      x.(outlets := x.outlets[c := o.(tx := 0, meter := meter)],
        stops := x.stops + [Closing(c, o.tx, meter, reason, Fresh)])
    case CallStop(j, stamp) =>
      x.(pair := Duplex.DoStep(x.pair, Calling(STOP, StopPayload(x.stops[j], stamp))),
         stops := x.stops[j := x.stops[j].(place := Called(|x.pair.a.callers|, stamp))])
    case Serve(now, other) =>
      var (core, answer) := Serving(g, x.core, x.pair.b.handler.call, now, other);
      x.(core := core, pair := Duplex.DoStep(x.pair, Answering(answer)))
    case Wire(step) => x.(pair := Duplex.DoStep(x.pair, step))
    case Elsewhere(op) => x.(core := Then(x.core, op))
  }

  function Dawn(g: Setting): Whole { Whole(Duplex.JOINED, "Available", Outlets(g.w.connectors), [], [], Start) }

  datatype Story = Opening | More(before: Story, move: Move)

  predicate Possible(g: Setting, story: Story)
    decreases story, 0
  {
    story.Opening? || (Possible(g, story.before) && Can(g, Now(g, story.before), story.move))
  }

  function Now(g: Setting, story: Story): Whole
    requires Possible(g, story)
    decreases story, 1
  {
    if story.Opening? then Dawn(g) else Do(g, Now(g, story.before), story.move)
  }
}
