/**
 One OCPP-J connection, as a state machine. A step is one critical section or one channel
 operation of a caller, the reader, the in-order handler or the writer; every interleaving of
 them is a run. The fields after the channels are histories: no step looks at them.
 */
module Rpc {
  import opened Text
  import opened Frame

  const SEND_BUFFER := 32
  const CALL_BUFFER := 64

  /** What a response frame carries to the caller. CALLERROR details are not passed on. */
  datatype Reply = Result(payload: Json) | Error(code: string, description: string)

  datatype Outcome = Answered(reply: Reply) | TimedOut | ConnClosed | Cancelled | NotEncoded

  /** Where one invocation of Call stands. Returning still has its deferred forget to run. */
  datatype Phase = Assigned | Registered | Waiting | Returning(outcome: Outcome) | Finished(outcome: Outcome)

  /**
   One invocation of Call. slot is its one-element channel; since and first are histories: how
   many responses had been looked up when it registered, and which one first reached its channel.
   */
  datatype Caller = Caller(
    action: string, payload: Value, phase: Phase, slot: Option<Reply>, since: nat, first: Option<nat>)

  datatype Reader =
    | Reading
    | LookingUp(id: string, reply: Reply)
    | Delivering(caller: nat, reply: Reply)
    | Queueing(call: Frame)
    | Refusing(refusal: Wire)
    | Leaving
    | Gone

  /** What the version handler returns; a panic is turned into a Failure before it gets here. */
  datatype Answer = Success(value: Value) | Failure(error: RpcError)

  /** A CALL together with what the handler made of it. */
  datatype Exchange = Exchange(call: Frame, answer: Answer)

  datatype Handler = Idle | Handling(call: Frame) | Responding(response: Wire) | Stopped

  datatype Writer = Ready | Writing(frame: Queued) | Ended

  /** Who put a frame on the send queue: a call, the answer to a handled CALL, or a refusal. */
  datatype Origin = FromCaller(caller: nat) | FromHandler(handled: nat) | FromReader(received: nat)

  datatype Queued = Queued(data: Wire, origin: Origin)

  datatype State = State(
    callers: seq<Caller>,
    pending: map<string, nat>,
    send: seq<Queued>,
    calls: seq<Frame>,
    done: bool,
    inbox: seq<Wire>,
    reader: Reader,
    handler: Handler,
    writer: Writer,
    received: seq<Wire>,
    looked: seq<(string, Reply)>,
    handled: seq<Frame>,
    answers: seq<Exchange>,
    abandoned: seq<Frame>,
    queued: seq<Queued>,
    written: seq<Queued>,
    lost: seq<Queued>)

  const INITIAL := State([], map[], [], [], false, [], Reading, Idle, Ready, [], [], [], [], [], [], [], [])

  /** Steps of one invocation of Call. */
  datatype CallAction =
    | Begin(action: string, payload: Value)
    | EncodeFails(i: nat)
    | Register(i: nat)
    | Submit(i: nat)
    | GiveUp(i: nat, why: Outcome)
    | Collect(i: nat)
    | Forget(i: nat)

  /** Steps of readLoop and deliver, and the arrival of bytes on the socket. */
  datatype ReadAction =
    | Arrive(w: Wire)
    | Read
    | ReadFails
    | Lookup
    | Deposit
    | QueueCall
    | AbandonCall
    | Refuse
    | DropRefusal
    | Leave

  /** Steps of handleLoop. */
  datatype HandleAction =
    | Take
    | Answers(answer: Answer)
    | Respond
    | DropResponse
    | StopHandler

  /** Steps of writeLoop, and Close, which anyone may call. */
  datatype WriteAction =
    | Fetch
    | Write
    | WriteFails
    | Ping
    | PingFails
    | StopWriter
    | Close

  datatype Action =
    | OfCall(c: CallAction)
    | OfReader(r: ReadAction)
    | OfHandler(h: HandleAction)
    | OfWriter(w: WriteAction)

  /** The message id of the i-th call: nextID counts the calls begun and is bumped first. */
  function Id(i: nat): string { Decimal(i + 1) }

  predicate InFlight(p: Phase) { p.Registered? || p.Waiting? || p.Returning? }

  predicate Decided(p: Phase) { p.Returning? || p.Finished? }

  function ReplyOf(f: Frame): Reply
    requires !f.Call?
  {
    if f.CallResult? then Result(f.payload) else Error(f.code, f.description)
  }

  /** The frame sent back for a handled CALL, if any of it can be encoded. */
  function Response(id: string, answer: Answer): Option<Wire> {
    match answer
    case Failure(e) => EncodeCallError(id, e)
    case Success(v) =>
      if EncodeCallResult(id, v).Some? then EncodeCallResult(id, v)
      else EncodeCallError(id, RpcError(INTERNAL_ERROR, "could not encode result", Nil))
  }

  function Refusal(id: string, d: Defect): Wire { EncodeCallError(id, DefectError(d)).value }

  predicate Encodable(c: Caller) { c.payload != Unencodable }

  function CallWire(c: Caller, i: nat): Wire
    requires Encodable(c)
  {
    EncodeCall(Id(i), c.action, c.payload).value
  }

  predicate CallEnabled(s: State, a: CallAction) {
    match a
    case Begin(_, _) => true
    case EncodeFails(i) => i < |s.callers| && s.callers[i].phase.Assigned? && !Encodable(s.callers[i])
    case Register(i) => i < |s.callers| && s.callers[i].phase.Assigned? && Encodable(s.callers[i])
    case Submit(i) => i < |s.callers| && s.callers[i].phase.Registered? && Encodable(s.callers[i])
      && |s.send| < SEND_BUFFER
    case GiveUp(i, why) =>
      && i < |s.callers|
      && (s.callers[i].phase.Registered? || s.callers[i].phase.Waiting?)
      && match why {
         case ConnClosed => s.done
         case Cancelled => true
         case TimedOut => s.callers[i].phase.Waiting?
         case _ => false
         }
    case Collect(i) => i < |s.callers| && s.callers[i].phase.Waiting? && s.callers[i].slot.Some?
    case Forget(i) => i < |s.callers| && s.callers[i].phase.Returning?
  }

  predicate ReadEnabled(s: State, a: ReadAction) {
    match a
    case Arrive(_) => !s.done
    case Read => s.reader.Reading? && s.inbox != []
    case ReadFails => s.reader.Reading?
    case Lookup => s.reader.LookingUp?
    case Deposit => s.reader.Delivering? && s.reader.caller < |s.callers|
    case QueueCall => s.reader.Queueing? && |s.calls| < CALL_BUFFER
    case AbandonCall => s.reader.Queueing? && s.done
    case Refuse => s.reader.Refusing? && |s.received| > 0 && |s.send| < SEND_BUFFER
    case DropRefusal => s.reader.Refusing? && s.done
    case Leave => s.reader.Leaving?
  }

  predicate HandleEnabled(s: State, a: HandleAction) {
    match a
    case Take => s.handler.Idle? && s.calls != []
    case Answers(_) => s.handler.Handling?
    case Respond => s.handler.Responding? && |s.answers| > 0 && |s.send| < SEND_BUFFER
    case DropResponse => s.handler.Responding? && s.done
    case StopHandler => s.handler.Idle? && s.done
  }

  predicate WriteEnabled(s: State, a: WriteAction) {
    match a
    case Fetch => s.writer.Ready? && s.send != []
    case Write => s.writer.Writing?
    case WriteFails => s.writer.Writing?
    case Ping => s.writer.Ready? && !s.done
    case PingFails => s.writer.Ready?
    case StopWriter => s.writer.Ready? && s.done
    case Close => !s.done
  }

  function SetPhase(s: State, i: nat, p: Phase): State
    requires i < |s.callers|
  {
    s.(callers := s.callers[i := s.callers[i].(phase := p)])
  }

  function Enqueue(s: State, q: Queued): State {
    s.(send := s.send + [q], queued := s.queued + [q])
  }

  /** Where the reader goes with a message it has just read. */
  function Classify(w: Wire): Reader {
    match ParseFrame(w)
    case Malformed(id, d) => Refusing(Refusal(id, d))
    case Parsed(f) => if f.Call? then Queueing(f) else LookingUp(f.id, ReplyOf(f))
  }

  function ApplyCall(s: State, a: CallAction): State
    requires CallEnabled(s, a)
  {
    match a
    case Begin(action, payload) => s.(callers := s.callers + [Caller(action, payload, Assigned, None, 0, None)])
    case EncodeFails(i) => SetPhase(s, i, Finished(NotEncoded))
    case Register(i) =>
      s.(callers := s.callers[i := s.callers[i].(phase := Registered, since := |s.looked|)],
         pending := s.pending[Id(i) := i])
    case Submit(i) => SetPhase(Enqueue(s, Queued(CallWire(s.callers[i], i), FromCaller(i))), i, Waiting)
    case GiveUp(i, why) => SetPhase(s, i, Returning(why))
    case Collect(i) =>
      s.(callers := s.callers[i := s.callers[i].(phase := Returning(Answered(s.callers[i].slot.value)), slot := None)])
    case Forget(i) => SetPhase(s.(pending := s.pending - {Id(i)}), i, Finished(s.callers[i].phase.outcome))
  }

  function ApplyReader(s: State, a: ReadAction): State
    requires ReadEnabled(s, a)
  {
    match a
    case Arrive(w) => s.(inbox := s.inbox + [w])
    case Read => s.(inbox := s.inbox[1..], received := s.received + [s.inbox[0]], reader := Classify(s.inbox[0]))
    case ReadFails => s.(reader := Leaving)
    case Lookup =>
      var id, reply := s.reader.id, s.reader.reply;
      s.(looked := s.looked + [(id, reply)],
         reader := if id in s.pending then Delivering(s.pending[id], reply) else Reading)
    case Deposit =>
      var i, c := s.reader.caller, s.callers[s.reader.caller];
      var first := if c.first.None? && |s.looked| > 0 then Some(|s.looked| - 1) else c.first;
      s.(callers := if c.slot.None? then s.callers[i := c.(slot := Some(s.reader.reply), first := first)]
          else s.callers,
         reader := Reading)
    case QueueCall => s.(calls := s.calls + [s.reader.call], reader := Reading)
    case AbandonCall => s.(abandoned := s.abandoned + [s.reader.call], reader := Leaving)
    case Refuse => Enqueue(s, Queued(s.reader.refusal, FromReader(|s.received| - 1))).(reader := Reading)
    case DropRefusal => s.(reader := Reading)
    case Leave => s.(reader := Gone, done := true)
  }

  function ApplyHandler(s: State, a: HandleAction): State
    requires HandleEnabled(s, a)
  {
    match a
    case Take => s.(calls := s.calls[1..], handled := s.handled + [s.calls[0]], handler := Handling(s.calls[0]))
    case Answers(answer) =>
      var response := Response(s.handler.call.id, answer);
      s.(answers := s.answers + [Exchange(s.handler.call, answer)], handler := if response.Some? then
          Responding(response.value) else Idle)
    case Respond => Enqueue(s, Queued(s.handler.response, FromHandler(|s.answers| - 1))).(handler := Idle)
    case DropResponse => s.(handler := Idle)
    case StopHandler => s.(handler := Stopped)
  }

  function ApplyWriter(s: State, a: WriteAction): State
    requires WriteEnabled(s, a)
  {
    match a
    case Fetch => s.(send := s.send[1..], writer := Writing(s.send[0]))
    case Write => s.(written := s.written + [s.writer.frame], writer := Ready)
    case WriteFails => s.(lost := s.lost + [s.writer.frame], writer := Ended, done := true)
    case PingFails => s.(writer := Ended, done := true)
    case Ping => s
    case StopWriter => s.(writer := Ended)
    case Close => s.(done := true)
  }

  predicate Enabled(s: State, a: Action) {
    match a
    case OfCall(c) => CallEnabled(s, c)
    case OfReader(r) => ReadEnabled(s, r)
    case OfHandler(h) => HandleEnabled(s, h)
    case OfWriter(w) => WriteEnabled(s, w)
  }

  function Apply(s: State, a: Action): State
    requires Enabled(s, a)
  {
    match a
    case OfCall(c) => ApplyCall(s, c)
    case OfReader(r) => ApplyReader(s, r)
    case OfHandler(h) => ApplyHandler(s, h)
    case OfWriter(w) => ApplyWriter(s, w)
  }

  /** A run: every action is enabled where it is taken. */
  predicate Runs(s: State, run: seq<Action>)
    decreases |run|
  {
    run == [] || (Enabled(s, run[0]) && Runs(Apply(s, run[0]), run[1..]))
  }

  function After(s: State, run: seq<Action>): State
    requires Runs(s, run)
    decreases |run|
  {
    if run == [] then s else After(Apply(s, run[0]), run[1..])
  }

  /** A run can be continued by any step enabled at its end. */
  lemma {:induction false} Extend(s: State, run: seq<Action>, a: Action)
    requires Runs(s, run) && Enabled(After(s, run), a)
    ensures Runs(s, run + [a]) && After(s, run + [a]) == Apply(After(s, run), a)
    decreases |run|
  {
    if run == [] {
      assert [a][1..] == [];
      assert After(Apply(s, a), []) == Apply(s, a);
    } else {
      Extend(Apply(s, run[0]), run[1..], a);
      assert (run + [a])[1..] == run[1..] + [a];
    }
  }
}
