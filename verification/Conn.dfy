/**
 The connection object: the fields its goroutines share and the critical sections and channel
 operations they perform on them. Each method is one or two steps of the machine in Rpc, which the
 ghost fields follow: m is its state and run how it got there, so everything proved about every
 run of that machine holds of the object.
 */
module Conn {
  import opened Text
  import opened Frame
  import opened Rpc
  import opened RpcCalls
  import opened RpcOrder
  import opened Duplex

  /** The case of a select that the runtime picks; one that is not ready makes it wait. */
  datatype Case = Queue | Done | Context

  class Conn {
    var nextID: nat
    var pending: map<string, nat>
    /** The one-element answer channel of each call, in the order the calls began. */
    var answers: seq<Option<Reply>>
    var send: seq<Wire>
    var calls: seq<Frame>
    var done: bool
    ghost var m: State
    ghost var run: seq<Action>

    ghost predicate Valid()
      reads this
    {
      && nextID == |m.callers| == |answers|
      && (forall i :: 0 <= i < nextID ==> answers[i] == m.callers[i].slot)
      && pending == m.pending && send == Data(m.send) && calls == m.calls && done == m.done
      && Runs(INITIAL, run) && m == After(INITIAL, run)
    }

    constructor ()
      ensures Valid() && m == INITIAL
    {
      nextID, pending, answers, send, calls, done := 0, map[], [], [], [], false;
      m, run := INITIAL, [];
    }

    /** What goes on outside: a frame arrives, the socket fails a read, a ping goes out. */
    method Meanwhile(ghost a: Action)
      requires Valid() && Enabled(m, a)
      requires a == OfWriter(Ping) || a == OfReader(ReadFails) || (a.OfReader? && a.r.Arrive?)
      modifies this`m, this`run
      ensures Valid() && m == Apply(old(m), a)
    {
      Extend(INITIAL, run, a);
      run := run + [a];
      m := Apply(m, a);
    }

    /** How many calls await an answer: exactly the calls in flight. */
    method PendingCount() returns (n: nat)
      requires Valid()
      ensures n == |set i: nat | i < |m.callers| && InFlight(m.callers[i].phase)|
    {
      CallsAlways(INITIAL, run);
      n := |pending|;
      ghost var flying := set i: nat | i < |m.callers| && InFlight(m.callers[i].phase);
      forall k | k in m.pending ensures m.pending[k] in flying {}
      SameSize(flying, m.pending.Keys, m.pending);
      assert |pending| == |m.pending.Keys|;
    }

    /** The first line of Call: take the next number, whose text is the message id. */
    method NextId(action: string, payload: Value) returns (id: string)
      requires Valid()
      modifies this
      ensures Valid() && m == ApplyCall(old(m), Begin(action, payload))
      ensures id == Decimal(old(nextID) + 1) && id !in pending && nextID == old(nextID) + 1
      ensures m.callers == old(m.callers) + [Caller(action, payload, Assigned, None, 0, None)]
    {
      CallsAlways(INITIAL, run);
      Extend(INITIAL, run, OfCall(Begin(action, payload)));
      run := run + [OfCall(Begin(action, payload))];
      nextID := nextID + 1;
      answers := answers + [None];
      id := Decimal(nextID);
      if id in pending {
        IdInjective(pending[id], nextID - 1);
      }
      m := ApplyCall(m, Begin(action, payload));
    }

    method Register(i: nat, id: string)
      requires Valid() && id == Id(i) && CallEnabled(m, Rpc.Register(i))
      modifies this
      ensures Valid() && m == ApplyCall(old(m), Rpc.Register(i))
      ensures pending == old(pending)[id := i] && m.callers[i].phase.Registered?
    {
      Extend(INITIAL, run, OfCall(Rpc.Register(i)));
      run := run + [OfCall(Rpc.Register(i))];
      pending := pending[id := i];
      m := ApplyCall(m, Rpc.Register(i));
    }

    /** Call returns at once if its payload cannot be encoded. */
    method RefuseToEncode(i: nat)
      requires Valid() && CallEnabled(m, EncodeFails(i))
      modifies this`m, this`run
      ensures Valid() && m == ApplyCall(old(m), EncodeFails(i))
      ensures m.callers[i].phase == Finished(NotEncoded) && pending == old(pending)
    {
      Extend(INITIAL, run, OfCall(EncodeFails(i)));
      run := run + [OfCall(EncodeFails(i))];
      m := ApplyCall(m, EncodeFails(i));
    }

    /**
     The first select of Call. The request is queued if there is room, or the call ends because
     the connection or its context did; closed and with room, either may happen.
     */
    method Submit(i: nat, data: Wire, which: Case) returns (taken: bool)
      requires Valid() && i < |m.callers| && m.callers[i].phase.Registered?
      requires Encodable(m.callers[i]) && data == CallWire(m.callers[i], i)
      modifies this
      ensures Valid()
      ensures taken <==> (which.Queue? ==> |old(send)| < SEND_BUFFER) && (which.Done? ==> old(done))
      ensures !taken ==> m == old(m)
      ensures taken && which.Queue? ==> m == ApplyCall(old(m), Rpc.Submit(i)) && send == old(send) + [data]
      ensures taken && which.Done? ==> m == ApplyCall(old(m), Rpc.GiveUp(i, ConnClosed))
      ensures taken && which.Context? ==> m == ApplyCall(old(m), Rpc.GiveUp(i, Cancelled))
      ensures taken ==>
                m.callers[i].phase ==
                  match which
                  case Queue => Phase.Waiting
                  case Done => Returning(ConnClosed)
                  case Context => Returning(Cancelled)
    {
      taken := (which.Queue? ==> |send| < SEND_BUFFER) && (which.Done? ==> done);
      if !taken {
        return;
      }
      if which.Queue? {
        Extend(INITIAL, run, OfCall(Rpc.Submit(i)));
        run := run + [OfCall(Rpc.Submit(i))];
        send := send + [data];
        m := ApplyCall(m, Rpc.Submit(i));
      } else {
        GiveUp(i, if which.Done? then ConnClosed else Cancelled);
      }
    }

    /** A call that gives up, in either select: closed, cancelled, or out of time once it was sent. */
    method GiveUp(i: nat, why: Outcome)
      requires Valid() && CallEnabled(m, Rpc.GiveUp(i, why))
      modifies this`m, this`run
      ensures Valid() && m == ApplyCall(old(m), Rpc.GiveUp(i, why)) && m.callers[i].phase == Returning(why)
    {
      Extend(INITIAL, run, OfCall(Rpc.GiveUp(i, why)));
      run := run + [OfCall(Rpc.GiveUp(i, why))];
      m := ApplyCall(m, Rpc.GiveUp(i, why));
    }

    /** The second select of Call, when it takes the answer. */
    method Collect(i: nat) returns (reply: Reply)
      requires Valid() && CallEnabled(m, Rpc.Collect(i))
      modifies this
      ensures Valid() && m == ApplyCall(old(m), Rpc.Collect(i))
      ensures m.callers[i].phase == Returning(Answered(reply))
      ensures exists k: nat :: FirstFor(m.looked, m.callers[i].since, Id(i), k) && reply == m.looked[k].1
    {
      Extend(INITIAL, run, OfCall(Rpc.Collect(i)));
      run := run + [OfCall(Rpc.Collect(i))];
      reply := answers[i].value;
      answers := answers[i := None];
      m := ApplyCall(m, Rpc.Collect(i));
      AnsweredByFirstResponse(run, i);
    }

    method Forget(i: nat, id: string)
      requires Valid() && id == Id(i) && CallEnabled(m, Rpc.Forget(i))
      modifies this
      ensures Valid() && m == ApplyCall(old(m), Rpc.Forget(i))
      ensures pending == old(pending) - {id} && m.callers[i].phase == Finished(old(m.callers[i].phase.outcome))
    {
      Extend(INITIAL, run, OfCall(Rpc.Forget(i)));
      run := run + [OfCall(Rpc.Forget(i))];
      pending := pending - {id};
      m := ApplyCall(m, Rpc.Forget(i));
    }

    method Close()
      requires Valid()
      modifies this
      ensures Valid() && done
      ensures m == if old(done) then old(m) else ApplyWriter(old(m), Rpc.Close)
    {
      if !done {
        Extend(INITIAL, run, OfWriter(Rpc.Close));
        run := run + [OfWriter(Rpc.Close)];
        done := true;
        m := ApplyWriter(m, Rpc.Close);
      }
    }

    /** deliver under the lock: which call, if any, waits for a response with this id. */
    method Waiting(id: string, reply: Reply) returns (i: Option<nat>)
      requires Valid() && m.reader == LookingUp(id, reply)
      modifies this
      ensures Valid() && m == ApplyReader(old(m), Lookup)
      ensures i.None? <==> id !in pending
      ensures i.None? ==> m.reader.Reading?
      ensures i.Some? ==> i.value < nextID && id == Id(i.value) && m.reader == Delivering(i.value, reply)
      ensures i.Some? ==> InFlight(m.callers[i.value].phase)
    {
      CallsAlways(INITIAL, run);
      Extend(INITIAL, run, OfReader(Lookup));
      run := run + [OfReader(Lookup)];
      i := if id in pending then Some(pending[id]) else None;
      m := ApplyReader(m, Lookup);
    }

    /** deliver after the lock: offer the response; a call that already holds one keeps that. */
    method Offer(i: nat, reply: Reply)
      requires Valid() && m.reader == Delivering(i, reply) && i < nextID
      modifies this
      ensures Valid() && m == ApplyReader(old(m), Deposit)
      ensures answers == if old(answers)[i].None? then old(answers)[i := Some(reply)] else old(answers)
      ensures m.reader.Reading?
    {
      Extend(INITIAL, run, OfReader(Deposit));
      run := run + [OfReader(Deposit)];
      if answers[i].None? {
        answers := answers[i := Some(reply)];
      }
      m := ApplyReader(m, Deposit);
    }

    /** One message in the read loop, up to the point where it is looked up, queued or refused. */
    method ReadMessage(data: Wire) returns (next: Reader)
      requires Valid() && ReadEnabled(m, Read) && m.inbox[0] == data
      modifies this
      ensures Valid() && m == ApplyReader(old(m), Read) && next == m.reader
      ensures match ParseFrame(data)
              case Malformed(id, defect) =>
                next.Refusing?
                && ParseFrame(next.refusal) == Parsed(CallError(id, RPC_FRAMEWORK_ERROR, Describe(defect),
                     Some(Obj(map[]))))
              case Parsed(Call(id, action, payload)) => next == Queueing(Call(id, action, payload))
              case Parsed(CallResult(id, payload)) => next == LookingUp(id, Result(payload))
              case Parsed(CallError(id, code, description, _)) => next == LookingUp(id, Error(code, description))
    {
      Extend(INITIAL, run, OfReader(Read));
      run := run + [OfReader(Read)];
      var parsed := ParseFrame(data);
      ParseNormalises(data);
      if parsed.Malformed? { CallErrorRoundTrip(parsed.answerId, DefectError(parsed.defect)); }
      match parsed {
        case Malformed(id, defect) => next := Refusing(Refusal(id, defect));
        case Parsed(Call(id, action, payload)) => next := Queueing(Call(id, action, payload));
        case Parsed(CallResult(id, payload)) => next := LookingUp(id, Result(payload));
        case Parsed(CallError(id, code, description, _)) => next := LookingUp(id, Error(code, description));
      }
      m := ApplyReader(m, Read);
    }

    /** The read loop hands a CALL to the handler; closed, it may give up and leave instead. */
    method QueueCall(f: Frame, which: Case) returns (taken: bool)
      requires Valid() && m.reader == Queueing(f) && !which.Context?
      modifies this
      ensures Valid() && taken == if which.Queue? then |old(calls)| < CALL_BUFFER else old(done)
      ensures !taken ==> m == old(m)
      ensures taken && which.Queue? ==> m == ApplyReader(old(m), Rpc.QueueCall) && calls == old(calls) + [f]
      ensures taken && which.Done? ==> m == ApplyReader(old(m), AbandonCall) && calls == old(calls)
      ensures taken ==> m.reader == if which.Queue? then Reading else Leaving
    {
      taken := if which.Queue? then |calls| < CALL_BUFFER else done;
      if !taken {
        return;
      }
      ghost var a := OfReader(if which.Queue? then Rpc.QueueCall else AbandonCall);
      Extend(INITIAL, run, a);
      run := run + [a];
      if which.Queue? {
        calls := calls + [f];
      }
      m := Apply(m, a);
    }

    /** enqueue for a refusal: on the send queue, or dropped because the connection is closed. */
    method Refuse(refusal: Wire, which: Case) returns (taken: bool)
      requires Valid() && m.reader == Refusing(refusal) && !which.Context?
      modifies this
      ensures Valid() && taken == if which.Queue? then |old(send)| < SEND_BUFFER else old(done)
      ensures !taken ==> m == old(m)
      ensures taken ==>
                var a := if which.Queue? then Rpc.Refuse else DropRefusal;
                ReadEnabled(old(m), a) && m == ApplyReader(old(m), a) && m.reader.Reading?
      ensures send == if taken && which.Queue? then old(send) + [refusal] else old(send)
    {
      HistoriesBegun(run);
      taken := if which.Queue? then |send| < SEND_BUFFER else done;
      if !taken {
        return;
      }
      ghost var a := OfReader(if which.Queue? then Rpc.Refuse else DropRefusal);
      Extend(INITIAL, run, a);
      run := run + [a];
      if which.Queue? {
        send := send + [refusal];
      }
      m := Apply(m, a);
    }

    /** The read loop has returned: Run closes the connection. */
    method Leave()
      requires Valid() && m.reader.Leaving?
      modifies this
      ensures Valid() && done && m == ApplyReader(old(m), Rpc.Leave) && m.reader.Gone?
    {
      Extend(INITIAL, run, OfReader(Rpc.Leave));
      run := run + [OfReader(Rpc.Leave)];
      done := true;
      m := ApplyReader(m, Rpc.Leave);
    }

    /** The handler loop takes the oldest CALL. */
    method TakeCall() returns (f: Frame)
      requires Valid() && HandleEnabled(m, Take)
      modifies this
      ensures Valid() && m == ApplyHandler(old(m), Take) && m.handler == Handling(f)
      ensures old(calls) == [f] + calls
    {
      Extend(INITIAL, run, OfHandler(Take));
      run := run + [OfHandler(Take)];
      f := calls[0];
      calls := calls[1..];
      m := ApplyHandler(m, Take);
    }

    /** The handler loop turns an answer into a frame; one that cannot be encoded becomes an error. */
    method Answer(f: Frame, answer: Answer) returns (response: Option<Wire>)
      requires Valid() && m.handler == Handling(f)
      modifies this`m, this`run
      ensures Valid() && m == ApplyHandler(old(m), Answers(answer)) && response == Response(f.id, answer)
      ensures m.handler == if response.Some? then Responding(response.value) else Idle
      ensures response.None? <==> answer.Failure? && answer.error.details == Unencodable
      ensures f.id != "" && response.Some? ==>
                var p := ParseFrame(response.value);
                p.Parsed? && !p.frame.Call? && p.frame.id == f.id && ReplyOf(p.frame) == ReplyTo(answer)
    {
      Extend(INITIAL, run, OfHandler(Answers(answer)));
      run := run + [OfHandler(Answers(answer))];
      m := ApplyHandler(m, Answers(answer));
      response := Response(f.id, answer);
      if f.id != "" && response.Some? { ResponseParses(f.id, answer); }
    }

    /** enqueue for that frame: on the send queue, or dropped because the connection is closed. */
    method Respond(response: Wire, which: Case) returns (taken: bool)
      requires Valid() && m.handler == Responding(response) && !which.Context?
      modifies this
      ensures Valid() && taken == if which.Queue? then |old(send)| < SEND_BUFFER else old(done)
      ensures !taken ==> m == old(m)
      ensures taken ==>
                var a := if which.Queue? then Rpc.Respond else DropResponse;
                HandleEnabled(old(m), a) && m == ApplyHandler(old(m), a) && m.handler.Idle?
      ensures send == if taken && which.Queue? then old(send) + [response] else old(send)
    {
      HistoriesBegun(run);
      taken := if which.Queue? then |send| < SEND_BUFFER else done;
      if !taken {
        return;
      }
      ghost var a := OfHandler(if which.Queue? then Rpc.Respond else DropResponse);
      Extend(INITIAL, run, a);
      run := run + [a];
      if which.Queue? {
        send := send + [response];
      }
      m := Apply(m, a);
    }

    /** A loop between two turns leaves once the connection is closed. */
    method Stop(ghost a: Action)
      requires Valid() && done && (a == OfHandler(StopHandler) || a == OfWriter(StopWriter)) && Enabled(m, a)
      modifies this`m, this`run
      ensures Valid() && m == Apply(old(m), a) && (a.OfHandler? ==> m.handler.Stopped?)
              && (a.OfWriter? ==> m.writer.Ended?)
    {
      Extend(INITIAL, run, a);
      run := run + [a];
      m := Apply(m, a);
    }

    /** A ping that cannot be written closes the connection and ends the write loop. */
    method PingFails()
      requires Valid() && m.writer.Ready?
      modifies this
      ensures Valid() && done && m == ApplyWriter(old(m), Rpc.PingFails) && m.writer.Ended?
    {
      Extend(INITIAL, run, OfWriter(Rpc.PingFails));
      run := run + [OfWriter(Rpc.PingFails)];
      done := true;
      m := ApplyWriter(m, Rpc.PingFails);
    }

    /** The write loop takes the oldest frame; failed says whether writing it went wrong. */
    method WriteNext(failed: bool) returns (data: Wire)
      requires Valid() && WriteEnabled(m, Fetch)
      modifies this
      ensures Valid() && data == old(send)[0]
      ensures var fetched := ApplyWriter(old(m), Fetch);
              m == ApplyWriter(fetched, if failed then WriteFails else Write)
      ensures done == (old(done) || failed) && (failed ==> m.writer.Ended?)
      ensures send == old(send)[1..]
      ensures m.written == if failed then old(m.written) else old(m.written) + [old(m.send)[0]]
    {
      Extend(INITIAL, run, OfWriter(Fetch));
      run := run + [OfWriter(Fetch)];
      data := send[0];
      send := send[1..];
      m := ApplyWriter(m, Fetch);
      if failed {
        Extend(INITIAL, run, OfWriter(WriteFails));
        run := run + [OfWriter(WriteFails)];
        done := true;
        m := ApplyWriter(m, WriteFails);
      } else {
        Extend(INITIAL, run, OfWriter(Write));
        run := run + [OfWriter(Write)];
        m := ApplyWriter(m, Write);
      }
    }
  }

  /** A refusal is of a message read, a response of a CALL answered. */
  lemma HistoriesBegun(run: seq<Action>)
    requires Runs(INITIAL, run)
    ensures var s := After(INITIAL, run);
            (s.reader.Refusing? ==> |s.received| > 0) && (s.handler.Responding? ==> |s.answers| > 0)
  {
    OrderAlways(INITIAL, run);
  }
}
