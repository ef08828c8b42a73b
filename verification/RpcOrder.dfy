/**
 What the receiving side promises: CALLs are handled in arrival order, answered in that order
 and at most once, and frames leave in the order they were queued. Holds for any peer.
 */
module RpcOrder {
  import opened Text
  import opened Frame
  import opened Rpc
  import opened RpcCalls

  /** The well-formed CALLs among the messages received. */
  ghost function CallsIn(ws: seq<Wire>): (fs: seq<Frame>) {
    if ws == [] then [] else
    var rest := CallsIn(ws[..|ws| - 1]);
    match ParseFrame(ws[|ws| - 1])
    case Parsed(f) => if f.Call? then rest + [f] else rest
    case Malformed(_, _) => rest
  }

  /** The responses among the messages received, as the caller will see them. */
  ghost function RepliesIn(ws: seq<Wire>): (rs: seq<(string, Reply)>) {
    if ws == [] then [] else
    var rest := RepliesIn(ws[..|ws| - 1]);
    match ParseFrame(ws[|ws| - 1])
    case Parsed(f) => if f.Call? then rest else rest + [(f.id, ReplyOf(f))]
    case Malformed(_, _) => rest
  }

  /** The handled CALLs whose response was put on the send queue, in queue order. */
  ghost function RespondedIn(qs: seq<Queued>): (hs: seq<nat>) {
    if qs == [] then [] else
    var rest := RespondedIn(qs[..|qs| - 1]);
    var origin := qs[|qs| - 1].origin;
    if origin.FromHandler? then rest + [origin.handled] else rest
  }

  /** The handled CALLs that have an encodable response, in order. */
  ghost function Due(xs: seq<Exchange>): (hs: seq<nat>) {
    if xs == [] then [] else
    var n := |xs| - 1;
    var rest := Due(xs[..n]);
    if Response(xs[n].call.id, xs[n].answer).Some? then rest + [n] else rest
  }

  ghost predicate Ascending(xs: seq<nat>) {
    forall i, j :: 0 <= i < j < |xs| ==> xs[i] < xs[j]
  }

  lemma Snoc(ws: seq<Wire>, w: Wire)
    ensures (ws + [w])[..|ws + [w]| - 1] == ws
    ensures CallsIn(ws + [w]) == CallsIn(ws) + (if Classify(w).Queueing? then [Classify(w).call] else [])
    ensures RepliesIn(ws + [w]) == RepliesIn(ws)
            + (if Classify(w).LookingUp? then [(Classify(w).id, Classify(w).reply)] else [])
  {
  }

  lemma SnocQueued(qs: seq<Queued>, q: Queued)
    ensures RespondedIn(qs + [q]) == RespondedIn(qs) + (if q.origin.FromHandler? then [q.origin.handled] else [])
  {
  }

  lemma SnocExchange(xs: seq<Exchange>, x: Exchange)
    ensures Due(xs + [x]) == Due(xs) + (if Response(x.call.id, x.answer).Some? then [|xs|] else [])
  {
  }

  function InHand(r: Reader): seq<Frame> { if r.Queueing? then [r.call] else [] }

  function Sought(r: Reader): seq<(string, Reply)> { if r.LookingUp? then [(r.id, r.reply)] else [] }

  function Flying(w: Writer): seq<Queued> { if w.Writing? then [w.frame] else [] }

  ghost predicate InboundOk(s: State) {
    && CallsIn(s.received) == s.handled + s.calls + InHand(s.reader) + s.abandoned
    && (s.abandoned != [] ==> s.reader.Leaving? || s.reader.Gone?)
    && RepliesIn(s.received) == s.looked + Sought(s.reader)
    && |s.send| <= SEND_BUFFER && |s.calls| <= CALL_BUFFER
    && (s.reader.Refusing? ==>
          && |s.received| > 0
          && var p := ParseFrame(s.received[|s.received| - 1]);
             p.Malformed? && s.reader.refusal == Refusal(p.answerId, p.defect))
  }

  ghost predicate AnswersOk(s: State) {
    && s.handled == Calls(s.answers) + (if s.handler.Handling? then [s.handler.call] else [])
    && (s.handler.Responding? ==>
          && |s.answers| > 0
          && var x := s.answers[|s.answers| - 1];
             Response(x.call.id, x.answer) == Some(s.handler.response))
    && Ascending(RespondedIn(s.queued))
    && (forall h :: h in RespondedIn(s.queued) ==> h < |s.answers| - Owed(s))
    && (!s.done ==> RespondedIn(s.queued) + (if s.handler.Responding? then [|s.answers| - 1] else []) == Due(s.answers))
  }

  function Owed(s: State): nat { if s.handler.Responding? then 1 else 0 }

  ghost function Calls(xs: seq<Exchange>): (fs: seq<Frame>)
    ensures |fs| == |xs|
    ensures forall i :: 0 <= i < |xs| ==> fs[i] == xs[i].call
  {
    seq(|xs|, i requires 0 <= i < |xs| => xs[i].call)
  }

  /** Where a queued frame may have come from, and that it says what it should. */
  ghost predicate Genuine(s: State, q: Queued) {
    match q.origin
    case FromCaller(i) =>
      && i < |s.callers|
      && !s.callers[i].phase.Assigned? && !s.callers[i].phase.Registered?
      && Encodable(s.callers[i]) && q.data == CallWire(s.callers[i], i)
    case FromHandler(h) =>
      && h < |s.answers| - Owed(s)
      && Response(s.answers[h].call.id, s.answers[h].answer) == Some(q.data)
    case FromReader(k) =>
      && k < |s.received| && (s.reader.Refusing? ==> k < |s.received| - 1)
      && var p := ParseFrame(s.received[k]);
         p.Malformed? && q.data == Refusal(p.answerId, p.defect)
  }

  ghost predicate Distinct(qs: seq<Queued>) {
    forall a, b :: 0 <= a < b < |qs| ==> qs[a].origin != qs[b].origin
  }

  ghost predicate SentOk(s: State) {
    && Fifo(s)
    && Distinct(s.queued)
    && forall k :: 0 <= k < |s.queued| ==> Genuine(s, s.queued[k])
  }

  ghost predicate OrderOk(s: State) { InboundOk(s) && AnswersOk(s) && SentOk(s) }

  lemma InboundRead(s: State)
    requires InboundOk(s) && ReadEnabled(s, Read)
    ensures InboundOk(ApplyReader(s, Read))
  {
  }

  lemma InboundReader(s: State, a: ReadAction)
    requires InboundOk(s) && ReadEnabled(s, a) && !a.Read?
    ensures InboundOk(ApplyReader(s, a))
  {
  }

  lemma InboundHandler(s: State, a: HandleAction)
    requires InboundOk(s) && HandleEnabled(s, a)
    ensures InboundOk(ApplyHandler(s, a))
  {
  }

  lemma InboundCall(s: State, a: CallAction)
    requires InboundOk(s) && CallEnabled(s, a)
    ensures InboundOk(ApplyCall(s, a))
  {
  }

  lemma InboundWriter(s: State, a: WriteAction)
    requires InboundOk(s) && WriteEnabled(s, a)
    ensures InboundOk(ApplyWriter(s, a))
  {
  }

  lemma InboundStep(s: State, a: Action)
    requires InboundOk(s) && Enabled(s, a)
    ensures InboundOk(Apply(s, a))
  {
    match a
    case OfCall(c) => InboundCall(s, c);
    case OfReader(r) => if r.Read? { InboundRead(s); } else { InboundReader(s, r); }
    case OfHandler(h) => InboundHandler(s, h);
    case OfWriter(w) => InboundWriter(s, w);
  }

  /** A frame queued by a caller or the reader leaves the responses as they were. */
  lemma AnswersElsewhere(s: State, t: State)
    requires AnswersOk(s)
    requires t.answers == s.answers && t.handled == s.handled && t.handler == s.handler && (s.done ==> t.done)
    requires t.queued == s.queued
          || (|t.queued| == |s.queued| + 1 && t.queued[..|s.queued|] == s.queued
                && !t.queued[|s.queued|].origin.FromHandler?)
    ensures AnswersOk(t)
  {
  }

  lemma AnswersGiven(s: State, answer: Answer)
    requires AnswersOk(s) && HandleEnabled(s, Answers(answer))
    ensures AnswersOk(ApplyHandler(s, Answers(answer)))
  {
    var x := Exchange(s.handler.call, answer);
    SnocExchange(s.answers, x);
    assert Calls(s.answers + [x]) == Calls(s.answers) + [x.call];
  }

  lemma AnswersQueued(s: State)
    requires AnswersOk(s) && HandleEnabled(s, Respond)
    ensures AnswersOk(ApplyHandler(s, Respond))
  {
    SnocQueued(s.queued, Queued(s.handler.response, FromHandler(|s.answers| - 1)));
    var hs := RespondedIn(s.queued);
    assert forall i :: 0 <= i < |hs| ==> hs[i] in hs;
  }

  lemma AnswersCall(s: State, a: CallAction)
    requires AnswersOk(s) && CallEnabled(s, a)
    ensures AnswersOk(ApplyCall(s, a))
  {
  }

  lemma AnswersReader(s: State, a: ReadAction)
    requires AnswersOk(s) && ReadEnabled(s, a)
    ensures AnswersOk(ApplyReader(s, a))
  {
    AnswersElsewhere(s, ApplyReader(s, a));
  }

  lemma AnswersHandler(s: State, a: HandleAction)
    requires AnswersOk(s) && HandleEnabled(s, a)
    ensures AnswersOk(ApplyHandler(s, a))
  {
    if a.Answers? {
      AnswersGiven(s, a.answer);
    } else if a.Respond? {
      AnswersQueued(s);
    }
  }

  lemma AnswersStep(s: State, a: Action)
    requires AnswersOk(s) && Enabled(s, a)
    ensures AnswersOk(Apply(s, a))
  {
    match a
    case OfCall(c) => AnswersCall(s, c);
    case OfReader(r) => AnswersReader(s, r);
    case OfHandler(h) => AnswersHandler(s, h);
    case OfWriter(w) => AnswersElsewhere(s, ApplyWriter(s, w));
  }

  /** Calls keep their requests and histories only grow, so a genuine frame stays genuine. */
  lemma StillGenuine(s: State, t: State, q: Queued)
    requires Genuine(s, q) && CallsKept(s.callers, t.callers)
    requires s.answers <= t.answers && |s.answers| - Owed(s) <= |t.answers| - Owed(t)
    requires s.received <= t.received && (t.reader.Refusing? && !s.reader.Refusing? ==> |t.received| > |s.received|)
    ensures Genuine(t, q)
  {
  }

  ghost predicate Fifo(s: State) {
    s.queued == s.written + Flying(s.writer) + s.lost + s.send && (s.lost != [] ==> s.writer.Ended?)
  }

  lemma FifoWriter(s: State, a: WriteAction)
    requires Fifo(s) && WriteEnabled(s, a)
    ensures Fifo(ApplyWriter(s, a))
  {
  }

  /** Either nothing is queued, or one frame whose origin no queued frame had. */
  ghost predicate Queues(s: State, t: State) {
    || (t.queued == s.queued && t.send == s.send)
    || (&& t.send != []
        && var q := t.send[|t.send| - 1];
           && t.queued == s.queued + [q] && t.send == s.send + [q]
           && Genuine(t, q) && !Genuine(s, Queued(q.data, q.origin)))
  }

  lemma QueuesCall(s: State, a: CallAction)
    requires CallEnabled(s, a)
    ensures Queues(s, ApplyCall(s, a))
  {
  }

  lemma QueuesReader(s: State, a: ReadAction)
    requires InboundOk(s) && ReadEnabled(s, a)
    ensures Queues(s, ApplyReader(s, a))
  {
  }

  lemma QueuesHandler(s: State, a: HandleAction)
    requires AnswersOk(s) && HandleEnabled(s, a)
    ensures Queues(s, ApplyHandler(s, a))
  {
  }

  lemma SentMore(s: State, t: State)
    requires SentOk(s) && Queues(s, t) && t.written == s.written && t.writer == s.writer && t.lost == s.lost
    requires forall k :: 0 <= k < |s.queued| ==> Genuine(t, s.queued[k])
    ensures SentOk(t)
  {
  }

  lemma SentCall(s: State, a: CallAction)
    requires OrderOk(s) && CallEnabled(s, a)
    ensures SentOk(ApplyCall(s, a))
  {
    var t := ApplyCall(s, a);
    KeptByCall(s, a);
    forall k | 0 <= k < |s.queued| ensures Genuine(t, s.queued[k]) {
      StillGenuine(s, t, s.queued[k]);
    }
    QueuesCall(s, a);
    SentMore(s, t);
  }

  lemma SentReader(s: State, a: ReadAction)
    requires OrderOk(s) && ReadEnabled(s, a)
    ensures SentOk(ApplyReader(s, a))
  {
    var t := ApplyReader(s, a);
    KeptByReader(s, a);
    forall k | 0 <= k < |s.queued| ensures Genuine(t, s.queued[k]) {
      StillGenuine(s, t, s.queued[k]);
    }
    QueuesReader(s, a);
    SentMore(s, t);
  }

  lemma SentHandler(s: State, a: HandleAction)
    requires OrderOk(s) && HandleEnabled(s, a)
    ensures SentOk(ApplyHandler(s, a))
  {
    var t := ApplyHandler(s, a);
    forall k | 0 <= k < |s.queued| ensures Genuine(t, s.queued[k]) {
      StillGenuine(s, t, s.queued[k]);
    }
    QueuesHandler(s, a);
    SentMore(s, t);
  }

  lemma SentWriter(s: State, a: WriteAction)
    requires OrderOk(s) && WriteEnabled(s, a)
    ensures SentOk(ApplyWriter(s, a))
  {
    var t := ApplyWriter(s, a);
    forall k | 0 <= k < |s.queued| ensures Genuine(t, s.queued[k]) {
      StillGenuine(s, t, s.queued[k]);
    }
    FifoWriter(s, a);
  }

  lemma SentStep(s: State, a: Action)
    requires OrderOk(s) && Enabled(s, a)
    ensures SentOk(Apply(s, a))
  {
    match a
    case OfCall(c) => SentCall(s, c);
    case OfReader(r) => SentReader(s, r);
    case OfHandler(h) => SentHandler(s, h);
    case OfWriter(w) => SentWriter(s, w);
  }

  lemma OrderStep(s: State, a: Action)
    requires OrderOk(s) && Enabled(s, a)
    ensures OrderOk(Apply(s, a))
  {
    InboundStep(s, a);
    AnswersStep(s, a);
    SentStep(s, a);
  }

  lemma {:induction false} OrderAlways(s: State, run: seq<Action>)
    requires OrderOk(s) && Runs(s, run)
    ensures OrderOk(After(s, run))
    decreases |run|
  {
    if run != [] {
      OrderStep(s, run[0]);
      OrderAlways(Apply(s, run[0]), run[1..]);
    }
  }

  /**
   Inbound order, in every reachable state. The handled CALLs are a prefix of the well-formed
   CALLs received, the queues stay within their sizes, and frames leave in the order queued.
   */
  lemma HandledInArrivalOrder(run: seq<Action>)
    requires Runs(INITIAL, run)
    ensures var s := After(INITIAL, run);
            && s.handled <= CallsIn(s.received)
            && s.handled + s.calls <= CallsIn(s.received)
            && Calls(s.answers) <= s.handled
            && |s.handled| <= |s.answers| + 1
            && |s.calls| <= 64 && |s.send| <= 32
            && s.written <= s.queued
  {
    OrderAlways(INITIAL, run);
  }

  /**
   Responses in every reachable state: in arrival order, never doubled, each the encoding of
   the handler's answer under the id of the CALL it answers. While the connection is open none
   is missing but the one being queued; only closing may open gaps.
   */
  lemma AnsweredInArrivalOrder(run: seq<Action>)
    requires Runs(INITIAL, run)
    ensures var s := After(INITIAL, run);
            && Ascending(RespondedIn(s.queued))
            && (forall k :: 0 <= k < |s.queued| && s.queued[k].origin.FromHandler? ==>
                  && s.queued[k].origin.handled < |s.answers| <= |s.handled|
                  && var h := s.queued[k].origin.handled;
                     && s.answers[h].call == s.handled[h]
                     && Response(s.handled[h].id, s.answers[h].answer) == Some(s.queued[k].data))
            && (!s.done ==>
                  RespondedIn(s.queued) + (if s.handler.Responding? then [|s.answers| - 1] else []) == Due(s.answers))
  {
    OrderAlways(INITIAL, run);
  }
}
