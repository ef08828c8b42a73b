/**
 Two connections joined by two FIFO wires, each end running the same code and numbering its own
 calls 1, 2, 3 and so on. A frame one end writes arrives at the other unless that end has closed.
 */
module Duplex {
  import opened Text
  import opened Frame
  import opened Rpc
  import opened RpcCalls
  import opened RpcOrder

  datatype Pair = Pair(a: State, b: State)

  /** A step of one end; a successful write at one end is an arrival at the other. */
  datatype Step = A(act: Action) | B(act: Action)

  const JOINED := Pair(INITIAL, INITIAL)

  /** Frames arrive only from the peer, so Arrive is not a step an end takes by itself. */
  predicate Local(act: Action) { !(act.OfReader? && act.r.Arrive?) }

  predicate CanStep(p: Pair, step: Step) {
    match step
    case A(act) => Local(act) && Enabled(p.a, act)
    case B(act) => Local(act) && Enabled(p.b, act)
  }

  /** The peer's side of an action: it receives what was written, if its socket is still open. */
  function Receive(peer: State, from: State, act: Action): State
    requires Enabled(from, act)
  {
    if act == OfWriter(Write) && !peer.done then ApplyReader(peer, Arrive(from.writer.frame.data)) else peer
  }

  function DoStep(p: Pair, step: Step): Pair
    requires CanStep(p, step)
  {
    match step
    case A(act) => Pair(Apply(p.a, act), Receive(p.b, p.a, act))
    case B(act) => Pair(Receive(p.a, p.b, act), Apply(p.b, act))
  }

  predicate PairRuns(p: Pair, run: seq<Step>)
    decreases |run|
  {
    run == [] || (CanStep(p, run[0]) && PairRuns(DoStep(p, run[0]), run[1..]))
  }

  function PairAfter(p: Pair, run: seq<Step>): Pair
    requires PairRuns(p, run)
    decreases |run|
  {
    if run == [] then p else PairAfter(DoStep(p, run[0]), run[1..])
  }

  ghost function Data(qs: seq<Queued>): (ws: seq<Wire>)
    ensures |ws| == |qs|
    ensures forall i :: 0 <= i < |qs| ==> ws[i] == qs[i].data
  {
    seq(|qs|, i requires 0 <= i < |qs| => qs[i].data)
  }

  /** What reached one end is a prefix of what the other wrote; all of it while that end is open. */
  ghost predicate Wired(from: State, to: State) {
    && to.received + to.inbox <= Data(from.written)
    && (!to.done ==> to.received + to.inbox == Data(from.written))
  }

  ghost predicate EndOk(s: State) { CallsOk(s) && OrderOk(s) }

  ghost predicate PairOk(p: Pair) {
    EndOk(p.a) && EndOk(p.b) && Wired(p.a, p.b) && Wired(p.b, p.a)
  }

  lemma EndStep(s: State, act: Action)
    requires EndOk(s) && Enabled(s, act)
    ensures EndOk(Apply(s, act))
  {
    CallsStep(s, act);
    OrderStep(s, act);
  }

  /** The steps other than a write or a read leave the wires alone. */
  lemma WiresAlone(s: State, act: Action)
    requires Enabled(s, act) && Local(act)
    ensures var t := Apply(s, act);
            && t.received + t.inbox == s.received + s.inbox
            && (s.done ==> t.done)
            && t.written == if act == OfWriter(Write) then s.written + [s.writer.frame] else s.written
  {
    match act
    case OfCall(c) =>
    case OfReader(r) => if r.Read? { assert s.inbox == [s.inbox[0]] + s.inbox[1..]; }
    case OfHandler(h) =>
    case OfWriter(w) =>
  }

  lemma WiredStep(s: State, peer: State, act: Action)
    requires Wired(s, peer) && Wired(peer, s) && Enabled(s, act) && Local(act)
    ensures Wired(Apply(s, act), Receive(peer, s, act))
    ensures Wired(Receive(peer, s, act), Apply(s, act))
  {
    WiresAlone(s, act);
    if act == OfWriter(Write) {
      assert Data(s.written + [s.writer.frame]) == Data(s.written) + [s.writer.frame.data];
      if !peer.done {
        assert peer.received + (peer.inbox + [s.writer.frame.data])
          == peer.received + peer.inbox + [s.writer.frame.data];
      }
    }
  }

  lemma PairStep(p: Pair, step: Step)
    requires PairOk(p) && CanStep(p, step)
    ensures PairOk(DoStep(p, step))
  {
    match step
    case A(act) =>
      EndStep(p.a, act);
      WiredStep(p.a, p.b, act);
      if act == OfWriter(Write) && !p.b.done { EndStep(p.b, OfReader(Arrive(p.a.writer.frame.data))); }
    case B(act) =>
      EndStep(p.b, act);
      WiredStep(p.b, p.a, act);
      if act == OfWriter(Write) && !p.a.done { EndStep(p.a, OfReader(Arrive(p.b.writer.frame.data))); }
  }

  lemma {:induction false} PairAlways(p: Pair, run: seq<Step>)
    requires PairOk(p) && PairRuns(p, run)
    ensures PairOk(PairAfter(p, run))
    decreases |run|
  {
    if run != [] {
      PairStep(p, run[0]);
      PairAlways(DoStep(p, run[0]), run[1..]);
    }
  }

  /** Exchange h of the peer is about call i: same id, same action, same payload. */
  ghost predicate ServedBy(caller: State, i: nat, peer: State, h: nat) {
    && i < |caller.callers| && h < |peer.answers|
    && Encodable(caller.callers[i])
    && peer.answers[h].call == Call(Id(i), caller.callers[i].action, Payload(caller.callers[i].payload).value)
  }

  /** Everything received was queued by the peer for a reason. */
  lemma ReceivedIsGenuine(from: State, to: State, k: nat) returns (m: nat)
    requires OrderOk(from) && Wired(from, to) && k < |to.received|
    ensures m == k < |from.queued| && from.queued[m].data == to.received[k] && Genuine(from, from.queued[m])
  {
    m := k;
    assert (to.received + to.inbox)[k] == to.received[k];
    assert from.written[k] == from.queued[k];
  }

  /** Where in the messages received the h-th CALL is. */
  ghost function CallPosition(ws: seq<Wire>, h: nat): (k: nat)
    requires h < |CallsIn(ws)|
    ensures k < |ws| && ParseFrame(ws[k]) == Parsed(CallsIn(ws)[h]) && CallsIn(ws)[h].Call?
  {
    var n := |ws| - 1;
    if h < |CallsIn(ws[..n])| then CallPosition(ws[..n], h) else n
  }

  lemma {:induction false} CallPositionsAscend(ws: seq<Wire>, g: nat, h: nat)
    requires g < h < |CallsIn(ws)|
    ensures CallPosition(ws, g) < CallPosition(ws, h)
  {
    var n := |ws| - 1;
    if h < |CallsIn(ws[..n])| {
      CallPositionsAscend(ws[..n], g, h);
    }
  }

  lemma {:induction false} ReplyCameFrom(ws: seq<Wire>, h: nat) returns (k: nat)
    requires h < |RepliesIn(ws)|
    ensures k < |ws| && ParseFrame(ws[k]).Parsed? && !ParseFrame(ws[k]).frame.Call?
    ensures var f := ParseFrame(ws[k]).frame; RepliesIn(ws)[h] == (f.id, ReplyOf(f))
  {
    var n := |ws| - 1;
    if h < |RepliesIn(ws[..n])| {
      k := ReplyCameFrom(ws[..n], h);
    } else {
      k := n;
    }
  }

  /** A frame that parses as a CALL was sent by a Call, and says what that Call asked. */
  lemma CallIsFromCaller(s: State, q: Queued)
    requires OrderOk(s) && Genuine(s, q) && ParseFrame(q.data).Parsed? && ParseFrame(q.data).frame.Call?
    requires q.origin.FromHandler? ==> s.answers[q.origin.handled].call.id != ""
    ensures q.origin.FromCaller?
    ensures var c := s.callers[q.origin.caller];
            ParseFrame(q.data).frame == Call(Id(q.origin.caller), c.action, Payload(c.payload).value)
  {
    match q.origin
    case FromCaller(i) => CallRoundTrip(Id(i), s.callers[i].action, s.callers[i].payload);
    case FromHandler(h) => ResponseParses(s.answers[h].call.id, s.answers[h].answer);
    case FromReader(k) =>
      var p := ParseFrame(s.received[k]);
      ParseNormalises(s.received[k]);
      CallErrorRoundTrip(p.answerId, DefectError(p.defect));
  }

  /** The error a caller is told of: the handler's own, or that its answer had no encoding. */
  function ErrorOf(answer: Answer): Reply {
    match answer
    case Failure(e) => Error(e.code, e.description)
    case Success(_) => Error(INTERNAL_ERROR, "could not encode result")
  }

  /** What the caller at the other end makes of a response. */
  function ReplyTo(answer: Answer): Reply {
    if answer.Success? && answer.value != Unencodable then Result(Payload(answer.value).value) else ErrorOf(answer)
  }

  lemma ResponseParses(id: string, answer: Answer)
    requires id != "" && Response(id, answer).Some?
    ensures var p := ParseFrame(Response(id, answer).value);
            && p.Parsed? && !p.frame.Call? && p.frame.id == id && ReplyOf(p.frame) == ReplyTo(answer)
  {
  }

  /**
   The response to a CALL, answer by answer: a value under the CALL's id, nil as an empty object; an
   internal error for a value without an encoding; the handler's error; and none exactly for an
   error whose details have no encoding.
   */
  lemma RespondedExactly(id: string, answer: Answer)
    requires id != ""
    ensures Response(id, answer).None? <==> answer.Failure? && answer.error.details == Unencodable
    ensures Response(id, answer).Some? ==>
              var p := ParseFrame(Response(id, answer).value);
              match answer
              case Success(Of(j)) => p == Parsed(CallResult(id, j))
              case Success(Nil) => p == Parsed(CallResult(id, Obj(map[])))
              case Success(Unencodable) =>
                p == Parsed(CallError(id, "InternalError", "could not encode result", Some(Obj(map[]))))
              case Failure(e) =>
                p.Parsed? && p.frame.CallError? && p.frame.id == id && p.frame.code == e.code
                && p.frame.description == e.description
  {
  }

  /** Every CALL an end has answered is one its peer made, with that call's id and content. */
  lemma AnsweredCallIsPeers(caller: State, peer: State, h: nat) returns (i: nat)
    requires EndOk(caller) && EndOk(peer) && Wired(caller, peer) && h < |peer.answers|
    requires CallIdsNonEmpty(caller)
    ensures ServedBy(caller, i, peer, h)
  {
    assert peer.handled[h] == peer.answers[h].call;
    assert CallsIn(peer.received)[h] == peer.handled[h];
    var k := CallPosition(peer.received, h);
    var m := ReceivedIsGenuine(caller, peer, k);
    CallIsFromCaller(caller, caller.queued[m]);
    i := caller.queued[m].origin.caller;
  }

  ghost predicate CallIdsNonEmpty(s: State) {
    forall h :: 0 <= h < |s.answers| ==> s.answers[h].call.id != ""
  }

  /** The parser never lets a CALL with an empty id through. */
  lemma IdsNonEmpty(s: State)
    requires OrderOk(s)
    ensures CallIdsNonEmpty(s)
  {
    forall h | 0 <= h < |s.answers| ensures s.answers[h].call.id != "" {
      assert s.handled[h] == s.answers[h].call && CallsIn(s.received)[h] == s.handled[h];
      var k := CallPosition(s.received, h);
      ParseNormalises(s.received[k]);
    }
  }

  /**
   What an answered Call was told, at one end of a pair. Either the peer handled this very call
   and the reply is what its handler produced for it, or the call had an empty action and the
   peer refused the frame.
   */
  ghost predicate Explained(caller: State, i: nat, peer: State)
    requires i < |caller.callers| && Decided(caller.callers[i].phase) && caller.callers[i].phase.outcome.Answered?
  {
    var reply := caller.callers[i].phase.outcome.reply;
    || (exists h: nat :: ServedBy(caller, i, peer, h) && reply == ReplyTo(peer.answers[h].answer))
    || (caller.callers[i].action == "" && reply == Error(RPC_FRAMEWORK_ERROR, Describe(ActionEmpty)))
  }

  lemma AnswerExplained(caller: State, peer: State, i: nat)
    requires EndOk(caller) && EndOk(peer) && Wired(caller, peer) && Wired(peer, caller)
    requires i < |caller.callers| && Decided(caller.callers[i].phase) && caller.callers[i].phase.outcome.Answered?
    ensures Explained(caller, i, peer)
  {
    assert AnswerOk(caller, i);
    IdsNonEmpty(caller);
    IdsNonEmpty(peer);
    var pos := caller.callers[i].first.value;
    assert RepliesIn(caller.received)[pos] == caller.looked[pos];
    var k := ReplyCameFrom(caller.received, pos);
    var m := ReceivedIsGenuine(peer, caller, k);
    var q := peer.queued[m];
    match q.origin
    case FromCaller(j) =>
      CallRoundTrip(Id(j), peer.callers[j].action, peer.callers[j].payload);
    case FromHandler(h) =>
      ResponseParses(peer.answers[h].call.id, peer.answers[h].answer);
      var j := AnsweredCallIsPeers(caller, peer, h);
      IdInjective(i, j);
    case FromReader(x) => RefusalExplained(caller, peer, i, x);
  }

  /** A refusal under a call's id means that very call had an empty action. */
  lemma RefusalExplained(caller: State, peer: State, i: nat, x: nat)
    requires EndOk(caller) && Wired(caller, peer) && i < |caller.callers| && x < |peer.received|
    requires CallIdsNonEmpty(caller)
    requires var p := ParseFrame(peer.received[x]);
             && p.Malformed?
             && ParseFrame(Refusal(p.answerId, p.defect)).Parsed?
             && ParseFrame(Refusal(p.answerId, p.defect)).frame.id == Id(i)
    ensures caller.callers[i].action == ""
    ensures ParseFrame(peer.received[x]) == Malformed(Id(i), ActionEmpty)
    ensures !ParseFrame(Refusal(Id(i), ActionEmpty)).frame.Call?
    ensures ReplyOf(ParseFrame(Refusal(Id(i), ActionEmpty)).frame) == Error(RPC_FRAMEWORK_ERROR, Describe(ActionEmpty))
  {
    var p := ParseFrame(peer.received[x]);
    ParseNormalises(peer.received[x]);
    CallErrorRoundTrip(p.answerId, DefectError(p.defect));
    var m := ReceivedIsGenuine(caller, peer, x);
    var q := caller.queued[m];
    match q.origin
    case FromCaller(j) =>
      CallRoundTrip(Id(j), caller.callers[j].action, caller.callers[j].payload);
      IdInjective(i, j);
    case FromHandler(h) => ResponseParses(caller.answers[h].call.id, caller.answers[h].answer);
    case FromReader(y) =>
      var r := ParseFrame(caller.received[y]);
      ParseNormalises(caller.received[y]);
      CallErrorRoundTrip(r.answerId, DefectError(r.defect));
  }

  /**
   Two-ended correlation. Under every interleaving of callers, loops, timeouts and closes at both
   ends, an answered Call was told exactly what the peer's handler produced for its own id,
   action and payload, although both ends use the same id numbers.
   */
  lemma EndToEndCorrelation(run: seq<Step>, i: nat)
    requires PairRuns(JOINED, run)
    ensures var p := PairAfter(JOINED, run);
            && (i < |p.a.callers| && Decided(p.a.callers[i].phase) && p.a.callers[i].phase.outcome.Answered? ==>
                  Explained(p.a, i, p.b))
            && (i < |p.b.callers| && Decided(p.b.callers[i].phase) && p.b.callers[i].phase.outcome.Answered? ==>
                  Explained(p.b, i, p.a))
  {
    PairAlways(JOINED, run);
    var p := PairAfter(JOINED, run);
    if i < |p.a.callers| && Decided(p.a.callers[i].phase) && p.a.callers[i].phase.outcome.Answered? {
      AnswerExplained(p.a, p.b, i);
    }
    if i < |p.b.callers| && Decided(p.b.callers[i].phase) && p.b.callers[i].phase.outcome.Answered? {
      AnswerExplained(p.b, p.a, i);
    }
  }

  lemma ServedOnce(caller: State, peer: State, i: nat, g: nat, h: nat)
    requires EndOk(caller) && EndOk(peer) && Wired(caller, peer)
    requires ServedBy(caller, i, peer, g) && ServedBy(caller, i, peer, h)
    ensures g == h
  {
    IdsNonEmpty(caller);
    assert peer.handled[g] == peer.answers[g].call && peer.handled[h] == peer.answers[h].call;
    assert CallsIn(peer.received)[g] == peer.handled[g] && CallsIn(peer.received)[h] == peer.handled[h];
    var m := ReceivedIsGenuine(caller, peer, CallPosition(peer.received, g));
    var n := ReceivedIsGenuine(caller, peer, CallPosition(peer.received, h));
    CallIsFromCaller(caller, caller.queued[m]);
    CallIsFromCaller(caller, caller.queued[n]);
    IdInjective(caller.queued[m].origin.caller, i);
    IdInjective(caller.queued[n].origin.caller, i);
    assert m == n;
    if g < h {
      CallPositionsAscend(peer.received, g, h);
    } else if h < g {
      CallPositionsAscend(peer.received, h, g);
    }
  }

  /** The peer's handler runs at most once for a given Call, so the reply has one source. */
  lemma HandledAtMostOnce(run: seq<Step>, i: nat, g: nat, h: nat)
    requires PairRuns(JOINED, run)
    ensures var p := PairAfter(JOINED, run);
            && (ServedBy(p.a, i, p.b, g) && ServedBy(p.a, i, p.b, h) ==> g == h)
            && (ServedBy(p.b, i, p.a, g) && ServedBy(p.b, i, p.a, h) ==> g == h)
  {
    PairAlways(JOINED, run);
    var p := PairAfter(JOINED, run);
    if ServedBy(p.a, i, p.b, g) && ServedBy(p.a, i, p.b, h) { ServedOnce(p.a, p.b, i, g, h); }
    if ServedBy(p.b, i, p.a, g) && ServedBy(p.b, i, p.a, h) { ServedOnce(p.b, p.a, i, g, h); }
  }
}
