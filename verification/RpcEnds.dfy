/**
 How the goroutines of a connection end, over every run: none leaves an open connection behind,
 a call is only told of a close that happened, and only one that was sent can time out.
 */
module RpcEnds {
  import opened Rpc

  /** No loop has ended, no frame was lost and no CALL given up unless the connection is closed. */
  ghost predicate LoopsOk(s: State) {
    && (s.writer.Ended? || s.handler.Stopped? || s.reader.Gone? || s.lost != [] || s.abandoned != [] ==> s.done)
    && |s.abandoned| <= 1
    && (s.abandoned != [] ==> s.reader.Leaving? || s.reader.Gone?)
  }

  /** The request of call i was put on the send queue. */
  ghost predicate Sent(s: State, i: nat) { exists m :: 0 <= m < |s.queued| && s.queued[m].origin == FromCaller(i) }

  predicate Says(p: Phase, o: Outcome) { Decided(p) && p.outcome == o }

  ghost predicate OutcomeOk(s: State, i: nat)
    requires i < |s.callers|
  {
    var p := s.callers[i].phase;
    && (Says(p, ConnClosed) ==> s.done)
    && (p.Waiting? || Says(p, TimedOut) || (Decided(p) && p.outcome.Answered?) ==> Sent(s, i))
    && (Decided(p) && p.outcome.NotEncoded? <==> !Encodable(s.callers[i]) && !p.Assigned?)
  }

  lemma LoopsStep(s: State, a: Action)
    requires LoopsOk(s) && Enabled(s, a)
    ensures LoopsOk(Apply(s, a))
  {
    match a
    case OfCall(_) =>
    case OfReader(_) =>
    case OfHandler(_) =>
    case OfWriter(_) =>
  }

  lemma SentKept(s: State, t: State, i: nat)
    requires s.queued <= t.queued && Sent(s, i)
    ensures Sent(t, i)
  {
    var m :| 0 <= m < |s.queued| && s.queued[m].origin == FromCaller(i);
    assert t.queued[m].origin == FromCaller(i);
  }

  lemma OutcomeByCall(s: State, c: CallAction, i: nat)
    requires CallEnabled(s, c) && i < |ApplyCall(s, c).callers| && (i < |s.callers| ==> OutcomeOk(s, i))
    ensures OutcomeOk(ApplyCall(s, c), i)
  {
    var t := ApplyCall(s, c);
    if i < |s.callers| && Sent(s, i) { SentKept(s, t, i); }
    if c.Submit? && c.i == i { assert t.queued[|s.queued|].origin == FromCaller(i); }
  }

  lemma OutcomeByOthers(s: State, a: Action, i: nat)
    requires Enabled(s, a) && !a.OfCall? && i < |Apply(s, a).callers|
    requires i < |s.callers| && OutcomeOk(s, i)
    ensures OutcomeOk(Apply(s, a), i)
  {
    var t := Apply(s, a);
    assert s.queued <= t.queued && (s.done ==> t.done);
    assert t.callers[i].phase == s.callers[i].phase && t.callers[i].payload == s.callers[i].payload;
    if Sent(s, i) { SentKept(s, t, i); }
  }

  lemma {:induction false} EndsAlways(s: State, run: seq<Action>)
    requires LoopsOk(s) && (forall i :: 0 <= i < |s.callers| ==> OutcomeOk(s, i)) && Runs(s, run)
    ensures var t := After(s, run); LoopsOk(t) && forall i :: 0 <= i < |t.callers| ==> OutcomeOk(t, i)
    decreases |run|
  {
    if run != [] {
      var t := Apply(s, run[0]);
      LoopsStep(s, run[0]);
      forall i | 0 <= i < |t.callers| ensures OutcomeOk(t, i) {
        if run[0].OfCall? { OutcomeByCall(s, run[0].c, i); } else { OutcomeByOthers(s, run[0], i); }
      }
      EndsAlways(t, run[1..]);
    }
  }

  /**
   Ends, in every reachable state. A writer, handler or reader that has ended, a frame that could
   not be written and a CALL that was not handed on each mean that the connection is closed, and
   after the last the reader reads no more. A call says "closed" only if that is so, times out or
   is answered only if it was sent, and fails to encode exactly if its payload has no encoding.
   */
  lemma EndsClosed(run: seq<Action>, i: nat)
    requires Runs(INITIAL, run)
    ensures var s := After(INITIAL, run);
            && (s.writer.Ended? || s.handler.Stopped? || s.reader.Gone? || s.lost != [] || s.abandoned != [] ==> s.done)
            && |s.abandoned| <= 1 && (s.abandoned != [] ==> s.reader.Leaving? || s.reader.Gone?)
            && (i < |s.callers| ==> OutcomeOk(s, i))
  {
    EndsAlways(INITIAL, run);
  }
}
