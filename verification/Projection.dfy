/**
 Every story of station and server together is a run of the session model. That a call is handled
 at most once and told its own answer is not assumed there but follows from the connections.
 */
module Projection {
  import opened Text
  import opened EndToEnd
  import Frame
  import Core
  import Rpc
  import RpcCalls
  import Duplex
  import Session
  import Sessions
  import V16

  type Pair = Duplex.Pair

  /** The server has answered call i of the station. */
  ghost predicate Served(p: Pair, i: nat) { exists h: nat :: Duplex.ServedBy(p.a, i, p.b, h) }

  /** The same calls, and perhaps more, and the same answers. */
  ghost predicate Steady(p: Pair, q: Pair) {
    && q.b.answers == p.b.answers && |p.a.callers| <= |q.a.callers|
    && forall i :: 0 <= i < |p.a.callers| ==>
         q.a.callers[i].action == p.a.callers[i].action && q.a.callers[i].payload == p.a.callers[i].payload
  }

  lemma SteadyServed(p: Pair, q: Pair, i: nat)
    requires Steady(p, q) && i < |p.a.callers|
    ensures forall h: nat :: Duplex.ServedBy(q.a, i, q.b, h) <==> Duplex.ServedBy(p.a, i, p.b, h)
    ensures Served(q, i) <==> Served(p, i)
  {
    forall h: nat ensures Duplex.ServedBy(q.a, i, q.b, h) <==> Duplex.ServedBy(p.a, i, p.b, h) {}
  }

  /** Steps of the connections alone answer nothing and begin no call for a transaction. */
  lemma PlainSteady(p: Pair, step: Duplex.Step)
    requires Plain(step) && Duplex.CanStep(p, step)
    ensures Steady(p, Duplex.DoStep(p, step))
    ensures var q := Duplex.DoStep(p, step);
            forall i :: |p.a.callers| <= i < |q.a.callers| ==>
                q.a.callers[i].action != START && q.a.callers[i].action != STOP
  {
    match step
    case A(act) => CallersKept(p.a, act);
    case B(act) =>
  }

  /** What is asked of a call never changes. */
  ghost predicate SameRequests(cs: seq<Rpc.Caller>, ds: seq<Rpc.Caller>) {
    && |cs| <= |ds|
    && forall i :: 0 <= i < |cs| ==> ds[i].action == cs[i].action && ds[i].payload == cs[i].payload
  }

  lemma CallersKept(s: Rpc.State, act: Rpc.Action)
    requires Rpc.Enabled(s, act)
    ensures SameRequests(s.callers, Rpc.Apply(s, act).callers)
    ensures !(act.OfCall? && act.c.Begin?) ==> |Rpc.Apply(s, act).callers| == |s.callers|
  {
    match act
    case OfCall(c) => OwnRequestKept(s, c);
    case OfReader(_) =>
    case OfHandler(_) =>
    case OfWriter(_) =>
  }

  lemma OwnRequestKept(s: Rpc.State, c: Rpc.CallAction)
    requires Rpc.CallEnabled(s, c)
    ensures SameRequests(s.callers, Rpc.ApplyCall(s, c).callers)
    ensures !c.Begin? ==> |Rpc.ApplyCall(s, c).callers| == |s.callers|
  {
    match c
    case Begin(_, _) =>
    case EncodeFails(_) =>
    case Register(_) =>
    case Submit(_) =>
    case GiveUp(_, _) =>
    case Collect(_) =>
    case Forget(_) =>
  }

  /** A call just begun has not been answered, whatever numbers the other end uses. */
  lemma CallingNew(p: Pair, action: string, payload: Json)
    requires Duplex.PairOk(p)
    ensures var q := Duplex.DoStep(p, Calling(action, payload));
            var n := |p.a.callers|;
            && Steady(p, q) && |q.a.callers| == n + 1
            && q.a.callers[n].action == action && q.a.callers[n].payload == Frame.Of(payload)
            && !Served(q, n)
  {
    var q := Duplex.DoStep(p, Calling(action, payload));
    var n := |p.a.callers|;
    if Served(q, n) {
      var h: nat :| Duplex.ServedBy(q.a, n, q.b, h);
      Duplex.IdsNonEmpty(p.a);
      var i := Duplex.AnsweredCallIsPeers(p.a, p.b, h);
      RpcCalls.IdInjective(i, n);
    }
  }

  /** From p to q the server answered call i, which it had not, and no other. */
  ghost predicate Answered(p: Pair, q: Pair, i: nat, call: Frame.Frame, answer: Rpc.Answer) {
    var n := |p.b.answers|;
    && q.a == p.a && q.b.answers == p.b.answers + [Rpc.Exchange(call, answer)]
    && Duplex.ServedBy(q.a, i, q.b, n) && !Served(p, i)
    && forall j: nat, h: nat {:trigger Duplex.ServedBy(q.a, j, q.b, h)} ::
         Duplex.ServedBy(q.a, j, q.b, h) <==> (if j == i then h == n else Duplex.ServedBy(p.a, j, p.b, h))
  }

  /** The CALL the server answers is a call of the station that it has not answered before. */
  lemma AnswersOneCall(p: Pair, answer: Rpc.Answer) returns (i: nat)
    requires Duplex.PairOk(p) && p.b.handler.Handling?
    ensures Answered(p, Duplex.DoStep(p, Answering(answer)), i, p.b.handler.call, answer)
  {
    var q := Duplex.DoStep(p, Answering(answer));
    var n := |p.b.answers|;
    Duplex.PairStep(p, Answering(answer));
    Duplex.IdsNonEmpty(q.a);
    i := Duplex.AnsweredCallIsPeers(q.a, q.b, n);
    forall j: nat, h: nat ensures Duplex.ServedBy(q.a, j, q.b, h)
        <==> (if j == i then h == n else Duplex.ServedBy(p.a, j, p.b, h)) {
      if Duplex.ServedBy(q.a, j, q.b, h) {
        if j == i { Duplex.ServedOnce(q.a, q.b, i, h, n); }
        if h == n { RpcCalls.IdInjective(i, j); }
      }
    }
    forall h: nat ensures !Duplex.ServedBy(p.a, i, p.b, h) { NotBefore(p, q, i, h); }
  }

  lemma NotBefore(p: Pair, q: Pair, i: nat, h: nat)
    requires q.a == p.a && p.b.answers <= q.b.answers && (Duplex.ServedBy(q.a, i, q.b, h) ==> h == |p.b.answers|)
    ensures !Duplex.ServedBy(p.a, i, p.b, h)
  {
  }

  // A story and a run that say the same.

  /** The connection carries this call of a goroutine. */
  ghost predicate Holds(p: Pair, i: nat, action: string, payload: Json) {
    i < |p.a.callers| && p.a.callers[i].action == action && p.a.callers[i].payload == Frame.Of(payload)
  }

  /** What a start has come to, once it is answered. */
  predicate Tells(phase: Session.Phase, answer: Rpc.Answer) {
    match phase
    case Over => answer.Failure?
    case Answered(tx, accepted) => answer == Rpc.Success(Frame.Of(StartReply(tx, accepted)))
    case _ => false
  }

  ghost predicate PhaseOk(p: Pair, r: Starting, phase: Session.Phase) {
    match r.place
    case Fresh => phase.Asked?
    case Called(i, stamp) =>
      && Holds(p, i, START, StartPayload(r, stamp))
      && (!Served(p, i) ==> phase.Asked?)
      && (forall h: nat :: Duplex.ServedBy(p.a, i, p.b, h) ==> Tells(phase, p.b.answers[h].answer))
    case Ended(i, stamp) =>
      && Holds(p, i, START, StartPayload(r, stamp))
      && (!Served(p, i) ==> phase.Abandoned?)
  }

  ghost predicate StartOk(p: Pair, r: Starting, a: Session.Attempt) {
    a == Session.Attempt(r.connector, r.tag, r.meterStart, a.phase) && PhaseOk(p, r, a.phase)
  }

  ghost predicate FateOk(p: Pair, r: Closing, fate: Session.Fate) {
    match r.place
    case Fresh => fate.Sent?
    case Called(i, stamp) =>
      Holds(p, i, STOP, StopPayload(r, stamp)) && fate == if Served(p, i) then Session.Arrived else Session.Sent
    case Ended(_, _) => false
  }

  ghost predicate StopOk(p: Pair, r: Closing, z: Session.Stop) {
    z == Session.Stop(r.connector, r.tx, r.meter, r.reason, z.fate) && FateOk(p, r, z.fate)
  }

  predicate IsAt(place: Place, i: nat) { !place.Fresh? && place.call == i }

  /** Each call for a transaction is that of one goroutine. */
  ghost predicate Owned(x: Whole) {
    && (forall i :: 0 <= i < |x.pair.a.callers| && x.pair.a.callers[i].action == START ==> StartOwner(x, i))
    && (forall i :: 0 <= i < |x.pair.a.callers| && x.pair.a.callers[i].action == STOP ==> StopOwner(x, i))
    && (forall k, l :: 0 <= k < l < |x.starts| && !x.starts[k].place.Fresh? ==>
          !IsAt(x.starts[l].place, x.starts[k].place.call))
    && (forall k, l :: 0 <= k < l < |x.stops| && !x.stops[k].place.Fresh? ==>
          !IsAt(x.stops[l].place, x.stops[k].place.call))
  }

  ghost predicate StartOwner(x: Whole, i: nat) { exists k :: 0 <= k < |x.starts| && IsAt(x.starts[k].place, i) }

  ghost predicate StopOwner(x: Whole, i: nat) { exists k :: 0 <= k < |x.stops| && IsAt(x.stops[k].place, i) }

  /** The parts the two models share, and what each goroutine is to the session model. */
  ghost predicate Same(x: Whole, s: Session.Joint) {
    && x.station == s.station && x.outlets == s.outlets && x.core == s.core
    && |x.starts| == |s.attempts| && |x.stops| == |s.stops|
    && (forall k :: 0 <= k < |x.starts| ==> StartOk(x.pair, x.starts[k], s.attempts[k]))
    && (forall j :: 0 <= j < |x.stops| ==> StopOk(x.pair, x.stops[j], s.stops[j]))
  }

  lemma StartSteady(p: Pair, q: Pair, r: Starting, a: Session.Attempt)
    requires Steady(p, q) && StartOk(p, r, a)
    ensures StartOk(q, r, a)
  {
    if !r.place.Fresh? { SteadyServed(p, q, r.place.call); }
  }

  lemma StopSteady(p: Pair, q: Pair, r: Closing, z: Session.Stop)
    requires Steady(p, q) && StopOk(p, r, z)
    ensures StopOk(q, r, z)
  {
    if !r.place.Fresh? { SteadyServed(p, q, r.place.call); }
  }

  /** The connections move on by themselves. */
  lemma WireSame(x: Whole, s: Session.Joint, step: Duplex.Step)
    requires Same(x, s) && Owned(x) && Plain(step) && Duplex.CanStep(x.pair, step)
    ensures var y := x.(pair := Duplex.DoStep(x.pair, step)); Same(y, s) && Owned(y)
  {
    var y := x.(pair := Duplex.DoStep(x.pair, step));
    PlainSteady(x.pair, step);
    SteadySame(x, y, s);
    SteadyOwned(x, y);
  }

  lemma SteadySame(x: Whole, y: Whole, s: Session.Joint)
    requires Same(x, s) && Steady(x.pair, y.pair) && y == x.(pair := y.pair)
    ensures Same(y, s)
  {
    forall k | 0 <= k < |x.starts| ensures StartOk(y.pair, y.starts[k], s.attempts[k]) {
      StartSteady(x.pair, y.pair, x.starts[k], s.attempts[k]);
    }
    forall j | 0 <= j < |x.stops| ensures StopOk(y.pair, y.stops[j], s.stops[j]) {
      StopSteady(x.pair, y.pair, x.stops[j], s.stops[j]);
    }
  }

  lemma SteadyOwned(x: Whole, y: Whole)
    requires Owned(x) && Steady(x.pair, y.pair) && y == x.(pair := y.pair)
    requires forall i :: |x.pair.a.callers| <= i < |y.pair.a.callers| ==>
               y.pair.a.callers[i].action != START && y.pair.a.callers[i].action != STOP
    ensures Owned(y)
  {
    forall i | 0 <= i < |y.pair.a.callers| && y.pair.a.callers[i].action == START ensures StartOwner(y, i) {
      assert StartOwner(x, i);
    }
    forall i | 0 <= i < |y.pair.a.callers| && y.pair.a.callers[i].action == STOP ensures StopOwner(y, i) {
      assert StopOwner(x, i);
    }
  }

  /** A goroutine makes its call. */
  lemma CallStartSame(g: Setting, x: Whole, s: Session.Joint, k: nat, stamp: string)
    requires Duplex.PairOk(x.pair) && Same(x, s) && Owned(x) && Can(g, x, CallStart(k, stamp))
    ensures Same(Do(g, x, CallStart(k, stamp)), s) && Owned(Do(g, x, CallStart(k, stamp)))
  {
    var y := Do(g, x, CallStart(k, stamp));
    CallingNew(x.pair, START, StartPayload(x.starts[k], stamp));
    NewStartSame(x, y, s, k, stamp);
    NewStartOwned(x, y, s, k);
  }

  lemma NewStartSame(x: Whole, y: Whole, s: Session.Joint, k: nat, stamp: string)
    requires Same(x, s) && k < |x.starts| && x.starts[k].place.Fresh? && Steady(x.pair, y.pair)
    requires var n := |x.pair.a.callers|;
             && y == x.(pair := y.pair, starts := x.starts[k := x.starts[k].(place := Called(n, stamp))])
             && Holds(y.pair, n, START, StartPayload(x.starts[k], stamp)) && !Served(y.pair, n)
    ensures Same(y, s)
  {
    forall l | 0 <= l < |y.starts| ensures StartOk(y.pair, y.starts[l], s.attempts[l]) {
      if l != k { StartSteady(x.pair, y.pair, x.starts[l], s.attempts[l]); }
    }
    forall j | 0 <= j < |y.stops| ensures StopOk(y.pair, y.stops[j], s.stops[j]) {
      StopSteady(x.pair, y.pair, x.stops[j], s.stops[j]);
    }
  }

  lemma NewStartOwned(x: Whole, y: Whole, s: Session.Joint, k: nat)
    requires Same(x, s) && Owned(x) && k < |x.starts| == |y.starts| && Steady(x.pair, y.pair)
    requires y == x.(pair := y.pair, starts := x.starts[k := y.starts[k]]) && x.starts[k].place.Fresh?
    requires |y.pair.a.callers| == |x.pair.a.callers| + 1 && IsAt(y.starts[k].place, |x.pair.a.callers|)
    requires y.pair.a.callers[|x.pair.a.callers|].action == START
    ensures Owned(y)
  {
    var n := |x.pair.a.callers|;
    forall l | 0 <= l < |x.starts| && l != k
      ensures !IsAt(y.starts[l].place, n) { assert StartOk(x.pair, x.starts[l], s.attempts[l]); }
    forall i | 0 <= i < |y.pair.a.callers| && y.pair.a.callers[i].action == START ensures StartOwner(y, i) {
      if i < n {
        assert StartOwner(x, i);
        var l :| 0 <= l < |x.starts| && IsAt(x.starts[l].place, i);
        assert IsAt(y.starts[l].place, i);
      }
    }
    forall i | 0 <= i < |y.pair.a.callers| && y.pair.a.callers[i].action == STOP ensures StopOwner(y, i) {
      assert StopOwner(x, i);
    }
  }

  lemma CallStopSame(g: Setting, x: Whole, s: Session.Joint, j: nat, stamp: string)
    requires Duplex.PairOk(x.pair) && Same(x, s) && Owned(x) && Can(g, x, CallStop(j, stamp))
    ensures Same(Do(g, x, CallStop(j, stamp)), s) && Owned(Do(g, x, CallStop(j, stamp)))
  {
    var y := Do(g, x, CallStop(j, stamp));
    CallingNew(x.pair, STOP, StopPayload(x.stops[j], stamp));
    NewStopSame(x, y, s, j, stamp);
    NewStopOwned(x, y, s, j);
  }

  lemma NewStopSame(x: Whole, y: Whole, s: Session.Joint, j: nat, stamp: string)
    requires Same(x, s) && j < |x.stops| && x.stops[j].place.Fresh? && Steady(x.pair, y.pair)
    requires var n := |x.pair.a.callers|;
             && y == x.(pair := y.pair, stops := x.stops[j := x.stops[j].(place := Called(n, stamp))])
             && Holds(y.pair, n, STOP, StopPayload(x.stops[j], stamp)) && !Served(y.pair, n)
    ensures Same(y, s)
  {
    forall k | 0 <= k < |y.starts| ensures StartOk(y.pair, y.starts[k], s.attempts[k]) {
      StartSteady(x.pair, y.pair, x.starts[k], s.attempts[k]);
    }
    forall l | 0 <= l < |y.stops| ensures StopOk(y.pair, y.stops[l], s.stops[l]) {
      if l != j { StopSteady(x.pair, y.pair, x.stops[l], s.stops[l]); }
    }
  }

  lemma NewStopOwned(x: Whole, y: Whole, s: Session.Joint, j: nat)
    requires Same(x, s) && Owned(x) && j < |x.stops| == |y.stops| && Steady(x.pair, y.pair)
    requires y == x.(pair := y.pair, stops := x.stops[j := y.stops[j]]) && x.stops[j].place.Fresh?
    requires |y.pair.a.callers| == |x.pair.a.callers| + 1 && IsAt(y.stops[j].place, |x.pair.a.callers|)
    requires y.pair.a.callers[|x.pair.a.callers|].action == STOP
    ensures Owned(y)
  {
    var n := |x.pair.a.callers|;
    forall l | 0 <= l < |x.stops| && l != j
      ensures !IsAt(y.stops[l].place, n) { assert StopOk(x.pair, x.stops[l], s.stops[l]); }
    forall i | 0 <= i < |y.pair.a.callers| && y.pair.a.callers[i].action == START ensures StartOwner(y, i) {
      assert StartOwner(x, i);
    }
    forall i | 0 <= i < |y.pair.a.callers| && y.pair.a.callers[i].action == STOP ensures StopOwner(y, i) {
      if i < n {
        assert StopOwner(x, i);
        var l :| 0 <= l < |x.stops| && IsAt(x.stops[l].place, i);
        assert IsAt(y.stops[l].place, i);
      }
    }
  }

  // The server answers.

  lemma StartElsewhere(p: Pair, q: Pair, i: nat, call: Frame.Frame, answer: Rpc.Answer, r: Starting, a: Session.Attempt)
    requires Answered(p, q, i, call, answer) && StartOk(p, r, a) && !IsAt(r.place, i)
    ensures StartOk(q, r, a)
  {
    if !r.place.Fresh? { OthersAsBefore(p, q, i, call, answer, r.place.call); }
  }

  lemma StopElsewhere(p: Pair, q: Pair, i: nat, call: Frame.Frame, answer: Rpc.Answer, r: Closing, z: Session.Stop)
    requires Answered(p, q, i, call, answer) && StopOk(p, r, z) && !IsAt(r.place, i)
    ensures StopOk(q, r, z)
  {
    if !r.place.Fresh? { OthersAsBefore(p, q, i, call, answer, r.place.call); }
  }

  lemma OthersAsBefore(p: Pair, q: Pair, i: nat, call: Frame.Frame, answer: Rpc.Answer, j: nat)
    requires Answered(p, q, i, call, answer) && j != i
    ensures Served(q, j) <==> Served(p, j)
    ensures forall h: nat :: Duplex.ServedBy(q.a, j, q.b, h) ==>
            Duplex.ServedBy(p.a, j, p.b, h) && q.b.answers[h] == p.b.answers[h]
  {
    forall h: nat ensures Duplex.ServedBy(q.a, j, q.b, h) <==> Duplex.ServedBy(p.a, j, p.b, h) {}
  }

  /** An answer to some other call of the station. */
  lemma ServeOther(x: Whole, y: Whole, s: Session.Joint, t: Session.Joint, i: nat, call: Frame.Frame,
      answer: Rpc.Answer)
    requires Same(x, s) && Owned(x) && Answered(x.pair, y.pair, i, call, answer)
    requires x.pair.a.callers[i].action != START && x.pair.a.callers[i].action != STOP
    requires y == x.(pair := y.pair, core := y.core) && t == s.(core := y.core)
    ensures Same(y, t) && Owned(y)
  {
    forall k | 0 <= k < |y.starts| ensures StartOk(y.pair, y.starts[k], t.attempts[k]) {
      StartElsewhere(x.pair, y.pair, i, call, answer, x.starts[k], s.attempts[k]);
    }
    forall j | 0 <= j < |y.stops| ensures StopOk(y.pair, y.stops[j], t.stops[j]) {
      StopElsewhere(x.pair, y.pair, i, call, answer, x.stops[j], s.stops[j]);
    }
    SameOwners(x, y);
  }

  lemma SameOwners(x: Whole, y: Whole)
    requires Owned(x) && y.pair.a == x.pair.a && |y.starts| == |x.starts| && |y.stops| == |x.stops|
    requires forall k, i: nat :: 0 <= k < |x.starts| ==> (IsAt(y.starts[k].place, i) <==> IsAt(x.starts[k].place, i))
    requires forall k :: 0 <= k < |x.starts| ==> y.starts[k].place.Fresh? == x.starts[k].place.Fresh?
    requires y.stops == x.stops
    ensures Owned(y)
  {
    forall i | 0 <= i < |y.pair.a.callers| && y.pair.a.callers[i].action == START ensures StartOwner(y, i) {
      assert StartOwner(x, i);
      var k :| 0 <= k < |x.starts| && IsAt(x.starts[k].place, i);
      assert IsAt(y.starts[k].place, i);
    }
    forall i | 0 <= i < |y.pair.a.callers| && y.pair.a.callers[i].action == STOP ensures StopOwner(y, i) {
      assert StopOwner(x, i);
    }
    forall k, l | 0 <= k < l < |y.starts| && !y.starts[k].place.Fresh?
        ensures !IsAt(y.starts[l].place, y.starts[k].place.call) {
      assert IsAt(y.starts[k].place, y.starts[k].place.call);
      assert IsAt(x.starts[k].place, y.starts[k].place.call);
    }
  }

  /** A start is answered: in the session model its attempt is handled. */
  lemma ServeStart(x: Whole, y: Whole, s: Session.Joint, t: Session.Joint, k: nat, call: Frame.Frame,
      answer: Rpc.Answer)
    requires Same(x, s) && Owned(x) && k < |x.starts| && !x.starts[k].place.Fresh?
    requires Answered(x.pair, y.pair, x.starts[k].place.call, call, answer)
    requires y == x.(pair := y.pair, core := y.core)
    requires |t.attempts| == |s.attempts|
             && t == s.(core := y.core, attempts := s.attempts[k := s.attempts[k].(phase := t.attempts[k].phase)])
    requires x.starts[k].place.Called? ==> Tells(t.attempts[k].phase, answer)
    ensures Same(y, t) && Owned(y)
  {
    var i := x.starts[k].place.call;
    assert StartOk(x.pair, x.starts[k], s.attempts[k]);
    assert Served(y.pair, i);
    forall l | 0 <= l < |y.starts| ensures StartOk(y.pair, y.starts[l], t.attempts[l]) {
      if l != k { StartElsewhere(x.pair, y.pair, i, call, answer, x.starts[l], s.attempts[l]); }
    }
    forall j | 0 <= j < |y.stops| ensures StopOk(y.pair, y.stops[j], t.stops[j]) {
      assert StopOk(x.pair, x.stops[j], s.stops[j]);
      StopElsewhere(x.pair, y.pair, i, call, answer, x.stops[j], s.stops[j]);
    }
    SameOwners(x, y);
  }

  lemma ServeStop(x: Whole, y: Whole, s: Session.Joint, t: Session.Joint, j: nat, call: Frame.Frame, answer: Rpc.Answer)
    requires Same(x, s) && Owned(x) && j < |x.stops| && !x.stops[j].place.Fresh?
    requires Answered(x.pair, y.pair, x.stops[j].place.call, call, answer)
    requires y == x.(pair := y.pair, core := y.core)
    requires t == s.(core := y.core, stops := s.stops[j := s.stops[j].(fate := Session.Arrived)])
    ensures Same(y, t) && Owned(y)
  {
    var i := x.stops[j].place.call;
    assert StopOk(x.pair, x.stops[j], s.stops[j]);
    assert Served(y.pair, i);
    forall k | 0 <= k < |y.starts| ensures StartOk(y.pair, y.starts[k], t.attempts[k]) {
      assert StartOk(x.pair, x.starts[k], s.attempts[k]);
      StartElsewhere(x.pair, y.pair, i, call, answer, x.starts[k], s.attempts[k]);
    }
    forall l | 0 <= l < |y.stops| ensures StopOk(y.pair, y.stops[l], t.stops[l]) {
      if l != j { StopElsewhere(x.pair, y.pair, i, call, answer, x.stops[l], s.stops[l]); }
    }
    SameOwners(x, y);
  }

  /** Which step of the session model a served CALL is, if any. */
  lemma ServeProjects(g: Setting, x: Whole, run: Session.Run, now: Core.Time, other: Choice) returns (next: Session.Run)
    requires Duplex.PairOk(x.pair) && Session.Legal(g.w, run) && Same(x, Session.At(g.w, run)) && Owned(x)
    requires Can(g, x, Serve(now, other))
    ensures Session.Legal(g.w, next)
    ensures var y := Do(g, x, Serve(now, other)); Same(y, Session.At(g.w, next)) && Owned(y)
  {
    var y := Do(g, x, Serve(now, other));
    var call := x.pair.b.handler.call;
    var answer := Serving(g, x.core, call, now, other).1;
    var i := AnswersOneCall(x.pair, answer);
    next := ServedStep(g, x, y, run, now, other, i);
  }

  lemma ServedStep(g: Setting, x: Whole, y: Whole, run: Session.Run, now: Core.Time, other: Choice, i: nat)
      returns (next: Session.Run)
    requires Session.Legal(g.w, run) && Same(x, Session.At(g.w, run)) && Owned(x)
    requires x.pair.b.handler.Handling? && x.pair.b.handler.call.Call? && now != Core.ZERO_TIME && Allowed(g.w, other)
    requires var call := x.pair.b.handler.call;
             var (core, answer) := Serving(g, x.core, call, now, other);
             Answered(x.pair, y.pair, i, call, answer) && y == x.(pair := y.pair, core := core)
    ensures Session.Legal(g.w, next) && Same(y, Session.At(g.w, next)) && Owned(y)
  {
    var call := x.pair.b.handler.call;
    var (core, answer) := Serving(g, x.core, call, now, other);
    var s := Session.At(g.w, run);
    if call.action == START {
      assert StartOwner(x, i);
      var k :| 0 <= k < |x.starts| && IsAt(x.starts[k].place, i);
      next := StartServed(g, x, y, run, now, other, k);
    } else if call.action == STOP {
      assert StopOwner(x, i);
      var j :| 0 <= j < |x.stops| && IsAt(x.stops[j].place, i);
      next := StopServed(g, x, y, run, now, other, j);
    } else {
      next := if other.op.Some? then Session.Next(run, Session.Elsewhere(other.op.value)) else run;
      ServeOther(x, y, s, Session.At(g.w, next), i, call, answer);
    }
  }

  lemma StartServed(g: Setting, x: Whole, y: Whole, run: Session.Run, now: Core.Time, other: Choice, k: nat)
      returns (next: Session.Run)
    requires Session.Legal(g.w, run) && Same(x, Session.At(g.w, run)) && Owned(x)
    requires k < |x.starts| && !x.starts[k].place.Fresh?
    requires x.pair.b.handler.Handling? && x.pair.b.handler.call.Call? && x.pair.b.handler.call.action == START
    requires var call := x.pair.b.handler.call;
             var (core, answer) := Serving(g, x.core, call, now, other);
             Answered(x.pair, y.pair, x.starts[k].place.call, call, answer) && y == x.(pair := y.pair, core := core)
    ensures Session.Legal(g.w, next) && Same(y, Session.At(g.w, next)) && Owned(y)
  {
    var call := x.pair.b.handler.call;
    var (core, answer) := Serving(g, x.core, call, now, other);
    var s := Session.At(g.w, run);
    var r := x.starts[k];
    assert StartOk(x.pair, r, s.attempts[k]);
    assert call.payload == StartPayload(r, r.place.stamp);
    StartRead(g.time, r, r.place.stamp);
    next := Session.Next(run, Session.HandleStart(k, g.time(r.place.stamp), now));
    ServeStart(x, y, s, Session.At(g.w, next), k, call, answer);
  }

  lemma StopServed(g: Setting, x: Whole, y: Whole, run: Session.Run, now: Core.Time, other: Choice, j: nat)
      returns (next: Session.Run)
    requires Session.Legal(g.w, run) && Same(x, Session.At(g.w, run)) && Owned(x)
    requires j < |x.stops| && !x.stops[j].place.Fresh? && now != Core.ZERO_TIME
    requires x.pair.b.handler.Handling? && x.pair.b.handler.call.Call? && x.pair.b.handler.call.action == STOP
    requires var call := x.pair.b.handler.call;
             var (core, answer) := Serving(g, x.core, call, now, other);
             Answered(x.pair, y.pair, x.stops[j].place.call, call, answer) && y == x.(pair := y.pair, core := core)
    ensures Session.Legal(g.w, next) && Same(y, Session.At(g.w, next)) && Owned(y)
  {
    var call := x.pair.b.handler.call;
    var (core, answer) := Serving(g, x.core, call, now, other);
    var s := Session.At(g.w, run);
    var r := x.stops[j];
    assert StopOk(x.pair, r, s.stops[j]);
    assert call.payload == StopPayload(r, r.place.stamp);
    StopRead(g.time, r, r.place.stamp);
    next := Session.Next(run, Session.HandleStop(j, g.time(r.place.stamp), now));
    ServeStop(x, y, s, Session.At(g.w, next), j, call, answer);
  }

  // The station hears the answer, or gives up.

  /** An answered call was answered by the server, with just that. */
  lemma ToldItsAnswer(p: Pair, i: nat) returns (h: nat)
    requires Duplex.PairOk(p) && i < |p.a.callers| && p.a.callers[i].phase.Finished?
             && p.a.callers[i].phase.outcome.Answered?
    requires p.a.callers[i].action != ""
    ensures Duplex.ServedBy(p.a, i, p.b, h)
            && p.a.callers[i].phase.outcome.reply == Duplex.ReplyTo(p.b.answers[h].answer)
  {
    Duplex.AnswerExplained(p.a, p.b, i);
    h :| Duplex.ServedBy(p.a, i, p.b, h) && p.a.callers[i].phase.outcome.reply == Duplex.ReplyTo(p.b.answers[h].answer);
  }

  /** What resuming is to the session model: the answer arrives, is lost, or was a refusal. */
  function ResumeStep(run: Session.Run, k: nat, phase: Session.Phase, outcome: Rpc.Outcome): Session.Run {
    if phase.Over? then run
    else if outcome.Answered? then Session.Next(run, Session.FinishStart(k))
    else Session.Next(run, Session.LoseStart(k))
  }

  lemma ResumeProjects(g: Setting, x: Whole, run: Session.Run, k: nat) returns (next: Session.Run)
    requires Duplex.PairOk(x.pair) && Session.Legal(g.w, run) && Same(x, Session.At(g.w, run)) && Owned(x)
    requires Can(g, x, Resume(k))
    ensures Session.Legal(g.w, next) && Same(Resumed(x, k), Session.At(g.w, next)) && Owned(Resumed(x, k))
  {
    var i := x.starts[k].place.call;
    var outcome := x.pair.a.callers[i].phase.outcome;
    assert StartOk(x.pair, x.starts[k], Session.At(g.w, run).attempts[k]);
    var h := 0;
    if outcome.Answered? {
      h := ToldItsAnswer(x.pair, i);
    }
    next := Resumes(g, x, run, k, h);
  }

  lemma Resumes(g: Setting, x: Whole, run: Session.Run, k: nat, h: nat) returns (next: Session.Run)
    requires Session.Legal(g.w, run) && Same(x, Session.At(g.w, run)) && Owned(x) && Can(g, x, Resume(k))
    requires var i := x.starts[k].place.call;
             var outcome := x.pair.a.callers[i].phase.outcome;
             outcome.Answered? ==>
                 Duplex.ServedBy(x.pair.a, i, x.pair.b, h)
                 && outcome.reply == Duplex.ReplyTo(x.pair.b.answers[h].answer)
    ensures Session.Legal(g.w, next) && Same(Resumed(x, k), Session.At(g.w, next)) && Owned(Resumed(x, k))
  {
    var s := Session.At(g.w, run);
    var i := x.starts[k].place.call;
    var outcome := x.pair.a.callers[i].phase.outcome;
    var phase := s.attempts[k].phase;
    assert StartOk(x.pair, x.starts[k], s.attempts[k]);
    if outcome.Answered? { AcceptedAsTold(phase, x.pair.b.answers[h].answer); }
    next := ResumeStep(run, k, phase, outcome);
    ResumedSame(x, Resumed(x, k), s, Session.At(g.w, next), k);
  }

  /** The station reads from the reply just what the answer was. */
  lemma AcceptedAsTold(phase: Session.Phase, answer: Rpc.Answer)
    requires Tells(phase, answer)
    ensures Accepted(Rpc.Answered(Duplex.ReplyTo(answer))) == if phase.Answered? && phase.accepted then Some(phase.tx)
            else None
  {
    if phase.Answered? { ReplyRead(phase.tx, phase.accepted); }
  }

  lemma ResumedSame(x: Whole, y: Whole, s: Session.Joint, t: Session.Joint, k: nat)
    requires Same(x, s) && Owned(x) && k < |x.starts| && x.starts[k].place.Called?
    requires var r := x.starts[k];
             y == x.(outlets := y.outlets, starts := x.starts[k := r.(place := Ended(r.place.call, r.place.stamp))])
    requires |t.attempts| == |s.attempts| && t.attempts == s.attempts[k := s.attempts[k].(phase := t.attempts[k].phase)]
    requires t.station == s.station && t.outlets == y.outlets && t.core == s.core && t.stops == s.stops
    requires !Served(x.pair, x.starts[k].place.call) ==> t.attempts[k].phase.Abandoned?
    ensures Same(y, t) && Owned(y)
  {
    assert StartOk(x.pair, x.starts[k], s.attempts[k]);
    SameOwners(x, y);
  }

  // Everything else.

  /** The moves that are steps of the session model under the same name. */
  function SameStep(m: Move): Option<Session.Step> {
    match m
    case SetStatus(c, status) => Some(Session.SetStatus(c, status))
    case Reserve(c, id) => Some(Session.Reserve(c, id))
    case Cancel(c) => Some(Session.Cancel(c))
    case BeginStart(c, tag) => Some(Session.BeginStart(c, tag))
    case BeginStop(c, reason) => Some(Session.BeginStop(c, reason))
    case Elsewhere(op) => Some(Session.Elsewhere(op))
    case _ => None
  }

  lemma LocalSame(g: Setting, x: Whole, s: Session.Joint, m: Move)
    requires Same(x, s) && Can(g, x, m) && SameStep(m).Some?
    ensures Session.Enabled(g.w, s, SameStep(m).value)
    ensures Same(Do(g, x, m), Session.Advance(g.w, s, SameStep(m).value))
  {
    match m
    case SetStatus(_, _) =>
    case Reserve(_, _) =>
    case Cancel(_) =>
    case BeginStart(_, _) =>
    case BeginStop(_, _) =>
    case Elsewhere(_) =>
  }

  lemma LocalOwned(g: Setting, x: Whole, m: Move)
    requires Owned(x) && Can(g, x, m) && SameStep(m).Some?
    ensures Owned(Do(g, x, m))
  {
    var y := Do(g, x, m);
    forall i | 0 <= i < |y.pair.a.callers| && y.pair.a.callers[i].action == START ensures StartOwner(y, i) {
      assert StartOwner(x, i);
      var k :| 0 <= k < |x.starts| && IsAt(x.starts[k].place, i);
      assert IsAt(y.starts[k].place, i);
    }
    forall i | 0 <= i < |y.pair.a.callers| && y.pair.a.callers[i].action == STOP ensures StopOwner(y, i) {
      assert StopOwner(x, i);
      var k :| 0 <= k < |x.stops| && IsAt(x.stops[k].place, i);
      assert IsAt(y.stops[k].place, i);
    }
  }

  lemma LocalProjects(g: Setting, x: Whole, run: Session.Run, m: Move) returns (next: Session.Run)
    requires Session.Legal(g.w, run) && Same(x, Session.At(g.w, run)) && Owned(x) && Can(g, x, m) && SameStep(m).Some?
    ensures Session.Legal(g.w, next) && Same(Do(g, x, m), Session.At(g.w, next)) && Owned(Do(g, x, m))
  {
    LocalSame(g, x, Session.At(g.w, run), m);
    LocalOwned(g, x, m);
    next := Session.Next(run, SameStep(m).value);
  }

  /** Moves the session model does not see: calls set out and frames travel. */
  lemma UnseenSame(g: Setting, x: Whole, s: Session.Joint, m: Move)
    requires Duplex.PairOk(x.pair) && Same(x, s) && Owned(x) && Can(g, x, m) && (m.CallStart? || m.CallStop? || m.Wire?)
    ensures Same(Do(g, x, m), s) && Owned(Do(g, x, m))
  {
    match m
    case CallStart(k, stamp) => CallStartSame(g, x, s, k, stamp);
    case CallStop(j, stamp) => CallStopSame(g, x, s, j, stamp);
    case Wire(step) => WireSame(x, s, step);
  }

  lemma MoveProjects(g: Setting, x: Whole, run: Session.Run, m: Move) returns (next: Session.Run)
    requires Duplex.PairOk(x.pair) && Session.Legal(g.w, run) && Same(x, Session.At(g.w, run)) && Owned(x)
             && Can(g, x, m)
    ensures Session.Legal(g.w, next) && Same(Do(g, x, m), Session.At(g.w, next)) && Owned(Do(g, x, m))
  {
    if SameStep(m).Some? {
      next := LocalProjects(g, x, run, m);
    } else if m.Serve? {
      next := ServeProjects(g, x, run, m.now, m.other);
    } else if m.Resume? {
      next := ResumeProjects(g, x, run, m.k);
    } else {
      UnseenSame(g, x, Session.At(g.w, run), m);
      next := run;
    }
  }

  lemma {:induction false} PairHolds(g: Setting, story: Story)
    requires Possible(g, story)
    ensures Duplex.PairOk(Now(g, story).pair)
  {
    if story.More? {
      PairHolds(g, story.before);
      PairMoves(g, Now(g, story.before), story.move);
    }
  }

  /** The step of the connections a move makes, if it makes one. */
  function PairPart(g: Setting, x: Whole, m: Move): Option<Duplex.Step>
    requires Can(g, x, m)
  {
    match m
    case CallStart(k, stamp) => Some(Calling(START, StartPayload(x.starts[k], stamp)))
    case CallStop(j, stamp) => Some(Calling(STOP, StopPayload(x.stops[j], stamp)))
    case Wire(step) => Some(step)
    case Serve(now, other) => Some(Answering(Serving(g, x.core, x.pair.b.handler.call, now, other).1))
    case _ => None
  }

  lemma PairFollows(g: Setting, x: Whole, m: Move)
    requires Can(g, x, m)
    ensures PairPart(g, x, m).Some? ==> Duplex.CanStep(x.pair, PairPart(g, x, m).value)
    ensures Do(g, x, m).pair == if PairPart(g, x, m).Some? then Duplex.DoStep(x.pair, PairPart(g, x, m).value)
            else x.pair
  {
  }

  lemma PairMoves(g: Setting, x: Whole, m: Move)
    requires Duplex.PairOk(x.pair) && Can(g, x, m)
    ensures Duplex.PairOk(Do(g, x, m).pair)
  {
    PairFollows(g, x, m);
    if PairPart(g, x, m).Some? { Duplex.PairStep(x.pair, PairPart(g, x, m).value); }
  }

  /**
   Projection. Whatever station, server and network do together, there is a run of the session
   model with the same outlets, the same domain state and the same starts and stops; so all that
   holds of every run there holds of every story here.
   */
  lemma {:induction false} StoryIsRun(g: Setting, story: Story) returns (run: Session.Run)
    requires Possible(g, story)
    ensures Session.Legal(g.w, run) && Same(Now(g, story), Session.At(g.w, run)) && Owned(Now(g, story))
  {
    if story.Opening? {
      run := Session.Boot;
    } else {
      run := StoryIsRun(g, story.before);
      PairHolds(g, story.before);
      run := MoveProjects(g, Now(g, story.before), run, story.move);
    }
  }

  /** The core's record of the station's transactions. */
  ghost function Ledger(g: Setting, x: Whole): map<int, Core.Transaction> {
    Core.Find(Core.After(g.w.cfg, x.core), g.w.id).transactions
  }

  lemma StopData(x: Whole, s: Session.Joint, j: nat)
    requires Same(x, s) && j < |x.stops|
    ensures var r := x.stops[j]; s.stops[j] == Session.Stop(r.connector, r.tx, r.meter, r.reason, s.stops[j].fate)
  {
    assert StopOk(x.pair, x.stops[j], s.stops[j]);
  }

  /**
   Sessions, end to end. In every story no two stops are for the same transaction, and every
   transaction the server has closed for the station was closed by a stop from the connector it
   started at, with the meter moved on by at least one session's energy.
   */
  lemma {:induction false} SessionsEndToEnd(g: Setting, story: Story)
    requires Possible(g, story)
    ensures var x := Now(g, story);
            && (forall i, j :: 0 <= i < j < |x.stops| ==> x.stops[i].tx != x.stops[j].tx)
            && (forall id :: id in Ledger(g, x) && !Ledger(g, x)[id].Active() ==> ClosedByStop(x, id, Ledger(g, x)[id]))
  {
    var x := Now(g, story);
    var run := StoryIsRun(g, story);
    StopsApart(g, x, run);
    forall id | id in Ledger(g, x) && !Ledger(g, x)[id].Active() ensures ClosedByStop(x, id, Ledger(g, x)[id]) {
      ClosedInStory(g, x, run, id);
    }
  }

  /** One of the station's stops closed the transaction, and energy was delivered. */
  ghost predicate ClosedByStop(x: Whole, id: int, t: Core.Transaction) {
    && t.meterStop >= t.meterStart + Session.SESSION_ENERGY
    && exists j :: 0 <= j < |x.stops| && x.stops[j] == Closing(t.connector, id, t.meterStop, t.reason, x.stops[j].place)
  }

  lemma StopsApart(g: Setting, x: Whole, run: Session.Run)
    requires Session.Legal(g.w, run) && Same(x, Session.At(g.w, run))
    ensures forall i, j :: 0 <= i < j < |x.stops| ==> x.stops[i].tx != x.stops[j].tx
  {
    var s := Session.At(g.w, run);
    Sessions.OneStopPerSession(g.w, run);
    forall j | 0 <= j < |x.stops| ensures x.stops[j].tx == s.stops[j].tx { StopData(x, s, j); }
  }

  lemma ClosedInStory(g: Setting, x: Whole, run: Session.Run, id: int)
    requires Session.Legal(g.w, run) && Same(x, Session.At(g.w, run)) && id in Ledger(g, x)
             && !Ledger(g, x)[id].Active()
    ensures ClosedByStop(x, id, Ledger(g, x)[id])
  {
    var s := Session.At(g.w, run);
    Sessions.ClosedSessionsDeliver(g.w, run, id);
    var t := Ledger(g, x)[id];
    var j :| 0 <= j < |s.stops| && s.stops[j] == Session.Stop(t.connector, id, t.meterStop, t.reason, Session.Arrived);
    StopData(x, s, j);
    assert x.stops[j] == Closing(t.connector, id, t.meterStop, t.reason, x.stops[j].place);
  }

  /** Each StopTransaction the server serves finds its transaction running and closes it. */
  lemma {:induction false} ServedStopCloses(g: Setting, story: Story, now: Core.Time, other: Choice)
    requires Possible(g, More(story, Serve(now, other))) && Now(g, story).pair.b.handler.call.action == STOP
    ensures ClosesItsOwn(g, Now(g, story), Now(g, More(story, Serve(now, other))))
  {
    var x := Now(g, story);
    var run := StoryIsRun(g, story);
    PairHolds(g, story);
    var j, stamp := ServedStop(g, x, Session.At(g.w, run), now, other);
    StopClosesInRun(g, x, run, now, other, j, stamp);
  }

  /** The stop being handled at x is for a transaction running there, and at y it is closed with it. */
  ghost predicate ClosesItsOwn(g: Setting, x: Whole, y: Whole)
    requires x.pair.b.handler.Handling? && x.pair.b.handler.call.Call?
  {
    var m := DecodeStop(g.time, x.pair.b.handler.call.payload);
    && m.StopTransaction?
    && m.transactionId in Ledger(g, x) && Ledger(g, x)[m.transactionId].Active()
    && m.transactionId in Ledger(g, y) && !Ledger(g, y)[m.transactionId].Active()
    && Ledger(g, y)[m.transactionId].meterStop == m.meterStop && Ledger(g, y)[m.transactionId].reason == m.reason
  }

  lemma StopClosesInRun(
    g: Setting, x: Whole, run: Session.Run, now: Core.Time, other: Choice, j: nat, stamp: string)
    requires Session.Legal(g.w, run) && x.core == Session.At(g.w, run).core && Can(g, x, Serve(now, other))
    requires j < |x.stops| && x.pair.b.handler.call.action == STOP
             && x.pair.b.handler.call.payload == StopPayload(x.stops[j], stamp)
    requires var r := x.stops[j];
             var s := Session.At(g.w, run);
             j < |s.stops| && s.stops[j] == Session.Stop(r.connector, r.tx, r.meter, r.reason, Session.Sent)
    ensures ClosesItsOwn(g, x, Do(g, x, Serve(now, other)))
  {
    StopServes(g, x.core, x.pair.b.handler.call, x.stops[j], stamp, now, other);
    Sessions.EveryStopCloses(g.w, run, j, g.time(stamp), now);
    var y := Do(g, x, Serve(now, other));
    assert y.core == Session.At(g.w, Session.Next(run, Session.HandleStop(j, g.time(stamp), now))).core;
  }

  /** Serving a stop's CALL is the one operation the session model has for it. */
  lemma StopServes(g: Setting, h: Core.History, call: Frame.Frame, r: Closing, stamp: string, now: Core.Time,
      other: Choice)
    requires call.Call? && call.action == STOP && call.payload == StopPayload(r, stamp)
    ensures DecodeStop(g.time, call.payload) == V16.StopTransaction(r.tx, r.meter, g.time(stamp), r.reason)
    ensures Serving(g, h, call, now, other).0
            == Core.Then(h, Session.StopRequest(g.w, Session.Stop(r.connector, r.tx, r.meter, r.reason, Session.Sent),
             g.time(stamp), now))
  {
    StopRead(g.time, r, stamp);
  }

  lemma ServedStop(g: Setting, x: Whole, s: Session.Joint, now: Core.Time, other: Choice)
      returns (j: nat, stamp: string)
    requires Duplex.PairOk(x.pair) && Same(x, s) && Owned(x) && Can(g, x, Serve(now, other))
             && x.pair.b.handler.call.action == STOP
    ensures j < |x.stops| && x.pair.b.handler.call.payload == StopPayload(x.stops[j], stamp)
    ensures s.stops[j] == Session.Stop(x.stops[j].connector, x.stops[j].tx, x.stops[j].meter, x.stops[j].reason,
            Session.Sent)
  {
    var i := AnswersOneCall(x.pair, other.answer);
    assert StopOwner(x, i);
    j :| 0 <= j < |x.stops| && IsAt(x.stops[j].place, i);
    assert StopOk(x.pair, x.stops[j], s.stops[j]);
    stamp := x.stops[j].place.stamp;
  }
}
