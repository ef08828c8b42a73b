/**
 Shutdown. Once a connection is closed nobody waits on anybody: every caller and every loop that
 has not finished has a step of its own to take, and each step uses up a finite amount of work.
 */
module RpcDrain {
  import opened Frame
  import opened Rpc
  import opened RpcCalls

  function CallerWork(p: Phase): nat {
    match p
    case Assigned => 6
    case Registered => 5
    case Waiting => 2
    case Returning(_) => 1
    case Finished(_) => 0
  }

  function CallersWork(cs: seq<Caller>): nat {
    if cs == [] then 0 else CallersWork(cs[..|cs| - 1]) + CallerWork(cs[|cs| - 1].phase)
  }

  function ReaderWork(r: Reader): nat {
    match r
    case Reading => 2
    case LookingUp(_, _) => 4
    case Delivering(_, _) => 3
    case Queueing(_) => 8
    case Refusing(_) => 5
    case Leaving => 1
    case Gone => 0
  }

  function HandlerWork(h: Handler): nat {
    match h
    case Idle => 1
    case Handling(_) => 5
    case Responding(_) => 4
    case Stopped => 0
  }

  function WriterWork(w: Writer): nat {
    match w
    case Ready => 1
    case Writing(_) => 2
    case Ended => 0
  }

  /** Work left: queue contents, calls in flight and loop positions. */
  function Work(s: State): nat {
    7 * |s.inbox| + ReaderWork(s.reader) + 5 * |s.calls| + HandlerWork(s.handler)
    + 2 * |s.send| + WriterWork(s.writer) + CallersWork(s.callers)
  }

  lemma {:induction false} CallersWorkUpdate(cs: seq<Caller>, i: nat, c: Caller)
    requires i < |cs|
    ensures CallersWork(cs[i := c]) == CallersWork(cs) - CallerWork(cs[i].phase) + CallerWork(c.phase)
  {
    var n := |cs| - 1;
    if i < n {
      assert cs[i := c][..n] == cs[..n][i := c];
      CallersWorkUpdate(cs[..n], i, c);
    } else {
      assert cs[i := c][..n] == cs[..n];
    }
  }

  lemma CallDrains(s: State, a: CallAction)
    requires CallEnabled(s, a) && !a.Begin?
    ensures Work(ApplyCall(s, a)) < Work(s)
  {
    CallersWorkUpdate(s.callers, a.i, ApplyCall(s, a).callers[a.i]);
  }

  lemma ReadDrains(s: State, a: ReadAction)
    requires ReadEnabled(s, a) && s.done
    ensures Work(ApplyReader(s, a)) < Work(s)
  {
    if a.Deposit? {
      var t := ApplyReader(s, a);
      CallersWorkUpdate(s.callers, s.reader.caller, t.callers[s.reader.caller]);
      assert t.callers == s.callers[s.reader.caller := t.callers[s.reader.caller]];
    }
  }

  lemma HandleDrains(s: State, a: HandleAction)
    requires HandleEnabled(s, a)
    ensures Work(ApplyHandler(s, a)) < Work(s)
  {
  }

  lemma WriteDrains(s: State, a: WriteAction)
    requires WriteEnabled(s, a) && s.done
    ensures Work(ApplyWriter(s, a)) < Work(s)
  {
  }

  predicate Begins(a: Action) { a.OfCall? && a.c.Begin? }

  function BeginCount(run: seq<Action>): nat {
    if run == [] then 0 else (if Begins(run[0]) then 1 else 0) + BeginCount(run[1..])
  }

  /** Every step of a closed connection uses up work, except that a new call brings some along. */
  lemma StepDrains(s: State, a: Action)
    requires Enabled(s, a) && s.done
    ensures Apply(s, a).done
    ensures Begins(a) ==> Work(Apply(s, a)) == Work(s) + 6
    ensures !Begins(a) ==> Work(Apply(s, a)) < Work(s)
  {
    match a
    case OfCall(Begin(action, payload)) =>
      assert Apply(s, a).callers[..|s.callers|] == s.callers;
    case OfCall(c) => CallDrains(s, c);
    case OfReader(r) => ReadDrains(s, r);
    case OfHandler(h) => HandleDrains(s, h);
    case OfWriter(w) => WriteDrains(s, w);
  }

  /** However the steps interleave, a closed connection takes only so many of them. */
  lemma {:induction false} DrainBound(s: State, run: seq<Action>)
    requires s.done && Runs(s, run)
    ensures After(s, run).done
    ensures |run| + Work(After(s, run)) <= Work(s) + 7 * BeginCount(run)
    decreases |run|
  {
    if run != [] {
      StepDrains(s, run[0]);
      DrainBound(Apply(s, run[0]), run[1..]);
    }
  }

  // Each party's own way out of a closed connection.

  function CallerMove(s: State, i: nat): CallAction
    requires i < |s.callers|
  {
    match s.callers[i].phase
    case Assigned => if Encodable(s.callers[i]) then Register(i) else EncodeFails(i)
    case Returning(_) => Forget(i)
    case _ => GiveUp(i, ConnClosed)
  }

  function ReaderMove(s: State): ReadAction {
    match s.reader
    case LookingUp(_, _) => Lookup
    case Delivering(_, _) => Deposit
    case Queueing(_) => AbandonCall
    case Refusing(_) => DropRefusal
    case Reading => ReadFails
    case _ => Leave
  }

  function HandlerMove(s: State): HandleAction {
    match s.handler
    case Handling(_) => Answers(Success(Nil))
    case Responding(_) => DropResponse
    case _ => StopHandler
  }

  function WriterMove(s: State): WriteAction {
    if s.writer.Writing? then WriteFails else StopWriter
  }

  /** Run has returned and no call is left. */
  ghost predicate Quiet(s: State) {
    && s.reader.Gone? && s.handler.Stopped? && s.writer.Ended?
    && forall i :: 0 <= i < |s.callers| ==> s.callers[i].phase.Finished?
  }

  /** No caller and no loop of a closed connection is stuck, whatever the queues hold. */
  lemma NobodyStuck(s: State)
    requires CallsOk(s) && s.done
    ensures forall i {:trigger CallerMove(s, i)} ::
              0 <= i < |s.callers| && !s.callers[i].phase.Finished? ==> CallEnabled(s, CallerMove(s, i))
    ensures !s.reader.Gone? ==> ReadEnabled(s, ReaderMove(s))
    ensures !s.handler.Stopped? ==> HandleEnabled(s, HandlerMove(s))
    ensures !s.writer.Ended? ==> WriteEnabled(s, WriterMove(s))
  {
  }

  /** Some step is possible until the connection is quiet. */
  lemma Progress(s: State) returns (a: Action)
    requires CallsOk(s) && s.done && !Quiet(s)
    ensures Enabled(s, a) && !Begins(a)
  {
    NobodyStuck(s);
    if !s.reader.Gone? {
      a := OfReader(ReaderMove(s));
    } else if !s.handler.Stopped? {
      a := OfHandler(HandlerMove(s));
    } else if !s.writer.Ended? {
      a := OfWriter(WriterMove(s));
    } else {
      var i :| 0 <= i < |s.callers| && !s.callers[i].phase.Finished?;
      a := OfCall(CallerMove(s, i));
    }
  }

  /**
   Shutdown drains. From any reachable closed state, every continuation is bounded by the work
   left plus what new calls bring; one that cannot go on has everyone finished, Run returned
   and no pending entry left.
   */
  lemma ShutdownDrains(run: seq<Action>, more: seq<Action>)
    requires Runs(INITIAL, run) && After(INITIAL, run).done && Runs(After(INITIAL, run), more)
    ensures |more| <= Work(After(INITIAL, run)) + 7 * BeginCount(more)
    ensures var s := After(After(INITIAL, run), more);
            (forall a :: Enabled(s, a) ==> Begins(a)) ==> Quiet(s) && s.pending == map[]
  {
    var closed := After(INITIAL, run);
    DrainBound(closed, more);
    CallsAlways(INITIAL, run);
    CallsAlways(closed, more);
    var s := After(closed, more);
    if forall a :: Enabled(s, a) ==> Begins(a) {
      if !Quiet(s) {
        var a := Progress(s);
        assert false;
      }
      assert s.pending.Keys == {};
    }
  }

  /** And quiet is always reached: there is a continuation that gets there. */
  lemma {:induction false} QuietReached(s: State) returns (run: seq<Action>)
    requires CallsOk(s) && s.done
    ensures Runs(s, run) && Quiet(After(s, run))
    decreases Work(s)
  {
    if Quiet(s) {
      run := [];
    } else {
      var a := Progress(s);
      StepDrains(s, a);
      CallsStep(s, a);
      var rest := QuietReached(Apply(s, a));
      run := [a] + rest;
      assert run[1..] == rest;
    }
  }
}
