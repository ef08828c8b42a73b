/**
 A charging session that does happen: a start travels from the simulator through both connections
 to the core and its answer back to the outlet. So the stories of EndToEnd are not empty.
 */
module Witness {
  import opened Text
  import opened EndToEnd
  import Frame
  import Rpc
  import Duplex
  import Core
  import V16

  /** A possible story continued by one move. */
  function Go(g: Setting, story: Story, m: Move): (r: Story)
    requires Possible(g, story) && Can(g, Now(g, story), m)
    ensures Possible(g, r) && Now(g, r) == Do(g, Now(g, story), m)
  {
    More(story, m)
  }

  predicate Suits(g: Setting) { g.w.connectors >= 1 && g.w.knows("T") }

  const ROUTINE := Starting(1, "T", 0, Fresh)
  const IN_CALL := ROUTINE.(place := Called(0, ""))

  // The two frames, and the ends of the connection as they pass.

  function Asked(): Json { StartPayload(ROUTINE, "") }

  function Request(): Rpc.Queued { Rpc.Queued(Frame.EncodeCall("1", START, Frame.Of(Asked())).value,
      Rpc.FromCaller(0)) }

  function Granted(): Rpc.Answer { Rpc.Success(Frame.Of(StartReply(1, true))) }

  function Reply(): Rpc.Queued { Rpc.Queued(Frame.EncodeCallResult("1", Frame.Of(StartReply(1, true))).value,
      Rpc.FromHandler(0)) }

  function Caller(p: Rpc.Phase): Rpc.Caller { Rpc.Caller(START, Frame.Of(Asked()), p, None, 0, None) }

  function Registered(): Rpc.State { Rpc.INITIAL.(callers := [Caller(Rpc.Registered)], pending := map["1" := 0]) }

  function Waiting(): Rpc.State {
    Registered().(callers := [Caller(Rpc.Waiting)], queued := [Request()], written := [Request()])
  }

  function Reached(): Rpc.State { Rpc.INITIAL.(inbox := [Request().data]) }

  function Call(): Frame.Frame { Frame.Call("1", START, Asked()) }

  function Handling(): Rpc.State {
    Rpc.INITIAL.(received := [Request().data], handled := [Call()], handler := Rpc.Handling(Call()))
  }

  function Replied(): Rpc.State {
    Handling().(handler := Rpc.Idle, answers := [Rpc.Exchange(Call(), Granted())], queued := [Reply()],
        written := [Reply()])
  }

  lemma FirstId()
    ensures Rpc.Id(0) == "1"
  {
    assert Decimal(1) == "1";
  }

  /** The story has come to these ends of the connection, with nothing else changed but the core. */
  ghost predicate Arrives(g: Setting, story: Story, a: Rpc.State, b: Rpc.State, core: Core.History) {
    Possible(g, story) && Now(g, story) == Dawn(g).(pair := Duplex.Pair(a, b), starts := [IN_CALL], core := core)
  }

  /** The connection takes a step by itself. */
  function Moved(g: Setting, story: Story, ghost p: Duplex.Pair, step: Duplex.Step,
      ghost core: Core.History): (r: Story)
    requires Arrives(g, story, p.a, p.b, core) && Plain(step) && Duplex.CanStep(p, step)
    ensures Arrives(g, r, Duplex.DoStep(p, step).a, Duplex.DoStep(p, step).b, core)
  {
    More(story, Wire(step))
  }

  lemma CallRegistered(g: Setting) returns (story: Story)
    requires Suits(g)
    ensures Arrives(g, story, Registered(), Rpc.INITIAL, Core.Start)
  {
    FirstId();
    story := Go(g, Opening, BeginStart(1, "T"));
    story := Go(g, story, CallStart(0, ""));
    story := Go(g, story, Wire(Duplex.A(Rpc.OfCall(Rpc.Register(0)))));
  }

  /** Three steps of the connection. */
  lemma Through(g: Setting, before: Story, p: Duplex.Pair, one: Duplex.Step, two: Duplex.Step, three: Duplex.Step,
      core: Core.History)
    returns (story: Story, q: Duplex.Pair)
    requires Arrives(g, before, p.a, p.b, core) && Plain(one) && Plain(two) && Plain(three)
    requires Duplex.CanStep(p, one) && Duplex.CanStep(Duplex.DoStep(p, one), two)
    requires Duplex.CanStep(Duplex.DoStep(Duplex.DoStep(p, one), two), three)
    ensures q == Duplex.DoStep(Duplex.DoStep(Duplex.DoStep(p, one), two), three) && Arrives(g, story, q.a, q.b, core)
  {
    var r := Duplex.DoStep(p, one);
    q := Duplex.DoStep(r, two);
    story := Moved(g, before, p, one, core);
    story := Moved(g, story, r, two, core);
    story := Moved(g, story, q, three, core);
    q := Duplex.DoStep(q, three);
  }

  lemma RequestWritten(g: Setting, before: Story) returns (story: Story)
    requires Arrives(g, before, Registered(), Rpc.INITIAL, Core.Start)
    ensures Arrives(g, story, Waiting(), Reached(), Core.Start)
  {
    FirstId();
    var q;
    story, q := Through(g, before, Duplex.Pair(Registered(), Rpc.INITIAL), Duplex.A(Rpc.OfCall(Rpc.Submit(0))),
                        Duplex.A(Rpc.OfWriter(Rpc.Fetch)), Duplex.A(Rpc.OfWriter(Rpc.Write)), Core.Start);
    assert q == Duplex.Pair(Waiting(), Reached());
  }

  lemma RequestTaken(g: Setting, before: Story) returns (story: Story)
    requires Arrives(g, before, Waiting(), Reached(), Core.Start)
    ensures Arrives(g, story, Waiting(), Handling(), Core.Start)
  {
    Frame.CallRoundTrip("1", START, Frame.Of(Asked()));
    var q;
    story, q := Through(g, before, Duplex.Pair(Waiting(), Reached()), Duplex.B(Rpc.OfReader(Rpc.Read)),
                        Duplex.B(Rpc.OfReader(Rpc.QueueCall)), Duplex.B(Rpc.OfHandler(Rpc.Take)), Core.Start);
    assert q == Duplex.Pair(Waiting(), Handling());
  }

  const NOTHING := Choice(Rpc.Success(Frame.Nil), None)

  /** The one operation the core performs. */
  function Opened(g: Setting): Core.History {
    Core.Then(Core.Start, V16.Effect(g.w.knows, g.w.id, V16.StartTransaction(1, "T", 0, g.time("")), 1))
  }

  lemma CallServed(g: Setting)
    requires Suits(g)
    ensures Serving(g, Core.Start, Call(), 1, NOTHING) == (Opened(g), Granted())
  {
    StartRead(g.time, ROUTINE, "");
  }

  /** The server's end once the handler has answered. */
  function Responding(): Rpc.State {
    Handling().(handler := Rpc.Responding(Reply().data), answers := [Rpc.Exchange(Call(), Granted())])
  }

  lemma CallAnswered(g: Setting, before: Story) returns (story: Story)
    requires Suits(g) && Arrives(g, before, Waiting(), Handling(), Core.Start)
    ensures Arrives(g, story, Waiting(), Responding(), Opened(g))
  {
    CallServed(g);
    story := Go(g, before, Serve(1, NOTHING));
  }

  lemma ReplyWritten(g: Setting, before: Story) returns (story: Story)
    requires Arrives(g, before, Waiting(), Responding(), Opened(g))
    ensures Arrives(g, story, Waiting().(inbox := [Reply().data]), Replied(), Opened(g))
  {
    var q;
    story, q := Through(g, before, Duplex.Pair(Waiting(), Responding()), Duplex.B(Rpc.OfHandler(Rpc.Respond)),
                        Duplex.B(Rpc.OfWriter(Rpc.Fetch)), Duplex.B(Rpc.OfWriter(Rpc.Write)), Opened(g));
    assert q == Duplex.Pair(Waiting().(inbox := [Reply().data]), Replied());
  }

  function Told(): Rpc.Reply { Rpc.Result(StartReply(1, true)) }

  /** The station's end once the reply is in the call's channel. */
  function Answered(): Rpc.State {
    Waiting().(callers := [Caller(Rpc.Waiting).(slot := Some(Told()), first := Some(0))],
               received := [Reply().data], looked := [("1", Told())])
  }

  /** The reader with the reply in hand. */
  function Looking(): Rpc.State {
    Waiting().(received := [Reply().data], reader := Rpc.LookingUp("1", Told()))
  }

  lemma ReplyParsed()
    ensures var s := Waiting().(inbox := [Reply().data]);
            Rpc.ReadEnabled(s, Rpc.Read) && Rpc.ApplyReader(s, Rpc.Read) == Looking()
  {
    Frame.CallResultRoundTrip("1", Frame.Of(StartReply(1, true)));
  }

  lemma ReplyDelivered(g: Setting, before: Story) returns (story: Story)
    requires Arrives(g, before, Waiting().(inbox := [Reply().data]), Replied(), Opened(g))
    ensures Arrives(g, story, Answered(), Replied(), Opened(g))
  {
    ReplyParsed();
    story := Moved(g, before, Duplex.Pair(Waiting().(inbox := [Reply().data]), Replied()),
        Duplex.A(Rpc.OfReader(Rpc.Read)), Opened(g));
    story := ReplyLookedUp(g, story);
  }

  lemma ReplyLookedUp(g: Setting, before: Story) returns (story: Story)
    requires Arrives(g, before, Looking(), Replied(), Opened(g))
    ensures Arrives(g, story, Answered(), Replied(), Opened(g))
  {
    var p := Duplex.Pair(Looking(), Replied());
    story := Moved(g, before, p, Duplex.A(Rpc.OfReader(Rpc.Lookup)), Opened(g));
    p := Duplex.DoStep(p, Duplex.A(Rpc.OfReader(Rpc.Lookup)));
    story := Moved(g, story, p, Duplex.A(Rpc.OfReader(Rpc.Deposit)), Opened(g));
    assert Duplex.DoStep(p, Duplex.A(Rpc.OfReader(Rpc.Deposit))) == Duplex.Pair(Answered(), Replied());
  }

  /** The station's end once Call has returned. */
  function Returned(): Rpc.State {
    Answered().(callers := [Caller(Rpc.Finished(Rpc.Answered(Told()))).(first := Some(0))], pending := map[])
  }

  lemma CallReturns(g: Setting, before: Story) returns (story: Story)
    requires Arrives(g, before, Answered(), Replied(), Opened(g))
    ensures Arrives(g, story, Returned(), Replied(), Opened(g))
  {
    FirstId();
    var p := Duplex.Pair(Answered(), Replied());
    story := Moved(g, before, p, Duplex.A(Rpc.OfCall(Rpc.Collect(0))), Opened(g));
    p := Duplex.DoStep(p, Duplex.A(Rpc.OfCall(Rpc.Collect(0))));
    story := Moved(g, story, p, Duplex.A(Rpc.OfCall(Rpc.Forget(0))), Opened(g));
    assert Duplex.DoStep(p, Duplex.A(Rpc.OfCall(Rpc.Forget(0)))) == Duplex.Pair(Returned(), Replied());
  }

  lemma SessionTaken(g: Setting, before: Story) returns (story: Story)
    requires Suits(g) && Arrives(g, before, Returned(), Replied(), Opened(g))
    ensures Possible(g, story) && 1 in Now(g, story).outlets && Now(g, story).outlets[1].tx == 1
  {
    ReplyRead(1, true);
    story := Go(g, before, Resume(0));
  }

  /** With a known tag and a connector, some story puts transaction 1 on connector 1. */
  lemma SessionHappens(g: Setting) returns (story: Story)
    requires Suits(g)
    ensures Possible(g, story) && 1 in Now(g, story).outlets && Now(g, story).outlets[1].tx == 1
  {
    story := CallRegistered(g);
    story := RequestWritten(g, story);
    story := RequestTaken(g, story);
    story := CallAnswered(g, story);
    story := ReplyWritten(g, story);
    story := ReplyDelivered(g, story);
    story := CallReturns(g, story);
    story := SessionTaken(g, story);
  }
}
