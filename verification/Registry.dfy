/**
 The server's registry of live connections, over all identities and all interleavings of
 connections that come, are superseded and go. Registering, telling the core "connected",
 deregistering and telling it "disconnected" are four separate steps, as they are in serveConn.
 */
module Registry {
  import opened Text

  /** How far serveConn has got with one connection. */
  datatype Phase = Accepted | Registered | Serving | Ended | Dropped | Leaving | Left

  datatype Link = Link(identity: string, phase: Phase, closed: bool)

  /** Up and Down are registry changes, and also what the core is told. */
  datatype Change = Up(link: nat) | Down(link: nat)

  /** changes and notes are histories: registry changes in lock order, core calls in commit order. */
  datatype State = State(
    links: seq<Link>,
    conns: map<string, nat>,
    online: set<string>,
    changes: seq<Change>,
    notes: seq<Change>)

  const EMPTY := State([], map[], {}, [], [])

  datatype Action =
    | Accept(identity: string)
    | Register(k: nat)
    | Connected(k: nat)
    | RunReturns(k: nat)
    | Deregister(k: nat)
    | Disconnected(k: nat)
    | Close(k: nat)

  predicate At(s: State, k: nat, p: Phase) { k < |s.links| && s.links[k].phase == p }

  predicate Enabled(s: State, a: Action) {
    match a
    case Accept(_) => true
    case Register(k) => At(s, k, Accepted)
    case Connected(k) => At(s, k, Registered)
    case RunReturns(k) => At(s, k, Serving)
    case Deregister(k) => At(s, k, Ended)
    case Disconnected(k) => At(s, k, Leaving)
    case Close(k) => k < |s.links| && s.links[k].phase != Accepted
  }

  function Shut(links: seq<Link>, k: nat): seq<Link> {
    if k < |links| then links[k := links[k].(closed := true)] else links
  }

  function Move(links: seq<Link>, k: nat, p: Phase): seq<Link>
    requires k < |links|
  {
    links[k := links[k].(phase := p)]
  }

  predicate Current(s: State, k: nat)
    requires k < |s.links|
  {
    s.links[k].identity in s.conns && s.conns[s.links[k].identity] == k
  }

  function Apply(s: State, a: Action): State
    requires Enabled(s, a)
  {
    match a
    case Accept(identity) => s.(links := s.links + [Link(identity, Accepted, false)])
    case Register(k) =>
      var id := s.links[k].identity;
      var links := if id in s.conns then Shut(s.links, s.conns[id]) else s.links;
      s.(links := Move(links, k, Registered), conns := s.conns[id := k], changes := s.changes + [Up(k)])
    case Connected(k) =>
      s.(links := Move(s.links, k, Serving), online := s.online + {s.links[k].identity}, notes := s.notes + [Up(k)])
    case RunReturns(k) => s.(links := Move(Shut(s.links, k), k, Ended))
    case Deregister(k) =>
      if Current(s, k) then
        s.(links := Move(s.links, k, Leaving), conns := s.conns - {s.links[k].identity},
          changes := s.changes + [Down(k)])
      else
        s.(links := Move(s.links, k, Dropped))
    case Disconnected(k) =>
      s.(links := Move(s.links, k, Left), online := s.online - {s.links[k].identity}, notes := s.notes + [Down(k)])
    case Close(k) => s.(links := Shut(s.links, k))
  }

  predicate Runs(s: State, run: seq<Action>)
    decreases |run|
  {
    run == [] || (Enabled(s, run[0]) && Runs(Apply(s, run[0]), run[1..]))
  }

  function After(s: State, run: seq<Action>): State
    requires Runs(s, run)
    decreases |run|
  {
    if run == [] then s else After(Apply(s, run[0]), run[1..])
  }

  /** The changes that concern one identity, in order. */
  ghost function About(links: seq<Link>, cs: seq<Change>, id: string): (r: seq<Change>) {
    if cs == [] then [] else
    var rest := About(links, cs[..|cs| - 1], id);
    var c := cs[|cs| - 1];
    if c.link < |links| && links[c.link].identity == id then rest + [c] else rest
  }

  ghost function LastAbout(links: seq<Link>, cs: seq<Change>, id: string): (r: Option<Change>) {
    var about := About(links, cs, id);
    if about == [] then None else Some(about[|about| - 1])
  }

  /** Same links, same identities: what a history says about an identity does not change. */
  lemma {:induction false} AboutStable(links: seq<Link>, more: seq<Link>, cs: seq<Change>, id: string)
    requires |links| <= |more| && forall k :: 0 <= k < |links| ==> more[k].identity == links[k].identity
    requires forall c :: c in cs ==> c.link < |links|
    ensures About(more, cs, id) == About(links, cs, id)
  {
    if cs != [] {
      AboutStable(links, more, cs[..|cs| - 1], id);
      assert cs[|cs| - 1] in cs;
    }
  }

  ghost predicate InRange(s: State) {
    && (forall c :: c in s.changes ==> c.link < |s.links|)
    && (forall c :: c in s.notes ==> c.link < |s.links|)
  }

  /** The histories record exactly the steps each connection has taken. */
  ghost predicate Recorded(s: State, k: nat)
    requires k < |s.links|
  {
    var p := s.links[k].phase;
    && (Up(k) in s.changes <==> !p.Accepted?)
    && (Up(k) in s.notes <==> !p.Accepted? && !p.Registered?)
    && (Down(k) in s.changes <==> p.Leaving? || p.Left?)
    && (Down(k) in s.notes <==> p.Left?)
    && ((p.Ended? || p.Dropped? || p.Leaving? || p.Left?) ==> s.links[k].closed)
  }

  ghost predicate Once(cs: seq<Change>) {
    forall i, j :: 0 <= i < j < |cs| ==> cs[i] != cs[j]
  }

  ghost predicate LinksOk(s: State) {
    && InRange(s) && Once(s.changes) && Once(s.notes)
    && forall k :: 0 <= k < |s.links| ==> Recorded(s, k)
  }

  /** A registry entry points at a live connection of that identity. */
  ghost predicate EntryOk(s: State, id: string) {
    id in s.conns ==>
      && s.conns[id] < |s.links| && s.links[s.conns[id]].identity == id
      && (s.links[s.conns[id]].phase in {Registered, Serving, Ended})
  }

  /** A registered connection is current or closed. */
  ghost predicate ClosedOk(s: State, k: nat)
    requires k < |s.links|
  {
    s.links[k].phase.Accepted? || Current(s, k) || s.links[k].closed
  }

  ghost predicate ConnsOk(s: State) {
    && (forall id :: id in s.conns ==> EntryOk(s, id))
    && (forall k :: 0 <= k < |s.links| ==> ClosedOk(s, k))
  }

  /** What the last change about an identity says about the registry. */
  ghost predicate MirrorsConns(s: State, id: string) {
    var last := LastAbout(s.links, s.changes, id);
    if id in s.conns then last == Some(Up(s.conns[id])) else last.None? || last.value.Down?
  }

  /** What the last note about an identity says about the core. */
  ghost predicate MirrorsOnline(s: State, id: string) {
    id in s.online <==> LastAbout(s.links, s.notes, id).Some? && LastAbout(s.links, s.notes, id).value.Up?
  }

  ghost predicate Mirrors(s: State, id: string) { MirrorsConns(s, id) && MirrorsOnline(s, id) }

  ghost predicate Ok(s: State) {
    LinksOk(s) && ConnsOk(s) && forall id :: Mirrors(s, id)
  }

  lemma OnceSnoc(cs: seq<Change>, c: Change)
    requires Once(cs) && c !in cs
    ensures Once(cs + [c])
  {
  }

  lemma OnceStep(s: State, a: Action)
    requires LinksOk(s) && Enabled(s, a)
    ensures Once(Apply(s, a).changes) && Once(Apply(s, a).notes)
  {
    match a
    case Register(k) => assert Recorded(s, k); OnceSnoc(s.changes, Up(k));
    case Connected(k) => assert Recorded(s, k); OnceSnoc(s.notes, Up(k));
    case Deregister(k) => assert Recorded(s, k); OnceSnoc(s.changes, Down(k));
    case Disconnected(k) => assert Recorded(s, k); OnceSnoc(s.notes, Down(k));
    case _ =>
  }

  lemma RecordedStep(s: State, a: Action, k: nat)
    requires InRange(s) && Enabled(s, a) && k < |Apply(s, a).links| && (k < |s.links| ==> Recorded(s, k))
    ensures Recorded(Apply(s, a), k)
  {
  }

  lemma LinksStep(s: State, a: Action)
    requires LinksOk(s) && Enabled(s, a)
    ensures LinksOk(Apply(s, a))
  {
    var t := Apply(s, a);
    OnceStep(s, a);
    forall k | 0 <= k < |t.links| ensures Recorded(t, k) {
      RecordedStep(s, a, k);
    }
  }

  lemma EntryStep(s: State, a: Action, id: string)
    requires EntryOk(s, id) && Enabled(s, a)
    ensures EntryOk(Apply(s, a), id)
  {
  }

  lemma ClosedStep(s: State, a: Action, k: nat)
    requires Enabled(s, a) && k < |Apply(s, a).links|
    requires k < |s.links| ==> ClosedOk(s, k) && Recorded(s, k) && EntryOk(s, s.links[k].identity)
    ensures ClosedOk(Apply(s, a), k)
  {
  }

  lemma ConnsStep(s: State, a: Action)
    requires LinksOk(s) && ConnsOk(s) && Enabled(s, a)
    ensures ConnsOk(Apply(s, a))
  {
    var t := Apply(s, a);
    forall id | id in t.conns ensures EntryOk(t, id) { EntryStep(s, a, id); }
    forall k | 0 <= k < |t.links| ensures ClosedOk(t, k) { ClosedStep(s, a, k); }
  }

  lemma LastSnoc(links: seq<Link>, cs: seq<Change>, c: Change, id: string)
    requires c.link < |links|
    ensures LastAbout(links, cs + [c], id) == if links[c.link].identity == id then Some(c) else LastAbout(links, cs, id)
  {
  }

  lemma SameIdentities(s: State, a: Action)
    requires Enabled(s, a)
    ensures var t := Apply(s, a);
            |s.links| <= |t.links| && forall k :: 0 <= k < |s.links| ==> t.links[k].identity == s.links[k].identity
  {
  }

  /** With no change about it recorded, what history says about an identity stays. */
  lemma AboutKept(s: State, a: Action, id: string)
    requires InRange(s) && Enabled(s, a)
    ensures LastAbout(Apply(s, a).links, s.changes, id) == LastAbout(s.links, s.changes, id)
    ensures LastAbout(Apply(s, a).links, s.notes, id) == LastAbout(s.links, s.notes, id)
  {
    var t := Apply(s, a);
    SameIdentities(s, a);
    AboutStable(s.links, t.links, s.changes, id);
    AboutStable(s.links, t.links, s.notes, id);
  }

  lemma ConnsMirrorStep(s: State, a: Action, id: string)
    requires InRange(s) && MirrorsConns(s, id) && Enabled(s, a)
    ensures MirrorsConns(Apply(s, a), id)
  {
    var t := Apply(s, a);
    AboutKept(s, a, id);
    match a
    case Register(k) => LastSnoc(t.links, s.changes, Up(k), id);
    case Deregister(k) => LastSnoc(t.links, s.changes, Down(k), id);
    case Accept(_) =>
    case Connected(_) =>
    case RunReturns(_) =>
    case Disconnected(_) =>
    case Close(_) =>
  }

  lemma OnlineMirrorStep(s: State, a: Action, id: string)
    requires InRange(s) && MirrorsOnline(s, id) && Enabled(s, a)
    ensures MirrorsOnline(Apply(s, a), id)
  {
    var t := Apply(s, a);
    AboutKept(s, a, id);
    match a
    case Connected(k) => LastSnoc(t.links, s.notes, Up(k), id);
    case Disconnected(k) => LastSnoc(t.links, s.notes, Down(k), id);
    case Accept(_) =>
    case Register(_) =>
    case RunReturns(_) =>
    case Deregister(_) =>
    case Close(_) =>
  }

  lemma Step(s: State, a: Action)
    requires Ok(s) && Enabled(s, a)
    ensures Ok(Apply(s, a))
  {
    LinksStep(s, a);
    ConnsStep(s, a);
    forall id ensures Mirrors(Apply(s, a), id) {
      assert Mirrors(s, id);
      ConnsMirrorStep(s, a, id);
      OnlineMirrorStep(s, a, id);
    }
  }

  lemma {:induction false} Always(s: State, run: seq<Action>)
    requires Ok(s) && Runs(s, run)
    ensures Ok(After(s, run))
    decreases |run|
  {
    if run != [] {
      Step(s, run[0]);
      Always(Apply(s, run[0]), run[1..]);
    }
  }

  /**
   Supersession, in every reachable state. The registry holds the connection registered last
   for an identity, or nothing once that one is gone; every registered connection it does not
   hold is closed; and a connection reports Disconnected at most once, and only if it was the
   current one when it left.
   */
  lemma Supersession(run: seq<Action>, id: string)
    requires Runs(EMPTY, run)
    ensures var s := After(EMPTY, run);
            && (id in s.conns ==> LastAbout(s.links, s.changes, id) == Some(Up(s.conns[id])))
            && (id !in s.conns ==>
                  LastAbout(s.links, s.changes, id).None? || LastAbout(s.links, s.changes, id).value.Down?)
            && (forall k :: 0 <= k < |s.links| && s.links[k].identity == id && !s.links[k].phase.Accepted? ==>
                  s.links[k].closed || (id in s.conns && s.conns[id] == k))
            && Once(s.notes)
            && (forall k :: Down(k) in s.notes ==> Down(k) in s.changes)
  {
    Always(EMPTY, run);
    var s := After(EMPTY, run);
    assert Mirrors(s, id);
    forall k | 0 <= k < |s.links| && s.links[k].identity == id && !s.links[k].phase.Accepted?
      ensures s.links[k].closed || (id in s.conns && s.conns[id] == k)
    {
      assert ClosedOk(s, k);
    }
    forall k | Down(k) in s.notes ensures Down(k) in s.changes {
      assert Recorded(s, k);
    }
  }

  /** No connection owes the core a note. */
  ghost predicate Settled(s: State) {
    forall k :: 0 <= k < |s.links| ==> !s.links[k].phase.Registered? && !s.links[k].phase.Leaving?
  }

  /** The core heard about this identity in the order its registry entry changed. */
  ghost predicate InOrder(s: State, id: string) {
    About(s.links, s.notes, id) <= About(s.links, s.changes, id)
  }

  ghost function Kind(c: Option<Change>): bool { c.Some? && c.value.Up? }

  /**
   Online against registered. In every reachable state the core calls a station online exactly
   when the last thing it was told about it is "connected", so it agrees with the registry if and
   only if the last note and the last registry change are of the same kind. That is so whenever
   the notes came in registry order and none is outstanding.
   */
  lemma OnlineMatchesRegistry(run: seq<Action>, id: string)
    requires Runs(EMPTY, run)
    ensures var s := After(EMPTY, run);
            && ((id in s.online <==> id in s.conns) <==>
                Kind(LastAbout(s.links, s.notes, id)) == Kind(LastAbout(s.links, s.changes, id)))
            && (Settled(s) && InOrder(s, id) ==> (id in s.online <==> id in s.conns))
  {
    Always(EMPTY, run);
    var s := After(EMPTY, run);
    assert Mirrors(s, id);
    if Settled(s) && InOrder(s, id) {
      SettledInOrder(s, id);
    }
  }

  lemma {:induction false} AboutMembers(links: seq<Link>, cs: seq<Change>, id: string, c: Change)
    ensures c in About(links, cs, id) <==> c in cs && c.link < |links| && links[c.link].identity == id
  {
    if cs != [] {
      AboutMembers(links, cs[..|cs| - 1], id, c);
      assert cs == cs[..|cs| - 1] + [cs[|cs| - 1]];
    }
  }

  lemma {:induction false} AboutOnce(links: seq<Link>, cs: seq<Change>, id: string)
    requires Once(cs)
    ensures Once(About(links, cs, id))
  {
    if cs != [] {
      var rest, c := cs[..|cs| - 1], cs[|cs| - 1];
      AboutOnce(links, rest, id);
      AboutMembers(links, rest, id, c);
    }
  }

  /** With nothing outstanding, a prefix of the changes that has all of them is all of them. */
  lemma SettledInOrder(s: State, id: string)
    requires LinksOk(s) && Settled(s) && InOrder(s, id)
    ensures About(s.links, s.notes, id) == About(s.links, s.changes, id)
  {
    var notes, changes := About(s.links, s.notes, id), About(s.links, s.changes, id);
    AboutOnce(s.links, s.changes, id);
    if |notes| < |changes| {
      var c := changes[|notes|];
      AboutMembers(s.links, s.changes, id, c);
      AboutMembers(s.links, s.notes, id, c);
      NothingOwed(s, c);
    }
  }

  lemma NothingOwed(s: State, c: Change)
    requires LinksOk(s) && Settled(s) && c in s.changes
    ensures c in s.notes
  {
    assert Recorded(s, c.link);
  }

  /** A station wrongly called online stays so until some connection of it registers again. */
  lemma {:induction false} StuckOnline(s: State, run: seq<Action>, id: string)
    requires Runs(s, run) && id !in s.conns && id in s.online
    requires forall k :: 0 <= k < |s.links| && s.links[k].identity == id ==> !s.links[k].phase.Leaving?
    requires forall a :: a in run && a.Register? ==> a.k >= |s.links| || s.links[a.k].identity != id
    requires forall a :: a in run && a.Accept? ==> a.identity != id
    ensures id !in After(s, run).conns && id in After(s, run).online
    decreases |run|
  {
    if run != [] {
      var a := run[0];
      assert a in run;
      StuckStep(s, a, id);
      assert forall b :: b in run[1..] ==> b in run;
      SameIdentities(s, a);
      StuckOnline(Apply(s, a), run[1..], id);
    }
  }

  lemma StuckStep(s: State, a: Action, id: string)
    requires Enabled(s, a) && id !in s.conns && id in s.online
    requires forall k :: 0 <= k < |s.links| && s.links[k].identity == id ==> !s.links[k].phase.Leaving?
    requires a.Register? ==> s.links[a.k].identity != id
    requires a.Accept? ==> a.identity != id
    ensures var t := Apply(s, a);
            && id !in t.conns && id in t.online
            && (forall k :: 0 <= k < |t.links| && t.links[k].identity == id ==> !t.links[k].phase.Leaving?)
            && (forall k :: |s.links| <= k < |t.links| ==> t.links[k].identity != id)
  {
  }

  /** A run can be continued by any step enabled at its end. */
  lemma {:induction false} Extend(s: State, run: seq<Action>, a: Action)
    requires Runs(s, run) && Enabled(After(s, run), a)
    ensures Runs(s, run + [a]) && After(s, run + [a]) == Apply(After(s, run), a)
    decreases |run|
  {
    if run == [] {
      assert After(Apply(s, a), []) == Apply(s, a);
    } else {
      Extend(Apply(s, run[0]), run[1..], a);
      assert (run + [a])[1..] == run[1..] + [a];
    }
  }

  // A station drops and reconnects; the old connection's Disconnected is the last to commit.

  const FIRST_UP := State([Link("cp", Serving, false)], map["cp" := 0], {"cp"}, [Up(0)], [Up(0)])

  lemma FirstUp() returns (run: seq<Action>)
    ensures Runs(EMPTY, run) && After(EMPTY, run) == FIRST_UP
  {
    run := [];
    Extend(EMPTY, run, Accept("cp"));
    run := run + [Accept("cp")];
    assert After(EMPTY, run) == State([Link("cp", Accepted, false)], map[], {}, [], []);
    Extend(EMPTY, run, Register(0));
    run := run + [Register(0)];
    assert After(EMPTY, run) == State([Link("cp", Registered, false)], map["cp" := 0], {}, [Up(0)], []);
    Extend(EMPTY, run, Connected(0));
    run := run + [Connected(0)];
  }

  const FIRST_GONE := State([Link("cp", Leaving, true), Link("cp", Accepted, false)], map[], {"cp"}, [Up(0), Down(0)],
    [Up(0)])

  lemma FirstGone() returns (run: seq<Action>)
    ensures Runs(EMPTY, run) && After(EMPTY, run) == FIRST_GONE
  {
    run := FirstUp();
    Extend(EMPTY, run, RunReturns(0));
    run := run + [RunReturns(0)];
    assert After(EMPTY, run) == State([Link("cp", Ended, true)], map["cp" := 0], {"cp"}, [Up(0)], [Up(0)]);
    Extend(EMPTY, run, Deregister(0));
    run := run + [Deregister(0)];
    assert After(EMPTY, run) == State([Link("cp", Leaving, true)], map[], {"cp"}, [Up(0), Down(0)], [Up(0)]);
    Extend(EMPTY, run, Accept("cp"));
    run := run + [Accept("cp")];
  }

  const CALLED_OFFLINE := State([Link("cp", Left, true), Link("cp", Serving, false)], map["cp" := 1], {},
      [Up(0), Down(0), Up(1)], [Up(0), Up(1), Down(0)])

  lemma OldReportsLast() returns (run: seq<Action>)
    ensures Runs(EMPTY, run) && After(EMPTY, run) == CALLED_OFFLINE
  {
    run := FirstGone();
    Extend(EMPTY, run, Register(1));
    run := run + [Register(1)];
    assert After(EMPTY, run) == State([Link("cp", Leaving, true), Link("cp", Registered, false)], map["cp" := 1],
        {"cp"}, [Up(0), Down(0), Up(1)], [Up(0)]);
    Extend(EMPTY, run, Connected(1));
    run := run + [Connected(1)];
    assert After(EMPTY, run) == State([Link("cp", Leaving, true), Link("cp", Serving, false)], map["cp" := 1], {"cp"},
        [Up(0), Down(0), Up(1)], [Up(0), Up(1)]);
    Extend(EMPTY, run, Disconnected(0));
    run := run + [Disconnected(0)];
  }

  // A connection is superseded before it said Connected, and says so after its successor has left.

  const BOTH_ACCEPTED := State([Link("cp", Registered, false), Link("cp", Accepted, false)], map["cp" := 0], {},
      [Up(0)], [])

  lemma BothRegistered() returns (run: seq<Action>)
    ensures Runs(EMPTY, run) && After(EMPTY, run) == BOTH_ACCEPTED
  {
    run := [];
    Extend(EMPTY, run, Accept("cp"));
    run := run + [Accept("cp")];
    assert After(EMPTY, run) == State([Link("cp", Accepted, false)], map[], {}, [], []);
    Extend(EMPTY, run, Accept("cp"));
    run := run + [Accept("cp")];
    assert After(EMPTY, run) == State([Link("cp", Accepted, false), Link("cp", Accepted, false)], map[], {}, [], []);
    Extend(EMPTY, run, Register(0));
    run := run + [Register(0)];
  }

  const SECOND_ENDED := State([Link("cp", Registered, true), Link("cp", Ended, true)], map["cp" := 1], {"cp"},
      [Up(0), Up(1)], [Up(1)])

  lemma SecondGone() returns (run: seq<Action>)
    ensures Runs(EMPTY, run) && After(EMPTY, run) == SECOND_ENDED
  {
    run := BothRegistered();
    Extend(EMPTY, run, Register(1));
    run := run + [Register(1)];
    assert After(EMPTY, run) == State([Link("cp", Registered, true), Link("cp", Registered, false)], map["cp" := 1],
        {}, [Up(0), Up(1)], []);
    Extend(EMPTY, run, Connected(1));
    run := run + [Connected(1)];
    assert After(EMPTY, run) == State([Link("cp", Registered, true), Link("cp", Serving, false)], map["cp" := 1],
        {"cp"}, [Up(0), Up(1)], [Up(1)]);
    Extend(EMPTY, run, RunReturns(1));
    run := run + [RunReturns(1)];
  }

  const CALLED_ONLINE := State([Link("cp", Serving, true), Link("cp", Left, true)], map[], {"cp"},
      [Up(0), Up(1), Down(1)], [Up(1), Down(1), Up(0)])

  lemma SupersededReportsLast() returns (run: seq<Action>)
    ensures Runs(EMPTY, run) && After(EMPTY, run) == CALLED_ONLINE
  {
    run := SecondGone();
    Extend(EMPTY, run, Deregister(1));
    run := run + [Deregister(1)];
    assert After(EMPTY, run) == State([Link("cp", Registered, true), Link("cp", Leaving, true)], map[], {"cp"},
        [Up(0), Up(1), Down(1)], [Up(1)]);
    Extend(EMPTY, run, Disconnected(1));
    run := run + [Disconnected(1)];
    assert After(EMPTY, run) == State([Link("cp", Registered, true), Link("cp", Left, true)], map[], {},
        [Up(0), Up(1), Down(1)], [Up(1), Down(1)]);
    Extend(EMPTY, run, Connected(0));
    run := run + [Connected(0)];
  }

  /**
   The order is needed. With nothing outstanding, the core can call a station offline while its
   new connection is registered, and online while none is.
   */
  lemma OrderNeeded()
    ensures exists run :: Runs(EMPTY, run) && After(EMPTY, run) == CALLED_OFFLINE
    ensures exists run :: Runs(EMPTY, run) && After(EMPTY, run) == CALLED_ONLINE
    ensures Settled(CALLED_OFFLINE) && "cp" in CALLED_OFFLINE.conns && "cp" !in CALLED_OFFLINE.online
    ensures Settled(CALLED_ONLINE) && "cp" !in CALLED_ONLINE.conns && "cp" in CALLED_ONLINE.online
  {
    var late := OldReportsLast();
    var early := SupersededReportsLast();
  }

  /**
   The server's own fields. serveConn's two critical sections and Shutdown's loop work on them;
   the ghost fields follow the machine above and remember the run.
   */
  class Server {
    var conns: map<string, nat>
    var closed: set<nat>
    /** How many connections have been accepted; they are numbered from 0. */
    var accepted: nat
    ghost var s: State
    ghost var run: seq<Action>

    ghost predicate Valid()
      reads this
    {
      && Runs(EMPTY, run) && s == After(EMPTY, run)
      && conns == s.conns && accepted == |s.links|
      && (forall k: nat :: k in closed <==> k < |s.links| && s.links[k].closed)
    }

    constructor ()
      ensures Valid() && s == EMPTY
    {
      conns, closed, accepted := map[], {}, 0;
      s, run := EMPTY, [];
    }

    /** An upgraded connection of some identity enters serveConn. */
    method Accept(id: string) returns (k: nat)
      requires Valid()
      modifies this
      ensures Valid() && s == Apply(old(s), Action.Accept(id)) && k == old(accepted) && At(s, k, Accepted)
      ensures conns == old(conns) && closed == old(closed)
    {
      Extend(EMPTY, run, Action.Accept(id));
      run := run + [Action.Accept(id)];
      k := accepted;
      accepted := accepted + 1;
      s := Apply(s, Action.Accept(id));
    }

    /** The two notes to the core, which take no lock here: what it is told is history. */
    method Notify(ghost a: Action)
      requires Valid() && Enabled(s, a) && (a.Connected? || a.Disconnected?)
      modifies this`s, this`run
      ensures Valid() && s == Apply(old(s), a)
    {
      Extend(EMPTY, run, a);
      run := run + [a];
      s := Apply(s, a);
    }

    /** Run returns, and has closed its connection. */
    method RunReturns(k: nat)
      requires Valid() && At(s, k, Serving)
      modifies this
      ensures Valid() && s == Apply(old(s), Action.RunReturns(k))
      ensures conns == old(conns) && closed == old(closed) + {k}
    {
      Extend(EMPTY, run, Action.RunReturns(k));
      run := run + [Action.RunReturns(k)];
      closed := closed + {k};
      s := Apply(s, Action.RunReturns(k));
    }

    /** serveConn up to Run. */
    method Enter(id: string) returns (k: nat)
      requires Valid()
      modifies this
      ensures Valid() && At(s, k, Serving) && s.links[k].identity == id && conns == old(conns)[id := k]
      ensures s.notes == old(s.notes) + [Up(k)]
      ensures closed == if id in old(conns) then old(closed) + {old(conns)[id]} else old(closed)
      ensures k == |old(s.links)| && |s.links| == k + 1
      ensures forall j :: 0 <= j < k ==>
                s.links[j] == if id in old(conns) && old(conns)[id] == j then old(s.links)[j].(closed := true)
                    else old(s.links)[j]
    {
      k := Accept(id);
      Register(k, id);
      Notify(Connected(k));
    }

    /** serveConn from Run on: only a connection still registered tells the core. */
    method Exit(k: nat, id: string)
      requires Valid() && At(s, k, Serving) && s.links[k].identity == id
      modifies this
      ensures Valid() && k in closed && At(s, k, if id in old(conns) && old(conns)[id] == k then Left else Dropped)
      ensures conns == if id in old(conns) && old(conns)[id] == k then old(conns) - {id} else old(conns)
      ensures s.notes == old(s.notes) + if id in old(conns) && old(conns)[id] == k then [Down(k)] else []
    {
      RunReturns(k);
      var current := Deregister(k, id);
      if current {
        Notify(Disconnected(k));
      }
    }

    /** Entering serveConn: the old connection of the same identity is closed and replaced. */
    method Register(k: nat, id: string)
      requires Valid() && At(s, k, Accepted) && s.links[k].identity == id
      modifies this
      ensures Valid() && s == Apply(old(s), Action.Register(k))
      ensures conns == old(conns)[id := k]
      ensures closed == if id in old(conns) then old(closed) + {old(conns)[id]} else old(closed)
    {
      Always(EMPTY, run);
      Extend(EMPTY, run, Action.Register(k));
      run := run + [Action.Register(k)];
      if id in conns {
        closed := closed + {conns[id]};
      }
      conns := conns[id := k];
      s := Apply(s, Action.Register(k));
    }

    /** Leaving serveConn: only the connection still registered takes its entry away. */
    method Deregister(k: nat, id: string) returns (current: bool)
      requires Valid() && At(s, k, Ended) && s.links[k].identity == id
      modifies this
      ensures Valid() && s == Apply(old(s), Action.Deregister(k))
      ensures current <==> id in old(conns) && old(conns)[id] == k
      ensures conns == if current then old(conns) - {id} else old(conns)
    {
      Extend(EMPTY, run, Action.Deregister(k));
      run := run + [Action.Deregister(k)];
      current := id in conns && conns[id] == k;
      if current {
        conns := conns - {id};
      }
      s := Apply(s, Action.Deregister(k));
    }

    /** Shutdown's loop: afterwards every registered connection is closed. */
    method CloseAll()
      requires Valid()
      modifies this
      ensures Valid() && conns == old(conns)
      ensures forall id :: id in conns ==> conns[id] in closed
      ensures closed == old(closed) + conns.Values
    {
      var todo := conns.Keys;
      while todo != {}
        invariant Valid() && conns == old(conns) && todo <= conns.Keys
        invariant closed == old(closed) + (set id | id in conns && id !in todo :: conns[id])
        decreases todo
      {
        var id :| id in todo;
        Always(EMPTY, run);
        Extend(EMPTY, run, Close(conns[id]));
        run := run + [Close(conns[id])];
        closed := closed + {conns[id]};
        s := Apply(s, Close(conns[id]));
        todo := todo - {id};
      }
    }
  }

  /** A station that reconnects before its old connection was noticed dead: the old one is closed. */
  method Reconnect(server: Server, id: string) returns (first: nat, second: nat)
    requires server.Valid()
    modifies server
    ensures server.Valid() && id in server.conns && server.conns[id] == second != first && first in server.closed
            && second !in server.closed
  {
    first := server.Enter(id);
    second := server.Enter(id);
  }
}
