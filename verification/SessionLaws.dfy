/** What every run of station and core keeps, and what that means for sessions. */
module SessionLaws {
  import opened Text
  import opened Core
  import opened CoreTx
  import opened Session
  import V16

  /** The id the core gave to a start, whether or not the station has heard. */
  function IdOf(a: Attempt): Option<int> {
    match a.phase
    case Answered(id, accepted) => if accepted then Some(id) else None
    case Taken(id) => Some(id)
    case Unheard(id) => Some(id)
    case _ => None
  }

  predicate TakenAt(s: Joint, c: int, id: int) {
    exists k :: 0 <= k < |s.attempts| && s.attempts[k].connector == c && s.attempts[k].phase == Taken(id)
  }

  predicate Stopped(s: Joint, id: int) { exists j :: 0 <= j < |s.stops| && s.stops[j].tx == id }

  predicate OnOutlet(s: Joint, c: int, id: int) { c in s.outlets && s.outlets[c].tx == id }

  predicate DisplacedOk(s: Joint, id: int) { exists c :: c in s.outlets && TakenAt(s, c, id) }

  /** No two starts were given the same id, and each id in use was taken at that connector. */
  predicate IdsOk(s: Joint) {
    && (forall k, l :: 0 <= k < l < |s.attempts| && IdOf(s.attempts[k]).Some? ==>
          IdOf(s.attempts[k]) != IdOf(s.attempts[l]))
    && (forall k :: 0 <= k < |s.attempts| && IdOf(s.attempts[k]).Some? ==> IdOf(s.attempts[k]).value >= 1)
    && (forall k :: 0 <= k < |s.attempts| ==> s.attempts[k].connector in s.outlets)
    && (forall c :: c in s.outlets && s.outlets[c].tx != 0 ==> TakenAt(s, c, s.outlets[c].tx))
    && (forall j :: 0 <= j < |s.stops| ==> TakenAt(s, s.stops[j].connector, s.stops[j].tx))
    && (forall id :: id in s.displaced ==> DisplacedOk(s, id))
  }

  /** An id taken by an outlet is in one place: still there, in one stop, or written over. */
  predicate PlacesOk(s: Joint) {
    && (forall i, j :: 0 <= i < j < |s.stops| ==> s.stops[i].tx != s.stops[j].tx)
    && (forall c :: c in s.outlets && s.outlets[c].tx != 0 ==>
          !Stopped(s, s.outlets[c].tx) && s.outlets[c].tx !in s.displaced)
    && (forall id :: id in s.displaced ==> !Stopped(s, id))
    && (forall k :: 0 <= k < |s.attempts| && s.attempts[k].phase.Taken? ==>
          OnOutlet(s, s.attempts[k].connector, s.attempts[k].phase.id)
          || Stopped(s, s.attempts[k].phase.id) || s.attempts[k].phase.id in s.displaced)
  }

  /** The core recorded the start of every id for this station, with that attempt's own data. */
  ghost predicate Recorded(w: World, h: History, a: Attempt) {
    IdOf(a).Some? ==>
      var start := StartOf(h, IdOf(a).value);
      && start.Some? && start.value.StartTx? && start.value.cp == w.id
      && start.value.connector == a.connector && start.value.tag == a.tag && start.value.meter == a.meterStart
  }

  /** The core recorded a stop exactly if it arrived. */
  ghost predicate StopRecorded(h: History, x: Stop) {
    var stop := StopOf(h, x.tx);
    if x.fate.Arrived? then stop.Some? && stop.value.StopTx? && stop.value.meter == x.meter
      && stop.value.why == x.reason
    else stop.None?
  }

  predicate Asks(s: Joint, id: int) { exists k :: 0 <= k < |s.attempts| && IdOf(s.attempts[k]) == Some(id) }

  predicate ArrivedStop(s: Joint, id: int) {
    exists j :: 0 <= j < |s.stops| && s.stops[j].tx == id && s.stops[j].fate.Arrived?
  }

  ghost predicate Ours(w: World, h: History, id: int) { StartOf(h, id).Some? && StartOf(h, id).value.cp == w.id }

  ghost predicate CoreOk(w: World, s: Joint) {
    && Clocked(s.core)
    && (forall k :: 0 <= k < |s.attempts| ==> Recorded(w, s.core, s.attempts[k]))
    && (forall j :: 0 <= j < |s.stops| ==> StopRecorded(s.core, s.stops[j]))
    && (forall id :: Ours(w, s.core, id) ==> Asks(s, id))
    && (forall id :: Ours(w, s.core, id) && StopOf(s.core, id).Some? ==> ArrivedStop(s, id))
  }

  /** How many sessions were stopped at a connector. */
  function StopsAt(stops: seq<Stop>, c: int): nat {
    if stops == [] then 0
    else StopsAt(stops[..|stops| - 1], c) + if stops[|stops| - 1].connector == c then 1 else 0
  }

  predicate MetersOk(s: Joint) {
    && (forall k :: 0 <= k < |s.attempts| && s.attempts[k].connector in s.outlets ==>
          s.outlets[s.attempts[k].connector].meter >= s.attempts[k].meterStart)
    && (forall j, k :: 0 <= j < |s.stops| && 0 <= k < |s.attempts| && s.attempts[k].phase == Taken(s.stops[j].tx) ==>
          s.stops[j].meter >= s.attempts[k].meterStart + SESSION_ENERGY)
    && (forall c :: c in s.outlets ==> s.outlets[c].meter == SESSION_ENERGY * StopsAt(s.stops, c))
  }

  /** Attempts keep their connector, and a session once taken stays taken. */
  predicate Keeps(s: Joint, t: Joint) {
    && |s.attempts| <= |t.attempts|
    && (forall k :: 0 <= k < |s.attempts| ==> t.attempts[k].connector == s.attempts[k].connector)
    && (forall k :: 0 <= k < |s.attempts| && s.attempts[k].phase.Taken? ==> t.attempts[k].phase == s.attempts[k].phase)
  }

  lemma TakenKept(s: Joint, t: Joint, c: int, id: int)
    requires Keeps(s, t) && TakenAt(s, c, id)
    ensures TakenAt(t, c, id)
  {
  }

  /** Steps that leave outlets' sessions, stops and taken ids alone keep the id and place laws. */
  lemma IdsKept(s: Joint, t: Joint)
    requires IdsOk(s) && Keeps(s, t)
    requires t.outlets.Keys == s.outlets.Keys && forall c :: c in s.outlets ==> t.outlets[c].tx == s.outlets[c].tx
    requires |t.stops| == |s.stops|
    requires forall j :: 0 <= j < |s.stops| ==>
             t.stops[j].connector == s.stops[j].connector && t.stops[j].tx == s.stops[j].tx
    requires t.displaced == s.displaced
    requires forall k, l :: 0 <= k < l < |t.attempts| && IdOf(t.attempts[k]).Some? ==>
               IdOf(t.attempts[k]) != IdOf(t.attempts[l])
    requires forall k :: 0 <= k < |t.attempts| && IdOf(t.attempts[k]).Some? ==> IdOf(t.attempts[k]).value >= 1
    requires forall k :: 0 <= k < |t.attempts| ==> t.attempts[k].connector in t.outlets
    ensures IdsOk(t)
  {
  }

  lemma PlacesKept(s: Joint, t: Joint)
    requires PlacesOk(s)
    requires t.outlets.Keys == s.outlets.Keys && forall c :: c in s.outlets ==> t.outlets[c].tx == s.outlets[c].tx
    requires |t.stops| == |s.stops| && forall j :: 0 <= j < |s.stops| ==> t.stops[j].tx == s.stops[j].tx
    requires t.displaced == s.displaced && |s.attempts| <= |t.attempts|
    requires forall k :: 0 <= k < |t.attempts| && t.attempts[k].phase.Taken? ==>
             k < |s.attempts| && t.attempts[k] == s.attempts[k]
    ensures PlacesOk(t)
  {
  }

  lemma {:induction false} CountKept(stops: seq<Stop>, after: seq<Stop>, c: int)
    requires |stops| == |after| && forall j :: 0 <= j < |stops| ==> after[j].connector == stops[j].connector
    ensures StopsAt(after, c) == StopsAt(stops, c)
  {
    if stops != [] { CountKept(stops[..|stops| - 1], after[..|stops| - 1], c); }
  }

  lemma MetersKept(s: Joint, t: Joint)
    requires MetersOk(s)
    requires t.outlets.Keys == s.outlets.Keys && forall c :: c in s.outlets ==> t.outlets[c].meter == s.outlets[c].meter
    requires |t.stops| == |s.stops|
    requires forall j :: 0 <= j < |s.stops| ==> t.stops[j] == s.stops[j].(fate := t.stops[j].fate)
    requires |s.attempts| <= |t.attempts|
    requires forall k :: 0 <= k < |s.attempts| ==>
               t.attempts[k].connector == s.attempts[k].connector
                 && t.attempts[k].meterStart == s.attempts[k].meterStart
    requires forall k :: 0 <= k < |t.attempts| && t.attempts[k].phase.Taken? ==>
             k < |s.attempts| && t.attempts[k] == s.attempts[k]
    requires forall k :: |s.attempts| <= k < |t.attempts| && t.attempts[k].connector in t.outlets ==>
               t.attempts[k].meterStart == t.outlets[t.attempts[k].connector].meter
    ensures MetersOk(t)
  {
    forall c | c in t.outlets ensures t.outlets[c].meter == SESSION_ENERGY * StopsAt(t.stops, c) {
      CountKept(s.stops, t.stops, c);
    }
  }

  /** What one more operation means for an id the core has already given out. */
  lemma {:induction false} Later(h: History, op: Op, id: int)
    ensures StartOf(h, id).Some? ==> StartOf(Then(h, op), id) == StartOf(h, id)
    ensures StopOf(h, id).Some? ==> StopOf(Then(h, op), id) == StopOf(h, id)
    ensures StopOf(Then(h, op), id).Some? && StopOf(h, id).None? ==>
              op.StopTx? && op.tx == id && StartOf(h, id).Some? && StartOf(h, id).value.cp == op.cp
    ensures StartOf(Then(h, op), id).Some? && StartOf(h, id).None? ==> op.StartTx? && id == Starts(h) + 1
  {
    StartIsStart(h, id);
  }

  /** Steps with which the core has nothing to do with this station's transactions. */
  lemma CoreKept(w: World, s: Joint, t: Joint)
    requires CoreOk(w, s)
    requires t.core == s.core || (t.core.Then? && t.core.before == s.core && Enabled(w, s, Elsewhere(t.core.op)))
    requires |t.stops| == |s.stops|
    requires forall j :: 0 <= j < |s.stops| ==>
               t.stops[j] == s.stops[j] || (s.stops[j].fate.Sent? && t.stops[j] == s.stops[j].(fate := Dropped))
    requires |s.attempts| <= |t.attempts|
    requires forall k :: 0 <= k < |s.attempts| ==> t.attempts[k] == s.attempts[k].(phase := t.attempts[k].phase)
    requires forall k :: 0 <= k < |s.attempts| ==> IdOf(t.attempts[k]) == IdOf(s.attempts[k])
    requires forall k :: |s.attempts| <= k < |t.attempts| ==> IdOf(t.attempts[k]).None?
    requires forall j :: 0 <= j < |s.stops| ==> Ours(w, s.core, s.stops[j].tx)
    ensures CoreOk(w, t)
  {
    forall k | 0 <= k < |t.attempts| ensures Recorded(w, t.core, t.attempts[k]) {
      if k < |s.attempts| {
        assert Recorded(w, s.core, s.attempts[k]);
        if t.core != s.core && IdOf(s.attempts[k]).Some? { Later(s.core, t.core.op, IdOf(s.attempts[k]).value); }
      }
    }
    forall j | 0 <= j < |t.stops| ensures StopRecorded(t.core, t.stops[j]) {
      assert StopRecorded(s.core, s.stops[j]);
      if t.core != s.core { Later(s.core, t.core.op, s.stops[j].tx); }
    }
    forall id | Ours(w, t.core, id) ensures Asks(t, id) {
      if t.core != s.core { Later(s.core, t.core.op, id); }
      assert Ours(w, s.core, id) && Asks(s, id);
      var k :| 0 <= k < |s.attempts| && IdOf(s.attempts[k]) == Some(id);
      assert IdOf(t.attempts[k]) == Some(id);
    }
    forall id | Ours(w, t.core, id) && StopOf(t.core, id).Some? ensures ArrivedStop(t, id) {
      if t.core != s.core { Later(s.core, t.core.op, id); }
      assert Ours(w, s.core, id) && ArrivedStop(s, id);
      var j :| 0 <= j < |s.stops| && s.stops[j].tx == id && s.stops[j].fate.Arrived?;
      assert t.stops[j] == s.stops[j];
    }
  }

  ghost predicate Ok(w: World, s: Joint) { IdsOk(s) && PlacesOk(s) && CoreOk(w, s) && MetersOk(s) }

  lemma StopsOurs(w: World, s: Joint)
    requires IdsOk(s) && CoreOk(w, s)
    ensures forall j :: 0 <= j < |s.stops| ==> Ours(w, s.core, s.stops[j].tx)
  {
  }

  /** Steps that open, take or stop no session. */
  predicate Quiet(s: Joint, step: Step) {
    match step
    case HandleStart(_, _, _) => false
    case FinishStart(k) => k < |s.attempts| && s.attempts[k].phase.Answered? && !s.attempts[k].phase.accepted
    case BeginStop(_, _) => false
    case HandleStop(_, _, _) => false
    case _ => true
  }

  /** Same sessions everywhere; at most a new attempt, a lost message or an unrelated core operation. */
  ghost predicate SameSessions(w: World, s: Joint, t: Joint) {
    && t.outlets.Keys == s.outlets.Keys && t.displaced == s.displaced
    && (forall c :: c in s.outlets ==> t.outlets[c].tx == s.outlets[c].tx && t.outlets[c].meter == s.outlets[c].meter)
    && |t.stops| == |s.stops|
    && (forall j :: 0 <= j < |s.stops| ==>
          t.stops[j] == s.stops[j] || (s.stops[j].fate.Sent? && t.stops[j] == s.stops[j].(fate := Dropped)))
    && |s.attempts| <= |t.attempts|
    && (forall k :: 0 <= k < |s.attempts| ==> SameAttempt(s.attempts[k], t.attempts[k]))
    && (forall k :: |s.attempts| <= k < |t.attempts| ==> NewAttempt(t, t.attempts[k]))
    && (t.core == s.core || (t.core.Then? && t.core.before == s.core && Enabled(w, s, Elsewhere(t.core.op))))
  }

  predicate SameAttempt(a: Attempt, b: Attempt) {
    b == a.(phase := b.phase) && IdOf(b) == IdOf(a) && (a.phase.Taken? || b.phase.Taken? ==> a == b)
  }

  predicate NewAttempt(t: Joint, a: Attempt) {
    a.phase.Asked? && a.connector in t.outlets && a.meterStart == t.outlets[a.connector].meter
  }

  lemma SameSessionsOk(w: World, s: Joint, t: Joint)
    requires Ok(w, s) && SameSessions(w, s, t)
    ensures Ok(w, t)
  {
    StopsOurs(w, s);
    forall k, l | 0 <= k < l < |t.attempts| && IdOf(t.attempts[k]).Some?
        ensures IdOf(t.attempts[k]) != IdOf(t.attempts[l]) {
      assert k < |s.attempts|;
      assert IdOf(t.attempts[k]) == IdOf(s.attempts[k]);
      assert l < |s.attempts| ==> IdOf(t.attempts[l]) == IdOf(s.attempts[l]);
    }
    IdsKept(s, t);
    PlacesKept(s, t);
    MetersKept(s, t);
    CoreKept(w, s, t);
  }

  lemma QuietSame(w: World, s: Joint, step: Step)
    requires Enabled(w, s, step) && Quiet(s, step)
    ensures SameSessions(w, s, Advance(w, s, step))
  {
    match step
    case SetStatus(_, _) =>
    case Reserve(_, _) =>
    case Cancel(_) =>
    case BeginStart(_, _) =>
    case LoseStart(_) =>
    case FinishStart(_) =>
    case LoseStop(_) =>
    case Elsewhere(_) =>
  }

  predicate Opens(w: World, a: Attempt, timestamp: Option<Time>) {
    V16.Refusal(Request(a, timestamp)).None? && w.knows(a.tag)
  }

  /** A start that opens nothing: refused, or an unknown tag. */
  lemma DeclinedSame(w: World, s: Joint, k: nat, timestamp: Option<Time>, now: Time)
    requires Enabled(w, s, HandleStart(k, timestamp, now)) && !Opens(w, s.attempts[k], timestamp)
    ensures SameSessions(w, s, Handled(w, s, k, timestamp, now))
  {
  }

  /** Ids given out so far are below the next one. */
  lemma IdsBelow(w: World, s: Joint, k: nat)
    requires CoreOk(w, s) && k < |s.attempts| && IdOf(s.attempts[k]).Some?
    ensures 1 <= IdOf(s.attempts[k]).value < After(w.cfg, s.core).nextTx
  {
    var id := IdOf(s.attempts[k]).value;
    assert Recorded(w, s.core, s.attempts[k]);
    StartIsStart(s.core, id);
    TableAlways(w.cfg, s.core, w.id, id);
  }

  /** What a start that opens a session does. */
  lemma OpenEffect(w: World, s: Joint, k: nat, timestamp: Option<Time>, now: Time)
    requires CoreOk(w, s) && Enabled(w, s, HandleStart(k, timestamp, now)) && Opens(w, s.attempts[k], timestamp)
    ensures var t := Handled(w, s, k, timestamp, now);
            var id := Starts(s.core) + 1;
            && t == s.(attempts := t.attempts, core := t.core)
            && t.attempts == s.attempts[k := t.attempts[k]]
            && t.attempts[k] == s.attempts[k].(phase := t.attempts[k].phase) && IdOf(t.attempts[k]) == Some(id)
            && !t.attempts[k].phase.Taken?
            && t.core.Then? && t.core.before == s.core && t.core.op.StartTx? && t.core.op.cp == w.id
            && Recorded(w, t.core, t.attempts[k])
  {
    TableAlways(w.cfg, s.core, w.id, 0);
  }

  lemma OpenCore(w: World, s: Joint, k: nat, timestamp: Option<Time>, now: Time)
    requires CoreOk(w, s) && Enabled(w, s, HandleStart(k, timestamp, now)) && Opens(w, s.attempts[k], timestamp)
    ensures CoreOk(w, Handled(w, s, k, timestamp, now))
  {
    var t := Handled(w, s, k, timestamp, now);
    OpenEffect(w, s, k, timestamp, now);
    var op := t.core.op;
    forall l | 0 <= l < |t.attempts| ensures Recorded(w, t.core, t.attempts[l]) {
      if l != k {
        assert Recorded(w, s.core, s.attempts[l]);
        if IdOf(s.attempts[l]).Some? { Later(s.core, op, IdOf(s.attempts[l]).value); }
      }
    }
    forall j | 0 <= j < |t.stops| ensures StopRecorded(t.core, t.stops[j]) {
      assert StopRecorded(s.core, s.stops[j]);
      Later(s.core, op, s.stops[j].tx);
    }
    forall id | Ours(w, t.core, id) ensures Asks(t, id) {
      Later(s.core, op, id);
      if id == Starts(s.core) + 1 {
        assert IdOf(t.attempts[k]) == Some(id);
      } else {
        assert Ours(w, s.core, id) && Asks(s, id);
        var l :| 0 <= l < |s.attempts| && IdOf(s.attempts[l]) == Some(id);
        assert IdOf(t.attempts[l]) == Some(id);
      }
    }
    forall id | Ours(w, t.core, id) && StopOf(t.core, id).Some? ensures ArrivedStop(t, id) {
      Later(s.core, op, id);
      StartIsStart(s.core, id);
      assert Ours(w, s.core, id) && ArrivedStop(s, id);
    }
  }

  lemma OpenIds(w: World, s: Joint, k: nat, timestamp: Option<Time>, now: Time)
    requires IdsOk(s) && CoreOk(w, s)
    requires Enabled(w, s, HandleStart(k, timestamp, now)) && Opens(w, s.attempts[k], timestamp)
    ensures IdsOk(Handled(w, s, k, timestamp, now))
  {
    var t := Handled(w, s, k, timestamp, now);
    OpenEffect(w, s, k, timestamp, now);
    forall l | 0 <= l < |s.attempts| && l != k && IdOf(s.attempts[l]).Some?
        ensures IdOf(s.attempts[l]) != IdOf(t.attempts[k]) {
      IdsBelow(w, s, l);
      TableAlways(w.cfg, s.core, w.id, 0);
    }
    IdsKept(s, t);
  }

  lemma OpenRest(w: World, s: Joint, k: nat, timestamp: Option<Time>, now: Time)
    requires PlacesOk(s) && MetersOk(s) && CoreOk(w, s)
    requires Enabled(w, s, HandleStart(k, timestamp, now)) && Opens(w, s.attempts[k], timestamp)
    ensures PlacesOk(Handled(w, s, k, timestamp, now)) && MetersOk(Handled(w, s, k, timestamp, now))
  {
    var t := Handled(w, s, k, timestamp, now);
    OpenEffect(w, s, k, timestamp, now);
    PlacesKept(s, t);
    MetersKept(s, t);
  }

  /** An id belongs to one attempt, so it is taken at one connector at most. */
  lemma OneOwner(s: Joint, k: nat, c: int, id: int)
    requires IdsOk(s) && k < |s.attempts| && IdOf(s.attempts[k]) == Some(id) && TakenAt(s, c, id)
    ensures s.attempts[k].phase == Taken(id) && s.attempts[k].connector == c
  {
  }

  /** Before its answer arrives an id is nowhere at the station. */
  lemma NotYet(s: Joint, k: nat, id: int)
    requires IdsOk(s) && k < |s.attempts| && s.attempts[k].phase == Answered(id, true)
    ensures !Stopped(s, id) && id !in s.displaced && forall c :: c in s.outlets ==> s.outlets[c].tx != id
  {
  }

  lemma TakeCore(w: World, s: Joint, k: nat)
    requires CoreOk(w, s) && Enabled(w, s, FinishStart(k)) && s.attempts[k].phase.accepted
    requires forall j :: 0 <= j < |s.stops| ==> Ours(w, s.core, s.stops[j].tx)
    ensures CoreOk(w, Finished(s, k))
  {
    var t := Finished(s, k);
    assert forall l :: 0 <= l < |s.attempts| ==> IdOf(t.attempts[l]) == IdOf(s.attempts[l]);
    CoreKept(w, s, t);
  }

  lemma TakeIds(s: Joint, k: nat)
    requires IdsOk(s) && k < |s.attempts| && s.attempts[k].phase.Answered? && s.attempts[k].phase.accepted
    requires s.attempts[k].connector in s.outlets
    ensures IdsOk(Finished(s, k))
  {
    var t := Finished(s, k);
    var at := s.attempts[k].connector;
    assert forall l :: 0 <= l < |s.attempts| ==> IdOf(t.attempts[l]) == IdOf(s.attempts[l]);
    assert t.attempts[k].phase == Taken(s.attempts[k].phase.tx);
    forall c | c in t.outlets && t.outlets[c].tx != 0 ensures TakenAt(t, c, t.outlets[c].tx) {
      if c != at { TakenKept(s, t, c, t.outlets[c].tx); }
    }
    forall j | 0 <= j < |t.stops| ensures TakenAt(t, t.stops[j].connector, t.stops[j].tx) {
      TakenKept(s, t, t.stops[j].connector, t.stops[j].tx);
    }
    forall id | id in t.displaced ensures DisplacedOk(t, id) { TakeDisplaces(s, k, id); }
  }

  lemma TakeDisplaces(s: Joint, k: nat, id: int)
    requires IdsOk(s) && k < |s.attempts| && s.attempts[k].phase.Answered? && s.attempts[k].phase.accepted
    requires s.attempts[k].connector in s.outlets && id in Finished(s, k).displaced
    ensures DisplacedOk(Finished(s, k), id)
  {
    var t, at := Finished(s, k), s.attempts[k].connector;
    if id in s.displaced {
      assert DisplacedOk(s, id);
      var c :| c in s.outlets && TakenAt(s, c, id);
      TakenKept(s, t, c, id);
    } else {
      TakenKept(s, t, at, id);
    }
  }

  lemma TakePlaces(s: Joint, k: nat)
    requires IdsOk(s) && PlacesOk(s) && k < |s.attempts| && s.attempts[k].phase.Answered?
             && s.attempts[k].phase.accepted
    requires s.attempts[k].connector in s.outlets
    ensures PlacesOk(Finished(s, k))
  {
    var t := Finished(s, k);
    var at, id := s.attempts[k].connector, s.attempts[k].phase.tx;
    NotYet(s, k, id);
    assert forall i :: Stopped(t, i) == Stopped(s, i);
    forall c | c in t.outlets && t.outlets[c].tx != 0
      ensures !Stopped(t, t.outlets[c].tx) && t.outlets[c].tx !in t.displaced
    {
      if c != at && s.outlets[at].tx == s.outlets[c].tx {
        OneOutlet(s, at, c);
      }
    }
    forall l | 0 <= l < |t.attempts| && t.attempts[l].phase.Taken?
      ensures OnOutlet(t, t.attempts[l].connector, t.attempts[l].phase.id)
              || Stopped(t, t.attempts[l].phase.id) || t.attempts[l].phase.id in t.displaced
    {
      if l != k { assert t.attempts[l] == s.attempts[l]; PositiveId(s, l); }
    }
  }

  lemma PositiveId(s: Joint, l: nat)
    requires IdsOk(s) && l < |s.attempts| && s.attempts[l].phase.Taken?
    ensures s.attempts[l].phase.id >= 1
  {
  }

  lemma OneOutlet(s: Joint, c: int, d: int)
    requires IdsOk(s) && c in s.outlets && d in s.outlets && s.outlets[c].tx == s.outlets[d].tx != 0
    ensures c == d
  {
  }

  lemma TakeMeters(s: Joint, k: nat)
    requires MetersOk(s) && k < |s.attempts| && s.attempts[k].phase.Answered? && s.attempts[k].phase.accepted
    requires s.attempts[k].connector in s.outlets && !Stopped(s, s.attempts[k].phase.tx)
    ensures MetersOk(Finished(s, k))
  {
  }

  // Stops.

  lemma StopIds(w: World, s: Joint, c: int, reason: string)
    requires IdsOk(s) && Enabled(w, s, BeginStop(c, reason))
    ensures IdsOk(Stopping(s, c, reason))
  {
  }

  lemma StopAdds(s: Joint, c: int, reason: string, id: int)
    requires c in s.outlets
    ensures Stopped(Stopping(s, c, reason), id) <==> Stopped(s, id) || id == s.outlets[c].tx
  {
    var t := Stopping(s, c, reason);
    if Stopped(s, id) {
      var j :| 0 <= j < |s.stops| && s.stops[j].tx == id;
      assert t.stops[j].tx == id;
    }
    assert t.stops[|s.stops|].tx == s.outlets[c].tx;
  }

  lemma StopPlaces(w: World, s: Joint, c: int, reason: string)
    requires IdsOk(s) && PlacesOk(s) && Enabled(w, s, BeginStop(c, reason))
    ensures PlacesOk(Stopping(s, c, reason))
  {
    var t := Stopping(s, c, reason);
    var id := s.outlets[c].tx;
    forall i, j | 0 <= i < j < |t.stops| ensures t.stops[i].tx != t.stops[j].tx {
      if j == |s.stops| { assert !Stopped(s, id); assert t.stops[i] == s.stops[i]; }
    }
    forall d | d in t.outlets && t.outlets[d].tx != 0
      ensures !Stopped(t, t.outlets[d].tx) && t.outlets[d].tx !in t.displaced
    {
      StopAdds(s, c, reason, t.outlets[d].tx);
      if t.outlets[d].tx == id { OneOutlet(s, c, d); }
    }
    forall x | x in t.displaced ensures !Stopped(t, x) { StopAdds(s, c, reason, x); }
    forall k | 0 <= k < |t.attempts| && t.attempts[k].phase.Taken?
      ensures OnOutlet(t, t.attempts[k].connector, t.attempts[k].phase.id)
              || Stopped(t, t.attempts[k].phase.id) || t.attempts[k].phase.id in t.displaced
    {
      assert t.attempts[k] == s.attempts[k];
      StopAdds(s, c, reason, t.attempts[k].phase.id);
    }
  }

  lemma StopMeters(w: World, s: Joint, c: int, reason: string)
    requires IdsOk(s) && MetersOk(s) && Enabled(w, s, BeginStop(c, reason))
    ensures MetersOk(Stopping(s, c, reason))
  {
    var t := Stopping(s, c, reason);
    assert t.stops[..|s.stops|] == s.stops;
    forall j, k | 0 <= j < |t.stops| && 0 <= k < |t.attempts| && t.attempts[k].phase == Taken(t.stops[j].tx)
      ensures t.stops[j].meter >= t.attempts[k].meterStart + SESSION_ENERGY
    {
      if j == |s.stops| {
        OneOwner(s, k, c, s.outlets[c].tx);
      } else {
        assert t.stops[j] == s.stops[j];
      }
    }
  }

  lemma StopCore(w: World, s: Joint, c: int, reason: string)
    requires IdsOk(s) && PlacesOk(s) && CoreOk(w, s) && Enabled(w, s, BeginStop(c, reason))
    ensures CoreOk(w, Stopping(s, c, reason))
  {
    var t := Stopping(s, c, reason);
    var id := s.outlets[c].tx;
    OutletOurs(w, s, c);
    assert !Stopped(s, id) && !ArrivedStop(s, id);
    forall j | 0 <= j < |t.stops| ensures StopRecorded(t.core, t.stops[j]) {
      if j < |s.stops| { assert StopRecorded(s.core, s.stops[j]); }
    }
    forall i | Ours(w, t.core, i) ensures Asks(t, i) {
      assert Asks(s, i);
      var k :| 0 <= k < |s.attempts| && IdOf(s.attempts[k]) == Some(i);
      assert IdOf(t.attempts[k]) == Some(i);
    }
    forall i | Ours(w, t.core, i) && StopOf(t.core, i).Some? ensures ArrivedStop(t, i) {
      assert ArrivedStop(s, i);
      var j :| 0 <= j < |s.stops| && s.stops[j].tx == i && s.stops[j].fate.Arrived?;
      assert t.stops[j] == s.stops[j];
    }
  }

  lemma OutletOurs(w: World, s: Joint, c: int)
    requires IdsOk(s) && CoreOk(w, s) && c in s.outlets && s.outlets[c].tx != 0
    ensures Ours(w, s.core, s.outlets[c].tx)
  {
  }

  lemma ArriveStops(w: World, s: Joint, j: nat, timestamp: Option<Time>, now: Time)
    requires CoreOk(w, s) && Enabled(w, s, HandleStop(j, timestamp, now)) && Ours(w, s.core, s.stops[j].tx)
    requires forall i, l :: 0 <= i < l < |s.stops| ==> s.stops[i].tx != s.stops[l].tx
    ensures var t := Advance(w, s, HandleStop(j, timestamp, now));
            forall i :: 0 <= i < |t.stops| ==> StopRecorded(t.core, t.stops[i])
  {
  }

  lemma ArriveCore(w: World, s: Joint, j: nat, timestamp: Option<Time>, now: Time)
    requires CoreOk(w, s) && Enabled(w, s, HandleStop(j, timestamp, now)) && Ours(w, s.core, s.stops[j].tx)
    requires forall i, l :: 0 <= i < l < |s.stops| ==> s.stops[i].tx != s.stops[l].tx
    ensures CoreOk(w, Advance(w, s, HandleStop(j, timestamp, now)))
  {
    var t := Advance(w, s, HandleStop(j, timestamp, now));
    var op := t.core.op;
    ArriveStops(w, s, j, timestamp, now);
    forall k | 0 <= k < |t.attempts| ensures Recorded(w, t.core, t.attempts[k]) {
      assert Recorded(w, s.core, s.attempts[k]);
      if IdOf(s.attempts[k]).Some? { Later(s.core, op, IdOf(s.attempts[k]).value); }
    }
    forall id | Ours(w, t.core, id) ensures Asks(t, id) {
      Later(s.core, op, id);
      assert Ours(w, s.core, id) && Asks(s, id);
    }
    forall id | Ours(w, t.core, id) && StopOf(t.core, id).Some? ensures ArrivedStop(t, id) {
      Later(s.core, op, id);
      assert Ours(w, s.core, id);
      if id == s.stops[j].tx {
        assert t.stops[j].fate.Arrived?;
      } else {
        assert ArrivedStop(s, id);
        var i :| 0 <= i < |s.stops| && s.stops[i].tx == id && s.stops[i].fate.Arrived?;
        assert t.stops[i] == s.stops[i];
      }
    }
  }

  lemma ArriveIds(s: Joint, t: Joint, j: nat)
    requires IdsOk(s) && j < |s.stops| && t == Fated(s, j, Arrived).(core := t.core)
    ensures IdsOk(t)
  {
  }

  lemma ArriveRest(s: Joint, t: Joint, j: nat)
    requires PlacesOk(s) && MetersOk(s) && j < |s.stops| && t == Fated(s, j, Arrived).(core := t.core)
    ensures PlacesOk(t) && MetersOk(t)
  {
    PlacesKept(s, t);
    MetersKept(s, t);
  }

  lemma StepOk(w: World, s: Joint, step: Step)
    requires Ok(w, s) && Enabled(w, s, step)
    ensures Ok(w, Advance(w, s, step))
  {
    if Quiet(s, step) {
      QuietSame(w, s, step);
      SameSessionsOk(w, s, Advance(w, s, step));
    } else {
      match step
      case HandleStart(k, timestamp, now) => HandleStartOk(w, s, k, timestamp, now);
      case FinishStart(k) =>
        NotYet(s, k, s.attempts[k].phase.tx);
        StopsOurs(w, s);
        TakeIds(s, k);
        TakePlaces(s, k);
        TakeMeters(s, k);
        TakeCore(w, s, k);
      case BeginStop(c, reason) =>
        StopIds(w, s, c, reason);
        StopPlaces(w, s, c, reason);
        StopMeters(w, s, c, reason);
        StopCore(w, s, c, reason);
      case HandleStop(j, timestamp, now) =>
        StopsOurs(w, s);
        ArriveCore(w, s, j, timestamp, now);
        ArriveIds(s, Advance(w, s, step), j);
        ArriveRest(s, Advance(w, s, step), j);
    }
  }

  lemma HandleStartOk(w: World, s: Joint, k: nat, timestamp: Option<Time>, now: Time)
    requires Ok(w, s) && Enabled(w, s, HandleStart(k, timestamp, now))
    ensures Ok(w, Handled(w, s, k, timestamp, now))
  {
    if Opens(w, s.attempts[k], timestamp) {
      OpenIds(w, s, k, timestamp, now);
      OpenRest(w, s, k, timestamp, now);
      OpenCore(w, s, k, timestamp, now);
    } else {
      DeclinedSame(w, s, k, timestamp, now);
      SameSessionsOk(w, s, Handled(w, s, k, timestamp, now));
    }
  }

  lemma {:induction false} Always(w: World, run: Run)
    requires Legal(w, run)
    ensures Ok(w, At(w, run))
  {
    if run.Next? {
      Always(w, run.before);
      StepOk(w, At(w, run.before), run.step);
    } else {
      assert StartOf(Start, 0).None?;
    }
  }
}
