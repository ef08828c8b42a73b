/**
 What outbound calls may rely on, against a peer that may send anything: the pending map holds
 exactly the calls in flight, and a call is answered by the first response carrying its id that
 was looked up after it registered, at most once, and by nothing else.
 */
module RpcCalls {
  import opened Text
  import opened Frame
  import opened Rpc

  lemma IdInjective(i: nat, j: nat)
    requires Id(i) == Id(j)
    ensures i == j
  {
    DecimalInjective(i + 1, j + 1);
  }

  /** Pending entries and calls in flight determine each other. */
  ghost predicate PendingOk(s: State) {
    && (forall i :: 0 <= i < |s.callers| && InFlight(s.callers[i].phase) ==>
          Id(i) in s.pending && s.pending[Id(i)] == i)
    && (forall k :: k in s.pending ==>
          s.pending[k] < |s.callers| && k == Id(s.pending[k]) && InFlight(s.callers[s.pending[k]].phase))
  }

  /** Position k holds the first response for id among those looked up from position since on. */
  ghost predicate FirstFor(looked: seq<(string, Reply)>, since: nat, id: string, k: nat) {
    && since <= k < |looked| && looked[k].0 == id
    && forall j :: since <= j < k ==> looked[j].0 != id
  }

  ghost predicate NoneFor(looked: seq<(string, Reply)>, since: nat, id: string) {
    forall j :: since <= j < |looked| ==> looked[j].0 != id
  }

  predicate DeliveringTo(s: State, i: nat) { s.reader.Delivering? && s.reader.caller == i }

  /** The channel and the outcome of call i carry the first matching response or nothing. */
  ghost predicate AnswerOk(s: State, i: nat)
    requires i < |s.callers|
  {
    var c := s.callers[i];
    && c.since <= |s.looked|
    && c.phase != Returning(NotEncoded)
    && (c.phase.Assigned? || c.phase == Finished(NotEncoded) ==> c.first.None? && !DeliveringTo(s, i))
    && (c.phase.Assigned? || c.phase == Finished(NotEncoded) || Encodable(c))
    && (c.first.None? ==> c.slot.None? && !(Decided(c.phase) && c.phase.outcome.Answered?))
    && (c.first.Some? ==>
          && FirstFor(s.looked, c.since, Id(i), c.first.value)
          && var reply := s.looked[c.first.value].1;
             if Decided(c.phase) && c.phase.outcome.Answered? then c.phase.outcome.reply == reply
             else c.slot == Some(reply))
    && (c.first.None? && InFlight(c.phase) && !DeliveringTo(s, i) ==> NoneFor(s.looked, c.since, Id(i)))
    && (DeliveringTo(s, i) ==>
          && |s.looked| > c.since && s.looked[|s.looked| - 1] == (Id(i), s.reader.reply)
          && (c.first.None? ==> FirstFor(s.looked, c.since, Id(i), |s.looked| - 1)))
  }

  ghost predicate CallsOk(s: State) {
    && PendingOk(s)
    && (s.reader.Delivering? ==> s.reader.caller < |s.callers|)
    && forall i :: 0 <= i < |s.callers| ==> AnswerOk(s, i)
  }

  lemma PendingStep(s: State, a: CallAction)
    requires PendingOk(s) && !a.Begin? && CallEnabled(s, a)
    ensures PendingOk(ApplyCall(s, a))
  {
    var i := a.i;
    forall j | 0 <= j < |s.callers| && j != i ensures Id(j) != Id(i) {
      if Id(j) == Id(i) { IdInjective(j, i); }
    }
  }

  lemma AnswerStep(s: State, a: CallAction, i: nat)
    requires CallEnabled(s, a)
    requires i < |ApplyCall(s, a).callers| && (i < |s.callers| ==> AnswerOk(s, i))
    requires s.reader.Delivering? ==> s.reader.caller < |s.callers|
    ensures AnswerOk(ApplyCall(s, a), i)
  {
  }

  lemma CallStep(s: State, a: CallAction)
    requires CallsOk(s) && CallEnabled(s, a)
    ensures CallsOk(ApplyCall(s, a))
  {
    var t := ApplyCall(s, a);
    if !a.Begin? {
      PendingStep(s, a);
    }
    forall i | 0 <= i < |t.callers| ensures AnswerOk(t, i) {
      AnswerStep(s, a, i);
    }
  }

  lemma LookupStep(s: State)
    requires CallsOk(s) && ReadEnabled(s, Lookup)
    ensures CallsOk(ApplyReader(s, Lookup))
  {
    var t := ApplyReader(s, Lookup);
    var id := s.reader.id;
    forall i | 0 <= i < |t.callers| ensures AnswerOk(t, i) {
      assert AnswerOk(s, i);
      if InFlight(s.callers[i].phase) && Id(i) == id {
        assert s.pending[id] == i;
      }
    }
  }

  lemma DepositStep(s: State)
    requires CallsOk(s) && ReadEnabled(s, Deposit)
    ensures CallsOk(ApplyReader(s, Deposit))
  {
    var t := ApplyReader(s, Deposit);
    forall i | 0 <= i < |t.callers| ensures AnswerOk(t, i) {
      assert AnswerOk(s, i);
    }
  }

  /** A step that touches no call, no pending entry and no lookup keeps them in order. */
  lemma CallsUntouched(s: State, t: State)
    requires CallsOk(s)
    requires t.callers == s.callers && t.pending == s.pending && t.looked == s.looked
    requires t.reader == s.reader || !(s.reader.Delivering? || t.reader.Delivering?)
    ensures CallsOk(t)
  {
    forall i | 0 <= i < |t.callers| ensures AnswerOk(t, i) {
      assert AnswerOk(s, i);
    }
  }

  lemma CallsStep(s: State, a: Action)
    requires CallsOk(s) && Enabled(s, a)
    ensures CallsOk(Apply(s, a))
  {
    match a
    case OfCall(c) => CallStep(s, c);
    case OfReader(Lookup) => LookupStep(s);
    case OfReader(Deposit) => DepositStep(s);
    case _ => CallsUntouched(s, Apply(s, a));
  }

  lemma {:induction false} CallsAlways(s: State, run: seq<Action>)
    requires CallsOk(s) && Runs(s, run)
    ensures CallsOk(After(s, run))
    decreases |run|
  {
    if run != [] {
      CallsStep(s, run[0]);
      CallsAlways(Apply(s, run[0]), run[1..]);
    }
  }

  /**
   Pending accounting. The pending keys are exactly the ids of the calls between registration
   and return, so none is left once no call is in flight, however each call ended.
   */
  lemma PendingAccounting(run: seq<Action>)
    requires Runs(INITIAL, run)
    ensures var s := After(INITIAL, run);
            && s.pending.Keys == (set i: nat | i < |s.callers| && InFlight(s.callers[i].phase) :: Id(i))
            && |s.pending| == |set i: nat | i < |s.callers| && InFlight(s.callers[i].phase)|
            && ((forall c :: c in s.callers ==> !InFlight(c.phase)) ==> s.pending == map[])
  {
    CallsAlways(INITIAL, run);
    var s := After(INITIAL, run);
    var flying := set i: nat | i < |s.callers| && InFlight(s.callers[i].phase);
    var ids := set i: nat | i < |s.callers| && InFlight(s.callers[i].phase) :: Id(i);
    assert s.pending.Keys == ids by {
      forall k | k in s.pending ensures k in ids {
        assert s.pending[k] in flying;
      }
    }
    SameSize(flying, s.pending.Keys, s.pending);
    if forall c :: c in s.callers ==> !InFlight(c.phase) {
      assert flying == {};
    }
  }

  /** Ids are injective, so renaming a set of calls to their ids keeps its size. */
  lemma {:induction false} SameSize(calls: set<nat>, ids: set<string>, pending: map<string, nat>)
    requires ids <= pending.Keys
    requires forall i :: i in calls ==> Id(i) in ids && pending[Id(i)] == i
    requires forall k :: k in ids ==> pending[k] in calls && Id(pending[k]) == k
    ensures |calls| == |ids|
    decreases |calls|
  {
    if calls == {} {
      assert ids == {};
    } else {
      var i :| i in calls;
      forall k | k in ids - {Id(i)} ensures pending[k] in calls - {i} {
        assert Id(pending[k]) == k;
      }
      SameSize(calls - {i}, ids - {Id(i)}, pending);
      assert |calls - {i}| == |calls| - 1 && |ids - {Id(i)}| == |ids| - 1;
    }
  }

  /**
   Correlation against any peer. A call that returns an answer returns the first response with
   its own id looked up after it registered; duplicates and late responses are never it.
   */
  lemma AnsweredByFirstResponse(run: seq<Action>, i: nat)
    requires Runs(INITIAL, run)
    requires i < |After(INITIAL, run).callers|
    requires var p := After(INITIAL, run).callers[i].phase; Decided(p) && p.outcome.Answered?
    ensures var s := After(INITIAL, run);
            var c := s.callers[i];
            && c.first.Some?
            && FirstFor(s.looked, c.since, Id(i), c.first.value)
            && c.phase.outcome.reply == s.looked[c.first.value].1
  {
    CallsAlways(INITIAL, run);
    assert AnswerOk(After(INITIAL, run), i);
  }

  /** What every step leaves of a call: its request, and its outcome once it is decided. */
  ghost predicate CallKept(c: Caller, d: Caller) {
    && d.action == c.action && d.payload == c.payload
    && (Decided(c.phase) ==> Decided(d.phase) && d.phase.outcome == c.phase.outcome)
    && (Decided(c.phase) || c.phase.Waiting? ==> Decided(d.phase) || d.phase.Waiting?)
  }

  ghost predicate CallsKept(cs: seq<Caller>, ds: seq<Caller>) {
    |cs| <= |ds| && forall i :: 0 <= i < |cs| ==> CallKept(cs[i], ds[i])
  }

  lemma KeptByCall(s: State, a: CallAction)
    requires CallEnabled(s, a)
    ensures CallsKept(s.callers, ApplyCall(s, a).callers)
  {
  }

  lemma KeptByReader(s: State, a: ReadAction)
    requires ReadEnabled(s, a)
    ensures CallsKept(s.callers, ApplyReader(s, a).callers)
  {
  }

  lemma KeptByStep(s: State, a: Action)
    requires Enabled(s, a)
    ensures CallsKept(s.callers, Apply(s, a).callers)
  {
    match a
    case OfCall(c) => KeptByCall(s, c);
    case OfReader(r) => KeptByReader(s, r);
    case _ => assert Apply(s, a).callers == s.callers;
  }

  /** A call completes at most once: its outcome survives every continuation of the run. */
  lemma {:induction false} CompletesOnce(s: State, run: seq<Action>, i: nat)
    requires Runs(s, run) && i < |s.callers| && Decided(s.callers[i].phase)
    ensures i < |After(s, run).callers|
    ensures var p := After(s, run).callers[i].phase;
            Decided(p) && p.outcome == s.callers[i].phase.outcome
    decreases |run|
  {
    if run != [] {
      KeptByStep(s, run[0]);
      CompletesOnce(Apply(s, run[0]), run[1..], i);
    }
  }

  /**
   Responses cannot cross over. Looking one up and delivering it leaves every call with another
   id exactly as it was; one with no pending call, such as "-1", changes no call and no entry.
   */
  lemma ResponsesDoNotCross(s: State, j: nat)
    requires CallsOk(s) && s.reader.LookingUp? && j < |s.callers|
    ensures var id := s.reader.id;
            var t := ApplyReader(s, Lookup);
            && t.callers == s.callers && t.pending == s.pending
            && (id !in s.pending ==> t.reader.Reading?)
            && (id in s.pending ==>
                  && ReadEnabled(t, Deposit)
                  && var u := ApplyReader(t, Deposit);
                     && u.pending == s.pending
                     && (Id(j) != id ==> u.callers[j] == s.callers[j])
                     && u.callers[j].phase == s.callers[j].phase
                     && (s.callers[j].slot.Some? ==> u.callers[j] == s.callers[j]))
    ensures UNKNOWN_MESSAGE_ID !in s.pending
  {
    assert UNKNOWN_MESSAGE_ID[0] == '-';
  }
}
