/** The transaction table against history, over all charge points. */
module CoreTx {
  import opened Text
  import opened Config
  import opened Core

  ghost function Starts(h: History): nat {
    match h
    case Start => 0
    case Then(before, op) => Starts(before) + (if op.StartTx? then 1 else 0)
  }

  /** The start that was given an id: the first start gets 1, the second 2, and so on. */
  ghost function StartOf(h: History, id: int): Option<Op> {
    match h
    case Start => None
    case Then(before, op) => if op.StartTx? && id == Starts(before) + 1 then Some(op) else StartOf(before, id)
  }

  /** The first stop of a transaction by the charge point that started it. */
  ghost function StopOf(h: History, id: int): Option<Op> {
    match h
    case Start => None
    case Then(before, op) =>
      if StopOf(before, id).Some? then StopOf(before, id)
      else if op.StopTx? && op.tx == id && StartOf(before, id).Some? && StartOf(before, id).value.cp == op.cp then
          Some(op)
      else None
  }

  /** The record a started transaction should have. */
  ghost function Expected(cfg: Config, h: History, id: int): Transaction
    requires StartOf(h, id).Some? && StartOf(h, id).value.StartTx?
    requires StopOf(h, id).Some? ==> StopOf(h, id).value.StopTx?
  {
    var start := StartOf(h, id).value;
    var t := Opened(id, EvseUid(cfg, start.cp, start.connector), start);
    if StopOf(h, id).Some? then Closed(t, StopOf(h, id).value) else t
  }

  lemma {:induction false} StartIsStart(h: History, id: int)
    ensures StartOf(h, id).Some? <==> 1 <= id <= Starts(h)
    ensures StartOf(h, id).Some? ==> StartOf(h, id).value.StartTx?
    ensures StopOf(h, id).Some? ==>
              StartOf(h, id).Some? && StopOf(h, id).value.StopTx? && StopOf(h, id).value.tx == id
              && StopOf(h, id).value.cp == StartOf(h, id).value.cp
  {
    if h.Then? { StartIsStart(h.before, id); }
  }

  /** No stop was stamped with the zero time: a clock never returns it. */
  ghost predicate Clocked(h: History) {
    h.Then? ==> Clocked(h.before) && (h.op.StopTx? ==> h.op.now != ZERO_TIME)
  }

  ghost predicate EntryOk(cfg: Config, h: History, cp: string, id: int) {
    var txs := Find(After(cfg, h), cp).transactions;
    StartIsStart(h, id);
    && (id in txs <==> StartOf(h, id).Some? && StartOf(h, id).value.cp == cp)
    && (id in txs ==> txs[id] == Expected(cfg, h, id))
  }

  /** What an operation does to the table of the charge point it is about. */
  lemma {:induction false} UpdateTransactions(cfg: Config, c: ChargePoint, nextTx: int, op: Op)
    requires Listed(c)
    ensures Update(cfg, c, nextTx, op).0.transactions ==
              if op.StartTx? then c.transactions[nextTx := Opened(nextTx, EvseUid(cfg, op.cp, op.connector), op)]
              else if op.StopTx? && Running(c, op.tx) then c.transactions[op.tx := Closed(c.transactions[op.tx], op)]
              else c.transactions
  {
  }

  lemma {:induction false} TableAlways(cfg: Config, h: History, cp: string, id: int)
    requires Clocked(h)
    ensures After(cfg, h).nextTx == Starts(h) + 1
    ensures EntryOk(cfg, h, cp, id)
  {
    match h
    case Start => NoTransactions(cfg.evses);
    case Then(before, op) =>
      var s := After(cfg, before);
      TableAlways(cfg, before, cp, id);
      StartIsStart(before, id);
      StartIsStart(h, id);
      UpdateTransactions(cfg, Find(s, op.cp), s.nextTx, op);
      if op.cp == cp {
        EntryStep(cfg, before, op, id);
      }
  }

  lemma {:induction false} NoTransactions(evses: seq<Evse>)
    ensures Configured(evses).transactions == map[]
  {
  }

  lemma {:induction false} EntryStep(cfg: Config, h: History, op: Op, id: int)
    requires Clocked(Then(h, op)) && EntryOk(cfg, h, op.cp, id) && After(cfg, h).nextTx == Starts(h) + 1
    ensures EntryOk(cfg, Then(h, op), op.cp, id)
  {
    var s := After(cfg, h);
    StartIsStart(h, id);
    StartIsStart(Then(h, op), id);
    StopsStamped(h, id);
    UpdateTransactions(cfg, Find(s, op.cp), s.nextTx, op);
  }

  /**
   Transaction table. After any history the ids given out are 1, 2, 3 and so on in the order of
   the starts; each is listed under the one charge point that started it, with that start's data,
   and is closed by exactly its first stop from there, if there was one.
   */
  lemma {:induction false} TableEqualsHistory(cfg: Config, h: History, cp: string, id: int)
    requires Clocked(h)
    ensures var s := After(cfg, h);
            var txs := Find(s, cp).transactions;
            && s.nextTx == Starts(h) + 1
            && (StartOf(h, id).Some? <==> 1 <= id < s.nextTx)
            && (id in txs <==> StartOf(h, id).Some? && StartOf(h, id).value.cp == cp)
            && (id in txs ==>
                  && StartOf(h, id).value.StartTx?
                  && (StopOf(h, id).Some? ==> StopOf(h, id).value.StopTx?)
                  && txs[id] == Expected(cfg, h, id)
                  && (txs[id].Active() <==> StopOf(h, id).None?))
  {
    TableAlways(cfg, h, cp, id);
    StartIsStart(h, id);
    StopsStamped(h, id);
  }

  lemma {:induction false} StopsStamped(h: History, id: int)
    requires Clocked(h)
    ensures StopOf(h, id).Some? ==> StopOf(h, id).value.StopTx? && StopOf(h, id).value.now != ZERO_TIME
  {
    if h.Then? { StopsStamped(h.before, id); }
  }

  /** The history was continued by some operations. */
  ghost predicate Continues(h: History, later: History) {
    h == later || (later.Then? && Continues(h, later.before))
  }

  /**
   A transaction's start never changes and its stop happens once: in every continuation the id
   belongs to the same start, and a recorded stop stays the recorded stop.
   */
  lemma {:induction false} StartAndStopFinal(h: History, later: History, id: int)
    requires Continues(h, later) && StartOf(h, id).Some?
    ensures StartOf(later, id) == StartOf(h, id)
    ensures StopOf(h, id).Some? ==> StopOf(later, id) == StopOf(h, id)
  {
    StartIsStart(h, id);
    if h != later {
      StartAndStopFinal(h, later.before, id);
      StartIsStart(later.before, id);
    }
  }

  /** The time a call stands for: the one it reports, unless that is the zero time. */
  ghost predicate Stamped(t: Time, reported: Time, clock: Time) {
    (reported != ZERO_TIME ==> t == reported) && (reported == ZERO_TIME ==> t == clock)
  }

  /**
   What a listed transaction says, field by field. Its start fields are those of the start that
   was given its id, timed by the station's own report if there was one; its stop fields are those
   of its first stop, timed likewise, or empty.
   */
  lemma {:induction false} RecordSays(cfg: Config, h: History, cp: string, id: int)
    requires Clocked(h) && id in Find(After(cfg, h), cp).transactions
    ensures var t := Find(After(cfg, h), cp).transactions[id];
            && StartOf(h, id).Some? && StartOf(h, id).value.StartTx?
            && var start := StartOf(h, id).value;
               && start.cp == cp && t.id == id && t.uid == EvseUid(cfg, cp, start.connector)
               && t.connector == start.connector && t.tag == start.tag && t.meterStart == start.meter
               && Stamped(t.startedAt, start.at, start.now)
    ensures var t := Find(After(cfg, h), cp).transactions[id];
            match StopOf(h, id)
            case None => t.stoppedAt == ZERO_TIME && t.meterStop == 0 && t.reason == ""
            case Some(stop) =>
              && stop.StopTx? && stop.cp == cp && stop.tx == id
              && t.meterStop == stop.meter && t.reason == stop.why && Stamped(t.stoppedAt, stop.at, stop.now)
  {
    TableEqualsHistory(cfg, h, cp, id);
    StartIsStart(h, id);
  }

  /** StopTransaction succeeds exactly for a transaction of that charge point not stopped before. */
  lemma {:induction false} StopSucceedsExactly(cfg: Config, h: History, cp: string, id: int)
    requires Clocked(h)
    ensures Running(Find(After(cfg, h), cp), id) <==>
            StartOf(h, id).Some? && StartOf(h, id).value.cp == cp && StopOf(h, id).None?
  {
    TableEqualsHistory(cfg, h, cp, id);
  }
}
