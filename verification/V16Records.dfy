/**
 What each OCPP 1.6 message leaves behind in the core: the transaction it opens or closes, the time
 that is recorded for it, and the events it commits.
 */
module V16Records {
  import opened Text
  import opened Config
  import opened Core
  import opened CoreTx
  import opened CoreLog
  import opened V16

  /** No message was handled at the zero time: a clock never returns it. */
  ghost predicate Timed(ins: Inputs) {
    ins.More? ==> Timed(ins.before) && (ins.input.In? ==> ins.input.now != ZERO_TIME)
  }

  lemma {:induction false} TimedIsClocked(knows: string -> bool, ins: Inputs)
    requires Timed(ins)
    ensures Clocked(Ops(knows, ins))
  {
    if ins.More? { TimedIsClocked(knows, ins.before); }
  }

  /** The time recorded for a message: its own timestamp if it parsed, else when it was handled. */
  ghost predicate Dated(t: Time, timestamp: Option<Time>, now: Time) {
    match timestamp
    case Some(at) => if at != ZERO_TIME then t == at else t == now
    case None => t == now
  }

  /**
   An accepted StartTransaction. With a known tag it opens exactly one transaction, under the next
   id, with the message's own connector, tag, meter reading and time, and commits exactly its
   Started event. With any other tag it opens nothing and commits nothing.
   */
  lemma {:induction false} StartRecorded(
    cfg: Config, knows: string -> bool, ins: Inputs, cp: string, m: Message, now: Time)
    requires Timed(ins) && now != ZERO_TIME && m.StartTransaction? && Refusal(m).None?
    ensures var s, t := After(cfg, Ops(knows, ins)), After(cfg, Ops(knows, More(ins, In(cp, m, now))));
            var id := s.nextTx;
            if knows(m.idTag) then
              && id in Find(t, cp).transactions && Find(t, cp).transactions - {id} == Find(s, cp).transactions
              && id !in Find(s, cp).transactions && t.nextTx == id + 1
              && t.log == s.log + [Started(cp, EvseUid(cfg, cp, m.connectorId), id, m.idTag)]
            else Find(t, cp).transactions == Find(s, cp).transactions && t.nextTx == id && t.log == s.log
    ensures knows(m.idTag) ==>
              var s, t := After(cfg, Ops(knows, ins)), After(cfg, Ops(knows, More(ins, In(cp, m, now))));
              && s.nextTx in Find(t, cp).transactions
              && var x := Find(t, cp).transactions[s.nextTx];
                 && x.id == s.nextTx && x.uid == EvseUid(cfg, cp, m.connectorId) && x.connector == m.connectorId
                 && x.tag == m.idTag && x.meterStart == m.meterStart && Dated(x.startedAt, m.timestamp, now)
                 && x.Active()
  {
    var h := Ops(knows, ins);
    TimedIsClocked(knows, ins);
    TableEqualsHistory(cfg, h, cp, After(cfg, h).nextTx);
    var op := Effect(knows, cp, m, now);
    var es := CommitsExactly(cfg, h, op);
    NextId(cfg, h);
    UpdateTransactions(cfg, Find(After(cfg, h), cp), After(cfg, h).nextTx, op);
    assert After(cfg, h).log + [] == After(cfg, h).log;
  }

  /**
   An accepted StopTransaction. If it names a running transaction of this charge point it closes
   that one with its own meter reading, reason and time, and commits exactly its Stopped event;
   otherwise it changes no transaction and commits nothing.
   */
  lemma {:induction false} StopRecorded(
    cfg: Config, knows: string -> bool, ins: Inputs, cp: string, m: Message, now: Time)
    requires Timed(ins) && now != ZERO_TIME && m.StopTransaction?
    ensures var s, t := After(cfg, Ops(knows, ins)), After(cfg, Ops(knows, More(ins, In(cp, m, now))));
            var before, after := Find(s, cp).transactions, Find(t, cp).transactions;
            var tx := m.transactionId;
            if Running(Find(s, cp), tx) then
              && tx in after && after - {tx} == before - {tx} && !after[tx].Active()
              && after[tx] == before[tx].(stoppedAt := after[tx].stoppedAt, meterStop := m.meterStop, reason :=
                   m.reason)
              && Dated(after[tx].stoppedAt, m.timestamp, now)
              && t.log == s.log + [StoppedTx(cp, before[tx].uid, tx, before[tx].tag, m.reason)]
            else after == before && t.log == s.log
  {
    var h := Ops(knows, ins);
    TimedIsClocked(knows, ins);
    var op := Effect(knows, cp, m, now);
    var c := Find(After(cfg, h), cp);
    UpdateTransactions(cfg, c, After(cfg, h).nextTx, op);
    assert After(cfg, h).log + [] == After(cfg, h).log;
  }

  /** A reading makes its connector's EVSE known and commits exactly its own event. */
  lemma {:induction false} ReadingRecorded(
    cfg: Config, knows: string -> bool, ins: Inputs, cp: string, connector: int, now: Time)
    ensures var s := After(cfg, Ops(knows, ins));
            var t := After(cfg, Ops(knows, More(ins, In(cp, MeterReading(connector), now))));
            && EvseUid(cfg, cp, connector) in Find(t, cp).effective
            && t.log == s.log + [Metered(cp, EvseUid(cfg, cp, connector))]
            && Find(t, cp).transactions == Find(s, cp).transactions
  {
  }

  /** Every other accepted message, a status report aside, only makes the charge point known. */
  lemma {:induction false} OthersRecorded(
    cfg: Config, knows: string -> bool, ins: Inputs, cp: string, m: Message, now: Time)
    requires Refusal(m).None?
    requires !m.StatusNotification? && !m.StartTransaction? && !m.StopTransaction? && !m.MeterReading?
    ensures var s, t := After(cfg, Ops(knows, ins)), After(cfg, Ops(knows, More(ins, In(cp, m, now))));
            && cp in t.cps && t.cps[cp] == Find(s, cp) && t.cps - {cp} == s.cps - {cp}
            && t.nextTx == s.nextTx && t.log == s.log
  {
    var s := After(cfg, Ops(knows, ins));
    assert s.log + [] == s.log;
  }

  /** A refused message leaves everything as it was. */
  lemma {:induction false} RefusedRecorded(
    cfg: Config, knows: string -> bool, ins: Inputs, cp: string, m: Message, now: Time)
    requires Refusal(m).Some?
    ensures After(cfg, Ops(knows, More(ins, In(cp, m, now)))) == After(cfg, Ops(knows, ins))
  {
  }
}
