/**
 What a subscriber of the bus can know. If it took a snapshot when it subscribed, lost nothing, and
 events were published one at a time in the order they were committed, then the events it took and
 those still in its buffer turn the snapshot into the current statuses.
 */
module Follower {
  import opened Config
  import opened Core
  import opened CoreEvents
  import CoreTx
  import Bus

  /** A status map read with UNKNOWN for what it does not list. */
  function Read(m: map<string, Status>, uid: string): Status { if uid in m then m[uid] else Unknown }

  lemma {:induction false} FoldContinues(log: seq<Event>, more: seq<Event>, cp: string, start: map<string, Status>)
    requires forall uid :: Read(start, uid) == Replay(log, cp, uid)
    ensures forall uid :: Read(Fold(more, cp, start), uid) == Replay(log + more, cp, uid)
  {
    if more == [] {
      assert log + more == log;
    } else {
      var n := |more| - 1;
      FoldContinues(log, more[..n], cp, start);
      assert log + more == log + more[..n] + [more[n]];
      forall uid ensures Read(Fold(more, cp, start), uid) == Replay(log + more, cp, uid) {
        Snoc(log + more[..n], more[n], cp, uid);
      }
    }
  }

  /** The cached statuses are the replayed ones, also for an EVSE nobody has heard of. */
  lemma {:induction false} CacheReplayed(cfg: Config, h: History, cp: string, uid: string)
    ensures Read(Find(After(cfg, h), cp).effective, uid) == Replay(After(cfg, h).log, cp, uid)
  {
    StreamMirrors(cfg, h, cp);
    if uid !in Find(After(cfg, h), cp).effective { Unmentioned(After(cfg, h).log, cp, uid); }
  }

  lemma {:induction false} LogGrows(cfg: Config, h: History, later: History)
    requires CoreTx.Continues(h, later)
    ensures After(cfg, h).log <= After(cfg, later).log
  {
    if h != later { LogGrows(cfg, h, later.before); }
  }

  lemma Rest(a: seq<Event>, b: seq<Event>)
    requires a <= b
    ensures a + b[|a|..] == b
  {
  }

  /** The events published, in the order the publishes took the lock. */
  ghost function Stream(s: Bus.State): (es: seq<Event>)
    ensures |es| == |s.publishes| && forall i :: 0 <= i < |es| ==> es[i] == s.publishes[i].event
  {
    seq(|s.publishes|, i requires 0 <= i < |s.publishes| => s.publishes[i].event)
  }

  /** Ascending positions that are as many as there is room for leave none out. */
  lemma {:induction false} Dense(positions: seq<nat>, lo: nat, hi: nat)
    requires Bus.Ascending(positions, hi) && lo + |positions| == hi
    requires forall i :: 0 <= i < |positions| ==> lo <= positions[i]
    ensures forall i :: 0 <= i < |positions| ==> positions[i] == lo + i
  {
    if positions != [] {
      var n := |positions| - 1;
      assert positions[n] == hi - 1 by { AtLeast(positions, lo, n); }
      Dense(positions[..n], lo, hi - 1);
    }
  }

  lemma {:induction false} AtLeast(positions: seq<nat>, lo: nat, i: nat)
    requires forall i, j :: 0 <= i < j < |positions| ==> positions[i] < positions[j]
    requires i < |positions| && lo <= positions[0]
    ensures positions[i] >= lo + i
  {
    if i > 0 { AtLeast(positions, lo, i - 1); }
  }

  /** A subscriber that lost nothing has everything published since it subscribed. */
  lemma {:induction false} NothingMissed(run: seq<Bus.Action>, k: nat)
    requires Bus.Runs(Bus.EMPTY, run) && k < |Bus.After(Bus.EMPTY, run).subs|
    requires var s := Bus.After(Bus.EMPTY, run);
             Bus.OneAtATime(s) && Bus.Unlocked(s) && s.subs[k].until.None? && s.subs[k].drops == 0
    ensures var s := Bus.After(Bus.EMPTY, run);
            var x := s.subs[k];
            x.since <= |s.publishes| && x.taken + x.buffer == Stream(s)[x.since..]
  {
    var s := Bus.After(Bus.EMPTY, run);
    var x := s.subs[k];
    Bus.BusConservation(run, k);
    var positions := Bus.PublishedInOrder(run, k);
    Dense(positions, x.since, |s.publishes|);
  }

  /** The events committed since, folded over the statuses then, give the statuses now. */
  lemma {:induction false} CatchesUp(
    cfg: Config, first: History, last: History, events: seq<Event>, cp: string, uid: string)
    requires After(cfg, first).log + events == After(cfg, last).log
    ensures Read(Fold(events, cp, Find(After(cfg, first), cp).effective), uid)
            == Read(Find(After(cfg, last), cp).effective, uid)
  {
    forall u ensures Read(Find(After(cfg, first), cp).effective, u) == Replay(After(cfg, first).log, cp, u) {
      CacheReplayed(cfg, first, cp, u);
    }
    FoldContinues(After(cfg, first).log, events, cp, Find(After(cfg, first), cp).effective);
    CacheReplayed(cfg, last, cp, uid);
  }

  /**
   A follower is never wrong. Whatever the history, what a subscriber took plus what is in its
   buffer, folded over the statuses as they were when it subscribed, gives every EVSE the status
   it has now.
   */
  lemma {:induction false} FollowerRebuilds(
    cfg: Config, first: History, last: History, run: seq<Bus.Action>, k: nat, cp: string, uid: string)
    requires CoreTx.Continues(first, last) && Bus.Runs(Bus.EMPTY, run) && k < |Bus.After(Bus.EMPTY, run).subs|
    requires var s := Bus.After(Bus.EMPTY, run);
             && Bus.OneAtATime(s) && Bus.Unlocked(s) && s.subs[k].until.None? && s.subs[k].drops == 0
             && Stream(s) == After(cfg, last).log && s.subs[k].since == |After(cfg, first).log|
    ensures var x := Bus.After(Bus.EMPTY, run).subs[k];
            Read(Fold(x.taken + x.buffer, cp, Find(After(cfg, first), cp).effective), uid)
              == Read(Find(After(cfg, last), cp).effective, uid)
  {
    var x := Bus.After(Bus.EMPTY, run).subs[k];
    NothingMissed(run, k);
    LogGrows(cfg, first, last);
    Rest(After(cfg, first).log, After(cfg, last).log);
    CatchesUp(cfg, first, last, x.taken + x.buffer, cp, uid);
  }
}
