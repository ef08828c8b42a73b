/**
 The station simulator as an object: one method per critical section of its handlers. The ghost
 field run follows the steps of Session, so whatever holds of every run holds of the object.
 */
module Simulator {
  import opened Text
  import opened Session
  import opened SessionLaws
  import opened Sessions
  import Watchdog

  class Simulator {
    ghost const w: World
    const tag: string
    const connectors: nat
    var station: string
    var outlets: map<int, Outlet>
    var heartbeat: nat
    ghost var run: Run

    ghost predicate Valid()
      reads this
    {
      && Legal(w, run) && tag == w.tag && connectors == w.connectors
      && station == At(w, run).station && outlets == At(w, run).outlets
    }

    constructor (ghost w: World, tag: string, connectors: nat)
      requires tag == w.tag && connectors == w.connectors
      ensures Valid() && this.w == w && run == Run.Boot && heartbeat == Watchdog.FALLBACK_HEARTBEAT
      ensures forall c :: c in outlets <==> 1 <= c <= connectors
    {
      this.w, this.tag, this.connectors, station := w, tag, connectors, "Available";
      var made := map[];
      for i := 0 to connectors
        invariant made == Outlets(i)
      {
        made := made[i + 1 := Outlet("Available", 0, 0, 0)];
      }
      outlets, heartbeat, run := made, Watchdog.FALLBACK_HEARTBEAT, Run.Boot;
    }

    /** boot: a positive interval becomes the heartbeat period, any other leaves the one there is. */
    method Boot(interval: int)
      requires Valid()
      modifies this`heartbeat
      ensures Valid()
      ensures interval > 0 || old(heartbeat) == Watchdog.FALLBACK_HEARTBEAT ==> heartbeat == Watchdog.Period(interval)
      ensures interval <= 0 ==> heartbeat == old(heartbeat)
    {
      if interval > 0 {
        heartbeat := interval * Watchdog.SECOND;
      }
    }

    /** What the network, the core and the other goroutines' calls do meanwhile. */
    method Meanwhile(ghost step: Step)
      requires Valid() && Enabled(w, At(w, run), step)
      requires step.HandleStart? || step.LoseStart? || step.HandleStop? || step.LoseStop? || step.Elsewhere?
      modifies this`run
      ensures Valid() && run == Next(old(run), step)
    {
      run := Next(run, step);
    }

    /** Connector 0 is the station; an unknown connector is an error and changes nothing. */
    method SetConnectorStatus(c: int, status: string) returns (ok: bool)
      requires Valid()
      modifies this`station, this`outlets, this`run
      ensures Valid() && ok == (c == 0 || c in old(outlets))
      ensures run == if ok then Next(old(run), SetStatus(c, status)) else old(run)
      ensures ok && c != 0 ==>
                station == old(station) && outlets == old(outlets)[c := old(outlets)[c].(status := status)]
      ensures !ok || c == 0 ==> outlets == old(outlets) && station == if ok then status else old(station)
    {
      ok := c == 0 || c in outlets;
      if c == 0 {
        station := status;
      } else if c in outlets {
        outlets := outlets[c := outlets[c].(status := status)];
      } else {
        return;
      }
      run := Next(run, SetStatus(c, status));
    }

    /**
     reserveNow. An outlet in a session or out of service is never reserved; one that is already
     held is, and the earlier reservation is forgotten.
     */
    method ReserveNow(c: int, id: int) returns (answer: string)
      requires Valid()
      modifies this`station, this`outlets, this`run
      ensures Valid() && station == old(station)
      ensures c !in old(outlets) ==> answer == "Rejected"
      ensures c in old(outlets) ==>
                var o := old(outlets)[c];
                && (answer == "Occupied" <==> o.tx != 0 || o.status in {"Charging", "Preparing"})
                && (answer == "Faulted" <==> o.tx == 0 && o.status == "Faulted")
                && (answer == "Unavailable" <==> o.tx == 0 && o.status == "Unavailable")
                && (answer == "Accepted" || answer == "Occupied" || answer == "Faulted" || answer == "Unavailable")
      ensures answer == "Accepted" ==>
                && c in old(outlets) && old(outlets)[c].tx == 0
                && outlets == old(outlets)[c := old(outlets)[c].(reservation := id, status := "Reserved")]
                && run == Next(old(run), Reserve(c, id))
      ensures answer != "Accepted" ==> outlets == old(outlets) && run == old(run)
    {
      if c !in outlets {
        return "Rejected";
      }
      var o := outlets[c];
      if o.tx != 0 || o.status == "Charging" || o.status == "Preparing" {
        return "Occupied";
      }
      if o.status == "Faulted" || o.status == "Unavailable" {
        return if o.status == "Unavailable" then "Unavailable" else "Faulted";
      }
      outlets := outlets[c := o.(reservation := id, status := "Reserved")];
      run := Next(run, Reserve(c, id));
      answer := "Accepted";
    }

    /** An order in which ranging over the map may visit the connectors. */
    ghost predicate Visits(order: seq<int>)
      reads this
    {
      (forall i :: 0 <= i < |order| ==> order[i] in outlets) && (forall c :: c in outlets ==> c in order)
    }

    /** The search both cancelReservation and remoteStop make: the first match in map order. */
    method Search(order: seq<int>, holds: Outlet -> bool) returns (target: int)
      requires Valid() && Visits(order)
      ensures target == 0 ==> forall c :: c in outlets ==> !holds(outlets[c])
      ensures target != 0 ==> target in outlets && holds(outlets[target])
    {
      Numbered(w, run);
      for i := 0 to |order|
        invariant forall j :: 0 <= j < i ==> !holds(outlets[order[j]])
      {
        if holds(outlets[order[i]]) {
          return order[i];
        }
      }
      return 0;
    }

    /**
     cancelReservation frees one outlet holding the id; with none it is rejected. Id 0 stands for
     no reservation, so cancelling it frees some outlet that was not held at all.
     */
    method CancelReservation(id: int, order: seq<int>) returns (accepted: bool, target: int)
      requires Valid() && Visits(order)
      modifies this`station, this`outlets, this`run
      ensures Valid() && station == old(station)
      ensures accepted <==> exists c :: c in old(outlets) && old(outlets)[c].reservation == id
      ensures accepted ==>
                && target in old(outlets) && old(outlets)[target].reservation == id
                && outlets == old(outlets)[target := old(outlets)[target].(reservation := 0, status := "Available")]
                && run == Next(old(run), Cancel(target))
      ensures !accepted ==> outlets == old(outlets) && run == old(run)
    {
      target := Search(order, (o: Outlet) => o.reservation == id);
      accepted := target != 0;
      if accepted {
        outlets := outlets[target := outlets[target].(reservation := 0, status := "Available")];
        run := Next(run, Cancel(target));
      }
    }

    /** The lowest-numbered outlet without a session. */
    method FirstFreeConnector() returns (free: Option<int>)
      requires Valid()
      ensures free.None? ==> forall c :: c in outlets ==> outlets[c].tx != 0
      ensures free.Some? ==> free.value in outlets && outlets[free.value].tx == 0
      ensures free.Some? ==> forall c :: c in outlets && c < free.value ==> outlets[c].tx != 0
    {
      Numbered(w, run);
      for i := 1 to connectors + 1
        invariant forall c :: c in outlets && c < i ==> outlets[c].tx != 0
      {
        if i in outlets && outlets[i].tx == 0 {
          return Some(i);
        }
      }
      return None;
    }

    /**
     remoteStart's check, a critical section of its own. free is what FirstFreeConnector said when
     no connector was named; others may have been at the outlets since. The start comes later.
     */
    method RemoteStart(wanted: Option<int>, free: Option<int>) returns (accepted: bool, c: int)
      requires Valid()
      ensures c == if wanted.Some? then wanted.value else if free.Some? then free.value else 1
      ensures accepted <==> c in outlets && outlets[c].tx == 0
    {
      c := 1;
      if wanted.Some? {
        c := wanted.value;
      } else if free.Some? {
        c := free.value;
      }
      accepted := c in outlets && outlets[c].tx == 0;
    }

    /** The two sections with nothing in between: accepted exactly if some outlet is free. */
    method RemoteStartAnywhere() returns (accepted: bool, c: int)
      requires Valid()
      ensures accepted <==> exists d :: d in outlets && outlets[d].tx == 0
      ensures accepted ==> c in outlets && outlets[c].tx == 0 && forall d :: d in outlets && d < c ==>
                outlets[d].tx != 0
    {
      var free := FirstFreeConnector();
      accepted, c := RemoteStart(None, free);
    }

    /** remoteStop: accepted exactly for a session running here, and then for its one outlet. */
    method RemoteStop(tx: int, order: seq<int>) returns (accepted: bool, target: int)
      requires Valid() && Visits(order)
      ensures accepted <==> tx != 0 && exists c :: c in outlets && outlets[c].tx == tx
      ensures accepted ==> forall c :: c in outlets && outlets[c].tx == tx <==> c == target
    {
      target := Search(order, (o: Outlet) => o.tx == tx && o.tx != 0);
      accepted := target != 0;
      if accepted {
        Always(w, run);
        forall c | c in outlets && outlets[c].tx == tx ensures c == target {
          OneOutlet(At(w, run), c, target);
        }
      }
    }

    /** startTransaction up to its call: read the meter; an empty tag is the station's own. */
    method BeginStart(c: int, idTag: string) returns (r: Option<(string, int)>)
      requires Valid()
      modifies this`run
      ensures Valid() && r.Some? == (c in outlets)
      ensures run == if r.Some? then Next(old(run), Step.BeginStart(c, idTag)) else old(run)
      ensures r.Some? ==> r.value == (if idTag == "" then tag else idTag, outlets[c].meter)
      ensures r.Some? ==>
                At(w, run).attempts == At(w, old(run)).attempts + [Attempt(c, r.value.0, r.value.1, Asked)]
    {
      var t := if idTag == "" then tag else idTag;
      if c !in outlets {
        return None;
      }
      r := Some((t, outlets[c].meter));
      run := Next(run, Step.BeginStart(c, idTag));
    }

    /** startTransaction once answered: an accepted id goes on the outlet and uses up its reservation. */
    method FinishStart(c: int, tx: int, accepted: bool, ghost k: nat)
      requires Valid() && Enabled(w, At(w, run), Step.FinishStart(k))
      requires At(w, run).attempts[k].connector == c && At(w, run).attempts[k].phase == Answered(tx, accepted)
      modifies this`station, this`outlets, this`run
      ensures Valid() && run == Next(old(run), Step.FinishStart(k)) && station == old(station)
      ensures outlets == if accepted then old(outlets)[c := old(outlets)[c].(tx := tx, reservation := 0)]
              else old(outlets)
    {
      if accepted {
        outlets := outlets[c := outlets[c].(tx := tx, reservation := 0)];
      }
      run := Next(run, Step.FinishStart(k));
    }

    /**
     stopTransaction up to its call. The id is read and cleared in one critical section, so of two
     stops at once only one gets it: the id returned is in no stop sent before.
     */
    method BeginStop(c: int, reason: string) returns (r: Option<(int, int)>)
      requires Valid()
      modifies this`station, this`outlets, this`run
      ensures Valid() && station == old(station)
      ensures r.Some? <==> c in old(outlets) && old(outlets)[c].tx != 0
      ensures run == if r.Some? then Next(old(run), Step.BeginStop(c, reason)) else old(run)
      ensures r.None? ==> outlets == old(outlets)
      ensures r.Some? ==>
                && r.value.0 == old(outlets)[c].tx && r.value.1 == old(outlets)[c].meter + SESSION_ENERGY
                && outlets == old(outlets)[c := old(outlets)[c].(tx := 0, meter := r.value.1)]
                && !Stopped(At(w, old(run)), r.value.0)
    {
      if c !in outlets || outlets[c].tx == 0 {
        return None;
      }
      Always(w, run);
      var o := outlets[c];
      var meter := o.meter + 1000;
      outlets := outlets[c := o.(tx := 0, meter := meter)];
      run := Next(run, Step.BeginStop(c, reason));
      r := Some((o.tx, meter));
    }
  }

  lemma {:induction false} Numbered(w: World, run: Run)
    requires Legal(w, run)
    ensures forall c :: c in At(w, run).outlets <==> 1 <= c <= w.connectors
  {
    SameConnectors(w, run);
    var keys := At(w, run).outlets.Keys;
    assert forall c :: c in keys <==> c in Outlets(w.connectors);
  }
}
