/**
 The two ways of addressing an EVSE, by OCPI uid and by OCPP connector number, and the
 validation that makes them interchangeable.
 */
module Config {
  import opened Text

  datatype Evse = Evse(uid: string, evseId: string, connector: int)

  /** The part of a configuration that addressing reads; durations are in nanoseconds. */
  datatype Config = Config(chargerId: string, evses: seq<Evse>, heartbeatInterval: int, heartbeatTimeout: int)

  datatype Problem =
    | NoEvses
    | MissingUid(i: nat)
    | DuplicateUid(i: nat, first: nat)
    | MissingEvseId(i: nat)
    | DuplicateEvseId(i: nat, first: nat)
    | ConnectorTooSmall(i: nat)
    | DuplicateConnector(i: nat, first: nat)

  /** Index f is the first use of the key that index i uses again. */
  ghost predicate Repeats<K>(keys: seq<K>, i: nat, f: nat) {
    && f < i < |keys| && keys[f] == keys[i]
    && forall j :: 0 <= j < f ==> keys[j] != keys[i]
  }

  ghost predicate AllDistinct<K>(keys: seq<K>) {
    forall i, j :: 0 <= i < j < |keys| ==> keys[i] != keys[j]
  }

  /** The seen map after n elements: the first index of every key worth remembering. */
  ghost predicate Seen<K(!new)>(keys: seq<K>, n: nat, counts: K -> bool, seen: map<K, nat>)
    requires n <= |keys|
  {
    && (forall k :: k in seen ==>
          counts(k) && seen[k] < n && keys[seen[k]] == k && forall j :: 0 <= j < seen[k] ==> keys[j] != k)
    && (forall j :: 0 <= j < n && counts(keys[j]) ==> keys[j] in seen)
  }

  function Uids(evses: seq<Evse>): (keys: seq<string>)
    ensures |keys| == |evses| && forall i :: 0 <= i < |evses| ==> keys[i] == evses[i].uid
  {
    seq(|evses|, i requires 0 <= i < |evses| => evses[i].uid)
  }

  function EvseIds(evses: seq<Evse>): (keys: seq<string>)
    ensures |keys| == |evses| && forall i :: 0 <= i < |evses| ==> keys[i] == evses[i].evseId
  {
    seq(|evses|, i requires 0 <= i < |evses| => evses[i].evseId)
  }

  function Connectors(evses: seq<Evse>): (keys: seq<int>)
    ensures |keys| == |evses| && forall i :: 0 <= i < |evses| ==> keys[i] == evses[i].connector
  {
    seq(|evses|, i requires 0 <= i < |evses| => evses[i].connector)
  }

  predicate Given(s: string) { !Blank(s) }

  predicate Addressable(c: int) { c >= 1 }

  /** The problems validation should report about EVSE i. */
  ghost predicate DueAt(evses: seq<Evse>, i: nat, p: Problem)
    requires i < |evses|
  {
    match p
    case NoEvses => false
    case MissingUid(j) => j == i && Blank(evses[i].uid)
    case DuplicateUid(j, f) => j == i && Given(evses[i].uid) && Repeats(Uids(evses), i, f)
    case MissingEvseId(j) => j == i && Blank(evses[i].evseId)
    case DuplicateEvseId(j, f) => j == i && Given(evses[i].evseId) && Repeats(EvseIds(evses), i, f)
    case ConnectorTooSmall(j) => j == i && !Addressable(evses[i].connector)
    case DuplicateConnector(j, f) => j == i && Addressable(evses[i].connector) && Repeats(Connectors(evses), i, f)
  }

  /** The problems validation should report about the first n EVSEs. */
  ghost predicate Due(evses: seq<Evse>, n: nat, p: Problem) {
    !p.NoEvses? && p.i < n <= |evses| && DueAt(evses, p.i, p)
  }

  /** One turn of a seen map: the first use of the key at i, if i repeats it. */
  method FirstSeen<K(==,!new)>(keys: seq<K>, i: nat, ghost counts: K -> bool, seen: map<K, nat>)
    returns (first: Option<nat>, seen': map<K, nat>)
    requires i < |keys| && Seen(keys, i, counts, seen) && counts(keys[i])
    ensures Seen(keys, i + 1, counts, seen')
    ensures forall f: nat :: Repeats(keys, i, f) <==> first == Some(f)
  {
    var k := keys[i];
    if k in seen {
      first, seen' := Some(seen[k]), seen;
      forall f: nat | Repeats(keys, i, f) ensures f == seen[k] {
        assert keys[f] == k;
      }
    } else {
      first, seen' := None, seen[k := i];
      forall f: nat ensures !Repeats(keys, i, f) {
        if f < i { assert counts(keys[f]) ==> keys[f] in seen; }
      }
    }
  }

  /** The uid of EVSE i must be given and not used before. */
  method CheckUid(evses: seq<Evse>, i: nat, seen: map<string, nat>)
      returns (problems: seq<Problem>, seen': map<string, nat>)
    requires i < |evses| && Seen(Uids(evses), i, Given, seen)
    ensures Seen(Uids(evses), i + 1, Given, seen')
    ensures forall p :: p in problems <==> DueAt(evses, i, p) && (p.MissingUid? || p.DuplicateUid?)
  {
    if Blank(evses[i].uid) {
      problems, seen' := [MissingUid(i)], seen;
    } else {
      var first;
      first, seen' := FirstSeen(Uids(evses), i, Given, seen);
      problems := if first.Some? then [DuplicateUid(i, first.value)] else [];
    }
  }

  /** Likewise its eMI3 id. */
  method CheckEvseId(evses: seq<Evse>, i: nat, seen: map<string, nat>)
      returns (problems: seq<Problem>, seen': map<string, nat>)
    requires i < |evses| && Seen(EvseIds(evses), i, Given, seen)
    ensures Seen(EvseIds(evses), i + 1, Given, seen')
    ensures forall p :: p in problems <==> DueAt(evses, i, p) && (p.MissingEvseId? || p.DuplicateEvseId?)
  {
    if Blank(evses[i].evseId) {
      problems, seen' := [MissingEvseId(i)], seen;
    } else {
      var first;
      first, seen' := FirstSeen(EvseIds(evses), i, Given, seen);
      problems := if first.Some? then [DuplicateEvseId(i, first.value)] else [];
    }
  }

  /** Its connector must be 1 or more, since 0 is the station itself, and not mapped before. */
  method CheckConnector(evses: seq<Evse>, i: nat, seen: map<int, nat>)
      returns (problems: seq<Problem>, seen': map<int, nat>)
    requires i < |evses| && Seen(Connectors(evses), i, Addressable, seen)
    ensures Seen(Connectors(evses), i + 1, Addressable, seen')
    ensures forall p :: p in problems <==> DueAt(evses, i, p) && (p.ConnectorTooSmall? || p.DuplicateConnector?)
  {
    if evses[i].connector < 1 {
      problems, seen' := [ConnectorTooSmall(i)], seen;
    } else {
      var first;
      first, seen' := FirstSeen(Connectors(evses), i, Addressable, seen);
      problems := if first.Some? then [DuplicateConnector(i, first.value)] else [];
    }
  }

  /**
   The uniqueness loop of validateLocation. It reports a problem if and only if there is one:
   each repeated key at each index that repeats it, naming the first index that used it.
   */
  method ValidateEvses(evses: seq<Evse>) returns (problems: seq<Problem>)
    ensures evses == [] ==> problems == [NoEvses]
    ensures evses != [] ==> forall p :: p in problems <==> Due(evses, |evses|, p)
  {
    if evses == [] {
      return [NoEvses];
    }
    problems := [];
    var seenUid: map<string, nat>, seenEvseId: map<string, nat>, seenConnector: map<int, nat> := map[], map[], map[];
    for i := 0 to |evses|
      invariant Seen(Uids(evses), i, Given, seenUid)
      invariant Seen(EvseIds(evses), i, Given, seenEvseId)
      invariant Seen(Connectors(evses), i, Addressable, seenConnector)
      invariant forall p :: p in problems <==> Due(evses, i, p)
    {
      var ofUid, ofEvseId, ofConnector;
      ofUid, seenUid := CheckUid(evses, i, seenUid);
      ofEvseId, seenEvseId := CheckEvseId(evses, i, seenEvseId);
      ofConnector, seenConnector := CheckConnector(evses, i, seenConnector);
      var more := ofUid + ofEvseId + ofConnector;
      assert forall p :: p in more <==> DueAt(evses, i, p);
      problems := problems + more;
    }
  }

  /** What a configuration without those problems guarantees. */
  ghost predicate Addressed(evses: seq<Evse>) {
    && evses != []
    && AllDistinct(Uids(evses)) && AllDistinct(EvseIds(evses)) && AllDistinct(Connectors(evses))
    && forall i :: 0 <= i < |evses| ==> Given(evses[i].uid) && Given(evses[i].evseId) && Addressable(evses[i].connector)
  }

  /** A repeated key has a first use. */
  lemma {:induction false} FirstUse<K>(keys: seq<K>, i: nat, j: nat) returns (f: nat)
    requires j < i < |keys| && keys[j] == keys[i]
    ensures Repeats(keys, i, f)
    decreases j
  {
    if k :| 0 <= k < j && keys[k] == keys[i] {
      f := FirstUse(keys, i, k);
    } else {
      f := j;
    }
  }

  /** Validation passes exactly the configurations in which every EVSE can be told apart. */
  lemma CleanIffAddressed(evses: seq<Evse>)
    requires evses != []
    ensures (forall p :: !Due(evses, |evses|, p)) <==> Addressed(evses)
  {
    var n := |evses|;
    if forall p :: !Due(evses, n, p) {
      forall i | 0 <= i < n
        ensures Given(evses[i].uid) && Given(evses[i].evseId) && Addressable(evses[i].connector)
      {
        assert !Due(evses, n, MissingUid(i)) && !Due(evses, n, MissingEvseId(i))
            && !Due(evses, n, ConnectorTooSmall(i));
      }
      forall i, j | 0 <= j < i < n
        ensures evses[j].uid != evses[i].uid && evses[j].evseId != evses[i].evseId
                && evses[j].connector != evses[i].connector
      {
        if evses[j].uid == evses[i].uid {
          var f := FirstUse(Uids(evses), i, j);
          assert Due(evses, n, DuplicateUid(i, f));
        }
        if evses[j].evseId == evses[i].evseId {
          var f := FirstUse(EvseIds(evses), i, j);
          assert Due(evses, n, DuplicateEvseId(i, f));
        }
        if evses[j].connector == evses[i].connector {
          var f := FirstUse(Connectors(evses), i, j);
          assert Due(evses, n, DuplicateConnector(i, f));
        }
      }
    }
  }

  function FindByUid(evses: seq<Evse>, uid: string): Option<Evse> {
    if evses == [] then None
    else if evses[0].uid == uid then Some(evses[0])
    else FindByUid(evses[1..], uid)
  }

  function FindByConnector(evses: seq<Evse>, connector: int): Option<Evse> {
    if evses == [] then None
    else if evses[0].connector == connector then Some(evses[0])
    else FindByConnector(evses[1..], connector)
  }

  /** Index i is the first with this key. */
  ghost predicate FirstAt<K>(keys: seq<K>, key: K, i: nat) {
    i < |keys| && keys[i] == key && forall j :: 0 <= j < i ==> keys[j] != key
  }

  method EvseByUid(c: Config, uid: string) returns (e: Option<Evse>)
    ensures e == FindByUid(c.evses, uid)
    ensures e.Some? ==> exists i: nat :: FirstAt(Uids(c.evses), uid, i) && e == Some(c.evses[i])
    ensures e.None? ==> uid !in Uids(c.evses)
  {
    for i := 0 to |c.evses|
      invariant forall j :: 0 <= j < i ==> Uids(c.evses)[j] != uid
      invariant FindByUid(c.evses, uid) == FindByUid(c.evses[i..], uid)
    {
      if c.evses[i].uid == uid {
        assert FirstAt(Uids(c.evses), uid, i);
        return Some(c.evses[i]);
      }
    }
    return None;
  }

  method EvseByConnector(c: Config, connector: int) returns (e: Option<Evse>)
    ensures e == FindByConnector(c.evses, connector)
    ensures e.Some? ==> exists i: nat :: FirstAt(Connectors(c.evses), connector, i) && e == Some(c.evses[i])
    ensures e.None? ==> connector !in Connectors(c.evses)
  {
    for i := 0 to |c.evses|
      invariant forall j :: 0 <= j < i ==> Connectors(c.evses)[j] != connector
      invariant FindByConnector(c.evses, connector) == FindByConnector(c.evses[i..], connector)
    {
      if c.evses[i].connector == connector {
        assert FirstAt(Connectors(c.evses), connector, i);
        return Some(c.evses[i]);
      }
    }
    return None;
  }

  lemma {:induction false} FindByUidFinds(evses: seq<Evse>, i: nat)
    requires i < |evses| && AllDistinct(Uids(evses))
    ensures FindByUid(evses, evses[i].uid) == Some(evses[i])
  {
    if i > 0 {
      assert Uids(evses)[0] != Uids(evses)[i];
      assert Uids(evses[1..]) == Uids(evses)[1..];
      FindByUidFinds(evses[1..], i - 1);
    }
  }

  lemma {:induction false} FindByConnectorFinds(evses: seq<Evse>, i: nat)
    requires i < |evses| && AllDistinct(Connectors(evses))
    ensures FindByConnector(evses, evses[i].connector) == Some(evses[i])
  {
    if i > 0 {
      assert Connectors(evses)[0] != Connectors(evses)[i];
      assert Connectors(evses[1..]) == Connectors(evses)[1..];
      FindByConnectorFinds(evses[1..], i - 1);
    }
  }

  lemma {:induction false} FoundByUid(evses: seq<Evse>, uid: string)
    ensures match FindByUid(evses, uid)
            case Some(e) => e in evses && e.uid == uid
            case None => forall e :: e in evses ==> e.uid != uid
  {
    if evses != [] { FoundByUid(evses[1..], uid); }
  }

  lemma {:induction false} FoundByConnector(evses: seq<Evse>, connector: int)
    ensures match FindByConnector(evses, connector)
            case Some(e) => e in evses && e.connector == connector
            case None => forall e :: e in evses ==> e.connector != connector
  {
    if evses != [] { FoundByConnector(evses[1..], connector); }
  }

  /** In a validated configuration the two lookups undo each other. */
  lemma LookupsInverse(evses: seq<Evse>, uid: string, connector: int)
    requires Addressed(evses)
    ensures (FindByUid(evses, uid).Some? && FindByUid(evses, uid).value.connector == connector)
       <==> (FindByConnector(evses, connector).Some? && FindByConnector(evses, connector).value.uid == uid)
    ensures FindByUid(evses, uid).Some? && FindByUid(evses, uid).value.connector == connector ==>
            FindByUid(evses, uid) == FindByConnector(evses, connector)
  {
    FoundByUid(evses, uid);
    FoundByConnector(evses, connector);
    if FindByUid(evses, uid).Some? {
      var i :| 0 <= i < |evses| && evses[i] == FindByUid(evses, uid).value;
      FindByConnectorFinds(evses, i);
    }
    if FindByConnector(evses, connector).Some? {
      var i :| 0 <= i < |evses| && evses[i] == FindByConnector(evses, connector).value;
      FindByUidFinds(evses, i);
    }
  }

  /** The uid made up for a connector no EVSE is mapped to. */
  function Synthetic(cp: string, connector: int): string { cp + "-" + IntText(connector) }

  /** The core's uid for a connector of a charge point. */
  function EvseUid(c: Config, cp: string, connector: int): string {
    if cp == c.chargerId && FindByConnector(c.evses, connector).Some?
    then FindByConnector(c.evses, connector).value.uid
    else Synthetic(cp, connector)
  }

  /** The command side's connector for an EVSE uid; None is the unknown-EVSE error. */
  function ConnectorOf(c: Config, uid: string): Option<int> {
    if FindByUid(c.evses, uid).Some? then Some(FindByUid(c.evses, uid).value.connector) else None
  }

  /** A command sent for an EVSE and a status received from its connector name the same EVSE. */
  lemma CommandAndReportAgree(c: Config, uid: string)
    requires Addressed(c.evses) && ConnectorOf(c, uid).Some?
    ensures ConnectorOf(c, uid).value >= 1
    ensures EvseUid(c, c.chargerId, ConnectorOf(c, uid).value) == uid
  {
    FoundByUid(c.evses, uid);
    LookupsInverse(c.evses, uid, ConnectorOf(c, uid).value);
  }

  /** Where the last dash of a text is. */
  ghost function LastDash(s: string): nat {
    if s == "" then 0 else if s[|s| - 1] == '-' then |s| - 1 else LastDash(s[..|s| - 1])
  }

  lemma {:induction false} LastDashFound(cp: string, d: string)
    requires '-' !in d
    ensures LastDash(cp + "-" + d) == |cp|
  {
    var s := cp + "-" + d;
    if d != "" {
      assert s[|s| - 1] == d[|d| - 1];
      assert s[..|s| - 1] == cp + "-" + d[..|d| - 1];
      LastDashFound(cp, d[..|d| - 1]);
    }
  }

  /** Synthetic uids tell charge points and non-negative connectors apart. */
  lemma SyntheticInjective(cp: string, m: nat, cp': string, n: nat)
    requires Synthetic(cp, m) == Synthetic(cp', n)
    ensures cp == cp' && m == n
  {
    var s := Synthetic(cp, m);
    LastDashFound(cp, Decimal(m));
    LastDashFound(cp', Decimal(n));
    assert cp == s[..|cp|] && cp' == s[..|cp'|];
    SyntheticSameCharger(cp, m, n);
  }

  /** Two connectors of one charge point share a uid. */
  ghost predicate Shared(c: Config, cp: string, m: int, n: int) {
    m != n && EvseUid(c, cp, m) == EvseUid(c, cp, n)
  }

  /** A configured uid that spells the made-up uid of a connector nothing is mapped to. */
  ghost predicate Clash(c: Config, connector: int) {
    && FindByConnector(c.evses, connector).None?
    && exists e :: e in c.evses && e.uid == Synthetic(c.chargerId, connector)
  }

  /**
   When uids tell connectors apart. Two connectors of the configured station share a uid if and
   only if some configured uid spells the made-up uid of an unmapped connector; connectors of
   any other charge point never do.
   */
  lemma SharedIffClash(c: Config)
    requires Addressed(c.evses)
    ensures (exists m: int, n: int :: Shared(c, c.chargerId, m, n)) <==> (exists n: int :: Clash(c, n))
    ensures forall cp: string, m: int, n: int :: cp != c.chargerId ==> !Shared(c, cp, m, n)
  {
    forall cp: string, m: int, n: int | cp != c.chargerId ensures !Shared(c, cp, m, n) {
      if Shared(c, cp, m, n) { SyntheticSameCharger(cp, m, n); }
    }
    if n: int :| Clash(c, n) {
      var e :| e in c.evses && e.uid == Synthetic(c.chargerId, n);
      var i :| 0 <= i < |c.evses| && c.evses[i] == e;
      FindByConnectorFinds(c.evses, i);
      assert Shared(c, c.chargerId, e.connector, n);
    }
    if m: int, n: int :| Shared(c, c.chargerId, m, n) {
      SharingClashes(c, m, n);
    }
  }

  lemma SyntheticSameCharger(cp: string, m: int, n: int)
    requires Synthetic(cp, m) == Synthetic(cp, n)
    ensures m == n
  {
    assert Synthetic(cp, m)[|cp| + 1..] == IntText(m) && Synthetic(cp, n)[|cp| + 1..] == IntText(n);
    IntTextInjective(m, n);
  }

  lemma SharingClashes(c: Config, m: int, n: int)
    requires Addressed(c.evses) && Shared(c, c.chargerId, m, n)
    ensures Clash(c, m) || Clash(c, n)
  {
    FoundByConnector(c.evses, m);
    FoundByConnector(c.evses, n);
    var em, en := FindByConnector(c.evses, m), FindByConnector(c.evses, n);
    if em.None? && en.None? {
      SyntheticSameCharger(c.chargerId, m, n);
    } else if em.Some? && en.Some? {
      LookupsInverse(c.evses, em.value.uid, m);
      LookupsInverse(c.evses, em.value.uid, n);
    }
  }

  /** A configuration that passes validation and clashes: its one EVSE is named like connector 2. */
  lemma ValidatedYetShared(interval: int, timeout: int)
    ensures var c := Config("cp", [Evse("cp-2", "DE*1", 1)], interval, timeout);
            Addressed(c.evses) && Clash(c, 2) && Shared(c, "cp", 1, 2)
  {
    var c := Config("cp", [Evse("cp-2", "DE*1", 1)], interval, timeout);
    assert 'c' in c.evses[0].uid && 'D' in c.evses[0].evseId && !IsSpace('c') && !IsSpace('D');
    assert c.evses[0] in c.evses && Decimal(2) == "2";
    assert Synthetic("cp", 2) == "cp-2";
  }
}
