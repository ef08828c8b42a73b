/**
 What the program persists: the values in the state file, the normal form they are kept in, the
 copy handed to callers, and how a file is read back. A Go slice that is nil is None here, since
 the file tells nil and empty apart.
 */
module StateFile {
  import opened Text

  const VERSION := 1

  /** An instant in nanoseconds; plain means in UTC and without a monotonic clock reading. */
  datatype Stamp = Stamp(instant: int, plain: bool)

  datatype Endpoint = Endpoint(identifier: string, role: string, url: string)

  datatype PartyRole = PartyRole(countryCode: string, partyId: string, role: string)

  datatype Registration = Registration(
    registeredAt: Stamp, tokenB: string, versionsUrl: string, version: string,
    endpoints: Option<seq<Endpoint>>, roles: Option<seq<PartyRole>>)

  datatype Reservation = Reservation(
    id: int, ocpiReservationId: string, chargePointId: string, evseUid: string, idTag: string,
    expiresAt: Stamp, createdAt: Stamp, source: string, responseUrl: string)

  datatype Transaction = Transaction(
    id: string, chargePointId: string, evseUid: string, connectorId: int, idTag: string,
    meterStart: int, startedAt: Stamp, reservationId: int)

  datatype State = State(
    version: int, ocpi: Option<Registration>,
    nextReservationId: int, nextTransactionId: int, nextRemoteStartId: int,
    reservations: Option<seq<Reservation>>, transactions: Option<seq<Transaction>>)

  const EMPTY := State(VERSION, None, 0, 0, 0, Some([]), Some([]))

  function Utc(t: Stamp): Stamp { t.(plain := true) }

  function NormalReservation(r: Reservation): Reservation {
    r.(expiresAt := Utc(r.expiresAt), createdAt := Utc(r.createdAt))
  }

  function NormalTransaction(t: Transaction): Transaction { t.(startedAt := Utc(t.startedAt)) }

  /** The same elements, each put through f. */
  function Each<T>(f: T -> T, xs: seq<T>): (ys: seq<T>)
    ensures |ys| == |xs| && forall i :: 0 <= i < |xs| ==> ys[i] == f(xs[i])
  {
    seq(|xs|, i requires 0 <= i < |xs| => f(xs[i]))
  }

  /** A nil list is taken as an empty one. */
  function Items<T>(xs: Option<seq<T>>): seq<T> { if xs.Some? then xs.value else [] }

  function Normalize(s: State): State {
    s.(version := VERSION,
       reservations := Some(Each(NormalReservation, Items(s.reservations))),
       transactions := Some(Each(NormalTransaction, Items(s.transactions))),
       ocpi := if s.ocpi.Some? then Some(s.ocpi.value.(registeredAt := Utc(s.ocpi.value.registeredAt))) else None)
  }

  /** append([]T(nil), xs...): nothing appended to nil is nil. */
  function Appended<T>(xs: Option<seq<T>>): Option<seq<T>> { if Items(xs) == [] then None else xs }

  function CloneRegistration(r: Registration): Registration {
    r.(endpoints := Appended(r.endpoints), roles := Appended(r.roles))
  }

  function Clone(s: State): State {
    s.(reservations := Some(Items(s.reservations)),
       transactions := Some(Items(s.transactions)),
       ocpi := if s.ocpi.None? then None else Some(CloneRegistration(s.ocpi.value)))
  }

  ghost predicate Normal(s: State) { Normalize(s) == s }

  /** The same instant, written the plain way. */
  predicate Restamped(t: Stamp, u: Stamp) { u.instant == t.instant && u.plain }

  /** Same entries in the same order; only the way their instants are written may differ. */
  ghost predicate SameEntries(s: State, n: State) {
    && |Items(n.reservations)| == |Items(s.reservations)| && |Items(n.transactions)| == |Items(s.transactions)|
    && (forall i :: 0 <= i < |Items(s.reservations)| ==>
          var r, q := s.reservations.value[i], Items(n.reservations)[i];
          q == r.(expiresAt := q.expiresAt, createdAt := q.createdAt)
          && Restamped(r.expiresAt, q.expiresAt) && Restamped(r.createdAt, q.createdAt))
    && (forall i :: 0 <= i < |Items(s.transactions)| ==>
          var t, u := s.transactions.value[i], Items(n.transactions)[i];
          u == t.(startedAt := u.startedAt) && Restamped(t.startedAt, u.startedAt))
    && n.ocpi.Some? == s.ocpi.Some?
    && (s.ocpi.Some? ==>
          && n.ocpi.value == s.ocpi.value.(registeredAt := n.ocpi.value.registeredAt)
          && Restamped(s.ocpi.value.registeredAt, n.ocpi.value.registeredAt))
  }

  /** Normal form is reached at once, has the current version and no nil list, and loses no entry. */
  lemma NormalizeIdempotent(s: State)
    ensures Normal(Normalize(s)) && SameEntries(s, Normalize(s))
    ensures var n := Normalize(s);
            && n.version == VERSION && n.reservations.Some? && n.transactions.Some?
            && n.nextReservationId == s.nextReservationId && n.nextTransactionId == s.nextTransactionId
            && n.nextRemoteStartId == s.nextRemoteStartId
  {
    var n := Normalize(s);
    assert Each(NormalReservation, n.reservations.value) == n.reservations.value;
    assert Each(NormalTransaction, n.transactions.value) == n.transactions.value;
  }

  /** Two states with the same content, nil and empty lists being the same content. */
  ghost predicate SameContent(a: State, b: State) {
    && a.(ocpi := None, reservations := None, transactions := None)
         == b.(ocpi := None, reservations := None, transactions := None)
    && Items(a.reservations) == Items(b.reservations) && Items(a.transactions) == Items(b.transactions)
    && a.ocpi.Some? == b.ocpi.Some?
    && (a.ocpi.Some? ==>
          var p, q := a.ocpi.value, b.ocpi.value;
          && p.(endpoints := None, roles := None) == q.(endpoints := None, roles := None)
          && Items(p.endpoints) == Items(q.endpoints) && Items(p.roles) == Items(q.roles))
  }

  /** The registration's lists are each nil or not empty. */
  ghost predicate NoEmptyLists(s: State) {
    s.ocpi.Some? ==> s.ocpi.value.endpoints != Some([]) && s.ocpi.value.roles != Some([])
  }

  /**
   A copy has the same content and stays normal, and it is the very same value exactly when the
   original's own lists are not nil and its registration's lists are not empty.
   */
  lemma CloneKeepsContent(s: State)
    ensures SameContent(Clone(s), s)
    ensures Clone(s) == s <==> s.reservations.Some? && s.transactions.Some? && NoEmptyLists(s)
    ensures Normal(s) ==> Normal(Clone(s))
  {
  }

  /** Two states whose copies differ from them: a nil list of its own, an empty list of its registration. */
  lemma CopyDiffers(r: Registration)
    ensures var s := EMPTY.(reservations := None); Clone(s) == EMPTY && Clone(s) != s
    ensures var s := EMPTY.(ocpi := Some(r.(endpoints := Some([])))); Clone(s) != s && SameContent(Clone(s), s)
  {
  }

  // Files. A JSON object is its version field and what the rest decodes to, if it does.

  datatype Content = Json(version: Option<int>, body: Option<State>) | Unreadable

  datatype ParseError = BadJson | NoVersion | NewerVersion(found: int) | UnsupportedVersion(found: int)

  datatype Parse = Ok(state: State) | Err(error: ParseError)

  function ParseFile(c: Content): Parse {
    match c
    case Unreadable => Err(BadJson)
    case Json(None, _) => Err(NoVersion)
    case Json(Some(v), body) =>
      if v > VERSION then Err(NewerVersion(v))
      else if v != VERSION then Err(UnsupportedVersion(v))
      else if body.None? then Err(BadJson)
      else Ok(Normalize(body.value))
  }

  /** What a file says its version is; an unreadable one says nothing. */
  function VersionOf(c: Content): Option<int> { if c.Json? then c.version else None }

  /**
   Which files open. A file opens if and only if it is JSON, says version 1 and its body decodes,
   and then it opens as the normal form of that body. A newer version is told from an older one,
   and either from a file that is not of this kind at all.
   */
  lemma OpensExactly(c: Content)
    ensures ParseFile(c).Ok? <==> c.Json? && c.version == Some(1) && c.body.Some?
    ensures ParseFile(c).Ok? ==> Normal(ParseFile(c).state) && SameEntries(c.body.value, ParseFile(c).state)
    ensures forall v :: ParseFile(c) == Err(NewerVersion(v)) <==> v > 1 && VersionOf(c) == Some(v)
    ensures forall v :: ParseFile(c) == Err(UnsupportedVersion(v)) <==> v < 1 && VersionOf(c) == Some(v)
    ensures ParseFile(c) == Err(NoVersion) <==> c.Json? && c.version.None?
    ensures ParseFile(c) == Err(BadJson) <==> c.Unreadable? || (c.version == Some(1) && c.body.None?)
  {
    if ParseFile(c).Ok? { NormalizeIdempotent(c.body.value); }
  }

  /** The encoder refuses instants outside the years 0 to 9999. */
  predicate Writable(t: Stamp) { -62167219200_000000000 <= t.instant < 253402300800_000000000 }

  /** The first and last nanosecond the encoder accepts: years 0 to 9999, counted from 1970. */
  lemma YearsExactly(t: Stamp)
    ensures Writable(t) <==> -719528 * 86_400 * 1_000_000_000 <= t.instant < 2932897 * 86_400 * 1_000_000_000
  {
  }

  predicate Encodable(s: State) {
    && (forall i :: 0 <= i < |Items(s.reservations)| ==>
          Writable(s.reservations.value[i].expiresAt) && Writable(s.reservations.value[i].createdAt))
    && (forall i :: 0 <= i < |Items(s.transactions)| ==> Writable(s.transactions.value[i].startedAt))
    && (s.ocpi.Some? ==> Writable(s.ocpi.value.registeredAt))
  }

  function Encode(s: State): Content { Json(Some(s.version), Some(s)) }

  /** What was written can be read back as it was, if it was in normal form. */
  lemma WrittenIsRead(s: State)
    requires Normal(s)
    ensures ParseFile(Encode(s)) == Ok(s)
  {
  }
}
