/**
 The state store across updates, failures at every step and process crashes. A step is one file
 operation of write, one crash or one start of the program; the rename is the commit point.
 */
module Store {
  import opened Text
  import opened StateFile

  /** Where an update stands; tmp is the temporary file's name. */
  datatype Progress =
    | Ready
    | Prepared(next: State)
    | Encoded(next: State)
    | Created(next: State, tmp: string)
    | Written(next: State, tmp: string)
    | Synced(next: State, tmp: string)
    | Sealed(next: State, tmp: string)
    | Renamed(next: State)
    | Failed(tmp: string)

  datatype Process = Down | Up(memory: State, at: Progress)

  /** first is the file found at the beginning, commits every state renamed into place since. */
  datatype Machine = Machine(
    path: string, files: map<string, Content>, process: Process, first: Option<Content>, commits: seq<State>)

  datatype Action =
    | Open
    | Change(result: Option<State>)
    | Marshal
    | MarshalFails
    | CreateTemp(name: string)
    | CreateFails
    | WritePart
    | WriteAll
    | WriteFails
    | Sync
    | SyncFails
    | Seal
    | SealFails
    | Rename
    | RenameFails
    | Install
    | Cleanup(removed: bool)
    | Crash

  /** The file at a path, if there is one. */
  function FileAt(files: map<string, Content>, name: string): Option<Content> {
    if name in files then Some(files[name]) else None
  }

  /** Open: no file is an empty state, an unreadable one is an error. */
  function OpenFile(file: Option<Content>): Parse {
    if file.None? then Ok(EMPTY) else ParseFile(file.value)
  }

  function Initial(path: string, files: map<string, Content>): Machine {
    Machine(path, files, Down, FileAt(files, path), [])
  }

  predicate Possible(m: Machine, at: Progress, a: Action) {
    match a
    case Open => false
    case Change(_) => at.Ready?
    case Marshal => at.Prepared? && Encodable(at.next)
    case MarshalFails => at.Prepared? && !Encodable(at.next)
    case CreateTemp(name) => at.Encoded? && name !in m.files && name != m.path
    case CreateFails => at.Encoded?
    case WritePart | WriteAll | WriteFails => at.Created?
    case Sync | SyncFails => at.Written?
    case Seal | SealFails => at.Synced?
    case Rename | RenameFails => at.Sealed? && at.tmp in m.files
    case Install => at.Renamed?
    case Cleanup(_) => at.Failed?
    case Crash => true
  }

  predicate Enabled(m: Machine, a: Action) {
    if a.Open? then m.process.Down? else m.process.Up? && Possible(m, m.process.at, a)
  }

  function Go(m: Machine, at: Progress): Machine
    requires m.process.Up?
  {
    m.(process := m.process.(at := at))
  }

  function Apply(m: Machine, a: Action): Machine
    requires Enabled(m, a)
  {
    match a
    case Open =>
      var found := OpenFile(FileAt(m.files, m.path));
      if found.Ok? then m.(process := Up(found.state, Ready)) else m
    case Crash => m.(process := Down)
    // A change function that fails leaves everything alone; otherwise its result is normalised.
    case Change(result) => if result.None? then m else Go(m, Prepared(Normalize(result.value)))
    case Marshal => Go(m, Encoded(m.process.at.next))
    case MarshalFails => Go(m, Ready)
    case CreateTemp(name) => Go(m.(files := m.files[name := Unreadable]), Created(m.process.at.next, name))
    case CreateFails => Go(m, Ready)
    case WritePart => m.(files := m.files[m.process.at.tmp := Unreadable])
    case WriteAll =>
      Go(m.(files := m.files[m.process.at.tmp := Encode(m.process.at.next)]),
          Written(m.process.at.next, m.process.at.tmp))
    case Sync => Go(m, Synced(m.process.at.next, m.process.at.tmp))
    case Seal => Go(m, Sealed(m.process.at.next, m.process.at.tmp))
    case WriteFails | SyncFails | SealFails | RenameFails => Go(m, Failed(m.process.at.tmp))
    case Rename =>
      var next, tmp := m.process.at.next, m.process.at.tmp;
      Go(m.(files := m.files[m.path := m.files[tmp]] - {tmp}, commits := m.commits + [next]), Renamed(next))
    case Install => m.(process := Up(m.process.at.next, Ready))
    case Cleanup(removed) =>
      Go(if removed then m.(files := m.files - {m.process.at.tmp}) else m, Ready)
  }

  predicate Runs(m: Machine, run: seq<Action>)
    decreases |run|
  {
    run == [] || (Enabled(m, run[0]) && Runs(Apply(m, run[0]), run[1..]))
  }

  function After(m: Machine, run: seq<Action>): Machine
    requires Runs(m, run)
    decreases |run|
  {
    if run == [] then m else After(Apply(m, run[0]), run[1..])
  }

  /** The one value the store stands for: the last commit, or what the first file held. */
  ghost function Stored(first: Option<Content>, commits: seq<State>): Parse {
    if commits != [] then Ok(commits[|commits| - 1]) else OpenFile(first)
  }

  ghost function Value(m: Machine): Parse { Stored(m.first, m.commits) }

  /** The file at the path is the one found at the beginning, or the last commit in full. */
  ghost predicate FileOk(m: Machine) {
    && FileAt(m.files, m.path) == (if m.commits == [] then m.first else Some(Encode(m.commits[|m.commits| - 1])))
    && (m.commits != [] ==> Normal(m.commits[|m.commits| - 1]) && OpenFile(m.first).Ok?)
  }

  /** Memory is the stored value, but for the moment between rename and install. */
  ghost predicate MemoryOk(m: Machine) {
    m.process.Up? ==>
      && OpenFile(m.first).Ok?
      && match m.process.at
         case Renamed(next) =>
           m.commits != [] && next == m.commits[|m.commits| - 1]
             && Ok(m.process.memory) == Stored(m.first, m.commits[..|m.commits| - 1])
         case _ => Ok(m.process.memory) == Value(m)
  }

  /** The temporary file is never the state file, and once written it is complete. */
  ghost predicate TempOk(m: Machine) {
    m.process.Up? ==>
      match m.process.at
      case Ready | Renamed(_) => true
      case Prepared(next) => Normal(next)
      case Encoded(next) => Normal(next) && Encodable(next)
      case Created(next, tmp) => Normal(next) && Encodable(next) && tmp != m.path
      case Written(next, tmp) => Normal(next) && tmp != m.path && FileAt(m.files, tmp) == Some(Encode(next))
      case Synced(next, tmp) => Normal(next) && tmp != m.path && FileAt(m.files, tmp) == Some(Encode(next))
      case Sealed(next, tmp) => Normal(next) && tmp != m.path && FileAt(m.files, tmp) == Some(Encode(next))
      case Failed(tmp) => tmp != m.path
  }

  ghost predicate Consistent(m: Machine) { FileOk(m) && MemoryOk(m) && TempOk(m) }

  lemma ValueIsRead(m: Machine)
    requires FileOk(m)
    ensures OpenFile(FileAt(m.files, m.path)) == Value(m)
  {
  }

  /** Only the rename touches the state file. */
  lemma OnlyRenameTouches(m: Machine, a: Action)
    requires TempOk(m) && Enabled(m, a) && !a.Rename?
    ensures var t := Apply(m, a);
            FileAt(t.files, t.path) == FileAt(m.files, m.path) && t.commits == m.commits && t.path == m.path
                && t.first == m.first
  {
  }

  lemma FileStep(m: Machine, a: Action)
    requires Consistent(m) && Enabled(m, a)
    ensures FileOk(Apply(m, a))
  {
    if !a.Rename? {
      OnlyRenameTouches(m, a);
    }
  }

  lemma MemoryStep(m: Machine, a: Action)
    requires Consistent(m) && Enabled(m, a)
    ensures MemoryOk(Apply(m, a))
  {
    if a.Open? {
      ValueIsRead(m);
    } else if a.Rename? {
      assert Apply(m, a).commits[..|m.commits|] == m.commits;
    }
  }

  lemma TempStep(m: Machine, a: Action)
    requires TempOk(m) && Enabled(m, a)
    ensures TempOk(Apply(m, a))
  {
    if a.Change? && a.result.Some? {
      NormalizeIdempotent(a.result.value);
    }
  }

  lemma Step(m: Machine, a: Action)
    requires Consistent(m) && Enabled(m, a)
    ensures Consistent(Apply(m, a)) && Apply(m, a).path == m.path && Apply(m, a).first == m.first
  {
    FileStep(m, a);
    MemoryStep(m, a);
    TempStep(m, a);
  }

  lemma {:induction false} Always(m: Machine, run: seq<Action>)
    requires Consistent(m) && Runs(m, run)
    ensures Consistent(After(m, run)) && After(m, run).path == m.path && After(m, run).first == m.first
    decreases |run|
  {
    if run != [] {
      Step(m, run[0]);
      Always(Apply(m, run[0]), run[1..]);
    }
  }

  /**
   Crash consistency. After every run of updates, failing steps, crashes and restarts, the file
   at the path is the one found at the beginning or the complete encoding of one committed state,
   and starting the program then yields exactly the last commit, or what the first file held.
   */
  lemma CrashConsistency(path: string, files: map<string, Content>, run: seq<Action>)
    requires Runs(Initial(path, files), run)
    ensures var m := After(Initial(path, files), run);
            && (FileAt(m.files, path) == FileAt(files, path)
                  || exists s :: s in m.commits && FileAt(m.files, path) == Some(Encode(s)))
            && OpenFile(FileAt(m.files, path)) ==
                 (if m.commits != [] then Ok(m.commits[|m.commits| - 1]) else OpenFile(FileAt(files, path)))
  {
    Always(Initial(path, files), run);
    ValueIsRead(After(Initial(path, files), run));
  }

  /** A file that cannot be read is never overwritten, whatever is tried. */
  lemma UnreadableKept(path: string, files: map<string, Content>, run: seq<Action>)
    requires Runs(Initial(path, files), run) && OpenFile(FileAt(files, path)).Err?
    ensures var m := After(Initial(path, files), run);
            m.process.Down? && m.commits == [] && FileAt(m.files, path) == FileAt(files, path)
  {
  }

  /** A file of another version, newer or older, or of none, is there for good as it was. */
  lemma OtherVersionsKept(path: string, files: map<string, Content>, run: seq<Action>)
    requires Runs(Initial(path, files), run) && path in files && VersionOf(files[path]) != Some(1)
    ensures var m := After(Initial(path, files), run);
            path in m.files && m.files[path] == files[path] && m.process.Down? && m.commits == []
  {
    OpensExactly(files[path]);
    UnreadableKept(path, files, run);
  }

  /**
   Refinement of a single variable. One step either leaves the stored value alone, or is the
   rename, which replaces it by the state the update prepared; whenever no update is under way,
   what Get copies is the stored value and equals what reading the file would give.
   */
  lemma AtomicVariable(path: string, files: map<string, Content>, run: seq<Action>, a: Action)
    requires Runs(Initial(path, files), run) && Enabled(After(Initial(path, files), run), a)
    ensures var m := After(Initial(path, files), run);
            && Value(Apply(m, a)) == (if a.Rename? then Ok(m.process.at.next) else Value(m))
            && (m.process.Up? && m.process.at.Ready? ==>
                  Ok(m.process.memory) == Value(m) && Value(m) == OpenFile(FileAt(m.files, path)))
  {
    Always(Initial(path, files), run);
    ValueIsRead(After(Initial(path, files), run));
  }

  // The objects on the heap. Lists are arrays that may be null, as Go's slices may be nil.

  function List<T>(a: array?<T>): Option<seq<T>>
    reads a
  {
    if a == null then None else Some(a[..])
  }

  function Own<T>(a: array?<T>): set<object> { if a == null then {} else {a as object} }

  /** What there was before has nothing in common with what is new. */
  twostate lemma Apart(mine: set<object>, new theirs: set<object>)
    requires fresh(theirs)
    ensures mine !! theirs
  {
  }

  /** append([]T(nil), xs...): a fresh array, or nil when there is nothing to copy. */
  method CopyOrNil<T>(a: array?<T>) returns (b: array?<T>)
    ensures List(b) == Appended(List(a))
    ensures b != null ==> fresh(b)
  {
    if a == null || a.Length == 0 {
      b := null;
    } else {
      b := new T[a.Length](i requires 0 <= i < a.Length reads a => a[i]);
      assert b[..] == a[..];
    }
  }

  /** append([]T{}, xs...): always a fresh array. */
  method CopyOrEmpty<T>(a: array?<T>) returns (b: array<T>)
    ensures List(b) == Some(Items(List(a))) && fresh(b)
  {
    if a == null {
      b := new T[0];
      assert b[..] == [];
    } else {
      b := new T[a.Length](i requires 0 <= i < a.Length reads a => a[i]);
      assert b[..] == a[..];
    }
  }

  class RegistrationObject {
    var registeredAt: Stamp
    var tokenB: string
    var versionsUrl: string
    var version: string
    var endpoints: array?<Endpoint>
    var roles: array?<PartyRole>

    ghost function Repr(): set<object>
      reads this
    {
      {this as object} + Own(endpoints) + Own(roles)
    }

    function Value(): Registration
      reads this, endpoints, roles
    {
      Registration(registeredAt, tokenB, versionsUrl, version, List(endpoints), List(roles))
    }

    constructor (registeredAt: Stamp, tokenB: string, versionsUrl: string, version: string,
                 endpoints: array?<Endpoint>, roles: array?<PartyRole>)
      ensures this.endpoints == endpoints && this.roles == roles
      ensures Value() == Registration(registeredAt, tokenB, versionsUrl, version, List(endpoints), List(roles))
    {
      this.registeredAt, this.tokenB, this.versionsUrl, this.version := registeredAt, tokenB, versionsUrl, version;
      this.endpoints, this.roles := endpoints, roles;
    }

    method CloneObject() returns (o: RegistrationObject)
      ensures o.Value() == CloneRegistration(Value()) && fresh(o.Repr())
    {
      var es := CopyOrNil(endpoints);
      var ps := CopyOrNil(roles);
      o := new RegistrationObject(registeredAt, tokenB, versionsUrl, version, es, ps);
    }

    method NormalizeObject()
      modifies this
      ensures Value() == old(Value()).(registeredAt := Utc(old(registeredAt))) && Repr() == old(Repr())
    {
      registeredAt := Utc(registeredAt);
    }
  }

  method CloneOrNil(r: RegistrationObject?) returns (o: RegistrationObject?)
    ensures o == null <==> r == null
    ensures r != null ==> o.Value() == CloneRegistration(r.Value()) && fresh(o) && fresh(o.Repr())
  {
    o := null;
    if r != null {
      o := r.CloneObject();
    }
  }

  class StateObject {
    var version: int
    var ocpi: RegistrationObject?
    var nextReservationId: int
    var nextTransactionId: int
    var nextRemoteStartId: int
    var reservations: array?<Reservation>
    var transactions: array?<Transaction>

    ghost function Repr(): set<object>
      reads this, ocpi
    {
      {this as object} + Own(reservations) + Own(transactions) + (if ocpi == null then {} else ocpi.Repr())
    }

    function Value(): State
      reads this, reservations, transactions, ocpi
      reads if ocpi == null then null else ocpi.endpoints, if ocpi == null then null else ocpi.roles
    {
      State(version, if ocpi == null then None else Some(ocpi.Value()),
            nextReservationId, nextTransactionId, nextRemoteStartId, List(reservations), List(transactions))
    }

    constructor Empty()
      ensures Value() == EMPTY && fresh(Repr())
    {
      version, ocpi := VERSION, null;
      nextReservationId, nextTransactionId, nextRemoteStartId := 0, 0, 0;
      var rs, ts := new Reservation[0], new Transaction[0];
      assert rs[..] == [] && ts[..] == [];
      reservations, transactions := rs, ts;
    }

    constructor Raw(version: int, ocpi: RegistrationObject?, nextReservationId: int, nextTransactionId: int,
                    nextRemoteStartId: int, reservations: array?<Reservation>, transactions: array?<Transaction>)
      ensures this.ocpi == ocpi && this.reservations == reservations && this.transactions == transactions
      ensures Value() == State(version, if ocpi == null then None else Some(ocpi.Value()),
                               nextReservationId, nextTransactionId, nextRemoteStartId, List(reservations),
                                   List(transactions))
    {
      this.version, this.ocpi := version, ocpi;
      this.nextReservationId, this.nextTransactionId, this.nextRemoteStartId := nextReservationId, nextTransactionId,
          nextRemoteStartId;
      this.reservations, this.transactions := reservations, transactions;
    }

    method CopyParts() returns (reg: RegistrationObject?, rs: array<Reservation>, ts: array<Transaction>)
      ensures reg == null <==> ocpi == null
      ensures reg != null ==> reg.Value() == CloneRegistration(ocpi.Value()) && fresh(reg) && fresh(reg.Repr())
      ensures List(rs) == Some(Items(List(reservations))) && fresh(rs)
      ensures List(ts) == Some(Items(List(transactions))) && fresh(ts)
    {
      rs := CopyOrEmpty(reservations);
      ts := CopyOrEmpty(transactions);
      reg := CloneOrNil(ocpi);
    }

    /** A deep copy: nothing the copy can reach is reachable from the original. */
    method CloneObject() returns (o: StateObject)
      ensures o.Value() == Clone(Value()) && fresh(o.Repr())
    {
      var reg, rs, ts := CopyParts();
      o := new StateObject.Raw(version, reg, nextReservationId, nextTransactionId, nextRemoteStartId, rs, ts);
    }

    /** The copy and the original have nothing in common, and the original is as it was. */
    method CloneApart() returns (o: StateObject)
      ensures o.Value() == Clone(Value()) && fresh(o.Repr())
      ensures o.Repr() !! Repr() && Repr() == old(Repr()) && Value() == old(Value())
    {
      ghost var mine := Repr();
      o := CloneObject();
      Apart(mine, o.Repr());
      assert Repr() == mine;
    }

    method NormalizeLists()
      modifies this, Own(reservations), Own(transactions)
      ensures Value() == old(Value()).(reservations := Some(Each(NormalReservation, old(Items(List(reservations))))),
                                       transactions := Some(Each(NormalTransaction, old(Items(List(transactions))))))
      ensures ocpi == old(ocpi)
      ensures forall x :: x in Own(reservations) + Own(transactions) ==>
                x in old(Own(reservations) + Own(transactions)) || fresh(x)
    {
      reservations := NormalReservations(reservations);
      transactions := NormalTransactions(transactions);
    }

    /** normalize, in place: the current version, no nil lists, every timestamp in UTC. */
    method NormalizeObject()
      modifies Repr()
      ensures Value() == Normalize(old(Value()))
      ensures ocpi == old(ocpi) && (ocpi != null ==> ocpi.Repr() == old(ocpi.Repr()))
      ensures forall x :: x in Own(reservations) + Own(transactions) ==>
                x in old(Own(reservations) + Own(transactions)) || fresh(x)
    {
      ghost var was := Value();
      version := VERSION;
      NormalizeLists();
      assert Value() == was.(version := VERSION, reservations := Value().reservations,
          transactions := Value().transactions);
      if ocpi != null {
        ocpi.NormalizeObject();
      }
    }
  }

  method NormalReservations(rs: array?<Reservation>) returns (out: array<Reservation>)
    modifies if rs == null then {} else {rs}
    ensures List(out) == Some(Each(NormalReservation, old(Items(List(rs)))))
    ensures if rs == null then fresh(out) else out == rs
  {
    if rs == null {
      out := new Reservation[0];
      assert out[..] == Each(NormalReservation, []);
    } else {
      NormalizeReservations(rs);
      out := rs;
    }
  }

  method NormalTransactions(ts: array?<Transaction>) returns (out: array<Transaction>)
    modifies if ts == null then {} else {ts}
    ensures List(out) == Some(Each(NormalTransaction, old(Items(List(ts)))))
    ensures if ts == null then fresh(out) else out == ts
  {
    if ts == null {
      out := new Transaction[0];
      assert out[..] == Each(NormalTransaction, []);
    } else {
      NormalizeTransactions(ts);
      out := ts;
    }
  }

  method NormalizeReservations(rs: array<Reservation>)
    modifies rs
    ensures rs[..] == Each(NormalReservation, old(rs[..]))
  {
    for i := 0 to rs.Length
      invariant forall j :: 0 <= j < rs.Length ==> rs[j] == if j < i then NormalReservation(old(rs[j])) else old(rs[j])
    {
      rs[i] := rs[i].(expiresAt := Utc(rs[i].expiresAt), createdAt := Utc(rs[i].createdAt));
    }
  }

  method NormalizeTransactions(ts: array<Transaction>)
    modifies ts
    ensures ts[..] == Each(NormalTransaction, old(ts[..]))
  {
    for i := 0 to ts.Length
      invariant forall j :: 0 <= j < ts.Length ==> ts[j] == if j < i then NormalTransaction(old(ts[j])) else old(ts[j])
    {
      ts[i] := ts[i].(startedAt := Utc(ts[i].startedAt));
    }
  }

  method ArrayOf<T>(xs: Option<seq<T>>) returns (a: array?<T>)
    ensures List(a) == xs && (a != null ==> fresh(a))
  {
    if xs.None? {
      a := null;
    } else {
      a := new T[|xs.value|](i requires 0 <= i < |xs.value| => xs.value[i]);
      assert a[..] == xs.value;
    }
  }

  method RegistrationFrom(r: Registration) returns (o: RegistrationObject)
    ensures o.Value() == r && fresh(o.Repr())
  {
    var es := ArrayOf(r.endpoints);
    var ps := ArrayOf(r.roles);
    o := new RegistrationObject(r.registeredAt, r.tokenB, r.versionsUrl, r.version, es, ps);
  }

  method PartsOf(v: State) returns (reg: RegistrationObject?, rs: array?<Reservation>, ts: array?<Transaction>)
    ensures reg == null <==> v.ocpi.None?
    ensures reg != null ==> reg.Value() == v.ocpi.value && fresh(reg) && fresh(reg.Repr())
    ensures List(rs) == v.reservations && (rs != null ==> fresh(rs))
    ensures List(ts) == v.transactions && (ts != null ==> fresh(ts))
  {
    rs := ArrayOf(v.reservations);
    ts := ArrayOf(v.transactions);
    reg := null;
    if v.ocpi.Some? {
      reg := RegistrationFrom(v.ocpi.value);
    }
  }

  /** A decoded state on the heap. */
  method FromValue(v: State) returns (o: StateObject)
    ensures o.Value() == v && fresh(o.Repr())
  {
    var reg, rs, ts := PartsOf(v);
    o := new StateObject.Raw(v.version, reg, v.nextReservationId, v.nextTransactionId, v.nextRemoteStartId, rs, ts);
  }

  /** Removing a temporary file undoes having made it. */
  lemma Leftovers(files: map<string, Content>, path: string, tmp: string, next: State)
    requires tmp !in files && tmp != path
    ensures files - {tmp} == files
    ensures files[tmp := Unreadable] - {tmp} == files && files[tmp := Encode(next)] - {tmp} == files
    ensures files[tmp := Unreadable][tmp := Encode(next)] == files[tmp := Encode(next)]
    ensures files[tmp := Encode(next)][path := Encode(next)] - {tmp} == files[path := Encode(next)]
  {
  }

  /** Which operations of one write go wrong. */
  datatype Faults = Faults(create: bool, write: bool, sync: bool, close: bool, rename: bool, remove: bool)
  {
    /** Nothing up to the commit goes wrong. */
    predicate Spare() { !create && !write && !sync && !close && !rename }
  }

  /**
   The store object, with the directory it works in. The ghost field m follows the machine above
   step by step from the files found, in a state its invariant describes at every point.
   */
  class StateStore {
    const path: string
    var files: map<string, Content>
    var state: StateObject
    ghost const found: map<string, Content>
    ghost var m: Machine

    /** The machine is in one of the states its steps keep to. */
    ghost predicate Tracked()
      reads this
    {
      Consistent(m) && m.path == path && m.first == FileAt(found, path) && m.process.Up?
    }

    ghost predicate Valid()
      reads this, state, state.reservations, state.transactions, state.ocpi
      reads if state.ocpi == null then null else state.ocpi.endpoints, if state.ocpi == null then null
          else state.ocpi.roles
    {
      Tracked() && files == m.files && m.process == Up(state.Value(), Ready)
    }

    /** Open, once the file has been read and understood. */
    constructor (path: string, files: map<string, Content>, state: StateObject)
      requires OpenFile(FileAt(files, path)) == Ok(state.Value())
      ensures Valid() && this.path == path && this.files == files && this.state == state && m.commits == []
              && found == files
    {
      this.path, this.files, this.state := path, files, state;
      this.found := files;
      Step(Initial(path, files), Open);
      m := Apply(Initial(path, files), Open);
    }

    ghost method Advance(a: Action)
      requires Tracked() && Enabled(m, a) && !a.Crash?
      modifies this`m
      ensures Tracked() && m == Apply(old(m), a)
    {
      Step(m, a);
      m := Apply(m, a);
    }

    /** Get: a copy with the same content that shares nothing with the store. */
    method Get() returns (o: StateObject)
      requires Valid()
      ensures Valid() && o.Value() == Clone(state.Value()) && SameContent(o.Value(), state.Value())
      ensures fresh(o.Repr()) && o.Repr() !! state.Repr() && this !in o.Repr()
      ensures state == old(state) && state.Value() == old(state.Value())
    {
      CloneKeepsContent(state.Value());
      o := state.CloneApart();
    }

    /** Encode the state and create the temporary file. */
    method Create(ghost result: State, next: State, tmp: string, faults: Faults) returns (ok: bool)
      requires Tracked() && files == m.files && m.process.at.Ready? && next == Normalize(result) && tmp !in files
               && tmp != path
      modifies this`files, this`m
      ensures Tracked() && files == m.files && m.process.memory == old(m.process.memory) && m.commits == old(m.commits)
      ensures ok <==> Encodable(next) && !faults.create
      ensures m.process.at == if ok then Created(next, tmp) else Ready
      ensures files == if ok then old(files)[tmp := Unreadable] else old(files)
    {
      ok := false;
      Advance(Change(Some(result)));
      if !Encodable(next) {
        Advance(MarshalFails);
        return;
      }
      Advance(Marshal);
      if faults.create {
        Advance(CreateFails);
        return;
      }
      files := files[tmp := Unreadable];
      Advance(CreateTemp(tmp));
      ok := true;
    }

    /** Sync and close the temporary file, once written. */
    method Flush(next: State, tmp: string, faults: Faults) returns (ok: bool)
      requires Tracked() && files == m.files && m.process.at == Written(next, tmp)
      modifies this`m
      ensures Tracked() && files == m.files && m.process.memory == old(m.process.memory) && m.commits == old(m.commits)
      ensures ok <==> !faults.sync && !faults.close
      ensures m.process.at == if ok then Sealed(next, tmp) else Failed(tmp)
    {
      ok := false;
      if faults.sync {
        Advance(SyncFails);
        return;
      }
      Advance(Sync);
      if faults.close {
        Advance(SealFails);
        return;
      }
      Advance(Seal);
      ok := true;
    }

    /** Write, sync and close the temporary file. */
    method Fill(next: State, tmp: string, faults: Faults) returns (ok: bool)
      requires Tracked() && files == m.files && m.process.at == Created(next, tmp) && tmp != path
      modifies this`files, this`m
      ensures Tracked() && files == m.files && m.process.memory == old(m.process.memory) && m.commits == old(m.commits)
      ensures ok <==> !faults.write && !faults.sync && !faults.close
      ensures m.process.at == if ok then Sealed(next, tmp) else Failed(tmp)
      ensures ok ==> FileAt(files, tmp) == Some(Encode(next))
      ensures files == old(files) || files == old(files)[tmp := Encode(next)]
    {
      ok := false;
      if faults.write {
        Advance(WriteFails);
        return;
      }
      files := files[tmp := Encode(next)];
      Advance(WriteAll);
      ok := Flush(next, tmp, faults);
    }

    /** The rename, which is the commit point. */
    method Swap(next: State, tmp: string, fails: bool)
      requires Tracked() && files == m.files && m.process.at == Sealed(next, tmp)
               && FileAt(files, tmp) == Some(Encode(next)) && tmp != path
      modifies this`files, this`m
      ensures Tracked() && files == m.files && m.process.memory == old(m.process.memory)
      ensures m.process.at == if fails then Failed(tmp) else Renamed(next)
      ensures m.commits == if fails then old(m.commits) else old(m.commits) + [next]
      ensures files == if fails then old(files) else old(files)[path := Encode(next)] - {tmp}
    {
      if fails {
        Advance(RenameFails);
      } else {
        files := files[path := files[tmp]] - {tmp};
        Advance(Rename);
      }
    }

    /**
     write, with its deferred clean-up. It succeeds exactly when nothing goes wrong, and then the
     file is the complete new state; otherwise the file is what it was. No other file is touched,
     and the temporary one is gone unless removing it fails too.
     */
    method Write(ghost result: State, next: State, tmp: string, faults: Faults) returns (ok: bool)
      requires Tracked() && files == m.files && m.process.at.Ready? && next == Normalize(result) && tmp !in files
               && tmp != path
      modifies this`files, this`m
      ensures Tracked() && files == m.files && m.process.memory == old(m.process.memory)
      ensures ok <==> Encodable(next) && faults.Spare()
      ensures m.process.at == if ok then Renamed(next) else Ready
      ensures FileAt(files, path) == if ok then Some(Encode(next)) else FileAt(old(files), path)
      ensures ok ==> files == old(files)[path := Encode(next)]
      ensures !ok ==> files - {tmp} == old(files) && (!faults.remove ==> files == old(files))
      ensures m.commits == if ok then old(m.commits) + [next] else old(m.commits)
    {
      Leftovers(files, path, tmp, next);
      ok := Create(result, next, tmp, faults);
      if !ok {
        return;
      }
      ok := Fill(next, tmp, faults);
      if ok {
        Swap(next, tmp, faults.rename);
        ok := !faults.rename;
      }
      if !ok {
        Remove(tmp, faults.remove);
      }
    }

    /** The deferred clean-up of a failed write, which may itself fail. */
    method Remove(tmp: string, fails: bool)
      requires Tracked() && files == m.files && m.process.at == Failed(tmp) && tmp != path
      modifies this`files, this`m
      ensures Tracked() && files == m.files && m.process == Up(old(m.process.memory), Ready)
      ensures files == (if fails then old(files) else old(files) - {tmp}) && m.commits == old(m.commits)
    {
      if !fails {
        files := files - {tmp};
      }
      Advance(Cleanup(!fails));
    }

    /**
     Update. It succeeds exactly when the change does, its result can be encoded and nothing goes
     wrong in writing it; then memory and file hold the normalised result. Otherwise both are as
     they were.
     */
    method Update(change: State -> Option<State>, tmp: string, faults: Faults) returns (ok: bool)
      requires Valid() && tmp !in files && tmp != path
      modifies this`files, this`state, this`m
      ensures Valid()
      ensures var result := change(Clone(old(state.Value())));
              ok <==> result.Some? && Encodable(Normalize(result.value)) && faults.Spare()
      ensures ok ==> fresh(state.Repr())
      ensures ok || !faults.remove ==> files == if ok then old(files)[path := Encode(state.Value())] else old(files)
      ensures !ok ==>
                state == old(state) && state.Value() == old(state.Value())
                && FileAt(files, path) == FileAt(old(files), path)
      ensures ok ==>
                var result := change(Clone(old(state.Value())));
                && result.Some?
                && state.Value() == Normalize(result.value)
                && FileAt(files, path) == Some(Encode(state.Value()))
    {
      var result, next := Changed(change);
      if result.None? {
        return false;
      }
      var value := next.Value();
      ok := Persist(next, result.value, value, tmp, faults);
      assert state.Value() == if ok then value else old(state.Value());
    }

    /** The second half of Update: write the new state, then let memory follow the file. */
    method Persist(next: StateObject, ghost result: State, value: State, tmp: string, faults: Faults) returns (ok: bool)
      requires Tracked() && files == m.files && m.process.at.Ready? && value == Normalize(result) && tmp !in files
               && tmp != path
      modifies this`files, this`state, this`m
      ensures ok <==> Encodable(value) && faults.Spare()
      ensures Tracked() && files == m.files && state == if ok then next else old(state)
      ensures m.process == Up(if ok then value else old(m.process.memory), Ready)
      ensures FileAt(files, path) == if ok then Some(Encode(value)) else FileAt(old(files), path)
      ensures ok || !faults.remove ==> files == if ok then old(files)[path := Encode(value)] else old(files)
    {
      ok := Write(result, value, tmp, faults);
      if ok {
        state := next;
        Advance(Install);
      }
    }

    /** The change applied to a copy, and its result in normal form. */
    method Changed(change: State -> Option<State>) returns (result: Option<State>, next: StateObject)
      ensures result == change(Clone(state.Value())) && fresh(next.Repr())
      ensures result.Some? ==> next.Value() == Normalize(result.value)
    {
      next := state.CloneObject();
      result := change(next.Value());
      if result.Some? {
        next := NormalFrom(result.value);
      }
    }
  }

  method NormalFrom(v: State) returns (o: StateObject)
    ensures o.Value() == Normalize(v) && fresh(o.Repr())
  {
    o := FromValue(v);
    o.NormalizeObject();
    assert forall x :: x in o.Repr() ==>
      x == o || x in Own(o.reservations) + Own(o.transactions) || (o.ocpi != null && x in o.ocpi.Repr());
  }

  datatype OpenError = CannotRead | CannotParse(why: ParseError)

  /**
   Open: a store over the file at the path, or why there cannot be one. denied says that reading
   failed for another reason than that there is no file.
   */
  method OpenStore(path: string, files: map<string, Content>, denied: bool)
      returns (store: StateStore?, error: Option<OpenError>)
    ensures store != null <==> !denied && OpenFile(FileAt(files, path)).Ok?
    ensures store != null <==>
            !denied && (path in files ==> files[path].Json? && files[path].version == Some(1) && files[path].body.Some?)
    ensures !denied && path in files && VersionOf(files[path]).Some? && VersionOf(files[path]).value > 1 ==>
              error == Some(CannotParse(NewerVersion(VersionOf(files[path]).value)))
    ensures store != null ==>
              fresh(store) && fresh(store.state.Repr()) && store.Valid() && store.path == path && store.files == files
              && Ok(store.state.Value()) == OpenFile(FileAt(files, path)) && error.None?
    ensures denied ==> error == Some(CannotRead)
    ensures !denied && store == null ==>
            error.Some? && error.value.CannotParse? && OpenFile(FileAt(files, path)) == Err(error.value.why)
  {
    store, error := null, None;
    if path in files { OpensExactly(files[path]); }
    if denied {
      error := Some(CannotRead);
    } else if path !in files {
      var o := new StateObject.Empty();
      store := new StateStore(path, files, o);
    } else {
      var parsed := ParseFile(files[path]);
      match parsed {
        case Err(e) => error := Some(CannotParse(e));
        case Ok(v) =>
          var o := FromValue(v);
          store := new StateStore(path, files, o);
      }
    }
  }

  /**
   A caller that keeps what Get gave it, lets the store change, and then scribbles over its copy
   as far as it reaches: the store still holds what it held, in memory and in the file.
   */
  method ScribbleOverCopy(
    store: StateStore, change: State -> Option<State>, tmp: string, faults: Faults, r: Reservation, e: Endpoint)
    requires store.Valid() && tmp !in store.files && tmp != store.path
    modifies store`files, store`state, store`m
    ensures store.Valid()
    ensures var result := change(Clone(old(store.state.Value())));
            store.state.Value() == if result.Some? && Encodable(Normalize(result.value)) && faults.Spare()
                                   then Normalize(result.value) else old(store.state.Value())
  {
    var o := store.Get();
    UpdateBeside(store, o, change, tmp, faults);
    ScribbleBeside(store, o, r, e);
  }

  /** An update never puts the store's state on objects there were before, such as a copy given out. */
  method UpdateBeside(store: StateStore, o: StateObject, change: State -> Option<State>, tmp: string, faults: Faults)
    requires store.Valid() && tmp !in store.files && tmp != store.path
    requires store !in o.Repr() && o.Repr() !! store.state.Repr()
    modifies store`files, store`state, store`m
    ensures store.Valid() && o.Repr() == old(o.Repr()) && o.Repr() !! store.state.Repr()
    ensures var result := change(Clone(old(store.state.Value())));
            store.state.Value() == if result.Some? && Encodable(Normalize(result.value)) && faults.Spare()
                                   then Normalize(result.value) else old(store.state.Value())
  {
    ghost var reach := o.Repr();
    var ok := store.Update(change, tmp, faults);
    if ok { Apart(reach, store.state.Repr()); }
    assert o.Repr() == reach;
  }

  method ScribbleBeside(store: StateStore, o: StateObject, r: Reservation, e: Endpoint)
    requires store.Valid() && store !in o.Repr() && o.Repr() !! store.state.Repr()
    modifies o.Repr()
    ensures store.Valid() && store.state == old(store.state) && store.state.Value() == old(store.state.Value())
  {
    Scribble(o, r, e);
  }

  /** Whatever a caller may write to: the copy itself, its lists and its registration's lists. */
  method Scribble(o: StateObject, r: Reservation, e: Endpoint)
    modifies o.Repr()
  {
    if o.reservations != null && o.reservations.Length > 0 {
      o.reservations[0] := r;
    }
    if o.ocpi != null && o.ocpi.endpoints != null && o.ocpi.endpoints.Length > 0 {
      o.ocpi.endpoints[0] := e;
    }
    if o.ocpi != null {
      o.ocpi.tokenB := "";
    }
    o.version := o.version + 1;
  }
}
