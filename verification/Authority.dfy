/** Authorization that is re-read, not remembered: the identity authority behind the
  * multi-user API, its sweeps, and the checks a revocable run repeats.
  *
  * Functions on `Value` say what one call does; `IdentityAuthority` does the same in place.
  * The durable store is a document and the markers by which profiles are bound to it; both
  * are changed by others at any time, also while a check is under way, and read apart.
  */
module Authority {

  import opened Wrappers

  datatype Capability =
    | RunsRead | RunsWrite | SessionsRead | SessionsWrite | ToolsRead | ApprovalsWrite | Administer | Provision

  datatype Role = Operator | User

  datatype Source = LocalCompatibility | LocalProcess | Credential(key: string) | LegacyOperatorKey

  datatype Denial =
    | Unauthenticated | Revoked | Expired | MissingCapability
    | ProfileOutsideCredential | ProfileUnowned | ProfileNotGranted

  datatype Restriction = Restriction(capabilities: Option<set<Capability>>, profiles: Option<set<string>>)

  datatype Caller = Caller(id: string, role: Role, source: Source, restriction: Restriction)

  datatype Record = Record(principal: string, role: Role, restriction: Restriction, revoked: bool, expires: Option<nat>)

  datatype Ownership = Ownership(owner: string, grants: map<string, set<Capability>>)

  datatype State = State(credentials: map<string, Record>, ownership: map<string, Ownership>)

  datatype Owner = Owner(principal: Option<string>, profile: Option<string>)

  datatype Answer<+T> = Ok(value: T) | Denied(denial: Denial)

  const EMPTY := State(map[], map[])
  const OWNER_DEFAULT := {RunsRead, RunsWrite, SessionsRead, ApprovalsWrite}

  predicate OperatorOnly(capability: Capability) {
    capability.Administer? || capability.Provision?
  }

  // ---------------------------------------------------------------- the decisions

  function CallerFor(state: State, key: string, now: nat): Answer<Caller> {
    if key !in state.credentials then Denied(Revoked)
    else
      var r := state.credentials[key];
      if r.revoked then Denied(Revoked)
      else if r.expires.Some? && now >= r.expires.value then Denied(Expired)
      else Ok(Caller(r.principal, r.role, Credential(key), r.restriction))
  }

  function AuthorizeCapability(caller: Caller, capability: Capability): Option<Denial> {
    var roleAllows := caller.role.Operator? || !OperatorOnly(capability);
    var credentialAllows := caller.restriction.capabilities.Some? ==> capability in caller.restriction.capabilities.value;
    if roleAllows && credentialAllows then None else Some(MissingCapability)
  }

  predicate Permits(o: Ownership, principal: string, capability: Capability) {
    && !OperatorOnly(capability)
    && ((principal in o.grants && capability in o.grants[principal])
        || (principal == o.owner && capability in OWNER_DEFAULT))
  }

  function Authorize(caller: Caller, capability: Capability, profile: string, ownership: map<string, Ownership>): Option<Denial> {
    if AuthorizeCapability(caller, capability).Some? then AuthorizeCapability(caller, capability)
    else if caller.restriction.profiles.Some? && profile !in caller.restriction.profiles.value then Some(ProfileOutsideCredential)
    else if caller.role.Operator? then None
    else if profile !in ownership then Some(ProfileUnowned)
    else if !Permits(ownership[profile], caller.id, capability) then Some(ProfileNotGranted)
    else None
  }

  // ---------------------------------------------------------------- the authority

  /** The identity document: an owner counts only while its profile bears the marker that the
    * document binds it by. */
  datatype Document = Document(credentials: map<string, Record>, ownership: map<string, Ownership>, bindings: map<string, string>)

  type Markers = map<string, string>

  function Effective(d: Document, markers: Markers): State {
    State(d.credentials,
          map p | p in d.ownership && p in d.bindings && p in markers && markers[p] == d.bindings[p] :: d.ownership[p])
  }

  /** The state that a document and markers are read as: none of it, if the document cannot
    * be read. */
  function AsRead(document: Option<Document>, markers: Markers): State {
    if document.Some? then Effective(document.value, markers) else EMPTY
  }

  /** How far another reader has come: it has the document, or the markers too. */
  datatype Reading = Loaded(document: Option<Document>) | Bound(document: Option<Document>, markers: Markers)

  /** `document` and `markers` are the store as a read would find it now, the document `None`
    * when it cannot be read; an authority without a store is not `persistent`. `pending` is
    * what other readers have read and not yet made the state. `swept` is the last sweep
    * that read the store, and what that read answered. */
  datatype Value = Value(persistent: bool, document: Option<Document>, markers: Markers, state: State,
                         pending: map<nat, Reading>, swept: (nat, Option<Denial>), loads: nat)

  // ---------------------------------------------------------------- what others do

  /** What others do while a check is under way: the document or the markers change, another
    * check reads the one and then the other, that check makes what it read the state, or
    * the state in memory is changed. */
  datatype Other =
    | DocumentChanges(document: Option<Document>) | MarkersChange(markers: Markers)
    | Reads(reader: nat) | Binds(reader: nat) | Writes(reader: nat)
    | MemoryChanges(state: State)

  function Did(v: Value, o: Other): Value {
    match o
    case DocumentChanges(document) => v.(document := document)
    case MarkersChange(markers) => v.(markers := markers)
    case Reads(reader) =>
      if v.persistent && reader !in v.pending
      then v.(pending := v.pending[reader := Loaded(v.document)], loads := v.loads + 1)
      else v
    case Binds(reader) =>
      if reader in v.pending && v.pending[reader].Loaded?
      then v.(pending := v.pending[reader := Bound(v.pending[reader].document, v.markers)])
      else v
    case Writes(reader) =>
      if reader in v.pending && v.pending[reader].Bound?
      then v.(state := AsRead(v.pending[reader].document, v.pending[reader].markers), pending := v.pending - {reader})
      else v
    case MemoryChanges(state) => if v.persistent then v else v.(state := state)
  }

  function Meanwhile(v: Value, gap: seq<Other>): Value {
    if gap == [] then v else Did(Meanwhile(v, gap[..|gap| - 1]), gap[|gap| - 1])
  }

  /** The gaps in one read: before it reads the markers, and before it takes the lock under
    * which what it read becomes the state. */
  datatype Gaps = Gaps(bind: seq<Other>, write: seq<Other>)

  /** The moments of a check at which it holds no lock on the state: within its read, before
    * it looks up the caller, before it reads again, within that read, and before it looks
    * up the ownership. */
  datatype Amid = Amid(reading: Gaps, lookup: seq<Other>, sync: seq<Other>, rereading: Gaps, ownership: seq<Other>)

  const UNDISTURBED := Gaps([], [])
  const ALONE := Amid(UNDISTURBED, [], [], UNDISTURBED, [])

  // ---------------------------------------------------------------- a check

  function AtBinding(v: Value, gaps: Gaps): Value {
    Meanwhile(v.(loads := v.loads + 1), gaps.bind)
  }

  function Reloaded(v: Value, gaps: Gaps): (Value, Option<Denial>) {
    if !v.persistent then (v, None)
    else
      var b := AtBinding(v, gaps);
      var w := Meanwhile(b, gaps.write);
      (w.(state := AsRead(v.document, b.markers)), if v.document.Some? then None else Some(Unauthenticated))
  }

  /** Brings the state up to date: one read per check, or one per sweep. */
  function Synced(v: Value, epoch: Option<nat>, gaps: Gaps): (Value, Option<Denial>) {
    if !v.persistent then (v, None)
    else if epoch.None? then Reloaded(v, gaps)
    else if v.swept.0 == epoch.value then (v, v.swept.1)
    else
      var (w, denial) := Reloaded(v, gaps);
      (w.(swept := (epoch.value, denial)), denial)
  }

  function Refreshed(v: Value, caller: Caller, epoch: Option<nat>, now: nat, amid: Amid): (Value, Answer<Caller>) {
    if !caller.source.Credential? then (v, Ok(caller))
    else
      var (w, denial) := Synced(v, epoch, amid.reading);
      if denial.Some? then (w, Denied(Revoked))
      else
        var x := Meanwhile(w, amid.lookup);
        (x, CallerFor(x.state, caller.source.key, now))
  }

  /** `authorize_run`, amid what others do: `None` is allowed. */
  function Decided(v: Value, kept: Caller, owner: Owner, capability: Capability, epoch: Option<nat>, now: nat, amid: Amid): (Value, Option<Denial>) {
    var (w, refreshed) := Refreshed(v, kept, epoch, now, amid);
    match refreshed
    case Denied(denial) => (w, Some(denial))
    case Ok(caller) =>
      if AuthorizeCapability(caller, capability).Some? then (w, AuthorizeCapability(caller, capability))
      else if caller.role.Operator? then (w, None)
      else if owner.principal.None? || owner.profile.None? then (w, Some(ProfileNotGranted))
      else if owner.principal.value != caller.id then (w, Some(ProfileNotGranted))
      else
        var (x, denial) := Synced(Meanwhile(w, amid.sync), epoch, amid.rereading);
        if denial.Some? then (x, Some(ProfileNotGranted))
        else
          var y := Meanwhile(x, amid.ownership);
          (y, Authorize(caller, capability, owner.profile.value, y.state.ownership))
  }

  const AUDIT_CAPACITY := 4096

  datatype Audit = Audit(caller: Option<Caller>, profile: Option<string>, denial: Option<Denial>)

  class IdentityAuthority {
    const persistent: bool
    var document: Option<Document>
    var markers: Markers
    var state: State
    var pending: map<nat, Reading>
    var swept: (nat, Option<Denial>)
    var loads: nat
    var changes: nat
    var audit: seq<Audit>

    function Get(): Value
      reads this
    {
      Value(persistent, document, markers, state, pending, swept, loads)
    }

    constructor (persistent: bool, document: Option<Document>, markers: Markers, state: State)
      ensures Get() == Value(persistent, document, markers, if persistent then EMPTY else state, map[], (0, Some(Unauthenticated)), 0)
      ensures audit == []
    {
      this.persistent, this.document, this.markers := persistent, document, markers;
      this.state := if persistent then EMPTY else state;
      pending, swept, loads, changes, audit := map[], (0, Some(Unauthenticated)), 0, 0, [];
    }

    /** Others at work while no lock on the state is held. */
    method Yield(gap: seq<Other>)
      modifies this`document, this`markers, this`state, this`pending, this`loads
      ensures Get() == Meanwhile(old(Get()), gap)
    {
      for i := 0 to |gap|
        invariant Get() == Meanwhile(old(Get()), gap[..i])
      {
        assert gap[..i + 1][..i] == gap[..i];
        match gap[i] {
          case DocumentChanges(next) => document := next;
          case MarkersChange(next) => markers := next;
          case Reads(reader) =>
            if persistent && reader !in pending {
              pending := pending[reader := Loaded(document)];
              loads := loads + 1;
            }
          case Binds(reader) =>
            if reader in pending && pending[reader].Loaded? {
              pending := pending[reader := Bound(pending[reader].document, markers)];
            }
          case Writes(reader) =>
            if reader in pending && pending[reader].Bound? {
              state := AsRead(pending[reader].document, pending[reader].markers);
              pending := pending - {reader};
            }
          case MemoryChanges(next) =>
            if !persistent {
              state := next;
            }
        }
      }
      assert gap[..|gap|] == gap;
    }

    /** Reads the document, then the markers, and only then takes the lock under which what
      * it read becomes the state. */
    method Reload(gaps: Gaps) returns (denial: Option<Denial>)
      modifies this
      ensures (Get(), denial) == Reloaded(old(Get()), gaps)
      ensures audit == old(audit) && changes == old(changes)
    {
      if !persistent {
        return None;
      }
      loads := loads + 1;
      var found := document;
      Yield(gaps.bind);
      var marked := markers;
      Yield(gaps.write);
      match found {
        case Some(read) =>
          state := Effective(read, marked);
          return None;
        case None =>
          state := EMPTY;
          return Some(Unauthenticated);
      }
    }

    method Sync(epoch: Option<nat>, gaps: Gaps) returns (denial: Option<Denial>)
      modifies this
      ensures (Get(), denial) == Synced(old(Get()), epoch, gaps)
      ensures audit == old(audit) && changes == old(changes)
    {
      if !persistent {
        return None;
      }
      if epoch.None? {
        denial := Reload(gaps);
        return;
      }
      if swept.0 != epoch.value {
        var read := Reload(gaps);
        swept := (epoch.value, read);
      }
      return swept.1;
    }

    method Refresh(caller: Caller, epoch: Option<nat>, now: nat, amid: Amid) returns (answer: Answer<Caller>)
      modifies this
      ensures (Get(), answer) == Refreshed(old(Get()), caller, epoch, now, amid)
      ensures audit == old(audit) && changes == old(changes)
    {
      match caller.source {
        case Credential(key) =>
          var denial := Sync(epoch, amid.reading);
          if denial.Some? {
            return Denied(Revoked);
          }
          Yield(amid.lookup);
          return CallerFor(state, key, now);
        case _ =>
          return Ok(caller);
      }
    }

    method AuthorizeRun(kept: Caller, owner: Owner, capability: Capability, epoch: Option<nat>, now: nat, amid: Amid) returns (denial: Option<Denial>)
      modifies this
      ensures (Get(), denial) == Decided(old(Get()), kept, owner, capability, epoch, now, amid)
      ensures audit == old(audit) && changes == old(changes)
    {
      var answer := Refresh(kept, epoch, now, amid);
      if answer.Denied? {
        return Some(answer.denial);
      }
      var caller := answer.value;
      denial := AuthorizeCapability(caller, capability);
      if denial.Some? || caller.role.Operator? {
        return;
      }
      if owner.principal.None? || owner.profile.None? || owner.principal.value != caller.id {
        return Some(ProfileNotGranted);
      }
      Yield(amid.sync);
      denial := Sync(epoch, amid.rereading);
      if denial.Some? {
        return Some(ProfileNotGranted);
      }
      Yield(amid.ownership);
      denial := Authorize(caller, capability, owner.profile.value, state.ownership);
    }

    /** Keeps the most recent decisions only. */
    method RecordDecision(entry: Audit)
      requires |audit| <= AUDIT_CAPACITY
      modifies this
      ensures Get() == old(Get()) && changes == old(changes)
      ensures |audit| <= AUDIT_CAPACITY && audit == Latest(old(audit) + [entry])
    {
      if |audit| == AUDIT_CAPACITY {
        audit := audit[1..];
      }
      audit := audit + [entry];
    }

    /** The check a revocable run repeats; only a refusal is recorded. */
    method RunCheck(kept: Caller, owner: Owner, epoch: Option<nat>, now: nat, amid: Amid) returns (denial: Option<Denial>)
      requires |audit| <= AUDIT_CAPACITY
      modifies this
      ensures (Get(), denial) == Decided(old(Get()), kept, owner, RunsWrite, epoch, now, amid)
      ensures audit == if denial.None? then old(audit) else Latest(old(audit) + [Audit(Some(kept), owner.profile, denial)])
    {
      denial := AuthorizeRun(kept, owner, RunsWrite, epoch, now, amid);
      if denial.Some? {
        RecordDecision(Audit(Some(kept), owner.profile, denial));
      }
    }

    /** Changes the state in memory; an authority with a store refuses. */
    method Update(next: State) returns (changed: bool)
      modifies this
      ensures changed <==> !persistent
      ensures state == (if changed then next else old(state)) && changes == old(changes) + (if changed then 1 else 0)
      ensures document == old(document) && markers == old(markers) && pending == old(pending) && swept == old(swept) && loads == old(loads) && audit == old(audit)
    {
      if persistent {
        return false;
      }
      state := next;
      changes := changes + 1;
      return true;
    }
  }

  function Latest(audit: seq<Audit>): seq<Audit> {
    if |audit| <= AUDIT_CAPACITY then audit else audit[|audit| - AUDIT_CAPACITY..]
  }

  // ---------------------------------------------------------------- what a decision depends on

  /** Whether a credential may act at a time, in terms of the credentials alone. */
  predicate Valid(credentials: map<string, Record>, key: string, now: nat) {
    && key in credentials
    && !credentials[key].revoked
    && (credentials[key].expires.Some? ==> now < credentials[key].expires.value)
  }

  /** The credential's part of the rule: it is valid and not narrowed below the capability. */
  predicate Credited(credentials: map<string, Record>, key: string, capability: Capability, now: nat) {
    && Valid(credentials, key, now)
    && (credentials[key].restriction.capabilities.Some? ==> capability in credentials[key].restriction.capabilities.value)
  }

  /** What an ownership gives a principal: what it was granted and, to the owner, four things
    * more; never what only operators may do. */
  predicate Gives(o: Ownership, principal: string, capability: Capability) {
    && !capability.Administer? && !capability.Provision?
    && (|| (principal in o.grants && capability in o.grants[principal])
        || (principal == o.owner
            && (capability.RunsRead? || capability.RunsWrite? || capability.SessionsRead? || capability.ApprovalsWrite?)))
  }

  /** The ownership's part: the run is the starter's own, on a profile its credential covers
    * and whose ownership gives it the capability. */
  predicate Owned(r: Record, ownership: map<string, Ownership>, owner: Owner, capability: Capability) {
    && owner.principal == Some(r.principal)
    && owner.profile.Some?
    && (r.restriction.profiles.Some? ==> owner.profile.value in r.restriction.profiles.value)
    && owner.profile.value in ownership
    && Gives(ownership[owner.profile.value], r.principal, capability)
  }

  /** The rule a run of `owner` is governed by, in one state: the credential is an
    * operator's, or its run is its own. */
  predicate Entitled(s: State, key: string, owner: Owner, capability: Capability, now: nat) {
    Credited(s.credentials, key, capability, now) && (s.credentials[key].role.Operator? || Owned(s.credentials[key], s.ownership, owner, capability))
  }

  /** What a check goes by: the state when it looks up the caller, and, for a user, whether
    * its second read succeeds and the state when it looks up the ownership. */
  function AtLookup(v: Value, epoch: Option<nat>, amid: Amid): Value {
    Meanwhile(Synced(v, epoch, amid.reading).0, amid.lookup)
  }

  function AtSync(v: Value, epoch: Option<nat>, amid: Amid): Value {
    Meanwhile(AtLookup(v, epoch, amid), amid.sync)
  }

  function AtOwnership(v: Value, epoch: Option<nat>, amid: Amid): Value {
    Meanwhile(Synced(AtSync(v, epoch, amid), epoch, amid.rereading).0, amid.ownership)
  }

  /** A credential's check allows exactly when the credential's part of the rule holds in the
    * state it first looks at, and the ownership's part, for a user, in the state it looks
    * at last: two states, that others may have set. */
  lemma AllowedByTwoStates(v: Value, kept: Caller, owner: Owner, capability: Capability, epoch: Option<nat>, now: nat, amid: Amid)
    requires kept.source.Credential?
    ensures var first, key := AtLookup(v, epoch, amid).state, kept.source.key;
            Decided(v, kept, owner, capability, epoch, now, amid).1.None? <==>
              && Synced(v, epoch, amid.reading).1.None?
              && Credited(first.credentials, key, capability, now)
              && (first.credentials[key].role.Operator?
                  || (&& Synced(AtSync(v, epoch, amid), epoch, amid.rereading).1.None?
                      && Owned(first.credentials[key], AtOwnership(v, epoch, amid).state.ownership, owner, capability)))
  {
  }

  /** Left alone, a credential's check allows exactly what the rule entitles the credential
    * to in the state it brought up to date. */
  lemma DecidedByRule(v: Value, kept: Caller, owner: Owner, capability: Capability, epoch: Option<nat>, now: nat)
    requires kept.source.Credential?
    ensures var (w, denial) := Synced(v, epoch, UNDISTURBED);
            Decided(v, kept, owner, capability, epoch, now, ALONE).1.None? <==>
              denial.None? && Entitled(w.state, kept.source.key, owner, capability, now)
  {
    AllowedByTwoStates(v, kept, owner, capability, epoch, now, ALONE);
  }

  // ---------------------------------------------------------------- what the store held

  /** A state in memory is what some of these documents with some of these markers are read
    * as. */
  predicate ReadFrom(s: State, documents: set<Option<Document>>, marks: set<Markers>) {
    exists d, m | d in documents && m in marks :: s == AsRead(d, m)
  }

  predicate ReadingWithin(r: Reading, documents: set<Option<Document>>, marks: set<Markers>) {
    r.document in documents && (r.Bound? ==> r.markers in marks)
  }

  /** Everything the state can be read from next: the store, and reads under way. */
  predicate Within(v: Value, documents: set<Option<Document>>, marks: set<Markers>) {
    && v.persistent && v.document in documents && v.markers in marks
    && forall r | r in v.pending :: ReadingWithin(v.pending[r], documents, marks)
  }

  /** The changes of a gap stay within these. */
  predicate Spans(gap: seq<Other>, documents: set<Option<Document>>, marks: set<Markers>) {
    forall o | o in gap :: (o.DocumentChanges? ==> o.document in documents) && (o.MarkersChange? ==> o.markers in marks)
  }

  lemma DidWithin(v: Value, o: Other, documents: set<Option<Document>>, marks: set<Markers>)
    requires Within(v, documents, marks) && Spans([o], documents, marks)
    ensures Within(Did(v, o), documents, marks)
    ensures ReadFrom(v.state, documents, marks) ==> ReadFrom(Did(v, o).state, documents, marks)
  {
    assert o in [o];
    if o.Writes? && o.reader in v.pending {
      assert ReadingWithin(v.pending[o.reader], documents, marks);
    }
  }

  /** Whatever others do, the state in memory is read from a document and markers that the
    * store held while they did it, or that a read under way before had found, if it was
    * such before. */
  lemma {:induction false} StatesAreRead(v: Value, gap: seq<Other>, documents: set<Option<Document>>, marks: set<Markers>)
    requires Within(v, documents, marks) && Spans(gap, documents, marks)
    ensures Within(Meanwhile(v, gap), documents, marks)
    ensures ReadFrom(v.state, documents, marks) ==> ReadFrom(Meanwhile(v, gap).state, documents, marks)
    decreases |gap|
  {
    if gap != [] {
      var n := |gap| - 1;
      assert forall o | o in gap[..n] :: o in gap;
      assert gap[n] in gap;
      StatesAreRead(v, gap[..n], documents, marks);
      DidWithin(Meanwhile(v, gap[..n]), gap[n], documents, marks);
    }
  }

  /** A read, others at work within it, leaves the state what the store held. */
  lemma ReloadIsRead(v: Value, gaps: Gaps, documents: set<Option<Document>>, marks: set<Markers>)
    requires Within(v, documents, marks) && Spans(gaps.bind, documents, marks) && Spans(gaps.write, documents, marks)
    ensures Within(Reloaded(v, gaps).0, documents, marks) && ReadFrom(Reloaded(v, gaps).0.state, documents, marks)
  {
    StatesAreRead(v.(loads := v.loads + 1), gaps.bind, documents, marks);
    StatesAreRead(AtBinding(v, gaps), gaps.write, documents, marks);
  }

  /** All that others do during a check. */
  function Throughout(amid: Amid): seq<Other> {
    amid.reading.bind + amid.reading.write + amid.lookup + amid.sync + amid.rereading.bind + amid.rereading.write + amid.ownership
  }

  /** The documents the store held from the start of a check to its end, and those that reads
    * still under way when it began had found; and the markers. */
  function HeldDocuments(v: Value, amid: Amid): set<Option<Document>> {
    {v.document} + (set o | o in Throughout(amid) && o.DocumentChanges? :: o.document) + (set r | r in v.pending :: v.pending[r].document)
  }

  function HeldMarkers(v: Value, amid: Amid): set<Markers> {
    {v.markers} + (set o | o in Throughout(amid) && o.MarkersChange? :: o.markers)
    + (set r | r in v.pending && v.pending[r].Bound? :: v.pending[r].markers)
  }

  predicate SpansAll(amid: Amid, documents: set<Option<Document>>, marks: set<Markers>) {
    && Spans(amid.reading.bind, documents, marks) && Spans(amid.reading.write, documents, marks)
    && Spans(amid.lookup, documents, marks) && Spans(amid.sync, documents, marks)
    && Spans(amid.rereading.bind, documents, marks) && Spans(amid.rereading.write, documents, marks)
    && Spans(amid.ownership, documents, marks)
  }

  lemma PartsAreHeld(v: Value, amid: Amid)
    requires v.persistent
    ensures Within(v, HeldDocuments(v, amid), HeldMarkers(v, amid)) && SpansAll(amid, HeldDocuments(v, amid), HeldMarkers(v, amid))
  {
    var all := Throughout(amid);
    assert forall o | o in amid.reading.bind || o in amid.reading.write || o in amid.lookup || o in amid.sync :: o in all;
    assert forall o | o in amid.rereading.bind || o in amid.rereading.write || o in amid.ownership :: o in all;
    forall r | r in v.pending
      ensures ReadingWithin(v.pending[r], HeldDocuments(v, amid), HeldMarkers(v, amid))
    {
    }
  }

  /** Both states a check outside a sweep goes by are read from what the store held while it
    * ran, or what a read already under way when it began had found. */
  lemma LooksAreRead(v: Value, amid: Amid, documents: set<Option<Document>>, marks: set<Markers>)
    requires Within(v, documents, marks) && SpansAll(amid, documents, marks)
    ensures ReadFrom(AtLookup(v, None, amid).state, documents, marks)
    ensures ReadFrom(AtOwnership(v, None, amid).state, documents, marks)
  {
    ReloadIsRead(v, amid.reading, documents, marks);
    StatesAreRead(Synced(v, None, amid.reading).0, amid.lookup, documents, marks);
    StatesAreRead(AtLookup(v, None, amid), amid.sync, documents, marks);
    ReloadIsRead(AtSync(v, None, amid), amid.rereading, documents, marks);
    StatesAreRead(Synced(AtSync(v, None, amid), None, amid.rereading).0, amid.ownership, documents, marks);
  }

  /** Outside a sweep, what a credential is allowed was allowed by the store: the credential's
    * part by one document, the ownership's part by one document with some markers, each of
    * which the store held while the check ran, or another check had found before and made
    * the state during it. */
  lemma AllowedMeansTheStoreAllowed(v: Value, kept: Caller, owner: Owner, capability: Capability, now: nat, amid: Amid)
    requires v.persistent && kept.source.Credential?
    requires Decided(v, kept, owner, capability, None, now, amid).1.None?
    ensures exists a, b, m | Some(a) in HeldDocuments(v, amid) && Some(b) in HeldDocuments(v, amid) && m in HeldMarkers(v, amid) ::
              && Credited(a.credentials, kept.source.key, capability, now)
              && (a.credentials[kept.source.key].role.Operator?
                  || Owned(a.credentials[kept.source.key], Effective(b, m).ownership, owner, capability))
  {
    var documents, marks := HeldDocuments(v, amid), HeldMarkers(v, amid);
    AllowedByTwoStates(v, kept, owner, capability, None, now, amid);
    PartsAreHeld(v, amid);
    LooksAreRead(v, amid, documents, marks);
    var d, m :| d in documents && m in marks && AtLookup(v, None, amid).state == AsRead(d, m);
    assert d.Some? && Some(d.value) in documents;
    if !d.value.credentials[kept.source.key].role.Operator? {
      var e, n :| e in documents && n in marks && AtOwnership(v, None, amid).state == AsRead(e, n);
      assert e.Some? && Some(e.value) in documents;
    }
  }

  /** Another check's read, the store changing within it: the document as it was first, the
    * markers as they were when it came to them, and both forgotten once they are the state. */
  lemma AnotherReads(v: Value, reader: nat, document: Option<Document>, markers: Markers, later: Markers)
    requires v.persistent && reader !in v.pending
    ensures var gap := [Reads(reader), DocumentChanges(document), MarkersChange(markers), Binds(reader)];
            var w := Meanwhile(v, gap);
            && w == v.(document := document, markers := markers, loads := v.loads + 1,
                       pending := v.pending[reader := Bound(v.document, markers)])
            && Did(w, Writes(reader)) == w.(state := AsRead(v.document, markers), pending := v.pending)
            && Did(w, Reads(reader)) == w && Did(w.(markers := later), Binds(reader)) == w.(markers := later)
  {
    var gap := [Reads(reader), DocumentChanges(document), MarkersChange(markers), Binds(reader)];
    assert gap[..3][..2][..1][..0] == [] && Meanwhile(v, []) == v;
    var v1 := Did(v, Reads(reader));
    assert gap[..3][..2][..1] == [Reads(reader)] && Meanwhile(v, [Reads(reader)]) == v1;
    var v2 := Did(v1, DocumentChanges(document));
    assert gap[..3][..2] == [Reads(reader), DocumentChanges(document)] && Meanwhile(v, gap[..3][..2]) == v2;
    var v3 := Did(v2, MarkersChange(markers));
    assert gap[..3] == [Reads(reader), DocumentChanges(document), MarkersChange(markers)] && Meanwhile(v, gap[..3]) == v3;
    assert v.pending[reader := Bound(v.document, markers)] - {reader} == v.pending;
  }

  /** A state in memory alone is changed by others and by nothing they read. */
  lemma MemoryAlone(v: Value, o: Other)
    requires !v.persistent && v.pending == map[]
    ensures Did(v, o).state == (if o.MemoryChanges? then o.state else v.state) && Did(v, o).pending == map[] && Did(v, o).loads == v.loads
  {
  }

  predicate StoreRests(gap: seq<Other>) {
    forall o | o in gap :: !o.DocumentChanges? && !o.MarkersChange?
  }

  predicate Resting(amid: Amid) {
    && StoreRests(amid.reading.bind) && StoreRests(amid.reading.write) && StoreRests(amid.lookup) && StoreRests(amid.sync)
    && StoreRests(amid.rereading.bind) && StoreRests(amid.rereading.write) && StoreRests(amid.ownership)
  }

  /** Every read still under way has found what the store holds now. */
  predicate Caught(v: Value) {
    forall r | r in v.pending :: v.pending[r].document == v.document && (v.pending[r].Bound? ==> v.pending[r].markers == v.markers)
  }

  lemma {:induction false} RestKeeps(v: Value, gap: seq<Other>)
    requires v.persistent && StoreRests(gap) && Caught(v)
    ensures var w := Meanwhile(v, gap);
            && w.persistent && w.document == v.document && w.markers == v.markers && Caught(w)
            && (v.state == AsRead(v.document, v.markers) ==> w.state == v.state)
    decreases |gap|
  {
    if gap != [] {
      assert forall o | o in gap[..|gap| - 1] :: o in gap;
      RestKeeps(v, gap[..|gap| - 1]);
      assert gap[|gap| - 1] in gap;
    }
  }

  lemma RestReloads(v: Value, gaps: Gaps)
    requires v.persistent && StoreRests(gaps.bind) && StoreRests(gaps.write) && Caught(v)
    ensures var w := Reloaded(v, gaps).0;
            && w.persistent && w.document == v.document && w.markers == v.markers && Caught(w)
            && w.state == AsRead(v.document, v.markers)
  {
    RestKeeps(v.(loads := v.loads + 1), gaps.bind);
    RestKeeps(AtBinding(v, gaps), gaps.write);
  }

  /** Outside a sweep every check reads the store. While the store does not change, and once
    * no other check has older contents under way, a check allows exactly what the store
    * entitles to, whoever else reads it; an unreadable store allows nothing. */
  lemma EveryCheckReadsTheStore(v: Value, kept: Caller, owner: Owner, capability: Capability, now: nat, amid: Amid)
    requires v.persistent && kept.source.Credential? && Resting(amid) && Caught(v)
    ensures Decided(v, kept, owner, capability, None, now, amid).1.None? <==>
              v.document.Some? && Entitled(Effective(v.document.value, v.markers), kept.source.key, owner, capability, now)
  {
    AllowedByTwoStates(v, kept, owner, capability, None, now, amid);
    RestReloads(v, amid.reading);
    RestKeeps(Synced(v, None, amid.reading).0, amid.lookup);
    RestKeeps(AtLookup(v, None, amid), amid.sync);
    RestReloads(AtSync(v, None, amid), amid.rereading);
    RestKeeps(Synced(AtSync(v, None, amid), None, amid.rereading).0, amid.ownership);
  }

  /** The same on the store's own fields: what it takes for a check to allow an action on a
    * run, and to a user on profile `p`, to the letter. */
  lemma WhatItTakes(v: Value, kept: Caller, owner: Owner, capability: Capability, now: nat, amid: Amid)
    requires v.persistent && v.document.Some? && kept.source.Credential? && Resting(amid) && Caught(v)
    ensures var d, key := v.document.value, kept.source.key;
            Decided(v, kept, owner, capability, None, now, amid).1.None? <==>
              && key in d.credentials
              && var r := d.credentials[key];
                 && !r.revoked
                 && (r.expires.Some? ==> now < r.expires.value)
                 && (r.restriction.capabilities.Some? ==> capability in r.restriction.capabilities.value)
                 && (r.role.User? ==>
                       && owner.principal == Some(r.principal)
                       && owner.profile.Some?
                       && var p := owner.profile.value;
                          && (r.restriction.profiles.Some? ==> p in r.restriction.profiles.value)
                          && p in d.ownership && p in d.bindings && p in v.markers && v.markers[p] == d.bindings[p]
                          && capability !in {Administer, Provision}
                          && (|| (r.principal in d.ownership[p].grants && capability in d.ownership[p].grants[r.principal])
                              || (r.principal == d.ownership[p].owner
                                  && capability in {RunsRead, RunsWrite, SessionsRead, ApprovalsWrite})))
  {
    EveryCheckReadsTheStore(v, kept, owner, capability, now, amid);
  }

  /** A denial says what was missing, the first of these that was. */
  lemma DenialSaysWhy(caller: Caller, capability: Capability, profile: string, ownership: map<string, Ownership>)
    ensures var denial := Authorize(caller, capability, profile, ownership);
            var able := (caller.role.User? ==> capability !in {Administer, Provision})
                        && (caller.restriction.capabilities.Some? ==> capability in caller.restriction.capabilities.value);
            var covered := caller.restriction.profiles.Some? ==> profile in caller.restriction.profiles.value;
            && (denial == Some(MissingCapability) <==> !able)
            && (denial == Some(ProfileOutsideCredential) <==> able && !covered)
            && (denial == Some(ProfileUnowned) <==> able && covered && caller.role.User? && profile !in ownership)
            && (denial == Some(ProfileNotGranted) <==>
                  able && covered && caller.role.User? && profile in ownership && !Gives(ownership[profile], caller.id, capability))
            && (denial.None? || denial.value in {MissingCapability, ProfileOutsideCredential, ProfileUnowned, ProfileNotGranted})
  {
  }

  lemma PermitsWhatItGives(o: Ownership, principal: string, capability: Capability)
    ensures Permits(o, principal, capability) <==> Gives(o, principal, capability)
  {
  }

  /** What looking a key up comes to. */
  lemma LookupSaysWhy(state: State, key: string, now: nat)
    ensures var answer := CallerFor(state, key, now);
            && (answer.Ok? <==> Valid(state.credentials, key, now))
            && (answer == Denied(Expired) <==>
                  key in state.credentials && !state.credentials[key].revoked && !Valid(state.credentials, key, now))
            && (answer == Denied(Revoked) <==> key !in state.credentials || state.credentials[key].revoked)
            && (answer.Ok? ==>
                  var r, c := state.credentials[key], answer.value;
                  c.id == r.principal && c.role == r.role && c.restriction == r.restriction && c.source == Credential(key))
  {
  }

  /** A store of operators only, and a check amid the late write of another's read. */
  function Operators(key: string, operator: string, revoked: bool): Document {
    Document(map[key := Record(operator, Operator, Restriction(None, None), revoked, None)], map[], map[])
  }

  const OVERTAKEN := Amid(UNDISTURBED, [Writes(1)], [], UNDISTURBED, [])

  lemma LateWrite(v: Value)
    requires v.persistent && 1 in v.pending && v.pending[1].Bound?
    ensures AtLookup(v, None, OVERTAKEN).state == AsRead(v.pending[1].document, v.pending[1].markers)
  {
    var w := Synced(v, None, UNDISTURBED).0;
    assert w.pending == v.pending;
    assert OVERTAKEN.lookup[..0] == [] && Meanwhile(w, []) == w;
    assert Meanwhile(w, OVERTAKEN.lookup) == Did(w, Writes(1));
  }

  /** Older contents under way can really decide: a check read them before the credential
    * was revoked, and makes them the state between this check's own read and its look. The
    * store rests all the while and entitles to nothing. */
  lemma StaleReadAllows(key: string, operator: string)
    ensures var before, after := Operators(key, operator, false), Operators(key, operator, true);
            var v := Value(true, Some(after), map[], EMPTY, map[1 := Bound(Some(before), map[])], (0, None), 1);
            var kept := Caller(operator, Operator, Credential(key), Restriction(None, None));
            && Decided(v, kept, Owner(None, None), RunsWrite, None, 0, OVERTAKEN).1.None?
            && Resting(OVERTAKEN) && !Entitled(Effective(after, map[]), key, Owner(None, None), RunsWrite, 0)
  {
    var before, after := Operators(key, operator, false), Operators(key, operator, true);
    var v := Value(true, Some(after), map[], EMPTY, map[1 := Bound(Some(before), map[])], (0, None), 1);
    var kept := Caller(operator, Operator, Credential(key), Restriction(None, None));
    LateWrite(v);
    AllowedByTwoStates(v, kept, Owner(None, None), RunsWrite, None, 0, OVERTAKEN);
  }

  /** And deny: a read that failed before the store became readable, made the state late. */
  lemma StaleFailureDenies(key: string, operator: string)
    ensures var document := Operators(key, operator, false);
            var v := Value(true, Some(document), map[], EMPTY, map[1 := Bound(None, map[])], (0, None), 1);
            var kept := Caller(operator, Operator, Credential(key), Restriction(None, None));
            && Decided(v, kept, Owner(None, None), RunsWrite, None, 0, OVERTAKEN).1.Some?
            && Resting(OVERTAKEN) && Entitled(Effective(document, map[]), key, Owner(None, None), RunsWrite, 0)
  {
    var v := Value(true, Some(Operators(key, operator, false)), map[], EMPTY, map[1 := Bound(None, map[])], (0, None), 1);
    LateWrite(v);
    AllowedByTwoStates(v, Caller(operator, Operator, Credential(key), Restriction(None, None)), Owner(None, None), RunsWrite, None, 0, OVERTAKEN);
  }

  /** The two states can really differ: the credential is valid and the profile unowned when
    * the check begins, then the credential is revoked and the profile given to its
    * principal; the check allows, although neither store entitles it. */
  lemma MixedStoresAllow(key: string, user: string, profile: string)
    ensures var valid := Record(user, User, Restriction(None, None), false, None);
            var before := Document(map[key := valid], map[], map[]);
            var after := Document(map[key := valid.(revoked := true)], map[profile := Ownership(user, map[])], map[profile := "t"]);
            var v := Value(true, Some(before), map[profile := "t"], EMPTY, map[], (0, None), 0);
            var kept, owner := Caller(user, User, Credential(key), Restriction(None, None)), Owner(Some(user), Some(profile));
            var amid := Amid(UNDISTURBED, [], [DocumentChanges(Some(after))], UNDISTURBED, []);
            && Decided(v, kept, owner, RunsWrite, None, 0, amid).1.None?
            && !Entitled(Effective(before, v.markers), key, owner, RunsWrite, 0)
            && !Entitled(Effective(after, v.markers), key, owner, RunsWrite, 0)
  {
    var valid := Record(user, User, Restriction(None, None), false, None);
    var before := Document(map[key := valid], map[], map[]);
    var after := Document(map[key := valid.(revoked := true)], map[profile := Ownership(user, map[])], map[profile := "t"]);
    var v := Value(true, Some(before), map[profile := "t"], EMPTY, map[], (0, None), 0);
    var kept, owner := Caller(user, User, Credential(key), Restriction(None, None)), Owner(Some(user), Some(profile));
    var amid := Amid(UNDISTURBED, [], [DocumentChanges(Some(after))], UNDISTURBED, []);
    AllowedByTwoStates(v, kept, owner, RunsWrite, None, 0, amid);
    var w := AtLookup(v, None, amid);
    assert amid.sync[..0] == [];
    assert AtSync(v, None, amid) == Did(w, DocumentChanges(Some(after)));
    assert profile in Effective(after, v.markers).ownership;
  }

  /** Of a kept caller only the key id counts: whatever its role, principal and limits were
    * when it was kept, the decision is the same. */
  lemma OnlyTheKeyCounts(v: Value, kept: Caller, other: Caller, owner: Owner, capability: Capability, epoch: Option<nat>, now: nat, amid: Amid)
    requires kept.source.Credential? && other.source == kept.source
    ensures Decided(v, kept, owner, capability, epoch, now, amid) == Decided(v, other, owner, capability, epoch, now, amid)
  {
  }

  // ---------------------------------------------------------------- sweeps

  /** What happens during a sweep: its own checks, and, between them as well as amid them,
    * changes of the store and loads by checks of requests outside it. */
  datatype Event = RunCheck(kept: Caller, owner: Owner, amid: Amid) | Outside(other: Other)

  /** `own` counts the sweep's own reads. */
  datatype Sweep = Sweep(v: Value, decisions: seq<Option<Denial>>, own: nat)

  function LoadsOf(v: Value, epoch: nat): nat {
    if v.persistent && v.swept.0 != epoch then 1 else 0
  }

  /** A check reads at its start, if it is a credential's and the sweep has not read, and
    * again if a user's check gets that far and still has not. */
  function OwnReads(v: Value, kept: Caller, owner: Owner, epoch: nat, now: nat, amid: Amid): nat {
    var (w, refreshed) := Refreshed(v, kept, Some(epoch), now, amid);
    (if kept.source.Credential? then LoadsOf(v, epoch) else 0)
    + (if refreshed.Denied? then 0
       else
         var caller := refreshed.value;
         if AuthorizeCapability(caller, RunsWrite).Some? || caller.role.Operator? || owner.principal.None? || owner.profile.None?
            || owner.principal.value != caller.id
         then 0
         else LoadsOf(Meanwhile(w, amid.sync), epoch))
  }

  function Happens(s: Sweep, epoch: nat, event: Event, now: nat): Sweep {
    match event
    case RunCheck(kept, owner, amid) =>
      var (v, denial) := Decided(s.v, kept, owner, RunsWrite, Some(epoch), now, amid);
      Sweep(v, s.decisions + [denial], s.own + OwnReads(s.v, kept, owner, epoch, now, amid))
    case Outside(other) => s.(v := Did(s.v, other))
  }

  function Swept(s: Sweep, epoch: nat, events: seq<Event>, now: nat): Sweep {
    if events == [] then s else Happens(Swept(s, epoch, events[..|events| - 1], now), epoch, events[|events| - 1], now)
  }

  function Checks(events: seq<Event>): seq<Event> {
    if events == [] then []
    else Checks(events[..|events| - 1]) + if events[|events| - 1].RunCheck? then [events[|events| - 1]] else []
  }

  lemma {:induction false} GapKeepsSwept(v: Value, gap: seq<Other>)
    ensures var w := Meanwhile(v, gap); w.persistent == v.persistent && w.swept == v.swept
    decreases |gap|
  {
    if gap != [] {
      GapKeepsSwept(v, gap[..|gap| - 1]);
    }
  }

  lemma SyncKeepsSwept(v: Value, epoch: nat, gaps: Gaps)
    requires v.persistent
    ensures var w := Synced(v, Some(epoch), gaps).0;
            w.persistent && w.swept.0 == epoch && (v.swept.0 == epoch ==> w.swept == v.swept)
  {
    GapKeepsSwept(v.(loads := v.loads + 1), gaps.bind);
    GapKeepsSwept(AtBinding(v, gaps), gaps.write);
  }

  lemma CheckInSweep(v: Value, kept: Caller, owner: Owner, epoch: nat, now: nat, amid: Amid)
    requires v.persistent
    ensures var w := Decided(v, kept, owner, RunsWrite, Some(epoch), now, amid).0;
            && w.persistent
            && (v.swept.0 == epoch ==> w.swept == v.swept)
            && OwnReads(v, kept, owner, epoch, now, amid) == (if v.swept.0 != epoch && w.swept.0 == epoch then 1 else 0)
  {
    var (w, refreshed) := Refreshed(v, kept, Some(epoch), now, amid);
    SyncKeepsSwept(v, epoch, amid.reading);
    GapKeepsSwept(Synced(v, Some(epoch), amid.reading).0, amid.lookup);
    GapKeepsSwept(w, amid.sync);
    SyncKeepsSwept(Meanwhile(w, amid.sync), epoch, amid.rereading);
    GapKeepsSwept(Synced(Meanwhile(w, amid.sync), Some(epoch), amid.rereading).0, amid.ownership);
  }

  /** However many runs a sweep checks, and whatever changes meanwhile, its checks read the
    * store at most once. */
  lemma {:induction false} SweepReadsOnce(v: Value, epoch: nat, events: seq<Event>, now: nat)
    requires v.persistent && v.swept.0 != epoch
    ensures var s := Swept(Sweep(v, [], 0), epoch, events, now);
            && s.v.persistent
            && s.own == (if s.v.swept.0 == epoch then 1 else 0)
            && |s.decisions| == |Checks(events)|
  {
    if events != [] {
      SweepReadsOnce(v, epoch, events[..|events| - 1], now);
      var s := Swept(Sweep(v, [], 0), epoch, events[..|events| - 1], now);
      match events[|events| - 1] {
        case RunCheck(kept, owner, amid) => CheckInSweep(s.v, kept, owner, epoch, now, amid);
        case Outside(_) =>
      }
    }
  }

  /** Whether a caller needs no credential: an operator of the local or legacy kind, not
    * narrowed below starting runs. */
  predicate Unrefreshed(kept: Caller) {
    !kept.source.Credential? && kept.role.Operator? && AuthorizeCapability(kept, RunsWrite).None?
  }

  /** In a sweep whose read of the store failed, a check passes exactly for a caller that is
    * not a credential but an operator; every credential is refused. */
  lemma FailedSweepRefuses(v: Value, kept: Caller, owner: Owner, epoch: nat, now: nat, amid: Amid)
    requires v.persistent && v.swept.0 == epoch && v.swept.1.Some?
    ensures Decided(v, kept, owner, RunsWrite, Some(epoch), now, amid).1.None? <==> Unrefreshed(kept)
  {
    GapKeepsSwept(v, amid.sync);
  }

  /** The whole sweep: once its read fails, it stays failed for every later check of it,
    * even after the store becomes readable again or a request reads it. */
  lemma {:induction false} FailureCoversTheSweep(v: Value, epoch: nat, events: seq<Event>, now: nat)
    requires v.persistent && v.swept.0 == epoch && v.swept.1.Some?
    ensures var s := Swept(Sweep(v, [], 0), epoch, events, now);
            && s.v.persistent && s.v.swept == v.swept && s.own == 0
            && |s.decisions| == |Checks(events)|
            && forall i | 0 <= i < |s.decisions| :: Checks(events)[i].RunCheck? && (s.decisions[i].None? <==> Unrefreshed(Checks(events)[i].kept))
  {
    if events != [] {
      FailureCoversTheSweep(v, epoch, events[..|events| - 1], now);
      var s := Swept(Sweep(v, [], 0), epoch, events[..|events| - 1], now);
      match events[|events| - 1] {
        case RunCheck(kept, owner, amid) =>
          CheckInSweep(s.v, kept, owner, epoch, now, amid);
          FailedSweepRefuses(s.v, kept, owner, epoch, now, amid);
        case Outside(_) =>
      }
    }
  }

  /** The exception is real: the legacy operator key passes in a failed sweep. */
  lemma LegacyKeyPassesFailedSweep()
    ensures var v := Value(true, None, map[], EMPTY, map[], (7, Some(Unauthenticated)), 1);
            var legacy := Caller("local-operator", Operator, LegacyOperatorKey, Restriction(None, None));
            Decided(v, legacy, Owner(None, None), RunsWrite, Some(7), 0, ALONE).1.None?
  {
    var v := Value(true, None, map[], EMPTY, map[], (7, Some(Unauthenticated)), 1);
    FailedSweepRefuses(v, Caller("local-operator", Operator, LegacyOperatorKey, Restriction(None, None)), Owner(None, None), 7, 0, ALONE);
  }

  /** Nobody else sets the state: the store may change and be read. */
  predicate Unwritten(gap: seq<Other>) {
    forall o | o in gap :: !o.Writes? && !o.MemoryChanges?
  }

  lemma {:induction false} UnwrittenKeeps(v: Value, gap: seq<Other>)
    requires Unwritten(gap)
    ensures var w := Meanwhile(v, gap); w.persistent == v.persistent && w.state == v.state && w.swept == v.swept
    decreases |gap|
  {
    if gap != [] {
      assert forall o | o in gap[..|gap| - 1] :: o in gap;
      UnwrittenKeeps(v, gap[..|gap| - 1]);
      assert gap[|gap| - 1] in gap;
    }
  }

  predicate QuietAmid(amid: Amid) {
    && Unwritten(amid.reading.bind) && Unwritten(amid.reading.write) && Unwritten(amid.lookup) && Unwritten(amid.sync)
    && Unwritten(amid.rereading.bind) && Unwritten(amid.rereading.write) && Unwritten(amid.ownership)
  }

  predicate QuietCheck(e: Event) {
    e.RunCheck? && e.kept.source.Credential? && QuietAmid(e.amid)
  }

  /** The sweep has read the state `s`. */
  predicate Read(v: Value, epoch: nat, s: State) {
    v.persistent && v.swept == (epoch, None) && v.state == s
  }

  /** The state a sweep reads that starts with a check amid `amid`. */
  function FirstRead(v: Value, amid: Amid): State {
    AsRead(v.document, AtBinding(v, amid.reading).markers)
  }

  lemma QuietCheckUses(v: Value, kept: Caller, owner: Owner, amid: Amid, epoch: nat, now: nat, s: State)
    requires kept.source.Credential? && QuietAmid(amid)
    requires Read(v, epoch, s) || (v.persistent && v.swept.0 != epoch && v.document.Some? && s == FirstRead(v, amid))
    ensures var (w, denial) := Decided(v, kept, owner, RunsWrite, Some(epoch), now, amid);
            && Read(w, epoch, s)
            && (denial.None? <==> Entitled(s, kept.source.key, owner, RunsWrite, now))
  {
    AllowedByTwoStates(v, kept, owner, RunsWrite, Some(epoch), now, amid);
    UnwrittenKeeps(v.(loads := v.loads + 1), amid.reading.bind);
    UnwrittenKeeps(AtBinding(v, amid.reading), amid.reading.write);
    var w1 := Synced(v, Some(epoch), amid.reading).0;
    assert Read(w1, epoch, s);
    UnwrittenKeeps(w1, amid.lookup);
    UnwrittenKeeps(AtLookup(v, Some(epoch), amid), amid.sync);
    UnwrittenKeeps(AtSync(v, Some(epoch), amid), amid.ownership);
  }

  /** A sweep during which nobody else sets the state decides every check by one state, the
    * one it read, whatever becomes of the store meanwhile. */
  lemma {:induction false} QuietSweepUsesOneState(v: Value, epoch: nat, events: seq<Event>, now: nat)
    requires v.persistent && v.swept.0 != epoch && v.document.Some?
    requires events != [] && QuietCheck(events[0]) && forall e | e in events :: QuietCheck(e)
    ensures var s, t := FirstRead(v, events[0].amid), Swept(Sweep(v, [], 0), epoch, events, now);
            && |t.decisions| == |events| && Read(t.v, epoch, s)
            && forall i | 0 <= i < |events| ::
                 QuietCheck(events[i])
                 && (t.decisions[i].None? <==> Entitled(s, events[i].kept.source.key, events[i].owner, RunsWrite, now))
  {
    var earlier, e := events[..|events| - 1], events[|events| - 1];
    assert forall x | x in earlier :: x in events;
    assert e in events && events[0] in events;
    if earlier != [] {
      QuietSweepUsesOneState(v, epoch, earlier, now);
    }
    QuietCheckUses(Swept(Sweep(v, [], 0), epoch, earlier, now).v, e.kept, e.owner, e.amid, epoch, now, FirstRead(v, events[0].amid));
  }

  /** The store is readable and rests, nobody has older contents under way, and what the
    * sweep has read, if it has, is the store. */
  predicate Fresh(v: Value, epoch: nat, d: Document, markers: Markers) {
    && v.persistent && v.document == Some(d) && v.markers == markers && Caught(v)
    && (v.swept.0 == epoch ==> v.swept.1.None? && v.state == Effective(d, markers))
  }

  lemma FreshGap(v: Value, gap: seq<Other>, epoch: nat, d: Document, markers: Markers)
    requires Fresh(v, epoch, d, markers) && StoreRests(gap)
    ensures Fresh(Meanwhile(v, gap), epoch, d, markers) && Meanwhile(v, gap).swept == v.swept
  {
    RestKeeps(v, gap);
    GapKeepsSwept(v, gap);
  }

  lemma FreshSync(v: Value, gaps: Gaps, epoch: nat, d: Document, markers: Markers)
    requires Fresh(v, epoch, d, markers) && StoreRests(gaps.bind) && StoreRests(gaps.write)
    ensures var (w, denial) := Synced(v, Some(epoch), gaps); Fresh(w, epoch, d, markers) && w.swept.0 == epoch && denial.None?
  {
    RestReloads(v, gaps);
  }

  /** A sweep's check while the store rests, whoever else reads it. */
  lemma RestingCheckUses(v: Value, kept: Caller, owner: Owner, amid: Amid, epoch: nat, now: nat, d: Document, markers: Markers)
    requires kept.source.Credential? && Resting(amid) && Fresh(v, epoch, d, markers)
    ensures var (w, denial) := Decided(v, kept, owner, RunsWrite, Some(epoch), now, amid);
            Fresh(w, epoch, d, markers) && (denial.None? <==> Entitled(Effective(d, markers), kept.source.key, owner, RunsWrite, now))
  {
    AllowedByTwoStates(v, kept, owner, RunsWrite, Some(epoch), now, amid);
    FreshSync(v, amid.reading, epoch, d, markers);
    FreshGap(Synced(v, Some(epoch), amid.reading).0, amid.lookup, epoch, d, markers);
    FreshGap(AtLookup(v, Some(epoch), amid), amid.sync, epoch, d, markers);
    FreshSync(AtSync(v, Some(epoch), amid), amid.rereading, epoch, d, markers);
    FreshGap(Synced(AtSync(v, Some(epoch), amid), Some(epoch), amid.rereading).0, amid.ownership, epoch, d, markers);
  }

  // ---------------------------------------------------------------- the API's policy

  /** What a request presents: nothing usable, or a bearer token. */
  datatype Policy = Open | Keyed(key: string, scopes: set<Scope>)

  datatype Scope = ReadRuns | WriteRuns | ReadSessions | WriteSessions | ReadTools | WriteApprovals | Admin

  function Needs(scope: Scope): Capability {
    match scope
    case ReadRuns => RunsRead
    case WriteRuns => RunsWrite
    case ReadSessions => SessionsRead
    case WriteSessions => SessionsWrite
    case ReadTools => ToolsRead
    case WriteApprovals => ApprovalsWrite
    case Admin => Administer
  }

  function LocalOperator(restriction: Restriction): Caller {
    Caller("local-operator", Operator, LocalCompatibility, restriction)
  }

  /** The caller the single-user policy establishes for a bearer token. */
  function CallerOf(policy: Policy, bearer: Option<string>): Answer<Caller> {
    match policy
    case Open => Ok(LocalOperator(Restriction(None, None)))
    case Keyed(key, scopes) =>
      if bearer != Some(key) then Denied(Unauthenticated)
      else if Admin in scopes then Ok(LocalOperator(Restriction(None, None)))
      else Ok(LocalOperator(Restriction(Some(set s | s in scopes :: Needs(s)), None)))
  }

  /** The status the policy answers a request with: 200 stands for admitted. */
  function StatusOf(policy: Policy, bearer: Option<string>, required: Scope): nat {
    match policy
    case Open => 200
    case Keyed(key, scopes) =>
      if bearer != Some(key) then 401
      else if Admin in scopes || required in scopes then 200
      else 403
  }

  /** The two ways of deciding agree for every policy, token and scope: the caller a policy
    * establishes may do exactly what the policy admits. */
  lemma CallerAgreesWithPolicy(policy: Policy, bearer: Option<string>, required: Scope)
    ensures StatusOf(policy, bearer, required) == 200 <==>
              CallerOf(policy, bearer).Ok? && AuthorizeCapability(CallerOf(policy, bearer).value, Needs(required)).None?
    ensures StatusOf(policy, bearer, required) == 401 <==> CallerOf(policy, bearer).Denied?
  {
    if policy.Keyed? {
      assert Needs(required) in (set s | s in policy.scopes :: Needs(s)) <==> required in policy.scopes by {
        assert forall s: Scope :: Needs(s) == Needs(required) ==> s == required;
      }
    }
  }
}
