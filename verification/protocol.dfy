/**
 Runs of the artifact store. Any number of callers and collectors act on one catalog; each
 catalog transaction is one step, and work that a caller does outside a transaction is a
 step of its own: checking a body or a receipt before the publication commits, writing a body
 after its reservation was checked, deleting a body after it was leased. A crash is a caller that
 takes no further step. Times are whatever the callers pass.

 `History` records what happened; no operation reads it.
 */
module Protocol {
  import opened Wrappers
  import opened Keys
  import opened Catalog

  /** A granted reservation and the mutation token its request named. */
  datatype GrantRecord = GrantRecord(reservation: Reservation, expected: Option<string>)

  /** A committed publication and the mutation token of the row it replaced. */
  datatype Publication = Publication(reference: ArtifactReference, replaced: Option<string>, local: bool)

  /** The first bytes ever written under a key, for the generation the key was built for. */
  datatype Stored = Stored(gen: Generation, prefix: string, bytes: Bytes)

  datatype LeaseRecord = LeaseRecord(lease: GarbageLease, start: Millis, until: Millis)

  /** A reservation and an observation that agreed with the stored body when they were checked. */
  datatype Check = Check(reservation: Reservation, observation: Observation, local: bool)

  datatype History = History(
    origin: map<Generation, PathKey>,
    grants: map<string, GrantRecord>,
    owner: map<string, PathKey>,
    log: seq<Publication>,
    acked: set<Generation>,
    leases: seq<LeaseRecord>,
    released: set<nat>,
    erased: set<Generation>,
    promises: set<(Generation, Millis)>,
    admitted: set<Generation>,
    stored: map<string, Stored>,
    checked: set<Check>,
    prepared: set<Check>,
    clock: Millis)

  datatype World = World(store: State, past: History)

  const GENESIS: World :=
    World(EMPTY, History(map[], map[], map[], [], {}, [], {}, {}, {}, {}, map[], {}, {}, 0))

  /** Leases are named by their position in the history of leases. */
  datatype Event =
    | ReserveEvent(req: ReserveRequest, ids: ReserveIds)
    | UploadEvent(r: Reservation, bytes: Bytes, now: Millis)
    | AdmitWrite(r: Reservation, now: Millis)
    | LateWrite(g: Generation, prefix: string, bytes: Bytes)
    | CheckBody(r: Reservation, o: Observation)
    | CommitEvent(r: Reservation, o: Observation, now: Millis)
    | ObserveProvider(r: Reservation, o: Observation, prefix: string)
    | CheckReceipt(r: Reservation, o: Observation)
    | TrustedEvent(r: Reservation, o: Observation, now: Millis)
    | AbortEvent(r: Reservation)
    | RetainEvent(ref: ArtifactReference, now: Millis, until: Millis, found: Option<PathKey>)
    | ClaimEvent(now: Millis, limit: nat, choice: ClaimChoice)
    | DeleteEvent(index: nat, prefix: string)
    | AckEvent(index: nat)
    | FailEvent(index: nat, now: Millis)

  predicate IsTimed(e: Event) {
    || e.UploadEvent? || e.AdmitWrite? || e.CommitEvent? || e.TrustedEvent?
    || e.RetainEvent? || e.ClaimEvent? || e.FailEvent? || e.ReserveEvent?
  }

  function TimeOf(e: Event): Millis
    requires IsTimed(e)
  {
    if e.ReserveEvent? then e.req.now else e.now
  }

  /** The commit of `r` reaches its publication write. */
  predicate Commits(s: State, r: Reservation, o: Observation, now: Millis) {
    LiveError(s, r, now).None? && CommitPublication(s, r, o, now).result.Ok?
  }

  /** A provider object that a trusted observation describes; the entity tag is the provider's own. */
  predicate ProviderMatches(s: State, r: Reservation, o: Observation, prefix: string) {
    && o.generation == r.generation
    && o.digest.None?
    && o.objectKey == PrefixedKey(prefix, r.Gen())
    && o.objectKey in s.bodies
    && |s.bodies[o.objectKey]| == o.size
  }

  ghost predicate Enabled(w: World, sha: Sha, e: Event) {
    match e
    case ReserveEvent(req, ids) => Fresh(w.store.minted, ids.All())
    case LateWrite(g, prefix, bytes) => g in w.past.admitted
    case CheckBody(r, o) => PreparePublish(w.store, sha, r, o).None?
    case CommitEvent(r, o, now) => Check(r, o, true) in w.past.checked
    case ObserveProvider(r, o, prefix) => SlashFree(r.generation) && ProviderMatches(w.store, r, o, prefix)
    case CheckReceipt(r, o) => PrepareTrusted(w.store, r, o).None?
    case TrustedEvent(r, o, now) =>
      Check(r, o, false) in w.past.checked && Check(r, o, false) in w.past.prepared
    case RetainEvent(ref, now, until, found) => AnswersById(w.store, ref.scope, ref.artifactId, found)
    case ClaimEvent(now, limit, choice) => ValidGcRequest(now, limit) ==> ValidChoice(w.store, now, limit, choice)
    case DeleteEvent(index, prefix) => index < |w.past.leases|
    case AckEvent(index) => index < |w.past.leases|
    case FailEvent(index, now) => index < |w.past.leases|
    case _ => true
  }

  function Remember(stored: map<string, Stored>, key: string, body: Stored): map<string, Stored> {
    if key in stored then stored else stored[key := body]
  }

  /** `first` says that the path had no publication, so that its artifact id is new. */
  function RecordGrant(h: History, req: ReserveRequest, row: ReservationRow, first: bool): History {
    var key := req.Key();
    h.(origin := h.origin[ReservedGen(key, row) := key],
       grants := h.grants[row.token := GrantRecord(RowReservation(key, row), req.expected)],
       owner := if first then h.owner[row.artifactId := key] else h.owner)
  }

  /** The tables and the history after the request was granted. */
  function ReserveWorld(w: World, req: ReserveRequest, ids: ReserveIds): World
    requires DecideReserve(w.store, req).Grant?
  {
    World(Reserve(w.store, req, ids).state,
          RecordGrant(w.past, req, NewReservationRow(w.store, req, ids), req.Key() !in w.store.paths))
  }

  function RecordCommit(h: History, s: State, r: Reservation, o: Observation, now: Millis, local: bool): History {
    var key := r.Key();
    h.(log := h.log + [Publication(
         RowReference(key, NewPublishedRow(r, o, now)),
         if key in s.paths then Some(s.paths[key].token) else None, local)])
  }

  function NewRecords(leases: seq<GarbageLease>, now: Millis): seq<LeaseRecord> {
    seq(|leases|, i requires 0 <= i < |leases| => LeaseRecord(leases[i], now, SatAdd(now, GC_LEASE_MS)))
  }

  ghost function ApplyEvent(w: World, sha: Sha, e: Event): World
    requires Enabled(w, sha, e)
  {
    var s, h := w.store, w.past;
    match e
    case ReserveEvent(req, ids) =>
      if DecideReserve(s, req).Grant? then ReserveWorld(w, req, ids) else World(Reserve(s, req, ids).state, h)
    case UploadEvent(r, bytes, now) =>
      var done := Upload(s, sha, r, bytes, now);
      World(done.state,
            if done.result.Ok?
            then h.(stored := Remember(h.stored, ObjectKey(r.Gen()), Stored(r.Gen(), "", bytes))) else h)
    case AdmitWrite(r, now) =>
      World(s, if LiveError(s, r, now).None? then h.(admitted := h.admitted + {r.Gen()}) else h)
    case LateWrite(g, prefix, bytes) =>
      var key := PrefixedKey(prefix, g);
      World(s.(bodies := WriteOnce(s.bodies, key, bytes)),
            h.(stored := Remember(h.stored, key, Stored(g, prefix, bytes))))
    case CheckBody(r, o) => World(s, h.(checked := h.checked + {Check(r, o, true)}))
    case CommitEvent(r, o, now) =>
      World(CommitPublication(s, r, o, now).state,
            if Commits(s, r, o, now) then RecordCommit(h, s, r, o, now, true) else h)
    case ObserveProvider(r, o, prefix) => World(s, h.(checked := h.checked + {Check(r, o, false)}))
    case CheckReceipt(r, o) => World(s, h.(prepared := h.prepared + {Check(r, o, false)}))
    case TrustedEvent(r, o, now) =>
      World(CommitPublication(s, r, o, now).state,
            if Commits(s, r, o, now) then RecordCommit(h, s, r, o, now, false) else h)
    case AbortEvent(r) => World(Abort(s, r).state, h)
    case RetainEvent(ref, now, until, found) =>
      var done := RetainForRead(s, ref, now, until, found);
      World(done.state,
            if done.result.Ok?
            then h.(promises := h.promises + {(Generation(ref.scope, ref.body.generation), until)}) else h)
    case ClaimEvent(now, limit, choice) =>
      var done := ClaimGarbage(s, now, limit, choice);
      World(done.state,
            if done.result.Ok? then h.(leases := h.leases + NewRecords(done.result.value.leases, now)) else h)
    case DeleteEvent(index, prefix) =>
      World(s.(bodies := s.bodies - {PrefixedKey(prefix, h.leases[index].lease.gen)}),
            h.(erased := h.erased + {h.leases[index].lease.gen}))
    case AckEvent(index) =>
      var lease := h.leases[index].lease;
      World(Acknowledge(s, lease), if HoldsLease(s, lease) then h.(acked := h.acked + {lease.gen}) else h)
    case FailEvent(index, now) =>
      var lease := h.leases[index].lease;
      World(FailGarbage(s, lease, now).state,
            if now > 0 && HoldsLease(s, lease) then h.(released := h.released + {index}) else h)
  }

  /** One step: the event takes effect, and a timed event moves the clock. */
  ghost function Apply(w: World, sha: Sha, e: Event): World
    requires Enabled(w, sha, e)
  {
    var v := ApplyEvent(w, sha, e);
    if IsTimed(e) then v.(past := v.past.(clock := TimeOf(e))) else v
  }

  ghost predicate Step(w: World, sha: Sha, e: Event, v: World) {
    Enabled(w, sha, e) && v == Apply(w, sha, e)
  }

  /** The step does not turn the clock back. */
  predicate OnTime(w: World, e: Event) {
    IsTimed(e) ==> w.past.clock <= TimeOf(e)
  }

  /** The worlds `ws` are what the events `es` make of the empty store, one after the other. */
  ghost predicate Run(sha: Sha, ws: seq<World>, es: seq<Event>) {
    && |ws| == |es| + 1
    && ws[0] == GENESIS
    && forall i | 0 <= i < |es| :: Step(ws[i], sha, es[i], ws[i + 1])
  }

  ghost predicate ForwardRun(sha: Sha, ws: seq<World>, es: seq<Event>) {
    Run(sha, ws, es) && forall i | 0 <= i < |es| :: OnTime(ws[i], es[i])
  }
}
