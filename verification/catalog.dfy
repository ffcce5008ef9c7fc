/**
 The tables of the artifact catalog and the effect of every catalog transaction on them.

 Each operation is a function from the tables before it to the tables after it and its
 result. A transaction that returns an error leaves every table as it was. What the
 environment decides is an argument: the clock, freshly minted identifiers, the digest
 function, which of several equally old rows a bounded query returns, and which files
 cannot be removed.
 */
module Catalog {
  import opened Wrappers
  import opened Keys

  const I64_MAX: int := 0x7FFF_FFFF_FFFF_FFFF
  const U64_MAX: int := 0xFFFF_FFFF_FFFF_FFFF
  const U32_MAX: int := 0xFFFF_FFFF

  const MAX_TTL_MS: int := 24 * 60 * 60 * 1_000
  const MAX_DIRECT_UPLOAD_BYTES: int := 64 * 1024 * 1024
  const GC_SETTLEMENT_GRACE_MS: int := 60_000
  const GC_LEASE_MS: int := 30_000
  const MAX_READ_RETENTION_MS: int := 8 * 24 * 60 * 60 * 1_000
  const MAX_GC_BATCH: int := 100
  const MAX_REQUEST_ID_BYTES: int := 1_024
  const RECEIPT_RETENTION_MS: int := 24 * 60 * 60 * 1_000
  const MAX_TEXT_BYTES: int := 1_024

  type Millis = x: int | -I64_MAX - 1 <= x <= I64_MAX
  /** A time column that its table checks to be positive. */
  type StoredMillis = x: int | 0 < x <= I64_MAX witness 1
  type U64 = x: int | 0 <= x <= U64_MAX
  type Revision = x: int | 0 < x <= U64_MAX witness 1

  type Bytes = seq<bv8>

  predicate IsHexDigest(s: string) {
    |s| == 64 && forall i | 0 <= i < |s| :: '0' <= s[i] <= '9' || 'a' <= s[i] <= 'f'
  }

  type ContentDigest = s: string | IsHexDigest(s) witness seq(64, _ => '0')

  /** SHA-256 enters only as some function of the bytes. */
  type Sha = Bytes -> ContentDigest

  function SatAdd(a: Millis, b: nat): (sum: Millis)
    ensures sum == a + b || (sum == I64_MAX && a + b > I64_MAX)
  {
    if a + b > I64_MAX then I64_MAX else a + b
  }

  function Min(a: int, b: int): int { if a <= b then a else b }

  function Max(a: int, b: int): int { if a <= b then b else a }

  predicate ValidText(s: string) {
    s != "" && Utf8Length(s) <= MAX_TEXT_BYTES && forall i | 0 <= i < |s| :: !IsControl(s[i])
  }

  predicate ValidRequestId(s: string) {
    && s != "" && Utf8Length(s) <= MAX_REQUEST_ID_BYTES
    && forall i | 0 <= i < |s| :: !IsWhitespace(s[i]) && !IsControl(s[i])
  }

  // ----- Values -----

  datatype Error =
    | Invalid
    | Storage
    | Filesystem
    | Conflict
    | ReservationExpired
    | NotFound
    | BodyMismatch
    | UploadTooLarge

  datatype PathKey = PathKey(scope: Scope, path: string)

  datatype Reservation = Reservation(
    artifactId: string, scope: Scope, path: string, revision: Revision,
    token: string, generation: string, expiresAt: Millis)
  {
    function Key(): PathKey { PathKey(scope, path) }

    function Gen(): Generation { Generation(scope, generation) }

    predicate Valid() { ValidText(token) && ValidText(generation) && expiresAt > 0 }
  }

  datatype Observation = Observation(
    objectKey: string, generation: string, size: U64, etag: string,
    version: Option<string>, digest: Option<ContentDigest>)
  {
    function BodyRef(): Body { Object(objectKey, generation, size, etag, version, digest) }
  }

  datatype Body =
    | Inline(size: U64, digest_: ContentDigest)
    | Object(objectKey: string, generation: string, size: U64, etag: string,
             version: Option<string>, digest: Option<ContentDigest>)
  {
    predicate Valid() {
      Object? ==>
        && ValidText(objectKey) && ValidText(generation) && ValidText(etag)
        && (version.Some? ==> ValidText(version.value))
    }
  }

  datatype ArtifactReference = ArtifactReference(
    artifactId: string, scope: Scope, path: string, revision: Revision,
    token: string, body: Body)
  {
    function Key(): PathKey { PathKey(scope, path) }

    predicate Valid() { ValidText(token) && body.Valid() }
  }

  datatype ReserveRequest = ReserveRequest(
    requestId: string, scope: Scope, path: string, expected: Option<string>,
    now: Millis, ttl: Millis)
  {
    function Key(): PathKey { PathKey(scope, path) }
  }

  datatype GarbageLease = GarbageLease(
    gen: Generation, objectKey: string, token: string, attempts: nat)

  datatype Report = Report(
    expiredReservations: nat, claimed: nat, deleted: nat, failed: nat,
    prunedReceipts: nat, prunedReadRetentions: nat)

  datatype GarbageClaim = GarbageClaim(report: Report, leases: seq<GarbageLease>)

  // ----- Tables -----

  datatype ReservationRow = ReservationRow(
    artifactId: string, revision: Revision, token: string, generation: string,
    expiresAt: StoredMillis)

  datatype PublishedRow = PublishedRow(
    artifactId: string, revision: Revision, token: string, generation: string,
    objectKey: string, size: U64, etag: string, version: Option<string>,
    digest: Option<ContentDigest>, publishedAt: Millis)

  datatype RequestKey = RequestKey(scope: Scope, requestId: string)

  datatype ReservationReceipt = ReservationReceipt(
    path: string, expected: Option<string>, ttl: Millis, row: ReservationRow,
    retainUntil: StoredMillis)

  datatype TokenKey = TokenKey(scope: Scope, token: string)

  datatype PublicationReceipt = PublicationReceipt(
    reference: ArtifactReference, retainUntil: StoredMillis)

  datatype LeaseMark = LeaseMark(token: string, until: Millis)

  datatype QueueRow = QueueRow(
    gen: Generation, notBefore: StoredMillis, nextAttempt: StoredMillis,
    attempts: nat, lease: Option<LeaseMark>)

  datatype RetentionRow = RetentionRow(objectKey: string, retainUntil: StoredMillis)

  /**
   The six tables, the stored bodies by object key, and the identifiers minted so far:
   an identifier that is in no table may still have been minted before.
   */
  datatype State = State(
    paths: map<PathKey, PublishedRow>,
    reservations: map<PathKey, ReservationRow>,
    receipts: map<RequestKey, ReservationReceipt>,
    publications: map<TokenKey, PublicationReceipt>,
    queue: map<string, QueueRow>,
    retentions: map<Generation, RetentionRow>,
    bodies: map<string, Bytes>,
    minted: set<string>)

  const EMPTY: State := State(map[], map[], map[], map[], map[], map[], map[], {})

  datatype Outcome<+T> = Outcome(state: State, result: Result<T, Error>)

  function RowReservation(key: PathKey, row: ReservationRow): Reservation {
    Reservation(row.artifactId, key.scope, key.path, row.revision,
                row.token, row.generation, row.expiresAt)
  }

  function RowReference(key: PathKey, row: PublishedRow): ArtifactReference {
    ArtifactReference(row.artifactId, key.scope, key.path, row.revision, row.token,
                      Object(row.objectKey, row.generation, row.size, row.etag, row.version, row.digest))
  }

  function ReservedGen(key: PathKey, row: ReservationRow): Generation {
    Generation(key.scope, row.generation)
  }

  function PublishedGen(key: PathKey, row: PublishedRow): Generation {
    Generation(key.scope, row.generation)
  }

  /** `ids` were never handed out before and are pairwise distinct. */
  predicate Fresh(minted: set<string>, ids: seq<string>) {
    && (forall i | 0 <= i < |ids| :: IsId(ids[i]) && ids[i] !in minted)
    && (forall i, j | 0 <= i < j < |ids| :: ids[i] != ids[j])
  }

  // ----- Queueing a generation for collection -----

  function Enqueue(queue: map<string, QueueRow>, g: Generation, notBefore: StoredMillis)
    : map<string, QueueRow>
  {
    var key := ObjectKey(g);
    if key in queue then
      var row := queue[key];
      queue[key := row.(notBefore := Max(row.notBefore, notBefore),
                        nextAttempt := Max(row.nextAttempt, notBefore))]
    else
      queue[key := QueueRow(g, notBefore, notBefore, 0, None)]
  }

  /** Takes the reservation of `key` out of its table and queues its generation. */
  function Retire(s: State, key: PathKey): State
    requires key in s.reservations
  {
    var row := s.reservations[key];
    s.(queue := Enqueue(s.queue, ReservedGen(key, row), SatAdd(row.expiresAt, GC_SETTLEMENT_GRACE_MS)),
       reservations := s.reservations - {key})
  }

  // ----- Reserve -----

  datatype ReserveDecision = Reject(error: Error) | Replay(reservation: Reservation) | Grant

  datatype ReserveIds = ReserveIds(artifact: string, token: string, generation: string)
  {
    function All(): seq<string> { [artifact, token, generation] }
  }

  function DecideReserve(s: State, req: ReserveRequest): ReserveDecision {
    var key := req.Key();
    var request := RequestKey(req.scope, req.requestId);
    if || !ValidRequestId(req.requestId)
       || req.now <= 0 || req.ttl <= 0 || req.ttl > MAX_TTL_MS
       || req.now + req.ttl > I64_MAX
    then Reject(Invalid)
    else if request in s.receipts then
      var receipt := s.receipts[request];
      if receipt.path != req.path || receipt.expected != req.expected || receipt.ttl != req.ttl
      then Reject(Conflict)
      else Replay(RowReservation(PathKey(req.scope, receipt.path), receipt.row))
    else if (if key in s.paths then Some(s.paths[key].token) else None) != req.expected
    then Reject(Conflict)
    else if key in s.reservations && s.reservations[key].expiresAt > req.now
    then Reject(Conflict)
    else if key in s.paths && s.paths[key].revision >= I64_MAX
    then Reject(Invalid)
    else Grant
  }

  function NewReservationRow(s: State, req: ReserveRequest, ids: ReserveIds): ReservationRow
    requires DecideReserve(s, req).Grant?
  {
    var key := req.Key();
    if key in s.paths
    then ReservationRow(s.paths[key].artifactId, s.paths[key].revision + 1,
                        ids.token, ids.generation, req.now + req.ttl)
    else ReservationRow(ids.artifact, 1, ids.token, ids.generation, req.now + req.ttl)
  }

  function Install(s: State, req: ReserveRequest, row: ReservationRow, ids: ReserveIds): State {
    s.(reservations := s.reservations[req.Key() := row],
       receipts := s.receipts[RequestKey(req.scope, req.requestId) :=
         ReservationReceipt(req.path, req.expected, req.ttl, row,
                            SatAdd(row.expiresAt, RECEIPT_RETENTION_MS))],
       minted := s.minted + {ids.artifact, ids.token, ids.generation})
  }

  function Reserve(s: State, req: ReserveRequest, ids: ReserveIds): Outcome<Reservation> {
    match DecideReserve(s, req)
    case Reject(error) => Outcome(s, Err(error))
    case Replay(reservation) => Outcome(s, Ok(reservation))
    case Grant =>
      var key := req.Key();
      var row := NewReservationRow(s, req, ids);
      var cleared := if key in s.reservations then Retire(s, key) else s;
      Outcome(Install(cleared, req, row, ids), Ok(RowReservation(key, row)))
  }

  // ----- Upload -----

  /** Why `r` is not the live reservation of its path at `now`, if it is not. */
  function LiveError(s: State, r: Reservation, now: Millis): Option<Error> {
    var key := r.Key();
    if r.revision > I64_MAX then Some(Invalid)
    else if || key !in s.reservations
            || s.reservations[key].artifactId != r.artifactId
            || s.reservations[key].revision != r.revision
    then Some(NotFound)
    else if || s.reservations[key].token != r.token
            || s.reservations[key].generation != r.generation
            || s.reservations[key].expiresAt != r.expiresAt
    then Some(Conflict)
    else if now >= s.reservations[key].expiresAt then Some(ReservationExpired)
    else None
  }

  predicate FileMatches(s: State, sha: Sha, file: string, size: U64, digest: ContentDigest) {
    file in s.bodies && |s.bodies[file]| == size && sha(s.bodies[file]) == digest
  }

  /** Checks the file at `file`; a file that is not there is a filesystem error. */
  function VerifyFile(s: State, sha: Sha, file: string, size: U64, digest: ContentDigest): Option<Error> {
    if file !in s.bodies then Some(Filesystem)
    else if !FileMatches(s, sha, file, size, digest) then Some(BodyMismatch)
    else None
  }

  /** Writes a body once: bytes that are already stored stay as they are. */
  function WriteOnce(bodies: map<string, Bytes>, key: string, bytes: Bytes): map<string, Bytes> {
    if key in bodies then bodies else bodies[key := bytes]
  }

  function Upload(s: State, sha: Sha, r: Reservation, bytes: Bytes, now: Millis): Outcome<Observation> {
    if !r.Valid() then Outcome(s, Err(Invalid))
    else if LiveError(s, r, now).Some? then Outcome(s, Err(LiveError(s, r, now).value))
    else if |bytes| > MAX_DIRECT_UPLOAD_BYTES then Outcome(s, Err(UploadTooLarge))
    else
      var key := ObjectKey(r.Gen());
      var file := ObjectPath(key);
      var digest := sha(bytes);
      if file.None? then Outcome(s, Err(BodyMismatch))
      else if file.value in s.bodies && VerifyFile(s, sha, file.value, |bytes|, digest).Some?
      then Outcome(s, Err(BodyMismatch))
      else Outcome(s.(bodies := WriteOnce(s.bodies, file.value, bytes)),
                   Ok(Observation(key, r.generation, |bytes|, digest, None, Some(digest))))
  }

  // ----- Publish -----

  predicate PublicationMatches(ref: ArtifactReference, r: Reservation, o: Observation) {
    && ref.artifactId == r.artifactId
    && ref.scope == r.scope
    && ref.path == r.path
    && ref.revision == r.revision
    && ref.token == r.token
    && ref.body == o.BodyRef()
  }

  /** The answer that a kept publication receipt gives to a repeated publication. */
  function ReplayPublication(s: State, r: Reservation, o: Observation): Option<Result<ArtifactReference, Error>> {
    var key := TokenKey(r.scope, r.token);
    if key !in s.publications then None
    else if PublicationMatches(s.publications[key].reference, r, o)
    then Some(Ok(s.publications[key].reference))
    else Some(Err(BodyMismatch))
  }

  /** The part of a publication that runs before its transaction: an answer, or `None` to go on. */
  function PreparePublish(s: State, sha: Sha, r: Reservation, o: Observation)
    : Option<Result<ArtifactReference, Error>>
  {
    var key := ObjectKey(r.Gen());
    if !r.Valid() then Some(Err(Invalid))
    else if || o.generation != r.generation
            || o.objectKey != key
            || o.digest.None?
            || o.etag != o.digest.value
    then Some(Err(BodyMismatch))
    else if ReplayPublication(s, r, o).Some? then ReplayPublication(s, r, o)
    else if ObjectPath(key).None? then Some(Err(BodyMismatch))
    else
      var failed := VerifyFile(s, sha, ObjectPath(key).value, o.size, o.digest.value);
      if failed.Some? then Some(Err(failed.value)) else None
  }

  function NewPublishedRow(r: Reservation, o: Observation, now: Millis): PublishedRow {
    PublishedRow(r.artifactId, r.revision, r.token, r.generation, o.objectKey, o.size,
                 o.etag, o.version, o.digest, now)
  }

  /** The tables after `r` becomes the publication of its path. */
  function Replace(s: State, r: Reservation, o: Observation, now: Millis): State
    requires SatAdd(now, RECEIPT_RETENTION_MS) > 0
    requires r.Key() in s.paths && s.paths[r.Key()].objectKey != o.objectKey ==> now > 0
  {
    var key := r.Key();
    var row := NewPublishedRow(r, o, now);
    s.(queue := if key in s.paths && s.paths[key].objectKey != o.objectKey
                then Enqueue(s.queue, PublishedGen(key, s.paths[key]), now) else s.queue,
       paths := s.paths[key := row],
       publications := s.publications[TokenKey(r.scope, r.token) :=
         PublicationReceipt(RowReference(key, row), SatAdd(now, RECEIPT_RETENTION_MS))],
       reservations := s.reservations - {key})
  }

  function CommitPublication(s: State, r: Reservation, o: Observation, now: Millis)
    : Outcome<ArtifactReference>
  {
    var key := r.Key();
    var ref := RowReference(key, NewPublishedRow(r, o, now));
    var dead := LiveError(s, r, now);
    if !o.BodyRef().Valid() then Outcome(s, Err(Invalid))
    else if dead == Some(NotFound) then
      if key in s.paths && PublicationMatches(RowReference(key, s.paths[key]), r, o)
      then Outcome(s, Ok(RowReference(key, s.paths[key])))
      else Outcome(s, Err(NotFound))
    else if dead.Some? then Outcome(s, Err(dead.value))
    else if key in s.paths && s.paths[key].objectKey != o.objectKey && now <= 0
    then Outcome(s, Err(Invalid))
    else if o.size > I64_MAX || !ref.Valid() then Outcome(s, Err(Invalid))
    else if SatAdd(now, RECEIPT_RETENTION_MS) <= 0 || TokenKey(r.scope, r.token) in s.publications
    then Outcome(s, Err(Storage))
    else Outcome(Replace(s, r, o, now), Ok(ref))
  }

  function Publish(s: State, sha: Sha, r: Reservation, o: Observation, now: Millis)
    : Outcome<ArtifactReference>
  {
    match PreparePublish(s, sha, r, o)
    case Some(answer) => Outcome(s, answer)
    case None => CommitPublication(s, r, o, now)
  }

  /** The part of a trusted publication that runs before its transaction. */
  function PrepareTrusted(s: State, r: Reservation, o: Observation): Option<Result<ArtifactReference, Error>> {
    if !r.Valid() || !o.BodyRef().Valid() then Some(Err(Invalid))
    else if o.generation != r.generation then Some(Err(BodyMismatch))
    else ReplayPublication(s, r, o)
  }

  function PublishTrusted(s: State, r: Reservation, o: Observation, now: Millis)
    : Outcome<ArtifactReference>
  {
    match PrepareTrusted(s, r, o)
    case Some(answer) => Outcome(s, answer)
    case None => CommitPublication(s, r, o, now)
  }

  // ----- Abort -----

  function Abort(s: State, r: Reservation): Outcome<()> {
    var key := r.Key();
    if SatAdd(r.expiresAt, GC_SETTLEMENT_GRACE_MS) <= 0 || r.revision > I64_MAX
    then Outcome(s, Err(Invalid))
    else if key !in s.reservations || RowReservation(key, s.reservations[key]) != r
    then Outcome(s, Err(NotFound))
    else Outcome(Retire(s, key), Ok(()))
  }

  // ----- Reads -----

  function Get(s: State, key: PathKey): Option<ArtifactReference> {
    if key in s.paths then Some(RowReference(key, s.paths[key])) else None
  }

  predicate HoldsArtifact(s: State, key: PathKey, scope: Scope, artifactId: string) {
    key in s.paths && key.scope == scope && s.paths[key].artifactId == artifactId
  }

  /** `found` is a possible answer of the lookup by artifact id, which takes any matching row. */
  ghost predicate AnswersById(s: State, scope: Scope, artifactId: string, found: Option<PathKey>) {
    if found.Some? then HoldsArtifact(s, found.value, scope, artifactId)
    else forall key :: !HoldsArtifact(s, key, scope, artifactId)
  }

  function GetFound(s: State, found: Option<PathKey>): Option<ArtifactReference> {
    if found.Some? then Get(s, found.value) else None
  }

  function Read(s: State, sha: Sha, ref: ArtifactReference): Result<Bytes, Error> {
    if !ref.Valid() then Err(Invalid)
    else if ref.body.Inline? || ref.body.digest.None? then Err(BodyMismatch)
    else
      var key := ObjectKey(Generation(ref.scope, ref.body.generation));
      if ref.body.objectKey != key || ref.body.etag != ref.body.digest.value then Err(BodyMismatch)
      else if ObjectPath(key).None? then Err(BodyMismatch)
      else if ObjectPath(key).value !in s.bodies then Err(Filesystem)
      else if !FileMatches(s, sha, ObjectPath(key).value, ref.body.size, ref.body.digest.value)
      then Err(BodyMismatch)
      else Ok(s.bodies[ObjectPath(key).value])
  }

  // ----- Read retention -----

  predicate RetentionWindow(now: Millis, until: Millis) {
    0 < now < until && until - now <= MAX_READ_RETENTION_MS
  }

  function Retain(s: State, ref: ArtifactReference, until: StoredMillis): State
    requires ref.body.Object?
  {
    var g := Generation(ref.scope, ref.body.generation);
    var kept := if g in s.retentions then Max(s.retentions[g].retainUntil, until) else until;
    s.(retentions := s.retentions[g := RetentionRow(ref.body.objectKey, kept)])
  }

  function RetainForRead(s: State, ref: ArtifactReference, now: Millis, until: Millis, found: Option<PathKey>)
    : Outcome<()>
  {
    if !ref.Valid() || !RetentionWindow(now, until) then Outcome(s, Err(Invalid))
    else if GetFound(s, found) != Some(ref) then Outcome(s, Err(BodyMismatch))
    else if ref.body.Inline? then Outcome(s, Err(BodyMismatch))
    else Outcome(Retain(s, ref, until), Ok(()))
  }

  // ----- Bounded queries -----

  predicate Distinct<K(==)>(ks: seq<K>) {
    forall i, j | 0 <= i < j < |ks| :: ks[i] != ks[j]
  }

  /**
   `chosen` answers a query that orders the rows `due` by their rank and keeps the first
   `limit`; rows of equal rank come in any order.
   */
  ghost predicate FirstDue<K>(chosen: seq<K>, due: map<K, int>, limit: nat) {
    && Distinct(chosen)
    && (forall i | 0 <= i < |chosen| :: chosen[i] in due)
    && |chosen| == Min(limit, |due|)
    && (forall i, j | 0 <= i < j < |chosen| :: due[chosen[i]] <= due[chosen[j]])
    && (forall k, i | k in due && k !in chosen && 0 <= i < |chosen| :: due[chosen[i]] <= due[k])
  }

  lemma {:induction false} EarliestExists<K>(due: map<K, int>, keys: set<K>) returns (first: K)
    requires keys != {} && keys <= due.Keys
    ensures first in keys && forall k | k in keys :: due[first] <= due[k]
  {
    first :| first in keys;
    if keys != {first} {
      var other := EarliestExists(due, keys - {first});
      first := if due[other] < due[first] then other else first;
    }
  }

  /** Every bounded query has an answer. */
  lemma {:induction false} FirstDueExists<K>(due: map<K, int>, limit: nat) returns (chosen: seq<K>)
    ensures FirstDue(chosen, due, limit)
    decreases limit
  {
    if limit == 0 || due == map[] {
      chosen := [];
    } else {
      var first := EarliestExists(due, due.Keys);
      var later := due - {first};
      assert later.Keys == due.Keys - {first};
      var rest := FirstDueExists(later, limit - 1);
      chosen := [first] + rest;
      FirstDueCons(first, rest, due, limit);
    }
  }

  lemma FirstDueCons<K>(first: K, rest: seq<K>, due: map<K, int>, limit: nat)
    requires limit > 0 && first in due && forall k | k in due :: due[first] <= due[k]
    requires FirstDue(rest, due - {first}, limit - 1) && |due - {first}| == |due| - 1
    ensures FirstDue([first] + rest, due, limit)
  {
    var later, chosen := due - {first}, [first] + rest;
    forall i | 0 <= i < |rest| ensures rest[i] in due && rest[i] != first {
      assert rest[i] in later;
    }
    forall k, i | k in due && k !in chosen && 0 <= i < |chosen| ensures due[chosen[i]] <= due[k] {
      assert k != first by { assert chosen[0] == first; }
      assert k in later;
      if i > 0 {
        assert later[rest[i - 1]] <= later[k];
      }
    }
  }

  function Elements<K>(ks: seq<K>): set<K> { set k | k in ks }

  // ----- Claiming garbage -----

  function DueReservations(rows: map<PathKey, ReservationRow>, now: Millis): map<PathKey, int> {
    map k | k in rows && rows[k].expiresAt <= now :: rows[k].expiresAt
  }

  function DueRetentions(rows: map<Generation, RetentionRow>, now: Millis): map<Generation, int> {
    map g | g in rows && rows[g].retainUntil <= now :: rows[g].retainUntil
  }

  function DueReceipts(rows: map<RequestKey, ReservationReceipt>, now: Millis): map<RequestKey, int> {
    map k | k in rows && rows[k].retainUntil <= now :: rows[k].retainUntil
  }

  function DuePublications(rows: map<TokenKey, PublicationReceipt>, now: Millis): map<TokenKey, int> {
    map k | k in rows && rows[k].retainUntil <= now :: rows[k].retainUntil
  }

  predicate LeaseFree(row: QueueRow, now: Millis) {
    row.lease.None? || row.lease.value.until <= now
  }

  predicate CanLease(
    key: string, row: QueueRow, paths: map<PathKey, PublishedRow>,
    reservations: map<PathKey, ReservationRow>, retentions: map<Generation, RetentionRow>, now: Millis)
  {
    && row.notBefore <= now && row.nextAttempt <= now
    && LeaseFree(row, now)
    && (forall p | p in paths :: paths[p].objectKey != key)
    && (forall p | p in reservations :: ReservedGen(p, reservations[p]) != row.gen)
    && !(row.gen in retentions && retentions[row.gen].retainUntil > now)
  }

  predicate Leasable(s: State, key: string, now: Millis)
    requires key in s.queue
  {
    CanLease(key, s.queue[key], s.paths, s.reservations, s.retentions, now)
  }

  function DueRows(
    queue: map<string, QueueRow>, paths: map<PathKey, PublishedRow>,
    reservations: map<PathKey, ReservationRow>, retentions: map<Generation, RetentionRow>, now: Millis)
    : map<string, int>
  {
    map k | k in queue && CanLease(k, queue[k], paths, reservations, retentions, now) :: queue[k].nextAttempt
  }

  function DueLeases(s: State, now: Millis): map<string, int> {
    DueRows(s.queue, s.paths, s.reservations, s.retentions, now)
  }

  /** What the bounded queries of one claim returned, and the lease tokens it minted. */
  datatype ClaimChoice = ClaimChoice(
    reaped: seq<PathKey>, retentions: seq<Generation>, leased: seq<string>,
    receipts: seq<RequestKey>, publications: seq<TokenKey>, ids: seq<string>)

  predicate AllReserved(s: State, keys: seq<PathKey>) {
    Distinct(keys) && forall i | 0 <= i < |keys| :: keys[i] in s.reservations
  }

  function Reap(s: State, keys: seq<PathKey>): (r: State)
    requires AllReserved(s, keys)
    ensures r == s.(queue := r.queue, reservations := s.reservations - Elements(keys))
  {
    if keys == [] then s
    else
      var n := |keys| - 1;
      assert keys[n] !in keys[..n];
      assert Elements(keys) == Elements(keys[..n]) + {keys[n]};
      Retire(Reap(s, keys[..n]), keys[n])
  }

  function PruneRetentions(s: State, gone: seq<Generation>): State {
    s.(retentions := s.retentions - Elements(gone))
  }

  predicate AllQueued(queue: map<string, QueueRow>, keys: seq<string>) {
    Distinct(keys) && forall i | 0 <= i < |keys| :: keys[i] in queue
  }

  function MarkLeased(queue: map<string, QueueRow>, keys: seq<string>, ids: seq<string>, until: Millis)
    : (q: map<string, QueueRow>)
    requires AllQueued(queue, keys) && |ids| == |keys|
    ensures q.Keys == queue.Keys
  {
    if keys == [] then queue
    else
      var n := |keys| - 1;
      var q := MarkLeased(queue, keys[..n], ids[..n], until);
      q[keys[n] := q[keys[n]].(lease := Some(LeaseMark(ids[n], until)))]
  }

  function Leases(queue: map<string, QueueRow>, keys: seq<string>, ids: seq<string>): seq<GarbageLease>
    requires AllQueued(queue, keys) && |ids| == |keys|
  {
    seq(|keys|, i requires 0 <= i < |keys| =>
      GarbageLease(queue[keys[i]].gen, keys[i], ids[i], queue[keys[i]].attempts))
  }

  /** The tables as the lease query of a claim finds them. */
  function BeforeLeasing(s: State, c: ClaimChoice): State
    requires AllReserved(s, c.reaped)
  {
    PruneRetentions(Reap(s, c.reaped), c.retentions)
  }

  ghost predicate ValidChoice(s: State, now: Millis, limit: nat, c: ClaimChoice) {
    && FirstDue(c.reaped, DueReservations(s.reservations, now), MAX_GC_BATCH)
    && AllReserved(s, c.reaped)
    && FirstDue(c.retentions, DueRetentions(s.retentions, now), MAX_GC_BATCH)
    && FirstDue(c.leased, DueLeases(BeforeLeasing(s, c), now), limit)
    && AllQueued(BeforeLeasing(s, c).queue, c.leased)
    && FirstDue(c.receipts, DueReceipts(s.receipts, now), MAX_GC_BATCH)
    && |c.receipts| <= MAX_GC_BATCH
    && FirstDue(c.publications, DuePublications(s.publications, now), MAX_GC_BATCH - |c.receipts|)
    && |c.ids| == |c.leased|
    && Fresh(s.minted, c.ids)
  }

  /** The tables after a claim whose lease query ran on `s`. */
  function AfterLeasing(s: State, now: Millis, c: ClaimChoice): State
    requires AllQueued(s.queue, c.leased) && |c.ids| == |c.leased|
  {
    s.(queue := MarkLeased(s.queue, c.leased, c.ids, SatAdd(now, GC_LEASE_MS)),
       receipts := s.receipts - Elements(c.receipts),
       publications := s.publications - Elements(c.publications),
       minted := s.minted + Elements(c.ids))
  }

  predicate ValidGcRequest(now: Millis, limit: nat) {
    now > 0 && 0 < limit <= MAX_GC_BATCH
  }

  ghost function ClaimGarbage(s: State, now: Millis, limit: nat, c: ClaimChoice): Outcome<GarbageClaim>
    requires ValidGcRequest(now, limit) ==> ValidChoice(s, now, limit, c)
  {
    if !ValidGcRequest(now, limit) then Outcome(s, Err(Invalid))
    else
      var ready := BeforeLeasing(s, c);
      var leases := Leases(ready.queue, c.leased, c.ids);
      if exists i | 0 <= i < |leases| :: leases[i].attempts > U32_MAX then Outcome(s, Err(Storage))
      else
        var report := Report(|c.reaped|, |leases|, 0, 0,
                             |c.receipts| + |c.publications|, |c.retentions|);
        Outcome(AfterLeasing(ready, now, c), Ok(GarbageClaim(report, leases)))
  }

  // ----- Settling a lease -----

  predicate HoldsLease(s: State, lease: GarbageLease) {
    && lease.objectKey in s.queue
    && s.queue[lease.objectKey].lease.Some?
    && s.queue[lease.objectKey].lease.value.token == lease.token
  }

  function Acknowledge(s: State, lease: GarbageLease): State {
    if HoldsLease(s, lease) then s.(queue := s.queue - {lease.objectKey}) else s
  }

  function Power2(n: nat): nat { if n == 0 then 1 else 2 * Power2(n - 1) }

  function RetryDelay(attempts: nat): nat { 1_000 * Power2(Min(attempts, 10)) }

  function FailLease(s: State, lease: GarbageLease, now: StoredMillis): State {
    if HoldsLease(s, lease) then
      var row := s.queue[lease.objectKey];
      s.(queue := s.queue[lease.objectKey :=
           row.(attempts := row.attempts + 1,
                nextAttempt := SatAdd(now, RetryDelay(lease.attempts)),
                lease := None)])
    else s
  }

  function FailGarbage(s: State, lease: GarbageLease, now: Millis): Outcome<()> {
    if now <= 0 then Outcome(s, Err(Invalid)) else Outcome(FailLease(s, lease, now), Ok(()))
  }

  // ----- Draining -----

  /** Deletes and settles the leased bodies in order; `stuck` holds the files that cannot be removed. */
  function SettleLeases(s: State, leases: seq<GarbageLease>, now: StoredMillis, stuck: set<string>, report: Report)
    : Outcome<Report>
    decreases |leases|
  {
    if leases == [] then Outcome(s, Ok(report))
    else
      var file := ObjectPath(leases[0].objectKey);
      if file.None? then Outcome(s, Err(BodyMismatch))
      else if file.value in stuck then
        SettleLeases(FailLease(s, leases[0], now), leases[1..], now, stuck,
                     report.(failed := report.failed + 1))
      else
        SettleLeases(Acknowledge(s.(bodies := s.bodies - {file.value}), leases[0]), leases[1..], now, stuck,
                     report.(deleted := report.deleted + 1))
  }

  ghost function DrainGarbage(s: State, now: Millis, limit: nat, c: ClaimChoice, stuck: set<string>): Outcome<Report>
    requires ValidGcRequest(now, limit) ==> ValidChoice(s, now, limit, c)
  {
    var claim := ClaimGarbage(s, now, limit, c);
    match claim.result
    case Err(error) => Outcome(s, Err(error))
    case Ok(garbage) => SettleLeases(claim.state, garbage.leases, now, stuck, garbage.report)
  }
}
