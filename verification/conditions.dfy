/**
 When a call succeeds and what it answers, read off the tables before the call: requests,
 uploads, reads and retentions, each with its exact condition.
 */
module Conditions {
  import opened Wrappers
  import opened Keys
  import opened Catalog

  /** The reservation table has exactly this reservation. */
  predicate Holds(s: State, r: Reservation) {
    r.Key() in s.reservations && RowReservation(r.Key(), s.reservations[r.Key()]) == r
  }

  // ----- Reserving -----

  predicate IsRequest(req: ReserveRequest) {
    ValidRequestId(req.requestId) && 0 < req.now && 0 < req.ttl <= 86_400_000 && req.now + req.ttl <= I64_MAX
  }

  /** The request names the current publication of its path, or rightly none. */
  predicate NamesCurrent(s: State, req: ReserveRequest) {
    match req.expected
    case None => req.Key() !in s.paths
    case Some(token) => req.Key() in s.paths && s.paths[req.Key()].token == token
  }

  predicate IsTaken(s: State, key: PathKey, now: Millis) {
    key in s.reservations && now < s.reservations[key].expiresAt
  }

  /** A new request for a path that nobody reserves at the moment, with room for one more revision. */
  predicate IsOpen(s: State, req: ReserveRequest) {
    && RequestKey(req.scope, req.requestId) !in s.receipts
    && NamesCurrent(s, req) && !IsTaken(s, req.Key(), req.now)
    && (req.Key() in s.paths ==> s.paths[req.Key()].revision < I64_MAX)
  }

  /** The next revision of the path, until the end of its lifetime. */
  function Grantee(s: State, req: ReserveRequest, ids: ReserveIds): Reservation
    requires IsRequest(req) && IsOpen(s, req)
  {
    var p := req.Key();
    Reservation(if p in s.paths then s.paths[p].artifactId else ids.artifact, req.scope, req.path,
                if p in s.paths then s.paths[p].revision + 1 else 1, ids.token, ids.generation, req.now + req.ttl)
  }

  /** A request changes the tables exactly if it is well formed and its path is open to it. */
  lemma ReserveGrantsIff(s: State, req: ReserveRequest, ids: ReserveIds)
    ensures Reserve(s, req, ids).state != s <==> IsRequest(req) && IsOpen(s, req)
  {
    hide Enqueue, ValidRequestId, SatAdd;
    var t := Reserve(s, req, ids).state;
    if DecideReserve(s, req).Grant? {
      assert RequestKey(req.scope, req.requestId) in t.receipts;
    }
  }

  /** A granted request installs the next revision, after an expired reservation of its path is retired. */
  lemma GrantInstalls(s: State, req: ReserveRequest, ids: ReserveIds)
    requires IsRequest(req) && IsOpen(s, req)
    ensures var r, p := Grantee(s, req, ids), req.Key();
            var row := ReservationRow(r.artifactId, r.revision, ids.token, ids.generation, r.expiresAt);
            Reserve(s, req, ids) ==
            Outcome(Install(if p in s.reservations then Retire(s, p) else s, req, row, ids), Ok(r))
  {
    hide ValidRequestId, Retire, Install;
  }

  /** What a granted request answers and leaves in the tables. */
  lemma ReserveGrants(s: State, req: ReserveRequest, ids: ReserveIds)
    requires IsRequest(req) && IsOpen(s, req)
    ensures var done, r, p := Reserve(s, req, ids), Grantee(s, req, ids), req.Key();
            && done.result == Ok(r) && Holds(done.state, r)
            && done.state.reservations - {p} == s.reservations - {p}
            && done.state.paths == s.paths && done.state.bodies == s.bodies
            && done.state.publications == s.publications && done.state.retentions == s.retentions
  {
    hide IsRequest, IsOpen, Reserve, Retire, ValidRequestId;
    GrantInstalls(s, req, ids);
    if req.Key() in s.reservations {
      RetireTakesOne(s, req.Key());
    }
  }

  lemma RetireTakesOne(s: State, p: PathKey)
    requires p in s.reservations
    ensures Retire(s, p) == s.(queue := Retire(s, p).queue, reservations := s.reservations - {p})
  {
  }

  /** The expired reservation that a granted request replaces is queued with its grace, and nothing else is. */
  lemma ReserveQueues(s: State, req: ReserveRequest, ids: ReserveIds)
    requires IsRequest(req) && IsOpen(s, req)
    ensures var queue, p := Reserve(s, req, ids).state.queue, req.Key();
            if p !in s.reservations then queue == s.queue
            else
              var g, at := ReservedGen(p, s.reservations[p]), SatAdd(s.reservations[p].expiresAt, 60_000);
              && queue.Keys == s.queue.Keys + {ObjectKey(g)} && queue - {ObjectKey(g)} == s.queue - {ObjectKey(g)}
              && (ObjectKey(g) !in s.queue ==> queue[ObjectKey(g)] == QueueRow(g, at, at, 0, None))
  {
    hide IsRequest, IsOpen, Reserve, ValidRequestId, SatAdd, ObjectKey;
    GrantInstalls(s, req, ids);
  }

  /** A request that is not granted is refused, or answered with the reservation that its identifier got before. */
  lemma ReserveRefuses(s: State, req: ReserveRequest, ids: ReserveIds)
    requires !(IsRequest(req) && IsOpen(s, req))
    ensures Reserve(s, req, ids).state == s
    ensures var request := RequestKey(req.scope, req.requestId);
            Reserve(s, req, ids).result ==
            if !IsRequest(req) then Err(Invalid)
            else if request in s.receipts then
              var receipt := s.receipts[request];
              if receipt.path == req.path && receipt.expected == req.expected && receipt.ttl == req.ttl
              then Ok(RowReservation(req.Key(), receipt.row)) else Err(Conflict)
            else if NamesCurrent(s, req) && !IsTaken(s, req.Key(), req.now) then Err(Invalid)
            else Err(Conflict)
  {
    hide ValidRequestId, Install, Retire;
  }

  /** Queueing a generation again keeps its lease and its attempts, and the later of both times. */
  lemma EnqueueRaises(queue: map<string, QueueRow>, g: Generation, at: StoredMillis)
    ensures var q, k := Enqueue(queue, g, at), ObjectKey(g);
            && k in q && q - {k} == queue - {k} && at <= q[k].notBefore && at <= q[k].nextAttempt
            && (k !in queue ==> q[k] == QueueRow(g, at, at, 0, None))
            && (k in queue ==>
                  && queue[k].notBefore <= q[k].notBefore && q[k].notBefore in {queue[k].notBefore, at}
                  && queue[k].nextAttempt <= q[k].nextAttempt && q[k].nextAttempt in {queue[k].nextAttempt, at}
                  && q[k] == queue[k].(notBefore := q[k].notBefore, nextAttempt := q[k].nextAttempt))
  {
    hide ObjectKey;
  }

  // ----- Live reservations and uploads -----

  /** The path is reserved for that revision of that artifact, by this reservation or by another. */
  predicate IsReservedFor(s: State, r: Reservation) {
    r.Key() in s.reservations
    && s.reservations[r.Key()].artifactId == r.artifactId && s.reservations[r.Key()].revision == r.revision
  }

  /** A reservation is live exactly while its table has it and it has not expired; any other gets its error. */
  lemma IsLiveIff(s: State, r: Reservation, now: Millis)
    ensures LiveError(s, r, now).None? <==> Holds(s, r) && now < r.expiresAt && r.revision <= I64_MAX
    ensures LiveError(s, r, now).Some? ==>
              LiveError(s, r, now).value ==
              if r.revision > I64_MAX then Invalid else if Holds(s, r) then ReservationExpired
              else if IsReservedFor(s, r) then Conflict else NotFound
  {
  }

  lemma HeldEndsLater(s: State, r: Reservation)
    requires Holds(s, r)
    ensures r.expiresAt > 0
  {
  }

  /** The file at the key holds bytes of the same length and digest, or there is none yet. */
  predicate AgreesWith(s: State, sha: Sha, file: string, bytes: Bytes) {
    file in s.bodies ==> |s.bodies[file]| == |bytes| && sha(s.bodies[file]) == sha(bytes)
  }

  /**
   An upload succeeds exactly for a live reservation with a file path, within the size limit, and
   if no other bytes are in its place.
   */
  lemma UploadSucceedsIff(s: State, sha: Sha, r: Reservation, bytes: Bytes, now: Millis)
    ensures var file := ObjectPath(ObjectKey(r.Gen()));
            Upload(s, sha, r, bytes, now).result.Ok? <==>
            && ValidText(r.token) && ValidText(r.generation) && r.revision <= I64_MAX
            && Holds(s, r) && now < r.expiresAt && |bytes| <= 64 * 1_048_576
            && file.Some? && AgreesWith(s, sha, file.value, bytes)
    ensures Upload(s, sha, r, bytes, now).result.Err? ==>
              Upload(s, sha, r, bytes, now).result.error ==
              if !ValidText(r.token) || !ValidText(r.generation) || r.expiresAt <= 0 || r.revision > I64_MAX then Invalid
              else if !Holds(s, r) then if IsReservedFor(s, r) then Conflict else NotFound
              else if r.expiresAt <= now then ReservationExpired
              else if |bytes| > 64 * 1_048_576 then UploadTooLarge else BodyMismatch
  {
    hide ObjectPath, ObjectKey, ValidText, LiveError, Holds, IsReservedFor;
    if Holds(s, r) {
      HeldEndsLater(s, r);
    }
    IsLiveIff(s, r, now);
  }

  /** A successful upload describes the bytes and stores them where there were none; any other changes nothing. */
  lemma UploadStores(s: State, sha: Sha, r: Reservation, bytes: Bytes, now: Millis)
    ensures var done, file := Upload(s, sha, r, bytes, now), ObjectPath(ObjectKey(r.Gen()));
            if done.result.Err? then done.state == s
            else
              && done.result.value ==
                 Observation(ObjectKey(r.Gen()), r.generation, |bytes|, sha(bytes), None, Some(sha(bytes)))
              && file.Some? && done.state == s.(bodies := done.state.bodies)
              && done.state.bodies == if file.value in s.bodies then s.bodies else s.bodies[file.value := bytes]
  {
    hide ObjectPath, ObjectKey, ValidText, LiveError;
  }

  // ----- Reading and retaining -----

  /** Reading succeeds exactly for a digested reference under its own key whose file agrees with it. */
  lemma ReadSucceedsIff(s: State, sha: Sha, ref: ArtifactReference, bytes: Bytes)
    ensures Read(s, sha, ref) == Ok(bytes) <==>
            && ref.Valid() && ref.body.Object? && ref.body.digest.Some? && ref.body.etag == ref.body.digest.value
            && ref.body.objectKey == ObjectKey(Generation(ref.scope, ref.body.generation))
            && var file := ObjectPath(ref.body.objectKey);
               && file.Some? && file.value in s.bodies && s.bodies[file.value] == bytes
               && |bytes| == ref.body.size && sha(bytes) == ref.body.digest.value
  {
    hide ObjectPath, ObjectKey, ValidText;
  }

  /** A reading that fails says whether the reference, the file or what is in it is at fault. */
  lemma ReadFails(s: State, sha: Sha, ref: ArtifactReference)
    requires Read(s, sha, ref).Err?
    ensures Read(s, sha, ref).error == Invalid <==> !ref.Valid()
    ensures Read(s, sha, ref).error == Filesystem <==>
            && ref.Valid() && ref.body.Object? && ref.body.digest.Some? && ref.body.etag == ref.body.digest.value
            && ref.body.objectKey == ObjectKey(Generation(ref.scope, ref.body.generation))
            && ObjectPath(ref.body.objectKey).Some? && ObjectPath(ref.body.objectKey).value !in s.bodies
    ensures Read(s, sha, ref).error in {Invalid, Filesystem, BodyMismatch}
  {
    hide ObjectPath, ObjectKey, ValidText;
  }

  /**
   A retention is granted exactly for the current reference of its path, within eight days, and
   then lasts until the later of the two times; nothing else changes.
   */
  lemma RetainSucceedsIff(s: State, ref: ArtifactReference, now: Millis, until: Millis, p: PathKey)
    requires p in s.paths && p.scope == ref.scope && s.paths[p].artifactId == ref.artifactId
    ensures var done, row := RetainForRead(s, ref, now, until, Some(p)), s.paths[p];
            var g := Generation(ref.scope, row.generation);
            && (done.result.Ok? <==> ref.Valid() && 0 < now < until <= now + 8 * 86_400_000 && ref == RowReference(p, row))
            && (done.result.Err? ==> done.state == s)
            && (done.result == Err(Invalid) <==> !(ref.Valid() && 0 < now < until <= now + 8 * 86_400_000))
            && (done.result.Ok? ==>
                  && done.state == s.(retentions := done.state.retentions) && g in done.state.retentions
                  && done.state.retentions - {g} == s.retentions - {g}
                  && done.state.retentions[g].objectKey == row.objectKey
                  && done.state.retentions[g].retainUntil ==
                     if g in s.retentions && s.retentions[g].retainUntil > until then s.retentions[g].retainUntil else until)
  {
    hide ValidText;
  }

  /** Without a row of that artifact there is no retention. */
  lemma RetainNeedsRow(s: State, ref: ArtifactReference, now: Millis, until: Millis)
    ensures RetainForRead(s, ref, now, until, None).result.Err? && RetainForRead(s, ref, now, until, None).state == s
  {
  }

  // ----- Texts that identifiers, keys and digests are -----

  /** No control characters, and one byte each. */
  predicate IsPlain(s: string) {
    forall i | 0 <= i < |s| :: s[i] < '\U{80}' && !IsControl(s[i])
  }

  lemma PlainIsText(s: string)
    requires IsPlain(s) && 0 < |s| <= 1_024
    ensures ValidText(s)
  {
    AsciiLength(s);
  }

  lemma PlainJoin(a: string, b: string)
    requires IsPlain(a) && IsPlain(b)
    ensures IsPlain(a + b)
  {
  }

  lemma IdIsPlain(s: string)
    requires IsId(s)
    ensures IsPlain(s)
  {
    forall i | 0 <= i < |s| ensures s[i] < '\U{80}' && !IsControl(s[i]) {
      assert IsIdChar(s[i]);
    }
  }

  lemma IdIsText(s: string)
    requires IsId(s)
    ensures ValidText(s)
  {
    IdIsPlain(s);
    PlainIsText(s);
  }

  lemma KeyIsText(g: Generation)
    requires IsId(g.name)
    ensures ValidText(ObjectKey(g))
  {
    hide IsPlain;
    var t, p := g.scope.tenant, g.scope.project;
    IdIsPlain(t);
    IdIsPlain(p);
    IdIsPlain(g.name);
    FixedPartsArePlain();
    PlainJoin(g.name, ".blob");
    PlainJoin("/", g.name + ".blob");
    PlainJoin(p, "/" + (g.name + ".blob"));
    PlainJoin("/", p + ("/" + (g.name + ".blob")));
    PlainJoin(t, "/" + (p + ("/" + (g.name + ".blob"))));
    PlainJoin("objects/", t + ("/" + (p + ("/" + (g.name + ".blob")))));
    assert ObjectKey(g) == "objects/" + (t + ("/" + (p + ("/" + (g.name + ".blob")))));
    assert |ObjectKey(g)| <= 15 + 3 * 128;
    PlainIsText(ObjectKey(g));
  }

  lemma FixedPartsArePlain()
    ensures IsPlain("objects/") && IsPlain("/") && IsPlain(".blob")
  {
  }

  lemma DigestIsText(digest: ContentDigest)
    ensures ValidText(digest)
  {
    AsciiLength(digest);
  }
}
