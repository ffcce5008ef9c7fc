/**
 The artifact store as an object: every method updates the tables in place and is proved to
 have exactly the effect that its catalog operation describes.
 */
module LocalStore {
  import opened Wrappers
  import opened Keys
  import opened Catalog

  // ----- Bounded queries -----

  method Earliest<K(==)>(due: map<K, int>) returns (first: K)
    requires due != map[]
    ensures first in due && forall k | k in due :: due[first] <= due[k]
  {
    first :| first in due;
    var rest := due.Keys - {first};
    while rest != {}
      invariant first in due && rest <= due.Keys
      invariant forall k | k in due && k !in rest :: due[first] <= due[k]
      decreases rest
    {
      var k :| k in rest;
      if due[k] < due[first] {
        first := k;
      }
      rest := rest - {k};
    }
  }

  method SelectFirst<K(==)>(due: map<K, int>, limit: nat) returns (chosen: seq<K>)
    ensures FirstDue(chosen, due, limit)
  {
    chosen := [];
    var rest := due;
    while |chosen| < limit && rest != map[]
      invariant Distinct(chosen)
      invariant rest.Keys <= due.Keys && forall k | k in rest :: rest[k] == due[k]
      invariant forall k | k in due :: k in rest <==> k !in chosen
      invariant forall i | 0 <= i < |chosen| :: chosen[i] in due
      invariant |chosen| + |rest| == |due| && |chosen| <= limit
      invariant forall i, j | 0 <= i < j < |chosen| :: due[chosen[i]] <= due[chosen[j]]
      invariant forall k, i | k in rest && 0 <= i < |chosen| :: due[chosen[i]] <= due[k]
      decreases |rest|
    {
      var k := Earliest(rest);
      assert (rest - {k}).Keys == rest.Keys - {k};
      rest := rest - {k};
      chosen := chosen + [k];
    }
  }

  lemma ReapNext(s: State, keys: seq<PathKey>, i: nat)
    requires AllReserved(s, keys) && i < |keys|
    ensures AllReserved(s, keys[..i]) && AllReserved(s, keys[..i + 1])
    ensures keys[i] in Reap(s, keys[..i]).reservations
    ensures Reap(s, keys[..i + 1]) == Retire(Reap(s, keys[..i]), keys[i])
  {
    assert keys[..i + 1][..i] == keys[..i];
    assert keys[i] !in keys[..i];
  }

  lemma ReapNothing(s: State)
    ensures AllReserved(s, []) && Reap(s, []) == s
  {
  }

  /** The result of leasing the rows `keys`: all of them, or none when a counter is too big. */
  ghost predicate Claimed(
    before: map<string, QueueRow>, keys: seq<string>, ids: seq<string>, now: Millis,
    leases: Option<seq<GarbageLease>>, after: map<string, QueueRow>)
    requires AllQueued(before, keys) && |ids| == |keys|
  {
    var all := Leases(before, keys, ids);
    if exists i | 0 <= i < |all| :: all[i].attempts > U32_MAX then leases == None
    else leases == Some(all) && after == MarkLeased(before, keys, ids, SatAdd(now, GC_LEASE_MS))
  }

  lemma FreshPrefix(minted: set<string>, ids: seq<string>, n: nat)
    requires n <= |ids| && Fresh(minted, ids)
    ensures Fresh(minted, ids[..n])
  {
  }

  /** Receipts that the last queries could return, for a claim that failed before them. */
  lemma CompleteChoice(s: State, now: Millis, c: ClaimChoice) returns (full: ClaimChoice)
    ensures FirstDue(full.receipts, DueReceipts(s.receipts, now), MAX_GC_BATCH)
    ensures |full.receipts| <= MAX_GC_BATCH
    ensures FirstDue(full.publications, DuePublications(s.publications, now), MAX_GC_BATCH - |full.receipts|)
    ensures full == c.(receipts := full.receipts, publications := full.publications)
  {
    var receipts := FirstDueExists(DueReceipts(s.receipts, now), MAX_GC_BATCH);
    var publications := FirstDueExists(DuePublications(s.publications, now), MAX_GC_BATCH - |receipts|);
    full := c.(receipts := receipts, publications := publications);
  }

  /** What reaping, pruning of retentions and leasing leave behind for the rest of a claim. */
  ghost predicate LeaseStage(
    s: State, now: Millis, limit: nat, c: ClaimChoice,
    leases: Option<seq<GarbageLease>>, queue: map<string, QueueRow>)
  {
    && AllReserved(s, c.reaped)
    && FirstDue(c.reaped, DueReservations(s.reservations, now), MAX_GC_BATCH)
    && FirstDue(c.retentions, DueRetentions(s.retentions, now), MAX_GC_BATCH)
    && FirstDue(c.leased, DueLeases(BeforeLeasing(s, c), now), limit)
    && AllQueued(BeforeLeasing(s, c).queue, c.leased) && |c.ids| == |c.leased|
    && Claimed(BeforeLeasing(s, c).queue, c.leased, c.ids, now, leases, queue)
    && Fresh(s.minted, c.ids)
  }

  lemma ClaimStages(
    s: State, now: Millis, limit: nat, c: ClaimChoice,
    leases: Option<seq<GarbageLease>>, queue: map<string, QueueRow>)
    requires ValidGcRequest(now, limit)
    requires LeaseStage(s, now, limit, c, leases, queue)
    requires |c.receipts| <= MAX_GC_BATCH
    requires FirstDue(c.receipts, DueReceipts(s.receipts, now), MAX_GC_BATCH)
    requires FirstDue(c.publications, DuePublications(s.publications, now), MAX_GC_BATCH - |c.receipts|)
    ensures ValidChoice(s, now, limit, c)
    ensures leases.None? ==>
              Catalog.ClaimGarbage(s, now, limit, c) == Outcome(s, Err(Storage))
    ensures leases.Some? ==>
              Catalog.ClaimGarbage(s, now, limit, c) == Outcome(
                BeforeLeasing(s, c).(queue := queue, receipts := s.receipts - Elements(c.receipts),
                                     publications := s.publications - Elements(c.publications),
                                     minted := s.minted + Elements(c.ids)),
                Ok(GarbageClaim(Report(|c.reaped|, |leases.value|, 0, 0,
                                       |c.receipts| + |c.publications|, |c.retentions|), leases.value)))
  {
    hide Reap, MarkLeased, FirstDue, Fresh, DueRows, AllQueued, AllReserved;
  }

  lemma RowsAreThere(queue: map<string, QueueRow>, keys: seq<string>)
    requires AllQueued(queue, keys)
    ensures forall i | 0 <= i < |keys| :: keys[i] in queue
    ensures forall i, j | 0 <= i < j < |keys| :: keys[i] != keys[j]
  {
  }

  lemma NothingMarked(queue: map<string, QueueRow>, keys: seq<string>, ids: seq<string>, until: Millis)
    requires AllQueued(queue, keys) && |ids| == |keys|
    ensures AllQueued(queue, keys[..0]) && MarkLeased(queue, keys[..0], ids[..0], until) == queue
  {
  }

  lemma OneMoreMarked(queue: map<string, QueueRow>, keys: seq<string>, ids: seq<string>, until: Millis, i: nat)
    requires AllQueued(queue, keys) && |ids| == |keys| && i < |keys|
    ensures AllQueued(queue, keys[..i]) && AllQueued(queue, keys[..i + 1]) && keys[i] in queue
    ensures var q := MarkLeased(queue, keys[..i], ids[..i], until);
            MarkLeased(queue, keys[..i + 1], ids[..i + 1], until) ==
            q[keys[i] := q[keys[i]].(lease := Some(LeaseMark(ids[i], until)))]
  {
    assert keys[..i + 1][..i] == keys[..i] && ids[..i + 1][..i] == ids[..i];
  }

  /** The queries for receipts come last and do not matter before. */
  lemma ReceiptsComeLast(
    s: State, now: Millis, limit: nat, c: ClaimChoice, full: ClaimChoice,
    leases: Option<seq<GarbageLease>>, queue: map<string, QueueRow>)
    requires LeaseStage(s, now, limit, c, leases, queue)
    requires full == c.(receipts := full.receipts, publications := full.publications)
    ensures LeaseStage(s, now, limit, full, leases, queue) && BeforeLeasing(s, full) == BeforeLeasing(s, c)
  {
    hide Reap, FirstDue, Fresh, DueRows, AllQueued, AllReserved, Claimed;
  }

  lemma GrantedFits(s: State, req: ReserveRequest)
    requires DecideReserve(s, req).Grant?
    ensures 0 < req.now + req.ttl <= I64_MAX
    ensures req.Key() in s.paths ==> s.paths[req.Key()].revision < I64_MAX
  {
    hide ValidRequestId;
  }

  class LocalArtifactStore {
    const sha: Sha
    var paths: map<PathKey, PublishedRow>
    var reservations: map<PathKey, ReservationRow>
    var receipts: map<RequestKey, ReservationReceipt>
    var publications: map<TokenKey, PublicationReceipt>
    var queue: map<string, QueueRow>
    var retentions: map<Generation, RetentionRow>
    var bodies: map<string, Bytes>
    ghost var minted: set<string>

    ghost function Contents(): State
      reads this
    {
      State(paths, reservations, receipts, publications, queue, retentions, bodies, minted)
    }

    constructor (sha: Sha)
      ensures Contents() == EMPTY && this.sha == sha
    {
      this.sha := sha;
      paths, reservations, receipts, publications := map[], map[], map[], map[];
      queue, retentions, bodies := map[], map[], map[];
      minted := {};
    }

    method QueueCandidate(g: Generation, notBefore: StoredMillis)
      modifies this`queue
      ensures queue == Enqueue(old(queue), g, notBefore)
    {
      var key := ObjectKey(g);
      if key in queue {
        var row := queue[key];
        queue := queue[key := row.(notBefore := Max(row.notBefore, notBefore),
                                   nextAttempt := Max(row.nextAttempt, notBefore))];
      } else {
        queue := queue[key := QueueRow(g, notBefore, notBefore, 0, None)];
      }
    }

    /** The part of `reserve` that only reads: whether the request is refused, replayed or granted. */
    method CheckReserve(req: ReserveRequest) returns (decision: ReserveDecision)
      ensures decision == DecideReserve(Contents(), req)
    {
      hide ValidRequestId;
      if !ValidRequestId(req.requestId) {
        return Reject(Invalid);
      }
      if req.now <= 0 || req.ttl <= 0 || req.ttl > MAX_TTL_MS || req.now + req.ttl > I64_MAX {
        return Reject(Invalid);
      }
      var request := RequestKey(req.scope, req.requestId);
      if request in receipts {
        var receipt := receipts[request];
        if receipt.path != req.path || receipt.expected != req.expected || receipt.ttl != req.ttl {
          return Reject(Conflict);
        }
        return Replay(RowReservation(PathKey(req.scope, receipt.path), receipt.row));
      }
      var key := req.Key();
      if key in paths {
        if req.expected != Some(paths[key].token) {
          return Reject(Conflict);
        }
      } else if req.expected.Some? {
        return Reject(Conflict);
      }
      if key in reservations && reservations[key].expiresAt > req.now {
        return Reject(Conflict);
      }
      if key in paths && paths[key].revision >= I64_MAX {
        return Reject(Invalid);
      }
      return Grant;
    }

    method Reserve(req: ReserveRequest, ids: ReserveIds) returns (r: Result<Reservation, Error>)
      requires Fresh(minted, ids.All())
      modifies this
      ensures Outcome(Contents(), r) == Catalog.Reserve(old(Contents()), req, ids)
    {
      hide DecideReserve, Enqueue, Fresh, SatAdd;
      var decision := CheckReserve(req);
      if decision.Reject? {
        return Err(decision.error);
      }
      if decision.Replay? {
        return Ok(decision.reservation);
      }
      GrantedFits(Contents(), req);
      var key, expiresAt := req.Key(), req.now + req.ttl;
      if key in reservations {
        var active := reservations[key];
        QueueCandidate(ReservedGen(key, active), SatAdd(active.expiresAt, GC_SETTLEMENT_GRACE_MS));
        reservations := reservations - {key};
      }
      var artifactId, revision := ids.artifact, 1;
      if key in paths {
        artifactId, revision := paths[key].artifactId, paths[key].revision + 1;
      }
      var row := ReservationRow(artifactId, revision, ids.token, ids.generation, expiresAt);
      reservations := reservations[key := row];
      receipts := receipts[RequestKey(req.scope, req.requestId) := ReservationReceipt(
        req.path, req.expected, req.ttl, row, SatAdd(expiresAt, RECEIPT_RETENTION_MS))];
      minted := minted + {ids.artifact, ids.token, ids.generation};
      r := Ok(RowReservation(key, row));
    }

    method Upload(r: Reservation, bytes: Bytes, now: Millis) returns (o: Result<Observation, Error>)
      modifies this`bodies
      ensures Outcome(Contents(), o) == Catalog.Upload(old(Contents()), sha, r, bytes, now)
    {
      if !r.Valid() {
        return Err(Invalid);
      }
      var dead := LiveReservation(r, now);
      if dead.Some? {
        return Err(dead.value);
      }
      if |bytes| > MAX_DIRECT_UPLOAD_BYTES {
        return Err(UploadTooLarge);
      }
      var digest := sha(bytes);
      var key := ObjectKey(r.Gen());
      var file := ObjectPath(key);
      if file.None? {
        return Err(BodyMismatch);
      }
      if file.value in bodies {
        if |bodies[file.value]| != |bytes| || sha(bodies[file.value]) != digest {
          return Err(BodyMismatch);
        }
      } else {
        bodies := bodies[file.value := bytes];
      }
      o := Ok(Observation(key, r.generation, |bytes|, digest, None, Some(digest)));
    }

    method LiveReservation(r: Reservation, now: Millis) returns (error: Option<Error>)
      ensures error == LiveError(Contents(), r, now)
    {
      var key := r.Key();
      if r.revision > I64_MAX {
        return Some(Invalid);
      }
      if key !in reservations {
        return Some(NotFound);
      }
      var row := reservations[key];
      if row.artifactId != r.artifactId || row.revision != r.revision {
        return Some(NotFound);
      }
      if row.token != r.token || row.generation != r.generation || row.expiresAt != r.expiresAt {
        return Some(Conflict);
      }
      if now >= row.expiresAt {
        return Some(ReservationExpired);
      }
      return None;
    }

    method Publish(r: Reservation, o: Observation, now: Millis) returns (ref: Result<ArtifactReference, Error>)
      modifies this
      ensures Outcome(Contents(), ref) == Catalog.Publish(old(Contents()), sha, r, o, now)
    {
      if !r.Valid() {
        return Err(Invalid);
      }
      var key := ObjectKey(r.Gen());
      if o.generation != r.generation || o.objectKey != key || o.digest.None? || o.etag != o.digest.value {
        return Err(BodyMismatch);
      }
      var receipt := TokenKey(r.scope, r.token);
      if receipt in publications {
        if PublicationMatches(publications[receipt].reference, r, o) {
          return Ok(publications[receipt].reference);
        }
        return Err(BodyMismatch);
      }
      var file := ObjectPath(key);
      if file.None? {
        return Err(BodyMismatch);
      }
      if file.value !in bodies {
        return Err(Filesystem);
      }
      if |bodies[file.value]| != o.size || sha(bodies[file.value]) != o.digest.value {
        return Err(BodyMismatch);
      }
      ref := CommitPublication(r, o, now);
    }

    method PublishTrusted(r: Reservation, o: Observation, now: Millis) returns (ref: Result<ArtifactReference, Error>)
      modifies this
      ensures Outcome(Contents(), ref) == Catalog.PublishTrusted(old(Contents()), r, o, now)
    {
      if !r.Valid() || !o.BodyRef().Valid() {
        return Err(Invalid);
      }
      if o.generation != r.generation {
        return Err(BodyMismatch);
      }
      var receipt := TokenKey(r.scope, r.token);
      if receipt in publications {
        if PublicationMatches(publications[receipt].reference, r, o) {
          return Ok(publications[receipt].reference);
        }
        return Err(BodyMismatch);
      }
      ref := CommitPublication(r, o, now);
    }

    /** One transaction: its early exits after the queue was touched put the old queue back. */
    method CommitPublication(r: Reservation, o: Observation, now: Millis)
      returns (result: Result<ArtifactReference, Error>)
      modifies this
      ensures Outcome(Contents(), result) == Catalog.CommitPublication(old(Contents()), r, o, now)
    {
      if !o.BodyRef().Valid() {
        return Err(Invalid);
      }
      var begin := queue;
      var key := r.Key();
      var dead := LiveReservation(r, now);
      if dead == Some(NotFound) {
        if key in paths && PublicationMatches(RowReference(key, paths[key]), r, o) {
          return Ok(RowReference(key, paths[key]));
        }
        return Err(NotFound);
      }
      if dead.Some? {
        return Err(dead.value);
      }
      if key in paths && paths[key].objectKey != o.objectKey {
        if now <= 0 {
          return Err(Invalid);
        }
        QueueCandidate(PublishedGen(key, paths[key]), now);
      }
      var row := NewPublishedRow(r, o, now);
      var ref := RowReference(key, row);
      if o.size > I64_MAX || !ref.Valid() {
        queue := begin;
        return Err(Invalid);
      }
      var retainUntil := SatAdd(now, RECEIPT_RETENTION_MS);
      if retainUntil <= 0 || TokenKey(r.scope, r.token) in publications {
        queue := begin;
        return Err(Storage);
      }
      paths := paths[key := row];
      publications := publications[TokenKey(r.scope, r.token) := PublicationReceipt(ref, retainUntil)];
      reservations := reservations - {key};
      result := Ok(ref);
    }

    /** Queues first and checks the deleted row count afterwards; a miss rolls the queue back. */
    method Abort(r: Reservation) returns (result: Result<(), Error>)
      modifies this
      ensures Outcome(Contents(), result) == Catalog.Abort(old(Contents()), r)
    {
      var notBefore := SatAdd(r.expiresAt, GC_SETTLEMENT_GRACE_MS);
      if notBefore <= 0 {
        return Err(Invalid);
      }
      var begin := queue;
      QueueCandidate(r.Gen(), notBefore);
      if r.revision > I64_MAX {
        queue := begin;
        return Err(Invalid);
      }
      var key := r.Key();
      if key !in reservations || RowReservation(key, reservations[key]) != r {
        queue := begin;
        return Err(NotFound);
      }
      reservations := reservations - {key};
      result := Ok(());
    }

    method Get(key: PathKey) returns (ref: Option<ArtifactReference>)
      ensures ref == Catalog.Get(Contents(), key)
    {
      ref := if key in paths then Some(RowReference(key, paths[key])) else None;
    }

    method GetById(scope: Scope, artifactId: string) returns (ref: Option<ArtifactReference>, ghost found: Option<PathKey>)
      ensures AnswersById(Contents(), scope, artifactId, found)
      ensures ref == GetFound(Contents(), found)
      ensures ref.Some? ==> ref.value.scope == scope && ref.value.artifactId == artifactId
      ensures ref.None? ==> forall key | key in paths && key.scope == scope :: paths[key].artifactId != artifactId
    {
      if key :| key in paths && key.scope == scope && paths[key].artifactId == artifactId {
        found := Some(key);
        ref := Get(key);
      } else {
        found := None;
        ref := None;
      }
    }

    method RetainForRead(ref: ArtifactReference, now: Millis, until: Millis)
      returns (result: Result<(), Error>, ghost found: Option<PathKey>)
      modifies this`retentions
      ensures AnswersById(old(Contents()), ref.scope, ref.artifactId, found)
      ensures Outcome(Contents(), result) == Catalog.RetainForRead(old(Contents()), ref, now, until, found)
    {
      var current;
      current, found := GetById(ref.scope, ref.artifactId);
      if !ref.Valid() || now <= 0 || until <= now || until - now > MAX_READ_RETENTION_MS {
        return Err(Invalid), found;
      }
      if current != Some(ref) {
        return Err(BodyMismatch), found;
      }
      if ref.body.Inline? {
        return Err(BodyMismatch), found;
      }
      var g := Generation(ref.scope, ref.body.generation);
      var kept := if g in retentions then Max(retentions[g].retainUntil, until) else until;
      retentions := retentions[g := RetentionRow(ref.body.objectKey, kept)];
      result := Ok(());
    }

    method Read(ref: ArtifactReference) returns (result: Result<Bytes, Error>)
      ensures result == Catalog.Read(Contents(), sha, ref)
    {
      if !ref.Valid() {
        return Err(Invalid);
      }
      if ref.body.Inline? || ref.body.digest.None? {
        return Err(BodyMismatch);
      }
      var key := ObjectKey(Generation(ref.scope, ref.body.generation));
      if ref.body.objectKey != key || ref.body.etag != ref.body.digest.value {
        return Err(BodyMismatch);
      }
      var file := ObjectPath(key);
      if file.None? {
        return Err(BodyMismatch);
      }
      if file.value !in bodies {
        return Err(Filesystem);
      }
      var bytes := bodies[file.value];
      if |bytes| != ref.body.size || sha(bytes) != ref.body.digest.value {
        return Err(BodyMismatch);
      }
      result := Ok(bytes);
    }

    // ----- Garbage collection -----

    method ReapExpiredReservations(now: Millis) returns (reaped: seq<PathKey>)
      modifies this`queue, this`reservations
      ensures FirstDue(reaped, DueReservations(old(reservations), now), MAX_GC_BATCH)
      ensures AllReserved(old(Contents()), reaped)
      ensures Contents() == Reap(old(Contents()), reaped)
    {
      reaped := SelectFirst(DueReservations(reservations, now), MAX_GC_BATCH);
      RetireAll(reaped);
    }

    method RetireAll(keys: seq<PathKey>)
      requires AllReserved(Contents(), keys)
      modifies this`queue, this`reservations
      ensures Contents() == Reap(old(Contents()), keys)
    {
      hide Reap, Enqueue, AllReserved;
      ghost var begin := Contents();
      var i := 0;
      assert keys[..0] == [];
      ReapNothing(begin);
      while i < |keys|
        invariant 0 <= i <= |keys|
        invariant AllReserved(begin, keys[..i])
        invariant Contents() == Reap(begin, keys[..i])
      {
        var key := keys[i];
        ReapNext(begin, keys, i);
        var row := reservations[key];
        QueueCandidate(ReservedGen(key, row), SatAdd(row.expiresAt, GC_SETTLEMENT_GRACE_MS));
        reservations := reservations - {key};
        i := i + 1;
      }
      assert keys[..i] == keys;
    }

    method PruneExpiredReadRetentions(now: Millis) returns (gone: seq<Generation>)
      modifies this`retentions
      ensures FirstDue(gone, DueRetentions(old(retentions), now), MAX_GC_BATCH)
      ensures Contents() == PruneRetentions(old(Contents()), gone)
    {
      gone := SelectFirst(DueRetentions(retentions, now), MAX_GC_BATCH);
      retentions := retentions - Elements(gone);
    }

    method PruneExpiredReceipts(now: Millis) returns (gone: seq<RequestKey>, also: seq<TokenKey>)
      modifies this`receipts, this`publications
      ensures FirstDue(gone, DueReceipts(old(receipts), now), MAX_GC_BATCH)
      ensures |gone| <= MAX_GC_BATCH
      ensures FirstDue(also, DuePublications(old(publications), now), MAX_GC_BATCH - |gone|)
      ensures receipts == old(receipts) - Elements(gone)
      ensures publications == old(publications) - Elements(also)
    {
      gone := SelectFirst(DueReceipts(receipts, now), MAX_GC_BATCH);
      receipts := receipts - Elements(gone);
      also := [];
      if |gone| < MAX_GC_BATCH {
        also := SelectFirst(DuePublications(publications, now), MAX_GC_BATCH - |gone|);
        publications := publications - Elements(also);
      }
    }

    /** Leases due rows; `None` when an attempt counter does not fit its lease. */
    method ClaimCandidates(now: Millis, limit: nat, ids: seq<string>)
      returns (leases: Option<seq<GarbageLease>>, ghost leased: seq<string>)
      requires limit <= |ids|
      modifies this`queue
      ensures FirstDue(leased, DueLeases(old(Contents()), now), limit)
      ensures AllQueued(old(queue), leased) && |leased| <= |ids|
      ensures Claimed(old(queue), leased, ids[..|leased|], now, leases, queue)
    {
      var keys := SelectFirst(DueRows(queue, paths, reservations, retentions, now), limit);
      leased := keys;
      leases := LeaseRows(keys, ids[..|keys|], now);
    }

    method LeaseRows(keys: seq<string>, ids: seq<string>, now: Millis)
      returns (leases: Option<seq<GarbageLease>>)
      requires AllQueued(queue, keys) && |ids| == |keys|
      requires forall k | k in keys :: LeaseFree(queue[k], now)
      modifies this`queue
      ensures Claimed(old(queue), keys, ids, now, leases, queue)
    {
      hide MarkLeased, AllQueued;
      ghost var begin := queue;
      ghost var all := Leases(begin, keys, ids);
      NothingMarked(begin, keys, ids, SatAdd(now, GC_LEASE_MS));
      RowsAreThere(begin, keys);
      var until := SatAdd(now, GC_LEASE_MS);
      var claimed: seq<GarbageLease> := [];
      var i := 0;
      assert keys[..0] == [] && ids[..0] == [];
      while i < |keys|
        invariant 0 <= i <= |keys|
        invariant AllQueued(begin, keys[..i])
        invariant queue == MarkLeased(begin, keys[..i], ids[..i], until)
        invariant forall j | i <= j < |keys| :: keys[j] in queue && queue[keys[j]] == begin[keys[j]]
        invariant claimed == all[..i]
        invariant forall j | 0 <= j < i :: all[j].attempts <= U32_MAX
      {
        OneMoreMarked(begin, keys, ids, until, i);
        var key := keys[i];
        var row := queue[key];
        assert key in keys;
        if LeaseFree(row, now) {
          queue := queue[key := row.(lease := Some(LeaseMark(ids[i], until)))];
          if row.attempts > U32_MAX {
            assert all[i].attempts > U32_MAX;
            return None;
          }
          claimed := claimed + [GarbageLease(row.gen, key, ids[i], row.attempts)];
        }
        i := i + 1;
      }
      assert keys[..i] == keys && ids[..i] == ids && all[..i] == all;
      leases := Some(claimed);
    }

    /** One transaction: reap, prune, lease, prune; an error puts every table back. */
    method ClaimGarbage(now: Millis, limit: nat, ids: seq<string>)
      returns (result: Result<GarbageClaim, Error>, ghost c: ClaimChoice)
      requires limit <= |ids| && Fresh(minted, ids)
      modifies this
      ensures ValidGcRequest(now, limit) ==> ValidChoice(old(Contents()), now, limit, c)
      ensures Outcome(Contents(), result) == Catalog.ClaimGarbage(old(Contents()), now, limit, c)
    {
      c := ClaimChoice([], [], [], [], [], []);
      if now <= 0 || limit == 0 || limit > MAX_GC_BATCH {
        return Err(Invalid), c;
      }
      result, c := ClaimInTransaction(now, limit, ids);
    }

    method ClaimInTransaction(now: Millis, limit: nat, ids: seq<string>)
      returns (result: Result<GarbageClaim, Error>, ghost c: ClaimChoice)
      requires limit <= |ids| && Fresh(minted, ids) && ValidGcRequest(now, limit)
      modifies this
      ensures ValidChoice(old(Contents()), now, limit, c)
      ensures Outcome(Contents(), result) == Catalog.ClaimGarbage(old(Contents()), now, limit, c)
    {
      hide BeforeLeasing, FirstDue, Fresh, LeaseStage, AllReserved, Elements;
      hide Catalog.ClaimGarbage, ValidChoice, DueReceipts, DuePublications;
      ghost var before := Contents();
      var begin := (reservations, queue, retentions);
      var reaped, unretained, leases;
      reaped, unretained, leases, c := ReapAndLease(now, limit, ids);
      ghost var leasedQueue := queue;
      if leases.None? {
        // The receipts are pruned last, so a rolled back claim never reaches them.
        reservations, queue, retentions := begin.0, begin.1, begin.2;
        ghost var full := CompleteChoice(before, now, c);
        ReceiptsComeLast(before, now, limit, c, full, leases, leasedQueue);
        c := full;
        ClaimStages(before, now, limit, c, leases, leasedQueue);
        return Err(Storage), c;
      }
      var receiptsGone, publicationsGone := PruneExpiredReceipts(now);
      ghost var full := c.(receipts := receiptsGone, publications := publicationsGone);
      ReceiptsComeLast(before, now, limit, c, full, leases, leasedQueue);
      c := full;
      ClaimStages(before, now, limit, c, leases, leasedQueue);
      minted := minted + Elements(c.ids);
      var report := Report(|reaped|, |leases.value|, 0, 0,
                           |receiptsGone| + |publicationsGone|, |unretained|);
      result := Ok(GarbageClaim(report, leases.value));
    }

    method ReapAndLease(now: Millis, limit: nat, ids: seq<string>)
      returns (reaped: seq<PathKey>, unretained: seq<Generation>, leases: Option<seq<GarbageLease>>,
               ghost c: ClaimChoice)
      requires limit <= |ids| && Fresh(minted, ids)
      modifies this`reservations, this`queue, this`retentions
      ensures c.reaped == reaped && c.retentions == unretained
      ensures LeaseStage(old(Contents()), now, limit, c, leases, queue)
      ensures Contents() == BeforeLeasing(old(Contents()), c).(queue := queue)
    {
      hide Reap, MarkLeased, FirstDue, Fresh, Claimed, DueRows, AllQueued, AllReserved, Elements;
      reaped := ReapExpiredReservations(now);
      unretained := PruneExpiredReadRetentions(now);
      ghost var leased;
      leases, leased := ClaimCandidates(now, limit, ids);
      FreshPrefix(minted, ids, |leased|);
      c := ClaimChoice(reaped, unretained, leased, [], [], ids[..|leased|]);
    }

    method AcknowledgeGarbage(lease: GarbageLease)
      modifies this`queue
      ensures Contents() == Acknowledge(old(Contents()), lease)
    {
      if lease.objectKey in queue {
        var mark := queue[lease.objectKey].lease;
        if mark.Some? && mark.value.token == lease.token {
          queue := queue - {lease.objectKey};
        }
      }
    }

    method FailGarbage(lease: GarbageLease, now: Millis) returns (result: Result<(), Error>)
      modifies this`queue
      ensures Outcome(Contents(), result) == Catalog.FailGarbage(old(Contents()), lease, now)
    {
      if now <= 0 {
        return Err(Invalid);
      }
      var nextAttempt := SatAdd(now, RetryDelay(lease.attempts));
      if lease.objectKey in queue {
        var row := queue[lease.objectKey];
        if row.lease.Some? && row.lease.value.token == lease.token {
          queue := queue[lease.objectKey :=
            row.(attempts := row.attempts + 1, nextAttempt := nextAttempt, lease := None)];
        }
      }
      result := Ok(());
    }

    method DrainGarbage(now: Millis, limit: nat, ids: seq<string>, stuck: set<string>)
      returns (result: Result<Report, Error>, ghost c: ClaimChoice)
      requires limit <= |ids| && Fresh(minted, ids)
      modifies this
      ensures ValidGcRequest(now, limit) ==> ValidChoice(old(Contents()), now, limit, c)
      ensures Outcome(Contents(), result) == Catalog.DrainGarbage(old(Contents()), now, limit, c, stuck)
    {
      var claim;
      claim, c := ClaimGarbage(now, limit, ids);
      if claim.Err? {
        return Err(claim.error), c;
      }
      result := SettleAll(claim.value.leases, now, stuck, claim.value.report);
    }

    method SettleAll(leases: seq<GarbageLease>, now: StoredMillis, stuck: set<string>, report: Report)
      returns (result: Result<Report, Error>)
      modifies this`queue, this`bodies
      ensures Outcome(Contents(), result) == SettleLeases(old(Contents()), leases, now, stuck, report)
    {
      hide ObjectPath, Acknowledge, FailLease;
      ghost var begin := Contents();
      var total := report;
      var i := 0;
      while i < |leases|
        invariant 0 <= i <= |leases|
        invariant SettleLeases(Contents(), leases[i..], now, stuck, total)
               == SettleLeases(begin, leases, now, stuck, report)
      {
        assert leases[i..][1..] == leases[i + 1..];
        var lease := leases[i];
        var file := ObjectPath(lease.objectKey);
        if file.None? {
          return Err(BodyMismatch);
        }
        if file.value in stuck {
          var _ := FailGarbage(lease, now);
          total := total.(failed := total.failed + 1);
        } else {
          bodies := bodies - {file.value};
          AcknowledgeGarbage(lease);
          total := total.(deleted := total.deleted + 1);
        }
        i := i + 1;
      }
      result := Ok(total);
    }
  }
}
