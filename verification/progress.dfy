/**
 Publications that succeed. In every run the holder of a live reservation who uploaded a body can
 publish it, and exactly until the reservation expires; what the tables then hold is stated row by
 row, for first and for later revisions.
 */
module Progress {
  import opened Wrappers
  import opened Keys
  import opened Catalog
  import opened Conditions
  import opened Protocol
  import opened Generations
  import opened Safety
  import opened Publications
  import opened LeaseRules
  import opened Guarantees
  import opened Bodies

  // ----- The tables after a publication -----

  /** The reference of a publication: the reservation with the body that was observed. */
  function AnswerOf(r: Reservation, o: Observation): ArtifactReference {
    ArtifactReference(r.artifactId, r.scope, r.path, r.revision, r.token,
                      Object(o.objectKey, o.generation, o.size, o.etag, o.version, o.digest))
  }

  /** The queue with the generation that a publication replaced, collectable from then on. */
  function QueueAfter(s: State, p: PathKey, now: StoredMillis): map<string, QueueRow> {
    if p in s.paths then
      var g := Generation(p.scope, s.paths[p].generation);
      s.queue[ObjectKey(g) := QueueRow(g, now, now, 0, None)]
    else s.queue
  }

  /**
   The path names the new body, the reservation is used up, the generation that was published
   before is queued, and a receipt is kept for a day; everything else is as it was.
   */
  predicate Publishes(s: State, t: State, r: Reservation, o: Observation, now: StoredMillis) {
    && t.paths == s.paths[r.Key() := PublishedRow(r.artifactId, r.revision, r.token, r.generation, o.objectKey,
                                                  o.size, o.etag, o.version, o.digest, now)]
    && t.reservations == s.reservations - {r.Key()}
    && t.queue == QueueAfter(s, r.Key(), now)
    && t.publications == s.publications[TokenKey(r.scope, r.token) :=
                           PublicationReceipt(AnswerOf(r, o), SatAdd(now, 86_400_000))]
    && t.receipts == s.receipts && t.retentions == s.retentions && t.bodies == s.bodies && t.minted == s.minted
  }

  /** No receipt answers for the token, and what the path published before is under another key and not queued. */
  predicate CanReplace(s: State, r: Reservation, o: Observation) {
    && TokenKey(r.scope, r.token) !in s.publications
    && (r.Key() in s.paths ==>
          && s.paths[r.Key()].objectKey != o.objectKey
          && ObjectKey(Generation(r.scope, s.paths[r.Key()].generation)) !in s.queue)
  }

  predicate IsSound(r: Reservation, o: Observation) {
    && ValidText(r.token) && ValidText(r.generation) && r.revision <= I64_MAX
    && o.BodyRef().Valid() && o.generation == r.generation && o.size <= I64_MAX
  }

  lemma CommitSucceedsIff(s: State, r: Reservation, o: Observation, now: StoredMillis)
    requires Holds(s, r) && IsSound(r, o) && CanReplace(s, r, o)
    ensures var done := CommitPublication(s, r, o, now);
            if now < r.expiresAt then done.result == Ok(AnswerOf(r, o)) && Publishes(s, done.state, r, o, now)
            else done == Outcome(s, Err(ReservationExpired))
  {
    hide LiveError, ValidText, SatAdd, ObjectKey, Replace;
    IsLiveIff(s, r, now);
    if now < r.expiresAt {
      ReplaceWrites(s, r, o, now);
    }
  }

  lemma ReplaceWrites(s: State, r: Reservation, o: Observation, now: StoredMillis)
    requires Holds(s, r) && o.generation == r.generation && CanReplace(s, r, o) && SatAdd(now, RECEIPT_RETENTION_MS) > 0
    ensures Publishes(s, Replace(s, r, o, now), r, o, now)
  {
    hide SatAdd, ObjectKey;
  }

  // ----- What runs provide -----

  lemma HeldIsReserved(w: World, r: Reservation)
    requires GenInv(w) && Holds(w.store, r)
    ensures IsReserved(w, r.Gen()) && PlacesOf(w, r.Gen()) == RESERVED && IsId(r.generation)
    ensures ObjectKey(r.Gen()) !in w.store.queue
  {
    hide GenInv, ObjectKey, IsId;
    CommittedIsReserved(w, r.Key(), r);
    assert !IsQueued(w, r.Gen());
  }

  lemma ReceiptIsLogged(w: World, k: TokenKey)
    requires PubInv(w) && k in w.store.publications
    ensures var ref := w.store.publications[k].reference; ref.token == k.token && Logged(w.past.log, ref)
  {
    hide TokenInv, ChainInv, OwnerInv, LocalInv, Logged;
    assert Answers(w, k, w.store.publications[k].reference);
  }

  lemma LoggedIsNotHeld(w: World, ref: ArtifactReference, p: PathKey)
    requires PubInv(w) && Logged(w.past.log, ref) && p in w.store.reservations
    ensures ref.token != w.store.reservations[p].token
  {
    hide ChainInv, OwnerInv, LocalInv, ReceiptInv, LogEntry, Granted;
    var i :| 0 <= i < |w.past.log| && w.past.log[i].reference == ref;
  }

  lemma HeldHasNoReceipt(w: World, r: Reservation)
    requires PubInv(w) && Holds(w.store, r)
    ensures TokenKey(r.scope, r.token) !in w.store.publications
  {
    hide PubInv, Logged;
    var k := TokenKey(r.scope, r.token);
    if k in w.store.publications {
      ReceiptIsLogged(w, k);
      LoggedIsNotHeld(w, w.store.publications[k].reference, r.Key());
    }
  }

  lemma PublishedIsNotQueued(w: World, p: PathKey)
    requires GenInv(w) && p in w.store.paths
    ensures ObjectKey(Generation(p.scope, w.store.paths[p].generation)) !in w.store.queue
  {
    hide ObjectKey, IsId, LeasedAreGarbage;
    var g := PublishedGen(p, w.store.paths[p]);
    assert IsPublished(w, g) && IsPhase(PlacesOf(w, g)) && !IsQueued(w, g);
  }

  lemma HeldCanReplace(w: World, sha: Sha, r: Reservation, o: Observation, prefix: string)
    requires Inv(w, sha) && PubInv(w) && Holds(w.store, r) && o.objectKey == PrefixedKey(prefix, r.Gen())
    ensures CanReplace(w.store, r, o)
  {
    hide GenInv, StoredInv, CheckInv, PathInv, PubInv, ObjectKey, PrefixedKey;
    HeldHasNoReceipt(w, r);
    if r.Key() in w.store.paths {
      PublishedIsNotQueued(w, r.Key());
      PathHasOtherKey(w, sha, r, prefix);
    }
  }

  lemma PathHasOtherKey(w: World, sha: Sha, r: Reservation, prefix: string)
    requires Inv(w, sha) && Holds(w.store, r) && r.Key() in w.store.paths
    ensures w.store.paths[r.Key()].objectKey != PrefixedKey(prefix, r.Gen())
  {
    hide GenInv, CheckInv, PlacesOf, ObjectKey, PrefixedKey, IsId;
    var p, key := r.Key(), PrefixedKey(prefix, r.Gen());
    HeldIsReserved(w, r);
    if w.store.paths[p].objectKey == key {
      assert PathEntry(w, sha, p) && StoredEntry(w, key);
      StoredNames(w, key, prefix, r.Gen());
      OtherKeyThan(w, sha, p, r.Gen(), key);
    }
  }

  // ----- Publishing what was uploaded -----

  /** The bytes of an upload are in place for as long as its reservation is held. */
  lemma UploadedIsInPlace(
    sha: Sha, ws: seq<World>, es: seq<Event>, i: nat, j: nat, r: Reservation, bytes: Bytes, at: Millis)
    requires Run(sha, ws, es) && i < j <= |es| && |ws| == |es| + 1 && es[i] == UploadEvent(r, bytes, at)
    requires Upload(ws[i].store, sha, r, bytes, at).result.Ok? && Holds(ws[j].store, r)
    ensures var s, file := ws[j].store, ObjectKey(r.Gen());
            && ObjectPath(file) == Some(file)
            && file in s.bodies && |s.bodies[file]| == |bytes| && sha(s.bodies[file]) == sha(bytes)
  {
    hide Run, Step, GenInv, StoredInv, CheckInv, PathInv, PubInv, TokensInv, Upload, ObjectPath, ObjectKey, IsId, PlacesOf;
    RunInvariant(sha, ws, es, j);
    HeldIsReserved(ws[j], r);
    RunStep(sha, ws, es, i);
    UploadedNow(ws[i], sha, r, bytes, at, ws[i + 1]);
    ReachableBodiesSurvive(sha, ws, es, i + 1, j, "", r.Gen());
  }

  lemma UploadedNow(w: World, sha: Sha, r: Reservation, bytes: Bytes, at: Millis, v: World)
    requires Step(w, sha, UploadEvent(r, bytes, at), v) && Upload(w.store, sha, r, bytes, at).result.Ok?
    requires IsId(r.generation)
    ensures var s, file := v.store, ObjectKey(r.Gen());
            && ObjectPath(file) == Some(file)
            && file in s.bodies && |s.bodies[file]| == |bytes| && sha(s.bodies[file]) == sha(bytes)
  {
    hide Upload, ObjectPath, ObjectKey, IsId;
    UploadSucceedsIff(w.store, sha, r, bytes, at);
    UploadStores(w.store, sha, r, bytes, at);
    LocalKeyResolves(r.Gen());
  }

  lemma UploadIsSound(s: State, sha: Sha, r: Reservation, bytes: Bytes, at: Millis)
    requires Upload(s, sha, r, bytes, at).result.Ok? && IsId(r.generation)
    ensures IsSound(r, Upload(s, sha, r, bytes, at).result.value)
  {
    hide Upload, ObjectPath, ObjectKey, ValidText, IsId;
    UploadSucceedsIff(s, sha, r, bytes, at);
    UploadStores(s, sha, r, bytes, at);
    KeyIsText(r.Gen());
    DigestIsText(sha(bytes));
  }

  /**
   In every run, however long after the upload and whatever others did in between: as long as the
   reservation table still has the reservation, publishing what its upload observed succeeds
   exactly until it expires, with the reservation's own artifact id, revision and token.
   */
  lemma UploadedIsPublished(
    sha: Sha, ws: seq<World>, es: seq<Event>, i: nat, j: nat, r: Reservation, bytes: Bytes, at: Millis, now: StoredMillis)
    requires Run(sha, ws, es) && i < j <= |es| && |ws| == |es| + 1 && es[i] == UploadEvent(r, bytes, at)
    requires Upload(ws[i].store, sha, r, bytes, at).result.Ok? && Holds(ws[j].store, r)
    ensures var s, o := ws[j].store, Upload(ws[i].store, sha, r, bytes, at).result.value;
            var done := Publish(s, sha, r, o, now);
            if now < r.expiresAt then done.result == Ok(AnswerOf(r, o)) && Publishes(s, done.state, r, o, now)
            else done == Outcome(s, Err(ReservationExpired))
  {
    hide Run, GenInv, StoredInv, CheckInv, PathInv, PubInv, TokensInv, Upload, ObjectPath, ObjectKey, IsId, ValidText;
    hide Publishes, CanReplace, Holds, CommitPublication, PlacesOf;
    var s, o := ws[j].store, Upload(ws[i].store, sha, r, bytes, at).result.value;
    RunInvariant(sha, ws, es, j);
    HeldIsReserved(ws[j], r);
    UploadedIsInPlace(sha, ws, es, i, j, r, bytes, at);
    UploadIsSound(ws[i].store, sha, r, bytes, at);
    UploadStores(ws[i].store, sha, r, bytes, at);
    UploadSucceedsIff(ws[i].store, sha, r, bytes, at);
    HeldCanReplace(ws[j], sha, r, o, "");
    CommitSucceedsIff(s, r, o, now);
    HeldHasNoReceipt(ws[j], r);
    PublishCommits(s, sha, r, o, now);
  }

  /** Nothing stands between a sound local observation and its commit. */
  lemma PublishCommits(s: State, sha: Sha, r: Reservation, o: Observation, now: Millis)
    requires Holds(s, r) && IsSound(r, o) && TokenKey(r.scope, r.token) !in s.publications
    requires o.objectKey == ObjectKey(r.Gen()) && o.digest.Some? && o.etag == o.digest.value
    requires ObjectPath(o.objectKey) == Some(o.objectKey)
    requires o.objectKey in s.bodies && |s.bodies[o.objectKey]| == o.size && sha(s.bodies[o.objectKey]) == o.digest.value
    ensures Publish(s, sha, r, o, now) == CommitPublication(s, r, o, now)
  {
    hide ObjectPath, ObjectKey, ValidText, CommitPublication;
  }

  /** The same for an observation of the provider's object, which no file has to confirm. */
  lemma ObservedIsPublished(
    sha: Sha, ws: seq<World>, es: seq<Event>, j: nat, r: Reservation, o: Observation, prefix: string, now: StoredMillis)
    requires Run(sha, ws, es) && j <= |es| && |ws| == |es| + 1 && Holds(ws[j].store, r)
    requires IsSound(r, o) && o.objectKey == PrefixedKey(prefix, r.Gen())
    ensures var s := ws[j].store;
            var done := PublishTrusted(s, r, o, now);
            if now < r.expiresAt then done.result == Ok(AnswerOf(r, o)) && Publishes(s, done.state, r, o, now)
            else done == Outcome(s, Err(ReservationExpired))
  {
    hide Run, GenInv, StoredInv, CheckInv, PathInv, PubInv, TokensInv, ObjectKey, PrefixedKey, ValidText;
    hide Publishes, CanReplace, CommitPublication;
    RunInvariant(sha, ws, es, j);
    HeldCanReplace(ws[j], sha, r, o, prefix);
    CommitSucceedsIff(ws[j].store, r, o, now);
    HeldHasNoReceipt(ws[j], r);
  }

  // ----- Every publication -----

  /** The observation is of the reserved generation, with its digest for an etag. */
  predicate IsOwn(r: Reservation, o: Observation) {
    && ValidText(r.token) && ValidText(r.generation) && r.expiresAt > 0
    && o.generation == r.generation && o.objectKey == ObjectKey(r.Gen()) && o.digest.Some? && o.etag == o.digest.value
  }

  predicate IsCurrentAs(s: State, r: Reservation, o: Observation) {
    r.Key() in s.paths && RowReference(r.Key(), s.paths[r.Key()]) == AnswerOf(r, o)
  }

  /** What a transaction asks for: the reservation is live, or it was published so and still is. */
  predicate IsDue(s: State, r: Reservation, o: Observation, now: Millis) {
    && o.BodyRef().Valid() && r.revision <= I64_MAX
    && (IsCurrentAs(s, r, o) || (Holds(s, r) && now < r.expiresAt && o.size <= I64_MAX))
  }

  lemma CurrentIsNotFound(w: World, r: Reservation, o: Observation, now: Millis)
    requires PubInv(w) && IsCurrentAs(w.store, r, o) && r.revision <= I64_MAX
    ensures LiveError(w.store, r, now) == Some(NotFound)
  {
    hide PathLog, TokenInv, OwnerInv, ReceiptInv, LocalInv, WellChained;
    assert ChainEntry(w, r.Key());
    assert WellChained(PathLog(w.past.log, r.Key()));
    LastRevision(PathLog(w.past.log, r.Key()));
  }

  lemma LastRevision(chain: seq<Publication>)
    requires WellChained(chain) && chain != []
    ensures chain[|chain| - 1].reference.revision == |chain|
  {
  }

  lemma CommitIff(w: World, sha: Sha, r: Reservation, o: Observation, prefix: string, now: StoredMillis)
    requires Inv(w, sha) && PubInv(w) && TokenKey(r.scope, r.token) !in w.store.publications
    requires ValidText(r.token) && ValidText(r.generation)
    requires o.generation == r.generation && o.objectKey == PrefixedKey(prefix, r.Gen())
    ensures var done := CommitPublication(w.store, r, o, now);
            && (done.result.Ok? <==> IsDue(w.store, r, o, now))
            && (done.result.Ok? ==> done.result.value == AnswerOf(r, o)) && (done.result.Err? ==> done.state == w.store)
  {
    hide Inv, PubInv, LiveError, PrefixedKey, Holds, Publishes, CanReplace, ValidText;
    var s := w.store;
    if o.BodyRef().Valid() && r.revision <= I64_MAX {
      if IsCurrentAs(s, r, o) {
        CurrentIsNotFound(w, r, o, now);
      } else {
        IsLiveIff(s, r, now);
        if Holds(s, r) && o.size <= I64_MAX {
          HeldCanReplace(w, sha, r, o, prefix);
          CommitSucceedsIff(s, r, o, now);
        }
      }
    } else {
      IsLiveIff(s, r, now);
    }
  }

  /** The file of the observation is there, with its size and digest. */
  predicate HasFile(s: State, sha: Sha, o: Observation) {
    var file := ObjectPath(o.objectKey);
    && o.digest.Some? && file.Some? && file.value in s.bodies
    && |s.bodies[file.value]| == o.size && sha(s.bodies[file.value]) == o.digest.value
  }

  /** The receipt of the token, if there is one, is of this very publication. */
  predicate IsAnswered(s: State, r: Reservation, o: Observation) {
    var k := TokenKey(r.scope, r.token);
    k in s.publications && s.publications[k].reference == AnswerOf(r, o)
  }

  lemma ReceiptAnswers(s: State, r: Reservation, o: Observation)
    requires TokenKey(r.scope, r.token) in s.publications
    ensures ReplayPublication(s, r, o) == Some(if IsAnswered(s, r, o) then Ok(AnswerOf(r, o)) else Err(BodyMismatch))
  {
  }

  lemma PreparedIff(s: State, sha: Sha, r: Reservation, o: Observation, now: Millis)
    ensures TokenKey(r.scope, r.token) in s.publications ==>
              Publish(s, sha, r, o, now) ==
              Outcome(s, if !r.Valid() then Err(Invalid)
                         else if IsOwn(r, o) && IsAnswered(s, r, o) then Ok(AnswerOf(r, o)) else Err(BodyMismatch))
    ensures TokenKey(r.scope, r.token) !in s.publications ==>
              if IsOwn(r, o) && HasFile(s, sha, o) then Publish(s, sha, r, o, now) == CommitPublication(s, r, o, now)
              else Publish(s, sha, r, o, now).result.Err? && Publish(s, sha, r, o, now).state == s
  {
    hide ObjectPath, ObjectKey, ValidText, CommitPublication, ReplayPublication, IsAnswered;
    if TokenKey(r.scope, r.token) in s.publications {
      ReceiptAnswers(s, r, o);
    } else {
      assert ReplayPublication(s, r, o).None? by { NoReceiptNoAnswer(s, r, o); }
    }
  }

  lemma NoReceiptNoAnswer(s: State, r: Reservation, o: Observation)
    requires TokenKey(r.scope, r.token) !in s.publications
    ensures ReplayPublication(s, r, o).None?
  {
  }

  /**
   In every run a publication of the reserved generation succeeds exactly in these cases: its
   receipt is kept and says the same; or there is no receipt, the file agrees, and the reservation
   is live or the path still has this publication. Any other changes nothing.
   */
  lemma PublishSucceedsIff(
    sha: Sha, ws: seq<World>, es: seq<Event>, j: nat, r: Reservation, o: Observation, now: StoredMillis)
    requires Run(sha, ws, es) && j <= |es| && |ws| == |es| + 1
    ensures var s, done := ws[j].store, Publish(ws[j].store, sha, r, o, now);
            && (done.result.Ok? <==>
                  IsOwn(r, o) && if TokenKey(r.scope, r.token) in s.publications then IsAnswered(s, r, o)
                                 else HasFile(s, sha, o) && IsDue(s, r, o, now))
            && (done.result.Ok? ==> done.result.value == AnswerOf(r, o)) && (done.result.Err? ==> done.state == s)
  {
    hide Run, Inv, PubInv, TokensInv, CommitPublication, Publish, HasFile, IsDue, IsAnswered, ObjectKey, ValidText;
    RunInvariant(sha, ws, es, j);
    var s := ws[j].store;
    PreparedIff(s, sha, r, o, now);
    if IsOwn(r, o) && TokenKey(r.scope, r.token) !in s.publications {
      CommitIff(ws[j], sha, r, o, "", now);
    }
  }

  lemma TrustedIff(s: State, r: Reservation, o: Observation, now: Millis)
    ensures var done := PublishTrusted(s, r, o, now);
            if !r.Valid() || !o.BodyRef().Valid() || o.generation != r.generation then done.result.Err? && done.state == s
            else if TokenKey(r.scope, r.token) in s.publications then
              done == Outcome(s, if IsAnswered(s, r, o) then Ok(AnswerOf(r, o)) else Err(BodyMismatch))
            else done == CommitPublication(s, r, o, now)
  {
    hide ValidText, CommitPublication, ReplayPublication, IsAnswered;
    if TokenKey(r.scope, r.token) in s.publications {
      ReceiptAnswers(s, r, o);
    } else {
      NoReceiptNoAnswer(s, r, o);
    }
  }

  /** The same for what the provider observed at the key of the reservation, with no file to look at. */
  lemma TrustedSucceedsIff(
    sha: Sha, ws: seq<World>, es: seq<Event>, j: nat, r: Reservation, o: Observation, prefix: string, now: StoredMillis)
    requires Run(sha, ws, es) && j <= |es| && |ws| == |es| + 1 && o.objectKey == PrefixedKey(prefix, r.Gen())
    ensures var s, done := ws[j].store, PublishTrusted(ws[j].store, r, o, now);
            && (done.result.Ok? <==>
                  && ValidText(r.token) && ValidText(r.generation) && r.expiresAt > 0
                  && o.BodyRef().Valid() && o.generation == r.generation
                  && if TokenKey(r.scope, r.token) in s.publications then IsAnswered(s, r, o) else IsDue(s, r, o, now))
            && (done.result.Ok? ==> done.result.value == AnswerOf(r, o)) && (done.result.Err? ==> done.state == s)
  {
    hide Run, Inv, PubInv, TokensInv, CommitPublication, PublishTrusted, IsDue, IsAnswered, PrefixedKey, ValidText;
    RunInvariant(sha, ws, es, j);
    TrustedIff(ws[j].store, r, o, now);
    if r.Valid() && o.generation == r.generation && TokenKey(r.scope, r.token) !in ws[j].store.publications {
      CommitIff(ws[j], sha, r, o, prefix, now);
    }
  }

  // ----- Aborting -----

  /**
   Aborting succeeds exactly for a reservation that its table has, expired or not; it then leaves
   the table, and its generation may be collected a minute after its expiry.
   */
  lemma AbortSucceedsIff(sha: Sha, ws: seq<World>, es: seq<Event>, j: nat, r: Reservation)
    requires Run(sha, ws, es) && j <= |es| && |ws| == |es| + 1
    ensures var s, done := ws[j].store, Abort(ws[j].store, r);
            && (done.result.Ok? <==> Holds(s, r) && r.revision <= I64_MAX)
            && (done.result.Err? ==> done.state == s)
            && (done.result.Ok? ==>
                  var at := SatAdd(r.expiresAt, 60_000);
                  at > 0 && done.state == s.(reservations := s.reservations - {r.Key()},
                                             queue := s.queue[ObjectKey(r.Gen()) := QueueRow(r.Gen(), at, at, 0, None)]))
  {
    hide Run, GenInv, StoredInv, CheckInv, PathInv, PubInv, TokensInv, ObjectKey, PlacesOf, IsId, SatAdd;
    RunInvariant(sha, ws, es, j);
    if Holds(ws[j].store, r) {
      HeldIsReserved(ws[j], r);
    }
  }
}
