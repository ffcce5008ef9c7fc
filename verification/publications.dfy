/**
 Reservations, publications and their receipts over whole runs: no update is lost, no
 mutation token is published twice, and a token that stops being live stays dead.
 */
module Publications {
  import opened Wrappers
  import opened Keys
  import opened Catalog
  import opened Protocol
  import opened Generations
  import opened Safety

  // ----- Tokens -----

  predicate Matches(r: Reservation, ref: ArtifactReference) {
    && ref.artifactId == r.artifactId && ref.scope == r.scope && ref.path == r.path
    && ref.revision == r.revision && ref.token == r.token
    && ref.body.Object? && ref.body.generation == r.generation
  }

  predicate Granted(w: World, p: PathKey, row: ReservationRow) {
    row.token in w.past.grants && w.past.grants[row.token].reservation == RowReservation(p, row)
  }

  predicate LogEntry(w: World, entry: Publication) {
    var token := entry.reference.token;
    && token in w.past.grants
    && Matches(w.past.grants[token].reservation, entry.reference)
    && entry.replaced == w.past.grants[token].expected
  }

  predicate TokenInv(w: World) {
    var s, h := w.store, w.past;
    && (forall p | p in s.reservations :: Granted(w, p, s.reservations[p]))
    && (forall t | t in h.grants :: t in s.minted && h.grants[t].reservation.token == t)
    && (forall i | 0 <= i < |h.log| :: LogEntry(w, h.log[i]))
    && (forall i, j | 0 <= i < j < |h.log| :: h.log[i].reference.token != h.log[j].reference.token)
    && (forall p, i | p in s.reservations && 0 <= i < |h.log| ::
          h.log[i].reference.token != s.reservations[p].token)
  }

  // ----- The publications of one path -----

  function PathLog(log: seq<Publication>, p: PathKey): seq<Publication> {
    if log == [] then []
    else
      var n := |log| - 1;
      if log[n].reference.Key() == p then PathLog(log[..n], p) + [log[n]] else PathLog(log[..n], p)
  }

  function LastToken(chain: seq<Publication>): Option<string> {
    if chain == [] then None else Some(chain[|chain| - 1].reference.token)
  }

  /** Revisions count up from one, the artifact id never changes, each entry replaces the one before. */
  predicate WellChained(chain: seq<Publication>) {
    forall i | 0 <= i < |chain| ::
      && chain[i].reference.revision == i + 1
      && chain[i].reference.artifactId == chain[0].reference.artifactId
      && chain[i].replaced == LastToken(chain[..i])
  }

  predicate ChainEntry(w: World, p: PathKey) {
    var s, chain := w.store, PathLog(w.past.log, p);
    && WellChained(chain)
    && (p in s.paths <==> chain != [])
    && (p in s.paths ==> RowReference(p, s.paths[p]) == chain[|chain| - 1].reference)
    && (p in s.reservations ==>
          && s.reservations[p].revision == |chain| + 1
          && (chain != [] ==> s.reservations[p].artifactId == chain[0].reference.artifactId)
          && s.reservations[p].token in w.past.grants
          && w.past.grants[s.reservations[p].token].expected == LastToken(chain))
  }

  ghost predicate ChainInv(w: World) {
    forall p :: ChainEntry(w, p)
  }

  /** An artifact id belongs to the one path it was minted for. */
  predicate OwnerInv(w: World) {
    var s, h := w.store, w.past;
    && (forall a | a in h.owner :: a in s.minted)
    && (forall p | p in s.paths :: s.paths[p].artifactId in h.owner && h.owner[s.paths[p].artifactId] == p)
    && (forall p | p in s.reservations ::
          s.reservations[p].artifactId in h.owner && h.owner[s.reservations[p].artifactId] == p)
  }

  // ----- Receipts -----

  predicate Logged(log: seq<Publication>, ref: ArtifactReference) {
    exists i | 0 <= i < |log| :: log[i].reference == ref
  }

  predicate Remembers(w: World, k: RequestKey, receipt: ReservationReceipt) {
    && receipt.row.token in w.past.grants
    && w.past.grants[receipt.row.token] ==
         GrantRecord(RowReservation(PathKey(k.scope, receipt.path), receipt.row), receipt.expected)
  }

  predicate ReceiptInv(w: World) {
    var s, h := w.store, w.past;
    && (forall k | k in s.receipts :: Remembers(w, k, s.receipts[k]))
    && (forall k | k in s.publications :: Answers(w, k, s.publications[k].reference))
  }

  predicate Answers(w: World, k: TokenKey, ref: ArtifactReference) {
    k == TokenKey(ref.scope, ref.token) && Logged(w.past.log, ref)
  }

  /** What `publish` checks about a reference before it commits it. */
  predicate LocalReference(ref: ArtifactReference) {
    && ref.Valid() && ref.body.Object? && ref.body.digest.Some?
    && ref.body.etag == ref.body.digest.value
    && ref.body.objectKey == ObjectKey(Generation(ref.scope, ref.body.generation))
    && !IsDotScope(ref.scope)
  }

  predicate LocalEntry(entry: Publication) {
    entry.local ==> LocalReference(entry.reference)
  }

  predicate LocalInv(w: World) {
    forall i | 0 <= i < |w.past.log| :: LocalEntry(w.past.log[i])
  }

  ghost predicate PubInv(w: World) {
    TokenInv(w) && ChainInv(w) && OwnerInv(w) && ReceiptInv(w) && LocalInv(w)
  }

  // ----- Steps that grant and publish nothing -----

  predicate Within<K, V(==)>(small: map<K, V>, big: map<K, V>) {
    forall k | k in small :: k in big && small[k] == big[k]
  }

  predicate Quiet(w: World, v: World) {
    && v.store.paths == w.store.paths
    && Within(v.store.reservations, w.store.reservations)
    && Within(v.store.receipts, w.store.receipts)
    && Within(v.store.publications, w.store.publications)
    && w.store.minted <= v.store.minted
    && v.past.log == w.past.log && v.past.grants == w.past.grants && v.past.owner == w.past.owner
  }

  lemma QuietKeeps(w: World, v: World)
    requires PubInv(w) && Quiet(w, v)
    ensures PubInv(v)
  {
    QuietTokens(w, v);
    QuietChains(w, v);
    assert OwnerInv(v) && ReceiptInv(v);
  }

  lemma QuietTokens(w: World, v: World)
    requires TokenInv(w) && Quiet(w, v)
    ensures TokenInv(v)
  {
    forall i | 0 <= i < |v.past.log| ensures LogEntry(v, v.past.log[i]) {
      assert LogEntry(w, w.past.log[i]);
    }
    forall p | p in v.store.reservations ensures Granted(v, p, v.store.reservations[p]) {
      assert Granted(w, p, w.store.reservations[p]);
    }
  }

  lemma QuietChains(w: World, v: World)
    requires ChainInv(w) && Quiet(w, v)
    ensures ChainInv(v)
  {
    forall p ensures ChainEntry(v, p) {
      assert ChainEntry(w, p);
    }
  }

  // ----- Granting a reservation -----

  /** `row` is what a grant puts on the path of `req` when no reservation is in the way. */
  predicate GrantFits(w: World, req: ReserveRequest, row: ReservationRow, ids: ReserveIds) {
    var p, s := req.Key(), w.store;
    && p !in s.reservations
    && row.token == ids.token && row.token !in s.minted && ids.artifact !in s.minted
    && (if p in s.paths
        then row.artifactId == s.paths[p].artifactId && row.revision == s.paths[p].revision + 1
             && req.expected == Some(s.paths[p].token)
        else row.artifactId == ids.artifact && row.revision == 1 && req.expected == None)
  }

  function GrantWorld(w: World, req: ReserveRequest, row: ReservationRow, ids: ReserveIds): World {
    InstallWorld(w, req, row, ids, req.Key() !in w.store.paths)
  }

  lemma InstallKeepsTokens(w: World, req: ReserveRequest, row: ReservationRow, ids: ReserveIds)
    requires TokenInv(w) && GrantFits(w, req, row, ids)
    ensures TokenInv(GrantWorld(w, req, row, ids))
  {
    var v, p := GrantWorld(w, req, row, ids), req.Key();
    forall i | 0 <= i < |v.past.log| ensures LogEntry(v, v.past.log[i]) {
      assert LogEntry(w, w.past.log[i]);
    }
    forall q | q in v.store.reservations ensures Granted(v, q, v.store.reservations[q]) {
      if q != p {
        assert Granted(w, q, w.store.reservations[q]);
      }
    }
  }

  lemma InstallKeepsChains(w: World, req: ReserveRequest, row: ReservationRow, ids: ReserveIds)
    requires TokenInv(w) && ChainInv(w) && GrantFits(w, req, row, ids)
    ensures ChainInv(GrantWorld(w, req, row, ids))
  {
    var v, p := GrantWorld(w, req, row, ids), req.Key();
    forall q ensures ChainEntry(v, q) {
      assert ChainEntry(w, q);
      if q != p && q in w.store.reservations {
        assert Granted(w, q, w.store.reservations[q]);
      }
    }
  }

  lemma InstallKeepsOwners(w: World, req: ReserveRequest, row: ReservationRow, ids: ReserveIds)
    requires OwnerInv(w) && ReceiptInv(w) && TokenInv(w) && GrantFits(w, req, row, ids)
    ensures var v := GrantWorld(w, req, row, ids); OwnerInv(v) && ReceiptInv(v)
  {
  }

  lemma InstallKeepsPub(w: World, req: ReserveRequest, row: ReservationRow, ids: ReserveIds)
    requires PubInv(w) && GrantFits(w, req, row, ids)
    ensures PubInv(GrantWorld(w, req, row, ids))
  {
    InstallKeepsTokens(w, req, row, ids);
    InstallKeepsChains(w, req, row, ids);
    InstallKeepsOwners(w, req, row, ids);
  }

  // ----- Committing a publication -----

  lemma PathLogAppend(log: seq<Publication>, entry: Publication, p: PathKey)
    ensures PathLog(log + [entry], p) ==
            if entry.reference.Key() == p then PathLog(log, p) + [entry] else PathLog(log, p)
  {
    assert (log + [entry])[..|log|] == log;
  }

  lemma ChainAppend(chain: seq<Publication>, entry: Publication)
    requires WellChained(chain)
    requires entry.reference.revision == |chain| + 1 && entry.replaced == LastToken(chain)
    requires chain != [] ==> entry.reference.artifactId == chain[0].reference.artifactId
    ensures WellChained(chain + [entry])
  {
    var longer := chain + [entry];
    assert longer[..|chain|] == chain;
    forall i | 0 <= i < |longer|
      ensures && longer[i].reference.revision == i + 1
              && longer[i].reference.artifactId == longer[0].reference.artifactId
              && longer[i].replaced == LastToken(longer[..i])
    {
      if i < |chain| {
        assert longer[..i] == chain[..i];
      }
    }
  }

  /** The reservation `r` is in the table and everything `CommitWorld` needs holds. */
  predicate CommitReady(w: World, r: Reservation, o: Observation, now: Millis, local: bool) {
    && ReplaceFits(w, r, o, now, RecordCommit(w.past, w.store, r, o, now, local))
    && RowReference(r.Key(), NewPublishedRow(r, o, now)).Valid()
    && (local ==> LocalObservation(r, o))
  }

  lemma CommitKeepsTokens(w: World, r: Reservation, o: Observation, now: Millis, local: bool)
    requires TokenInv(w) && ChainEntry(w, r.Key()) && CommitReady(w, r, o, now, local)
    ensures TokenInv(CommitWorld(w, r, o, now, local))
  {
    hide PathLog, Enqueue, ValidText, LocalObservation;
    var v, p := CommitWorld(w, r, o, now, local), r.Key();
    assert Granted(w, p, w.store.reservations[p]);
    forall i | 0 <= i < |v.past.log| ensures LogEntry(v, v.past.log[i]) {
      if i < |w.past.log| {
        assert LogEntry(w, w.past.log[i]);
      }
    }
    forall q | q in v.store.reservations
      ensures Granted(v, q, v.store.reservations[q]) && v.store.reservations[q].token != r.token
    {
      assert Granted(w, q, w.store.reservations[q]);
    }
  }

  lemma CommitKeepsChain(w: World, r: Reservation, o: Observation, now: Millis, local: bool, q: PathKey)
    requires TokenInv(w) && ChainEntry(w, r.Key()) && ChainEntry(w, q) && CommitReady(w, r, o, now, local)
    ensures ChainEntry(CommitWorld(w, r, o, now, local), q)
  {
    hide Enqueue, ValidText, LocalObservation;
    hide PathLog;
    var v, p := CommitWorld(w, r, o, now, local), r.Key();
    var entry := v.past.log[|w.past.log|];
    PathLogAppend(w.past.log, entry, q);
    assert Granted(w, p, w.store.reservations[p]);
    if q == p {
      ChainAppend(PathLog(w.past.log, p), entry);
    }
  }

  lemma CommitKeepsReceipts(w: World, r: Reservation, o: Observation, now: Millis, local: bool)
    requires OwnerInv(w) && ReceiptInv(w) && LocalInv(w) && CommitReady(w, r, o, now, local)
    ensures var v := CommitWorld(w, r, o, now, local); OwnerInv(v) && ReceiptInv(v) && LocalInv(v)
  {
    hide Enqueue, ValidText;
    var v, p := CommitWorld(w, r, o, now, local), r.Key();
    var n := |w.past.log|;
    assert v.past.log[n].reference == RowReference(p, NewPublishedRow(r, o, now));
    assert OwnerInv(v) by {
      assert w.store.reservations[p].artifactId == r.artifactId;
    }
    forall k | k in v.store.publications ensures Answers(v, k, v.store.publications[k].reference) {
      if k == TokenKey(r.scope, r.token) {
        assert v.store.publications[k].reference == v.past.log[n].reference;
      } else {
        assert Answers(w, k, w.store.publications[k].reference);
        var i :| 0 <= i < n && w.past.log[i].reference == w.store.publications[k].reference;
        assert v.past.log[i] == w.past.log[i];
      }
    }
    forall i | 0 <= i < |v.past.log| ensures LocalEntry(v.past.log[i]) {
      if i < n {
        assert LocalEntry(w.past.log[i]);
      }
    }
  }

  lemma CommitKeepsPub(w: World, r: Reservation, o: Observation, now: Millis, local: bool)
    requires PubInv(w) && CommitReady(w, r, o, now, local)
    ensures PubInv(CommitWorld(w, r, o, now, local))
  {
    assert ChainEntry(w, r.Key());
    hide TokenInv, OwnerInv, ReceiptInv, LocalInv, CommitReady, ChainEntry;
    CommitKeepsTokens(w, r, o, now, local);
    CommitKeepsReceipts(w, r, o, now, local);
    forall q ensures ChainEntry(CommitWorld(w, r, o, now, local), q) {
      CommitKeepsChain(w, r, o, now, local, q);
    }
  }

  lemma CommitIsReady(w: World, sha: Sha, r: Reservation, o: Observation, now: Millis, local: bool)
    requires Inv(w, sha) && Check(r, o, local) in w.past.checked && Commits(w.store, r, o, now)
    ensures CommitReady(w, r, o, now, local)
  {
    hide Inv, Commits, CommitPublication, ReplaceFits, LocalObservation, PlacesOf, ValidText;
    CommitFits(w, sha, r, o, now, local);
    CommitEffect(w.store, r, o, now);
  }

  // ----- Every event keeps the publications in order -----

  /** The world in which a granted request finds its path: an expired reservation is retired first. */
  function Cleared(w: World, p: PathKey): World {
    if p in w.store.reservations then RetireWorld(w, p) else w
  }

  lemma ClearedIsQuiet(w: World, p: PathKey)
    ensures Quiet(w, Cleared(w, p)) && p !in Cleared(w, p).store.reservations
    ensures Cleared(w, p).store.minted == w.store.minted && Cleared(w, p).store.receipts == w.store.receipts
  {
    hide Enqueue;
  }

  lemma GrantIs(w: World, sha: Sha, req: ReserveRequest, ids: ReserveIds)
    requires Enabled(w, sha, ReserveEvent(req, ids)) && DecideReserve(w.store, req).Grant?
    ensures GrantFits(Cleared(w, req.Key()), req, NewReservationRow(w.store, req, ids), ids)
    ensures RequestKey(req.scope, req.requestId) !in w.store.receipts
    ensures ApplyEvent(w, sha, ReserveEvent(req, ids)) ==
            GrantWorld(Cleared(w, req.Key()), req, NewReservationRow(w.store, req, ids), ids)
  {
    hide Fresh, GrantFits, NewReservationRow, Enqueue, ValidRequestId;
    ClearedIsQuiet(w, req.Key());
    GrantIsFit(w, Cleared(w, req.Key()), req, ids);
  }

  lemma ReserveKeepsPub(w: World, sha: Sha, req: ReserveRequest, ids: ReserveIds)
    requires PubInv(w) && Enabled(w, sha, ReserveEvent(req, ids)) && DecideReserve(w.store, req).Grant?
    ensures PubInv(ApplyEvent(w, sha, ReserveEvent(req, ids)))
  {
    hide PubInv, Quiet, DecideReserve, Enabled, ApplyEvent, GrantFits, NewReservationRow, Cleared, GrantWorld;
    var u := Cleared(w, req.Key());
    ClearedIsQuiet(w, req.Key());
    GrantIs(w, sha, req, ids);
    QuietKeeps(w, u);
    InstallKeepsPub(u, req, NewReservationRow(w.store, req, ids), ids);
  }

  lemma GrantIsFit(w: World, u: World, req: ReserveRequest, ids: ReserveIds)
    requires Fresh(w.store.minted, ids.All()) && DecideReserve(w.store, req).Grant?
    requires u.store.paths == w.store.paths && req.Key() !in u.store.reservations && u.store.minted == w.store.minted
    ensures GrantFits(u, req, NewReservationRow(w.store, req, ids), ids)
  {
    hide IsId, ValidRequestId;
    assert ids.All()[0] == ids.artifact && ids.All()[1] == ids.token;
  }

  lemma ClaimIsQuiet(w: World, sha: Sha, now: Millis, limit: nat, c: ClaimChoice)
    requires Enabled(w, sha, ClaimEvent(now, limit, c))
    ensures Quiet(w, ApplyEvent(w, sha, ClaimEvent(now, limit, c)))
  {
    hide ApplyEvent, Enabled, Reap, MarkLeased, AllReserved, AllQueued, Leases, NewRecords;
    ClaimEventIs(w, sha, now, limit, c);
  }

  predicate IsPublication(w: World, e: Event) {
    || (e.CommitEvent? && Commits(w.store, e.r, e.o, e.now))
    || (e.TrustedEvent? && Commits(w.store, e.r, e.o, e.now))
  }

  lemma FailedPublicationIsQuiet(w: World, sha: Sha, e: Event)
    requires Enabled(w, sha, e) && !IsPublication(w, e) && (e.CommitEvent? || e.TrustedEvent?)
    ensures Quiet(w, ApplyEvent(w, sha, e))
  {
    hide Commits, CommitPublication, ReplayPublication, ValidText;
    CommitEffect(w.store, e.r, e.o, e.now);
  }

  lemma SettlingIsQuiet(w: World, sha: Sha, e: Event)
    requires Enabled(w, sha, e) && (e.AckEvent? || e.FailEvent? || e.AbortEvent?)
    ensures Quiet(w, ApplyEvent(w, sha, e))
  {
    hide FailLease, Acknowledge, Retire, HoldsLease;
    if e.AckEvent? {
      AckTouchesQueue(w.store, w.past.leases[e.index].lease);
    } else if e.FailEvent? && e.now > 0 {
      FailTouchesQueue(w.store, w.past.leases[e.index].lease, e.now);
    } else if e.AbortEvent? && e.r.Key() in w.store.reservations {
      RetireTouches(w.store, e.r.Key());
    }
  }

  lemma OtherEventsAreQuiet(w: World, sha: Sha, e: Event)
    requires Enabled(w, sha, e) && !IsPublication(w, e)
    requires e.ReserveEvent? ==> !DecideReserve(w.store, e.req).Grant?
    ensures Quiet(w, ApplyEvent(w, sha, e))
  {
    if e.ClaimEvent? {
      ClaimIsQuiet(w, sha, e.now, e.limit, e.choice);
    } else if e.CommitEvent? || e.TrustedEvent? {
      FailedPublicationIsQuiet(w, sha, e);
    } else if e.AckEvent? || e.FailEvent? || e.AbortEvent? {
      SettlingIsQuiet(w, sha, e);
    } else {
      hide DecideReserve, ValidText, ObjectPath, LiveError, PreparePublish, ObjectKey, Fresh, AnswersById;
    }
  }

  lemma EventKeepsPub(w: World, sha: Sha, e: Event)
    requires Inv(w, sha) && PubInv(w) && Enabled(w, sha, e)
    ensures PubInv(ApplyEvent(w, sha, e))
  {
    if e.ReserveEvent? && DecideReserve(w.store, e.req).Grant? {
      ReserveKeepsPub(w, sha, e.req, e.ids);
    } else if IsPublication(w, e) {
      CommitIsReady(w, sha, e.r, e.o, e.now, e.CommitEvent?);
      CommitEffect(w.store, e.r, e.o, e.now);
      hide Inv, PubInv, Commits, CommitPublication, CommitReady, ValidText, LocalObservation;
      CommitKeepsPub(w, e.r, e.o, e.now, e.CommitEvent?);
    } else {
      OtherEventsAreQuiet(w, sha, e);
      hide PubInv, Quiet, ApplyEvent, Inv;
      QuietKeeps(w, ApplyEvent(w, sha, e));
    }
  }

  // ----- What only ever grows -----

  /** The reservation granted with `token` is still in its table. */
  predicate Live(w: World, token: string) {
    && token in w.past.grants
    && w.past.grants[token].reservation.Key() in w.store.reservations
    && w.store.reservations[w.past.grants[token].reservation.Key()].token == token
  }

  /** The log and the grants only grow, and no token that was minted before becomes live. */
  ghost predicate Grows(w: World, v: World) {
    && w.past.log <= v.past.log
    && (forall t | t in w.past.grants :: t in v.past.grants && v.past.grants[t] == w.past.grants[t])
    && w.store.minted <= v.store.minted
    && (forall t | t in w.store.minted :: Live(v, t) ==> Live(w, t))
  }

  /** Receipts are pruned, never rewritten. */
  predicate ReceiptsStay(w: World, v: World) {
    forall k | k in w.store.receipts && k in v.store.receipts :: v.store.receipts[k] == w.store.receipts[k]
  }

  lemma QuietGrows(w: World, v: World)
    requires Quiet(w, v)
    ensures Grows(w, v) && ReceiptsStay(w, v)
  {
  }

  lemma InstallGrows(w: World, req: ReserveRequest, row: ReservationRow, ids: ReserveIds)
    requires TokenInv(w) && GrantFits(w, req, row, ids) && RequestKey(req.scope, req.requestId) !in w.store.receipts
    ensures var v := GrantWorld(w, req, row, ids); Grows(w, v) && ReceiptsStay(w, v)
  {
    hide IsId;
  }

  lemma CommitGrows(w: World, r: Reservation, o: Observation, now: Millis, local: bool)
    requires TokenInv(w) && CommitReady(w, r, o, now, local)
    ensures var v := CommitWorld(w, r, o, now, local); Grows(w, v) && ReceiptsStay(w, v)
  {
    hide Enqueue, ValidText, LocalObservation;
  }

  lemma GrowsComposes(u: World, w: World, v: World)
    ensures Grows(u, u)
    ensures Grows(u, w) && Grows(w, v) ==> Grows(u, v)
  {
    hide Live;
  }

  lemma ReserveGrows(w: World, sha: Sha, req: ReserveRequest, ids: ReserveIds)
    requires TokenInv(w) && Enabled(w, sha, ReserveEvent(req, ids)) && DecideReserve(w.store, req).Grant?
    ensures var v := ApplyEvent(w, sha, ReserveEvent(req, ids)); Grows(w, v) && ReceiptsStay(w, v)
  {
    hide TokenInv, Quiet, DecideReserve, Enabled, ApplyEvent, GrantFits, NewReservationRow, Cleared, GrantWorld, Grows;
    var u := Cleared(w, req.Key());
    ClearedIsQuiet(w, req.Key());
    GrantIs(w, sha, req, ids);
    QuietTokens(w, u);
    QuietGrows(w, u);
    InstallGrows(u, req, NewReservationRow(w.store, req, ids), ids);
    GrowsComposes(w, u, ApplyEvent(w, sha, ReserveEvent(req, ids)));
  }

  lemma EventGrows(w: World, sha: Sha, e: Event)
    requires Inv(w, sha) && PubInv(w) && Enabled(w, sha, e)
    ensures Grows(w, ApplyEvent(w, sha, e)) && ReceiptsStay(w, ApplyEvent(w, sha, e))
  {
    if e.ReserveEvent? && DecideReserve(w.store, e.req).Grant? {
      ReserveGrows(w, sha, e.req, e.ids);
    } else if IsPublication(w, e) {
      CommitIsReady(w, sha, e.r, e.o, e.now, e.CommitEvent?);
      CommitEffect(w.store, e.r, e.o, e.now);
      hide Inv, TokenInv, Commits, CommitPublication, CommitReady, ValidText, LocalObservation, Grows, ReceiptsStay;
      CommitGrows(w, e.r, e.o, e.now, e.CommitEvent?);
    } else {
      OtherEventsAreQuiet(w, sha, e);
      hide PubInv, Quiet, ApplyEvent, Inv, Grows, ReceiptsStay;
      QuietGrows(w, ApplyEvent(w, sha, e));
    }
  }
}
