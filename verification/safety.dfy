/**
 The invariant of every run, whatever the interleaving and whatever times the callers pass:
 generations only move forward, and the body of a reserved or published generation stays
 where it was first written, with the bytes that were first written.
 */
module Safety {
  import opened Wrappers
  import opened Keys
  import opened Catalog
  import opened Protocol
  import opened Generations

  // ----- The body invariant -----

  predicate StoredEntry(w: World, key: string)
    requires key in w.past.stored
  {
    var b := w.past.stored[key];
    && b.gen in w.past.origin
    && key == PrefixedKey(b.prefix, b.gen)
    && (b.gen !in w.past.erased ==> key in w.store.bodies && w.store.bodies[key] == b.bytes)
  }

  predicate StoredInv(w: World) {
    && (forall key | key in w.past.stored :: StoredEntry(w, key))
    && (forall key | key in w.store.bodies :: key in w.past.stored)
    && (forall g | g in w.past.admitted :: g in w.past.origin)
    && (forall g | g in w.past.erased :: g in w.past.origin && Rank(PlacesOf(w, g)) >= 2)
  }

  predicate Fits(b: Stored, sha: Sha, g: Generation, size: U64, digest: Option<ContentDigest>) {
    b.gen == g && |b.bytes| == size && (digest.Some? ==> sha(b.bytes) == digest.value)
  }

  predicate LocalObservation(r: Reservation, o: Observation) {
    && o.objectKey == ObjectKey(r.Gen())
    && o.digest.Some? && o.etag == o.digest.value
    && !IsDotScope(r.scope)
  }

  predicate CheckEntry(w: World, sha: Sha, c: Check) {
    var key, g := c.observation.objectKey, c.reservation.Gen();
    && key in w.past.stored && w.past.stored[key].gen == g
    && c.observation.generation == c.reservation.generation
    && (g !in w.past.erased ==>
          Fits(w.past.stored[key], sha, g, c.observation.size, c.observation.digest))
    && (c.local ==> LocalObservation(c.reservation, c.observation))
  }

  /** Only a well-formed generation can ever have been minted. */
  predicate CheckInv(w: World, sha: Sha) {
    forall c | c in w.past.checked :: IsId(c.reservation.generation) ==> CheckEntry(w, sha, c)
  }

  predicate PathEntry(w: World, sha: Sha, p: PathKey)
    requires p in w.store.paths
  {
    var row := w.store.paths[p];
    && row.objectKey in w.past.stored
    && Fits(w.past.stored[row.objectKey], sha, PublishedGen(p, row), row.size, row.digest)
  }

  predicate PathInv(w: World, sha: Sha) {
    forall p | p in w.store.paths :: PathEntry(w, sha, p)
  }

  ghost predicate Inv(w: World, sha: Sha) {
    GenInv(w) && StoredInv(w) && CheckInv(w, sha) && PathInv(w, sha)
  }

  // ----- What a publication does -----

  lemma CommitEffect(s: State, r: Reservation, o: Observation, now: Millis)
    ensures !Commits(s, r, o, now) ==> CommitPublication(s, r, o, now).state == s
    ensures Commits(s, r, o, now) ==>
              && r.Key() in s.reservations && RowReservation(r.Key(), s.reservations[r.Key()]) == r
              && now < r.expiresAt
              && (r.Key() in s.paths && s.paths[r.Key()].objectKey != o.objectKey ==> now > 0)
              && SatAdd(now, RECEIPT_RETENTION_MS) > 0
              && TokenKey(r.scope, r.token) !in s.publications
              && RowReference(r.Key(), NewPublishedRow(r, o, now)).Valid()
              && CommitPublication(s, r, o, now) ==
                   Outcome(Replace(s, r, o, now), Ok(RowReference(r.Key(), NewPublishedRow(r, o, now))))
  {
    hide ValidText;
  }

  lemma CommittedIsReserved(w: World, p: PathKey, r: Reservation)
    requires GenInv(w) && p in w.store.reservations && RowReservation(p, w.store.reservations[p]) == r
    ensures ReservedGen(p, w.store.reservations[p]) == r.Gen()
    ensures IsReserved(w, r.Gen()) && PlacesOf(w, r.Gen()) == RESERVED && IsId(r.generation)
  {
    hide ObjectKey, IsId, KeyedByGeneration, LeasedAreGarbage;
    assert r.Gen() == ReservedGen(p, w.store.reservations[p]) && IsReserved(w, r.Gen());
    assert IsPhase(PlacesOf(w, r.Gen()));
  }

  lemma CommitFits(w: World, sha: Sha, r: Reservation, o: Observation, now: Millis, local: bool)
    requires Inv(w, sha) && Check(r, o, local) in w.past.checked && Commits(w.store, r, o, now)
    ensures r.Key() in w.store.reservations && RowReservation(r.Key(), w.store.reservations[r.Key()]) == r
    ensures ReservedGen(r.Key(), w.store.reservations[r.Key()]) == r.Gen()
    ensures IsReserved(w, r.Gen()) && CheckEntry(w, sha, Check(r, o, local))
    ensures ReplaceFits(w, r, o, now, RecordCommit(w.past, w.store, r, o, now, local))
  {
    hide GenInv, StoredInv, ObjectKey, IsId, Commits, CommitPublication, Replace, Fits, LocalObservation;
    CommitEffect(w.store, r, o, now);
    var p := r.Key();
    CommittedIsReserved(w, p, r);
    assert CheckEntry(w, sha, Check(r, o, local));
    if p in w.store.paths {
      OtherKeyThan(w, sha, p, r.Gen(), o.objectKey);
    }
  }

  /** A body of a reserved generation is not under the key of the publication that it will replace. */
  lemma OtherKeyThan(w: World, sha: Sha, p: PathKey, g: Generation, key: string)
    requires Inv(w, sha) && p in w.store.paths && PlacesOf(w, g) == RESERVED
    requires key in w.past.stored && w.past.stored[key].gen == g
    ensures w.store.paths[p].objectKey != key
  {
    hide StoredInv, CheckInv, ObjectKey, IsId, KeyedByGeneration, LeasedAreGarbage;
    assert IsPublished(w, PublishedGen(p, w.store.paths[p])) && PathEntry(w, sha, p);
  }

  // ----- Every event moves generations forward -----

  lemma ReserveFits(s: State, req: ReserveRequest, ids: ReserveIds)
    requires DecideReserve(s, req).Grant? && Fresh(s.minted, ids.All())
    ensures var row := NewReservationRow(s, req, ids);
            && row.generation == ids.generation && IsId(row.generation) && row.generation !in s.minted
            && row.token == ids.token && row.token !in s.minted
            && row.expiresAt > req.now
  {
    hide IsId;
    assert ids.All()[2] == ids.generation && ids.All()[1] == ids.token;
  }

  lemma ReserveAdvances(w: World, req: ReserveRequest, ids: ReserveIds)
    requires GenInv(w) && Fresh(w.store.minted, ids.All()) && DecideReserve(w.store, req).Grant?
    ensures Advances(w, ReserveWorld(w, req, ids))
  {
    hide ObjectKey, DecideReserve, NewReservationRow, Fresh, IsId, PlacesOf, Traced, Phased, Advances;
    var p, row := req.Key(), NewReservationRow(w.store, req, ids);
    ReserveFits(w.store, req, ids);
    if p in w.store.reservations {
      var u := RetireWorld(w, p);
      RetireAdvances(w, p);
      AdvanceIsTraced(w, u);
      InstallAdvances(u, req, row, ids, p !in w.store.paths);
      AdvanceTwice(w, u, InstallWorld(u, req, row, ids, p !in w.store.paths));
    } else {
      InstallAdvances(w, req, row, ids, p !in w.store.paths);
    }
  }

  lemma AdvanceIsTraced(w: World, v: World)
    requires Phased(w) && Advances(w, v)
    ensures Traced(v) && Phased(v)
  {
    AdvancePhased(w, v);
  }

  lemma ClaimAdvances(w: World, now: Millis, limit: nat, c: ClaimChoice)
    requires GenInv(w) && ValidGcRequest(now, limit) && ValidChoice(w.store, now, limit, c)
    ensures Advances(w, World(AfterLeasing(BeforeLeasing(w.store, c), now, c), w.past))
  {
    hide FirstDue, Fresh, DueRows;
    var ready := BeforeLeasing(w.store, c);
    var u := World(Reap(w.store, c.reaped), w.past);
    ReapAdvances(w, c.reaped);
    AdvanceIsTraced(w, u);
    MarkingKeepsRows(ready.queue, c.leased, c.ids, SatAdd(now, GC_LEASE_MS));
    var v := World(AfterLeasing(ready, now, c), w.past);
    hide AllReserved, AllQueued, Reap, Traced, Phased, Advances, ValidChoice, MarkLeased, ObjectKey;
    assert v.store.queue.Keys == u.store.queue.Keys;
    SamePlacesAdvance(u, v);
    AdvanceTwice(w, u, v);
  }

  lemma NewLeasesAreGarbage(ready: State, now: Millis, c: ClaimChoice, v: World, i: nat)
    requires AllQueued(ready.queue, c.leased) && |c.ids| == |c.leased| && i < |c.leased|
    requires v.store == AfterLeasing(ready, now, c) && Traced(v) && Phased(v)
    ensures IsGarbage(v, Leases(ready.queue, c.leased, c.ids)[i])
  {
    hide ObjectKey, IsId, MarkLeased;
    MarkingKeepsRows(ready.queue, c.leased, c.ids, SatAdd(now, GC_LEASE_MS));
    var k := c.leased[i];
    assert k in v.store.queue && v.store.queue[k].gen == ready.queue[k].gen;
    assert IsQueued(v, v.store.queue[k].gen);
  }

  /** The tables of `w` after a claim, and the history with its leases. */
  function ClaimWorld(w: World, now: Millis, c: ClaimChoice): World
    requires ClaimFits(w.store, c)
  {
    var ready := BeforeLeasing(w.store, c);
    World(AfterLeasing(ready, now, c),
          w.past.(leases := w.past.leases + NewRecords(Leases(ready.queue, c.leased, c.ids), now)))
  }

  predicate ClaimFits(s: State, c: ClaimChoice) {
    && AllReserved(s, c.reaped)
    && AllQueued(BeforeLeasing(s, c).queue, c.leased) && |c.ids| == |c.leased|
  }

  lemma ClaimKeepsGen(w: World, now: Millis, limit: nat, c: ClaimChoice)
    requires GenInv(w) && ValidGcRequest(now, limit) && ValidChoice(w.store, now, limit, c)
    ensures ClaimFits(w.store, c)
    ensures GenInv(ClaimWorld(w, now, c)) && Forward(w, ClaimWorld(w, now, c))
  {
    hide PlacesOf, FirstDue, DueRows, Fresh, Reap, MarkLeased, ObjectKey, Traced, LeasedAreGarbage, Forward;
    hide IsGarbage, Advances, Phased, AllReserved, AllQueued, IsId, NewRecords, Leases;
    ClaimAdvances(w, now, limit, c);
    var ready := BeforeLeasing(w.store, c);
    var u := World(AfterLeasing(ready, now, c), w.past);
    LeasesAreGarbage(w, ready, now, c, u);
    LeaseMore(w, u, NewRecords(Leases(ready.queue, c.leased, c.ids), now));
  }

  lemma LeasesAreGarbage(w: World, ready: State, now: Millis, c: ClaimChoice, u: World)
    requires AllQueued(ready.queue, c.leased) && |c.ids| == |c.leased|
    requires u.store == AfterLeasing(ready, now, c)
    requires Phased(w) && Advances(w, u)
    ensures var records := NewRecords(Leases(ready.queue, c.leased, c.ids), now);
            forall i | 0 <= i < |records| :: IsGarbage(u, records[i].lease)
  {
    hide IsGarbage, Traced, Phased, Advances;
    AdvanceIsTraced(w, u);
    var records := NewRecords(Leases(ready.queue, c.leased, c.ids), now);
    forall i | 0 <= i < |records| ensures IsGarbage(u, records[i].lease) {
      NewLeasesAreGarbage(ready, now, c, u, i);
    }
  }

  lemma LeaseMore(w: World, u: World, records: seq<LeaseRecord>)
    requires GenInv(w) && Advances(w, u) && u.past.leases == w.past.leases
    requires forall i | 0 <= i < |records| :: IsGarbage(u, records[i].lease)
    ensures var v := World(u.store, u.past.(leases := u.past.leases + records));
            GenInv(v) && Forward(w, v)
  {
    hide ObjectKey, Traced, Phased, Advances, Forward;
    var v := World(u.store, u.past.(leases := u.past.leases + records));
    LeasesDoNotMatter(w, u, v);
    AdvanceIsTraced(w, v);
    forall i | |w.past.leases| <= i < |v.past.leases| ensures IsGarbage(v, v.past.leases[i].lease) {
      assert IsGarbage(u, records[i - |w.past.leases|].lease);
      assert PlacesOf(u, v.past.leases[i].lease.gen) == PlacesOf(v, v.past.leases[i].lease.gen);
    }
    AdvanceKeeps(w, v);
  }

  lemma LeasesDoNotMatter(w: World, u: World, v: World)
    requires Advances(w, u) && v == World(u.store, u.past.(leases := v.past.leases))
    ensures Advances(w, v)
  {
    hide ObjectKey, IsId;
    assert forall g :: PlacesOf(u, g) == PlacesOf(v, g);
  }

  // ----- Bodies stay put -----

  /** What was first stored under a key is never rewritten. */
  predicate Extends(w: World, v: World) {
    forall key | key in w.past.stored :: key in v.past.stored && v.past.stored[key] == w.past.stored[key]
  }

  lemma StoredStays(w: World, v: World)
    requires StoredInv(w) && Forward(w, v)
    requires v.store.bodies == w.store.bodies && v.past.stored == w.past.stored
    requires v.past.admitted == w.past.admitted && v.past.erased == w.past.erased
    ensures StoredInv(v)
  {
    hide PlacesOf, ObjectKey, PrefixedKey;
    forall key | key in v.past.stored ensures StoredEntry(v, key) {
      assert StoredEntry(w, key);
    }
  }

  lemma ChecksStay(w: World, sha: Sha, v: World)
    requires StoredInv(w) && CheckInv(w, sha) && Forward(w, v) && Extends(w, v) && v.past.checked == w.past.checked
    requires w.past.erased <= v.past.erased
    ensures CheckInv(v, sha)
  {
    hide PlacesOf, ObjectKey, PrefixedKey, IsId, LocalObservation;
    forall c | c in v.past.checked && IsId(c.reservation.generation) ensures CheckEntry(v, sha, c) {
      assert CheckEntry(w, sha, c);
      assert StoredEntry(w, c.observation.objectKey);
    }
  }

  lemma PathsStay(w: World, sha: Sha, v: World)
    requires PathInv(w, sha) && Extends(w, v) && v.store.paths == w.store.paths
    ensures PathInv(v, sha)
  {
    forall p | p in v.store.paths ensures PathEntry(v, sha, p) {
      assert PathEntry(w, sha, p);
    }
  }

  /** Steps that write no body, check none and publish nothing keep what is known about bodies. */
  lemma BodiesStay(w: World, sha: Sha, v: World)
    requires Inv(w, sha) && GenInv(v) && Forward(w, v)
    requires v.store.bodies == w.store.bodies && v.store.paths == w.store.paths
    requires v.past.stored == w.past.stored && v.past.checked == w.past.checked
    requires v.past.admitted == w.past.admitted && v.past.erased == w.past.erased
    ensures Inv(v, sha)
  {
    StoredStays(w, v);
    ChecksStay(w, sha, v);
    PathsStay(w, sha, v);
  }

  predicate SameGenerations(w: World, v: World) {
    && v.store.paths == w.store.paths && v.store.reservations == w.store.reservations
    && v.store.queue == w.store.queue && v.store.minted == w.store.minted
    && v.past.origin == w.past.origin && v.past.acked == w.past.acked && v.past.leases == w.past.leases
  }

  lemma SameGenerationsKeep(w: World, v: World)
    requires GenInv(w) && SameGenerations(w, v)
    ensures GenInv(v) && Forward(w, v)
    ensures forall g :: PlacesOf(v, g) == PlacesOf(w, g)
  {
    hide ObjectKey, IsId, PlacesOf;
    SamePlaces(w, v);
  }

  lemma SamePlaces(w: World, v: World)
    requires SameGenerations(w, v) && Traced(w)
    ensures Traced(v) && forall g :: PlacesOf(v, g) == PlacesOf(w, g)
  {
    hide ObjectKey, IsId;
  }

  function WriteWorld(w: World, g: Generation, prefix: string, bytes: Bytes): World {
    var key := PrefixedKey(prefix, g);
    World(w.store.(bodies := WriteOnce(w.store.bodies, key, bytes)),
          w.past.(stored := Remember(w.past.stored, key, Stored(g, prefix, bytes))))
  }

  lemma WriteStores(w: World, g: Generation, prefix: string, bytes: Bytes)
    requires StoredInv(w) && g in w.past.origin
    requires forall h :: PlacesOf(WriteWorld(w, g, prefix, bytes), h) == PlacesOf(w, h)
    ensures StoredInv(WriteWorld(w, g, prefix, bytes)) && Extends(w, WriteWorld(w, g, prefix, bytes))
  {
    hide PlacesOf, ObjectKey, PrefixedKey;
    var v := WriteWorld(w, g, prefix, bytes);
    forall key | key in v.past.stored ensures StoredEntry(v, key) {
      if key in w.past.stored {
        assert StoredEntry(w, key);
      }
    }
  }

  lemma WriteKeeps(w: World, sha: Sha, g: Generation, prefix: string, bytes: Bytes)
    requires Inv(w, sha) && g in w.past.origin
    ensures Inv(WriteWorld(w, g, prefix, bytes), sha) && Forward(w, WriteWorld(w, g, prefix, bytes))
    ensures Extends(w, WriteWorld(w, g, prefix, bytes))
  {
    hide PlacesOf, GenInv, StoredInv, Forward, Extends, CheckInv, PathInv;
    var v := WriteWorld(w, g, prefix, bytes);
    SameGenerationsKeep(w, v);
    WriteStores(w, g, prefix, bytes);
    ChecksStay(w, sha, v);
    PathsStay(w, sha, v);
  }

  lemma KeyNamesGeneration(w: World, key: string, prefix: string, g: Generation)
    requires Traced(w) && StoredInv(w) && key in w.past.stored && key == PrefixedKey(prefix, g) && IsId(g.name)
    ensures w.past.stored[key].gen == g
  {
    hide PlacesOf, ObjectKey, PrefixedKey;
    assert StoredEntry(w, key);
    IdIsSlashFree(g.name);
    IdIsSlashFree(w.past.stored[key].gen.name);
    KeysAreInjective(w.past.stored[key].prefix, w.past.stored[key].gen, prefix, g);
  }

  function DeleteWorld(w: World, index: nat, prefix: string): World
    requires index < |w.past.leases|
  {
    World(w.store.(bodies := w.store.bodies - {PrefixedKey(prefix, w.past.leases[index].lease.gen)}),
          w.past.(erased := w.past.erased + {w.past.leases[index].lease.gen}))
  }

  lemma DeleteKeeps(w: World, sha: Sha, index: nat, prefix: string)
    requires Inv(w, sha) && index < |w.past.leases|
    ensures var v := DeleteWorld(w, index, prefix); Inv(v, sha) && Forward(w, v) && Extends(w, v)
  {
    hide PlacesOf, GenInv, StoredInv, Forward, CheckInv, PathInv;
    var v := DeleteWorld(w, index, prefix);
    SameGenerationsKeep(w, v);
    DeleteStores(w, index, prefix);
    ChecksStay(w, sha, v);
    PathsStay(w, sha, v);
  }

  lemma LeasedIsGarbage(w: World, index: nat)
    requires GenInv(w) && index < |w.past.leases|
    ensures var lease := w.past.leases[index].lease;
            IsGarbage(w, lease) && lease.gen in w.past.origin && IsId(lease.gen.name)
  {
    hide PlacesOf, ObjectKey, IsId, Phased, KeyedByGeneration;
    assert IsGarbage(w, w.past.leases[index].lease);
  }

  lemma DeleteStores(w: World, index: nat, prefix: string)
    requires GenInv(w) && StoredInv(w) && index < |w.past.leases|
    requires forall g :: PlacesOf(DeleteWorld(w, index, prefix), g) == PlacesOf(w, g)
    ensures StoredInv(DeleteWorld(w, index, prefix))
  {
    hide GenInv, PlacesOf, ObjectKey, PrefixedKey, IsId;
    var v, gone := DeleteWorld(w, index, prefix), w.past.leases[index].lease.gen;
    LeasedIsGarbage(w, index);
    forall key | key in v.past.stored ensures StoredEntry(v, key) {
      assert StoredEntry(w, key);
      if key == PrefixedKey(prefix, gone) {
        StoredNames(w, key, prefix, gone);
      }
    }
  }

  lemma StoredNames(w: World, key: string, prefix: string, g: Generation)
    requires GenInv(w) && StoredInv(w) && key in w.past.stored && key == PrefixedKey(prefix, g) && IsId(g.name)
    ensures w.past.stored[key].gen == g
  {
    hide StoredInv, PlacesOf, PrefixedKey, IsId, Traced, Phased;
    KeyNamesGeneration(w, key, prefix, g);
  }

  // ----- Checked bodies -----

  function CheckWorld(w: World, c: Check): World {
    World(w.store, w.past.(checked := w.past.checked + {c}))
  }

  lemma CheckKeeps(w: World, sha: Sha, c: Check)
    requires Inv(w, sha) && (IsId(c.reservation.generation) ==> CheckEntry(w, sha, c))
    ensures Inv(CheckWorld(w, c), sha) && Forward(w, CheckWorld(w, c)) && Extends(w, CheckWorld(w, c))
  {
    hide PlacesOf, GenInv, IsId, LocalObservation, ObjectKey;
    var v := CheckWorld(w, c);
    SameGenerationsKeep(w, v);
    StoredStays(w, v);
    PathsStay(w, sha, v);
    forall d | d in v.past.checked && IsId(d.reservation.generation) ensures CheckEntry(v, sha, d) {
      assert CheckEntry(w, sha, d);
    }
  }

  lemma PreparedFits(s: State, sha: Sha, r: Reservation, o: Observation)
    requires PreparePublish(s, sha, r, o).None? && IsId(r.generation)
    ensures LocalObservation(r, o) && o.generation == r.generation
    ensures FileMatches(s, sha, o.objectKey, o.size, o.digest.value)
  {
    hide ObjectPath, ObjectKey, ValidText, ReplayPublication, IsId, IsDotScope;
    LocalKeyResolves(r.Gen());
  }

  lemma PreparedEntry(w: World, sha: Sha, r: Reservation, o: Observation)
    requires Inv(w, sha) && PreparePublish(w.store, sha, r, o).None? && IsId(r.generation)
    ensures CheckEntry(w, sha, Check(r, o, true))
  {
    hide GenInv, CheckInv, PathInv, PreparePublish, PlacesOf, ObjectKey, IsId, IsDotScope;
    PreparedFits(w.store, sha, r, o);
    assert o.objectKey in w.past.stored;
    StoredNames(w, o.objectKey, "", r.Gen());
    assert StoredEntry(w, o.objectKey);
  }

  lemma ObservedEntry(w: World, sha: Sha, r: Reservation, o: Observation, prefix: string)
    requires Inv(w, sha) && ProviderMatches(w.store, r, o, prefix) && IsId(r.generation)
    ensures CheckEntry(w, sha, Check(r, o, false))
  {
    hide ObjectKey, PrefixedKey;
    KeyNamesGeneration(w, o.objectKey, prefix, r.Gen());
    assert StoredEntry(w, o.objectKey);
  }

  // ----- Publications -----

  function CommitWorld(w: World, r: Reservation, o: Observation, now: Millis, local: bool): World
    requires ReplaceFits(w, r, o, now, RecordCommit(w.past, w.store, r, o, now, local))
  {
    ReplaceWorld(w, r, o, now, RecordCommit(w.past, w.store, r, o, now, local))
  }

  lemma CommitPaths(w: World, sha: Sha, r: Reservation, o: Observation, now: Millis, local: bool)
    requires PathInv(w, sha) && CheckEntry(w, sha, Check(r, o, local)) && r.Gen() !in w.past.erased
    requires ReplaceFits(w, r, o, now, RecordCommit(w.past, w.store, r, o, now, local))
    ensures PathInv(CommitWorld(w, r, o, now, local), sha)
  {
    hide PlacesOf, ObjectKey, LocalObservation, Enqueue;
    var v, p := CommitWorld(w, r, o, now, local), r.Key();
    assert PublishedGen(p, v.store.paths[p]) == r.Gen();
    forall q | q in v.store.paths ensures PathEntry(v, sha, q) {
      if q != p {
        assert PathEntry(w, sha, q);
      }
    }
  }

  lemma CommitGenerations(w: World, r: Reservation, o: Observation, now: Millis, past: History)
    requires GenInv(w) && ReplaceFits(w, r, o, now, past)
    ensures GenInv(ReplaceWorld(w, r, o, now, past)) && Forward(w, ReplaceWorld(w, r, o, now, past))
  {
    hide PlacesOf, Traced, Phased, LeasedAreGarbage, Forward, Advances;
    ReplaceAdvances(w, r, o, now, past);
    AdvanceKeeps(w, ReplaceWorld(w, r, o, now, past));
  }

  lemma CommitKeeps(w: World, sha: Sha, r: Reservation, o: Observation, now: Millis, local: bool)
    requires Inv(w, sha) && Check(r, o, local) in w.past.checked && Commits(w.store, r, o, now)
    ensures ReplaceFits(w, r, o, now, RecordCommit(w.past, w.store, r, o, now, local))
    ensures var v := CommitWorld(w, r, o, now, local); Inv(v, sha) && Forward(w, v) && Extends(w, v)
  {
    CommitFits(w, sha, r, o, now, local);
    assert PlacesOf(w, r.Gen()) == RESERVED by {
      hide StoredInv, CheckInv, PathInv, CheckEntry, ReplaceFits, Commits, Traced, LeasedAreGarbage;
    }
    CommitGenerations(w, r, o, now, RecordCommit(w.past, w.store, r, o, now, local));
    CommitPaths(w, sha, r, o, now, local);
    hide PlacesOf, GenInv, CheckEntry, Commits, Forward, StoredInv, CheckInv, PathInv, ReplaceFits, Enqueue;
    var v := CommitWorld(w, r, o, now, local);
    StoredStays(w, v);
    ChecksStay(w, sha, v);
  }

  // ----- Every event keeps the invariant -----

  /** The invariant holds after the step, and the step took nothing back. */
  ghost predicate Kept(w: World, sha: Sha, v: World) {
    Inv(v, sha) && Forward(w, v) && Extends(w, v)
  }

  lemma UnchangedIsKept(w: World, sha: Sha)
    requires Inv(w, sha)
    ensures Kept(w, sha, w)
  {
    hide PlacesOf, Inv;
  }

  lemma ReserveEventKeeps(w: World, sha: Sha, req: ReserveRequest, ids: ReserveIds)
    requires Inv(w, sha) && Enabled(w, sha, ReserveEvent(req, ids))
    ensures Kept(w, sha, ApplyEvent(w, sha, ReserveEvent(req, ids)))
  {
    UnchangedIsKept(w, sha);
    var v := ApplyEvent(w, sha, ReserveEvent(req, ids));
    hide DecideReserve, Fresh, PlacesOf, Traced, Phased, StoredInv, CheckInv, PathInv, Advances, Forward;
    hide NewReservationRow, LeasedAreGarbage, ObjectKey;
    ReserveTouches(w.store, req, ids);
    hide Reserve, GenInv;
    if DecideReserve(w.store, req).Grant? {
      ReserveKeepsGen(w, req, ids);
      BodiesStay(w, sha, v);
    }
  }

  lemma ReserveKeepsGen(w: World, req: ReserveRequest, ids: ReserveIds)
    requires GenInv(w) && Fresh(w.store.minted, ids.All()) && DecideReserve(w.store, req).Grant?
    ensures GenInv(ReserveWorld(w, req, ids)) && Forward(w, ReserveWorld(w, req, ids))
  {
    hide DecideReserve, Reserve, Fresh, PlacesOf, Traced, Phased, Advances, Forward, LeasedAreGarbage, NewReservationRow;
    ReserveAdvances(w, req, ids);
    AdvanceKeeps(w, ReserveWorld(w, req, ids));
  }

  lemma ReserveTouches(s: State, req: ReserveRequest, ids: ReserveIds)
    ensures var t := Reserve(s, req, ids).state;
            && t.paths == s.paths && t.bodies == s.bodies && t.retentions == s.retentions
            && t.publications == s.publications
  {
    hide DecideReserve, NewReservationRow;
  }

  lemma UploadEventKeeps(w: World, sha: Sha, r: Reservation, bytes: Bytes, now: Millis)
    requires Inv(w, sha)
    ensures Kept(w, sha, ApplyEvent(w, sha, UploadEvent(r, bytes, now)))
  {
    hide PlacesOf, Phased, StoredInv, CheckInv, PathInv, Forward, LeasedAreGarbage, ObjectPath, ObjectKey, IsId;
    UnchangedIsKept(w, sha);
    var v := ApplyEvent(w, sha, UploadEvent(r, bytes, now));
    if Upload(w.store, sha, r, bytes, now).result.Ok? {
      var p := r.Key();
      assert ReservedGen(p, w.store.reservations[p]) == r.Gen();
      assert r.Gen() in w.past.origin && IsId(r.Gen().name);
      LocalKeyResolves(r.Gen());
      assert v == WriteWorld(w, r.Gen(), "", bytes);
      WriteKeeps(w, sha, r.Gen(), "", bytes);
    }
  }

  lemma AdmitWriteKeeps(w: World, sha: Sha, r: Reservation, now: Millis)
    requires Inv(w, sha)
    ensures Kept(w, sha, ApplyEvent(w, sha, AdmitWrite(r, now)))
  {
    hide PlacesOf, Phased, CheckInv, PathInv, Forward, LeasedAreGarbage, ObjectKey, IsId;
    UnchangedIsKept(w, sha);
    var v := ApplyEvent(w, sha, AdmitWrite(r, now));
    if LiveError(w.store, r, now).None? {
      var p := r.Key();
      assert ReservedGen(p, w.store.reservations[p]) == r.Gen();
      SameGenerationsKeep(w, v);
      StoredStays(w, v.(past := w.past));
      hide Traced, GenInv;
      ChecksStay(w, sha, v);
      PathsStay(w, sha, v);
      assert forall key | key in v.past.stored :: StoredEntry(w, key) && StoredEntry(v, key);
    }
  }

  lemma CommitEventKeeps(w: World, sha: Sha, r: Reservation, o: Observation, now: Millis)
    requires Inv(w, sha) && Check(r, o, true) in w.past.checked
    ensures Kept(w, sha, ApplyEvent(w, sha, CommitEvent(r, o, now)))
  {
    hide Inv, Commits, CommitPublication, Forward, Extends;
    UnchangedIsKept(w, sha);
    CommitEffect(w.store, r, o, now);
    if Commits(w.store, r, o, now) {
      CommitKeeps(w, sha, r, o, now, true);
    }
  }

  lemma CheckReceiptKeeps(w: World, sha: Sha, r: Reservation, o: Observation)
    requires Inv(w, sha) && Enabled(w, sha, CheckReceipt(r, o))
    ensures Kept(w, sha, ApplyEvent(w, sha, CheckReceipt(r, o)))
  {
    hide GenInv, StoredInv, CheckInv, PathInv, Forward, PrepareTrusted;
    var v := ApplyEvent(w, sha, CheckReceipt(r, o));
    SameGenerationsKeep(w, v);
    BodiesStay(w, sha, v);
  }

  lemma TrustedEventKeeps(w: World, sha: Sha, r: Reservation, o: Observation, now: Millis)
    requires Inv(w, sha) && Enabled(w, sha, TrustedEvent(r, o, now))
    ensures Kept(w, sha, ApplyEvent(w, sha, TrustedEvent(r, o, now)))
  {
    hide Inv, Commits, CommitPublication, Forward, Extends, ValidText;
    UnchangedIsKept(w, sha);
    CommitEffect(w.store, r, o, now);
    if Commits(w.store, r, o, now) {
      CommitKeeps(w, sha, r, o, now, false);
    }
  }

  lemma RetireKeepsGen(w: World, p: PathKey)
    requires GenInv(w) && p in w.store.reservations
    ensures GenInv(RetireWorld(w, p)) && Forward(w, RetireWorld(w, p))
  {
    hide PlacesOf, Traced, Phased, Advances, Forward, LeasedAreGarbage, Retire;
    RetireAdvances(w, p);
    AdvanceKeeps(w, RetireWorld(w, p));
  }

  lemma AbortEventKeeps(w: World, sha: Sha, r: Reservation)
    requires Inv(w, sha)
    ensures Kept(w, sha, ApplyEvent(w, sha, AbortEvent(r)))
  {
    hide GenInv, StoredInv, CheckInv, PathInv, Forward, Retire;
    UnchangedIsKept(w, sha);
    if Abort(w.store, r).result.Ok? {
      RetireKeepsGen(w, r.Key());
      RetireTouches(w.store, r.Key());
      BodiesStay(w, sha, RetireWorld(w, r.Key()));
    }
  }

  lemma RetireTouches(s: State, p: PathKey)
    requires p in s.reservations
    ensures Retire(s, p) == s.(queue := Retire(s, p).queue, reservations := s.reservations - {p})
  {
  }

  lemma RetainEventKeeps(w: World, sha: Sha, ref: ArtifactReference, now: Millis, until: Millis, found: Option<PathKey>)
    requires Inv(w, sha) && Enabled(w, sha, RetainEvent(ref, now, until, found))
    ensures Kept(w, sha, ApplyEvent(w, sha, RetainEvent(ref, now, until, found)))
  {
    hide GenInv, StoredInv, CheckInv, PathInv, Forward, AnswersById, ValidText;
    UnchangedIsKept(w, sha);
    var v := ApplyEvent(w, sha, RetainEvent(ref, now, until, found));
    if RetainForRead(w.store, ref, now, until, found).result.Ok? {
      SameGenerationsKeep(w, v);
      BodiesStay(w, sha, v);
    }
  }

  lemma ClaimEventIs(w: World, sha: Sha, now: Millis, limit: nat, c: ClaimChoice)
    requires Enabled(w, sha, ClaimEvent(now, limit, c))
    ensures var v := ApplyEvent(w, sha, ClaimEvent(now, limit, c));
            v == w || (ValidGcRequest(now, limit) && ClaimFits(w.store, c) && v == ClaimWorld(w, now, c))
  {
    hide FirstDue, DueRows, Fresh;
  }

  lemma ClaimEventKeeps(w: World, sha: Sha, now: Millis, limit: nat, c: ClaimChoice)
    requires Inv(w, sha) && Enabled(w, sha, ClaimEvent(now, limit, c))
    ensures Kept(w, sha, ApplyEvent(w, sha, ClaimEvent(now, limit, c)))
  {
    hide GenInv, StoredInv, CheckInv, PathInv, Forward, ApplyEvent, ValidChoice;
    hide AllReserved, AllQueued, Leases, NewRecords, MarkLeased, Reap, ClaimFits;
    UnchangedIsKept(w, sha);
    ClaimEventIs(w, sha, now, limit, c);
    if ApplyEvent(w, sha, ClaimEvent(now, limit, c)) != w {
      ClaimKeepsGen(w, now, limit, c);
      BodiesStay(w, sha, ClaimWorld(w, now, c));
    }
  }

  lemma AckEventKeeps(w: World, sha: Sha, index: nat)
    requires Inv(w, sha) && Enabled(w, sha, AckEvent(index))
    ensures Kept(w, sha, ApplyEvent(w, sha, AckEvent(index)))
  {
    hide PlacesOf, Traced, Phased, StoredInv, CheckInv, PathInv, Advances, Forward, LeasedAreGarbage, IsId;
    UnchangedIsKept(w, sha);
    var v, lease := ApplyEvent(w, sha, AckEvent(index)), w.past.leases[index].lease;
    LeasedIsGarbage(w, index);
    if HoldsLease(w.store, lease) {
      AckAdvances(w, lease, v.past);
      AdvanceKeeps(w, v);
      BodiesStay(w, sha, v);
    }
  }

  lemma FailEventKeeps(w: World, sha: Sha, index: nat, now: Millis)
    requires Inv(w, sha) && Enabled(w, sha, FailEvent(index, now))
    ensures Kept(w, sha, ApplyEvent(w, sha, FailEvent(index, now)))
  {
    hide GenInv, StoredInv, CheckInv, PathInv, Forward, FailLease;
    UnchangedIsKept(w, sha);
    var v, lease := ApplyEvent(w, sha, FailEvent(index, now)), w.past.leases[index].lease;
    if now > 0 {
      FailTouchesQueue(w.store, lease, now);
      if HoldsLease(w.store, lease) {
        FailKeepsGen(w, v, lease, now);
        BodiesStay(w, sha, v);
      }
    }
  }

  lemma FailKeepsGen(w: World, v: World, lease: GarbageLease, now: StoredMillis)
    requires GenInv(w) && HoldsLease(w.store, lease)
    requires v.store == FailLease(w.store, lease, now) && v.past == w.past.(released := v.past.released)
    ensures GenInv(v) && Forward(w, v)
  {
    hide PlacesOf, Traced, Phased, Advances, Forward, Power2;
    SamePlacesAdvance(w, v);
    AdvanceKeeps(w, v);
  }

  lemma AckTouchesQueue(s: State, lease: GarbageLease)
    ensures Acknowledge(s, lease) == s.(queue := Acknowledge(s, lease).queue)
    ensures !HoldsLease(s, lease) ==> Acknowledge(s, lease) == s
  {
  }

  lemma FailTouchesQueue(s: State, lease: GarbageLease, now: StoredMillis)
    ensures FailLease(s, lease, now) == s.(queue := FailLease(s, lease, now).queue)
    ensures !HoldsLease(s, lease) ==> FailLease(s, lease, now) == s
  {
  }

  lemma EventKeeps(w: World, sha: Sha, e: Event)
    requires Inv(w, sha) && Enabled(w, sha, e)
    ensures Kept(w, sha, ApplyEvent(w, sha, e))
  {
    match e
    case ReserveEvent(req, ids) => ReserveEventKeeps(w, sha, req, ids);
    case UploadEvent(r, bytes, now) => UploadEventKeeps(w, sha, r, bytes, now);
    case AdmitWrite(r, now) => AdmitWriteKeeps(w, sha, r, now);
    case LateWrite(g, prefix, bytes) => WriteKeeps(w, sha, g, prefix, bytes);
    case CheckBody(r, o) =>
      if IsId(r.generation) {
        PreparedEntry(w, sha, r, o);
      }
      CheckKeeps(w, sha, Check(r, o, true));
    case CommitEvent(r, o, now) => CommitEventKeeps(w, sha, r, o, now);
    case ObserveProvider(r, o, prefix) =>
      if IsId(r.generation) {
        ObservedEntry(w, sha, r, o, prefix);
      }
      CheckKeeps(w, sha, Check(r, o, false));
    case CheckReceipt(r, o) => CheckReceiptKeeps(w, sha, r, o);
    case TrustedEvent(r, o, now) => TrustedEventKeeps(w, sha, r, o, now);
    case AbortEvent(r) => AbortEventKeeps(w, sha, r);
    case RetainEvent(ref, now, until, found) => RetainEventKeeps(w, sha, ref, now, until, found);
    case ClaimEvent(now, limit, choice) => ClaimEventKeeps(w, sha, now, limit, choice);
    case DeleteEvent(index, prefix) => DeleteKeeps(w, sha, index, prefix);
    case AckEvent(index) => AckEventKeeps(w, sha, index);
    case FailEvent(index, now) => FailEventKeeps(w, sha, index, now);
  }
}
