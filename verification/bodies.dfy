/** Where bodies are in every run: reachable bodies survive, and reading gives back what was uploaded. */
module Bodies {
  import opened Wrappers
  import opened Keys
  import opened Catalog
  import opened Protocol
  import opened Generations
  import opened Safety
  import opened Publications
  import opened LeaseRules
  import opened Guarantees
  import opened Updates

  // ----- Generations -----

  /**
   Every minted generation is reserved, published, queued or acknowledged, in exactly one of
   these ways, and over a run it only moves forward through them; its path never changes.
   */
  lemma GenerationsMoveForward(sha: Sha, ws: seq<World>, es: seq<Event>, i: nat, j: nat, g: Generation)
    requires Run(sha, ws, es) && i <= j <= |es| && g in ws[i].past.origin
    ensures g in ws[j].past.origin && ws[j].past.origin[g] == ws[i].past.origin[g]
    ensures IsPhase(PlacesOf(ws[i], g)) && IsPhase(PlacesOf(ws[j], g))
    ensures Rank(PlacesOf(ws[i], g)) <= Rank(PlacesOf(ws[j], g))
  {
    hide PlacesOf, Step;
    RunInvariant(sha, ws, es, i);
    RunInvariant(sha, ws, es, j);
    RunKeeps(sha, ws, es, i, j);
  }

  // ----- Bodies that can still be reached -----

  /** A body whose generation no collector has erased holds the bytes first stored under its key. */
  lemma StoredBody(w: World, sha: Sha, key: string)
    requires Inv(w, sha) && key in w.store.bodies
    ensures key in w.past.stored
    ensures w.past.stored[key].gen !in w.past.erased ==> w.store.bodies[key] == w.past.stored[key].bytes
  {
    hide PlacesOf, PrefixedKey, GenInv, CheckInv, PathInv;
    assert StoredEntry(w, key);
  }

  lemma StoredIsThere(w: World, sha: Sha, key: string)
    requires Inv(w, sha) && key in w.past.stored && w.past.stored[key].gen !in w.past.erased
    ensures key in w.store.bodies
  {
    hide PlacesOf, PrefixedKey, GenInv, CheckInv, PathInv;
    assert StoredEntry(w, key);
  }

  lemma ReachableIsNotErased(w: World, sha: Sha, g: Generation)
    requires Inv(w, sha) && (IsReserved(w, g) || IsPublished(w, g))
    ensures g in w.past.origin && IsId(g.name) && Rank(PlacesOf(w, g)) <= 1
    ensures g !in w.past.erased
  {
    hide ObjectKey, StoredEntry, CheckInv, PathInv;
    assert IsPhase(PlacesOf(w, g));
  }

  lemma SurvivingBody(w: World, sha: Sha, v: World, prefix: string, g: Generation)
    requires Inv(w, sha) && Inv(v, sha) && Forward(w, v) && Extends(w, v)
    requires PrefixedKey(prefix, g) in w.store.bodies && (IsReserved(v, g) || IsPublished(v, g))
    ensures PrefixedKey(prefix, g) in v.store.bodies
    ensures v.store.bodies[PrefixedKey(prefix, g)] == w.store.bodies[PrefixedKey(prefix, g)]
  {
    hide PlacesOf, PrefixedKey, IsReserved, IsPublished, Traced, Phased, LeasedAreGarbage, CheckInv, PathInv;
    var key := PrefixedKey(prefix, g);
    ReachableIsNotErased(v, sha, g);
    StoredBody(w, sha, key);
    KeyNamesGeneration(w, key, prefix, g);
    assert StoredEntry(w, key) && StoredEntry(v, key);
  }

  /**
   A body that is stored at some point of a run is still stored with the same bytes as long as
   its generation is reserved or published, whatever other callers, collectors and workers
   with outdated leases did in between.
   */
  lemma ReachableBodiesSurvive(
    sha: Sha, ws: seq<World>, es: seq<Event>, i: nat, j: nat, prefix: string, g: Generation)
    requires Run(sha, ws, es) && i <= j <= |es|
    requires PrefixedKey(prefix, g) in ws[i].store.bodies
    requires IsReserved(ws[j], g) || IsPublished(ws[j], g)
    ensures PrefixedKey(prefix, g) in ws[j].store.bodies
    ensures ws[j].store.bodies[PrefixedKey(prefix, g)] == ws[i].store.bodies[PrefixedKey(prefix, g)]
  {
    hide Inv, PubInv, TokensInv, Forward, Extends, Grows, Run, IsReserved, IsPublished, PrefixedKey;
    RunInvariant(sha, ws, es, i);
    RunInvariant(sha, ws, es, j);
    RunKeeps(sha, ws, es, i, j);
    SurvivingBody(ws[i], sha, ws[j], prefix, g);
  }

  lemma CommitEventIs(w: World, sha: Sha, e: Event, v: World)
    requires Step(w, sha, e, v) && e.CommitEvent? && Commits(w.store, e.r, e.o, e.now)
    ensures Check(e.r, e.o, true) in w.past.checked
    ensures v.store == CommitPublication(w.store, e.r, e.o, e.now).state
  {
    hide Commits, CommitPublication;
  }

  lemma CheckedBodyIsInPlace(w: World, sha: Sha, r: Reservation, o: Observation, now: Millis)
    requires Inv(w, sha) && Check(r, o, true) in w.past.checked && Commits(w.store, r, o, now)
    ensures o.digest.Some? && FileMatches(w.store, sha, o.objectKey, o.size, o.digest.value)
  {
    hide PlacesOf, PrefixedKey, Commits, GenInv, CheckInv, PathInv, ReplaceFits;
    CommitFits(w, sha, r, o, now, true);
    ReachableIsNotErased(w, sha, r.Gen());
    assert StoredEntry(w, o.objectKey);
  }

  /**
   When a publication commits, the body it was checked against is still in place, however
   long ago the check ran and whatever collectors did in between.
   */
  lemma CommittedBodyIsInPlace(sha: Sha, ws: seq<World>, es: seq<Event>, i: nat)
    requires Run(sha, ws, es) && i < |es| && es[i].CommitEvent?
    requires Commits(ws[i].store, es[i].r, es[i].o, es[i].now)
    ensures var s, o, key := ws[i + 1].store, es[i].o, es[i].r.Key();
            && key in s.paths && RowReference(key, s.paths[key]).body == o.BodyRef()
            && o.digest.Some? && FileMatches(s, sha, o.objectKey, o.size, o.digest.value)
  {
    var w, r, o, now := ws[i], es[i].r, es[i].o, es[i].now;
    RunInvariant(sha, ws, es, i);
    hide PubInv, TokensInv, Inv, Commits, CommitPublication, ValidText;
    assert Step(ws[i], sha, es[i], ws[i + 1]);
    CommitEventIs(w, sha, es[i], ws[i + 1]);
    CheckedBodyIsInPlace(w, sha, r, o, now);
    hide Run, Step;
    CommitEffect(w.store, r, o, now);
  }

  // ----- Reading back -----

  /**
   `read` of the current reference of every path that was last published through `publish`
   succeeds, and returns the bytes first stored for its generation.
   */
  lemma ReadBack(sha: Sha, ws: seq<World>, es: seq<Event>, i: nat, p: PathKey)
    requires Run(sha, ws, es) && i <= |es| && p in ws[i].store.paths
    ensures PathLog(ws[i].past.log, p) != []
    ensures LastPublication(ws[i], p).local ==>
              var row := ws[i].store.paths[p];
              && row.objectKey in ws[i].past.stored
              && ws[i].past.stored[row.objectKey].gen == PublishedGen(p, row)
              && Read(ws[i].store, sha, RowReference(p, row)) == Ok(ws[i].past.stored[row.objectKey].bytes)
  {
    var w := ws[i];
    RunInvariant(sha, ws, es, i);
    hide Inv, PubInv, TokensInv, Run, LocalReference, LastPublication, PathLog;
    CurrentIsLocal(w, p);
    if LastPublication(w, p).local {
      LocalReads(w, sha, p);
    }
  }

  lemma LocalReads(w: World, sha: Sha, p: PathKey)
    requires Inv(w, sha) && p in w.store.paths && LocalReference(RowReference(p, w.store.paths[p]))
    ensures PathEntry(w, sha, p)
    ensures Read(w.store, sha, RowReference(p, w.store.paths[p])) ==
            Ok(w.past.stored[w.store.paths[p].objectKey].bytes)
  {
    var row := w.store.paths[p];
    var g := PublishedGen(p, row);
    assert PathEntry(w, sha, p) && StoredEntry(w, row.objectKey);
    PublishedIsNotErased(w, p);
    assert g in w.past.origin && IsId(g.name);
    LocalKeyResolves(g);
    hide ObjectPath, ObjectKey, PlacesOf, IsId, PrefixedKey, Traced, StoredInv, CheckInv;
  }

  /**
   Bytes that an upload wrote are the bytes that `read` returns once their generation is the
   current one of its path; uploads of other bytes before and after change nothing.
   */
  lemma UploadIsReadBack(
    sha: Sha, ws: seq<World>, es: seq<Event>, i: nat, j: nat, r: Reservation, bytes: Bytes, now: Millis)
    requires Run(sha, ws, es) && i < j <= |es| && es[i] == UploadEvent(r, bytes, now)
    requires Upload(ws[i].store, sha, r, bytes, now).result.Ok? && ObjectKey(r.Gen()) !in ws[i].store.bodies
    requires r.Key() in ws[j].store.paths && PublishedGen(r.Key(), ws[j].store.paths[r.Key()]) == r.Gen()
    requires PathLog(ws[j].past.log, r.Key()) != [] && LastPublication(ws[j], r.Key()).local
    ensures Read(ws[j].store, sha, RowReference(r.Key(), ws[j].store.paths[r.Key()])) == Ok(bytes)
  {
    var key, p := ObjectKey(r.Gen()), r.Key();
    ReadBack(sha, ws, es, j, p);
    RunInvariant(sha, ws, es, i);
    RunInvariant(sha, ws, es, j);
    RunKeeps(sha, ws, es, i + 1, j);
    FirstUpload(ws[i], sha, r, bytes, now);
    assert key in ws[i + 1].past.stored && ws[i + 1].past.stored[key].bytes == bytes;
    assert ws[j].past.stored[key].bytes == bytes;
    CurrentIsLocal(ws[j], p);
  }

  lemma FirstUpload(w: World, sha: Sha, r: Reservation, bytes: Bytes, now: Millis)
    requires Inv(w, sha) && Upload(w.store, sha, r, bytes, now).result.Ok?
    requires ObjectKey(r.Gen()) !in w.store.bodies
    ensures ObjectKey(r.Gen()) !in w.past.stored
  {
    var g, p := r.Gen(), r.Key();
    assert IsReserved(w, g) by {
      assert ReservedGen(p, w.store.reservations[p]) == g;
    }
    ReachableIsNotErased(w, sha, g);
    hide PlacesOf, ObjectKey, IsReserved, Upload, StoredInv, CheckInv, PathInv;
    if ObjectKey(g) in w.past.stored {
      KeyNamesGeneration(w, ObjectKey(g), "", g);
      StoredIsThere(w, sha, ObjectKey(g));
    }
  }

  /** The current reference of a path that was last published through `publish`. */
  lemma CurrentIsLocal(w: World, p: PathKey)
    requires PubInv(w) && p in w.store.paths
    ensures PathLog(w.past.log, p) != []
    ensures LastPublication(w, p).local ==> LocalReference(RowReference(p, w.store.paths[p]))
  {
    hide PathLog, TokenInv, ChainInv, OwnerInv, ReceiptInv, LocalReference;
    LastIsCurrent(w, p);
    var n := PathLogIsLogged(w.past.log, p, |PathLog(w.past.log, p)| - 1);
    assert LocalEntry(w.past.log[n]);
  }
}
