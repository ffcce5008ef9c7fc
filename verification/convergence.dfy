/**
 Draining converges: once everything is past its time, repeated drains leave no reservation,
 no queue row, and exactly the bodies that are published. This is so exactly when every row can
 be settled and every stored body is where a row expects it.
 */
module Convergence {
  import opened Wrappers
  import opened Keys
  import opened Catalog
  import opened Protocol
  import opened Generations
  import opened Safety
  import opened Publications
  import opened LeaseRules
  import opened Guarantees
  import opened Draining
  import opened Unsettled
  import opened Orphans
  
  // ----- Which tables can be collected -----

  /** Every key belongs to one row, every publication has its body, and `now` is past every time. */
  predicate InOrder(s: State, now: Millis) {
    Disjoint(s) && PublishedKeys(s) <= s.bodies.Keys && AllDue(s, now)
  }

  /** Some sequence of drains at `now` collects everything. */
  ghost predicate CanBeCollected(s: State, now: Millis, limit: nat) {
    exists ss, cs :: Drains(ss, cs, now, limit) && ss[0] == s && IsCollected(ss[|cs|])
  }

  lemma InOrderIsReady(s: State, now: Millis)
    requires InOrder(s, now)
    ensures Named(s) && (IsListed(s) <==> Ready(s, now))
  {
    hide KeyedByGeneration, AllDue, IsListed, ReservedKey, IsId;
  }

  lemma CollectedLeavesNothing(s: State)
    requires IsCollected(s)
    ensures AllSettle(s) && IsListed(s)
  {
  }

  lemma UnsettledIsNeverCollected(s: State, now: Millis, limit: nat)
    requires Named(s) && ValidGcRequest(now, limit) && !AllSettle(s)
    ensures !CanBeCollected(s, now, limit)
  {
    hide AllSettle, IsCollected, Named, ValidChoice, DrainGarbage;
    if CanBeCollected(s, now, limit) {
      var ss, cs :| Drains(ss, cs, now, limit) && ss[0] == s && IsCollected(ss[|cs|]);
      DrainsKeepUnsettled(ss, cs, now, limit, |cs|);
      CollectedLeavesNothing(ss[|cs|]);
    }
  }

  lemma UnlistedIsNeverCollected(s: State, now: Millis, limit: nat)
    requires Named(s) && ValidGcRequest(now, limit) && !IsListed(s)
    ensures !CanBeCollected(s, now, limit)
  {
    hide ListedKeys, IsCollected, Named, ValidChoice, DrainGarbage;
    if CanBeCollected(s, now, limit) {
      var ss, cs :| Drains(ss, cs, now, limit) && ss[0] == s && IsCollected(ss[|cs|]);
      var key :| key in s.bodies && key !in ListedKeys(s);
      assert IsUnlisted(s, key);
      DrainsKeepUnlisted(ss, cs, now, limit, |cs|, key);
      CollectedLeavesNothing(ss[|cs|]);
    }
  }

  lemma ReadyCanBeCollected(s: State, now: Millis, limit: nat, ids: seq<string>)
    requires Ready(s, now) && AllSettle(s) && ValidGcRequest(now, limit) && Fresh(s.minted, ids) && Work(s) <= |ids|
    ensures CanBeCollected(s, now, limit)
  {
    hide Drains, Ready, AllSettle, IsCollected, DrainGarbage, Fresh, Work;
    var ss, cs := DrainsExist(s, now, limit, ids, Work(s));
    DrainingConverges(ss, cs, now, limit, |cs|);
  }

  /**
   Repeated drains past every expiry collect everything exactly when no reservation or queue
   row has a scope with `.` or `..` in it, no counter of attempts has run over, and every
   stored body is where a row expects it.
   */
  lemma ConvergesIff(s: State, now: Millis, limit: nat, ids: seq<string>)
    requires InOrder(s, now) && ValidGcRequest(now, limit) && Fresh(s.minted, ids) && Work(s) <= |ids|
    ensures CanBeCollected(s, now, limit) <==> AllSettle(s) && IsListed(s)
  {
    hide CanBeCollected, InOrder, Ready, AllSettle, IsListed, Named, Fresh, Work;
    InOrderIsReady(s, now);
    if !AllSettle(s) {
      UnsettledIsNeverCollected(s, now, limit);
    } else if !IsListed(s) {
      UnlistedIsNeverCollected(s, now, limit);
    } else {
      ReadyCanBeCollected(s, now, limit, ids);
    }
  }

  // ----- Reachable tables are in order -----

  lemma ReachableReservation(w: World, p: PathKey)
    requires GenInv(w) && p in w.store.reservations
    ensures var g := ReservedGen(p, w.store.reservations[p]);
            && g in w.past.origin && w.past.origin[g] == p && IsId(g.name)
            && PlacesOf(w, g) == RESERVED
  {
    hide ObjectKey, IsId, LeasedAreGarbage;
    var g := ReservedGen(p, w.store.reservations[p]);
    assert IsReserved(w, g) && IsPhase(PlacesOf(w, g));
  }

  lemma ReachableRow(w: World, k: string)
    requires GenInv(w) && k in w.store.queue
    ensures var g := w.store.queue[k].gen;
            g in w.past.origin && IsId(g.name) && k == ObjectKey(g) && PlacesOf(w, g) == QUEUED
  {
    hide ObjectKey, IsId, LeasedAreGarbage;
    var g := w.store.queue[k].gen;
    assert IsQueued(w, g) && IsPhase(PlacesOf(w, g));
  }

  /** A published key carries its own generation, possibly under an adapter prefix, and has its body. */
  lemma ReachablePath(w: World, sha: Sha, p: PathKey)
    requires Inv(w, sha) && p in w.store.paths
    ensures var row := w.store.paths[p];
            var g := PublishedGen(p, row);
            && g in w.past.origin && w.past.origin[g] == p && IsId(g.name) && PlacesOf(w, g) == PUBLISHED
            && row.objectKey in w.past.stored && w.past.stored[row.objectKey].gen == g
            && row.objectKey == PrefixedKey(w.past.stored[row.objectKey].prefix, g)
            && row.objectKey in w.store.bodies
  {
    hide ObjectKey, PrefixedKey, IsId, LeasedAreGarbage, CheckInv;
    var g := PublishedGen(p, w.store.paths[p]);
    assert PathEntry(w, sha, p) && StoredEntry(w, w.store.paths[p].objectKey);
    assert IsPublished(w, g) && IsPhase(PlacesOf(w, g));
    PublishedIsNotErased(w, p);
  }

  lemma SamePrefixedKey(p: string, g: Generation, q: string, h: Generation)
    requires IsId(g.name) && IsId(h.name) && PrefixedKey(p, g) == PrefixedKey(q, h)
    ensures g == h
  {
    hide PrefixedKey;
    IdIsSlashFree(g.name);
    IdIsSlashFree(h.name);
    KeysAreInjective(p, g, q, h);
  }

  lemma KeysOfReservations(w: World)
    requires GenInv(w)
    ensures var s := w.store;
            && KeyedByGeneration(s.queue)
            && (forall p | p in s.reservations :: IsId(s.reservations[p].generation) && ReservedKey(s, p) !in s.queue)
            && (forall p, q | p in s.reservations && q in s.reservations && p != q :: ReservedKey(s, p) != ReservedKey(s, q))
  {
    var s := w.store;
    assert KeyedByGeneration(s.queue);
    hide GenInv, ObjectKey, IsId;
    forall p | p in s.reservations ensures IsId(s.reservations[p].generation) && ReservedKey(s, p) !in s.queue {
      ReachableReservation(w, p);
    }
    hide PlacesOf;
    forall p, q | p in s.reservations && q in s.reservations && p != q ensures ReservedKey(s, p) != ReservedKey(s, q) {
      ReachableReservation(w, p);
      ReachableReservation(w, q);
      if ReservedKey(s, p) == ReservedKey(s, q) {
        SameKeySameGeneration(ReservedGen(p, s.reservations[p]), ReservedGen(q, s.reservations[q]));
      }
    }
  }

  lemma KeysOfPaths(w: World, sha: Sha)
    requires Inv(w, sha)
    ensures var s := w.store;
            && (forall p | p in s.paths :: s.paths[p].objectKey !in s.queue)
            && (forall p, q | p in s.paths && q in s.reservations :: ReservedKey(s, q) != s.paths[p].objectKey)
            && PublishedKeys(s) <= s.bodies.Keys
  {
    var s := w.store;
    assert GenInv(w);
    hide Inv, GenInv, PlacesOf, PrefixedKey, IsId;
    forall p | p in s.paths ensures s.paths[p].objectKey !in s.queue && s.paths[p].objectKey in s.bodies {
      var key := s.paths[p].objectKey;
      ReachablePath(w, sha, p);
      if key in s.queue {
        ReachableRow(w, key);
        SamePrefixedKey(w.past.stored[key].prefix, PublishedGen(p, s.paths[p]), "", s.queue[key].gen);
      }
    }
    forall p, q | p in s.paths && q in s.reservations ensures ReservedKey(s, q) != s.paths[p].objectKey {
      var key := s.paths[p].objectKey;
      ReachablePath(w, sha, p);
      ReachableReservation(w, q);
      if ReservedKey(s, q) == key {
        SamePrefixedKey(w.past.stored[key].prefix, PublishedGen(p, s.paths[p]), "", ReservedGen(q, s.reservations[q]));
      }
    }
  }

  lemma ReachableIsInOrder(w: World, sha: Sha, now: Millis)
    requires Inv(w, sha) && AllDue(w.store, now)
    ensures InOrder(w.store, now)
  {
    hide AllDue, GenInv, StoredInv, CheckInv, PathInv, PublishedKeys, ReservedKey, IsId, KeyedByGeneration;
    KeysOfReservations(w);
    KeysOfPaths(w, sha);
  }

  // ----- Bodies where their rows expect them -----

  /** The key under which the row of `g` expects the body: published rows name it, others imply it. */
  function RowKey(w: World, g: Generation): string {
    if IsPublished(w, g) then w.store.paths[w.past.origin[g]].objectKey else ObjectKey(g)
  }

  /** No stored body is under another key than the one its row expects. */
  predicate AreAtTheirRows(w: World) {
    forall key | key in w.store.bodies && key in w.past.stored :: key == RowKey(w, w.past.stored[key].gen)
  }

  lemma ListedHasRow(w: World, sha: Sha, key: string)
    requires Inv(w, sha) && key in w.store.bodies && key in ListedKeys(w.store)
    ensures key in w.past.stored && !IsOrphan(w, key) && key == RowKey(w, w.past.stored[key].gen)
  {
    var s := w.store;
    StoredGeneration(w, sha, key);
    hide Inv, GenInv, PrefixedKey, IsId;
    var b := w.past.stored[key];
    if key in s.queue {
      ReachableRow(w, key);
      SamePrefixedKey(b.prefix, b.gen, "", s.queue[key].gen);
    } else if key in ReservedKeys(s) {
      var p :| p in s.reservations && ReservedKey(s, p) == key;
      ReachableReservation(w, p);
      SamePrefixedKey(b.prefix, b.gen, "", ReservedGen(p, s.reservations[p]));
    } else {
      var p :| p in s.paths && s.paths[p].objectKey == key;
      ReachablePath(w, sha, p);
    }
  }

  lemma RowListsKey(w: World, sha: Sha, key: string)
    requires Inv(w, sha) && key in w.store.bodies
    requires key in w.past.stored && !IsOrphan(w, key) && key == RowKey(w, w.past.stored[key].gen)
    ensures key in ListedKeys(w.store)
  {
    var s, g := w.store, w.past.stored[key].gen;
    StoredGeneration(w, sha, key);
    assert IsPhase(PlacesOf(w, g)) by {
      hide PlacesOf, PrefixedKey, IsId, StoredInv, CheckInv, PathInv, LeasedAreGarbage, Traced;
    }
    hide Inv, GenInv, ObjectKey, PrefixedKey, IsId;
    if IsReserved(w, g) {
      assert ReservedKey(s, w.past.origin[g]) in ReservedKeys(s);
    } else if IsPublished(w, g) {
      assert s.paths[w.past.origin[g]].objectKey in PublishedKeys(s);
    }
  }

  /** Every stored body is where a row expects it exactly if none is an orphan or misplaced. */
  lemma ListedIff(w: World, sha: Sha)
    requires Inv(w, sha)
    ensures IsListed(w.store) <==> HasNoOrphan(w) && AreAtTheirRows(w)
  {
    hide Inv, ListedKeys, RowKey, IsOrphan;
    if IsListed(w.store) {
      forall key | key in w.store.bodies
        ensures key in w.past.stored && !IsOrphan(w, key) && key == RowKey(w, w.past.stored[key].gen)
      {
        ListedHasRow(w, sha, key);
      }
    } else {
      var key :| key in w.store.bodies && key !in ListedKeys(w.store);
      BodyIsStored(w, sha, key);
      if !IsOrphan(w, key) && key == RowKey(w, w.past.stored[key].gen) {
        RowListsKey(w, sha, key);
      }
    }
  }

  lemma BodyIsStored(w: World, sha: Sha, key: string)
    requires Inv(w, sha) && key in w.store.bodies
    ensures key in w.past.stored
  {
    hide GenInv, CheckInv, PathInv, StoredEntry, PlacesOf;
  }

  lemma UnprefixedAreAtTheirRows(w: World, sha: Sha)
    requires Inv(w, sha) && AreStoredUnder(w, "")
    ensures AreAtTheirRows(w)
  {
    hide Inv, GenInv, PlacesOf, IsId, IsPublished;
    forall key | key in w.store.bodies && key in w.past.stored ensures key == RowKey(w, w.past.stored[key].gen) {
      var g := w.past.stored[key].gen;
      StoredGeneration(w, sha, key);
      if IsPublished(w, g) {
        PublishedRowKey(w, sha, g);
      }
    }
  }

  lemma PublishedRowKey(w: World, sha: Sha, g: Generation)
    requires Inv(w, sha) && AreStoredUnder(w, "") && IsPublished(w, g)
    ensures RowKey(w, g) == ObjectKey(g)
  {
    hide Inv, PlacesOf, IsId;
    ReachablePath(w, sha, w.past.origin[g]);
  }

  // ----- Runs -----

  /**
   In every run, with writes that land late and any adapter prefix: once nobody works any more
   and everything is past its time, repeated drains can end with no reservation, an empty queue
   and exactly the bodies of the current publications; and they can exactly if every row can be
   settled, no acknowledged generation has a stored body, and no body is under a key that its
   row does not expect.
   */
  lemma RunsConverge(
    sha: Sha, ws: seq<World>, es: seq<Event>, i: nat, now: Millis, limit: nat, ids: seq<string>)
    requires Run(sha, ws, es) && i <= |es| && AllDue(ws[i].store, now) && ValidGcRequest(now, limit)
    requires Fresh(ws[i].store.minted, ids) && Work(ws[i].store) <= |ids|
    ensures CanBeCollected(ws[i].store, now, limit) <==>
            AllSettle(ws[i].store) && HasNoOrphan(ws[i]) && AreAtTheirRows(ws[i])
  {
    hide Run, AllSettle, HasNoOrphan, AreAtTheirRows, IsListed, InOrder, AllDue, CanBeCollected, Fresh, Work;
    hide Inv, PubInv, TokensInv;
    RunLength(sha, ws, es);
    RunInvariant(sha, ws, es, i);
    ReachableIsInOrder(ws[i], sha, now);
    ConvergesIff(ws[i].store, now, limit, ids);
    ListedIff(ws[i], sha);
  }

  /** Then every sequence of drains that is long enough ends so, and changes no published body. */
  lemma RunsStayCollected(
    sha: Sha, ws: seq<World>, es: seq<Event>, i: nat, now: Millis, limit: nat, ss: seq<State>, cs: seq<ClaimChoice>)
    requires Run(sha, ws, es) && i <= |es| && AllDue(ws[i].store, now) && ValidGcRequest(now, limit)
    requires AllSettle(ws[i].store) && HasNoOrphan(ws[i]) && AreAtTheirRows(ws[i])
    requires Drains(ss, cs, now, limit) && ss[0] == ws[i].store && |cs| >= Work(ws[i].store)
    ensures |ss| == |cs| + 1 && IsCollected(ss[|cs|])
    ensures ss[|cs|].paths == ws[i].store.paths && Within(ss[|cs|].bodies, ws[i].store.bodies)
  {
    hide Run, AllSettle, HasNoOrphan, AreAtTheirRows, IsListed, InOrder, AllDue, Drains, IsCollected, Within, Work;
    hide Inv, PubInv, TokensInv, Ready;
    RunLength(sha, ws, es);
    RunInvariant(sha, ws, es, i);
    ReachableIsInOrder(ws[i], sha, now);
    ListedIff(ws[i], sha);
    InOrderIsReady(ws[i].store, now);
    DrainingConverges(ss, cs, now, limit, |cs|);
    DrainsMakeProgress(ss, cs, now, limit, |cs|);
  }

  /** Without adapter prefixes, what can go wrong is a row that cannot be settled, or a write past an acknowledgement. */
  lemma UnprefixedRunsConverge(
    sha: Sha, ws: seq<World>, es: seq<Event>, i: nat, now: Millis, limit: nat, ids: seq<string>)
    requires Run(sha, ws, es) && i <= |es| && forall m | 0 <= m < i :: WritesUnder(es[m], "")
    requires AllDue(ws[i].store, now) && ValidGcRequest(now, limit)
    requires Fresh(ws[i].store.minted, ids) && Work(ws[i].store) <= |ids|
    ensures CanBeCollected(ws[i].store, now, limit) <==> AllSettle(ws[i].store) && HasNoOrphan(ws[i])
  {
    hide Run, AllSettle, HasNoOrphan, AreAtTheirRows, AllDue, CanBeCollected, Fresh, Work, WritesUnder, AreStoredUnder;
    hide Inv, PubInv, TokensInv;
    RunStoresUnder(sha, ws, es, i, "");
    RunInvariant(sha, ws, es, i);
    UnprefixedAreAtTheirRows(ws[i], sha);
    RunsConverge(sha, ws, es, i, now, limit, ids);
  }

  // ----- A first reservation -----

  /** The tables after a first request was granted, and perhaps its body uploaded. */
  predicate HasOneRow(s: State, p: PathKey, row: ReservationRow, ids: ReserveIds) {
    && s.reservations == map[p := row] && s.queue == map[] && s.paths == map[]
    && s.bodies.Keys <= {ObjectKey(ReservedGen(p, row))}
    && s.retentions == map[] && s.minted == {ids.artifact, ids.token, ids.generation}
  }

  function FirstRow(req: ReserveRequest, ids: ReserveIds): ReservationRow
    requires DecideReserve(EMPTY, req).Grant?
  {
    ReservationRow(ids.artifact, 1, ids.token, ids.generation, req.now + req.ttl)
  }

  lemma FirstReservation(req: ReserveRequest, ids: ReserveIds)
    requires DecideReserve(EMPTY, req).Grant?
    ensures HasOneRow(Reserve(EMPTY, req, ids).state, req.Key(), FirstRow(req, ids), ids)
    ensures Reserve(EMPTY, req, ids).state.bodies == map[]
    ensures Reserve(EMPTY, req, ids).result == Ok(RowReservation(req.Key(), FirstRow(req, ids)))
  {
    hide ValidRequestId;
  }

  lemma OneRowIsAlone(s: State, p: PathKey, row: ReservationRow, ids: ReserveIds)
    requires HasOneRow(s, p, row, ids) && IsId(row.generation)
    ensures Disjoint(s) && Accounts(s)
  {
    hide ReservedKey, IsId;
    assert s.reservations[p] == row && PublishedKeys(s) == {};
    OneReservedKey(s, p, row, ids);
  }

  lemma OneReservedKey(s: State, p: PathKey, row: ReservationRow, ids: ReserveIds)
    requires HasOneRow(s, p, row, ids)
    ensures ReservedKeys(s) == {ObjectKey(ReservedGen(p, row))}
  {
    hide ObjectKey;
    assert s.reservations[p] == row && ReservedKey(s, p) == ObjectKey(ReservedGen(p, row));
  }

  lemma OneRowIsReady(s: State, p: PathKey, row: ReservationRow, ids: ReserveIds, now: Millis)
    requires HasOneRow(s, p, row, ids) && IsId(row.generation) && SatAdd(row.expiresAt, GC_SETTLEMENT_GRACE_MS) <= now
    ensures Ready(s, now) && (AllSettle(s) <==> !IsDotScope(p.scope)) && Work(s) == 2
  {
    hide Disjoint, Accounts, IsId, IsDotScope;
    OneRowIsAlone(s, p, row, ids);
    assert s.reservations[p] == row && |s.reservations| == 1;
  }

  /**
   A first reservation, once it has expired with its grace, can be collected exactly if its scope
   has no `.` or `..` in it.
   */
  lemma FirstReservationConverges(req: ReserveRequest, ids: ReserveIds, now: Millis, limit: nat, tokens: seq<string>)
    requires DecideReserve(EMPTY, req).Grant? && Fresh(EMPTY.minted, ids.All()) && ValidGcRequest(now, limit)
    requires SatAdd(req.now + req.ttl, GC_SETTLEMENT_GRACE_MS) <= now
    requires Fresh({ids.artifact, ids.token, ids.generation}, tokens) && |tokens| >= 2
    ensures CanBeCollected(Reserve(EMPTY, req, ids).state, now, limit) <==> !IsDotScope(req.scope)
  {
    hide CanBeCollected, DecideReserve, NewReservationRow, Ready, AllSettle, Work, Reserve, IsId, IsDotScope, SatAdd;
    FirstReservation(req, ids);
    var s := Reserve(EMPTY, req, ids).state;
    assert ids.All()[2] == ids.generation;
    OneRowIsReady(s, req.Key(), FirstRow(req, ids), ids, now);
    ReadyIsInOrder(s, now);
    hide Fresh;
    ConvergesIff(s, now, limit, tokens);
  }

  lemma ReadyIsInOrder(s: State, now: Millis)
    requires Ready(s, now)
    ensures InOrder(s, now) && IsListed(s)
  {
    hide Disjoint, AllDue;
  }

  const DOT_REQUEST := ReserveRequest("r", Scope(".", "p"), "file", None, 1, 1)
  const DOT_IDS := ReserveIds("a", "t", "g")

  lemma DotRequestIsGranted()
    ensures DecideReserve(EMPTY, DOT_REQUEST).Grant? && IsDotScope(DOT_REQUEST.scope)
    ensures Fresh(EMPTY.minted, DOT_IDS.All())
  {
  }

  /** The identifier rule lets a tenant be `.`; what it reserves can never be collected. */
  lemma DotTenantIsNeverCollected(now: Millis, limit: nat)
    requires now > 60_002 && ValidGcRequest(now, limit)
    ensures var done := Reserve(EMPTY, DOT_REQUEST, DOT_IDS);
            && Fresh(EMPTY.minted, DOT_IDS.All()) && done.result.Ok?
            && AllDue(done.state, now) && !CanBeCollected(done.state, now, limit)
  {
    hide CanBeCollected, Reserve, DecideReserve, Fresh, IsDotScope, AllSettle;
    DotRequestIsGranted();
    FirstReservation(DOT_REQUEST, DOT_IDS);
    var s := Reserve(EMPTY, DOT_REQUEST, DOT_IDS).state;
    OneRowIsReady(s, DOT_REQUEST.Key(), FirstRow(DOT_REQUEST, DOT_IDS), DOT_IDS, now);
    ReadyIsInOrder(s, now);
    hide Ready;
    InOrderIsReady(s, now);
    hide InOrder, Named;
    UnsettledIsNeverCollected(s, now, limit);
  }
}
