/**
 The life of a generation: minted for a reservation, published, queued for collection,
 acknowledged. It is in exactly one of these phases and only moves forward, which is what
 keeps collectors away from every body that can still be read.
 */
module Generations {
  import opened Keys
  import opened Catalog
  import opened Protocol

  predicate IsReserved(w: World, g: Generation) {
    && g in w.past.origin
    && w.past.origin[g] in w.store.reservations
    && ReservedGen(w.past.origin[g], w.store.reservations[w.past.origin[g]]) == g
  }

  predicate IsPublished(w: World, g: Generation) {
    && g in w.past.origin
    && w.past.origin[g] in w.store.paths
    && PublishedGen(w.past.origin[g], w.store.paths[w.past.origin[g]]) == g
  }

  predicate IsQueued(w: World, g: Generation) {
    ObjectKey(g) in w.store.queue
  }

  predicate IsAcked(w: World, g: Generation) {
    g in w.past.acked
  }

  /** The tables that hold a generation. */
  datatype Places = Places(reserved: bool, published: bool, queued: bool, acked: bool)

  function PlacesOf(w: World, g: Generation): Places {
    Places(IsReserved(w, g), IsPublished(w, g), IsQueued(w, g), IsAcked(w, g))
  }

  const RESERVED := Places(true, false, false, false)
  const PUBLISHED := Places(false, true, false, false)
  const QUEUED := Places(false, false, true, false)
  const ACKED := Places(false, false, false, true)

  predicate IsPhase(f: Places) {
    f == RESERVED || f == PUBLISHED || f == QUEUED || f == ACKED
  }

  function Rank(f: Places): nat {
    if f == RESERVED then 0 else if f == PUBLISHED then 1 else if f == QUEUED then 2 else 3
  }

  predicate KeyedByGeneration(queue: map<string, QueueRow>) {
    forall k | k in queue :: k == ObjectKey(queue[k].gen) && IsId(queue[k].gen.name)
  }

  /** Every table entry belongs to a generation minted for its path. */
  predicate Traced(w: World) {
    var s, h := w.store, w.past;
    && (forall p | p in s.reservations ::
          ReservedGen(p, s.reservations[p]) in h.origin && h.origin[ReservedGen(p, s.reservations[p])] == p)
    && (forall p | p in s.paths ::
          PublishedGen(p, s.paths[p]) in h.origin && h.origin[PublishedGen(p, s.paths[p])] == p)
    && KeyedByGeneration(s.queue)
    && (forall k | k in s.queue :: s.queue[k].gen in h.origin)
    && (forall g | g in h.acked :: g in h.origin)
    && (forall g | g in h.origin :: IsId(g.name) && g.name in s.minted)
  }

  predicate Phased(w: World) {
    forall g | g in w.past.origin :: IsPhase(PlacesOf(w, g))
  }

  predicate IsGarbage(w: World, lease: GarbageLease) {
    && lease.objectKey == ObjectKey(lease.gen)
    && lease.gen in w.past.origin
    && Rank(PlacesOf(w, lease.gen)) >= 2
  }

  predicate LeasedAreGarbage(w: World) {
    forall i | 0 <= i < |w.past.leases| :: IsGarbage(w, w.past.leases[i].lease)
  }

  ghost predicate GenInv(w: World) {
    Traced(w) && Phased(w) && LeasedAreGarbage(w)
  }

  /** No generation is forgotten, changes its path, or falls back to an earlier phase. */
  ghost predicate Forward(w: World, v: World) {
    forall g | g in w.past.origin ::
      && g in v.past.origin && v.past.origin[g] == w.past.origin[g]
      && Rank(PlacesOf(w, g)) <= Rank(PlacesOf(v, g))
  }

  // ----- Keys and the queue -----

  lemma SameKeySameGeneration(g: Generation, h: Generation)
    requires IsId(g.name) && IsId(h.name) && ObjectKey(g) == ObjectKey(h)
    ensures g == h
  {
    IdIsSlashFree(g.name);
    IdIsSlashFree(h.name);
    KeysAreInjective("", g, "", h);
  }

  lemma EnqueueAdds(queue: map<string, QueueRow>, g: Generation, notBefore: StoredMillis)
    requires KeyedByGeneration(queue) && IsId(g.name)
    ensures var q := Enqueue(queue, g, notBefore);
            && KeyedByGeneration(q)
            && q.Keys == queue.Keys + {ObjectKey(g)}
            && (forall k | k in q :: q[k].gen == if k in queue then queue[k].gen else g)
            && forall h: Generation | IsId(h.name) :: ObjectKey(h) in q <==> ObjectKey(h) in queue || h == g
  {
    var q := Enqueue(queue, g, notBefore);
    forall h: Generation | IsId(h.name)
      ensures ObjectKey(h) in q <==> ObjectKey(h) in queue || h == g
    {
      if ObjectKey(h) == ObjectKey(g) {
        SameKeySameGeneration(g, h);
      }
    }
  }

  // ----- How a step moves generations -----

  predicate Moves(f: Places, g: Places) {
    f == g || (IsPhase(g) && Rank(f) <= Rank(g))
  }

  /** The step keeps every minted generation, moves it forward or not at all, and grants no stray lease. */
  ghost predicate Advances(w: World, v: World) {
    && Traced(v)
    && (forall g | g in w.past.origin ::
          g in v.past.origin && v.past.origin[g] == w.past.origin[g] && Moves(PlacesOf(w, g), PlacesOf(v, g)))
    && (forall g | g in v.past.origin && g !in w.past.origin :: PlacesOf(v, g) == RESERVED)
  }

  lemma AdvancePhased(w: World, v: World)
    requires Phased(w) && Advances(w, v)
    ensures Phased(v) && Forward(w, v)
  {
    hide PlacesOf, Traced;
  }

  lemma AdvanceKeeps(w: World, v: World)
    requires GenInv(w) && Advances(w, v)
    requires |w.past.leases| <= |v.past.leases| && v.past.leases[..|w.past.leases|] == w.past.leases
    requires forall i | |w.past.leases| <= i < |v.past.leases| :: IsGarbage(v, v.past.leases[i].lease)
    ensures GenInv(v) && Forward(w, v)
  {
    AdvancePhased(w, v);
    hide PlacesOf, Traced, Phased, ObjectKey, Advances;
    forall i | 0 <= i < |w.past.leases| ensures IsGarbage(v, v.past.leases[i].lease) {
      assert v.past.leases[i] == v.past.leases[..|w.past.leases|][i] == w.past.leases[i];
      assert IsGarbage(w, w.past.leases[i].lease);
    }
  }

  lemma AdvanceTwice(u: World, w: World, v: World)
    requires Phased(u) && Advances(u, w) && Advances(w, v) && w.past.origin == u.past.origin
    ensures Advances(u, v)
  {
    hide PlacesOf, Traced;
  }

  function RetireWorld(w: World, p: PathKey): World
    requires p in w.store.reservations
  {
    World(Retire(w.store, p), w.past)
  }

  lemma RetireTraced(w: World, p: PathKey)
    requires Traced(w) && p in w.store.reservations
    ensures Traced(RetireWorld(w, p))
    ensures forall h: Generation | IsId(h.name) ::
              IsQueued(RetireWorld(w, p), h) <==> IsQueued(w, h) || h == ReservedGen(p, w.store.reservations[p])
  {
    hide ObjectKey, IsId;
    var row := w.store.reservations[p];
    EnqueueAdds(w.store.queue, ReservedGen(p, row), SatAdd(row.expiresAt, GC_SETTLEMENT_GRACE_MS));
  }

  lemma RetireMoves(w: World, p: PathKey, g: Generation)
    requires Traced(w) && Phased(w) && p in w.store.reservations && g in w.past.origin
    ensures Moves(PlacesOf(w, g), PlacesOf(RetireWorld(w, p), g))
  {
    hide ObjectKey, IsId, Enqueue;
    RetireTraced(w, p);
    if g == ReservedGen(p, w.store.reservations[p]) {
      assert IsReserved(w, g) && PlacesOf(RetireWorld(w, p), g) == QUEUED;
    } else {
      assert PlacesOf(RetireWorld(w, p), g) == PlacesOf(w, g);
    }
  }

  lemma RetireAdvances(w: World, p: PathKey)
    requires Traced(w) && Phased(w) && p in w.store.reservations
    ensures Advances(w, RetireWorld(w, p))
  {
    hide PlacesOf, Traced, Phased, Moves;
    RetireTraced(w, p);
    forall g | g in w.past.origin ensures Moves(PlacesOf(w, g), PlacesOf(RetireWorld(w, p), g)) {
      RetireMoves(w, p, g);
    }
  }

  function InstallWorld(w: World, req: ReserveRequest, row: ReservationRow, ids: ReserveIds, first: bool): World {
    World(Install(w.store, req, row, ids), RecordGrant(w.past, req, row, first))
  }

  predicate InstallFits(w: World, req: ReserveRequest, row: ReservationRow, ids: ReserveIds) {
    && req.Key() !in w.store.reservations
    && row.generation == ids.generation && IsId(row.generation) && row.generation !in w.store.minted
  }

  lemma InstallTraced(w: World, req: ReserveRequest, row: ReservationRow, ids: ReserveIds, first: bool)
    requires Traced(w) && InstallFits(w, req, row, ids)
    ensures Traced(InstallWorld(w, req, row, ids, first))
  {
    hide ObjectKey;
    assert ReservedGen(req.Key(), row) !in w.past.origin;
  }

  lemma InstallReserves(w: World, req: ReserveRequest, row: ReservationRow, ids: ReserveIds, first: bool)
    requires Traced(w) && InstallFits(w, req, row, ids)
    ensures ReservedGen(req.Key(), row) !in w.past.origin
    ensures PlacesOf(InstallWorld(w, req, row, ids, first), ReservedGen(req.Key(), row)) == RESERVED
  {
    hide ObjectKey;
    var g := ReservedGen(req.Key(), row);
    assert !IsQueued(w, g) by {
      if IsQueued(w, g) {
        SameKeySameGeneration(g, w.store.queue[ObjectKey(g)].gen);
      }
    }
    assert g !in w.past.origin && g !in w.past.acked;
  }

  lemma InstallAdvances(w: World, req: ReserveRequest, row: ReservationRow, ids: ReserveIds, first: bool)
    requires Traced(w) && Phased(w) && InstallFits(w, req, row, ids)
    ensures Advances(w, InstallWorld(w, req, row, ids, first))
  {
    hide ObjectKey, Traced;
    InstallTraced(w, req, row, ids, first);
    InstallReserves(w, req, row, ids, first);
    var v, g := InstallWorld(w, req, row, ids, first), ReservedGen(req.Key(), row);
    forall h | h in w.past.origin ensures PlacesOf(v, h) == PlacesOf(w, h) {
      assert h != g;
    }
  }

  function ReplaceWorld(w: World, r: Reservation, o: Observation, now: Millis, past: History): World
    requires ReplaceFits(w, r, o, now, past)
  {
    World(Replace(w.store, r, o, now), past)
  }

  predicate ReplaceFits(w: World, r: Reservation, o: Observation, now: Millis, past: History) {
    && r.Key() in w.store.reservations && RowReservation(r.Key(), w.store.reservations[r.Key()]) == r
    && (r.Key() in w.store.paths ==> w.store.paths[r.Key()].objectKey != o.objectKey && now > 0)
    && SatAdd(now, RECEIPT_RETENTION_MS) > 0
    && past == w.past.(log := past.log)
  }

  lemma ReplaceQueues(w: World, r: Reservation, o: Observation, now: Millis, past: History)
    requires Traced(w) && ReplaceFits(w, r, o, now, past)
    ensures var v := ReplaceWorld(w, r, o, now, past);
            && KeyedByGeneration(v.store.queue)
            && (forall k | k in v.store.queue :: v.store.queue[k].gen in w.past.origin)
            && forall h: Generation | IsId(h.name) ::
                 IsQueued(v, h) <==>
                 || IsQueued(w, h)
                 || (r.Key() in w.store.paths && h == PublishedGen(r.Key(), w.store.paths[r.Key()]))
  {
    hide ObjectKey, IsId;
    var p := r.Key();
    if p in w.store.paths {
      EnqueueAdds(w.store.queue, PublishedGen(p, w.store.paths[p]), now);
    }
  }

  lemma ReplaceTraced(w: World, r: Reservation, o: Observation, now: Millis, past: History)
    requires Traced(w) && ReplaceFits(w, r, o, now, past)
    ensures Traced(ReplaceWorld(w, r, o, now, past))
  {
    hide ObjectKey, IsId, Enqueue, KeyedByGeneration;
    ReplaceQueues(w, r, o, now, past);
    assert ReservedGen(r.Key(), w.store.reservations[r.Key()]) == r.Gen();
  }

  lemma ReplaceMoves(w: World, r: Reservation, o: Observation, now: Millis, past: History, g: Generation)
    requires Traced(w) && Phased(w) && ReplaceFits(w, r, o, now, past) && g in w.past.origin
    ensures Moves(PlacesOf(w, g), PlacesOf(ReplaceWorld(w, r, o, now, past), g))
  {
    hide ObjectKey, IsId, Enqueue, KeyedByGeneration;
    ReplaceQueues(w, r, o, now, past);
    var v, p := ReplaceWorld(w, r, o, now, past), r.Key();
    if g == r.Gen() {
      assert IsReserved(w, g) && PlacesOf(v, g) == PUBLISHED;
    } else if p in w.store.paths && g == PublishedGen(p, w.store.paths[p]) {
      assert IsPublished(w, g) && PlacesOf(v, g) == QUEUED;
    } else {
      if w.past.origin[g] == p {
        assert !IsPublished(w, g) && !IsPublished(v, g) && !IsReserved(w, g) && !IsReserved(v, g);
      }
      assert PlacesOf(v, g) == PlacesOf(w, g);
    }
  }

  lemma ReplaceAdvances(w: World, r: Reservation, o: Observation, now: Millis, past: History)
    requires Traced(w) && Phased(w) && ReplaceFits(w, r, o, now, past)
    ensures Advances(w, ReplaceWorld(w, r, o, now, past))
  {
    hide PlacesOf, Traced, ObjectKey, IsId;
    ReplaceTraced(w, r, o, now, past);
    forall g | g in w.past.origin
      ensures Moves(PlacesOf(w, g), PlacesOf(ReplaceWorld(w, r, o, now, past), g))
    {
      ReplaceMoves(w, r, o, now, past, g);
    }
  }

  lemma {:induction false} ReapAdvances(w: World, keys: seq<PathKey>)
    requires Traced(w) && Phased(w) && AllReserved(w.store, keys)
    ensures Advances(w, World(Reap(w.store, keys), w.past))
  {
    if keys == [] {
      assert Reap(w.store, keys) == w.store;
    } else {
      var n := |keys| - 1;
      var u := World(Reap(w.store, keys[..n]), w.past);
      ReapAdvances(w, keys[..n]);
      AdvancePhased(w, u);
      assert keys[n] !in keys[..n];
      RetireAdvances(u, keys[n]);
      AdvanceTwice(w, u, RetireWorld(u, keys[n]));
    }
  }

  lemma {:induction false} MarkingKeepsRows(queue: map<string, QueueRow>, keys: seq<string>, ids: seq<string>, until: Millis)
    requires AllQueued(queue, keys) && |ids| == |keys|
    ensures var q := MarkLeased(queue, keys, ids, until);
            forall k | k in queue :: q[k] == queue[k].(lease := q[k].lease)
  {
    if keys != [] {
      MarkingKeepsRows(queue, keys[..|keys| - 1], ids[..|keys| - 1], until);
    }
  }

  /** Worlds whose tables hold the same generations advance nothing. */
  lemma SamePlacesAdvance(w: World, v: World)
    requires Traced(w) && Phased(w)
    requires v.store.reservations == w.store.reservations && v.store.paths == w.store.paths
    requires v.store.queue.Keys == w.store.queue.Keys
    requires forall k | k in w.store.queue :: v.store.queue[k].gen == w.store.queue[k].gen
    requires v.past.acked == w.past.acked && v.past.origin == w.past.origin
    requires w.store.minted <= v.store.minted
    ensures Advances(w, v)
  {
    hide ObjectKey, IsId;
    forall g | g in w.past.origin ensures PlacesOf(v, g) == PlacesOf(w, g) {
    }
  }

  lemma AckMoves(w: World, lease: GarbageLease, past: History, g: Generation)
    requires Traced(w) && Phased(w) && HoldsLease(w.store, lease) && lease.objectKey == ObjectKey(lease.gen)
    requires lease.gen in w.past.origin && past == w.past.(acked := w.past.acked + {lease.gen})
    requires g in w.past.origin
    ensures Moves(PlacesOf(w, g), PlacesOf(World(Acknowledge(w.store, lease), past), g))
  {
    hide ObjectKey, IsId;
    if g == lease.gen {
      assert IsQueued(w, g);
    } else if ObjectKey(g) == ObjectKey(lease.gen) {
      SameKeySameGeneration(g, lease.gen);
    }
  }

  lemma AckAdvances(w: World, lease: GarbageLease, past: History)
    requires Traced(w) && Phased(w) && HoldsLease(w.store, lease) && lease.objectKey == ObjectKey(lease.gen)
    requires lease.gen in w.past.origin && past == w.past.(acked := w.past.acked + {lease.gen})
    ensures Advances(w, World(Acknowledge(w.store, lease), past))
  {
    hide PlacesOf, ObjectKey, IsId;
    var v := World(Acknowledge(w.store, lease), past);
    forall g | g in w.past.origin ensures Moves(PlacesOf(w, g), PlacesOf(v, g)) {
      AckMoves(w, lease, past, g);
    }
  }
}
