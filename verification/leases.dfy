/**
 Leases and read retentions. With a clock that never runs back, a collector gets a lease only
 when every earlier lease on the object has ended, and never while a promised read retention
 of the generation lasts.
 */
module LeaseRules {
  import opened Wrappers
  import opened Keys
  import opened Catalog
  import opened Protocol
  import opened Generations
  import opened Safety

  // ----- Which lease a queue row carries -----

  /** The lease at `i` is the last one granted on `key`. */
  predicate IsLatest(leases: seq<LeaseRecord>, key: string, i: nat) {
    && i < |leases| && leases[i].lease.objectKey == key
    && forall j | i < j < |leases| :: leases[j].lease.objectKey != key
  }

  ghost predicate Carries(leases: seq<LeaseRecord>, key: string, mark: LeaseMark) {
    exists i: nat :: IsLatest(leases, key, i) && leases[i].lease.token == mark.token && leases[i].until == mark.until
  }

  ghost predicate TokensInv(w: World) {
    var s, h := w.store, w.past;
    && (forall i | 0 <= i < |h.leases| :: h.leases[i].lease.token in s.minted)
    && (forall i, j | 0 <= i < j < |h.leases| :: h.leases[i].lease.token != h.leases[j].lease.token)
    && (forall k | k in s.queue && s.queue[k].lease.Some? :: Carries(h.leases, k, s.queue[k].lease.value))
  }

  // ----- What a clock that never runs back adds -----

  /** The lease at `i` was released, is over, is still on its row, or its row is gone. */
  predicate Accounted(w: World, i: nat)
    requires i < |w.past.leases|
  {
    var record := w.past.leases[i];
    var key := record.lease.objectKey;
    || i in w.past.released
    || record.until <= w.past.clock
    || key !in w.store.queue
    || w.store.queue[key].lease == Some(LeaseMark(record.lease.token, record.until))
  }

  /** The retention promised to `g` until `until` has run out or is still in its table. */
  predicate Honoured(w: World, g: Generation, until: Millis) {
    until <= w.past.clock || (g in w.store.retentions && w.store.retentions[g].retainUntil >= until)
  }

  predicate PromiseInv(w: World) {
    var s, h := w.store, w.past;
    && (forall q | q in h.promises :: Honoured(w, q.0, q.1))
    && (forall q, i | q in h.promises && 0 <= i < |h.leases| :: h.leases[i].lease.gen == q.0 ==> q.1 <= h.leases[i].start)
    && (forall q | q in h.promises && q.0 in h.erased :: q.1 <= h.clock)
    && (forall i | 0 <= i < |h.leases| :: h.leases[i].start <= h.clock)
  }

  predicate ForwardInv(w: World) {
    && (forall i | 0 <= i < |w.past.leases| :: Accounted(w, i))
    && PromiseInv(w)
  }

  // ----- Steps that leave the leases alone -----

  /** Rows keep their leases, and new rows have none. */
  predicate SameLeases(before: map<string, QueueRow>, after: map<string, QueueRow>) {
    forall k | k in after ::
      if k in before then after[k].lease == before[k].lease else after[k].lease.None?
  }

  /** No lease is granted, released or settled, and no retention is dropped. */
  predicate Calm(w: World, v: World) {
    var s, t := w.store, v.store;
    && SameLeases(s.queue, t.queue)
    && s.minted <= t.minted
    && t.retentions == s.retentions
    && v.past.leases == w.past.leases && v.past.released == w.past.released && v.past.promises == w.past.promises
    && v.past.erased == w.past.erased && v.past.clock == w.past.clock
  }

  /** A leased object whose row is gone is acknowledged and never gets a row again. */
  lemma GoneStaysGone(w: World, v: World, i: nat)
    requires GenInv(w) && GenInv(v) && Forward(w, v) && i < |w.past.leases|
    requires w.past.leases[i].lease.objectKey !in w.store.queue
    ensures w.past.leases[i].lease.objectKey !in v.store.queue
  {
    hide ObjectKey, Traced;
    var lease := w.past.leases[i].lease;
    assert IsGarbage(w, lease) && IsPhase(PlacesOf(w, lease.gen)) && IsPhase(PlacesOf(v, lease.gen));
    assert !IsQueued(w, lease.gen);
  }

  lemma CalmKeepsTokens(w: World, v: World)
    requires Calm(w, v) && TokensInv(w)
    ensures TokensInv(v)
  {
    hide Carries;
  }

  lemma CalmKeepsPromises(w: World, v: World)
    requires Calm(w, v) && PromiseInv(w)
    ensures PromiseInv(v)
  {
    hide SameLeases;
    forall q | q in v.past.promises ensures Honoured(v, q.0, q.1) {
      assert Honoured(w, q.0, q.1);
    }
  }

  lemma CalmAccounts(w: World, v: World, i: nat)
    requires Calm(w, v) && i < |w.past.leases| && Accounted(w, i)
    requires GenInv(w) && GenInv(v) && Forward(w, v)
    ensures Accounted(v, i)
  {
    hide GenInv, Forward;
    if w.past.leases[i].lease.objectKey !in w.store.queue {
      GoneStaysGone(w, v, i);
    }
  }

  lemma CalmKeeps(w: World, v: World)
    requires Calm(w, v)
    ensures TokensInv(w) ==> TokensInv(v)
    ensures GenInv(w) && GenInv(v) && Forward(w, v) && ForwardInv(w) ==> ForwardInv(v)
  {
    hide TokensInv, GenInv, Forward, Accounted, PromiseInv, SameLeases;
    if TokensInv(w) {
      CalmKeepsTokens(w, v);
    }
    if GenInv(w) && GenInv(v) && Forward(w, v) && ForwardInv(w) {
      CalmKeepsPromises(w, v);
      forall i | 0 <= i < |v.past.leases| ensures Accounted(v, i) {
        CalmAccounts(w, v, i);
      }
    }
  }

  // ----- Granting leases -----

  lemma {:induction false} MarkedRows(queue: map<string, QueueRow>, keys: seq<string>, ids: seq<string>, until: Millis)
    requires AllQueued(queue, keys) && |ids| == |keys|
    ensures var q := MarkLeased(queue, keys, ids, until);
            && (forall i | 0 <= i < |keys| :: q[keys[i]].lease == Some(LeaseMark(ids[i], until)))
            && (forall k | k in queue && k !in keys :: q[k] == queue[k])
  {
    if keys != [] {
      var n := |keys| - 1;
      MarkedRows(queue, keys[..n], ids[..n], until);
      forall i | 0 <= i < n
        ensures MarkLeased(queue, keys, ids, until)[keys[i]].lease == Some(LeaseMark(ids[i], until))
      {
        assert keys[..n][i] == keys[i] != keys[n];
      }
    }
  }

  lemma {:induction false} ReapRows(s: State, keys: seq<PathKey>)
    requires AllReserved(s, keys)
    ensures var t := Reap(s, keys);
            && s.queue.Keys <= t.queue.Keys
            && SameLeases(s.queue, t.queue)
  {
    if keys != [] {
      var n := |keys| - 1;
      ReapRows(s, keys[..n]);
      assert keys[n] !in keys[..n];
      var u := Reap(s, keys[..n]);
      assert Reap(s, keys) == Retire(u, keys[n]);
      hide ObjectKey, Reap;
    }
  }

  /** What the lease query knows about every row it returned. */
  lemma LeasedRowsWereDue(s: State, now: Millis, limit: nat, c: ClaimChoice, i: nat)
    requires ValidChoice(s, now, limit, c) && i < |c.leased|
    ensures ClaimFits(s, c)
    ensures var ready := BeforeLeasing(s, c);
            && c.leased[i] in ready.queue
            && CanLease(c.leased[i], ready.queue[c.leased[i]], ready.paths, ready.reservations, ready.retentions, now)
  {
    hide Reap, Fresh;
  }

  /** `v` is `w` after the claim `c` granted one new lease for each row it chose. */
  predicate LeasesGranted(w: World, v: World, now: Millis, c: ClaimChoice) {
    var n := |w.past.leases|;
    && |c.ids| == |c.leased|
    && |v.past.leases| == n + |c.leased|
    && (forall i | 0 <= i < n :: v.past.leases[i] == w.past.leases[i])
    && (forall i | 0 <= i < |c.leased| ::
          var record := v.past.leases[n + i];
          && record.lease.objectKey == c.leased[i] && record.lease.token == c.ids[i]
          && record.start == now && record.until == SatAdd(now, GC_LEASE_MS)
          && c.leased[i] in v.store.queue
          && v.store.queue[c.leased[i]].lease == Some(LeaseMark(record.lease.token, record.until)))
    && (forall k | k in v.store.queue && k !in c.leased ::
          if k in w.store.queue then v.store.queue[k].lease == w.store.queue[k].lease
          else v.store.queue[k].lease.None?)
  }

  lemma GrantedRecord(w: World, now: Millis, c: ClaimChoice, i: nat)
    requires ClaimFits(w.store, c) && i < |c.leased|
    ensures var v := ClaimWorld(w, now, c);
            && |v.past.leases| == |w.past.leases| + |c.leased|
            && var record := v.past.leases[|w.past.leases| + i];
               && record.lease.objectKey == c.leased[i] && record.lease.token == c.ids[i]
               && record.start == now && record.until == SatAdd(now, GC_LEASE_MS)
               && c.leased[i] in v.store.queue
               && v.store.queue[c.leased[i]].lease == Some(LeaseMark(record.lease.token, record.until))
  {
    hide Reap, MarkLeased, SatAdd, AllReserved;
    var v, ready := ClaimWorld(w, now, c), BeforeLeasing(w.store, c);
    MarkedRows(ready.queue, c.leased, c.ids, SatAdd(now, GC_LEASE_MS));
    assert v.past.leases[|w.past.leases| + i] == NewRecords(Leases(ready.queue, c.leased, c.ids), now)[i];
  }

  lemma RowsNotGranted(w: World, now: Millis, c: ClaimChoice, k: string)
    requires ClaimFits(w.store, c) && k in ClaimWorld(w, now, c).store.queue && k !in c.leased
    ensures var v := ClaimWorld(w, now, c);
            if k in w.store.queue then v.store.queue[k].lease == w.store.queue[k].lease
            else v.store.queue[k].lease.None?
  {
    hide Reap, MarkLeased, SatAdd, AllReserved, NewRecords, Leases;
    ReapRows(w.store, c.reaped);
    MarkedRows(BeforeLeasing(w.store, c).queue, c.leased, c.ids, SatAdd(now, GC_LEASE_MS));
  }

  lemma OldRecords(w: World, now: Millis, c: ClaimChoice)
    requires ClaimFits(w.store, c)
    ensures w.past.leases <= ClaimWorld(w, now, c).past.leases
    ensures |ClaimWorld(w, now, c).past.leases| == |w.past.leases| + |c.leased|
    ensures ClaimWorld(w, now, c).past.clock == w.past.clock
  {
    hide BeforeLeasing, AfterLeasing;
  }

  lemma ClaimGrants(w: World, now: Millis, c: ClaimChoice)
    requires ClaimFits(w.store, c)
    ensures LeasesGranted(w, ClaimWorld(w, now, c), now, c)
  {
    hide ClaimWorld, BeforeLeasing, SatAdd;
    var v := ClaimWorld(w, now, c);
    OldRecords(w, now, c);
    forall i | 0 <= i < |c.leased|
      ensures var record := v.past.leases[|w.past.leases| + i];
              && record.lease.objectKey == c.leased[i] && record.lease.token == c.ids[i]
              && record.start == now && record.until == SatAdd(now, GC_LEASE_MS)
              && c.leased[i] in v.store.queue
              && v.store.queue[c.leased[i]].lease == Some(LeaseMark(record.lease.token, record.until))
    {
      GrantedRecord(w, now, c, i);
    }
    forall k | k in v.store.queue && k !in c.leased
      ensures if k in w.store.queue then v.store.queue[k].lease == w.store.queue[k].lease
              else v.store.queue[k].lease.None?
    {
      RowsNotGranted(w, now, c, k);
    }
  }

  lemma NewRecordIs(w: World, v: World, now: Millis, c: ClaimChoice, i: nat)
    requires LeasesGranted(w, v, now, c) && |w.past.leases| <= i < |v.past.leases|
    ensures var record, l := v.past.leases[i], i - |w.past.leases|;
            && record.lease.objectKey == c.leased[l] && record.lease.token == c.ids[l]
            && record.start == now && record.until == SatAdd(now, GC_LEASE_MS)
            && c.leased[l] in v.store.queue
            && v.store.queue[c.leased[l]].lease == Some(LeaseMark(record.lease.token, record.until))
  {
    var l := i - |w.past.leases|;
    assert v.past.leases[|w.past.leases| + l] == v.past.leases[i];
  }

  lemma GrantedRowCarries(w: World, v: World, now: Millis, c: ClaimChoice, k: string)
    requires LeasesGranted(w, v, now, c) && Distinct(c.leased)
    requires k in v.store.queue && v.store.queue[k].lease.Some?
    requires k in w.store.queue && w.store.queue[k].lease.Some? ==>
               Carries(w.past.leases, k, w.store.queue[k].lease.value)
    ensures Carries(v.past.leases, k, v.store.queue[k].lease.value)
  {
    var n, mark := |w.past.leases|, v.store.queue[k].lease.value;
    if k in c.leased {
      var l :| 0 <= l < |c.leased| && c.leased[l] == k;
      NewRecordIs(w, v, now, c, n + l);
      forall j | n + l < j < |v.past.leases| ensures v.past.leases[j].lease.objectKey != k {
        NewRecordIs(w, v, now, c, j);
      }
      assert IsLatest(v.past.leases, k, n + l);
    } else {
      var i: nat :| IsLatest(w.past.leases, k, i) && w.past.leases[i].lease.token == mark.token
                    && w.past.leases[i].until == mark.until;
      forall j | i < j < |v.past.leases| ensures v.past.leases[j].lease.objectKey != k {
        if j >= n {
          NewRecordIs(w, v, now, c, j);
        }
      }
      assert IsLatest(v.past.leases, k, i);
    }
  }

  lemma ClaimKeepsTokens(w: World, v: World, now: Millis, c: ClaimChoice)
    requires TokensInv(w) && LeasesGranted(w, v, now, c) && Distinct(c.leased) && Fresh(w.store.minted, c.ids)
    requires v.store.minted == w.store.minted + Elements(c.ids)
    ensures TokensInv(v)
  {
    hide LeasesGranted, Carries, IsId;
    forall k | k in v.store.queue && v.store.queue[k].lease.Some?
      ensures Carries(v.past.leases, k, v.store.queue[k].lease.value)
    {
      GrantedRowCarries(w, v, now, c, k);
    }
    forall i | 0 <= i < |v.past.leases| ensures v.past.leases[i].lease.token in v.store.minted {
      GrantedToken(w, v, now, c, i);
    }
    forall i, j | 0 <= i < j < |v.past.leases| ensures v.past.leases[i].lease.token != v.past.leases[j].lease.token {
      GrantedToken(w, v, now, c, i);
      GrantedToken(w, v, now, c, j);
    }
  }

  lemma GrantedToken(w: World, v: World, now: Millis, c: ClaimChoice, i: nat)
    requires LeasesGranted(w, v, now, c) && i < |v.past.leases|
    ensures if i < |w.past.leases| then v.past.leases[i].lease.token == w.past.leases[i].lease.token
            else i - |w.past.leases| < |c.ids| && v.past.leases[i].lease.token == c.ids[i - |w.past.leases|]
  {
    if i >= |w.past.leases| {
      NewRecordIs(w, v, now, c, i);
    }
  }

  // ----- Claims on a clock that never runs back -----

  /** Every earlier lease on a row that the claim leases has been released or is over. */
  lemma EarlierLeaseIsOver(w: World, now: Millis, limit: nat, c: ClaimChoice, i: nat, l: nat)
    requires i < |w.past.leases| && Accounted(w, i) && w.past.clock <= now
    requires GenInv(w) && ValidGcRequest(now, limit) && ValidChoice(w.store, now, limit, c)
    requires l < |c.leased| && w.past.leases[i].lease.objectKey == c.leased[l]
    ensures i in w.past.released || w.past.leases[i].until <= now
  {
    hide ValidChoice, Reap;
    LeasedRowsWereDue(w.store, now, limit, c, l);
    ReapRows(w.store, c.reaped);
    LeasedKeyIsQueued(w, now, limit, c, i, l);
  }

  /** A claim never leases an object whose row was already gone. */
  lemma LeasedKeyIsQueued(w: World, now: Millis, limit: nat, c: ClaimChoice, i: nat, l: nat)
    requires GenInv(w) && i < |w.past.leases| && ValidGcRequest(now, limit) && ValidChoice(w.store, now, limit, c)
    requires l < |c.leased| && w.past.leases[i].lease.objectKey == c.leased[l]
    ensures c.leased[l] in w.store.queue
  {
    ClaimKeepsGen(w, now, limit, c);
    ClaimGrants(w, now, c);
    var v := ClaimWorld(w, now, c);
    assert c.leased[l] in v.store.queue by {
      NewRecordIs(w, v, now, c, |w.past.leases| + l);
    }
    if c.leased[l] !in w.store.queue {
      GoneStaysGone(w, v, i);
    }
  }

  lemma ClaimAccounts(w: World, now: Millis, limit: nat, c: ClaimChoice, i: nat)
    requires GenInv(w) && ValidGcRequest(now, limit) && ValidChoice(w.store, now, limit, c)
    requires ForwardInv(w) && w.past.clock == now
    ensures ClaimFits(w.store, c)
    ensures i < |ClaimWorld(w, now, c).past.leases| ==> Accounted(ClaimWorld(w, now, c), i)
  {
    ClaimKeepsGen(w, now, limit, c);
    ClaimGrants(w, now, c);
    var v, n := ClaimWorld(w, now, c), |w.past.leases|;
    assert v.past.released == w.past.released && v.past.clock == now;
    hide ValidChoice, ClaimWorld, GenInv, Forward, ClaimFits;
    if n <= i < |v.past.leases| {
      NewRecordIs(w, v, now, c, i);
    } else if i < n {
      assert v.past.leases[i] == w.past.leases[i] && Accounted(w, i);
      var key := w.past.leases[i].lease.objectKey;
      if key in c.leased {
        var l :| 0 <= l < |c.leased| && c.leased[l] == key;
        EarlierLeaseIsOver(w, now, limit, c, i, l);
      } else if key !in w.store.queue {
        GoneStaysGone(w, v, i);
      }
    }
  }

  /** A promise about a generation has run out by the time the generation is leased. */
  lemma PromiseIsOver(w: World, now: Millis, limit: nat, c: ClaimChoice, l: nat, until: Millis)
    requires ValidGcRequest(now, limit) && ValidChoice(w.store, now, limit, c) && l < |c.leased|
    requires ClaimFits(w.store, c) && w.past.clock <= now
    requires Honoured(w, BeforeLeasing(w.store, c).queue[c.leased[l]].gen, until)
    ensures until <= now
  {
    LeasedRowsWereDue(w.store, now, limit, c, l);
    var g := BeforeLeasing(w.store, c).queue[c.leased[l]].gen;
    assert FirstDue(c.retentions, DueRetentions(w.store.retentions, now), MAX_GC_BATCH);
    hide ValidChoice, Reap, AllReserved, AllQueued;
  }

  lemma PruningHonours(w: World, now: Millis, limit: nat, c: ClaimChoice, g: Generation, until: Millis)
    requires ValidGcRequest(now, limit) && ValidChoice(w.store, now, limit, c) && ClaimFits(w.store, c)
    requires w.past.clock == now && Honoured(w, g, until)
    ensures Honoured(ClaimWorld(w, now, c), g, until)
  {
    hide ValidChoice, Reap, AllReserved, AllQueued, MarkLeased, Distinct;
    if g in c.retentions {
      PrunedIsDue(w.store, now, limit, c, g);
    }
  }

  lemma PrunedIsDue(s: State, now: Millis, limit: nat, c: ClaimChoice, g: Generation)
    requires ValidChoice(s, now, limit, c) && g in c.retentions
    ensures g in s.retentions && s.retentions[g].retainUntil <= now
  {
    hide BeforeLeasing, AllReserved, AllQueued, Fresh, Distinct;
    assert g in DueRetentions(s.retentions, now);
  }

  lemma PromiseBeforeLease(w: World, now: Millis, limit: nat, c: ClaimChoice, q: (Generation, Millis), i: nat)
    requires ValidGcRequest(now, limit) && ValidChoice(w.store, now, limit, c) && ClaimFits(w.store, c)
    requires PromiseInv(w) && w.past.clock == now && q in w.past.promises
    requires i < |ClaimWorld(w, now, c).past.leases| && ClaimWorld(w, now, c).past.leases[i].lease.gen == q.0
    ensures q.1 <= ClaimWorld(w, now, c).past.leases[i].start <= now
  {
    hide ValidChoice, ClaimFits, BeforeLeasing, AfterLeasing, NewRecords, Leases, AllQueued, Honoured;
    ClaimGrants(w, now, c);
    var v, n := ClaimWorld(w, now, c), |w.past.leases|;
    if i >= n {
      NewRecordIs(w, v, now, c, i);
      ClaimedGeneration(w, now, c, i - n);
      PromiseIsOver(w, now, limit, c, i - n, q.1);
    } else {
      assert v.past.leases[i] == w.past.leases[i];
    }
  }

  lemma ClaimStarts(w: World, now: Millis, c: ClaimChoice, i: nat)
    requires ClaimFits(w.store, c) && w.past.clock == now
    requires forall j | 0 <= j < |w.past.leases| :: w.past.leases[j].start <= now
    requires i < |ClaimWorld(w, now, c).past.leases|
    ensures ClaimWorld(w, now, c).past.leases[i].start <= now
  {
    ClaimGrants(w, now, c);
    if i >= |w.past.leases| {
      NewRecordIs(w, ClaimWorld(w, now, c), now, c, i);
    }
  }

  lemma ClaimKeepsPromises(w: World, now: Millis, limit: nat, c: ClaimChoice)
    requires ValidGcRequest(now, limit) && ValidChoice(w.store, now, limit, c) && ClaimFits(w.store, c)
    requires PromiseInv(w) && w.past.clock == now
    ensures PromiseInv(ClaimWorld(w, now, c))
  {
    hide ValidChoice, ClaimFits, Honoured, BeforeLeasing, AfterLeasing, Leases, NewRecords, AllQueued;
    var v := ClaimWorld(w, now, c);
    assert v.past == w.past.(leases := v.past.leases);
    forall q | q in v.past.promises ensures Honoured(v, q.0, q.1) {
      PruningHonours(w, now, limit, c, q.0, q.1);
    }
    forall q, i | q in v.past.promises && 0 <= i < |v.past.leases| && v.past.leases[i].lease.gen == q.0
      ensures q.1 <= v.past.leases[i].start
    {
      PromiseBeforeLease(w, now, limit, c, q, i);
    }
    forall i | 0 <= i < |v.past.leases| ensures v.past.leases[i].start <= now {
      ClaimStarts(w, now, c, i);
    }
  }

  lemma ClaimedGeneration(w: World, now: Millis, c: ClaimChoice, l: nat)
    requires ClaimFits(w.store, c) && l < |c.leased|
    ensures ClaimWorld(w, now, c).past.leases[|w.past.leases| + l].lease.gen ==
            BeforeLeasing(w.store, c).queue[c.leased[l]].gen
  {
    hide Reap, MarkLeased;
  }

  // ----- Settling and retaining -----

  lemma FailKeeps(w: World, index: nat, now: StoredMillis)
    requires TokensInv(w) && index < |w.past.leases| && HoldsLease(w.store, w.past.leases[index].lease)
    ensures var v := World(FailLease(w.store, w.past.leases[index].lease, now),
                           w.past.(released := w.past.released + {index}));
            TokensInv(v) && (ForwardInv(w) ==> ForwardInv(v))
  {
    hide Power2;
    var lease := w.past.leases[index].lease;
    var v := World(FailLease(w.store, lease, now), w.past.(released := w.past.released + {index}));
    if ForwardInv(w) {
      forall i | 0 <= i < |v.past.leases| ensures Accounted(v, i) {
        assert Accounted(w, i);
      }
      assert PromiseInv(v) by {
        forall q | q in v.past.promises ensures Honoured(v, q.0, q.1) {
          assert Honoured(w, q.0, q.1);
        }
      }
    }
  }

  lemma PublishedIsNotLeased(w: World, p: PathKey, i: nat)
    requires GenInv(w) && p in w.store.paths && i < |w.past.leases|
    ensures w.past.leases[i].lease.gen != PublishedGen(p, w.store.paths[p])
  {
    var g := PublishedGen(p, w.store.paths[p]);
    assert IsPublished(w, g) && PlacesOf(w, g) == PUBLISHED by {
      hide ObjectKey;
    }
    assert IsGarbage(w, w.past.leases[i].lease);
  }

  lemma PublishedIsNotErased(w: World, p: PathKey)
    requires GenInv(w) && StoredInv(w) && p in w.store.paths
    ensures PublishedGen(p, w.store.paths[p]) !in w.past.erased
  {
    var g := PublishedGen(p, w.store.paths[p]);
    assert IsPublished(w, g) && PlacesOf(w, g) == PUBLISHED by {
      hide ObjectKey, StoredInv;
    }
  }

  lemma RetainHonours(w: World, ref: ArtifactReference, until: StoredMillis, q: (Generation, Millis))
    requires ref.body.Object?
    requires q == (Generation(ref.scope, ref.body.generation), until) || Honoured(w, q.0, q.1)
    ensures Honoured(World(Retain(w.store, ref, until), w.past), q.0, q.1)
  {
  }

  lemma RetainKeepsPromises(w: World, ref: ArtifactReference, until: StoredMillis)
    requires PromiseInv(w) && ref.body.Object?
    requires Generation(ref.scope, ref.body.generation) !in w.past.erased
    requires forall i | 0 <= i < |w.past.leases| :: w.past.leases[i].lease.gen != Generation(ref.scope, ref.body.generation)
    ensures PromiseInv(World(Retain(w.store, ref, until),
              w.past.(promises := w.past.promises + {(Generation(ref.scope, ref.body.generation), until)})))
  {
    hide Honoured, Retain;
    var g := Generation(ref.scope, ref.body.generation);
    var v := World(Retain(w.store, ref, until), w.past.(promises := w.past.promises + {(g, until)}));
    forall q | q in v.past.promises ensures Honoured(v, q.0, q.1) {
      RetainHonours(w, ref, until, q);
      HonouredByStore(World(Retain(w.store, ref, until), w.past), v, q.0, q.1);
    }
  }

  lemma HonouredByStore(w: World, v: World, g: Generation, until: Millis)
    requires v.store.retentions == w.store.retentions && v.past.clock == w.past.clock
    ensures Honoured(v, g, until) <==> Honoured(w, g, until)
  {
  }

  lemma RetainKeeps(w: World, p: PathKey, ref: ArtifactReference, until: StoredMillis)
    requires GenInv(w) && StoredInv(w) && ForwardInv(w)
    requires p in w.store.paths && ref == RowReference(p, w.store.paths[p])
    ensures ForwardInv(World(Retain(w.store, ref, until),
              w.past.(promises := w.past.promises + {(Generation(ref.scope, ref.body.generation), until)})))
  {
    hide GenInv, StoredInv, PromiseInv, Accounted;
    var g := Generation(ref.scope, ref.body.generation);
    PublishedIsNotErased(w, p);
    forall i | 0 <= i < |w.past.leases| ensures w.past.leases[i].lease.gen != g {
      PublishedIsNotLeased(w, p, i);
    }
    RetainKeepsPromises(w, ref, until);
    var v := World(Retain(w.store, ref, until), w.past.(promises := w.past.promises + {(g, until)}));
    forall i | 0 <= i < |v.past.leases| ensures Accounted(v, i) {
      RetainAccounts(w, v, i);
    }
  }

  lemma RetainAccounts(w: World, v: World, i: nat)
    requires i < |w.past.leases| && Accounted(w, i)
    requires v.past == w.past.(promises := v.past.promises) && v.store.queue == w.store.queue
    ensures Accounted(v, i)
  {
  }

  lemma DeleteKeepsRules(w: World, index: nat, prefix: string)
    requires index < |w.past.leases|
    ensures TokensInv(w) ==> TokensInv(DeleteWorld(w, index, prefix))
    ensures ForwardInv(w) ==> ForwardInv(DeleteWorld(w, index, prefix))
  {
    hide PrefixedKey;
    var v := DeleteWorld(w, index, prefix);
    if ForwardInv(w) {
      forall i | 0 <= i < |v.past.leases| ensures Accounted(v, i) {
        assert Accounted(w, i);
      }
      forall q | q in v.past.promises ensures Honoured(v, q.0, q.1) {
        assert Honoured(w, q.0, q.1);
      }
    }
  }

  // ----- Every event -----

  predicate LeaseEvent(w: World, e: Event) {
    || e.ClaimEvent? || e.RetainEvent? || e.DeleteEvent?
    || (e.FailEvent? && e.now > 0 && e.index < |w.past.leases| && HoldsLease(w.store, w.past.leases[e.index].lease))
  }

  lemma EnqueueIsCalm(queue: map<string, QueueRow>, g: Generation, notBefore: StoredMillis)
    ensures SameLeases(queue, Enqueue(queue, g, notBefore))
  {
    hide ObjectKey;
  }

  lemma NothingIsCalm(w: World)
    ensures Calm(w, w)
  {
  }

  lemma RetireIsCalm(w: World, p: PathKey)
    requires p in w.store.reservations
    ensures Calm(w, RetireWorld(w, p))
  {
    hide Enqueue;
    var row := w.store.reservations[p];
    EnqueueIsCalm(w.store.queue, ReservedGen(p, row), SatAdd(row.expiresAt, GC_SETTLEMENT_GRACE_MS));
  }

  lemma ReserveIsCalm(w: World, sha: Sha, e: Event)
    requires e.ReserveEvent? && Enabled(w, sha, e)
    ensures Calm(w, ApplyEvent(w, sha, e))
  {
    hide DecideReserve, Retire, NewReservationRow, Fresh, SameLeases;
    var p := e.req.Key();
    NothingIsCalm(w);
    if p in w.store.reservations {
      RetireIsCalm(w, p);
      RetireTouches(w.store, p);
    }
  }

  lemma AbortIsCalm(w: World, sha: Sha, e: Event)
    requires e.AbortEvent?
    ensures Calm(w, ApplyEvent(w, sha, e))
  {
    hide Enqueue;
    var p := e.r.Key();
    if p in w.store.reservations {
      var row := w.store.reservations[p];
      EnqueueIsCalm(w.store.queue, ReservedGen(p, row), SatAdd(row.expiresAt, GC_SETTLEMENT_GRACE_MS));
    }
  }

  lemma CommitIsCalm(w: World, r: Reservation, o: Observation, now: Millis, local: bool)
    requires Commits(w.store, r, o, now)
    ensures Calm(w, World(CommitPublication(w.store, r, o, now).state, RecordCommit(w.past, w.store, r, o, now, local)))
  {
    hide Commits, CommitPublication, Enqueue, ValidText;
    CommitEffect(w.store, r, o, now);
    var p := r.Key();
    if p in w.store.paths && now > 0 {
      EnqueueIsCalm(w.store.queue, PublishedGen(p, w.store.paths[p]), now);
    }
  }

  lemma PublicationIsCalm(w: World, sha: Sha, e: Event)
    requires e.CommitEvent? || e.TrustedEvent?
    requires Enabled(w, sha, e)
    ensures Calm(w, ApplyEvent(w, sha, e))
  {
    hide Commits, CommitPublication, ValidText, ReplayPublication;
    CommitEffect(w.store, e.r, e.o, e.now);
    if Commits(w.store, e.r, e.o, e.now) {
      CommitIsCalm(w, e.r, e.o, e.now, e.CommitEvent?);
    }
  }

  lemma OtherEventsAreCalm(w: World, sha: Sha, e: Event)
    requires Enabled(w, sha, e) && !LeaseEvent(w, e)
    ensures Calm(w, ApplyEvent(w, sha, e))
  {
    if e.CommitEvent? || e.TrustedEvent? {
      PublicationIsCalm(w, sha, e);
    } else if e.ReserveEvent? {
      ReserveIsCalm(w, sha, e);
    } else if e.AbortEvent? {
      AbortIsCalm(w, sha, e);
    } else {
      hide ValidText, ObjectPath, LiveError, PreparePublish, ObjectKey, Power2;
    }
  }

  lemma ChoiceIsFresh(s: State, now: Millis, limit: nat, c: ClaimChoice)
    requires ValidChoice(s, now, limit, c)
    ensures Distinct(c.leased) && Fresh(s.minted, c.ids)
  {
    hide Distinct, Fresh, AllReserved, BeforeLeasing;
  }

  lemma ClaimEventKeepsTokens(w: World, sha: Sha, e: Event)
    requires TokensInv(w) && Enabled(w, sha, e) && e.ClaimEvent?
    ensures TokensInv(ApplyEvent(w, sha, e))
  {
    hide ApplyEvent, TokensInv, ValidChoice, ClaimFits, Distinct, Fresh, LeasesGranted, BeforeLeasing, MarkLeased;
    ClaimEventIs(w, sha, e.now, e.limit, e.choice);
    if ApplyEvent(w, sha, e) != w {
      ChoiceIsFresh(w.store, e.now, e.limit, e.choice);
      ClaimGrants(w, e.now, e.choice);
      ClaimMints(w, e.now, e.choice);
      ClaimKeepsTokens(w, ClaimWorld(w, e.now, e.choice), e.now, e.choice);
    }
  }

  lemma ClaimMints(w: World, now: Millis, c: ClaimChoice)
    requires ClaimFits(w.store, c)
    ensures ClaimWorld(w, now, c).store.minted == w.store.minted + Elements(c.ids)
  {
    hide Reap, MarkLeased, AllReserved, AllQueued;
  }

  lemma RetainKeepsTokens(w: World, sha: Sha, e: Event)
    requires TokensInv(w) && Enabled(w, sha, e) && e.RetainEvent?
    ensures TokensInv(ApplyEvent(w, sha, e))
  {
    hide AnswersById, Carries, ValidText, GetFound;
  }

  lemma EventKeepsTokens(w: World, sha: Sha, e: Event)
    requires TokensInv(w) && Enabled(w, sha, e)
    ensures TokensInv(ApplyEvent(w, sha, e))
  {
    hide TokensInv, Calm, FailLease, HoldsLease, ClaimGarbage, Reserve, CommitPublication, PublishTrusted;
    if !LeaseEvent(w, e) {
      OtherEventsAreCalm(w, sha, e);
      CalmKeeps(w, ApplyEvent(w, sha, e));
    } else if e.ClaimEvent? {
      ClaimEventKeepsTokens(w, sha, e);
    } else if e.FailEvent? {
      FailKeeps(w, e.index, e.now);
    } else if e.DeleteEvent? {
      DeleteKeepsRules(w, e.index, e.prefix);
    } else {
      RetainKeepsTokens(w, sha, e);
    }
  }

  lemma ClaimEventKeepsForward(w: World, sha: Sha, e: Event)
    requires Inv(w, sha) && ForwardInv(w) && Enabled(w, sha, e) && e.ClaimEvent? && w.past.clock == e.now
    ensures ForwardInv(ApplyEvent(w, sha, e))
  {
    hide ApplyEvent, GenInv, StoredInv, CheckInv, PathInv, ValidChoice, ClaimFits, ClaimWorld, Accounted, PromiseInv;
    ClaimEventIs(w, sha, e.now, e.limit, e.choice);
    var v := ApplyEvent(w, sha, e);
    if v != w {
      ClaimKeepsPromises(w, e.now, e.limit, e.choice);
      forall i | 0 <= i < |v.past.leases| ensures Accounted(v, i) {
        ClaimAccounts(w, e.now, e.limit, e.choice, i);
      }
    }
  }

  lemma RetainEventKeepsForward(w: World, sha: Sha, e: Event)
    requires Inv(w, sha) && ForwardInv(w) && Enabled(w, sha, e) && e.RetainEvent?
    ensures ForwardInv(ApplyEvent(w, sha, e))
  {
    hide ForwardInv, GenInv, StoredInv, CheckInv, PathInv, Retain, ValidText, AnswersById;
    if RetainForRead(w.store, e.ref, e.now, e.until, e.found).result.Ok? {
      RetainKeeps(w, e.found.value, e.ref, e.until);
    }
  }

  lemma SettlingKeepsForward(w: World, sha: Sha, e: Event)
    requires TokensInv(w) && ForwardInv(w) && Enabled(w, sha, e) && LeaseEvent(w, e) && (e.FailEvent? || e.DeleteEvent?)
    ensures ForwardInv(ApplyEvent(w, sha, e))
  {
    hide ForwardInv, TokensInv, FailLease, PrefixedKey;
    if e.FailEvent? {
      FailKeeps(w, e.index, e.now);
    } else {
      DeleteKeepsRules(w, e.index, e.prefix);
    }
  }

  lemma EventKeepsForward(w: World, sha: Sha, e: Event)
    requires Inv(w, sha) && TokensInv(w) && ForwardInv(w) && Enabled(w, sha, e)
    requires IsTimed(e) ==> w.past.clock == TimeOf(e)
    ensures ForwardInv(ApplyEvent(w, sha, e))
  {
    hide GenInv, StoredInv, CheckInv, PathInv, TokensInv, ForwardInv, ApplyEvent, Enabled, Calm, Forward;
    EventKeeps(w, sha, e);
    if e.ClaimEvent? {
      ClaimEventKeepsForward(w, sha, e);
    } else if e.RetainEvent? {
      RetainEventKeepsForward(w, sha, e);
    } else if LeaseEvent(w, e) {
      SettlingKeepsForward(w, sha, e);
    } else {
      OtherEventsAreCalm(w, sha, e);
      CalmKeeps(w, ApplyEvent(w, sha, e));
    }
  }
}
