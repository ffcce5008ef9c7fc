/**
 The settlement grace: a generation that never became a publication is leased for deletion no
 sooner than a minute after its reservation expired, on any clock, and so after every upload
 grant for it has run out.
 */
module Settlement {
  import opened Wrappers
  import opened Keys
  import opened Catalog
  import opened Grants
  import opened Protocol
  import opened Generations
  import opened Safety
  import opened Publications
  import opened LeaseRules
  import opened Guarantees
  import opened Updates

  /** The earliest time at which an abandoned reservation's body may be leased. */
  function Settled(r: Reservation): Millis {
    SatAdd(r.expiresAt, GC_SETTLEMENT_GRACE_MS)
  }

  predicate IsLogged(log: seq<Publication>, token: string) {
    exists i | 0 <= i < |log| :: log[i].reference.token == token
  }

  /** Each grant has a generation of its own. */
  predicate GrantsApart(w: World) {
    && (forall t | t in w.past.grants :: w.past.grants[t].reservation.Gen() in w.past.origin)
    && (forall t, u | t in w.past.grants && u in w.past.grants && t != u ::
          w.past.grants[t].reservation.Gen() != w.past.grants[u].reservation.Gen())
  }

  /** A queue row of an abandoned generation waits for the settlement. */
  predicate Waits(w: World, t: string)
    requires t in w.past.grants
  {
    var r := w.past.grants[t].reservation;
    var key := ObjectKey(r.Gen());
    IsLogged(w.past.log, t) || key !in w.store.queue || w.store.queue[key].notBefore >= Settled(r)
  }

  /** A lease on an abandoned generation began after the settlement. */
  predicate Began(w: World, t: string, i: nat)
    requires t in w.past.grants && i < |w.past.leases|
  {
    var r := w.past.grants[t].reservation;
    IsLogged(w.past.log, t) || w.past.leases[i].lease.gen != r.Gen() || w.past.leases[i].start >= Settled(r)
  }

  predicate GraceInv(w: World) {
    && GrantsApart(w)
    && (forall t | t in w.past.grants :: Waits(w, t))
    && (forall t, i | t in w.past.grants && 0 <= i < |w.past.leases| :: Began(w, t, i))
  }

  // ----- Steps that grant no reservation and no lease -----

  /** No row of an old generation becomes collectable sooner, and the log only grows. */
  predicate NoSooner(w: World, v: World) {
    && v.past.grants == w.past.grants && v.past.leases == w.past.leases && w.past.origin == v.past.origin
    && w.past.log <= v.past.log
    && forall k | k in v.store.queue ::
         (k in w.store.queue && v.store.queue[k].notBefore >= w.store.queue[k].notBefore)
         || (forall t | t in w.past.grants && ObjectKey(w.past.grants[t].reservation.Gen()) == k ::
               IsLogged(v.past.log, t) || v.store.queue[k].notBefore >= Settled(w.past.grants[t].reservation))
  }

  lemma LogGrows(log: seq<Publication>, longer: seq<Publication>, token: string)
    requires log <= longer && IsLogged(log, token)
    ensures IsLogged(longer, token)
  {
    var i :| 0 <= i < |log| && log[i].reference.token == token;
    assert longer[i] == log[i];
  }

  lemma NoSoonerKeeps(w: World, v: World)
    requires GraceInv(w) && NoSooner(w, v)
    ensures GraceInv(v)
  {
    hide ObjectKey, Settled, IsLogged;
    forall t | t in v.past.grants ensures Waits(v, t) {
      assert Waits(w, t);
      if IsLogged(w.past.log, t) {
        LogGrows(w.past.log, v.past.log, t);
      }
    }
    forall t, i | t in v.past.grants && 0 <= i < |v.past.leases| ensures Began(v, t, i) {
      assert Began(w, t, i);
      if IsLogged(w.past.log, t) {
        LogGrows(w.past.log, v.past.log, t);
      }
    }
  }

  /** The grant of a generation is found by its key. */
  lemma GrantOfKey(w: World, t: string, u: string)
    requires GrantsApart(w) && Traced(w) && t in w.past.grants && u in w.past.grants
    requires ObjectKey(w.past.grants[t].reservation.Gen()) == ObjectKey(w.past.grants[u].reservation.Gen())
    ensures t == u
  {
    hide ObjectKey, IsId;
    SameKeySameGeneration(w.past.grants[t].reservation.Gen(), w.past.grants[u].reservation.Gen());
  }

  lemma RetireIsNoSooner(w: World, p: PathKey)
    requires Traced(w) && GrantsApart(w) && TokenInv(w) && p in w.store.reservations
    ensures NoSooner(w, RetireWorld(w, p))
  {
    hide ObjectKey, Traced, IsLogged, LogEntry, Granted, GrantsApart, SatAdd;
    var v, row := RetireWorld(w, p), w.store.reservations[p];
    assert Granted(w, p, row);
    hide TokenInv;
    var key := ObjectKey(ReservedGen(p, row));
    forall t | t in w.past.grants && ObjectKey(w.past.grants[t].reservation.Gen()) == key
      ensures v.store.queue[key].notBefore >= Settled(w.past.grants[t].reservation)
    {
      GrantedReservation(w, p, row);
      GrantOfKey(w, t, row.token);
    }
  }

  lemma GrantedReservation(w: World, p: PathKey, row: ReservationRow)
    requires Granted(w, p, row)
    ensures row.token in w.past.grants
    ensures w.past.grants[row.token].reservation.Gen() == ReservedGen(p, row)
    ensures Settled(w.past.grants[row.token].reservation) == SatAdd(row.expiresAt, GC_SETTLEMENT_GRACE_MS)
  {
  }

  // ----- Reserving -----

  lemma InstallKeepsGrace(w: World, req: ReserveRequest, row: ReservationRow, ids: ReserveIds)
    requires GraceInv(w) && GenInv(w) && TokenInv(w) && GrantFits(w, req, row, ids) && InstallFits(w, req, row, ids)
    ensures GraceInv(GrantWorld(w, req, row, ids))
  {
    hide ObjectKey, IsId, Settled, IsLogged, LogEntry, Granted, PlacesOf, Phased;
    var v := GrantWorld(w, req, row, ids);
    var g := ReservedGen(req.Key(), row);
    InstallReserves(w, req, row, ids, req.Key() !in w.store.paths);
    assert v.past.grants == w.past.grants[row.token := GrantRecord(RowReservation(req.Key(), row), req.expected)];
    assert row.token !in w.past.grants;
    assert !IsQueued(v, g) by {
      hide InstallWorld;
      assert PlacesOf(v, g) == RESERVED;
      PlacesAre(v, g);
    }
    forall t | t in v.past.grants ensures Waits(v, t) {
      if t != row.token {
        assert Waits(w, t);
      }
    }
    forall t, i | t in v.past.grants && 0 <= i < |v.past.leases| ensures Began(v, t, i) {
      if t != row.token {
        assert Began(w, t, i);
      } else {
        assert IsGarbage(w, w.past.leases[i].lease);
      }
    }
  }

  lemma PlacesAre(w: World, g: Generation)
    ensures PlacesOf(w, g).queued == IsQueued(w, g)
  {
  }

  lemma RetireKeepsGrace(w: World, p: PathKey)
    requires GraceInv(w) && Traced(w) && Phased(w) && TokenInv(w) && p in w.store.reservations
    ensures var v := RetireWorld(w, p); GraceInv(v) && Traced(v) && Phased(v) && TokenInv(v)
  {
    hide Traced, TokenInv, Phased, Advances, Retire, Waits, Began, GrantsApart;
    RetireIsNoSooner(w, p);
    NoSoonerKeeps(w, RetireWorld(w, p));
    RetireAdvances(w, p);
    AdvanceIsTraced(w, RetireWorld(w, p));
    RetireTouches(w.store, p);
    QuietTokens(w, RetireWorld(w, p));
  }

  // ----- Claiming -----

  lemma {:induction false} ReapKeepsGrace(w: World, keys: seq<PathKey>)
    requires GraceInv(w) && Traced(w) && Phased(w) && TokenInv(w) && AllReserved(w.store, keys)
    ensures var v := World(Reap(w.store, keys), w.past); GraceInv(v) && Traced(v) && Phased(v) && TokenInv(v)
  {
    hide GraceInv, Traced, Phased, TokenInv, Retire;
    if keys == [] {
      assert Reap(w.store, keys) == w.store;
    } else {
      var n := |keys| - 1;
      ReapKeepsGrace(w, keys[..n]);
      assert keys[n] !in keys[..n];
      RetireKeepsGrace(World(Reap(w.store, keys[..n]), w.past), keys[n]);
    }
  }

  /** A lease that is granted at `now` on a queue that waits began after the settlement. */
  lemma NewLeaseBegan(w: World, now: Millis, limit: nat, c: ClaimChoice, l: nat, t: string)
    requires ValidGcRequest(now, limit) && ValidChoice(w.store, now, limit, c) && l < |c.leased|
    requires ClaimFits(w.store, c) && KeyedByGeneration(BeforeLeasing(w.store, c).queue)
    requires t in w.past.grants && Waits(World(BeforeLeasing(w.store, c), w.past), t)
    requires BeforeLeasing(w.store, c).queue[c.leased[l]].gen == w.past.grants[t].reservation.Gen()
    ensures IsLogged(w.past.log, t) || now >= Settled(w.past.grants[t].reservation)
  {
    hide ValidChoice, BeforeLeasing, ObjectKey, IsLogged, Settled, AllQueued, IsId;
    LeasedRowsWereDue(w.store, now, limit, c, l);
  }

  lemma ClaimBegan(w: World, now: Millis, limit: nat, c: ClaimChoice, t: string, i: nat)
    requires ValidGcRequest(now, limit) && ValidChoice(w.store, now, limit, c) && ClaimFits(w.store, c)
    requires KeyedByGeneration(BeforeLeasing(w.store, c).queue)
    requires GraceInv(w) && t in w.past.grants && Waits(World(BeforeLeasing(w.store, c), w.past), t)
    requires i < |ClaimWorld(w, now, c).past.leases|
    ensures ClaimWorld(w, now, c).past.grants == w.past.grants && Began(ClaimWorld(w, now, c), t, i)
  {
    hide ValidChoice, ClaimFits, BeforeLeasing, AfterLeasing, AllQueued, KeyedByGeneration, Waits, Settled, IsLogged;
    ClaimGrants(w, now, c);
    var v, n := ClaimWorld(w, now, c), |w.past.leases|;
    if i < n {
      assert v.past.leases[i] == w.past.leases[i] && Began(w, t, i);
    } else {
      NewRecordIs(w, v, now, c, i);
      ClaimedGeneration(w, now, c, i - n);
      if v.past.leases[i].lease.gen == w.past.grants[t].reservation.Gen() {
        NewLeaseBegan(w, now, limit, c, i - n, t);
      }
    }
  }

  lemma ClaimWaits(w: World, now: Millis, c: ClaimChoice, t: string)
    requires ClaimFits(w.store, c) && t in w.past.grants && Waits(World(BeforeLeasing(w.store, c), w.past), t)
    ensures Waits(ClaimWorld(w, now, c), t)
  {
    hide BeforeLeasing, MarkLeased, ObjectKey, Settled, IsLogged;
    var ready := BeforeLeasing(w.store, c);
    MarkingKeepsRows(ready.queue, c.leased, c.ids, SatAdd(now, GC_LEASE_MS));
  }

  lemma ClaimKeepsGrace(w: World, now: Millis, limit: nat, c: ClaimChoice)
    requires GraceInv(w) && Traced(w) && Phased(w) && TokenInv(w)
    requires ValidGcRequest(now, limit) && ValidChoice(w.store, now, limit, c) && ClaimFits(w.store, c)
    ensures GraceInv(ClaimWorld(w, now, c))
  {
    hide ValidChoice, Traced, Phased, TokenInv, Waits, Began, Settled, AllQueued;
    ReapKeepsGrace(w, c.reaped);
    var u := World(BeforeLeasing(w.store, c), w.past);
    var v := ClaimWorld(w, now, c);
    PrunedGrace(World(Reap(w.store, c.reaped), w.past), c.retentions);
    hide BeforeLeasing, AfterLeasing, ClaimWorld, Reap;
    ClaimPast(w, now, c);
    forall t | t in w.past.grants ensures Waits(v, t) {
      ClaimWaits(w, now, c, t);
    }
    forall t, i | t in w.past.grants && 0 <= i < |v.past.leases| ensures Began(v, t, i) {
      ClaimBegan(w, now, limit, c, t, i);
    }
  }

  lemma ClaimPast(w: World, now: Millis, c: ClaimChoice)
    requires ClaimFits(w.store, c)
    ensures ClaimWorld(w, now, c).past == w.past.(leases := ClaimWorld(w, now, c).past.leases)
  {
  }

  lemma PrunedGrace(w: World, gone: seq<Generation>)
    requires GraceInv(w) && Traced(w)
    ensures forall t | t in w.past.grants :: Waits(World(PruneRetentions(w.store, gone), w.past), t)
    ensures KeyedByGeneration(PruneRetentions(w.store, gone).queue)
  {
    hide ObjectKey, Settled, IsLogged, IsId;
    forall t | t in w.past.grants ensures Waits(World(PruneRetentions(w.store, gone), w.past), t) {
      assert Waits(w, t);
    }
  }

  // ----- Publishing -----

  /** The grant of the current publication of a path is in the log. */
  lemma CurrentGrantIsLogged(w: World, p: PathKey)
    requires PubInv(w) && p in w.store.paths
    ensures var token := w.store.paths[p].token;
            && token in w.past.grants && IsLogged(w.past.log, token)
            && w.past.grants[token].reservation.Gen() == PublishedGen(p, w.store.paths[p])
  {
    hide PathLog, OwnerInv, ReceiptInv, LocalInv, ChainInv, Granted;
    LastIsCurrent(w, p);
    var n := PathLogIsLogged(w.past.log, p, |PathLog(w.past.log, p)| - 1);
    assert LogEntry(w, w.past.log[n]);
  }

  lemma CommitIsNoSooner(w: World, r: Reservation, o: Observation, now: Millis, local: bool)
    requires PubInv(w) && Traced(w) && GrantsApart(w)
    requires ReplaceFits(w, r, o, now, RecordCommit(w.past, w.store, r, o, now, local))
    ensures NoSooner(w, CommitWorld(w, r, o, now, local))
  {
    hide ObjectKey, PubInv, Traced, GrantsApart, IsLogged, Settled;
    var v, p := CommitWorld(w, r, o, now, local), r.Key();
    if p in w.store.paths {
      CurrentGrantIsLogged(w, p);
      var token := w.store.paths[p].token;
      LogGrows(w.past.log, v.past.log, token);
      forall t | t in w.past.grants
        && ObjectKey(w.past.grants[t].reservation.Gen()) == ObjectKey(PublishedGen(p, w.store.paths[p]))
        ensures IsLogged(v.past.log, t)
      {
        GrantOfKey(w, t, token);
      }
    }
  }

  // ----- Every step -----

  lemma PublicationKeepsGrace(w: World, sha: Sha, e: Event)
    requires GraceInv(w) && Inv(w, sha) && PubInv(w) && Enabled(w, sha, e) && (e.CommitEvent? || e.TrustedEvent?)
    ensures GraceInv(ApplyEvent(w, sha, e))
  {
    hide GraceInv, GenInv, StoredInv, CheckInv, PathInv, PubInv, Commits, CommitPublication, ReplayPublication, ValidText;
    hide ReplaceFits, NoSooner;
    CommitEffect(w.store, e.r, e.o, e.now);
    if IsPublication(w, e) {
      CommitFits(w, sha, e.r, e.o, e.now, e.CommitEvent?);
      GraceFacts(w, sha);
      CommitIsNoSooner(w, e.r, e.o, e.now, e.CommitEvent?);
      NoSoonerKeeps(w, CommitWorld(w, e.r, e.o, e.now, e.CommitEvent?));
    }
  }

  lemma GraceFacts(w: World, sha: Sha)
    requires Inv(w, sha)
    ensures Traced(w) && Phased(w)
    ensures GraceInv(w) ==> GrantsApart(w)
  {
    hide Traced, Phased, LeasedAreGarbage, StoredInv, CheckInv, PathInv, Waits, Began, GrantsApart;
  }

  lemma ReserveKeepsGrace(w: World, sha: Sha, e: Event)
    requires GraceInv(w) && Inv(w, sha) && PubInv(w) && Enabled(w, sha, e) && e.ReserveEvent?
    ensures GraceInv(ApplyEvent(w, sha, e))
  {
    if DecideReserve(w.store, e.req).Grant? {
      ReserveFits(w.store, e.req, e.ids);
      GrantIs(w, sha, e.req, e.ids);
      hide GraceInv, Inv, PubInv, DecideReserve, Enabled, ApplyEvent, GrantFits, NewReservationRow, GrantWorld, Cleared;
      var u := Cleared(w, e.req.Key());
      ClearedKeepsGrace(w, sha, e.req.Key());
      ClearedIsQuiet(w, e.req.Key());
      InstallKeepsGrace(u, e.req, NewReservationRow(w.store, e.req, e.ids), e.ids);
    }
  }

  lemma ClearedKeepsGrace(w: World, sha: Sha, p: PathKey)
    requires GraceInv(w) && Inv(w, sha) && PubInv(w)
    ensures GraceInv(Cleared(w, p)) && GenInv(Cleared(w, p)) && TokenInv(Cleared(w, p))
  {
    hide GraceInv, Traced, Phased, LeasedAreGarbage, StoredInv, CheckInv, PathInv, TokenInv, RetireWorld;
    if p in w.store.reservations {
      RetireKeepsGrace(w, p);
      hide GenInv;
      RetireKeepsGen(w, p);
    }
  }

  lemma OtherEventsKeepGrace(w: World, sha: Sha, e: Event)
    requires GraceInv(w) && Inv(w, sha) && PubInv(w) && Enabled(w, sha, e)
    requires !e.ReserveEvent? && !e.ClaimEvent? && !e.CommitEvent? && !e.TrustedEvent?
    ensures GraceInv(ApplyEvent(w, sha, e))
  {
    hide ApplyEvent, Enabled, GraceInv, NoSooner, Inv, PubInv;
    if e.AbortEvent? {
      AbortKeepsGrace(w, sha, e);
    } else {
      OtherEventIsNoSooner(w, sha, e);
      NoSoonerKeeps(w, ApplyEvent(w, sha, e));
    }
  }

  lemma AbortKeepsGrace(w: World, sha: Sha, e: Event)
    requires GraceInv(w) && Inv(w, sha) && PubInv(w) && e.AbortEvent?
    ensures GraceInv(ApplyEvent(w, sha, e))
  {
    hide GraceInv, Inv, Traced, Phased, Retire, TokenInv, OwnerInv, ReceiptInv, LocalInv, ChainInv;
    GraceFacts(w, sha);
    if Abort(w.store, e.r).result.Ok? {
      RetireKeepsGrace(w, e.r.Key());
    }
  }

  lemma OtherEventIsNoSooner(w: World, sha: Sha, e: Event)
    requires Enabled(w, sha, e) && !e.ReserveEvent? && !e.ClaimEvent? && !e.AbortEvent?
    requires !e.CommitEvent? && !e.TrustedEvent?
    ensures NoSooner(w, ApplyEvent(w, sha, e))
  {
    hide ObjectKey, IsLogged, Settled, Upload, RetainForRead, LiveError, PreparePublish, Power2, AnswersById;
    if e.UploadEvent? {
      UploadTouches(w.store, sha, e.r, e.bytes, e.now);
    } else if e.RetainEvent? {
      RetainTouches(w.store, e.ref, e.now, e.until, e.found);
    }
  }

  lemma UploadTouches(s: State, sha: Sha, r: Reservation, bytes: Bytes, now: Millis)
    ensures Upload(s, sha, r, bytes, now).state.queue == s.queue
  {
    hide LiveError, ObjectPath, ObjectKey, ValidText, VerifyFile, WriteOnce;
  }

  lemma RetainTouches(s: State, ref: ArtifactReference, now: Millis, until: Millis, found: Option<PathKey>)
    ensures RetainForRead(s, ref, now, until, found).state.queue == s.queue
  {
    hide ValidText;
  }

  lemma StepKeepsGrace(w: World, sha: Sha, e: Event, v: World)
    requires GraceInv(w) && AllInv(w, sha) && Step(w, sha, e, v)
    ensures GraceInv(v)
  {
    hide GraceInv, Inv, PubInv, TokensInv, ApplyEvent, Enabled;
    var u := ApplyEvent(w, sha, e);
    if e.ReserveEvent? {
      ReserveKeepsGrace(w, sha, e);
    } else if e.ClaimEvent? {
      ClaimEventKeepsGrace(w, sha, e);
    } else if e.CommitEvent? || e.TrustedEvent? {
      PublicationKeepsGrace(w, sha, e);
    } else {
      OtherEventsKeepGrace(w, sha, e);
    }
    TickKeepsGrace(u, v.past.clock);
  }

  lemma ClaimEventKeepsGrace(w: World, sha: Sha, e: Event)
    requires GraceInv(w) && Inv(w, sha) && PubInv(w) && Enabled(w, sha, e) && e.ClaimEvent?
    ensures GraceInv(ApplyEvent(w, sha, e))
  {
    hide GraceInv, ApplyEvent, ValidChoice, ClaimFits, ClaimWorld;
    hide Inv, OwnerInv, ReceiptInv, LocalInv, ChainInv, TokenInv;
    ClaimEventIs(w, sha, e.now, e.limit, e.choice);
    if ApplyEvent(w, sha, e) != w {
      GraceFacts(w, sha);
      ClaimKeepsGrace(w, e.now, e.limit, e.choice);
    }
  }

  lemma TickKeepsGrace(w: World, t: Millis)
    requires GraceInv(w)
    ensures GraceInv(Tick(w, t))
  {
    hide ObjectKey, IsLogged, Settled;
    var v := Tick(w, t);
    forall t | t in v.past.grants ensures Waits(v, t) {
      assert Waits(w, t);
    }
    forall t, i | t in v.past.grants && 0 <= i < |v.past.leases| ensures Began(v, t, i) {
      assert Began(w, t, i);
    }
  }

  lemma GenesisGrace()
    ensures GraceInv(GENESIS)
  {
  }

  lemma {:induction false} RunKeepsGrace(sha: Sha, ws: seq<World>, es: seq<Event>, i: nat)
    requires Run(sha, ws, es) && i <= |es|
    ensures |ws| == |es| + 1 && GraceInv(ws[i])
  {
    hide Run, Step, AllInv, GraceInv;
    RunLength(sha, ws, es);
    if i == 0 {
      RunStart(sha, ws, es);
      GenesisGrace();
    } else {
      RunKeepsGrace(sha, ws, es, i - 1);
      RunInvariant(sha, ws, es, i - 1);
      RunStep(sha, ws, es, i - 1);
      StepKeepsGrace(ws[i - 1], sha, es[i - 1], ws[i]);
    }
  }

  lemma RunStart(sha: Sha, ws: seq<World>, es: seq<Event>)
    requires Run(sha, ws, es)
    ensures |ws| > 0 && ws[0] == GENESIS
  {
    hide Step;
  }

  /**
   Whenever a collector leases a generation that was granted but never published, its
   reservation expired at least a minute before, and every upload grant ever signed for it
   has run out at least a minute before, whatever the clocks of the callers did.
   */
  lemma AbandonedUploadsAreSettled(
    sha: Sha, ws: seq<World>, es: seq<Event>, i: nat, token: string, l: nat,
    prefix: string, signedAt: Millis, ttl: Millis)
    requires Run(sha, ws, es) && i <= |es| && token in ws[i].past.grants && l < |ws[i].past.leases|
    requires ws[i].past.leases[l].lease.gen == ws[i].past.grants[token].reservation.Gen()
    requires !IsLogged(ws[i].past.log, token)
    ensures var r, start := ws[i].past.grants[token].reservation, ws[i].past.leases[l].start;
            && start >= Min(r.expiresAt + GC_SETTLEMENT_GRACE_MS, I64_MAX)
            && (SignPut(prefix, r, signedAt, ttl).Ok? ==>
                  start >= Min(SignPut(prefix, r, signedAt, ttl).value.expiresAt + GC_SETTLEMENT_GRACE_MS, I64_MAX))
  {
    hide Run, IsLogged, SignPut, Waits, GrantsApart;
    RunKeepsGrace(sha, ws, es, i);
    assert Began(ws[i], token, l);
    var r := ws[i].past.grants[token].reservation;
    if SignPut(prefix, r, signedAt, ttl).Ok? {
      PutGrantsAreBounded(prefix, r, signedAt, ttl);
    }
  }
}
