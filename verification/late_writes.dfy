/**
 A body that is lost. `upload` checks its reservation and writes the file afterwards, with no
 transaction around both, and a signed upload lands at the provider whenever it does. When a
 collector settles the generation in between, the body that lands then belongs to no row, and
 no drain ever removes it.
 */
module LateWrites {
  import opened Keys
  import opened Catalog
  import opened Protocol
  import opened Generations
  import opened Guarantees
  import opened Orphans
  import opened Draining
  import opened Unsettled
  import opened Convergence
  import opened Calls
  import opened Publications
  import opened LeaseRules
  import opened Settlement
  import opened Safety

  // ----- An admitted write stays admitted -----

  lemma AdmittedAfterStep(w: World, sha: Sha, e: Event)
    requires Enabled(w, sha, e)
    ensures w.past.admitted <= Apply(w, sha, e).past.admitted
  {
    hide Reserve, Upload, CommitPublication, PublishTrusted, Abort, RetainForRead, ClaimGarbage, Acknowledge, FailGarbage;
    hide DecideReserve, NewReservationRow, LiveError, PreparePublish, Commits, HoldsLease, Enabled;
  }

  lemma {:induction false} AdmittedStays(w: World, sha: Sha, es: seq<Event>, v: World)
    requires Reaches(w, sha, es, v)
    ensures w.past.admitted <= v.past.admitted
    decreases |es|
  {
    hide Enabled, Apply;
    if es != [] {
      AdmittedAfterStep(w, sha, es[0]);
      AdmittedStays(Apply(w, sha, es[0]), sha, es[1..], v);
    }
  }

  // ----- Writes within the grace -----

  /** Every acknowledged generation was leased. */
  ghost predicate AckedAreLeased(w: World) {
    forall g | g in w.past.acked :: exists l: nat :: LeasesGeneration(w, l, g)
  }

  predicate LeasesGeneration(w: World, l: nat, g: Generation) {
    l < |w.past.leases| && w.past.leases[l].lease.gen == g
  }

  lemma AckedAfterEvent(w: World, sha: Sha, e: Event)
    requires Enabled(w, sha, e)
    ensures var v := ApplyEvent(w, sha, e);
            v.past.acked <= w.past.acked + if e.AckEvent? then {w.past.leases[e.index].lease.gen} else {}
  {
    hide Reserve, Upload, CommitPublication, Abort, RetainForRead, ClaimGarbage, Acknowledge, FailGarbage, AnswersById;
    hide DecideReserve, NewReservationRow, LiveError, PreparePublish, PrepareTrusted, Commits, HoldsLease, Fresh;
    hide ValidChoice, ProviderMatches;
  }

  lemma StepLeasesAcked(w: World, sha: Sha, e: Event, v: World)
    requires AckedAreLeased(w) && Step(w, sha, e, v)
    ensures AckedAreLeased(v)
  {
    hide ApplyEvent;
    AckedAfterEvent(w, sha, e);
    LeasesAfterEvent(w, sha, e);
    forall g | g in v.past.acked ensures exists l: nat :: LeasesGeneration(v, l, g) {
      if g in w.past.acked {
        var l: nat :| LeasesGeneration(w, l, g);
        assert LeasesGeneration(v, l, g);
      } else {
        assert LeasesGeneration(v, e.index, g);
      }
    }
  }

  lemma NothingAcked(sha: Sha, ws: seq<World>, es: seq<Event>)
    requires Run(sha, ws, es)
    ensures |ws| > 0 && AckedAreLeased(ws[0])
  {
    hide Step;
  }

  lemma {:induction false} RunLeasesAcked(sha: Sha, ws: seq<World>, es: seq<Event>, i: nat)
    requires Run(sha, ws, es) && i <= |es|
    ensures |ws| == |es| + 1 && AckedAreLeased(ws[i])
  {
    hide Run, Step, AckedAreLeased;
    RunLength(sha, ws, es);
    if i == 0 {
      NothingAcked(sha, ws, es);
    } else {
      RunLeasesAcked(sha, ws, es, i - 1);
      RunStep(sha, ws, es, i - 1);
      StepLeasesAcked(ws[i - 1], sha, es[i - 1], ws[i]);
    }
  }

  lemma LeasesBeginByNow(w: World, l: nat)
    requires ForwardInv(w) && l < |w.past.leases|
    ensures w.past.leases[l].start <= w.past.clock
  {
    hide Accounted;
  }

  /**
   What the grace is for: on a clock that never goes back, until a minute after the reservation
   expired, a generation that was not published has its row, so a write that lands by then
   leaves no orphan.
   */
  lemma GraceCoversLateWrites(sha: Sha, ws: seq<World>, es: seq<Event>, i: nat, token: string)
    requires ForwardRun(sha, ws, es) && i < |es| && |ws| == |es| + 1 && es[i].LateWrite?
    requires token in ws[i].past.grants && ws[i].past.grants[token].reservation.Gen() == es[i].g
    requires !IsLogged(ws[i].past.log, token) && ws[i].past.clock < Settled(ws[i].past.grants[token].reservation)
    ensures HasRow(ws[i].store, es[i].g)
    ensures forall key :: !LeavesOrphan(ws[i], es[i], key)
  {
    hide ForwardRun, Run, IsLogged, HasRow, AckedAreLeased, GenInv, StoredInv, CheckInv, PathInv, PubInv, TokensInv;
    hide ForwardInv, GrantsApart, Waits;
    var w, g := ws[i], es[i].g;
    ForwardRunInvariant(sha, ws, es, i);
    RunKeepsGrace(sha, ws, es, i);
    RunLeasesAcked(sha, ws, es, i);
    GrantIsMinted(w, token);
    RowsFollowPhases(w, g);
    if g in w.past.acked {
      AckedIsPastGrace(w, token);
    }
  }

  lemma AckedIsPastGrace(w: World, token: string)
    requires GraceInv(w) && ForwardInv(w) && AckedAreLeased(w) && token in w.past.grants
    requires w.past.grants[token].reservation.Gen() in w.past.acked && !IsLogged(w.past.log, token)
    ensures Settled(w.past.grants[token].reservation) <= w.past.clock
  {
    hide ForwardInv, AckedAreLeased, IsLogged, GrantsApart, Waits, Settled;
    var l := LeaseOfAcked(w, w.past.grants[token].reservation.Gen());
    LeasesBeginByNow(w, l);
    assert Began(w, token, l);
  }

  lemma LeaseOfAcked(w: World, g: Generation) returns (l: nat)
    requires AckedAreLeased(w) && g in w.past.acked
    ensures l < |w.past.leases| && w.past.leases[l].lease.gen == g
  {
    l :| LeasesGeneration(w, l, g);
  }

  lemma GrantIsMinted(w: World, token: string)
    requires GraceInv(w) && token in w.past.grants
    ensures w.past.grants[token].reservation.Gen() in w.past.origin
  {
    hide Waits, Began;
  }

  // ----- The steps -----

  function FirstGen(req: ReserveRequest, ids: ReserveIds): Generation { Generation(req.scope, ids.generation) }

  /** The request is granted and its upload is admitted. */
  lemma AdmittedUpload(sha: Sha, req: ReserveRequest, ids: ReserveIds, r: Reservation) returns (w: World)
    requires DecideReserve(EMPTY, req).Grant? && Fresh(EMPTY.minted, ids.All())
    requires r == RowReservation(req.Key(), FirstRow(req, ids))
    ensures Reaches(GENESIS, sha, [ReserveEvent(req, ids), AdmitWrite(r, req.now)], w)
    ensures w.store == Reserve(EMPTY, req, ids).state && FirstGen(req, ids) in w.past.admitted
    ensures w.past.leases == [] && w.past.clock == req.now
  {
    hide DecideReserve, Fresh, Reaches, Reserve;
    var first, second := ReserveEvent(req, ids), AdmitWrite(r, req.now);
    FirstReservation(req, ids);
    var u := Apply(GENESIS, sha, first);
    UploadIsLive(u.store, req, ids, r);
    w := Apply(u, sha, second);
    ReachesOne(GENESIS, sha, first);
    ReachesOne(u, sha, second);
    ReachesOn(GENESIS, sha, [first], u, [second], w);
    assert [first] + [second] == [first, second];
  }

  lemma UploadIsLive(s: State, req: ReserveRequest, ids: ReserveIds, r: Reservation)
    requires DecideReserve(EMPTY, req).Grant? && HasOneRow(s, req.Key(), FirstRow(req, ids), ids)
    requires r == RowReservation(req.Key(), FirstRow(req, ids))
    ensures LiveError(s, r, req.now).None?
  {
    hide ValidRequestId;
    assert s.reservations[req.Key()] == FirstRow(req, ids);
  }

  lemma LoneCounts(s: State, now: Millis, limit: nat, c: ClaimChoice)
    requires Ready(s, now) && |s.reservations| == 1 && Work(s) == 2
    requires ValidGcRequest(now, limit) && ValidChoice(s, now, limit, c)
    ensures AllReserved(s, c.reaped) && |c.reaped| == 1 && |c.leased| == 1
    ensures AllSettle(s) ==> AllSettle(BeforeLeasing(s, c))
    ensures Ready(BeforeLeasing(s, c), now)
  {
    hide Ready, AllSettle, ValidChoice, BeforeLeasing;
    ReadyToLease(s, now, limit, c);
  }

  lemma SettleOne(leases: seq<GarbageLease>, now: Millis)
    requires |leases| == 1 && ObjectPath(leases[0].objectKey).Some?
    ensures SettleEvents(leases, 0, now, {}) == [DeleteEvent(0, ""), AckEvent(0)]
  {
    hide ObjectPath;
    assert SettleEvents(leases[1..], 1, now, {}) == [];
  }

  /** A drain past the grace leases the one generation there is, deletes and acknowledges it. */
  lemma LoneDrain(w: World, now: Millis, limit: nat, c: ClaimChoice)
    requires Ready(w.store, now) && AllSettle(w.store) && |w.store.reservations| == 1 && Work(w.store) == 2
    requires ValidGcRequest(now, limit) && ValidChoice(w.store, now, limit, c) && w.past.leases == []
    ensures DrainEvents(w, now, limit, c, {}) == [ClaimEvent(now, limit, c), DeleteEvent(0, ""), AckEvent(0)]
  {
    hide Ready, AllSettle, ValidChoice, BeforeLeasing, AfterLeasing;
    hide ObjectPath, ClaimGarbage, SettleEvents, Work, AllQueued;
    var s := w.store;
    LoneCounts(s, now, limit, c);
    ClaimGoesThrough(s, now, limit, c);
    LeasedRowHasFile(BeforeLeasing(s, c), now, c);
    SettleOne(ClaimGarbage(s, now, limit, c).result.value.leases, now);
  }

  lemma LoneDrainCollects(s: State, now: Millis, limit: nat, c: ClaimChoice)
    requires Ready(s, now) && AllSettle(s) && |s.reservations| == 1 && Work(s) == 2
    requires ValidGcRequest(now, limit) && ValidChoice(s, now, limit, c)
    ensures var t := DrainGarbage(s, now, limit, c, {}).state; IsCollected(t) && t.paths == s.paths
  {
    hide Ready, AllSettle, ValidChoice, BeforeLeasing, DrainGarbage, IsCollected, Work, AllQueued;
    LoneCounts(s, now, limit, c);
    DrainMakesProgress(s, now, limit, c);
    NoWorkLeft(DrainGarbage(s, now, limit, c, {}).state, now);
  }

  lemma LeasedRowHasFile(ready: State, now: Millis, c: ClaimChoice)
    requires Ready(ready, now) && AllSettle(ready) && AllQueued(ready.queue, c.leased) && |c.leased| > 0
    ensures ObjectPath(c.leased[0]).Some?
  {
    hide ObjectPath, KeyedByGeneration, Accounts, AllDue;
    assert c.leased[0] in ready.queue;
    SettlingRowHasFile(ready.queue, c.leased[0]);
  }

  /** The write lands in tables that hold no row. */
  lemma LostBody(w: World, sha: Sha, g: Generation, bytes: Bytes, v: World)
    requires IsCollected(w.store) && w.store.paths == map[] && g in w.past.admitted
    requires v == Apply(w, sha, LateWrite(g, "", bytes))
    ensures ObjectKey(g) in v.store.bodies && IsUnlisted(v.store, ObjectKey(g)) && Named(v.store)
    ensures forall h :: !HasRow(v.store, h)
  {
    hide ObjectKey;
    assert PublishedKeys(v.store) == {} && ReservedKeys(v.store) == {};
  }

  lemma NeverCollected(s: State, key: string)
    requires Named(s) && IsUnlisted(s, key)
    ensures forall later, limit | ValidGcRequest(later, limit) :: !CanBeCollected(s, later, limit)
  {
    hide Named, ListedKeys, CanBeCollected, ValidGcRequest;
    forall later, limit | ValidGcRequest(later, limit) ensures !CanBeCollected(s, later, limit) {
      UnlistedIsNeverCollected(s, later, limit);
    }
  }

  lemma LastStep(sha: Sha, ws: seq<World>, es: seq<Event>, e: Event, v: World)
    requires Run(sha, ws, es) && Enabled(ws[|es|], sha, e) && v == Apply(ws[|es|], sha, e)
    ensures Run(sha, ws + [v], es + [e]) && (ws + [v])[|es| + 1] == v && |ws| == |es| + 1
  {
    hide Run, Enabled, Apply;
    RunStepOn(sha, ws, es, e);
    RunLength(sha, ws, es);
  }

  lemma ClockAfterStep(w: World, sha: Sha, e: Event, v: World)
    requires Step(w, sha, e, v) && IsTimed(e)
    ensures v.past.clock == TimeOf(e)
  {
    hide Enabled, ApplyEvent;
  }

  lemma StepsAreOnTime(sha: Sha, ws: seq<World>, es: seq<Event>, t: Millis, u: Millis)
    requires Run(sha, ws, es) && |es| == 6 && |ws| == 7 && 0 < t <= u
    requires forall i | 0 <= i < 2 :: IsTimed(es[i]) && TimeOf(es[i]) == t
    requires IsTimed(es[2]) && TimeOf(es[2]) == u && forall i | 3 <= i < 6 :: !IsTimed(es[i])
    ensures ForwardRun(sha, ws, es)
  {
    hide Step;
    RunStep(sha, ws, es, 0);
    RunStep(sha, ws, es, 1);
    ClockAfterStep(ws[0], sha, es[0], ws[1]);
    ClockAfterStep(ws[1], sha, es[1], ws[2]);
    forall i | 0 <= i < 6 ensures OnTime(ws[i], es[i]) {
    }
  }

  lemma GrantedInTime(req: ReserveRequest, now: Millis)
    requires DecideReserve(EMPTY, req).Grant? && SatAdd(req.now + req.ttl, GC_SETTLEMENT_GRACE_MS) <= now
    ensures 0 < req.now <= now
  {
    hide ValidRequestId;
  }

  /**
   For every first request, every body and every time past the grace, on a clock that never goes
   back: the upload is checked, a drain claims, deletes and acknowledges the generation, and then
   the write lands. The body is stored, its generation is acknowledged, no row holds any
   generation, and the tables can never be collected again.
   */
  lemma LateWriteIsLost(
    sha: Sha, req: ReserveRequest, ids: ReserveIds, bytes: Bytes, now: Millis, limit: nat, tokens: seq<string>)
    returns (ws: seq<World>, es: seq<Event>, c: ClaimChoice)
    requires DecideReserve(EMPTY, req).Grant? && Fresh(EMPTY.minted, ids.All()) && !IsDotScope(req.scope)
    requires ValidGcRequest(now, limit) && SatAdd(req.now + req.ttl, GC_SETTLEMENT_GRACE_MS) <= now
    requires Fresh({ids.artifact, ids.token, ids.generation}, tokens) && |tokens| >= 2
    ensures ForwardRun(sha, ws, es) && |ws| == 7
    ensures es == [ReserveEvent(req, ids), AdmitWrite(RowReservation(req.Key(), FirstRow(req, ids)), req.now),
                   ClaimEvent(now, limit, c), DeleteEvent(0, ""), AckEvent(0),
                   LateWrite(FirstGen(req, ids), "", bytes)]
    ensures ObjectKey(FirstGen(req, ids)) in ws[6].store.bodies && IsOrphan(ws[6], ObjectKey(FirstGen(req, ids)))
    ensures forall h :: !HasRow(ws[6].store, h)
    ensures forall later, n | ValidGcRequest(later, n) :: !CanBeCollected(ws[6].store, later, n)
  {
    hide DecideReserve, Reserve, Ready, AllSettle, Work, Run, Reaches, Named, HasRow, IsUnlisted, CanBeCollected;
    hide DrainGarbage, DrainEvents, ValidChoice, GenInv, Enabled;
    hide Apply, IsId, IsDotScope, SatAdd, ValidGcRequest, IsCollected;
    hide ObjectKey, IsOrphan, ForwardRun;
    var g, r := FirstGen(req, ids), RowReservation(req.Key(), FirstRow(req, ids));
    var admitted := AdmittedUpload(sha, req, ids, r);
    FirstReservation(req, ids);
    assert IsId(ids.generation) by {
      assert ids.All()[2] == ids.generation;
    }
    hide Fresh;
    OneRowIsReady(admitted.store, req.Key(), FirstRow(req, ids), ids, now);
    ws, es := [GENESIS], [];
    FirstWorld(sha);
    ws := RunOn(sha, ws, es, [ReserveEvent(req, ids), AdmitWrite(r, req.now)], admitted);
    es := es + [ReserveEvent(req, ids), AdmitWrite(r, req.now)];
    RunHasGenerations(sha, ws, es);
    c := ChoiceExists(admitted.store, now, limit, tokens);
    LoneDrain(admitted, now, limit, c);
    LoneDrainCollects(admitted.store, now, limit, c);
    var drained := DrainIsProtocol(admitted, sha, now, limit, c, {});
    AdmittedStays(admitted, sha, DrainEvents(admitted, now, limit, c, {}), drained);
    ws := RunOn(sha, ws, es, DrainEvents(admitted, now, limit, c, {}), drained);
    es := es + DrainEvents(admitted, now, limit, c, {});
    var last := LandedWrite(sha, ws, es, g, bytes);
    ws, es := ws + [last], es + [LateWrite(g, "", bytes)];
    RunLength(sha, ws, es);
    NeverCollected(last.store, ObjectKey(g));
    LostIsOrphan(sha, ws, es, |es|, ObjectKey(g));
    GrantedInTime(req, now);
    StepsAreOnTime(sha, ws, es, req.now, now);
  }

  lemma FirstWorld(sha: Sha)
    ensures Run(sha, [GENESIS], [])
  {
  }

  lemma LandedWrite(sha: Sha, ws: seq<World>, es: seq<Event>, g: Generation, bytes: Bytes) returns (v: World)
    requires Run(sha, ws, es) && g in ws[|es|].past.admitted
    requires IsCollected(ws[|es|].store) && ws[|es|].store.paths == map[]
    ensures Run(sha, ws + [v], es + [LateWrite(g, "", bytes)])
    ensures (ws + [v])[|es| + 1] == v && |ws| == |es| + 1
    ensures IsUnlisted(v.store, ObjectKey(g)) && Named(v.store) && ObjectKey(g) in v.store.bodies
    ensures forall h :: !HasRow(v.store, h)
  {
    hide Run, IsCollected, ObjectKey, Named, HasRow, IsUnlisted;
    RunLength(sha, ws, es);
    var e := LateWrite(g, "", bytes);
    v := Apply(ws[|es|], sha, e);
    hide Apply;
    LostBody(ws[|es|], sha, g, bytes, v);
    LastStep(sha, ws, es, e, v);
  }

  lemma LostIsOrphan(sha: Sha, ws: seq<World>, es: seq<Event>, i: nat, key: string)
    requires Run(sha, ws, es) && i <= |es| && |ws| == |es| + 1 && key in ws[i].store.bodies
    requires forall h :: !HasRow(ws[i].store, h)
    ensures IsOrphan(ws[i], key)
  {
    hide Run, HasRow;
    BodiesHaveRowsUntilAcknowledged(sha, ws, es, i, key);
  }
}
