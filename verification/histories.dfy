/**
 Histories of calls of the store object: which stored bodies they lose, and when the tables they
 leave can be collected. Both are decided by one kind of call: the holder of a lease acknowledges
 it while the file is still in place.
 */
module Histories {
  import opened Wrappers
  import opened Keys
  import opened Catalog
  import opened Conditions
  import opened Protocol
  import opened Generations
  import opened Safety
  import opened Publications
  import opened LeaseRules
  import opened Guarantees
  import opened Orphans
  import opened Draining
  import opened Unsettled
  import opened Convergence
  import opened Calls
  import opened LateWrites

  // ----- What a call does to orphans -----

  /** The holder of the lease on the key acknowledges it while its file is in place. */
  predicate LosesBody(x: Session, call: Call, key: string) {
    call.AckCall? && HoldsLease(x.store, call.lease) && key == call.lease.objectKey && key in x.store.bodies
  }

  /** Every body was written under the local key of its generation. */
  predicate AreUnderOwnKeys(w: World) {
    forall key | key in w.past.stored :: key == PrefixedKey("", w.past.stored[key].gen)
  }

  /** Bodies are at most removed, and none that stays has its generation acknowledged. */
  predicate Shrinks(w: World, v: World) {
    && v.store.bodies.Keys <= w.store.bodies.Keys && v.past.stored == w.past.stored
    && forall key | key in v.store.bodies && key in v.past.stored ::
         v.past.stored[key].gen in v.past.acked <==> v.past.stored[key].gen in w.past.acked
  }

  lemma ShrinkingOrphans(w: World, v: World, key: string)
    requires Shrinks(w, v)
    ensures IsOrphan(v, key) <==> key in v.store.bodies && IsOrphan(w, key)
  {
  }

  lemma ShrinksOn(u: World, w: World, v: World)
    requires Shrinks(u, w) && Shrinks(w, v)
    ensures Shrinks(u, v)
  {
  }

  lemma OwnKeys(w: World, sha: Sha)
    requires Inv(w, sha) && AreStoredUnder(w, "")
    ensures AreUnderOwnKeys(w)
  {
    hide GenInv, CheckInv, PathInv, PrefixedKey, PlacesOf;
    forall key | key in w.past.stored ensures key == PrefixedKey("", w.past.stored[key].gen) {
      assert StoredEntry(w, key);
    }
  }

  lemma {:induction false} ReachesRest(w: World, sha: Sha, first: seq<Event>, u: World, second: seq<Event>, v: World)
    requires Reaches(w, sha, first, u) && Reaches(w, sha, first + second, v)
    ensures Reaches(u, sha, second, v)
    decreases |first|
  {
    hide Enabled, Apply;
    if first == [] {
      assert first + second == second;
    } else {
      assert (first + second)[0] == first[0] && (first + second)[1..] == first[1..] + second;
      ReachesRest(Apply(w, sha, first[0]), sha, first[1..], u, second, v);
    }
  }

  lemma ReachesStep(w: World, sha: Sha, e: Event, v: World)
    requires Reaches(w, sha, [e], v)
    ensures Step(w, sha, e, v)
  {
    hide Enabled, Apply;
    assert [e][1..] == [];
  }

  lemma StepKeepsBodies(w: World, sha: Sha, e: Event)
    requires Enabled(w, sha, e) && !TouchesBodies(e)
    ensures KeepsBodies(w, Apply(w, sha, e))
  {
    hide Enabled, ApplyEvent;
    OtherEventsKeepBodies(w, sha, e);
  }

  /** Steps that write, delete and acknowledge nothing. */
  lemma {:induction false} QuietCall(w: World, sha: Sha, es: seq<Event>, v: World)
    requires Reaches(w, sha, es, v) && forall i | 0 <= i < |es| :: !TouchesBodies(es[i])
    ensures KeepsBodies(w, v)
    decreases |es|
  {
    hide Enabled, Apply;
    if es != [] {
      StepKeepsBodies(w, sha, es[0]);
      QuietCall(Apply(w, sha, es[0]), sha, es[1..], v);
    }
  }

  lemma KeptBodiesShrink(w: World, v: World)
    requires KeepsBodies(w, v)
    ensures Shrinks(w, v) && (AreUnderOwnKeys(w) ==> AreUnderOwnKeys(v))
  {
    hide PrefixedKey;
  }

  /** Deleting a body and acknowledging its lease leaves no orphan. */
  lemma DeletedShrinks(w: World, v: World, g: Generation)
    requires AreUnderOwnKeys(w) && v.past.stored == w.past.stored
    requires v.store.bodies == w.store.bodies - {PrefixedKey("", g)}
    requires w.past.acked <= v.past.acked <= w.past.acked + {g}
    ensures Shrinks(w, v) && AreUnderOwnKeys(v)
  {
    hide PrefixedKey;
  }

  lemma SettledOneShrinks(w: World, sha: Sha, leases: seq<GarbageLease>, from: nat, now: StoredMillis, stuck: set<string>)
    returns (u: World)
    requires AreRecorded(w, leases, from) && AreUnderOwnKeys(w) && leases != [] && ObjectPath(leases[0].objectKey).Some?
    ensures Shrinks(w, u) && AreUnderOwnKeys(u) && u.past.leases == w.past.leases
    ensures var first := if ObjectPath(leases[0].objectKey).value in stuck then [FailEvent(from, now)]
                         else [DeleteEvent(from, ""), AckEvent(from)];
            Reaches(w, sha, first, u)
  {
    hide ObjectPath, PrefixedKey, Reaches, Acknowledge, FailLease, AreRecorded, AreUnderOwnKeys, Shrinks;
    RecordedFirst(w, leases, from);
    if ObjectPath(leases[0].objectKey).value in stuck {
      u := FailIsProtocol(w, sha, from, now);
      FailTouchesQueue(w.store, w.past.leases[from].lease, now);
      KeptBodiesShrink(w, u);
    } else {
      u := DeleteIsProtocol(w, sha, from);
      AckTouchesQueue(w.store.(bodies := w.store.bodies - {PrefixedKey("", leases[0].gen)}), leases[0]);
      DeletedShrinks(w, u, leases[0].gen);
    }
  }

  lemma {:induction false} SettlingShrinks(
    w: World, sha: Sha, leases: seq<GarbageLease>, from: nat, now: StoredMillis, stuck: set<string>, v: World)
    requires Reaches(w, sha, SettleEvents(leases, from, now, stuck), v)
    requires AreRecorded(w, leases, from) && AreUnderOwnKeys(w)
    ensures Shrinks(w, v)
    decreases |leases|
  {
    hide ObjectPath, Reaches, AreRecorded, AreUnderOwnKeys;
    if leases != [] && ObjectPath(leases[0].objectKey).Some? {
      var u := SettledOneShrinks(w, sha, leases, from, now, stuck);
      RecordedRest(w, u, leases, from);
      var first := if ObjectPath(leases[0].objectKey).value in stuck then [FailEvent(from, now)]
                   else [DeleteEvent(from, ""), AckEvent(from)];
      var rest := SettleEvents(leases[1..], from + 1, now, stuck);
      assert SettleEvents(leases, from, now, stuck) == first + rest;
      ReachesRest(w, sha, first, u, rest, v);
      SettlingShrinks(u, sha, leases[1..], from + 1, now, stuck, v);
      ShrinksOn(w, u, v);
    } else {
      assert SettleEvents(leases, from, now, stuck) == [];
      ReachesEmpty(w, sha, v);
    }
  }

  lemma ReachesEmpty(w: World, sha: Sha, v: World)
    requires Reaches(w, sha, [], v)
    ensures v == w
  {
  }

  lemma DrainShrinks(
    w: World, sha: Sha, now: Millis, limit: nat, c: ClaimChoice, stuck: set<string>, v: World)
    requires GenInv(w) && (ValidGcRequest(now, limit) ==> ValidChoice(w.store, now, limit, c)) && AreUnderOwnKeys(w)
    requires Reaches(w, sha, DrainEvents(w, now, limit, c, stuck), v)
    ensures Shrinks(w, v)
  {
    hide ValidChoice, GenInv, ClaimGarbage, Reaches, AreRecorded, SettleEvents, AreUnderOwnKeys, Shrinks, Enabled, Apply;
    var e, claim := ClaimEvent(now, limit, c), ClaimGarbage(w.store, now, limit, c).result;
    ClaimIsEnabled(w, sha, now, limit, c);
    var u := Apply(w, sha, e);
    ReachesOne(w, sha, e);
    StepKeepsBodies(w, sha, e);
    KeptBodiesShrink(w, u);
    ClaimIsRecorded(w, sha, now, limit, c, u);
    FailedClaim(w.store, now, limit, c);
    var rest := if claim.Ok? then SettleEvents(claim.value.leases, |w.past.leases|, now, stuck) else [];
    ReachesRest(w, sha, [e], u, rest, v);
    if claim.Ok? {
      SettlingShrinks(u, sha, claim.value.leases, |w.past.leases|, now, stuck, v);
      ShrinksOn(w, u, v);
    } else {
      ReachesEmpty(u, sha, v);
    }
  }

  lemma ClaimIsEnabled(w: World, sha: Sha, now: Millis, limit: nat, c: ClaimChoice)
    requires ValidGcRequest(now, limit) ==> ValidChoice(w.store, now, limit, c)
    ensures Enabled(w, sha, ClaimEvent(now, limit, c))
  {
    hide ValidChoice;
  }

  /** An acknowledgement leaves exactly the body at the key of its lease. */
  lemma AckLeaves(w: World, sha: Sha, index: nat, key: string)
    requires Inv(w, sha) && AreUnderOwnKeys(w) && index < |w.past.leases|
    ensures var lease := w.past.leases[index].lease;
            LeavesOrphan(w, AckEvent(index), key) <==>
            HoldsLease(w.store, lease) && key == lease.objectKey && key in w.store.bodies
  {
    hide GenInv, StoredInv, CheckInv, PathInv, PrefixedKey, IsId, IsKeyOf, HoldsLease, HasRow;
    var lease := w.past.leases[index].lease;
    LeaseKey(w, index);
    if key in w.store.bodies {
      KeyOfStored(w, sha, key, lease.gen);
      IdIsSlashFree(lease.gen.name);
      ParsePrefixedKey("", lease.gen);
      OwnKeyParses(lease);
    }
  }

  lemma OwnKeyParses(lease: GarbageLease)
    requires ParseKey(PrefixedKey("", lease.gen)) == Some((lease.gen.scope.tenant, lease.gen.scope.project, lease.gen.name))
    ensures IsKeyOf(PrefixedKey("", lease.gen), lease.gen)
  {
    hide PrefixedKey;
  }

  lemma OneEventOrphans(w: World, sha: Sha, x: Session, call: Call, v: World, key: string)
    requires Inv(w, sha) && AreUnderOwnKeys(w) && CallStep(w, sha, x, call, v)
    requires !call.PublishCall? && !call.TrustedCall? && !call.DrainCall?
    ensures IsOrphan(v, key) <==> key in v.store.bodies && (IsOrphan(w, key) || LosesBody(x, call, key))
  {
    hide Inv, Reaches, AllRecorded, Allowed, IsOrphan, HoldsLease, ObjectPath, AreUnderOwnKeys, Step;
    var es := EventsOf(w, sha, x, call);
    if es == [] {
      ReachesEmpty(w, sha, v);
    } else {
      assert es == [es[0]];
      ReachesStep(w, sha, es[0], v);
      OrphansAfterStep(w, sha, es[0], v, key);
      if call.AckCall? {
        AckLeaves(w, sha, es[0].index, key);
      }
    }
    assert IsOrphan(w, key) ==> key in w.store.bodies by {
      OrphanIsStored(w, key);
    }
  }

  lemma OrphanIsStored(w: World, key: string)
    ensures IsOrphan(w, key) ==> key in w.store.bodies
  {
  }

  lemma LongCallOrphans(w: World, sha: Sha, x: Session, call: Call, v: World, key: string)
    requires Inv(w, sha) && AreUnderOwnKeys(w) && CallStep(w, sha, x, call, v)
    requires call.PublishCall? || call.TrustedCall? || call.DrainCall?
    ensures IsOrphan(v, key) <==> key in v.store.bodies && (IsOrphan(w, key) || LosesBody(x, call, key))
  {
    hide GenInv, StoredInv, CheckInv, PathInv, Reaches, AllRecorded, IsOrphan, AreUnderOwnKeys, Shrinks;
    hide PreparePublish, PrepareTrusted, DrainEvents, ValidChoice, ProviderMatches;
    if call.DrainCall? {
      DrainShrinks(w, sha, call.now, call.limit, call.choice, call.stuck, v);
    } else {
      QuietCall(w, sha, EventsOf(w, sha, x, call), v);
      KeptBodiesShrink(w, v);
    }
    ShrinkingOrphans(w, v, key);
  }

  /** After a call a stored body is an orphan exactly if it was one, or the call lost it. */
  lemma CallOrphans(w: World, sha: Sha, x: Session, call: Call, v: World, key: string)
    requires Inv(w, sha) && AreUnderOwnKeys(w) && CallStep(w, sha, x, call, v)
    ensures IsOrphan(v, key) <==> key in v.store.bodies && (IsOrphan(w, key) || LosesBody(x, call, key))
  {
    hide Inv, AreUnderOwnKeys, CallStep, IsOrphan, LosesBody;
    if call.PublishCall? || call.TrustedCall? || call.DrainCall? {
      LongCallOrphans(w, sha, x, call, v, key);
    } else {
      OneEventOrphans(w, sha, x, call, v, key);
    }
  }

  lemma AckEffect(w: World, sha: Sha, x: Session, call: Call, v: World)
    requires GenInv(w) && GenInv(v) && CallStep(w, sha, x, call, v) && call.AckCall?
    ensures call.lease.objectKey == ObjectKey(call.lease.gen) && v.store == Acknowledge(x.store, call.lease)
    ensures HoldsLease(x.store, call.lease) ==> !HasRow(v.store, call.lease.gen)
  {
    hide GenInv, Reaches, AllRecorded, Acknowledge, HoldsLease, HasRow, ObjectKey, IsId, IsGarbage;
    var e := EventsOf(w, sha, x, call)[0];
    assert EventsOf(w, sha, x, call) == [e];
    ReachesStep(w, sha, e, v);
    LeaseKey(w, e.index);
    LeasedIsGarbage(w, e.index);
    LeasedIsGarbage(v, e.index);
    RowsFollowPhases(v, call.lease.gen);
  }

  /**
   In any history, an acknowledgement takes the row from a body that stays exactly if it is made
   by the holder of the lease while the file is in place.
   */
  lemma AcknowledgementLosesIff(sha: Sha, xs: seq<Session>, calls: seq<Call>, n: nat)
    requires Calling(sha, xs, calls) && n < |calls| && |xs| == |calls| + 1 && calls[n].AckCall?
    ensures var s, t, lease := xs[n].store, xs[n + 1].store, calls[n].lease;
            lease.objectKey in t.bodies && HasRow(s, lease.gen) && !HasRow(t, lease.gen) <==>
            HoldsLease(s, lease) && lease.objectKey in s.bodies
  {
    hide Calling, Run, Traverses, CallStep, GenInv, StoredInv, CheckInv, PathInv, PubInv, TokensInv, AreAtomic;
    hide Acknowledge, ObjectKey;
    var ws, es, at := CallsAreRuns(sha, xs, calls);
    TraversedCall(sha, ws, xs, calls, at, n);
    TraversedWorld(sha, ws, xs, calls, at, n);
    TraversedWorld(sha, ws, xs, calls, at, n + 1);
    RunInvariant(sha, ws, es, at[n]);
    RunInvariant(sha, ws, es, at[n + 1]);
    AckEffect(ws[at[n]], sha, xs[n], calls[n], ws[at[n + 1]]);
    AckTouchesQueue(xs[n].store, calls[n].lease);
  }

  // ----- Which bodies a history loses -----

  /** One of the first `n` calls lost the body. */
  ghost predicate WasLost(xs: seq<Session>, calls: seq<Call>, n: nat, key: string)
    requires n <= |calls| && |xs| == |calls| + 1
  {
    exists m | 0 <= m < n :: LosesBody(xs[m], calls[m], key)
  }

  lemma AtomicWritesLocally(es: seq<Event>, i: nat)
    requires AreAtomic(es) && i <= |es|
    ensures forall m | 0 <= m < i :: WritesUnder(es[m], "")
  {
  }

  lemma WorldIsInOrder(sha: Sha, ws: seq<World>, es: seq<Event>, i: nat)
    requires Run(sha, ws, es) && AreAtomic(es) && i <= |es| && |ws| == |es| + 1
    ensures Inv(ws[i], sha) && AreStoredUnder(ws[i], "") && AreUnderOwnKeys(ws[i])
  {
    hide Run, Inv, PubInv, TokensInv, AreStoredUnder, AreUnderOwnKeys, WritesUnder, AreAtomic;
    AtomicWritesLocally(es, i);
    RunInvariant(sha, ws, es, i);
    RunStoresUnder(sha, ws, es, i, "");
    OwnKeys(ws[i], sha);
  }

  lemma TraversedCall(sha: Sha, ws: seq<World>, xs: seq<Session>, calls: seq<Call>, at: seq<nat>, n: nat)
    requires Traverses(sha, ws, xs, calls, at) && n < |calls|
    ensures |at| == |xs| == |calls| + 1 && at[n] <= at[n + 1] < |ws|
    ensures CallStep(ws[at[n]], sha, xs[n], calls[n], ws[at[n + 1]])
  {
    hide CallStep, AllRecorded;
  }

  lemma TraversedWorld(sha: Sha, ws: seq<World>, xs: seq<Session>, calls: seq<Call>, at: seq<nat>, n: nat)
    requires Traverses(sha, ws, xs, calls, at) && n <= |calls|
    ensures |at| == |xs| == |calls| + 1 && at[0] == 0 && at[n] < |ws| && ws[at[n]].store == xs[n].store
  {
    hide CallStep, AllRecorded;
  }

  lemma {:induction false} TraversedInOrder(
    sha: Sha, ws: seq<World>, xs: seq<Session>, calls: seq<Call>, at: seq<nat>, m: nat, n: nat)
    requires Traverses(sha, ws, xs, calls, at) && m <= n <= |calls|
    ensures |at| == |calls| + 1 && at[m] <= at[n]
    decreases n - m
  {
    hide Traverses, CallStep;
    TraversedWorld(sha, ws, xs, calls, at, n);
    if m < n {
      TraversedInOrder(sha, ws, xs, calls, at, m, n - 1);
      TraversedCall(sha, ws, xs, calls, at, n - 1);
    }
  }

  /** A lost body stays lost: whenever it is stored later on, it is an orphan. */
  lemma LostStaysLost(
    sha: Sha, ws: seq<World>, es: seq<Event>, xs: seq<Session>, calls: seq<Call>, at: seq<nat>, m: nat, n: nat, key: string)
    requires Run(sha, ws, es) && |ws| == |es| + 1 && AreAtomic(es) && Traverses(sha, ws, xs, calls, at)
    requires m < n <= |calls| && |at| == |xs| == |calls| + 1 && LosesBody(xs[m], calls[m], key)
    requires at[n] < |ws| && key in ws[at[n]].store.bodies
    ensures IsOrphan(ws[at[n]], key)
  {
    hide Run, Traverses, CallStep, Inv, AreUnderOwnKeys, AreStoredUnder, AreAtomic, HoldsLease;
    TraversedCall(sha, ws, xs, calls, at, m);
    TraversedInOrder(sha, ws, xs, calls, at, m + 1, n);
    WorldIsInOrder(sha, ws, es, at[m]);
    CallOrphans(ws[at[m]], sha, xs[m], calls[m], ws[at[m + 1]], key);
    AckKeepsBodies(ws[at[m]], sha, xs[m], calls[m], ws[at[m + 1]]);
    CondemnedStays(sha, ws, es, at[m + 1], at[n], key);
  }

  lemma AckKeepsBodies(w: World, sha: Sha, x: Session, call: Call, v: World)
    requires CallStep(w, sha, x, call, v) && call.AckCall?
    ensures w.store == x.store && v.store.bodies == w.store.bodies
  {
    hide Reaches, AllRecorded, EventsOf, Acknowledge;
    AckTouchesQueue(x.store, call.lease);
  }

  lemma {:induction false} HistoryOrphans(
    sha: Sha, ws: seq<World>, es: seq<Event>, xs: seq<Session>, calls: seq<Call>, at: seq<nat>, n: nat, key: string)
    requires Run(sha, ws, es) && |ws| == |es| + 1 && AreAtomic(es) && Traverses(sha, ws, xs, calls, at)
    requires n <= |calls| && |at| == |xs| == |calls| + 1 && at[0] == 0 && at[n] < |ws|
    ensures IsOrphan(ws[at[n]], key) <==> key in ws[at[n]].store.bodies && WasLost(xs, calls, n, key)
    decreases n
  {
    hide Run, Traverses, CallStep, Inv, AreUnderOwnKeys, AreStoredUnder, AreAtomic, LosesBody, IsOrphan;
    if n == 0 {
      NothingIsOrphanedAtFirst(sha, ws, es, key);
    } else {
      TraversedCall(sha, ws, xs, calls, at, n - 1);
      HistoryOrphans(sha, ws, es, xs, calls, at, n - 1, key);
      WorldIsInOrder(sha, ws, es, at[n - 1]);
      CallOrphans(ws[at[n - 1]], sha, xs[n - 1], calls[n - 1], ws[at[n]], key);
      OrphanIsStored(ws[at[n]], key);
      if key in ws[at[n]].store.bodies && WasLost(xs, calls, n, key) {
        var m :| 0 <= m < n && LosesBody(xs[m], calls[m], key);
        LostStaysLost(sha, ws, es, xs, calls, at, m, n, key);
      }
    }
  }

  /**
   After any history of calls, every stored body is under the key of its generation, and no row
   holds that generation if and only if some acknowledgement of the history was made by the
   holder of the lease while that file was in place.
   */
  lemma BodyIsLostIff(sha: Sha, xs: seq<Session>, calls: seq<Call>, n: nat, key: string) returns (g: Generation)
    requires Calling(sha, xs, calls) && n <= |calls| && |xs| == |calls| + 1 && key in xs[n].store.bodies
    ensures key == ObjectKey(g)
    ensures HasRow(xs[n].store, g) <==> !WasLost(xs, calls, n, key)
  {
    hide Calling, Run, Traverses, Inv, AreUnderOwnKeys, AreStoredUnder, AreAtomic, WasLost, HasRow, ObjectKey;
    var ws, es, at := CallsAreRuns(sha, xs, calls);
    TraversedWorld(sha, ws, xs, calls, at, n);
    BodiesHaveRowsUntilAcknowledged(sha, ws, es, at[n], key);
    HistoryOrphans(sha, ws, es, xs, calls, at, n, key);
    WorldIsInOrder(sha, ws, es, at[n]);
    g := ws[at[n]].past.stored[key].gen;
    OwnKeyIs(ws[at[n]], key);
  }

  lemma OwnKeyIs(w: World, key: string)
    requires AreUnderOwnKeys(w) && key in w.past.stored
    ensures key == ObjectKey(w.past.stored[key].gen)
  {
    hide ObjectKey;
  }

  /**
   After any history of calls, drains past every expiry can collect everything if and only if
   every row can be settled and no body that is still stored was lost.
   */
  lemma CallsConverge(sha: Sha, xs: seq<Session>, calls: seq<Call>, n: nat, now: Millis, limit: nat, ids: seq<string>)
    requires Calling(sha, xs, calls) && n <= |calls| && |xs| == |calls| + 1
    requires AllDue(xs[n].store, now) && ValidGcRequest(now, limit)
    requires Fresh(xs[n].store.minted, ids) && Work(xs[n].store) <= |ids|
    ensures CanBeCollected(xs[n].store, now, limit) <==>
            AllSettle(xs[n].store) && forall key | key in xs[n].store.bodies :: !WasLost(xs, calls, n, key)
  {
    hide Calling, Run, Traverses, AreAtomic, AllSettle, AllDue, CanBeCollected, Fresh, Work, WasLost, IsOrphan, WritesUnder;
    var ws, es, at := CallsAreRuns(sha, xs, calls);
    TraversedWorld(sha, ws, xs, calls, at, n);
    AtomicWritesLocally(es, at[n]);
    UnprefixedRunsConverge(sha, ws, es, at[n], now, limit, ids);
    forall key | key in xs[n].store.bodies ensures IsOrphan(ws[at[n]], key) <==> WasLost(xs, calls, n, key) {
      HistoryOrphans(sha, ws, es, xs, calls, at, n, key);
    }
  }

  // ----- A body that is lost -----

  /** The upload of the first reservation while it is live. */
  lemma FirstUploadIsStored(sha: Sha, req: ReserveRequest, ids: ReserveIds, bytes: Bytes)
    requires DecideReserve(EMPTY, req).Grant? && Fresh(EMPTY.minted, ids.All()) && !IsDotScope(req.scope)
    requires |bytes| <= MAX_DIRECT_UPLOAD_BYTES
    ensures var s, row := Reserve(EMPTY, req, ids).state, FirstRow(req, ids);
            var t := Upload(s, sha, RowReservation(req.Key(), row), bytes, req.now).state;
            HasOneRow(t, req.Key(), row, ids) && ObjectKey(ReservedGen(req.Key(), row)) in t.bodies
  {
    hide DecideReserve, Reserve, LiveError, ObjectPath, ObjectKey, IsId, IsDotScope, ValidText;
    FirstReservation(req, ids);
    var s, row := Reserve(EMPTY, req, ids).state, FirstRow(req, ids);
    var r := RowReservation(req.Key(), row);
    assert ids.All()[1] == ids.token && ids.All()[2] == ids.generation;
    IdIsText(ids.token);
    IdIsText(ids.generation);
    UploadIsLive(s, req, ids, r);
    LocalKeyResolves(ReservedGen(req.Key(), row));
    FirstIsWritten(s, sha, req, ids, r, bytes);
  }

  lemma FirstIsWritten(s: State, sha: Sha, req: ReserveRequest, ids: ReserveIds, r: Reservation, bytes: Bytes)
    requires DecideReserve(EMPTY, req).Grant? && HasOneRow(s, req.Key(), FirstRow(req, ids), ids) && s.bodies == map[]
    requires r == RowReservation(req.Key(), FirstRow(req, ids)) && r.Valid() && LiveError(s, r, req.now).None?
    requires |bytes| <= MAX_DIRECT_UPLOAD_BYTES && ObjectPath(ObjectKey(r.Gen())) == Some(ObjectKey(r.Gen()))
    ensures var t := Upload(s, sha, r, bytes, req.now).state;
            HasOneRow(t, req.Key(), FirstRow(req, ids), ids) && ObjectKey(r.Gen()) in t.bodies
  {
    hide DecideReserve, LiveError, ObjectPath, ObjectKey, ValidText;
  }

  lemma LoneLeaseIs(s: State, now: Millis, limit: nat, c: ClaimChoice) returns (lease: GarbageLease)
    requires Ready(s, now) && AllSettle(s) && |s.reservations| == 1 && Work(s) == 2
    requires ValidGcRequest(now, limit) && ValidChoice(s, now, limit, c)
    ensures ClaimGarbage(s, now, limit, c).result.Ok?
    ensures ClaimGarbage(s, now, limit, c).result.value.leases == [lease]
    ensures HoldsLease(ClaimGarbage(s, now, limit, c).state, lease)
  {
    hide Ready, AllSettle, ValidChoice, BeforeLeasing, AfterLeasing, ClaimGarbage, HoldsLease, Work, AllQueued, Leases;
    hide ObjectPath;
    LoneCounts(s, now, limit, c);
    ClaimGoesThrough(s, now, limit, c);
    var ready := BeforeLeasing(s, c);
    ReadyIsKeyed(ready, now);
    ClaimedAreHeld(ready, now, c);
    LeasesLength(ready.queue, c.leased, c.ids);
    lease := Leases(ready.queue, c.leased, c.ids)[0];
  }

  lemma LeasesLength(queue: map<string, QueueRow>, keys: seq<string>, ids: seq<string>)
    requires AllQueued(queue, keys) && |ids| == |keys|
    ensures |Leases(queue, keys, ids)| == |keys|
  {
    hide AllQueued;
  }

  /** After the one lease of the only generation is acknowledged no table holds anything. */
  lemma LoneAck(s: State, now: Millis, limit: nat, c: ClaimChoice, lease: GarbageLease)
    requires Ready(s, now) && AllSettle(s) && |s.reservations| == 1 && Work(s) == 2 && s.paths == map[]
    requires ValidGcRequest(now, limit) && ValidChoice(s, now, limit, c)
    requires HoldsLease(ClaimGarbage(s, now, limit, c).state, lease)
    ensures var t := Acknowledge(ClaimGarbage(s, now, limit, c).state, lease);
            t.queue == map[] && t.reservations == map[] && t.paths == map[] && t.bodies == s.bodies
  {
    hide Ready, AllSettle, ValidChoice, BeforeLeasing, AfterLeasing, ClaimGarbage, Disjoint, Accounts, AllDue, AllQueued;
    ReadyToLease(s, now, limit, c);
    ClaimGoesThrough(s, now, limit, c);
    var ready, u := BeforeLeasing(s, c), ClaimGarbage(s, now, limit, c).state;
    LeasingKeepsKeys(ready, now, c);
    assert |u.queue.Keys| == 1 && |ready.reservations| == 0;
    assert u.queue.Keys == {lease.objectKey} by {
      OneElement(u.queue.Keys, lease.objectKey);
    }
    assert Acknowledge(u, lease).queue.Keys == {};
  }

  lemma OneElement<K>(keys: set<K>, k: K)
    requires |keys| == 1 && k in keys
    ensures keys == {k}
  {
    assert |keys - {k}| == 0;
  }

  lemma LeasingKeepsKeys(ready: State, now: Millis, c: ClaimChoice)
    requires AllQueued(ready.queue, c.leased) && |c.ids| == |c.leased|
    ensures var u := AfterLeasing(ready, now, c);
            && u.queue.Keys == ready.queue.Keys && |u.queue| == |ready.queue|
            && u.reservations == ready.reservations && u.paths == ready.paths && u.bodies == ready.bodies
  {
    hide MarkLeased, AllQueued;
    assert |AfterLeasing(ready, now, c).queue.Keys| == |ready.queue.Keys|;
  }

  lemma EmptyTablesLoseAll(s: State, key: string)
    requires s.queue == map[] && s.reservations == map[] && s.paths == map[] && key in s.bodies
    ensures IsUnlisted(s, key) && Named(s) && forall h :: !HasRow(s, h)
  {
    hide ObjectKey;
    assert PublishedKeys(s) == {} && ReservedKeys(s) == {};
  }

  lemma FourCalls(sha: Sha, xs: seq<Session>, calls: seq<Call>)
    requires |xs| == 5 && |calls| == 4 && xs[0] == Session(EMPTY, {})
    requires Allowed(xs[0], calls[0]) && xs[1] == After(xs[0], sha, calls[0])
    requires Allowed(xs[1], calls[1]) && xs[2] == After(xs[1], sha, calls[1])
    requires Allowed(xs[2], calls[2]) && xs[3] == After(xs[2], sha, calls[2])
    requires Allowed(xs[3], calls[3]) && xs[4] == After(xs[3], sha, calls[3])
    ensures Calling(sha, xs, calls)
  {
    hide Allowed, After;
  }

  /**
   For every first request, every body and every time past the grace: reserve, upload, claim the
   garbage, and acknowledge the lease without removing the file. The file is still there, no row
   holds any generation, and the tables can never be collected again.
   */
  lemma AcknowledgedBodyIsLost(
    sha: Sha, req: ReserveRequest, ids: ReserveIds, bytes: Bytes, now: Millis, limit: nat, tokens: seq<string>)
    returns (xs: seq<Session>, c: ClaimChoice, lease: GarbageLease)
    requires DecideReserve(EMPTY, req).Grant? && Fresh(EMPTY.minted, ids.All()) && !IsDotScope(req.scope)
    requires |bytes| <= MAX_DIRECT_UPLOAD_BYTES
    requires ValidGcRequest(now, limit) && SatAdd(req.now + req.ttl, GC_SETTLEMENT_GRACE_MS) <= now
    requires Fresh({ids.artifact, ids.token, ids.generation}, tokens) && |tokens| >= 2
    ensures |xs| == 5
    ensures Calling(sha, xs,
              [ReserveCall(req, ids), UploadCall(RowReservation(req.Key(), FirstRow(req, ids)), bytes, req.now),
               ClaimCall(now, limit, c), AckCall(lease)])
    ensures ObjectKey(FirstGen(req, ids)) in xs[4].store.bodies && forall h :: !HasRow(xs[4].store, h)
    ensures forall later, n | ValidGcRequest(later, n) :: !CanBeCollected(xs[4].store, later, n)
  {
    hide DecideReserve, Reserve, Upload, Ready, AllSettle, Work, HasRow, IsUnlisted, Named, CanBeCollected, ValidChoice;
    hide ClaimGarbage, Acknowledge, HoldsLease, ObjectKey, IsId, IsDotScope, SatAdd, ValidGcRequest, Calling;
    var key, row := req.Key(), FirstRow(req, ids);
    var first, second := ReserveCall(req, ids), UploadCall(RowReservation(key, row), bytes, req.now);
    FirstUploadIsStored(sha, req, ids, bytes);
    assert IsId(ids.generation) by {
      assert ids.All()[2] == ids.generation;
    }
    var x1 := After(Session(EMPTY, {}), sha, first);
    var x2 := After(x1, sha, second);
    hide Fresh, HasRow;
    OneRowIsReady(x2.store, key, row, ids, now);
    assert |x2.store.reservations| == 1;
    c := ChoiceExists(x2.store, now, limit, tokens);
    lease := LoneLeaseIs(x2.store, now, limit, c);
    LoneAck(x2.store, now, limit, c, lease);
    var third, last := ClaimCall(now, limit, c), AckCall(lease);
    var x3 := After(x2, sha, third);
    assert lease in [lease] && lease in x3.leases;
    var x4 := After(x3, sha, last);
    xs := [Session(EMPTY, {}), x1, x2, x3, x4];
    FourCalls(sha, xs, [first, second, third, last]);
    EmptyTablesLoseAll(x4.store, ObjectKey(FirstGen(req, ids)));
    NeverCollected(x4.store, ObjectKey(FirstGen(req, ids)));
  }
}
