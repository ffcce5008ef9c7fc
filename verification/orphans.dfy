/**
 Which stored bodies belong to a row of the tables. Exactly those whose generation is not
 acknowledged do, in every run; and a step leaves a body without a row exactly when it writes a
 body of a generation without a row, or acknowledges a generation whose body is still or again
 in place.
 */
module Orphans {
  import opened Wrappers
  import opened Keys
  import opened Catalog
  import opened Protocol
  import opened Generations
  import opened Safety
  import opened Publications
  import opened LeaseRules
  import opened Guarantees

  // ----- Bodies and rows -----

  /** A reservation, a current path or a queue row holds the generation. */
  predicate HasRow(s: State, g: Generation) {
    || ObjectKey(g) in s.queue
    || (exists p | p in s.reservations :: ReservedGen(p, s.reservations[p]) == g)
    || (exists p | p in s.paths :: PublishedGen(p, s.paths[p]) == g)
  }

  lemma RowsFollowPhases(w: World, g: Generation)
    requires GenInv(w) && g in w.past.origin
    ensures HasRow(w.store, g) <==> g !in w.past.acked
  {
    hide ObjectKey, IsId, LeasedAreGarbage;
    assert IsPhase(PlacesOf(w, g));
    if HasRow(w.store, g) {
      assert IsQueued(w, g) || IsReserved(w, g) || IsPublished(w, g);
    }
  }

  lemma StoredGeneration(w: World, sha: Sha, key: string)
    requires Inv(w, sha) && (key in w.store.bodies || key in w.past.stored)
    ensures key in w.past.stored && GenInv(w)
    ensures var b := w.past.stored[key]; b.gen in w.past.origin && IsId(b.gen.name) && key == PrefixedKey(b.prefix, b.gen)
  {
    hide PlacesOf, PrefixedKey, ObjectKey, IsId, CheckInv, PathInv, Phased, LeasedAreGarbage;
    assert StoredEntry(w, key);
  }

  /**
   In every run, with writes that land late, deletes by outdated workers and any adapter prefix:
   a stored body belongs to a row exactly as long as its generation is not acknowledged.
   */
  lemma BodiesHaveRowsUntilAcknowledged(sha: Sha, ws: seq<World>, es: seq<Event>, i: nat, key: string)
    requires Run(sha, ws, es) && i <= |es| && key in ws[i].store.bodies
    ensures key in ws[i].past.stored
    ensures HasRow(ws[i].store, ws[i].past.stored[key].gen) <==> ws[i].past.stored[key].gen !in ws[i].past.acked
  {
    RunLength(sha, ws, es);
    RunInvariant(sha, ws, es, i);
    hide Run, Inv, GenInv, HasRow, PrefixedKey, IsId;
    StoredGeneration(ws[i], sha, key);
    RowsFollowPhases(ws[i], ws[i].past.stored[key].gen);
  }

  /** A stored body that no row will ever account for again. */
  predicate IsOrphan(w: World, key: string) {
    key in w.store.bodies && key in w.past.stored && w.past.stored[key].gen in w.past.acked
  }

  predicate HasNoOrphan(w: World) {
    forall key | key in w.store.bodies :: !IsOrphan(w, key)
  }

  // ----- Which steps leave an orphan -----

  /** The key was built for the generation, under some adapter prefix. */
  predicate IsKeyOf(key: string, g: Generation) {
    ParseKey(key) == Some((g.scope.tenant, g.scope.project, g.name))
  }

  /** The holder of the lease acknowledges it while a body of its generation is stored under the key. */
  predicate SettlesInPlace(s: State, lease: GarbageLease, key: string) {
    HoldsLease(s, lease) && key in s.bodies && IsKeyOf(key, lease.gen)
  }

  /** The step writes the body of a generation without a row, or acknowledges one whose body is there. */
  predicate LeavesOrphan(w: World, e: Event, key: string) {
    match e
    case LateWrite(g, prefix, bytes) => key == PrefixedKey(prefix, g) && !HasRow(w.store, g)
    case AckEvent(index) => index < |w.past.leases| && SettlesInPlace(w.store, w.past.leases[index].lease, key)
    case _ => false
  }

  lemma KeyOfStored(w: World, sha: Sha, key: string, g: Generation)
    requires Inv(w, sha) && key in w.store.bodies
    ensures key in w.past.stored && (IsKeyOf(key, g) <==> w.past.stored[key].gen == g)
  {
    hide Inv, GenInv, PrefixedKey, IsId;
    StoredGeneration(w, sha, key);
    var b := w.past.stored[key];
    IdIsSlashFree(b.gen.name);
    ParsePrefixedKey(b.prefix, b.gen);
  }

  /** The step writes no body and acknowledges nothing. */
  predicate KeepsBodies(w: World, v: World) {
    v.store.bodies == w.store.bodies && v.past.stored == w.past.stored && v.past.acked == w.past.acked
  }

  lemma PublicationKeepsBodies(w: World, sha: Sha, e: Event)
    requires Enabled(w, sha, e) && (e.CommitEvent? || e.TrustedEvent?)
    ensures KeepsBodies(w, ApplyEvent(w, sha, e))
  {
    hide CommitPublication, Commits, ReplayPublication, ValidText, Enqueue, ObjectKey;
    CommitEffect(w.store, e.r, e.o, e.now);
  }

  lemma ClaimKeepsBodies(w: World, sha: Sha, e: Event)
    requires Enabled(w, sha, e) && e.ClaimEvent?
    ensures KeepsBodies(w, ApplyEvent(w, sha, e))
  {
    hide ApplyEvent, Enabled, Reap, MarkLeased, AllReserved, AllQueued, Leases, ObjectKey;
    ClaimEventIs(w, sha, e.now, e.limit, e.choice);
  }

  predicate TouchesBodies(e: Event) {
    e.UploadEvent? || e.LateWrite? || e.DeleteEvent? || e.AckEvent?
  }

  lemma OtherEventsKeepBodies(w: World, sha: Sha, e: Event)
    requires Enabled(w, sha, e) && !TouchesBodies(e)
    ensures KeepsBodies(w, ApplyEvent(w, sha, e))
  {
    if e.CommitEvent? || e.TrustedEvent? {
      PublicationKeepsBodies(w, sha, e);
    } else if e.ClaimEvent? {
      ClaimKeepsBodies(w, sha, e);
    } else {
      hide Reserve, LiveError, PreparePublish, Retire, FailLease, ValidText, DecideReserve, NewReservationRow;
      hide AnswersById, Fresh;
      if e.ReserveEvent? {
        ReserveTouches(w.store, e.req, e.ids);
      } else if e.AbortEvent? && e.r.Key() in w.store.reservations {
        RetireTouches(w.store, e.r.Key());
      } else if e.FailEvent? && e.now > 0 {
        FailTouchesQueue(w.store, w.past.leases[e.index].lease, e.now);
      }
    }
  }

  lemma ReservedIsNotAcked(w: World, sha: Sha, g: Generation)
    requires Inv(w, sha) && IsReserved(w, g)
    ensures g in w.past.origin && IsId(g.name) && g !in w.past.acked
  {
    hide ObjectKey, StoredInv, CheckInv, PathInv, LeasedAreGarbage;
    assert IsPhase(PlacesOf(w, g));
  }

  /** An upload that succeeds writes the body of a reserved generation. */
  lemma UploadIsWrite(w: World, sha: Sha, e: Event)
    requires Inv(w, sha) && e.UploadEvent?
    ensures ApplyEvent(w, sha, e) == w
         || (IsReserved(w, e.r.Gen()) && ApplyEvent(w, sha, e) == WriteWorld(w, e.r.Gen(), "", e.bytes))
  {
    hide PlacesOf, ValidText, StoredInv, CheckInv, PathInv;
    hide Phased, LeasedAreGarbage, ObjectPath, ObjectKey, IsId, KeyedByGeneration;
    var g, p := e.r.Gen(), e.r.Key();
    if Upload(w.store, sha, e.r, e.bytes, e.now).result.Ok? {
      assert ReservedGen(p, w.store.reservations[p]) == g;
      LocalKeyResolves(g);
    }
  }

  lemma OrphansAfterWrite(w: World, sha: Sha, g: Generation, prefix: string, bytes: Bytes, key: string)
    requires Inv(w, sha) && g in w.past.origin && IsId(g.name)
    ensures var v := WriteWorld(w, g, prefix, bytes);
            IsOrphan(v, key) <==>
            key in v.store.bodies && (IsOrphan(w, key) || (key == PrefixedKey(prefix, g) && g in w.past.acked))
  {
    hide PlacesOf, PrefixedKey, IsId, CheckInv, PathInv, Traced, Phased, LeasedAreGarbage, StoredEntry;
    if PrefixedKey(prefix, g) in w.past.stored {
      assert Traced(w);
      KeyNamesGeneration(w, PrefixedKey(prefix, g), prefix, g);
    }
  }

  lemma LateWriteIsMinted(w: World, sha: Sha, e: Event)
    requires Inv(w, sha) && Enabled(w, sha, e) && e.LateWrite?
    ensures e.g in w.past.origin && IsId(e.g.name)
  {
    hide PlacesOf, StoredEntry, CheckInv, PathInv, ObjectKey;
  }

  lemma OrphansAfterDelete(w: World, sha: Sha, e: Event, key: string)
    requires Enabled(w, sha, e) && e.DeleteEvent?
    ensures var v := ApplyEvent(w, sha, e); IsOrphan(v, key) <==> key in v.store.bodies && IsOrphan(w, key)
  {
    hide PrefixedKey;
  }

  lemma OrphansAfterAck(w: World, sha: Sha, e: Event, key: string)
    requires Inv(w, sha) && Enabled(w, sha, e) && e.AckEvent?
    ensures var v := ApplyEvent(w, sha, e);
            IsOrphan(v, key) <==> key in v.store.bodies && (IsOrphan(w, key) || LeavesOrphan(w, e, key))
  {
    hide Inv, PrefixedKey, Acknowledge, HoldsLease, IsKeyOf;
    AckTouchesQueue(w.store, w.past.leases[e.index].lease);
    if key in w.store.bodies {
      KeyOfStored(w, sha, key, w.past.leases[e.index].lease.gen);
    }
  }

  lemma OrphansAfterEvent(w: World, sha: Sha, e: Event, key: string)
    requires Inv(w, sha) && Enabled(w, sha, e)
    ensures var v := ApplyEvent(w, sha, e);
            IsOrphan(v, key) <==> key in v.store.bodies && (IsOrphan(w, key) || LeavesOrphan(w, e, key))
  {
    hide StoredInv, CheckInv, PathInv, GenInv, PrefixedKey, IsReserved, WriteWorld, ApplyEvent, Enabled, HasRow;
    if e.UploadEvent? {
      UploadIsWrite(w, sha, e);
      if ApplyEvent(w, sha, e) != w {
        ReservedIsNotAcked(w, sha, e.r.Gen());
        OrphansAfterWrite(w, sha, e.r.Gen(), "", e.bytes, key);
      }
    } else if e.LateWrite? {
      LateWriteIsMinted(w, sha, e);
      LateWriteIs(w, sha, e);
      RowsFollowPhases(w, e.g);
      OrphansAfterWrite(w, sha, e.g, e.prefix, e.bytes, key);
    } else if e.DeleteEvent? {
      OrphansAfterDelete(w, sha, e, key);
    } else if e.AckEvent? {
      OrphansAfterAck(w, sha, e, key);
    } else {
      OtherEventsKeepBodies(w, sha, e);
    }
  }

  lemma LateWriteIs(w: World, sha: Sha, e: Event)
    requires Enabled(w, sha, e) && e.LateWrite?
    ensures ApplyEvent(w, sha, e) == WriteWorld(w, e.g, e.prefix, e.bytes)
  {
    hide PrefixedKey;
  }

  /** After any step a body is an orphan exactly if it is stored and was one, or the step left it. */
  lemma OrphansAfterStep(w: World, sha: Sha, e: Event, v: World, key: string)
    requires Inv(w, sha) && Step(w, sha, e, v)
    ensures IsOrphan(v, key) <==> key in v.store.bodies && (IsOrphan(w, key) || LeavesOrphan(w, e, key))
  {
    hide Inv, ApplyEvent, Enabled, LeavesOrphan;
    OrphansAfterEvent(w, sha, e, key);
  }

  lemma LeavingIsStored(w: World, sha: Sha, e: Event, v: World, key: string)
    requires Step(w, sha, e, v) && LeavesOrphan(w, e, key)
    ensures key in v.store.bodies
  {
    hide PrefixedKey, HasRow, IsKeyOf;
  }

  // ----- Orphans along runs -----

  /** The generation first stored under the key is acknowledged. */
  predicate IsCondemned(w: World, key: string) {
    key in w.past.stored && w.past.stored[key].gen in w.past.acked
  }

  lemma CondemnedLater(w: World, sha: Sha, v: World, key: string)
    requires Inv(w, sha) && Inv(v, sha) && Forward(w, v) && Extends(w, v) && IsCondemned(w, key)
    ensures IsCondemned(v, key)
  {
    hide StoredInv, CheckInv, PathInv, Traced, LeasedAreGarbage;
    var g := w.past.stored[key].gen;
    AckedIsLast(w, g);
    assert IsPhase(PlacesOf(v, g)) && Rank(PlacesOf(v, g)) >= 3;
  }

  lemma AckedIsLast(w: World, g: Generation)
    requires GenInv(w) && g in w.past.acked
    ensures g in w.past.origin && PlacesOf(w, g) == ACKED
  {
    hide ObjectKey, LeasedAreGarbage;
    assert IsPhase(PlacesOf(w, g));
  }

  lemma CondemnedStays(sha: Sha, ws: seq<World>, es: seq<Event>, i: nat, j: nat, key: string)
    requires Run(sha, ws, es) && i <= j <= |es| && |ws| == |es| + 1 && IsCondemned(ws[i], key)
    ensures IsCondemned(ws[j], key)
  {
    hide Run, Inv, PubInv, TokensInv, IsCondemned, Forward, Extends, Grows;
    RunInvariant(sha, ws, es, i);
    RunInvariant(sha, ws, es, j);
    RunKeeps(sha, ws, es, i, j);
    CondemnedLater(ws[i], sha, ws[j], key);
  }

  lemma StepOrphans(sha: Sha, ws: seq<World>, es: seq<Event>, i: nat, key: string)
    requires Run(sha, ws, es) && i < |es| && |ws| == |es| + 1
    ensures IsOrphan(ws[i + 1], key) <==>
            key in ws[i + 1].store.bodies && (IsOrphan(ws[i], key) || LeavesOrphan(ws[i], es[i], key))
    ensures LeavesOrphan(ws[i], es[i], key) ==> IsOrphan(ws[i + 1], key)
  {
    hide Run, Step, Inv, PubInv, TokensInv, IsOrphan, LeavesOrphan;
    RunInvariant(sha, ws, es, i);
    RunStep(sha, ws, es, i);
    OrphansAfterStep(ws[i], sha, es[i], ws[i + 1], key);
    if LeavesOrphan(ws[i], es[i], key) {
      LeavingIsStored(ws[i], sha, es[i], ws[i + 1], key);
    }
  }

  lemma NothingIsOrphanedAtFirst(sha: Sha, ws: seq<World>, es: seq<Event>, key: string)
    requires Run(sha, ws, es)
    ensures |ws| > 0 && !IsOrphan(ws[0], key)
  {
    hide Step;
  }

  /** A body is an orphan exactly if it is stored and some step of the run left it. */
  lemma {:induction false} OrphansOfRun(sha: Sha, ws: seq<World>, es: seq<Event>, i: nat, key: string)
    requires Run(sha, ws, es) && i <= |es|
    ensures |ws| == |es| + 1
    ensures IsOrphan(ws[i], key) <==>
            key in ws[i].store.bodies && exists m | 0 <= m < i :: LeavesOrphan(ws[m], es[m], key)
  {
    hide Run, LeavesOrphan;
    RunLength(sha, ws, es);
    if i == 0 {
      NothingIsOrphanedAtFirst(sha, ws, es, key);
    } else {
      OrphansOfRun(sha, ws, es, i - 1, key);
      StepOrphans(sha, ws, es, i - 1, key);
      if m :| 0 <= m < i && LeavesOrphan(ws[m], es[m], key) {
        StepOrphans(sha, ws, es, m, key);
        CondemnedStays(sha, ws, es, m + 1, i, key);
      }
    }
  }

  /** No body of a run is ever an orphan exactly if none of its steps leaves one. */
  lemma OrphanFreeRuns(sha: Sha, ws: seq<World>, es: seq<Event>, n: nat)
    requires Run(sha, ws, es) && n <= |es|
    ensures |ws| == |es| + 1
    ensures (forall i | 0 <= i <= n :: HasNoOrphan(ws[i])) <==>
            (forall m, key | 0 <= m < n :: !LeavesOrphan(ws[m], es[m], key))
  {
    hide Run, LeavesOrphan;
    RunLength(sha, ws, es);
    if m, key :| 0 <= m < n && LeavesOrphan(ws[m], es[m], key) {
      StepOrphans(sha, ws, es, m, key);
      assert !HasNoOrphan(ws[m + 1]);
    } else {
      forall i | 0 <= i <= n ensures HasNoOrphan(ws[i]) {
        forall key | key in ws[i].store.bodies ensures !IsOrphan(ws[i], key) {
          OrphansOfRun(sha, ws, es, i, key);
        }
      }
    }
  }

  // ----- Bodies that come back after their deletion -----

  lemma SettlingWritesNothing(w: World, sha: Sha, e: Event)
    requires Enabled(w, sha, e) && (e.DeleteEvent? || e.AckEvent?)
    ensures ApplyEvent(w, sha, e).store.bodies.Keys <= w.store.bodies.Keys
  {
    hide PrefixedKey, Acknowledge;
    if e.AckEvent? {
      AckTouchesQueue(w.store, w.past.leases[e.index].lease);
    }
  }

  lemma StepWrites(w: World, sha: Sha, e: Event, v: World, key: string)
    requires Inv(w, sha) && Step(w, sha, e, v) && key !in w.store.bodies && key in v.store.bodies
    ensures || (e.LateWrite? && key == PrefixedKey(e.prefix, e.g))
            || (e.UploadEvent? && IsReserved(w, e.r.Gen()) && key == PrefixedKey("", e.r.Gen()))
  {
    hide Inv, PrefixedKey, IsReserved, ApplyEvent, Enabled, WriteWorld;
    if e.UploadEvent? {
      UploadIsWrite(w, sha, e);
      WriteAdds(w, e.r.Gen(), "", e.bytes, key);
    } else if e.LateWrite? {
      LateWriteIs(w, sha, e);
      WriteAdds(w, e.g, e.prefix, e.bytes, key);
    } else if e.DeleteEvent? || e.AckEvent? {
      SettlingWritesNothing(w, sha, e);
    } else {
      OtherEventsKeepBodies(w, sha, e);
    }
  }

  lemma WriteAdds(w: World, g: Generation, prefix: string, bytes: Bytes, key: string)
    ensures key in WriteWorld(w, g, prefix, bytes).store.bodies ==> key in w.store.bodies || key == PrefixedKey(prefix, g)
  {
    hide PrefixedKey;
  }

  lemma LeasedIsNotReserved(w: World, sha: Sha, index: nat, prefix: string, g: Generation, other: string)
    requires Inv(w, sha) && index < |w.past.leases| && IsReserved(w, g)
    ensures PrefixedKey(prefix, w.past.leases[index].lease.gen) != PrefixedKey(other, g)
  {
    hide StoredInv, CheckInv, PathInv, PrefixedKey, ObjectKey, IsId;
    var h := w.past.leases[index].lease.gen;
    assert IsGarbage(w, w.past.leases[index].lease) && IsPhase(PlacesOf(w, g)) && IsId(g.name) && IsId(h.name);
    if PrefixedKey(prefix, h) == PrefixedKey(other, g) {
      IdIsSlashFree(g.name);
      IdIsSlashFree(h.name);
      KeysAreInjective(prefix, h, other, g);
    }
  }

  predicate KeepsLeases(w: World, v: World) {
    w.past.leases <= v.past.leases
  }

  lemma ClaimKeepsLeases(w: World, sha: Sha, e: Event)
    requires Enabled(w, sha, e) && e.ClaimEvent?
    ensures KeepsLeases(w, ApplyEvent(w, sha, e))
  {
    hide ApplyEvent, Enabled, BeforeLeasing, AfterLeasing, Leases, NewRecords, AllReserved, AllQueued;
    ClaimEventIs(w, sha, e.now, e.limit, e.choice);
  }

  lemma OtherEventsKeepLeases(w: World, sha: Sha, e: Event)
    requires Enabled(w, sha, e) && !e.ClaimEvent?
    ensures KeepsLeases(w, ApplyEvent(w, sha, e))
  {
    hide Reserve, Upload, CommitPublication, PublishTrusted, Abort, RetainForRead, Acknowledge, FailGarbage, AnswersById;
    hide DecideReserve, NewReservationRow, LiveError, PreparePublish, Commits, HoldsLease, Fresh;
  }

  lemma LeasesStay(w: World, sha: Sha, e: Event, v: World, index: nat)
    requires Step(w, sha, e, v) && index < |w.past.leases|
    ensures index < |v.past.leases| && v.past.leases[index] == w.past.leases[index]
  {
    hide ApplyEvent, Enabled;
    if e.ClaimEvent? {
      ClaimKeepsLeases(w, sha, e);
    } else {
      OtherEventsKeepLeases(w, sha, e);
    }
  }

  /** A body that a worker deleted under its lease is stored again only through a late write in between. */
  lemma {:induction false} DeletedBodyWasRewritten(
    sha: Sha, ws: seq<World>, es: seq<Event>, i: nat, j: nat, index: nat, prefix: string) returns (m: nat)
    requires Run(sha, ws, es) && i < j <= |es| && |ws| == |es| + 1
    requires es[i] == DeleteEvent(index, prefix) && index < |ws[i].past.leases|
    requires PrefixedKey(prefix, ws[i].past.leases[index].lease.gen) in ws[j].store.bodies
    ensures i < m < j && es[m].LateWrite?
    ensures PrefixedKey(es[m].prefix, es[m].g) == PrefixedKey(prefix, ws[i].past.leases[index].lease.gen)
    decreases j - i
  {
    hide Run, Inv, PubInv, TokensInv, PrefixedKey, Step, IsReserved;
    var key := PrefixedKey(prefix, ws[i].past.leases[index].lease.gen);
    LeaseOfRun(sha, ws, es, i, j - 1, index);
    RunInvariant(sha, ws, es, j - 1);
    RunStep(sha, ws, es, j - 1);
    if j == i + 1 {
      DeleteRemoves(ws[i], sha, es[i], ws[j]);
    } else if key in ws[j - 1].store.bodies {
      m := DeletedBodyWasRewritten(sha, ws, es, i, j - 1, index, prefix);
    } else {
      StepWrites(ws[j - 1], sha, es[j - 1], ws[j], key);
      if es[j - 1].UploadEvent? {
        LeasedIsNotReserved(ws[j - 1], sha, index, prefix, es[j - 1].r.Gen(), "");
      }
      m := j - 1;
    }
  }

  lemma DeleteRemoves(w: World, sha: Sha, e: Event, v: World)
    requires Step(w, sha, e, v) && e.DeleteEvent? && e.index < |w.past.leases|
    ensures PrefixedKey(e.prefix, w.past.leases[e.index].lease.gen) !in v.store.bodies
  {
    hide PrefixedKey;
  }

  lemma {:induction false} LeaseOfRun(sha: Sha, ws: seq<World>, es: seq<Event>, i: nat, j: nat, index: nat)
    requires Run(sha, ws, es) && i <= j <= |es| && |ws| == |es| + 1 && index < |ws[i].past.leases|
    ensures index < |ws[j].past.leases| && ws[j].past.leases[index] == ws[i].past.leases[index]
    decreases j - i
  {
    hide Run, Step;
    if i < j {
      LeaseOfRun(sha, ws, es, i, j - 1, index);
      RunStep(sha, ws, es, j - 1);
      LeasesStay(ws[j - 1], sha, es[j - 1], ws[j], index);
    }
  }

  // ----- Adapter prefixes -----

  /** The step writes bodies under the keys of one adapter prefix only; uploads write local keys. */
  predicate WritesUnder(e: Event, prefix: string) {
    match e
    case LateWrite(g, p, bytes) => p == prefix
    case UploadEvent(r, bytes, now) => prefix == ""
    case _ => true
  }

  predicate AreStoredUnder(w: World, prefix: string) {
    forall key | key in w.past.stored :: w.past.stored[key].prefix == prefix
  }

  lemma StepStoresUnder(w: World, sha: Sha, e: Event, v: World, prefix: string)
    requires Inv(w, sha) && Step(w, sha, e, v) && WritesUnder(e, prefix) && AreStoredUnder(w, prefix)
    ensures AreStoredUnder(v, prefix)
  {
    hide Inv, PrefixedKey, IsReserved;
    if e.UploadEvent? {
      UploadIsWrite(w, sha, e);
    } else if e.LateWrite? {
      LateWriteIs(w, sha, e);
    } else if !TouchesBodies(e) {
      OtherEventsKeepBodies(w, sha, e);
      hide ApplyEvent, Enabled;
    }
  }

  lemma NothingStored(sha: Sha, ws: seq<World>, es: seq<Event>, prefix: string)
    requires Run(sha, ws, es)
    ensures |ws| > 0 && AreStoredUnder(ws[0], prefix)
  {
    hide Step;
  }

  lemma {:induction false} RunStoresUnder(sha: Sha, ws: seq<World>, es: seq<Event>, i: nat, prefix: string)
    requires Run(sha, ws, es) && i <= |es| && forall m | 0 <= m < i :: WritesUnder(es[m], prefix)
    ensures |ws| == |es| + 1 && AreStoredUnder(ws[i], prefix)
  {
    hide Run, Step, Inv, PubInv, TokensInv, AreStoredUnder, WritesUnder;
    RunLength(sha, ws, es);
    if i == 0 {
      NothingStored(sha, ws, es, prefix);
    } else {
      RunStoresUnder(sha, ws, es, i - 1, prefix);
      RunInvariant(sha, ws, es, i - 1);
      RunStep(sha, ws, es, i - 1);
      StepStoresUnder(ws[i - 1], sha, es[i - 1], ws[i], prefix);
    }
  }

  /**
   When bodies are written under one adapter prefix, an acknowledgement by a worker that deleted
   the body leaves an orphan only if a late write stored the body again in between.
   */
  lemma AcknowledgedOrphanWasRewritten(
    sha: Sha, ws: seq<World>, es: seq<Event>, i: nat, j: nat, key: string, prefix: string) returns (m: nat)
    requires Run(sha, ws, es) && i < j < |es| && |ws| == |es| + 1
    requires es[j].AckEvent? && es[i] == DeleteEvent(es[j].index, prefix)
    requires forall n | 0 <= n < j :: WritesUnder(es[n], prefix)
    requires LeavesOrphan(ws[j], es[j], key)
    ensures i < m < j && es[m].LateWrite? && PrefixedKey(es[m].prefix, es[m].g) == key
  {
    hide Run, Step, Inv, PubInv, TokensInv, PrefixedKey, GenInv, IsId, IsKeyOf, HoldsLease;
    RunStep(sha, ws, es, i);
    DeleteIsOfLease(ws[i], sha, es[i], ws[i + 1]);
    RunStoresUnder(sha, ws, es, j, prefix);
    RunInvariant(sha, ws, es, j);
    StoredGeneration(ws[j], sha, key);
    LeaseOfRun(sha, ws, es, i, j, es[j].index);
    KeyOfStored(ws[j], sha, key, ws[j].past.leases[es[j].index].lease.gen);
    m := DeletedBodyWasRewritten(sha, ws, es, i, j, es[j].index, prefix);
  }

  lemma DeleteIsOfLease(w: World, sha: Sha, e: Event, v: World)
    requires Step(w, sha, e, v) && e.DeleteEvent?
    ensures e.index < |w.past.leases|
  {
    hide ApplyEvent;
  }

  // ----- Runs that lose nothing -----

  /** No write lands late, and nobody acknowledges a lease that he holds while the file is in place. */
  predicate LosesNothing(w: World, e: Event) {
    && !e.LateWrite?
    && (e.AckEvent? && e.index < |w.past.leases| && HoldsLease(w.store, w.past.leases[e.index].lease) ==>
          w.past.leases[e.index].lease.objectKey !in w.store.bodies)
  }

  lemma LosesNothingLeavesNone(w: World, sha: Sha, e: Event, key: string)
    requires Inv(w, sha) && AreStoredUnder(w, "") && LosesNothing(w, e)
    ensures !LeavesOrphan(w, e, key)
  {
    hide Inv, PrefixedKey, GenInv, IsId, IsKeyOf, HoldsLease, IsGarbage;
    if LeavesOrphan(w, e, key) {
      KeyOfStored(w, sha, key, w.past.leases[e.index].lease.gen);
      StoredGeneration(w, sha, key);
      LeaseKey(w, e.index);
    }
  }

  lemma LeaseKey(w: World, index: nat)
    requires GenInv(w) && index < |w.past.leases|
    ensures w.past.leases[index].lease.objectKey == PrefixedKey("", w.past.leases[index].lease.gen)
    ensures IsId(w.past.leases[index].lease.gen.name)
  {
    hide PlacesOf, ObjectKey, IsId, Traced, Phased;
    LeasedIsGarbage(w, index);
  }

  /**
   When no write lands late and nothing is acknowledged with its file in place, every stored body
   belongs to a reservation, a current path or a queue row at every moment, also between the
   deletion of a file and its acknowledgement, whoever crashes.
   */
  lemma NoBodyIsLost(sha: Sha, ws: seq<World>, es: seq<Event>, i: nat, key: string)
    requires Run(sha, ws, es) && i <= |es| && |ws| == |es| + 1 && forall m | 0 <= m < i :: LosesNothing(ws[m], es[m])
    requires key in ws[i].store.bodies
    ensures key in ws[i].past.stored && HasRow(ws[i].store, ws[i].past.stored[key].gen)
    ensures key == ObjectKey(ws[i].past.stored[key].gen)
  {
    hide Run, HasRow, LeavesOrphan, Inv, PubInv, TokensInv, GenInv, IsId, ObjectKey, HoldsLease;
    assert forall m | 0 <= m < i :: LosesNothing(ws[m], es[m]) && WritesUnder(es[m], "");
    hide LosesNothing;
    BodiesHaveRowsUntilAcknowledged(sha, ws, es, i, key);
    OrphansOfRun(sha, ws, es, i, key);
    if m :| 0 <= m < i && LeavesOrphan(ws[m], es[m], key) {
      RunStoresUnder(sha, ws, es, m, "");
      RunInvariant(sha, ws, es, m);
      LosesNothingLeavesNone(ws[m], sha, es[m], key);
    }
    RunStoresUnder(sha, ws, es, i, "");
    RunInvariant(sha, ws, es, i);
    StoredGeneration(ws[i], sha, key);
  }

  /** A local worker who deletes the file before he acknowledges loses nothing, unless a write lands late. */
  lemma DeletingFirstLosesNothing(sha: Sha, ws: seq<World>, es: seq<Event>, i: nat, j: nat)
    requires Run(sha, ws, es) && i < j < |es| && |ws| == |es| + 1 && forall n | 0 <= n < j :: !es[n].LateWrite?
    requires es[j].AckEvent? && es[i] == DeleteEvent(es[j].index, "")
    ensures LosesNothing(ws[j], es[j])
  {
    hide Run, Step, HoldsLease, GenInv, StoredInv, CheckInv, PathInv, PubInv, TokensInv, PrefixedKey, IsId;
    if !LosesNothing(ws[j], es[j]) {
      var lease := ws[j].past.leases[es[j].index].lease;
      RunInvariant(sha, ws, es, j);
      LeaseKey(ws[j], es[j].index);
      IdIsSlashFree(lease.gen.name);
      ParsePrefixedKey("", lease.gen);
      assert LeavesOrphan(ws[j], es[j], lease.objectKey);
      var m := AcknowledgedOrphanWasRewritten(sha, ws, es, i, j, lease.objectKey, "");
    }
  }
}
