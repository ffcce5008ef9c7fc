/**
 Pruning is invisible: on a clock that never runs back, a store that prunes expired read
 retentions makes the same claims as one that keeps every retention forever, and the choices
 open to the one are the choices open to the other.
 */
module Pruning {
  import opened Wrappers
  import opened Keys
  import opened Catalog
  import opened Protocol
  import opened Safety
  import opened Guarantees

  // ----- The store that never prunes -----

  ghost predicate KeepChoice(s: State, now: Millis, limit: nat, c: ClaimChoice) {
    && FirstDue(c.reaped, DueReservations(s.reservations, now), MAX_GC_BATCH)
    && AllReserved(s, c.reaped)
    && FirstDue(c.leased, DueLeases(Reap(s, c.reaped), now), limit)
    && AllQueued(Reap(s, c.reaped).queue, c.leased)
    && FirstDue(c.receipts, DueReceipts(s.receipts, now), MAX_GC_BATCH)
    && |c.receipts| <= MAX_GC_BATCH
    && FirstDue(c.publications, DuePublications(s.publications, now), MAX_GC_BATCH - |c.receipts|)
    && |c.ids| == |c.leased|
    && Fresh(s.minted, c.ids)
  }

  /** A claim that leaves the read retentions alone. */
  ghost function KeepClaim(s: State, now: Millis, limit: nat, c: ClaimChoice): Outcome<GarbageClaim>
    requires ValidGcRequest(now, limit) ==> KeepChoice(s, now, limit, c)
  {
    if !ValidGcRequest(now, limit) then Outcome(s, Err(Invalid))
    else
      var ready := Reap(s, c.reaped);
      var leases := Leases(ready.queue, c.leased, c.ids);
      if exists i | 0 <= i < |leases| :: leases[i].attempts > U32_MAX then Outcome(s, Err(Storage))
      else
        var report := Report(|c.reaped|, |leases|, 0, 0, |c.receipts| + |c.publications|, 0);
        Outcome(AfterLeasing(ready, now, c), Ok(GarbageClaim(report, leases)))
  }

  /** One step of the store that never prunes, with the history of the other store. */
  ghost predicate KeepStep(k: State, past: History, sha: Sha, e: Event, next: State) {
    match e
    case ClaimEvent(now, limit, c) =>
      (ValidGcRequest(now, limit) ==> KeepChoice(k, now, limit, c)) && next == KeepClaim(k, now, limit, c).state
    case _ => Enabled(World(k, past), sha, e) && next == ApplyEvent(World(k, past), sha, e).store
  }

  // ----- How the two stores correspond -----

  /** `k` has the tables of `s` and some more retentions that ran out by `t`. */
  predicate Mirrors(s: State, k: State, t: Millis) {
    && k == s.(retentions := k.retentions)
    && (forall g | g in s.retentions :: g in k.retentions && k.retentions[g] == s.retentions[g])
    && (forall g | g in k.retentions && g !in s.retentions :: k.retentions[g].retainUntil <= t)
  }

  lemma MirrorLater(s: State, k: State, t: Millis, u: Millis)
    requires Mirrors(s, k, t) && t <= u
    ensures Mirrors(s, k, u)
  {
  }

  // ----- Claims -----

  lemma {:induction false} ReapMirrors(s: State, k: State, keys: seq<PathKey>)
    requires k == s.(retentions := k.retentions) && AllReserved(s, keys)
    ensures AllReserved(k, keys) && Reap(k, keys) == Reap(s, keys).(retentions := k.retentions)
  {
    if keys == [] {
      assert Reap(s, keys) == s && Reap(k, keys) == k;
    } else {
      var n := |keys| - 1;
      ReapMirrors(s, k, keys[..n]);
      assert keys[n] !in keys[..n];
      hide ObjectKey, Enqueue;
    }
  }

  /** The retentions that a store pruned, or keeps although they ran out, hold up no lease. */
  lemma SameRowsDue(s: State, k: State, gone: seq<Generation>, now: Millis)
    requires Mirrors(s, k, now)
    requires forall i | 0 <= i < |gone| :: gone[i] in s.retentions && s.retentions[gone[i]].retainUntil <= now
    ensures DueLeases(PruneRetentions(s, gone), now) == DueLeases(k, now)
  {
    var p := PruneRetentions(s, gone);
    forall key | key in s.queue ensures Leasable(p, key, now) <==> Leasable(k, key, now) {
    }
  }

  /** A choice is open to the store that prunes exactly when it is open to the one that does not. */
  lemma SameChoices(s: State, k: State, now: Millis, limit: nat, c: ClaimChoice)
    requires Mirrors(s, k, now)
    requires FirstDue(c.retentions, DueRetentions(s.retentions, now), MAX_GC_BATCH)
    ensures ValidChoice(s, now, limit, c) <==> KeepChoice(k, now, limit, c)
  {
    assert forall i | 0 <= i < |c.retentions| ::
      c.retentions[i] in s.retentions && s.retentions[c.retentions[i]].retainUntil <= now;
    hide FirstDue, DueRows;
    if AllReserved(s, c.reaped) {
      ReapMirrors(s, k, c.reaped);
      SameRowsDue(Reap(s, c.reaped), Reap(k, c.reaped), c.retentions, now);
    }
  }

  /** The tables that the lease queries of both stores find. */
  lemma ReadyMirrors(s: State, k: State, now: Millis, c: ClaimChoice)
    requires Mirrors(s, k, now) && AllReserved(s, c.reaped)
    requires FirstDue(c.retentions, DueRetentions(s.retentions, now), MAX_GC_BATCH)
    ensures AllReserved(k, c.reaped) && Mirrors(BeforeLeasing(s, c), Reap(k, c.reaped), now)
  {
    ReapMirrors(s, k, c.reaped);
    assert forall i | 0 <= i < |c.retentions| ::
      c.retentions[i] in s.retentions && s.retentions[c.retentions[i]].retainUntil <= now;
    hide FirstDue, Reap;
  }

  lemma LeasingMirrors(s: State, k: State, now: Millis, c: ClaimChoice)
    requires Mirrors(s, k, now) && AllQueued(s.queue, c.leased) && |c.ids| == |c.leased|
    ensures Mirrors(AfterLeasing(s, now, c), AfterLeasing(k, now, c), now)
  {
    hide MarkLeased, AllQueued;
  }

  lemma ChoiceParts(s: State, now: Millis, limit: nat, c: ClaimChoice)
    requires ValidChoice(s, now, limit, c)
    ensures ClaimFits(s, c) && FirstDue(c.retentions, DueRetentions(s.retentions, now), MAX_GC_BATCH)
  {
    hide BeforeLeasing, AllReserved, AllQueued, FirstDue, Fresh;
  }

  /** Two claims hand out the same leases, or both fail. */
  predicate HandOutTheSame(a: Outcome<GarbageClaim>, b: Outcome<GarbageClaim>) {
    if a.result.Ok? then b.result.Ok? && a.result.value.leases == b.result.value.leases else b.result.Err?
  }

  predicate Overrun(leases: seq<GarbageLease>) {
    exists i | 0 <= i < |leases| :: leases[i].attempts > U32_MAX
  }

  lemma ClaimIs(s: State, now: Millis, limit: nat, c: ClaimChoice)
    requires ValidGcRequest(now, limit) && ValidChoice(s, now, limit, c) && ClaimFits(s, c)
    ensures var ready, a := BeforeLeasing(s, c), ClaimGarbage(s, now, limit, c);
            var leases := Leases(ready.queue, c.leased, c.ids);
            if Overrun(leases) then a == Outcome(s, Err(Storage))
            else a.state == AfterLeasing(ready, now, c) && a.result.Ok? && a.result.value.leases == leases
  {
    hide ValidChoice, BeforeLeasing, AfterLeasing, AllQueued, AllReserved, Leases;
  }

  lemma KeepClaimIs(s: State, now: Millis, limit: nat, c: ClaimChoice)
    requires ValidGcRequest(now, limit) && KeepChoice(s, now, limit, c)
    requires AllReserved(s, c.reaped) && AllQueued(Reap(s, c.reaped).queue, c.leased) && |c.ids| == |c.leased|
    ensures var ready, a := Reap(s, c.reaped), KeepClaim(s, now, limit, c);
            var leases := Leases(ready.queue, c.leased, c.ids);
            if Overrun(leases) then a == Outcome(s, Err(Storage))
            else a.state == AfterLeasing(ready, now, c) && a.result.Ok? && a.result.value.leases == leases
  {
    hide KeepChoice, Reap, AfterLeasing, AllQueued, AllReserved, Leases;
  }

  /** Both stores answer the same claim with the same leases and stay in step. */
  lemma SameClaims(s: State, k: State, now: Millis, limit: nat, c: ClaimChoice)
    requires Mirrors(s, k, now) && ValidGcRequest(now, limit) && ValidChoice(s, now, limit, c)
    ensures KeepChoice(k, now, limit, c)
    ensures HandOutTheSame(ClaimGarbage(s, now, limit, c), KeepClaim(k, now, limit, c))
    ensures Mirrors(ClaimGarbage(s, now, limit, c).state, KeepClaim(k, now, limit, c).state, now)
  {
    hide ValidChoice, KeepChoice, BeforeLeasing, Reap, Mirrors, FirstDue, DueRetentions, AllReserved, Leases, AllQueued;
    hide ClaimGarbage, KeepClaim, Overrun, AfterLeasing;
    ChoiceParts(s, now, limit, c);
    SameChoices(s, k, now, limit, c);
    ReadyMirrors(s, k, now, c);
    MirroredQueue(BeforeLeasing(s, c), Reap(k, c.reaped), now);
    LeasingMirrors(BeforeLeasing(s, c), Reap(k, c.reaped), now, c);
    ClaimIs(s, now, limit, c);
    KeepClaimIs(k, now, limit, c);
  }

  lemma MirroredQueue(s: State, k: State, t: Millis)
    requires Mirrors(s, k, t)
    ensures s.queue == k.queue
  {
  }

  // ----- Every other operation -----

  /** The operations other than claims and retentions do not read the retentions. */
  lemma SameDecisions(s: State, k: State, req: ReserveRequest, ids: ReserveIds)
    requires k == s.(retentions := k.retentions)
    ensures DecideReserve(k, req) == DecideReserve(s, req)
    ensures DecideReserve(s, req).Grant? ==> NewReservationRow(k, req, ids) == NewReservationRow(s, req, ids)
  {
    hide ValidRequestId;
  }

  lemma RetireMirrors(s: State, k: State, p: PathKey)
    requires k == s.(retentions := k.retentions) && p in s.reservations
    ensures Retire(k, p) == Retire(s, p).(retentions := k.retentions)
  {
    hide Enqueue;
  }

  lemma ReserveMirrors(s: State, k: State, req: ReserveRequest, ids: ReserveIds)
    requires k == s.(retentions := k.retentions)
    ensures Reserve(k, req, ids).state == Reserve(s, req, ids).state.(retentions := k.retentions)
  {
    hide DecideReserve, NewReservationRow, Retire;
    SameDecisions(s, k, req, ids);
    if req.Key() in s.reservations {
      RetireMirrors(s, k, req.Key());
    }
  }

  lemma SameLiveness(s: State, k: State, r: Reservation, now: Millis)
    requires k == s.(retentions := k.retentions)
    ensures LiveError(k, r, now) == LiveError(s, r, now)
  {
  }

  predicate UploadWrites(s: State, sha: Sha, r: Reservation, bytes: Bytes, now: Millis) {
    var file := ObjectPath(ObjectKey(r.Gen()));
    && r.Valid() && LiveError(s, r, now).None? && |bytes| <= MAX_DIRECT_UPLOAD_BYTES && file.Some?
    && (file.value in s.bodies ==> FileMatches(s, sha, file.value, |bytes|, sha(bytes)))
  }

  lemma UploadIs(s: State, sha: Sha, r: Reservation, bytes: Bytes, now: Millis)
    ensures Upload(s, sha, r, bytes, now).state ==
            if UploadWrites(s, sha, r, bytes, now)
            then s.(bodies := WriteOnce(s.bodies, ObjectPath(ObjectKey(r.Gen())).value, bytes)) else s
  {
    hide ObjectPath, ObjectKey, ValidText, LiveError, FileMatches, WriteOnce;
  }

  lemma SameUploadWrites(s: State, k: State, sha: Sha, r: Reservation, bytes: Bytes, now: Millis)
    requires k == s.(retentions := k.retentions)
    ensures UploadWrites(k, sha, r, bytes, now) <==> UploadWrites(s, sha, r, bytes, now)
  {
    hide ObjectPath, ObjectKey, ValidText, LiveError;
    SameLiveness(s, k, r, now);
  }

  lemma UploadMirrors(s: State, k: State, sha: Sha, r: Reservation, bytes: Bytes, now: Millis)
    requires k == s.(retentions := k.retentions)
    ensures Upload(k, sha, r, bytes, now).state == Upload(s, sha, r, bytes, now).state.(retentions := k.retentions)
  {
    hide ObjectPath, ObjectKey, Upload, WriteOnce;
    UploadIs(s, sha, r, bytes, now);
    UploadIs(k, sha, r, bytes, now);
    SameUploadWrites(s, k, sha, r, bytes, now);
  }

  lemma ReplaceMirrors(s: State, k: State, r: Reservation, o: Observation, now: Millis)
    requires k == s.(retentions := k.retentions) && Commits(s, r, o, now)
    ensures SatAdd(now, RECEIPT_RETENTION_MS) > 0
    ensures r.Key() in s.paths && s.paths[r.Key()].objectKey != o.objectKey ==> now > 0
    ensures Replace(k, r, o, now) == Replace(s, r, o, now).(retentions := k.retentions)
  {
    hide Commits, CommitPublication, Enqueue, ValidText;
    CommitEffect(s, r, o, now);
  }

  lemma SameCommits(s: State, k: State, r: Reservation, o: Observation, now: Millis)
    requires k == s.(retentions := k.retentions)
    ensures Commits(k, r, o, now) <==> Commits(s, r, o, now)
  {
    hide LiveError, Enqueue, ValidText, Replace;
    SameLiveness(s, k, r, now);
  }

  lemma CommitMirrors(s: State, k: State, r: Reservation, o: Observation, now: Millis)
    requires k == s.(retentions := k.retentions)
    ensures CommitPublication(k, r, o, now).state == CommitPublication(s, r, o, now).state.(retentions := k.retentions)
  {
    hide Commits, CommitPublication, Enqueue, ValidText, Replace;
    SameCommits(s, k, r, o, now);
    CommitEffect(s, r, o, now);
    CommitEffect(k, r, o, now);
    if Commits(s, r, o, now) {
      ReplaceMirrors(s, k, r, o, now);
    }
  }

  lemma AbortMirrors(s: State, k: State, r: Reservation)
    requires k == s.(retentions := k.retentions)
    ensures Abort(k, r).state == Abort(s, r).state.(retentions := k.retentions)
  {
    hide Retire;
    if r.Key() in s.reservations {
      RetireMirrors(s, k, r.Key());
    }
  }

  lemma SettleMirrors(s: State, k: State, lease: GarbageLease, now: Millis)
    requires k == s.(retentions := k.retentions)
    ensures Acknowledge(k, lease) == Acknowledge(s, lease).(retentions := k.retentions)
    ensures FailGarbage(k, lease, now).state == FailGarbage(s, lease, now).state.(retentions := k.retentions)
  {
    hide RetryDelay, SatAdd;
    assert HoldsLease(k, lease) == HoldsLease(s, lease);
  }

  /** A retention pruned long ago does not show in the maximum that a new one takes. */
  lemma RetainMirrors(s: State, k: State, t: Millis, ref: ArtifactReference, now: Millis, until: StoredMillis)
    requires Mirrors(s, k, t) && t <= now < until && ref.body.Object?
    ensures Mirrors(Retain(s, ref, until), Retain(k, ref, until), now)
  {
  }

  lemma RetainForReadMirrors(
    s: State, k: State, t: Millis, ref: ArtifactReference, now: Millis, until: Millis, found: Option<PathKey>)
    requires Mirrors(s, k, t) && t <= now
    ensures Mirrors(RetainForRead(s, ref, now, until, found).state, RetainForRead(k, ref, now, until, found).state, now)
    ensures RetainForRead(s, ref, now, until, found).result == RetainForRead(k, ref, now, until, found).result
  {
    MirrorLater(s, k, t, now);
    assert GetFound(s, found) == GetFound(k, found);
    if ref.body.Object? && RetentionWindow(now, until) {
      RetainMirrors(s, k, t, ref, now, until);
    }
    hide ValidText, Retain, GetFound, Mirrors;
  }

  lemma SameEnabled(w: World, k: State, sha: Sha, e: Event)
    requires k == w.store.(retentions := k.retentions) && Enabled(w, sha, e) && !e.ClaimEvent?
    ensures Enabled(World(k, w.past), sha, e)
  {
    hide ValidText, ObjectPath, ObjectKey, IsId;
    if e.RetainEvent? {
      assert forall p :: HoldsArtifact(k, p, e.ref.scope, e.ref.artifactId) <==>
                         HoldsArtifact(w.store, p, e.ref.scope, e.ref.artifactId);
    }
  }

  lemma OtherEventsMirror(w: World, k: State, sha: Sha, e: Event)
    requires Enabled(w, sha, e) && Enabled(World(k, w.past), sha, e) && !e.ClaimEvent? && !e.RetainEvent?
    requires k == w.store.(retentions := k.retentions)
    ensures ApplyEvent(World(k, w.past), sha, e).store == ApplyEvent(w, sha, e).store.(retentions := k.retentions)
  {
    hide Reserve, Upload, CommitPublication, PublishTrusted, Abort, Acknowledge, FailGarbage, Commits;
    hide DecideReserve, NewReservationRow, LiveError, PreparePublish, Fresh, AnswersById;
    var s := w.store;
    match e {
      case ReserveEvent(req, ids) =>
        ReserveMirrors(s, k, req, ids);
      case UploadEvent(r, bytes, now) => UploadMirrors(s, k, sha, r, bytes, now);
      case CommitEvent(r, o, now) =>
        CommitMirrors(s, k, r, o, now);
      case TrustedEvent(r, o, now) =>
        CommitMirrors(s, k, r, o, now);
      case AbortEvent(r) => AbortMirrors(s, k, r);
      case AckEvent(index) => SettleMirrors(s, k, w.past.leases[index].lease, 1);
      case FailEvent(index, now) => SettleMirrors(s, k, w.past.leases[index].lease, now);
      case _ =>
    }
  }

  // ----- Runs -----

  /** The tables `ks` are those of a store that never prunes, driven by the events of the run. */
  ghost predicate KeptRun(ks: seq<State>, sha: Sha, ws: seq<World>, es: seq<Event>) {
    && |ks| == |ws| == |es| + 1
    && ks[0] == EMPTY
    && forall i | 0 <= i < |es| :: KeepStep(ks[i], ws[i].past, sha, es[i], ks[i + 1])
  }

  lemma RetentionsStay(w: World, sha: Sha, e: Event)
    requires Enabled(w, sha, e) && !e.ClaimEvent? && !e.RetainEvent?
    ensures ApplyEvent(w, sha, e).store.retentions == w.store.retentions
  {
    hide Reserve, CommitPublication, Commits, ReplayPublication, DecideReserve, NewReservationRow;
    hide LiveError, PreparePublish, FailLease, Retire, Fresh, AnswersById;
    if e.ReserveEvent? {
      ReserveTouches(w.store, e.req, e.ids);
    } else if e.CommitEvent? || e.TrustedEvent? {
      CommitEffect(w.store, e.r, e.o, e.now);
    } else if e.AbortEvent? && e.r.Key() in w.store.reservations {
      RetireTouches(w.store, e.r.Key());
    } else if e.FailEvent? && e.now > 0 {
      FailTouchesQueue(w.store, w.past.leases[e.index].lease, e.now);
    }
  }

  lemma OtherStepMirrors(w: World, k: State, sha: Sha, e: Event)
    requires Enabled(w, sha, e) && !e.ClaimEvent? && !e.RetainEvent? && Mirrors(w.store, k, w.past.clock)
    ensures Enabled(World(k, w.past), sha, e)
    ensures Mirrors(ApplyEvent(w, sha, e).store, ApplyEvent(World(k, w.past), sha, e).store, w.past.clock)
  {
    hide ApplyEvent, Enabled;
    SameEnabled(w, k, sha, e);
    OtherEventsMirror(w, k, sha, e);
    RetentionsStay(w, sha, e);
  }

  lemma RetainStepMirrors(w: World, k: State, sha: Sha, e: Event)
    requires Enabled(w, sha, e) && e.RetainEvent? && Mirrors(w.store, k, w.past.clock) && w.past.clock <= e.now
    ensures Enabled(World(k, w.past), sha, e)
    ensures Mirrors(ApplyEvent(w, sha, e).store, ApplyEvent(World(k, w.past), sha, e).store, e.now)
  {
    SameEnabled(w, k, sha, e);
    hide RetainForRead, Mirrors, AnswersById;
    RetainForReadMirrors(w.store, k, w.past.clock, e.ref, e.now, e.until, e.found);
  }

  lemma ClaimStepMirrors(w: World, k: State, sha: Sha, e: Event)
    requires Enabled(w, sha, e) && e.ClaimEvent? && Mirrors(w.store, k, w.past.clock) && w.past.clock <= e.now
    ensures ValidGcRequest(e.now, e.limit) ==> KeepChoice(k, e.now, e.limit, e.choice)
    ensures Mirrors(ApplyEvent(w, sha, e).store, KeepClaim(k, e.now, e.limit, e.choice).state, e.now)
  {
    hide ClaimGarbage, ValidChoice, KeepChoice, Mirrors;
    MirrorLater(w.store, k, w.past.clock, e.now);
    if ValidGcRequest(e.now, e.limit) {
      SameClaims(w.store, k, e.now, e.limit, e.choice);
    } else {
      InvalidClaims(w.store, k, e.now, e.limit, e.choice);
    }
  }

  lemma InvalidClaims(s: State, k: State, now: Millis, limit: nat, c: ClaimChoice)
    requires !ValidGcRequest(now, limit)
    ensures ClaimGarbage(s, now, limit, c).state == s && KeepClaim(k, now, limit, c).state == k
  {
    hide ValidChoice, KeepChoice;
  }

  lemma StepMirrors(w: World, k: State, sha: Sha, e: Event, v: World) returns (next: State)
    requires Step(w, sha, e, v) && OnTime(w, e) && Mirrors(w.store, k, w.past.clock)
    ensures KeepStep(k, w.past, sha, e, next) && Mirrors(v.store, next, v.past.clock)
  {
    hide ApplyEvent, Enabled, Mirrors, KeepClaim, KeepChoice;
    StepTime(w, sha, e, v);
    if e.ClaimEvent? {
      ClaimStepMirrors(w, k, sha, e);
      next := KeepClaim(k, e.now, e.limit, e.choice).state;
    } else if e.RetainEvent? {
      RetainStepMirrors(w, k, sha, e);
      next := ApplyEvent(World(k, w.past), sha, e).store;
    } else {
      OtherStepMirrors(w, k, sha, e);
      next := ApplyEvent(World(k, w.past), sha, e).store;
      MirrorLater(v.store, next, w.past.clock, v.past.clock);
    }
  }

  lemma StepTime(w: World, sha: Sha, e: Event, v: World)
    requires Step(w, sha, e, v) && OnTime(w, e)
    ensures v.store == ApplyEvent(w, sha, e).store && w.past.clock <= v.past.clock
    ensures IsTimed(e) ==> v.past.clock == TimeOf(e)
  {
    hide ApplyEvent, Enabled;
    assert ApplyEvent(w, sha, e).past.clock == w.past.clock by {
      EventKeepsClock(w, sha, e);
    }
  }

  lemma EventKeepsClock(w: World, sha: Sha, e: Event)
    requires Enabled(w, sha, e)
    ensures ApplyEvent(w, sha, e).past.clock == w.past.clock
  {
    hide LiveError, PreparePublish, FailLease, ClaimGarbage, Reserve, Upload, HoldsLease, NewRecords;
    hide CommitPublication, PublishTrusted, RetainForRead, DecideReserve, NewReservationRow, Commits;
  }

  lemma KeepStepIsUnique(k: State, past: History, sha: Sha, e: Event, a: State, b: State)
    requires KeepStep(k, past, sha, e, a) && KeepStep(k, past, sha, e, b)
    ensures a == b
  {
    hide ApplyEvent, Enabled, KeepClaim, KeepChoice;
  }

  lemma EmptyMirrors()
    ensures Mirrors(GENESIS.store, EMPTY, GENESIS.past.clock)
  {
  }

  lemma {:induction false} KeptRunMirrors(ks: seq<State>, sha: Sha, ws: seq<World>, es: seq<Event>, i: nat)
    requires ForwardRun(sha, ws, es) && KeptRun(ks, sha, ws, es) && i <= |es|
    ensures Mirrors(ws[i].store, ks[i], ws[i].past.clock)
  {
    hide KeepStep, Mirrors, Step, ForwardRun, Run, OnTime;
    ForwardRunIsRun(sha, ws, es);
    if i == 0 {
      EmptyMirrors();
    } else {
      KeptRunMirrors(ks, sha, ws, es, i - 1);
      ForwardRunStep(sha, ws, es, i - 1);
      var next := StepMirrors(ws[i - 1], ks[i - 1], sha, es[i - 1], ws[i]);
      assert KeepStep(ks[i - 1], ws[i - 1].past, sha, es[i - 1], ks[i]);
      KeepStepIsUnique(ks[i - 1], ws[i - 1].past, sha, es[i - 1], next, ks[i]);
    }
  }

  lemma ShorterRun(sha: Sha, ws: seq<World>, es: seq<Event>)
    requires ForwardRun(sha, ws, es) && es != []
    ensures |ws| == |es| + 1 && ForwardRun(sha, ws[..|es|], es[..|es| - 1])
  {
    hide Step, OnTime;
  }

  /** Every run has a counterpart in which nothing is pruned. */
  lemma {:induction false} KeptRunExists(sha: Sha, ws: seq<World>, es: seq<Event>) returns (ks: seq<State>)
    requires ForwardRun(sha, ws, es)
    ensures KeptRun(ks, sha, ws, es)
    decreases |es|
  {
    hide KeepStep, Mirrors, Step, ForwardRun, Run, OnTime;
    ForwardRunIsRun(sha, ws, es);
    if |es| == 0 {
      ks := [EMPTY];
    } else {
      var n := |es| - 1;
      ShorterRun(sha, ws, es);
      var shorter := KeptRunExists(sha, ws[..n + 1], es[..n]);
      KeptRunMirrors(shorter, sha, ws[..n + 1], es[..n], n);
      ForwardRunStep(sha, ws, es, n);
      var next := StepMirrors(ws[n], shorter[n], sha, es[n], ws[n + 1]);
      ks := shorter + [next];
    }
  }

  /**
   At every point of every run, whatever claim comes next, the store that pruned its expired
   retentions and the store that kept them all have the same choices and hand out the same
   leases.
   */
  lemma PruningIsInvisible(
    ks: seq<State>, sha: Sha, ws: seq<World>, es: seq<Event>, i: nat, now: Millis, limit: nat, c: ClaimChoice)
    requires ForwardRun(sha, ws, es) && KeptRun(ks, sha, ws, es) && i <= |es|
    requires ws[i].past.clock <= now && ValidGcRequest(now, limit)
    requires FirstDue(c.retentions, DueRetentions(ws[i].store.retentions, now), MAX_GC_BATCH)
    ensures ValidChoice(ws[i].store, now, limit, c) <==> KeepChoice(ks[i], now, limit, c)
    ensures ValidChoice(ws[i].store, now, limit, c) ==>
              HandOutTheSame(ClaimGarbage(ws[i].store, now, limit, c), KeepClaim(ks[i], now, limit, c))
  {
    hide ForwardRun, KeepStep, ValidChoice, KeepChoice, FirstDue, DueRetentions, ClaimGarbage, KeepClaim;
    hide HandOutTheSame, Mirrors;
    ForwardRunIsRun(sha, ws, es);
    KeptRunMirrors(ks, sha, ws, es, i);
    MirrorLater(ws[i].store, ks[i], ws[i].past.clock, now);
    SameChoices(ws[i].store, ks[i], now, limit, c);
    if ValidChoice(ws[i].store, now, limit, c) {
      SameClaims(ws[i].store, ks[i], now, limit, c);
    }
  }
}
