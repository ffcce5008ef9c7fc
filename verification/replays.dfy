/**
 Retries. A repeated publication answers with the original reference as long as its receipt is
 kept or it is still current, and a repeated request with the original reservation as long as
 its receipt is kept; neither changes a table.
 */
module Replays {
  import opened Wrappers
  import opened Keys
  import opened Catalog
  import opened Protocol
  import opened Generations
  import opened Safety
  import opened Publications
  import opened LeaseRules
  import opened Guarantees
  import opened Updates

  // ----- How long receipts are kept -----

  /** `e` is not a claim that may prune a receipt kept until `until`. */
  predicate PrunesNothingBefore(e: Event, until: Millis) {
    e.ClaimEvent? ==> e.now < until
  }

  lemma GrantRewritesNoReceipt(s: State, req: ReserveRequest, ids: ReserveIds)
    ensures var t := Reserve(s, req, ids).state;
            Within(s.receipts, t.receipts) && t.publications == s.publications
  {
    hide NewReservationRow, IsId, Enqueue, ValidRequestId;
  }

  lemma CommitRewritesNoReceipt(s: State, r: Reservation, o: Observation, now: Millis)
    ensures var t := CommitPublication(s, r, o, now).state;
            Within(s.publications, t.publications) && t.receipts == s.receipts
  {
    hide Commits, CommitPublication, Enqueue, ValidText;
    CommitEffect(s, r, o, now);
  }

  /** Every receipt is kept as it is. */
  predicate KeepsReceipts(s: State, t: State) {
    Within(s.receipts, t.receipts) && Within(s.publications, t.publications)
  }

  lemma PublicationPrunesNothing(w: World, sha: Sha, e: Event)
    requires Enabled(w, sha, e) && (e.CommitEvent? || e.TrustedEvent?)
    ensures KeepsReceipts(w.store, ApplyEvent(w, sha, e).store)
  {
    hide CommitPublication, Commits, ValidText, ReplayPublication, Replace, Within;
    CommitEffect(w.store, e.r, e.o, e.now);
    CommitRewritesNoReceipt(w.store, e.r, e.o, e.now);
    SameTablesKeepReceipts(w.store);
  }

  lemma SameTablesKeepReceipts(s: State)
    ensures KeepsReceipts(s, s)
  {
  }

  lemma SettlingPrunesNothing(w: World, sha: Sha, e: Event)
    requires Enabled(w, sha, e) && (e.AckEvent? || e.FailEvent? || e.AbortEvent?)
    ensures KeepsReceipts(w.store, ApplyEvent(w, sha, e).store)
  {
    hide FailLease, Retire;
    if e.FailEvent? && e.now > 0 {
      FailTouchesQueue(w.store, w.past.leases[e.index].lease, e.now);
    } else if e.AbortEvent? && e.r.Key() in w.store.reservations {
      RetireTouches(w.store, e.r.Key());
    }
  }

  lemma EventPrunesNothing(w: World, sha: Sha, e: Event)
    requires Enabled(w, sha, e) && !e.ClaimEvent?
    ensures KeepsReceipts(w.store, ApplyEvent(w, sha, e).store)
  {
    hide KeepsReceipts;
    if e.CommitEvent? || e.TrustedEvent? {
      PublicationPrunesNothing(w, sha, e);
    } else if e.AckEvent? || e.FailEvent? || e.AbortEvent? {
      SettlingPrunesNothing(w, sha, e);
    } else {
      OtherEventsPruneNothing(w, sha, e);
    }
  }

  lemma OtherEventsPruneNothing(w: World, sha: Sha, e: Event)
    requires Enabled(w, sha, e) && !e.CommitEvent? && !e.TrustedEvent? && !e.ClaimEvent?
    requires !e.AckEvent? && !e.FailEvent? && !e.AbortEvent?
    ensures KeepsReceipts(w.store, ApplyEvent(w, sha, e).store)
  {
    hide Reserve, LiveError, PreparePublish, ValidText, ObjectPath, ObjectKey, AnswersById, Fresh, DecideReserve;
    if e.ReserveEvent? {
      GrantRewritesNoReceipt(w.store, e.req, e.ids);
    }
  }

  lemma StepPrunesNothing(w: World, sha: Sha, e: Event, v: World)
    requires Step(w, sha, e, v) && !e.ClaimEvent?
    ensures KeepsReceipts(w.store, v.store)
  {
    hide ApplyEvent, Enabled, KeepsReceipts;
    EventPrunesNothing(w, sha, e);
  }

  lemma ClaimPrunesOnlyDue(w: World, sha: Sha, e: Event, v: World)
    requires Step(w, sha, e, v) && e.ClaimEvent?
    ensures forall k | k in w.store.receipts && e.now < w.store.receipts[k].retainUntil ::
              k in v.store.receipts && v.store.receipts[k] == w.store.receipts[k]
    ensures forall k | k in w.store.publications && e.now < w.store.publications[k].retainUntil ::
              k in v.store.publications && v.store.publications[k] == w.store.publications[k]
  {
    ClaimEventIs(w, sha, e.now, e.limit, e.choice);
    assert ValidGcRequest(e.now, e.limit) ==>
      && FirstDue(e.choice.receipts, DueReceipts(w.store.receipts, e.now), MAX_GC_BATCH)
      && FirstDue(e.choice.publications, DuePublications(w.store.publications, e.now), MAX_GC_BATCH - |e.choice.receipts|);
    hide ValidChoice, Reap, MarkLeased, ApplyEvent;
  }

  lemma {:induction false} RequestReceiptStays(sha: Sha, ws: seq<World>, es: seq<Event>, i: nat, j: nat, k: RequestKey)
    requires Run(sha, ws, es) && i <= j <= |es| && k in ws[i].store.receipts
    requires forall m | i <= m < j :: PrunesNothingBefore(es[m], ws[i].store.receipts[k].retainUntil)
    ensures k in ws[j].store.receipts && ws[j].store.receipts[k] == ws[i].store.receipts[k]
    decreases j - i
  {
    if i < j {
      RequestReceiptStays(sha, ws, es, i, j - 1, k);
      assert Step(ws[j - 1], sha, es[j - 1], ws[j]) && PrunesNothingBefore(es[j - 1], ws[i].store.receipts[k].retainUntil);
      hide Step, Run;
      if es[j - 1].ClaimEvent? {
        ClaimPrunesOnlyDue(ws[j - 1], sha, es[j - 1], ws[j]);
      } else {
        StepPrunesNothing(ws[j - 1], sha, es[j - 1], ws[j]);
      }
    }
  }

  lemma {:induction false} PublicationReceiptStays(sha: Sha, ws: seq<World>, es: seq<Event>, i: nat, j: nat, k: TokenKey)
    requires Run(sha, ws, es) && i <= j <= |es| && k in ws[i].store.publications
    requires forall m | i <= m < j :: PrunesNothingBefore(es[m], ws[i].store.publications[k].retainUntil)
    ensures k in ws[j].store.publications && ws[j].store.publications[k] == ws[i].store.publications[k]
    decreases j - i
  {
    if i < j {
      PublicationReceiptStays(sha, ws, es, i, j - 1, k);
      assert Step(ws[j - 1], sha, es[j - 1], ws[j]) && PrunesNothingBefore(es[j - 1], ws[i].store.publications[k].retainUntil);
      hide Step, Run;
      if es[j - 1].ClaimEvent? {
        ClaimPrunesOnlyDue(ws[j - 1], sha, es[j - 1], ws[j]);
      } else {
        StepPrunesNothing(ws[j - 1], sha, es[j - 1], ws[j]);
      }
    }
  }

  // ----- Repeating a publication -----

  /** The publication with the token is the current one of the path. */
  predicate IsCurrent(s: State, p: PathKey, token: string) {
    p in s.paths && s.paths[p].token == token
  }

  predicate HasReceipt(s: State, r: Reservation) {
    TokenKey(r.scope, r.token) in s.publications
  }

  /** The reference that a committed publication answers with. */
  function ReferenceOf(e: Event): ArtifactReference
    requires e.CommitEvent? || e.TrustedEvent?
  {
    RowReference(e.r.Key(), NewPublishedRow(e.r, e.o, e.now))
  }

  /** The publication at `n` in the log is of this reservation and observation. */
  predicate IsLoggedAt(w: World, n: nat, r: Reservation, o: Observation) {
    n < |w.past.log| && PublicationMatches(w.past.log[n].reference, r, o)
  }

  lemma {:induction false} LoggedIsChained(log: seq<Publication>, p: PathKey, n: nat)
    requires n < |log| && log[n].reference.Key() == p
    ensures exists i | 0 <= i < |PathLog(log, p)| :: PathLog(log, p)[i] == log[n]
  {
    var m := |log| - 1;
    if n == m {
      assert PathLog(log, p)[|PathLog(log, p)| - 1] == log[n];
    } else {
      LoggedIsChained(log[..m], p, n);
      var i :| 0 <= i < |PathLog(log[..m], p)| && PathLog(log[..m], p)[i] == log[n];
      assert PathLog(log, p)[i] == log[n];
    }
  }

  /** A published reservation is not found among the live ones, however often its path is reserved again. */
  lemma PublishedIsNotFound(w: World, n: nat, r: Reservation, o: Observation, now: Millis)
    requires PubInv(w) && IsLoggedAt(w, n, r, o) && r.revision <= I64_MAX
    ensures LiveError(w.store, r, now) == Some(NotFound)
  {
    hide PathLog, TokenInv, OwnerInv, ReceiptInv, LocalInv;
    var p := r.Key();
    LoggedIsChained(w.past.log, p, n);
    assert ChainEntry(w, p);
    var i :| 0 <= i < |PathLog(w.past.log, p)| && PathLog(w.past.log, p)[i] == w.past.log[n];
  }

  lemma CurrentIsTheLogged(w: World, n: nat, r: Reservation, o: Observation)
    requires PubInv(w) && IsLoggedAt(w, n, r, o) && IsCurrent(w.store, r.Key(), r.token)
    ensures RowReference(r.Key(), w.store.paths[r.Key()]) == w.past.log[n].reference
  {
    CurrentIsLogged(w, r.Key());
    OneReferencePerToken(w, n, RowReference(r.Key(), w.store.paths[r.Key()]));
  }

  lemma RepeatedCommit(w: World, n: nat, r: Reservation, o: Observation, now: Millis)
    requires PubInv(w) && IsLoggedAt(w, n, r, o) && r.revision <= I64_MAX && o.BodyRef().Valid()
    ensures CommitPublication(w.store, r, o, now) ==
            Outcome(w.store, if IsCurrent(w.store, r.Key(), r.token) then Ok(w.past.log[n].reference) else Err(NotFound))
  {
    hide PubInv, LiveError, Body.Valid;
    PublishedIsNotFound(w, n, r, o, now);
    if IsCurrent(w.store, r.Key(), r.token) {
      CurrentIsTheLogged(w, n, r, o);
    }
  }

  lemma KeptReceiptAnswers(w: World, n: nat, r: Reservation, o: Observation)
    requires PubInv(w) && IsLoggedAt(w, n, r, o)
    ensures ReplayPublication(w.store, r, o) ==
            if HasReceipt(w.store, r) then Some(Ok(w.past.log[n].reference)) else None
  {
    hide TokenInv, ChainInv, OwnerInv, LocalInv;
    if HasReceipt(w.store, r) {
      var key := TokenKey(r.scope, r.token);
      assert Answers(w, key, w.store.publications[key].reference);
      OneReferencePerToken(w, n, w.store.publications[key].reference);
    }
  }

  /** What a commit shows about the reservation and the observation that it was given. */
  lemma CommittedFits(w: World, sha: Sha, e: Event, v: World)
    requires Inv(w, sha) && Step(w, sha, e, v) && IsPublication(w, e)
    ensures e.r.revision <= I64_MAX && e.o.BodyRef().Valid() && e.r.Valid()
    ensures e.o.generation == e.r.generation && IsId(e.r.generation)
    ensures PublicationMatches(ReferenceOf(e), e.r, e.o)
    ensures e.CommitEvent? ==> LocalObservation(e.r, e.o)
    ensures CommitPublication(w.store, e.r, e.o, e.now).result == Ok(ReferenceOf(e))
  {
    hide Inv, ApplyEvent, CommitPublication, ValidText, LocalObservation, CheckEntry, PlacesOf, ReplaceFits, Replace, IsId;
    CommitIsEnabled(w, sha, e);
    CommitFits(w, sha, e.r, e.o, e.now, e.CommitEvent?);
    CommitEffect(w.store, e.r, e.o, e.now);
    CheckedFits(w, sha, e.r, e.o, e.CommitEvent?);
    CommittedIsValid(w.store, e.r, e.o, e.now);
  }

  lemma CommitIsEnabled(w: World, sha: Sha, e: Event)
    requires Enabled(w, sha, e) && IsPublication(w, e)
    ensures Check(e.r, e.o, e.CommitEvent?) in w.past.checked && Commits(w.store, e.r, e.o, e.now)
  {
    hide Commits;
  }

  lemma CheckedFits(w: World, sha: Sha, r: Reservation, o: Observation, local: bool)
    requires Inv(w, sha) && IsReserved(w, r.Gen()) && CheckEntry(w, sha, Check(r, o, local))
    ensures IsId(r.generation) && o.generation == r.generation && (local ==> LocalObservation(r, o))
  {
    hide StoredInv, CheckInv, PathInv, ObjectKey, IsId, LocalObservation, Phased, LeasedAreGarbage, Fits;
    assert IsId(r.Gen().name);
  }

  lemma CommittedIsValid(s: State, r: Reservation, o: Observation, now: Millis)
    requires Commits(s, r, o, now) && RowReference(r.Key(), NewPublishedRow(r, o, now)).Valid()
    requires o.generation == r.generation
    ensures r.revision <= I64_MAX && o.BodyRef().Valid() && r.Valid()
  {
    hide ValidText, Replace, IsHexDigest;
  }

  lemma CommitIsLogged(sha: Sha, ws: seq<World>, es: seq<Event>, i: nat, j: nat) returns (n: nat)
    requires Run(sha, ws, es) && i < j <= |es| && |ws| == |es| + 1 && IsPublication(ws[i], es[i])
    ensures n < |ws[j].past.log| && ws[j].past.log[n].reference == ReferenceOf(es[i])
  {
    hide Run, Step, IsPublication, Forward, Extends, AllInv;
    n := |ws[i].past.log|;
    RunStep(sha, ws, es, i);
    PublicationIsCommit(ws[i], es[i]);
    CommitIsRecorded(ws[i], sha, es[i], ws[i + 1]);
    RunKeeps(sha, ws, es, i + 1, j);
  }

  lemma PublicationIsCommit(w: World, e: Event)
    requires IsPublication(w, e)
    ensures e.CommitEvent? || e.TrustedEvent?
  {
    hide Commits;
  }

  /** The file of the current publication is in place. */
  lemma CurrentFile(w: World, sha: Sha, n: nat, r: Reservation, o: Observation)
    requires Inv(w, sha) && PubInv(w) && IsLoggedAt(w, n, r, o) && IsCurrent(w.store, r.Key(), r.token)
    requires LocalObservation(r, o) && IsId(r.generation)
    ensures ObjectPath(ObjectKey(r.Gen())) == Some(o.objectKey)
    ensures FileMatches(w.store, sha, o.objectKey, o.size, o.digest.value)
  {
    hide PubInv, ObjectPath, ObjectKey, PrefixedKey, IsId, CheckInv, PlacesOf, Traced, Phased, LeasedAreGarbage;
    CurrentIsTheLogged(w, n, r, o);
    LocalKeyResolves(r.Gen());
    PublishedIsNotErased(w, r.Key());
    assert PathEntry(w, sha, r.Key()) && StoredEntry(w, o.objectKey);
  }

  /**
   Repeating a publication exactly, however much happened in between, changes no table, and
   answers with the original reference if and only if its receipt is still kept or it is still
   the current publication of its path.
   */
  lemma PublicationIsReplayed(sha: Sha, ws: seq<World>, es: seq<Event>, i: nat, j: nat, now: Millis)
    requires Run(sha, ws, es) && i < j <= |es| && |ws| == |es| + 1
    requires es[i].CommitEvent? && Commits(ws[i].store, es[i].r, es[i].o, es[i].now)
    ensures var s, r, o := ws[j].store, es[i].r, es[i].o;
            var done := Publish(s, sha, r, o, now);
            && done.state == s
            && (done.result == CommitPublication(ws[i].store, r, o, es[i].now).result <==>
                HasReceipt(s, r) || IsCurrent(s, r.Key(), r.token))
  {
    hide Run, Step, Inv, PubInv, TokensInv, Commits, CommitPublication, ReplayPublication, LocalObservation, Body.Valid;
    hide Reservation.Valid, ObjectPath, ObjectKey, HasReceipt, IsCurrent, PublicationMatches, IsId;
    var r, o := es[i].r, es[i].o;
    RunInvariant(sha, ws, es, i);
    RunInvariant(sha, ws, es, j);
    RunStep(sha, ws, es, i);
    CommittedFits(ws[i], sha, es[i], ws[i + 1]);
    var n := CommitIsLogged(sha, ws, es, i, j);
    KeptReceiptAnswers(ws[j], n, r, o);
    RepeatedCommit(ws[j], n, r, o, now);
    LocalParts(r, o);
    if IsCurrent(ws[j].store, r.Key(), r.token) {
      CurrentFile(ws[j], sha, n, r, o);
    }
  }

  lemma LocalParts(r: Reservation, o: Observation)
    requires LocalObservation(r, o)
    ensures o.objectKey == ObjectKey(r.Gen()) && o.digest.Some? && o.etag == o.digest.value
  {
    hide ObjectKey;
  }

  /** The same for a publication of a trusted observation; otherwise the answer is that nothing is found. */
  lemma TrustedPublicationIsReplayed(sha: Sha, ws: seq<World>, es: seq<Event>, i: nat, j: nat, now: Millis)
    requires Run(sha, ws, es) && i < j <= |es| && |ws| == |es| + 1
    requires es[i].TrustedEvent? && Commits(ws[i].store, es[i].r, es[i].o, es[i].now)
    ensures var s, r, o := ws[j].store, es[i].r, es[i].o;
            PublishTrusted(s, r, o, now) == Outcome(s,
              if HasReceipt(s, r) || IsCurrent(s, r.Key(), r.token)
              then CommitPublication(ws[i].store, r, o, es[i].now).result else Err(NotFound))
  {
    hide Run, Step, Inv, PubInv, TokensInv, Commits, CommitPublication, ReplayPublication, LocalObservation, Body.Valid;
    hide Reservation.Valid, HasReceipt, IsCurrent, PublicationMatches, IsId;
    RunInvariant(sha, ws, es, i);
    RunInvariant(sha, ws, es, j);
    RunStep(sha, ws, es, i);
    CommittedFits(ws[i], sha, es[i], ws[i + 1]);
    var n := CommitIsLogged(sha, ws, es, i, j);
    KeptReceiptAnswers(ws[j], n, es[i].r, es[i].o);
    RepeatedCommit(ws[j], n, es[i].r, es[i].o, now);
  }

  lemma CommitWritesReceipt(w: World, sha: Sha, e: Event, v: World)
    requires Step(w, sha, e, v) && IsPublication(w, e)
    ensures var k := TokenKey(e.r.scope, e.r.token);
            k in v.store.publications && v.store.publications[k].retainUntil == SatAdd(e.now, RECEIPT_RETENTION_MS)
  {
    hide Commits, CommitPublication, ValidText, Enqueue;
    CommitEffect(w.store, e.r, e.o, e.now);
  }

  /** The receipt is kept for a day after the publication, as long as no collector runs later than that. */
  lemma ReceiptIsKeptForADay(sha: Sha, ws: seq<World>, es: seq<Event>, i: nat, j: nat)
    requires Run(sha, ws, es) && i < j <= |es| && |ws| == |es| + 1 && IsPublication(ws[i], es[i])
    requires forall m | i < m < j :: PrunesNothingBefore(es[m], SatAdd(es[i].now, RECEIPT_RETENTION_MS))
    ensures HasReceipt(ws[j].store, es[i].r)
  {
    hide Run, Step, Commits;
    RunStep(sha, ws, es, i);
    CommitWritesReceipt(ws[i], sha, es[i], ws[i + 1]);
    PublicationReceiptStays(sha, ws, es, i + 1, j, TokenKey(es[i].r.scope, es[i].r.token));
  }

  // ----- Replaying a request while its receipt is kept -----

  lemma GrantLeavesReceipt(w: World, sha: Sha, e: Event, v: World)
    requires Step(w, sha, e, v) && e.ReserveEvent? && DecideReserve(w.store, e.req).Grant?
    ensures e.req.now + e.req.ttl <= I64_MAX && e.req.now + e.req.ttl > 0
    ensures var k, done := RequestKey(e.req.scope, e.req.requestId), Reserve(w.store, e.req, e.ids);
            && k in v.store.receipts && done.result.Ok?
            && v.store.receipts[k].path == e.req.path && v.store.receipts[k].expected == e.req.expected
            && v.store.receipts[k].ttl == e.req.ttl
            && RowReservation(PathKey(e.req.scope, e.req.path), v.store.receipts[k].row) == done.result.value
            && v.store.receipts[k].retainUntil == SatAdd(done.result.value.expiresAt, RECEIPT_RETENTION_MS)
  {
    hide Retire;
  }

  /**
   Until a day after its reservation expires, as long as no collector runs that late, a
   repeated request is answered with the identical reservation, a request id reused for
   anything else is a conflict, and neither changes a table.
   */
  lemma RequestIsReplayed(sha: Sha, ws: seq<World>, es: seq<Event>, i: nat, j: nat, again: ReserveRequest, ids: ReserveIds)
    requires Run(sha, ws, es) && i < j <= |es|
    requires es[i].ReserveEvent? && DecideReserve(ws[i].store, es[i].req).Grant?
    requires forall m | i < m < j :: PrunesNothingBefore(es[m],
               SatAdd(Reserve(ws[i].store, es[i].req, es[i].ids).result.value.expiresAt, RECEIPT_RETENTION_MS))
    requires again.scope == es[i].req.scope && again.requestId == es[i].req.requestId
    requires again.now > 0 && 0 < again.ttl <= MAX_TTL_MS && again.now + again.ttl <= I64_MAX
    ensures Reserve(ws[j].store, again, ids) == Outcome(ws[j].store,
              if again.path == es[i].req.path && again.expected == es[i].req.expected && again.ttl == es[i].req.ttl
              then Reserve(ws[i].store, es[i].req, es[i].ids).result else Err(Conflict))
  {
    assert Step(ws[i], sha, es[i], ws[i + 1]);
    assert ValidRequestId(again.requestId) by {
      assert DecideReserve(ws[i].store, es[i].req).Grant?;
    }
    hide Step, Reserve, DecideReserve;
    GrantLeavesReceipt(ws[i], sha, es[i], ws[i + 1]);
    RequestReceiptStays(sha, ws, es, i + 1, j, RequestKey(again.scope, again.requestId));
    hide Run;
    ReplayAnswers(ws[j].store, again, ids);
  }

  lemma ReplayAnswers(s: State, req: ReserveRequest, ids: ReserveIds)
    requires ValidRequestId(req.requestId) && req.now > 0 && 0 < req.ttl <= MAX_TTL_MS && req.now + req.ttl <= I64_MAX
    requires RequestKey(req.scope, req.requestId) in s.receipts
    ensures var receipt := s.receipts[RequestKey(req.scope, req.requestId)];
            Reserve(s, req, ids) == Outcome(s,
              if receipt.path == req.path && receipt.expected == req.expected && receipt.ttl == req.ttl
              then Ok(RowReservation(req.Key(), receipt.row)) else Err(Conflict))
  {
    hide Retire, Install, NewReservationRow, ValidRequestId;
  }

}
