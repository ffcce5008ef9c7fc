/**
 What a failed deletion leads to. On a clock that never goes back the next lease of the object
 comes no sooner than the delay, which doubles with every attempt up to the tenth, and counts one
 attempt more.
 */
module Retries {
  import opened Wrappers
  import opened Keys
  import opened Catalog
  import opened Protocol
  import opened Generations
  import opened Safety
  import opened Publications
  import opened LeaseRules
  import opened Guarantees
  import opened Exclusion

  // ----- The delay -----

  /** One second, doubled for every attempt up to ten. */
  function Delay(attempts: nat): nat {
    if attempts == 0 then 1_000 else if attempts <= 10 then 2 * Delay(attempts - 1) else Delay(10)
  }

  lemma {:induction false} DelayIs(attempts: nat)
    ensures RetryDelay(attempts) == Delay(attempts)
  {
    if attempts > 10 {
      DelayIs(10);
    } else if attempts > 0 {
      DelayIs(attempts - 1);
    }
  }

  /** Failing a lease exactly counts the attempt, delays the next one and gives the lease back, if it is still held. */
  lemma FailDelays(s: State, lease: GarbageLease, now: StoredMillis)
    ensures var t, k := FailLease(s, lease, now), lease.objectKey;
            if !HoldsLease(s, lease) then t == s
            else
              && t == s.(queue := t.queue) && t.queue - {k} == s.queue - {k} && k in t.queue
              && t.queue[k] == QueueRow(s.queue[k].gen, s.queue[k].notBefore, SatAdd(now, Delay(lease.attempts)),
                                        s.queue[k].attempts + 1, None)
  {
    hide SatAdd, RetryDelay, Delay;
    DelayIs(lease.attempts);
  }

  // ----- What happens to a queue row in a step -----

  /** The row is where it was: same lease, same attempts, and no earlier retry. */
  predicate Rests(s: State, t: State, k: string) {
    k in s.queue ==>
      && k in t.queue && t.queue[k].lease == s.queue[k].lease && t.queue[k].attempts == s.queue[k].attempts
      && t.queue[k].nextAttempt >= s.queue[k].nextAttempt
  }

  lemma RestsOn(s: State, t: State, u: State, k: string)
    requires Rests(s, t, k) && Rests(t, u, k)
    ensures Rests(s, u, k)
  {
  }

  lemma EnqueueRests(queue: map<string, QueueRow>, g: Generation, at: StoredMillis, k: string)
    requires k in queue
    ensures var q := Enqueue(queue, g, at);
            && k in q && q[k].lease == queue[k].lease && q[k].attempts == queue[k].attempts
            && q[k].nextAttempt >= queue[k].nextAttempt
  {
    hide ObjectKey;
  }

  lemma RetireRests(s: State, p: PathKey, k: string)
    requires p in s.reservations
    ensures Rests(s, Retire(s, p), k)
  {
    hide Enqueue, SatAdd;
    if k in s.queue {
      var row := s.reservations[p];
      EnqueueRests(s.queue, ReservedGen(p, row), SatAdd(row.expiresAt, GC_SETTLEMENT_GRACE_MS), k);
    }
  }

  lemma {:induction false} ReapRests(s: State, keys: seq<PathKey>, k: string)
    requires AllReserved(s, keys)
    ensures Rests(s, Reap(s, keys), k)
  {
    if keys == [] {
      assert Reap(s, keys) == s;
    } else {
      hide Retire, Rests;
      var n := |keys| - 1;
      assert keys[n] !in keys[..n];
      ReapRests(s, keys[..n], k);
      RetireRests(Reap(s, keys[..n]), keys[n], k);
      RestsOn(s, Reap(s, keys[..n]), Reap(s, keys), k);
    }
  }

  lemma ReserveRests(s: State, req: ReserveRequest, ids: ReserveIds, k: string)
    ensures Rests(s, Reserve(s, req, ids).state, k)
  {
    hide DecideReserve, NewReservationRow, Retire;
    if req.Key() in s.reservations {
      RetireRests(s, req.Key(), k);
    }
  }

  lemma PublicationRests(w: World, sha: Sha, e: Event, k: string)
    requires Enabled(w, sha, e) && (e.CommitEvent? || e.TrustedEvent?)
    ensures Rests(w.store, ApplyEvent(w, sha, e).store, k)
  {
    hide Commits, CommitPublication, Enqueue, ValidText, SatAdd;
    CommitEffect(w.store, e.r, e.o, e.now);
    var p := e.r.Key();
    if k in w.store.queue && Commits(w.store, e.r, e.o, e.now) && p in w.store.paths
       && w.store.paths[p].objectKey != e.o.objectKey {
      EnqueueRests(w.store.queue, PublishedGen(p, w.store.paths[p]), e.now, k);
    }
  }

  /** The step settles the lease that the row carries. */
  predicate SettlesRow(w: World, e: Event, k: string) {
    && (e.AckEvent? || e.FailEvent?) && e.index < |w.past.leases|
    && w.past.leases[e.index].lease.objectKey == k && HoldsLease(w.store, w.past.leases[e.index].lease)
  }

  lemma SettlingRests(w: World, sha: Sha, e: Event, k: string)
    requires Enabled(w, sha, e) && (e.AckEvent? || e.FailEvent?) && !SettlesRow(w, e, k)
    ensures Rests(w.store, ApplyEvent(w, sha, e).store, k)
  {
    hide RetryDelay, SatAdd;
  }

  lemma OtherEventsRest(w: World, sha: Sha, e: Event, k: string)
    requires Enabled(w, sha, e) && !e.ClaimEvent? && !e.CommitEvent? && !e.TrustedEvent? && !e.AckEvent? && !e.FailEvent?
    ensures Rests(w.store, ApplyEvent(w, sha, e).store, k)
  {
    hide Reserve, Retire, LiveError, PreparePublish, PrepareTrusted, ObjectPath, ObjectKey, AnswersById, Fresh;
    hide DecideReserve, NewReservationRow, ValidText, ProviderMatches;
    if e.ReserveEvent? {
      ReserveRests(w.store, e.req, e.ids, k);
    } else if e.AbortEvent? && e.r.Key() in w.store.reservations {
      RetireRests(w.store, e.r.Key(), k);
    }
  }

  /** A step that grants and settles no lease on the row lets it wait. */
  lemma StepRests(w: World, sha: Sha, e: Event, v: World, k: string)
    requires Step(w, sha, e, v) && !e.ClaimEvent? && !SettlesRow(w, e, k)
    ensures Rests(w.store, v.store, k)
  {
    hide ApplyEvent, Enabled, Rests, SettlesRow;
    if e.CommitEvent? || e.TrustedEvent? {
      PublicationRests(w, sha, e, k);
    } else if e.AckEvent? || e.FailEvent? {
      SettlingRests(w, sha, e, k);
    } else {
      OtherEventsRest(w, sha, e, k);
    }
  }

  // ----- What a claim does to a queue row -----

  /** The leases that a claim added to the history. */
  predicate IsNewLease(w: World, v: World, b: nat, k: string) {
    |w.past.leases| <= b < |v.past.leases| && v.past.leases[b].lease.objectKey == k
  }

  lemma ClaimedRow(w: World, now: Millis, limit: nat, c: ClaimChoice, k: string, b: nat)
    requires ValidGcRequest(now, limit) && ValidChoice(w.store, now, limit, c) && ClaimFits(w.store, c)
    requires k in w.store.queue && IsNewLease(w, ClaimWorld(w, now, c), b, k)
    ensures ClaimWorld(w, now, c).past.leases[b].start == now
    ensures ClaimWorld(w, now, c).past.leases[b].lease.attempts == w.store.queue[k].attempts
    ensures now >= w.store.queue[k].nextAttempt && LeaseFree(w.store.queue[k], now)
  {
    hide ValidChoice, Reap, MarkLeased, AllQueued, AllReserved, SatAdd;
    var v, n := ClaimWorld(w, now, c), |w.past.leases|;
    ReapRests(w.store, c.reaped, k);
    LeasedRowsWereDue(w.store, now, limit, c, b - n);
    assert v.past.leases[b] == NewRecords(Leases(BeforeLeasing(w.store, c).queue, c.leased, c.ids), now)[b - n];
  }

  lemma LeasedIsNew(w: World, now: Millis, c: ClaimChoice, l: nat)
    requires ClaimFits(w.store, c) && l < |c.leased|
    ensures IsNewLease(w, ClaimWorld(w, now, c), |w.past.leases| + l, c.leased[l])
  {
    hide Reap, MarkLeased, AllReserved, AllQueued;
    var v, ready := ClaimWorld(w, now, c), BeforeLeasing(w.store, c);
    assert v.past.leases[|w.past.leases| + l] == NewRecords(Leases(ready.queue, c.leased, c.ids), now)[l];
  }

  lemma UnclaimedRow(w: World, now: Millis, c: ClaimChoice, k: string)
    requires ClaimFits(w.store, c) && k in w.store.queue
    requires forall b: nat :: !IsNewLease(w, ClaimWorld(w, now, c), b, k)
    ensures Rests(w.store, ClaimWorld(w, now, c).store, k)
  {
    hide Reap, MarkLeased, AllReserved, SatAdd;
    var v, n, ready := ClaimWorld(w, now, c), |w.past.leases|, BeforeLeasing(w.store, c);
    ReapRests(w.store, c.reaped, k);
    if k in c.leased {
      var l :| 0 <= l < |c.leased| && c.leased[l] == k;
      LeasedIsNew(w, now, c, l);
    } else {
      MarkedRows(ready.queue, c.leased, c.ids, SatAdd(now, GC_LEASE_MS));
    }
  }

  // ----- A held lease knows the attempts of its row -----

  predicate KnowsAttempts(w: World, a: nat)
    requires a < |w.past.leases|
  {
    var lease := w.past.leases[a].lease;
    HoldsLease(w.store, lease) ==> w.store.queue[lease.objectKey].attempts == lease.attempts
  }

  predicate AllKnowAttempts(w: World) {
    forall a | 0 <= a < |w.past.leases| :: KnowsAttempts(w, a)
  }

  /** No row got a lease: rows keep theirs, and new rows have none. */
  lemma NoNewLeases(w: World, sha: Sha, e: Event, v: World)
    requires Step(w, sha, e, v) && !e.ClaimEvent?
    ensures v.past.leases == w.past.leases
    ensures forall k | k in v.store.queue && v.store.queue[k].lease.Some? ::
              k in w.store.queue && v.store.queue[k].lease == w.store.queue[k].lease
  {
    hide ApplyEvent, Enabled, Calm, SameLeases, HoldsLease;
    if e.FailEvent? || e.AckEvent? {
      SettlingGrantsNone(w, sha, e);
    } else if e.DeleteEvent? || e.RetainEvent? {
      RemovingGrantsNone(w, sha, e);
    } else {
      OtherEventsAreCalm(w, sha, e);
      CalmGrantsNone(w, ApplyEvent(w, sha, e));
    }
  }

  lemma CalmGrantsNone(w: World, v: World)
    requires Calm(w, v)
    ensures v.past.leases == w.past.leases
    ensures forall k | k in v.store.queue && v.store.queue[k].lease.Some? ::
              k in w.store.queue && v.store.queue[k].lease == w.store.queue[k].lease
  {
  }

  lemma SettlingGrantsNone(w: World, sha: Sha, e: Event)
    requires Enabled(w, sha, e) && (e.FailEvent? || e.AckEvent?)
    ensures var v := ApplyEvent(w, sha, e);
            && v.past.leases == w.past.leases
            && forall k | k in v.store.queue && v.store.queue[k].lease.Some? ::
                 k in w.store.queue && v.store.queue[k].lease == w.store.queue[k].lease
  {
    hide RetryDelay, SatAdd;
  }

  lemma RemovingGrantsNone(w: World, sha: Sha, e: Event)
    requires Enabled(w, sha, e) && (e.DeleteEvent? || e.RetainEvent?)
    ensures var v := ApplyEvent(w, sha, e); v.past.leases == w.past.leases && v.store.queue == w.store.queue
  {
    hide PrefixedKey, AnswersById, ValidText, GetFound;
  }

  lemma StepKeepsAttempts(w: World, sha: Sha, e: Event, v: World, a: nat)
    requires Step(w, sha, e, v) && !e.ClaimEvent? && a < |w.past.leases| && KnowsAttempts(w, a)
    requires v.past.leases == w.past.leases
    ensures KnowsAttempts(v, a)
  {
    hide Step, Rests;
    var lease := w.past.leases[a].lease;
    NoNewLeases(w, sha, e, v);
    if HoldsLease(v.store, lease) {
      if SettlesRow(w, e, lease.objectKey) {
        SettledRow(w, sha, e, v, lease.objectKey);
      } else {
        StepRests(w, sha, e, v, lease.objectKey);
        RestingAttempts(w.store, v.store, lease.objectKey);
      }
    }
  }

  lemma RestingAttempts(s: State, t: State, k: string)
    requires Rests(s, t, k) && k in s.queue
    ensures k in t.queue && t.queue[k].attempts == s.queue[k].attempts
  {
  }

  lemma SettledRow(w: World, sha: Sha, e: Event, v: World, k: string)
    requires Step(w, sha, e, v) && SettlesRow(w, e, k)
    ensures (e.FailEvent? ==> e.now > 0) ==> (k in v.store.queue ==> v.store.queue[k].lease.None?)
    ensures e.FailEvent? && e.now <= 0 ==> v.store == w.store
  {
    hide RetryDelay, SatAdd;
  }

  lemma OldLeaseAfterClaim(w: World, now: Millis, limit: nat, c: ClaimChoice, a: nat)
    requires ValidGcRequest(now, limit) && ValidChoice(w.store, now, limit, c) && ClaimFits(w.store, c)
    requires a < |w.past.leases| && KnowsAttempts(w, a) && TokensInv(ClaimWorld(w, now, c))
    ensures KnowsAttempts(ClaimWorld(w, now, c), a)
  {
    hide ValidChoice, ClaimFits, TokensInv, BeforeLeasing, AfterLeasing, ClaimWorld;
    var v, lease, k := ClaimWorld(w, now, c), w.past.leases[a].lease, w.past.leases[a].lease.objectKey;
    ClaimGrants(w, now, c);
    OldRecords(w, now, c);
    if HoldsLease(v.store, lease) {
      HeldIsNotNew(w, v, now, c, a);
      if b: nat :| IsNewLease(w, v, b, k) {
        NewRecordIs(w, v, now, c, b);
      } else {
        UnclaimedRow(w, now, c, k);
      }
    }
  }

  /** After a claim the row of an older lease that is still held was not leased again. */
  lemma HeldIsNotNew(w: World, v: World, now: Millis, c: ClaimChoice, a: nat)
    requires LeasesGranted(w, v, now, c) && TokensInv(v) && a < |w.past.leases| <= |v.past.leases|
    requires v.past.leases[a] == w.past.leases[a] && HoldsLease(v.store, w.past.leases[a].lease)
    ensures w.past.leases[a].lease.objectKey !in c.leased
    ensures w.past.leases[a].lease.objectKey in w.store.queue && HoldsLease(w.store, w.past.leases[a].lease)
  {
    hide Carries;
    var k := w.past.leases[a].lease.objectKey;
    if k in c.leased {
      var l :| 0 <= l < |c.leased| && c.leased[l] == k;
      NewRecordIs(w, v, now, c, |w.past.leases| + l);
    }
  }

  lemma NewLeaseKnows(w: World, now: Millis, c: ClaimChoice, b: nat)
    requires ClaimFits(w.store, c) && |w.past.leases| <= b < |ClaimWorld(w, now, c).past.leases|
    ensures KnowsAttempts(ClaimWorld(w, now, c), b)
  {
    hide Reap, MarkLeased, AllReserved, SatAdd;
    var v, ready := ClaimWorld(w, now, c), BeforeLeasing(w.store, c);
    MarkingKeepsRows(ready.queue, c.leased, c.ids, SatAdd(now, GC_LEASE_MS));
    assert v.past.leases[b] == NewRecords(Leases(ready.queue, c.leased, c.ids), now)[b - |w.past.leases|];
  }

  lemma ClaimKeepsAttempts(w: World, sha: Sha, e: Event, v: World)
    requires Step(w, sha, e, v) && e.ClaimEvent? && AllKnowAttempts(w) && TokensInv(v)
    ensures AllKnowAttempts(v)
  {
    hide ApplyEvent, ClaimWorld, ValidChoice, ClaimFits, TokensInv, KnowsAttempts;
    ClaimEventIs(w, sha, e.now, e.limit, e.choice);
    var u := ApplyEvent(w, sha, e);
    TickedTokens(u, v);
    if u != w {
      forall a | 0 <= a < |u.past.leases| ensures KnowsAttempts(u, a) {
        if a < |w.past.leases| {
          OldLeaseAfterClaim(w, e.now, e.limit, e.choice, a);
        } else {
          NewLeaseKnows(w, e.now, e.choice, a);
        }
      }
    }
    forall a | 0 <= a < |v.past.leases| ensures KnowsAttempts(v, a) {
      assert KnowsAttempts(u, a);
      SameTablesKnow(u, v, a);
    }
  }

  lemma TickedTokens(u: World, v: World)
    requires v == Tick(u, v.past.clock) && TokensInv(v)
    ensures TokensInv(u)
  {
    hide Carries;
  }

  lemma SameTablesKnow(u: World, v: World, a: nat)
    requires u.store == v.store && u.past.leases == v.past.leases && a < |u.past.leases| && KnowsAttempts(u, a)
    ensures KnowsAttempts(v, a)
  {
  }

  lemma StepKeepsAllAttempts(w: World, sha: Sha, e: Event, v: World)
    requires Step(w, sha, e, v) && AllKnowAttempts(w) && TokensInv(v)
    ensures AllKnowAttempts(v)
  {
    hide Step, TokensInv, KnowsAttempts;
    if e.ClaimEvent? {
      ClaimKeepsAttempts(w, sha, e, v);
    } else {
      NoNewLeases(w, sha, e, v);
      forall a | 0 <= a < |v.past.leases| ensures KnowsAttempts(v, a) {
        StepKeepsAttempts(w, sha, e, v, a);
      }
    }
  }

  lemma NoLeaseKnows(sha: Sha, ws: seq<World>, es: seq<Event>)
    requires Run(sha, ws, es)
    ensures |ws| > 0 && AllKnowAttempts(ws[0])
  {
    hide Step;
  }

  /** A lease that is still held has the number of attempts of its row. */
  lemma {:induction false} HeldLeasesKnowAttempts(sha: Sha, ws: seq<World>, es: seq<Event>, i: nat)
    requires Run(sha, ws, es) && i <= |es|
    ensures |ws| == |es| + 1 && AllKnowAttempts(ws[i])
  {
    hide Run, Step, AllKnowAttempts, Inv, PubInv, TokensInv;
    RunLength(sha, ws, es);
    if i == 0 {
      NoLeaseKnows(sha, ws, es);
    } else {
      HeldLeasesKnowAttempts(sha, ws, es, i - 1);
      RunStep(sha, ws, es, i - 1);
      RunInvariant(sha, ws, es, i);
      StepKeepsAllAttempts(ws[i - 1], sha, es[i - 1], ws[i]);
    }
  }

  // ----- The next lease -----

  predicate IsLeaseOf(w: World, b: nat, from: nat, k: string) {
    from <= b < |w.past.leases| && w.past.leases[b].lease.objectKey == k
  }

  predicate IsFirstLeaseOf(w: World, b: nat, from: nat, k: string) {
    IsLeaseOf(w, b, from, k) && forall a | from <= a < b :: w.past.leases[a].lease.objectKey != k
  }

  ghost predicate IsLeased(w: World, from: nat, k: string) {
    exists b: nat :: IsLeaseOf(w, b, from, k)
  }

  predicate RowBacksOff(s: State, k: string, at: Millis, n: nat) {
    k in s.queue && s.queue[k].lease.None? && s.queue[k].attempts == n && s.queue[k].nextAttempt >= at
  }

  /** Leases from `from` on begin at `at` or later, and the first has `n` attempts; until then the row waits. */
  ghost predicate BacksOff(w: World, from: nat, k: string, at: Millis, n: nat) {
    && from <= |w.past.leases|
    && (forall b: nat | IsLeaseOf(w, b, from, k) :: w.past.leases[b].start >= at)
    && (forall b: nat | IsFirstLeaseOf(w, b, from, k) :: w.past.leases[b].lease.attempts == n)
    && (if IsLeased(w, from, k) then w.past.clock >= at else RowBacksOff(w.store, k, at, n))
  }

  lemma SameLeasesBackOff(w: World, v: World, from: nat, k: string, at: Millis, n: nat)
    requires BacksOff(w, from, k, at, n) && v.past.leases == w.past.leases && v.past.clock >= w.past.clock
    requires !IsLeased(w, from, k) ==> RowBacksOff(v.store, k, at, n)
    ensures BacksOff(v, from, k, at, n)
  {
    hide RowBacksOff;
    assert forall b: nat :: IsLeaseOf(v, b, from, k) <==> IsLeaseOf(w, b, from, k);
    assert forall b: nat :: IsFirstLeaseOf(v, b, from, k) <==> IsFirstLeaseOf(w, b, from, k);
  }

  lemma RestingBacksOff(s: State, t: State, k: string, at: Millis, n: nat)
    requires RowBacksOff(s, k, at, n) && Rests(s, t, k)
    ensures RowBacksOff(t, k, at, n)
  {
  }

  lemma UnheldIsNotSettled(w: World, e: Event, k: string, at: Millis, n: nat)
    requires RowBacksOff(w.store, k, at, n)
    ensures !SettlesRow(w, e, k)
  {
  }

  lemma OtherStepBacksOff(
    w: World, sha: Sha, e: Event, v: World, from: nat, k: string, at: Millis, n: nat)
    requires BacksOff(w, from, k, at, n) && Step(w, sha, e, v) && OnTime(w, e) && !e.ClaimEvent?
    ensures BacksOff(v, from, k, at, n)
  {
    hide Step, OnTime, IsLeaseOf, IsFirstLeaseOf, IsLeased, RowBacksOff, SettlesRow, Rests;
    ClockGoesOn(w, sha, e, v);
    NoNewLeases(w, sha, e, v);
    if !IsLeased(w, from, k) {
      UnheldIsNotSettled(w, e, k, at, n);
      StepRests(w, sha, e, v, k);
      RestingBacksOff(w.store, v.store, k, at, n);
    }
    SameLeasesBackOff(w, v, from, k, at, n);
  }

  /** What a claim adds to the leases of an object. */
  lemma ClaimedLeases(w: World, now: Millis, limit: nat, c: ClaimChoice, b: nat, from: nat, k: string)
    requires ValidGcRequest(now, limit) && ValidChoice(w.store, now, limit, c) && ClaimFits(w.store, c)
    requires from <= |w.past.leases| && IsLeaseOf(ClaimWorld(w, now, c), b, from, k)
    ensures var record := ClaimWorld(w, now, c).past.leases[b];
            if b < |w.past.leases| then record == w.past.leases[b] && IsLeaseOf(w, b, from, k)
            else
              && record.start == now
              && (k in w.store.queue ==>
                    record.lease.attempts == w.store.queue[k].attempts && now >= w.store.queue[k].nextAttempt)
  {
    hide ValidChoice, ClaimFits, BeforeLeasing, AfterLeasing, ClaimWorld;
    var v := ClaimWorld(w, now, c);
    ClaimGrants(w, now, c);
    if b < |w.past.leases| {
      OldRecords(w, now, c);
    } else {
      NewRecordIs(w, v, now, c, b);
      if k in w.store.queue {
        ClaimedRow(w, now, limit, c, k, b);
      }
    }
  }

  lemma FirstStaysFirst(w: World, v: World, from: nat, k: string, b: nat)
    requires w.past.leases <= v.past.leases && IsLeased(w, from, k) && IsFirstLeaseOf(v, b, from, k)
    ensures b < |w.past.leases| && IsFirstLeaseOf(w, b, from, k)
  {
    var a: nat :| IsLeaseOf(w, a, from, k);
    assert v.past.leases[a] == w.past.leases[a];
    assert forall c | 0 <= c < |w.past.leases| :: v.past.leases[c] == w.past.leases[c];
  }

  lemma ClaimBacksOff(
    w: World, now: Millis, limit: nat, c: ClaimChoice, v: World, from: nat, k: string, at: Millis, n: nat)
    requires ValidGcRequest(now, limit) && ValidChoice(w.store, now, limit, c) && ClaimFits(w.store, c)
    requires BacksOff(w, from, k, at, n) && w.past.clock <= now && v == Tick(ClaimWorld(w, now, c), now)
    ensures BacksOff(v, from, k, at, n)
  {
    hide ValidChoice, ClaimFits, ClaimWorld, IsLeaseOf, IsFirstLeaseOf, RowBacksOff;
    OldRecords(w, now, c);
    RowIsThere(w.store, k, at, n);
    LeasesInRange(v, from, k);
    forall b: nat | IsLeaseOf(v, b, from, k)
      ensures v.past.leases[b].start >= at && now >= at
      ensures IsFirstLeaseOf(v, b, from, k) ==> v.past.leases[b].lease.attempts == n
    {
      TickedLease(w, now, c, v, b, from, k);
      ClaimedLeases(w, now, limit, c, b, from, k);
      if IsLeased(w, from, k) && IsFirstLeaseOf(v, b, from, k) {
        FirstStaysFirst(w, v, from, k, b);
      }
    }
    FirstIsLease(v, from, k);
    if !IsLeased(v, from, k) {
      NotLeasedBefore(w, v, from, k);
      forall b: nat ensures !IsNewLease(w, ClaimWorld(w, now, c), b, k) {
        NewIsLease(w, now, c, v, b, from, k);
      }
      UnclaimedRow(w, now, c, k);
      RestingBacksOff(w.store, v.store, k, at, n);
    }
  }

  lemma RowIsThere(s: State, k: string, at: Millis, n: nat)
    ensures RowBacksOff(s, k, at, n) ==> k in s.queue && s.queue[k].attempts == n && s.queue[k].nextAttempt >= at
  {
  }

  lemma TickedLease(w: World, now: Millis, c: ClaimChoice, v: World, b: nat, from: nat, k: string)
    requires ClaimFits(w.store, c) && v == Tick(ClaimWorld(w, now, c), now) && IsLeaseOf(v, b, from, k)
    ensures IsLeaseOf(ClaimWorld(w, now, c), b, from, k) && v.past.leases == ClaimWorld(w, now, c).past.leases
    ensures b < |v.past.leases|
  {
    hide ClaimFits, ClaimWorld;
  }

  lemma LeasesInRange(w: World, from: nat, k: string)
    ensures forall b: nat | IsLeaseOf(w, b, from, k) :: b < |w.past.leases|
  {
  }

  lemma FirstIsLease(w: World, from: nat, k: string)
    ensures forall b: nat | IsFirstLeaseOf(w, b, from, k) :: IsLeaseOf(w, b, from, k) && b < |w.past.leases|
  {
  }

  lemma NotLeasedBefore(w: World, v: World, from: nat, k: string)
    requires w.past.leases <= v.past.leases && !IsLeased(v, from, k)
    ensures !IsLeased(w, from, k)
  {
    if b: nat :| IsLeaseOf(w, b, from, k) {
      assert IsLeaseOf(v, b, from, k);
    }
  }

  lemma NewIsLease(w: World, now: Millis, c: ClaimChoice, v: World, b: nat, from: nat, k: string)
    requires ClaimFits(w.store, c) && v == Tick(ClaimWorld(w, now, c), now) && from <= |w.past.leases|
    requires !IsLeased(v, from, k)
    ensures !IsNewLease(w, ClaimWorld(w, now, c), b, k)
  {
    hide ClaimFits, ClaimWorld;
    assert !IsLeaseOf(v, b, from, k);
  }

  lemma ClaimStepBacksOff(
    w: World, sha: Sha, e: Event, v: World, from: nat, k: string, at: Millis, n: nat)
    requires BacksOff(w, from, k, at, n) && Step(w, sha, e, v) && OnTime(w, e) && e.ClaimEvent?
    ensures BacksOff(v, from, k, at, n)
  {
    hide ApplyEvent, ValidChoice, ClaimFits, ClaimWorld, BacksOff, RowBacksOff;
    ClaimEventIs(w, sha, e.now, e.limit, e.choice);
    if ApplyEvent(w, sha, e) == w {
      BackOffLater(w, v, from, k, at, n);
    } else {
      ClaimBacksOff(w, e.now, e.limit, e.choice, v, from, k, at, n);
    }
  }

  lemma BackOffLater(w: World, v: World, from: nat, k: string, at: Millis, n: nat)
    requires BacksOff(w, from, k, at, n) && v == Tick(w, v.past.clock) && w.past.clock <= v.past.clock
    ensures BacksOff(v, from, k, at, n)
  {
    hide RowBacksOff;
    SameLeasesBackOff(w, v, from, k, at, n);
  }

  lemma {:induction false} RunBacksOff(
    sha: Sha, ws: seq<World>, es: seq<Event>, i: nat, j: nat, from: nat, k: string, at: Millis, n: nat)
    requires ForwardRun(sha, ws, es) && i <= j <= |es| && |ws| == |es| + 1 && BacksOff(ws[i], from, k, at, n)
    ensures BacksOff(ws[j], from, k, at, n)
    decreases j - i
  {
    hide ForwardRun, Step, OnTime, BacksOff;
    if i < j {
      RunBacksOff(sha, ws, es, i, j - 1, from, k, at, n);
      ForwardRunStep(sha, ws, es, j - 1);
      if es[j - 1].ClaimEvent? {
        ClaimStepBacksOff(ws[j - 1], sha, es[j - 1], ws[j], from, k, at, n);
      } else {
        OtherStepBacksOff(ws[j - 1], sha, es[j - 1], ws[j], from, k, at, n);
      }
    }
  }

  lemma FailedRowBacksOff(w: World, sha: Sha, e: Event, v: World)
    requires Step(w, sha, e, v) && e.FailEvent? && e.now > 0 && e.index < |w.past.leases|
    requires HoldsLease(w.store, w.past.leases[e.index].lease) && KnowsAttempts(w, e.index)
    ensures var lease := w.past.leases[e.index].lease;
            BacksOff(v, |w.past.leases|, lease.objectKey, SatAdd(e.now, Delay(lease.attempts)), lease.attempts + 1)
  {
    hide FailLease, SatAdd, Delay, Power2;
    FailDelays(w.store, w.past.leases[e.index].lease, e.now);
    assert v.past.leases == w.past.leases;
  }

  /**
   On a clock that never goes back: after the holder fails a lease with `n` attempts at some time,
   every later lease of the object begins at that time plus the delay for `n` or later, and the
   first of them has `n + 1` attempts.
   */
  lemma FailedLeasesBackOff(sha: Sha, ws: seq<World>, es: seq<Event>, i: nat, j: nat)
    requires ForwardRun(sha, ws, es) && i < j <= |es| && |ws| == |es| + 1
    requires es[i].FailEvent? && es[i].now > 0 && es[i].index < |ws[i].past.leases|
    requires HoldsLease(ws[i].store, ws[i].past.leases[es[i].index].lease)
    ensures var lease, from := ws[i].past.leases[es[i].index].lease, |ws[i].past.leases|;
            && (forall b: nat | IsLeaseOf(ws[j], b, from, lease.objectKey) ::
                  ws[j].past.leases[b].start >= SatAdd(es[i].now, Delay(lease.attempts)))
            && (forall b: nat | IsFirstLeaseOf(ws[j], b, from, lease.objectKey) ::
                  ws[j].past.leases[b].lease.attempts == lease.attempts + 1)
  {
    hide ForwardRun, Run, Step, OnTime, HoldsLease, Delay, SatAdd, KnowsAttempts, IsLeased, RowBacksOff;
    var lease, from := ws[i].past.leases[es[i].index].lease, |ws[i].past.leases|;
    ForwardRunStep(sha, ws, es, i);
    HeldLeasesKnowAttempts(sha, ws, es, i);
    FailedRowBacksOff(ws[i], sha, es[i], ws[i + 1]);
    RunBacksOff(sha, ws, es, i + 1, j, from, lease.objectKey, SatAdd(es[i].now, Delay(lease.attempts)),
                lease.attempts + 1);
  }
}
