/** What collectors may and may not do in every run: leases, retries and retained reads. */
module Collection {
  import opened Keys
  import opened Catalog
  import opened Grants
  import opened Protocol
  import opened Generations
  import opened Safety
  import opened Publications
  import opened LeaseRules
  import opened Guarantees
  import opened Bodies

  // ----- Leases exclude each other -----

  /** Of two leases on one object the first was released, or over before the second began. */
  predicate Apart(w: World, a: nat, b: nat)
    requires a < b < |w.past.leases|
  {
    w.past.leases[a].lease.objectKey == w.past.leases[b].lease.objectKey ==>
      a in w.past.released || w.past.leases[a].until <= w.past.leases[b].start
  }

  predicate AllApart(w: World) {
    forall a, b | 0 <= a < b < |w.past.leases| :: Apart(w, a, b)
  }

  lemma EventLeases(w: World, sha: Sha, e: Event)
    requires Enabled(w, sha, e)
    ensures w.past.released <= ApplyEvent(w, sha, e).past.released
    ensures !e.ClaimEvent? ==> ApplyEvent(w, sha, e).past.leases == w.past.leases
  {
    hide LiveError, ValidText, PreparePublish, ObjectKey, Enqueue, FailLease, ClaimGarbage, Reserve, Upload;
    hide CommitPublication, PublishTrusted, RetainForRead, DecideReserve, NewReservationRow, Commits;
  }

  lemma GrantedApart(w: World, v: World, now: Millis, limit: nat, c: ClaimChoice, a: nat, b: nat)
    requires GenInv(w) && AllApart(w) && w.past.clock <= now
    requires ValidGcRequest(now, limit) && ValidChoice(w.store, now, limit, c)
    requires LeasesGranted(w, v, now, c) && Distinct(c.leased) && v.past.released == w.past.released
    requires a < b < |v.past.leases| && (a < |w.past.leases| ==> Accounted(w, a))
    ensures Apart(v, a, b)
  {
    hide ValidChoice, GenInv, Accounted, AllApart;
    var n := |w.past.leases|;
    if b < n {
      assert v.past.leases[a] == w.past.leases[a] && v.past.leases[b] == w.past.leases[b];
      assert Apart(w, a, b) by {
        ApartPair(w, a, b);
      }
    } else {
      NewRecordIs(w, v, now, c, b);
      if a >= n {
        NewRecordIs(w, v, now, c, a);
      } else {
        assert v.past.leases[a] == w.past.leases[a];
        if w.past.leases[a].lease.objectKey == c.leased[b - n] {
          EarlierLeaseIsOver(w, now, limit, c, a, b - n);
        }
      }
    }
  }

  lemma ApartPair(w: World, a: nat, b: nat)
    requires AllApart(w) && a < b < |w.past.leases|
    ensures Apart(w, a, b)
  {
    hide Apart;
  }

  lemma ClaimKeepsApart(w: World, now: Millis, limit: nat, c: ClaimChoice)
    requires GenInv(w) && AllApart(w) && w.past.clock <= now
    requires ValidGcRequest(now, limit) && ValidChoice(w.store, now, limit, c) && ClaimFits(w.store, c)
    requires forall i | 0 <= i < |w.past.leases| :: Accounted(w, i)
    ensures AllApart(ClaimWorld(w, now, c))
  {
    ClaimGrants(w, now, c);
    var v := ClaimWorld(w, now, c);
    assert v.past.released == w.past.released && Distinct(c.leased);
    hide ValidChoice, ClaimWorld, GenInv, ClaimFits, Accounted, LeasesGranted, Apart, Distinct;
    forall a, b | 0 <= a < b < |v.past.leases| ensures Apart(v, a, b) {
      GrantedApart(w, v, now, limit, c, a, b);
    }
  }

  lemma ClaimEventKeepsApart(w: World, sha: Sha, e: Event)
    requires Inv(w, sha) && ForwardInv(w) && AllApart(w) && Enabled(w, sha, e) && e.ClaimEvent? && w.past.clock == e.now
    ensures AllApart(ApplyEvent(w, sha, e))
  {
    hide ApplyEvent, Accounted, PromiseInv, GenInv, StoredInv, CheckInv, PathInv, ValidChoice, ClaimFits, AllApart;
    ClaimEventIs(w, sha, e.now, e.limit, e.choice);
    if ApplyEvent(w, sha, e) != w {
      ClaimKeepsApart(w, e.now, e.limit, e.choice);
    }
  }

  lemma SameLeasesStayApart(w: World, v: World)
    requires AllApart(w) && v.past.leases == w.past.leases && w.past.released <= v.past.released
    ensures AllApart(v)
  {
    forall a, b | 0 <= a < b < |v.past.leases| ensures Apart(v, a, b) {
      assert Apart(w, a, b);
    }
  }

  lemma EventKeepsApart(w: World, sha: Sha, e: Event)
    requires Inv(w, sha) && ForwardInv(w) && AllApart(w) && Enabled(w, sha, e)
    requires IsTimed(e) ==> w.past.clock == TimeOf(e)
    ensures AllApart(ApplyEvent(w, sha, e))
  {
    hide ApplyEvent, Enabled, AllApart, Inv, ForwardInv;
    if e.ClaimEvent? {
      ClaimEventKeepsApart(w, sha, e);
    } else {
      EventLeases(w, sha, e);
      SameLeasesStayApart(w, ApplyEvent(w, sha, e));
    }
  }

  lemma TickKeepsApart(w: World, t: Millis)
    requires AllApart(w)
    ensures AllApart(Tick(w, t))
  {
    forall a, b | 0 <= a < b < |w.past.leases| ensures Apart(Tick(w, t), a, b) {
      assert Apart(w, a, b);
    }
  }

  lemma StepKeepsApart(w: World, sha: Sha, e: Event, v: World)
    requires AllInv(w, sha) && ForwardInv(w) && AllApart(w) && Step(w, sha, e, v) && OnTime(w, e)
    ensures AllApart(v)
  {
    if IsTimed(e) {
      TickKeeps(w, sha, TimeOf(e));
      TickFirst(w, sha, e);
      hide Inv, PubInv, TokensInv, ForwardInv, ApplyEvent, Enabled, AllApart;
      TickKeepsApart(w, TimeOf(e));
      EventKeepsApart(Tick(w, TimeOf(e)), sha, e);
    } else {
      hide Inv, PubInv, TokensInv, ForwardInv, ApplyEvent, Enabled, AllApart;
      EventKeepsApart(w, sha, e);
    }
  }

  lemma GenesisIsApart()
    ensures AllApart(GENESIS)
  {
  }

  /** With a clock that never runs back, leases on one object overlap only after a release. */
  lemma {:induction false} LeasesExcludeEachOther(sha: Sha, ws: seq<World>, es: seq<Event>, i: nat)
    requires ForwardRun(sha, ws, es) && i <= |es|
    ensures |ws| == |es| + 1 && AllApart(ws[i])
  {
    hide ForwardRun, Run, Step, OnTime, AllInv, ForwardInv, AllApart;
    ForwardRunIsRun(sha, ws, es);
    if i == 0 {
      GenesisIsApart();
    } else {
      LeasesExcludeEachOther(sha, ws, es, i - 1);
      ForwardRunInvariant(sha, ws, es, i - 1);
      ForwardRunStep(sha, ws, es, i - 1);
      StepKeepsApart(ws[i - 1], sha, es[i - 1], ws[i]);
    }
  }

  lemma HeldLeaseIsLatest(w: World, a: nat)
    requires TokensInv(w) && a < |w.past.leases| && HoldsLease(w.store, w.past.leases[a].lease)
    ensures IsLatest(w.past.leases, w.past.leases[a].lease.objectKey, a)
  {
    var lease := w.past.leases[a].lease;
    assert Carries(w.past.leases, lease.objectKey, w.store.queue[lease.objectKey].lease.value);
    var i: nat :| IsLatest(w.past.leases, lease.objectKey, i) && w.past.leases[i].lease.token == lease.token;
    assert i == a;
  }

  /** Settling a lease after a later claim leased the same object again changes nothing, on any clock. */
  lemma SupersededLeasesSettleNothing(
    sha: Sha, ws: seq<World>, es: seq<Event>, i: nat, a: nat, b: nat, now: StoredMillis)
    requires Run(sha, ws, es) && i <= |es| && a < b < |ws[i].past.leases|
    requires ws[i].past.leases[a].lease.objectKey == ws[i].past.leases[b].lease.objectKey
    ensures Acknowledge(ws[i].store, ws[i].past.leases[a].lease) == ws[i].store
    ensures FailLease(ws[i].store, ws[i].past.leases[a].lease, now) == ws[i].store
  {
    RunInvariant(sha, ws, es, i);
    hide Run, Inv, PubInv, TokensInv;
    if HoldsLease(ws[i].store, ws[i].past.leases[a].lease) {
      HeldLeaseIsLatest(ws[i], a);
    }
  }

  lemma {:induction false} PowersGrow(m: nat, n: nat)
    requires m <= n
    ensures 1 <= Power2(m) <= Power2(n)
  {
    if m < n {
      PowersGrow(m, n - 1);
    } else if m > 0 {
      PowersGrow(m - 1, m - 1);
    }
  }

  lemma DelaysGrow(m: nat, n: nat)
    requires m <= n
    ensures 1_000 <= RetryDelay(m) <= RetryDelay(n) <= 1_024_000
    ensures n >= 10 ==> RetryDelay(n) == 1_024_000
  {
    PowersGrow(0, Min(m, 10));
    PowersGrow(Min(m, 10), Min(n, 10));
    PowersGrow(Min(n, 10), 10);
    assert Power2(10) == 1_024;
  }

  /**
   A failed lease puts the next attempt off by no less than a lease with fewer attempts would, by a
   second at least, and by 1,024 seconds at most, which ten attempts reach.
   */
  lemma RetriesBackOff(s: State, lease: GarbageLease, fewer: nat, now: StoredMillis)
    requires HoldsLease(s, lease) && fewer <= lease.attempts
    ensures var k := lease.objectKey;
            var next, before := FailLease(s, lease, now).queue[k].nextAttempt,
                                FailLease(s, lease.(attempts := fewer), now).queue[k].nextAttempt;
            && SatAdd(now, 1_000) <= before <= next <= SatAdd(now, 1_024_000)
            && (lease.attempts >= 10 ==> next == SatAdd(now, 1_024_000))
  {
    hide RetryDelay;
    DelaysGrow(fewer, lease.attempts);
  }

  // ----- Retained reads -----

  lemma StepKeepsPromises(w: World, sha: Sha, e: Event, v: World)
    requires Step(w, sha, e, v)
    ensures w.past.promises <= v.past.promises
  {
    hide LiveError, ValidText, PreparePublish, ObjectKey, Enqueue, FailLease, ClaimGarbage, Reserve, Upload;
    hide CommitPublication, PublishTrusted, RetainForRead, DecideReserve, NewReservationRow, Commits;
  }

  lemma {:induction false} PromisesStay(sha: Sha, ws: seq<World>, es: seq<Event>, i: nat, j: nat)
    requires Run(sha, ws, es) && i <= j <= |es|
    ensures ws[i].past.promises <= ws[j].past.promises
    decreases j - i
  {
    if i < j {
      PromisesStay(sha, ws, es, i, j - 1);
      hide Step;
      StepKeepsPromises(ws[j - 1], sha, es[j - 1], ws[j]);
    }
  }

  /** What a successful retention leaves behind. */
  lemma RetentionPromises(w: World, sha: Sha, e: Event, v: World)
    requires Inv(w, sha) && Step(w, sha, e, v) && e.RetainEvent?
    requires RetainForRead(w.store, e.ref, e.now, e.until, e.found).result.Ok?
    ensures var g, key := Generation(e.ref.scope, e.ref.body.generation), e.ref.body.objectKey;
            && (g, e.until) in v.past.promises
            && key in w.past.stored && w.past.stored[key].gen == g
            && key in w.store.bodies && w.store.bodies[key] == w.past.stored[key].bytes
  {
    hide ValidText, PlacesOf, PrefixedKey, GenInv, StoredEntry;
    var p := e.found.value;
    assert p in w.store.paths && e.ref == RowReference(p, w.store.paths[p]);
    assert PublishedGen(p, w.store.paths[p]) == Generation(e.ref.scope, e.ref.body.generation);
    PublishedIsNotErased(w, p);
    assert PathEntry(w, sha, p);
    StoredIsThere(w, sha, e.ref.body.objectKey);
    StoredBody(w, sha, e.ref.body.objectKey);
  }

  lemma PromisedBodyIsThere(w: World, sha: Sha, v: World, g: Generation, until: Millis, key: string)
    requires Inv(v, sha) && ForwardInv(v) && Extends(w, v)
    requires (g, until) in v.past.promises && v.past.clock < until
    requires key in w.past.stored && w.past.stored[key].gen == g
    ensures key in v.store.bodies && v.store.bodies[key] == w.past.stored[key].bytes
    ensures forall i | 0 <= i < |v.past.leases| && v.past.leases[i].lease.gen == g ::
              until <= v.past.leases[i].start <= v.past.clock
  {
    hide PlacesOf, PrefixedKey, GenInv, CheckInv, PathInv, Accounted, Honoured, StoredInv;
    assert (g, until).0 == g && (g, until).1 == until;
    StoredIsThere(v, sha, key);
    StoredBody(v, sha, key);
  }

  /**
   Once a read is retained until a time, no collector leases its generation before that time,
   and its body stays in place unchanged, whatever replaces the path and whoever prunes
   retentions.
   */
  lemma RetainedReadsSurvive(sha: Sha, ws: seq<World>, es: seq<Event>, i: nat, j: nat)
    requires ForwardRun(sha, ws, es) && i < j <= |es| && es[i].RetainEvent?
    requires RetainForRead(ws[i].store, es[i].ref, es[i].now, es[i].until, es[i].found).result.Ok?
    requires ws[j].past.clock < es[i].until
    ensures var key, g := es[i].ref.body.objectKey, Generation(es[i].ref.scope, es[i].ref.body.generation);
            && key in ws[i].store.bodies && key in ws[j].store.bodies
            && ws[j].store.bodies[key] == ws[i].store.bodies[key]
            && forall a | 0 <= a < |ws[j].past.leases| :: ws[j].past.leases[a].lease.gen != g
  {
    ForwardRunInvariant(sha, ws, es, i);
    ForwardRunInvariant(sha, ws, es, j);
    RunKeeps(sha, ws, es, i, j);
    PromisesStay(sha, ws, es, i + 1, j);
    assert Step(ws[i], sha, es[i], ws[i + 1]);
    hide Run, Step, PubInv, TokensInv, Inv, ForwardInv, Forward, Extends, Grows, RetainForRead;
    RetentionPromises(ws[i], sha, es[i], ws[i + 1]);
    var ref := es[i].ref;
    PromisedBodyIsThere(ws[i], sha, ws[j], Generation(ref.scope, ref.body.generation), es[i].until, ref.body.objectKey);
  }

  /** A download grant signed against a retained read names a body that exists until the grant expires. */
  lemma GrantedDownloadsWork(
    sha: Sha, ws: seq<World>, es: seq<Event>, i: nat, j: nat, prefix: string, signedAt: Millis, ttl: Millis)
    requires ForwardRun(sha, ws, es) && i < j <= |es| && es[i].RetainEvent?
    requires RetainForRead(ws[i].store, es[i].ref, es[i].now, es[i].until, es[i].found).result.Ok?
    requires SignGet(prefix, es[i].ref, signedAt, ttl, es[i].until).Ok?
    requires ws[j].past.clock < signedAt + ttl
    ensures es[i].ref.body.Object?
    ensures var key := es[i].ref.body.objectKey;
            && SignGet(prefix, es[i].ref, signedAt, ttl, es[i].until).value.objectKey == key
            && key in ws[i].store.bodies && key in ws[j].store.bodies
            && ws[j].store.bodies[key] == ws[i].store.bodies[key]
  {
    assert es[i].ref.body.Object?;
    GetGrantsAreBounded(prefix, es[i].ref, signedAt, ttl, es[i].until);
    hide ForwardRun, SignGet, RetainForRead;
    RetainedReadsSurvive(sha, ws, es, i, j);
  }
}
