/**
 What a drain does when everything is past its time: it succeeds, gets through a batch of the
 work, and deletes no body of a published generation.
 */
module Draining {
  import opened Wrappers
  import opened Keys
  import opened Catalog
  import opened Generations
  import opened Safety
  import opened Publications
  import opened LeaseRules

  // ----- Tables in order -----

  /** The key under which the body of the reservation on `p` is stored. */
  function ReservedKey(s: State, p: PathKey): string
    requires p in s.reservations
  {
    ObjectKey(ReservedGen(p, s.reservations[p]))
  }

  /** Every key belongs to one row of one table. */
  predicate Disjoint(s: State) {
    && KeyedByGeneration(s.queue)
    && (forall p | p in s.reservations :: IsId(s.reservations[p].generation) && ReservedKey(s, p) !in s.queue)
    && (forall p, q | p in s.reservations && q in s.reservations && p != q :: ReservedKey(s, p) != ReservedKey(s, q))
    && (forall p | p in s.paths :: s.paths[p].objectKey !in s.queue)
    && (forall p, q | p in s.paths && q in s.reservations :: ReservedKey(s, q) != s.paths[p].objectKey)
  }

  function PublishedKeys(s: State): set<string> { set p | p in s.paths :: s.paths[p].objectKey }

  function ReservedKeys(s: State): set<string> { set p | p in s.reservations :: ReservedKey(s, p) }

  /** The keys under which a row of a table expects a body. */
  function ListedKeys(s: State): set<string> { PublishedKeys(s) + ReservedKeys(s) + s.queue.Keys }

  /** Every stored body is where a row expects it. */
  predicate IsListed(s: State) { s.bodies.Keys <= ListedKeys(s) }

  /** Published bodies are stored, and every stored body belongs to a row. */
  predicate Accounts(s: State) {
    PublishedKeys(s) <= s.bodies.Keys && IsListed(s)
  }

  // ----- Everything is due -----

  predicate RowIsDue(row: QueueRow, now: Millis) {
    row.notBefore <= now && row.nextAttempt <= now && LeaseFree(row, now)
  }

  /** `now` is past every expiry with its grace, every retry time, lease and retention. */
  predicate AllDue(s: State, now: Millis) {
    && (forall p | p in s.reservations ::
          s.reservations[p].expiresAt <= now && SatAdd(s.reservations[p].expiresAt, GC_SETTLEMENT_GRACE_MS) <= now)
    && (forall k | k in s.queue :: RowIsDue(s.queue[k], now))
    && (forall g | g in s.retentions :: s.retentions[g].retainUntil <= now)
  }

  /**
   The rows a drain can settle: their files have a path, which a scope holding `.` or `..`
   lacks, and their attempts still fit the counter of a lease.
   */
  predicate Settles(row: QueueRow) {
    !IsDotScope(row.gen.scope) && row.attempts <= U32_MAX
  }

  predicate AllSettle(s: State) {
    && (forall k | k in s.queue :: Settles(s.queue[k]))
    && (forall p | p in s.reservations :: !IsDotScope(p.scope))
  }

  predicate Ready(s: State, now: Millis) {
    Disjoint(s) && Accounts(s) && AllDue(s, now)
  }

  function Work(s: State): nat { 2 * |s.reservations| + |s.queue| }

  // ----- Reaping -----

  lemma RetireQueues(s: State, p: PathKey)
    requires Disjoint(s) && p in s.reservations
    ensures var t, row := Retire(s, p), s.reservations[p];
            && t == s.(queue := t.queue, reservations := s.reservations - {p})
            && ReservedKey(s, p) !in s.queue
            && t.queue == s.queue[ReservedKey(s, p) :=
                 QueueRow(ReservedGen(p, row), SatAdd(row.expiresAt, GC_SETTLEMENT_GRACE_MS),
                          SatAdd(row.expiresAt, GC_SETTLEMENT_GRACE_MS), 0, None)]
  {
    hide ObjectKey, IsId;
  }

  lemma RetireDisjoint(s: State, p: PathKey)
    requires Disjoint(s) && p in s.reservations
    ensures Disjoint(Retire(s, p))
  {
    RetireQueues(s, p);
    var t := Retire(s, p);
    assert IsId(s.reservations[p].generation) && ReservedKey(s, p) == ObjectKey(ReservedGen(p, s.reservations[p]));
    hide Retire, ObjectKey, IsId, SatAdd;
    forall q | q in t.reservations ensures ReservedKey(t, q) == ReservedKey(s, q) && ReservedKey(s, q) != ReservedKey(s, p) {
    }
    hide ReservedKey;
  }

  lemma RetireAccounts(s: State, p: PathKey)
    requires Disjoint(s) && Accounts(s) && p in s.reservations
    ensures Accounts(Retire(s, p))
  {
    hide Disjoint, Retire, ReservedKey;
    RetireQueues(s, p);
    var t := Retire(s, p);
    assert ReservedKeys(s) <= ReservedKeys(t) + {ReservedKey(s, p)} by {
      forall k | k in ReservedKeys(s) ensures k in ReservedKeys(t) + {ReservedKey(s, p)} {
        var q :| q in s.reservations && ReservedKey(s, q) == k;
        if q != p {
          SameReservedKey(s, t, q);
          assert ReservedKey(t, q) == k && q in t.reservations;
        }
      }
    }
  }

  lemma SameReservedKey(s: State, t: State, q: PathKey)
    requires q in s.reservations && q in t.reservations && t.reservations[q] == s.reservations[q]
    ensures ReservedKey(s, q) == ReservedKey(t, q)
  {
  }

  lemma RetireSizes(s: State, p: PathKey)
    requires Disjoint(s) && p in s.reservations
    ensures |Retire(s, p).reservations| == |s.reservations| - 1
    ensures |Retire(s, p).queue| == |s.queue| + 1
  {
    hide Disjoint, Retire, ReservedKey, SatAdd;
    RetireQueues(s, p);
    var t, key := Retire(s, p), ReservedKey(s, p);
    RemoveOne(s.reservations, p);
    AddOne(s.queue, key, t.queue[key]);
  }

  lemma RemoveOne<K, V>(m: map<K, V>, k: K)
    requires k in m
    ensures |m - {k}| == |m| - 1
  {
    assert (m - {k}).Keys == m.Keys - {k};
  }

  lemma AddOne<K, V>(m: map<K, V>, k: K, v: V)
    requires k !in m
    ensures |m[k := v]| == |m| + 1
  {
    assert m[k := v].Keys == m.Keys + {k};
  }

  lemma RetireDue(s: State, p: PathKey, now: Millis)
    requires Disjoint(s) && AllDue(s, now) && p in s.reservations
    ensures AllDue(Retire(s, p), now) && (AllSettle(s) ==> AllSettle(Retire(s, p)))
  {
    hide Disjoint, Retire, ReservedKey, SatAdd;
    RetireQueues(s, p);
  }

  lemma RetireKeepsReady(s: State, p: PathKey, now: Millis)
    requires Ready(s, now) && p in s.reservations
    ensures var t := Retire(s, p);
            && Ready(t, now) && (AllSettle(s) ==> AllSettle(t))
            && |t.reservations| == |s.reservations| - 1 && |t.queue| == |s.queue| + 1
  {
    hide Disjoint, Accounts, AllDue, AllSettle, Retire;
    RetireDisjoint(s, p);
    RetireAccounts(s, p);
    RetireSizes(s, p);
    RetireDue(s, p, now);
  }

  lemma ReapLast(s: State, keys: seq<PathKey>)
    requires AllReserved(s, keys) && keys != []
    ensures var n := |keys| - 1;
            && AllReserved(s, keys[..n]) && keys[n] in Reap(s, keys[..n]).reservations
            && Reap(s, keys) == Retire(Reap(s, keys[..n]), keys[n])
  {
    hide Retire;
    assert keys[|keys| - 1] !in keys[..|keys| - 1];
  }

  lemma {:induction false} ReapKeepsReady(s: State, keys: seq<PathKey>, now: Millis)
    requires Ready(s, now) && AllReserved(s, keys)
    ensures var t := Reap(s, keys);
            && Ready(t, now) && (AllSettle(s) ==> AllSettle(t))
            && |t.reservations| == |s.reservations| - |keys| && |t.queue| == |s.queue| + |keys|
            && t.paths == s.paths && t.bodies == s.bodies && t.retentions == s.retentions && t.minted == s.minted
  {
    if keys == [] {
      assert Reap(s, keys) == s;
    } else {
      hide Ready, AllSettle, Retire;
      var n := |keys| - 1;
      ReapKeepsReady(s, keys[..n], now);
      ReapLast(s, keys);
      hide Reap, AllReserved;
      RetireTouches(Reap(s, keys[..n]), keys[n]);
      RetireKeepsReady(Reap(s, keys[..n]), keys[n], now);
    }
  }

  // ----- Leasing and deleting -----

  /** When everything is due, every queue row can be leased. */
  lemma AllRowsAreDue(s: State, now: Millis)
    requires Disjoint(s) && AllDue(s, now)
    ensures DueLeases(s, now).Keys == s.queue.Keys
  {
    hide ObjectKey, IsId;
    forall k | k in s.queue ensures Leasable(s, k, now) {
      assert RowIsDue(s.queue[k], now);
    }
  }

  predicate AllHeld(s: State, leases: seq<GarbageLease>) {
    && (forall i | 0 <= i < |leases| ::
          HoldsLease(s, leases[i]) && ObjectPath(leases[i].objectKey) == Some(leases[i].objectKey))
    && (forall i, j | 0 <= i < j < |leases| :: leases[i].objectKey != leases[j].objectKey)
  }

  function LeasedKeys(leases: seq<GarbageLease>): set<string> {
    set i | 0 <= i < |leases| :: leases[i].objectKey
  }

  /** Settling leases that are all held, with no file stuck, deletes every row and its body. */
  lemma {:induction false} HeldLeasesSettle(s: State, leases: seq<GarbageLease>, now: StoredMillis, report: Report)
    requires AllHeld(s, leases)
    ensures SettleLeases(s, leases, now, {}, report) ==
            Outcome(s.(queue := s.queue - LeasedKeys(leases), bodies := s.bodies - LeasedKeys(leases)),
                    Ok(report.(deleted := report.deleted + |leases|)))
    decreases |leases|
  {
    hide ObjectPath;
    if leases != [] {
      var first, rest := leases[0], leases[1..];
      var t := Acknowledge(s.(bodies := s.bodies - {first.objectKey}), first);
      assert HoldsLease(s, first);
      assert t == s.(queue := s.queue - {first.objectKey}, bodies := s.bodies - {first.objectKey});
      FirstIsGone(s, t, leases);
      HeldLeasesSettle(t, rest, now, report.(deleted := report.deleted + 1));
      assert LeasedKeys(leases) == {first.objectKey} + LeasedKeys(rest) by {
        LeasedKeysCons(leases);
      }
    } else {
      assert LeasedKeys(leases) == {};
    }
  }

  lemma LeasedKeysCons(leases: seq<GarbageLease>)
    requires leases != []
    ensures LeasedKeys(leases) == {leases[0].objectKey} + LeasedKeys(leases[1..])
  {
    forall k | k in LeasedKeys(leases) ensures k in {leases[0].objectKey} + LeasedKeys(leases[1..]) {
      var i :| 0 <= i < |leases| && leases[i].objectKey == k;
      if i > 0 {
        assert leases[1..][i - 1] == leases[i];
      }
    }
  }

  lemma FirstIsGone(s: State, t: State, leases: seq<GarbageLease>)
    requires leases != [] && AllHeld(s, leases) && t.queue == s.queue - {leases[0].objectKey}
    ensures AllHeld(t, leases[1..])
  {
    hide ObjectPath;
    forall i | 0 <= i < |leases[1..]|
      ensures HoldsLease(t, leases[1..][i]) && ObjectPath(leases[1..][i].objectKey) == Some(leases[1..][i].objectKey)
    {
      assert leases[1..][i] == leases[i + 1] && HoldsLease(s, leases[i + 1]);
    }
  }

  // ----- One drain -----

  lemma {:induction false} DistinctElements<K>(ks: seq<K>)
    requires Distinct(ks)
    ensures |Elements(ks)| == |ks|
  {
    if ks == [] {
      assert Elements(ks) == {};
    } else {
      var n := |ks| - 1;
      DistinctElements(ks[..n]);
      assert Elements(ks) == Elements(ks[..n]) + {ks[n]} && ks[n] !in ks[..n];
    }
  }

  /** `t` is `s` without the queue rows and bodies at the keys `gone`. */
  predicate Dropped(s: State, t: State, gone: set<string>) {
    && t.queue == s.queue - gone && t.bodies == s.bodies - gone
    && t.paths == s.paths && t.reservations == s.reservations && t.retentions == s.retentions
  }

  lemma DroppingKeepsAccounts(s: State, t: State, gone: set<string>)
    requires Disjoint(s) && Accounts(s) && Dropped(s, t, gone) && gone <= s.queue.Keys
    ensures Accounts(t)
  {
    hide KeyedByGeneration, ReservedKey;
    forall p | p in s.reservations ensures ReservedKey(t, p) == ReservedKey(s, p) {
      SameReservedKey(s, t, p);
    }
    assert PublishedKeys(t) == PublishedKeys(s) && ReservedKeys(t) == ReservedKeys(s);
    assert PublishedKeys(s) !! gone;
  }

  lemma DroppingKeepsDisjoint(s: State, t: State, gone: set<string>)
    requires Disjoint(s) && Dropped(s, t, gone)
    ensures Disjoint(t)
  {
    hide ObjectKey, IsId, ReservedKey;
    forall p | p in s.reservations ensures ReservedKey(t, p) == ReservedKey(s, p) {
      SameReservedKey(s, t, p);
    }
  }

  lemma DroppingKeepsDue(s: State, t: State, gone: set<string>, now: Millis)
    requires Dropped(s, t, gone)
    ensures AllDue(s, now) ==> AllDue(t, now)
    ensures AllSettle(s) ==> AllSettle(t)
  {
    hide RowIsDue, Settles;
  }

  lemma DroppingKeepsReady(s: State, t: State, gone: set<string>, now: Millis)
    requires Ready(s, now) && Dropped(s, t, gone) && gone <= s.queue.Keys
    ensures Ready(t, now) && (AllSettle(s) ==> AllSettle(t))
  {
    hide Disjoint, Accounts, AllDue, AllSettle, Dropped;
    DroppingKeepsDisjoint(s, t, gone);
    DroppingKeepsAccounts(s, t, gone);
    DroppingKeepsDue(s, t, gone, now);
  }

  lemma ChoiceCounts(s: State, now: Millis, limit: nat, c: ClaimChoice)
    requires ValidChoice(s, now, limit, c)
    ensures AllReserved(s, c.reaped)
    ensures |c.reaped| == Min(MAX_GC_BATCH, |DueReservations(s.reservations, now)|)
    ensures |c.leased| == Min(limit, |DueLeases(BeforeLeasing(s, c), now)|)
  {
    hide Reap, DueRows, DueReservations, AllReserved, AllQueued, Fresh, Distinct;
  }

  lemma ReservationsAreDue(s: State, now: Millis)
    requires AllDue(s, now)
    ensures |DueReservations(s.reservations, now)| == |s.reservations|
  {
    assert DueReservations(s.reservations, now).Keys == s.reservations.Keys;
  }

  lemma RowsAreDue(s: State, now: Millis)
    requires Disjoint(s) && AllDue(s, now)
    ensures |DueLeases(s, now)| == |s.queue|
  {
    hide DueLeases, Disjoint, AllDue;
    AllRowsAreDue(s, now);
    assert |DueLeases(s, now).Keys| == |s.queue.Keys|;
  }

  /** The tables that the lease query of a drain works on. */
  lemma ReadyToLease(s: State, now: Millis, limit: nat, c: ClaimChoice)
    requires Ready(s, now) && ValidGcRequest(now, limit) && ValidChoice(s, now, limit, c)
    ensures AllReserved(s, c.reaped)
    ensures var ready := BeforeLeasing(s, c);
            && Ready(ready, now) && (AllSettle(s) ==> AllSettle(ready))
            && Work(ready) == Work(s) - |c.reaped| && |ready.reservations| == |s.reservations| - |c.reaped|
            && ready.paths == s.paths && ready.bodies == s.bodies && ready.minted == s.minted
            && |c.leased| == Min(limit, |ready.queue|)
            && |c.reaped| == Min(MAX_GC_BATCH, |s.reservations|)
  {
    hide ValidChoice, Reap, Disjoint, Accounts, AllDue, AllSettle, AllReserved, DueReservations, DueLeases;
    ChoiceCounts(s, now, limit, c);
    ReservationsAreDue(s, now);
    ReapKeepsReady(s, c.reaped, now);
    PruningKeepsReady(Reap(s, c.reaped), c.retentions, now);
    RowsAreDue(BeforeLeasing(s, c), now);
  }

  lemma PruningKeepsReady(s: State, gone: seq<Generation>, now: Millis)
    requires Ready(s, now)
    ensures Ready(PruneRetentions(s, gone), now) && (AllSettle(s) ==> AllSettle(PruneRetentions(s, gone)))
  {
    hide IsId, RowIsDue, Settles, ReservedKey, KeyedByGeneration;
    var t := PruneRetentions(s, gone);
    forall p | p in s.reservations ensures ReservedKey(t, p) == ReservedKey(s, p) {
      SameReservedKey(s, t, p);
    }
    assert ReservedKeys(t) == ReservedKeys(s);
  }

  lemma SettlingRowHasFile(queue: map<string, QueueRow>, k: string)
    requires KeyedByGeneration(queue) && k in queue && Settles(queue[k])
    ensures ObjectPath(k) == Some(k)
  {
    hide ObjectPath, ObjectKey, IsId;
    LocalKeyResolves(queue[k].gen);
  }

  lemma ClaimedAreHeld(ready: State, now: Millis, c: ClaimChoice)
    requires KeyedByGeneration(ready.queue) && AllSettle(ready)
    requires AllQueued(ready.queue, c.leased) && |c.ids| == |c.leased|
    ensures AllHeld(AfterLeasing(ready, now, c), Leases(ready.queue, c.leased, c.ids))
  {
    hide MarkLeased, ObjectPath, KeyedByGeneration;
    MarkedRows(ready.queue, c.leased, c.ids, SatAdd(now, GC_LEASE_MS));
    var s, leases := AfterLeasing(ready, now, c), Leases(ready.queue, c.leased, c.ids);
    forall i | 0 <= i < |leases|
      ensures HoldsLease(s, leases[i]) && ObjectPath(leases[i].objectKey) == Some(leases[i].objectKey)
    {
      assert Settles(ready.queue[c.leased[i]]);
      SettlingRowHasFile(ready.queue, c.leased[i]);
    }
  }

  lemma AttemptsFit(ready: State, c: ClaimChoice)
    requires AllSettle(ready) && AllQueued(ready.queue, c.leased) && |c.ids| == |c.leased|
    ensures forall i | 0 <= i < |c.leased| :: Leases(ready.queue, c.leased, c.ids)[i].attempts <= U32_MAX
  {
    forall i | 0 <= i < |c.leased| ensures Leases(ready.queue, c.leased, c.ids)[i].attempts <= U32_MAX {
      assert Settles(ready.queue[c.leased[i]]);
    }
  }

  lemma ClaimGoesThrough(s: State, now: Millis, limit: nat, c: ClaimChoice)
    requires Ready(s, now) && AllSettle(s) && ValidGcRequest(now, limit) && ValidChoice(s, now, limit, c)
    ensures ClaimFits(s, c)
    ensures var ready, claim := BeforeLeasing(s, c), ClaimGarbage(s, now, limit, c);
            && claim.state == AfterLeasing(ready, now, c) && claim.result.Ok?
            && claim.result.value.leases == Leases(ready.queue, c.leased, c.ids)
  {
    hide Ready, AllSettle, ValidChoice, BeforeLeasing, AfterLeasing, AllQueued;
    ReadyToLease(s, now, limit, c);
    assert ClaimFits(s, c) by {
      ChoiceFits(s, now, limit, c);
    }
    AttemptsFit(BeforeLeasing(s, c), c);
  }

  lemma ChoiceFits(s: State, now: Millis, limit: nat, c: ClaimChoice)
    requires ValidChoice(s, now, limit, c)
    ensures ClaimFits(s, c)
  {
    hide BeforeLeasing, AllReserved, AllQueued, FirstDue, Fresh;
  }

  lemma LeasedKeysAre(queue: map<string, QueueRow>, keys: seq<string>, ids: seq<string>)
    requires AllQueued(queue, keys) && |ids| == |keys|
    ensures LeasedKeys(Leases(queue, keys, ids)) == Elements(keys)
    ensures Elements(keys) <= queue.Keys && |Elements(keys)| == |keys|
  {
    DistinctElements(keys);
    forall k | k in keys ensures k in LeasedKeys(Leases(queue, keys, ids)) {
      var i :| 0 <= i < |keys| && keys[i] == k;
      assert Leases(queue, keys, ids)[i].objectKey == k;
    }
  }

  lemma UnleasedRows(ready: State, now: Millis, c: ClaimChoice)
    requires AllQueued(ready.queue, c.leased) && |c.ids| == |c.leased|
    ensures AfterLeasing(ready, now, c).queue - Elements(c.leased) == ready.queue - Elements(c.leased)
  {
    hide MarkLeased;
    MarkedRows(ready.queue, c.leased, c.ids, SatAdd(now, GC_LEASE_MS));
  }

  lemma LeasedAreDropped(ready: State, now: Millis, c: ClaimChoice, t: State)
    requires AllQueued(ready.queue, c.leased) && |c.ids| == |c.leased|
    requires var s, gone := AfterLeasing(ready, now, c), LeasedKeys(Leases(ready.queue, c.leased, c.ids));
             t == s.(queue := s.queue - gone, bodies := s.bodies - gone)
    ensures Dropped(ready, t, Elements(c.leased)) && Elements(c.leased) <= ready.queue.Keys
    ensures |t.queue| == |ready.queue| - |c.leased|
    ensures t.minted == ready.minted + Elements(c.ids)
  {
    hide MarkLeased, Leases, AllQueued, LeasedKeys, Elements;
    LeasedKeysAre(ready.queue, c.leased, c.ids);
    UnleasedRows(ready, now, c);
    assert t.queue.Keys == ready.queue.Keys - Elements(c.leased);
  }

  /** A drain at a time when everything is due succeeds and gets through a batch of the work. */
  lemma DrainMakesProgress(s: State, now: Millis, limit: nat, c: ClaimChoice)
    requires Ready(s, now) && AllSettle(s) && ValidGcRequest(now, limit) && ValidChoice(s, now, limit, c)
    ensures var done := DrainGarbage(s, now, limit, c, {});
            && done.result.Ok? && Ready(done.state, now) && AllSettle(done.state)
            && Work(done.state) == Work(s) - |c.reaped| - |c.leased|
            && (Work(s) > 0 ==> |c.reaped| + |c.leased| > 0)
            && done.state.paths == s.paths
            && Within(done.state.bodies, s.bodies)
            && done.state.minted == s.minted + Elements(c.ids) && |c.ids| == |c.leased|
  {
    hide ValidChoice, ClaimGarbage, AfterLeasing, BeforeLeasing, Disjoint, Accounts, AllDue, AllSettle, AllQueued, Within;
    hide SettleLeases, Leases, LeasedKeys, Elements, AllHeld, Dropped, KeyedByGeneration;
    ReadyToLease(s, now, limit, c);
    ClaimGoesThrough(s, now, limit, c);
    var ready, claim := BeforeLeasing(s, c), ClaimGarbage(s, now, limit, c);
    var done := DrainGarbage(s, now, limit, c, {});
    ReadyIsKeyed(ready, now);
    ClaimedAreHeld(ready, now, c);
    HeldLeasesSettle(claim.state, claim.result.value.leases, now, claim.result.value.report);
    LeasedAreDropped(ready, now, c, done.state);
    DroppedIsWithin(ready, done.state, Elements(c.leased));
    DroppingKeepsReady(ready, done.state, Elements(c.leased), now);
  }

  lemma DroppedIsWithin(s: State, t: State, gone: set<string>)
    requires Dropped(s, t, gone)
    ensures t.paths == s.paths && t.reservations == s.reservations && Within(t.bodies, s.bodies)
  {
  }

  lemma ReadyIsKeyed(s: State, now: Millis)
    requires Ready(s, now)
    ensures KeyedByGeneration(s.queue)
  {
    hide KeyedByGeneration, Accounts, AllDue;
  }

  // ----- Repeated drains -----

  /** The tables `ss` are what repeated drains at `now` make of the first ones, one after the other. */
  ghost predicate Drains(ss: seq<State>, cs: seq<ClaimChoice>, now: Millis, limit: nat) {
    && |ss| == |cs| + 1
    && forall i | 0 <= i < |cs| ::
         ValidChoice(ss[i], now, limit, cs[i]) && ss[i + 1] == DrainGarbage(ss[i], now, limit, cs[i], {}).state
  }

  /** Nothing is left but the published generations. */
  predicate IsCollected(s: State) {
    s.reservations == map[] && s.queue == map[] && s.bodies.Keys == PublishedKeys(s)
  }

  lemma NoWorkLeft(s: State, now: Millis)
    requires Ready(s, now)
    ensures Work(s) == 0 <==> IsCollected(s)
  {
    hide Disjoint, AllDue;
    if Work(s) == 0 {
      assert s.reservations.Keys == {} && s.queue.Keys == {};
      assert ReservedKeys(s) == {};
    }
  }

  lemma DrainAt(ss: seq<State>, cs: seq<ClaimChoice>, now: Millis, limit: nat, i: nat)
    requires Drains(ss, cs, now, limit) && i < |cs|
    ensures ValidChoice(ss[i], now, limit, cs[i])
    ensures ss[i + 1] == DrainGarbage(ss[i], now, limit, cs[i], {}).state
  {
    hide ValidChoice, DrainGarbage;
  }

  lemma DrainsLength(ss: seq<State>, cs: seq<ClaimChoice>, now: Millis, limit: nat)
    requires Drains(ss, cs, now, limit)
    ensures |ss| == |cs| + 1
  {
    hide ValidChoice, DrainGarbage;
  }

  lemma StillWithin<K, V>(a: map<K, V>, b: map<K, V>, c: map<K, V>)
    ensures Within(a, a)
    ensures Within(a, b) && Within(b, c) ==> Within(a, c)
  {
  }

  lemma {:induction false} DrainsMakeProgress(ss: seq<State>, cs: seq<ClaimChoice>, now: Millis, limit: nat, n: nat)
    requires Drains(ss, cs, now, limit) && ValidGcRequest(now, limit) && n <= |cs|
    requires Ready(ss[0], now) && AllSettle(ss[0])
    ensures |ss| == |cs| + 1 && Ready(ss[n], now) && AllSettle(ss[n])
    ensures Work(ss[n]) <= Max(0, Work(ss[0]) - n)
    ensures ss[n].paths == ss[0].paths && Within(ss[n].bodies, ss[0].bodies)
    ensures n > 0 ==> DrainGarbage(ss[n - 1], now, limit, cs[n - 1], {}).result.Ok?
  {
    hide Ready, AllSettle, ValidChoice, DrainGarbage, Work, Drains, Within;
    DrainsLength(ss, cs, now, limit);
    if n == 0 {
      StillWithin(ss[0].bodies, ss[0].bodies, ss[0].bodies);
    } else {
      DrainsMakeProgress(ss, cs, now, limit, n - 1);
      DrainAt(ss, cs, now, limit, n - 1);
      DrainMakesProgress(ss[n - 1], now, limit, cs[n - 1]);
      StillWithin(ss[n].bodies, ss[n - 1].bodies, ss[0].bodies);
    }
  }

  /**
   When everything is due and every row can be settled, every drain succeeds, and after as
   many drains as there is work nothing is left but the published generations, whose bodies
   are as they were.
   */
  lemma DrainingConverges(ss: seq<State>, cs: seq<ClaimChoice>, now: Millis, limit: nat, n: nat)
    requires Drains(ss, cs, now, limit) && ValidGcRequest(now, limit) && Work(ss[0]) <= n <= |cs|
    requires Ready(ss[0], now) && AllSettle(ss[0])
    ensures IsCollected(ss[n])
    ensures ss[n].paths == ss[0].paths
    ensures forall p | p in ss[n].paths ::
              var key := ss[n].paths[p].objectKey;
              key in ss[n].bodies && key in ss[0].bodies && ss[n].bodies[key] == ss[0].bodies[key]
    ensures n > 0 ==> DrainGarbage(ss[n - 1], now, limit, cs[n - 1], {}).result.Ok?
  {
    hide Drains, Disjoint, AllDue, AllSettle, DrainGarbage;
    DrainsMakeProgress(ss, cs, now, limit, n);
    NoWorkLeft(ss[n], now);
    forall p | p in ss[n].paths ensures ss[n].paths[p].objectKey in ss[n].bodies {
      assert ss[n].paths[p].objectKey in PublishedKeys(ss[n]);
    }
  }

  // ----- Drains can always go on -----

  lemma FreshRest(minted: set<string>, ids: seq<string>, n: nat)
    requires Fresh(minted, ids) && n <= |ids|
    ensures Fresh(minted, ids[..n]) && Fresh(minted + Elements(ids[..n]), ids[n..])
  {
    hide IsId;
  }

  lemma ChosenAreThere<K>(chosen: seq<K>, due: map<K, int>, limit: nat)
    requires FirstDue(chosen, due, limit)
    ensures Distinct(chosen) && |chosen| <= limit && forall i | 0 <= i < |chosen| :: chosen[i] in due
  {
  }

  lemma ReapedExist(s: State, now: Millis) returns (reaped: seq<PathKey>)
    ensures FirstDue(reaped, DueReservations(s.reservations, now), MAX_GC_BATCH) && AllReserved(s, reaped)
  {
    hide FirstDue, Distinct;
    reaped := FirstDueExists(DueReservations(s.reservations, now), MAX_GC_BATCH);
    ChosenAreThere(reaped, DueReservations(s.reservations, now), MAX_GC_BATCH);
  }

  lemma LeasedExist(s: State, now: Millis, limit: nat) returns (leased: seq<string>)
    requires Ready(s, now)
    ensures FirstDue(leased, DueLeases(s, now), limit) && AllQueued(s.queue, leased) && |leased| <= |s.queue|
  {
    hide FirstDue, Distinct, DueLeases, Disjoint, AllDue, Accounts;
    leased := FirstDueExists(DueLeases(s, now), limit);
    ChosenAreThere(leased, DueLeases(s, now), limit);
    RowsAreDue(s, now);
    AllRowsAreDue(s, now);
    assert |leased| == Min(limit, |DueLeases(s, now)|);
  }

  /** A drain has a valid choice whenever enough fresh identifiers are at hand. */
  lemma ChoiceExists(s: State, now: Millis, limit: nat, ids: seq<string>) returns (c: ClaimChoice)
    requires Fresh(s.minted, ids) && Ready(s, now) && ValidGcRequest(now, limit) && Work(s) <= |ids|
    ensures ValidChoice(s, now, limit, c)
    ensures |c.leased| <= |ids| && c.ids == ids[..|c.leased|]
  {
    hide FirstDue, Fresh, Ready, Reap, DueReservations, DueRetentions, DueReceipts, DuePublications, DueRows;
    hide AllReserved, AllQueued;
    var reaped := ReapedExist(s, now);
    var retentions := FirstDueExists(DueRetentions(s.retentions, now), MAX_GC_BATCH);
    var leased := RestExists(s, reaped, retentions, now, limit);
    var receipts := ReceiptsExist(s, now);
    var publications := FirstDueExists(DuePublications(s.publications, now), MAX_GC_BATCH - |receipts|);
    c := ClaimChoice(reaped, retentions, leased, receipts, publications, ids[..|leased|]);
    FreshRest(s.minted, ids, |leased|);
  }

  lemma RestExists(s: State, reaped: seq<PathKey>, retentions: seq<Generation>, now: Millis, limit: nat)
    returns (leased: seq<string>)
    requires Ready(s, now) && AllReserved(s, reaped)
    ensures var ready := PruneRetentions(Reap(s, reaped), retentions);
            && FirstDue(leased, DueLeases(ready, now), limit) && AllQueued(ready.queue, leased)
            && |leased| <= Work(s)
  {
    hide FirstDue, Ready, Reap, DueRows, AllReserved, AllQueued, AllSettle;
    ReapKeepsReady(s, reaped, now);
    PruningKeepsReady(Reap(s, reaped), retentions, now);
    leased := LeasedExist(PruneRetentions(Reap(s, reaped), retentions), now, limit);
  }

  lemma ReceiptsExist(s: State, now: Millis) returns (receipts: seq<RequestKey>)
    ensures FirstDue(receipts, DueReceipts(s.receipts, now), MAX_GC_BATCH) && |receipts| <= MAX_GC_BATCH
  {
    hide FirstDue, DueReceipts;
    receipts := FirstDueExists(DueReceipts(s.receipts, now), MAX_GC_BATCH);
    ChosenAreThere(receipts, DueReceipts(s.receipts, now), MAX_GC_BATCH);
  }

  /** `n` drains can follow one another, given enough fresh identifiers. */
  lemma {:induction false} DrainsExist(s: State, now: Millis, limit: nat, ids: seq<string>, n: nat)
    returns (ss: seq<State>, cs: seq<ClaimChoice>)
    requires Fresh(s.minted, ids) && Ready(s, now) && AllSettle(s) && ValidGcRequest(now, limit) && Work(s) <= |ids|
    ensures Drains(ss, cs, now, limit) && |cs| == n && ss[0] == s
    decreases n
  {
    hide Ready, AllSettle, ValidChoice, DrainGarbage, Fresh, Elements, Work, Drains, Within;
    if n == 0 {
      ss, cs := [s], [];
      NoDrains(s, now, limit);
    } else {
      var c := ChoiceExists(s, now, limit, ids);
      DrainMakesProgress(s, now, limit, c);
      FreshRest(s.minted, ids, |c.leased|);
      var t := DrainGarbage(s, now, limit, c, {}).state;
      var rest, more := DrainsExist(t, now, limit, ids[|c.leased|..], n - 1);
      ss, cs := [s] + rest, [c] + more;
      DrainsCons(s, c, rest, more, now, limit);
    }
  }

  lemma NoDrains(s: State, now: Millis, limit: nat)
    ensures Drains([s], [], now, limit)
  {
  }

  lemma DrainsCons(s: State, c: ClaimChoice, rest: seq<State>, more: seq<ClaimChoice>, now: Millis, limit: nat)
    requires Drains(rest, more, now, limit) && ValidChoice(s, now, limit, c)
    requires rest[0] == DrainGarbage(s, now, limit, c, {}).state
    ensures Drains([s] + rest, [c] + more, now, limit)
  {
    hide ValidChoice, DrainGarbage;
    var ss, cs := [s] + rest, [c] + more;
    forall i | 0 <= i < |cs|
      ensures ValidChoice(ss[i], now, limit, cs[i]) && ss[i + 1] == DrainGarbage(ss[i], now, limit, cs[i], {}).state
    {
      if i > 0 {
        assert ss[i] == rest[i - 1] && cs[i] == more[i - 1] && ss[i + 1] == rest[i];
      }
    }
  }
}
