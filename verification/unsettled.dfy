/**
 What no drain can do: settle a row whose key has no file, or remove a body that no row expects.
 A drain that leases such a row stops there, and the row is where it was before.
 */
module Unsettled {
  import opened Wrappers
  import opened Keys
  import opened Catalog
  import opened Generations
  import opened Safety
  import opened LeaseRules
  import opened Draining

  // ----- Rows that no drain can settle -----

  /** Names are well formed; unlike `Ready` this needs no row to be due. */
  predicate Named(s: State) {
    KeyedByGeneration(s.queue) && forall p | p in s.reservations :: IsId(s.reservations[p].generation)
  }

  lemma RetireKeepsNamed(s: State, p: PathKey)
    requires Named(s) && p in s.reservations
    ensures Named(Retire(s, p))
    ensures ObjectKey(ReservedGen(p, s.reservations[p])) in Retire(s, p).queue
    ensures Retire(s, p).queue[ObjectKey(ReservedGen(p, s.reservations[p]))].gen == ReservedGen(p, s.reservations[p])
  {
    hide ObjectKey, IsId;
    var row := s.reservations[p];
    var g := ReservedGen(p, row);
    EnqueueAdds(s.queue, g, SatAdd(row.expiresAt, GC_SETTLEMENT_GRACE_MS));
    if ObjectKey(g) in s.queue {
      SameKeySameGeneration(g, s.queue[ObjectKey(g)].gen);
    }
  }

  lemma RetireKeepsUnsettled(s: State, p: PathKey)
    requires Named(s) && p in s.reservations && !AllSettle(s)
    ensures !AllSettle(Retire(s, p))
  {
    hide ObjectKey, IsId, KeyedByGeneration;
    RetireKeepsNamed(s, p);
    var t := Retire(s, p);
    if k :| k in s.queue && !Settles(s.queue[k]) {
      assert !Settles(t.queue[k]);
    } else {
      var q :| q in s.reservations && IsDotScope(q.scope);
      if q == p {
        assert !Settles(t.queue[ObjectKey(ReservedGen(p, s.reservations[p]))]);
      } else {
        assert q in t.reservations;
      }
    }
  }

  lemma {:induction false} ReapKeepsUnsettled(s: State, keys: seq<PathKey>)
    requires Named(s) && AllReserved(s, keys)
    ensures Named(Reap(s, keys)) && (!AllSettle(s) ==> !AllSettle(Reap(s, keys)))
  {
    if keys == [] {
      assert Reap(s, keys) == s;
    } else {
      var n := |keys| - 1;
      ReapKeepsUnsettled(s, keys[..n]);
      assert keys[n] !in keys[..n];
      hide Named, AllSettle, Retire;
      RetireKeepsNamed(Reap(s, keys[..n]), keys[n]);
      if !AllSettle(s) {
        RetireKeepsUnsettled(Reap(s, keys[..n]), keys[n]);
      }
    }
  }

  /** Failing a lease changes at most its own row. */
  lemma FailTouchesOneRow(s: State, lease: GarbageLease, now: StoredMillis)
    ensures var t := FailLease(s, lease, now);
            && t == s.(queue := t.queue) && t.queue.Keys == s.queue.Keys
            && (forall k | k in s.queue && k != lease.objectKey :: t.queue[k] == s.queue[k])
            && (forall k | k in s.queue :: t.queue[k].gen == s.queue[k].gen)
  {
    hide RetryDelay, SatAdd;
  }

  /** Acknowledging a lease removes at most its own row. */
  lemma AckTouchesOneRow(s: State, lease: GarbageLease)
    ensures var t := Acknowledge(s, lease);
            && t == s.(queue := t.queue) && s.queue.Keys - {lease.objectKey} <= t.queue.Keys <= s.queue.Keys
            && (forall k | k in t.queue :: t.queue[k] == s.queue[k])
  {
  }

  lemma {:induction false} SettlingKeepsRow(
    s: State, leases: seq<GarbageLease>, now: StoredMillis, stuck: set<string>, report: Report, k: string)
    requires k in s.queue
    requires forall i | 0 <= i < |leases| :: leases[i].objectKey == k ==> ObjectPath(k).None?
    ensures var t := SettleLeases(s, leases, now, stuck, report).state;
            t.reservations == s.reservations && k in t.queue && t.queue[k] == s.queue[k]
    decreases |leases|
  {
    hide ObjectPath, FailLease, Acknowledge;
    if leases != [] && ObjectPath(leases[0].objectKey).Some? {
      var first, file := leases[0], ObjectPath(leases[0].objectKey).value;
      FailTouchesOneRow(s, first, now);
      AckTouchesOneRow(s.(bodies := s.bodies - {file}), first);
      if file in stuck {
        SettlingKeepsRow(FailLease(s, first, now), leases[1..], now, stuck, report.(failed := report.failed + 1), k);
      } else {
        SettlingKeepsRow(Acknowledge(s.(bodies := s.bodies - {file}), first), leases[1..], now, stuck,
                         report.(deleted := report.deleted + 1), k);
      }
    }
  }

  lemma SettledLeaseKeepsNamed(s: State, lease: GarbageLease, now: StoredMillis, gone: set<string>)
    requires Named(s)
    ensures Named(FailLease(s, lease, now)) && FailLease(s, lease, now).reservations == s.reservations
    ensures var t := Acknowledge(s.(bodies := s.bodies - gone), lease); Named(t) && t.reservations == s.reservations
  {
    hide FailLease, Acknowledge, ObjectKey, IsId;
    FailTouchesOneRow(s, lease, now);
    AckTouchesOneRow(s.(bodies := s.bodies - gone), lease);
  }

  lemma {:induction false} SettlingKeepsNamed(
    s: State, leases: seq<GarbageLease>, now: StoredMillis, stuck: set<string>, report: Report)
    requires Named(s)
    ensures var t := SettleLeases(s, leases, now, stuck, report).state; Named(t) && t.reservations == s.reservations
    decreases |leases|
  {
    hide ObjectPath, Named, FailLease, Acknowledge;
    if leases != [] && ObjectPath(leases[0].objectKey).Some? {
      var first, file := leases[0], ObjectPath(leases[0].objectKey).value;
      SettledLeaseKeepsNamed(s, first, now, {file});
      if file in stuck {
        SettlingKeepsNamed(FailLease(s, first, now), leases[1..], now, stuck, report.(failed := report.failed + 1));
      } else {
        SettlingKeepsNamed(Acknowledge(s.(bodies := s.bodies - {file}), first), leases[1..], now, stuck,
                           report.(deleted := report.deleted + 1));
      }
    }
  }

  /** A claim that goes through leases no row whose attempts are beyond the counter of a lease. */
  lemma ClaimResult(s: State, now: Millis, limit: nat, c: ClaimChoice)
    requires ValidGcRequest(now, limit) && ValidChoice(s, now, limit, c)
    ensures ClaimFits(s, c)
    ensures var ready, claim := BeforeLeasing(s, c), ClaimGarbage(s, now, limit, c);
            if claim.result.Err? then claim.state == s
            else
              && claim.state == AfterLeasing(ready, now, c)
              && claim.result.value.leases == Leases(ready.queue, c.leased, c.ids)
              && forall i | 0 <= i < |c.leased| :: ready.queue[c.leased[i]].attempts <= U32_MAX
  {
    hide ValidChoice, BeforeLeasing, AfterLeasing;
    ChoiceFits(s, now, limit, c);
    var leases := Leases(BeforeLeasing(s, c).queue, c.leased, c.ids);
    if ClaimGarbage(s, now, limit, c).result.Ok? {
      forall i | 0 <= i < |c.leased| ensures BeforeLeasing(s, c).queue[c.leased[i]].attempts <= U32_MAX {
        assert leases[i].attempts <= U32_MAX;
      }
    }
  }

  lemma DotRowHasNoFile(queue: map<string, QueueRow>, k: string)
    requires KeyedByGeneration(queue) && k in queue && IsDotScope(queue[k].gen.scope)
    ensures ObjectPath(k).None?
  {
    hide ObjectPath, ObjectKey, IsId;
    LocalKeyResolves(queue[k].gen);
  }

  lemma LeasingKeepsNamed(ready: State, now: Millis, c: ClaimChoice)
    requires AllQueued(ready.queue, c.leased) && |c.ids| == |c.leased| && Named(ready)
    ensures var u := AfterLeasing(ready, now, c);
            && Named(u) && u.reservations == ready.reservations
            && (forall k | k in ready.queue ::
                  k in u.queue && u.queue[k].gen == ready.queue[k].gen && u.queue[k].attempts == ready.queue[k].attempts)
  {
    hide MarkLeased, ObjectKey, IsId;
    MarkingKeepsRows(ready.queue, c.leased, c.ids, SatAdd(now, GC_LEASE_MS));
  }

  lemma SettlingKeepsUnsettled(
    ready: State, now: StoredMillis, c: ClaimChoice, stuck: set<string>, report: Report)
    requires AllQueued(ready.queue, c.leased) && |c.ids| == |c.leased| && Named(ready) && !AllSettle(ready)
    requires forall i | 0 <= i < |c.leased| :: ready.queue[c.leased[i]].attempts <= U32_MAX
    ensures var leases := Leases(ready.queue, c.leased, c.ids);
            !AllSettle(SettleLeases(AfterLeasing(ready, now, c), leases, now, stuck, report).state)
  {
    hide AfterLeasing, KeyedByGeneration, ObjectPath, SettleLeases, AllQueued;
    var leases, u := Leases(ready.queue, c.leased, c.ids), AfterLeasing(ready, now, c);
    LeasingKeepsNamed(ready, now, c);
    SettlingKeepsNamed(u, leases, now, stuck, report);
    if k :| k in ready.queue && !Settles(ready.queue[k]) {
      forall i | 0 <= i < |leases| ensures leases[i].objectKey == k ==> ObjectPath(k).None? {
        if leases[i].objectKey == k {
          DotRowHasNoFile(ready.queue, k);
        }
      }
      SettlingKeepsRow(u, leases, now, stuck, report, k);
    }
  }

  lemma DrainKeepsUnsettled(s: State, now: Millis, limit: nat, c: ClaimChoice, stuck: set<string>)
    requires Named(s) && (ValidGcRequest(now, limit) ==> ValidChoice(s, now, limit, c))
    ensures var t := DrainGarbage(s, now, limit, c, stuck).state;
            Named(t) && (!AllSettle(s) ==> !AllSettle(t))
  {
    if ValidGcRequest(now, limit) {
      ClaimResult(s, now, limit, c);
      var ready, claim := BeforeLeasing(s, c), ClaimGarbage(s, now, limit, c);
      if claim.result.Ok? {
        ReadyKeepsUnsettled(s, c);
        hide ValidChoice, ClaimGarbage, BeforeLeasing, AfterLeasing, Named, AllSettle, SettleLeases, AllQueued;
        LeasingKeepsNamed(ready, now, c);
        SettlingKeepsNamed(claim.state, claim.result.value.leases, now, stuck, claim.result.value.report);
        if !AllSettle(s) {
          SettlingKeepsUnsettled(ready, now, c, stuck, claim.result.value.report);
        }
      }
    }
  }

  lemma ReadyKeepsUnsettled(s: State, c: ClaimChoice)
    requires Named(s) && AllReserved(s, c.reaped)
    ensures Named(BeforeLeasing(s, c)) && (!AllSettle(s) ==> !AllSettle(BeforeLeasing(s, c)))
  {
    hide Reap, ObjectKey, IsId;
    ReapKeepsUnsettled(s, c.reaped);
  }

  lemma {:induction false} DrainsKeepUnsettled(ss: seq<State>, cs: seq<ClaimChoice>, now: Millis, limit: nat, n: nat)
    requires Drains(ss, cs, now, limit) && ValidGcRequest(now, limit) && n <= |cs|
    requires Named(ss[0]) && !AllSettle(ss[0])
    ensures |ss| == |cs| + 1 && Named(ss[n]) && !AllSettle(ss[n])
  {
    hide Named, AllSettle, ValidChoice, DrainGarbage, Drains;
    DrainsLength(ss, cs, now, limit);
    if n > 0 {
      DrainsKeepUnsettled(ss, cs, now, limit, n - 1);
      DrainAt(ss, cs, now, limit, n - 1);
      DrainKeepsUnsettled(ss[n - 1], now, limit, cs[n - 1], {});
    }
  }

  // ----- What such a row costs the others -----

  /** Settling ends with an error at the first lease whose key has no file; the leases before it are settled. */
  lemma {:induction false} SettlingStops(
    s: State, leases: seq<GarbageLease>, now: StoredMillis, stuck: set<string>, report: Report, d: nat)
    requires d < |leases| && ObjectPath(leases[d].objectKey).None?
    requires forall i | 0 <= i < d :: ObjectPath(leases[i].objectKey).Some?
    ensures SettleLeases(s, leases, now, stuck, report) ==
            Outcome(SettleLeases(s, leases[..d], now, stuck, report).state, Err(BodyMismatch))
    decreases |leases|
  {
    hide ObjectPath, FailLease, Acknowledge;
    if d == 0 {
      assert leases[..0] == [];
    } else {
      var first, file := leases[0], ObjectPath(leases[0].objectKey).value;
      assert leases[..d][0] == first && leases[..d][1..] == leases[1..][..d - 1] && leases[1..][d - 1] == leases[d];
      if file in stuck {
        SettlingStops(FailLease(s, first, now), leases[1..], now, stuck, report.(failed := report.failed + 1), d - 1);
      } else {
        SettlingStops(Acknowledge(s.(bodies := s.bodies - {file}), first), leases[1..], now, stuck,
                      report.(deleted := report.deleted + 1), d - 1);
      }
    }
  }

  lemma FirstRowsAreHeld(ready: State, now: Millis, c: ClaimChoice, d: nat)
    requires KeyedByGeneration(ready.queue) && AllQueued(ready.queue, c.leased) && |c.ids| == |c.leased|
    requires d <= |c.leased| && forall i | 0 <= i < d :: !IsDotScope(ready.queue[c.leased[i]].gen.scope)
    ensures AllHeld(AfterLeasing(ready, now, c), Leases(ready.queue, c.leased, c.ids)[..d])
  {
    hide MarkLeased, ObjectPath, KeyedByGeneration;
    MarkedRows(ready.queue, c.leased, c.ids, SatAdd(now, GC_LEASE_MS));
    var s, leases := AfterLeasing(ready, now, c), Leases(ready.queue, c.leased, c.ids);
    forall i | 0 <= i < d
      ensures HoldsLease(s, leases[i]) && ObjectPath(leases[i].objectKey) == Some(leases[i].objectKey)
    {
      PlainRowHasFile(ready.queue, c.leased[i]);
    }
  }

  lemma PlainRowHasFile(queue: map<string, QueueRow>, k: string)
    requires KeyedByGeneration(queue) && k in queue && !IsDotScope(queue[k].gen.scope)
    ensures ObjectPath(k) == Some(k)
  {
    hide ObjectPath, ObjectKey, IsId;
    LocalKeyResolves(queue[k].gen);
  }

  lemma FirstLeasedKeys(queue: map<string, QueueRow>, keys: seq<string>, ids: seq<string>, d: nat)
    requires AllQueued(queue, keys) && |ids| == |keys| && d <= |keys|
    ensures LeasedKeys(Leases(queue, keys, ids)[..d]) == Elements(keys[..d])
  {
    var leases := Leases(queue, keys, ids)[..d];
    forall k | k in keys[..d] ensures k in LeasedKeys(leases) {
      var i :| 0 <= i < d && keys[..d][i] == k;
      assert leases[i].objectKey == k;
    }
    forall k | k in LeasedKeys(leases) ensures k in keys[..d] {
      var i :| 0 <= i < d && leases[i].objectKey == k;
      assert keys[..d][i] == k;
    }
  }

  /** The queue after a drain that got through the first `d` of its leases. */
  predicate StoppedAt(before: map<string, QueueRow>, after: map<string, QueueRow>, now: Millis, c: ClaimChoice, d: nat)
    requires d <= |c.leased| && |c.ids| == |c.leased| && forall i | 0 <= i < |c.leased| :: c.leased[i] in before
  {
    && after.Keys == before.Keys - Elements(c.leased[..d])
    && (forall i | d <= i < |c.leased| ::
          && c.leased[i] in after
          && after[c.leased[i]] ==
             before[c.leased[i]].(lease := Some(LeaseMark(c.ids[i], SatAdd(now, GC_LEASE_MS)))))
    && (forall k | k in after && k !in c.leased :: after[k] == before[k])
  }

  lemma StoppedQueue(ready: State, now: Millis, c: ClaimChoice, d: nat)
    requires AllQueued(ready.queue, c.leased) && |c.ids| == |c.leased| && d <= |c.leased|
    ensures StoppedAt(ready.queue, AfterLeasing(ready, now, c).queue - Elements(c.leased[..d]), now, c, d)
  {
    hide MarkLeased;
    var until := SatAdd(now, GC_LEASE_MS);
    MarkedRows(ready.queue, c.leased, c.ids, until);
    MarkingKeepsRows(ready.queue, c.leased, c.ids, until);
    forall i | d <= i < |c.leased| ensures c.leased[i] !in c.leased[..d] {
      assert forall j | 0 <= j < d :: c.leased[..d][j] == c.leased[j];
    }
  }

  /**
   A drain that leases a row of a scope with `.` or `..` fails. It deletes exactly the bodies and
   rows leased before that row; that row and the ones leased after it stay, leased for another
   thirty seconds and with unchanged times and counters.
   */
  lemma DotRowStopsDrain(s: State, now: Millis, limit: nat, c: ClaimChoice, d: nat)
    requires Named(s) && ValidGcRequest(now, limit) && ValidChoice(s, now, limit, c) && ClaimFits(s, c)
    requires forall i | 0 <= i < |c.leased| :: BeforeLeasing(s, c).queue[c.leased[i]].attempts <= U32_MAX
    requires d < |c.leased| && IsDotScope(BeforeLeasing(s, c).queue[c.leased[d]].gen.scope)
    requires forall i | 0 <= i < d :: !IsDotScope(BeforeLeasing(s, c).queue[c.leased[i]].gen.scope)
    ensures var done := DrainGarbage(s, now, limit, c, {});
            && done.result == Err(BodyMismatch)
            && done.state.bodies == s.bodies - Elements(c.leased[..d])
            && StoppedAt(BeforeLeasing(s, c).queue, done.state.queue, now, c, d)
  {
    hide ValidChoice, BeforeLeasing, AfterLeasing, SettleLeases, Named, StoppedAt, ClaimGarbage, ObjectPath, AllQueued;
    var ready, claim := BeforeLeasing(s, c), ClaimGarbage(s, now, limit, c);
    ReadyKeepsUnsettled(s, c);
    ClaimWithin(s, now, limit, c);
    var leases := claim.result.value.leases;
    NamedIsKeyed(ready);
    FirstRowsAreHeld(ready, now, c, d);
    LeaseFiles(ready.queue, c.leased, c.ids, d);
    SettlingStops(claim.state, leases, now, {}, claim.result.value.report, d);
    HeldLeasesSettle(claim.state, leases[..d], now, claim.result.value.report);
    FirstLeasedKeys(ready.queue, c.leased, c.ids, d);
    StoppedQueue(ready, now, c, d);
    LeasingTouchesNoBody(s, now, c);
  }

  lemma LeasingTouchesNoBody(s: State, now: Millis, c: ClaimChoice)
    requires ClaimFits(s, c)
    ensures AfterLeasing(BeforeLeasing(s, c), now, c).bodies == s.bodies
  {
    hide Reap, MarkLeased;
  }

  lemma NamedIsKeyed(s: State)
    requires Named(s)
    ensures KeyedByGeneration(s.queue)
  {
  }

  lemma LeaseFiles(queue: map<string, QueueRow>, keys: seq<string>, ids: seq<string>, d: nat)
    requires KeyedByGeneration(queue) && AllQueued(queue, keys) && |ids| == |keys| && d < |keys|
    requires IsDotScope(queue[keys[d]].gen.scope) && forall i | 0 <= i < d :: !IsDotScope(queue[keys[i]].gen.scope)
    ensures var leases := Leases(queue, keys, ids);
            && ObjectPath(leases[d].objectKey).None?
            && forall i | 0 <= i < d :: ObjectPath(leases[i].objectKey).Some?
  {
    hide ObjectPath, KeyedByGeneration;
    DotRowHasNoFile(queue, keys[d]);
    var leases := Leases(queue, keys, ids);
    forall i | 0 <= i < d ensures ObjectPath(leases[i].objectKey).Some? {
      PlainRowHasFile(queue, keys[i]);
    }
  }

  lemma ClaimWithin(s: State, now: Millis, limit: nat, c: ClaimChoice)
    requires ValidGcRequest(now, limit) && ValidChoice(s, now, limit, c) && ClaimFits(s, c)
    requires forall i | 0 <= i < |c.leased| :: BeforeLeasing(s, c).queue[c.leased[i]].attempts <= U32_MAX
    ensures var ready, claim := BeforeLeasing(s, c), ClaimGarbage(s, now, limit, c);
            && claim.state == AfterLeasing(ready, now, c) && claim.result.Ok?
            && claim.result.value.leases == Leases(ready.queue, c.leased, c.ids)
  {
    hide ValidChoice, BeforeLeasing, AfterLeasing;
    assert forall i | 0 <= i < |c.leased| ::
      Leases(BeforeLeasing(s, c).queue, c.leased, c.ids)[i].attempts == BeforeLeasing(s, c).queue[c.leased[i]].attempts;
  }

  lemma {:induction false} ReapKeepsRow(s: State, keys: seq<PathKey>, k: string)
    requires AllReserved(s, keys) && k in s.queue
    requires forall p | p in s.reservations :: ReservedKey(s, p) != k
    ensures k in Reap(s, keys).queue && Reap(s, keys).queue[k] == s.queue[k]
  {
    if keys == [] {
      assert Reap(s, keys) == s;
    } else {
      hide ObjectKey, Reap;
      var n := |keys| - 1;
      ReapLast(s, keys);
      ReapKeepsRow(s, keys[..n], k);
      ReapShrinks(s, keys[..n]);
      assert ReservedKey(s, keys[n]) != k;
    }
  }

  lemma ReapShrinks(s: State, keys: seq<PathKey>)
    requires AllReserved(s, keys)
    ensures forall p | p in Reap(s, keys).reservations ::
              p in s.reservations && Reap(s, keys).reservations[p] == s.reservations[p]
  {
    hide Reap;
    assert Reap(s, keys).reservations == s.reservations - Elements(keys);
  }

  /** No drain at any time moves the row of such a scope: not its generation, its times or its attempts. */
  lemma DotRowNeverMoves(s: State, now: Millis, limit: nat, c: ClaimChoice, stuck: set<string>, k: string)
    requires Named(s) && (ValidGcRequest(now, limit) ==> ValidChoice(s, now, limit, c))
    requires k in s.queue && IsDotScope(s.queue[k].gen.scope)
    requires forall p | p in s.reservations :: ReservedKey(s, p) != k
    ensures var t := DrainGarbage(s, now, limit, c, stuck).state;
            k in t.queue && t.queue[k] == s.queue[k].(lease := t.queue[k].lease)
  {
    hide ValidChoice, AfterLeasing, SettleLeases, ClaimGarbage, ObjectPath, AllQueued, Reap, ObjectKey, KeyedByGeneration;
    if ValidGcRequest(now, limit) {
      ClaimResult(s, now, limit, c);
      var ready, claim := BeforeLeasing(s, c), ClaimGarbage(s, now, limit, c);
      if claim.result.Ok? {
        ReapKeepsRow(s, c.reaped, k);
        DotRowHasNoFile(s.queue, k);
        LeasingKeepsTimes(ready, now, c, k);
        SettlingKeepsRow(claim.state, claim.result.value.leases, now, stuck, claim.result.value.report, k);
      }
    } else {
      InvalidDrain(s, now, limit, c, stuck);
    }
  }

  lemma InvalidDrain(s: State, now: Millis, limit: nat, c: ClaimChoice, stuck: set<string>)
    requires !ValidGcRequest(now, limit)
    ensures DrainGarbage(s, now, limit, c, stuck) == Outcome(s, Err(Invalid))
  {
    hide ValidChoice;
  }

  lemma LeasingKeepsTimes(ready: State, now: Millis, c: ClaimChoice, k: string)
    requires AllQueued(ready.queue, c.leased) && |c.ids| == |c.leased| && k in ready.queue
    ensures var q := AfterLeasing(ready, now, c).queue; k in q && q[k] == ready.queue[k].(lease := q[k].lease)
  {
    hide MarkLeased;
    MarkingKeepsRows(ready.queue, c.leased, c.ids, SatAdd(now, GC_LEASE_MS));
  }

  // ----- Bodies that no row expects -----

  predicate IsUnlisted(s: State, key: string) {
    key in s.bodies && key !in ListedKeys(s)
  }

  lemma RetireListsNoMore(s: State, p: PathKey)
    requires p in s.reservations
    ensures ListedKeys(Retire(s, p)) <= ListedKeys(s)
  {
    hide ObjectKey, SatAdd;
    var t := Retire(s, p);
    assert ReservedKey(s, p) in ReservedKeys(s);
    assert t.queue.Keys <= s.queue.Keys + {ReservedKey(s, p)};
    forall q | q in t.reservations ensures ReservedKey(t, q) in ReservedKeys(s) {
      assert ReservedKey(t, q) == ReservedKey(s, q);
    }
    hide ReservedKey;
    assert PublishedKeys(t) == PublishedKeys(s);
  }

  lemma {:induction false} ReapListsNoMore(s: State, keys: seq<PathKey>)
    requires AllReserved(s, keys)
    ensures ListedKeys(Reap(s, keys)) <= ListedKeys(s)
  {
    if keys == [] {
      assert Reap(s, keys) == s;
    } else {
      hide ListedKeys, Reap, Retire;
      ReapLast(s, keys);
      ReapListsNoMore(s, keys[..|keys| - 1]);
      RetireListsNoMore(Reap(s, keys[..|keys| - 1]), keys[|keys| - 1]);
    }
  }

  lemma FewerRowsListNoMore(s: State, t: State)
    requires t.paths == s.paths && t.reservations == s.reservations && t.queue.Keys <= s.queue.Keys
    ensures ListedKeys(t) <= ListedKeys(s)
  {
    hide ReservedKey;
    assert forall p | p in s.reservations :: ReservedKey(t, p) == ReservedKey(s, p) by {
      forall p | p in s.reservations ensures ReservedKey(t, p) == ReservedKey(s, p) {
        SameReservedKey(s, t, p);
      }
    }
    assert PublishedKeys(t) == PublishedKeys(s) && ReservedKeys(t) == ReservedKeys(s);
  }

  lemma SettledLeaseListsNoMore(s: State, lease: GarbageLease, now: StoredMillis, gone: set<string>)
    ensures ListedKeys(FailLease(s, lease, now)) <= ListedKeys(s) && FailLease(s, lease, now).bodies == s.bodies
    ensures var t := Acknowledge(s.(bodies := s.bodies - gone), lease);
            ListedKeys(t) <= ListedKeys(s) && t.bodies == s.bodies - gone
  {
    hide ListedKeys, FailLease, Acknowledge;
    FailTouchesOneRow(s, lease, now);
    AckTouchesOneRow(s.(bodies := s.bodies - gone), lease);
    FewerRowsListNoMore(s, FailLease(s, lease, now));
    FewerRowsListNoMore(s, Acknowledge(s.(bodies := s.bodies - gone), lease));
  }

  lemma {:induction false} SettlingKeepsUnlisted(
    s: State, leases: seq<GarbageLease>, now: StoredMillis, stuck: set<string>, report: Report, key: string)
    requires IsUnlisted(s, key)
    requires forall i | 0 <= i < |leases| :: ObjectPath(leases[i].objectKey) != Some(key)
    ensures IsUnlisted(SettleLeases(s, leases, now, stuck, report).state, key)
    decreases |leases|
  {
    hide ObjectPath, FailLease, Acknowledge, ListedKeys;
    if leases != [] && ObjectPath(leases[0].objectKey).Some? {
      var first, file := leases[0], ObjectPath(leases[0].objectKey).value;
      SettledLeaseListsNoMore(s, first, now, {file});
      if file in stuck {
        SettlingKeepsUnlisted(FailLease(s, first, now), leases[1..], now, stuck, report.(failed := report.failed + 1), key);
      } else {
        SettlingKeepsUnlisted(Acknowledge(s.(bodies := s.bodies - {file}), first), leases[1..], now, stuck,
                              report.(deleted := report.deleted + 1), key);
      }
    }
  }

  lemma RowFile(queue: map<string, QueueRow>, k: string)
    requires KeyedByGeneration(queue) && k in queue
    ensures ObjectPath(k).None? || ObjectPath(k) == Some(k)
  {
    hide ObjectPath, ObjectKey, IsId;
    LocalKeyResolves(queue[k].gen);
  }

  lemma LeasingKeepsUnlisted(s: State, now: Millis, c: ClaimChoice, key: string)
    requires IsUnlisted(s, key) && ClaimFits(s, c) && KeyedByGeneration(BeforeLeasing(s, c).queue)
    ensures IsUnlisted(AfterLeasing(BeforeLeasing(s, c), now, c), key)
    ensures forall i | 0 <= i < |c.leased| :: ObjectPath(c.leased[i]) != Some(key)
  {
    hide Reap, MarkLeased, ObjectPath, KeyedByGeneration, ReservedKeys, PublishedKeys;
    ReapListsNoMore(s, c.reaped);
    var ready := BeforeLeasing(s, c);
    FewerRowsListNoMore(Reap(s, c.reaped), ready);
    FewerRowsListNoMore(ready, AfterLeasing(ready, now, c));
    forall i | 0 <= i < |c.leased| ensures ObjectPath(c.leased[i]) != Some(key) {
      RowFile(ready.queue, c.leased[i]);
      assert c.leased[i] in ListedKeys(ready);
    }
  }

  /** A body that no row expects stays through any drain at any time. */
  lemma DrainKeepsUnlisted(s: State, now: Millis, limit: nat, c: ClaimChoice, stuck: set<string>, key: string)
    requires Named(s) && (ValidGcRequest(now, limit) ==> ValidChoice(s, now, limit, c)) && IsUnlisted(s, key)
    ensures Named(DrainGarbage(s, now, limit, c, stuck).state)
    ensures IsUnlisted(DrainGarbage(s, now, limit, c, stuck).state, key)
  {
    hide ValidChoice, ClaimGarbage, BeforeLeasing, AfterLeasing, Named;
    hide SettleLeases, AllSettle, IsUnlisted, ObjectPath, AllQueued;
    DrainKeepsUnsettled(s, now, limit, c, stuck);
    if ValidGcRequest(now, limit) {
      ClaimResult(s, now, limit, c);
      var claim := ClaimGarbage(s, now, limit, c);
      if claim.result.Ok? {
        ReadyKeepsUnsettled(s, c);
        NamedIsKeyed(BeforeLeasing(s, c));
        LeasingKeepsUnlisted(s, now, c, key);
        SettlingKeepsUnlisted(claim.state, claim.result.value.leases, now, stuck, claim.result.value.report, key);
      }
    } else {
      InvalidDrain(s, now, limit, c, stuck);
    }
  }

  lemma {:induction false} DrainsKeepUnlisted(
    ss: seq<State>, cs: seq<ClaimChoice>, now: Millis, limit: nat, n: nat, key: string)
    requires Drains(ss, cs, now, limit) && ValidGcRequest(now, limit) && n <= |cs|
    requires Named(ss[0]) && IsUnlisted(ss[0], key)
    ensures |ss| == |cs| + 1 && Named(ss[n]) && IsUnlisted(ss[n], key)
  {
    hide Named, IsUnlisted, ValidChoice, DrainGarbage, Drains;
    DrainsLength(ss, cs, now, limit);
    if n > 0 {
      DrainsKeepUnlisted(ss, cs, now, limit, n - 1, key);
      DrainAt(ss, cs, now, limit, n - 1);
      DrainKeepsUnlisted(ss[n - 1], now, limit, cs[n - 1], {}, key);
    }
  }
}
