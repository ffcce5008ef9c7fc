/**
 What one claim and one drain get through: which expired rows they take out, the earliest ones
 first and all of them where the batch has room, which rows they lease, and that their reports
 count exactly that.
 */
module Cleanup {
  import opened Wrappers
  import opened Keys
  import opened Catalog
  import opened Generations
  import opened Safety
  import opened LeaseRules
  import opened Draining

  // ----- Bounded cleaning of a table -----

  /**
   Of the rows with these times only `rest` is left: at most `limit` expired rows are gone, the
   earliest ones, and none that is expired is left if there was room for it.
   */
  predicate IsCleaned<K>(times: map<K, int>, rest: set<K>, now: int, limit: nat) {
    && rest <= times.Keys && |times| - |rest| <= limit
    && (forall k | k in times && k !in rest :: times[k] <= now)
    && (|times| - |rest| < limit ==> forall k | k in rest :: times[k] > now)
    && (forall k, q | k in times && k !in rest && q in rest && times[q] <= now :: times[k] <= times[q])
  }

  /** The rows that are expired. */
  function Due<K>(times: map<K, int>, now: int): map<K, int> {
    map k | k in times && times[k] <= now :: times[k]
  }

  lemma RestCounts<K>(times: map<K, int>, now: int, chosen: seq<K>)
    requires Distinct(chosen) && forall i | 0 <= i < |chosen| :: chosen[i] in Due(times, now)
    ensures Elements(chosen) <= Due(times, now).Keys <= times.Keys && |Elements(chosen)| == |chosen|
    ensures |times| - |times.Keys - Elements(chosen)| == |chosen|
  {
    DistinctElements(chosen);
    hide Distinct;
    var gone, rest := Elements(chosen), times.Keys - Elements(chosen);
    assert gone <= Due(times, now).Keys;
    assert times.Keys == rest + gone && |times.Keys| == |rest| + |gone|;
  }

  lemma ChosenAreEarliest<K>(times: map<K, int>, chosen: seq<K>, now: int, limit: nat, k: K, q: K)
    requires FirstDue(chosen, Due(times, now), limit)
    requires k in chosen && q in times && q !in chosen && times[q] <= now
    ensures k in times && times[k] <= times[q]
  {
    hide Distinct;
    var i :| 0 <= i < |chosen| && chosen[i] == k;
    var due := Due(times, now);
    assert q in due && due[chosen[i]] <= due[q];
  }

  lemma AllAreChosen<K>(times: map<K, int>, chosen: seq<K>, now: int, limit: nat)
    requires FirstDue(chosen, Due(times, now), limit) && |chosen| < limit
    ensures Elements(chosen) == Due(times, now).Keys
  {
    RestCounts(times, now, chosen);
    assert |Due(times, now).Keys| == |Due(times, now)|;
    EqualSets(Elements(chosen), Due(times, now).Keys);
  }

  lemma LeftOver<K>(times: map<K, int>, chosen: seq<K>, now: int, limit: nat)
    requires FirstDue(chosen, Due(times, now), limit) && |chosen| < limit
    ensures forall k | k in times && k !in chosen :: times[k] > now
  {
    hide FirstDue;
    AllAreChosen(times, chosen, now, limit);
    forall k | k in times && k !in chosen ensures times[k] > now {
      assert k !in Elements(chosen) && k !in Due(times, now);
    }
  }

  lemma ChosenAreDue<K>(times: map<K, int>, chosen: seq<K>, now: int, limit: nat)
    requires FirstDue(chosen, Due(times, now), limit)
    ensures |chosen| <= limit && Distinct(chosen) && forall i | 0 <= i < |chosen| :: chosen[i] in Due(times, now)
    ensures forall k | k in chosen :: k in times && times[k] <= now
  {
    hide Distinct;
  }

  lemma FirstDueCleans<K>(times: map<K, int>, chosen: seq<K>, now: int, limit: nat)
    requires FirstDue(chosen, Due(times, now), limit)
    ensures IsCleaned(times, times.Keys - Elements(chosen), now, limit)
    ensures |times| - |times.Keys - Elements(chosen)| == |chosen|
  {
    hide FirstDue, Distinct, Due;
    ChosenAreDue(times, chosen, now, limit);
    RestCounts(times, now, chosen);
    if |chosen| < limit {
      LeftOver(times, chosen, now, limit);
    }
    var rest := times.Keys - Elements(chosen);
    forall k, q | k in times && k !in rest && q in rest && times[q] <= now ensures times[k] <= times[q] {
      ChosenAreEarliest(times, chosen, now, limit, k, q);
    }
  }

  lemma EqualSets<K>(a: set<K>, b: set<K>)
    requires a <= b && |a| == |b|
    ensures a == b
  {
    assert b == a + (b - a) && |b - a| == 0;
  }

  // ----- What a claim takes out -----

  function Expiries(rows: map<PathKey, ReservationRow>): map<PathKey, int> { map p | p in rows :: rows[p].expiresAt }

  function RetentionEnds(rows: map<Generation, RetentionRow>): map<Generation, int> {
    map g | g in rows :: rows[g].retainUntil
  }

  function ReceiptEnds(rows: map<RequestKey, ReservationReceipt>): map<RequestKey, int> {
    map k | k in rows :: rows[k].retainUntil
  }

  function PublicationEnds(rows: map<TokenKey, PublicationReceipt>): map<TokenKey, int> {
    map k | k in rows :: rows[k].retainUntil
  }

  /** Of the rows with these times only `rest` is left, each as it was. */
  ghost predicate IsCut<K, V>(rows: map<K, V>, rest: map<K, V>, times: map<K, int>, now: int, limit: nat) {
    IsCleaned(times, rest.Keys, now, limit) && rest == rows - (rows.Keys - rest.Keys)
  }

  /** A claim of the tables `s` that went through left the tables `t` and this report. */
  ghost predicate IsClaim(s: State, t: State, now: Millis, report: Report) {
    && IsCut(s.reservations, t.reservations, Expiries(s.reservations), now, 100)
    && IsCut(s.retentions, t.retentions, RetentionEnds(s.retentions), now, 100)
    && IsCut(s.receipts, t.receipts, ReceiptEnds(s.receipts), now, 100)
    && |s.receipts| - |t.receipts| <= 100
    && IsCut(s.publications, t.publications, PublicationEnds(s.publications), now, 100 - (|s.receipts| - |t.receipts|))
    && t.paths == s.paths && t.bodies == s.bodies
    && report.expiredReservations == |s.reservations| - |t.reservations|
    && report.prunedReadRetentions == |s.retentions| - |t.retentions|
    && report.prunedReceipts == |s.receipts| - |t.receipts| + |s.publications| - |t.publications|
    && report.deleted == 0 && report.failed == 0
  }

  lemma TakenOut<K, V>(rows: map<K, V>, gone: set<K>)
    ensures rows - gone == rows - (rows.Keys - (rows - gone).Keys) && (rows - gone).Keys == rows.Keys - gone
    ensures |rows - gone| == |rows.Keys - gone|
  {
    assert |(rows - gone).Keys| == |rows - gone|;
  }

  lemma SameSize<K, V>(rows: map<K, V>, times: map<K, int>)
    requires times.Keys == rows.Keys
    ensures |times| == |rows|
  {
    assert |times.Keys| == |times| && |rows.Keys| == |rows|;
  }

  lemma ReservationsAreDue(s: State, now: Millis, limit: nat, c: ClaimChoice)
    requires ValidChoice(s, now, limit, c)
    ensures FirstDue(c.reaped, Due(Expiries(s.reservations), now), 100)
  {
    hide BeforeLeasing, AllReserved, AllQueued, Fresh, FirstDue;
    assert DueReservations(s.reservations, now) == Due(Expiries(s.reservations), now);
  }

  lemma ClaimCleansReservations(s: State, now: Millis, limit: nat, c: ClaimChoice)
    requires ValidChoice(s, now, limit, c)
    ensures var rest := s.reservations - Elements(c.reaped);
            IsCut(s.reservations, rest, Expiries(s.reservations), now, 100) && |s.reservations| - |rest| == |c.reaped|
  {
    hide ValidChoice, FirstDue, IsCleaned, Elements, Due;
    ReservationsAreDue(s, now, limit, c);
    FirstDueCleans(Expiries(s.reservations), c.reaped, now, 100);
    TakenOut(s.reservations, Elements(c.reaped));
    SameSize(s.reservations, Expiries(s.reservations));
  }

  lemma RetentionsAreDue(s: State, now: Millis, limit: nat, c: ClaimChoice)
    requires ValidChoice(s, now, limit, c)
    ensures FirstDue(c.retentions, Due(RetentionEnds(s.retentions), now), 100)
  {
    hide BeforeLeasing, AllReserved, AllQueued, Fresh, FirstDue;
    assert DueRetentions(s.retentions, now) == Due(RetentionEnds(s.retentions), now);
  }

  lemma ClaimCleansRetentions(s: State, now: Millis, limit: nat, c: ClaimChoice)
    requires ValidChoice(s, now, limit, c)
    ensures var rest := s.retentions - Elements(c.retentions);
            IsCut(s.retentions, rest, RetentionEnds(s.retentions), now, 100) && |s.retentions| - |rest| == |c.retentions|
  {
    hide ValidChoice, FirstDue, IsCleaned, Elements, Due;
    RetentionsAreDue(s, now, limit, c);
    FirstDueCleans(RetentionEnds(s.retentions), c.retentions, now, 100);
    TakenOut(s.retentions, Elements(c.retentions));
    SameSize(s.retentions, RetentionEnds(s.retentions));
  }

  lemma ReceiptsAreDue(s: State, now: Millis, limit: nat, c: ClaimChoice)
    requires ValidChoice(s, now, limit, c)
    ensures FirstDue(c.receipts, Due(ReceiptEnds(s.receipts), now), 100)
  {
    hide BeforeLeasing, AllReserved, AllQueued, Fresh, FirstDue;
    assert DueReceipts(s.receipts, now) == Due(ReceiptEnds(s.receipts), now);
  }

  lemma ClaimCleansReceipts(s: State, now: Millis, limit: nat, c: ClaimChoice)
    requires ValidChoice(s, now, limit, c)
    ensures var rest := s.receipts - Elements(c.receipts);
            IsCut(s.receipts, rest, ReceiptEnds(s.receipts), now, 100) && |s.receipts| - |rest| == |c.receipts|
  {
    hide ValidChoice, FirstDue, IsCleaned, Elements, Due;
    ReceiptsAreDue(s, now, limit, c);
    FirstDueCleans(ReceiptEnds(s.receipts), c.receipts, now, 100);
    TakenOut(s.receipts, Elements(c.receipts));
    SameSize(s.receipts, ReceiptEnds(s.receipts));
  }

  lemma PublicationsAreDue(s: State, now: Millis, limit: nat, c: ClaimChoice)
    requires ValidChoice(s, now, limit, c)
    ensures |c.receipts| <= 100 && FirstDue(c.publications, Due(PublicationEnds(s.publications), now), 100 - |c.receipts|)
  {
    hide BeforeLeasing, AllReserved, AllQueued, Fresh, FirstDue;
    assert DuePublications(s.publications, now) == Due(PublicationEnds(s.publications), now);
  }

  lemma ClaimCleansPublications(s: State, now: Millis, limit: nat, c: ClaimChoice)
    requires ValidChoice(s, now, limit, c)
    ensures var rest := s.publications - Elements(c.publications);
            && |c.receipts| <= 100
            && IsCut(s.publications, rest, PublicationEnds(s.publications), now, 100 - |c.receipts|)
            && |s.publications| - |rest| == |c.publications|
  {
    hide ValidChoice, FirstDue, IsCleaned, Elements, Due;
    PublicationsAreDue(s, now, limit, c);
    FirstDueCleans(PublicationEnds(s.publications), c.publications, now, 100 - |c.receipts|);
    TakenOut(s.publications, Elements(c.publications));
    SameSize(s.publications, PublicationEnds(s.publications));
  }

  /** The tables without the chosen rows; the queue and the minted tokens are another matter. */
  predicate IsWithoutChosen(s: State, t: State, c: ClaimChoice) {
    && t.reservations == s.reservations - Elements(c.reaped) && t.retentions == s.retentions - Elements(c.retentions)
    && t.receipts == s.receipts - Elements(c.receipts) && t.publications == s.publications - Elements(c.publications)
    && t.paths == s.paths && t.bodies == s.bodies
  }

  lemma ClaimWrites(s: State, now: Millis, limit: nat, c: ClaimChoice)
    requires ValidGcRequest(now, limit) && ValidChoice(s, now, limit, c) && ClaimGarbage(s, now, limit, c).result.Ok?
    ensures IsWithoutChosen(s, ClaimGarbage(s, now, limit, c).state, c)
    ensures var claim := ClaimGarbage(s, now, limit, c).result.value;
            claim.report == Report(|c.reaped|, |claim.leases|, 0, 0, |c.receipts| + |c.publications|, |c.retentions|)
  {
    hide ValidChoice, Reap, MarkLeased, AllQueued, AllReserved, Elements;
    ChoiceFits(s, now, limit, c);
  }

  lemma ChosenRowsAreCut(s: State, t: State, now: Millis, limit: nat, c: ClaimChoice, report: Report)
    requires ValidChoice(s, now, limit, c) && IsWithoutChosen(s, t, c)
    requires report == Report(|c.reaped|, report.claimed, 0, 0, |c.receipts| + |c.publications|, |c.retentions|)
    ensures IsClaim(s, t, now, report)
  {
    hide ValidChoice, IsCut, Elements, Expiries, RetentionEnds, ReceiptEnds, PublicationEnds;
    ClaimCleansReservations(s, now, limit, c);
    ClaimCleansRetentions(s, now, limit, c);
    ClaimCleansReceipts(s, now, limit, c);
    ClaimCleansPublications(s, now, limit, c);
  }

  /**
   A claim that goes through takes out the earliest expired reservations, retentions and receipts,
   a hundred of each table at most, the two receipt tables together, and reports how many; it takes
   out nothing else and leaves no expired row behind where its batch has room.
   */
  lemma ClaimCleansUp(s: State, now: Millis, limit: nat, c: ClaimChoice)
    requires ValidGcRequest(now, limit) && ValidChoice(s, now, limit, c) && ClaimGarbage(s, now, limit, c).result.Ok?
    ensures IsClaim(s, ClaimGarbage(s, now, limit, c).state, now, ClaimGarbage(s, now, limit, c).result.value.report)
  {
    hide ValidChoice, ClaimGarbage, IsWithoutChosen, IsClaim;
    ClaimWrites(s, now, limit, c);
    var done := ClaimGarbage(s, now, limit, c);
    ChosenRowsAreCut(s, done.state, now, limit, c, done.result.value.report);
  }

  /** The attempts of a row that is there, and none for one that is not. */
  function AttemptsOf(queue: map<string, QueueRow>, k: string): nat {
    if k in queue then queue[k].attempts else 0
  }

  lemma RetireKeepsAttempts(s: State, p: PathKey, k: string)
    requires p in s.reservations
    ensures AttemptsOf(Retire(s, p).queue, k) == AttemptsOf(s.queue, k)
  {
    hide ObjectKey, SatAdd;
  }

  lemma {:induction false} ReapKeepsAttempts(s: State, keys: seq<PathKey>, k: string)
    requires AllReserved(s, keys)
    ensures AttemptsOf(Reap(s, keys).queue, k) == AttemptsOf(s.queue, k)
  {
    if keys == [] {
      assert Reap(s, keys) == s;
    } else {
      hide Retire, AttemptsOf;
      var n := |keys| - 1;
      assert keys[n] !in keys[..n];
      ReapKeepsAttempts(s, keys[..n], k);
      RetireKeepsAttempts(Reap(s, keys[..n]), keys[n], k);
    }
  }

  lemma LeaseHasAttempts(s: State, now: Millis, limit: nat, c: ClaimChoice, i: nat)
    requires ValidChoice(s, now, limit, c) && i < |c.leased|
    ensures ClaimFits(s, c) && i < |Leases(BeforeLeasing(s, c).queue, c.leased, c.ids)|
    ensures Leases(BeforeLeasing(s, c).queue, c.leased, c.ids)[i].attempts == AttemptsOf(s.queue, c.leased[i])
  {
    hide ValidChoice, Reap;
    ChoiceFits(s, now, limit, c);
    ReapKeepsAttempts(s, c.reaped, c.leased[i]);
  }

  lemma LeasesHaveAttempts(s: State, now: Millis, limit: nat, c: ClaimChoice)
    requires ValidChoice(s, now, limit, c)
    ensures ClaimFits(s, c)
    ensures var leases := Leases(BeforeLeasing(s, c).queue, c.leased, c.ids);
            |leases| == |c.leased| && forall i | 0 <= i < |leases| :: leases[i].attempts == AttemptsOf(s.queue, c.leased[i])
  {
    hide ValidChoice, BeforeLeasing, AttemptsOf, AllQueued, AllReserved;
    ChoiceFits(s, now, limit, c);
    forall i | 0 <= i < |c.leased|
      ensures Leases(BeforeLeasing(s, c).queue, c.leased, c.ids)[i].attempts == AttemptsOf(s.queue, c.leased[i])
    {
      LeaseHasAttempts(s, now, limit, c, i);
    }
  }

  /**
   A claim goes through exactly at a positive time, for one lease to a hundred, and if no row that
   it would lease has more attempts than its counter holds; any other changes nothing.
   */
  lemma ClaimSucceedsIff(s: State, now: Millis, limit: nat, c: ClaimChoice)
    requires ValidGcRequest(now, limit) ==> ValidChoice(s, now, limit, c)
    ensures var done := ClaimGarbage(s, now, limit, c);
            && (done.result.Ok? <==>
                  && 0 < now && 0 < limit <= 100
                  && forall i | 0 <= i < |c.leased| :: AttemptsOf(s.queue, c.leased[i]) <= 0xFFFF_FFFF)
            && (done.result.Err? ==> done.state == s)
            && (done.result == Err(Invalid) <==> now <= 0 || limit == 0 || limit > 100)
  {
    hide ValidChoice, BeforeLeasing, AfterLeasing, AttemptsOf, AllQueued, AllReserved, Leases;
    if ValidGcRequest(now, limit) {
      LeasesHaveAttempts(s, now, limit, c);
    }
  }

  // ----- What a claim leases -----

  /** The row is due and free, and no publication, reservation or lasting retention needs its body. */
  predicate IsLeasable(t: State, k: string, row: QueueRow, now: Millis) {
    && row.notBefore <= now && row.nextAttempt <= now && (row.lease.None? || row.lease.value.until <= now)
    && (forall p | p in t.paths :: t.paths[p].objectKey != k)
    && (forall p | p in t.reservations :: Generation(p.scope, t.reservations[p].generation) != row.gen)
    && (row.gen in t.retentions ==> t.retentions[row.gen].retainUntil <= now)
  }

  /** The lease is on the row for thirty seconds, and says what the row says. */
  predicate IsOnRow(t: State, lease: GarbageLease, now: Millis) {
    && lease.objectKey in t.queue
    && var row := t.queue[lease.objectKey];
       && row.lease == Some(LeaseMark(lease.token, SatAdd(now, 30_000)))
       && row.gen == lease.gen && row.attempts == lease.attempts
       && IsLeasable(t, lease.objectKey, row.(lease := None), now)
  }

  predicate IsLeasedBy(leases: seq<GarbageLease>, k: string) {
    exists i | 0 <= i < |leases| :: leases[i].objectKey == k
  }

  /** Each lease is on a row of its own, and a row left out comes no earlier than those leased. */
  predicate AreFirstLeases(t: State, leases: seq<GarbageLease>, now: Millis, limit: nat) {
    && |leases| <= limit
    && (forall i | 0 <= i < |leases| :: IsOnRow(t, leases[i], now))
    && (forall i, j | 0 <= i < j < |leases| :: leases[i].objectKey != leases[j].objectKey)
    && (forall k | k in t.queue && !IsLeasedBy(leases, k) && IsLeasable(t, k, t.queue[k], now) ::
          && |leases| == limit
          && forall i | 0 <= i < |leases| && leases[i].objectKey in t.queue ::
               t.queue[leases[i].objectKey].nextAttempt <= t.queue[k].nextAttempt)
  }

  lemma LeasableIff(ready: State, t: State, k: string, row: QueueRow, now: Millis)
    requires t.paths == ready.paths && t.reservations == ready.reservations && t.retentions == ready.retentions
    ensures CanLease(k, row, ready.paths, ready.reservations, ready.retentions, now) <==> IsLeasable(t, k, row, now)
  {
  }

  lemma MarkedRow(ready: State, now: Millis, c: ClaimChoice, i: nat)
    requires AllQueued(ready.queue, c.leased) && |c.ids| == |c.leased| && i < |c.leased|
    ensures var q, k := AfterLeasing(ready, now, c).queue, c.leased[i];
            k in q && k in ready.queue
            && q[k] == ready.queue[k].(lease := Some(LeaseMark(c.ids[i], SatAdd(now, GC_LEASE_MS))))
  {
    hide MarkLeased;
    MarkedRows(ready.queue, c.leased, c.ids, SatAdd(now, GC_LEASE_MS));
    MarkingKeepsRows(ready.queue, c.leased, c.ids, SatAdd(now, GC_LEASE_MS));
  }

  lemma UnmarkedRow(ready: State, now: Millis, c: ClaimChoice, k: string)
    requires AllQueued(ready.queue, c.leased) && |c.ids| == |c.leased| && k !in c.leased
    ensures var q := AfterLeasing(ready, now, c).queue;
            (k in q <==> k in ready.queue) && (k in q ==> q[k] == ready.queue[k])
  {
    hide MarkLeased;
    MarkedRows(ready.queue, c.leased, c.ids, SatAdd(now, GC_LEASE_MS));
  }

  lemma LeaseIsOnRow(s: State, now: Millis, limit: nat, c: ClaimChoice, i: nat)
    requires ValidChoice(s, now, limit, c) && ClaimFits(s, c) && i < |c.leased|
    ensures IsOnRow(AfterLeasing(BeforeLeasing(s, c), now, c), Leases(BeforeLeasing(s, c).queue, c.leased, c.ids)[i], now)
  {
    hide ValidChoice, BeforeLeasing, IsLeasable, CanLease;
    var ready := BeforeLeasing(s, c);
    var t, k := AfterLeasing(ready, now, c), c.leased[i];
    LeasedRowsWereDue(s, now, limit, c, i);
    MarkedRow(ready, now, c, i);
    LeasableIff(ready, t, k, ready.queue[k], now);
    UnleasedIsLeasable(t, k, ready.queue[k], now);
  }

  lemma UnleasedIsLeasable(t: State, k: string, row: QueueRow, now: Millis)
    requires IsLeasable(t, k, row, now)
    ensures IsLeasable(t, k, row.(lease := None), now)
  {
  }

  lemma LeftOutIsLater(s: State, now: Millis, limit: nat, c: ClaimChoice, k: string)
    requires ValidChoice(s, now, limit, c) && ClaimFits(s, c) && k !in c.leased
    requires var t := AfterLeasing(BeforeLeasing(s, c), now, c); k in t.queue && IsLeasable(t, k, t.queue[k], now)
    ensures var q := AfterLeasing(BeforeLeasing(s, c), now, c).queue;
            && |c.leased| == limit
            && forall i | 0 <= i < |c.leased| :: c.leased[i] in q && q[c.leased[i]].nextAttempt <= q[k].nextAttempt
  {
    hide ValidChoice, BeforeLeasing, IsLeasable, AfterLeasing;
    var ready := BeforeLeasing(s, c);
    var t := AfterLeasing(ready, now, c);
    UnmarkedRow(ready, now, c, k);
    SameButQueue(ready, now, c);
    LeasableIff(ready, t, k, ready.queue[k], now);
    LeftOutOfQuery(s, now, limit, c, k);
    forall i | 0 <= i < |c.leased|
      ensures c.leased[i] in t.queue && t.queue[c.leased[i]].nextAttempt <= t.queue[k].nextAttempt
    {
      MarkedRow(ready, now, c, i);
    }
  }

  lemma SameButQueue(ready: State, now: Millis, c: ClaimChoice)
    requires AllQueued(ready.queue, c.leased) && |c.ids| == |c.leased|
    ensures var t := AfterLeasing(ready, now, c);
            t.paths == ready.paths && t.reservations == ready.reservations && t.retentions == ready.retentions
  {
    hide MarkLeased, AllQueued;
  }

  lemma LeftOutOfQuery(s: State, now: Millis, limit: nat, c: ClaimChoice, k: string)
    requires ValidChoice(s, now, limit, c) && ClaimFits(s, c) && k !in c.leased
    requires var ready := BeforeLeasing(s, c);
             k in ready.queue
             && CanLease(k, ready.queue[k], ready.paths, ready.reservations, ready.retentions, now)
    ensures |c.leased| == limit
    ensures forall i | 0 <= i < |c.leased| ::
              c.leased[i] in BeforeLeasing(s, c).queue
              && BeforeLeasing(s, c).queue[c.leased[i]].nextAttempt <= BeforeLeasing(s, c).queue[k].nextAttempt
  {
    hide BeforeLeasing, CanLease, Fresh, AllReserved;
    var due := DueLeases(BeforeLeasing(s, c), now);
    assert k in due;
    DistinctElements(c.leased);
    if |c.leased| == |due| {
      assert Elements(c.leased) <= due.Keys && |due.Keys| == |due|;
      EqualSets(Elements(c.leased), due.Keys);
    }
  }

  /**
   A claim that goes through leases rows that are due and that nothing needs, each for thirty
   seconds, the earliest retries first, and leaves such a row out only if it leased as many as
   asked for.
   */
  lemma ClaimLeasesFirst(s: State, now: Millis, limit: nat, c: ClaimChoice)
    requires ValidGcRequest(now, limit) && ValidChoice(s, now, limit, c) && ClaimGarbage(s, now, limit, c).result.Ok?
    ensures var done := ClaimGarbage(s, now, limit, c);
            && AreFirstLeases(done.state, done.result.value.leases, now, limit)
            && done.result.value.report.claimed == |done.result.value.leases|
  {
    hide ValidChoice, BeforeLeasing, AfterLeasing, IsOnRow, IsLeasable, AllQueued;
    ChoiceFits(s, now, limit, c);
    var ready := BeforeLeasing(s, c);
    var t, leases := AfterLeasing(ready, now, c), Leases(ready.queue, c.leased, c.ids);
    LeasedAtMost(s, now, limit, c);
    forall i | 0 <= i < |leases| ensures IsOnRow(t, leases[i], now) {
      LeaseIsOnRow(s, now, limit, c, i);
    }
    forall k | k in t.queue && !IsLeasedBy(leases, k) && IsLeasable(t, k, t.queue[k], now)
      ensures |leases| == limit
      ensures forall i | 0 <= i < |leases| && leases[i].objectKey in t.queue ::
                t.queue[leases[i].objectKey].nextAttempt <= t.queue[k].nextAttempt
    {
      LeasedIsLeasedBy(ready.queue, c.leased, c.ids, k);
      LeftOutIsLater(s, now, limit, c, k);
    }
  }

  lemma LeasedAtMost(s: State, now: Millis, limit: nat, c: ClaimChoice)
    requires ValidChoice(s, now, limit, c)
    ensures |c.leased| <= limit && forall i, j | 0 <= i < j < |c.leased| :: c.leased[i] != c.leased[j]
  {
    hide BeforeLeasing, AllReserved, Fresh, DueRows;
  }

  lemma LeasedIsLeasedBy(queue: map<string, QueueRow>, keys: seq<string>, ids: seq<string>, k: string)
    requires AllQueued(queue, keys) && |ids| == |keys|
    ensures k in keys ==> IsLeasedBy(Leases(queue, keys, ids), k)
  {
    if k in keys {
      var i :| 0 <= i < |keys| && keys[i] == k;
      assert Leases(queue, keys, ids)[i].objectKey == k;
    }
  }

  // ----- What a drain reports -----

  /** The leases whose files cannot be removed. */
  function StuckCount(leases: seq<GarbageLease>, stuck: set<string>): nat {
    if leases == [] then 0
    else
      StuckCount(leases[1..], stuck)
      + var file := ObjectPath(leases[0].objectKey); if file.Some? && file.value in stuck then 1 else 0
  }

  lemma {:induction false} SettlingCounts(
    s: State, leases: seq<GarbageLease>, now: StoredMillis, stuck: set<string>, report: Report)
    ensures var done := SettleLeases(s, leases, now, stuck, report).result;
            && StuckCount(leases, stuck) <= |leases|
            && (done.Ok? <==> forall i | 0 <= i < |leases| :: ObjectPath(leases[i].objectKey).Some?)
            && (done.Ok? ==>
                  done.value == report.(deleted := report.deleted + |leases| - StuckCount(leases, stuck),
                                        failed := report.failed + StuckCount(leases, stuck)))
    decreases |leases|
  {
    hide ObjectPath, FailLease, Acknowledge;
    if leases != [] {
      var first, file := leases[0], ObjectPath(leases[0].objectKey);
      assert leases == [first] + leases[1..];
      if file.Some? && file.value in stuck {
        SettlingCounts(FailLease(s, first, now), leases[1..], now, stuck, report.(failed := report.failed + 1));
      } else if file.Some? {
        SettlingCounts(Acknowledge(s.(bodies := s.bodies - {file.value}), first), leases[1..], now, stuck,
                       report.(deleted := report.deleted + 1));
      } else {
        StuckAtMost(leases, stuck);
      }
    }
  }

  lemma {:induction false} StuckAtMost(leases: seq<GarbageLease>, stuck: set<string>)
    ensures StuckCount(leases, stuck) <= |leases|
  {
    hide ObjectPath;
    if leases != [] {
      StuckAtMost(leases[1..], stuck);
    }
  }

  /**
   A drain that succeeds reports what its claim did, and of the leases it claimed those with a
   stuck file as failed and all others as deleted.
   */
  lemma DrainReports(s: State, now: Millis, limit: nat, c: ClaimChoice, stuck: set<string>)
    requires ValidGcRequest(now, limit) ==> ValidChoice(s, now, limit, c)
    requires DrainGarbage(s, now, limit, c, stuck).result.Ok?
    ensures ValidGcRequest(now, limit) && ClaimGarbage(s, now, limit, c).result.Ok?
    ensures var claim := ClaimGarbage(s, now, limit, c).result.value;
            var failed := StuckCount(claim.leases, stuck);
            && failed <= |claim.leases| == claim.report.claimed && claim.report.deleted == claim.report.failed == 0
            && DrainGarbage(s, now, limit, c, stuck).result.value ==
               claim.report.(deleted := |claim.leases| - failed, failed := failed)
  {
    hide ValidChoice, SettleLeases, BeforeLeasing, AfterLeasing;
    SettlingCounts(ClaimGarbage(s, now, limit, c).state, ClaimGarbage(s, now, limit, c).result.value.leases, now, stuck,
                   ClaimGarbage(s, now, limit, c).result.value.report);
  }
}
